// The functions of scripts/snapshot_and_airdrop.py that act on the new token's chain: `airdrop`, which may die
// before any transaction or log line, `verifyAirdrop`, and the MultiSend contract they use.
module MigrationMachine {
  import opened Books
  import opened Common
  import opened SnapshotEvents
  import opened MigrationSpec
  import opened MigrationRuns

  datatype Ending = Alive | Died | AssertionFailed | Reverted | Completed

  function CeilDiv(n: nat): nat {
    (n + BATCH_SIZE - 1) / BATCH_SIZE
  }

  function BatchEnd(list: seq<Payment>, i: nat): (end: nat)
    requires i <= |list|
    ensures end <= |list|
  {
    if i + BATCH_SIZE < |list| then i + BATCH_SIZE else |list|
  }

  /** Where the loop over batches gets. */
  datatype Progress = Progress(world: World, left: nat, sent: nat, outcome: Ending)

  function Sending(c: Config, w: World, list: seq<Payment>, budget: nat, sent: nat): Progress
    decreases |list|
  {
    if list == [] then Progress(w, budget, sent, Alive)
    else if budget == 0 then Progress(w, 0, sent, Died)
    else
      var batch := list[..BatchEnd(list, 0)];
      match MultiSend(c, w, batch, Owed(batch))
      case None => Progress(w, budget, sent, Reverted)
      case Some(paid) => Sending(c, paid, list[|batch|..], budget - 1, sent + 1)
  }

  lemma SendingNext(c: Config, w: World, list: seq<Payment>, budget: nat, sent: nat, batch: seq<Payment>)
    requires list != [] && budget > 0 && batch == list[..BatchEnd(list, 0)]
    ensures Sending(c, w, list, budget, sent)
         == match MultiSend(c, w, batch, Owed(batch))
            case None => Progress(w, budget, sent, Reverted)
            case Some(paid) => Sending(c, paid, list[|batch|..], budget - 1, sent + 1)
  {
  }

  lemma FirstBatchFits(c: Config, w: World, list: seq<Payment>)
    requires ValidConfig(c) && Inv(c, w) && w.gatewayLogged && !w.finished
    requires list != [] && list == Unpaid(c, w) && w.allowance == Owed(list)
    ensures var batch, rest := list[..BatchEnd(list, 0)], list[BatchEnd(list, 0)..];
            && MultiSend(c, w, batch, Owed(batch)).Some?
            && var paid := MultiSend(c, w, batch, Owed(batch)).value;
            && Inv(c, paid) && paid.gatewayLogged && !paid.finished
            && rest == Unpaid(c, paid) && paid.allowance == Owed(rest)
            && CeilDiv(|list|) == 1 + CeilDiv(|rest|)
  {
    var batch, rest := list[..BatchEnd(list, 0)], list[BatchEnd(list, 0)..];
    SendKeeps(c, w, batch);
    assert list == batch + rest;
    Joined(batch, rest, c.airdropper);
  }

  /** Every batch of the list goes through. */
  predicate AllGoThrough(c: Config, w: World, list: seq<Payment>)
    decreases |list|
  {
    list == []
    || var batch := list[..BatchEnd(list, 0)];
       match MultiSend(c, w, batch, Owed(batch))
       case None => false
       case Some(paid) => AllGoThrough(c, paid, list[|batch|..])
  }

  // Once everything unpaid is approved, no batch reverts,
  lemma {:induction false} ApprovedGoThrough(c: Config, w: World, list: seq<Payment>)
    requires ValidConfig(c) && Inv(c, w) && w.gatewayLogged && !w.finished
    requires list == Unpaid(c, w) && w.allowance == Owed(list)
    ensures AllGoThrough(c, w, list)
    decreases |list|
  {
    if list == [] {
    } else {
      var batch, rest := list[..BatchEnd(list, 0)], list[BatchEnd(list, 0)..];
      FirstBatchFits(c, w, list);
      ApprovedGoThrough(c, MultiSend(c, w, batch, Owed(batch)).value, rest);
    }
  }

  lemma NextBatch(list: seq<Payment>, batch: seq<Payment>, rest: seq<Payment>)
    requires list != [] && batch == list[..BatchEnd(list, 0)] && rest == list[BatchEnd(list, 0)..]
    ensures BatchPlan(list) + [LogSuccess] == [Send(batch)] + (BatchPlan(rest) + [LogSuccess])
  {
    assert list[..|list|] == list;
    assert BatchPlan(list) == [Send(batch)] + BatchPlan(rest);
  }

  lemma PlanNext(c: Config, w: World, list: seq<Payment>, batch: seq<Payment>, rest: seq<Payment>, budget: nat)
    requires ValidConfig(c) && budget > 0 && MultiSend(c, w, batch, Owed(batch)).Some?
    requires list != [] && batch == list[..BatchEnd(list, 0)] && rest == list[BatchEnd(list, 0)..]
    ensures ApplyUpTo(c, w, BatchPlan(list) + [LogSuccess], budget)
         == ApplyUpTo(c, MultiSend(c, w, batch, Owed(batch)).value, BatchPlan(rest) + [LogSuccess], budget - 1)
  {
    NextBatch(list, batch, rest);
    var actions := BatchPlan(list) + [LogSuccess];
    assert actions[0] == Send(batch) && actions[1..] == BatchPlan(rest) + [LogSuccess];
  }

  // and the loop does what was planned.
  lemma {:induction false} SendingAsPlanned(c: Config, w: World, list: seq<Payment>, budget: nat, sent: nat)
    requires ValidConfig(c) && AllGoThrough(c, w, list)
    ensures var p := Sending(c, w, list, budget, sent);
            && p.outcome in {Alive, Died} && (p.outcome.Died? ==> p.left == 0)
            && ApplyUpTo(c, w, BatchPlan(list) + [LogSuccess], budget)
               == if p.outcome.Died? then p.world else ApplyUpTo(c, p.world, [LogSuccess], p.left)
    decreases |list|
  {
    if list == [] {
      assert BatchPlan(list) + [LogSuccess] == [LogSuccess];
    } else if budget > 0 {
      var batch, rest := list[..BatchEnd(list, 0)], list[BatchEnd(list, 0)..];
      SendingAsPlanned(c, MultiSend(c, w, batch, Owed(batch)).value, rest, budget - 1, sent + 1);
      PlanNext(c, w, list, batch, rest, budget);
    }
  }

  // If it survives then the batches are as many as the list needs,
  lemma {:induction false} SendingCounts(c: Config, w: World, list: seq<Payment>, budget: nat, sent: nat)
    requires AllGoThrough(c, w, list)
    ensures var p := Sending(c, w, list, budget, sent);
            p.outcome.Alive? ==> p.sent == sent + CeilDiv(|list|)
    decreases |list|
  {
    if list == [] {
    } else if budget > 0 {
      var batch := list[..BatchEnd(list, 0)];
      SendingCounts(c, MultiSend(c, w, batch, Owed(batch)).value, list[|batch|..], budget - 1, sent + 1);
    }
  }

  /** The loop did not reach the success line, and if it survived, it used up the approval. */
  ghost predicate UsedUp(c: Config, p: Progress)
    requires ValidConfig(c)
  {
    !p.world.finished && (p.outcome.Alive? ==> Inv(c, p.world) && p.world.allowance == 0)
  }

  // all is paid and the approval is used up.
  lemma {:induction false} SendingPaysAll(c: Config, w: World, list: seq<Payment>, budget: nat, sent: nat)
    requires ValidConfig(c) && Inv(c, w) && w.gatewayLogged && !w.finished
    requires list == Unpaid(c, w) && w.allowance == Owed(list)
    ensures UsedUp(c, Sending(c, w, list, budget, sent))
    decreases |list|
  {
    if list == [] || budget == 0 {
    } else {
      var batch := list[..BatchEnd(list, 0)];
      FirstBatchFits(c, w, list);
      SendingPaysAll(c, MultiSend(c, w, batch, Owed(batch)).value, list[|batch|..], budget - 1, sent + 1);
    }
  }

  lemma ApprovalComesFirst(c: Config, w: World, list: seq<Payment>, total: int, budget: nat)
    requires ValidConfig(c) && total == Owed(list)
    ensures ApplyUpTo(c, w, SendingPlan(w.allowance, list), budget)
         == if w.allowance != 0 then ApplyUpTo(c, w, BatchPlan(list) + [LogSuccess], budget)
            else if budget == 0 then w
            else ApplyUpTo(c, Apply(c, w, Approve(total)), BatchPlan(list) + [LogSuccess], budget - 1)
  {
    if w.allowance == 0 {
      assert SendingPlan(0, list)[1..] == BatchPlan(list) + [LogSuccess];
    } else {
      assert SendingPlan(w.allowance, list) == BatchPlan(list) + [LogSuccess];
    }
  }

  // The assertion before the batches cannot fail.
  lemma AirdropperHasFunds(c: Config, w: World)
    requires ValidConfig(c) && Inv(c, w) && w.gatewayLogged
    ensures At(w.bal, c.airdropper) >= Owed(Unpaid(c, w))
  {
    var k := |Of(c, Airdrop, w.events)|;
    assert Of(c, Airdrop, w.events) == Due(c)[..k];
    AirdropperCanPay(c, k);
  }

  lemma MultiSendHoldsNothing(c: Config, w: World)
    requires ValidConfig(c) && Inv(c, w)
    ensures At(w.bal, c.multiSend) == 0
  {
    FourAccounts(c);
    var k := |Of(c, Airdrop, w.events)|;
    assert Of(c, Airdrop, w.events) == Due(c)[..k];
    PaymentsAreToHolders(c, k);
  }

  // Once everything unpaid is approved the loop either dies or satisfies the three assertions after it, and what is
  // left of the plan is the success line.
  lemma LoopGoesThrough(c: Config, w: World, list: seq<Payment>, budget: nat)
    requires ValidConfig(c) && Inv(c, w) && w.gatewayLogged && !w.finished
    requires list == Unpaid(c, w) && w.allowance == Owed(list)
    ensures var p := Sending(c, w, list, budget, 0);
            && p.outcome in {Alive, Died} && !p.world.finished
            && (p.outcome.Alive? ==>
                  p.world.allowance == 0 && At(p.world.bal, c.multiSend) == 0 && p.sent == CeilDiv(|list|))
            && ApplyUpTo(c, w, BatchPlan(list) + [LogSuccess], budget)
               == if p.outcome.Died? || p.left == 0 then p.world else p.world.(finished := true)
  {
    var p := Sending(c, w, list, budget, 0);
    ApprovedGoThrough(c, w, list);
    SendingAsPlanned(c, w, list, budget, 0);
    SendingCounts(c, w, list, budget, 0);
    SendingPaysAll(c, w, list, budget, 0);
    if p.outcome.Alive? {
      MultiSendHoldsNothing(c, p.world);
      assert [LogSuccess][1..] == [];
    }
  }

  // The batch that the loop takes at position i is the first one of what is left there.
  lemma BatchOfRest(list: seq<Payment>, i: nat)
    requires i < |list|
    ensures list[i..BatchEnd(list, i)] == list[i..][..BatchEnd(list[i..], 0)]
    ensures list[BatchEnd(list, i)..] == list[i..][BatchEnd(list[i..], 0)..]
  {
  }

  class Migration {
    const c: Config
    var bal: Book<Account>
    var supply: int
    var allowance: int
    var events: seq<Event>
    var gatewayLogged: bool
    var finished: bool

    ghost function State(): World
      reads this
    {
      World(bal, supply, allowance, events, gatewayLogged, finished)
    }

    ghost predicate Valid()
      reads this
    {
      ValidConfig(c) && Inv(c, State())
    }

    constructor (config: Config)
      requires ValidConfig(config)
      ensures c == config && State() == Genesis(c) && Valid()
    {
      c := config;
      bal := map[config.newGateway := config.minted, config.airdropper := INIT_SUPPLY - config.minted];
      supply, allowance := INIT_SUPPLY, 0;
      events := [Event(config.zero, config.newGateway, config.minted),
                 Event(config.zero, config.airdropper, INIT_SUPPLY - config.minted)];
      gatewayLogged, finished := false, false;
      new;
      GenesisHolds(c);
    }

    // ---- The contracts ----

    method Transfer(from: Account, to: Account, amount: int)
      modifies this`bal, this`events
      ensures State() == Transferred(old(State()), from, to, amount)
    {
      bal := Move(bal, from, to, amount);
      events := events + [Event(from, to, amount)];
    }

    /** multiSendToken; a revert restores the whole state. */
    method MultiSendToken(batch: seq<Payment>, total: int) returns (ok: bool)
      modifies this`bal, this`events, this`allowance
      ensures match MultiSend(c, old(State()), batch, total)
              case None => !ok && State() == old(State())
              case Some(w) => ok && State() == w
    {
      var bal0, events0, allowance0 := bal, events, allowance;
      if allowance < total || At(bal, c.airdropper) < total {
        return false;
      }
      Transfer(c.airdropper, c.multiSend, total);
      allowance := allowance - total;
      ghost var pulled := State();
      assert batch[0..] == batch;
      for i := 0 to |batch|
        invariant PayOut(c, State(), batch[i..]) == PayOut(c, pulled, batch)
        invariant gatewayLogged == old(gatewayLogged)
      {
        assert batch[i..][1..] == batch[i + 1..];
        if At(bal, c.multiSend) < batch[i].amount {
          bal, events, allowance := bal0, events0, allowance0;
          return false;
        }
        Transfer(c.multiSend, batch[i].to, batch[i].amount);
      }
      if At(bal, c.multiSend) != At(bal0, c.multiSend) {
        bal, events, allowance := bal0, events0, allowance0;
        return false;
      }
      return true;
    }

    // ---- getTXsAndMintBalancesFromTransferEvents ----

    method ReadChain() returns (listAirdropTXs: seq<Payment>, initialMintTXs: seq<Payment>)
      ensures listAirdropTXs == Of(c, Airdrop, events) && initialMintTXs == Of(c, Mint, events)
    {
      listAirdropTXs, initialMintTXs := [], [];
      for i := 0 to |events|
        invariant listAirdropTXs == Of(c, Airdrop, events[..i]) && initialMintTXs == Of(c, Mint, events[..i])
      {
        var e := events[i];
        OfAppended(c, Airdrop, events[..i], e);
        OfAppended(c, Mint, events[..i], e);
        assert events[..i + 1] == events[..i] + [e];
        if e.from == c.airdropper && e.to == c.newGateway {
          continue;
        } else if e.from == c.multiSend {
          listAirdropTXs := listAirdropTXs + [Payment(e.to, e.amount)];
        } else if e.from == c.zero {
          initialMintTXs := initialMintTXs + [Payment(e.to, e.amount)];
        }
      }
      assert events[..|events|] == events;
    }

    // ---- airdrop ----

    method SkipList(listAirdropTXs: seq<Payment>) returns (skip: seq<Account>)
      ensures forall a :: a in skip <==> a in Base(c) + Receivers(listAirdropTXs)
    {
      skip := [c.airdropper, c.newGateway, c.known.gateway, c.known.deployer];
      ghost var rest := listAirdropTXs;
      for i := 0 to |listAirdropTXs|
        invariant rest == listAirdropTXs[i..]
        invariant forall a :: a in Base(c) + Receivers(listAirdropTXs) <==> a in skip || a in Receivers(rest)
      {
        skip := skip + [listAirdropTXs[i].to];
        rest := rest[1..];
      }
    }

    method BuildList(skip: seq<Account>, ghost skipped: set<Account>) returns (listOfTxtoSend: seq<Payment>, total: int)
      requires ValidConfig(c) && forall a :: a in skip <==> a in skipped
      ensures listOfTxtoSend == ToSend(c, skipped, 0) && total == Owed(listOfTxtoSend)
    {
      listOfTxtoSend, total := [], 0;
      for i := 0 to |c.snapshot.accounts|
        invariant listOfTxtoSend + ToSend(c, skipped, i) == ToSend(c, skipped, 0)
        invariant total == Owed(listOfTxtoSend)
      {
        var a, b := c.snapshot.accounts[i], c.snapshot.balances[i];
        ghost var later := ToSend(c, skipped, i + 1);
        assert listOfTxtoSend + ([] + later) == listOfTxtoSend + later;
        assert listOfTxtoSend + ([Payment(a, b)] + later) == (listOfTxtoSend + [Payment(a, b)]) + later;
        if a !in skip {
          if b >= AIRDROP_CUTOFF {
            Joined(listOfTxtoSend, [Payment(a, b)], a);
            listOfTxtoSend := listOfTxtoSend + [Payment(a, b)];
            total := total + b;
          }
        }
      }
    }

    /** The assertions before the top-up, and the amount of it. */
    method CheckTopUp(minted: int) returns (ok: bool, amount: int, supplyDifference: int)
      requires ValidConfig(c) && MintsAsExpected(c, State()) && minted == Of(c, Mint, events)[0].amount
      ensures ok <==> MayTopUp(c, State())
      ensures ok ==> amount == AmountToTransfer(c, At(bal, c.newGateway)) && supplyDifference == SupplyDifference(c)
    {
      ok, amount, supplyDifference := false, 0, INIT_SUPPLY - c.snapshot.totalSupply;
      if !(c.snapshot.totalSupply < INIT_SUPPLY) || INIT_SUPPLY != supply {
        return;
      }
      var gatewayBalance := At(bal, c.newGateway);
      if gatewayBalance != minted {
        return;
      }
      var balanceDifference := c.snapshot.balances[1] - gatewayBalance;
      if !(balanceDifference > 0) || !(balanceDifference > supplyDifference) {
        return;
      }
      amount := balanceDifference + supplyDifference;
      if (gatewayBalance + amount) - c.snapshot.balances[1] != supplyDifference {
        return;
      }
      ok := At(bal, c.airdropper) >= amount;
    }

    /** The top-up and its log line. */
    method AirdropToGateway(minted: int, budget: nat, ghost rest: seq<Action>) returns (left: nat, outcome: Ending)
      requires Valid() && !gatewayLogged && !finished && MintsAsExpected(c, State())
      requires minted == Of(c, Mint, events)[0].amount
      modifies this`bal, this`events, this`gatewayLogged
      ensures outcome.AssertionFailed? <==> !old(MayTopUp(c, State()))
      ensures outcome.AssertionFailed? ==> State() == old(State())
      ensures outcome.Died? ==> State() == ApplyUpTo(c, old(State()), [TopUpGateway, LogTopUp] + rest, budget)
      ensures outcome.Alive? ==>
                && ApplyUpTo(c, old(State()), [TopUpGateway, LogTopUp] + rest, budget)
                   == ApplyUpTo(c, State(), rest, left)
                && Inv(c, State()) && gatewayLogged
                && Of(c, Airdrop, events) == Of(c, Airdrop, old(events))
      ensures outcome in {Alive, Died, AssertionFailed}
    {
      left := budget;
      var ok, amount, supplyDifference := CheckTopUp(minted);
      if !ok {
        return left, AssertionFailed;
      }
      ghost var w := State();
      WhenBlocked(c, w);
      TopUpKeeps(c, w);
      TwoActions(c, w, rest, budget);
      ghost var topped := Apply(c, w, TopUpGateway);
      EnabledKeeps(c, topped, LogTopUp);
      if left == 0 {
        return left, Died;
      }
      Transfer(c.airdropper, c.newGateway, amount);
      left := left - 1;
      FourAccounts(c);
      assert State() == topped;
      if At(bal, c.newGateway) - c.snapshot.balances[1] != supplyDifference {
        return left, AssertionFailed;
      }
      if left == 0 {
        return left, Died;
      }
      gatewayLogged := true;
      left := left - 1;
      assert State() == Apply(c, topped, LogTopUp);
      outcome := Alive;
    }

    method SumBatch(batch: seq<Payment>) returns (total: int)
      ensures total == Owed(batch)
    {
      total := 0;
      for i := 0 to |batch|
        invariant total == Owed(batch[..i])
      {
        assert batch[..i + 1] == batch[..i] + [batch[i]];
        Joined(batch[..i], [batch[i]], c.airdropper);
        total := total + batch[i].amount;
      }
      assert batch[..|batch|] == batch;
    }

    /** The batch at position i: unless the run dies, its total is added up and sent along. */
    method SendBatch(list: seq<Payment>, i: nat, left0: nat, sent0: nat)
      returns (left: nat, sent: nat, outcome: Ending)
      requires i < |list|
      modifies this`bal, this`events, this`allowance
      ensures outcome in {Alive, Died, Reverted}
      ensures old(Sending(c, State(), list[i..], left0, sent0))
           == if outcome == Alive then Sending(c, State(), list[BatchEnd(list, i)..], left, sent)
              else Progress(State(), left, sent, outcome)
    {
      left, sent := left0, sent0;
      if left == 0 {
        return left, sent, Died;
      }
      var batch := list[i..BatchEnd(list, i)];
      BatchOfRest(list, i);
      SendingNext(c, State(), list[i..], left, sent, batch);
      var total := SumBatch(batch);
      var ok := MultiSendToken(batch, total);
      if !ok {
        return left, sent, Reverted;
      }
      return left - 1, sent + 1, Alive;
    }

    /** The loop over batches. */
    method SendBatches(list: seq<Payment>, budget: nat) returns (left: nat, sent: nat, outcome: Ending)
      modifies this`bal, this`events, this`allowance
      ensures Progress(State(), left, sent, outcome) == Sending(c, old(State()), list, budget, 0)
    {
      left, sent := budget, 0;
      var i := 0;
      ghost var target := Sending(c, State(), list, budget, 0);
      assert list[0..] == list;
      outcome := Alive;
      while i < |list| && outcome == Alive
        invariant i <= |list| && outcome in {Alive, Died, Reverted}
        invariant outcome == Alive ==> Sending(c, State(), list[i..], left, sent) == target
        invariant outcome != Alive ==> Progress(State(), left, sent, outcome) == target
        decreases |list| - i, outcome == Alive
      {
        left, sent, outcome := SendBatch(list, i, left, sent);
        i := BatchEnd(list, i);
      }
    }

    /** What is still to send, and sending it. */
    method SendRemaining(listAirdropTXs: seq<Payment>, budget: nat) returns (outcome: Ending)
      requires Valid() && gatewayLogged && !finished && listAirdropTXs == Of(c, Airdrop, events)
      modifies this`bal, this`events, this`allowance, this`finished
      ensures State() == ApplyUpTo(c, old(State()), SendingPlan(old(allowance), old(Unpaid(c, State()))), budget)
      ensures outcome in {Died, Completed} && (outcome.Completed? <==> finished)
    {
      var skip := SkipList(listAirdropTXs);
      var listOfTxtoSend, total := BuildList(skip, Base(c) + Receivers(listAirdropTXs));
      RemainingIsUnpaid(c, State());
      AirdropperHasFunds(c, State());
      if At(bal, c.airdropper) < total {
        return AssertionFailed;
      }
      outcome := SendAll(listOfTxtoSend, total, budget);
    }

    /** The run once the mints are as expected. */
    method Proceed(listAirdropTXs: seq<Payment>, minted: int, budget: nat) returns (outcome: Ending)
      requires Valid() && !finished && MintsAsExpected(c, State())
      requires listAirdropTXs == Of(c, Airdrop, events) && minted == Of(c, Mint, events)[0].amount
      modifies this
      ensures State() == (if old(gatewayLogged) || old(MayTopUp(c, State())) then
                            ApplyUpTo(c, old(State()), old(Plan(c, State())), budget)
                          else old(State()))
      ensures outcome in {Died, AssertionFailed, Completed} && (outcome.Completed? <==> finished)
      ensures outcome.AssertionFailed? <==> !old(gatewayLogged) && !old(MayTopUp(c, State()))
    {
      ghost var w := State();
      RemainingIsUnpaid(c, w);
      var left := budget;
      ghost var sending := SendingPlan(allowance, Remaining(c, w));
      if !gatewayLogged {
        left, outcome := AirdropToGateway(minted, left, sending);
        if !outcome.Alive? {
          return;
        }
      } else {
        assert Plan(c, w) == sending;
      }
      outcome := SendRemaining(listAirdropTXs, left);
    }

    /** One run of the script from `airdrop` on. It changes the chain as planned, and its only assertions that can
        fail are those before the top-up. */
    method RunAirdrop(budget: nat) returns (outcome: Ending)
      requires Valid()
      modifies this
      ensures Valid() && State() == Ran(c, old(State()), budget)
      ensures outcome in {Died, AssertionFailed, Completed}
      ensures outcome.AssertionFailed? <==> !old(finished) && Blocked(c, old(State()))
      ensures outcome.Completed? <==> finished
    {
      RunKeeps(c, State(), budget);
      if finished {
        return Completed;
      }
      var listAirdropTXs, initialMintTXs := ReadChain();
      if |initialMintTXs| != 2 || initialMintTXs[0].to != c.newGateway {
        return AssertionFailed;
      }
      outcome := Proceed(listAirdropTXs, initialMintTXs[0].amount, budget);
    }

    // The approval of everything still to send.
    method ApproveTotal(total: int)
      requires Valid() && Enabled(c, State(), Approve(total))
      modifies this`allowance
      ensures Valid() && State() == Apply(c, old(State()), Approve(total))
      ensures Unpaid(c, State()) == Unpaid(c, old(State()))
    {
      EnabledKeeps(c, State(), Approve(total));
      allowance := total;
    }

    /** Approval, batches, final assertions and the success line. */
    method SendAll(list: seq<Payment>, total: int, budget: nat) returns (outcome: Ending)
      requires Valid() && gatewayLogged && !finished
      requires list == Unpaid(c, State()) && total == Owed(list)
      modifies this`bal, this`events, this`allowance, this`finished
      ensures State() == ApplyUpTo(c, old(State()), SendingPlan(old(allowance), list), budget)
      ensures outcome in {Died, Completed} && (outcome.Completed? <==> finished)
    {
      ghost var target := ApplyUpTo(c, State(), SendingPlan(allowance, list), budget);
      ApprovalComesFirst(c, State(), list, total, budget);
      if allowance != 0 {
        outcome := SendApproved(list, budget, target);
      } else if budget == 0 {
        outcome := Died;
      } else {
        ApproveTotal(total);
        outcome := SendApproved(list, budget - 1, target);
      }
    }

    method SendApproved(list: seq<Payment>, budget: nat, ghost target: World) returns (outcome: Ending)
      requires Valid() && gatewayLogged && !finished
      requires list == Unpaid(c, State()) && allowance == Owed(list)
      requires target == ApplyUpTo(c, State(), BatchPlan(list) + [LogSuccess], budget)
      modifies this`bal, this`events, this`allowance, this`finished
      ensures State() == target
      ensures outcome in {Died, Completed} && (outcome.Completed? <==> finished)
    {
      LoopGoesThrough(c, State(), list, budget);
      var left, sent;
      left, sent, outcome := SendBatches(list, budget);
      if !outcome.Alive? {
        return;
      }
      if allowance != 0 || At(bal, c.multiSend) != 0 || sent != CeilDiv(|list|) {
        return AssertionFailed;
      }
      if left == 0 {
        return Died;
      }
      finished := true;
      return Completed;
    }
  }
}
