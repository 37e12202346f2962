// Runs of the migration: what one run plans, what is left when it dies part-way, and what every sequence of runs
// keeps. No other account moves the new token meanwhile.
module MigrationRuns {
  import opened Books
  import opened Common
  import opened SnapshotEvents
  import opened SnapshotFile
  import opened MigrationSpec

  // ---- One run ----

  datatype Action = TopUpGateway | LogTopUp | Approve(total: int) | Send(batch: seq<Payment>) | LogSuccess

  function OldGatewayBalance(c: Config): nat
    requires ValidConfig(c)
  {
    c.snapshot.balances[1]
  }

  function SupplyDifference(c: Config): int {
    INIT_SUPPLY - c.snapshot.totalSupply
  }

  /** What the new gateway still lacks of the old gateway's balance and of the supply to be burnt later. */
  function AmountToTransfer(c: Config, gatewayBalance: int): int
    requires ValidConfig(c)
  {
    (OldGatewayBalance(c) - gatewayBalance) + SupplyDifference(c)
  }

  /** The two genesis mints, the first one to the new gateway. */
  predicate MintsAsExpected(c: Config, w: World) {
    var mints := Of(c, Mint, w.events);
    |mints| == 2 && mints[0].to == c.newGateway
  }

  /** The assertions made before the gateway is topped up. */
  predicate MayTopUp(c: Config, w: World)
    requires ValidConfig(c) && MintsAsExpected(c, w)
  {
    var balance := At(w.bal, c.newGateway);
    && c.snapshot.totalSupply < INIT_SUPPLY
    && INIT_SUPPLY == w.supply
    && balance == Of(c, Mint, w.events)[0].amount
    && OldGatewayBalance(c) - balance > 0
    && OldGatewayBalance(c) - balance > SupplyDifference(c)
    && At(w.bal, c.airdropper) >= AmountToTransfer(c, balance)
  }

  /** A run that fails one of its first assertions has done nothing. */
  predicate Blocked(c: Config, w: World)
    requires ValidConfig(c)
  {
    !MintsAsExpected(c, w) || (!w.gatewayLogged && !MayTopUp(c, w))
  }

  function Remaining(c: Config, w: World): seq<Payment>
    requires ValidConfig(c)
  {
    ToSend(c, Base(c) + Receivers(Of(c, Airdrop, w.events)), 0)
  }

  function BatchPlan(list: seq<Payment>): seq<Action>
    decreases |list|
  {
    if list == [] then []
    else if |list| <= BATCH_SIZE then [Send(list)]
    else [Send(list[..BATCH_SIZE])] + BatchPlan(list[BATCH_SIZE..])
  }

  function SendingPlan(allowance: int, list: seq<Payment>): seq<Action> {
    (if allowance == 0 then [Approve(Owed(list))] else []) + (BatchPlan(list) + [LogSuccess])
  }

  function Plan(c: Config, w: World): seq<Action>
    requires ValidConfig(c)
  {
    (if w.gatewayLogged then [] else [TopUpGateway, LogTopUp]) + SendingPlan(w.allowance, Remaining(c, w))
  }

  function Apply(c: Config, w: World, action: Action): World
    requires ValidConfig(c)
  {
    match action
    case TopUpGateway => Transferred(w, c.airdropper, c.newGateway, AmountToTransfer(c, At(w.bal, c.newGateway)))
    case LogTopUp => w.(gatewayLogged := true)
    case Approve(total) => w.(allowance := total)
    case Send(batch) => (match MultiSend(c, w, batch, Owed(batch)) case None => w case Some(paid) => paid)
    case LogSuccess => w.(finished := true)
  }

  /** The actions, one after the other, until the run dies. */
  function ApplyUpTo(c: Config, w: World, actions: seq<Action>, budget: nat): World
    requires ValidConfig(c)
    decreases |actions|
  {
    if actions == [] || budget == 0 then w else ApplyUpTo(c, Apply(c, w, actions[0]), actions[1..], budget - 1)
  }

  /** One run that dies after `budget` actions, unless it is done before. */
  function Ran(c: Config, w: World, budget: nat): World
    requires ValidConfig(c)
  {
    if w.finished || Blocked(c, w) then w else ApplyUpTo(c, w, Plan(c, w), budget)
  }

  function RanAll(c: Config, w: World, budgets: seq<nat>): World
    requires ValidConfig(c)
  {
    if budgets == [] then w else Ran(c, RanAll(c, w, budgets[..|budgets| - 1]), budgets[|budgets| - 1])
  }

  lemma TwoActions(c: Config, w: World, rest: seq<Action>, budget: nat)
    requires ValidConfig(c)
    ensures var plan, topped := [TopUpGateway, LogTopUp] + rest, Apply(c, w, TopUpGateway);
            ApplyUpTo(c, w, plan, budget)
            == if budget == 0 then w
               else if budget == 1 then topped
               else ApplyUpTo(c, Apply(c, topped, LogTopUp), rest, budget - 2)
  {
    var plan: seq<Action> := [TopUpGateway, LogTopUp] + rest;
    assert plan[1..] == [LogTopUp] + rest && plan[1..][1..] == rest;
  }

  // ---- What every run keeps ----

  /** The assertions before the top-up, at genesis. */
  predicate MayStart(c: Config)
    requires ValidConfig(c)
  {
    && c.snapshot.totalSupply < INIT_SUPPLY
    && OldGatewayBalance(c) - c.minted > SupplyDifference(c)
  }

  predicate Topped(c: Config, w: World) {
    Of(c, TopUp, w.events) != []
  }

  function TopUpGiven(c: Config, topped: bool): int
    requires ValidConfig(c)
  {
    if topped then AmountToTransfer(c, c.minted) else 0
  }

  /** The balance of every account once the gateway is or is not topped up and the given payments are made. */
  function Expected(c: Config, topped: bool, paid: seq<Payment>, a: Account): int
    requires ValidConfig(c)
  {
    (if a == c.newGateway then c.minted + TopUpGiven(c, topped) else 0)
    + (if a == c.airdropper then INIT_SUPPLY - c.minted - TopUpGiven(c, topped) - Owed(paid) else 0)
    + Received(paid, a)
  }

  /** The chain shows a prefix of what is due, and nothing that a run did not put there. */
  predicate EventsAsExpected(c: Config, w: World)
    requires ValidConfig(c)
  {
    && Of(c, Airdrop, w.events) <= Due(c)
    && Of(c, Mint, w.events) == [Payment(c.newGateway, c.minted), Payment(c.airdropper, INIT_SUPPLY - c.minted)]
    && (Topped(c, w) ==>
          MayStart(c) && Of(c, TopUp, w.events) == [Payment(c.newGateway, AmountToTransfer(c, c.minted))])
  }

  /** What is due and not yet paid. */
  function Unpaid(c: Config, w: World): seq<Payment>
    requires ValidConfig(c) && EventsAsExpected(c, w)
  {
    Due(c)[|Of(c, Airdrop, w.events)|..]
  }

  ghost predicate BalancesAsExpected(c: Config, w: World)
    requires ValidConfig(c)
  {
    w.supply == INIT_SUPPLY && forall a :: At(w.bal, a) == Expected(c, Topped(c, w), Of(c, Airdrop, w.events), a)
  }

  /** Either nothing is approved and nothing paid, or exactly what is still owed is approved; and each stage of the
      run implies the ones before it. */
  predicate StagesAsExpected(c: Config, w: World)
    requires ValidConfig(c) && EventsAsExpected(c, w)
  {
    && ((w.allowance == 0 && Of(c, Airdrop, w.events) == []) || w.allowance == Owed(Unpaid(c, w)))
    && (w.allowance != 0 || Of(c, Airdrop, w.events) != [] ==> w.gatewayLogged)
    && (w.gatewayLogged ==> Topped(c, w))
    && (w.finished ==> w.gatewayLogged && w.allowance == 0 && Unpaid(c, w) == [])
  }

  ghost predicate Inv(c: Config, w: World)
    requires ValidConfig(c)
  {
    EventsAsExpected(c, w) && BalancesAsExpected(c, w) && StagesAsExpected(c, w)
  }

  lemma FourAccounts(c: Config)
    requires ValidConfig(c)
    ensures c.airdropper != c.newGateway && c.airdropper != c.multiSend && c.airdropper != c.zero
    ensures c.newGateway != c.multiSend && c.newGateway != c.zero && c.multiSend != c.zero
  {
    var four := [c.airdropper, c.newGateway, c.multiSend, c.zero];
    assert Distinct(four);
    assert four[0] != four[1] && four[0] != four[2] && four[0] != four[3];
    assert four[1] != four[2] && four[1] != four[3] && four[2] != four[3];
  }

  lemma GenesisHolds(c: Config)
    requires ValidConfig(c)
    ensures Inv(c, Genesis(c)) && !Topped(c, Genesis(c))
  {
    FourAccounts(c);
    var first, second := Event(c.zero, c.newGateway, c.minted), Event(c.zero, c.airdropper, INIT_SUPPLY - c.minted);
    assert Genesis(c).events == [] + [first] + [second];
    forall kind ensures Of(c, kind, Genesis(c).events)
                     == if kind == Mint then [Payment(first.to, first.amount), Payment(second.to, second.amount)]
                        else []
    {
      OfAppended(c, kind, [], first);
      OfAppended(c, kind, [] + [first], second);
    }
  }

  /** What an account holds in the snapshot from position i on. */
  function Held(c: Config, a: Account, i: nat): nat
    requires ValidConfig(c) && i <= |c.snapshot.accounts|
    decreases |c.snapshot.accounts| - i
  {
    if i == |c.snapshot.accounts| then 0
    else (if c.snapshot.accounts[i] == a then c.snapshot.balances[i] else 0) + Held(c, a, i + 1)
  }

  lemma {:induction false} OwedWithinTotal(c: Config, skip: set<Account>, i: nat)
    requires ValidConfig(c) && i <= |c.snapshot.accounts| && c.airdropper in skip
    ensures Owed(ToSend(c, skip, i)) + Held(c, c.airdropper, i) <= Total(c.snapshot.balances[i..])
    decreases |c.snapshot.accounts| - i
  {
    if i == |c.snapshot.accounts| {
    } else {
      OwedWithinTotal(c, skip, i + 1);
      var rest := ToSend(c, skip, i + 1);
      assert ([Payment(c.snapshot.accounts[i], c.snapshot.balances[i])] + rest)[1..] == rest && [] + rest == rest;
      assert c.snapshot.balances[i..][1..] == c.snapshot.balances[i + 1..];
    }
  }

  lemma DueFromThird(c: Config)
    requires ValidConfig(c)
    ensures Due(c) == ToSend(c, Base(c), 2)
  {
    assert Due(c) == ToSend(c, Base(c), 1);
  }

  lemma {:induction false} NotReceived(ps: seq<Payment>, a: Account)
    requires forall i | 0 <= i < |ps| :: ps[i].to != a
    ensures Received(ps, a) == 0
  {
    if ps == [] {
    } else {
      NotReceived(ps[1..], a);
    }
  }

  // Nothing is due to the accounts in the base skip list, to the MultiSend contract, or in amounts of zero.
  lemma PaymentsAreToHolders(c: Config, k: nat)
    requires ValidConfig(c) && k <= |Due(c)|
    ensures forall a | a in Base(c) || a !in c.snapshot.accounts ::
              Received(Due(c)[..k], a) == 0 && Received(Due(c)[k..], a) == 0
    ensures Payable(c, Due(c)[..k]) && Payable(c, Due(c)[k..])
    ensures Owed(Due(c)[k..]) == 0 ==> k == |Due(c)|
  {
    forall i | 0 <= i < |Due(c)|
      ensures Due(c)[i].amount >= AIRDROP_CUTOFF && Due(c)[i].to !in Base(c) && Due(c)[i].to in c.snapshot.accounts
    {
      Owes(c, Base(c), 0, Due(c)[i]);
    }
    forall a | a in Base(c) || a !in c.snapshot.accounts
      ensures Received(Due(c)[..k], a) == 0 && Received(Due(c)[k..], a) == 0
    {
      NotReceived(Due(c)[..k], a);
      NotReceived(Due(c)[k..], a);
    }
    if k < |Due(c)| {
      OwedIsNonNegative(c, Due(c)[k..][1..]);
    }
  }

  // Conservation and the top-up leave the airdropper what is still owed, and on top of it what the old deployer and
  // the airdropper itself held.
  lemma AirdropperCanPay(c: Config, k: nat)
    requires ValidConfig(c) && k <= |Due(c)|
    ensures Expected(c, true, Due(c)[..k], c.airdropper)
         >= Owed(Due(c)[k..]) + c.snapshot.balances[0] + Held(c, c.airdropper, 2)
    ensures c.snapshot.totalSupply >= OldGatewayBalance(c)
  {
    var b := c.snapshot.balances;
    FourAccounts(c);
    assert Total(b) == b[0] + b[1] + Total(b[2..]) by {
      assert b[1..][1..] == b[2..];
    }
    OwedWithinTotal(c, Base(c), 2);
    DueFromThird(c);
    Joined(Due(c)[..k], Due(c)[k..], c.airdropper);
    assert Due(c)[..k] + Due(c)[k..] == Due(c);
    PaymentsAreToHolders(c, k);
  }

  // ---- Every planned action keeps the invariant ----

  predicate Enabled(c: Config, w: World, action: Action)
    requires ValidConfig(c) && EventsAsExpected(c, w)
  {
    match action
    case TopUpGateway => !w.gatewayLogged && !Topped(c, w) && MayStart(c) && !w.finished
    case LogTopUp => Topped(c, w)
    case Approve(total) => w.gatewayLogged && w.allowance == 0 && total == Owed(Unpaid(c, w)) && !w.finished
    case Send(batch) =>
      && w.gatewayLogged && !w.finished
      && batch != [] && batch <= Unpaid(c, w) && w.allowance == Owed(Unpaid(c, w))
    case LogSuccess => w.gatewayLogged && Unpaid(c, w) == [] && w.allowance == 0
  }

  lemma TopUpKeeps(c: Config, w: World)
    requires ValidConfig(c) && Inv(c, w) && Enabled(c, w, TopUpGateway)
    ensures Inv(c, Apply(c, w, TopUpGateway)) && Topped(c, Apply(c, w, TopUpGateway))
    ensures Of(c, Airdrop, Apply(c, w, TopUpGateway).events) == Of(c, Airdrop, w.events)
  {
    FourAccounts(c);
    PaymentsAreToHolders(c, 0);
    assert At(w.bal, c.newGateway) == c.minted;
    var e := Event(c.airdropper, c.newGateway, AmountToTransfer(c, c.minted));
    assert KindOf(c, e) == TopUp;
    forall kind {
      OfAppended(c, kind, w.events, e);
    }
  }

  // A batch that heads the list of unpaid transfers is approved and funded.
  lemma SendFits(c: Config, w: World, batch: seq<Payment>)
    requires ValidConfig(c) && Inv(c, w) && Enabled(c, w, Send(batch))
    ensures Payable(c, batch) && At(w.bal, c.multiSend) == 0
    ensures 0 <= Owed(batch) <= w.allowance && Owed(batch) <= At(w.bal, c.airdropper)
  {
    FourAccounts(c);
    var k, unpaid := |Of(c, Airdrop, w.events)|, Unpaid(c, w);
    assert Of(c, Airdrop, w.events) == Due(c)[..k];
    PaymentsAreToHolders(c, k);
    AirdropperCanPay(c, k);
    var rest := unpaid[|batch|..];
    assert unpaid == batch + rest;
    assert Payable(c, batch) && Payable(c, rest);
    OwedIsNonNegative(c, batch);
    OwedIsNonNegative(c, rest);
    Joined(batch, rest, c.airdropper);
  }

  lemma BatchEvents(c: Config, events: seq<Event>, kind: Kind, batch: seq<Payment>, total: int)
    requires ValidConfig(c) && kind != Other
    ensures Of(c, kind, events + [Event(c.airdropper, c.multiSend, total)] + Outgoing(c, batch))
         == Of(c, kind, events) + if kind == Airdrop then batch else []
  {
    FourAccounts(c);
    var pull := Event(c.airdropper, c.multiSend, total);
    OfAppended(c, kind, events, pull);
    OfJoined(c, kind, events + [pull], Outgoing(c, batch));
    OfOutgoing(c, kind, batch);
    assert KindOf(c, pull) == Other;
    assert Of(c, kind, events) + [] == Of(c, kind, events);
  }

  /** A batch is payable, approved and funded, and the MultiSend contract is empty. */
  predicate Fits(c: Config, w: World, batch: seq<Payment>) {
    && Payable(c, batch) && At(w.bal, c.multiSend) == 0
    && 0 <= Owed(batch) <= w.allowance && Owed(batch) <= At(w.bal, c.airdropper)
  }

  // A batch that fits is paid, whatever else happened on the chain.
  lemma FittingBatchPays(c: Config, w: World, batch: seq<Payment>)
    requires ValidConfig(c) && Fits(c, w, batch)
    ensures MultiSend(c, w, batch, Owed(batch)).Some?
    ensures var sent := Apply(c, w, Send(batch));
            && (forall kind | kind != Other ::
                  Of(c, kind, sent.events) == Of(c, kind, w.events) + if kind == Airdrop then batch else [])
            && (forall a ::
                  At(sent.bal, a)
                  == At(w.bal, a) - (if a == c.airdropper then Owed(batch) else 0) + Received(batch, a))
            && sent == w.(bal := sent.bal, allowance := w.allowance - Owed(batch), events := sent.events)
  {
    FourAccounts(c);
    MultiSendEffect(c, w, batch, Owed(batch));
    forall kind | kind != Other
      ensures Of(c, kind, w.events + [Event(c.airdropper, c.multiSend, Owed(batch))] + Outgoing(c, batch))
           == Of(c, kind, w.events) + if kind == Airdrop then batch else []
    {
      BatchEvents(c, w.events, kind, batch, Owed(batch));
    }
  }

  lemma SendPays(c: Config, w: World, batch: seq<Payment>)
    requires ValidConfig(c) && Inv(c, w) && Enabled(c, w, Send(batch))
    ensures MultiSend(c, w, batch, Owed(batch)).Some?
    ensures var sent := Apply(c, w, Send(batch));
            && (forall kind | kind != Other ::
                  Of(c, kind, sent.events) == Of(c, kind, w.events) + if kind == Airdrop then batch else [])
            && (forall a ::
                  At(sent.bal, a)
                  == At(w.bal, a) - (if a == c.airdropper then Owed(batch) else 0) + Received(batch, a))
            && sent == w.(bal := sent.bal, allowance := w.allowance - Owed(batch), events := sent.events)
  {
    SendFits(c, w, batch);
    FittingBatchPays(c, w, batch);
  }

  lemma PaidAfter(c: Config, paid: seq<Payment>, batch: seq<Payment>)
    requires ValidConfig(c) && paid <= Due(c) && batch <= Due(c)[|paid|..]
    ensures paid + batch <= Due(c) && Due(c)[|paid + batch|..] == Due(c)[|paid|..][|batch|..]
    ensures Owed(Due(c)[|paid|..]) == Owed(batch) + Owed(Due(c)[|paid + batch|..])
  {
    var unpaid := Due(c)[|paid|..];
    assert Due(c) == paid + unpaid && unpaid == batch + unpaid[|batch|..];
    Joined(batch, unpaid[|batch|..], c.airdropper);
  }

  lemma SendAdvances(c: Config, w: World, batch: seq<Payment>)
    requires ValidConfig(c) && Inv(c, w) && Enabled(c, w, Send(batch))
    ensures var sent := Apply(c, w, Send(batch));
            && EventsAsExpected(c, sent) && StagesAsExpected(c, sent) && Topped(c, sent)
            && Of(c, Airdrop, sent.events) == Of(c, Airdrop, w.events) + batch
            && Unpaid(c, sent) == Unpaid(c, w)[|batch|..]
  {
    var paid, sent := Of(c, Airdrop, w.events), Apply(c, w, Send(batch));
    SendPays(c, w, batch);
    PaidAfter(c, paid, batch);
    assert Of(c, TopUp, sent.events) == Of(c, TopUp, w.events) && Of(c, Mint, sent.events) == Of(c, Mint, w.events);
    assert Of(c, Airdrop, sent.events) == paid + batch;
  }

  lemma ExpectedAfter(c: Config, bal: Book<Account>, bal': Book<Account>, paid: seq<Payment>, batch: seq<Payment>)
    requires ValidConfig(c) && forall a :: At(bal, a) == Expected(c, true, paid, a)
    requires forall a :: At(bal', a) == At(bal, a) - (if a == c.airdropper then Owed(batch) else 0) + Received(batch, a)
    ensures forall a :: At(bal', a) == Expected(c, true, paid + batch, a)
  {
    forall a ensures At(bal', a) == Expected(c, true, paid + batch, a) {
      Joined(paid, batch, a);
    }
  }

  // Sending such a batch pays exactly its transfers, and always goes through.
  lemma SendKeeps(c: Config, w: World, batch: seq<Payment>)
    requires ValidConfig(c) && Inv(c, w) && Enabled(c, w, Send(batch))
    ensures MultiSend(c, w, batch, Owed(batch)).Some?
    ensures var sent := Apply(c, w, Send(batch));
            && Inv(c, sent)
            && Of(c, Airdrop, sent.events) == Of(c, Airdrop, w.events) + batch
            && Unpaid(c, sent) == Unpaid(c, w)[|batch|..]
            && sent.allowance == w.allowance - Owed(batch)
            && sent.gatewayLogged == w.gatewayLogged && sent.finished == w.finished
  {
    SendPays(c, w, batch);
    SendAdvances(c, w, batch);
    ExpectedAfter(c, w.bal, Apply(c, w, Send(batch)).bal, Of(c, Airdrop, w.events), batch);
  }

  lemma EnabledKeeps(c: Config, w: World, action: Action)
    requires ValidConfig(c) && Inv(c, w) && Enabled(c, w, action)
    ensures Inv(c, Apply(c, w, action))
  {
    match action
    case TopUpGateway => TopUpKeeps(c, w);
    case Send(batch) => SendKeeps(c, w, batch);
    case _ =>
  }

  /** Every action is enabled when its turn comes. */
  predicate Sound(c: Config, w: World, actions: seq<Action>)
    requires ValidConfig(c)
    decreases |actions|
  {
    || actions == []
    || (EventsAsExpected(c, w) && Enabled(c, w, actions[0]) && Sound(c, Apply(c, w, actions[0]), actions[1..]))
  }

  lemma SoundStep(c: Config, w: World, actions: seq<Action>, budget: nat) returns (next: World)
    requires ValidConfig(c) && Inv(c, w) && actions != [] && budget > 0 && Sound(c, w, actions)
    ensures Inv(c, next) && Sound(c, next, actions[1..])
    ensures ApplyUpTo(c, w, actions, budget) == ApplyUpTo(c, next, actions[1..], budget - 1)
  {
    EnabledKeeps(c, w, actions[0]);
    next := Apply(c, w, actions[0]);
  }

  lemma {:induction false} SoundKeeps(c: Config, w: World, actions: seq<Action>, budget: nat) returns (end: World)
    requires ValidConfig(c) && Inv(c, w) && Sound(c, w, actions)
    ensures end == ApplyUpTo(c, w, actions, budget) && Inv(c, end)
    decreases |actions|
  {
    if actions == [] || budget == 0 {
      end := w;
    } else {
      var next := SoundStep(c, w, actions, budget);
      end := SoundKeeps(c, next, actions[1..], budget - 1);
    }
  }

  lemma {:induction false} BatchesAreSound(c: Config, w: World)
    requires ValidConfig(c) && Inv(c, w) && w.gatewayLogged && w.allowance == Owed(Unpaid(c, w)) && !w.finished
    ensures Sound(c, w, BatchPlan(Unpaid(c, w)) + [LogSuccess])
    decreases |Unpaid(c, w)|
  {
    var unpaid := Unpaid(c, w);
    if unpaid == [] {
      assert [LogSuccess][1..] == [];
      assert BatchPlan(unpaid) + [LogSuccess] == [LogSuccess];
    } else {
      var m := if |unpaid| <= BATCH_SIZE then |unpaid| else BATCH_SIZE;
      var batch := unpaid[..m];
      assert unpaid[..|unpaid|] == unpaid;
      assert BatchPlan(unpaid) == [Send(batch)] + BatchPlan(unpaid[m..]);
      assert (BatchPlan(unpaid) + [LogSuccess])[1..] == BatchPlan(unpaid[m..]) + [LogSuccess];
      SendKeeps(c, w, batch);
      PaidAfter(c, Of(c, Airdrop, w.events), batch);
      BatchesAreSound(c, Apply(c, w, Send(batch)));
    }
  }

  // The list a run computes from the chain is what is unpaid.
  lemma RemainingIsUnpaid(c: Config, w: World)
    requires ValidConfig(c) && EventsAsExpected(c, w)
    ensures Remaining(c, w) == Unpaid(c, w)
  {
    Resume(c, Base(c), 0, |Of(c, Airdrop, w.events)|);
    assert Due(c)[..|Of(c, Airdrop, w.events)|] == Of(c, Airdrop, w.events);
  }

  lemma SendingIsSound(c: Config, w: World)
    requires ValidConfig(c) && Inv(c, w) && w.gatewayLogged && !w.finished
    ensures Sound(c, w, SendingPlan(w.allowance, Unpaid(c, w)))
  {
    var unpaid := Unpaid(c, w);
    if w.allowance == 0 {
      var approve := Approve(Owed(unpaid));
      assert SendingPlan(0, unpaid)[1..] == BatchPlan(unpaid) + [LogSuccess];
      EnabledKeeps(c, w, approve);
      BatchesAreSound(c, Apply(c, w, approve));
    } else {
      assert SendingPlan(w.allowance, unpaid) == BatchPlan(unpaid) + [LogSuccess];
      BatchesAreSound(c, w);
    }
  }

  // A run fails its first assertions exactly when the log misses the top-up although it was made, or the migration
  // should never have started.
  lemma WhenBlocked(c: Config, w: World)
    requires ValidConfig(c) && Inv(c, w)
    ensures Blocked(c, w) <==> !w.gatewayLogged && (Topped(c, w) || !MayStart(c))
  {
    FourAccounts(c);
    PaymentsAreToHolders(c, |Of(c, Airdrop, w.events)|);
    AirdropperCanPay(c, 0);
    assert Of(c, Airdrop, w.events) == Due(c)[..|Of(c, Airdrop, w.events)|];
  }

  lemma FullPlanIsSound(c: Config, w: World)
    requires ValidConfig(c) && Inv(c, w) && !w.finished
    requires !w.gatewayLogged && !Topped(c, w) && MayStart(c)
    ensures Sound(c, w, [TopUpGateway, LogTopUp] + SendingPlan(w.allowance, Unpaid(c, w)))
  {
    var sending := SendingPlan(w.allowance, Unpaid(c, w));
    var plan: seq<Action> := [TopUpGateway, LogTopUp] + sending;
    TopUpKeeps(c, w);
    var topped := Apply(c, w, TopUpGateway);
    EnabledKeeps(c, topped, LogTopUp);
    SendingIsSound(c, Apply(c, topped, LogTopUp));
    assert plan[1..] == [LogTopUp] + sending && plan[1..][1..] == sending;
  }

  lemma PlanIsSound(c: Config, w: World)
    requires ValidConfig(c) && Inv(c, w) && !Blocked(c, w) && !w.finished
    ensures Sound(c, w, Plan(c, w))
  {
    WhenBlocked(c, w);
    RemainingIsUnpaid(c, w);
    if w.gatewayLogged {
      SendingIsSound(c, w);
      assert Plan(c, w) == SendingPlan(w.allowance, Unpaid(c, w));
    } else {
      FullPlanIsSound(c, w);
    }
  }

  lemma RunKeeps(c: Config, w: World, budget: nat)
    requires ValidConfig(c) && Inv(c, w)
    ensures Inv(c, Ran(c, w, budget))
  {
    if !w.finished && !Blocked(c, w) {
      PlanIsSound(c, w);
      var end := SoundKeeps(c, w, Plan(c, w), budget);
    }
  }

  // Whatever the runs and wherever each of them died, the chain is as expected.
  lemma {:induction false} RunsKeep(c: Config, budgets: seq<nat>)
    requires ValidConfig(c)
    ensures Inv(c, RanAll(c, Genesis(c), budgets))
  {
    if budgets == [] {
      GenesisHolds(c);
    } else {
      RunsKeep(c, budgets[..|budgets| - 1]);
      RunKeeps(c, RanAll(c, Genesis(c), budgets[..|budgets| - 1]), budgets[|budgets| - 1]);
    }
  }
}
