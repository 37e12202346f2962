// Transactions that are sent and not yet mined when a run dies. The model's actions are atomic; these results say when
// that is justified, and exactly what happens when the next run starts while such a transaction is still in flight.
module MigrationInFlight {
  import opened Books
  import opened Common
  import opened SnapshotEvents
  import opened SnapshotFile
  import opened MigrationSpec
  import opened MigrationRuns
  import opened MigrationSafety

  // ---- Nothing in flight when a run starts ----

  /** What became of the transaction a run sent last, by the time the next run starts. */
  datatype Fate = NotSent | Mined | Dropped

  /** A run performs `budget` actions and dies; the next one was perhaps already sent. */
  datatype Death = Death(budget: nat, fate: Fate)

  predicate IsTransaction(action: Action) {
    !action.LogTopUp? && !action.LogSuccess?
  }

  /** The transaction that a run of `budget` actions can have sent besides. */
  function SentLast(c: Config, w: World, budget: nat): Option<Action>
    requires ValidConfig(c)
  {
    if w.finished || Blocked(c, w) || |Plan(c, w)| <= budget || !IsTransaction(Plan(c, w)[budget]) then None
    else Some(Plan(c, w)[budget])
  }

  function Settled(c: Config, w: World, death: Death): World
    requires ValidConfig(c)
  {
    var died, sent := Ran(c, w, death.budget), SentLast(c, w, death.budget);
    if death.fate.Mined? && sent.Some? then Apply(c, died, sent.value) else died
  }

  function SettledAll(c: Config, w: World, deaths: seq<Death>): World
    requires ValidConfig(c)
  {
    if deaths == [] then w else Settled(c, SettledAll(c, w, deaths[..|deaths| - 1]), deaths[|deaths| - 1])
  }

  lemma {:induction false} OneMoreAction(c: Config, w: World, actions: seq<Action>, budget: nat)
    requires ValidConfig(c) && budget < |actions|
    ensures ApplyUpTo(c, w, actions, budget + 1) == Apply(c, ApplyUpTo(c, w, actions, budget), actions[budget])
    decreases budget
  {
    if budget == 0 {
      assert ApplyUpTo(c, Apply(c, w, actions[0]), actions[1..], 0) == Apply(c, w, actions[0]);
    } else {
      OneMoreAction(c, Apply(c, w, actions[0]), actions[1..], budget - 1);
    }
  }

  // A run that dies and settles is a run of atomic actions.
  lemma SettledIsARun(c: Config, w: World, death: Death) returns (budget: nat)
    requires ValidConfig(c)
    ensures Settled(c, w, death) == Ran(c, w, budget)
  {
    if death.fate.Mined? && SentLast(c, w, death.budget).Some? {
      OneMoreAction(c, w, Plan(c, w), death.budget);
      budget := death.budget + 1;
    } else {
      budget := death.budget;
    }
  }

  // As long as every run starts with nothing in flight, whatever was sent last has been mined or dropped, and the
  // runs are runs of atomic actions: all that holds after those holds.
  lemma {:induction false} SettledRunsAreRuns(c: Config, deaths: seq<Death>) returns (budgets: seq<nat>)
    requires ValidConfig(c)
    ensures |budgets| == |deaths| && SettledAll(c, Genesis(c), deaths) == After(c, budgets)
  {
    if deaths == [] {
      budgets := [];
    } else {
      var n := |deaths| - 1;
      var before := SettledRunsAreRuns(c, deaths[..n]);
      var budget := SettledIsARun(c, After(c, before), deaths[n]);
      budgets := before + [budget];
      assert budgets[..n] == before;
    }
  }

  // ---- A transaction still in flight when a run starts ----

  // What is still to pay and is on its way heads the plan of the next run, which sends it again.
  lemma NextRunSendsItAgain(c: Config, w: World)
    requires ValidConfig(c) && Inv(c, w) && !Blocked(c, w) && !w.finished
    ensures Plan(c, w)[0]
         == if !w.gatewayLogged then TopUpGateway
            else if w.allowance == 0 then Approve(Owed(Unpaid(c, w)))
            else Send(Unpaid(c, w)[..if |Unpaid(c, w)| <= BATCH_SIZE then |Unpaid(c, w)| else BATCH_SIZE])
  {
    RemainingIsUnpaid(c, w);
    if w.gatewayLogged && w.allowance != 0 {
      assert Unpaid(c, w) != [];
      assert Unpaid(c, w)[..|Unpaid(c, w)|] == Unpaid(c, w);
    }
  }

  // A second approval of what was owed before is harmless exactly if nothing was paid since, or nothing was owed.
  lemma SecondApproval(c: Config, w: World, total: int, paidBefore: nat)
    requires ValidConfig(c) && Inv(c, w) && w.gatewayLogged
    requires paidBefore <= |Of(c, Airdrop, w.events)| && total == Owed(Due(c)[paidBefore..])
    ensures Unpaid(c, w.(allowance := total)) == Unpaid(c, w)
    ensures total == Owed(Unpaid(c, w)) <==> paidBefore == |Of(c, Airdrop, w.events)|
  {
    var paid := |Of(c, Airdrop, w.events)|;
    var between := Due(c)[paidBefore..paid];
    assert Due(c)[paidBefore..] == between + Due(c)[paid..];
    Joined(between, Due(c)[paid..], c.airdropper);
    PaymentsAreToHolders(c, paidBefore);
    if between != [] {
      assert between[0] == Due(c)[paidBefore];
      Owes(c, Base(c), 0, Due(c)[paidBefore]);
      assert Payable(c, between[1..]) by {
        assert forall i | 0 <= i < |between| :: between[i] == Due(c)[paidBefore..][i];
      }
      OwedIsNonNegative(c, between[1..]);
    }
  }

  lemma BatchIsPayable(c: Config, k: nat, m: nat)
    requires ValidConfig(c) && k + m <= |Due(c)|
    ensures Payable(c, Due(c)[k..k + m])
  {
    PaymentsAreToHolders(c, k);
    assert forall i | 0 <= i < m :: Due(c)[k..k + m][i] == Due(c)[k..][i];
  }

  lemma ApprovalWithinFunds(c: Config, w: World)
    requires ValidConfig(c) && Inv(c, w) && w.gatewayLogged
    ensures w.allowance <= At(w.bal, c.airdropper) && At(w.bal, c.multiSend) == 0
  {
    FourAccounts(c);
    var k := |Of(c, Airdrop, w.events)|;
    assert Of(c, Airdrop, w.events) == Due(c)[..k];
    PaymentsAreToHolders(c, k);
    OwedIsNonNegative(c, Due(c)[k..]);
    AirdropperCanPay(c, k);
  }

  // A stretch of what is due pays each of its receivers the amount due, once.
  lemma PaidOnceAt(c: Config, k: nat, m: nat, i: nat)
    requires ValidConfig(c) && i < m && k + m <= |Due(c)|
    ensures Received(Due(c)[k..k + m], Due(c)[k + i].to) == Due(c)[k + i].amount
  {
    var p := Due(c)[k + i];
    var before, after := Due(c)[k..k + i], Due(c)[k + i + 1..k + m];
    assert Due(c)[k..k + m] == before + ([p] + after);
    forall j | 0 <= j < |before| ensures before[j].to != p.to {
      ReceiversDiffer(c, Base(c), 0, k + j, k + i);
    }
    forall j | 0 <= j < |after| ensures after[j].to != p.to {
      ReceiversDiffer(c, Base(c), 0, k + i, k + i + 1 + j);
    }
    NotReceived(before, p.to);
    NotReceived(after, p.to);
    Joined(before, [p] + after, p.to);
    assert ([p] + after)[1..] == after;
  }

  lemma PaidOnceEach(c: Config, k: nat, m: nat, p: Payment)
    requires ValidConfig(c) && k + m <= |Due(c)| && p in Due(c)[k..k + m]
    ensures Received(Due(c)[k..k + m], p.to) == p.amount
  {
    var i :| 0 <= i < m && Due(c)[k..k + m][i] == p;
    PaidOnceAt(c, k, m, i);
  }

  // A batch that was paid already goes through a second time exactly if the approval left covers it.
  lemma SecondBatchGoesThrough(c: Config, w: World, k: nat, m: nat)
    requires ValidConfig(c) && Inv(c, w) && w.gatewayLogged
    requires k + m <= |Of(c, Airdrop, w.events)|
    ensures var batch := Due(c)[k..k + m]; var late := MultiSend(c, w, batch, Owed(batch));
            && (late.Some? <==> Owed(batch) <= w.allowance)
            && (late.Some? ==> Of(c, Airdrop, late.value.events) == Of(c, Airdrop, w.events) + batch)
  {
    FourAccounts(c);
    var batch := Due(c)[k..k + m];
    BatchIsPayable(c, k, m);
    OwedIsNonNegative(c, batch);
    ApprovalWithinFunds(c, w);
    MultiSendEffect(c, w, batch, Owed(batch));
    BatchEvents(c, w.events, Airdrop, batch, Owed(batch));
  }

  /** Every payment of the batch was made twice. */
  predicate PaidTwice(batch: seq<Payment>, payments: seq<Payment>) {
    forall p | p in batch :: Received(payments, p.to) == 2 * p.amount
  }

  // The chain then no longer shows a prefix of what is due,
  lemma SecondBatchIsNotDue(c: Config, k: nat, m: nat, n: nat)
    requires ValidConfig(c) && m > 0 && k + m <= n <= |Due(c)|
    ensures !(Due(c)[..n] + Due(c)[k..k + m] <= Due(c))
  {
    assert (Due(c)[..n] + Due(c)[k..k + m])[n] == Due(c)[k];
    if n < |Due(c)| {
      ReceiversDiffer(c, Base(c), 0, k, n);
    }
  }

  // and the batch's receivers are paid twice.
  lemma SecondBatchPaysTwice(c: Config, k: nat, m: nat, n: nat)
    requires ValidConfig(c) && k + m <= n <= |Due(c)|
    ensures PaidTwice(Due(c)[k..k + m], Due(c)[..n] + Due(c)[k..k + m])
  {
    var paid, batch := Due(c)[..n], Due(c)[k..k + m];
    forall p | p in batch ensures Received(paid + batch, p.to) == 2 * p.amount {
      Joined(paid, batch, p.to);
      var i :| 0 <= i < m && batch[i] == p;
      assert paid[k + i] == p && Due(c)[0..0 + n] == paid;
      PaidOnceEach(c, 0, n, p);
      PaidOnceEach(c, k, m, p);
    }
  }

  // Payments on chain are never taken back.
  lemma ActionGrows(c: Config, w: World, action: Action)
    requires ValidConfig(c) && Inv(c, w) && Enabled(c, w, action)
    ensures var next := Apply(c, w, action);
            && Inv(c, next) && (w.gatewayLogged ==> next.gatewayLogged)
            && |Of(c, Airdrop, w.events)| <= |Of(c, Airdrop, next.events)|
  {
    EnabledKeeps(c, w, action);
    match action
    case TopUpGateway => TopUpKeeps(c, w);
    case Send(batch) => SendKeeps(c, w, batch);
    case _ =>
  }

  lemma {:induction false} PaymentsGrow(c: Config, w: World, actions: seq<Action>, budget: nat)
    requires ValidConfig(c) && Inv(c, w) && Sound(c, w, actions)
    ensures var end := ApplyUpTo(c, w, actions, budget);
            (w.gatewayLogged ==> end.gatewayLogged) && |Of(c, Airdrop, w.events)| <= |Of(c, Airdrop, end.events)|
    decreases |actions|
  {
    if actions == [] || budget == 0 {
    } else {
      ActionGrows(c, w, actions[0]);
      PaymentsGrow(c, Apply(c, w, actions[0]), actions[1..], budget - 1);
    }
  }

  function FirstBatch(list: seq<Payment>): seq<Payment> {
    list[..if |list| <= BATCH_SIZE then |list| else BATCH_SIZE]
  }

  /** A batch is approved and on its way. */
  ghost predicate OnItsWay(c: Config, w: World)
    requires ValidConfig(c)
  {
    Inv(c, w) && w.gatewayLogged && w.allowance != 0
  }

  lemma NextRunSendsBatch(c: Config, w: World)
    requires ValidConfig(c) && OnItsWay(c, w)
    ensures !Blocked(c, w) && !w.finished && Unpaid(c, w) != []
    ensures Plan(c, w) != [] && Plan(c, w)[0] == Send(FirstBatch(Unpaid(c, w))) && Sound(c, w, Plan(c, w))
  {
    WhenBlocked(c, w);
    NextRunSendsItAgain(c, w);
    PlanIsSound(c, w);
  }

  lemma NextRunKeeps(c: Config, w: World, budget: nat)
    requires ValidConfig(c) && OnItsWay(c, w)
    ensures Inv(c, Ran(c, w, budget)) && Ran(c, w, budget).gatewayLogged
    ensures Ran(c, w, budget) == ApplyUpTo(c, w, Plan(c, w), budget)
  {
    NextRunSendsBatch(c, w);
    RunKeeps(c, w, budget);
    PaymentsGrow(c, w, Plan(c, w), budget);
  }

  // A run of one action sends the batch and nothing else.
  lemma SentFirst(c: Config, w: World) returns (next: World)
    requires ValidConfig(c) && OnItsWay(c, w)
    ensures var batch := FirstBatch(Unpaid(c, w));
            && next == Apply(c, w, Send(batch)) == Ran(c, w, 1) && Inv(c, next) && next.gatewayLogged
            && Of(c, Airdrop, next.events) == Of(c, Airdrop, w.events) + batch
            && next.allowance == w.allowance - Owed(batch)
  {
    var batch := FirstBatch(Unpaid(c, w));
    NextRunSendsBatch(c, w);
    SendKeeps(c, w, batch);
    next := Apply(c, w, Send(batch));
    assert ApplyUpTo(c, next, Plan(c, w)[1..], 0) == next;
  }

  lemma FirstSendCounts(c: Config, w: World, actions: seq<Action>, budget: nat)
    requires ValidConfig(c) && Inv(c, w) && Sound(c, w, actions) && actions != [] && actions[0].Send? && budget > 0
    ensures |Of(c, Airdrop, w.events)| + |actions[0].batch|
         <= |Of(c, Airdrop, ApplyUpTo(c, w, actions, budget).events)|
  {
    SendKeeps(c, w, actions[0].batch);
    PaymentsGrow(c, Apply(c, w, actions[0]), actions[1..], budget - 1);
  }

  lemma NextRunPaysIt(c: Config, w: World, budget: nat)
    requires ValidConfig(c) && OnItsWay(c, w) && budget > 0
    ensures |Of(c, Airdrop, w.events)| + |FirstBatch(Unpaid(c, w))| <= |Of(c, Airdrop, Ran(c, w, budget).events)|
  {
    NextRunSendsBatch(c, w);
    FirstSendCounts(c, w, Plan(c, w), budget);
  }

  lemma FirstBatchIsDue(c: Config, w: World)
    requires ValidConfig(c) && OnItsWay(c, w)
    ensures var k, batch := |Of(c, Airdrop, w.events)|, FirstBatch(Unpaid(c, w));
            batch != [] && k + |batch| <= |Due(c)| && batch == Due(c)[k..k + |batch|]
  {
    NextRunSendsBatch(c, w);
  }

  /** What a batch does that is mined a second time. */
  ghost predicate LateBatch(c: Config, w: World, batch: seq<Payment>)
    requires ValidConfig(c)
  {
    var late := MultiSend(c, w, batch, Owed(batch));
    && (late.Some? <==> Owed(batch) <= w.allowance)
    && (late.Some? ==> !(Of(c, Airdrop, late.value.events) <= Due(c)))
    && (late.Some? ==> PaidTwice(batch, Of(c, Airdrop, late.value.events)))
  }

  lemma LatePayments(c: Config, w: World, k: nat, batch: seq<Payment>)
    requires ValidConfig(c) && Inv(c, w) && w.gatewayLogged
    requires batch != [] && k + |batch| <= |Due(c)| && batch == Due(c)[k..k + |batch|]
    requires k + |batch| <= |Of(c, Airdrop, w.events)|
    ensures LateBatch(c, w, batch)
  {
    var n, m := |Of(c, Airdrop, w.events)|, |batch|;
    assert Of(c, Airdrop, w.events) == Due(c)[..n];
    SecondBatchGoesThrough(c, w, k, m);
    SecondBatchIsNotDue(c, k, m, n);
    SecondBatchPaysTwice(c, k, m, n);
  }

  // The batch in flight when a run starts is sent again by that run. If it is mined after the run, it goes through
  // exactly when the approval left by then covers it, and its receivers are then paid twice; otherwise it reverts and
  // nobody is.
  lemma BatchInFlight(c: Config, w: World, budget: nat)
    requires ValidConfig(c) && OnItsWay(c, w) && budget > 0
    ensures FirstBatch(Unpaid(c, w)) != [] && LateBatch(c, Ran(c, w, budget), FirstBatch(Unpaid(c, w)))
  {
    var after := Ran(c, w, budget);
    FirstBatchIsDue(c, w);
    NextRunKeeps(c, w, budget);
    NextRunPaysIt(c, w, budget);
    LatePayments(c, after, |Of(c, Airdrop, w.events)|, FirstBatch(Unpaid(c, w)));
  }

  // If it is mined after the run read the chain and before the run's own copy, that copy is the later one, and the
  // same holds of it.
  lemma BatchMinedDuringRun(c: Config, w: World)
    requires ValidConfig(c) && OnItsWay(c, w)
    ensures var batch := FirstBatch(Unpaid(c, w));
            batch != [] && LateBatch(c, Apply(c, w, Send(batch)), batch)
  {
    FirstBatchIsDue(c, w);
    var next := SentFirst(c, w);
    LatePayments(c, next, |Of(c, Airdrop, w.events)|, FirstBatch(Unpaid(c, w)));
  }

  lemma {:induction false} EqualPayments(c: Config, ps: seq<Payment>, qs: seq<Payment>, amount: int)
    requires |ps| <= |qs| && Payable(c, qs)
    requires forall i | 0 <= i < |ps| :: ps[i].amount == amount
    requires forall i | 0 <= i < |qs| :: qs[i].amount == amount
    ensures Owed(ps) <= Owed(qs)
  {
    if ps == [] {
      OwedIsNonNegative(c, qs);
    } else {
      EqualPayments(c, ps[1..], qs[1..], amount);
    }
  }

  // This does happen: with two full batches of equal payments unpaid, a run that dies after its first batch leaves
  // enough approval for the one in flight.
  lemma EqualPaymentsAreAtRisk(c: Config, w: World, amount: int)
    requires ValidConfig(c) && OnItsWay(c, w)
    requires |Unpaid(c, w)| >= 2 * BATCH_SIZE && forall i | 0 <= i < |Unpaid(c, w)| :: Unpaid(c, w)[i].amount == amount
    ensures Owed(FirstBatch(Unpaid(c, w))) <= Ran(c, w, 1).allowance
  {
    var unpaid := Unpaid(c, w);
    var batch, rest := FirstBatch(unpaid), unpaid[BATCH_SIZE..];
    var next := SentFirst(c, w);
    assert unpaid == batch + rest;
    Joined(batch, rest, c.airdropper);
    PaymentsAreToHolders(c, |Of(c, Airdrop, w.events)|);
    EqualPayments(c, batch, rest, amount);
  }

  // ---- The first actions of any migration ----

  lemma AfterOne(c: Config, budget: nat)
    requires ValidConfig(c)
    ensures After(c, [budget]) == Ran(c, Genesis(c), budget)
  {
    var budgets := [budget];
    assert budgets[..|budgets| - 1] == [] && budgets[|budgets| - 1] == budget;
    assert RanAll(c, Genesis(c), []) == Genesis(c);
  }

  lemma FirstPlan(c: Config)
    requires ValidConfig(c) && MayStart(c)
    ensures Inv(c, Genesis(c)) && !Blocked(c, Genesis(c)) && !Topped(c, Genesis(c))
    ensures Of(c, Airdrop, Genesis(c).events) == []
    ensures Plan(c, Genesis(c)) == [TopUpGateway, LogTopUp] + SendingPlan(0, Due(c))
  {
    GenesisHolds(c);
    WhenBlocked(c, Genesis(c));
    RemainingIsUnpaid(c, Genesis(c));
    assert Of(c, Airdrop, Genesis(c).events) == [];
    assert Unpaid(c, Genesis(c)) == Due(c);
  }

  lemma FirstActions(c: Config, budget: nat)
    requires ValidConfig(c) && MayStart(c) && budget >= 2
    ensures var logged := Apply(c, Apply(c, Genesis(c), TopUpGateway), LogTopUp);
            After(c, [budget]) == ApplyUpTo(c, logged, SendingPlan(0, Due(c)), budget - 2)
  {
    AfterOne(c, budget);
    FirstPlan(c);
    TwoActions(c, Genesis(c), SendingPlan(0, Due(c)), budget);
    assert budget == 2 ==> ApplyUpTo(c, After(c, [budget]), SendingPlan(0, Due(c)), 0) == After(c, [budget]);
  }

  // Two of them top the gateway up,
  lemma AfterTwoActions(c: Config)
    requires ValidConfig(c) && MayStart(c)
    ensures var w := After(c, [2]);
            && Inv(c, w) && w.gatewayLogged && !w.finished && w.allowance == 0 && Of(c, Airdrop, w.events) == []
  {
    RunsKeep(c, [2]);
    FirstPlan(c);
    FirstActions(c, 2);
    TopUpKeeps(c, Genesis(c));
  }

  // the third approves all that is due,
  lemma AfterThreeActions(c: Config)
    requires ValidConfig(c) && MayStart(c)
    ensures After(c, [3]) == After(c, [2]).(allowance := Owed(Due(c))) && Inv(c, After(c, [3]))
    ensures Unpaid(c, After(c, [3])) == Due(c)
  {
    RunsKeep(c, [3]);
    AfterTwoActions(c);
    FirstActions(c, 2);
    FirstActions(c, 3);
    var sending, w := SendingPlan(0, Due(c)), After(c, [2]);
    assert sending[0] == Approve(Owed(Due(c)));
    assert ApplyUpTo(c, w, sending, 1) == Apply(c, w, sending[0]);
  }

  // and the fourth is the first batch.
  lemma FourthAction(c: Config)
    requires ValidConfig(c) && MayStart(c) && Due(c) != []
    ensures SentLast(c, Genesis(c), 3) == Some(Send(FirstBatch(Due(c))))
  {
    FirstPlan(c);
    assert Due(c)[..|Due(c)|] == Due(c);
    assert BatchPlan(Due(c))[0] == Send(FirstBatch(Due(c)));
    assert Plan(c, Genesis(c))[3] == (BatchPlan(Due(c)) + [LogSuccess])[0];
  }

  /** A first run dies with its first batch sent and not mined; the next one sends that batch too and dies; then the
      earlier copy is mined. It goes through, and its receivers are paid twice. */
  ghost predicate FirstBatchIsPaidTwice(c: Config)
    requires ValidConfig(c)
  {
    var batch, after := FirstBatch(Due(c)), After(c, [3, 1]);
    var late := MultiSend(c, after, batch, Owed(batch));
    && SentLast(c, Genesis(c), 3) == Some(Send(batch))
    && late.Some? && batch != [] && PaidTwice(batch, Of(c, Airdrop, late.value.events))
  }

  lemma AfterTwo(c: Config, first: nat, second: nat)
    requires ValidConfig(c)
    ensures After(c, [first, second]) == Ran(c, After(c, [first]), second)
  {
    var budgets := [first, second];
    assert budgets[..|budgets| - 1] == [first] && budgets[|budgets| - 1] == second;
  }

  lemma CoveredCopyGoesThrough(c: Config, w: World, batch: seq<Payment>)
    requires ValidConfig(c) && LateBatch(c, w, batch) && Owed(batch) <= w.allowance
    ensures MultiSend(c, w, batch, Owed(batch)).Some?
    ensures PaidTwice(batch, Of(c, Airdrop, MultiSend(c, w, batch, Owed(batch)).value.events))
  {
  }

  lemma ApprovalIsOnItsWay(c: Config) returns (w: World)
    requires ValidConfig(c) && MayStart(c) && Due(c) != []
    ensures w == After(c, [3]) && OnItsWay(c, w) && Unpaid(c, w) == Due(c)
  {
    w := After(c, [3]);
    AfterTwoActions(c);
    AfterThreeActions(c);
    PaymentsAreToHolders(c, 0);
    assert Due(c)[0..] == Due(c);
  }

  lemma EqualDuesArePaidTwice(c: Config, amount: int)
    requires ValidConfig(c) && MayStart(c)
    requires |Due(c)| >= 2 * BATCH_SIZE && forall i | 0 <= i < |Due(c)| :: Due(c)[i].amount == amount
    ensures FirstBatchIsPaidTwice(c)
  {
    var w := ApprovalIsOnItsWay(c);
    FourthAction(c);
    EqualPaymentsAreAtRisk(c, w, amount);
    BatchInFlight(c, w, 1);
    AfterTwo(c, 3, 1);
    CoveredCopyGoesThrough(c, Ran(c, w, 1), FirstBatch(Due(c)));
  }
}
