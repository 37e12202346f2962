// How far interrupted runs get: as far as one run of a length that depends on their lengths alone.
module MigrationProgress {
  import opened Books
  import opened Common
  import opened SnapshotEvents
  import opened SnapshotFile
  import opened MigrationSpec
  import opened MigrationRuns
  import opened MigrationSafety
  import opened MigrationInFlight

  // ---- Runs once the top-up is logged ----

  ghost predicate UnderWay(c: Config, w: World)
    requires ValidConfig(c)
  {
    Inv(c, w) && w.gatewayLogged && !w.finished
  }

  function PlanFor(allowance: int, unpaid: seq<Payment>): seq<Action> {
    if unpaid == [] then [Approve(0), LogSuccess]
    else if allowance == 0 then [Approve(Owed(unpaid))] + (BatchPlan(unpaid) + [LogSuccess])
    else BatchPlan(unpaid) + [LogSuccess]
  }

  lemma PlanUnderWay(c: Config, w: World)
    requires ValidConfig(c) && UnderWay(c, w)
    ensures Plan(c, w) == PlanFor(w.allowance, Unpaid(c, w)) && !Blocked(c, w)
    ensures |Plan(c, w)| >= 2 && (w.allowance != 0 ==> Unpaid(c, w) != [])
  {
    WhenBlocked(c, w);
    RemainingIsUnpaid(c, w);
    var batches := BatchPlan(Unpaid(c, w)) + [LogSuccess];
    assert [] + batches == batches;
    assert Unpaid(c, w) == [] ==> batches == [LogSuccess];
  }

  lemma AfterApproval(c: Config, w: World)
    requires ValidConfig(c) && UnderWay(c, w) && w.allowance == 0
    ensures var approved := w.(allowance := Owed(Unpaid(c, w)));
            UnderWay(c, approved) && (Unpaid(c, w) != [] ==> approved.allowance != 0)
  {
    EnabledKeeps(c, w, Approve(Owed(Unpaid(c, w))));
    PaymentsAreToHolders(c, |Of(c, Airdrop, w.events)|);
  }

  lemma FirstOfBatchPlan(list: seq<Payment>)
    requires list != []
    ensures BatchPlan(list) == [Send(FirstBatch(list))] + BatchPlan(list[|FirstBatch(list)|..])
  {
    if |list| <= BATCH_SIZE {
      assert list[..|list|] == list;
    }
  }

  lemma AfterBatch(c: Config, w: World) returns (sent: World)
    requires ValidConfig(c) && UnderWay(c, w) && w.allowance != 0 && Unpaid(c, w) != []
    ensures var batch := FirstBatch(Unpaid(c, w));
            && sent == Apply(c, w, Send(batch)) && UnderWay(c, sent)
            && Unpaid(c, sent) == Unpaid(c, w)[|batch|..] && (Unpaid(c, sent) != [] <==> sent.allowance != 0)
  {
    var batch := FirstBatch(Unpaid(c, w));
    SendKeeps(c, w, batch);
    sent := Apply(c, w, Send(batch));
    PaymentsAreToHolders(c, |Of(c, Airdrop, sent.events)|);
  }

  predicate PlanFollows(plan: seq<Action>, first: Action, next: seq<Action>) {
    && |plan| >= 2 && plan[0] == first
    && next == (if |plan| == 2 then [Approve(0), LogSuccess] else plan[1..])
    && (|plan| == 2 ==> plan[1] == LogSuccess)
  }

  lemma PlanAfterApproval(unpaid: seq<Payment>, allowance: int)
    requires unpaid != [] ==> allowance != 0
    ensures PlanFollows(PlanFor(0, unpaid), Approve(Owed(unpaid)), PlanFor(allowance, unpaid))
  {
    if unpaid != [] {
      FirstOfBatchPlan(unpaid);
    }
  }

  lemma PlanAfterBatch(unpaid: seq<Payment>, allowance: int, rest: seq<Payment>, left: int)
    requires unpaid != [] && allowance != 0 && rest == unpaid[|FirstBatch(unpaid)|..] && (rest != [] ==> left != 0)
    ensures PlanFollows(PlanFor(allowance, unpaid), Send(FirstBatch(unpaid)), PlanFor(left, rest))
  {
    FirstOfBatchPlan(unpaid);
    var batch := Send(FirstBatch(unpaid));
    assert PlanFor(allowance, unpaid) == [batch] + (BatchPlan(rest) + [LogSuccess]);
    if rest != [] {
      FirstOfBatchPlan(rest);
    }
  }

  /** World `next` is reached by the first action planned in `w`, and plans the rest; only if that is no more than the
      success line, it approves nothing once more before it. */
  ghost predicate Follows(c: Config, w: World, next: World)
    requires ValidConfig(c)
  {
    && Plan(c, w) != [] && next == Apply(c, w, Plan(c, w)[0]) && UnderWay(c, next)
    && PlanFollows(Plan(c, w), Plan(c, w)[0], Plan(c, next))
    && (|Plan(c, w)| == 2 ==> next.allowance == 0)
  }

  lemma ApprovalFollows(c: Config, w: World) returns (next: World)
    requires ValidConfig(c) && UnderWay(c, w) && w.allowance == 0
    ensures Follows(c, w, next)
  {
    var unpaid := Unpaid(c, w);
    PlanUnderWay(c, w);
    AfterApproval(c, w);
    next := w.(allowance := Owed(unpaid));
    PlanUnderWay(c, next);
    PlanAfterApproval(unpaid, Owed(unpaid));
  }

  lemma BatchFollows(c: Config, w: World) returns (next: World)
    requires ValidConfig(c) && UnderWay(c, w) && w.allowance != 0
    ensures Follows(c, w, next)
  {
    PlanUnderWay(c, w);
    next := AfterBatch(c, w);
    PlanUnderWay(c, next);
    PlanAfterBatch(Unpaid(c, w), w.allowance, Unpaid(c, next), next.allowance);
  }

  lemma NextPlan(c: Config, w: World) returns (next: World)
    requires ValidConfig(c) && UnderWay(c, w)
    ensures Follows(c, w, next)
  {
    if w.allowance == 0 {
      next := ApprovalFollows(c, w);
    } else {
      next := BatchFollows(c, w);
    }
  }

  lemma ShortRun(c: Config, w: World, first: Action, b: nat)
    requires ValidConfig(c) && !w.finished && !Blocked(c, w) && Plan(c, w) == [first, LogSuccess]
    ensures var next := Apply(c, w, first);
            Ran(c, w, b) == if b == 0 then w else if b == 1 then next else Apply(c, next, LogSuccess)
  {
    var next := Apply(c, w, first);
    assert [first, LogSuccess][1..] == [LogSuccess] && [LogSuccess][1..] == [];
    assert b >= 2 ==> ApplyUpTo(c, next, [LogSuccess], b - 1) == Apply(c, next, LogSuccess);
    assert ApplyUpTo(c, next, [LogSuccess], 0) == next;
  }

  lemma LongRun(c: Config, w: World, next: World, b: nat)
    requires ValidConfig(c) && UnderWay(c, w) && UnderWay(c, next) && b > 0
    requires |Plan(c, w)| > 2 && next == Apply(c, w, Plan(c, w)[0]) && Plan(c, next) == Plan(c, w)[1..]
    ensures Ran(c, w, b) == Ran(c, next, b - 1)
  {
    PlanUnderWay(c, w);
    PlanUnderWay(c, next);
  }

  /** How far a run of `b` actions gets in a plan of `n` of which `p` are done. With nothing but the success line left,
      it approves nothing once more first. */
  function Onward(n: nat, p: nat, b: nat): nat {
    if p + 1 == n then (if b >= 2 then n else p)
    else if p + b <= n then p + b
    else n
  }

  lemma {:induction false} LongerIsAll(c: Config, w: World, actions: seq<Action>, b: nat)
    requires ValidConfig(c)
    ensures ApplyUpTo(c, w, actions, b) == ApplyUpTo(c, w, actions, if b <= |actions| then b else |actions|)
    decreases |actions|
  {
    if actions == [] || b == 0 {
    } else {
      LongerIsAll(c, Apply(c, w, actions[0]), actions[1..], b - 1);
    }
  }

  /** World `x` is where a first run of `p` actions gets, and `y` is where one of `b` gets from there; one run of `q`
      gets there at once. */
  ghost predicate Joins(c: Config, w: World, x: World, y: World, p: nat, b: nat, q: nat)
    requires ValidConfig(c)
  {
    Ran(c, w, p) == x && Ran(c, x, b) == y && Ran(c, w, q) == y
  }

  lemma TwoShortRuns(c: Config, w: World, next: World, p: nat, b: nat, q: nat) returns (x: World, y: World)
    requires ValidConfig(c) && UnderWay(c, w) && Follows(c, w, next)
    requires 0 < p <= |Plan(c, w)| == 2 && q == Onward(2, p, b)
    ensures Joins(c, w, x, y, p, b, q) && (x.finished <==> p == 2)
  {
    PlanUnderWay(c, w);
    PlanUnderWay(c, next);
    ShortRun(c, w, Plan(c, w)[0], p);
    ShortRun(c, w, Plan(c, w)[0], q);
    ShortRun(c, next, Approve(0), b);
    assert next.(allowance := 0) == next;
    x := Ran(c, w, p);
    y := Ran(c, x, b);
  }

  lemma LongRunsJoin(c: Config, w: World, next: World, x: World, y: World, p: nat, b: nat, q: nat)
    requires ValidConfig(c) && UnderWay(c, w) && Follows(c, w, next) && |Plan(c, w)| > 2 && 0 < p <= q
    requires Joins(c, next, x, y, p - 1, b, q - 1)
    ensures Joins(c, w, x, y, p, b, q)
  {
    LongRun(c, w, next, p);
    LongRun(c, w, next, q);
  }

  lemma FirstOfTwoRuns(c: Config, w: World, n: nat, b: nat) returns (y: World)
    requires ValidConfig(c) && UnderWay(c, w) && n == |Plan(c, w)|
    ensures Joins(c, w, w, y, 0, b, Onward(n, 0, b))
  {
    PlanUnderWay(c, w);
    LongerIsAll(c, w, Plan(c, w), b);
    y := Ran(c, w, b);
  }

  // Two runs get as far as one.
  lemma {:induction false} TwoRunsAreOne(c: Config, w: World, n: nat, p: nat, b: nat, q: nat)
    returns (x: World, y: World)
    requires ValidConfig(c) && UnderWay(c, w) && p <= n == |Plan(c, w)| && q == Onward(n, p, b)
    ensures Joins(c, w, x, y, p, b, q) && (x.finished <==> p == n)
    decreases p
  {
    if p == 0 {
      x := w;
      y := FirstOfTwoRuns(c, w, n, b);
    } else {
      assert p <= q;
      var next := NextPlan(c, w);
      if n == 2 {
        x, y := TwoShortRuns(c, w, next, p, b, q);
      } else {
        x, y := TwoRunsAreOne(c, next, n - 1, p - 1, b, q - 1);
        LongRunsJoin(c, w, next, x, y, p, b, q);
      }
    }
  }

  // ---- Whole migrations ----

  /** The actions of a migration that is never interrupted: top-up, its log line, approval, batches, success line. */
  function WholeRun(c: Config): nat
    requires ValidConfig(c)
  {
    4 + (|Due(c)| + BATCH_SIZE - 1) / BATCH_SIZE
  }

  /** How far a further run of `b` actions gets. After the first action, before the top-up is logged, it is wedged. */
  function Further(n: nat, p: nat, b: nat): nat {
    if p == 1 then 1 else Onward(n, p, b)
  }

  /** How far runs of these lengths get in a migration of `n` actions. */
  function Position(n: nat, budgets: seq<nat>): nat {
    if budgets == [] then 0 else Further(n, Position(n, budgets[..|budgets| - 1]), budgets[|budgets| - 1])
  }

  lemma WholeRunCounts(c: Config)
    requires ValidConfig(c)
    ensures |SendingPlan(0, Due(c))| + 2 == WholeRun(c)
  {
    BatchCount(Due(c));
  }

  // The world after a first run of at least two actions, seen from the one after exactly two.
  lemma FromLogged(c: Config, b: nat) returns (logged: World)
    requires ValidConfig(c) && MayStart(c) && b >= 2
    ensures logged == After(c, [2]) && UnderWay(c, logged) && |Plan(c, logged)| + 2 == WholeRun(c)
    ensures After(c, [b]) == Ran(c, logged, b - 2)
  {
    logged := After(c, [2]);
    AfterTwoActions(c);
    FirstActions(c, 2);
    FirstActions(c, b);
    PlanUnderWay(c, logged);
    RemainingIsUnpaid(c, logged);
    assert Unpaid(c, logged) == Due(c);
    WholeRunCounts(c);
    assert Plan(c, logged) == [] + SendingPlan(0, Due(c)) == SendingPlan(0, Due(c));
  }

  lemma FirstRun(c: Config, b: nat)
    requires ValidConfig(c) && MayStart(c)
    ensures After(c, [b]) == After(c, [Further(WholeRun(c), 0, b)])
    ensures b <= 2 ==> !After(c, [b]).finished
  {
    FirstPlan(c);
    WholeRunCounts(c);
    AfterOne(c, b);
    AfterOne(c, Further(WholeRun(c), 0, b));
    LongerIsAll(c, Genesis(c), Plan(c, Genesis(c)), b);
    TwoActions(c, Genesis(c), SendingPlan(0, Due(c)), b);
  }

  /** A further run of `b` actions leads from where one of `p` gets to where one of `q` gets. */
  ghost predicate Leads(c: Config, x: World, y: World, p: nat, b: nat, q: nat)
    requires ValidConfig(c)
  {
    After(c, [p]) == x && Ran(c, x, b) == y && After(c, [q]) == y
  }

  lemma RunAfterNothing(c: Config, b: nat) returns (x: World, y: World)
    requires ValidConfig(c) && MayStart(c)
    ensures Leads(c, x, y, 0, b, Further(WholeRun(c), 0, b)) && !x.finished
  {
    FirstRun(c, 0);
    FirstRun(c, b);
    AfterOne(c, 0);
    AfterOne(c, b);
    FirstPlan(c);
    x := Genesis(c);
    y := Ran(c, x, b);
  }

  lemma RunWhenWedged(c: Config, b: nat) returns (x: World)
    requires ValidConfig(c) && MayStart(c)
    ensures Leads(c, x, x, 1, b, 1) && !x.finished
  {
    FirstRun(c, 1);
    StuckExactlyWhen(c, [1]);
    x := After(c, [1]);
  }

  lemma RunUnderWay(c: Config, p: nat, b: nat) returns (x: World, y: World)
    requires ValidConfig(c) && MayStart(c) && 2 <= p <= WholeRun(c)
    ensures Leads(c, x, y, p, b, Further(WholeRun(c), p, b)) && (x.finished <==> p == WholeRun(c))
  {
    var logged := FromLogged(c, p);
    x, y := TwoRunsAreOne(c, logged, WholeRun(c) - 2, p - 2, b, Onward(WholeRun(c) - 2, p - 2, b));
    var again := FromLogged(c, Further(WholeRun(c), p, b));
  }

  lemma OneMoreRun(c: Config, p: nat, b: nat) returns (x: World, y: World)
    requires ValidConfig(c) && MayStart(c) && p <= WholeRun(c)
    ensures Leads(c, x, y, p, b, Further(WholeRun(c), p, b)) && (x.finished <==> p == WholeRun(c))
  {
    if p == 0 {
      x, y := RunAfterNothing(c, b);
    } else if p == 1 {
      x := RunWhenWedged(c, b);
      y := x;
    } else {
      x, y := RunUnderWay(c, p, b);
    }
  }

  // However often and wherever a migration is interrupted, the chain is where one run of a computed length would have
  // left it; and it is finished exactly if that is the whole run.
  lemma {:induction false} RunsAreOneRun(c: Config, budgets: seq<nat>)
    requires ValidConfig(c) && MayStart(c)
    ensures var p := Position(WholeRun(c), budgets);
            p <= WholeRun(c) && After(c, budgets) == After(c, [p]) && (After(c, budgets).finished <==> p == WholeRun(c))
  {
    var p := Position(WholeRun(c), budgets);
    if budgets == [] {
      var x, y := OneMoreRun(c, 0, 0);
      AfterOne(c, 0);
      FirstPlan(c);
    } else {
      var before, b := budgets[..|budgets| - 1], budgets[|budgets| - 1];
      RunsAreOneRun(c, before);
      var x, y := OneMoreRun(c, Position(WholeRun(c), before), b);
      var x', y' := OneMoreRun(c, p, 0);
    }
  }

  // A migration that must not start never does anything.
  lemma {:induction false} NeverStarts(c: Config, budgets: seq<nat>)
    requires ValidConfig(c) && !MayStart(c)
    ensures After(c, budgets) == Genesis(c) && !Genesis(c).finished
  {
    GenesisHolds(c);
    WhenBlocked(c, Genesis(c));
    if budgets == [] {
    } else {
      NeverStarts(c, budgets[..|budgets| - 1]);
    }
  }

  lemma FinishesExactlyWhen(c: Config, budgets: seq<nat>)
    requires ValidConfig(c)
    ensures After(c, budgets).finished <==> MayStart(c) && Position(WholeRun(c), budgets) == WholeRun(c)
  {
    if MayStart(c) {
      RunsAreOneRun(c, budgets);
    } else {
      NeverStarts(c, budgets);
    }
  }

  lemma {:induction false} PositionBounds(n: nat, budgets: seq<nat>)
    requires n >= 4
    ensures Position(n, budgets) <= n
    ensures Position(n, budgets) == 1 <==> FirstPositive(budgets) == 1
    ensures Position(n, budgets) == 0 <==> FirstPositive(budgets) == 0
  {
    if budgets == [] {
    } else {
      var before, b := budgets[..|budgets| - 1], budgets[|budgets| - 1];
      PositionBounds(n, before);
      FirstPositiveAppended(before, b);
      assert budgets == before + [b];
    }
  }

  lemma {:induction false} LongBudgetGetsThrough(n: nat, budgets: seq<nat>, i: nat)
    requires n >= 4 && i < |budgets| && budgets[i] >= n && FirstPositive(budgets) != 1
    ensures Position(n, budgets) == n
  {
    var before, b := budgets[..|budgets| - 1], budgets[|budgets| - 1];
    PositionBounds(n, before);
    PositionBounds(n, budgets);
    FirstPositiveAppended(before, b);
    assert budgets == before + [b];
    if i < |before| {
      LongBudgetGetsThrough(n, before, i);
    }
  }

  // One run that lives long enough finishes the migration, whatever happens before and after it, unless the migration
  // is wedged by then.
  lemma LongBudgetFinishes(c: Config, budgets: seq<nat>, i: nat)
    requires ValidConfig(c) && MayStart(c) && FirstPositive(budgets) != 1
    requires i < |budgets| && budgets[i] >= WholeRun(c)
    ensures After(c, budgets).finished
  {
    LongBudgetGetsThrough(WholeRun(c), budgets, i);
    FinishesExactlyWhen(c, budgets);
  }
}
