// What the migration promises over every sequence of runs, each of which may have died anywhere.
module MigrationSafety {
  import opened Books
  import opened Common
  import opened SnapshotEvents
  import opened MigrationSpec
  import opened MigrationRuns

  /** The chain after some runs. */
  function After(c: Config, budgets: seq<nat>): World
    requires ValidConfig(c)
  {
    RanAll(c, Genesis(c), budgets)
  }

  // ---- Exactly once ----

  // No two payments that are due go to the same account.
  lemma {:induction false} ReceiversDiffer(c: Config, skip: set<Account>, i: nat, m: nat, n: nat)
    requires ValidConfig(c) && i <= |c.snapshot.accounts| && m < n < |ToSend(c, skip, i)|
    ensures ToSend(c, skip, i)[m].to != ToSend(c, skip, i)[n].to
    decreases |c.snapshot.accounts| - i
  {
    var all, rest, a := ToSend(c, skip, i), ToSend(c, skip, i + 1), c.snapshot.accounts[i];
    if all == rest {
      ReceiversDiffer(c, skip, i + 1, m, n);
    } else if m > 0 {
      ReceiversDiffer(c, skip, i + 1, m - 1, n - 1);
    } else {
      assert all[n] == rest[n - 1] && rest[n - 1] in rest;
      Owes(c, skip, i + 1, rest[n - 1]);
    }
  }

  // At any time, the airdrop events are payments to different holders, each of its snapshot balance, and only to
  // holders at or above the cutoff outside the base skip list. Once a run has finished, they are all of these.
  lemma EachHolderIsPaidAtMostOnce(c: Config, budgets: seq<nat>)
    requires ValidConfig(c)
    ensures var paid := Of(c, Airdrop, After(c, budgets).events);
            && (forall m, n | 0 <= m < n < |paid| :: paid[m].to != paid[n].to)
            && (forall p | p in paid ::
                  exists j | 0 <= j < |c.snapshot.accounts| && Eligible(c, j) ::
                    p == Payment(c.snapshot.accounts[j], c.snapshot.balances[j]))
            && (After(c, budgets).finished ==>
                  forall j | 0 <= j < |c.snapshot.accounts| && Eligible(c, j) ::
                    Payment(c.snapshot.accounts[j], c.snapshot.balances[j]) in paid)
  {
    RunsKeep(c, budgets);
    var paid := Of(c, Airdrop, After(c, budgets).events);
    forall m, n | 0 <= m < n < |paid| ensures paid[m].to != paid[n].to {
      ReceiversDiffer(c, Base(c), 0, m, n);
    }
    forall p | p in paid
      ensures exists j | 0 <= j < |c.snapshot.accounts| && Eligible(c, j) ::
                p == Payment(c.snapshot.accounts[j], c.snapshot.balances[j])
    {
      assert p in Due(c);
      Owes(c, Base(c), 0, p);
    }
    if After(c, budgets).finished {
      assert paid == Due(c);
      forall j | 0 <= j < |c.snapshot.accounts| && Eligible(c, j)
        ensures Payment(c.snapshot.accounts[j], c.snapshot.balances[j]) in paid
      {
        Owes(c, Base(c), 0, Payment(c.snapshot.accounts[j], c.snapshot.balances[j]));
      }
    }
  }

  // The balances say the same: nobody but the airdropper, the new gateway and eligible holders ever holds anything,
  // a holder has nothing or its snapshot balance, and in the end every eligible one has it.
  lemma HoldersGetTheirBalances(c: Config, budgets: seq<nat>, j: nat)
    requires ValidConfig(c) && j < |c.snapshot.accounts|
    requires c.snapshot.accounts[j] !in {c.airdropper, c.newGateway}
    ensures var w, a := After(c, budgets), c.snapshot.accounts[j];
            && At(w.bal, a)
               == (if Eligible(c, j) && a in Receivers(Of(c, Airdrop, w.events)) then c.snapshot.balances[j] else 0)
            && (w.finished ==> At(w.bal, a) == if Eligible(c, j) then c.snapshot.balances[j] else 0)
  {
    RunsKeep(c, budgets);
    var w, a := After(c, budgets), c.snapshot.accounts[j];
    var paid, k := Of(c, Airdrop, w.events), |Of(c, Airdrop, w.events)|;
    assert paid == Due(c)[..k] && Due(c) == paid + Due(c)[k..];
    Joined(paid, Due(c)[k..], a);
    Resume(c, Base(c), 0, k);
    OwesOnce(c, Base(c), 0, j);
    OwesOnce(c, Base(c) + Receivers(paid), 0, j);
    if w.finished {
      assert Due(c)[k..] == [];
    }
  }

  lemma OutsidersGetNothing(c: Config, budgets: seq<nat>, a: Account)
    requires ValidConfig(c) && a !in c.snapshot.accounts && a !in {c.airdropper, c.newGateway}
    ensures At(After(c, budgets).bal, a) == 0
  {
    RunsKeep(c, budgets);
    var paid := Of(c, Airdrop, After(c, budgets).events);
    assert paid == Due(c)[..|paid|];
    PaymentsAreToHolders(c, |paid|);
  }

  // The approval is unset with nothing sent, or is exactly what is still owed.
  lemma ApprovalMatchesDebt(c: Config, budgets: seq<nat>)
    requires ValidConfig(c)
    ensures var w := After(c, budgets); var paid := Of(c, Airdrop, w.events);
            && ((w.allowance == 0 && paid == []) || w.allowance == Owed(Due(c)) - Owed(paid))
            && (w.finished ==> w.allowance == 0 && paid == Due(c))
  {
    RunsKeep(c, budgets);
    var paid := Of(c, Airdrop, After(c, budgets).events);
    assert Due(c) == paid + Due(c)[|paid|..];
    Joined(paid, Due(c)[|paid|..], c.airdropper);
  }

  // The gateway is topped up at most once, before any holder is paid, and then holds the old gateway's balance plus
  // the supply still to be burnt.
  lemma GatewayIsToppedUpOnce(c: Config, budgets: seq<nat>)
    requires ValidConfig(c)
    ensures var w := After(c, budgets);
            && |Of(c, TopUp, w.events)| <= 1
            && (Of(c, Airdrop, w.events) != [] || w.finished ==> Topped(c, w))
            && (Topped(c, w) ==> At(w.bal, c.newGateway) - OldGatewayBalance(c) == SupplyDifference(c))
            && (!Topped(c, w) ==> At(w.bal, c.newGateway) == c.minted)
  {
    RunsKeep(c, budgets);
    FourAccounts(c);
    var paid := Of(c, Airdrop, After(c, budgets).events);
    assert paid == Due(c)[..|paid|];
    PaymentsAreToHolders(c, |paid|);
  }

  // ---- Progress ----

  lemma {:induction false} BatchCount(list: seq<Payment>)
    ensures |BatchPlan(list)| == (|list| + BATCH_SIZE - 1) / BATCH_SIZE
    decreases |list|
  {
    if |list| <= BATCH_SIZE {
    } else {
      BatchCount(list[BATCH_SIZE..]);
    }
  }

  lemma {:induction false} EndsInSuccess(c: Config, w: World, actions: seq<Action>, budget: nat)
    requires ValidConfig(c) && actions != [] && actions[|actions| - 1] == LogSuccess && budget >= |actions|
    ensures ApplyUpTo(c, w, actions, budget).finished
    decreases |actions|
  {
    if |actions| == 1 {
      assert actions[1..] == [];
    } else {
      EndsInSuccess(c, Apply(c, w, actions[0]), actions[1..], budget - 1);
    }
  }

  // A run that is not blocked and lives long enough finishes the migration, however far earlier runs got.
  lemma LongRunFinishes(c: Config, budgets: seq<nat>, budget: nat)
    requires ValidConfig(c) && !Blocked(c, After(c, budgets))
    requires budget >= 4 + (|Due(c)| + BATCH_SIZE - 1) / BATCH_SIZE
    ensures After(c, budgets + [budget]).finished
  {
    RunsKeep(c, budgets);
    var w := After(c, budgets);
    assert (budgets + [budget])[..|budgets|] == budgets;
    if !w.finished {
      RemainingIsUnpaid(c, w);
      BatchCount(Unpaid(c, w));
      EndsInSuccess(c, w, Plan(c, w), budget);
    }
  }

  // ---- Getting stuck ----

  /** The top-up is on chain but its log line is missing. */
  predicate Stuck(c: Config, w: World) {
    Topped(c, w) && !w.gatewayLogged
  }

  function FirstPositive(budgets: seq<nat>): nat {
    if budgets == [] then 0 else if budgets[0] > 0 then budgets[0] else FirstPositive(budgets[1..])
  }

  lemma {:induction false} FirstPositiveAppended(budgets: seq<nat>, b: nat)
    ensures FirstPositive(budgets + [b]) == if FirstPositive(budgets) > 0 then FirstPositive(budgets) else b
  {
    if budgets == [] {
      assert [b][1..] == [];
      assert [] + [b] == [b];
    } else {
      assert (budgets + [b])[1..] == budgets[1..] + [b];
      FirstPositiveAppended(budgets[1..], b);
    }
  }

  lemma {:induction false} PayOutLogged(c: Config, w: World, batch: seq<Payment>)
    ensures PayOut(c, w, batch).Some? ==> PayOut(c, w, batch).value.gatewayLogged == w.gatewayLogged
    decreases |batch|
  {
    if batch == [] {
    } else {
      PayOutLogged(c, Transferred(w, c.multiSend, batch[0].to, batch[0].amount), batch[1..]);
    }
  }

  lemma ApplyLogged(c: Config, w: World, action: Action)
    requires ValidConfig(c) && w.gatewayLogged
    ensures Apply(c, w, action).gatewayLogged
  {
    if action.Send? {
      var pulled := Transferred(w, c.airdropper, c.multiSend, Owed(action.batch));
      PayOutLogged(c, pulled.(allowance := w.allowance - Owed(action.batch)), action.batch);
    }
  }

  lemma {:induction false} StaysLogged(c: Config, w: World, actions: seq<Action>, b: nat)
    requires ValidConfig(c) && w.gatewayLogged
    ensures ApplyUpTo(c, w, actions, b).gatewayLogged
    decreases |actions|
  {
    if actions == [] || b == 0 {
    } else {
      ApplyLogged(c, w, actions[0]);
      StaysLogged(c, Apply(c, w, actions[0]), actions[1..], b - 1);
    }
  }

  // How far the first actions of a run get.
  lemma RunProgress(c: Config, w: World, b: nat)
    requires ValidConfig(c) && Inv(c, w) && MayStart(c)
    ensures var r := Ran(c, w, b);
            && (w.gatewayLogged ==> r.gatewayLogged)
            && (Stuck(c, w) ==> r == w)
            && (!Topped(c, w) ==> Topped(c, r) == (b >= 1) && r.gatewayLogged == (b >= 2))
  {
    WhenBlocked(c, w);
    if !w.finished && !Blocked(c, w) {
      PlanIsSound(c, w);
      var plan := Plan(c, w);
      if w.gatewayLogged {
        StaysLogged(c, w, plan, b);
      } else if b >= 1 {
        TopUpKeeps(c, w);
        var topped := Apply(c, w, TopUpGateway);
        assert ApplyUpTo(c, w, plan, b) == ApplyUpTo(c, topped, plan[1..], b - 1);
        if b >= 2 {
          var logged := Apply(c, topped, LogTopUp);
          assert ApplyUpTo(c, topped, plan[1..], b - 1) == ApplyUpTo(c, logged, plan[1..][1..], b - 2);
          StaysLogged(c, logged, plan[1..][1..], b - 2);
          RunKeeps(c, w, b);
        }
      }
    }
  }

  // The one way to wedge the migration: the first run that does anything dies right between the gateway's top-up
  // and its log line. Every later run then fails its first assertions and changes nothing.
  lemma {:induction false} StuckExactlyWhen(c: Config, budgets: seq<nat>)
    requires ValidConfig(c) && MayStart(c)
    ensures Stuck(c, After(c, budgets)) <==> FirstPositive(budgets) == 1
    ensures Blocked(c, After(c, budgets)) <==> FirstPositive(budgets) == 1
    ensures !Topped(c, After(c, budgets)) <==> FirstPositive(budgets) == 0
  {
    RunsKeep(c, budgets);
    WhenBlocked(c, After(c, budgets));
    if budgets == [] {
      GenesisHolds(c);
    } else {
      var before, b := budgets[..|budgets| - 1], budgets[|budgets| - 1];
      StuckExactlyWhen(c, before);
      RunsKeep(c, before);
      RunProgress(c, After(c, before), b);
      FirstPositiveAppended(before, b);
      assert budgets == before + [b];
    }
  }

  lemma {:induction false} StuckForever(c: Config, w: World, budgets: seq<nat>)
    requires ValidConfig(c) && Inv(c, w) && (Stuck(c, w) || (!Topped(c, w) && !MayStart(c)))
    ensures RanAll(c, w, budgets) == w && Blocked(c, w)
  {
    WhenBlocked(c, w);
    if budgets == [] {
    } else {
      StuckForever(c, w, budgets[..|budgets| - 1]);
    }
  }
}
