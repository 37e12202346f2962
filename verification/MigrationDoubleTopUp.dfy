// The gateway's top-up in flight when a run starts: that run sends a second one. What becomes of the migration depends
// on which of the two is mined last and on what the airdropper has left.
module MigrationDoubleTopUp {
  import opened Books
  import opened Common
  import opened SnapshotEvents
  import opened SnapshotFile
  import opened MigrationSpec
  import opened MigrationRuns
  import opened MigrationSafety
  import MigrationVerifier

  function TopUpAmount(c: Config): int
    requires ValidConfig(c)
  {
    AmountToTransfer(c, c.minted)
  }

  /** The later of the two transfers; the token refuses it unless the airdropper still has the amount. */
  function LaterTopUp(c: Config, w: World): Option<World>
    requires ValidConfig(c)
  {
    if At(w.bal, c.airdropper) < TopUpAmount(c) then None
    else Some(Transferred(w, c.airdropper, c.newGateway, TopUpAmount(c)))
  }

  lemma AirdropperHolds(c: Config, w: World)
    requires ValidConfig(c) && Inv(c, w) && Topped(c, w)
    ensures At(w.bal, c.airdropper) == INIT_SUPPLY - c.minted - TopUpAmount(c) - Owed(Of(c, Airdrop, w.events))
    ensures At(w.bal, c.newGateway) == c.minted + TopUpAmount(c) && TopUpAmount(c) > 0
  {
    FourAccounts(c);
    var k := |Of(c, Airdrop, w.events)|;
    assert Of(c, Airdrop, w.events) == Due(c)[..k];
    PaymentsAreToHolders(c, k);
  }

  // The later top-up goes through exactly if the airdropper's mint covers two of them and what was paid by then. The
  // gateway then got two.
  lemma SecondTopUp(c: Config, w: World)
    requires ValidConfig(c) && Inv(c, w) && Topped(c, w)
    ensures LaterTopUp(c, w).Some?
       <==> INIT_SUPPLY - c.minted >= 2 * TopUpAmount(c) + Owed(Of(c, Airdrop, w.events))
    ensures LaterTopUp(c, w).Some? ==>
              var late := LaterTopUp(c, w).value;
              && |Of(c, TopUp, late.events)| == 2 && !EventsAsExpected(c, late)
              && At(late.bal, c.newGateway) == At(w.bal, c.newGateway) + TopUpAmount(c)
  {
    FourAccounts(c);
    AirdropperHolds(c, w);
    OfAppended(c, TopUp, w.events, Event(c.airdropper, c.newGateway, TopUpAmount(c)));
  }

  lemma {:induction false} BlockedForever(c: Config, w: World, budgets: seq<nat>)
    requires ValidConfig(c) && Blocked(c, w)
    ensures RanAll(c, w, budgets) == w
  {
    if budgets == [] {
    } else {
      BlockedForever(c, w, budgets[..|budgets| - 1]);
    }
  }

  lemma SecondTopUpBlocks(c: Config, w: World)
    requires ValidConfig(c) && Inv(c, w) && Topped(c, w) && !w.gatewayLogged && LaterTopUp(c, w).Some?
    ensures Blocked(c, LaterTopUp(c, w).value)
  {
    FourAccounts(c);
    AirdropperHolds(c, w);
    OfAppended(c, Mint, w.events, Event(c.airdropper, c.newGateway, TopUpAmount(c)));
  }

  // If the transfer in flight is mined before the run's own, the run's own reverts, or it goes through and the run
  // fails its assertion about the gateway's balance. Either way the run dies before its log line, and every later run
  // fails its first assertions.
  lemma EarlierOneMinedFirst(c: Config, w: World, budgets: seq<nat>)
    requires ValidConfig(c) && Inv(c, w) && !Topped(c, w) && !w.gatewayLogged && MayStart(c) && !w.finished
    ensures var first := Apply(c, w, TopUpGateway);
            && RanAll(c, first, budgets) == first
            && (LaterTopUp(c, first).Some? ==>
                  var both := LaterTopUp(c, first).value;
                  && At(both.bal, c.newGateway) - OldGatewayBalance(c) != SupplyDifference(c)
                  && RanAll(c, both, budgets) == both)
  {
    var first := Apply(c, w, TopUpGateway);
    TopUpKeeps(c, w);
    WhenBlocked(c, first);
    BlockedForever(c, first, budgets);
    AirdropperHolds(c, first);
    if LaterTopUp(c, first).Some? {
      SecondTopUp(c, first);
      SecondTopUpBlocks(c, first);
      BlockedForever(c, LaterTopUp(c, first).value, budgets);
    }
  }

  // ---- The transfer in flight is mined last, after the run has logged its own ----

  function Shift(c: Config, a: Account): int
    requires ValidConfig(c)
  {
    (if a == c.newGateway then TopUpAmount(c) else 0) - (if a == c.airdropper then TopUpAmount(c) else 0)
  }

  /** World `l` is `w` with one more top-up. */
  ghost predicate Doubled(c: Config, w: World, l: World)
    requires ValidConfig(c)
  {
    && l == w.(bal := l.bal, events := l.events)
    && Of(c, Airdrop, l.events) == Of(c, Airdrop, w.events) && Of(c, Mint, l.events) == Of(c, Mint, w.events)
    && |Of(c, TopUp, l.events)| == |Of(c, TopUp, w.events)| + 1
    && forall a :: At(l.bal, a) == At(w.bal, a) + Shift(c, a)
  }

  lemma LaterOneDoubles(c: Config, w: World)
    requires ValidConfig(c) && Inv(c, w) && Topped(c, w) && LaterTopUp(c, w).Some?
    ensures Doubled(c, w, LaterTopUp(c, w).value)
  {
    FourAccounts(c);
    forall kind {
      OfAppended(c, kind, w.events, Event(c.airdropper, c.newGateway, TopUpAmount(c)));
    }
  }

  /** The airdropper's mint covers two top-ups and all that is due. */
  predicate CoversTwo(c: Config)
    requires ValidConfig(c)
  {
    INIT_SUPPLY - c.minted >= 2 * TopUpAmount(c) + Owed(Due(c))
  }

  // The airdropper can still pay what is owed exactly if its mint covers that much.
  lemma CanStillPay(c: Config, w: World, l: World)
    requires ValidConfig(c) && Inv(c, w) && Topped(c, w) && Doubled(c, w, l)
    ensures Remaining(c, l) == Unpaid(c, w)
    ensures At(l.bal, c.airdropper) >= Owed(Unpaid(c, w)) <==> CoversTwo(c)
  {
    FourAccounts(c);
    AirdropperHolds(c, w);
    RemainingIsUnpaid(c, w);
    assert At(l.bal, c.airdropper) == At(w.bal, c.airdropper) + Shift(c, c.airdropper);
    var k := |Of(c, Airdrop, w.events)|;
    assert Due(c) == Due(c)[..k] + Due(c)[k..] && Of(c, Airdrop, w.events) == Due(c)[..k];
    Joined(Due(c)[..k], Due(c)[k..], c.airdropper);
  }

  lemma SendFitsDoubled(c: Config, w: World, l: World, batch: seq<Payment>)
    requires ValidConfig(c) && Inv(c, w) && Enabled(c, w, Send(batch)) && Doubled(c, w, l) && CoversTwo(c)
    ensures Fits(c, l, batch)
  {
    FourAccounts(c);
    SendFits(c, w, batch);
    CanStillPay(c, w, l);
    var unpaid := Unpaid(c, w);
    assert unpaid == batch + unpaid[|batch|..];
    assert At(l.bal, c.multiSend) == At(w.bal, c.multiSend) + Shift(c, c.multiSend);
  }

  lemma SendDoubled(c: Config, w: World, l: World, batch: seq<Payment>)
    requires ValidConfig(c) && Inv(c, w) && Enabled(c, w, Send(batch)) && Doubled(c, w, l) && CoversTwo(c)
    ensures Doubled(c, Apply(c, w, Send(batch)), Apply(c, l, Send(batch)))
  {
    SendPays(c, w, batch);
    SendFitsDoubled(c, w, l, batch);
    FittingBatchPays(c, l, batch);
    var w', l' := Apply(c, w, Send(batch)), Apply(c, l, Send(batch));
    assert Of(c, TopUp, l'.events) == Of(c, TopUp, l.events) && Of(c, TopUp, w'.events) == Of(c, TopUp, w.events);
    assert Of(c, Mint, l'.events) == Of(c, Mint, l.events) && Of(c, Mint, w'.events) == Of(c, Mint, w.events);
    forall a ensures At(l'.bal, a) == At(w'.bal, a) + Shift(c, a) {
      assert At(l.bal, a) == At(w.bal, a) + Shift(c, a);
    }
  }

  lemma ActionDoubled(c: Config, w: World, l: World, action: Action)
    requires ValidConfig(c) && Inv(c, w) && Enabled(c, w, action) && Topped(c, w) && Doubled(c, w, l) && CoversTwo(c)
    ensures Doubled(c, Apply(c, w, action), Apply(c, l, action))
    ensures Inv(c, Apply(c, w, action)) && Topped(c, Apply(c, w, action))
  {
    EnabledKeeps(c, w, action);
    if action.Send? {
      SendDoubled(c, w, l, action.batch);
      SendPays(c, w, action.batch);
    }
  }

  lemma {:induction false} ActionsDoubled(c: Config, w: World, l: World, actions: seq<Action>, budget: nat)
    returns (w': World, l': World)
    requires ValidConfig(c) && Inv(c, w) && Sound(c, w, actions) && Topped(c, w) && Doubled(c, w, l) && CoversTwo(c)
    ensures w' == ApplyUpTo(c, w, actions, budget) && l' == ApplyUpTo(c, l, actions, budget)
    ensures Doubled(c, w', l') && Topped(c, w')
    decreases |actions|
  {
    if actions == [] || budget == 0 {
      w', l' := w, l;
    } else {
      ActionDoubled(c, w, l, actions[0]);
      w', l' := ActionsDoubled(c, Apply(c, w, actions[0]), Apply(c, l, actions[0]), actions[1..], budget - 1);
    }
  }

  /** A run with its assertion before the batches, which only a world with a second top-up can fail. */
  function Checked(c: Config, w: World, budget: nat): World
    requires ValidConfig(c)
  {
    if w.gatewayLogged && !w.finished && At(w.bal, c.airdropper) < Owed(Remaining(c, w)) then w else Ran(c, w, budget)
  }

  function CheckedAll(c: Config, w: World, budgets: seq<nat>): World
    requires ValidConfig(c)
  {
    if budgets == [] then w else Checked(c, CheckedAll(c, w, budgets[..|budgets| - 1]), budgets[|budgets| - 1])
  }

  lemma PlansAgree(c: Config, w: World, l: World)
    requires ValidConfig(c) && Inv(c, w) && w.gatewayLogged && Doubled(c, w, l)
    ensures Plan(c, l) == Plan(c, w) && !Blocked(c, l) && !Blocked(c, w)
  {
    WhenBlocked(c, w);
  }

  lemma RunDoubled(c: Config, w: World, l: World, budget: nat)
    requires ValidConfig(c) && Inv(c, w) && w.gatewayLogged && Doubled(c, w, l) && CoversTwo(c)
    ensures Doubled(c, Ran(c, w, budget), Checked(c, l, budget))
    ensures Inv(c, Ran(c, w, budget)) && Ran(c, w, budget).gatewayLogged
  {
    RunKeeps(c, w, budget);
    PlansAgree(c, w, l);
    CanStillPay(c, w, l);
    if !w.finished {
      PlanIsSound(c, w);
      StaysLogged(c, w, Plan(c, w), budget);
      var w', l' := ActionsDoubled(c, w, l, Plan(c, w), budget);
    }
  }

  // After a second top-up, later runs make exactly the payments they would have made without it if the airdropper's
  // mint covers two top-ups and all that is due; otherwise each of them fails the assertion before its batches and
  // does nothing.
  lemma {:induction false} RunsAfterSecondTopUp(c: Config, w: World, l: World, budgets: seq<nat>)
    requires ValidConfig(c) && Inv(c, w) && w.gatewayLogged && !w.finished && Doubled(c, w, l)
    ensures CoversTwo(c) ==>
              && Doubled(c, RanAll(c, w, budgets), CheckedAll(c, l, budgets))
              && Inv(c, RanAll(c, w, budgets)) && RanAll(c, w, budgets).gatewayLogged
    ensures !CoversTwo(c) ==> CheckedAll(c, l, budgets) == l
  {
    if budgets == [] {
    } else {
      var before, b := budgets[..|budgets| - 1], budgets[|budgets| - 1];
      RunsAfterSecondTopUp(c, w, l, before);
      if CoversTwo(c) {
        RunDoubled(c, RanAll(c, w, before), CheckedAll(c, l, before), b);
      } else {
        CanStillPay(c, w, l);
      }
    }
  }

  // The verifier tells the two apart: after a second top-up it refuses.
  lemma VerifierSeesSecondTopUp(c: Config, w: World, l: World)
    requires ValidConfig(c) && Inv(c, w) && Topped(c, w) && Doubled(c, w, l)
    ensures MigrationVerifier.SupplyMatches(c, w) && !MigrationVerifier.Passes(c, l)
  {
    FourAccounts(c);
    AirdropperHolds(c, w);
    assert At(l.bal, c.newGateway) == At(w.bal, c.newGateway) + Shift(c, c.newGateway);
  }

  // A run without a second top-up never fails the assertion.
  lemma CheckedIsRan(c: Config, w: World, budget: nat)
    requires ValidConfig(c) && Inv(c, w)
    ensures Checked(c, w, budget) == Ran(c, w, budget)
  {
    var k := |Of(c, Airdrop, w.events)|;
    assert Of(c, Airdrop, w.events) == Due(c)[..k];
    AirdropperCanPay(c, k);
    RemainingIsUnpaid(c, w);
  }
}
