// What every run of the full machine keeps, whatever rules it takes, in whatever order, with upgrades of any
// of the three contracts in between.
module Safety {
  import opened Books
  import opened Protocol
  import opened SystemSpec
  import KeyManager
  import V = VaultSpec
  import G = GatewaySpec

  // ---- Funds ----

  // For each Vault asset, what tracked addresses hold plus what was sent out of them never changes.
  lemma EveryRunConservesVaultAssets(s: System, ops: seq<Op>, asset: Asset)
    requires Inv(s) && Rules(ops)
    ensures var e := Run(s, ops, |ops|);
            Sum(e.v.books.Of(asset)) + e.v.sent.Of(asset) == Sum(s.v.books.Of(asset)) + s.v.sent.Of(asset)
  {
    RunKeeps(s, ops, |ops|);
    assert V.Total(Run(s, ops, |ops|).v, asset) == V.Total(s.v, asset);
  }

  // The sum of FLIP balances moves only with the total supply, and the gateway's own FLIP always is what it
  // started with plus the funding tracked since and the net change of supply.
  lemma EveryRunAccountsForFlip(s: System, ops: seq<Op>)
    requires Inv(s) && Rules(ops)
    ensures var e := Run(s, ops, |ops|);
            && Sum(e.g.flip) - Sum(s.g.flip) == e.g.supply - s.g.supply
            && e.g.Balance(e.g.Self())
               == s.g.Balance(s.g.Self()) + (e.g.totalFunding - s.g.totalFunding) + (e.g.supply - s.g.supply)
  {
    RunKeeps(s, ops, |ops|);
  }

  /** What the first `n` rules of a run funded the gateway with. */
  function Funded(s: System, ops: seq<Op>, n: nat): nat
    requires n <= |ops| && Rules(ops)
  {
    if n == 0 then 0
    else
      var op := ops[n - 1];
      Funded(s, ops, n - 1)
      + if op.GatewayRule? && op.gateway.Fund? && Verdict(Run(s, ops, n - 1), op).Done? then op.gateway.amount else 0
  }

  /** What the first `n` rules of a run sent out of the Vault with swap and call executions. */
  function SentOut(s: System, ops: seq<Op>, n: nat, asset: Asset): nat
    requires n <= |ops| && Rules(ops)
  {
    if n == 0 then 0
    else
      var op := ops[n - 1];
      SentOut(s, ops, n - 1, asset)
      + if op.VaultRule? && op.vault.ExecuteSwapAndCall? && op.vault.asset == asset
           && Verdict(Run(s, ops, n - 1), op).Done?
        then op.vault.amount else 0
  }

  lemma FundingAtStep(s: System, op: Op)
    requires WellFormed(op)
    ensures Step(s, op).g.totalFunding + G.PaidOut(Step(s, op).g.log)
         == s.g.totalFunding + G.PaidOut(s.g.log)
            + if op.GatewayRule? && op.gateway.Fund? && Verdict(s, op).Done? then op.gateway.amount else 0
  {
    if op.GatewayRule? {
      G.FundingFollowsPayments(s.g, s.k, op.gateway);
    } else if op.UpgradeGateway? {
      G.ReplacingPaysNobodyElse(s.g, s.next, s.k.now, op.sleep);
    }
  }

  lemma {:induction false} FundingOverRun(s: System, ops: seq<Op>, n: nat)
    requires Rules(ops) && n <= |ops|
    ensures var e := Run(s, ops, n);
            e.g.totalFunding + G.PaidOut(e.g.log) == s.g.totalFunding + G.PaidOut(s.g.log) + Funded(s, ops, n)
  {
    if n == 0 {
    } else {
      FundingOverRun(s, ops, n - 1);
      FundingAtStep(Run(s, ops, n - 1), ops[n - 1]);
    }
  }

  // The gateway's FLIP is what it started with, plus every accepted funding, less every redemption paid, plus the
  // net change of supply, through any gateway upgrades.
  lemma {:induction false} EveryRunBalancesTheGateway(s: System, ops: seq<Op>, n: nat)
    requires Inv(s) && Rules(ops) && n <= |ops|
    ensures var e := Run(s, ops, n);
            e.g.Balance(e.g.Self())
            == s.g.Balance(s.g.Self())
               + Funded(s, ops, n) - (G.PaidOut(e.g.log) - G.PaidOut(s.g.log)) + (e.g.supply - s.g.supply)
  {
    RunKeeps(s, ops, n);
    FundingOverRun(s, ops, n);
  }

  lemma SentAtStep(s: System, op: Op, asset: Asset)
    requires WellFormed(op)
    ensures Step(s, op).v.sent.Of(asset)
         == s.v.sent.Of(asset)
            + if op.VaultRule? && op.vault.ExecuteSwapAndCall? && op.vault.asset == asset && Verdict(s, op).Done?
              then op.vault.amount else 0
  {
    if op.VaultRule? {
      V.StepSends(s.v, s.k, op.vault, asset);
    }
  }

  lemma {:induction false} SentOverRun(s: System, ops: seq<Op>, n: nat, asset: Asset)
    requires Rules(ops) && n <= |ops|
    ensures Run(s, ops, n).v.sent.Of(asset) == s.v.sent.Of(asset) + SentOut(s, ops, n, asset)
  {
    if n == 0 {
    } else {
      SentOverRun(s, ops, n - 1, asset);
      SentAtStep(Run(s, ops, n - 1), ops[n - 1], asset);
    }
  }

  // What the tracked addresses lose over a run is exactly what accepted executions sent out.
  lemma {:induction false} EveryRunLosesOnlyExecutions(s: System, ops: seq<Op>, n: nat, asset: Asset)
    requires Inv(s) && Rules(ops) && n <= |ops|
    ensures Sum(Run(s, ops, n).v.books.Of(asset)) == Sum(s.v.books.Of(asset)) - SentOut(s, ops, n, asset)
  {
    RunKeeps(s, ops, n);
    assert V.Total(Run(s, ops, n).v, asset) == V.Total(s.v, asset);
    SentOverRun(s, ops, n, asset);
  }

  lemma NoRunOverdraws(s: System, ops: seq<Op>, asset: Asset, a: Address)
    requires Inv(s) && Rules(ops)
    ensures Run(s, ops, |ops|).v.Balance(asset, a) >= 0 && Run(s, ops, |ops|).g.Balance(a) >= 0
  {
    RunKeeps(s, ops, |ops|);
    assert NonNegative(Run(s, ops, |ops|).v.books.Of(asset));
  }

  // A deployed deposit never holds native funds, whichever asset it was deployed for; so a native fetch from a
  // deployed deposit, which the batch rule counts without calling the contract, brings nothing.
  lemma DeployedDepositsHoldNoNative(s: System, ops: seq<Op>, swapID: nat)
    requires Inv(s) && Rules(ops)
    ensures var e := Run(s, ops, |ops|);
            swapID in e.v.deployed ==>
              && e.v.Balance(Native, e.v.deployed[swapID]) == 0
              && (forall a :: V.Fetch(e.v, swapID, Native).Balance(Native, a) == e.v.Balance(Native, a))
              && V.Fetch(e.v, swapID, Native).deployed == e.v.deployed
  {
    RunKeeps(s, ops, |ops|);
  }

  // As long as the Vault is not replaced, a swap ID once deployed keeps its deposit address.
  lemma {:induction false} SwapIDsAreDeployedOnce(s: System, ops: seq<Op>, j: nat, n: nat, swapID: nat)
    requires Rules(ops) && j <= n <= |ops| && swapID in Run(s, ops, j).v.deployed
    requires forall i | j <= i < n :: ops[i].UpgradeVault? ==> !Verdict(Run(s, ops, i), ops[i]).Done?
    ensures swapID in Run(s, ops, n).v.deployed
         && Run(s, ops, n).v.deployed[swapID] == Run(s, ops, j).v.deployed[swapID]
  {
    if n == j {
    } else {
      SwapIDsAreDeployedOnce(s, ops, j, n - 1, swapID);
      if ops[n - 1].VaultRule? {
        V.StepDeploysOnce(Run(s, ops, n - 1).v, Run(s, ops, n - 1).k, ops[n - 1].vault);
      }
    }
  }

  // Registering a new Vault's deposit addresses with balance zero overwrites nothing.
  lemma NewVaultDepositsAreEmpty(s: System, ops: seq<Op>, signer: Key, sleep: nat, asset: Asset, swapID: nat, t: Asset)
    requires Inv(s) && Rules(ops) && sleep <= 7 * DAY
    ensures var e := Run(s, ops, |ops|);
            var u := Step(e, UpgradeVault(signer, sleep));
            && u.v.Balance(asset, Deposit(e.next, swapID, t)) == 0
            && (Verdict(e, UpgradeVault(signer, sleep)).Done? ==> u.v.vault == e.next && u.v.deployed == map[])
  {
    RunKeeps(s, ops, |ops|);
    var e := Run(s, ops, |ops|);
    assert V.Future(Deposit(e.next, swapID, t), e.next);
    assert At(e.v.books.Of(asset), Deposit(e.next, swapID, t)) == 0;
  }

  // ---- Supply updates ----

  /** Rule `j` of the run was accepted with a signature. */
  predicate SignedAt(s: System, ops: seq<Op>, j: nat)
    requires j < |ops| && Rules(ops)
  {
    Verdict(Run(s, ops, j), ops[j]) == Done(true)
  }

  /** Rule `j` was an accepted supply update. */
  predicate SupplyUpdatedAt(s: System, ops: seq<Op>, j: nat)
    requires j < |ops| && Rules(ops)
  {
    ops[j].GatewayRule? && ops[j].gateway.UpdateSupply? && SignedAt(s, ops, j)
  }

  /** The gateway was replaced by rule `j`. */
  predicate GatewayReplacedAt(s: System, ops: seq<Op>, j: nat)
    requires j < |ops| && Rules(ops)
  {
    ops[j].UpgradeGateway? && SignedAt(s, ops, j)
  }

  lemma {:induction false} BlockNumberStays(s: System, ops: seq<Op>, j: nat, n: nat)
    requires Inv(s) && Rules(ops) && j <= n <= |ops|
    requires forall i | j <= i < n :: !GatewayReplacedAt(s, ops, i)
    ensures Run(s, ops, j).g.lastSupplyBlock <= Run(s, ops, n).g.lastSupplyBlock
  {
    if n == j {
    } else {
      BlockNumberStays(s, ops, j, n - 1);
      RunKeeps(s, ops, n - 1);
      assert !GatewayReplacedAt(s, ops, n - 1);
      var before, op := Run(s, ops, n - 1), ops[n - 1];
      if op.GatewayRule? {
        G.StepKeeps(before.g, before.k, op.gateway);
      }
    }
  }

  // On one gateway, the block numbers of accepted supply updates strictly increase.
  lemma AcceptedBlocksIncrease(s: System, ops: seq<Op>, i: nat, j: nat)
    requires Inv(s) && Rules(ops) && i < j < |ops|
    requires SupplyUpdatedAt(s, ops, i) && SupplyUpdatedAt(s, ops, j)
    requires forall m | i < m < j :: !GatewayReplacedAt(s, ops, m)
    ensures ops[i].gateway.block < ops[j].gateway.block
  {
    BlockNumberStays(s, ops, i + 1, j);
    assert Run(s, ops, i + 1) == Step(Run(s, ops, i), ops[i]);
    assert G.Step(Run(s, ops, i).g, Run(s, ops, i).k, ops[i].gateway).lastSupplyBlock == ops[i].gateway.block;
  }

  // ---- Redemptions ----

  // On every gateway a run has ever used, each payment consumes one registration of the same amount and
  // recipient, within [registration + delay, expiry]; an expired one is cleared without payment; a live one is
  // never replaced; and no node is paid more than was registered for it.
  lemma RedemptionsAreSafe(s: System, ops: seq<Op>, gateway: nat, node: nat)
    requires Inv(s) && Rules(ops)
    ensures var h := G.History(Run(s, ops, |ops|).g.log, gateway, node);
            G.AllJustified(h) && G.TotalPaid(h) <= G.TotalRegistered(h)
  {
    RunKeeps(s, ops, |ops|);
    G.PaidAtMostRegistered(G.History(Run(s, ops, |ops|).g.log, gateway, node));
  }

  // No rule of a suspended gateway, an attempted upgrade of it included, pays, registers or clears a redemption.
  lemma SuspendedGatewayFreezesRedemptions(s: System, op: Op)
    requires WellFormed(op) && s.g.suspended
    ensures Step(s, op).g.log == s.g.log
  {
    if op.GatewayRule? {
      G.SuspendedFreezesRedemptions(s.g, s.k, op.gateway);
    }
  }

  // ---- Keys and emergency powers ----

  // The aggregate key changes only by a call the current key signed, or by the current governor once the
  // timeout has passed since the last validated signature.
  lemma AggKeyChangesOnlyByKeyOrTimeout(s: System, op: Op)
    requires WellFormed(op) && Step(s, op).k.aggKey != s.k.aggKey
    ensures op.KeyRule?
    ensures || (op.key.SetAggKeyWithAggKey? && op.key.signer == s.k.aggKey)
            || (op.key.SetAggKeyWithGovKey? && op.key.sender == s.k.governor
                && s.k.now - s.k.lastValidateTime >= AGG_KEY_TIMEOUT)
  {
  }

  /** The KeyManager was replaced by rule `j`. */
  predicate ReplacedAt(s: System, ops: seq<Op>, j: nat)
    requires j < |ops| && Rules(ops)
  {
    ops[j].UpgradeKeyManager? && SignedAt(s, ops, j)
  }

  // No rule but a KeyManager upgrade sets the recorded time back, and every accepted signature sets it.
  lemma StepRecordsSignatures(s: System, op: Op)
    requires Inv(s) && WellFormed(op)
    requires op.UpgradeKeyManager? ==> !Verdict(s, op).Done?
    ensures Step(s, op).k.lastValidateTime >= s.k.lastValidateTime
    ensures Verdict(s, op) == Done(true) ==> Step(s, op).k.lastValidateTime == Step(s, op).k.now
  {
  }

  // Within one KeyManager, the recorded time is never older than any accepted signature.
  lemma {:induction false} LastValidateTimeIsRecent(s: System, ops: seq<Op>, j: nat, n: nat)
    requires Inv(s) && Rules(ops) && j < n <= |ops|
    requires SignedAt(s, ops, j) && forall i | j <= i < n :: !ReplacedAt(s, ops, i)
    ensures Run(s, ops, n).k.lastValidateTime >= Run(s, ops, j + 1).k.now
  {
    RunKeeps(s, ops, n - 1);
    assert !ReplacedAt(s, ops, n - 1);
    StepRecordsSignatures(Run(s, ops, n - 1), ops[n - 1]);
    if n == j + 1 {
    } else {
      LastValidateTimeIsRecent(s, ops, j, n - 1);
    }
  }

  // The governor can replace the aggregate key only when this KeyManager has accepted no signature for the timeout.
  lemma GovernorWaitsForSilence(s: System, ops: seq<Op>, j: nat, sender: Address, newKey: Key)
    requires Inv(s) && Rules(ops) && j < |ops|
    requires SignedAt(s, ops, j) && forall i | j <= i < |ops| :: !ReplacedAt(s, ops, i)
    requires KeyManager.Verdict(Run(s, ops, |ops|).k, KeyManager.SetAggKeyWithGovKey(sender, newKey)).Done?
    ensures Run(s, ops, |ops|).k.now >= Run(s, ops, j + 1).k.now + AGG_KEY_TIMEOUT
  {
    LastValidateTimeIsRecent(s, ops, j, |ops|);
  }

  /** Rule `j` disabled the Vault's community guard. */
  predicate GuardDisabledAt(s: System, ops: seq<Op>, j: nat)
    requires j < |ops| && Rules(ops)
  {
    ops[j].VaultRule? && ops[j].vault.DisableGuard? && Verdict(Run(s, ops, j), ops[j]).Done?
  }

  /** Rule `j` enabled it, or replaced the Vault by one whose guard is enabled. */
  predicate GuardEnabledAt(s: System, ops: seq<Op>, j: nat)
    requires j < |ops| && Rules(ops)
  {
    || (ops[j].VaultRule? && ops[j].vault.EnableGuard? && Verdict(Run(s, ops, j), ops[j]).Done?)
    || (ops[j].UpgradeVault? && SignedAt(s, ops, j))
  }

  lemma GuardChangesOnlyByItsRules(s: System, op: Op)
    requires WellFormed(op) && Step(s, op).v.guardDisabled
    ensures s.v.guardDisabled || (op.VaultRule? && op.vault.DisableGuard? && Verdict(s, op).Done?)
    ensures !(op.VaultRule? && op.vault.EnableGuard? && Verdict(s, op).Done?)
    ensures !(op.UpgradeVault? && Verdict(s, op) == Done(true))
  {
  }

  // A disabled guard was disabled by the community key of that time, on the Vault still in use, and has not been
  // enabled since.
  lemma {:induction false} GuardWasDisabled(s: System, ops: seq<Op>, n: nat) returns (j: nat)
    requires Rules(ops) && n <= |ops|
    requires !s.v.guardDisabled && Run(s, ops, n).v.guardDisabled
    ensures j < n && GuardDisabledAt(s, ops, j) && ops[j].vault.sender == Run(s, ops, j).k.communityKey
    ensures forall i | j < i < n :: !GuardEnabledAt(s, ops, i)
    ensures Run(s, ops, j).v.vault == Run(s, ops, n).v.vault
  {
    var before, op := Run(s, ops, n - 1), ops[n - 1];
    GuardChangesOnlyByItsRules(before, op);
    if op.VaultRule? {
      V.StepStaysAtHome(before.v, before.k, op.vault);
    }
    if GuardDisabledAt(s, ops, n - 1) {
      j := n - 1;
    } else {
      j := GuardWasDisabled(s, ops, n - 1);
      assert !GuardEnabledAt(s, ops, n - 1);
    }
  }

  // A governance withdrawal from the Vault is the governor's, happens only while this Vault is suspended, after the
  // community key disabled its guard and did not enable it since, and when the KeyManager has accepted no signature
  // for three days; the governor could then also replace the aggregate key.
  lemma EmergencyWithdrawalIsGuarded(s: System, ops: seq<Op>, sender: Address, newKey: Key)
    requires Inv(s) && Rules(ops) && !s.v.guardDisabled
    requires Verdict(Run(s, ops, |ops|), VaultRule(V.GovWithdraw(sender))).Done?
    ensures var e := Run(s, ops, |ops|);
            && e.v.suspended && sender == e.k.governor
            && (forall j | 0 <= j < |ops| && SignedAt(s, ops, j)
                           && (forall i | j <= i < |ops| :: !ReplacedAt(s, ops, i)) ::
                  e.k.now >= Run(s, ops, j + 1).k.now + AGG_KEY_EMERGENCY_TIMEOUT)
            && KeyManager.Verdict(e.k, KeyManager.SetAggKeyWithGovKey(sender, newKey)).Done?
    ensures exists j | 0 <= j < |ops| ::
              && GuardDisabledAt(s, ops, j) && ops[j].vault.sender == Run(s, ops, j).k.communityKey
              && Run(s, ops, j).v.vault == Run(s, ops, |ops|).v.vault
              && forall i | j < i < |ops| :: !GuardEnabledAt(s, ops, i)
  {
    var e := Run(s, ops, |ops|);
    forall j | 0 <= j < |ops| && SignedAt(s, ops, j) && (forall i | j <= i < |ops| :: !ReplacedAt(s, ops, i))
      ensures e.k.now >= Run(s, ops, j + 1).k.now + AGG_KEY_EMERGENCY_TIMEOUT
    {
      LastValidateTimeIsRecent(s, ops, j, |ops|);
    }
    var j := GuardWasDisabled(s, ops, |ops|);
  }

  /** Rule `j` is the last one, of the first `n`, to be accepted with a signature. */
  predicate LastSignedAt(s: System, ops: seq<Op>, j: nat, n: nat)
    requires n <= |ops| && Rules(ops)
  {
    j < n && SignedAt(s, ops, j) && forall i | j < i < n :: !SignedAt(s, ops, i)
  }

  /** The time that the KeyManager in use has recorded for rule `j`: a newly deployed one starts at zero. */
  function RecordedFor(s: System, ops: seq<Op>, j: nat): nat
    requires j < |ops| && Rules(ops)
  {
    if ops[j].UpgradeKeyManager? then 0 else Run(s, ops, j + 1).k.now
  }

  // The recorded time moves with accepted signatures only, and each sets it to its own time or, on a new KeyManager, to
  // zero.
  lemma StepRecordsExactly(s: System, op: Op)
    requires WellFormed(op)
    ensures Step(s, op).k.lastValidateTime
         == if Verdict(s, op) != Done(true) then s.k.lastValidateTime
            else if op.UpgradeKeyManager? then 0 else Step(s, op).k.now
  {
  }

  // The recorded time is that of the last signature any KeyManager accepted, unless that one replaced the KeyManager.
  lemma {:induction false} RecordedTimeIsOfTheLastSignature(s: System, ops: seq<Op>, j: nat, n: nat)
    requires Rules(ops) && n <= |ops| && LastSignedAt(s, ops, j, n)
    ensures Run(s, ops, n).k.lastValidateTime == RecordedFor(s, ops, j)
  {
    StepRecordsExactly(Run(s, ops, n - 1), ops[n - 1]);
    if n == j + 1 {
    } else {
      assert !SignedAt(s, ops, n - 1);
      RecordedTimeIsOfTheLastSignature(s, ops, j, n - 1);
    }
  }

  lemma {:induction false} RecordedTimeStays(s: System, ops: seq<Op>, n: nat)
    requires Rules(ops) && n <= |ops|
    requires forall i | 0 <= i < n :: !SignedAt(s, ops, i)
    ensures Run(s, ops, n).k.lastValidateTime == s.k.lastValidateTime
  {
    if n == 0 {
    } else {
      assert !SignedAt(s, ops, n - 1);
      StepRecordsExactly(Run(s, ops, n - 1), ops[n - 1]);
      RecordedTimeStays(s, ops, n - 1);
    }
  }

  // Exactly when the governor can replace the aggregate key, and exactly when without the timeout having passed since
  // the last accepted signature: that signature replaced the KeyManager less than the timeout ago.
  lemma GovernorReplacesKeyExactlyWhen(s: System, ops: seq<Op>, j: nat, newKey: Key)
    requires Inv(s) && Rules(ops) && LastSignedAt(s, ops, j, |ops|)
    ensures var e := Run(s, ops, |ops|);
            var accepted := KeyManager.Verdict(e.k, KeyManager.SetAggKeyWithGovKey(e.k.governor, newKey)).Done?;
            var silent := e.k.now >= Run(s, ops, j + 1).k.now + AGG_KEY_TIMEOUT;
            && (accepted <==> e.k.now >= RecordedFor(s, ops, j) + AGG_KEY_TIMEOUT)
            && (accepted && !silent <==> ops[j].UpgradeKeyManager? && !silent && e.k.now >= AGG_KEY_TIMEOUT)
  {
    RecordedTimeIsOfTheLastSignature(s, ops, j, |ops|);
  }

  // The same for the withdrawal from a suspended Vault whose guard is disabled, with the longer timeout.
  lemma GovernorWithdrawsExactlyWhen(s: System, ops: seq<Op>, j: nat)
    requires Inv(s) && Rules(ops) && LastSignedAt(s, ops, j, |ops|)
    ensures var e := Run(s, ops, |ops|);
            var accepted := Verdict(e, VaultRule(V.GovWithdraw(e.k.governor))).Done?;
            var silent := e.k.now >= Run(s, ops, j + 1).k.now + AGG_KEY_EMERGENCY_TIMEOUT;
            var open := e.v.suspended && e.v.guardDisabled;
            && (accepted <==> open && e.k.now >= RecordedFor(s, ops, j) + AGG_KEY_EMERGENCY_TIMEOUT)
            && (accepted && !silent <==>
                open && ops[j].UpgradeKeyManager? && !silent && e.k.now >= AGG_KEY_EMERGENCY_TIMEOUT)
  {
    RecordedTimeIsOfTheLastSignature(s, ops, j, |ops|);
  }

  // Before any signature is accepted, the timeouts count from the time recorded at the start of the run.
  lemma GovernorPowersWithoutSignatures(s: System, ops: seq<Op>, newKey: Key)
    requires Inv(s) && Rules(ops) && forall i | 0 <= i < |ops| :: !SignedAt(s, ops, i)
    ensures var e := Run(s, ops, |ops|);
            && (KeyManager.Verdict(e.k, KeyManager.SetAggKeyWithGovKey(e.k.governor, newKey)).Done?
                <==> e.k.now >= s.k.lastValidateTime + AGG_KEY_TIMEOUT)
            && (Verdict(e, VaultRule(V.GovWithdraw(e.k.governor))).Done?
                <==> e.v.suspended && e.v.guardDisabled
                     && e.k.now >= s.k.lastValidateTime + AGG_KEY_EMERGENCY_TIMEOUT)
  {
    RecordedTimeStays(s, ops, |ops|);
  }

  // This does happen: on a chain older than three days an upgrade of the KeyManager opens the governor's emergency
  // powers at once, however recent the last signature.
  lemma KeyManagerUpgradeOpensEmergencyPowers(s: System, newKey: Key)
    requires Inv(s) && s.k.now >= AGG_KEY_EMERGENCY_TIMEOUT
    ensures var u := Step(s, UpgradeKeyManager(s.k.aggKey));
            && KeyManager.Verdict(u.k, KeyManager.SetAggKeyWithGovKey(u.k.governor, newKey)).Done?
            && (Verdict(u, VaultRule(V.GovWithdraw(u.k.governor))).Done? <==> s.v.suspended && s.v.guardDisabled)
  {
  }

  // ---- The gateway's withdrawal ----

  /** Rule `j` disabled the gateway's community guard. */
  predicate GatewayGuardDisabledAt(s: System, ops: seq<Op>, j: nat)
    requires j < |ops| && Rules(ops)
  {
    ops[j].GatewayRule? && ops[j].gateway.DisableGuard? && Verdict(Run(s, ops, j), ops[j]).Done?
  }

  /** Rule `j` enabled it, or replaced the gateway by one whose guard is enabled. */
  predicate GatewayGuardEnabledAt(s: System, ops: seq<Op>, j: nat)
    requires j < |ops| && Rules(ops)
  {
    || (ops[j].GatewayRule? && ops[j].gateway.EnableGuard? && Verdict(Run(s, ops, j), ops[j]).Done?)
    || GatewayReplacedAt(s, ops, j)
  }

  lemma GatewayGuardChangesOnlyByItsRules(s: System, op: Op)
    requires WellFormed(op) && Step(s, op).g.guardDisabled
    ensures s.g.guardDisabled || (op.GatewayRule? && op.gateway.DisableGuard? && Verdict(s, op).Done?)
    ensures !(op.GatewayRule? && op.gateway.EnableGuard? && Verdict(s, op).Done?)
    ensures !(op.UpgradeGateway? && Verdict(s, op) == Done(true))
    ensures Step(s, op).g.gateway == s.g.gateway
  {
    if op.GatewayRule? {
      G.StepStaysAtHome(s.g, s.k, op.gateway);
    }
  }

  /** Rule `j` was the community key's on the gateway that the first `n` rules end with, and its effect still lasts. */
  predicate GatewayGuardDisabledBy(s: System, ops: seq<Op>, j: nat, n: nat)
    requires n <= |ops| && Rules(ops)
  {
    && j < n && GatewayGuardDisabledAt(s, ops, j) && ops[j].gateway.sender == Run(s, ops, j).k.communityKey
    && Run(s, ops, j).g.gateway == Run(s, ops, n).g.gateway
    && forall i | j < i < n :: !GatewayGuardEnabledAt(s, ops, i)
  }

  lemma {:induction false} GatewayGuardWasDisabled(s: System, ops: seq<Op>, n: nat) returns (j: nat)
    requires Rules(ops) && n <= |ops|
    requires !s.g.guardDisabled && Run(s, ops, n).g.guardDisabled
    ensures GatewayGuardDisabledBy(s, ops, j, n)
  {
    GatewayGuardChangesOnlyByItsRules(Run(s, ops, n - 1), ops[n - 1]);
    if GatewayGuardDisabledAt(s, ops, n - 1) {
      j := n - 1;
    } else {
      j := GatewayGuardWasDisabled(s, ops, n - 1);
      assert !GatewayGuardEnabledAt(s, ops, n - 1);
    }
  }

  // A disabled guard stays disabled until one of these rules.
  lemma {:induction false} GatewayGuardStaysDisabled(s: System, ops: seq<Op>, j: nat, n: nat)
    requires Rules(ops) && j < n <= |ops| && GatewayGuardDisabledAt(s, ops, j)
    requires forall i | j < i < n :: !GatewayGuardEnabledAt(s, ops, i)
    ensures Run(s, ops, n).g.guardDisabled
  {
    if n == j + 1 {
    } else {
      GatewayGuardStaysDisabled(s, ops, j, n - 1);
      assert !GatewayGuardEnabledAt(s, ops, n - 1);
    }
  }

  lemma GatewayGuardIsDisabledExactlyWhen(s: System, ops: seq<Op>, n: nat)
    requires Rules(ops) && n <= |ops| && !s.g.guardDisabled
    ensures Run(s, ops, n).g.guardDisabled <==> exists j: nat :: GatewayGuardDisabledBy(s, ops, j, n)
  {
    if Run(s, ops, n).g.guardDisabled {
      var j := GatewayGuardWasDisabled(s, ops, n);
    }
    forall j: nat | GatewayGuardDisabledBy(s, ops, j, n) ensures Run(s, ops, n).g.guardDisabled {
      GatewayGuardStaysDisabled(s, ops, j, n);
    }
  }

  lemma GatewayWithdrawalNeeds(s: System, sender: Address)
    ensures Verdict(s, GatewayRule(G.GovWithdraw(sender))).Done?
            <==> sender == s.k.governor && s.g.suspended && s.g.guardDisabled
  {
  }

  // A governance withdrawal of all FLIP and of the issuer's role knows no timeout. It is the governor's, and happens if
  // and only if this gateway is suspended and the community key disabled the guard of this very gateway, with neither
  // its rule nor an upgrade enabling it since.
  lemma GatewayWithdrawalIsGuarded(s: System, ops: seq<Op>, sender: Address)
    requires Rules(ops) && !s.g.guardDisabled
    ensures var e := Run(s, ops, |ops|);
            Verdict(e, GatewayRule(G.GovWithdraw(sender))).Done?
            <==> (&& sender == e.k.governor && e.g.suspended
                  && exists j: nat :: GatewayGuardDisabledBy(s, ops, j, |ops|))
  {
    GatewayWithdrawalNeeds(Run(s, ops, |ops|), sender);
    GatewayGuardIsDisabledExactlyWhen(s, ops, |ops|);
  }
}
