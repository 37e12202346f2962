// Keys, flags, limits and the clock: after every run, each holds what the last accepted rule that sets it gave it.
module Registers {
  import opened Common
  import opened Protocol
  import opened SystemSpec
  import KeyManager
  import V = VaultSpec
  import G = GatewaySpec

  // ---- Which rules set what ----

  function AggKeyBy(op: Op): Option<Key> {
    match op
    case KeyRule(SetAggKeyWithAggKey(_, newKey)) => Some(newKey)
    case KeyRule(SetAggKeyWithGovKey(_, newKey)) => Some(newKey)
    case _ => None
  }

  function GovernorBy(op: Op): Option<Address> {
    match op
    case KeyRule(SetGovKeyWithAggKey(_, governor)) => Some(governor)
    case KeyRule(SetGovKeyWithGovKey(_, governor)) => Some(governor)
    case _ => None
  }

  function CommunityKeyBy(op: Op): Option<Address> {
    match op
    case KeyRule(SetCommKeyWithAggKey(_, community)) => Some(community)
    case KeyRule(SetCommKeyWithCommKey(_, community)) => Some(community)
    case _ => None
  }

  /** A new Vault or gateway is not suspended, and its guard is enabled. */
  function VaultSuspendedBy(op: Op): Option<bool> {
    match op
    case VaultRule(Suspend(_)) => Some(true)
    case VaultRule(Resume(_)) => Some(false)
    case UpgradeVault(_, _) => Some(false)
    case _ => None
  }

  function VaultGuardDisabledBy(op: Op): Option<bool> {
    match op
    case VaultRule(DisableGuard(_)) => Some(true)
    case VaultRule(EnableGuard(_)) => Some(false)
    case UpgradeVault(_, _) => Some(false)
    case _ => None
  }

  function GatewaySuspendedBy(op: Op): Option<bool> {
    match op
    case GatewayRule(Suspend(_)) => Some(true)
    case GatewayRule(Resume(_)) => Some(false)
    case UpgradeGateway(_, _) => Some(false)
    case _ => None
  }

  function GatewayGuardDisabledBy(op: Op): Option<bool> {
    match op
    case GatewayRule(DisableGuard(_)) => Some(true)
    case GatewayRule(EnableGuard(_)) => Some(false)
    case UpgradeGateway(_, _) => Some(false)
    case _ => None
  }

  function MinFundingBy(op: Op): Option<nat> {
    match op
    case GatewayRule(SetMinFunding(_, amount)) => Some(amount)
    case UpgradeGateway(_, _) => Some(G.INIT_MIN_FUNDING)
    case _ => None
  }

  function SupplyBy(op: Op): Option<int> {
    match op
    case GatewayRule(UpdateSupply(_, newSupply, _)) => Some(newSupply)
    case _ => None
  }

  /** A new gateway accepts any block number. */
  function SupplyBlockBy(op: Op): Option<nat> {
    match op
    case GatewayRule(UpdateSupply(_, _, block)) => Some(block)
    case UpgradeGateway(_, _) => Some(0)
    case _ => None
  }

  // ---- The last one counts ----

  predicate DoneAt(s: System, ops: seq<Op>, j: nat)
    requires j < |ops| && Rules(ops)
  {
    Verdict(Run(s, ops, j), ops[j]).Done?
  }

  /** Rule `j` is the last accepted one, of the first `n`, for which `named` gives a value. */
  predicate LastToSet<T>(s: System, ops: seq<Op>, n: nat, named: Op -> Option<T>, j: nat)
    requires n <= |ops| && Rules(ops)
  {
    && j < n && named(ops[j]).Some? && DoneAt(s, ops, j)
    && forall i | j < i < n :: named(ops[i]).Some? ==> !DoneAt(s, ops, i)
  }

  /** The value is what the last rule to set it gave it, or its first value if none did. */
  ghost predicate IsLastSet<T>(s: System, ops: seq<Op>, n: nat, named: Op -> Option<T>, first: T, value: T)
    requires n <= |ops| && Rules(ops)
  {
    || (exists j: nat :: LastToSet(s, ops, n, named, j) && Some(value) == named(ops[j]))
    || (value == first && forall i | 0 <= i < n :: named(ops[i]).Some? ==> !DoneAt(s, ops, i))
  }

  /** One rule sets the field as `named` says, if it is accepted, and no other rule touches it. */
  predicate SetAsSaid<T(==)>(done: bool, op: Op, named: Op -> Option<T>, before: T, after: T) {
    after == if done && named(op).Some? then named(op).value else before
  }

  lemma OneMore<T>(s: System, ops: seq<Op>, n: nat, named: Op -> Option<T>, first: T, before: T, after: T)
    requires 0 < n <= |ops| && Rules(ops)
    requires IsLastSet(s, ops, n - 1, named, first, before)
    requires SetAsSaid(DoneAt(s, ops, n - 1), ops[n - 1], named, before, after)
    ensures IsLastSet(s, ops, n, named, first, after)
  {
    if DoneAt(s, ops, n - 1) && named(ops[n - 1]).Some? {
      assert LastToSet(s, ops, n, named, n - 1) && Some(after) == named(ops[n - 1]);
    } else {
      assert after == before;
      if j: nat :| LastToSet(s, ops, n - 1, named, j) && Some(before) == named(ops[j]) {
        assert LastToSet(s, ops, n, named, j);
      }
    }
  }

  lemma KeysSetAsSaid(s: System, op: Op)
    requires WellFormed(op)
    ensures var done, u := Verdict(s, op).Done?, Step(s, op);
            && SetAsSaid(done, op, AggKeyBy, s.k.aggKey, u.k.aggKey)
            && SetAsSaid(done, op, GovernorBy, s.k.governor, u.k.governor)
            && SetAsSaid(done, op, CommunityKeyBy, s.k.communityKey, u.k.communityKey)
  {
  }

  lemma VaultFlagsSetAsSaid(s: System, op: Op)
    requires WellFormed(op)
    ensures var done, u := Verdict(s, op).Done?, Step(s, op);
            && SetAsSaid(done, op, VaultSuspendedBy, s.v.suspended, u.v.suspended)
            && SetAsSaid(done, op, VaultGuardDisabledBy, s.v.guardDisabled, u.v.guardDisabled)
  {
  }

  lemma GatewayFlagsSetAsSaid(s: System, op: Op)
    requires WellFormed(op)
    ensures var done, u := Verdict(s, op).Done?, Step(s, op);
            && SetAsSaid(done, op, GatewaySuspendedBy, s.g.suspended, u.g.suspended)
            && SetAsSaid(done, op, GatewayGuardDisabledBy, s.g.guardDisabled, u.g.guardDisabled)
  {
  }

  lemma RuleSetsNumbersAsSaid(g: G.Gateway, k: KeyManager.Keys, o: G.GatewayOp)
    ensures var done, op, u := G.Verdict(g, k, o).Done?, GatewayRule(o), G.Step(g, k, o);
            && SetAsSaid(done, op, MinFundingBy, g.minFunding, u.minFunding)
            && SetAsSaid(done, op, SupplyBy, g.supply, u.supply)
            && SetAsSaid(done, op, SupplyBlockBy, g.lastSupplyBlock, u.lastSupplyBlock)
  {
  }

  lemma GatewayNumbersSetAsSaid(s: System, op: Op)
    requires WellFormed(op)
    ensures var done, u := Verdict(s, op).Done?, Step(s, op);
            && SetAsSaid(done, op, MinFundingBy, s.g.minFunding, u.g.minFunding)
            && SetAsSaid(done, op, SupplyBy, s.g.supply, u.g.supply)
            && SetAsSaid(done, op, SupplyBlockBy, s.g.lastSupplyBlock, u.g.lastSupplyBlock)
  {
    if op.GatewayRule? {
      RuleSetsNumbersAsSaid(s.g, s.k, op.gateway);
    }
  }

  // After every run each key is the one that the last accepted rule to name it named.
  lemma {:induction false} EveryRunSetsKeys(s: System, ops: seq<Op>, n: nat) returns (e: System)
    requires Rules(ops) && n <= |ops|
    ensures e == Run(s, ops, n)
    ensures IsLastSet(s, ops, n, AggKeyBy, s.k.aggKey, e.k.aggKey)
    ensures IsLastSet(s, ops, n, GovernorBy, s.k.governor, e.k.governor)
    ensures IsLastSet(s, ops, n, CommunityKeyBy, s.k.communityKey, e.k.communityKey)
  {
    if n == 0 {
      e := s;
    } else {
      var b := EveryRunSetsKeys(s, ops, n - 1);
      e := Step(b, ops[n - 1]);
      KeysSetAsSaid(b, ops[n - 1]);
      OneMore(s, ops, n, AggKeyBy, s.k.aggKey, b.k.aggKey, e.k.aggKey);
      OneMore(s, ops, n, GovernorBy, s.k.governor, b.k.governor, e.k.governor);
      OneMore(s, ops, n, CommunityKeyBy, s.k.communityKey, b.k.communityKey, e.k.communityKey);
    }
  }

  // So are the flags of the Vault,
  lemma {:induction false} EveryRunSetsVaultFlags(s: System, ops: seq<Op>, n: nat) returns (e: System)
    requires Rules(ops) && n <= |ops|
    ensures e == Run(s, ops, n)
    ensures IsLastSet(s, ops, n, VaultSuspendedBy, s.v.suspended, e.v.suspended)
    ensures IsLastSet(s, ops, n, VaultGuardDisabledBy, s.v.guardDisabled, e.v.guardDisabled)
  {
    if n == 0 {
      e := s;
    } else {
      var b := EveryRunSetsVaultFlags(s, ops, n - 1);
      e := Step(b, ops[n - 1]);
      VaultFlagsSetAsSaid(b, ops[n - 1]);
      OneMore(s, ops, n, VaultSuspendedBy, s.v.suspended, b.v.suspended, e.v.suspended);
      OneMore(s, ops, n, VaultGuardDisabledBy, s.v.guardDisabled, b.v.guardDisabled, e.v.guardDisabled);
    }
  }

  // those of the gateway,
  lemma {:induction false} EveryRunSetsGatewayFlags(s: System, ops: seq<Op>, n: nat) returns (e: System)
    requires Rules(ops) && n <= |ops|
    ensures e == Run(s, ops, n)
    ensures IsLastSet(s, ops, n, GatewaySuspendedBy, s.g.suspended, e.g.suspended)
    ensures IsLastSet(s, ops, n, GatewayGuardDisabledBy, s.g.guardDisabled, e.g.guardDisabled)
  {
    if n == 0 {
      e := s;
    } else {
      var b := EveryRunSetsGatewayFlags(s, ops, n - 1);
      e := Step(b, ops[n - 1]);
      GatewayFlagsSetAsSaid(b, ops[n - 1]);
      OneMore(s, ops, n, GatewaySuspendedBy, s.g.suspended, b.g.suspended, e.g.suspended);
      OneMore(s, ops, n, GatewayGuardDisabledBy, s.g.guardDisabled, b.g.guardDisabled, e.g.guardDisabled);
    }
  }

  // and its minimum funding, the supply and the block number of the last supply update.
  lemma {:induction false} EveryRunSetsGatewayNumbers(s: System, ops: seq<Op>, n: nat) returns (e: System)
    requires Rules(ops) && n <= |ops|
    ensures e == Run(s, ops, n)
    ensures IsLastSet(s, ops, n, MinFundingBy, s.g.minFunding, e.g.minFunding)
    ensures IsLastSet(s, ops, n, SupplyBy, s.g.supply, e.g.supply)
    ensures IsLastSet(s, ops, n, SupplyBlockBy, s.g.lastSupplyBlock, e.g.lastSupplyBlock)
  {
    if n == 0 {
      e := s;
    } else {
      var b := EveryRunSetsGatewayNumbers(s, ops, n - 1);
      e := Step(b, ops[n - 1]);
      GatewayNumbersSetAsSaid(b, ops[n - 1]);
      OneMore(s, ops, n, MinFundingBy, s.g.minFunding, b.g.minFunding, e.g.minFunding);
      OneMore(s, ops, n, SupplyBy, s.g.supply, b.g.supply, e.g.supply);
      OneMore(s, ops, n, SupplyBlockBy, s.g.lastSupplyBlock, b.g.lastSupplyBlock, e.g.lastSupplyBlock);
    }
  }

  // ---- The clock ----

  function SleepOf(op: Op): nat {
    match op
    case Sleep(seconds) => seconds
    case UpgradeVault(_, sleep) => sleep
    case UpgradeGateway(_, sleep) => 2 * sleep + 2 * REDEMPTION_DELAY
    case _ => 0
  }

  /** The sleeps of the first `n` rules, those within accepted upgrades included. */
  function Slept(s: System, ops: seq<Op>, n: nat): nat
    requires n <= |ops| && Rules(ops)
  {
    if n == 0 then 0
    else
      Slept(s, ops, n - 1)
      + if DoneAt(s, ops, n - 1) then SleepOf(ops[n - 1]) else 0
  }

  lemma SleepTakesTime(s: System, op: Op)
    requires WellFormed(op)
    ensures Step(s, op).k.now == s.k.now + if Verdict(s, op).Done? then SleepOf(op) else 0
  {
  }

  lemma {:induction false} EveryRunTakesItsSleeps(s: System, ops: seq<Op>, n: nat)
    requires Rules(ops) && n <= |ops|
    ensures Run(s, ops, n).k.now == s.k.now + Slept(s, ops, n)
  {
    if n == 0 {
    } else {
      EveryRunTakesItsSleeps(s, ops, n - 1);
      SleepTakesTime(Run(s, ops, n - 1), ops[n - 1]);
    }
  }
}
