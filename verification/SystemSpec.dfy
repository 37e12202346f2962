// The full machine of tests/stateful/test_all.py: the three contracts under one clock, with signatures
// checked against the current aggregate key and each contract replaceable by a newly deployed one.
module SystemSpec {
  import opened Books
  import opened Protocol
  import KeyManager
  import V = VaultSpec
  import G = GatewaySpec

  /** `keyManager` is the KeyManager's serial; `next` the serial of the next contract to be deployed. */
  datatype System = System(k: KeyManager.Keys, v: V.Vault, g: G.Gateway, keyManager: nat, next: nat)

  datatype Op =
    | KeyRule(key: KeyManager.KeyOp)
    | VaultRule(vault: V.VaultOp)
    | GatewayRule(gateway: G.GatewayOp)
    | Sleep(seconds: nat)
    | UpgradeKeyManager(signer: Key)
    | UpgradeVault(signer: Key, sleep: nat)
    | UpgradeGateway(signer: Key, sleep: nat)

  predicate WellFormed(op: Op) {
    match op
    case KeyRule(o) => KeyManager.WellFormed(o)
    case VaultRule(o) => V.WellFormed(o)
    case GatewayRule(o) => G.WellFormed(o)
    case UpgradeVault(_, sleep) => sleep <= 7 * DAY
    case UpgradeGateway(_, sleep) => sleep <= 7 * DAY
    case _ => true
  }

  function Verdict(s: System, op: Op): Outcome {
    match op
    case KeyRule(o) => KeyManager.Verdict(s.k, o)
    case VaultRule(o) => V.Verdict(s.v, s.k, o)
    case GatewayRule(o) => G.Verdict(s.g, s.k, o)
    case Sleep(_) => Done(false)
    case UpgradeKeyManager(signer) => KeyManager.Signed(s.k, signer)
    case UpgradeVault(signer, _) => V.Guarded(s.v, s.k, signer, Done(true))
    case UpgradeGateway(signer, _) =>
      if s.g.suspended then Reverted(GovSuspended)
      else if signer != s.k.aggKey then Reverted(BadSignature)
      else if s.g.Balance(s.g.Self()) == 0 then Reverted(EmptyUint)
      else Done(true)
  }

  function MoveAll(b: Book<Address>, from: Address, to: Address): Book<Address> {
    Move(b, from, to, At(b, from))
  }

  /** A contract is replaced: everything its address held now sits at the new one. */
  function Rehomed(s: System, from: nat, to: nat): System {
    var a, b := Contract(from), Contract(to);
    s.(v := s.v.(books := PerAsset(MoveAll(s.v.books.native, a, b),
                                   MoveAll(s.v.books.tokenA, a, b),
                                   MoveAll(s.v.books.tokenB, a, b))),
       g := s.g.(flip := MoveAll(s.g.flip, a, b)))
  }

  function Slept(k: KeyManager.Keys, seconds: nat): KeyManager.Keys {
    k.(now := k.now + seconds)
  }

  function KeyManagerUpgraded(s: System): System {
    Rehomed(s, s.keyManager, s.next).(k := s.k.(lastValidateTime := 0), keyManager := s.next)
  }

  function VaultUpgraded(s: System, sleep: nat): System {
    var k := Slept(s.k, sleep);
    var r := Rehomed(s, s.v.vault, s.next);
    r.(k := k.(lastValidateTime := k.now),
       v := r.v.(vault := s.next, deployed := map[], suspended := false, guardDisabled := false))
  }

  function GatewayUpgraded(s: System, sleep: nat): System {
    var k := Slept(s.k, 2 * sleep + 2 * REDEMPTION_DELAY);
    Rehomed(s, s.g.gateway, s.next).(k := k.(lastValidateTime := k.now), g := G.Replaced(s.g, s.next, s.k.now, sleep))
  }

  function Step(s: System, op: Op): System
    requires WellFormed(op)
  {
    var r := Verdict(s, op);
    match op
    case KeyRule(o) => s.(k := KeyManager.Step(s.k, o))
    case VaultRule(o) => s.(v := V.Step(s.v, s.k, o), k := KeyManager.Stamp(s.k, r))
    case GatewayRule(o) => s.(g := G.Step(s.g, s.k, o), k := KeyManager.Stamp(s.k, r))
    case Sleep(seconds) => s.(k := Slept(s.k, seconds))
    case UpgradeKeyManager(_) => (if r.Done? then KeyManagerUpgraded(s) else s).(next := s.next + 1)
    case UpgradeVault(_, sleep) => (if r.Done? then VaultUpgraded(s, sleep) else s).(next := s.next + 1)
    case UpgradeGateway(_, sleep) => (if r.Done? then GatewayUpgraded(s, sleep) else s).(next := s.next + 1)
  }

  predicate Rules(ops: seq<Op>) {
    forall i | 0 <= i < |ops| :: WellFormed(ops[i])
  }

  /** The state after the first `n` rules of a run. */
  function Run(s: System, ops: seq<Op>, n: nat): System
    requires n <= |ops| && Rules(ops)
  {
    if n == 0 then s else Step(Run(s, ops, n - 1), ops[n - 1])
  }

  // ---- What every step keeps ----

  ghost predicate Inv(s: System) {
    && KeyManager.Inv(s.k) && V.Inv(s.v) && G.Inv(s.g)
    && 0 < s.k.now
    && s.keyManager != s.v.vault && s.v.vault != s.g.gateway && s.keyManager != s.g.gateway
    && s.keyManager < s.next && s.v.vault < s.next && s.g.gateway < s.next
    && V.Fresh(s.v.books, s.next) && G.Fresh(s.g, s.next)
    && s.g.Pending(G.JUNK_NODE) == G.NULL_REDEMPTION
  }

  /** The conserved quantities: each Vault asset including what was sent out; FLIP less its supply; and the
      gateway's FLIP less funding and supply. */
  ghost predicate Conserved(s: System, s': System) {
    && (forall asset :: V.Total(s'.v, asset) == V.Total(s.v, asset))
    && Sum(s'.g.flip) - s'.g.supply == Sum(s.g.flip) - s.g.supply
    && G.Gap(s'.g) == G.Gap(s.g)
  }

  lemma FreshLater(s: System, n: nat)
    requires V.Fresh(s.v.books, s.next) && G.Fresh(s.g, s.next) && s.next <= n
    ensures V.Fresh(s.v.books, n) && G.Fresh(s.g, n)
  {
    forall asset, a | V.Future(a, n) ensures At(s.v.books.Of(asset), a) == 0 {
      assert V.Future(a, s.next);
    }
  }

  lemma MoveAllKeeps(b: Book<Address>, from: Address, to: Address)
    ensures Sum(MoveAll(b, from, to)) == Sum(b)
    ensures NonNegative(b) ==> NonNegative(MoveAll(b, from, to))
  {
    SumMove(b, from, to, At(b, from));
    if NonNegative(b) {
      forall a ensures At(MoveAll(b, from, to), a) >= 0 {
        assert At(b, a) >= 0 && At(b, from) >= 0;
      }
    }
  }

  lemma RehomedVaultKeeps(s: System, from: nat)
    requires Inv(s) && from < s.next
    ensures var r := Rehomed(s, from, s.next);
            && V.Inv(r.v) && V.Fresh(r.v.books, s.next + 1)
            && (forall asset :: V.Total(r.v, asset) == V.Total(s.v, asset))
  {
    var a, b := Contract(from), Contract(s.next);
    var r := Rehomed(s, from, s.next);
    forall asset
      ensures r.v.books.Of(asset) == MoveAll(s.v.books.Of(asset), a, b)
      ensures NonNegative(r.v.books.Of(asset)) && Sum(r.v.books.Of(asset)) == Sum(s.v.books.Of(asset))
    {
      assert NonNegative(s.v.books.Of(asset));
      MoveAllKeeps(s.v.books.Of(asset), a, b);
    }
    forall asset, x | V.Future(x, s.next + 1) ensures At(r.v.books.Of(asset), x) == 0 {
      assert V.Future(x, s.next);
      assert At(s.v.books.Of(asset), x) == 0;
      assert r.v.books.Of(asset) == MoveAll(s.v.books.Of(asset), a, b);
    }
    assert forall x: Address | x.Deposit? :: r.v.Balance(Native, x) == s.v.Balance(Native, x);
  }

  lemma RehomedGatewayKeeps(s: System, from: nat)
    requires Inv(s) && from < s.next
    ensures var r := Rehomed(s, from, s.next);
            && G.Inv(r.g) && G.Fresh(r.g, s.next + 1) && Sum(r.g.flip) == Sum(s.g.flip)
            && r.g.Balance(Contract(s.next)) == s.g.Balance(Contract(from)) && r.g.Balance(Contract(from)) == 0
  {
    MoveAllKeeps(s.g.flip, Contract(from), Contract(s.next));
    G.SameHistories(s.g, Rehomed(s, from, s.next).g);
  }

  // Rehoming a contract at the next serial loses nothing and leaves later serials unused.
  lemma RehomedKeeps(s: System, from: nat)
    requires Inv(s) && from < s.next
    ensures var r := Rehomed(s, from, s.next);
            && V.Inv(r.v) && G.Inv(r.g) && V.Fresh(r.v.books, s.next + 1) && G.Fresh(r.g, s.next + 1)
            && (forall asset :: V.Total(r.v, asset) == V.Total(s.v, asset))
            && Sum(r.g.flip) == Sum(s.g.flip)
            && r.g.Balance(Contract(s.next)) == s.g.Balance(Contract(from)) && r.g.Balance(Contract(from)) == 0
  {
    RehomedVaultKeeps(s, from);
    RehomedGatewayKeeps(s, from);
  }

  lemma KeyManagerUpgradeKeeps(s: System)
    requires Inv(s)
    ensures Inv(KeyManagerUpgraded(s).(next := s.next + 1)) && Conserved(s, KeyManagerUpgraded(s))
  {
    RehomedKeeps(s, s.keyManager);
  }

  lemma VaultUpgradeKeeps(s: System, sleep: nat)
    requires Inv(s)
    ensures Inv(VaultUpgraded(s, sleep).(next := s.next + 1)) && Conserved(s, VaultUpgraded(s, sleep))
  {
    RehomedKeeps(s, s.v.vault);
  }

  lemma GatewayUpgradeKeeps(s: System, sleep: nat)
    requires Inv(s) && sleep <= 7 * DAY
    ensures Inv(GatewayUpgraded(s, sleep).(next := s.next + 1)) && Conserved(s, GatewayUpgraded(s, sleep))
  {
    RehomedKeeps(s, s.g.gateway);
    G.DrainPays(s.g, s.next, s.k.now, sleep);
    var g' := GatewayUpgraded(s, sleep).g;
    assert g'.flip == Rehomed(s, s.g.gateway, s.next).g.flip;
    forall node ensures G.NodeOk(g', node) {
      G.NoEvents(g'.log, g'.gateway, node);
    }
  }

  lemma KeyRuleKeeps(s: System, op: KeyManager.KeyOp)
    requires Inv(s) && KeyManager.WellFormed(op)
    ensures Inv(Step(s, KeyRule(op))) && Conserved(s, Step(s, KeyRule(op)))
  {
    KeyManager.StepKeeps(s.k, op);
  }

  lemma VaultRuleKeeps(s: System, op: V.VaultOp)
    requires Inv(s) && V.WellFormed(op)
    ensures Inv(Step(s, VaultRule(op))) && Conserved(s, Step(s, VaultRule(op)))
  {
    V.StepKeeps(s.v, s.k, op);
    V.StepStaysAtHome(s.v, s.k, op);
  }

  lemma GatewayRuleKeeps(s: System, op: G.GatewayOp)
    requires Inv(s) && G.WellFormed(op)
    ensures Inv(Step(s, GatewayRule(op))) && Conserved(s, Step(s, GatewayRule(op)))
  {
    G.StepKeeps(s.g, s.k, op);
    G.StepStaysAtHome(s.g, s.k, op);
  }

  lemma KeyManagerUpgradeStepKeeps(s: System, signer: Key)
    requires Inv(s)
    ensures Inv(Step(s, UpgradeKeyManager(signer))) && Conserved(s, Step(s, UpgradeKeyManager(signer)))
  {
    if KeyManager.Signed(s.k, signer).Done? {
      KeyManagerUpgradeKeeps(s);
    } else {
      FreshLater(s, s.next + 1);
    }
  }

  lemma VaultUpgradeStepKeeps(s: System, signer: Key, sleep: nat)
    requires Inv(s) && sleep <= 7 * DAY
    ensures Inv(Step(s, UpgradeVault(signer, sleep))) && Conserved(s, Step(s, UpgradeVault(signer, sleep)))
  {
    if Verdict(s, UpgradeVault(signer, sleep)).Done? {
      VaultUpgradeKeeps(s, sleep);
    } else {
      FreshLater(s, s.next + 1);
    }
  }

  lemma GatewayUpgradeStepKeeps(s: System, signer: Key, sleep: nat)
    requires Inv(s) && sleep <= 7 * DAY
    ensures Inv(Step(s, UpgradeGateway(signer, sleep))) && Conserved(s, Step(s, UpgradeGateway(signer, sleep)))
  {
    if Verdict(s, UpgradeGateway(signer, sleep)).Done? {
      GatewayUpgradeKeeps(s, sleep);
    } else {
      FreshLater(s, s.next + 1);
    }
  }

  lemma SleepKeeps(s: System, seconds: nat)
    requires Inv(s)
    ensures Inv(Step(s, Sleep(seconds))) && Conserved(s, Step(s, Sleep(seconds)))
  {
  }

  lemma StepKeeps(s: System, op: Op)
    requires Inv(s) && WellFormed(op)
    ensures Inv(Step(s, op)) && Conserved(s, Step(s, op))
  {
    match op
    case KeyRule(o) => KeyRuleKeeps(s, o);
    case VaultRule(o) => VaultRuleKeeps(s, o);
    case GatewayRule(o) => GatewayRuleKeeps(s, o);
    case Sleep(seconds) => SleepKeeps(s, seconds);
    case UpgradeKeyManager(signer) => KeyManagerUpgradeStepKeeps(s, signer);
    case UpgradeVault(signer, sleep) => VaultUpgradeStepKeeps(s, signer, sleep);
    case UpgradeGateway(signer, sleep) => GatewayUpgradeStepKeeps(s, signer, sleep);
  }

  lemma {:induction false} RunKeeps(s: System, ops: seq<Op>, n: nat)
    requires Inv(s) && n <= |ops| && Rules(ops)
    ensures Inv(Run(s, ops, n)) && Conserved(s, Run(s, ops, n))
  {
    if n == 0 {
    } else {
      RunKeeps(s, ops, n - 1);
      StepKeeps(Run(s, ops, n - 1), ops[n - 1]);
    }
  }

  // ---- Where runs start ----

  /** The addresses that hold anything at the start: accounts and the three contracts. */
  predicate Initial(a: Address) {
    a.User? || a == Contract(0) || a == Contract(1) || a == Contract(2)
  }

  ghost predicate InitialBook(b: Book<Address>) {
    forall a :: At(b, a) >= 0 && (!Initial(a) ==> At(b, a) == 0)
  }

  /** The machine after its setup: the KeyManager, the Vault and the gateway are the first three contracts, no
      signature has been validated, and nothing is deployed, pending, suspended or disabled. */
  function Setup(native: Book<Address>, tokenA: Book<Address>, tokenB: Book<Address>, flip: Book<Address>, supply: int,
                 minFunding: nat, aggKey: Key, governor: Address, communityKey: Address, now: nat): System
  {
    System(KeyManager.Keys(aggKey, governor, communityKey, 0, now),
           V.Vault(PerAsset(native, tokenA, tokenB), PerAsset(0, 0, 0), 1, map[], false, false),
           G.Gateway(flip, 2, supply, 0, minFunding, map[], false, false, 0, []),
           0, 3)
  }

  // Every machine the setup builds satisfies the invariant, so that what is proved of runs holds of them.
  lemma SetupHolds(native: Book<Address>, tokenA: Book<Address>, tokenB: Book<Address>, flip: Book<Address>,
                   supply: int, minFunding: nat, aggKey: Key, governor: Address, communityKey: Address, now: nat)
    requires InitialBook(native) && InitialBook(tokenA) && InitialBook(tokenB) && InitialBook(flip)
    requires governor.User? && communityKey.User? && 0 < now
    ensures Inv(Setup(native, tokenA, tokenB, flip, supply, minFunding, aggKey, governor, communityKey, now))
  {
    var s := Setup(native, tokenA, tokenB, flip, supply, minFunding, aggKey, governor, communityKey, now);
    forall asset, a ensures At(s.v.books.Of(asset), a) >= 0 && (!Initial(a) ==> At(s.v.books.Of(asset), a) == 0) {
    }
    forall node ensures G.NodeOk(s.g, node) {
    }
  }
}
