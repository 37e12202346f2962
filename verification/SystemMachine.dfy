// The full test machine: the rules of the three contracts run on its parts; here are the rules that replace
// a contract by a newly deployed one and carry its funds and references over.
module SystemMachine {
  import opened Books
  import opened Protocol
  import opened SystemSpec
  import opened Accounts
  import KeyManager
  import VaultMachine
  import GatewayMachine

  class StateMachine {
    const km: KeyManager.Machine
    const v: VaultMachine.Rules
    const scg: GatewayMachine.Rules
    var keyManager: nat
    var next: nat

    ghost function State(): System
      reads this, km, v, scg
    {
      System(km.State(), v.State(), scg.State(), keyManager, next)
    }

    ghost predicate Valid()
      reads this, km, v, scg
    {
      v.km == km && scg.km == km && Inv(State())
    }

    twostate predicate Ran(op: Op, r: Outcome)
      requires WellFormed(op)
      reads this, km, v, scg
    {
      r == Verdict(old(State()), op) && State() == Step(old(State()), op) && Valid()
    }

    constructor (km: KeyManager.Machine, v: VaultMachine.Rules, scg: GatewayMachine.Rules, keyManager: nat, next: nat)
      requires v.km == km && scg.km == km
      requires Inv(System(km.State(), v.State(), scg.State(), keyManager, next))
      ensures Valid() && this.km == km && this.v == v && this.scg == scg
      ensures State() == System(km.State(), v.State(), scg.State(), keyManager, next)
    {
      this.km, this.v, this.scg, this.keyManager, this.next := km, v, scg, keyManager, next;
    }

    static method Rehome(bals: Book<Address>, from: Address, to: Address) returns (r: Book<Address>)
      requires At(bals, to) == 0 && from != to
      ensures r == MoveAll(bals, from, to)
    {
      r := bals[to := 0];
      r := r[to := At(r, from)];
      r := r[from := 0];
    }

    method RehomeVaultBooks(from: nat, to: nat)
      requires from != to && forall asset :: v.State().Balance(asset, Contract(to)) == 0
      modifies v`nativeBals, v`tokenABals, v`tokenBBals
      ensures v.State() == old(Rehomed(State(), from, to).v)
    {
      assert v.State().Balance(Native, Contract(to)) == 0;
      assert v.State().Balance(TokenA, Contract(to)) == 0;
      assert v.State().Balance(TokenB, Contract(to)) == 0;
      v.nativeBals := Rehome(v.nativeBals, Contract(from), Contract(to));
      v.tokenABals := Rehome(v.tokenABals, Contract(from), Contract(to));
      v.tokenBBals := Rehome(v.tokenBBals, Contract(from), Contract(to));
    }

    method UpdateBalancesOnUpgrade(from: nat, to: nat)
      requires from != to && Unused(State(), to)
      modifies v`nativeBals, v`tokenABals, v`tokenBBals, scg`flipBals
      ensures State() == Rehomed(old(State()), from, to) && AllCarried(old(State()), State(), from, to)
    {
      RehomedCarries(State(), from, to);
      RehomeVaultBooks(from, to);
      scg.flipBals := Rehome(scg.flipBals, Contract(from), Contract(to));
    }

    method RuleSleep(seconds: nat) returns (r: Outcome)
      requires Valid()
      modifies km`now
      ensures Ran(Sleep(seconds), r)
    {
      km.RuleSleep(seconds);
      return Done(false);
    }

    method RuleUpgradeKeyManager(signer: Key) returns (r: Outcome)
      requires Valid()
      modifies this, km, v, scg
      ensures Ran(UpgradeKeyManager(signer), r)
      ensures r.Done? ==> AllCarried(old(State()), State(), old(keyManager), keyManager)
    {
      KeyManagerUpgradeCarries(State(), signer);
      StepKeeps(State(), UpgradeKeyManager(signer));
      var newKeyManager := next;
      NextIsUnused(State());
      next := next + 1;
      if signer != km.aggKey {
        return Reverted(BadSignature);
      }
      // Both consumers are pointed at the new KeyManager by a call signed for the old one.
      var first := km.Validate(signer);
      var second := km.Validate(signer);
      UpdateBalancesOnUpgrade(keyManager, newKeyManager);
      keyManager := newKeyManager;
      km.Replace();
      return Done(true);
    }

    // The accepted part of a Vault upgrade: one signed batch moves the three balances out.
    method ReplaceVault(signer: Key, sleep: nat, newVault: nat)
      requires v.vault != newVault && signer == km.aggKey
      requires Unused(State(), newVault)
      modifies km, v, scg`flipBals
      ensures State() == VaultUpgraded(old(State()).(next := newVault), sleep).(next := old(next))
    {
      km.RuleSleep(sleep);
      var ok := km.Validate(signer);
      UpdateBalancesOnUpgrade(v.vault, newVault);
      v.Follow(newVault);
    }

    method RuleUpgradeVault(signer: Key, sleep: nat) returns (r: Outcome)
      requires Valid() && sleep <= 7 * DAY
      modifies this, km, v, scg
      ensures Ran(UpgradeVault(signer, sleep), r)
      ensures r.Done? ==> AllCarried(old(State()), State(), old(v.vault), v.vault)
    {
      VaultUpgradeCarries(State(), signer, sleep);
      StepKeeps(State(), UpgradeVault(signer, sleep));
      var newVault := next;
      NextIsUnused(State());
      next := next + 1;
      if v.suspended {
        return Reverted(GovSuspended);
      } else if signer != km.aggKey {
        return Reverted(BadSignature);
      }
      ReplaceVault(signer, sleep, newVault);
      return Done(true);
    }

    method RuleUpgradeStateChainGateway(signer: Key, sleep: nat) returns (r: Outcome)
      requires Valid() && sleep <= 7 * DAY
      modifies this, km, v, scg
      ensures Ran(UpgradeGateway(signer, sleep), r)
      ensures r.Done? ==> AllCarried(old(State()), State(), old(scg.gateway), scg.gateway)
    {
      GatewayUpgradeCarries(State(), signer, sleep);
      StepKeeps(State(), UpgradeGateway(signer, sleep));
      NextIsUnused(State());
      if scg.suspended {
        next := next + 1;
        return Reverted(GovSuspended);
      } else if signer != km.aggKey {
        next := next + 1;
        return Reverted(BadSignature);
      }
      assert scg.State().Balance(Contract(scg.gateway)) >= 0;
      if At(scg.flipBals, Contract(scg.gateway)) == 0 {
        next := next + 1;
        return Reverted(EmptyUint);
      }
      RehomeVaultBooks(scg.gateway, next);
      scg.Replace(signer, next, sleep);
      next := next + 1;
      return Done(true);
    }

    /** Runs any rule of the machine. */
    method RunRule(op: Op) returns (r: Outcome)
      requires Valid() && WellFormed(op)
      modifies this, km, v, scg
      ensures Ran(op, r)
    {
      StepKeeps(State(), op);
      match op
      case KeyRule(o) => r := km.RunRule(o);
      case VaultRule(o) => r := v.RunRule(o);
      case GatewayRule(o) => r := scg.RunRule(o);
      case Sleep(seconds) => r := RuleSleep(seconds);
      case UpgradeKeyManager(signer) => r := RuleUpgradeKeyManager(signer);
      case UpgradeVault(signer, sleep) => r := RuleUpgradeVault(signer, sleep);
      case UpgradeGateway(signer, sleep) => r := RuleUpgradeStateChainGateway(signer, sleep);
    }

    /** A test run: any rules, one after the other. The machine goes through the states of `Run`, and so everything
        proved of those holds of it. */
    method RunRules(ops: seq<Op>)
      requires Valid() && Rules(ops)
      modifies this, km, v, scg
      ensures Valid() && State() == Run(old(State()), ops, |ops|)
    {
      for i := 0 to |ops|
        invariant Valid() && State() == Run(old(State()), ops, i)
      {
        var r := RunRule(ops[i]);
      }
    }
  }

  /** Builds the machine as the tests set it up. */
  method SetUp(native: Book<Address>, tokenA: Book<Address>, tokenB: Book<Address>, flip: Book<Address>, supply: int,
               minFunding: nat, aggKey: Key, governor: Address, communityKey: Address, now: nat)
    returns (m: StateMachine)
    requires InitialBook(native) && InitialBook(tokenA) && InitialBook(tokenB) && InitialBook(flip)
    requires governor.User? && communityKey.User? && 0 < now
    ensures fresh(m) && fresh(m.km) && fresh(m.v) && fresh(m.scg) && m.Valid()
    ensures m.State() == Setup(native, tokenA, tokenB, flip, supply, minFunding, aggKey, governor, communityKey, now)
  {
    SetupHolds(native, tokenA, tokenB, flip, supply, minFunding, aggKey, governor, communityKey, now);
    assert forall a :: At(native, a) >= 0 && At(tokenA, a) >= 0 && At(tokenB, a) >= 0 && At(flip, a) >= 0;
    assert forall a: Address | a.Deposit? :: !Initial(a) && At(native, a) == 0;
    var km := new KeyManager.Machine(aggKey, governor, communityKey, now);
    var v := new VaultMachine.Rules(km, 1, native, tokenA, tokenB);
    var scg := new GatewayMachine.Rules(km, 2, flip, supply, minFunding);
    m := new StateMachine(km, v, scg, 0, 3);
  }
}
