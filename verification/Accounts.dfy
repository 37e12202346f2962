// What every account holds after every run of the full machine, and what an upgrade carries over.
module Accounts {
  import opened Books
  import opened Protocol
  import opened SystemSpec
  import KeyManager
  import V = VaultSpec
  import VA = VaultAccounts
  import G = GatewaySpec
  import GA = GatewayAccounts

  // ---- Upgrades ----

  /** The holdings of the contract with serial `from` have passed to the one with serial `to`, and no others moved. */
  function Carried(b: Book<Address>, from: nat, to: nat, x: Address): int {
    if x == Contract(to) then At(b, Contract(from)) else if x == Contract(from) then 0 else At(b, x)
  }

  ghost predicate AllCarried(s: System, u: System, from: nat, to: nat) {
    && (forall asset, x :: u.v.Balance(asset, x) == Carried(s.v.books.Of(asset), from, to, x))
    && (forall x :: u.g.Balance(x) == Carried(s.g.flip, from, to, x))
  }

  /** Nothing is recorded for the contract yet. */
  ghost predicate Unused(s: System, to: nat) {
    (forall asset :: s.v.Balance(asset, Contract(to)) == 0) && s.g.Balance(Contract(to)) == 0
  }

  lemma NextIsUnused(s: System)
    requires Inv(s)
    ensures Unused(s, s.next)
  {
    assert V.Future(Contract(s.next), s.next);
  }

  lemma RehomedCarries(s: System, from: nat, to: nat)
    requires Unused(s, to) && from != to
    ensures AllCarried(s, Rehomed(s, from, to), from, to)
  {
    forall asset, x
      ensures Rehomed(s, from, to).v.Balance(asset, x) == Carried(s.v.books.Of(asset), from, to, x)
    {
      assert s.v.Balance(asset, Contract(to)) == 0;
    }
  }

  // A new KeyManager holds what the old one held, of every asset and of FLIP. The keys stay, the recorded time does
  // not; the Vault and the gateway keep all else.
  lemma KeyManagerUpgradeCarries(s: System, signer: Key)
    requires Inv(s)
    ensures var u := Step(s, UpgradeKeyManager(signer));
            if signer != s.k.aggKey then u == s.(next := s.next + 1)
            else
              && AllCarried(s, u, s.keyManager, s.next)
              && u == System(s.k.(lastValidateTime := 0), s.v.(books := u.v.books), s.g.(flip := u.g.flip),
                             s.next, s.next + 1)
  {
    NextIsUnused(s);
    RehomedCarries(s, s.keyManager, s.next);
  }

  // A new Vault holds what the old one held; it has no deposits yet, and is neither suspended nor without its guard.
  lemma VaultUpgradeCarries(s: System, signer: Key, sleep: nat)
    requires Inv(s) && sleep <= 7 * DAY
    ensures var u := Step(s, UpgradeVault(signer, sleep));
            if s.v.suspended || signer != s.k.aggKey then u == s.(next := s.next + 1)
            else
              && AllCarried(s, u, s.v.vault, s.next)
              && u == System(s.k.(now := s.k.now + sleep, lastValidateTime := s.k.now + sleep),
                             V.Vault(u.v.books, s.v.sent, s.next, map[], false, false), s.g.(flip := u.g.flip),
                             s.keyManager, s.next + 1)
  {
    NextIsUnused(s);
    RehomedCarries(s, s.v.vault, s.next);
  }

  // A new gateway holds what the old one held, supply and tracked funding stay, and all else starts afresh.
  lemma GatewayUpgradeCarries(s: System, signer: Key, sleep: nat)
    requires Inv(s) && sleep <= 7 * DAY
    ensures var u, later := Step(s, UpgradeGateway(signer, sleep)), s.k.now + 2 * sleep + 2 * REDEMPTION_DELAY;
            if s.g.suspended || signer != s.k.aggKey || s.g.Balance(s.g.Self()) == 0 then u == s.(next := s.next + 1)
            else
              && AllCarried(s, u, s.g.gateway, s.next)
              && u == System(s.k.(now := later, lastValidateTime := later), s.v.(books := u.v.books),
                             G.Gateway(u.g.flip, s.next, s.g.supply, s.g.totalFunding, G.INIT_MIN_FUNDING, map[],
                                       false, false, 0, u.g.log),
                             s.keyManager, s.next + 1)
  {
    NextIsUnused(s);
    RehomedCarries(s, s.g.gateway, s.next);
    G.DrainPays(s.g, s.next, s.k.now, sleep);
  }

  // ---- Statements over runs ----

  /** What a rule changes of an account's holdings of a Vault asset: a Vault rule by its statement, and no other. */
  function Booked(s: System, op: Op, asset: Asset, a: Address): int
    requires WellFormed(op)
  {
    if op.VaultRule? && Verdict(s, op).Done? then VA.BalanceAfter(s.v, op.vault, asset, a) - s.v.Balance(asset, a)
    else 0
  }

  /** All that the first `n` rules booked on an account. */
  function AllBooked(s: System, ops: seq<Op>, n: nat, asset: Asset, a: Address): int
    requires n <= |ops| && Rules(ops)
  {
    if n == 0 then 0
    else AllBooked(s, ops, n - 1, asset, a) + Booked(Run(s, ops, n - 1), ops[n - 1], asset, a)
  }

  /** All that they booked on the Vault in use, whichever that was at the time. */
  function BookedOnVault(s: System, ops: seq<Op>, n: nat, asset: Asset): int
    requires n <= |ops| && Rules(ops)
  {
    if n == 0 then 0
    else
      var before := Run(s, ops, n - 1);
      BookedOnVault(s, ops, n - 1, asset) + Booked(before, ops[n - 1], asset, before.v.Self())
  }

  lemma UpgradesLeaveOthers(s: System, op: Op, asset: Asset)
    requires Inv(s) && WellFormed(op) && (op.UpgradeKeyManager? || op.UpgradeVault? || op.UpgradeGateway?)
    ensures forall a: Address | !a.Contract? ::
              Step(s, op).v.Balance(asset, a) == s.v.Balance(asset, a) && Step(s, op).g.Balance(a) == s.g.Balance(a)
    ensures Step(s, op).v.Balance(asset, Step(s, op).v.Self()) == s.v.Balance(asset, s.v.Self())
  {
    match op
    case UpgradeKeyManager(signer) => KeyManagerUpgradeCarries(s, signer);
    case UpgradeVault(signer, sleep) => VaultUpgradeCarries(s, signer, sleep);
    case UpgradeGateway(signer, sleep) => GatewayUpgradeCarries(s, signer, sleep);
  }

  lemma BookedAtStep(s: System, op: Op, asset: Asset)
    requires Inv(s) && WellFormed(op)
    ensures forall a: Address | !a.Contract? ::
              Step(s, op).v.Balance(asset, a) == s.v.Balance(asset, a) + Booked(s, op, asset, a)
    ensures Step(s, op).v.Balance(asset, Step(s, op).v.Self())
         == s.v.Balance(asset, s.v.Self()) + Booked(s, op, asset, s.v.Self())
  {
    if op.VaultRule? {
      V.StepStaysAtHome(s.v, s.k, op.vault);
      forall a {
        VA.StepBalances(s.v, s.k, op.vault, asset, a);
      }
    } else if op.UpgradeKeyManager? || op.UpgradeVault? || op.UpgradeGateway? {
      UpgradesLeaveOthers(s, op, asset);
    }
  }

  // Over every run, an account or deposit holds of each Vault asset what it started with and what the accepted rules
  // booked on it.
  lemma {:induction false} EveryRunStatesAccounts(s: System, ops: seq<Op>, n: nat, asset: Asset, a: Address)
    requires Inv(s) && Rules(ops) && n <= |ops| && !a.Contract?
    ensures Run(s, ops, n).v.Balance(asset, a) == s.v.Balance(asset, a) + AllBooked(s, ops, n, asset, a)
  {
    if n == 0 {
    } else {
      EveryRunStatesAccounts(s, ops, n - 1, asset, a);
      RunKeeps(s, ops, n - 1);
      BookedAtStep(Run(s, ops, n - 1), ops[n - 1], asset);
    }
  }

  // So does the Vault, through every upgrade.
  lemma {:induction false} EveryRunStatesTheVault(s: System, ops: seq<Op>, n: nat, asset: Asset)
    requires Inv(s) && Rules(ops) && n <= |ops|
    ensures var e := Run(s, ops, n);
            e.v.Balance(asset, e.v.Self()) == s.v.Balance(asset, s.v.Self()) + BookedOnVault(s, ops, n, asset)
  {
    if n == 0 {
    } else {
      EveryRunStatesTheVault(s, ops, n - 1, asset);
      RunKeeps(s, ops, n - 1);
      BookedAtStep(Run(s, ops, n - 1), ops[n - 1], asset);
    }
  }

  /** What an account funded gateways with. */
  function FundedBy(s: System, ops: seq<Op>, n: nat, a: Address): nat
    requires n <= |ops| && Rules(ops)
  {
    if n == 0 then 0
    else
      var op := ops[n - 1];
      FundedBy(s, ops, n - 1, a)
      + if op.GatewayRule? && op.gateway.Fund? && op.gateway.funder == a && Verdict(Run(s, ops, n - 1), op).Done?
        then op.gateway.amount else 0
  }

  lemma ReplacingPaysNoUser(s: System, signer: Key, sleep: nat, a: Address)
    requires Inv(s) && sleep <= 7 * DAY && a.User?
    ensures GA.PaidNaming(Step(s, UpgradeGateway(signer, sleep)).g.log, a) == GA.PaidNaming(s.g.log, a)
  {
    var u := Step(s, UpgradeGateway(signer, sleep));
    if Verdict(s, UpgradeGateway(signer, sleep)).Done? {
      var n := |s.g.log|;
      GA.PaidNamingExtends(s.g.log, u.g.log[n], a);
      GA.PaidNamingExtends(s.g.log + [u.g.log[n]], u.g.log[n + 1], a);
      assert u.g.log == s.g.log + [u.g.log[n]] + [u.g.log[n + 1]];
    }
  }

  lemma FlipAtStep(s: System, op: Op, a: Address)
    requires Inv(s) && WellFormed(op) && a.User?
    ensures Step(s, op).g.Balance(a) - GA.PaidNaming(Step(s, op).g.log, a)
         == s.g.Balance(a) - GA.PaidNaming(s.g.log, a)
            - if op.GatewayRule? && op.gateway.Fund? && op.gateway.funder == a && Verdict(s, op).Done?
              then op.gateway.amount else 0
  {
    if op.GatewayRule? {
      GA.UserBalance(s.g, s.k, op.gateway, a);
    } else if op.UpgradeKeyManager? || op.UpgradeVault? || op.UpgradeGateway? {
      UpgradesLeaveOthers(s, op, Native);
      if op.UpgradeGateway? {
        ReplacingPaysNoUser(s, op.signer, op.sleep, a);
      }
    }
  }

  // Over every run, an account's FLIP is what it started with, less what it funded, plus the logged redemption payments
  // that name it.
  lemma {:induction false} EveryRunStatesFlip(s: System, ops: seq<Op>, n: nat, a: Address)
    requires Inv(s) && Rules(ops) && n <= |ops| && a.User?
    ensures var e := Run(s, ops, n);
            e.g.Balance(a)
            == s.g.Balance(a) - FundedBy(s, ops, n, a) + GA.PaidNaming(e.g.log, a) - GA.PaidNaming(s.g.log, a)
  {
    if n == 0 {
    } else {
      EveryRunStatesFlip(s, ops, n - 1, a);
      RunKeeps(s, ops, n - 1);
      FlipAtStep(Run(s, ops, n - 1), ops[n - 1], a);
    }
  }

  lemma SuspendedStep(s: System, op: Op, asset: Asset)
    requires Inv(s) && WellFormed(op) && s.v.suspended
    ensures Step(s, op).v.vault == s.v.vault
    ensures Step(s, op).v.Balance(asset, s.v.Self()) >= s.v.Balance(asset, s.v.Self())
  {
    BookedAtStep(s, op, asset);
    if op.VaultRule? {
      V.StepStaysAtHome(s.v, s.k, op.vault);
      VA.SuspendedVaultIsStill(s.v, s.k, op.vault, asset);
    }
  }

  // As long as it stays suspended, a Vault is not replaced and loses nothing, whatever rules are run.
  lemma {:induction false} SuspendedVaultKeepsFunds(s: System, ops: seq<Op>, j: nat, n: nat, asset: Asset)
    requires Inv(s) && Rules(ops) && j <= n <= |ops|
    requires forall i | j <= i < n :: Run(s, ops, i).v.suspended
    ensures Run(s, ops, n).v.vault == Run(s, ops, j).v.vault
    ensures var a := Run(s, ops, j).v.Self(); Run(s, ops, n).v.Balance(asset, a) >= Run(s, ops, j).v.Balance(asset, a)
  {
    if n == j {
    } else {
      SuspendedVaultKeepsFunds(s, ops, j, n - 1, asset);
      RunKeeps(s, ops, n - 1);
      assert Run(s, ops, n - 1).v.suspended;
      SuspendedStep(Run(s, ops, n - 1), ops[n - 1], asset);
    }
  }
}
