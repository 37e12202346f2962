// What each account holds of FLIP after each gateway rule, what is pending, and what the log says of it.
module GatewayAccounts {
  import opened Books
  import opened Protocol
  import KeyManager
  import opened GatewaySpec

  /** A payment of this node's redemption is due at this time. */
  predicate InWindow(r: Redemption, now: nat) {
    r != NULL_REDEMPTION && r.startTime <= now <= r.expiryTime
  }

  predicate Expired(r: Redemption, now: nat) {
    r != NULL_REDEMPTION && r.startTime <= now && r.expiryTime < now
  }

  // Within its window a redemption pays the registered recipient the registered amount out of the gateway, moves
  // nothing else, and is then no longer pending; after the window it is cleared and nothing moves; before it, while
  // suspended, or with too little in the gateway, nothing happens.
  lemma ExecutionPays(g: Gateway, k: KeyManager.Keys, node: nat)
    ensures var r, g', op := g.Pending(node), Step(g, k, Execute(node)), Execute(node);
            if !g.suspended && InWindow(r, k.now) && r.amount <= g.Balance(g.Self()) then
              && Verdict(g, k, op).Done?
              && (forall a :: g'.Balance(a) == g.Balance(a) + Flow(a, g.Self(), r.recipient, r.amount))
              && g'.totalFunding == g.totalFunding - r.amount
              && g'.log == g.log + [Paid(g.gateway, node, r.amount, r.recipient, k.now)]
              && (forall n :: g'.Pending(n) == if n == node then NULL_REDEMPTION else g.Pending(n))
            else if !g.suspended && Expired(r, k.now) then
              && Verdict(g, k, op).Done?
              && (forall a :: g'.Balance(a) == g.Balance(a)) && g'.totalFunding == g.totalFunding
              && g'.log == g.log + [Cleared(g.gateway, node, k.now)]
              && (forall n :: g'.Pending(n) == if n == node then NULL_REDEMPTION else g.Pending(n))
            else g' == g
  {
  }

  // A signed registration on a gateway in use makes exactly this redemption pending, once nothing live is; nothing else
  // changes.
  lemma RegistrationRecords(g: Gateway, k: KeyManager.Keys, node: nat, amount: nat, recipient: Address, diff: nat)
    requires !g.suspended && node != 0 && amount != 0
    ensures var op := Register(k.aggKey, node, amount, recipient, diff); var g' := Step(g, k, op);
            var redemption := Redemption(amount, recipient, k.now + REDEMPTION_DELAY, k.now + diff);
            if g.Pending(node).expiryTime < k.now && REDEMPTION_DELAY < diff then
              && Verdict(g, k, op) == Done(true)
              && (forall n :: g'.Pending(n) == if n == node then redemption else g.Pending(n))
              && g'.log == g.log + [Registered(g.gateway, node, amount, recipient, k.now, k.now + diff)]
              && g'.flip == g.flip
            else g' == g
  {
  }

  /** What an account holds after an accepted rule. */
  function BalanceAfter(g: Gateway, now: nat, op: GatewayOp, a: Address): int {
    g.Balance(a)
    + match op
      case Fund(funder, _, amount) => Flow(a, funder, g.Self(), amount)
      case Execute(node) =>
        if InWindow(g.Pending(node), now) then Flow(a, g.Self(), g.Pending(node).recipient, g.Pending(node).amount)
        else 0
      case UpdateSupply(_, newSupply, _) => if a == g.Self() then newSupply - g.supply else 0
      case _ => 0
  }

  lemma StepBalances(g: Gateway, k: KeyManager.Keys, op: GatewayOp, a: Address)
    ensures Step(g, k, op).Balance(a)
         == if Verdict(g, k, op).Done? then BalanceAfter(g, k.now, op, a) else g.Balance(a)
  {
    if op.Execute? {
      ExecutionPays(g, k, op.node);
    }
  }

  /** What the logged payments bring an account. */
  function PaidNaming(log: seq<Event>, a: Address): nat {
    if log == [] then 0
    else
      var e := log[|log| - 1];
      PaidNaming(log[..|log| - 1], a) + if e.Paid? && e.recipient == a then e.amount else 0
  }

  lemma PaidNamingExtends(log: seq<Event>, e: Event, a: Address)
    ensures PaidNaming(log + [e], a) == PaidNaming(log, a) + if e.Paid? && e.recipient == a then e.amount else 0
  {
    assert (log + [e])[..|log|] == log;
  }

  // An account gains what logged payments name it for and loses what it funds; nobody else's rule moves its FLIP.
  lemma UserBalance(g: Gateway, k: KeyManager.Keys, op: GatewayOp, a: Address)
    requires a.User?
    ensures Step(g, k, op).Balance(a) - PaidNaming(Step(g, k, op).log, a)
         == g.Balance(a) - PaidNaming(g.log, a)
            - if op.Fund? && op.funder == a && Verdict(g, k, op).Done? then op.amount else 0
  {
    StepBalances(g, k, op, a);
    var g' := Step(g, k, op);
    if op.Execute? {
      ExecutionPays(g, k, op.node);
    }
    if |g'.log| > |g.log| {
      PaidNamingExtends(g.log, g'.log[|g.log|], a);
    }
  }

  // FLIP leaves an account only by its own funding, and the gateway only by a redemption in its window or by a supply
  // update that the aggregate key signed.
  lemma FlipLeavesOnlyBy(g: Gateway, k: KeyManager.Keys, op: GatewayOp, a: Address)
    requires Step(g, k, op).Balance(a) < g.Balance(a)
    ensures || (op.Fund? && op.funder == a)
            || (a == g.Self() && !g.suspended && op.Execute? && InWindow(g.Pending(op.node), k.now))
            || (a == g.Self() && !g.suspended && op.UpdateSupply? && op.signer == k.aggKey)
  {
    StepBalances(g, k, op, a);
  }

  // While a governance withdrawal holds the gateway's FLIP, the governor has it all and nobody else has more or less;
  // giving it back restores every balance.
  lemma WithdrawalTakesAll(g: Gateway, governor: Address, a: Address)
    requires governor != g.Self()
    ensures var during, amount := Withdrawn(g, governor), g.Balance(g.Self());
            && At(during, a) == (if a == governor then g.Balance(a) + amount
                                 else if a == g.Self() then 0
                                 else g.Balance(a))
            && At(Move(during, governor, g.Self(), amount), a) == g.Balance(a)
  {
  }

  // Which calls the gateway accepts, whatever it says of the others.
  lemma AcceptedExactlyIf(g: Gateway, k: KeyManager.Keys, op: GatewayOp)
    ensures Verdict(g, k, op).Done? <==>
              match op
              case Fund(funder, node, amount) => node != 0 && g.minFunding <= amount <= g.Balance(funder)
              case Register(signer, node, amount, _, diff) =>
                && signer == k.aggKey && !g.suspended && node != 0 && amount != 0
                && g.Pending(node).expiryTime < k.now && REDEMPTION_DELAY < diff
              case Execute(node) =>
                var r := g.Pending(node);
                && !g.suspended
                && ((InWindow(r, k.now) && r.amount <= g.Balance(g.Self())) || Expired(r, k.now))
              case UpdateSupply(signer, newSupply, block) =>
                signer == k.aggKey && !g.suspended && Acceptable(g, SupplyUpdate(newSupply, block))
              case SetMinFunding(sender, amount) => sender == k.governor && amount != 0
              case Suspend(sender) => sender == k.governor && !g.suspended
              case Resume(sender) => sender == k.governor && g.suspended
              case EnableGuard(sender) => sender == k.communityKey && g.guardDisabled
              case DisableGuard(sender) => sender == k.communityKey && !g.guardDisabled
              case GovWithdraw(sender) => sender == k.governor && g.suspended && g.guardDisabled
    ensures Verdict(g, k, op) == Done(true) <==> Verdict(g, k, op).Done? && (op.Register? || op.UpdateSupply?)
  {
  }
}
