// The StateChainGateway machine of tests/stateful/test_stateChainGateway.py and test_all.py: funding,
// delayed redemptions, supply updates by minting and burning at the gateway, suspension and guard.
module GatewaySpec {
  import opened Books
  import opened Protocol
  import KeyManager

  datatype Redemption = Redemption(amount: nat, recipient: Address, startTime: nat, expiryTime: nat)

  const NULL_REDEMPTION := Redemption(0, Zero, 0, 0)

  /** The node ID the gateway upgrade uses for the redemption that empties the old gateway. */
  const JUNK_NODE: nat := 42069

  const INIT_MIN_FUNDING: nat := 1000

  /** What happened to the redemptions, in order; kept for the properties, never read by a rule. */
  datatype Event =
    | Registered(gateway: nat, node: nat, amount: nat, recipient: Address, at: nat, expiry: nat)
    | Paid(gateway: nat, node: nat, amount: nat, recipient: Address, at: nat)
    | Cleared(gateway: nat, node: nat, at: nat)

  datatype Gateway = Gateway(flip: Book<Address>, gateway: nat, supply: int, totalFunding: int, minFunding: nat,
                             pending: map<nat, Redemption>, suspended: bool, guardDisabled: bool,
                             lastSupplyBlock: nat, log: seq<Event>)
  {
    function Self(): Address {
      Contract(gateway)
    }

    function Balance(a: Address): int {
      At(flip, a)
    }

    function Pending(node: nat): Redemption {
      if node in pending then pending[node] else NULL_REDEMPTION
    }

    /** FLIP that is not held by the gateway. */
    function Outside(): int {
      supply - Balance(Self())
    }
  }

  datatype GatewayOp =
    | Fund(funder: Address, node: nat, amount: nat)
    | Register(signer: Key, node: nat, amount: nat, recipient: Address, expiryDiff: nat)
    | Execute(node: nat)
    | UpdateSupply(signer: Key, newSupply: nat, block: nat)
    | SetMinFunding(sender: Address, amount: nat)
    | Suspend(sender: Address)
    | Resume(sender: Address)
    | EnableGuard(sender: Address)
    | DisableGuard(sender: Address)
    | GovWithdraw(sender: Address)

  /** Funders and redeem addresses are accounts, and no rule uses the upgrade's node ID. */
  predicate WellFormed(op: GatewayOp) {
    match op
    case Fund(funder, _, _) => funder.User?
    case Register(_, node, _, recipient, _) => recipient.User? && node != JUNK_NODE
    case Execute(node) => node != JUNK_NODE
    case _ => true
  }

  function Verdict(g: Gateway, k: KeyManager.Keys, op: GatewayOp): Outcome {
    match op
    case Fund(funder, node, amount) =>
      if node == 0 then Reverted(EmptyBytes32)
      else if amount < g.minFunding then Reverted(BelowMinFunding)
      else if amount > g.Balance(funder) then Reverted(ExceedsBalance)
      else Done(false)
    case Register(signer, node, amount, _, expiryDiff) =>
      if g.suspended then Reverted(GovSuspended)
      else if node == 0 then Reverted(EmptyBytes32)
      else if amount == 0 then Reverted(EmptyUint)
      else if signer != k.aggKey then Reverted(BadSignature)
      else if k.now <= g.Pending(node).expiryTime then Reverted(RedemptionPending)
      else if expiryDiff <= REDEMPTION_DELAY then Reverted(ExpiryTooSoon)
      else Done(true)
    case Execute(node) =>
      var redemption := g.Pending(node);
      if g.suspended then Reverted(GovSuspended)
      else if !(redemption.startTime <= k.now) || redemption == NULL_REDEMPTION then Reverted(NotOnTime)
      else if g.Balance(g.Self()) < redemption.amount && k.now <= redemption.expiryTime then Reverted(ExceedsBalance)
      else Done(false)
    case UpdateSupply(signer, newSupply, block) =>
      if g.suspended then Reverted(GovSuspended)
      else if newSupply == 0 then Reverted(EmptyUint)
      else if signer != k.aggKey then Reverted(BadSignature)
      else if block <= g.lastSupplyBlock then Reverted(OldSupplyUpdate)
      else if g.Balance(g.Self()) + (newSupply - g.supply) < 0 then Reverted(BurnExceedsBalance)
      else Done(true)
    case SetMinFunding(sender, amount) =>
      if amount == 0 then Reverted(EmptyUint)
      else if sender != k.governor then Reverted(NotGovernor)
      else Done(false)
    case Suspend(sender) =>
      if sender != k.governor then Reverted(NotGovernor)
      else if g.suspended then Reverted(GovSuspended)
      else Done(false)
    case Resume(sender) =>
      if sender != k.governor then Reverted(NotGovernor)
      else if g.suspended then Done(false)
      else Reverted(NotSuspended)
    case EnableGuard(sender) =>
      if sender != k.communityKey then Reverted(NotCommunity)
      else if g.guardDisabled then Done(false)
      else Reverted(GuardEnabled)
    case DisableGuard(sender) =>
      if sender != k.communityKey then Reverted(NotCommunity)
      else if g.guardDisabled then Reverted(GuardDisabled)
      else Done(false)
    case GovWithdraw(sender) =>
      if sender != k.governor then Reverted(NotGovernor)
      else if !g.guardDisabled then Reverted(GuardEnabled)
      else if !g.suspended then Reverted(NotSuspended)
      else Done(false)
  }

  function Registration(g: Gateway, now: nat, node: nat, amount: nat, recipient: Address, expiry: nat): Gateway {
    g.(pending := g.pending[node := Redemption(amount, recipient, now + REDEMPTION_DELAY, expiry)],
       log := g.log + [Registered(g.gateway, node, amount, recipient, now, expiry)])
  }

  function Execution(g: Gateway, now: nat, node: nat): Gateway {
    var redemption := g.Pending(node);
    var cleared := g.(pending := g.pending[node := NULL_REDEMPTION]);
    if now <= redemption.expiryTime then
      cleared.(flip := Move(g.flip, g.Self(), redemption.recipient, redemption.amount),
               totalFunding := g.totalFunding - redemption.amount,
               log := g.log + [Paid(g.gateway, node, redemption.amount, redemption.recipient, now)])
    else
      cleared.(log := g.log + [Cleared(g.gateway, node, now)])
  }

  function Issue(g: Gateway, newSupply: nat, block: nat): Gateway {
    g.(flip := g.flip[g.Self() := g.Balance(g.Self()) + (newSupply - g.supply)],
       supply := newSupply, lastSupplyBlock := block)
  }

  /** All FLIP while the governor holds the gateway's; the rule that withdraws it gives it back. */
  function Withdrawn(g: Gateway, governor: Address): Book<Address> {
    Move(g.flip, g.Self(), governor, g.Balance(g.Self()))
  }

  function Effect(g: Gateway, k: KeyManager.Keys, op: GatewayOp): Gateway {
    match op
    case Fund(funder, _, amount) =>
      g.(flip := Move(g.flip, funder, g.Self(), amount), totalFunding := g.totalFunding + amount)
    case Register(_, node, amount, recipient, expiryDiff) =>
      Registration(g, k.now, node, amount, recipient, k.now + expiryDiff)
    case Execute(node) => Execution(g, k.now, node)
    case UpdateSupply(_, newSupply, block) => Issue(g, newSupply, block)
    case SetMinFunding(_, amount) => g.(minFunding := amount)
    case Suspend(_) => g.(suspended := true)
    case Resume(_) => g.(suspended := false)
    case EnableGuard(_) => g.(guardDisabled := false)
    case DisableGuard(_) => g.(guardDisabled := true)
    case GovWithdraw(_) => g
  }

  /** The gateway after the redemption of all its FLIP to contract `to` was registered at `start` and executed
      at `end`. */
  function Drained(g: Gateway, to: nat, start: nat, end: nat): Gateway {
    var amount := g.Balance(g.Self());
    var registered :=
      Registration(g, start, JUNK_NODE, if amount < 0 then 0 else amount, Contract(to), start + 10 * REDEMPTION_DELAY);
    Execution(registered, end, JUNK_NODE)
  }

  /** The gateway with serial `to` that takes over after the sleeps of an upgrade begun at `now`. The tracked
      funding is not reduced by the draining redemption, and pending redemptions are forgotten. */
  function Replaced(g: Gateway, to: nat, now: nat, sleep: nat): Gateway {
    Drained(g, to, now + sleep, now + 2 * sleep + 2 * REDEMPTION_DELAY).(
      gateway := to, totalFunding := g.totalFunding, minFunding := INIT_MIN_FUNDING, pending := map[],
      suspended := false, guardDisabled := false, lastSupplyBlock := 0)
  }

  function Step(g: Gateway, k: KeyManager.Keys, op: GatewayOp): Gateway {
    if Verdict(g, k, op).Done? then Effect(g, k, op) else g
  }

  // ---- Redemption histories ----

  /** The events of one node on one gateway, in order. */
  function History(log: seq<Event>, gateway: nat, node: nat): seq<Event> {
    if log == [] then []
    else
      var e := log[|log| - 1];
      var before := History(log[..|log| - 1], gateway, node);
      if e.gateway == gateway && e.node == node then before + [e] else before
  }

  lemma HistoryExtends(log: seq<Event>, e: Event, gateway: nat, node: nat)
    ensures var before := History(log, gateway, node);
            History(log + [e], gateway, node)
            == if e.gateway == gateway && e.node == node then before + [e] else before
  {
    assert (log + [e])[..|log|] == log;
  }

  /** Event `i` of a node's history is allowed by the event just before it: a payment or a clearing consumes the
      registration that immediately precedes it, inside or after its window, and a registration replaces
      another only once that one has expired. */
  ghost predicate Justified(h: seq<Event>, i: nat)
    requires i < |h|
  {
    match h[i]
    case Registered(_, _, _, _, at, expiry) =>
      at + REDEMPTION_DELAY < expiry && (i > 0 && h[i - 1].Registered? ==> h[i - 1].expiry < at)
    case Paid(_, _, amount, recipient, at) =>
      && i > 0 && h[i - 1].Registered?
      && h[i - 1].amount == amount && h[i - 1].recipient == recipient
      && h[i - 1].at + REDEMPTION_DELAY <= at <= h[i - 1].expiry
    case Cleared(_, _, at) =>
      i > 0 && h[i - 1].Registered? && h[i - 1].expiry < at
  }

  ghost predicate AllJustified(h: seq<Event>) {
    forall i | 0 <= i < |h| :: Justified(h, i)
  }

  /** A node has a redemption pending exactly when its history ends with a registration, and then that one. */
  ghost predicate NodeOk(g: Gateway, node: nat) {
    var h := History(g.log, g.gateway, node);
    && g.Pending(node) == (if h != [] && h[|h| - 1].Registered?
                          then Redemption(h[|h| - 1].amount, h[|h| - 1].recipient,
                                          h[|h| - 1].at + REDEMPTION_DELAY, h[|h| - 1].expiry)
                          else NULL_REDEMPTION)
    && (g.Pending(node) == NULL_REDEMPTION || g.Pending(node).recipient.User? || node == JUNK_NODE)
  }

  /** Every redemption history, on this gateway or an earlier one, is justified event by event. */
  ghost predicate Histories(log: seq<Event>) {
    forall gateway, node :: AllJustified(History(log, gateway, node))
  }

  ghost predicate Inv(g: Gateway) {
    && NonNegative(g.flip)
    && Histories(g.log)
    && (forall node :: NodeOk(g, node))
  }

  lemma AppendJustified(h: seq<Event>, e: Event)
    requires AllJustified(h) && Justified(h + [e], |h|)
    ensures AllJustified(h + [e])
  {
    forall i | 0 <= i < |h| ensures Justified(h + [e], i) {
      assert Justified(h, i);
    }
  }

  // Appending an event that its own history justifies keeps every history justified.
  lemma AppendHistories(log: seq<Event>, e: Event)
    requires Histories(log)
    requires var h := History(log, e.gateway, e.node); Justified(h + [e], |h|)
    ensures Histories(log + [e])
  {
    forall gateway, node ensures AllJustified(History(log + [e], gateway, node)) {
      HistoryExtends(log, e, gateway, node);
      if e.gateway == gateway && e.node == node {
        AppendJustified(History(log, gateway, node), e);
      }
    }
  }

  lemma RegistrationKeeps(g: Gateway, now: nat, node: nat, amount: nat, recipient: Address, expiry: nat)
    requires Inv(g) && (recipient.User? || node == JUNK_NODE)
    requires g.Pending(node).expiryTime < now && now + REDEMPTION_DELAY < expiry
    ensures Inv(Registration(g, now, node, amount, recipient, expiry))
  {
    var g' := Registration(g, now, node, amount, recipient, expiry);
    var e := Registered(g.gateway, node, amount, recipient, now, expiry);
    assert NodeOk(g, node);
    AppendHistories(g.log, e);
    forall n ensures NodeOk(g', n) {
      assert NodeOk(g, n);
      HistoryExtends(g.log, e, g.gateway, n);
    }
  }

  lemma ExecutionKeeps(g: Gateway, now: nat, node: nat)
    requires Inv(g)
    requires g.Pending(node) != NULL_REDEMPTION && g.Pending(node).startTime <= now
    requires now <= g.Pending(node).expiryTime ==> g.Pending(node).amount <= g.Balance(g.Self())
    ensures Inv(Execution(g, now, node))
  {
    var g' := Execution(g, now, node);
    var e := g'.log[|g.log|];
    assert g'.log == g.log + [e];
    assert NodeOk(g, node);
    AppendHistories(g.log, e);
    forall n ensures NodeOk(g', n) {
      assert NodeOk(g, n);
      HistoryExtends(g.log, e, g.gateway, n);
    }
  }

  // The redemption that empties the old gateway is accepted, and paid in full after the sleeps: what it leaves
  // is the gateway's balance moved to the new one.
  lemma DrainPays(g: Gateway, to: nat, now: nat, sleep: nat)
    requires Inv(g) && g.Pending(JUNK_NODE) == NULL_REDEMPTION && 0 < now && sleep <= 7 * DAY
    ensures var amount, start, end := g.Balance(g.Self()), now + sleep, now + 2 * sleep + 2 * REDEMPTION_DELAY;
            && amount >= 0
            && Inv(Registration(g, start, JUNK_NODE, amount, Contract(to), start + 10 * REDEMPTION_DELAY))
            && Inv(Drained(g, to, start, end))
            && Drained(g, to, start, end).flip == Move(g.flip, g.Self(), Contract(to), amount)
  {
    var amount, start, end := g.Balance(g.Self()), now + sleep, now + 2 * sleep + 2 * REDEMPTION_DELAY;
    RegistrationKeeps(g, start, JUNK_NODE, amount, Contract(to), start + 10 * REDEMPTION_DELAY);
    ExecutionKeeps(Registration(g, start, JUNK_NODE, amount, Contract(to), start + 10 * REDEMPTION_DELAY),
                   end, JUNK_NODE);
  }

  function TotalRegistered(h: seq<Event>): nat {
    if h == [] then 0
    else TotalRegistered(h[..|h| - 1]) + if h[|h| - 1].Registered? then h[|h| - 1].amount else 0
  }

  function TotalPaid(h: seq<Event>): nat {
    if h == [] then 0
    else TotalPaid(h[..|h| - 1]) + if h[|h| - 1].Paid? then h[|h| - 1].amount else 0
  }

  // No node is ever paid more than was registered for it, not even counting what is still pending.
  lemma {:induction false} PaidAtMostRegistered(h: seq<Event>)
    requires AllJustified(h)
    ensures TotalPaid(h) + (if h != [] && h[|h| - 1].Registered? then h[|h| - 1].amount else 0) <= TotalRegistered(h)
  {
    if h == [] {
    } else {
      var shorter := h[..|h| - 1];
      forall i | 0 <= i < |shorter| ensures Justified(shorter, i) {
        assert Justified(h, i);
      }
      PaidAtMostRegistered(shorter);
      assert Justified(h, |h| - 1);
    }
  }

  /** All redemptions paid, on any gateway, other than those that drained a replaced one. */
  function PaidOut(log: seq<Event>): nat {
    if log == [] then 0
    else
      var e := log[|log| - 1];
      PaidOut(log[..|log| - 1]) + if e.Paid? && e.node != JUNK_NODE then e.amount else 0
  }

  lemma PaidOutExtends(log: seq<Event>, e: Event)
    ensures PaidOut(log + [e]) == PaidOut(log) + if e.Paid? && e.node != JUNK_NODE then e.amount else 0
  {
    assert (log + [e])[..|log|] == log;
  }

  // ---- What every step keeps ----

  /** The gateway's FLIP beyond what funding and supply changes put there. */
  function Gap(g: Gateway): int {
    g.Balance(g.Self()) - g.totalFunding - g.supply
  }

  /** Contract `n` and later ones hold no FLIP and appear in no event. */
  ghost predicate Fresh(g: Gateway, n: nat) {
    && (forall m | n <= m :: g.Balance(Contract(m)) == 0)
    && (forall i | 0 <= i < |g.log| :: g.log[i].gateway < n)
  }

  ghost predicate Kept(g: Gateway, g': Gateway) {
    && (Inv(g) ==> Inv(g'))
    && Gap(g') == Gap(g)
    && Sum(g'.flip) - g'.supply == Sum(g.flip) - g.supply
    && (g.gateway == g'.gateway ==> g.lastSupplyBlock <= g'.lastSupplyBlock)
    && (forall n | g.gateway < n && Fresh(g, n) :: Fresh(g', n))
    && g'.Pending(JUNK_NODE) == g.Pending(JUNK_NODE)
  }

  lemma {:induction false} NoEvents(log: seq<Event>, gateway: nat, node: nat)
    requires forall i | 0 <= i < |log| :: log[i].gateway < gateway
    ensures History(log, gateway, node) == []
  {
    if log == [] {
    } else {
      NoEvents(log[..|log| - 1], gateway, node);
    }
  }

  lemma SameHistories(g: Gateway, g': Gateway)
    requires Inv(g) && NonNegative(g'.flip)
    requires g'.pending == g.pending && g'.log == g.log && g'.gateway == g.gateway
    ensures Inv(g')
  {
    forall n ensures NodeOk(g', n) && g'.Pending(n) == g.Pending(n) {
      assert NodeOk(g, n);
    }
  }

  lemma FundKeeps(g: Gateway, funder: Address, amount: nat)
    requires Inv(g) && funder.User? && amount <= g.Balance(funder)
    ensures Kept(g, g.(flip := Move(g.flip, funder, g.Self(), amount), totalFunding := g.totalFunding + amount))
  {
    SumMove(g.flip, funder, g.Self(), amount);
    SameHistories(g, g.(flip := Move(g.flip, funder, g.Self(), amount), totalFunding := g.totalFunding + amount));
  }

  lemma ExecuteKeeps(g: Gateway, now: nat, node: nat)
    requires Inv(g) && g.Pending(node).recipient.User? && node != JUNK_NODE
    requires g.Pending(node).startTime <= now
    requires now <= g.Pending(node).expiryTime ==> g.Pending(node).amount <= g.Balance(g.Self())
    ensures Kept(g, Execution(g, now, node))
  {
    ExecutionKeeps(g, now, node);
    SumMove(g.flip, g.Self(), g.Pending(node).recipient, g.Pending(node).amount);
  }

  lemma RegisterKeeps(g: Gateway, now: nat, node: nat, amount: nat, recipient: Address, expiry: nat)
    requires Inv(g) && recipient.User? && node != JUNK_NODE
    requires g.Pending(node).expiryTime < now && now + REDEMPTION_DELAY < expiry
    ensures Kept(g, Registration(g, now, node, amount, recipient, expiry))
  {
    RegistrationKeeps(g, now, node, amount, recipient, expiry);
  }

  lemma IssueKeeps(g: Gateway, newSupply: nat, block: nat)
    requires Inv(g) && g.Balance(g.Self()) + (newSupply - g.supply) >= 0 && g.lastSupplyBlock < block
    ensures Kept(g, Issue(g, newSupply, block))
  {
    SumPut(g.flip, g.Self(), g.Balance(g.Self()) + (newSupply - g.supply));
    var g' := Issue(g, newSupply, block);
    forall a ensures At(g'.flip, a) >= 0 {
      assert At(g.flip, a) >= 0;
    }
    SameHistories(g, g');
  }

  /** The operations that move neither FLIP nor redemptions. */
  predicate OnlyFlags(op: GatewayOp) {
    !op.Fund? && !op.Register? && !op.Execute? && !op.UpdateSupply?
  }

  lemma FlagsKeep(g: Gateway, k: KeyManager.Keys, op: GatewayOp)
    requires OnlyFlags(op) && Inv(g)
    ensures Kept(g, Effect(g, k, op))
  {
    SameHistories(g, Effect(g, k, op));
  }

  lemma EffectKeeps(g: Gateway, k: KeyManager.Keys, op: GatewayOp)
    requires WellFormed(op) && Inv(g) && Verdict(g, k, op).Done?
    ensures Kept(g, Effect(g, k, op))
  {
    if OnlyFlags(op) {
      FlagsKeep(g, k, op);
    } else {
      match op
      case Fund(funder, _, amount) => FundKeeps(g, funder, amount);
      case Register(_, node, amount, recipient, expiryDiff) =>
        RegisterKeeps(g, k.now, node, amount, recipient, k.now + expiryDiff);
      case Execute(node) =>
        assert NodeOk(g, node);
        ExecuteKeeps(g, k.now, node);
      case UpdateSupply(_, newSupply, block) => IssueKeeps(g, newSupply, block);
    }
  }

  lemma StepKeeps(g: Gateway, k: KeyManager.Keys, op: GatewayOp)
    requires WellFormed(op) && Inv(g)
    ensures Kept(g, Step(g, k, op))
  {
    if Verdict(g, k, op).Done? {
      EffectKeeps(g, k, op);
    }
  }

  lemma StepStaysAtHome(g: Gateway, k: KeyManager.Keys, op: GatewayOp)
    ensures Step(g, k, op).gateway == g.gateway
  {
  }

  // The tracked funding moves only by what is funded and by what is paid out.
  lemma FundingFollowsPayments(g: Gateway, k: KeyManager.Keys, op: GatewayOp)
    requires WellFormed(op)
    ensures var g' := Step(g, k, op);
            g'.totalFunding + PaidOut(g'.log)
            == g.totalFunding + PaidOut(g.log) + if op.Fund? && Verdict(g, k, op).Done? then op.amount else 0
  {
    var g' := Step(g, k, op);
    if |g'.log| > |g.log| {
      PaidOutExtends(g.log, g'.log[|g.log|]);
    }
  }

  lemma ReplacingPaysNobodyElse(g: Gateway, to: nat, now: nat, sleep: nat)
    ensures var g' := Replaced(g, to, now, sleep);
            g'.totalFunding == g.totalFunding && PaidOut(g'.log) == PaidOut(g.log)
  {
    var g' := Replaced(g, to, now, sleep);
    var n := |g.log|;
    PaidOutExtends(g.log, g'.log[n]);
    PaidOutExtends(g.log + [g'.log[n]], g'.log[n + 1]);
    assert g'.log == g.log + [g'.log[n]] + [g'.log[n + 1]];
  }

  // Nothing is registered, paid or cleared while the gateway is suspended.
  lemma SuspendedFreezesRedemptions(g: Gateway, k: KeyManager.Keys, op: GatewayOp)
    requires g.suspended
    ensures Step(g, k, op).log == g.log && Step(g, k, op).pending == g.pending
    ensures Step(g, k, op).supply == g.supply
    ensures At(Step(g, k, op).flip, g.Self()) >= g.Balance(g.Self())
  {
  }

  // ---- Supply updates settle on the newest acceptable one, in whatever order they arrive ----

  datatype SupplyUpdate = SupplyUpdate(supply: nat, block: nat)

  predicate Acceptable(g: Gateway, u: SupplyUpdate) {
    u.supply > 0 && u.supply >= g.Outside() && u.block > g.lastSupplyBlock
  }

  datatype Choice = Nothing | Chosen(update: SupplyUpdate)

  /** What a delivery settles on: nothing if no update is acceptable at the start, else the acceptable update
      with the greatest block number (the first of them if several share it). */
  function Newest(g: Gateway, us: seq<SupplyUpdate>): Choice {
    if us == [] then Nothing
    else
      var before, u := Newest(g, us[..|us| - 1]), us[|us| - 1];
      if Acceptable(g, u) && (before.Chosen? ==> before.update.block < u.block) then Chosen(u) else before
  }

  lemma {:induction false} NewestIsNewest(g: Gateway, us: seq<SupplyUpdate>)
    ensures var c := Newest(g, us);
            if c.Nothing? then forall u | u in us :: !Acceptable(g, u)
            else c.update in us && Acceptable(g, c.update)
                 && forall u | u in us && Acceptable(g, u) :: u.block <= c.update.block
  {
    if us == [] {
    } else {
      NewestIsNewest(g, us[..|us| - 1]);
      assert us == us[..|us| - 1] + [us[|us| - 1]];
    }
  }

  /** Delivers validly signed updates one after the other. */
  function Deliver(g: Gateway, k: KeyManager.Keys, us: seq<SupplyUpdate>): Gateway {
    if us == [] then g
    else
      var u := us[|us| - 1];
      Step(Deliver(g, k, us[..|us| - 1]), k, UpdateSupply(k.aggKey, u.supply, u.block))
  }

  function Settled(g: Gateway, c: Choice): Gateway {
    match c
    case Nothing => g
    case Chosen(u) => Issue(g, u.supply, u.block)
  }

  lemma UpdateAfter(g: Gateway, k: KeyManager.Keys, c: Choice, u: SupplyUpdate)
    requires !g.suspended
    requires c.Chosen? ==> Acceptable(g, c.update)
    ensures var accepted := Acceptable(g, u) && (c.Chosen? ==> c.update.block < u.block);
            Step(Settled(g, c), k, UpdateSupply(k.aggKey, u.supply, u.block))
            == Settled(g, if accepted then Chosen(u) else c)
  {
    var s := Settled(g, c);
    assert s.Outside() == g.Outside();
    assert Issue(s, u.supply, u.block) == Issue(g, u.supply, u.block);
  }

  // Every delivery ends where its newest acceptable update alone would have led.
  lemma {:induction false} DeliverySettles(g: Gateway, k: KeyManager.Keys, us: seq<SupplyUpdate>)
    requires !g.suspended
    ensures Deliver(g, k, us) == Settled(g, Newest(g, us))
  {
    if us == [] {
    } else {
      DeliverySettles(g, k, us[..|us| - 1]);
      NewestIsNewest(g, us[..|us| - 1]);
      UpdateAfter(g, k, Newest(g, us[..|us| - 1]), us[|us| - 1]);
    }
  }

  lemma NewestAgrees(g: Gateway, us: seq<SupplyUpdate>, vs: seq<SupplyUpdate>)
    requires forall u :: u in us <==> u in vs
    requires forall i, j | 0 <= i < j < |us| :: us[i].block != us[j].block
    ensures Newest(g, us) == Newest(g, vs)
  {
    NewestIsNewest(g, us);
    NewestIsNewest(g, vs);
  }

  // Two deliveries of the same updates, whose block numbers are distinct, end in the same state, in whatever order
  // and however often each is delivered.
  lemma DeliveryIsConfluent(g: Gateway, k: KeyManager.Keys, us: seq<SupplyUpdate>, vs: seq<SupplyUpdate>)
    requires !g.suspended && forall u :: u in us <==> u in vs
    requires forall i, j | 0 <= i < j < |us| :: us[i].block != us[j].block
    ensures Deliver(g, k, us) == Deliver(g, k, vs)
  {
    NewestAgrees(g, us, vs);
    DeliverySettles(g, k, us);
    DeliverySettles(g, k, vs);
  }
}
