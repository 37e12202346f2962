// The StateChainGateway rules as methods that update the tracked FLIP balances and pending redemptions.
module GatewayMachine {
  import opened Books
  import opened Protocol
  import opened GatewaySpec
  import KeyManager

  class Rules {
    const km: KeyManager.Machine
    var flipBals: Book<Address>
    var gateway: nat
    var totalSupply: int
    var totalFunding: int
    var minFunding: nat
    var pendingRedemptions: map<nat, Redemption>
    var suspended: bool
    var communityGuardDisabled: bool
    var lastSupplyBlockNumber: nat
    ghost var log: seq<Event>

    ghost function State(): Gateway
      reads this
    {
      Gateway(flipBals, gateway, totalSupply, totalFunding, minFunding, pendingRedemptions,
              suspended, communityGuardDisabled, lastSupplyBlockNumber, log)
    }

    ghost predicate Valid()
      reads this
    {
      Inv(State())
    }

    // The call `op` ended with `r`: it did what the step function says, and stamped the KeyManager if it was signed.
    twostate predicate Called(op: GatewayOp, r: Outcome)
      reads this, km
    {
      && r == Verdict(old(State()), old(km.State()), op)
      && State() == Step(old(State()), old(km.State()), op)
      && km.State() == KeyManager.Stamp(old(km.State()), r)
    }

    // So did a rule, and it kept the invariant.
    twostate predicate Ran(op: GatewayOp, r: Outcome)
      reads this, km
    {
      Called(op, r) && Valid()
    }

    constructor (km: KeyManager.Machine, gateway: nat, flip: Book<Address>, supply: int, minFunding: nat)
      requires forall a :: At(flip, a) >= 0
      ensures Valid() && this.km == km
      ensures State() == Gateway(flip, gateway, supply, 0, minFunding, map[], false, false, 0, [])
    {
      this.km, this.gateway, this.flipBals, this.totalSupply := km, gateway, flip, supply;
      this.minFunding, this.totalFunding, this.lastSupplyBlockNumber := minFunding, 0, 0;
      pendingRedemptions, log := map[], [];
      suspended, communityGuardDisabled := false, false;
    }

    function PendingOf(node: nat): Redemption
      reads this
    {
      if node in pendingRedemptions then pendingRedemptions[node] else NULL_REDEMPTION
    }

    method RuleFundStateChainAccount(funder: Address, node: nat, amount: nat) returns (r: Outcome)
      requires Valid() && funder.User?
      modifies this
      ensures Ran(Fund(funder, node, amount), r)
    {
      StepKeeps(State(), km.State(), Fund(funder, node, amount));
      if node == 0 {
        return Reverted(EmptyBytes32);
      } else if amount < minFunding {
        return Reverted(BelowMinFunding);
      } else if amount > At(flipBals, funder) {
        return Reverted(ExceedsBalance);
      }
      flipBals := Move(flipBals, funder, Contract(gateway), amount);
      totalFunding := totalFunding + amount;
      return Done(false);
    }

    method CallRegisterRedemption(signer: Key, node: nat, amount: nat, recipient: Address, expiryDiff: nat)
      returns (r: Outcome)
      modifies this`pendingRedemptions, this`log, km`lastValidateTime
      ensures Called(Register(signer, node, amount, recipient, expiryDiff), r)
    {
      if suspended {
        return Reverted(GovSuspended);
      } else if node == 0 {
        return Reverted(EmptyBytes32);
      } else if amount == 0 {
        return Reverted(EmptyUint);
      } else if signer != km.aggKey {
        return Reverted(BadSignature);
      } else if km.now <= PendingOf(node).expiryTime {
        return Reverted(RedemptionPending);
      } else if expiryDiff <= REDEMPTION_DELAY {
        return Reverted(ExpiryTooSoon);
      }
      var ok := km.Validate(signer);
      pendingRedemptions :=
        pendingRedemptions[node := Redemption(amount, recipient, km.now + REDEMPTION_DELAY, km.now + expiryDiff)];
      log := log + [Registered(gateway, node, amount, recipient, km.now, km.now + expiryDiff)];
      return Done(true);
    }

    method CallExecuteRedemption(node: nat) returns (r: Outcome)
      modifies this`flipBals, this`totalFunding, this`pendingRedemptions, this`log
      ensures Called(Execute(node), r)
    {
      if suspended {
        return Reverted(GovSuspended);
      }
      var redemption := PendingOf(node);
      if !(redemption.startTime <= km.now) || redemption == NULL_REDEMPTION {
        return Reverted(NotOnTime);
      } else if At(flipBals, Contract(gateway)) < redemption.amount && km.now <= redemption.expiryTime {
        return Reverted(ExceedsBalance);
      }
      if km.now <= redemption.expiryTime {
        flipBals := Move(flipBals, Contract(gateway), redemption.recipient, redemption.amount);
        totalFunding := totalFunding - redemption.amount;
        log := log + [Paid(gateway, node, redemption.amount, redemption.recipient, km.now)];
      } else {
        log := log + [Cleared(gateway, node, km.now)];
      }
      pendingRedemptions := pendingRedemptions[node := NULL_REDEMPTION];
      return Done(false);
    }

    method RuleRegisterRedemption(signer: Key, node: nat, amount: nat, recipient: Address, expiryDiff: nat)
      returns (r: Outcome)
      requires Valid() && recipient.User? && node != JUNK_NODE
      modifies this, km`lastValidateTime
      ensures Ran(Register(signer, node, amount, recipient, expiryDiff), r)
    {
      StepKeeps(State(), km.State(), Register(signer, node, amount, recipient, expiryDiff));
      r := CallRegisterRedemption(signer, node, amount, recipient, expiryDiff);
    }

    method RuleExecuteRedemption(node: nat) returns (r: Outcome)
      requires Valid() && node != JUNK_NODE
      modifies this
      ensures Ran(Execute(node), r)
    {
      StepKeeps(State(), km.State(), Execute(node));
      r := CallExecuteRedemption(node);
    }

    // The rule speaks of a change of supply and of the block number; the call carries the absolute values.
    method RuleUpdateFlipSupply(signer: Key, amountSupply: int, blockNumberIncr: int) returns (r: Outcome)
      requires Valid() && totalSupply + amountSupply >= 0
      modifies this, km`lastValidateTime
      ensures var block := old(lastSupplyBlockNumber) + blockNumberIncr;
              Ran(UpdateSupply(signer, old(totalSupply) + amountSupply, if block < 0 then 0 else block), r)
      ensures r.Done? ==> blockNumberIncr > 0 && totalSupply == old(totalSupply) + amountSupply
    {
      var newTotalSupply := totalSupply + amountSupply;
      var newBlock :=
        if lastSupplyBlockNumber + blockNumberIncr < 0 then 0 else lastSupplyBlockNumber + blockNumberIncr;
      StepKeeps(State(), km.State(), UpdateSupply(signer, newTotalSupply, newBlock));
      if suspended {
        return Reverted(GovSuspended);
      } else if newTotalSupply == 0 {
        return Reverted(EmptyUint);
      } else if signer != km.aggKey {
        return Reverted(BadSignature);
      } else if newBlock <= lastSupplyBlockNumber {
        return Reverted(OldSupplyUpdate);
      } else if At(flipBals, Contract(gateway)) + amountSupply < 0 {
        return Reverted(BurnExceedsBalance);
      }
      var ok := km.Validate(signer);
      flipBals := flipBals[Contract(gateway) := At(flipBals, Contract(gateway)) + amountSupply];
      totalSupply := newTotalSupply;
      lastSupplyBlockNumber := newBlock;
      return Done(true);
    }

    method RuleSetMinFunding(sender: Address, amount: nat) returns (r: Outcome)
      requires Valid()
      modifies this
      ensures Ran(SetMinFunding(sender, amount), r)
    {
      StepKeeps(State(), km.State(), SetMinFunding(sender, amount));
      if amount == 0 {
        return Reverted(EmptyUint);
      } else if sender != km.governor {
        return Reverted(NotGovernor);
      }
      minFunding := amount;
      return Done(false);
    }

    // ---- Calls that governance and community make ----

    method CallSuspend(sender: Address) returns (r: Outcome)
      requires Valid()
      modifies this`suspended
      ensures Ran(Suspend(sender), r)
    {
      StepKeeps(State(), km.State(), Suspend(sender));
      if sender != km.governor {
        return Reverted(NotGovernor);
      } else if suspended {
        return Reverted(GovSuspended);
      }
      suspended := true;
      return Done(false);
    }

    method CallResume(sender: Address) returns (r: Outcome)
      requires Valid()
      modifies this`suspended
      ensures Ran(Resume(sender), r)
    {
      StepKeeps(State(), km.State(), Resume(sender));
      if sender != km.governor {
        return Reverted(NotGovernor);
      } else if !suspended {
        return Reverted(NotSuspended);
      }
      suspended := false;
      return Done(false);
    }

    method CallEnableCommunityGuard(sender: Address) returns (r: Outcome)
      requires Valid()
      modifies this`communityGuardDisabled
      ensures Ran(EnableGuard(sender), r)
    {
      StepKeeps(State(), km.State(), EnableGuard(sender));
      if sender != km.communityKey {
        return Reverted(NotCommunity);
      } else if !communityGuardDisabled {
        return Reverted(GuardEnabled);
      }
      communityGuardDisabled := false;
      return Done(false);
    }

    method CallDisableCommunityGuard(sender: Address) returns (r: Outcome)
      requires Valid()
      modifies this`communityGuardDisabled
      ensures Ran(DisableGuard(sender), r)
    {
      StepKeeps(State(), km.State(), DisableGuard(sender));
      if sender != km.communityKey {
        return Reverted(NotCommunity);
      } else if communityGuardDisabled {
        return Reverted(GuardDisabled);
      }
      communityGuardDisabled := true;
      return Done(false);
    }

    // Calls `govUpdateFlipIssuer` and `govWithdraw` and gives all back; `during` is what everyone held in between,
    // and `issuer` who could issue FLIP.
    method CallGovWithdraw(sender: Address) returns (r: Outcome, during: Book<Address>, issuer: Address)
      requires Valid() && km.governor.User?
      ensures Ran(GovWithdraw(sender), r)
      ensures during == (if r.Done? then Withdrawn(State(), sender) else flipBals)
      ensures issuer == if r.Done? then sender else Contract(gateway)
    {
      during, issuer := flipBals, Contract(gateway);
      if sender != km.governor {
        return Reverted(NotGovernor), during, issuer;
      } else if !communityGuardDisabled {
        return Reverted(GuardEnabled), during, issuer;
      } else if !suspended {
        return Reverted(NotSuspended), during, issuer;
      }
      issuer := sender;
      var self, amount := Contract(gateway), At(flipBals, Contract(gateway));
      during := Move(flipBals, self, sender, amount);
      // The rule's own checks, and the transfer back.
      assert At(during, sender) == At(flipBals, sender) + amount && At(during, self) == 0;
      var after := Move(during, sender, self, amount);
      assert forall a :: At(after, a) == At(flipBals, a);
      r := Done(false);
    }

    // ---- The rules around them: a wrong sender is refused first, then the right one calls ----

    // The governor is drawn twice, so that the gateway is not suspended too often.
    method RuleSuspend(sender: Address, addr: Address) returns (r: Outcome)
      requires Valid()
      modifies this`suspended
      ensures sender == km.governor && addr != sender ==> r == Skipped && State() == old(State()) && Valid()
      ensures !(sender == km.governor && addr != sender) ==> Ran(Suspend(sender), r)
    {
      if sender == km.governor && addr != sender {
        return Skipped;
      }
      r := CallSuspend(sender);
    }

    method RuleResume(sender: Address) returns (refused: Outcome, r: Outcome)
      requires Valid()
      modifies this`suspended
      ensures refused == if old(suspended) && sender != km.governor then Reverted(NotGovernor) else Skipped
      ensures Ran(Resume(km.governor), r)
    {
      refused := Skipped;
      if suspended && sender != km.governor {
        refused := CallResume(sender);
      }
      r := CallResume(km.governor);
    }

    method RuleEnableCommunityGuard(sender: Address) returns (refused: Outcome, r: Outcome)
      requires Valid()
      modifies this`communityGuardDisabled
      ensures refused
           == if old(communityGuardDisabled) && sender != km.communityKey then Reverted(NotCommunity) else Skipped
      ensures Ran(EnableGuard(km.communityKey), r)
    {
      refused := Skipped;
      if communityGuardDisabled && sender != km.communityKey {
        refused := CallEnableCommunityGuard(sender);
      }
      r := CallEnableCommunityGuard(km.communityKey);
    }

    method RuleDisableCommunityGuard(sender: Address) returns (refused: Outcome, r: Outcome)
      requires Valid()
      modifies this`communityGuardDisabled
      ensures refused
           == if !old(communityGuardDisabled) && sender != km.communityKey then Reverted(NotCommunity) else Skipped
      ensures Ran(DisableGuard(km.communityKey), r)
    {
      refused := Skipped;
      if !communityGuardDisabled && sender != km.communityKey {
        refused := CallDisableCommunityGuard(sender);
      }
      r := CallDisableCommunityGuard(km.communityKey);
    }

    // The governor takes all FLIP and the issuer's role and, after the checks, gives both back.
    method RuleGovWithdrawal(sender: Address)
      returns (refused: Outcome, r: Outcome, during: Book<Address>, issuer: Address)
      requires Valid() && km.governor.User?
      ensures refused == if communityGuardDisabled && sender != km.governor then Reverted(NotGovernor) else Skipped
      ensures r == if communityGuardDisabled && suspended then Verdict(State(), km.State(), GovWithdraw(km.governor))
                   else Skipped
      ensures during == (if r.Done? then Withdrawn(State(), km.governor) else flipBals)
      ensures issuer == if r.Done? then km.governor else Contract(gateway)
    {
      refused, r, during, issuer := Skipped, Skipped, flipBals, Contract(gateway);
      if communityGuardDisabled {
        if sender != km.governor {
          refused, during, issuer := CallGovWithdraw(sender);
        }
        if suspended {
          r, during, issuer := CallGovWithdraw(km.governor);
        }
      }
    }

    /** Runs any rule. */
    method RunRule(op: GatewayOp) returns (r: Outcome)
      requires Valid() && WellFormed(op) && km.governor.User?
      modifies this, km`lastValidateTime
      ensures Ran(op, r)
    {
      match op
      case Fund(funder, node, amount) => r := RuleFundStateChainAccount(funder, node, amount);
      case Register(signer, node, amount, recipient, expiryDiff) =>
        r := RuleRegisterRedemption(signer, node, amount, recipient, expiryDiff);
      case Execute(node) => r := RuleExecuteRedemption(node);
      case UpdateSupply(signer, newSupply, block) =>
        r := RuleUpdateFlipSupply(signer, newSupply - totalSupply, block - lastSupplyBlockNumber);
      case SetMinFunding(sender, amount) => r := RuleSetMinFunding(sender, amount);
      case Suspend(sender) => r := CallSuspend(sender);
      case Resume(sender) => r := CallResume(sender);
      case EnableGuard(sender) => r := CallEnableCommunityGuard(sender);
      case DisableGuard(sender) => r := CallDisableCommunityGuard(sender);
      case GovWithdraw(sender) =>
        var during, issuer;
        r, during, issuer := CallGovWithdraw(sender);
    }

    // The redemption that carries all FLIP to a new gateway is registered,
    method RegisterDrain(signer: Key, newGateway: nat, sleep: nat)
      requires PendingOf(JUNK_NODE) == NULL_REDEMPTION && 0 < km.now
      requires !suspended && signer == km.aggKey && At(flipBals, Contract(gateway)) > 0
      modifies this`pendingRedemptions, this`log, km`now, km`lastValidateTime
      ensures km.State() == old(km.State()).(now := old(km.now) + sleep, lastValidateTime := old(km.now) + sleep)
      ensures State() == Registration(old(State()), km.now, JUNK_NODE, At(old(flipBals), Contract(old(gateway))),
                                      Contract(newGateway), km.now + 10 * REDEMPTION_DELAY)
    {
      km.RuleSleep(sleep);
      var amount := At(flipBals, Contract(gateway));
      var registered := CallRegisterRedemption(signer, JUNK_NODE, amount, Contract(newGateway), 10 * REDEMPTION_DELAY);
      assert registered == Done(true);
    }

    // refused before its delay,
    method TryEarly()
      requires !suspended && km.now < PendingOf(JUNK_NODE).startTime
      modifies this`flipBals, this`totalFunding, this`pendingRedemptions, this`log
      ensures State() == old(State())
    {
      var early := CallExecuteRedemption(JUNK_NODE);
      assert early == Reverted(NotOnTime);
    }

    // then paid.
    method ExecuteDrain()
      requires !suspended && PendingOf(JUNK_NODE) != NULL_REDEMPTION
      requires PendingOf(JUNK_NODE).startTime <= km.now <= PendingOf(JUNK_NODE).expiryTime
      requires PendingOf(JUNK_NODE).amount <= At(flipBals, Contract(gateway))
      modifies this`flipBals, this`totalFunding, this`pendingRedemptions, this`log
      ensures State() == Execution(old(State()), km.now, JUNK_NODE)
    {
      var executed := CallExecuteRedemption(JUNK_NODE);
      assert executed == Done(false);
    }

    // The time between the two.
    method WaitForDrain(sleep: nat)
      requires !suspended && PendingOf(JUNK_NODE).startTime == km.now + REDEMPTION_DELAY
      modifies this`flipBals, this`totalFunding, this`pendingRedemptions, this`log, km`now
      ensures State() == old(State())
      ensures km.State() == old(km.State()).(now := old(km.now) + sleep + 2 * REDEMPTION_DELAY)
    {
      km.RuleSleep(sleep);
      if sleep < REDEMPTION_DELAY {
        TryEarly();
      }
      km.RuleSleep(2 * REDEMPTION_DELAY);
    }

    method Drain(signer: Key, newGateway: nat, sleep: nat)
      requires Valid() && PendingOf(JUNK_NODE) == NULL_REDEMPTION && 0 < km.now && sleep <= 7 * DAY
      requires !suspended && signer == km.aggKey && At(flipBals, Contract(gateway)) > 0
      modifies this, km
      ensures km.State() == old(km.State()).(now := old(km.now) + 2 * sleep + 2 * REDEMPTION_DELAY,
                                             lastValidateTime := old(km.now) + sleep)
      ensures State() == Drained(old(State()), newGateway, old(km.now) + sleep, km.now)
    {
      RegisterDrain(signer, newGateway, sleep);
      WaitForDrain(sleep);
      ExecuteDrain();
    }

    // What the machine tracks from here on is the new gateway.
    method Follow(newGateway: nat, funding: int)
      modifies this
      ensures State() == old(State()).(
                gateway := newGateway, totalFunding := funding, minFunding := INIT_MIN_FUNDING, pending := map[],
                suspended := false, guardDisabled := false, lastSupplyBlock := 0)
    {
      totalFunding := funding;
      gateway := newGateway;
      minFunding := INIT_MIN_FUNDING;
      communityGuardDisabled := false;
      suspended := false;
      lastSupplyBlockNumber := 0;
      pendingRedemptions := map[];
    }

    // A last signed call hands the right to issue FLIP to the new gateway, which the machine follows from then on.
    method Replace(signer: Key, newGateway: nat, sleep: nat)
      requires Valid() && PendingOf(JUNK_NODE) == NULL_REDEMPTION && 0 < km.now && sleep <= 7 * DAY
      requires !suspended && signer == km.aggKey && At(flipBals, Contract(gateway)) > 0
      modifies this, km
      ensures km.State() == old(km.State()).(now := km.now, lastValidateTime := km.now)
      ensures km.now == old(km.now) + 2 * sleep + 2 * REDEMPTION_DELAY
      ensures State() == Replaced(old(State()), newGateway, old(km.now), sleep)
    {
      // The rule does not count the draining redemption against the funding it tracks.
      var funding := totalFunding;
      Drain(signer, newGateway, sleep);
      var ok := km.Validate(signer);
      Follow(newGateway, funding);
    }
  }
}
