// The KeyManager machine of tests/stateful/test_keyManager.py: the aggregate key, the governor, the
// community key and the time of the last validated signature, under an ever-advancing clock.
module KeyManager {
  import opened Protocol

  datatype Keys = Keys(aggKey: Key, governor: Address, communityKey: Address, lastValidateTime: nat, now: nat)

  ghost predicate Inv(k: Keys) {
    k.lastValidateTime <= k.now && k.governor.User? && k.communityKey.User?
  }

  datatype KeyOp =
    | SetAggKeyWithAggKey(signer: Key, newKey: Key)
    | SetAggKeyWithGovKey(sender: Address, newKey: Key)
    | SetGovKeyWithAggKey(signer: Key, newGovernor: Address)
    | SetGovKeyWithGovKey(sender: Address, newGovernor: Address)
    | SetCommKeyWithAggKey(signer: Key, newCommunity: Address)
    | SetCommKeyWithCommKey(sender: Address, newCommunity: Address)
    | ConsumeKeyNonce(signer: Key)
    | GovAction(sender: Address)

  /** Governors and community keys are ordinary accounts. */
  predicate WellFormed(op: KeyOp) {
    match op
    case SetGovKeyWithAggKey(_, a) => a.User?
    case SetGovKeyWithGovKey(_, a) => a.User?
    case SetCommKeyWithAggKey(_, a) => a.User?
    case SetCommKeyWithCommKey(_, a) => a.User?
    case _ => true
  }

  function Signed(k: Keys, signer: Key): Outcome {
    if signer == k.aggKey then Done(true) else Reverted(BadSignature)
  }

  function Verdict(k: Keys, op: KeyOp): Outcome {
    match op
    case SetAggKeyWithAggKey(signer, _) => Signed(k, signer)
    case SetGovKeyWithAggKey(signer, _) => Signed(k, signer)
    case SetCommKeyWithAggKey(signer, _) => Signed(k, signer)
    case ConsumeKeyNonce(signer) => Signed(k, signer)
    case SetAggKeyWithGovKey(sender, _) =>
      if k.now - k.lastValidateTime < AGG_KEY_TIMEOUT then Reverted(KeyDelay)
      else if sender != k.governor then Reverted(NotGovernor)
      else Done(false)
    case SetGovKeyWithGovKey(sender, _) =>
      if sender == k.governor then Done(false) else Reverted(NotGovernor)
    case SetCommKeyWithCommKey(sender, _) =>
      if sender == k.communityKey then Done(false) else Reverted(NotCommunity)
    case GovAction(sender) =>
      if sender == k.governor then Done(false) else Reverted(NotGovernor)
  }

  function Effect(k: Keys, op: KeyOp): Keys {
    match op
    case SetAggKeyWithAggKey(_, newKey) => k.(aggKey := newKey)
    case SetAggKeyWithGovKey(_, newKey) => k.(aggKey := newKey)
    case SetGovKeyWithAggKey(_, governor) => k.(governor := governor)
    case SetGovKeyWithGovKey(_, governor) => k.(governor := governor)
    case SetCommKeyWithAggKey(_, community) => k.(communityKey := community)
    case SetCommKeyWithCommKey(_, community) => k.(communityKey := community)
    case _ => k
  }

  /** An accepted signature restarts the timeouts. */
  function Stamp(k: Keys, r: Outcome): Keys {
    if r == Done(true) then k.(lastValidateTime := k.now) else k
  }

  function Step(k: Keys, op: KeyOp): Keys {
    var r := Verdict(k, op);
    if r.Done? then Stamp(Effect(k, op), r) else k
  }

  lemma StepKeeps(k: Keys, op: KeyOp)
    requires Inv(k) && WellFormed(op)
    ensures Inv(Step(k, op)) && Step(k, op).now == k.now
  {
  }

  // Each key changes only on the authority of its holder or of the aggregate key; the aggregate key itself also by the
  // governor, once no signature has been validated for the timeout. Only a validated signature moves the recorded time.
  lemma KeysChangeOnlyByAuthority(k: Keys, op: KeyOp)
    ensures Step(k, op).aggKey != k.aggKey ==>
              || (op.SetAggKeyWithAggKey? && op.signer == k.aggKey)
              || (op.SetAggKeyWithGovKey? && op.sender == k.governor && k.now - k.lastValidateTime >= AGG_KEY_TIMEOUT)
    ensures Step(k, op).governor != k.governor ==>
              || (op.SetGovKeyWithAggKey? && op.signer == k.aggKey)
              || (op.SetGovKeyWithGovKey? && op.sender == k.governor)
    ensures Step(k, op).communityKey != k.communityKey ==>
              || (op.SetCommKeyWithAggKey? && op.signer == k.aggKey)
              || (op.SetCommKeyWithCommKey? && op.sender == k.communityKey)
    ensures Step(k, op).lastValidateTime != k.lastValidateTime ==>
              Verdict(k, op) == Done(true) && Step(k, op).lastValidateTime == k.now
  {
  }

  // Which calls are accepted: those the aggregate key signed, and those of the account that holds the power, for the
  // aggregate key itself only after the timeout.
  lemma AcceptedExactlyIf(k: Keys, op: KeyOp)
    ensures Verdict(k, op) == Done(true) <==>
              match op
              case SetAggKeyWithAggKey(signer, _) => signer == k.aggKey
              case SetGovKeyWithAggKey(signer, _) => signer == k.aggKey
              case SetCommKeyWithAggKey(signer, _) => signer == k.aggKey
              case ConsumeKeyNonce(signer) => signer == k.aggKey
              case _ => false
    ensures Verdict(k, op) == Done(false) <==>
              match op
              case SetAggKeyWithGovKey(sender, _) =>
                sender == k.governor && k.now - k.lastValidateTime >= AGG_KEY_TIMEOUT
              case SetGovKeyWithGovKey(sender, _) => sender == k.governor
              case SetCommKeyWithCommKey(sender, _) => sender == k.communityKey
              case GovAction(sender) => sender == k.governor
              case _ => false
    ensures Verdict(k, op) != Skipped
  {
  }

  function Run(k: Keys, ops: seq<KeyOp>): Keys {
    if ops == [] then k else Step(Run(k, ops[..|ops| - 1]), ops[|ops| - 1])
  }

  /** Who can make this call: the aggregate key through a signature, or an account. */
  predicate MadeBy(op: KeyOp, agg: set<Key>, accounts: set<Address>) {
    match op
    case SetAggKeyWithAggKey(signer, _) => signer in agg
    case SetGovKeyWithAggKey(signer, _) => signer in agg
    case SetCommKeyWithAggKey(signer, _) => signer in agg
    case ConsumeKeyNonce(signer) => signer in agg
    case SetAggKeyWithGovKey(sender, _) => sender in accounts
    case SetGovKeyWithGovKey(sender, _) => sender in accounts
    case SetCommKeyWithCommKey(sender, _) => sender in accounts
    case GovAction(sender) => sender in accounts
  }

  // Outsiders, who hold none of the three keys, change nothing however often and in whatever way they call.
  lemma {:induction false} OutsidersChangeNothing(k: Keys, ops: seq<KeyOp>, agg: set<Key>, accounts: set<Address>)
    requires k.aggKey !in agg && k.governor !in accounts && k.communityKey !in accounts
    requires forall i | 0 <= i < |ops| :: MadeBy(ops[i], agg, accounts)
    ensures Run(k, ops) == k
  {
    if ops == [] {
    } else {
      OutsidersChangeNothing(k, ops[..|ops| - 1], agg, accounts);
      assert MadeBy(ops[|ops| - 1], agg, accounts);
    }
  }

  /** The test's own view of the KeyManager. */
  class Machine {
    var aggKey: Key
    var governor: Address
    var communityKey: Address
    var lastValidateTime: nat
    var now: nat

    ghost function State(): Keys
      reads this
    {
      Keys(aggKey, governor, communityKey, lastValidateTime, now)
    }

    constructor (aggKey: Key, governor: Address, communityKey: Address, now: nat)
      ensures State() == Keys(aggKey, governor, communityKey, 0, now)
    {
      this.aggKey, this.governor, this.communityKey := aggKey, governor, communityKey;
      this.lastValidateTime, this.now := 0, now;
    }

    // A signature by `signer` is presented; when it is the aggregate key's, the time is recorded.
    method Validate(signer: Key) returns (ok: bool)
      modifies this`lastValidateTime
      ensures ok == (signer == aggKey)
      ensures State() == Stamp(old(State()), if ok then Done(true) else Skipped)
    {
      ok := signer == aggKey;
      if ok {
        lastValidateTime := now;
      }
    }

    method RuleSetAggKeyWithAggKey(signer: Key, newKey: Key) returns (r: Outcome)
      modifies this
      ensures r == Verdict(old(State()), SetAggKeyWithAggKey(signer, newKey))
      ensures State() == Step(old(State()), SetAggKeyWithAggKey(signer, newKey))
    {
      var ok := Validate(signer);
      if !ok {
        return Reverted(BadSignature);
      }
      aggKey := newKey;
      return Done(true);
    }

    method RuleSetAggKeyWithGovKey(sender: Address, newKey: Key) returns (r: Outcome)
      modifies this
      ensures r == Verdict(old(State()), SetAggKeyWithGovKey(sender, newKey))
      ensures State() == Step(old(State()), SetAggKeyWithGovKey(sender, newKey))
    {
      if now - lastValidateTime < AGG_KEY_TIMEOUT {
        return Reverted(KeyDelay);
      } else if sender != governor {
        return Reverted(NotGovernor);
      }
      aggKey := newKey;
      return Done(false);
    }

    method RuleSetGovKeyWithAggKey(signer: Key, newGovernor: Address) returns (r: Outcome)
      modifies this
      ensures r == Verdict(old(State()), SetGovKeyWithAggKey(signer, newGovernor))
      ensures State() == Step(old(State()), SetGovKeyWithAggKey(signer, newGovernor))
    {
      var ok := Validate(signer);
      if !ok {
        return Reverted(BadSignature);
      }
      governor := newGovernor;
      return Done(true);
    }

    method RuleSetGovKeyWithGovKey(sender: Address, newGovernor: Address) returns (r: Outcome)
      modifies this
      ensures r == Verdict(old(State()), SetGovKeyWithGovKey(sender, newGovernor))
      ensures State() == Step(old(State()), SetGovKeyWithGovKey(sender, newGovernor))
    {
      if sender != governor {
        return Reverted(NotGovernor);
      }
      governor := newGovernor;
      return Done(false);
    }

    method RuleSetCommKeyWithAggKey(signer: Key, newCommunity: Address) returns (r: Outcome)
      modifies this
      ensures r == Verdict(old(State()), SetCommKeyWithAggKey(signer, newCommunity))
      ensures State() == Step(old(State()), SetCommKeyWithAggKey(signer, newCommunity))
    {
      var ok := Validate(signer);
      if !ok {
        return Reverted(BadSignature);
      }
      communityKey := newCommunity;
      return Done(true);
    }

    method RuleSetCommKeyWithCommKey(sender: Address, newCommunity: Address) returns (r: Outcome)
      modifies this
      ensures r == Verdict(old(State()), SetCommKeyWithCommKey(sender, newCommunity))
      ensures State() == Step(old(State()), SetCommKeyWithCommKey(sender, newCommunity))
    {
      if sender != communityKey {
        return Reverted(NotCommunity);
      }
      communityKey := newCommunity;
      return Done(false);
    }

    method RuleConsumeKeyNonce(signer: Key) returns (r: Outcome)
      modifies this
      ensures r == Verdict(old(State()), ConsumeKeyNonce(signer))
      ensures State() == Step(old(State()), ConsumeKeyNonce(signer))
    {
      var ok := Validate(signer);
      return if ok then Done(true) else Reverted(BadSignature);
    }

    method CallGovAction(sender: Address) returns (r: Outcome)
      ensures r == Verdict(State(), GovAction(sender)) && State() == Step(State(), GovAction(sender))
    {
      return if sender == governor then Done(false) else Reverted(NotGovernor);
    }

    // A wrong sender is refused first; then the governor calls.
    method RuleGovAction(sender: Address) returns (refused: Outcome, r: Outcome)
      ensures refused == if sender != governor then Reverted(NotGovernor) else Skipped
      ensures r == Done(false)
    {
      refused := Skipped;
      if sender != governor {
        refused := CallGovAction(sender);
      }
      r := CallGovAction(governor);
    }

    /** Runs any rule. */
    method RunRule(op: KeyOp) returns (r: Outcome)
      modifies this
      ensures r == Verdict(old(State()), op) && State() == Step(old(State()), op)
    {
      match op
      case SetAggKeyWithAggKey(signer, newKey) => r := RuleSetAggKeyWithAggKey(signer, newKey);
      case SetAggKeyWithGovKey(sender, newKey) => r := RuleSetAggKeyWithGovKey(sender, newKey);
      case SetGovKeyWithAggKey(signer, newGovernor) => r := RuleSetGovKeyWithAggKey(signer, newGovernor);
      case SetGovKeyWithGovKey(sender, newGovernor) => r := RuleSetGovKeyWithGovKey(sender, newGovernor);
      case SetCommKeyWithAggKey(signer, newCommunity) => r := RuleSetCommKeyWithAggKey(signer, newCommunity);
      case SetCommKeyWithCommKey(sender, newCommunity) => r := RuleSetCommKeyWithCommKey(sender, newCommunity);
      case ConsumeKeyNonce(signer) => r := RuleConsumeKeyNonce(signer);
      case GovAction(sender) => r := CallGovAction(sender);
    }

    method RuleSleep(seconds: nat)
      modifies this`now
      ensures State() == old(State()).(now := old(now) + seconds)
    {
      now := now + seconds;
    }

    // A newly deployed KeyManager takes over with the same three keys and no validated signature.
    method Replace()
      modifies this`lastValidateTime
      ensures State() == old(State()).(lastValidateTime := 0)
    {
      lastValidateTime := 0;
    }
  }
}
