// Whose signatures a KeyManager accepts: exactly those of the key installed last, for the consumer that refers to it,
// with a nonce not accepted before.
module SigningAuthority {
  import opened Common
  import opened Protocol
  import opened Signing

  /** The aggregate key of a KeyManager after some events: the one it was deployed with or rotated to last. */
  function InstalledKey(c: Chain, events: seq<Event>, km: nat): Option<Key> {
    if events == [] then
      if km in c.keyManagers then Some(c.keyManagers[km].aggKey) else None
    else
      var before := InstalledKey(c, events[..|events| - 1], km);
      match events[|events| - 1]
      case Deploy(keyManager, key) => if keyManager == km && before.None? then Some(key) else before
      case Rotate(keyManager, key) => if keyManager == km && before.Some? then Some(key) else before
      case _ => before
  }

  /** The KeyManager a consumer was pointed at last. */
  function ReferenceOf(c: Chain, events: seq<Event>, consumer: nat): Option<nat> {
    if events == [] then
      if consumer in c.references then Some(c.references[consumer]) else None
    else
      match events[|events| - 1]
      case Repoint(who, keyManager) =>
        if who == consumer then Some(keyManager) else ReferenceOf(c, events[..|events| - 1], consumer)
      case _ => ReferenceOf(c, events[..|events| - 1], consumer)
  }

  lemma {:induction false} KeyIsInstalled(c: Chain, events: seq<Event>, km: nat)
    ensures InstalledKey(c, events, km)
         == var kms := Run(c, events).keyManagers; if km in kms then Some(kms[km].aggKey) else None
  {
    if events == [] {
    } else {
      KeyIsInstalled(c, events[..|events| - 1], km);
    }
  }

  lemma {:induction false} ReferenceIsLast(c: Chain, events: seq<Event>, consumer: nat)
    ensures ReferenceOf(c, events, consumer)
         == var refs := Run(c, events).references; if consumer in refs then Some(refs[consumer]) else None
    ensures Run(c, events).chainId == c.chainId
  {
    if events == [] {
    } else {
      ReferenceIsLast(c, events[..|events| - 1], consumer);
    }
  }

  /** An accepted call has used the nonce at this KeyManager. */
  predicate NonceIn(log: seq<Acceptance>, km: nat, nonce: nat) {
    exists i | 0 <= i < |log| :: log[i].keyManager == km && log[i].sigData.nonce == nonce
  }

  lemma NonceInAppended(log: seq<Acceptance>, a: Acceptance, km: nat, nonce: nat)
    ensures NonceIn(log + [a], km, nonce)
       <==> NonceIn(log, km, nonce) || (a.keyManager == km && a.sigData.nonce == nonce)
  {
    if i :| 0 <= i < |log| && log[i].keyManager == km && log[i].sigData.nonce == nonce {
      assert (log + [a])[i] == log[i];
    }
    assert (log + [a])[|log|] == a;
  }

  /** The nonce was used at this KeyManager before the events, or by a call accepted since. */
  predicate UsedBy(c: Chain, log: seq<Acceptance>, km: nat, nonce: nat) {
    (km in c.keyManagers && nonce in c.keyManagers[km].used) || NonceIn(log, km, nonce)
  }

  /** What the chain has accepted since. */
  function Since(c: Chain, events: seq<Event>): seq<Acceptance>
    requires c.log <= Run(c, events).log
  {
    Run(c, events).log[|c.log|..]
  }

  lemma {:induction false} LogGrows(c: Chain, events: seq<Event>)
    ensures c.log <= Run(c, events).log
  {
    if events == [] {
    } else {
      LogGrows(c, events[..|events| - 1]);
    }
  }

  /** The KeyManager and the sender of a call, once references are resolved. */
  function Target(c: Chain, events: seq<Event>, e: Event): Option<nat> {
    match e
    case Attempt(consumer, _, _) => ReferenceOf(c, events, consumer)
    case DirectAttempt(_, keyManager, _, _) => Some(keyManager)
    case _ => None
  }

  function Sender(e: Event): nat
    requires e.Attempt? || e.DirectAttempt?
  {
    match e
    case Attempt(consumer, _, _) => consumer
    case DirectAttempt(sender, _, _, _) => sender
  }

  /** The installed key signed exactly this call for its sender, this chain and the KeyManager it goes to, with a nonce
      that was not used there. */
  predicate Authorised(c: Chain, events: seq<Event>, e: Event)
    requires c.log <= Run(c, events).log
  {
    && Target(c, events, e).Some?
    && var km := Target(c, events, e).value;
       && InstalledKey(c, events, km) == Some(e.sigData.sig.key)
       && e.sigData.sig.message == Message(e.call, e.sigData.nonce, Sender(e), c.chainId, km)
       && !UsedBy(c, Since(c, events), km, e.sigData.nonce)
  }

  lemma ConsumeLogs(c: Chain, keyManager: nat, sender: nat, call: ContractCall, sigData: SigData, km: nat, nonce: nat)
    ensures var after := Consume(c, keyManager, sender, call, sigData);
            var accepted := Check(c, keyManager, sender, call, sigData) == Accepted;
            && after.log == c.log + (if accepted then [Acceptance(keyManager, sender, call, sigData)] else [])
            && (km in after.keyManagers <==> km in c.keyManagers)
            && (km in c.keyManagers ==>
                  (nonce in after.keyManagers[km].used
                   <==> nonce in c.keyManagers[km].used || (accepted && km == keyManager && nonce == sigData.nonce)))
  {
  }

  ghost predicate NonceTracked(c: Chain, r: Chain, log: seq<Acceptance>, km: nat, nonce: nat) {
    if km in r.keyManagers then nonce in r.keyManagers[km].used <==> UsedBy(c, log, km, nonce)
    else !UsedBy(c, log, km, nonce)
  }

  lemma ConsumeTracks(c: Chain, r: Chain, log: seq<Acceptance>, keyManager: nat, sender: nat, call: ContractCall,
                      sigData: SigData, km: nat, nonce: nat)
    requires NonceTracked(c, r, log, km, nonce) && (km in c.keyManagers ==> km in r.keyManagers)
    ensures var after := Consume(r, keyManager, sender, call, sigData);
            && r.log <= after.log && (km in r.keyManagers <==> km in after.keyManagers)
            && NonceTracked(c, after, log + after.log[|r.log|..], km, nonce)
  {
    var after, a := Consume(r, keyManager, sender, call, sigData), Acceptance(keyManager, sender, call, sigData);
    ConsumeLogs(r, keyManager, sender, call, sigData, km, nonce);
    NonceInAppended(log, a, km, nonce);
    assert log + [] == log;
    assert after.log[|r.log|..] == if Check(r, keyManager, sender, call, sigData) == Accepted then [a] else [];
  }

  // An event that consumes nothing leaves the log and all used nonces alone.
  lemma OtherTracks(c: Chain, r: Chain, log: seq<Acceptance>, e: Event, km: nat, nonce: nat)
    requires NonceTracked(c, r, log, km, nonce) && (km in c.keyManagers ==> km in r.keyManagers)
    requires !e.DirectAttempt? && (e.Attempt? ==> e.consumer !in r.references)
    ensures Step(r, e).log == r.log && (km in r.keyManagers ==> km in Step(r, e).keyManagers)
    ensures NonceTracked(c, Step(r, e), log, km, nonce)
  {
  }

  lemma StepTracks(c: Chain, r: Chain, log: seq<Acceptance>, e: Event, km: nat, nonce: nat)
    requires NonceTracked(c, r, log, km, nonce) && (km in c.keyManagers ==> km in r.keyManagers)
    ensures r.log <= Step(r, e).log && (km in r.keyManagers ==> km in Step(r, e).keyManagers)
    ensures NonceTracked(c, Step(r, e), log + Step(r, e).log[|r.log|..], km, nonce)
  {
    if e.DirectAttempt? {
      ConsumeTracks(c, r, log, e.keyManager, e.sender, e.call, e.sigData, km, nonce);
    } else if e.Attempt? && e.consumer in r.references {
      ConsumeTracks(c, r, log, r.references[e.consumer], e.consumer, e.call, e.sigData, km, nonce);
    } else {
      OtherTracks(c, r, log, e, km, nonce);
      assert log + Step(r, e).log[|r.log|..] == log;
    }
  }

  lemma {:induction false} NonceIsUsedExactlyIf(c: Chain, events: seq<Event>, km: nat, nonce: nat)
    ensures c.log <= Run(c, events).log && (km in c.keyManagers ==> km in Run(c, events).keyManagers)
    ensures NonceTracked(c, Run(c, events), Since(c, events), km, nonce)
  {
    LogGrows(c, events);
    if events == [] {
      assert Since(c, events) == [];
    } else {
      var before, e := events[..|events| - 1], events[|events| - 1];
      NonceIsUsedExactlyIf(c, before, km, nonce);
      StepTracks(c, Run(c, before), Since(c, before), e, km, nonce);
      assert Since(c, events) == Since(c, before) + Step(Run(c, before), e).log[|Run(c, before).log|..];
    }
  }

  // A call is accepted exactly if it is authorised, after any events, in any order; and nothing else is.
  lemma AcceptedExactlyIfAuthorised(c: Chain, events: seq<Event>, e: Event)
    ensures c.log <= Run(c, events).log
    ensures Run(c, events + [e]).log
         == Run(c, events).log
            + if !Authorised(c, events, e) then []
              else [Acceptance(Target(c, events, e).value, Sender(e), e.call, e.sigData)]
  {
    var r := Run(c, events);
    LogGrows(c, events);
    assert (events + [e])[..|events|] == events;
    assert r.log + [] == r.log;
    if e.Attempt? {
      ReferenceIsLast(c, events, e.consumer);
    }
    if Target(c, events, e).Some? {
      var km := Target(c, events, e).value;
      ReferenceIsLast(c, events, 0);
      KeyIsInstalled(c, events, km);
      NonceIsUsedExactlyIf(c, events, km, e.sigData.nonce);
    }
  }

  // Every acceptance was made at an event before which its own signature's key was the one installed.
  lemma {:induction false} SignedByTheInstalledKey(c: Chain, events: seq<Event>, i: nat) returns (n: nat)
    requires |c.log| <= i < |Run(c, events).log|
    ensures n < |events| && |Run(c, events[..n]).log| == i && |Run(c, events[..n + 1]).log| == i + 1
    ensures var a := Run(c, events).log[i]; InstalledKey(c, events[..n], a.keyManager) == Some(a.sigData.sig.key)
  {
    var before, e := events[..|events| - 1], events[|events| - 1];
    assert before + [e] == events;
    AcceptedExactlyIfAuthorised(c, before, e);
    if i < |Run(c, before).log| {
      n := SignedByTheInstalledKey(c, before, i);
      assert events[..n] == before[..n] && events[..n + 1] == before[..n + 1];
    } else {
      n := |before|;
      assert events[..n + 1] == events;
    }
  }

  /** The event installs this key at this KeyManager. */
  predicate Installs(e: Event, km: nat, key: Key) {
    (e.Deploy? || e.Rotate?) && e.keyManager == km && e.aggKey == key
  }

  lemma {:induction false} StaysAway(c: Chain, events: seq<Event>, k: nat, km: nat, key: Key)
    requires k <= |events| && InstalledKey(c, events[..k], km) != Some(key)
    requires forall j | k <= j < |events| :: !Installs(events[j], km, key)
    ensures InstalledKey(c, events, km) != Some(key)
  {
    if k == |events| {
      assert events[..k] == events;
    } else {
      var before := events[..|events| - 1];
      assert before[..k] == events[..k];
      StaysAway(c, before, k, km, key);
    }
  }

  lemma {:induction false} LogLengthGrows(c: Chain, events: seq<Event>, m: nat, n: nat)
    requires m <= n <= |events|
    ensures |Run(c, events[..m]).log| <= |Run(c, events[..n]).log|
  {
    if m == n {
    } else {
      LogLengthGrows(c, events, m, n - 1);
      assert events[..n][..n - 1] == events[..n - 1];
    }
  }

  // Once another key is installed, the old key's signatures are refused until it is installed again.
  lemma OldKeyIsRefused(c: Chain, events: seq<Event>, k: nat, km: nat, key: Key, i: nat)
    requires k <= |events| && InstalledKey(c, events[..k], km) != Some(key)
    requires forall j | k <= j < |events| :: !Installs(events[j], km, key)
    requires |c.log| <= |Run(c, events[..k]).log| <= i < |Run(c, events).log|
    ensures var a := Run(c, events).log[i]; !(a.keyManager == km && a.sigData.sig.key == key)
  {
    var n := SignedByTheInstalledKey(c, events, i);
    if n < k {
      LogLengthGrows(c, events, n + 1, k);
    } else {
      assert events[..n][..k] == events[..k];
      StaysAway(c, events[..n], k, km, key);
    }
  }
}
