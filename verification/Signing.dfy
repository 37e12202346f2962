// Signed calls and their nonces (tests/crypto.py, tests/consts.py): what a signature binds, the counter all
// signers share, and the KeyManagers' check that a nonce is used once.
module Signing {
  import opened Protocol

  /** A function selector with its arguments: the preimage of the contract message hash. */
  datatype ContractCall = ContractCall(selector: nat, args: seq<nat>)

  /** The preimage of the signed message hash. Hashing is injective, so the preimages stand for the hashes. */
  datatype Message = Message(call: ContractCall, nonce: nat, consumer: nat, chainId: nat, keyManager: nat)

  /** A signature verifies for the key and message it was made for and no other. */
  datatype Signature = Signature(key: Key, message: Message)

  datatype SigData = SigData(sig: Signature, nonce: nat)

  // ---- Signers ----

  /** The dictionary `nonces`, passed by reference to every signer. */
  class Nonces {
    var agg: nat

    // Skips the nonces a deployed KeyManager has already seen.
    method SyncNonce(used: set<nat>) returns (synced: nat)
      modifies this
      ensures synced == agg >= old(agg) && synced !in used
      ensures forall n | old(agg) <= n < synced :: n in used
    {
      while agg in used
        invariant old(agg) <= agg && forall n | old(agg) <= n < agg :: n in used
        decreases set n | n in used && agg <= n
      {
        ghost var left := set n | n in used && agg <= n;
        agg := agg + 1;
        assert (set n | n in used && agg <= n) == left - {agg - 1};
      }
      synced := agg;
    }
  }

  function SignAs(r: Request, nonce: nat): SigData {
    SigData(Signature(r.key, Message(r.call, nonce, r.consumer, r.chainId, r.keyManager)), nonce)
  }

  class Signer {
    const key: Key
    const nonces: Nonces

    constructor (key: Key, nonces: Nonces)
      ensures this.key == key && this.nonces == nonces
    {
      this.key, this.nonces := key, nonces;
    }

    method GenerateSigData(message: Message) returns (sigData: SigData)
      modifies nonces
      ensures sigData == SigData(Signature(key, message), old(nonces.agg))
      ensures nonces.agg == old(nonces.agg) + 1
    {
      sigData := SigData(Signature(key, message), nonces.agg);
      nonces.agg := nonces.agg + 1;
    }

    method GetSigData(request: Request) returns (sigData: SigData)
      requires request.key == key
      modifies nonces
      ensures sigData == SignAs(request, old(nonces.agg)) && nonces.agg == old(nonces.agg) + 1
    {
      var message := Message(request.call, nonces.agg, request.consumer, request.chainId, request.keyManager);
      sigData := GenerateSigData(message);
    }
  }

  /** One call to be signed: by which key, for which function, consumer, chain and KeyManager. */
  datatype Request = Request(key: Key, call: ContractCall, consumer: nat, chainId: nat, keyManager: nat)

  /** Signing requests one after the other, by any signers, with the shared counter at `start`. */
  method SignAll(signers: map<Key, Signer>, nonces: Nonces, requests: seq<Request>) returns (sigs: seq<SigData>)
    requires forall i | 0 <= i < |requests| ::
               requests[i].key in signers && signers[requests[i].key].key == requests[i].key
               && signers[requests[i].key].nonces == nonces
    modifies nonces
    ensures |sigs| == |requests| && forall i | 0 <= i < |sigs| :: sigs[i] == SignAs(requests[i], old(nonces.agg) + i)
    ensures forall i, j | 0 <= i < j < |sigs| :: sigs[i].nonce != sigs[j].nonce
  {
    sigs := [];
    for i := 0 to |requests|
      invariant |sigs| == i && nonces.agg == old(nonces.agg) + i
      invariant forall j | 0 <= j < i :: sigs[j] == SignAs(requests[j], old(nonces.agg) + j)
    {
      var sigData := signers[requests[i].key].GetSigData(requests[i]);
      sigs := sigs + [sigData];
    }
  }

  // ---- KeyManagers and the contracts that consume their nonces ----

  datatype KeyContract = KeyContract(aggKey: Key, used: set<nat>)

  datatype Acceptance = Acceptance(keyManager: nat, consumer: nat, call: ContractCall, sigData: SigData)

  /** Deployed KeyManagers, the KeyManager each consumer refers to, and the accepted calls so far. */
  datatype Chain =
    Chain(chainId: nat, keyManagers: map<nat, KeyContract>, references: map<nat, nat>, log: seq<Acceptance>)

  datatype Event =
    | Attempt(consumer: nat, call: ContractCall, sigData: SigData)
    | DirectAttempt(sender: nat, keyManager: nat, call: ContractCall, sigData: SigData)
    | Deploy(keyManager: nat, aggKey: Key)
    | Rotate(keyManager: nat, aggKey: Key)
    | Repoint(consumer: nat, keyManager: nat)

  datatype Verdict = Accepted | SigInvalid | NonceUsed

  /** The check `sender` meets at a KeyManager: the signature first, then the nonce. */
  function Check(c: Chain, keyManager: nat, sender: nat, call: ContractCall, sigData: SigData): Verdict {
    if keyManager !in c.keyManagers then SigInvalid
    else
      var contract := c.keyManagers[keyManager];
      var message := Message(call, sigData.nonce, sender, c.chainId, keyManager);
      if sigData.sig != Signature(contract.aggKey, message) then SigInvalid
      else if sigData.nonce in contract.used then NonceUsed
      else Accepted
  }

  function Consume(c: Chain, keyManager: nat, sender: nat, call: ContractCall, sigData: SigData): Chain {
    if Check(c, keyManager, sender, call, sigData) != Accepted then c
    else
      var contract := c.keyManagers[keyManager];
      c.(keyManagers := c.keyManagers[keyManager := contract.(used := contract.used + {sigData.nonce})],
         log := c.log + [Acceptance(keyManager, sender, call, sigData)])
  }

  function Step(c: Chain, e: Event): Chain {
    match e
    case Attempt(consumer, call, sigData) =>
      if consumer in c.references then Consume(c, c.references[consumer], consumer, call, sigData) else c
    case DirectAttempt(sender, keyManager, call, sigData) => Consume(c, keyManager, sender, call, sigData)
    case Deploy(keyManager, aggKey) =>
      if keyManager in c.keyManagers then c
      else c.(keyManagers := c.keyManagers[keyManager := KeyContract(aggKey, {})])
    case Rotate(keyManager, aggKey) =>
      if keyManager !in c.keyManagers then c
      else c.(keyManagers := c.keyManagers[keyManager := c.keyManagers[keyManager].(aggKey := aggKey)])
    case Repoint(consumer, keyManager) => c.(references := c.references[consumer := keyManager])
  }

  function Run(c: Chain, events: seq<Event>): Chain {
    if events == [] then c else Step(Run(c, events[..|events| - 1]), events[|events| - 1])
  }

  /** The acceptance was for exactly what the signature binds. */
  predicate Bound(c: Chain, a: Acceptance) {
    a.sigData.sig.message == Message(a.call, a.sigData.nonce, a.consumer, c.chainId, a.keyManager)
  }

  ghost predicate Inv(c: Chain) {
    && (forall i | 0 <= i < |c.log| ::
          Bound(c, c.log[i]) && c.log[i].keyManager in c.keyManagers
          && c.log[i].sigData.nonce in c.keyManagers[c.log[i].keyManager].used)
    && (forall i, j | 0 <= i < j < |c.log| ::
          c.log[i].keyManager != c.log[j].keyManager || c.log[i].sigData.nonce != c.log[j].sigData.nonce)
  }

  lemma ConsumeKeeps(c: Chain, keyManager: nat, sender: nat, call: ContractCall, sigData: SigData)
    requires Inv(c)
    ensures Inv(Consume(c, keyManager, sender, call, sigData))
  {
  }

  lemma StepKeeps(c: Chain, e: Event)
    requires Inv(c)
    ensures Inv(Step(c, e)) && Step(c, e).chainId == c.chainId
  {
    match e
    case Attempt(consumer, call, sigData) =>
      if consumer in c.references {
        ConsumeKeeps(c, c.references[consumer], consumer, call, sigData);
      }
    case DirectAttempt(sender, keyManager, call, sigData) => ConsumeKeeps(c, keyManager, sender, call, sigData);
    case _ =>
  }

  lemma {:induction false} RunKeeps(c: Chain, events: seq<Event>)
    requires Inv(c)
    ensures Inv(Run(c, events)) && Run(c, events).chainId == c.chainId
  {
    if events == [] {
    } else {
      RunKeeps(c, events[..|events| - 1]);
      StepKeeps(Run(c, events[..|events| - 1]), events[|events| - 1]);
    }
  }

  // Whatever is attempted, duplicated, reordered, deployed, rotated or repointed: a signature is accepted at
  // most once, and only for its own selector, arguments, nonce, consumer, chain and KeyManager.
  lemma EachSignatureExecutesAtMostOnce(c: Chain, events: seq<Event>, i: nat, j: nat)
    requires Inv(c) && i < |Run(c, events).log| && j < |Run(c, events).log|
    ensures var log := Run(c, events).log;
            && log[i].sigData.sig.message
               == Message(log[i].call, log[i].sigData.nonce, log[i].consumer, c.chainId, log[i].keyManager)
            && (log[i].sigData.sig == log[j].sigData.sig ==> i == j)
  {
    RunKeeps(c, events);
    var e := Run(c, events);
    assert Bound(e, e.log[i]) && Bound(e, e.log[j]);
  }

  // So it is on every chain that starts with nothing accepted, with whatever KeyManagers and consumers.
  lemma NothingExecutesTwiceFromAFreshChain(c: Chain, events: seq<Event>, i: nat, j: nat)
    requires c.log == [] && i < j < |Run(c, events).log|
    ensures Run(c, events).log[i].sigData.sig != Run(c, events).log[j].sigData.sig
  {
    assert Inv(c);
    EachSignatureExecutesAtMostOnce(c, events, i, j);
  }

  // ---- Honest calls do not get in each other's way ----

  /** The attempt carries a signature by the current key for the consumer's current KeyManager and this chain. */
  predicate Proper(c: Chain, e: Event) {
    && e.Attempt? && e.consumer in c.references && c.references[e.consumer] in c.keyManagers
    && var km := c.references[e.consumer];
       e.sigData.sig == Signature(c.keyManagers[km].aggKey, Message(e.call, e.sigData.nonce, e.consumer, c.chainId, km))
  }

  /** The attempt presents nonce `n` to KeyManager `km`. */
  predicate Presents(c: Chain, e: Event, km: nat, n: nat) {
    e.Attempt? && e.consumer in c.references && c.references[e.consumer] == km && e.sigData.nonce == n
  }

  // Proper attempts leave keys and references alone, and use up exactly the nonces they present.
  lemma {:induction false} ProperRun(c: Chain, events: seq<Event>, km: nat, n: nat)
    requires forall i | 0 <= i < |events| :: Proper(c, events[i])
    requires km in c.keyManagers
    ensures var r := Run(c, events);
            && r.chainId == c.chainId && r.references == c.references && r.keyManagers.Keys == c.keyManagers.Keys
            && r.keyManagers[km].aggKey == c.keyManagers[km].aggKey
            && (n in r.keyManagers[km].used
                <==> n in c.keyManagers[km].used || exists i | 0 <= i < |events| :: Presents(c, events[i], km, n))
  {
    if events == [] {
    } else {
      var shorter, e := events[..|events| - 1], events[|events| - 1];
      ProperRun(c, shorter, km, n);
      assert Proper(c, e);
      ProperRun(c, shorter, c.references[e.consumer], e.sigData.nonce);
      assert (exists i | 0 <= i < |events| :: Presents(c, events[i], km, n))
             <==> (exists i | 0 <= i < |shorter| :: Presents(c, shorter[i], km, n)) || Presents(c, e, km, n) by {
        if i :| 0 <= i < |shorter| && Presents(c, shorter[i], km, n) {
          assert Presents(c, events[i], km, n);
        }
        if i :| 0 <= i < |events| && Presents(c, events[i], km, n) && i < |shorter| {
          assert Presents(c, shorter[i], km, n);
        }
      }
    }
  }

  // Attempts signed with distinct fresh nonces are each accepted at their first delivery, whatever the order,
  // and refused as used at every later one.
  lemma FirstDeliveryIsAccepted(c: Chain, events: seq<Event>, e: Event)
    requires forall i | 0 <= i < |events| :: Proper(c, events[i])
    requires Proper(c, e) && e.sigData.nonce !in c.keyManagers[c.references[e.consumer]].used
    requires forall i | 0 <= i < |events| && Presents(c, events[i], c.references[e.consumer], e.sigData.nonce) ::
               events[i] == e
    ensures Check(Run(c, events), c.references[e.consumer], e.consumer, e.call, e.sigData)
            == if e in events then NonceUsed else Accepted
  {
    var km := c.references[e.consumer];
    ProperRun(c, events, km, e.sigData.nonce);
    if e in events {
      var i :| 0 <= i < |events| && events[i] == e;
      assert Presents(c, events[i], km, e.sigData.nonce);
    }
  }

  // ---- Every schedule of one batch of signatures executes each request once ----

  /** The chain serves a request: its consumer is wired to the KeyManager the request was signed for, whose current
      key signed it, and the nonce is not used there. */
  predicate Serves(c: Chain, r: Request, nonce: nat) {
    && r.consumer in c.references && c.references[r.consumer] == r.keyManager
    && r.keyManager in c.keyManagers && c.keyManagers[r.keyManager].aggKey == r.key
    && r.chainId == c.chainId
    && nonce !in c.keyManagers[r.keyManager].used
  }

  predicate ServesAll(c: Chain, requests: seq<Request>, start: nat) {
    forall i | 0 <= i < |requests| :: Serves(c, requests[i], start + i)
  }

  /** The delivery of request `i` of those that `SignAll` signed with the counter at `start`. */
  function Delivery(requests: seq<Request>, start: nat, i: nat): Event
    requires i < |requests|
  {
    Attempt(requests[i].consumer, requests[i].call, SignAs(requests[i], start + i))
  }

  function AcceptanceOf(requests: seq<Request>, start: nat, i: nat): Acceptance
    requires i < |requests|
  {
    Acceptance(requests[i].keyManager, requests[i].consumer, requests[i].call, SignAs(requests[i], start + i))
  }

  predicate Schedules(schedule: seq<nat>, requests: seq<Request>) {
    forall i | 0 <= i < |schedule| :: schedule[i] < |requests|
  }

  function Deliveries(requests: seq<Request>, start: nat, schedule: seq<nat>): (events: seq<Event>)
    requires Schedules(schedule, requests)
    ensures |events| == |schedule|
    ensures forall i | 0 <= i < |events| :: events[i] == Delivery(requests, start, schedule[i])
  {
    if schedule == [] then []
    else
      var n := |schedule| - 1;
      Deliveries(requests, start, schedule[..n]) + [Delivery(requests, start, schedule[n])]
  }

  /** One acceptance for each delivered request, at its first delivery. */
  function FirstAcceptances(requests: seq<Request>, start: nat, schedule: seq<nat>): seq<Acceptance>
    requires Schedules(schedule, requests)
  {
    if schedule == [] then []
    else
      var before, d := schedule[..|schedule| - 1], schedule[|schedule| - 1];
      FirstAcceptances(requests, start, before) + if d in before then [] else [AcceptanceOf(requests, start, d)]
  }

  // The acceptances are those of the requests that the schedule delivers,
  lemma {:induction false} AcceptedIfDelivered(requests: seq<Request>, start: nat, schedule: seq<nat>, i: nat)
    requires Schedules(schedule, requests) && i < |requests|
    ensures AcceptanceOf(requests, start, i) in FirstAcceptances(requests, start, schedule) <==> i in schedule
  {
    if schedule == [] {
    } else {
      var before, d := schedule[..|schedule| - 1], schedule[|schedule| - 1];
      AcceptedIfDelivered(requests, start, before, i);
      assert schedule == before + [d];
      assert AcceptanceOf(requests, start, d) == AcceptanceOf(requests, start, i) ==> d == i;
    }
  }

  lemma {:induction false} AcceptancesAreOfRequests(requests: seq<Request>, start: nat, schedule: seq<nat>, p: nat)
    requires Schedules(schedule, requests) && p < |FirstAcceptances(requests, start, schedule)|
    ensures var a := FirstAcceptances(requests, start, schedule)[p];
            start <= a.sigData.nonce < start + |requests| && a == AcceptanceOf(requests, start, a.sigData.nonce - start)
  {
    if schedule == [] {
    } else {
      var before := schedule[..|schedule| - 1];
      if p < |FirstAcceptances(requests, start, before)| {
        AcceptancesAreOfRequests(requests, start, before, p);
      }
    }
  }

  // and no two of them are of the same request.
  lemma {:induction false} AcceptancesDiffer(requests: seq<Request>, start: nat, schedule: seq<nat>, p: nat, q: nat)
    requires Schedules(schedule, requests) && p < q < |FirstAcceptances(requests, start, schedule)|
    ensures var log := FirstAcceptances(requests, start, schedule); log[p] != log[q]
  {
    var before, d := schedule[..|schedule| - 1], schedule[|schedule| - 1];
    var earlier := FirstAcceptances(requests, start, before);
    if q < |earlier| {
      AcceptancesDiffer(requests, start, before, p, q);
    } else {
      AcceptedIfDelivered(requests, start, before, d);
      assert earlier[p] in earlier;
    }
  }

  lemma DeliveriesAreProper(c: Chain, requests: seq<Request>, start: nat, schedule: seq<nat>)
    requires ServesAll(c, requests, start) && Schedules(schedule, requests)
    ensures forall i | 0 <= i < |schedule| :: Proper(c, Deliveries(requests, start, schedule)[i])
  {
    forall i | 0 <= i < |schedule| ensures Proper(c, Deliveries(requests, start, schedule)[i]) {
      assert Serves(c, requests[schedule[i]], start + schedule[i]);
    }
  }

  // One more delivery is accepted if it is the first one of its request, and refused otherwise.
  lemma NextDelivery(c: Chain, requests: seq<Request>, start: nat, before: seq<nat>, d: nat)
    requires ServesAll(c, requests, start) && Schedules(before, requests) && d < |requests|
    ensures var r := requests[d];
            Check(Run(c, Deliveries(requests, start, before)), r.keyManager, r.consumer, r.call, SignAs(r, start + d))
            == if d in before then NonceUsed else Accepted
  {
    var events, e := Deliveries(requests, start, before), Delivery(requests, start, d);
    DeliveriesAreProper(c, requests, start, before);
    assert Serves(c, requests[d], start + d);
    if d in before {
      var i :| 0 <= i < |before| && before[i] == d;
      assert events[i] == e;
    }
    FirstDeliveryIsAccepted(c, events, e);
  }

  lemma AfterDelivery(c: Chain, requests: seq<Request>, start: nat, before: seq<nat>, d: nat)
    requires ServesAll(c, requests, start) && Schedules(before, requests) && d < |requests|
    ensures var events := Deliveries(requests, start, before);
            Run(c, events + [Delivery(requests, start, d)]).log
            == Run(c, events).log + if d in before then [] else [AcceptanceOf(requests, start, d)]
  {
    var events := Deliveries(requests, start, before);
    NextDelivery(c, requests, start, before, d);
    DeliveriesAreProper(c, requests, start, before);
    assert Serves(c, requests[d], start + d);
    ProperRun(c, events, requests[d].keyManager, start + d);
    assert (events + [Delivery(requests, start, d)])[..|events|] == events;
  }

  lemma LogsJoin(log: seq<Acceptance>, accepted: seq<Acceptance>, more: seq<Acceptance>)
    ensures (log + accepted) + more == log + (accepted + more)
  {
  }

  // Requests of any signers, signed with one run of the shared counter and delivered in any order and any number of
  // times: the chain accepts each delivered request once, at its first delivery, and nothing else.
  lemma {:induction false} EachRequestExecutesOnce(c: Chain, requests: seq<Request>, start: nat, schedule: seq<nat>)
    requires ServesAll(c, requests, start) && Schedules(schedule, requests)
    ensures Run(c, Deliveries(requests, start, schedule)).log == c.log + FirstAcceptances(requests, start, schedule)
  {
    if schedule == [] {
      assert c.log + [] == c.log;
    } else {
      var before, d := schedule[..|schedule| - 1], schedule[|schedule| - 1];
      EachRequestExecutesOnce(c, requests, start, before);
      AfterDelivery(c, requests, start, before, d);
      LogsJoin(c.log, FirstAcceptances(requests, start, before),
               if d in before then [] else [AcceptanceOf(requests, start, d)]);
    }
  }
}
