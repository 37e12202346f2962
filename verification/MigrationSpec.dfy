// The FLIP migration of scripts/snapshot_and_airdrop.py as a protocol over repeated runs. A run reads the chain's
// own events, works out what is still owed, and performs atomic actions (transactions and log lines); it may die
// before any of them and be started again. The MultiSend contract is contracts/mocks/MultiSend.sol.
module MigrationSpec {
  import opened Books
  import opened Common
  import opened SnapshotEvents
  import opened SnapshotFile

  const E_18: int := 1_000_000_000_000_000_000
  const INIT_SUPPLY: int := 90_000_000 * E_18
  const AIRDROP_CUTOFF: int := 1000 * E_18
  const VERIFY_CUTOFF: int := 6000 * E_18
  const BATCH_SIZE: nat := 200

  datatype Payment = Payment(to: Account, amount: int)
  datatype Event = Event(from: Account, to: Account, amount: int)

  /** What one migration is about: the accounts involved, the genesis mint to the new gateway, and the snapshot. The
      zero address is a field so that proofs need not look into it. */
  datatype Config = Config(airdropper: Account, newGateway: Account, multiSend: Account, zero: Account,
                           known: OldContracts, minted: nat, snapshot: Snapshot)

  predicate ValidConfig(c: Config) {
    && |c.snapshot.accounts| == |c.snapshot.balances|
    && Distinct(c.snapshot.accounts)
    && c.snapshot.totalSupply == Total(c.snapshot.balances)
    && Accepted(c.known, c.snapshot).Read?
    && Distinct([c.airdropper, c.newGateway, c.multiSend, c.zero])
    && c.multiSend !in c.snapshot.accounts && c.zero !in c.snapshot.accounts
    && c.minted <= INIT_SUPPLY
  }

  // ---- Payments ----

  function Owed(ps: seq<Payment>): int {
    if ps == [] then 0 else ps[0].amount + Owed(ps[1..])
  }

  /** What the payments give to one account. */
  function Received(ps: seq<Payment>, a: Account): int {
    if ps == [] then 0 else (if ps[0].to == a then ps[0].amount else 0) + Received(ps[1..], a)
  }

  function Receivers(ps: seq<Payment>): set<Account> {
    if ps == [] then {} else {ps[0].to} + Receivers(ps[1..])
  }

  lemma {:induction false} Joined(ps: seq<Payment>, qs: seq<Payment>, a: Account)
    ensures Owed(ps + qs) == Owed(ps) + Owed(qs)
    ensures Received(ps + qs, a) == Received(ps, a) + Received(qs, a)
  {
    if ps == [] {
      assert ps + qs == qs;
    } else {
      assert (ps + qs)[1..] == ps[1..] + qs;
      Joined(ps[1..], qs, a);
    }
  }

  /** The accounts that are never airdropped to. */
  function Base(c: Config): set<Account> {
    {c.airdropper, c.newGateway, c.known.gateway, c.known.deployer}
  }

  /** The transfers still to send to holders from index i on, given the accounts to skip. */
  function ToSend(c: Config, skip: set<Account>, i: nat): seq<Payment>
    requires |c.snapshot.accounts| == |c.snapshot.balances| && i <= |c.snapshot.accounts|
    decreases |c.snapshot.accounts| - i
  {
    if i == |c.snapshot.accounts| then []
    else
      (if c.snapshot.accounts[i] !in skip && c.snapshot.balances[i] >= AIRDROP_CUTOFF
       then [Payment(c.snapshot.accounts[i], c.snapshot.balances[i])] else [])
      + ToSend(c, skip, i + 1)
  }

  /** Everything the migration owes: every holder at or above the cutoff outside the base skip list. */
  function Due(c: Config): seq<Payment>
    requires ValidConfig(c)
  {
    ToSend(c, Base(c), 0)
  }

  predicate Eligible(c: Config, i: nat)
    requires ValidConfig(c) && i < |c.snapshot.accounts|
  {
    c.snapshot.accounts[i] !in Base(c) && c.snapshot.balances[i] >= AIRDROP_CUTOFF
  }

  lemma {:induction false} ToSendDependsOnRest(c: Config, skip: set<Account>, skip': set<Account>, i: nat)
    requires ValidConfig(c) && i <= |c.snapshot.accounts|
    requires forall j | i <= j < |c.snapshot.accounts| ::
               c.snapshot.accounts[j] in skip <==> c.snapshot.accounts[j] in skip'
    ensures ToSend(c, skip, i) == ToSend(c, skip', i)
    decreases |c.snapshot.accounts| - i
  {
    if i == |c.snapshot.accounts| {
    } else {
      ToSendDependsOnRest(c, skip, skip', i + 1);
    }
  }

  lemma AlsoSkippingOneself(c: Config, skip: set<Account>, i: nat)
    requires ValidConfig(c) && i < |c.snapshot.accounts|
    ensures ToSend(c, {c.snapshot.accounts[i]} + skip, i) == ToSend(c, skip, i + 1)
  {
    ToSendDependsOnRest(c, {c.snapshot.accounts[i]} + skip, skip, i + 1);
  }

  lemma ResumeAfterFirst(c: Config, skip: set<Account>, i: nat, k: nat)
    requires ValidConfig(c) && i < |c.snapshot.accounts| && 0 < k <= |ToSend(c, skip, i)|
    requires c.snapshot.accounts[i] !in skip && c.snapshot.balances[i] >= AIRDROP_CUTOFF
    ensures var all, rest := ToSend(c, skip, i), ToSend(c, skip, i + 1);
            && |rest| == |all| - 1 && all[k..] == rest[k - 1..]
            && ToSend(c, skip + Receivers(all[..k]), i) == ToSend(c, skip + Receivers(rest[..k - 1]), i + 1)
  {
    var all, rest := ToSend(c, skip, i), ToSend(c, skip, i + 1);
    assert all[1..] == rest;
    assert all[..k][1..] == rest[..k - 1];
    AlsoSkippingOneself(c, skip + Receivers(rest[..k - 1]), i);
    assert skip + Receivers(all[..k]) == {c.snapshot.accounts[i]} + (skip + Receivers(rest[..k - 1]));
  }

  // A run that finds the first k payments made on chain sends exactly the others.
  lemma {:induction false} Resume(c: Config, skip: set<Account>, i: nat, k: nat)
    requires ValidConfig(c) && i <= |c.snapshot.accounts| && k <= |ToSend(c, skip, i)|
    ensures ToSend(c, skip + Receivers(ToSend(c, skip, i)[..k]), i) == ToSend(c, skip, i)[k..]
    decreases |c.snapshot.accounts| - i
  {
    var all := ToSend(c, skip, i);
    if k == 0 {
      assert all[..0] == [] && skip + {} == skip;
    } else if c.snapshot.accounts[i] !in skip && c.snapshot.balances[i] >= AIRDROP_CUTOFF {
      ResumeAfterFirst(c, skip, i, k);
      Resume(c, skip, i + 1, k - 1);
    } else {
      assert all == ToSend(c, skip, i + 1);
      Resume(c, skip, i + 1, k);
    }
  }

  // What is owed goes to snapshot holders outside the skip list, from position i on, and is never zero.
  lemma {:induction false} Owes(c: Config, skip: set<Account>, i: nat, p: Payment)
    requires ValidConfig(c) && i <= |c.snapshot.accounts|
    ensures p in ToSend(c, skip, i)
       <==> exists j | i <= j < |c.snapshot.accounts| ::
              && p == Payment(c.snapshot.accounts[j], c.snapshot.balances[j])
              && p.to !in skip && p.amount >= AIRDROP_CUTOFF
    decreases |c.snapshot.accounts| - i
  {
    if i == |c.snapshot.accounts| {
    } else {
      Owes(c, skip, i + 1, p);
    }
  }

  // Nobody is owed twice, and what a holder gets is its snapshot balance.
  lemma {:induction false} OwesOnce(c: Config, skip: set<Account>, i: nat, j: nat)
    requires ValidConfig(c) && i <= |c.snapshot.accounts| && j < |c.snapshot.accounts|
    ensures Received(ToSend(c, skip, i), c.snapshot.accounts[j])
         == if i <= j && c.snapshot.accounts[j] !in skip && c.snapshot.balances[j] >= AIRDROP_CUTOFF
            then c.snapshot.balances[j] else 0
    decreases |c.snapshot.accounts| - i
  {
    if i == |c.snapshot.accounts| {
    } else {
      OwesOnce(c, skip, i + 1, j);
      var rest := ToSend(c, skip, i + 1);
      assert ([Payment(c.snapshot.accounts[i], c.snapshot.balances[i])] + rest)[1..] == rest;
      assert [] + rest == rest;
    }
  }

  // ---- The chain ----

  datatype World = World(bal: Book<Account>, supply: int, allowance: int, events: seq<Event>,
                         gatewayLogged: bool, finished: bool)

  /** The new token after its two genesis mints. */
  function Genesis(c: Config): World {
    World(map[c.newGateway := c.minted, c.airdropper := INIT_SUPPLY - c.minted], INIT_SUPPLY, 0,
          [Event(c.zero, c.newGateway, c.minted), Event(c.zero, c.airdropper, INIT_SUPPLY - c.minted)], false, false)
  }

  function Transferred(w: World, from: Account, to: Account, amount: int): World {
    w.(bal := Move(w.bal, from, to, amount), events := w.events + [Event(from, to, amount)])
  }

  /** The transfers of a batch, one by one; each needs its funds. */
  function PayOut(c: Config, w: World, batch: seq<Payment>): Option<World>
    decreases |batch|
  {
    if batch == [] then Some(w)
    else if At(w.bal, c.multiSend) < batch[0].amount then None
    else PayOut(c, Transferred(w, c.multiSend, batch[0].to, batch[0].amount), batch[1..])
  }

  /** multiSendToken: pull the total, pay each receiver, and insist that nothing is left over or missing. */
  function MultiSend(c: Config, w: World, batch: seq<Payment>, total: int): Option<World> {
    if w.allowance < total || At(w.bal, c.airdropper) < total then None
    else
      var pulled := Transferred(w, c.airdropper, c.multiSend, total).(allowance := w.allowance - total);
      match PayOut(c, pulled, batch)
      case None => None
      case Some(paid) => if At(paid.bal, c.multiSend) == At(w.bal, c.multiSend) then Some(paid) else None
  }

  function Outgoing(c: Config, batch: seq<Payment>): seq<Event> {
    if batch == [] then [] else [Event(c.multiSend, batch[0].to, batch[0].amount)] + Outgoing(c, batch[1..])
  }

  predicate Payable(c: Config, batch: seq<Payment>) {
    forall i | 0 <= i < |batch| :: batch[i].amount >= 0 && batch[i].to != c.multiSend
  }

  lemma {:induction false} OwedIsNonNegative(c: Config, batch: seq<Payment>)
    requires Payable(c, batch)
    ensures Owed(batch) >= 0 && Received(batch, c.multiSend) == 0
  {
    if batch == [] {
    } else {
      OwedIsNonNegative(c, batch[1..]);
    }
  }

  lemma {:induction false} PayOutEffect(c: Config, w: World, batch: seq<Payment>)
    requires Payable(c, batch) && At(w.bal, c.multiSend) >= 0
    ensures PayOut(c, w, batch).Some? <==> At(w.bal, c.multiSend) >= Owed(batch)
    ensures PayOut(c, w, batch).Some? ==>
              var paid := PayOut(c, w, batch).value;
              && paid == w.(bal := paid.bal, events := w.events + Outgoing(c, batch))
              && forall a ::
                   At(paid.bal, a)
                   == At(w.bal, a) - (if a == c.multiSend then Owed(batch) else 0) + Received(batch, a)
    decreases |batch|
  {
    if batch == [] {
      assert w.events + [] == w.events;
    } else if At(w.bal, c.multiSend) >= batch[0].amount {
      PayOutEffect(c, Transferred(w, c.multiSend, batch[0].to, batch[0].amount), batch[1..]);
      assert w.events + Outgoing(c, batch)
          == (w.events + [Event(c.multiSend, batch[0].to, batch[0].amount)]) + Outgoing(c, batch[1..]);
    } else {
      OwedIsNonNegative(c, batch[1..]);
    }
  }

  // A batch goes through exactly when it is approved, funded and its stated total is the sum of its transfers; it
  // then pays every receiver from the airdropper's balance and leaves nothing in the contract.
  lemma MultiSendEffect(c: Config, w: World, batch: seq<Payment>, total: int)
    requires c.airdropper != c.multiSend && Payable(c, batch) && At(w.bal, c.multiSend) >= 0 && total >= 0
    ensures MultiSend(c, w, batch, total).Some?
       <==> total <= w.allowance && total <= At(w.bal, c.airdropper) && total == Owed(batch)
    ensures MultiSend(c, w, batch, total).Some? ==>
              var paid := MultiSend(c, w, batch, total).value;
              && paid == w.(bal := paid.bal, allowance := w.allowance - total,
                            events := w.events + [Event(c.airdropper, c.multiSend, total)] + Outgoing(c, batch))
              && forall a ::
                   At(paid.bal, a) == At(w.bal, a) - (if a == c.airdropper then total else 0) + Received(batch, a)
  {
    OwedIsNonNegative(c, batch);
    if total <= w.allowance && total <= At(w.bal, c.airdropper) {
      PayOutEffect(c, Transferred(w, c.airdropper, c.multiSend, total).(allowance := w.allowance - total), batch);
    }
  }

  // ---- Reading the chain ----

  datatype Kind = TopUp | Airdrop | Mint | Other

  /** How a run classifies a Transfer event; the first matching case wins. */
  function KindOf(c: Config, e: Event): Kind {
    if e.from == c.airdropper && e.to == c.newGateway then TopUp
    else if e.from == c.multiSend then Airdrop
    else if e.from == c.zero then Mint
    else Other
  }

  function Of(c: Config, kind: Kind, events: seq<Event>): seq<Payment> {
    if events == [] then []
    else
      (if KindOf(c, events[0]) == kind then [Payment(events[0].to, events[0].amount)] else [])
      + Of(c, kind, events[1..])
  }

  lemma {:induction false} OfJoined(c: Config, kind: Kind, events: seq<Event>, more: seq<Event>)
    ensures Of(c, kind, events + more) == Of(c, kind, events) + Of(c, kind, more)
  {
    if events == [] {
      assert events + more == more;
    } else {
      assert (events + more)[1..] == events[1..] + more;
      OfJoined(c, kind, events[1..], more);
    }
  }

  lemma OfAppended(c: Config, kind: Kind, events: seq<Event>, e: Event)
    ensures Of(c, kind, events + [e])
         == Of(c, kind, events) + if KindOf(c, e) == kind then [Payment(e.to, e.amount)] else []
  {
    OfJoined(c, kind, events, [e]);
    assert [e][1..] == [];
  }

  lemma {:induction false} OfOutgoing(c: Config, kind: Kind, batch: seq<Payment>)
    requires c.airdropper != c.multiSend
    ensures Of(c, kind, Outgoing(c, batch)) == if kind == Airdrop then batch else []
  {
    if batch == [] {
    } else {
      OfOutgoing(c, kind, batch[1..]);
      assert Outgoing(c, batch)[1..] == Outgoing(c, batch[1..]);
    }
  }
}
