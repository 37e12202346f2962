// The two loops of `snapshot` in scripts/snapshot_and_airdrop.py: fetching the Transfer events page by page,
// and folding them into holder balances.
module SnapshotEvents {
  import opened Books

  type Account = string

  const ZERO_ADDR: Account := "0x0000000000000000000000000000000000000000"
  const STEP: int := 10000

  datatype Transfer = Transfer(block: int, from: Account, to: Account, value: nat)

  // ---- Paging ----

  /** A chain's event log is ordered by block. */
  predicate Ordered(chain: seq<Transfer>) {
    |chain| <= 1 || (chain[0].block <= chain[1].block && Ordered(chain[1..]))
  }

  /** What a node returns for an inclusive range of blocks; nothing for an empty range. */
  function Between(chain: seq<Transfer>, from: int, to: int): seq<Transfer> {
    if chain == [] then []
    else if from <= chain[0].block <= to then [chain[0]] + Between(chain[1..], from, to)
    else Between(chain[1..], from, to)
  }

  lemma {:induction false} BetweenNothing(chain: seq<Transfer>, from: int, to: int)
    requires Ordered(chain) && (to < from || (chain != [] ==> to < chain[0].block))
    ensures Between(chain, from, to) == []
  {
    if chain == [] {
    } else {
      BetweenNothing(chain[1..], from, to);
    }
  }

  lemma {:induction false} BetweenLater(chain: seq<Transfer>, from: int, mid: int, to: int)
    requires Ordered(chain) && from <= mid + 1 && (chain != [] ==> mid < chain[0].block)
    ensures Between(chain, from, to) == Between(chain, mid + 1, to)
  {
    if chain == [] {
    } else {
      BetweenLater(chain[1..], from, mid, to);
    }
  }

  lemma {:induction false} BetweenAdjacent(chain: seq<Transfer>, from: int, mid: int, to: int)
    requires Ordered(chain) && from <= mid + 1 && mid <= to
    ensures Between(chain, from, mid) + Between(chain, mid + 1, to) == Between(chain, from, to)
  {
    if chain == [] {
    } else if mid < chain[0].block {
      BetweenNothing(chain, from, mid);
      BetweenLater(chain, from, mid, to);
    } else {
      var rest := chain[1..];
      BetweenAdjacent(rest, from, mid, to);
      assert ([chain[0]] + Between(rest, from, mid)) + Between(rest, mid + 1, to)
          == [chain[0]] + (Between(rest, from, mid) + Between(rest, mid + 1, to));
    }
  }

  datatype Page = Page(from: int, to: int)

  /** Pages follow each other without gap or overlap. */
  predicate Contiguous(pages: seq<Page>) {
    forall i | 0 < i < |pages| :: pages[i].from == pages[i - 1].to + 1
  }

  function Distance(nextBlock: int, snapshotBlock: int): nat {
    if nextBlock > snapshotBlock then nextBlock - snapshotBlock else snapshotBlock - nextBlock
  }

  function Following(nextBlock: int, snapshotBlock: int): int {
    if nextBlock + STEP > snapshotBlock then snapshotBlock else nextBlock + STEP
  }

  /** The pages the loop fetches from here on. */
  function Pages(fromBlock: int, nextBlock: int, snapshotBlock: int): seq<Page>
    decreases Distance(nextBlock, snapshotBlock)
  {
    [Page(fromBlock, nextBlock)]
    + if nextBlock == snapshotBlock then []
      else Pages(nextBlock + 1, Following(nextBlock, snapshotBlock), snapshotBlock)
  }

  function Fetched(chain: seq<Transfer>, pages: seq<Page>): seq<Transfer> {
    if pages == [] then [] else Between(chain, pages[0].from, pages[0].to) + Fetched(chain, pages[1..])
  }

  // The first page, and then the others.
  lemma FetchedFirst(chain: seq<Transfer>, fromBlock: int, nextBlock: int, snapshotBlock: int)
    ensures Fetched(chain, Pages(fromBlock, nextBlock, snapshotBlock))
         == Between(chain, fromBlock, nextBlock)
            + if nextBlock == snapshotBlock then []
              else Fetched(chain, Pages(nextBlock + 1, Following(nextBlock, snapshotBlock), snapshotBlock))
  {
    var rest := if nextBlock == snapshotBlock then []
                else Pages(nextBlock + 1, Following(nextBlock, snapshotBlock), snapshotBlock);
    assert ([Page(fromBlock, nextBlock)] + rest)[1..] == rest;
  }

  method FetchEvents(chain: seq<Transfer>, deploymentBlock: int, snapshotBlock: int) returns (events: seq<Transfer>)
    ensures events == Fetched(chain, Pages(deploymentBlock, deploymentBlock + STEP, snapshotBlock))
  {
    var nextBlock, fromBlock := deploymentBlock + STEP, deploymentBlock;
    events := [];
    ghost var all := Fetched(chain, Pages(fromBlock, nextBlock, snapshotBlock));
    ghost var ahead := all;
    while true
      invariant ahead == Fetched(chain, Pages(fromBlock, nextBlock, snapshotBlock))
      invariant all == events + ahead
      decreases Distance(nextBlock, snapshotBlock)
    {
      var newEvents := Between(chain, fromBlock, nextBlock);
      ghost var later := if nextBlock == snapshotBlock then []
                         else Fetched(chain, Pages(nextBlock + 1, Following(nextBlock, snapshotBlock), snapshotBlock));
      FetchedFirst(chain, fromBlock, nextBlock, snapshotBlock);
      assert events + (newEvents + later) == (events + newEvents) + later;
      events, ahead := events + newEvents, later;
      if nextBlock == snapshotBlock {
        break;
      }
      fromBlock := nextBlock + 1;
      nextBlock := nextBlock + STEP;
      if nextBlock > snapshotBlock {
        nextBlock := snapshotBlock;
      }
    }
  }

  // The pages follow each other from the first block to the snapshot block; none is empty unless the first one
  // already overshoots the snapshot.
  lemma {:induction false} PagesTile(fromBlock: int, nextBlock: int, snapshotBlock: int)
    requires fromBlock <= nextBlock
    ensures var pages := Pages(fromBlock, nextBlock, snapshotBlock);
            && pages[0].from == fromBlock && pages[|pages| - 1].to == snapshotBlock
            && Contiguous(pages)
            && (nextBlock <= snapshotBlock ==> forall i | 0 <= i < |pages| :: pages[i].from <= pages[i].to)
    decreases Distance(nextBlock, snapshotBlock)
  {
    if nextBlock > snapshotBlock {
      assert Pages(nextBlock + 1, snapshotBlock, snapshotBlock) == [Page(nextBlock + 1, snapshotBlock)];
    } else if nextBlock < snapshotBlock {
      PagesTile(nextBlock + 1, Following(nextBlock, snapshotBlock), snapshotBlock);
    }
  }

  // Together they fetch every event exactly once, from the first block up to the snapshot block or to the end of
  // the first page, whichever is later.
  lemma {:induction false} PagesFetch(chain: seq<Transfer>, fromBlock: int, nextBlock: int, snapshotBlock: int)
    requires Ordered(chain) && fromBlock <= nextBlock
    ensures Fetched(chain, Pages(fromBlock, nextBlock, snapshotBlock))
         == Between(chain, fromBlock, if nextBlock > snapshotBlock then nextBlock else snapshotBlock)
    decreases Distance(nextBlock, snapshotBlock)
  {
    FetchedFirst(chain, fromBlock, nextBlock, snapshotBlock);
    if nextBlock > snapshotBlock {
      FetchedFirst(chain, nextBlock + 1, snapshotBlock, snapshotBlock);
      BetweenNothing(chain, nextBlock + 1, snapshotBlock);
    } else if nextBlock < snapshotBlock {
      PagesFetch(chain, nextBlock + 1, Following(nextBlock, snapshotBlock), snapshotBlock);
      BetweenAdjacent(chain, fromBlock, nextBlock, snapshotBlock);
    }
  }

  // The fetched events are those up to the snapshot block, on every chain, exactly when the snapshot block lies
  // at least one step past the deployment; otherwise the first page overshoots it.
  lemma FetchIsExactAfterOneStep(deploymentBlock: int, snapshotBlock: int)
    ensures (forall chain | Ordered(chain) ::
               Fetched(chain, Pages(deploymentBlock, deploymentBlock + STEP, snapshotBlock))
               == Between(chain, deploymentBlock, snapshotBlock))
            <==> deploymentBlock + STEP <= snapshotBlock
  {
    var pages := Pages(deploymentBlock, deploymentBlock + STEP, snapshotBlock);
    if deploymentBlock + STEP <= snapshotBlock {
      forall chain | Ordered(chain) ensures Fetched(chain, pages) == Between(chain, deploymentBlock, snapshotBlock) {
        PagesFetch(chain, deploymentBlock, deploymentBlock + STEP, snapshotBlock);
      }
    } else {
      var late := [Transfer(deploymentBlock + STEP, ZERO_ADDR, "0x1", 1)];
      PagesFetch(late, deploymentBlock, deploymentBlock + STEP, snapshotBlock);
      assert late[1..] == [];
      assert Between(late, deploymentBlock, deploymentBlock + STEP) == late;
      assert Between(late, deploymentBlock, snapshotBlock) == [];
    }
  }

  // ---- Folding ----

  function Posted(b: Book<Account>, e: Transfer): Book<Account> {
    var debited := if e.from == ZERO_ADDR then b else b[e.from := At(b, e.from) - e.value];
    if e.to == ZERO_ADDR then debited else debited[e.to := At(debited, e.to) + e.value]
  }

  /** The ERC-20 (EIP-20) ledger: mints come from the zero address and burns go to it; neither is a balance. */
  function Ledger(events: seq<Transfer>): Book<Account> {
    if events == [] then map[]
    else Posted(Ledger(events[..|events| - 1]), events[|events| - 1])
  }

  lemma {:induction false} ZeroHoldsNothing(events: seq<Transfer>)
    ensures ZERO_ADDR !in Ledger(events)
  {
    if events == [] {
    } else {
      ZeroHoldsNothing(events[..|events| - 1]);
    }
  }

  function Supply(events: seq<Transfer>): int {
    if events == [] then 0
    else
      var e := events[|events| - 1];
      Supply(events[..|events| - 1])
      + (if e.from == ZERO_ADDR then e.value else 0) - (if e.to == ZERO_ADDR then e.value else 0)
  }

  /** A token contract emits a transfer only when the sender can cover it. */
  predicate Covered(events: seq<Transfer>, i: nat)
    requires i < |events|
  {
    events[i].from != ZERO_ADDR ==> events[i].value <= At(Ledger(events[..i]), events[i].from)
  }

  predicate ValidLog(events: seq<Transfer>) {
    forall i | 0 <= i < |events| :: Covered(events, i)
  }

  /** Exactly the positive balances of the ledger. */
  ghost predicate PositivePart(holders: map<Account, int>, ledger: Book<Account>) {
    forall a :: (a in holders <==> At(ledger, a) > 0) && (a in holders ==> holders[a] == At(ledger, a))
  }

  datatype FoldResult = Folded(holders: map<Account, int>, totalBalance: int) | KeyMissing | AssertFailed

  lemma PostedIsSound(b: Book<Account>, e: Transfer)
    requires NonNegative(b) && (e.from != ZERO_ADDR ==> e.value <= At(b, e.from))
    ensures NonNegative(Posted(b, e))
    ensures Sum(Posted(b, e))
            == Sum(b) + (if e.from == ZERO_ADDR then e.value else 0) - (if e.to == ZERO_ADDR then e.value else 0)
  {
    var debited := if e.from == ZERO_ADDR then b else b[e.from := At(b, e.from) - e.value];
    SumPut(b, e.from, At(b, e.from) - e.value);
    SumPut(debited, e.to, At(debited, e.to) + e.value);
    forall a ensures At(Posted(b, e), a) >= 0 {
      assert At(b, a) >= 0;
    }
  }

  lemma {:induction false} LedgerIsSound(events: seq<Transfer>)
    requires ValidLog(events)
    ensures NonNegative(Ledger(events)) && Sum(Ledger(events)) == Supply(events)
  {
    if events == [] {
    } else {
      var n := |events| - 1;
      var before, e := events[..n], events[n];
      forall i | 0 <= i < n ensures Covered(before, i) {
        assert Covered(events, i) && before[..i] == events[..i];
      }
      LedgerIsSound(before);
      assert Covered(events, n);
      PostedIsSound(Ledger(before), e);
    }
  }

  // One more event: the log stays valid exactly when the new event is covered.
  lemma ValidExtends(events: seq<Transfer>, i: nat)
    requires i < |events| && ValidLog(events[..i])
    ensures ValidLog(events[..i + 1]) <==> Covered(events, i)
    ensures !Covered(events, i) ==> !ValidLog(events)
  {
    var longer := events[..i + 1];
    forall j | 0 <= j < i ensures Covered(longer, j) {
      assert Covered(events[..i], j) && events[..i][..j] == longer[..j];
    }
    assert longer[..i] == events[..i];
    assert Covered(longer, i) <==> Covered(events, i);
  }

  function Credit(r: FoldResult, e: Transfer): FoldResult
    requires r.Folded?
  {
    if e.to == ZERO_ADDR then r.(totalBalance := r.totalBalance - e.value)
    else if At(r.holders, e.to) + e.value <= 0 then AssertFailed
    else r.(holders := r.holders[e.to := At(r.holders, e.to) + e.value])
  }

  /** One turn of the fold's loop. */
  function Turn(r: FoldResult, e: Transfer): FoldResult
    requires r.Folded?
  {
    if e.value == 0 then r
    else if e.from == ZERO_ADDR then Credit(r.(totalBalance := r.totalBalance + e.value), e)
    else if e.from !in r.holders then KeyMissing
    else
      var left := r.holders[e.from] - e.value;
      if left < 0 then AssertFailed
      else
        var debited := r.holders[e.from := left];
        Credit(r.(holders := if left == 0 then debited - {e.from} else debited), e)
  }

  // A turn fails exactly on an uncovered event, and otherwise posts the event to the ledger.
  lemma TurnPosts(r: FoldResult, ledger: Book<Account>, e: Transfer)
    requires r.Folded? && NonNegative(ledger) && PositivePart(r.holders, ledger)
    ensures Turn(r, e).Folded? <==> (e.from != ZERO_ADDR ==> e.value <= At(ledger, e.from))
    ensures Turn(r, e).Folded? ==>
              PositivePart(Turn(r, e).holders, Posted(ledger, e))
              && Turn(r, e).totalBalance
                 == r.totalBalance
                    + (if e.from == ZERO_ADDR then e.value else 0) - (if e.to == ZERO_ADDR then e.value else 0)
  {
    assert At(ledger, e.from) >= 0 && At(ledger, e.to) >= 0;
  }

  /** What the loop has established after the first i events. */
  ghost predicate FoldedSoFar(r: FoldResult, events: seq<Transfer>, i: nat)
    requires i <= |events|
  {
    && r.Folded?
    && ValidLog(events[..i])
    && PositivePart(r.holders, Ledger(events[..i]))
    && r.totalBalance == Supply(events[..i])
  }

  lemma TurnKeeps(r: FoldResult, events: seq<Transfer>, i: nat)
    requires i < |events| && FoldedSoFar(r, events, i)
    ensures Turn(r, events[i]).Folded? ==> FoldedSoFar(Turn(r, events[i]), events, i + 1)
    ensures !Turn(r, events[i]).Folded? ==> !ValidLog(events)
  {
    LedgerIsSound(events[..i]);
    TurnPosts(r, Ledger(events[..i]), events[i]);
    ValidExtends(events, i);
    assert events[..i + 1][..i] == events[..i];
  }

  lemma PositivePartHasAll(holders: map<Account, int>, ledger: Book<Account>)
    requires PositivePart(holders, ledger) && NonNegative(ledger)
    ensures Sum(holders) == Sum(ledger)
  {
    forall a ensures At(holders, a) == At(ledger, a) {
      assert At(ledger, a) >= 0;
    }
    SumAgree(holders, ledger);
  }

  lemma FoldIsSound(r: FoldResult, events: seq<Transfer>)
    requires FoldedSoFar(r, events, |events|)
    ensures ValidLog(events) && PositivePart(r.holders, Ledger(events))
    ensures r.totalBalance == Supply(events) == Sum(r.holders)
  {
    assert events[..|events|] == events;
    LedgerIsSound(events);
    PositivePartHasAll(r.holders, Ledger(events));
  }

  /** The body of the fold's loop. */
  method ProcessEvent(holders0: map<Account, int>, totalBalance0: int, e: Transfer) returns (r: FoldResult)
    ensures r == Turn(Folded(holders0, totalBalance0), e)
  {
    var holders, totalBalance := holders0, totalBalance0;
    if e.value == 0 {
      return Folded(holders, totalBalance);
    }
    if e.from != ZERO_ADDR {
      if e.from !in holders {
        return KeyMissing;
      }
      holders := holders[e.from := holders[e.from] - e.value];
      if holders[e.from] < 0 {
        return AssertFailed;
      }
      if holders[e.from] == 0 {
        holders := holders - {e.from};
      }
    } else {
      totalBalance := totalBalance + e.value;
    }
    if e.to != ZERO_ADDR {
      holders := holders[e.to := (if e.to in holders then holders[e.to] else 0) + e.value];
      if !(holders[e.to] > 0) {
        return AssertFailed;
      }
    } else {
      totalBalance := totalBalance - e.value;
    }
    return Folded(holders, totalBalance);
  }

  // The fold never hits a missing key or a failing assertion exactly on the logs a token contract can emit, and
  // then it yields the ledger restricted to its positive balances, and the total supply.
  method Fold(events: seq<Transfer>) returns (r: FoldResult)
    ensures r.Folded? <==> ValidLog(events)
    ensures r.Folded? ==> PositivePart(r.holders, Ledger(events)) && r.totalBalance == Supply(events) == Sum(r.holders)
  {
    r := Folded(map[], 0);
    for i := 0 to |events|
      invariant FoldedSoFar(r, events, i)
    {
      TurnKeeps(r, events, i);
      r := ProcessEvent(r.holders, r.totalBalance, events[i]);
      if !r.Folded? {
        return;
      }
    }
    FoldIsSound(r, events);
  }
}
