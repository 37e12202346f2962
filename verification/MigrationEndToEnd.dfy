// From the old token's chain to the new token's balances: pages, fold, snapshot file, runs and verifier together.
module MigrationEndToEnd {
  import opened Books
  import opened Common
  import opened SnapshotEvents
  import opened SnapshotFile
  import opened MigrationSpec
  import opened MigrationRuns
  import opened MigrationSafety
  import opened MigrationMachine
  import opened MigrationVerifier
  import opened MigrationProgress

  /** The columns a snapshot of this log writes, and the configuration of a migration that reads them back. */
  ghost predicate SnapshotOf(log: seq<Transfer>, accounts: seq<Account>, balances: seq<nat>, c: Config) {
    && ValidLog(log)
    && (exists holders :: PositivePart(holders, Ledger(log)) && Lists(accounts, balances, holders))
    && NoColons(accounts)
    && c.snapshot == Snapshot(accounts, balances, Total(balances))
    && ReadFile(c.known, Written(accounts, balances, Total(balances))) == Read(c.snapshot)
  }

  /** The accounts of the migration are different, and the MultiSend contract held none of the old token. */
  predicate SoundAccounts(log: seq<Transfer>, c: Config) {
    && Distinct([c.airdropper, c.newGateway, c.multiSend, c.zero]) && c.zero == ZERO_ADDR
    && c.minted <= INIT_SUPPLY && At(Ledger(log), c.multiSend) == 0
  }

  lemma ColumnsMatchLedger(log: seq<Transfer>, accounts: seq<Account>, balances: seq<nat>, holders: map<Account, int>)
    requires ValidLog(log) && PositivePart(holders, Ledger(log)) && Lists(accounts, balances, holders)
    ensures Total(balances) == Supply(log)
    ensures forall j | 0 <= j < |accounts| :: At(Ledger(log), accounts[j]) == balances[j] > 0
    ensures forall a :: At(Ledger(log), a) > 0 <==> a in accounts
  {
    LedgerIsSound(log);
    PositivePartHasAll(holders, Ledger(log));
    ListTotal(accounts, balances, holders);
    forall a ensures At(Ledger(log), a) > 0 <==> a in accounts {
      assert a in holders <==> a in accounts;
    }
    assert forall j | 0 <= j < |accounts| :: accounts[j] in holders;
  }

  lemma ReadIsAccepted(known: OldContracts, rows: seq<Row>, s: Snapshot)
    requires ReadFile(known, rows) == Read(s)
    ensures Accepted(known, s) == Read(s)
  {
  }

  // The total that the snapshot checks against the old token's supply is that supply, and what it writes can be
  // migrated.
  lemma SnapshotIsMigratable(log: seq<Transfer>, accounts: seq<Account>, balances: seq<nat>, c: Config)
    requires SnapshotOf(log, accounts, balances, c) && SoundAccounts(log, c)
    ensures ValidConfig(c) && c.snapshot.totalSupply == Supply(log)
    ensures forall j | 0 <= j < |accounts| :: At(Ledger(log), accounts[j]) == balances[j] > 0
    ensures forall a :: At(Ledger(log), a) > 0 <==> a in accounts
  {
    var holders :| PositivePart(holders, Ledger(log)) && Lists(accounts, balances, holders);
    ColumnsMatchLedger(log, accounts, balances, holders);
    ZeroHoldsNothing(log);
    ReadIsAccepted(c.known, Written(accounts, balances, Total(balances)), c.snapshot);
  }

  // For every log of the old token, every snapshot of it and every sequence of runs that finished, wherever they
  // died: each account outside the base skip list has on the new token what it had on the old one if that is at
  // least the cutoff, and nothing otherwise.
  lemma MigrationCarriesBalancesOver(log: seq<Transfer>, accounts: seq<Account>, balances: seq<nat>, c: Config,
                                     budgets: seq<nat>, a: Account)
    requires SnapshotOf(log, accounts, balances, c) && SoundAccounts(log, c)
    requires a !in Base(c)
    ensures ValidConfig(c)
    ensures After(c, budgets).finished ==>
              At(After(c, budgets).bal, a)
              == if At(Ledger(log), a) >= AIRDROP_CUTOFF then At(Ledger(log), a) else 0
  {
    SnapshotIsMigratable(log, accounts, balances, c);
    if a in accounts {
      var j :| 0 <= j < |accounts| && accounts[j] == a;
      HoldersGetTheirBalances(c, budgets, j);
    } else {
      OutsidersGetNothing(c, budgets, a);
    }
  }

  // ---- The whole script ----

  datatype Report = NoSnapshot | BadSnapshot(failure: Failure) | Migrated(finished: bool, verified: bool)

  /** The old token's log up to the snapshot block. */
  function OldLog(chain: seq<Transfer>, deploymentBlock: int, snapshotBlock: int): seq<Transfer> {
    Between(chain, deploymentBlock, snapshotBlock)
  }

  method TakeSnapshot(chain: seq<Transfer>, deploymentBlock: int, snapshotBlock: int)
    returns (taken: bool, accounts: seq<Account>, balances: seq<nat>, rows: seq<Row>)
    requires Ordered(chain) && deploymentBlock + STEP <= snapshotBlock
    ensures var log := OldLog(chain, deploymentBlock, snapshotBlock);
            && (taken <==> ValidLog(log))
            && (taken ==>
                  && (exists holders :: PositivePart(holders, Ledger(log)) && Lists(accounts, balances, holders))
                  && Descending(balances) && rows == Written(accounts, balances, Total(balances)))
  {
    accounts, balances, rows := [], [], [];
    var events := FetchEvents(chain, deploymentBlock, snapshotBlock);
    PagesFetch(chain, deploymentBlock, deploymentBlock + STEP, snapshotBlock);
    var folded := Fold(events);
    taken := folded.Folded?;
    if taken {
      assert forall a | a in folded.holders :: folded.holders[a] > 0;
      accounts, balances := SortHolders(folded.holders);
      ListTotal(accounts, balances, folded.holders);
      rows := Written(accounts, balances, folded.totalBalance);
    }
  }

  method RunAll(config: Config, budgets: seq<nat>) returns (m: Migration)
    requires ValidConfig(config)
    ensures fresh(m) && m.c == config && m.Valid() && m.State() == After(config, budgets)
  {
    m := new Migration(config);
    assert budgets[..0] == [];
    for i := 0 to |budgets|
      invariant fresh(m) && m.c == config && m.Valid() && m.State() == After(config, budgets[..i])
    {
      assert budgets[..i + 1][..i] == budgets[..i];
      var outcome := m.RunAirdrop(budgets[i]);
    }
    assert budgets[..|budgets|] == budgets;
  }

  lemma ReadGivesColumns(known: OldContracts, accounts: seq<Account>, balances: seq<nat>, rows: seq<Row>, s: Snapshot)
    requires |accounts| == |balances| && NoColons(accounts) && rows == Written(accounts, balances, Total(balances))
    requires ReadFile(known, rows) == Read(s)
    ensures s == Snapshot(accounts, balances, Total(balances))
  {
    WrittenReads(known, accounts, balances, rows);
  }

  lemma ReadsBack(log: seq<Transfer>, accounts: seq<Account>, balances: seq<nat>, c: Config)
    requires ValidLog(log) && forall a | At(Ledger(log), a) > 0 :: ':' !in a
    requires exists holders :: PositivePart(holders, Ledger(log)) && Lists(accounts, balances, holders)
    requires ReadFile(c.known, Written(accounts, balances, Total(balances))) == Read(c.snapshot)
    ensures SnapshotOf(log, accounts, balances, c)
  {
    var holders :| PositivePart(holders, Ledger(log)) && Lists(accounts, balances, holders);
    ColumnsMatchLedger(log, accounts, balances, holders);
    assert NoColons(accounts);
    ReadGivesColumns(c.known, accounts, balances, Written(accounts, balances, Total(balances)), c.snapshot);
  }

  /** The two known contracts hold more than anybody else, and the first more than the second. */
  ghost predicate KnownHoldMost(known: OldContracts, ledger: Book<Account>) {
    && At(ledger, known.deployer) > At(ledger, known.gateway) > 0
    && forall a | a !in {known.deployer, known.gateway} :: At(ledger, known.gateway) > At(ledger, a)
  }

  /** Nobody holds more than they do, and both hold something. */
  ghost predicate NobodyHoldsMore(known: OldContracts, ledger: Book<Account>) {
    && known.deployer != known.gateway && At(ledger, known.deployer) >= At(ledger, known.gateway) > 0
    && forall a | a !in {known.deployer, known.gateway} :: At(ledger, known.gateway) >= At(ledger, a)
  }

  /** A snapshot of the log: its holders in descending order, and their total. */
  ghost predicate TakenFrom(log: seq<Transfer>, s: Snapshot) {
    && ValidLog(log) && Descending(s.balances) && s.totalSupply == Total(s.balances)
    && exists holders :: PositivePart(holders, Ledger(log)) && Lists(s.accounts, s.balances, holders)
  }

  lemma TakenHolds(log: seq<Transfer>, s: Snapshot)
    requires TakenFrom(log, s)
    ensures |s.accounts| == |s.balances| && Distinct(s.accounts)
    ensures forall j | 0 <= j < |s.accounts| :: At(Ledger(log), s.accounts[j]) == s.balances[j] > 0
    ensures forall a :: At(Ledger(log), a) > 0 <==> a in s.accounts
  {
    var holders :| PositivePart(holders, Ledger(log)) && Lists(s.accounts, s.balances, holders);
    ColumnsMatchLedger(log, s.accounts, s.balances, holders);
  }

  lemma NoColonsInHolders(log: seq<Transfer>, s: Snapshot)
    requires TakenFrom(log, s) && forall a | At(Ledger(log), a) > 0 :: ':' !in a
    ensures NoColons(s.accounts)
  {
    TakenHolds(log, s);
  }

  lemma BeforeOthers(log: seq<Transfer>, s: Snapshot, i: nat, a: Account) returns (j: nat)
    requires TakenFrom(log, s) && At(Ledger(log), a) > 0 && i < |s.accounts|
    ensures j < |s.accounts| && s.accounts[j] == a
    ensures At(Ledger(log), s.accounts[i]) < At(Ledger(log), a) ==> j < i
  {
    TakenHolds(log, s);
    assert a in s.accounts;
    j :| 0 <= j < |s.accounts| && s.accounts[j] == a;
    assert i <= j ==> s.balances[i] >= s.balances[j];
  }

  lemma KnownComeFirst(log: seq<Transfer>, s: Snapshot, known: OldContracts)
    requires TakenFrom(log, s) && KnownHoldMost(known, Ledger(log))
    ensures Accepted(known, s) == Read(s)
  {
    TakenHolds(log, s);
    assert known.deployer in s.accounts;
    var d := BeforeOthers(log, s, 0, known.deployer);
    assert s.accounts[0] == known.deployer;
    assert known.gateway in s.accounts && |s.accounts| >= 2;
    var g := BeforeOthers(log, s, 1, known.gateway);
    assert s.accounts[1] == known.gateway;
  }

  lemma FirstHoldMost(log: seq<Transfer>, s: Snapshot, known: OldContracts)
    requires TakenFrom(log, s) && Accepted(known, s).Read?
    ensures NobodyHoldsMore(known, Ledger(log))
  {
    TakenHolds(log, s);
    var ledger := Ledger(log);
    assert s.accounts[0] == known.deployer && s.accounts[1] == known.gateway && s.accounts[0] != s.accounts[1];
    forall a | a !in {known.deployer, known.gateway} ensures At(ledger, known.gateway) >= At(ledger, a) {
      if At(ledger, a) > At(ledger, known.gateway) {
        var j := BeforeOthers(log, s, 1, a);
      }
    }
    assert s.balances[0] >= s.balances[1];
  }

  // The reader accepts a snapshot only if nobody held more than the two known contracts, and always if everybody else
  // held less. Only holders of equal balance leave it open, because their order does.
  lemma LargestAreAccepted(log: seq<Transfer>, s: Snapshot, known: OldContracts)
    requires TakenFrom(log, s)
    ensures KnownHoldMost(known, Ledger(log)) ==> Accepted(known, s).Read?
    ensures Accepted(known, s).Read? ==> NobodyHoldsMore(known, Ledger(log))
  {
    if KnownHoldMost(known, Ledger(log)) {
      KnownComeFirst(log, s, known);
    }
    if Accepted(known, s).Read? {
      FirstHoldMost(log, s, known);
    }
  }

  // The chain's events are fetched page by page, folded, written and read back; the airdrop is run as often as it
  // dies; and once it has finished it is verified. Whenever that happens, each account outside the base skip list
  // has its old balance if that reaches the cutoff and nothing otherwise, and the verifier accepts, with the one
  // exception of a new gateway that was itself a large holder.
  method RunScript(chain: seq<Transfer>, deploymentBlock: int, snapshotBlock: int, known: OldContracts,
                   airdropper: Account, newGateway: Account, multiSend: Account, minted: nat, budgets: seq<nat>)
    returns (report: Report, bal: Book<Account>, ghost c: Config)
    requires Ordered(chain) && deploymentBlock + STEP <= snapshotBlock
    requires Distinct([airdropper, newGateway, multiSend, ZERO_ADDR]) && minted <= INIT_SUPPLY
    requires var was := Ledger(OldLog(chain, deploymentBlock, snapshotBlock));
             At(was, multiSend) == 0 && forall a | At(was, a) > 0 :: ':' !in a
    ensures report.NoSnapshot? <==> !ValidLog(OldLog(chain, deploymentBlock, snapshotBlock))
    ensures !report.NoSnapshot? ==>
              && TakenFrom(OldLog(chain, deploymentBlock, snapshotBlock), c.snapshot)
              && c == Config(airdropper, newGateway, multiSend, ZERO_ADDR, known, minted, c.snapshot)
              && match Accepted(known, c.snapshot)
                 case Read(_) => report.Migrated?
                 case Failed(failure) => report == BadSnapshot(failure)
    ensures var was := Ledger(OldLog(chain, deploymentBlock, snapshotBlock));
            && (report.BadSnapshot? ==> !KnownHoldMost(known, was))
            && (report.Migrated? ==> NobodyHoldsMore(known, was))
    ensures report.Migrated? ==>
              && ValidConfig(c) && bal == After(c, budgets).bal
              && (report.finished <==> After(c, budgets).finished)
              && (report.finished <==> MayStart(c) && Position(WholeRun(c), budgets) == WholeRun(c))
              && (report.verified <==> report.finished && !NewGatewayHeldMuch(c))
    ensures report.Migrated? && report.finished ==>
              var was := Ledger(OldLog(chain, deploymentBlock, snapshotBlock));
              && ValidConfig(c) && Base(c) == {airdropper, newGateway, known.gateway, known.deployer}
              && (forall a | a !in Base(c) :: At(bal, a) == if At(was, a) >= AIRDROP_CUTOFF then At(was, a) else 0)
  {
    bal := map[];
    c := Config(airdropper, newGateway, multiSend, ZERO_ADDR, known, minted, EMPTY);
    ghost var log := OldLog(chain, deploymentBlock, snapshotBlock);
    var taken, accounts, balances, rows := TakeSnapshot(chain, deploymentBlock, snapshotBlock);
    if !taken {
      return NoSnapshot, bal, c;
    }
    c := c.(snapshot := Snapshot(accounts, balances, Total(balances)));
    NoColonsInHolders(log, c.snapshot);
    WrittenReads(known, accounts, balances, rows);
    LargestAreAccepted(log, c.snapshot, known);
    var read := ReadSnapshot(known, rows);
    if read.Failed? {
      return BadSnapshot(read.failure), bal, c;
    }
    var config := Config(airdropper, newGateway, multiSend, ZERO_ADDR, known, minted, read.snapshot);
    c := config;
    ReadsBack(log, accounts, balances, c);
    SnapshotIsMigratable(log, accounts, balances, c);
    FinishesExactlyWhen(c, budgets);
    var m := RunAll(config, budgets);
    bal := m.bal;
    var verified := false;
    if m.finished {
      var verifier := new Verifier(config);
      verified := verifier.VerifyAirdrop(m);
      forall a | a !in Base(c)
        ensures At(bal, a) == if At(Ledger(log), a) >= AIRDROP_CUTOFF then At(Ledger(log), a) else 0
      {
        MigrationCarriesBalancesOver(log, accounts, balances, c, budgets, a);
      }
    }
    report := Migrated(m.finished, verified);
  }
}
