// One concrete migration, to show that the conditions of the general results do arise.
module MigrationExample {
  import opened Books
  import opened Common
  import opened SnapshotEvents
  import opened SnapshotFile
  import opened MigrationSpec
  import opened MigrationRuns
  import opened MigrationSafety
  import opened MigrationMachine
  import opened MigrationVerifier
  import opened MigrationEndToEnd
  import opened MigrationDoubleTopUp
  import opened MigrationInFlight

  const ALICE: Account := "A"

  /** Half of the supply sat in the old gateway; Alice held 7000 FLIP. */
  function Example(newGateway: Account): Config {
    var balances: seq<nat> := [1, 45_000_000 * E_18, 7000 * E_18];
    Config("R", newGateway, "M", "0", OldContracts("D", "G"), 0, Snapshot(["D", "G", ALICE], balances, Total(balances)))
  }

  lemma ExampleTotal()
    ensures Total([1, 45_000_000 * E_18, 7000 * E_18]) == 45_007_000 * E_18 + 1
  {
    var balances: seq<nat> := [1, 45_000_000 * E_18, 7000 * E_18];
    assert balances[1..] == [45_000_000 * E_18, 7000 * E_18] && balances[1..][1..] == [7000 * E_18];
    assert Total([7000 * E_18]) == 7000 * E_18;
    assert Total(balances[1..]) == 45_000_000 * E_18 + Total(balances[1..][1..]);
  }

  // It may start, and is wedged by a first run that dies right after the top-up; one that gets further is not.
  lemma ExampleWedges()
    ensures ValidConfig(Example("N")) && MayStart(Example("N"))
    ensures Blocked(Example("N"), After(Example("N"), [1]))
    ensures forall budgets :: RanAll(Example("N"), After(Example("N"), [1]), budgets) == After(Example("N"), [1])
    ensures !Blocked(Example("N"), After(Example("N"), [2]))
  {
    var c := Example("N");
    ExampleTotal();
    StuckExactlyWhen(c, [1]);
    StuckExactlyWhen(c, [2]);
    RunsKeep(c, [1]);
    forall budgets ensures RanAll(c, After(c, [1]), budgets) == After(c, [1]) {
      StuckForever(c, After(c, [1]), budgets);
    }
  }

  lemma ExampleFinishes(newGateway: Account)
    requires newGateway in {"N", ALICE}
    ensures ValidConfig(Example(newGateway)) && MayStart(Example(newGateway))
    ensures After(Example(newGateway), [10]).finished
  {
    var c := Example(newGateway);
    ExampleTotal();
    StuckExactlyWhen(c, []);
    DueCount(c, 0);
    LongRunFinishes(c, [], 10);
    assert [] + [10] == [10];
  }

  // Otherwise Alice gets her 7000 FLIP,
  lemma ExamplePays()
    ensures ValidConfig(Example("N")) && At(After(Example("N"), [10]).bal, ALICE) == 7000 * E_18
  {
    ExampleFinishes("N");
    assert Example("N").snapshot.accounts[2] == ALICE && Eligible(Example("N"), 2);
    HoldersGetTheirBalances(Example("N"), [10], 2);
  }

  // and the verifier accepts, as it does not if Alice's account is the new gateway.
  method VerifyExample(newGateway: Account) returns (ok: bool)
    requires newGateway in {"N", ALICE}
    ensures ok <==> newGateway == "N"
  {
    ExampleFinishes(newGateway);
    var c := Example(newGateway);
    assert c.snapshot.accounts[2] == ALICE && c.snapshot.balances[2] >= VERIFY_CUTOFF;
    var m := RunAll(c, [10]);
    var verifier := new Verifier(c);
    ok := verifier.VerifyAirdrop(m);
  }

  // ---- A second top-up that goes through ----

  /** Almost all of the supply sat with the deployer, and the new gateway lacks only a little. */
  function SmallTopUp(): Config {
    var balances: seq<nat> := [INIT_SUPPLY - 7000 * E_18 - 11, 10, 7000 * E_18];
    Config("R", "N", "M", "0", OldContracts("D", "G"), 8, Snapshot(["D", "G", ALICE], balances, Total(balances)))
  }

  lemma SmallTopUpTotal()
    ensures Total([INIT_SUPPLY - 7000 * E_18 - 11, 10, 7000 * E_18]) == INIT_SUPPLY - 1
  {
    var balances: seq<nat> := [INIT_SUPPLY - 7000 * E_18 - 11, 10, 7000 * E_18];
    assert balances[1..] == [10, 7000 * E_18] && balances[1..][1..] == [7000 * E_18];
    assert Total([7000 * E_18]) == 7000 * E_18;
    assert Total(balances[1..]) == 10 + Total(balances[1..][1..]);
  }

  lemma SmallTopUpCoversTwo()
    ensures ValidConfig(SmallTopUp()) && MayStart(SmallTopUp()) && CoversTwo(SmallTopUp())
  {
    SmallTopUpTotal();
    var small := SmallTopUp();
    OwedWithinTotal(small, Base(small), 2);
    DueFromThird(small);
    assert small.snapshot.balances[2..] == [7000 * E_18] && Total([7000 * E_18]) == 7000 * E_18;
    assert Held(small, "R", 2) >= 0;
  }

  // Here a second top-up goes through and everybody can still be paid,
  lemma SecondTopUpGoesThrough()
    ensures var c := SmallTopUp();
            ValidConfig(c) && Topped(c, After(c, [2])) && LaterTopUp(c, After(c, [2])).Some? && CoversTwo(c)
  {
    SmallTopUpCoversTwo();
    AfterTwoActions(SmallTopUp());
    SecondTopUp(SmallTopUp(), After(SmallTopUp(), [2]));
    SmallTopUpTotal();
  }

  // in the first example it reverts.
  lemma SecondTopUpReverts()
    ensures var c := Example("N");
            ValidConfig(c) && Topped(c, After(c, [2])) && LaterTopUp(c, After(c, [2])).None?
  {
    ExampleTotal();
    AfterTwoActions(Example("N"));
    SecondTopUp(Example("N"), After(Example("N"), [2]));
  }
}
