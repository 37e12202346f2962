// A migration with two full batches of equal payments, on which a batch in flight is indeed paid twice.
module MigrationCrowd {
  import opened Books
  import opened Common
  import opened SnapshotEvents
  import opened SnapshotFile
  import opened MigrationSpec
  import opened MigrationRuns
  import opened MigrationSafety
  import opened MigrationInFlight

  const CROWD: nat := 2 * BATCH_SIZE
  const EACH: nat := 7000 * E_18
  const OLD_STAKE: nat := 45_000_000 * E_18

  function Name(i: nat): Account {
    "H" + Decimal(i)
  }

  lemma NamesDiffer(i: nat, j: nat)
    requires i != j
    ensures Name(i) != Name(j)
  {
    ParseDecimal(i);
    ParseDecimal(j);
    assert Name(i)[1..] == Decimal(i) && Name(j)[1..] == Decimal(j);
  }

  function Names(n: nat): (names: seq<Account>)
    ensures |names| == n && forall i | 0 <= i < n :: names[i] == Name(i)
  {
    seq(n, (i: nat) => Name(i))
  }

  function Amounts(n: nat): (amounts: seq<nat>)
    ensures |amounts| == n && forall i | 0 <= i < n :: amounts[i] == EACH
  {
    if n == 0 then [] else [EACH] + Amounts(n - 1)
  }

  lemma {:induction false} AmountsTotal(n: nat)
    ensures Total(Amounts(n)) == n * EACH
  {
    if n == 0 {
    } else {
      AmountsTotal(n - 1);
      assert Amounts(n)[1..] == Amounts(n - 1);
    }
  }

  /** Four hundred holders of 7000 FLIP each besides the deployer and the gateway. */
  function Crowd(): Config {
    Config("R", "N", "M", "0", OldContracts("D", "G"), 0,
           Snapshot(["D", "G"] + Names(CROWD), [1, OLD_STAKE] + Amounts(CROWD), 1 + OLD_STAKE + CROWD * EACH))
  }

  lemma CrowdTotal()
    ensures Total([1, OLD_STAKE] + Amounts(CROWD)) == 1 + OLD_STAKE + CROWD * EACH
  {
    AmountsTotal(CROWD);
    var balances: seq<nat> := [1, OLD_STAKE] + Amounts(CROWD);
    assert balances[1..] == [OLD_STAKE] + Amounts(CROWD) && balances[1..][1..] == Amounts(CROWD);
  }

  lemma CrowdAccounts()
    ensures Distinct(["D", "G"] + Names(CROWD))
    ensures forall a | a in {"R", "N", "M", "0"} :: a !in ["D", "G"] + Names(CROWD)
  {
    var accounts := ["D", "G"] + Names(CROWD);
    assert forall i | 2 <= i < |accounts| :: accounts[i] == Name(i - 2) && accounts[i][0] == 'H';
    forall i, j | 0 <= i < j < |accounts| ensures accounts[i] != accounts[j] {
      if i >= 2 {
        NamesDiffer(i - 2, j - 2);
      }
    }
  }

  lemma CrowdIsValid()
    ensures ValidConfig(Crowd())
  {
    CrowdTotal();
    CrowdAccounts();
  }

  lemma CrowdMayStart()
    requires ValidConfig(Crowd())
    ensures MayStart(Crowd())
  {
    assert Crowd().snapshot.balances[1] == OLD_STAKE;
  }

  lemma CrowdIsEligible(i: nat)
    requires ValidConfig(Crowd()) && 2 <= i < CROWD + 2
    ensures Crowd().snapshot.accounts[i] !in Base(Crowd()) && Crowd().snapshot.balances[i] == EACH >= AIRDROP_CUTOFF
  {
    assert Crowd().snapshot.accounts[i] == Name(i - 2) && Name(i - 2)[0] == 'H';
  }

  lemma {:induction false} AllAreDue(c: Config, i: nat, amount: nat)
    requires ValidConfig(c) && i <= |c.snapshot.accounts| && amount >= AIRDROP_CUTOFF
    requires forall j | i <= j < |c.snapshot.accounts| ::
               c.snapshot.accounts[j] !in Base(c) && c.snapshot.balances[j] == amount
    ensures var due := ToSend(c, Base(c), i);
            |due| == |c.snapshot.accounts| - i && forall j | 0 <= j < |due| :: due[j].amount == amount
    decreases |c.snapshot.accounts| - i
  {
    if i == |c.snapshot.accounts| {
    } else {
      AllAreDue(c, i + 1, amount);
    }
  }

  // A batch in flight is paid twice here: two hundred holders end up with 14000 FLIP each.
  lemma CrowdIsPaidTwice()
    ensures ValidConfig(Crowd()) && |FirstBatch(Due(Crowd()))| == BATCH_SIZE && FirstBatchIsPaidTwice(Crowd())
  {
    CrowdIsValid();
    CrowdMayStart();
    forall i | 2 <= i < CROWD + 2
      ensures Crowd().snapshot.accounts[i] !in Base(Crowd()) && Crowd().snapshot.balances[i] == EACH
    {
      CrowdIsEligible(i);
    }
    AllAreDue(Crowd(), 2, EACH);
    DueFromThird(Crowd());
    EqualDuesArePaidTwice(Crowd(), EACH);
  }
}
