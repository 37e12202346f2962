// `verifyAirdrop` of scripts/snapshot_and_airdrop.py, the separate pass that checks a finished migration.
module MigrationVerifier {
  import opened Books
  import opened Common
  import opened SnapshotEvents
  import opened SnapshotFile
  import opened MigrationSpec
  import opened MigrationRuns
  import opened MigrationMachine

  /** The new gateway is itself an old holder at or above the verification cutoff. */
  predicate NewGatewayHeldMuch(c: Config)
    requires ValidConfig(c)
  {
    exists j | 2 <= j < |c.snapshot.accounts| ::
      c.snapshot.accounts[j] == c.newGateway && c.snapshot.balances[j] >= VERIFY_CUTOFF
  }

  function Without<T>(s: seq<T>, i: nat): (r: seq<T>)
    requires i < |s|
    ensures |r| == |s| - 1 && forall j | 0 <= j < |r| :: r[j] == s[if j < i then j else j + 1]
  {
    s[..i] + s[i + 1..]
  }

  /** What the first transfer to a holder gave it. */
  function FirstTo(list: seq<Payment>, holder: Account): Option<int> {
    if list == [] then None else if list[0].to == holder then Some(list[0].amount) else FirstTo(list[1..], holder)
  }

  lemma {:induction false} FirstToDue(c: Config, skip: set<Account>, i: nat, j: nat)
    requires ValidConfig(c) && i <= |c.snapshot.accounts| && j < |c.snapshot.accounts|
    ensures FirstTo(ToSend(c, skip, i), c.snapshot.accounts[j])
         == if i <= j && c.snapshot.accounts[j] !in skip && c.snapshot.balances[j] >= AIRDROP_CUTOFF
            then Some(c.snapshot.balances[j]) else None
    decreases |c.snapshot.accounts| - i
  {
    if i == |c.snapshot.accounts| {
    } else {
      FirstToDue(c, skip, i + 1, j);
      var rest := ToSend(c, skip, i + 1);
      assert ([Payment(c.snapshot.accounts[i], c.snapshot.balances[i])] + rest)[1..] == rest && [] + rest == rest;
    }
  }

  // For a holder that is neither of the two largest nor the airdropper, the check finds its transfer unless it is
  // the new gateway.
  lemma CheckFinds(c: Config, j: nat)
    requires ValidConfig(c) && 2 <= j < |c.snapshot.accounts| && c.snapshot.accounts[j] != c.airdropper
    requires c.snapshot.balances[j] >= VERIFY_CUTOFF
    ensures FirstTo(Due(c), c.snapshot.accounts[j]) == Some(c.snapshot.balances[j])
       <==> c.snapshot.accounts[j] != c.newGateway
  {
    FirstToDue(c, Base(c), 0, j);
    assert c.snapshot.accounts[0] != c.snapshot.accounts[j] && c.snapshot.accounts[1] != c.snapshot.accounts[j];
  }

  // The airdropper, if it is a holder, is not owed anything, so at least one holder fewer is.
  lemma {:induction false} DueCount(c: Config, i: nat)
    requires ValidConfig(c) && i <= |c.snapshot.accounts|
    ensures |ToSend(c, Base(c), i)| + (if c.airdropper in c.snapshot.accounts[i..] then 1 else 0)
         <= |c.snapshot.accounts| - i
    decreases |c.snapshot.accounts| - i
  {
    if i == |c.snapshot.accounts| {
    } else {
      DueCount(c, i + 1);
      assert c.snapshot.accounts[i..] == [c.snapshot.accounts[i]] + c.snapshot.accounts[i + 1..];
    }
  }

  lemma {:induction false} HeldAt(c: Config, i: nat, j: nat)
    requires ValidConfig(c) && i <= j < |c.snapshot.accounts|
    ensures Held(c, c.snapshot.accounts[j], i) >= c.snapshot.balances[j]
    decreases |c.snapshot.accounts| - i
  {
    if i == j {
    } else {
      HeldAt(c, i + 1, j);
    }
  }

  /** The snapshot from the third holder on. */
  function Others(c: Config): seq<Account>
    requires ValidConfig(c)
  {
    c.snapshot.accounts[2..]
  }

  /** What the airdropper held itself, unless it is one of the two largest holders. */
  function OwnShare(c: Config): nat
    requires ValidConfig(c)
  {
    if c.airdropper in Others(c) then c.snapshot.balances[2 + FirstIndex(Others(c), c.airdropper)] else 0
  }

  // Conservation: the airdropper is left with at least what the old deployer and it itself held.
  lemma AirdropperKeeps(c: Config, w: World)
    requires ValidConfig(c) && Inv(c, w) && w.finished
    ensures At(w.bal, c.airdropper) >= c.snapshot.balances[0] + OwnShare(c)
  {
    assert Of(c, Airdrop, w.events) == Due(c) == Due(c)[..|Due(c)|] && Due(c)[|Due(c)|..] == [];
    AirdropperCanPay(c, |Due(c)|);
    if c.airdropper in Others(c) {
      HeldAt(c, 2, 2 + FirstIndex(Others(c), c.airdropper));
    }
  }

  /** The holders whose transfers are checked: all but the two largest and the airdropper. */
  function Checked<T>(c: Config, column: seq<T>): seq<T>
    requires ValidConfig(c) && |column| == |c.snapshot.accounts|
  {
    if c.airdropper in Others(c) then Without(column[2..], FirstIndex(Others(c), c.airdropper)) else column[2..]
  }

  /** The row of the snapshot that a checked holder comes from. */
  function RowOf(c: Config, i: nat): (j: nat)
    requires ValidConfig(c) && i < |Checked(c, c.snapshot.accounts)|
    ensures 2 <= j < |c.snapshot.accounts| && c.snapshot.accounts[j] != c.airdropper
    ensures Checked(c, c.snapshot.accounts)[i] == c.snapshot.accounts[j]
    ensures Checked(c, c.snapshot.balances)[i] == c.snapshot.balances[j]
  {
    if c.airdropper in Others(c) && i >= FirstIndex(Others(c), c.airdropper) then i + 3 else i + 2
  }

  // Every other row is checked.
  lemma EveryRowIsChecked(c: Config, j: nat) returns (i: nat)
    requires ValidConfig(c) && 2 <= j < |c.snapshot.accounts| && c.snapshot.accounts[j] != c.airdropper
    ensures i < |Checked(c, c.snapshot.accounts)| && RowOf(c, i) == j
  {
    i := if c.airdropper in Others(c) && j - 2 > FirstIndex(Others(c), c.airdropper) then j - 3 else j - 2;
  }

  lemma DeployerIsNotAnother(c: Config)
    requires ValidConfig(c)
    ensures c.known.deployer !in Others(c)
  {
    assert forall j | 2 <= j < |c.snapshot.accounts| :: c.snapshot.accounts[0] != c.snapshot.accounts[j];
  }

  lemma GatewayDifference(c: Config, w: World)
    requires ValidConfig(c) && Inv(c, w) && w.finished
    ensures At(w.bal, c.newGateway) - OldGatewayBalance(c) == SupplyDifference(c)
  {
    FourAccounts(c);
    assert Of(c, Airdrop, w.events) == Due(c)[..|Of(c, Airdrop, w.events)|];
    PaymentsAreToHolders(c, |Of(c, Airdrop, w.events)|);
  }

  /** The first transfer to each holder at or above the verification cutoff gives it its snapshot balance; the two
      largest and the airdropper are not looked at. */
  predicate HoldersWerePaid(c: Config, list: seq<Payment>)
    requires ValidConfig(c)
  {
    forall j | 2 <= j < |c.snapshot.accounts| && c.snapshot.accounts[j] != c.airdropper ::
      c.snapshot.balances[j] >= VERIFY_CUTOFF ==>
        FirstTo(list, c.snapshot.accounts[j]) == Some(c.snapshot.balances[j])
  }

  /** The supply to be burnt is what the new gateway holds more than the old one did. */
  predicate SupplyMatches(c: Config, w: World)
    requires ValidConfig(c)
  {
    c.snapshot.totalSupply - w.supply == OldGatewayBalance(c) - At(w.bal, c.newGateway)
  }

  /** All that the verifier asserts of a chain. */
  predicate Passes(c: Config, w: World)
    requires ValidConfig(c)
  {
    var list := Of(c, Airdrop, w.events);
    && w.supply == INIT_SUPPLY && MintsAsExpected(c, w)
    && At(w.bal, c.airdropper) >= c.snapshot.balances[0] + OwnShare(c)
    && |list| <= |Checked(c, c.snapshot.accounts)|
    && HoldersWerePaid(c, list) && SupplyMatches(c, w)
  }

  // What acceptance says of any chain: the supply is the genesis one and the gateway holds what the old one did and
  // the supply to be burnt; the airdropper kept what the old deployer and it itself held; every other holder at or
  // above the verification cutoff was first paid its old balance; and there were no more payments than other holders.
  lemma AcceptanceMeans(c: Config, w: World)
    requires ValidConfig(c) && Passes(c, w)
    ensures w.supply == INIT_SUPPLY && At(w.bal, c.newGateway) == OldGatewayBalance(c) + SupplyDifference(c)
    ensures MintsAsExpected(c, w)
    ensures At(w.bal, c.airdropper) >= c.snapshot.balances[0]
    ensures forall j | 2 <= j < |c.snapshot.accounts| && c.snapshot.accounts[j] == c.airdropper ::
              At(w.bal, c.airdropper) >= c.snapshot.balances[0] + c.snapshot.balances[j]
    ensures forall j | 2 <= j < |c.snapshot.accounts| && c.snapshot.accounts[j] != c.airdropper
                       && c.snapshot.balances[j] >= VERIFY_CUTOFF ::
              FirstTo(Of(c, Airdrop, w.events), c.snapshot.accounts[j]) == Some(c.snapshot.balances[j])
    ensures |Of(c, Airdrop, w.events)|
         <= |c.snapshot.accounts| - 2 - if c.airdropper in c.snapshot.accounts[2..] then 1 else 0
  {
    forall j | 2 <= j < |c.snapshot.accounts| && c.snapshot.accounts[j] == c.airdropper
      ensures OwnShare(c) == c.snapshot.balances[j]
    {
      assert Others(c)[j - 2] == c.airdropper;
    }
  }

  lemma HonestListIsShort(c: Config)
    requires ValidConfig(c)
    ensures |Due(c)| <= |Checked(c, c.snapshot.accounts)|
  {
    DueCount(c, 2);
    DueFromThird(c);
  }

  lemma HonestHoldersWerePaid(c: Config)
    requires ValidConfig(c)
    ensures HoldersWerePaid(c, Due(c)) <==> !NewGatewayHeldMuch(c)
  {
    FourAccounts(c);
    forall j | 2 <= j < |c.snapshot.accounts| && c.snapshot.accounts[j] != c.airdropper
               && c.snapshot.balances[j] >= VERIFY_CUTOFF
      ensures FirstTo(Due(c), c.snapshot.accounts[j]) == Some(c.snapshot.balances[j])
         <==> c.snapshot.accounts[j] != c.newGateway
    {
      CheckFinds(c, j);
    }
  }

  lemma HonestPasses(c: Config, w: World)
    requires ValidConfig(c) && Inv(c, w) && w.finished
    ensures Passes(c, w) <==> !NewGatewayHeldMuch(c)
  {
    assert Of(c, Airdrop, w.events) == Due(c);
    AirdropperKeeps(c, w);
    GatewayDifference(c, w);
    HonestListIsShort(c);
    HonestHoldersWerePaid(c);
  }

  class Verifier {
    const c: Config

    constructor (config: Config)
      ensures c == config
    {
      c := config;
    }

    /** The search for a holder's transfer: true unless an assertion fails. */
    method CheckHolder(listAirdropTXs: seq<Payment>, holder: Account, balance: int) returns (ok: bool)
      ensures ok <==> FirstTo(listAirdropTXs, holder) == Some(balance)
    {
      var found := false;
      for i := 0 to |listAirdropTXs|
        invariant !found && FirstTo(listAirdropTXs, holder) == FirstTo(listAirdropTXs[i..], holder)
      {
        assert listAirdropTXs[i..][1..] == listAirdropTXs[i + 1..];
        if listAirdropTXs[i].to == holder {
          return listAirdropTXs[i].amount == balance;
        }
      }
      ok := found;
    }

    /** Drops the old gateway and the old deployer, checking the airdropper's balance. */
    method DropLargest(airdropperBalance: int) returns (ok: bool, accounts: seq<Account>, balances: seq<nat>)
      requires ValidConfig(c)
      ensures ok <==> airdropperBalance >= c.snapshot.balances[0] + OwnShare(c)
      ensures ok ==> accounts == Others(c) && balances == c.snapshot.balances[2..]
    {
      accounts, balances := c.snapshot.accounts, c.snapshot.balances;
      if accounts[1] != c.known.gateway {
        return false, accounts, balances;
      }
      accounts, balances := Without(accounts, 1), Without(balances, 1);
      assert accounts == [c.known.deployer] + Others(c);
      assert balances == [c.snapshot.balances[0]] + c.snapshot.balances[2..];
      if c.known.deployer in accounts {
        var index := FirstIndex(accounts, c.known.deployer);
        if index != 0 {
          return false, accounts, balances;
        }
        var amount := 0;
        if c.airdropper in accounts && c.airdropper != c.known.deployer {
          amount := balances[FirstIndex(accounts, c.airdropper)];
        }
        DeployerIsNotAnother(c);
        assert accounts[1..] == Others(c);
        assert amount == OwnShare(c);
        if airdropperBalance < balances[index] + amount || airdropperBalance < c.snapshot.balances[0] + amount {
          return false, accounts, balances;
        }
        accounts, balances := Without(accounts, index), Without(balances, index);
      }
      ok := true;
    }

    method DropAirdropper(accounts0: seq<Account>, balances0: seq<nat>)
      returns (accounts: seq<Account>, balances: seq<nat>)
      requires ValidConfig(c) && accounts0 == Others(c) && balances0 == c.snapshot.balances[2..]
      ensures accounts == Checked(c, c.snapshot.accounts) && balances == Checked(c, c.snapshot.balances)
    {
      accounts, balances := accounts0, balances0;
      if c.airdropper in accounts {
        var index := FirstIndex(accounts, c.airdropper);
        accounts, balances := Without(accounts, index), Without(balances, index);
      }
    }

    /** The loop over the checked holders: true unless an assertion fails. */
    method CheckHolders(listAirdropTXs: seq<Payment>, accounts: seq<Account>, balances: seq<nat>) returns (ok: bool)
      requires ValidConfig(c)
      requires accounts == Checked(c, c.snapshot.accounts) && balances == Checked(c, c.snapshot.balances)
      ensures ok <==> HoldersWerePaid(c, listAirdropTXs)
    {
      for i := 0 to |accounts|
        invariant forall k | 0 <= k < i :: balances[k] >= VERIFY_CUTOFF ==>
                                             FirstTo(listAirdropTXs, accounts[k]) == Some(balances[k])
      {
        if balances[i] < VERIFY_CUTOFF {
          continue;
        }
        ok := CheckHolder(listAirdropTXs, accounts[i], balances[i]);
        if !ok {
          assert RowOf(c, i) >= 2;
          return;
        }
      }
      forall j | 2 <= j < |c.snapshot.accounts| && c.snapshot.accounts[j] != c.airdropper
        ensures c.snapshot.balances[j] >= VERIFY_CUTOFF ==>
                  FirstTo(listAirdropTXs, c.snapshot.accounts[j]) == Some(c.snapshot.balances[j])
      {
        var i := EveryRowIsChecked(c, j);
      }
      ok := true;
    }

    // On any chain whatever, the verifier accepts exactly if all it asserts holds; a finished migration exactly if the
    // new gateway is not itself an old holder at or above the verification cutoff, because the airdrop skips it.
    method VerifyAirdrop(m: Migration) returns (ok: bool)
      requires ValidConfig(c) && m.c == c
      ensures ok <==> Passes(c, m.State())
      ensures m.Valid() && m.finished ==> (ok <==> !NewGatewayHeldMuch(c))
    {
      if m.Valid() && m.finished {
        HonestPasses(c, m.State());
      }
      if m.supply != INIT_SUPPLY {
        return false;
      }
      var listAirdropTXs, initialMintTXs := m.ReadChain();
      if |initialMintTXs| != 2 || initialMintTXs[0].to != c.newGateway {
        return false;
      }
      var accounts, balances;
      ok, accounts, balances := DropLargest(At(m.bal, c.airdropper));
      if !ok {
        return;
      }
      accounts, balances := DropAirdropper(accounts, balances);
      if CeilDiv(|listAirdropTXs|) > CeilDiv(|accounts|) {
        return false;
      }
      ok := CheckHolders(listAirdropTXs, accounts, balances);
      if !ok {
        return;
      }
      if !(|listAirdropTXs| <= |accounts| == |balances|) {
        return false;
      }
      var supplyDifference := c.snapshot.totalSupply - m.supply;
      if supplyDifference != c.snapshot.balances[1] - At(m.bal, c.newGateway) {
        return false;
      }
      return true;
    }
  }
}
