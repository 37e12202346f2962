// The snapshot file of scripts/snapshot_and_airdrop.py: the holders in descending order of balance, closed by a
// checksum row with their number and total, and the reader that checks it.
module SnapshotFile {
  import opened Books
  import opened Common
  import opened SnapshotEvents

  /** The two holders of the old token that the script names: its deployer and its State Chain gateway. */
  datatype OldContracts = OldContracts(deployer: Account, gateway: Account)

  const MARKER: string := "TotalNumberHolders:"

  // ---- The order of the holders ----

  /** The two columns of the snapshot list each holder once, with its balance. */
  ghost predicate Lists(accounts: seq<Account>, balances: seq<nat>, holders: map<Account, int>) {
    && |accounts| == |balances|
    && Distinct(accounts)
    && (forall a :: a in accounts <==> a in holders)
    && forall i | 0 <= i < |accounts| :: holders[accounts[i]] == balances[i]
  }

  predicate Descending(balances: seq<nat>) {
    forall i, j | 0 <= i < j < |balances| :: balances[i] >= balances[j]
  }

  function Total(balances: seq<nat>): nat {
    if balances == [] then 0 else balances[0] + Total(balances[1..])
  }

  // The total over the columns is the total over the holders.
  lemma {:induction false} ListTotal(accounts: seq<Account>, balances: seq<nat>, holders: map<Account, int>)
    requires Lists(accounts, balances, holders)
    ensures Total(balances) == Sum(holders)
  {
    if accounts == [] {
      assert holders.Keys == {};
    } else {
      var a := accounts[0];
      assert a in holders.Keys;
      SumWithout(holders, a);
      assert accounts == [a] + accounts[1..];
      ListTotal(accounts[1..], balances[1..], holders - {a});
    }
  }

  method Place(balances: seq<nat>, v: nat) returns (k: nat)
    requires Descending(balances)
    ensures k <= |balances| && Descending(balances[..k] + [v] + balances[k..])
  {
    k := 0;
    while k < |balances| && balances[k] >= v
      invariant 0 <= k <= |balances|
      invariant forall i | 0 <= i < k :: balances[i] >= v
    {
      k := k + 1;
    }
  }

  lemma InsertHolder(accounts: seq<Account>, balances: seq<nat>, holders: map<Account, int>, k: nat, a: Account, v: nat)
    requires Lists(accounts, balances, holders) && k <= |accounts| && a !in holders
    ensures Lists(accounts[..k] + [a] + accounts[k..], balances[..k] + [v] + balances[k..], holders[a := v])
  {
    var longer := accounts[..k] + [a] + accounts[k..];
    assert accounts == accounts[..k] + accounts[k..];
    forall x ensures x in longer <==> x in holders[a := v] {
      assert x in accounts <==> x in holders;
    }
    assert forall i | 0 <= i < |accounts| :: accounts[i] in holders;
  }

  method SortHolders(holders: map<Account, int>) returns (accounts: seq<Account>, balances: seq<nat>)
    requires forall a | a in holders :: holders[a] >= 0
    ensures Lists(accounts, balances, holders) && Descending(balances)
  {
    accounts, balances := [], [];
    var rest := holders.Keys;
    while rest != {}
      invariant rest <= holders.Keys
      invariant Lists(accounts, balances, holders - rest) && Descending(balances)
      decreases rest
    {
      var a :| a in rest;
      var k := Place(balances, holders[a]);
      InsertHolder(accounts, balances, holders - rest, k, a, holders[a]);
      assert (holders - rest)[a := holders[a]] == holders - (rest - {a});
      accounts := accounts[..k] + [a] + accounts[k..];
      balances := balances[..k] + [holders[a]] + balances[k..];
      rest := rest - {a};
    }
    assert holders - {} == holders;
  }

  // ---- Numbers in cells ----

  predicate IsDigit(c: char) { '0' <= c <= '9' }

  function Decimal(n: nat): string {
    if n < 10 then [('0' as int + n) as char] else Decimal(n / 10) + [('0' as int + n % 10) as char]
  }

  function Parse(s: string): Option<nat> {
    if s == [] then None
    else
      var last := s[|s| - 1];
      if !IsDigit(last) then None
      else if |s| == 1 then Some(last as int - '0' as int)
      else
        match Parse(s[..|s| - 1])
        case None => None
        case Some(n) => Some(10 * n + (last as int - '0' as int))
  }

  lemma {:induction false} ParseDecimal(n: nat)
    ensures Parse(Decimal(n)) == Some(n)
    ensures forall c | c in Decimal(n) :: IsDigit(c)
  {
    if n < 10 {
    } else {
      ParseDecimal(n / 10);
      assert Decimal(n)[..|Decimal(n)| - 1] == Decimal(n / 10);
    }
  }

  predicate Contains(s: string, part: string) {
    part <= s || (s != [] && Contains(s[1..], part))
  }

  function Split(s: string, sep: char): (fields: seq<string>)
    ensures |fields| >= 1 && (sep in s ==> |fields| >= 2)
  {
    if s == [] then [[]]
    else
      var rest := Split(s[1..], sep);
      if s[0] == sep then [[]] + rest else [[s[0]] + rest[0]] + rest[1..]
  }

  lemma {:induction false} SplitsNowhere(s: string, sep: char)
    requires sep !in s
    ensures Split(s, sep) == [s]
  {
    if s == [] {
    } else {
      SplitsNowhere(s[1..], sep);
      assert s == [s[0]] + s[1..];
    }
  }

  lemma {:induction false} SplitsOnce(before: string, sep: char, after: string)
    requires sep !in before && sep !in after
    ensures Split(before + [sep] + after, sep) == [before, after]
  {
    var s := before + [sep] + after;
    if before == [] {
      assert s[1..] == after;
      SplitsNowhere(after, sep);
    } else {
      SplitsOnce(before[1..], sep, after);
      assert s[1..] == before[1..] + [sep] + after;
      assert before == [before[0]] + before[1..];
    }
  }

  lemma {:induction false} ContainsOnly(s: string, part: string, c: char)
    requires Contains(s, part) && c in part
    ensures c in s
  {
    if part <= s {
    } else {
      ContainsOnly(s[1..], part, c);
    }
  }

  // ---- Writing and reading ----

  datatype Row = Row(account: string, amount: string)

  function HolderRows(accounts: seq<Account>, balances: seq<nat>): (rows: seq<Row>)
    requires |accounts| == |balances|
    ensures |rows| == |accounts|
  {
    if accounts == [] then []
    else [Row(accounts[0], Decimal(balances[0]))] + HolderRows(accounts[1..], balances[1..])
  }

  function Checksum(count: nat, total: nat): Row {
    Row(MARKER + Decimal(count), Decimal(total))
  }

  function Written(accounts: seq<Account>, balances: seq<nat>, totalBalance: nat): seq<Row>
    requires |accounts| == |balances|
  {
    HolderRows(accounts, balances) + [Checksum(|accounts|, totalBalance)]
  }

  datatype Snapshot = Snapshot(accounts: seq<Account>, balances: seq<nat>, totalSupply: nat)
  const EMPTY := Snapshot([], [], 0)

  datatype Failure = NotANumber | ChecksumMismatch | TooFewHolders | WrongFirstHolder | WrongSecondHolder
  datatype ReadResult = Read(snapshot: Snapshot) | Failed(failure: Failure)

  /** One row of the file after the rows that gave so far. */
  function ReadRow(so: Snapshot, row: Row): ReadResult {
    var amount := Parse(row.amount);
    if !Contains(row.account, MARKER) then
      if amount.None? then Failed(NotANumber)
      else Read(Snapshot(so.accounts + [row.account], so.balances + [amount.value], so.totalSupply + amount.value))
    else
      ContainsOnly(row.account, MARKER, ':');
      var count := Parse(Split(row.account, ':')[1]);
      if count.None? then Failed(NotANumber)
      else if count.value != |so.accounts| then Failed(ChecksumMismatch)
      else if amount.None? then Failed(NotANumber)
      else if amount.value != so.totalSupply then Failed(ChecksumMismatch)
      else Read(so)
  }

  function ReadRows(so: Snapshot, rows: seq<Row>): ReadResult
    decreases |rows|
  {
    if rows == [] then Read(so)
    else
      var r := ReadRow(so, rows[0]);
      if r.Failed? then r else ReadRows(r.snapshot, rows[1..])
  }

  /** The reader's last assertions. */
  function Accepted(known: OldContracts, s: Snapshot): ReadResult {
    if |s.accounts| == 0 then Failed(TooFewHolders)
    else if s.accounts[0] != known.deployer then Failed(WrongFirstHolder)
    else if |s.accounts| == 1 then Failed(TooFewHolders)
    else if s.accounts[1] != known.gateway then Failed(WrongSecondHolder)
    else Read(s)
  }

  function ReadFile(known: OldContracts, rows: seq<Row>): ReadResult {
    var r := ReadRows(EMPTY, rows);
    if r.Failed? then r else Accepted(known, r.snapshot)
  }

  method ReadSnapshot(known: OldContracts, rows: seq<Row>) returns (r: ReadResult)
    ensures r == ReadFile(known, rows)
  {
    var accounts: seq<Account>, balances: seq<nat>, totalSupply: nat := [], [], 0;
    for i := 0 to |rows|
      invariant ReadRows(EMPTY, rows) == ReadRows(Snapshot(accounts, balances, totalSupply), rows[i..])
    {
      var a, b := rows[i].account, Parse(rows[i].amount);
      assert rows[i..][0] == rows[i] && rows[i..][1..] == rows[i + 1..];
      if !Contains(a, MARKER) {
        if b.None? {
          return Failed(NotANumber);
        }
        accounts := accounts + [a];
        balances := balances + [b.value];
        totalSupply := totalSupply + b.value;
      } else {
        ContainsOnly(a, MARKER, ':');
        var count := Parse(Split(a, ':')[1]);
        if count.None? {
          return Failed(NotANumber);
        }
        if count.value != |accounts| {
          return Failed(ChecksumMismatch);
        }
        if b.None? {
          return Failed(NotANumber);
        }
        if totalSupply != b.value {
          return Failed(ChecksumMismatch);
        }
      }
    }
    r := Accepted(known, Snapshot(accounts, balances, totalSupply));
  }

  // ---- Round trip ----

  predicate NoColons(accounts: seq<Account>) {
    forall i | 0 <= i < |accounts| :: ':' !in accounts[i]
  }

  function Extended(so: Snapshot, accounts: seq<Account>, balances: seq<nat>): Snapshot {
    Snapshot(so.accounts + accounts, so.balances + balances, so.totalSupply + Total(balances))
  }

  lemma HolderReads(so: Snapshot, account: Account, balance: nat)
    requires ':' !in account
    ensures ReadRow(so, Row(account, Decimal(balance))) == Read(Extended(so, [account], [balance]))
  {
    ParseDecimal(balance);
    assert Total([balance]) == balance;
    if Contains(account, MARKER) {
      ContainsOnly(account, MARKER, ':');
    }
  }

  lemma ExtendedByFirst(so: Snapshot, accounts: seq<Account>, balances: seq<nat>)
    requires |accounts| == |balances| > 0
    ensures Extended(Extended(so, [accounts[0]], [balances[0]]), accounts[1..], balances[1..])
         == Extended(so, accounts, balances)
  {
    assert Total([balances[0]]) == balances[0];
    assert so.accounts + [accounts[0]] + accounts[1..] == so.accounts + accounts;
    assert so.balances + [balances[0]] + balances[1..] == so.balances + balances;
  }

  lemma FirstHolderReads(so: Snapshot, accounts: seq<Account>, balances: seq<nat>, more: seq<Row>)
    requires |accounts| == |balances| > 0 && ':' !in accounts[0]
    ensures ReadRows(so, HolderRows(accounts, balances) + more)
         == ReadRows(Extended(so, [accounts[0]], [balances[0]]), HolderRows(accounts[1..], balances[1..]) + more)
  {
    var rows := HolderRows(accounts, balances) + more;
    HolderReads(so, accounts[0], balances[0]);
    assert rows[0] == Row(accounts[0], Decimal(balances[0]));
    assert rows[1..] == HolderRows(accounts[1..], balances[1..]) + more;
  }

  // Reading holder rows adds their two columns and their total, whatever follows.
  lemma {:induction false} HolderRowsRead(so: Snapshot, accounts: seq<Account>, balances: seq<nat>, more: seq<Row>)
    requires |accounts| == |balances| && NoColons(accounts)
    ensures ReadRows(so, HolderRows(accounts, balances) + more) == ReadRows(Extended(so, accounts, balances), more)
    decreases |accounts|
  {
    if accounts == [] {
      assert HolderRows(accounts, balances) + more == more;
      assert so == Extended(so, accounts, balances);
    } else {
      HolderRowsRead(Extended(so, [accounts[0]], [balances[0]]), accounts[1..], balances[1..], more);
      FirstHolderReads(so, accounts, balances, more);
      ExtendedByFirst(so, accounts, balances);
    }
  }

  // A checksum row at the end accepts exactly its own two numbers.
  lemma ChecksumReads(so: Snapshot, count: nat, total: nat)
    ensures ReadRows(so, [Checksum(count, total)])
         == if count == |so.accounts| && total == so.totalSupply then Read(so) else Failed(ChecksumMismatch)
  {
    var name := "TotalNumberHolders";
    assert MARKER == name + [':'];
    ParseDecimal(count);
    ParseDecimal(total);
    SplitsOnce(name, ':', Decimal(count));
    assert name + [':'] + Decimal(count) == MARKER + Decimal(count);
    assert MARKER <= MARKER + Decimal(count);
    assert [Checksum(count, total)][1..] == [];
  }

  lemma ExtendedEmpty(accounts: seq<Account>, balances: seq<nat>)
    ensures Extended(EMPTY, accounts, balances) == Snapshot(accounts, balances, Total(balances))
  {
    assert [] + accounts == accounts && [] + balances == balances;
  }

  lemma WrittenRowsRead(accounts: seq<Account>, balances: seq<nat>, checksum: Row)
    requires |accounts| == |balances| && NoColons(accounts) && checksum == Checksum(|accounts|, Total(balances))
    ensures ReadRows(EMPTY, HolderRows(accounts, balances) + [checksum])
         == Read(Snapshot(accounts, balances, Total(balances)))
  {
    HolderRowsRead(EMPTY, accounts, balances, [checksum]);
    ExtendedEmpty(accounts, balances);
    ChecksumReads(Snapshot(accounts, balances, Total(balances)), |accounts|, Total(balances));
  }

  lemma RowsAccepted(known: OldContracts, rows: seq<Row>, s: Snapshot)
    requires ReadRows(EMPTY, rows) == Read(s)
    ensures ReadFile(known, rows) == Accepted(known, s)
  {
  }

  // What was written reads back up to the assertions on the two largest holders.
  lemma WrittenReads(known: OldContracts, accounts: seq<Account>, balances: seq<nat>, rows: seq<Row>)
    requires |accounts| == |balances| && NoColons(accounts) && rows == Written(accounts, balances, Total(balances))
    ensures ReadFile(known, rows) == Accepted(known, Snapshot(accounts, balances, Total(balances)))
  {
    WrittenRowsRead(accounts, balances, Checksum(|accounts|, Total(balances)));
    RowsAccepted(known, rows, Snapshot(accounts, balances, Total(balances)));
  }

  // Reading back what `snapshot` wrote returns the same holders and balances in the same order, exactly when the
  // two largest holders are the expected ones.
  lemma RoundTrip(known: OldContracts, accounts: seq<Account>, balances: seq<nat>, holders: map<Account, int>)
    requires Lists(accounts, balances, holders) && NoColons(accounts)
    ensures Sum(holders) == Total(balances)
    ensures ReadFile(known, Written(accounts, balances, Sum(holders)))
              == Read(Snapshot(accounts, balances, Sum(holders)))
       <==> |accounts| >= 2 && accounts[0] == known.deployer && accounts[1] == known.gateway
  {
    ListTotal(accounts, balances, holders);
    WrittenReads(known, accounts, balances, Written(accounts, balances, Total(balances)));
  }

  lemma TwoPartsRead(a: seq<Account>, b: seq<nat>, a2: seq<Account>, b2: seq<nat>, more: seq<Row>)
    returns (so: Snapshot)
    requires |a| == |b| && |a2| == |b2| && NoColons(a) && NoColons(a2)
    ensures ReadRows(EMPTY, HolderRows(a, b) + (HolderRows(a2, b2) + more)) == ReadRows(so, more)
    ensures |so.accounts| == |a| + |a2|
  {
    HolderRowsRead(EMPTY, a, b, HolderRows(a2, b2) + more);
    HolderRowsRead(Extended(EMPTY, a, b), a2, b2, more);
    so := Extended(Extended(EMPTY, a, b), a2, b2);
  }

  // A file that lost any one of its holder rows is rejected by its checksum, whatever total the checksum states.
  lemma LostHolderIsDetected(known: OldContracts, a: seq<Account>, b: seq<nat>, a2: seq<Account>, b2: seq<nat>,
                             total: nat)
    requires |a| == |b| && |a2| == |b2| && NoColons(a) && NoColons(a2)
    ensures ReadFile(known, HolderRows(a, b) + (HolderRows(a2, b2) + [Checksum(|a| + 1 + |a2|, total)]))
         == Failed(ChecksumMismatch)
  {
    var so := TwoPartsRead(a, b, a2, b2, [Checksum(|a| + 1 + |a2|, total)]);
    ChecksumReads(so, |a| + 1 + |a2|, total);
  }

  // A file cut short before its checksum row is not: the reader does not insist on one. Only the log line written
  // after the file guards against using it.
  lemma TruncationIsNotDetected(known: OldContracts, accounts: seq<Account>, balances: seq<nat>)
    requires |accounts| == |balances| && NoColons(accounts)
    ensures ReadFile(known, HolderRows(accounts, balances)).Read?
       <==> |accounts| >= 2 && accounts[0] == known.deployer && accounts[1] == known.gateway
  {
    HolderRowsRead(EMPTY, accounts, balances, []);
    assert HolderRows(accounts, balances) + [] == HolderRows(accounts, balances);
    ExtendedEmpty(accounts, balances);
    RowsAccepted(known, HolderRows(accounts, balances), Snapshot(accounts, balances, Total(balances)));
  }
}
