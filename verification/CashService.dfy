/** The cash side: sign-up, deposits, withdrawals, transfers and the reconciliation
    report, each run as one transaction over the tables. */
module CashService {
  import opened Common
  import opened Database
  import opened Serial
  import opened GrantLife
  import opened History
  import opened Sessions
  import opened PostgresTables

  /** What the unlocked reads at the start of a transfer returned. */
  datatype Reads = Reads(txn: Option<Txn>, source: Option<Account>, dest: Option<Account>)

  /** The rows were committed at some earlier moment. They may be stale: a key may
      have been stored since, and balances may have moved. */
  ghost predicate WasCommitted(seen: Reads, db: Db, s: AccId, d: AccId, key: Key) {
    && (seen.txn.Some? ==> key in db.txns && db.txns[key] == seen.txn.value)
    && (seen.source.Some? ==> s in db.accounts && db.accounts[s].currency == seen.source.value.currency)
    && (seen.dest.Some? ==> d in db.accounts && db.accounts[d].currency == seen.dest.value.currency)
  }

  /** Reads that see the tables as they are. */
  function ReadNow(db: Db, s: AccId, d: AccId, key: Key): Reads {
    Reads(if key in db.txns then Some(db.txns[key]) else None,
          if s in db.accounts then Some(db.accounts[s]) else None,
          if d in db.accounts then Some(db.accounts[d]) else None)
  }

  /** Reads of any earlier committed tables qualify. */
  lemma EarlierReadsWereCommitted(db: Db, db': Db, s: AccId, d: AccId, key: Key)
    requires Grows(db, db')
    ensures WasCommitted(ReadNow(db, s, d, key), db', s, d, key)
  {
  }

  class LedgerService {
    const tables: Tables

    constructor (tables: Tables)
      ensures this.tables == tables
    {
      this.tables := tables;
    }

    /** Either the whole transfer or nothing, whatever the unlocked reads showed. */
    method Transfer(s: AccId, d: AccId, amount: int, key: Key, seen: Reads) returns (outcome: Outcome)
      requires GrantsLive(tables.grants) && WasCommitted(seen, tables.View(), s, d, key)
      modifies tables
      ensures outcome.Completed? ==>
        && amount > 0 && Enabled(old(tables.View()), Op.Transfer(s, d, amount, key))
        && tables.View() == Apply(old(tables.View()), Op.Transfer(s, d, amount, key))
      ensures !outcome.Completed? ==> tables.View() == old(tables.View())
      ensures outcome.Existing? ==> key in old(tables.txns) && outcome.txn == old(tables.txns)[key]
      ensures seen == ReadNow(old(tables.View()), s, d, key) ==>
        && (outcome.Completed? <==> amount > 0 && Enabled(old(tables.View()), Op.Transfer(s, d, amount, key)))
        && (outcome.Existing? <==> amount > 0 && s != d && key in old(tables.txns))
        && (outcome == Failed(CurrencyMismatch) <==>
              && amount > 0 && s != d && key !in old(tables.txns)
              && s in old(tables.accounts) && d in old(tables.accounts)
              && old(tables.accounts)[s].currency != old(tables.accounts)[d].currency)
        && (outcome == Failed(InsufficientFunds) <==>
              && amount > 0 && s != d && key !in old(tables.txns)
              && s in old(tables.accounts) && d in old(tables.accounts)
              && old(tables.accounts)[s].currency == old(tables.accounts)[d].currency
              && old(tables.accounts)[s].balance < amount)
        && outcome != Failed(DuplicateKey)
      ensures outcome == Failed(InvalidAmount) <==> amount <= 0
      ensures outcome == Failed(SameAccount) <==> amount > 0 && s == d
      ensures outcome == Failed(AccountNotFound) <==>
        amount > 0 && s != d && seen.txn.None? && (seen.source.None? || seen.dest.None?)
    {
      hide Apply, Enabled, Discrepancies;
      if amount > 0 {
        TransferEnabled(tables.View(), s, d, amount, key);
      }
      if amount <= 0 {
        return Failed(InvalidAmount);
      }
      if s == d {
        return Failed(SameAccount);
      }
      ghost var begun := tables.View();
      tables.Begin();
      if seen.txn.Some? {
        return Existing(seen.txn.value);
      }
      if seen.source.None? || seen.dest.None? {
        return Failed(AccountNotFound);
      }
      if seen.source.value.currency != seen.dest.value.currency {
        return Failed(CurrencyMismatch);
      }
      if seen.source.value.balance < amount {
        return Failed(InsufficientFunds);
      }
      var moved := MoveInOrder(s, d, amount);
      if moved.None? {
        tables.Rollback();
        return Failed(InsufficientFunds);
      }
      var updatedDest := tables.accounts[d];
      var inserted := tables.CreateTransaction(key, Txn(Some(s), d, amount, seen.source.value.currency));
      if !inserted {
        tables.Rollback();
        return Failed(DuplicateKey);
      }
      tables.CreateLedgerEntry(Entry(s, Debit, amount, moved.value.balance, Some(key)));
      tables.CreateLedgerEntry(Entry(d, Credit, amount, updatedDest.balance, Some(key)));
      AppliedTransfer(begun, s, d, amount, key);
      return Completed;
    }

    /** Both balances, the account with the smaller identifier first. If the debit
        finds too little, a credit made before it is still standing. */
    method MoveInOrder(s: AccId, d: AccId, amount: nat) returns (source: Option<Account>)
      requires s != d && s in tables.accounts && d in tables.accounts
      modifies tables`accounts
      ensures source.Some? <==> old(tables.accounts)[s].balance >= amount
      ensures source.Some? ==>
        source.value == old(tables.accounts)[s].(balance := old(tables.accounts)[s].balance - amount)
      ensures source.Some? ==>
        var credited := old(tables.accounts)[d].(balance := old(tables.accounts)[d].balance + amount);
        tables.accounts == old(tables.accounts)[s := source.value][d := credited]
    {
      if s < d {
        source := tables.DebitAccount(s, amount);
        if source.Some? {
          var _ := tables.CreditAccount(d, amount);
        }
      } else {
        var _ := tables.CreditAccount(d, amount);
        source := tables.DebitAccount(s, amount);
      }
    }

    method Deposit(a: AccId, amount: int) returns (outcome: Outcome)
      requires GrantsLive(tables.grants)
      modifies tables
      ensures outcome == (if amount <= 0 then Failed(InvalidAmount)
                          else if a !in old(tables.accounts) then Failed(AccountNotFound) else Completed)
      ensures tables.View() ==
        if outcome.Completed? then Apply(old(tables.View()), Op.Deposit(a, amount))
        else old(tables.View())
    {
      if amount <= 0 {
        return Failed(InvalidAmount);
      }
      var found := tables.DepositAtomic(a, amount);
      return if found then Completed else Failed(AccountNotFound);
    }

    /** No balance is too small for a withdrawal. */
    method Withdraw(a: AccId, amount: int) returns (outcome: Outcome)
      requires GrantsLive(tables.grants)
      modifies tables
      ensures outcome == (if amount <= 0 then Failed(InvalidAmount)
                          else if a !in old(tables.accounts) then Failed(AccountNotFound) else Completed)
      ensures tables.View() ==
        if outcome.Completed? then Apply(old(tables.View()), Op.Withdraw(a, amount))
        else old(tables.View())
    {
      if amount <= 0 {
        return Failed(InvalidAmount);
      }
      var found := tables.WithdrawAtomic(a, amount);
      return if found then Completed else Failed(AccountNotFound);
    }

    /** A new user with one account, its bonus, and the records of both. The key is
        derived from the user's name, so it may turn out to be taken. */
    method CreateUser(user: string, a: AccId, key: Key) returns (ok: bool)
      requires GrantsLive(tables.grants) && a !in tables.accounts
      modifies tables
      ensures ok <==> Enabled(old(tables.View()), Op.SignUp(user, a, key))
      ensures ok <==> user !in old(tables.users) && key !in old(tables.txns)
      ensures tables.View() == if ok then Apply(old(tables.View()), Op.SignUp(user, a, key)) else old(tables.View())
    {
      ghost var begun := tables.View();
      tables.Begin();
      if user in tables.users {
        return false;
      }
      tables.users := tables.users + {user};
      tables.accounts := tables.accounts[a := Account("USD", 0)];
      var _ := tables.CreditAccount(a, SIGNUP_BONUS);
      ok := tables.CreateTransaction(key, Txn(None, a, SIGNUP_BONUS, "USD"));
      if !ok {
        tables.Rollback();
        return;
      }
      tables.CreateLedgerEntry(Entry(a, Credit, SIGNUP_BONUS, SIGNUP_BONUS, Some(key)));
      AppliedSignUp(begun, user, a, key);
    }

    /** Credits less debits of one account, and how many entries there are. */
    method LedgerBalance(a: AccId) returns (sum: int, count: nat)
      ensures sum == Net(tables.entries, a) && count == |OfAccount(tables.entries, a)|
    {
      sum, count := 0, 0;
      var i := 0;
      while i < |tables.entries|
        invariant 0 <= i <= |tables.entries|
        invariant sum == Net(tables.entries[..i], a) && count == |OfAccount(tables.entries[..i], a)|
      {
        var e := tables.entries[i];
        NetSnoc(tables.entries[..i], e, a);
        assert tables.entries[..i + 1][..i] == tables.entries[..i];
        assert tables.entries[..i] + [e] == tables.entries[..i + 1];
        if e.account == a {
          sum := sum + if e.kind == Credit then e.amount else -(e.amount as int);
          count := count + 1;
        }
        i := i + 1;
      }
      assert tables.entries[..i] == tables.entries;
    }

    /** The report over the accounts of a sample: one row per account whose balance is
        not what its entries add up to, largest discrepancies first, up to the limit. */
    method Reconcile(limit: int, sample: set<AccId>) returns (rows: seq<ReconcileRow>)
      requires sample <= tables.accounts.Keys
      ensures
        Reports(tables.View(), Discrepancies(tables.View()) * sample, if limit > 0 then limit else 100, rows)
    {
      hide Net, OfAccount, Lists, SumOf, Reports;
      NothingListed(tables.View());
      var all: seq<ReconcileRow> := [];
      var open, found: set<AccId> := sample, {};
      while exists a :: a in open
        invariant open <= sample && found == Discrepancies(tables.View()) * (sample - open)
        invariant Lists(tables.View(), all, found)
        decreases |open|
      {
        var a: AccId :| a in open;
        var sum, count := LedgerBalance(a);
        NetIsDifference(tables.entries, a);
        var balance := tables.accounts[a].balance;
        if balance != sum {
          all := InsertRow(tables.View(), all, found, ReconcileRow(a, balance, sum, balance - sum, count));
          found := found + {a};
        }
        open := open - {a};
      }
      var n: nat := if limit > 0 then limit else 100;
      assert found == Discrepancies(tables.View()) * sample;
      HeadIsReport(tables.View(), all, found, n);
      rows := if |all| > n then all[..n] else all;
    }

    method InsertRow(ghost db: Db, rows: seq<ReconcileRow>, ghost found: set<AccId>, row: ReconcileRow)
      returns (more: seq<ReconcileRow>)
      requires Lists(db, rows, found) && row.account in db.accounts && row.account !in found
      requires row == RowFor(db, row.account)
      ensures Lists(db, more, found + {row.account})
    {
      var i := |rows|;
      while i > 0 && rows[i - 1].Size() < row.Size()
        invariant 0 <= i <= |rows| && forall k | i <= k < |rows| :: rows[k].Size() < row.Size()
      {
        i := i - 1;
      }
      more := Inserted(rows, row, i);
      InsertedIsListed(db, rows, found, row, i);
    }
  }

  function Abs(x: int): (r: nat)
    ensures r == x || r == -x
  {
    if x < 0 then -x else x
  }

  datatype ReconcileRow =
    ReconcileRow(account: AccId, balance: int, ledger: int, discrepancy: int, count: nat)
  {
    function Size(): nat {
      Abs(discrepancy)
    }
  }

  /** Each row shows the account's balance, what its entries add up to, how many they
      are, and the balance less that sum. */
  ghost predicate InColumns(db: Db, wrong: set<AccId>, rows: seq<ReconcileRow>) {
    forall i | 0 <= i < |rows| ::
      var a := rows[i].account;
      && a in wrong && a in db.accounts && rows[i].balance == db.accounts[a].balance
      && rows[i].ledger == Net(db.entries, a) && rows[i].count == |OfAccount(db.entries, a)|
      && rows[i].discrepancy == db.accounts[a].balance - Net(db.entries, a)
  }

  predicate LargestFirst(rows: seq<ReconcileRow>) {
    forall i, j | 0 <= i < j < |rows| ::
      rows[i].account != rows[j].account && Abs(rows[i].discrepancy) >= Abs(rows[j].discrepancy)
  }

  ghost predicate NoneLargerLeftOut(db: Db, wrong: set<AccId>, rows: seq<ReconcileRow>) {
    forall a | a in wrong && a in db.accounts && (forall i | 0 <= i < |rows| :: rows[i].account != a) ::
      forall i | 0 <= i < |rows| :: Abs(rows[i].discrepancy) >= Abs(db.accounts[a].balance - Net(db.entries, a))
  }

  /** At most n rows on these accounts, the largest discrepancies first. */
  ghost predicate Reports(db: Db, wrong: set<AccId>, n: nat, rows: seq<ReconcileRow>) {
    |rows| == Min(n, |wrong|) && InColumns(db, wrong, rows) && LargestFirst(rows) && NoneLargerLeftOut(db, wrong, rows)
  }

  function RowFor(db: Db, a: AccId): ReconcileRow
    requires a in db.accounts
  {
    var balance, sum := db.accounts[a].balance, Net(db.entries, a);
    ReconcileRow(a, balance, sum, balance - sum, |OfAccount(db.entries, a)|)
  }

  /** Different accounts, in falling order of the discrepancy's size. */
  ghost predicate Ranked(rows: seq<ReconcileRow>) {
    forall i, j | 0 <= i < j < |rows| :: rows[i].account != rows[j].account && rows[i].Size() >= rows[j].Size()
  }

  ghost predicate Lists(db: Db, rows: seq<ReconcileRow>, found: set<AccId>) {
    && Ranked(rows) && |rows| == |found| && found <= db.accounts.Keys
    && (forall i | 0 <= i < |rows| :: rows[i].account in found && rows[i] == RowFor(db, rows[i].account))
    && (forall a | a in found :: exists i :: 0 <= i < |rows| && rows[i].account == a)
  }

  function Inserted(rows: seq<ReconcileRow>, row: ReconcileRow, i: nat): (more: seq<ReconcileRow>)
    requires i <= |rows|
    ensures |more| == |rows| + 1
    ensures forall k | 0 <= k < |more| :: more[k] == if k < i then rows[k] else if k == i then row else rows[k - 1]
  {
    rows[..i] + [row] + rows[i..]
  }

  lemma InsertedIsRanked(rows: seq<ReconcileRow>, row: ReconcileRow, i: nat)
    requires Ranked(rows) && i <= |rows| && forall k | 0 <= k < |rows| :: rows[k].account != row.account
    requires forall k | i <= k < |rows| :: rows[k].Size() < row.Size()
    requires i > 0 ==> rows[i - 1].Size() >= row.Size()
    ensures Ranked(Inserted(rows, row, i))
  {
    hide ReconcileRow.Size;
    forall k | 0 <= k < i ensures rows[k].Size() >= row.Size() {
      assert k < i - 1 ==> rows[k].Size() >= rows[i - 1].Size();
    }
  }

  lemma InsertedIsListed(db: Db, rows: seq<ReconcileRow>, found: set<AccId>, row: ReconcileRow, i: nat)
    requires Lists(db, rows, found) && row.account in db.accounts && row.account !in found
    requires row == RowFor(db, row.account)
    requires i <= |rows| && forall k | i <= k < |rows| :: rows[k].Size() < row.Size()
    requires i > 0 ==> rows[i - 1].Size() >= row.Size()
    ensures Lists(db, Inserted(rows, row, i), found + {row.account})
  {
    hide Net, OfAccount, ReconcileRow.Size, RowFor, Ranked;
    InsertedIsRanked(rows, row, i);
    InsertedRows(db, rows, found, row, i);
  }

  lemma InsertedRows(db: Db, rows: seq<ReconcileRow>, found: set<AccId>, row: ReconcileRow, i: nat)
    requires i <= |rows| && found <= db.accounts.Keys && row.account in db.accounts && row == RowFor(db, row.account)
    requires forall k | 0 <= k < |rows| :: rows[k].account in found && rows[k] == RowFor(db, rows[k].account)
    requires forall a | a in found :: exists k :: 0 <= k < |rows| && rows[k].account == a
    ensures
      var more, all := Inserted(rows, row, i), found + {row.account};
      && (forall k | 0 <= k < |more| :: more[k].account in all && more[k] == RowFor(db, more[k].account))
      && (forall a | a in all :: exists k :: 0 <= k < |more| && more[k].account == a)
  {
    hide RowFor;
    var more := Inserted(rows, row, i);
    forall k | 0 <= k < |more|
      ensures more[k].account in found + {row.account} && more[k] == RowFor(db, more[k].account)
    {
      if k < i {
        assert more[k] == rows[k];
      } else if k > i {
        assert more[k] == rows[k - 1];
      }
    }
    InsertedCovers(rows, found, row, i);
  }

  lemma InsertedCovers(rows: seq<ReconcileRow>, found: set<AccId>, row: ReconcileRow, i: nat)
    requires i <= |rows| && forall a | a in found :: exists k :: 0 <= k < |rows| && rows[k].account == a
    ensures forall a | a in found + {row.account} ::
      exists k :: 0 <= k < |Inserted(rows, row, i)| && Inserted(rows, row, i)[k].account == a
  {
    var more := Inserted(rows, row, i);
    forall a | a in found + {row.account} ensures exists k :: 0 <= k < |more| && more[k].account == a {
      if a == row.account {
        assert more[i].account == a;
      } else {
        var k :| 0 <= k < |rows| && rows[k].account == a;
        assert more[if k < i then k else k + 1].account == a;
      }
    }
  }

  lemma NothingListed(db: Db)
    ensures Lists(db, [], {})
  {
  }

  /** The head of the full list is the report. */
  lemma HeadIsReport(db: Db, all: seq<ReconcileRow>, wrong: set<AccId>, n: nat)
    requires Lists(db, all, wrong)
    ensures Reports(db, wrong, n, if |all| > n then all[..n] else all)
  {
    hide Net, OfAccount, Ranked, InColumns, LargestFirst, NoneLargerLeftOut, RowFor;
    var rows := if |all| > n then all[..n] else all;
    assert forall i | 0 <= i < |rows| :: rows[i] == all[i];
    RowsInColumns(db, wrong, rows);
    HeadIsLargest(all, n);
    RestIsSmaller(db, all, wrong, n);
  }

  lemma HeadIsLargest(all: seq<ReconcileRow>, n: nat)
    requires Ranked(all)
    ensures LargestFirst(if |all| > n then all[..n] else all)
  {
    hide Abs;
    forall i, j | 0 <= i < j < |all| ensures Abs(all[i].discrepancy) >= Abs(all[j].discrepancy) {
      assert all[i].Size() >= all[j].Size();
    }
  }

  lemma RowsInColumns(db: Db, wrong: set<AccId>, rows: seq<ReconcileRow>)
    requires wrong <= db.accounts.Keys
    requires forall i | 0 <= i < |rows| :: rows[i].account in wrong && rows[i] == RowFor(db, rows[i].account)
    ensures InColumns(db, wrong, rows)
  {
    hide Net, OfAccount;
  }

  lemma RestIsSmaller(db: Db, all: seq<ReconcileRow>, wrong: set<AccId>, n: nat)
    requires Lists(db, all, wrong)
    ensures NoneLargerLeftOut(db, wrong, if |all| > n then all[..n] else all)
  {
    hide Net, OfAccount, Abs, RowFor, Ranked;
    var rows := if |all| > n then all[..n] else all;
    assert forall i | 0 <= i < |rows| :: rows[i] == all[i];
    forall a | a in wrong && a in db.accounts && (forall i | 0 <= i < |rows| :: rows[i].account != a)
      ensures forall i | 0 <= i < |rows| ::
        Abs(rows[i].discrepancy) >= Abs(db.accounts[a].balance - Net(db.entries, a))
    {
      var k :| 0 <= k < |all| && all[k].account == a;
      RowInColumns(db, a);
      SmallerLater(all, |rows|, k);
    }
  }

  lemma RowInColumns(db: Db, a: AccId)
    requires a in db.accounts
    ensures
      var row := RowFor(db, a);
      && row.account == a && row.balance == db.accounts[a].balance && row.ledger == Net(db.entries, a)
      && row.count == |OfAccount(db.entries, a)| && row.discrepancy == db.accounts[a].balance - Net(db.entries, a)
  {
  }

  lemma SmallerLater(all: seq<ReconcileRow>, n: nat, k: nat)
    requires Ranked(all) && n <= k < |all|
    ensures forall i | 0 <= i < n :: Abs(all[i].discrepancy) >= Abs(all[k].discrepancy)
  {
    forall i | 0 <= i < n ensures Abs(all[i].discrepancy) >= Abs(all[k].discrepancy) {
      assert all[i].Size() >= all[k].Size();
    }
  }

  lemma TransferEnabled(db: Db, s: AccId, d: AccId, amount: nat, key: Key)
    ensures Enabled(db, Op.Transfer(s, d, amount, key)) <==>
      && amount > 0 && s != d && s in db.accounts && d in db.accounts
      && db.accounts[s].currency == db.accounts[d].currency
      && db.accounts[s].balance >= amount && key !in db.txns
  {
  }

  lemma AppliedTransfer(db: Db, s: AccId, d: AccId, amount: nat, key: Key)
    requires GrantsLive(db.grants) && Enabled(db, Op.Transfer(s, d, amount, key))
    ensures
      var cash, credited := db.accounts[s].balance - amount, db.accounts[d].balance + amount;
      Apply(db, Op.Transfer(s, d, amount, key)) == db.(
        accounts := db.accounts[s := db.accounts[s].(balance := cash)][d := db.accounts[d].(balance := credited)],
        entries := db.entries + [Entry(s, Debit, amount, cash, Some(key))]
                   + [Entry(d, Credit, amount, credited, Some(key))],
        txns := db.txns[key := Txn(Some(s), d, amount, db.accounts[s].currency)])
  {
  }

  lemma AppliedSignUp(db: Db, user: string, a: AccId, key: Key)
    requires GrantsLive(db.grants) && Enabled(db, Op.SignUp(user, a, key))
    ensures Apply(db, Op.SignUp(user, a, key)) == db.(
      users := db.users + {user},
      accounts := db.accounts[a := Account("USD", SIGNUP_BONUS)],
      entries := db.entries + [Entry(a, Credit, SIGNUP_BONUS, SIGNUP_BONUS, Some(key))],
      txns := db.txns[key := Txn(None, a, SIGNUP_BONUS, "USD")])
  {
  }
}
