/** The ledger's operations, one at a time. Each is a guard and an effect on the
    tables; a log of them is replayed from the empty database. */
module Serial {
  import opened Common
  import opened WaterfallSpec
  import opened Database

  const SIGNUP_BONUS: nat := 100_000_000_000_000

  datatype Op =
    | SignUp(user: string, account: AccId, key: Key)
    | OpenAccount(account: AccId, currency: string)
    | Deposit(account: AccId, amount: nat)
    | Withdraw(account: AccId, amount: nat)
    | Transfer(source: AccId, dest: AccId, amount: nat, key: Key)
    | Issue(grant: GrantId, account: AccId, amount: nat, expiresAt: int, priority: int, key: Key)
    | Drawdown(account: AccId, amount: nat, ids: seq<GrantId>)
    | WaterfallDebit(account: AccId, amount: nat, now: int, ids: seq<GrantId>, seen: set<GrantId>)
    | Expire(marked: set<GrantId>, now: int)

  /** The list holds every grant of the account that is still eligible, of those
      that existed when it was taken. */
  ghost predicate Complete(grants: map<GrantId, Grant>, a: AccId, now: int, ids: seq<GrantId>, seen: set<GrantId>) {
    forall g | g in seen && g in grants && Eligible(grants[g], a, now) :: g in ids
  }

  ghost predicate Enabled(db: Db, op: Op) {
    match op
    case SignUp(user, a, key) => user !in db.users && a !in db.accounts && key !in db.txns
    case OpenAccount(a, currency) => a !in db.accounts
    case Deposit(a, amount) => amount > 0 && a in db.accounts
    case Withdraw(a, amount) => amount > 0 && a in db.accounts
    case Transfer(s, d, amount, key) =>
      && amount > 0 && s != d && s in db.accounts && d in db.accounts
      && db.accounts[s].currency == db.accounts[d].currency
      && db.accounts[s].balance >= amount && key !in db.txns
    case Issue(g, a, amount, expiresAt, priority, key) =>
      && amount > 0 && a in db.accounts && g !in db.grants
      && forall h | h in db.grants :: db.grants[h].key != key
    case Drawdown(a, amount, ids) => amount > 0 && Listed(db.grants, a, ids)
    case WaterfallDebit(a, amount, now, ids, seen) =>
      && amount > 0 && a in db.accounts && Listed(db.grants, a, ids)
      && (forall i | 0 <= i < |ids| :: db.grants[ids[i]].expiresAt > now)
      && Complete(db.grants, a, now, ids, seen)
      && Sum(Amounts(LiveRows(db.grants, ids))) + db.accounts[a].balance >= amount
    case Expire(ids, now) =>
      forall g | g in ids :: g in db.grants && db.grants[g].status == Active && db.grants[g].expiresAt < now
  }

  /** The grants of a list, drawn on in order. */
  ghost function DrawList(db: Db, ids: seq<GrantId>, amount: nat): Drawn
    requires forall i | 0 <= i < |ids| :: ids[i] in db.grants
    requires GrantsLive(db.grants)
    requires forall i, j | 0 <= i < j < |ids| :: ids[i] != ids[j]
  {
    LiveRowsFit(db.grants, ids);
    Drain(db.grants, LiveRows(db.grants, ids), amount)
  }

  ghost predicate GrantsLive(grants: map<GrantId, Grant>) {
    forall g | g in grants && grants[g].status == Active :: grants[g].remaining > 0
  }

  ghost function WithDrawn(db: Db, d: Drawn): Db {
    db.(grants := db.grants + d.rows, grantEntries := db.grantEntries + d.entries)
  }

  ghost function Apply(db: Db, op: Op): Db
    requires Enabled(db, op) && GrantsLive(db.grants)
  {
    match op
    case SignUp(user, a, key) =>
      Post(db.(users := db.users + {user},
               accounts := db.accounts[a := Account("USD", 0)],
               txns := db.txns[key := Txn(None, a, SIGNUP_BONUS, "USD")]),
           a, Credit, SIGNUP_BONUS, Some(key))
    case OpenAccount(a, currency) => db.(accounts := db.accounts[a := Account(currency, 0)])
    case Deposit(a, amount) => Post(db, a, Credit, amount, None)
    case Withdraw(a, amount) => Post(db, a, Debit, amount, None)
    case Transfer(s, d, amount, key) =>
      Post(Post(db.(txns := db.txns[key := Txn(Some(s), d, amount, db.accounts[s].currency)]),
                s, Debit, amount, Some(key)),
           d, Credit, amount, Some(key))
    case Issue(g, a, amount, expiresAt, priority, key) =>
      db.(grants := db.grants[g := Grant(a, amount, amount, expiresAt, priority, Active, key)])
    case Drawdown(a, amount, ids) => WithDrawn(db, DrawList(db, ids, amount))
    case WaterfallDebit(a, amount, now, ids, seen) =>
      var d := DrawList(db, ids, amount);
      if d.left == 0 then WithDrawn(db, d) else Post(WithDrawn(db, d), a, Debit, d.left, None)
    case Expire(ids, now) =>
      db.(grants := map g | g in db.grants :: if g in ids then db.grants[g].(status := Expired) else db.grants[g])
  }

  // Cash audit

  /** Credits less debits of one account. */
  function Net(entries: seq<Entry>, a: AccId): int {
    if entries == [] then 0
    else
      var last := entries[|entries| - 1];
      Net(entries[..|entries| - 1], a) + if last.account == a then Signed(last.kind, last.amount) else 0
  }

  lemma NetSnoc(entries: seq<Entry>, e: Entry, a: AccId)
    ensures Net(entries + [e], a) == Net(entries, a) + if e.account == a then Signed(e.kind, e.amount) else 0
  {
    assert (entries + [e])[..|entries|] == entries;
  }

  lemma {:induction false} NetOfOthers(entries: seq<Entry>, a: AccId)
    requires forall i | 0 <= i < |entries| :: entries[i].account != a
    ensures Net(entries, a) == 0
  {
    if entries != [] {
      NetOfOthers(entries[..|entries| - 1], a);
    }
  }

  /** Every balance is what its entries add up to, and every entry shows the
      balance that held right after it. */
  ghost predicate CashAudit(db: Db) {
    && (forall a | a in db.accounts :: db.accounts[a].balance == Net(db.entries, a))
    && (forall i | 0 <= i < |db.entries| :: Shows(db, i))
  }

  ghost predicate Shows(db: Db, i: nat)
    requires i < |db.entries|
  {
    var e := db.entries[i];
    && e.account in db.accounts && e.amount > 0
    && e.balanceAfter == Net(db.entries[..i + 1], e.account)
  }

  lemma PostKeepsAudit(db: Db, a: AccId, kind: Kind, amount: nat, txn: Option<Key>)
    requires CashAudit(db) && a in db.accounts && amount > 0
    ensures CashAudit(Post(db, a, kind, amount, txn))
  {
    var db' := Post(db, a, kind, amount, txn);
    var e := db'.entries[|db.entries|];
    forall b | b in db'.accounts ensures db'.accounts[b].balance == Net(db'.entries, b) {
      NetSnoc(db.entries, e, b);
    }
    forall i | 0 <= i < |db'.entries| ensures Shows(db', i) {
      if i < |db.entries| {
        assert Shows(db, i) && db'.entries[..i + 1] == db.entries[..i + 1];
      } else {
        assert db'.entries[..i + 1] == db'.entries;
      }
    }
  }

  lemma NewAccountKeepsAudit(db: Db, db': Db, a: AccId, currency: string)
    requires CashAudit(db) && a !in db.accounts
    requires db'.accounts == db.accounts[a := Account(currency, 0)] && db'.entries == db.entries
    ensures CashAudit(db')
  {
    forall i | 0 <= i < |db.entries| ensures db.entries[i].account != a && Shows(db', i) {
      assert Shows(db, i);
    }
    NetOfOthers(db.entries, a);
  }

  lemma SameCashKeepsAudit(db: Db, db': Db)
    requires CashAudit(db) && db'.accounts == db.accounts && db'.entries == db.entries
    ensures CashAudit(db')
  {
    forall i | 0 <= i < |db'.entries| ensures Shows(db', i) {
      assert Shows(db, i);
    }
  }

  lemma CashAuditKept(db: Db, op: Op)
    requires CashAudit(db) && GrantsLive(db.grants) && Enabled(db, op)
    ensures CashAudit(Apply(db, op))
  {
    match op
    case SignUp(user, a, key) =>
      var db1 := db.(users := db.users + {user}, accounts := db.accounts[a := Account("USD", 0)],
                     txns := db.txns[key := Txn(None, a, SIGNUP_BONUS, "USD")]);
      NewAccountKeepsAudit(db, db1, a, "USD");
      PostKeepsAudit(db1, a, Credit, SIGNUP_BONUS, Some(key));
    case OpenAccount(a, currency) => NewAccountKeepsAudit(db, Apply(db, op), a, currency);
    case Deposit(a, amount) => PostKeepsAudit(db, a, Credit, amount, None);
    case Withdraw(a, amount) => PostKeepsAudit(db, a, Debit, amount, None);
    case Transfer(s, d, amount, key) =>
      var db1 := db.(txns := db.txns[key := Txn(Some(s), d, amount, db.accounts[s].currency)]);
      SameCashKeepsAudit(db, db1);
      PostKeepsAudit(db1, s, Debit, amount, Some(key));
      PostKeepsAudit(Post(db1, s, Debit, amount, Some(key)), d, Credit, amount, Some(key));
    case Issue(_, _, _, _, _, _) => SameCashKeepsAudit(db, Apply(db, op));
    case Drawdown(_, _, _) => SameCashKeepsAudit(db, Apply(db, op));
    case WaterfallDebit(a, amount, now, ids, seen) =>
      var drawn := DrawList(db, ids, amount);
      SameCashKeepsAudit(db, WithDrawn(db, drawn));
      if drawn.left > 0 {
        PostKeepsAudit(WithDrawn(db, drawn), a, Debit, drawn.left, None);
      }
    case Expire(_, _) => SameCashKeepsAudit(db, Apply(db, op));
  }
}
