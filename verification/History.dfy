/** Whole histories: what holds after any sequence of committed operations. */
module History {
  import opened Common
  import opened WaterfallSpec
  import opened Totals
  import opened Database
  import opened Serial
  import opened GrantLife

  /** The database after a log, if every operation in it was allowed in its turn. */
  ghost function Replay(log: seq<Op>): Option<Db> {
    if log == [] then Some(EMPTY_DB)
    else
      var op := log[|log| - 1];
      match Replay(log[..|log| - 1])
      case None => None
      case Some(db) =>
        if GrantsLive(db.grants) && Enabled(db, op) then Some(Apply(db, op)) else None
  }

  ghost predicate Reachable(log: seq<Op>, db: Db) {
    Replay(log) == Some(db)
  }

  lemma ReplaySnoc(log: seq<Op>, db: Db, op: Op)
    requires Reachable(log, db) && GrantsLive(db.grants) && Enabled(db, op)
    ensures Reachable(log + [op], Apply(db, op))
  {
    assert (log + [op])[..|log|] == log;
  }

  lemma ReplayPrefix(log: seq<Op>, db: Db) returns (before: Db)
    requires Reachable(log, db) && log != []
    ensures Reachable(log[..|log| - 1], before)
    ensures GrantsLive(before.grants) && Enabled(before, log[|log| - 1]) && db == Apply(before, log[|log| - 1])
  {
    before := Replay(log[..|log| - 1]).value;
  }

  /** Reconciliation, the running balances and the grant life cycle hold in every
      reachable database. */
  lemma {:induction false} ReachableIsAudited(log: seq<Op>, db: Db)
    requires Reachable(log, db)
    ensures CashAudit(db) && GrantAudit(db) && GrantsLive(db.grants)
  {
    if log == [] {
      assert forall a :: Net([], a) == 0;
    } else {
      var before := ReplayPrefix(log, db);
      ReachableIsAudited(log[..|log| - 1], before);
      CashAuditKept(before, log[|log| - 1]);
      GrantAuditKept(before, log[|log| - 1]);
    }
  }

  /** Accounts, transactions, grant terms and finished grants survive every later
      operation. */
  lemma {:induction false} PrefixGrows(log: seq<Op>, n: nat, db: Db) returns (before: Db)
    requires Reachable(log, db) && n <= |log|
    ensures Reachable(log[..n], before) && Grows(before, db)
    decreases |log|
  {
    if n == |log| {
      before := db;
      assert log[..n] == log;
    } else {
      var last := ReplayPrefix(log, db);
      before := PrefixGrows(log[..|log| - 1], n, last);
      assert log[..|log| - 1][..n] == log[..n];
      ApplyGrows(last, log[|log| - 1]);
      GrowsTransitive(before, last, db);
    }
  }

  // The reconciliation report

  /** The rows the report would list: accounts whose balance is not the sum of
      their CREDIT entries minus the sum of their DEBIT entries. */
  ghost function Discrepancies(db: Db): set<AccId> {
    set a | a in db.accounts && db.accounts[a].balance != SumOf(db.entries, a, Credit) - SumOf(db.entries, a, Debit)
  }

  function SumOf(entries: seq<Entry>, a: AccId, kind: Kind): nat {
    if entries == [] then 0
    else
      SumOf(entries[1..], a, kind)
      + if entries[0].account == a && entries[0].kind == kind then entries[0].amount else 0
  }

  lemma {:induction false} SumOfSnoc(entries: seq<Entry>, e: Entry, a: AccId, kind: Kind)
    ensures SumOf(entries + [e], a, kind)
         == SumOf(entries, a, kind) + if e.account == a && e.kind == kind then e.amount else 0
  {
    if entries == [] {
      assert entries + [e] == [e] && [e][1..] == [];
    } else {
      SumOfSnoc(entries[1..], e, a, kind);
      assert (entries + [e])[1..] == entries[1..] + [e];
    }
  }

  lemma {:induction false} NetIsDifference(entries: seq<Entry>, a: AccId)
    ensures Net(entries, a) == SumOf(entries, a, Credit) - SumOf(entries, a, Debit)
  {
    if entries != [] {
      var n := |entries| - 1;
      NetIsDifference(entries[..n], a);
      SumOfSnoc(entries[..n], entries[n], a, Credit);
      SumOfSnoc(entries[..n], entries[n], a, Debit);
      assert entries[..n] + [entries[n]] == entries;
    }
  }

  /** The report is always empty. */
  lemma Reconciles(log: seq<Op>, db: Db)
    requires Reachable(log, db)
    ensures Discrepancies(db) == {}
  {
    ReachableIsAudited(log, db);
    forall a | a in db.accounts
      ensures db.accounts[a].balance == SumOf(db.entries, a, Credit) - SumOf(db.entries, a, Debit)
    {
      NetIsDifference(db.entries, a);
    }
  }

  // The running balance of one account

  function OfAccount(entries: seq<Entry>, a: AccId): seq<Entry> {
    if entries == [] then []
    else
      var last := entries[|entries| - 1];
      OfAccount(entries[..|entries| - 1], a) + if last.account == a then [last] else []
  }

  /** Each entry continues from the one before it. */
  ghost predicate Chained(entries: seq<Entry>) {
    forall i | 0 <= i < |entries| :: Continues(entries, i)
  }

  predicate Continues(entries: seq<Entry>, i: nat)
    requires i < |entries|
  {
    entries[i].balanceAfter
      == (if i == 0 then 0 else entries[i - 1].balanceAfter) + Signed(entries[i].kind, entries[i].amount)
  }

  lemma ChainedSnoc(own: seq<Entry>, e: Entry, running: int)
    requires Chained(own) && running == if own == [] then 0 else own[|own| - 1].balanceAfter
    requires e.balanceAfter == running + Signed(e.kind, e.amount)
    ensures Chained(own + [e])
  {
    forall i | 0 <= i < |own| + 1 ensures Continues(own + [e], i) {
      assert i < |own| ==> Continues(own, i);
    }
  }

  lemma NothingChained()
    ensures Chained([])
  {
  }

  lemma {:induction false} OfAccountChained(db: Db, n: nat, a: AccId)
    requires CashAudit(db) && n <= |db.entries|
    ensures
      var own := OfAccount(db.entries[..n], a);
      && Chained(own)
      && Net(db.entries[..n], a) == if own == [] then 0 else own[|own| - 1].balanceAfter
  {
    hide Chained;
    if n == 0 {
      NothingChained();
    } else {
      OfAccountChained(db, n - 1, a);
      var before, e := OfAccount(db.entries[..n - 1], a), db.entries[n - 1];
      assert db.entries[..n][..n - 1] == db.entries[..n - 1];
      assert Shows(db, n - 1);
      if e.account == a {
        ChainedSnoc(before, e, Net(db.entries[..n - 1], a));
      } else {
        assert OfAccount(db.entries[..n], a) == before;
      }
    }
  }

  /** An account's entries form one chain of running balances that starts at zero
      and ends at its current balance. */
  lemma RunningBalance(log: seq<Op>, db: Db, a: AccId)
    requires Reachable(log, db) && a in db.accounts
    ensures
      var own := OfAccount(db.entries, a);
      && Chained(own)
      && db.accounts[a].balance == if own == [] then 0 else own[|own| - 1].balanceAfter
  {
    ReachableIsAudited(log, db);
    OfAccountChained(db, |db.entries|, a);
    assert db.entries[..|db.entries|] == db.entries;
  }

  // Idempotency keys

  function KeyOf(op: Op): Option<Key> {
    match op
    case SignUp(_, _, key) => Some(key)
    case Transfer(_, _, _, key) => Some(key)
    case _ => None
  }

  function Uses(log: seq<Op>, key: Key): nat {
    if log == [] then 0
    else Uses(log[..|log| - 1], key) + if KeyOf(log[|log| - 1]) == Some(key) then 1 else 0
  }

  function Tagged(entries: seq<Entry>, key: Key): seq<Entry> {
    if entries == [] then []
    else
      var last := entries[|entries| - 1];
      Tagged(entries[..|entries| - 1], key) + if last.txn == Some(key) then [last] else []
  }

  lemma TaggedSnoc(entries: seq<Entry>, e: Entry, key: Key)
    ensures Tagged(entries + [e], key) == Tagged(entries, key) + if e.txn == Some(key) then [e] else []
  {
    assert (entries + [e])[..|entries|] == entries;
  }

  /** The entries that carry a stored transaction: one for a sign-up, a debit and a
      matching credit for a transfer. */
  predicate Carried(t: Txn, tagged: seq<Entry>) {
    match t.source
    case None =>
      |tagged| == 1 && tagged[0].account == t.destination && tagged[0].kind == Credit && tagged[0].amount == t.amount
    case Some(s) =>
      && |tagged| == 2
      && tagged[0].account == s && tagged[0].kind == Debit && tagged[0].amount == t.amount
      && tagged[1].account == t.destination && tagged[1].kind == Credit && tagged[1].amount == t.amount
  }

  lemma PostTags(db: Db, a: AccId, kind: Kind, amount: nat, txn: Option<Key>, key: Key)
    requires a in db.accounts
    ensures Tagged(Post(db, a, kind, amount, txn).entries, key)
         == Tagged(db.entries, key)
            + if txn == Some(key) then [Post(db, a, kind, amount, txn).entries[|db.entries|]] else []
  {
    TaggedSnoc(db.entries, Post(db, a, kind, amount, txn).entries[|db.entries|], key);
  }

  lemma TransferTags(db: Db, op: Op, key: Key)
    requires GrantsLive(db.grants) && Enabled(db, op) && op.Transfer?
    ensures op.key != key ==> Tagged(Apply(db, op).entries, key) == Tagged(db.entries, key)
    ensures op.key == key && Tagged(db.entries, key) == [] ==>
      Carried(Apply(db, op).txns[key], Tagged(Apply(db, op).entries, key))
  {
    var t := Txn(Some(op.source), op.dest, op.amount, db.accounts[op.source].currency);
    var db1 := db.(txns := db.txns[op.key := t]);
    var db2 := Post(db1, op.source, Debit, op.amount, Some(op.key));
    hide Tagged;
    PostTags(db1, op.source, Debit, op.amount, Some(op.key), key);
    PostTags(db2, op.dest, Credit, op.amount, Some(op.key), key);
    assert Apply(db, op) == Post(db2, op.dest, Credit, op.amount, Some(op.key));
  }

  lemma ApplyTags(db: Db, op: Op, key: Key)
    requires GrantsLive(db.grants) && Enabled(db, op)
    ensures KeyOf(op) != Some(key) ==> Tagged(Apply(db, op).entries, key) == Tagged(db.entries, key)
    ensures KeyOf(op) == Some(key) && Tagged(db.entries, key) == [] ==>
      key in Apply(db, op).txns && Carried(Apply(db, op).txns[key], Tagged(Apply(db, op).entries, key))
  {
    hide Tagged;
    match op
    case SignUp(user, a, k) =>
      PostTags(db.(users := db.users + {user}, accounts := db.accounts[a := Account("USD", 0)],
                   txns := db.txns[k := Txn(None, a, SIGNUP_BONUS, "USD")]),
               a, Credit, SIGNUP_BONUS, Some(k), key);
    case Deposit(a, amount) => PostTags(db, a, Credit, amount, None, key);
    case Withdraw(a, amount) => PostTags(db, a, Debit, amount, None, key);
    case Transfer(_, _, _, _) => TransferTags(db, op, key);
    case WaterfallDebit(a, amount, now, ids, seen) =>
      var d := DrawList(db, ids, amount);
      if d.left > 0 {
        PostTags(WithDrawn(db, d), a, Debit, d.left, None, key);
      }
    case _ =>
  }

  /** A key takes effect at most once, and its effect is its stored transaction and
      the entries that carry it. */
  lemma {:induction false} KeyTakesEffectOnce(log: seq<Op>, db: Db, key: Key)
    requires Reachable(log, db)
    ensures Uses(log, key) == if key in db.txns then 1 else 0
    ensures if key in db.txns then Carried(db.txns[key], Tagged(db.entries, key)) else Tagged(db.entries, key) == []
  {
    if log != [] {
      var before := ReplayPrefix(log, db);
      KeyTakesEffectOnce(log[..|log| - 1], before, key);
      ApplyTags(before, log[|log| - 1], key);
    }
  }

  /** No two grants were issued under one key. */
  lemma {:induction false} GrantKeysAreUnique(log: seq<Op>, db: Db, g: GrantId, h: GrantId)
    requires Reachable(log, db) && g in db.grants && h in db.grants && g != h
    ensures db.grants[g].key != db.grants[h].key
  {
    if log != [] {
      var before := ReplayPrefix(log, db);
      var op := log[|log| - 1];
      ApplyGrows(before, op);
      NewGrantsAreIssued(before, op);
      if g in before.grants && h in before.grants {
        GrantKeysAreUnique(log[..|log| - 1], before, g, h);
      }
    }
  }

  lemma NewGrantsAreIssued(db: Db, op: Op)
    requires GrantsLive(db.grants) && Enabled(db, op)
    ensures forall g | g in Apply(db, op).grants && g !in db.grants :: op.Issue? && g == op.grant
    ensures op.Issue? ==> Apply(db, op).grants[op.grant].key == op.key
  {
    match op
    case Drawdown(a, amount, ids) => DrawnAreListed(db, ids, amount);
    case WaterfallDebit(a, amount, now, ids, seen) => DrawnAreListed(db, ids, amount);
    case _ =>
  }

  lemma DrawnAreListed(db: Db, ids: seq<GrantId>, amount: nat)
    requires GrantsLive(db.grants) && forall i | 0 <= i < |ids| :: ids[i] in db.grants
    requires forall i, j | 0 <= i < j < |ids| :: ids[i] != ids[j]
    ensures forall g | g in DrawList(db, ids, amount).rows :: g in db.grants
  {
    LiveRowsFit(db.grants, ids);
    DrainAges(db.grants, LiveRows(db.grants, ids), amount);
  }

  // Overdrafts

  /** All that Withdraw ever took from an account. */
  function Withdrawn(log: seq<Op>, a: AccId): nat {
    if log == [] then 0
    else
      var last := log[|log| - 1];
      Withdrawn(log[..|log| - 1], a) + if last.Withdraw? && last.account == a then last.amount else 0
  }

  /** What a draw leaves to cash, the cash can bear. */
  lemma CashBearsTheRest(db: Db, a: AccId, amount: nat, ids: seq<GrantId>)
    requires GrantsLive(db.grants) && a in db.accounts && Listed(db.grants, a, ids)
    requires Sum(Amounts(LiveRows(db.grants, ids))) + db.accounts[a].balance >= amount
    ensures DrawList(db, ids, amount).left > 0 ==> db.accounts[a].balance >= DrawList(db, ids, amount).left
  {
    LiveRowsFit(db.grants, ids);
    var rows := LiveRows(db.grants, ids);
    DrainIsWaterfall(db.grants, rows, amount);
    WaterfallIsDraw(Amounts(rows), amount);
  }

  /** Only Withdraw can leave an account it debits below zero. */
  lemma DebitedStaysNonNegative(db: Db, op: Op, a: AccId)
    requires GrantsLive(db.grants) && Enabled(db, op) && a in db.accounts && !op.Withdraw?
    ensures Apply(db, op).accounts[a].balance < db.accounts[a].balance ==> Apply(db, op).accounts[a].balance >= 0
  {
    if op.WaterfallDebit? {
      CashBearsTheRest(db, op.account, op.amount, op.ids);
    }
  }

  /** Overdrafts never exceed what was withdrawn. */
  lemma {:induction false} OverdraftBound(log: seq<Op>, db: Db, a: AccId)
    requires Reachable(log, db) && a in db.accounts
    ensures db.accounts[a].balance >= -(Withdrawn(log, a) as int)
  {
    assert log != [];
    var before := ReplayPrefix(log, db);
    var op := log[|log| - 1];
    if a in before.accounts {
      OverdraftBound(log[..|log| - 1], before, a);
      if !op.Withdraw? {
        DebitedStaysNonNegative(before, op, a);
      }
    }
  }

  // Conservation

  function Held(db: Db, currency: string): map<int, int> {
    map a: AccId | a in db.accounts && db.accounts[a].currency == currency :: db.accounts[a].balance
  }

  /** What an operation brings into a currency from outside. */
  ghost function Inflow(db: Db, op: Op, currency: string): int
    requires GrantsLive(db.grants) && Enabled(db, op)
  {
    match op
    case SignUp(_, _, _) => if currency == "USD" then SIGNUP_BONUS as int else 0
    case Deposit(a, amount) => if db.accounts[a].currency == currency then amount as int else 0
    case Withdraw(a, amount) => if db.accounts[a].currency == currency then -(amount as int) else 0
    case WaterfallDebit(a, amount, _, ids, _) =>
      if db.accounts[a].currency == currency then -(DrawList(db, ids, amount).left as int) else 0
    case _ => 0
  }

  ghost function TotalInflow(log: seq<Op>, currency: string): int
    requires Replay(log).Some?
  {
    if log == [] then 0
    else TotalInflow(log[..|log| - 1], currency) + Inflow(Replay(log[..|log| - 1]).value, log[|log| - 1], currency)
  }

  lemma PostMovesTotal(db: Db, a: AccId, kind: Kind, amount: nat, txn: Option<Key>, currency: string)
    requires a in db.accounts
    ensures Total(Held(Post(db, a, kind, amount, txn), currency))
         == Total(Held(db, currency)) + if db.accounts[a].currency == currency then Signed(kind, amount) else 0
  {
    var db' := Post(db, a, kind, amount, txn);
    if db.accounts[a].currency == currency {
      TotalPut(Held(db, currency), a, db'.accounts[a].balance);
      assert Held(db', currency) == Held(db, currency)[a := db'.accounts[a].balance];
    } else {
      assert Held(db', currency) == Held(db, currency);
    }
  }

  lemma NewAccountMovesNothing(db: Db, db': Db, a: AccId, unit: string, currency: string)
    requires a !in db.accounts && db'.accounts == db.accounts[a := Account(unit, 0)]
    ensures Total(Held(db', currency)) == Total(Held(db, currency))
  {
    if unit == currency {
      TotalPut(Held(db, currency), a, 0);
      assert Held(db', currency) == Held(db, currency)[a := 0];
    } else {
      assert Held(db', currency) == Held(db, currency);
    }
  }

  lemma ApplyMovesInflow(db: Db, op: Op, currency: string)
    requires GrantsLive(db.grants) && Enabled(db, op)
    ensures Total(Held(Apply(db, op), currency)) == Total(Held(db, currency)) + Inflow(db, op, currency)
  {
    var db' := Apply(db, op);
    match op
    case SignUp(user, a, key) =>
      var db1 := db.(users := db.users + {user}, accounts := db.accounts[a := Account("USD", 0)],
                     txns := db.txns[key := Txn(None, a, SIGNUP_BONUS, "USD")]);
      NewAccountMovesNothing(db, db1, a, "USD", currency);
      PostMovesTotal(db1, a, Credit, SIGNUP_BONUS, Some(key), currency);
    case OpenAccount(a, unit) => NewAccountMovesNothing(db, db', a, unit, currency);
    case Deposit(a, amount) => PostMovesTotal(db, a, Credit, amount, None, currency);
    case Withdraw(a, amount) => PostMovesTotal(db, a, Debit, amount, None, currency);
    case Transfer(s, d, amount, key) =>
      var db1 := db.(txns := db.txns[key := Txn(Some(s), d, amount, db.accounts[s].currency)]);
      assert Held(db1, currency) == Held(db, currency);
      PostMovesTotal(db1, s, Debit, amount, Some(key), currency);
      PostMovesTotal(Post(db1, s, Debit, amount, Some(key)), d, Credit, amount, Some(key), currency);
    case WaterfallDebit(a, amount, now, ids, seen) =>
      var drawn := DrawList(db, ids, amount);
      assert Held(WithDrawn(db, drawn), currency) == Held(db, currency);
      if drawn.left > 0 {
        PostMovesTotal(WithDrawn(db, drawn), a, Debit, drawn.left, None, currency);
      }
    case _ => assert Held(db', currency) == Held(db, currency);
  }

  /** In every currency the balances add up to sign-up credits and deposits less
      withdrawals and cash consumed; transfers and grants contribute nothing. */
  lemma {:induction false} Conservation(log: seq<Op>, db: Db, currency: string)
    requires Reachable(log, db)
    ensures Total(Held(db, currency)) == TotalInflow(log, currency)
  {
    if log == [] {
      assert Held(db, currency) == map[];
    } else {
      var before := ReplayPrefix(log, db);
      Conservation(log[..|log| - 1], before, currency);
      ApplyMovesInflow(before, log[|log| - 1], currency);
    }
  }
}
