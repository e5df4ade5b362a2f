/** The PostgreSQL tables of the ledger and the pure steps that every operation is
    made of. Money is counted in units of 10^-12. Entries stand in commit order. */
module Database {
  import opened Common
  import opened WaterfallSpec

  type AccId = nat
  type GrantId = nat
  type Key = nat

  datatype Account = Account(currency: string, balance: int)

  datatype Kind = Debit | Credit

  datatype Entry = Entry(account: AccId, kind: Kind, amount: nat, balanceAfter: int, txn: Option<Key>)

  datatype Txn = Txn(source: Option<AccId>, destination: AccId, amount: nat, currency: string)

  datatype Status = Active | Depleted | Expired

  datatype Grant = Grant(
    account: AccId, initial: nat, remaining: nat, expiresAt: int, priority: int, status: Status, key: Key)

  datatype GrantEntry = GrantEntry(grant: GrantId, amount: nat, remainingAfter: nat)

  datatype Db = Db(
    users: set<string>,
    accounts: map<AccId, Account>,
    entries: seq<Entry>,
    txns: map<Key, Txn>,
    grants: map<GrantId, Grant>,
    grantEntries: seq<GrantEntry>)

  const EMPTY_DB: Db := Db({}, map[], [], map[], map[], [])

  // Cash

  function Signed(kind: Kind, amount: nat): int {
    if kind == Credit then amount as int else -(amount as int)
  }

  /** Moves one balance and appends the entry that records it. */
  function Post(db: Db, a: AccId, kind: Kind, amount: nat, txn: Option<Key>): Db
    requires a in db.accounts
  {
    var after := db.accounts[a].balance + Signed(kind, amount);
    db.(accounts := db.accounts[a := db.accounts[a].(balance := after)],
        entries := db.entries + [Entry(a, kind, amount, after, txn)])
  }

  // Grants

  predicate Eligible(g: Grant, a: AccId, now: int) {
    g.account == a && g.status == Active && g.remaining > 0 && g.expiresAt > now
  }

  /** The order clause: priority, then expiry. Ties are left open. */
  predicate Precedes(g: Grant, h: Grant) {
    g.priority < h.priority || (g.priority == h.priority && g.expiresAt <= h.expiresAt)
  }

  /** A list of an account's grants as a query may return it. */
  ghost predicate Listed(grants: map<GrantId, Grant>, a: AccId, ids: seq<GrantId>) {
    && (forall i | 0 <= i < |ids| :: ids[i] in grants && grants[ids[i]].account == a)
    && (forall i, j | 0 <= i < j < |ids| :: ids[i] != ids[j] && Precedes(grants[ids[i]], grants[ids[j]]))
  }

  /** A grant row as read under its lock. */
  datatype Row = Row(id: GrantId, amount: nat)

  function LiveRows(grants: map<GrantId, Grant>, ids: seq<GrantId>): (rows: seq<Row>)
    requires forall i | 0 <= i < |ids| :: ids[i] in grants
    ensures |rows| <= |ids|
  {
    if ids == [] then []
    else
      var last := ids[|ids| - 1];
      var rows := LiveRows(grants, ids[..|ids| - 1]);
      if grants[last].status == Active then rows + [Row(last, grants[last].remaining)] else rows
  }

  function Amounts(rows: seq<Row>): (s: seq<nat>)
    ensures |s| == |rows|
  {
    seq(|rows|, i requires 0 <= i < |rows| => rows[i].amount)
  }

  /** The rows are live, different, and hold what the table holds. */
  ghost predicate Fit(grants: map<GrantId, Grant>, rows: seq<Row>) {
    && (forall i | 0 <= i < |rows| ::
          && rows[i].id in grants && grants[rows[i].id].status == Active
          && grants[rows[i].id].remaining == rows[i].amount > 0)
    && (forall i, j | 0 <= i < j < |rows| :: rows[i].id != rows[j].id)
  }

  /** A draw in progress: rows rewritten, audit entries, amount still open. */
  datatype Drawn = Drawn(rows: map<GrantId, Grant>, entries: seq<GrantEntry>, left: nat)

  /** One turn of the consumption loop. */
  function TakeRow(grants: map<GrantId, Grant>, d: Drawn, row: Row): Drawn
    requires row.id in grants && row.amount <= grants[row.id].remaining
  {
    if d.left == 0 then d
    else
      var consumed := Min(row.amount, d.left);
      var g := grants[row.id];
      var g' := if row.amount == consumed then g.(remaining := 0, status := Depleted)
                else g.(remaining := g.remaining - consumed);
      Drawn(d.rows[row.id := g'], d.entries + [GrantEntry(row.id, consumed, row.amount - consumed)], d.left - consumed)
  }

  function Drain(grants: map<GrantId, Grant>, rows: seq<Row>, amount: nat): Drawn
    requires forall i | 0 <= i < |rows| :: rows[i].id in grants && rows[i].amount <= grants[rows[i].id].remaining
  {
    if rows == [] then Drawn(map[], [], amount)
    else TakeRow(grants, Drain(grants, rows[..|rows| - 1], amount), rows[|rows| - 1])
  }

  // What the consumption loop amounts to

  function Reduced(g: Grant, take: nat): Grant
    requires take <= g.remaining
  {
    g.(remaining := g.remaining - take, status := if take == g.remaining then Depleted else g.status)
  }

  predicate Within(rows: seq<Row>, takes: seq<nat>) {
    |takes| == |rows| && forall i | 0 <= i < |rows| :: takes[i] <= rows[i].amount
  }

  /** One audit entry per row that gives anything, in order. */
  function ShareEntries(rows: seq<Row>, takes: seq<nat>): seq<GrantEntry>
    requires Within(rows, takes)
  {
    if rows == [] then []
    else
      var n := |rows| - 1;
      ShareEntries(rows[..n], takes[..n])
      + if takes[n] == 0 then [] else [GrantEntry(rows[n].id, takes[n], rows[n].amount - takes[n])]
  }

  /** Exactly the rows that give something are rewritten, each reduced by its share. */
  ghost predicate Rewritten(grants: map<GrantId, Grant>, rows: seq<Row>, written: map<GrantId, Grant>, takes: seq<nat>)
    requires Fit(grants, rows) && Within(rows, takes)
  {
    && (forall i | 0 <= i < |rows| && takes[i] > 0 ::
          rows[i].id in written && written[rows[i].id] == Reduced(grants[rows[i].id], takes[i]))
    && (forall id | id in written :: exists i :: 0 <= i < |rows| && rows[i].id == id && takes[i] > 0)
  }

  ghost predicate DrainedBy(grants: map<GrantId, Grant>, rows: seq<Row>, amount: nat, d: Drawn, takes: seq<nat>)
    requires Fit(grants, rows)
  {
    && Within(rows, takes) && d.left == amount - Sum(takes)
    && Rewritten(grants, rows, d.rows, takes)
    && d.entries == ShareEntries(rows, takes)
  }

  /** The loop over locked rows takes the waterfall of their amounts. */
  lemma {:induction false} DrainIsWaterfall(grants: map<GrantId, Grant>, rows: seq<Row>, amount: nat)
    requires Fit(grants, rows)
    ensures DrainedBy(grants, rows, amount, Drain(grants, rows, amount), Waterfall(Amounts(rows), amount))
    decreases |rows|
  {
    if rows == [] {
      assert Amounts([]) == [];
    } else {
      hide Drain, Waterfall, DrainedBy, Sum, Amounts;
      var before, last := rows[..|rows| - 1], rows[|rows| - 1];
      assert rows == before + [last];
      DrainIsWaterfall(grants, before, amount);
      DrainSnoc(grants, before, last, amount);
    }
  }

  lemma DrainSnoc(grants: map<GrantId, Grant>, before: seq<Row>, last: Row, amount: nat)
    requires Fit(grants, before) && Fit(grants, before + [last])
    requires DrainedBy(grants, before, amount, Drain(grants, before, amount), Waterfall(Amounts(before), amount))
    ensures
      var rows := before + [last];
      DrainedBy(grants, rows, amount, Drain(grants, rows, amount), Waterfall(Amounts(rows), amount))
  {
    hide Waterfall, Sum, Drain, ShareEntries, Amounts;
    var d, shares := Drain(grants, before, amount), Waterfall(Amounts(before), amount);
    var share := Min(last.amount, d.left);
    SharesSnoc(before, last, amount, share);
    assert (before + [last])[|before|] == last;
    RewrittenStep(grants, before, last, d, shares, share);
    EntriesStep(grants, before, last, amount, shares, share);
  }

  lemma SharesSnoc(before: seq<Row>, last: Row, amount: nat, share: nat)
    requires share == Min(last.amount, amount - Sum(Waterfall(Amounts(before), amount)))
    ensures Waterfall(Amounts(before + [last]), amount) == Waterfall(Amounts(before), amount) + [share]
    ensures Sum(Waterfall(Amounts(before + [last]), amount)) == Sum(Waterfall(Amounts(before), amount)) + share
  {
    assert Amounts(before + [last]) == Amounts(before) + [last.amount];
    WaterfallSnoc(Amounts(before), last.amount, amount);
    SumSnoc(Waterfall(Amounts(before), amount), share);
  }

  lemma EntriesStep(
    grants: map<GrantId, Grant>, before: seq<Row>, last: Row, amount: nat, shares: seq<nat>, share: nat)
    requires Fit(grants, before) && Fit(grants, before + [last]) && Within(before, shares) && share <= last.amount
    requires forall i | 0 <= i < |before| :: before[i].id in grants
    requires
      var d := Drain(grants, before, amount);
      d.entries == ShareEntries(before, shares) && share == Min(last.amount, d.left)
    ensures
      var rows := before + [last];
      && last.id in grants && last.amount <= grants[last.id].remaining && Within(rows, shares + [share])
      && Drain(grants, rows, amount) == TakeRow(grants, Drain(grants, before, amount), last)
      && Drain(grants, rows, amount).left == Drain(grants, before, amount).left - share
      && Drain(grants, rows, amount).entries == ShareEntries(rows, shares + [share])
  {
    var rows, takes, n := before + [last], shares + [share], |before|;
    assert rows[n] == last && rows[..n] == before && takes[..n] == shares;
  }

  lemma RewrittenStep(grants: map<GrantId, Grant>, before: seq<Row>, last: Row, d: Drawn, shares: seq<nat>, share: nat)
    requires Fit(grants, before) && Fit(grants, before + [last]) && Within(before, shares)
    requires last.id in grants && last.amount <= grants[last.id].remaining
    requires Rewritten(grants, before, d.rows, shares) && share == Min(last.amount, d.left)
    ensures Within(before + [last], shares + [share])
    ensures Rewritten(grants, before + [last], TakeRow(grants, d, last).rows, shares + [share])
  {
    var rows, takes, n := before + [last], shares + [share], |before|;
    var written := TakeRow(grants, d, last).rows;
    assert rows[n] == last;
    forall i | 0 <= i < |rows| && takes[i] > 0
      ensures rows[i].id in written && written[rows[i].id] == Reduced(grants[rows[i].id], takes[i])
    {
      if i < n {
        assert rows[i] == before[i] && takes[i] == shares[i];
      }
    }
    forall id | id in written ensures exists i :: 0 <= i < |rows| && rows[i].id == id && takes[i] > 0 {
      if id in d.rows {
        var i :| 0 <= i < n && before[i].id == id && shares[i] > 0;
        assert rows[i].id == id && takes[i] > 0;
      } else {
        assert rows[n].id == id;
      }
    }
  }

  // Live rows of a list

  lemma {:induction false} RowsAreListed(grants: map<GrantId, Grant>, ids: seq<GrantId>)
    requires forall i | 0 <= i < |ids| :: ids[i] in grants
    ensures forall r | r in LiveRows(grants, ids) ::
      r.id in ids && grants[r.id].status == Active && grants[r.id].remaining == r.amount
    decreases |ids|
  {
    if ids != [] {
      RowsAreListed(grants, ids[..|ids| - 1]);
      assert ids == ids[..|ids| - 1] + [ids[|ids| - 1]];
    }
  }

  lemma {:induction false} LiveAreRows(grants: map<GrantId, Grant>, ids: seq<GrantId>)
    requires forall i | 0 <= i < |ids| :: ids[i] in grants
    ensures forall id | id in ids && grants[id].status == Active ::
      Row(id, grants[id].remaining) in LiveRows(grants, ids)
    decreases |ids|
  {
    if ids != [] {
      LiveAreRows(grants, ids[..|ids| - 1]);
      assert ids == ids[..|ids| - 1] + [ids[|ids| - 1]];
    }
  }

  predicate Different(rows: seq<Row>) {
    forall i, j | 0 <= i < j < |rows| :: rows[i].id != rows[j].id
  }

  lemma AppendedDiffer(before: seq<Row>, last: Row)
    requires Different(before) && forall i | 0 <= i < |before| :: before[i].id != last.id
    ensures Different(before + [last])
  {
  }

  lemma {:induction false} RowsDiffer(grants: map<GrantId, Grant>, ids: seq<GrantId>)
    requires forall i | 0 <= i < |ids| :: ids[i] in grants
    requires forall i, j | 0 <= i < j < |ids| :: ids[i] != ids[j]
    ensures Different(LiveRows(grants, ids))
    decreases |ids|
  {
    if ids != [] {
      var n := |ids| - 1;
      RowsDiffer(grants, ids[..n]);
      RowsAreListed(grants, ids[..n]);
      var before := LiveRows(grants, ids[..n]);
      forall i | 0 <= i < |before| ensures before[i].id != ids[n] {
        assert before[i] in before;
        var k :| 0 <= k < n && ids[..n][k] == before[i].id;
      }
      AppendedDiffer(before, Row(ids[n], grants[ids[n]].remaining));
    }
  }

  lemma LiveRowsFit(grants: map<GrantId, Grant>, ids: seq<GrantId>)
    requires forall i | 0 <= i < |ids| :: ids[i] in grants
    requires forall i, j | 0 <= i < j < |ids| :: ids[i] != ids[j]
    requires forall id | id in grants && grants[id].status == Active :: grants[id].remaining > 0
    ensures Fit(grants, LiveRows(grants, ids))
    ensures forall r | r in LiveRows(grants, ids) :: r.id in ids
    ensures forall id | id in ids && grants[id].status == Active ::
      Row(id, grants[id].remaining) in LiveRows(grants, ids)
  {
    RowsAreListed(grants, ids);
    LiveAreRows(grants, ids);
    RowsDiffer(grants, ids);
    hide LiveRows;
    var rows := LiveRows(grants, ids);
    forall i | 0 <= i < |rows| ensures rows[i].id in ids && grants[rows[i].id].remaining == rows[i].amount {
      assert rows[i] in rows;
    }
  }

  /** Only the listed rows matter, so others may change meanwhile. */
  lemma {:induction false} LiveRowsFrame(grants: map<GrantId, Grant>, grants': map<GrantId, Grant>, ids: seq<GrantId>)
    requires forall i | 0 <= i < |ids| :: ids[i] in grants && ids[i] in grants' && grants'[ids[i]] == grants[ids[i]]
    ensures LiveRows(grants', ids) == LiveRows(grants, ids)
    decreases |ids|
  {
    if ids != [] {
      LiveRowsFrame(grants, grants', ids[..|ids| - 1]);
    }
  }

  lemma {:induction false} DrainFrame(
    grants: map<GrantId, Grant>, grants': map<GrantId, Grant>, rows: seq<Row>, amount: nat)
    requires forall i | 0 <= i < |rows| :: rows[i].id in grants && rows[i].amount <= grants[rows[i].id].remaining
    requires forall i | 0 <= i < |rows| :: rows[i].id in grants' && grants'[rows[i].id] == grants[rows[i].id]
    ensures Drain(grants', rows, amount) == Drain(grants, rows, amount)
    decreases |rows|
  {
    if rows != [] {
      DrainFrame(grants, grants', rows[..|rows| - 1], amount);
    }
  }
}
