/** The life of a grant: what its row, its status and its audit entries say about
    each other after every operation. */
module GrantLife {
  import opened Common
  import opened WaterfallSpec
  import opened Database
  import opened Serial

  /** All that the audit entries record as drawn from one grant. */
  function Consumed(entries: seq<GrantEntry>, g: GrantId): nat {
    if entries == [] then 0
    else
      var last := entries[|entries| - 1];
      Consumed(entries[..|entries| - 1], g) + if last.grant == g then last.amount else 0
  }

  lemma ConsumedSnoc(entries: seq<GrantEntry>, e: GrantEntry, g: GrantId)
    ensures Consumed(entries + [e], g) == Consumed(entries, g) + if e.grant == g then e.amount else 0
  {
    assert (entries + [e])[..|entries|] == entries;
  }

  lemma {:induction false} ConsumedOfOthers(entries: seq<GrantEntry>, g: GrantId)
    requires forall i | 0 <= i < |entries| :: entries[i].grant != g
    ensures Consumed(entries, g) == 0
  {
    if entries != [] {
      ConsumedOfOthers(entries[..|entries| - 1], g);
    }
  }

  /** Active grants hold something, depleted ones are exactly those that hold
      nothing, and what a grant started with is what it holds plus what was drawn. */
  ghost predicate RowAudit(db: Db, g: GrantId)
    requires g in db.grants
  {
    var row := db.grants[g];
    && row.account in db.accounts
    && (row.status == Active ==> 0 < row.remaining <= row.initial)
    && (row.status == Depleted <==> row.remaining == 0)
    && row.initial > 0 && row.initial == row.remaining + Consumed(db.grantEntries, g)
  }

  ghost predicate EntryAudit(db: Db, i: nat)
    requires i < |db.grantEntries|
  {
    var e := db.grantEntries[i];
    && e.grant in db.grants && e.amount > 0
    && e.remainingAfter == db.grants[e.grant].initial - Consumed(db.grantEntries[..i + 1], e.grant)
  }

  ghost predicate GrantAudit(db: Db) {
    && (forall g | g in db.grants :: RowAudit(db, g))
    && (forall i | 0 <= i < |db.grantEntries| :: EntryAudit(db, i))
  }

  lemma AuditMeansLive(db: Db)
    requires GrantAudit(db)
    ensures GrantsLive(db.grants)
  {
    forall g | g in db.grants && db.grants[g].status == Active ensures db.grants[g].remaining > 0 {
      assert RowAudit(db, g);
    }
  }

  lemma TakeKeepsAudit(db: Db, g: GrantId, take: nat)
    requires GrantAudit(db) && g in db.grants && db.grants[g].status == Active && 0 < take <= db.grants[g].remaining
    ensures GrantAudit(db.(
      grants := db.grants[g := Reduced(db.grants[g], take)],
      grantEntries := db.grantEntries + [GrantEntry(g, take, db.grants[g].remaining - take)]))
  {
    var e := GrantEntry(g, take, db.grants[g].remaining - take);
    var db' := db.(grants := db.grants[g := Reduced(db.grants[g], take)], grantEntries := db.grantEntries + [e]);
    forall h | h in db'.grants ensures RowAudit(db', h) {
      assert RowAudit(db, h);
      ConsumedSnoc(db.grantEntries, e, h);
    }
    forall i | 0 <= i < |db'.grantEntries| ensures EntryAudit(db', i) {
      if i < |db.grantEntries| {
        assert EntryAudit(db, i) && db'.grantEntries[..i + 1] == db.grantEntries[..i + 1];
      } else {
        assert db'.grantEntries[..i + 1] == db'.grantEntries;
        assert RowAudit(db', g);
      }
    }
  }

  lemma WithNothingDrawn(db: Db, left: nat)
    ensures WithDrawn(db, Drawn(map[], [], left)) == db
  {
    assert db.grants + map[] == db.grants && db.grantEntries + [] == db.grantEntries;
  }

  /** The consumption loop keeps the audit at every turn. */
  lemma {:induction false} DrainKeepsAudit(db: Db, rows: seq<Row>, amount: nat)
    requires GrantAudit(db) && Fit(db.grants, rows)
    ensures GrantAudit(WithDrawn(db, Drain(db.grants, rows, amount)))
    decreases |rows|
  {
    hide Waterfall, Sum, GrantAudit, TakeRow, WithDrawn;
    if rows == [] {
      WithNothingDrawn(db, amount);
      return;
    }
    var before, last := rows[..|rows| - 1], rows[|rows| - 1];
    DrainKeepsAudit(db, before, amount);
    LastNotWritten(db.grants, before, last, amount);
    assert before + [last] == rows;
    TurnKeepsAudit(db, Drain(db.grants, before, amount), last);
  }

  lemma TurnKeepsAudit(db: Db, d: Drawn, last: Row)
    requires GrantAudit(WithDrawn(db, d)) && last.id in db.grants && last.id !in d.rows
    requires db.grants[last.id].status == Active && db.grants[last.id].remaining == last.amount > 0
    ensures GrantAudit(WithDrawn(db, TakeRow(db.grants, d, last)))
  {
    hide GrantAudit;
    if d.left > 0 {
      var take := Min(last.amount, d.left);
      TakeKeepsAudit(WithDrawn(db, d), last.id, take);
      var d' := TakeRow(db.grants, d, last);
      assert d'.rows == d.rows[last.id := Reduced(db.grants[last.id], take)];
      assert db.grants + d'.rows == (db.grants + d.rows)[last.id := Reduced(db.grants[last.id], take)];
      assert db.grantEntries + d'.entries
          == db.grantEntries + d.entries + [GrantEntry(last.id, take, last.amount - take)];
    }
  }

  lemma LastNotWritten(grants: map<GrantId, Grant>, before: seq<Row>, last: Row, amount: nat)
    requires Fit(grants, before) && Fit(grants, before + [last])
    ensures last.id !in Drain(grants, before, amount).rows
  {
    DrainIsWaterfall(grants, before, amount);
    var rows := before + [last];
    assert rows[|before|] == last && forall i | 0 <= i < |before| :: rows[i] == before[i];
  }

  lemma SameGrantsKeepAudit(db: Db, db': Db)
    requires GrantAudit(db) && db'.grants == db.grants && db'.grantEntries == db.grantEntries
    requires db.accounts.Keys <= db'.accounts.Keys
    ensures GrantAudit(db')
  {
    forall g | g in db'.grants ensures RowAudit(db', g) {
      assert RowAudit(db, g);
    }
    forall i | 0 <= i < |db'.grantEntries| ensures EntryAudit(db', i) {
      assert EntryAudit(db, i);
    }
  }

  lemma DrawListKeepsAudit(db: Db, ids: seq<GrantId>, amount: nat)
    requires GrantAudit(db) && GrantsLive(db.grants)
    requires forall i | 0 <= i < |ids| :: ids[i] in db.grants
    requires forall i, j | 0 <= i < j < |ids| :: ids[i] != ids[j]
    ensures GrantAudit(WithDrawn(db, DrawList(db, ids, amount)))
  {
    LiveRowsFit(db.grants, ids);
    DrainKeepsAudit(db, LiveRows(db.grants, ids), amount);
  }

  lemma IssueKeepsAudit(db: Db, op: Op)
    requires GrantAudit(db) && GrantsLive(db.grants) && Enabled(db, op) && op.Issue?
    ensures GrantAudit(Apply(db, op))
  {
    var db' := Apply(db, op);
    forall i | 0 <= i < |db.grantEntries| ensures db.grantEntries[i].grant != op.grant && EntryAudit(db', i) {
      assert EntryAudit(db, i);
    }
    ConsumedOfOthers(db.grantEntries, op.grant);
    forall h | h in db'.grants ensures RowAudit(db', h) {
      assert h != op.grant ==> RowAudit(db, h);
    }
  }

  lemma ExpireKeepsAudit(db: Db, op: Op)
    requires GrantAudit(db) && GrantsLive(db.grants) && Enabled(db, op) && op.Expire?
    ensures GrantAudit(Apply(db, op))
  {
    var db' := Apply(db, op);
    forall h | h in db'.grants ensures RowAudit(db', h) {
      assert RowAudit(db, h);
    }
    forall i | 0 <= i < |db'.grantEntries| ensures EntryAudit(db', i) {
      assert EntryAudit(db, i);
    }
  }

  lemma GrantAuditKept(db: Db, op: Op)
    requires GrantAudit(db) && GrantsLive(db.grants) && Enabled(db, op)
    ensures GrantAudit(Apply(db, op)) && GrantsLive(Apply(db, op).grants)
  {
    hide GrantAudit, DrawList, Sum;
    var db' := Apply(db, op);
    match op {
      case Issue(_, _, _, _, _, _) => IssueKeepsAudit(db, op);
      case Drawdown(a, amount, ids) => DrawListKeepsAudit(db, ids, amount);
      case WaterfallDebit(a, amount, now, ids, seen) =>
        DrawListKeepsAudit(db, ids, amount);
        SameGrantsKeepAudit(WithDrawn(db, DrawList(db, ids, amount)), db');
      case Expire(marked, now) => ExpireKeepsAudit(db, op);
      case _ => SameGrantsKeepAudit(db, db');
    }
    AuditMeansLive(db');
  }

  // What never changes back

  /** Terms of a grant are fixed, its amount only shrinks, a finished grant stays
      finished. */
  predicate GrantAges(g: Grant, h: Grant) {
    && h.account == g.account && h.initial == g.initial
    && h.expiresAt == g.expiresAt && h.priority == g.priority && h.key == g.key
    && h.remaining <= g.remaining
    && (g.status != Active ==> h == g)
  }

  /** From db to db' the tables only grow. */
  ghost predicate Grows(db: Db, db': Db) {
    && db.users <= db'.users
    && (forall a | a in db.accounts :: a in db'.accounts && db'.accounts[a].currency == db.accounts[a].currency)
    && (forall k | k in db.txns :: k in db'.txns && db'.txns[k] == db.txns[k])
    && (forall g | g in db.grants :: g in db'.grants && GrantAges(db.grants[g], db'.grants[g]))
    && db.entries <= db'.entries && db.grantEntries <= db'.grantEntries
  }

  lemma DrainAges(grants: map<GrantId, Grant>, rows: seq<Row>, amount: nat)
    requires Fit(grants, rows)
    ensures
      var d := Drain(grants, rows, amount);
      forall g | g in d.rows :: g in grants && grants[g].status == Active && GrantAges(grants[g], d.rows[g])
  {
    DrainIsWaterfall(grants, rows, amount);
    var d := Drain(grants, rows, amount);
    var takes := Waterfall(Amounts(rows), amount);
    forall g | g in d.rows
      ensures g in grants && grants[g].status == Active && GrantAges(grants[g], d.rows[g])
    {
      var i :| 0 <= i < |rows| && rows[i].id == g && takes[i] > 0;
    }
  }

  lemma DrawListAges(db: Db, ids: seq<GrantId>, amount: nat)
    requires GrantsLive(db.grants)
    requires forall i | 0 <= i < |ids| :: ids[i] in db.grants
    requires forall i, j | 0 <= i < j < |ids| :: ids[i] != ids[j]
    ensures Grows(db, WithDrawn(db, DrawList(db, ids, amount)))
  {
    LiveRowsFit(db.grants, ids);
    DrainAges(db.grants, LiveRows(db.grants, ids), amount);
  }

  lemma ApplyGrows(db: Db, op: Op)
    requires GrantsLive(db.grants) && Enabled(db, op)
    ensures Grows(db, Apply(db, op))
  {
    hide LiveRows, Sum, Amounts, Drain, GrantsLive;
    match op
    case Drawdown(a, amount, ids) => DrawListAges(db, ids, amount);
    case WaterfallDebit(a, amount, now, ids, seen) => DrawListAges(db, ids, amount);
    case _ =>
  }

  lemma GrowsTransitive(a: Db, b: Db, c: Db)
    requires Grows(a, b) && Grows(b, c)
    ensures Grows(a, c)
  {
  }
}
