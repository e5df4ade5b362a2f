/** The credit side: issuing, drawing down and expiring grants, and the debit that
    spends grants before cash, each run as one transaction over the tables. */
module CreditService {
  import opened Common
  import opened WaterfallSpec
  import opened Database
  import opened Serial
  import opened GrantLife
  import opened Sessions
  import opened SessionSafety
  import opened PostgresTables
  import opened DrawOrder

  /** One grant's contribution to a draw. */
  datatype GrantDrawdown = GrantDrawdown(grant: GrantId, consumed: nat)

  datatype Issued = Created(grant: GrantId) | Found(grant: GrantId) | NotIssued(reason: Reason)

  /** The contributions that a run of audit entries records. */
  function Contributions(entries: seq<GrantEntry>): (r: seq<GrantDrawdown>)
    ensures |r| == |entries|
  {
    seq(|entries|, i requires 0 <= i < |entries| => GrantDrawdown(entries[i].grant, entries[i].amount))
  }

  function Ids(rows: seq<Row>): (ids: seq<GrantId>)
    ensures |ids| == |rows| && forall i | 0 <= i < |rows| :: ids[i] == rows[i].id
  {
    seq(|rows|, i requires 0 <= i < |rows| => rows[i].id)
  }

  ghost predicate Distinct(grants: map<GrantId, Grant>, ids: seq<GrantId>) {
    && (forall i | 0 <= i < |ids| :: ids[i] in grants)
    && (forall i, j | 0 <= i < j < |ids| :: ids[i] != ids[j])
  }

  lemma NotDrawnBefore(begun: Db, ids: seq<GrantId>, k: nat, amount: nat)
    requires GrantsLive(begun.grants) && Distinct(begun.grants, ids) && k < |ids|
    ensures ids[k] !in DrawList(begun, ids[..k], amount).rows
  {
    hide LiveRows, Drain, Waterfall, Sum, Amounts;
    LiveRowsFit(begun.grants, ids[..k]);
    var rows := LiveRows(begun.grants, ids[..k]);
    DrainIsWaterfall(begun.grants, rows, amount);
    forall i | 0 <= i < |rows| ensures rows[i].id != ids[k] {
      assert rows[i] in rows;
    }
  }

  /** What one more grant of the list adds to the draw. */
  lemma NextTurn(begun: Db, ids: seq<GrantId>, k: nat, amount: nat)
    requires GrantsLive(begun.grants) && Distinct(begun.grants, ids) && k < |ids|
    ensures
      var d, d' := DrawList(begun, ids[..k], amount), DrawList(begun, ids[..k + 1], amount);
      var g := begun.grants[ids[k]];
      && ids[k] !in d.rows
      && (if g.status != Active || d.left == 0 then d' == d
          else
            var consumed := Min(g.remaining, d.left);
            d' == Drawn(d.rows[ids[k] := Reduced(g, consumed)],
                        d.entries + [GrantEntry(ids[k], consumed, g.remaining - consumed)], d.left - consumed))
  {
    hide LiveRows, Drain, Waterfall, Sum, Amounts;
    NotDrawnBefore(begun, ids, k, amount);
    DrawTurn(begun, ids, k, amount);
  }

  lemma NothingDrawnYet(begun: Db, ids: seq<GrantId>, amount: nat)
    requires GrantsLive(begun.grants)
    ensures DrawList(begun, ids[..0], amount) == Drawn(map[], [], amount)
  {
  }

  /** A grant later in the list still reads as it did at the start. */
  lemma StillThere(begun: Db, ids: seq<GrantId>, k: nat, amount: nat)
    requires GrantsLive(begun.grants) && Distinct(begun.grants, ids) && k < |ids|
    ensures
      var now := WithDrawn(begun, DrawList(begun, ids[..k], amount)).grants;
      ids[k] in now && now[ids[k]] == begun.grants[ids[k]]
  {
    NotDrawnBefore(begun, ids, k, amount);
  }

  /** One more row rewritten and one more audit entry is one more turn of the draw. */
  lemma TurnRecorded(begun: Db, d: Drawn, g: GrantId, consumed: nat)
    requires g in begun.grants && g !in d.rows && consumed <= begun.grants[g].remaining && consumed <= d.left
    ensures
      var row := begun.grants[g];
      var before, e := WithDrawn(begun, d), GrantEntry(g, consumed, row.remaining - consumed);
      WithDrawn(begun, Drawn(d.rows[g := Reduced(row, consumed)], d.entries + [e], d.left - consumed))
        == before.(grants := before.grants[g := Reduced(row, consumed)], grantEntries := before.grantEntries + [e])
  {
    var row := begun.grants[g];
    var e := GrantEntry(g, consumed, row.remaining - consumed);
    assert begun.grants + d.rows[g := Reduced(row, consumed)] == (begun.grants + d.rows)[g := Reduced(row, consumed)];
    assert begun.grantEntries + (d.entries + [e]) == begun.grantEntries + d.entries + [e];
  }

  /** Once nothing is left to draw, further grants change nothing. */
  lemma {:induction false} DrawSettled(begun: Db, ids: seq<GrantId>, k: nat, amount: nat)
    requires GrantsLive(begun.grants) && Distinct(begun.grants, ids) && k <= |ids|
    requires k == |ids| || DrawList(begun, ids[..k], amount).left == 0
    ensures DrawList(begun, ids[..k], amount) == DrawList(begun, ids, amount)
    decreases |ids| - k
  {
    if k == |ids| {
      assert ids[..k] == ids;
    } else {
      NextTurn(begun, ids, k, amount);
      DrawSettled(begun, ids, k + 1, amount);
    }
  }

  // What a draw reports

  predicate StandsBefore(ids: seq<GrantId>, g: GrantId, h: GrantId) {
    exists k, m :: 0 <= k < m < |ids| && ids[k] == g && ids[m] == h
  }

  /** The report names exactly the grants that shrank, in the order of the list, each
      with what it gave. */
  ghost predicate Reports(
    grants: map<GrantId, Grant>, grants': map<GrantId, Grant>, ids: seq<GrantId>, results: seq<GrantDrawdown>)
  {
    && (forall i | 0 <= i < |results| ::
          var g := results[i].grant;
          && g in ids && g in grants && g in grants'
          && results[i].consumed == grants[g].remaining - grants'[g].remaining > 0)
    && (forall g | g in grants && g in grants' && grants'[g].remaining < grants[g].remaining ::
          exists i :: 0 <= i < |results| && results[i].grant == g)
    && (forall i, j | 0 <= i < j < |results| :: StandsBefore(ids, results[i].grant, results[j].grant))
  }

  /** One grant more of the list, which gives something. */
  lemma ReportGrows(
    grants: map<GrantId, Grant>, grants': map<GrantId, Grant>, ids: seq<GrantId>, results: seq<GrantDrawdown>,
    g: GrantId, consumed: nat)
    requires Reports(grants, grants', ids, results) && g !in ids && g in grants && g in grants'
    requires grants'[g] == grants[g] && 0 < consumed <= grants[g].remaining
    ensures Reports(grants, grants'[g := Reduced(grants[g], consumed)], ids + [g],
                    results + [GrantDrawdown(g, consumed)])
  {
    var more, after := results + [GrantDrawdown(g, consumed)], grants'[g := Reduced(grants[g], consumed)];
    forall i, j | 0 <= i < j < |more| ensures StandsBefore(ids + [g], more[i].grant, more[j].grant) {
      if j < |results| {
        var k, m :| 0 <= k < m < |ids| && ids[k] == results[i].grant && ids[m] == results[j].grant;
        assert (ids + [g])[k] == more[i].grant && (ids + [g])[m] == more[j].grant;
      } else {
        var k :| 0 <= k < |ids| && ids[k] == results[i].grant;
        assert (ids + [g])[k] == more[i].grant && (ids + [g])[|ids|] == g;
      }
    }
    forall h | h in grants && h in after && after[h].remaining < grants[h].remaining
      ensures exists i :: 0 <= i < |more| && more[i].grant == h
    {
      if h == g {
        assert more[|results|].grant == g;
      } else {
        var i :| 0 <= i < |results| && results[i].grant == h;
        assert more[i].grant == h;
      }
    }
  }

  lemma ReportStays(
    grants: map<GrantId, Grant>, grants': map<GrantId, Grant>, ids: seq<GrantId>, results: seq<GrantDrawdown>,
    g: GrantId)
    requires Reports(grants, grants', ids, results)
    ensures Reports(grants, grants', ids + [g], results)
  {
    forall i, j | 0 <= i < j < |results| ensures StandsBefore(ids + [g], results[i].grant, results[j].grant) {
      var k, m :| 0 <= k < m < |ids| && ids[k] == results[i].grant && ids[m] == results[j].grant;
      assert (ids + [g])[k] == results[i].grant && (ids + [g])[m] == results[j].grant;
    }
  }

  lemma {:induction false} DrawIsReported(begun: Db, ids: seq<GrantId>, k: nat, amount: nat)
    requires GrantsLive(begun.grants) && Distinct(begun.grants, ids) && k <= |ids|
    ensures
      var d := DrawList(begun, ids[..k], amount);
      Reports(begun.grants, begun.grants + d.rows, ids[..k], Contributions(d.entries))
    decreases k
  {
    hide DrawList, Reports, Reduced;
    if k == 0 {
      NothingDrawnYet(begun, ids, amount);
      NothingReported(begun.grants);
      assert begun.grants + map[] == begun.grants && ids[..0] == [];
    } else {
      DrawIsReported(begun, ids, k - 1, amount);
      NextTurn(begun, ids, k - 1, amount);
      var d, g := DrawList(begun, ids[..k - 1], amount), ids[k - 1];
      var row := begun.grants[g];
      assert ids[..k] == ids[..k - 1] + [g];
      if row.status == Active && d.left > 0 {
        var consumed := Min(row.remaining, d.left);
        var e := GrantEntry(g, consumed, row.remaining - consumed);
        ReportGrows(begun.grants, begun.grants + d.rows, ids[..k - 1], Contributions(d.entries), g, consumed);
        assert begun.grants + d.rows[g := Reduced(row, consumed)]
            == (begun.grants + d.rows)[g := Reduced(row, consumed)];
        assert Contributions(d.entries + [e]) == Contributions(d.entries) + [GrantDrawdown(g, consumed)];
      } else {
        ReportStays(begun.grants, begun.grants + d.rows, ids[..k - 1], Contributions(d.entries), g);
      }
    }
  }

  lemma NothingReported(grants: map<GrantId, Grant>)
    ensures Reports(grants, grants, [], Contributions([]))
  {
  }

  class GrantsService {
    const tables: Tables

    constructor (tables: Tables)
      ensures this.tables == tables
    {
      this.tables := tables;
    }

    /** A key that was used before brings back the grant it was used for, whatever the
        other arguments. */
    method IssueGrant(g: GrantId, a: AccId, amount: int, expiresAt: int, priority: int, key: Key)
      returns (reply: Issued)
      requires GrantsLive(tables.grants) && g !in tables.grants
      modifies tables
      ensures reply == NotIssued(InvalidAmount) <==> amount <= 0
      ensures reply.Found? <==> amount > 0 && exists h :: h in old(tables.grants) && old(tables.grants)[h].key == key
      ensures reply.Found? ==> reply.grant in old(tables.grants) && old(tables.grants)[reply.grant].key == key
      ensures reply == Created(g) <==>
        amount > 0 && Enabled(old(tables.View()), Issue(g, a, amount, expiresAt, priority, key))
      ensures reply.Created? ==>
        reply.grant == g && tables.View() == Apply(old(tables.View()), Issue(g, a, amount, expiresAt, priority, key))
      ensures reply.Created? ==> tables.grants == old(tables.grants)[g := tables.grants[g]] && g in tables.grants
      ensures reply.Created? ==>
        var row := tables.grants[g];
        && row.account == a && row.initial == row.remaining == amount && row.status == Active
        && row.expiresAt == expiresAt && row.priority == priority && row.key == key
      ensures unchanged(tables`users, tables`accounts, tables`entries, tables`txns, tables`grantEntries)
      ensures !reply.Created? ==> tables.View() == old(tables.View())
      ensures reply.NotIssued? ==> reply.reason == InvalidAmount || reply.reason == AccountNotFound
      ensures reply == NotIssued(AccountNotFound) <==>
        && amount > 0 && a !in old(tables.accounts)
        && forall h | h in old(tables.grants) :: old(tables.grants)[h].key != key
    {
      if amount <= 0 {
        return NotIssued(InvalidAmount);
      }
      if h: GrantId :| h in tables.grants && tables.grants[h].key == key {
        return Found(h);
      }
      if a !in tables.accounts {
        return NotIssued(AccountNotFound);
      }
      tables.grants := tables.grants[g := Grant(a, amount, amount, expiresAt, priority, Active, key)];
      return Created(g);
    }

    /** Takes what it can from one locked grant: all of it, or just what is left to
        draw. The guarded update of the second case always finds its row. */
    method Consume(row: Row, left: nat) returns (consumed: nat)
      requires row.id in tables.grants && tables.grants[row.id].status == Active
      requires tables.grants[row.id].remaining == row.amount && left > 0
      modifies tables`grants, tables`grantEntries
      ensures consumed == Min(row.amount, left)
      ensures tables.grants == old(tables.grants)[row.id := Reduced(old(tables.grants)[row.id], consumed)]
      ensures tables.grantEntries == old(tables.grantEntries) + [GrantEntry(row.id, consumed, row.amount - consumed)]
    {
      if row.amount <= left {
        consumed := row.amount;
        tables.DepleteGrant(row.id);
      } else {
        consumed := left;
        var ok := tables.DrawdownGrant(row.id, consumed);
        assert ok;
      }
      tables.CreateGrantLedgerEntry(GrantEntry(row.id, consumed, row.amount - consumed));
    }

    method Available(rows: seq<Row>) returns (total: nat)
      ensures total == Sum(Amounts(rows))
    {
      total := 0;
      var i := 0;
      while i < |rows|
        invariant 0 <= i <= |rows| && total == Sum(Amounts(rows[..i]))
      {
        assert Amounts(rows[..i + 1]) == Amounts(rows[..i]) + [rows[i].amount];
        SumSnoc(Amounts(rows[..i]), rows[i].amount);
        total := total + rows[i].amount;
        i := i + 1;
      }
      assert rows[..i] == rows;
    }

    /** `active` is what the unlocked query returned; the amounts in it may be stale.
        The draw follows what the rows hold when they are locked, one by one. */
    method Drawdown(a: AccId, amount: int, active: seq<Row>) returns (outcome: Outcome, results: seq<GrantDrawdown>)
      requires GrantsLive(tables.grants) && Listed(tables.grants, a, Ids(active))
      modifies tables
      ensures outcome == (if amount <= 0 then Failed(InvalidAmount)
                          else if Sum(Amounts(active)) < amount then Failed(InsufficientGrants) else Completed)
      ensures !outcome.Completed? ==> tables.View() == old(tables.View()) && results == []
      ensures outcome.Completed? ==>
        && Enabled(old(tables.View()), Op.Drawdown(a, amount, Ids(active)))
        && tables.View() == Apply(old(tables.View()), Op.Drawdown(a, amount, Ids(active)))
        && results == Contributions(DrawList(old(tables.View()), Ids(active), amount).entries)
        && Reports(old(tables.grants), tables.grants, Ids(active), results)
        && EmptiedInOrder(old(tables.grants), tables.grants, Ids(active))
    {
      results := [];
      if amount <= 0 {
        return Failed(InvalidAmount), [];
      }
      var total := Available(active);
      if total < amount {
        return Failed(InsufficientGrants), [];
      }
      ghost var begun := tables.View();
      results := ConsumeIfActive(active, amount);
      DrawdownShows(begun, a, amount, Ids(active));
      outcome := Completed;
    }

    /** Locks the listed grants one at a time, skips those that are no longer active,
        and stops as soon as nothing is left to draw. */
    method ConsumeIfActive(active: seq<Row>, amount: nat) returns (results: seq<GrantDrawdown>)
      requires GrantsLive(tables.grants) && Distinct(tables.grants, Ids(active))
      modifies tables`grants, tables`grantEntries
      ensures tables.View() == WithDrawn(old(tables.View()), DrawList(old(tables.View()), Ids(active), amount))
      ensures results == Contributions(DrawList(old(tables.View()), Ids(active), amount).entries)
    {
      hide DrawList, LiveRows, Reduced, WithDrawn;
      ghost var begun, ids := tables.View(), Ids(active);
      results := [];
      var remaining: nat, i := amount, 0;
      NothingDrawnYet(begun, ids, amount);
      WithNothingDrawn(begun, amount);
      while i < |active| && remaining != 0
        invariant 0 <= i <= |active|
        invariant tables.View() == WithDrawn(begun, DrawList(begun, ids[..i], amount))
        invariant remaining == DrawList(begun, ids[..i], amount).left
        invariant results == Contributions(DrawList(begun, ids[..i], amount).entries)
      {
        NextTurn(begun, ids, i, amount);
        StillThere(begun, ids, i, amount);
        ghost var d := DrawList(begun, ids[..i], amount);
        var locked := tables.grants[active[i].id];
        if locked.status == Active {
          var consumed := Consume(Row(active[i].id, locked.remaining), remaining);
          TurnRecorded(begun, d, active[i].id, consumed);
          results := results + [GrantDrawdown(active[i].id, consumed)];
          remaining := remaining - consumed;
        }
        i := i + 1;
      }
      DrawSettled(begun, ids, i, amount);
    }

    /** `ids` is what the locking query returned: the account's eligible grants. */
    method WaterfallDebit(a: AccId, amount: int, now: int, ids: seq<GrantId>)
      returns (outcome: Outcome, results: seq<GrantDrawdown>, cashConsumed: nat, newCash: int)
      requires GrantsLive(tables.grants) && Listed(tables.grants, a, ids)
      requires forall i | 0 <= i < |ids| :: Eligible(tables.grants[ids[i]], a, now)
      requires forall g | g in tables.grants && Eligible(tables.grants[g], a, now) :: g in ids
      modifies tables
      ensures amount <= 0 <==> outcome == Failed(InvalidAmount)
      ensures outcome == Failed(AccountNotFound) <==> amount > 0 && a !in old(tables.accounts)
      ensures outcome == Failed(InsufficientFunds) <==>
        && amount > 0 && a in old(tables.accounts)
        && Sum(Remainings(old(tables.grants), ids)) + old(tables.accounts)[a].balance < amount
      ensures outcome.Completed? || outcome.Failed?
      ensures outcome.Failed? ==> outcome.reason in {InvalidAmount, AccountNotFound, InsufficientFunds}
      ensures outcome.Failed? ==> tables.View() == old(tables.View())
      ensures outcome.Completed? ==>
        var op := Op.WaterfallDebit(a, amount, now, ids, old(tables.grants).Keys);
        && Enabled(old(tables.View()), op) && tables.View() == Apply(old(tables.View()), op)
        && results == Contributions(DrawList(old(tables.View()), ids, amount).entries)
        && cashConsumed == DrawList(old(tables.View()), ids, amount).left
        && newCash == tables.accounts[a].balance == old(tables.accounts)[a].balance - cashConsumed
        && Reports(old(tables.grants), tables.grants, ids, results)
        && EmptiedInOrder(old(tables.grants), tables.grants, ids)
        && CashLast(old(tables.View()), tables.View(), a, now, old(tables.grants).Keys)
    {
      hide DrawList, LiveRows, WithDrawn, Apply, Enabled, Sum, Amounts, Remainings, Contributions, Precedes;
      hide Reports, EmptiedInOrder, CashLast;
      results, cashConsumed, newCash := [], 0, 0;
      if amount <= 0 {
        outcome := Failed(InvalidAmount);
        return;
      }
      if a !in tables.accounts {
        outcome := Failed(AccountNotFound);
        return;
      }
      var cash := tables.accounts[a].balance;
      var rows := LockGrants(ids);
      var total := Available(rows);
      AmountsOfAll(tables.grants, ids, rows);
      if total + cash < amount {
        outcome := Failed(InsufficientFunds);
        return;
      }
      ghost var begun := tables.View();
      DebitEnabled(begun, a, amount, now, ids);
      var remaining;
      remaining, results := ConsumeInOrder(rows, ids, amount);
      cashConsumed := remaining;
      newCash := cash;
      if remaining > 0 {
        newCash := cash - remaining;
        tables.accounts := tables.accounts[a := tables.accounts[a].(balance := tables.accounts[a].balance - remaining)];
        tables.CreateLedgerEntry(Entry(a, Debit, remaining, newCash, None));
      }
      AppliedWaterfall(begun, a, amount, now, ids);
      DebitShows(begun, a, amount, now, ids);
      outcome := Completed;
    }

    /** All rows of the list, read under their locks. */
    method LockGrants(ids: seq<GrantId>) returns (rows: seq<Row>)
      requires forall i | 0 <= i < |ids| :: ids[i] in tables.grants && tables.grants[ids[i]].status == Active
      ensures rows == LiveRows(tables.grants, ids) && Ids(rows) == ids
      ensures forall i | 0 <= i < |rows| :: rows[i].amount == tables.grants[rows[i].id].remaining
    {
      rows := [];
      var i := 0;
      while i < |ids|
        invariant 0 <= i <= |ids| && |rows| == i
        invariant rows == LiveRows(tables.grants, ids[..i])
        invariant forall j | 0 <= j < i :: rows[j] == Row(ids[j], tables.grants[ids[j]].remaining)
      {
        LiveRowsSnoc(tables.grants, ids, i);
        rows := rows + [Row(ids[i], tables.grants[ids[i]].remaining)];
        i := i + 1;
      }
      assert ids[..i] == ids;
    }

    method ConsumeInOrder(rows: seq<Row>, ghost ids: seq<GrantId>, amount: nat)
      returns (remaining: nat, results: seq<GrantDrawdown>)
      requires GrantsLive(tables.grants) && Distinct(tables.grants, ids) && Ids(rows) == ids
      requires forall i | 0 <= i < |rows| ::
        tables.grants[rows[i].id].status == Active && tables.grants[rows[i].id].remaining == rows[i].amount
      modifies tables`grants, tables`grantEntries
      ensures tables.View() == WithDrawn(old(tables.View()), DrawList(old(tables.View()), ids, amount))
      ensures remaining == DrawList(old(tables.View()), ids, amount).left
      ensures results == Contributions(DrawList(old(tables.View()), ids, amount).entries)
    {
      hide DrawList, LiveRows, Reduced, WithDrawn;
      ghost var begun := tables.View();
      results, remaining := [], amount;
      NothingDrawnYet(begun, ids, amount);
      WithNothingDrawn(begun, amount);
      var i := 0;
      while i < |rows| && remaining != 0
        invariant 0 <= i <= |rows|
        invariant tables.View() == WithDrawn(begun, DrawList(begun, ids[..i], amount))
        invariant remaining == DrawList(begun, ids[..i], amount).left
        invariant results == Contributions(DrawList(begun, ids[..i], amount).entries)
      {
        NextTurn(begun, ids, i, amount);
        StillThere(begun, ids, i, amount);
        ghost var d := DrawList(begun, ids[..i], amount);
        var consumed := Consume(rows[i], remaining);
        TurnRecorded(begun, d, rows[i].id, consumed);
        results := results + [GrantDrawdown(rows[i].id, consumed)];
        remaining := remaining - consumed;
        i := i + 1;
      }
      DrawSettled(begun, ids, i, amount);
    }

    /** Closes every active grant that expired before now, and no other row. */
    method ExpireGrants(now: int) returns (count: nat)
      requires GrantsLive(tables.grants)
      modifies tables
      ensures tables.View() == Apply(old(tables.View()), Expire(PastDue(old(tables.grants), now), now))
      ensures tables.grants.Keys == old(tables.grants).Keys
      ensures forall g | g in old(tables.grants) ::
        var row := old(tables.grants)[g];
        tables.grants[g] == if row.status == Active && row.expiresAt < now then row.(status := Expired) else row
      ensures count == |set g | g in old(tables.grants) && old(tables.grants)[g].status == Active
                                && old(tables.grants)[g].expiresAt < now|
      ensures unchanged(tables`users, tables`accounts, tables`entries, tables`txns, tables`grantEntries)
    {
      count := tables.ExpireActiveGrants(now);
    }
  }

  lemma DrawdownShows(db: Db, a: AccId, amount: nat, ids: seq<GrantId>)
    requires GrantsLive(db.grants) && Enabled(db, Op.Drawdown(a, amount, ids))
    ensures
      var d := DrawList(db, ids, amount);
      && Reports(db.grants, db.grants + d.rows, ids, Contributions(d.entries))
      && EmptiedInOrder(db.grants, db.grants + d.rows, ids)
  {
    hide LiveRows, Sum, Drain, Reports, EmptiedInOrder, Contributions, Precedes;
    assert ids[..|ids|] == ids;
    DrawIsReported(db, ids, |ids|, amount);
    DrawdownInOrder(db, Op.Drawdown(a, amount, ids));
  }

  lemma DebitShows(db: Db, a: AccId, amount: nat, now: int, ids: seq<GrantId>)
    requires GrantsLive(db.grants) && Enabled(db, Op.WaterfallDebit(a, amount, now, ids, db.grants.Keys))
    ensures
      var d := DrawList(db, ids, amount);
      var db' := Apply(db, Op.WaterfallDebit(a, amount, now, ids, db.grants.Keys));
      && db'.grants == db.grants + d.rows
      && Reports(db.grants, db'.grants, ids, Contributions(d.entries))
      && EmptiedInOrder(db.grants, db'.grants, ids) && CashLast(db, db', a, now, db.grants.Keys)
  {
    hide LiveRows, Sum, Drain, Reports, EmptiedInOrder, CashLast, Contributions, Precedes;
    assert ids[..|ids|] == ids;
    DrawIsReported(db, ids, |ids|, amount);
    DebitInOrder(db, Op.WaterfallDebit(a, amount, now, ids, db.grants.Keys));
  }

  lemma AmountsOfAll(grants: map<GrantId, Grant>, ids: seq<GrantId>, rows: seq<Row>)
    requires Ids(rows) == ids
    requires forall i | 0 <= i < |rows| :: rows[i].id in grants && rows[i].amount == grants[rows[i].id].remaining
    ensures forall i | 0 <= i < |ids| :: ids[i] in grants
    ensures Amounts(rows) == Remainings(grants, ids)
  {
    assert forall i | 0 <= i < |ids| :: ids[i] == rows[i].id;
  }

  lemma DebitEnabled(db: Db, a: AccId, amount: nat, now: int, ids: seq<GrantId>)
    requires amount > 0 && a in db.accounts && Listed(db.grants, a, ids)
    requires forall i | 0 <= i < |ids| :: Eligible(db.grants[ids[i]], a, now)
    requires forall g | g in db.grants && Eligible(db.grants[g], a, now) :: g in ids
    requires Sum(Amounts(LiveRows(db.grants, ids))) + db.accounts[a].balance >= amount
    ensures Enabled(db, Op.WaterfallDebit(a, amount, now, ids, db.grants.Keys))
  {
    hide LiveRows, Sum, Amounts;
  }

  lemma AppliedWaterfall(db: Db, a: AccId, amount: nat, now: int, ids: seq<GrantId>)
    requires GrantsLive(db.grants) && Enabled(db, Op.WaterfallDebit(a, amount, now, ids, db.grants.Keys))
    ensures
      var d := DrawList(db, ids, amount);
      var cash := db.accounts[a].balance - d.left;
      Apply(db, Op.WaterfallDebit(a, amount, now, ids, db.grants.Keys))
        == if d.left == 0 then WithDrawn(db, d)
           else WithDrawn(db, d).(
             accounts := db.accounts[a := db.accounts[a].(balance := cash)],
             entries := db.entries + [Entry(a, Debit, d.left, cash, None)])
  {
    hide DrawList, LiveRows, Sum;
  }
}
