/** The order in which draws empty grants, said of the rows before and after: by
    priority, then by expiry, and cash only when no grant is left. */
module DrawOrder {
  import opened WaterfallSpec
  import opened Database
  import opened Serial
  import opened History
  import opened Sessions
  import opened SessionSafety
  import opened DrawGuarantees

  /** Of two grants that were active, the one with the larger priority number, or with
      the same and the later expiry, is touched only if the other one ends empty. */
  ghost predicate EmptiedInOrder(grants: map<GrantId, Grant>, grants': map<GrantId, Grant>, ids: seq<GrantId>) {
    forall g, h | g in ids && h in ids && g in grants && h in grants && g in grants' && h in grants' ::
      && grants[g].status == Active && grants[h].status == Active
      && (grants[g].priority < grants[h].priority
          || (grants[g].priority == grants[h].priority && grants[g].expiresAt < grants[h].expiresAt))
      && grants'[h].remaining < grants[h].remaining
      ==> grants'[g].remaining == 0
  }

  /** Cash is touched only if every grant that the debit could use ends empty. */
  ghost predicate CashLast(db: Db, db': Db, a: AccId, now: int, seen: set<GrantId>) {
    a in db.accounts && a in db'.accounts && db'.accounts[a].balance < db.accounts[a].balance ==>
      forall g | g in seen && g in db.grants && db.grants[g].account == a && db.grants[g].status == Active
                 && db.grants[g].expiresAt > now ::
        g in db'.grants && db'.grants[g].remaining == 0
  }

  // The list keeps its order among the rows

  lemma {:induction false} RowsInOrder(grants: map<GrantId, Grant>, ids: seq<GrantId>, k: nat, m: nat)
    returns (i: nat, j: nat)
    requires forall n | 0 <= n < |ids| :: ids[n] in grants
    requires k < m < |ids| && grants[ids[k]].status == Active && grants[ids[m]].status == Active
    ensures i < j < |LiveRows(grants, ids)|
    ensures LiveRows(grants, ids)[i] == Row(ids[k], grants[ids[k]].remaining)
    ensures LiveRows(grants, ids)[j] == Row(ids[m], grants[ids[m]].remaining)
    decreases |ids|
  {
    var n := |ids| - 1;
    if m < n {
      i, j := RowsInOrder(grants, ids[..n], k, m);
    } else {
      i := RowOf(grants, ids[..n], k);
      j := |LiveRows(grants, ids)| - 1;
    }
  }

  lemma {:induction false} RowOf(grants: map<GrantId, Grant>, ids: seq<GrantId>, k: nat) returns (i: nat)
    requires forall n | 0 <= n < |ids| :: ids[n] in grants
    requires k < |ids| && grants[ids[k]].status == Active
    ensures i < |LiveRows(grants, ids)| && LiveRows(grants, ids)[i] == Row(ids[k], grants[ids[k]].remaining)
    decreases |ids|
  {
    var n := |ids| - 1;
    if k < n {
      i := RowOf(grants, ids[..n], k);
    } else {
      i := |LiveRows(grants, ids)| - 1;
    }
  }

  /** A list sorted by the order clause has the sooner grant first. */
  lemma SoonerStandsFirst(grants: map<GrantId, Grant>, a: AccId, ids: seq<GrantId>, g: GrantId, h: GrantId)
    returns (k: nat, m: nat)
    requires Listed(grants, a, ids) && g in ids && h in ids
    requires grants[g].priority < grants[h].priority
          || (grants[g].priority == grants[h].priority && grants[g].expiresAt < grants[h].expiresAt)
    ensures k < m < |ids| && ids[k] == g && ids[m] == h
  {
    k :| 0 <= k < |ids| && ids[k] == g;
    m :| 0 <= m < |ids| && ids[m] == h;
  }

  // What the shares mean for the rows

  /** The rows after a draw by these shares, earlier ones emptied first. */
  ghost predicate DrewInTurn(db: Db, db': Db, rows: seq<Row>, shares: seq<nat>) {
    && Fit(db.grants, rows) && Within(rows, shares) && DrewGrants(db, db', rows, shares)
    && forall i, j | 0 <= i < j < |rows| :: shares[j] > 0 ==> shares[i] == rows[i].amount
  }

  lemma RowAfter(db: Db, db': Db, rows: seq<Row>, shares: seq<nat>, i: nat)
    requires DrewInTurn(db, db', rows, shares) && i < |rows|
    ensures rows[i].id in db'.grants && db'.grants[rows[i].id].remaining == rows[i].amount - shares[i]
  {
  }

  lemma OrderOfTwo(db: Db, db': Db, a: AccId, ids: seq<GrantId>, shares: seq<nat>, g: GrantId, h: GrantId)
    requires Listed(db.grants, a, ids) && DrewInTurn(db, db', LiveRows(db.grants, ids), shares)
    requires g in ids && h in ids && db.grants[g].status == Active && db.grants[h].status == Active
    requires db.grants[g].priority < db.grants[h].priority
          || (db.grants[g].priority == db.grants[h].priority && db.grants[g].expiresAt < db.grants[h].expiresAt)
    requires h in db'.grants && db'.grants[h].remaining < db.grants[h].remaining
    ensures g in db'.grants && db'.grants[g].remaining == 0
  {
    hide LiveRows, DrewInTurn;
    var rows := LiveRows(db.grants, ids);
    var k, m := SoonerStandsFirst(db.grants, a, ids, g, h);
    var i, j := RowsInOrder(db.grants, ids, k, m);
    RowAfter(db, db', rows, shares, i);
    RowAfter(db, db', rows, shares, j);
    assert shares[j] > 0 ==> shares[i] == rows[i].amount by {
      EarlierEmptied(db, db', rows, shares, i, j);
    }
  }

  lemma EarlierEmptied(db: Db, db': Db, rows: seq<Row>, shares: seq<nat>, i: nat, j: nat)
    requires DrewInTurn(db, db', rows, shares) && i < j < |rows|
    ensures |shares| == |rows| && (shares[j] > 0 ==> shares[i] == rows[i].amount)
  {
  }

  lemma InTurnIsInOrder(db: Db, db': Db, a: AccId, ids: seq<GrantId>, shares: seq<nat>)
    requires Listed(db.grants, a, ids) && DrewInTurn(db, db', LiveRows(db.grants, ids), shares)
    ensures EmptiedInOrder(db.grants, db'.grants, ids)
  {
    hide LiveRows, DrewInTurn;
    forall g, h | g in ids && h in ids && g in db.grants && h in db.grants && g in db'.grants && h in db'.grants
                  && db.grants[g].status == Active && db.grants[h].status == Active
                  && (db.grants[g].priority < db.grants[h].priority
                      || (db.grants[g].priority == db.grants[h].priority
                          && db.grants[g].expiresAt < db.grants[h].expiresAt))
                  && db'.grants[h].remaining < db.grants[h].remaining
      ensures db'.grants[g].remaining == 0
    {
      OrderOfTwo(db, db', a, ids, shares, g, h);
    }
  }

  // The two draws

  /** A Drawdown on its own. */
  lemma DrawdownInOrder(db: Db, op: Op)
    requires GrantsLive(db.grants) && Enabled(db, op) && op.Drawdown?
    ensures EmptiedInOrder(db.grants, Apply(db, op).grants, op.ids)
  {
    hide LiveRows, Sum, Apply, Waterfall, DrewGrants, Precedes, EmptiedInOrder;
    DrawdownIsWaterfall(db, op);
    var rows := LiveRows(db.grants, op.ids);
    WaterfallIsDraw(Amounts(rows), op.amount);
    assert DrewInTurn(db, Apply(db, op), rows, Waterfall(Amounts(rows), op.amount));
    InTurnIsInOrder(db, Apply(db, op), op.account, op.ids, Waterfall(Amounts(rows), op.amount));
  }

  lemma DebitInTurn(db: Db, op: Op)
    requires GrantsLive(db.grants) && Enabled(db, op) && op.WaterfallDebit?
    ensures
      var rows := LiveRows(db.grants, op.ids);
      var takes := Waterfall(Sources(db, op.account, op.ids), op.amount);
      && |takes| == |rows| + 1 && DrewInTurn(db, Apply(db, op), rows, takes[..|rows|])
      && (takes[|rows|] > 0 ==> takes[..|rows|] == Amounts(rows))
      && Apply(db, op).accounts == db.accounts[op.account :=
           db.accounts[op.account].(balance := db.accounts[op.account].balance - takes[|rows|])]
  {
    hide LiveRows, Sum, Apply, Waterfall, DrewGrants;
    DebitIsAtomicWaterfall(db, op);
    WaterfallIsDraw(Sources(db, op.account, op.ids), op.amount);
  }

  /** A WaterfallDebit on its own: grants in order, and cash last. */
  lemma DebitInOrder(db: Db, op: Op)
    requires GrantsLive(db.grants) && Enabled(db, op) && op.WaterfallDebit?
    ensures EmptiedInOrder(db.grants, Apply(db, op).grants, op.ids)
    ensures CashLast(db, Apply(db, op), op.account, op.now, op.seen)
  {
    hide LiveRows, Sum, Apply, Waterfall, DrewGrants, Precedes, EmptiedInOrder, DrewInTurn, Amounts, Sources;
    DebitInTurn(db, op);
    var db', rows := Apply(db, op), LiveRows(db.grants, op.ids);
    var takes := Waterfall(Sources(db, op.account, op.ids), op.amount);
    InTurnIsInOrder(db, db', op.account, op.ids, takes[..|rows|]);
    if db'.accounts[op.account].balance < db.accounts[op.account].balance {
      forall g | g in op.seen && g in db.grants && db.grants[g].account == op.account
                 && db.grants[g].status == Active && db.grants[g].expiresAt > op.now
        ensures g in db'.grants && db'.grants[g].remaining == 0
      {
        var k :| 0 <= k < |op.ids| && op.ids[k] == g;
        var i := RowOf(db.grants, op.ids, k);
        AmountAt(rows, i);
        RowAfter(db, db', rows, takes[..|rows|], i);
      }
    }
  }

  lemma AmountAt(rows: seq<Row>, i: nat)
    requires i < |rows|
    ensures Amounts(rows)[i] == rows[i].amount
  {
  }

  // At the commit, in any interleaving

  /** Rows that a Drawdown has not got to stay as they are. */
  lemma DrawdownTouchesListed(db: Db, op: Op, g: GrantId)
    requires GrantsLive(db.grants) && Enabled(db, op) && op.Drawdown? && g in db.grants && g !in op.ids
    ensures g in Apply(db, op).grants && Apply(db, op).grants[g] == db.grants[g]
  {
    hide LiveRows, Sum, Apply, Waterfall;
    DrawdownIsWaterfall(db, op);
    LiveRowsFit(db.grants, op.ids);
    var rows := LiveRows(db.grants, op.ids);
    forall i | 0 <= i < |rows| ensures rows[i].id != g {
      assert rows[i] in rows;
    }
  }

  lemma PrefixInOrder(grants: map<GrantId, Grant>, grants': map<GrantId, Grant>, a: AccId, ids: seq<GrantId>, k: nat)
    requires Listed(grants, a, ids) && k <= |ids| && EmptiedInOrder(grants, grants', ids[..k])
    requires forall g | g in grants && g !in ids[..k] :: g in grants' && grants'[g] == grants[g]
    ensures EmptiedInOrder(grants, grants', ids)
  {
    forall g, h | g in ids && h in ids && g in grants && h in grants && g in grants' && h in grants'
                  && (grants[g].priority < grants[h].priority
                      || (grants[g].priority == grants[h].priority && grants[g].expiresAt < grants[h].expiresAt))
                  && grants'[h].remaining < grants[h].remaining
      ensures g in ids[..k] && h in ids[..k]
    {
      var i, j := SoonerStandsFirst(grants, a, ids, g, h);
      var n :| 0 <= n < k && ids[..k][n] == h;
      assert ids[n] == h;
      assert ids[..k][i] == g;
    }
  }

  /** What a Drawdown commits, in whatever interleaving, over all that its query
      returned. */
  lemma DrawdownCommitInOrder(s: State, p: Pid)
    requires Inv(s) && p in s.sessions && s.sessions[p].DrawdownCall? && s.sessions[p].dpc.DLock?
    requires var pc := s.sessions[p].dpc; pc.k >= |pc.ids| || pc.drawn.left == 0
    ensures CanStep(s, Run(p, []))
    ensures EmptiedInOrder(s.db.grants, Step(s, Run(p, [])).db.grants, s.sessions[p].dpc.ids)
  {
    DrawdownCommitsAs(s, p);
    hide LiveRows, Sum, Drain, Precedes, Step, CanStep, Apply, EmptiedInOrder;
    var ses := s.sessions[p];
    var pc, db' := ses.dpc, Step(s, Run(p, [])).db;
    var op := Op.Drawdown(ses.account, ses.amount, pc.ids[..pc.k]);
    DrawdownInOrder(s.db, op);
    forall g | g in s.db.grants && g !in pc.ids[..pc.k] ensures g in db'.grants && db'.grants[g] == s.db.grants[g] {
      DrawdownTouchesListed(s.db, op, g);
    }
    assert SessionOk(s.db, ses);
    PrefixInOrder(s.db.grants, db'.grants, ses.account, pc.ids, pc.k);
  }

  /** What a WaterfallDebit commits: the same, and cash only after every eligible grant
      that existed when its query ran. */
  lemma DebitCommitInOrder(s: State, p: Pid)
    requires Inv(s) && p in s.sessions && s.sessions[p].WaterfallCall? && s.sessions[p].wpc.WCommit?
    ensures CanStep(s, Run(p, []))
    ensures
      var ses, db' := s.sessions[p], Step(s, Run(p, [])).db;
      && EmptiedInOrder(s.db.grants, db'.grants, ses.wpc.ids)
      && CashLast(s.db, db', ses.account, ses.now, ses.wpc.seen)
  {
    hide LiveRows, Sum, Drain, Precedes, Apply, EmptiedInOrder, CashLast, Merge, Confined;
    ReachableIsAudited(s.log, s.db);
    var ses := s.sessions[p];
    CommitIsSerial(s.db, OthersLocks(s, p), ses, []);
    DebitInOrder(s.db, Advance(s.db, OthersLocks(s, p), ses, []).op);
  }
}
