/** What a committed draw is worth to its caller, in every interleaving. */
module DrawGuarantees {
  import opened Common
  import opened WaterfallSpec
  import opened Database
  import opened Serial
  import opened History
  import opened Sessions
  import opened SessionSafety

  // WaterfallDebit

  function Floor(x: int): nat {
    if x < 0 then 0 else x
  }

  /** The sources of a waterfall debit: the live grants of the list, then cash. */
  function Sources(db: Db, a: AccId, ids: seq<GrantId>): seq<nat>
    requires a in db.accounts && forall i | 0 <= i < |ids| :: ids[i] in db.grants
  {
    Amounts(LiveRows(db.grants, ids)) + [Floor(db.accounts[a].balance)]
  }

  /** Grants drawn on: each row shrinks by its share, the shares are recorded in
      order, and no other grant changes. */
  ghost predicate DrewGrants(db: Db, db': Db, rows: seq<Row>, shares: seq<nat>)
    requires Fit(db.grants, rows) && Within(rows, shares)
  {
    && (forall i | 0 <= i < |rows| ::
          rows[i].id in db'.grants && db'.grants[rows[i].id]
            == if shares[i] > 0 then Reduced(db.grants[rows[i].id], shares[i]) else db.grants[rows[i].id])
    && db'.grants.Keys == db.grants.Keys
    && (forall g | g in db.grants && (forall i | 0 <= i < |rows| :: rows[i].id != g) :: db'.grants[g] == db.grants[g])
    && db'.grantEntries == db.grantEntries + ShareEntries(rows, shares)
  }

  /** The debit as one atomic draw: grants shrink by the first shares, cash by the
      last, and a cash share leaves one entry. */
  ghost predicate DrewFrom(db: Db, db': Db, a: AccId, rows: seq<Row>, takes: seq<nat>)
    requires |takes| == |rows| + 1 && Fit(db.grants, rows) && Within(rows, takes[..|rows|])
    requires a in db.accounts
  {
    var share := takes[|rows|];
    var cash := db.accounts[a].balance - share;
    && DrewGrants(db, db', rows, takes[..|rows|])
    && db'.accounts == db.accounts[a := db.accounts[a].(balance := cash)]
    && db'.entries == db.entries + (if share > 0 then [Entry(a, Debit, share, cash, None)] else [])
    && db'.txns == db.txns && db'.users == db.users
  }

  lemma WaterfallThenLast(avails: seq<nat>, x: nat, amount: nat)
    requires Sum(avails) + x >= amount
    ensures
      var takes := Waterfall(avails + [x], amount);
      && takes[..|avails|] == Waterfall(avails, amount)
      && takes[|avails|] == amount - Sum(Waterfall(avails, amount))
      && Sum(takes) == amount
  {
    hide Waterfall, Sum;
    WaterfallSnoc(avails, x, amount);
    SumSnoc(Waterfall(avails, amount), Min(x, amount - Min(amount, Sum(avails))));
  }

  /** Locked rows and a cash balance drawn on together: the loop over the rows takes
      the first shares of the waterfall and leaves the last one to cash. */
  lemma RowsThenCash(grants: map<GrantId, Grant>, rows: seq<Row>, cash: int, amount: nat)
    requires Fit(grants, rows) && Sum(Amounts(rows)) + cash >= amount
    ensures
      var takes := Waterfall(Amounts(rows) + [Floor(cash)], amount);
      var d := Drain(grants, rows, amount);
      && |takes| == |rows| + 1 && takes[|rows|] == d.left && Sum(takes) == amount
      && DrainedBy(grants, rows, amount, d, takes[..|rows|])
  {
    hide Waterfall, Sum, Drain, DrainedBy, Amounts;
    DrainIsWaterfall(grants, rows, amount);
    LeftOfDrain(grants, rows, amount);
    WaterfallThenLast(Amounts(rows), Floor(cash), amount);
  }

  lemma LeftOfDrain(grants: map<GrantId, Grant>, rows: seq<Row>, amount: nat)
    requires Fit(grants, rows)
    ensures Drain(grants, rows, amount).left == amount - Sum(Waterfall(Amounts(rows), amount))
  {
    DrainIsWaterfall(grants, rows, amount);
  }

  /** Writing a draw back changes exactly the rows that gave something. */
  lemma WrittenBack(grants: map<GrantId, Grant>, rows: seq<Row>, amount: nat, d: Drawn, takes: seq<nat>)
    requires Fit(grants, rows) && DrainedBy(grants, rows, amount, d, takes)
    ensures
      var grants' := grants + d.rows;
      && grants'.Keys == grants.Keys
      && (forall i | 0 <= i < |rows| ::
            rows[i].id in grants' && grants'[rows[i].id]
                == if takes[i] > 0 then Reduced(grants[rows[i].id], takes[i])
                else grants[rows[i].id])
      && (forall g | g in grants && (forall i | 0 <= i < |rows| :: rows[i].id != g) :: grants'[g] == grants[g])
  {
    hide Sum, ShareEntries;
  }

  lemma AppliedDebit(db: Db, op: Op)
    requires GrantsLive(db.grants) && Enabled(db, op) && op.WaterfallDebit?
    ensures
      var d := DrawList(db, op.ids, op.amount);
      var db' := Apply(db, op);
      && db'.grants == db.grants + d.rows && db'.grantEntries == db.grantEntries + d.entries
      && db'.accounts
         == db.accounts[op.account := db.accounts[op.account].(balance := db.accounts[op.account].balance - d.left)]
      && (var cash := db.accounts[op.account].balance - d.left;
          db'.entries == db.entries + (if d.left > 0 then [Entry(op.account, Debit, d.left, cash, None)] else []))
      && db'.txns == db.txns && db'.users == db.users
  {
    hide DrawList, LiveRows, Sum;
  }

  /** A committed WaterfallDebit takes exactly its amount, as the waterfall over the
      live grants and the cash of the committed tables. */
  lemma DebitIsAtomicWaterfall(db: Db, op: Op)
    requires GrantsLive(db.grants) && Enabled(db, op) && op.WaterfallDebit?
    ensures
      var rows := LiveRows(db.grants, op.ids);
      var takes := Waterfall(Sources(db, op.account, op.ids), op.amount);
      && |takes| == |rows| + 1 && Fit(db.grants, rows) && Within(rows, takes[..|rows|])
      && Sum(takes) == op.amount
      && DrewFrom(db, Apply(db, op), op.account, rows, takes)
  {
    hide Waterfall, Sum, LiveRows, Drain, Apply, Reduced, ShareEntries, Rewritten;
    LiveRowsFit(db.grants, op.ids);
    var rows := LiveRows(db.grants, op.ids);
    var cash := db.accounts[op.account].balance;
    var takes := Waterfall(Sources(db, op.account, op.ids), op.amount);
    RowsThenCash(db.grants, rows, cash, op.amount);
    AppliedDebit(db, op);
    WrittenBack(db.grants, rows, op.amount, Drain(db.grants, rows, op.amount), takes[..|rows|]);
  }

  /** The list behind the debit is the right one: eligible grants of the account,
      in order, and all of those that existed when the query ran. */
  lemma DebitListIsEligible(db: Db, op: Op)
    requires GrantsLive(db.grants) && Enabled(db, op) && op.WaterfallDebit?
    ensures
      var rows := LiveRows(db.grants, op.ids);
      && (forall i | 0 <= i < |rows| :: rows[i].id in db.grants && Eligible(db.grants[rows[i].id], op.account, op.now))
      && (forall g | g in op.seen && g in db.grants && Eligible(db.grants[g], op.account, op.now) ::
            Row(g, db.grants[g].remaining) in rows)
  {
    LiveRowsFit(db.grants, op.ids);
    var rows := LiveRows(db.grants, op.ids);
    forall i | 0 <= i < |rows| ensures rows[i].id in db.grants && Eligible(db.grants[rows[i].id], op.account, op.now) {
      assert rows[i] in rows;
      var k :| 0 <= k < |op.ids| && op.ids[k] == rows[i].id;
    }
  }

  /** In any reachable state, the commit of a WaterfallDebit is that atomic draw on
      the tables as they are committed right then. */
  lemma WaterfallDebitRefinesAtomicStep(s: State, p: Pid)
    requires Inv(s) && p in s.sessions && s.sessions[p].WaterfallCall? && s.sessions[p].wpc.WCommit?
    ensures CanStep(s, Run(p, [])) && GrantsLive(s.db.grants)
    ensures
      var ses := s.sessions[p];
      var db' := Step(s, Run(p, [])).db;
      var rows := LiveRows(s.db.grants, ses.wpc.ids);
      && ses.account in s.db.accounts && ses.amount > 0
      && (forall i | 0 <= i < |ses.wpc.ids| :: ses.wpc.ids[i] in s.db.grants)
      && (var takes := Waterfall(Sources(s.db, ses.account, ses.wpc.ids), ses.amount);
          && |takes| == |rows| + 1 && Fit(s.db.grants, rows) && Within(rows, takes[..|rows|])
          && Sum(takes) == ses.amount
          && DrewFrom(s.db, db', ses.account, rows, takes))
      && (forall g | g in ses.wpc.seen :: g in s.db.grants
            && (Eligible(s.db.grants[g], ses.account, ses.now) ==> Row(g, s.db.grants[g].remaining) in rows))
  {
    ReachableIsAudited(s.log, s.db);
    var ses := s.sessions[p];
    CommitIsSerial(s.db, OthersLocks(s, p), ses, []);
    var op := Advance(s.db, OthersLocks(s, p), ses, []).op;
    hide Merge, Apply, LiveRows, Drain, Sum, Waterfall, Sources;
    DebitIsAtomicWaterfall(s.db, op);
    DebitListIsEligible(s.db, op);
  }

  /** What it has read under its locks is what is committed, and with all locks
      granted it gives up exactly when grants and cash together fall short. */
  lemma WaterfallDecision(s: State, p: Pid)
    requires Inv(s) && p in s.sessions && s.sessions[p].WaterfallCall? && s.sessions[p].wpc.WLock?
    requires s.sessions[p].wpc.k == |s.sessions[p].wpc.ids|
    ensures
      var ses := s.sessions[p];
      && ses.account in s.db.accounts && (forall i | 0 <= i < |ses.wpc.ids| :: ses.wpc.ids[i] in s.db.grants)
      && ses.wpc.cash == s.db.accounts[ses.account].balance
      && ses.wpc.got == LiveRows(s.db.grants, ses.wpc.ids)
      && (var funds := Sum(Amounts(LiveRows(s.db.grants, ses.wpc.ids))) + s.db.accounts[ses.account].balance;
          var r := Advance(s.db, OthersLocks(s, p), ses, []);
          if funds < ses.amount then r == Fail(InsufficientFunds)
          else r.Go? && r.next.WaterfallCall? && r.next.wpc.WCommit?)
  {
    ReachableIsAudited(s.log, s.db);
    var ses := s.sessions[p];
    assert ses.wpc.ids[..ses.wpc.k] == ses.wpc.ids;
    LiveRowsFit(s.db.grants, ses.wpc.ids);
  }

  /** The test adds cash with its sign. So an overdrawn account is refused although
      its grants alone would do, exactly when they do not also cover the overdraft. */
  lemma RefusedThoughCovered(s: State, p: Pid)
    requires Inv(s) && p in s.sessions && s.sessions[p].WaterfallCall? && s.sessions[p].wpc.WLock?
    requires s.sessions[p].wpc.k == |s.sessions[p].wpc.ids|
    ensures
      var ses := s.sessions[p];
      && ses.account in s.db.accounts && (forall i | 0 <= i < |ses.wpc.ids| :: ses.wpc.ids[i] in s.db.grants)
      && (var refused := Advance(s.db, OthersLocks(s, p), ses, []) == Fail(InsufficientFunds);
          var covered := Sum(Sources(s.db, ses.account, ses.wpc.ids)) >= ses.amount;
          var grants, cash := Sum(Amounts(LiveRows(s.db.grants, ses.wpc.ids))), s.db.accounts[ses.account].balance;
          && (!refused ==> covered)
          && (refused && covered <==> cash < 0 && ses.amount <= grants < ses.amount - cash))
  {
    hide LiveRows, Sum, Drain, Inv, Amounts;
    WaterfallDecision(s, p);
    var ses := s.sessions[p];
    SumSnoc(Amounts(LiveRows(s.db.grants, ses.wpc.ids)), Floor(s.db.accounts[ses.account].balance));
  }

  // Drawdown

  /** A committed Drawdown takes the waterfall of the rows it found live: as much of
      its amount as they hold, and no cash. */
  lemma DrawdownIsWaterfall(db: Db, op: Op)
    requires GrantsLive(db.grants) && Enabled(db, op) && op.Drawdown?
    ensures
      var rows := LiveRows(db.grants, op.ids);
      var shares := Waterfall(Amounts(rows), op.amount);
      var db' := Apply(db, op);
      && Fit(db.grants, rows) && Within(rows, shares) && DrewGrants(db, db', rows, shares)
      && Sum(shares) == Min(op.amount, Sum(Amounts(rows)))
      && db'.accounts == db.accounts && db'.entries == db.entries && db'.txns == db.txns && db'.users == db.users
  {
    hide Waterfall, Sum, LiveRows, Drain, Reduced, ShareEntries, Rewritten, Amounts;
    LiveRowsFit(db.grants, op.ids);
    var rows := LiveRows(db.grants, op.ids);
    WaterfallIsDraw(Amounts(rows), op.amount);
    DrainIsWaterfall(db.grants, rows, op.amount);
    WrittenBack(db.grants, rows, op.amount, Drain(db.grants, rows, op.amount), Waterfall(Amounts(rows), op.amount));
  }

  /** Rows that still read as they did before they were locked. */
  ghost predicate Undisturbed(db: Db, ids: seq<GrantId>, read: seq<nat>)
    requires |read| == |ids|
  {
    forall i | 0 <= i < |ids| ::
      ids[i] in db.grants && db.grants[ids[i]].status == Active && db.grants[ids[i]].remaining == read[i]
  }

  lemma {:induction false} UndisturbedAmounts(db: Db, ids: seq<GrantId>, read: seq<nat>)
    requires |read| == |ids| && Undisturbed(db, ids, read)
    ensures Amounts(LiveRows(db.grants, ids)) == read
    decreases |ids|
  {
    if ids != [] {
      var n := |ids| - 1;
      assert ids[..n][..] == ids[..n];
      UndisturbedAmounts(db, ids[..n], read[..n]);
      var before := LiveRows(db.grants, ids[..n]);
      assert LiveRows(db.grants, ids) == before + [Row(ids[n], read[n])];
      assert Amounts(before + [Row(ids[n], read[n])]) == Amounts(before) + [read[n]];
      assert read == read[..n] + [read[n]];
    }
  }

  /** The commit of a Drawdown in any reachable state: it takes what the locked rows
      hold, at most its amount; and exactly its amount if every row it locked still
      read as it did in the unlocked query. */
  lemma DrawdownCommit(s: State, p: Pid)
    requires Inv(s) && p in s.sessions && s.sessions[p].DrawdownCall? && s.sessions[p].dpc.DLock?
    requires var pc := s.sessions[p].dpc; pc.k >= |pc.ids| || pc.drawn.left == 0
    ensures CanStep(s, Run(p, [])) && GrantsLive(s.db.grants)
    ensures
      var ses := s.sessions[p];
      var pc := ses.dpc;
      var db' := Step(s, Run(p, [])).db;
      && ses.amount > 0 && pc.k <= |pc.ids| == |pc.read|
      && (forall i | 0 <= i < |pc.ids| :: pc.ids[i] in s.db.grants)
      && (var rows := LiveRows(s.db.grants, pc.ids[..pc.k]);
          var shares := Waterfall(Amounts(rows), ses.amount);
          && Fit(s.db.grants, rows) && Within(rows, shares) && DrewGrants(s.db, db', rows, shares)
          && Sum(shares) <= ses.amount
          && (Sum(shares) == ses.amount <==> Sum(Amounts(rows)) >= ses.amount)
          && (Undisturbed(s.db, pc.ids[..pc.k], pc.read[..pc.k]) ==> Sum(shares) == ses.amount))
      && db'.accounts == s.db.accounts && db'.entries == s.db.entries
  {
    hide LiveRows, Waterfall, Sum, Drain, Merge, Apply, DrewGrants, CommitsAs, Amounts;
    ReachableIsAudited(s.log, s.db);
    var ses := s.sessions[p];
    var pc := ses.dpc;
    DrawdownCommitsAs(s, p);
    DrawdownIsWaterfall(s.db, Op.Drawdown(ses.account, ses.amount, pc.ids[..pc.k]));
    if Undisturbed(s.db, pc.ids[..pc.k], pc.read[..pc.k]) {
      UndisturbedAmounts(s.db, pc.ids[..pc.k], pc.read[..pc.k]);
      if pc.k == |pc.ids| {
        assert pc.read[..pc.k] == pc.read;
      } else {
        LeftOfDrain(s.db.grants, LiveRows(s.db.grants, pc.ids[..pc.k]), ses.amount);
      }
    }
  }

  lemma DrawdownCommitsAs(s: State, p: Pid)
    requires Inv(s) && p in s.sessions && s.sessions[p].DrawdownCall? && s.sessions[p].dpc.DLock?
    requires var pc := s.sessions[p].dpc; pc.k >= |pc.ids| || pc.drawn.left == 0
    ensures GrantsLive(s.db.grants) && CanStep(s, Run(p, []))
    ensures
      var ses := s.sessions[p];
      && ses.amount > 0 && ses.dpc.k <= |ses.dpc.ids|
      && (var op := Op.Drawdown(ses.account, ses.amount, ses.dpc.ids[..ses.dpc.k]);
          Enabled(s.db, op) && Step(s, Run(p, [])).db == Apply(s.db, op))
  {
    hide LiveRows, Waterfall, Sum, Drain, Merge, Apply;
    ReachableIsAudited(s.log, s.db);
    CommitIsSerial(s.db, OthersLocks(s, p), s.sessions[p], []);
  }
}
