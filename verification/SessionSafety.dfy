/** Every interleaving is serial: the committed tables are always those of the
    committed operations run one at a time, in commit order. */
module SessionSafety {
  import opened Common
  import opened WaterfallSpec
  import opened Database
  import opened Serial
  import opened GrantLife
  import opened History
  import opened Sessions

  // What a session may rely on

  ghost predicate ReadyToWrite(db: Db, s: AccId, d: AccId, amount: int, currency: string) {
    && amount > 0 && s != d && s in db.accounts && d in db.accounts
    && db.accounts[s].currency == db.accounts[d].currency == currency
  }

  ghost predicate BothWritten(db: Db, s: AccId, d: AccId, amount: int, written: map<AccId, int>)
    requires s in db.accounts && d in db.accounts
  {
    && db.accounts[s].balance >= amount
    && written == map[s := db.accounts[s].balance - amount, d := db.accounts[d].balance + amount]
  }

  ghost predicate TransferOk(db: Db, s: AccId, d: AccId, amount: int, key: Key, pc: TransferPc) {
    match pc
    case TStart => true
    case TReadSource => amount > 0 && s != d
    case TReadDest(found) =>
      amount > 0 && s != d && s in db.accounts && db.accounts[s].currency == found.currency
    case TFirst(currency) => ReadyToWrite(db, s, d, amount, currency)
    case TSecond(currency, written) =>
      && ReadyToWrite(db, s, d, amount, currency)
      && (if s < d then
            db.accounts[s].balance >= amount && written == map[s := db.accounts[s].balance - amount]
          else
            written == map[d := db.accounts[d].balance + amount])
    case TReread(currency, written) =>
      ReadyToWrite(db, s, d, amount, currency) && BothWritten(db, s, d, amount, written)
    case TInsert(currency, written, destSeen) =>
      && ReadyToWrite(db, s, d, amount, currency) && BothWritten(db, s, d, amount, written)
      && destSeen == db.accounts[d].balance + amount
    case TCommit(currency, written, destSeen) =>
      && ReadyToWrite(db, s, d, amount, currency) && BothWritten(db, s, d, amount, written)
      && destSeen == db.accounts[d].balance + amount && key !in db.txns
  }

  /** The candidate list: unexpired grants in order, none of the grants seen that is
      still eligible missing. */
  ghost predicate ListOk(db: Db, a: AccId, now: int, ids: seq<GrantId>, seen: set<GrantId>) {
    && Listed(db.grants, a, ids)
    && (forall i | 0 <= i < |ids| :: db.grants[ids[i]].expiresAt > now)
    && (forall g | g in seen :: g in db.grants && (Eligible(db.grants[g], a, now) ==> g in ids))
  }

  ghost predicate WaterfallOk(db: Db, a: AccId, amount: int, now: int, pc: WaterfallPc) {
    match pc
    case WStart => true
    case WSelect(cash) => amount > 0 && a in db.accounts && db.accounts[a].balance == cash
    case WLock(cash, ids, seen, k, got) =>
      && amount > 0 && a in db.accounts && db.accounts[a].balance == cash
      && ListOk(db, a, now, ids, seen) && k <= |ids| && got == LiveRows(db.grants, ids[..k])
    case WCommit(cash, ids, seen, got, drawn) =>
      && amount > 0 && a in db.accounts && db.accounts[a].balance == cash
      && ListOk(db, a, now, ids, seen) && got == LiveRows(db.grants, ids)
      && Sum(Amounts(got)) + cash >= amount
      && Fit(db.grants, got) && drawn == Drain(db.grants, got, amount)
  }

  ghost predicate DrawdownOk(db: Db, a: AccId, amount: int, pc: DrawdownPc) {
    match pc
    case DStart => true
    case DLock(ids, read, k, drawn) =>
      && amount > 0 && Listed(db.grants, a, ids) && k <= |ids|
      && |read| == |ids| && Sum(read) >= amount
      && Fit(db.grants, LiveRows(db.grants, ids[..k]))
      && drawn == Drain(db.grants, LiveRows(db.grants, ids[..k]), amount)
  }

  ghost predicate SessionOk(db: Db, ses: Session) {
    match ses
    case TransferCall(s, d, amount, key, pc) => TransferOk(db, s, d, amount, key, pc)
    case WaterfallCall(a, amount, now, pc) => WaterfallOk(db, a, amount, now, pc)
    case DrawdownCall(a, amount, pc) => DrawdownOk(db, a, amount, pc)
    case ExpireCall(now, marked) =>
      forall g | g in marked :: g in db.grants && db.grants[g].status == Active && db.grants[g].expiresAt < now
    case Done(_) => true
  }

  // Nobody touches a locked row

  /** Rows under these locks read the same before and after. */
  ghost predicate Kept(db: Db, db': Db, locks: set<Lock>) {
    && (forall a | AccountLock(a) in locks && a in db.accounts ::
          a in db'.accounts && db'.accounts[a] == db.accounts[a])
    && (forall g | GrantLock(g) in locks && g in db.grants :: g in db'.grants && db'.grants[g] == db.grants[g])
    && (forall k | KeyLock(k) in locks && k !in db.txns :: k !in db'.txns)
  }

  /** All changes lie under these locks. */
  ghost predicate Confined(db: Db, db': Db, locks: set<Lock>) {
    && (forall a | a in db.accounts && AccountLock(a) !in locks ::
          a in db'.accounts && db'.accounts[a] == db.accounts[a])
    && (forall g | g in db.grants && GrantLock(g) !in locks :: g in db'.grants && db'.grants[g] == db.grants[g])
    && (forall k | k !in db.txns && KeyLock(k) !in locks :: k !in db'.txns)
  }

  lemma GrantsKept(db: Db, db': Db, ids: seq<GrantId>)
    requires forall i | 0 <= i < |ids| :: ids[i] in db.grants
    requires Kept(db, db', GrantLocks(ids))
    ensures forall i | 0 <= i < |ids| :: ids[i] in db'.grants && db'.grants[ids[i]] == db.grants[ids[i]]
    ensures LiveRows(db'.grants, ids) == LiveRows(db.grants, ids)
  {
    forall i | 0 <= i < |ids| ensures ids[i] in db'.grants && db'.grants[ids[i]] == db.grants[ids[i]] {
      assert GrantLock(ids[i]) in GrantLocks(ids);
    }
    LiveRowsFrame(db.grants, db'.grants, ids);
  }

  lemma RowsKept(db: Db, db': Db, ids: seq<GrantId>, amount: nat)
    requires forall i | 0 <= i < |ids| :: ids[i] in db.grants
    requires forall i, j | 0 <= i < j < |ids| :: ids[i] != ids[j]
    requires GrantsLive(db.grants) && Kept(db, db', GrantLocks(ids))
    ensures forall i | 0 <= i < |ids| :: ids[i] in db'.grants
    ensures LiveRows(db'.grants, ids) == LiveRows(db.grants, ids)
    ensures Fit(db.grants, LiveRows(db.grants, ids)) && Fit(db'.grants, LiveRows(db.grants, ids))
    ensures Drain(db'.grants, LiveRows(db.grants, ids), amount) == Drain(db.grants, LiveRows(db.grants, ids), amount)
  {
    GrantsKept(db, db', ids);
    LiveRowsFit(db.grants, ids);
    var rows := LiveRows(db.grants, ids);
    forall i | 0 <= i < |rows| ensures rows[i].id in db'.grants && db'.grants[rows[i].id] == db.grants[rows[i].id] {
      assert rows[i] in rows;
    }
    DrainFrame(db.grants, db'.grants, rows, amount);
  }

  lemma ListKept(db: Db, db': Db, a: AccId, now: int, ids: seq<GrantId>, seen: set<GrantId>)
    requires ListOk(db, a, now, ids, seen) && Grows(db, db')
    ensures ListOk(db', a, now, ids, seen)
  {
    ListedStill(db, db', a, ids);
    forall g | g in seen ensures g in db'.grants && (Eligible(db'.grants[g], a, now) ==> g in ids) {
      assert GrantAges(db.grants[g], db'.grants[g]);
    }
  }

  lemma TransferKept(db: Db, db': Db, ses: Session)
    requires ses.TransferCall? && SessionOk(db, ses) && Kept(db, db', Locks(ses)) && Grows(db, db')
    ensures SessionOk(db', ses)
  {
  }

  lemma WaterfallKept(db: Db, db': Db, ses: Session)
    requires ses.WaterfallCall? && SessionOk(db, ses) && Kept(db, db', Locks(ses)) && Grows(db, db')
    requires GrantsLive(db.grants)
    ensures SessionOk(db', ses)
  {
    hide LiveRows, Drain, Sum, Fit, Amounts;
    match ses.wpc
    case WStart =>
    case WSelect(cash) => assert AccountLock(ses.account) in Locks(ses);
    case WLock(cash, ids, seen, k, got) =>
      assert AccountLock(ses.account) in Locks(ses);
      ListKept(db, db', ses.account, ses.now, ids, seen);
      RowsKept(db, db', ids[..k], ses.amount);
    case WCommit(cash, ids, seen, got, drawn) =>
      assert AccountLock(ses.account) in Locks(ses);
      ListKept(db, db', ses.account, ses.now, ids, seen);
      RowsKept(db, db', ids, ses.amount);
  }

  lemma DrawdownKept(db: Db, db': Db, ses: Session)
    requires ses.DrawdownCall? && SessionOk(db, ses) && Kept(db, db', Locks(ses)) && Grows(db, db')
    requires GrantsLive(db.grants)
    ensures SessionOk(db', ses)
  {
    hide LiveRows, Drain, Sum, Fit, Amounts;
    match ses.dpc
    case DStart =>
    case DLock(ids, read, k, drawn) =>
      RowsKept(db, db', ids[..k], ses.amount);
      ListedStill(db, db', ses.account, ids);
  }

  lemma ListedStill(db: Db, db': Db, a: AccId, ids: seq<GrantId>)
    requires Listed(db.grants, a, ids) && Grows(db, db')
    ensures Listed(db'.grants, a, ids)
  {
    forall i | 0 <= i < |ids| ensures ids[i] in db'.grants && GrantAges(db.grants[ids[i]], db'.grants[ids[i]]) {
      assert ids[i] in db.grants;
    }
  }

  /** What a session relies on survives the commits of the others. */
  lemma SessionKept(db: Db, db': Db, ses: Session)
    requires SessionOk(db, ses) && Kept(db, db', Locks(ses)) && Grows(db, db') && GrantsLive(db.grants)
    ensures SessionOk(db', ses)
  {
    match ses
    case TransferCall(_, _, _, _, _) => TransferKept(db, db', ses);
    case WaterfallCall(_, _, _, _) => WaterfallKept(db, db', ses);
    case DrawdownCall(_, _, _) => DrawdownKept(db, db', ses);
    case ExpireCall(now, marked) =>
      assert forall g | g in marked :: GrantLock(g) in Locks(ses);
    case Done(_) =>
  }

  // One step of one session

  /** A step that does not commit: the session's own facts hold again, and it took
      at most a lock that nobody held. */
  ghost predicate StepsWell(db: Db, held: set<Lock>, ses: Session, next: Session) {
    && SessionOk(db, next)
    && (forall l | l in Locks(next) :: l in Locks(ses) || l !in held)
  }

  lemma FirstWriteStepsWell(db: Db, held: set<Lock>, ses: Session)
    requires ses.TransferCall? && ses.tpc.TFirst? && SessionOk(db, ses)
    ensures TransferStep(db, held, ses).Go? ==> StepsWell(db, held, ses, TransferStep(db, held, ses).next)
  {
  }

  lemma SecondWriteStepsWell(db: Db, held: set<Lock>, ses: Session)
    requires ses.TransferCall? && ses.tpc.TSecond? && SessionOk(db, ses)
    ensures TransferStep(db, held, ses).Go? ==> StepsWell(db, held, ses, TransferStep(db, held, ses).next)
  {
  }

  lemma TransferStepsWell(db: Db, held: set<Lock>, ses: Session)
    requires ses.TransferCall? && SessionOk(db, ses)
    ensures TransferStep(db, held, ses).Go? ==> StepsWell(db, held, ses, TransferStep(db, held, ses).next)
  {
    hide TransferStep, TransferOk, StepsWell;
    match ses.tpc
    case TFirst(_) => FirstWriteStepsWell(db, held, ses);
    case TSecond(_, _) => SecondWriteStepsWell(db, held, ses);
    case _ => ReadStepsWell(db, held, ses);
  }

  lemma ReadStepsWell(db: Db, held: set<Lock>, ses: Session)
    requires ses.TransferCall? && !ses.tpc.TFirst? && !ses.tpc.TSecond? && SessionOk(db, ses)
    ensures TransferStep(db, held, ses).Go? ==> StepsWell(db, held, ses, TransferStep(db, held, ses).next)
  {
  }

  lemma LiveRowsSnoc(grants: map<GrantId, Grant>, ids: seq<GrantId>, k: nat)
    requires k < |ids| && forall i | 0 <= i < |ids| :: ids[i] in grants
    ensures LiveRows(grants, ids[..k + 1])
         == LiveRows(grants, ids[..k])
            + if grants[ids[k]].status == Active then [Row(ids[k], grants[ids[k]].remaining)] else []
  {
    assert ids[..k + 1][..k] == ids[..k];
  }

  lemma NewGrantLock(ids: seq<GrantId>, k: nat)
    requires k < |ids|
    ensures GrantLocks(ids[..k + 1]) == GrantLocks(ids[..k]) + {GrantLock(ids[k])}
  {
    forall l | l in GrantLocks(ids[..k]) ensures l in GrantLocks(ids[..k + 1]) {
      var i :| 0 <= i < k && l == GrantLock(ids[..k][i]);
      assert l == GrantLock(ids[..k + 1][i]);
    }
    assert GrantLock(ids[..k + 1][k]) in GrantLocks(ids[..k + 1]);
  }

  lemma WaterfallSelectsWell(db: Db, held: set<Lock>, ses: Session, pick: seq<GrantId>)
    requires ses.WaterfallCall? && ses.wpc.WSelect? && SessionOk(db, ses) && ValidPick(db, ses, pick)
    ensures StepsWell(db, held, ses, WaterfallStep(db, held, ses, pick).next)
  {
    hide Fit, Sum, Amounts, Drain;
    assert pick[..0] == [];
  }

  lemma WaterfallLocksWell(db: Db, held: set<Lock>, ses: Session)
    requires ses.WaterfallCall? && ses.wpc.WLock? && SessionOk(db, ses) && GrantsLive(db.grants)
    requires ses.wpc.k < |ses.wpc.ids|
    ensures WaterfallStep(db, held, ses, []).Go? ==> StepsWell(db, held, ses, WaterfallStep(db, held, ses, []).next)
  {
    hide LiveRows, Fit, Sum, Amounts, Drain;
    LiveRowsSnoc(db.grants, ses.wpc.ids, ses.wpc.k);
    NewGrantLock(ses.wpc.ids, ses.wpc.k);
  }

  lemma WaterfallDecidesWell(db: Db, held: set<Lock>, ses: Session)
    requires ses.WaterfallCall? && ses.wpc.WLock? && SessionOk(db, ses) && GrantsLive(db.grants)
    requires ses.wpc.k == |ses.wpc.ids|
    ensures StepsWell(db, held, ses, WaterfallStep(db, held, ses, []).next)
  {
    hide LiveRows, Sum, Amounts, Drain;
    assert ses.wpc.ids[..ses.wpc.k] == ses.wpc.ids;
    LiveRowsFit(db.grants, ses.wpc.ids);
  }

  lemma WaterfallStepsWell(db: Db, held: set<Lock>, ses: Session, pick: seq<GrantId>)
    requires ses.WaterfallCall? && SessionOk(db, ses) && ValidPick(db, ses, pick) && GrantsLive(db.grants)
    ensures WaterfallStep(db, held, ses, pick).Go? ==> StepsWell(db, held, ses, WaterfallStep(db, held, ses, pick).next)
  {
    hide LiveRows, Sum, Amounts, Drain, Fit, ListOk, Listed;
    match ses.wpc
    case WStart =>
    case WSelect(cash) => WaterfallSelectsWell(db, held, ses, pick);
    case WLock(cash, ids, seen, k, got) =>
      if k < |ids| {
        WaterfallLocksWell(db, held, ses);
      } else {
        WaterfallDecidesWell(db, held, ses);
      }
    case WCommit(_, _, _, _, _) =>
  }

  /** The facts about a draw after one more grant of the list was locked. */
  lemma DrawTurn(db: Db, ids: seq<GrantId>, k: nat, amount: nat)
    requires GrantsLive(db.grants) && k < |ids|
    requires forall i | 0 <= i < |ids| :: ids[i] in db.grants
    requires forall i, j | 0 <= i < j < |ids| :: ids[i] != ids[j]
    ensures
      var rows, rows' := LiveRows(db.grants, ids[..k]), LiveRows(db.grants, ids[..k + 1]);
      var row := db.grants[ids[k]];
      && Fit(db.grants, rows) && Fit(db.grants, rows')
      && (if row.status == Active then
            rows' == rows + [Row(ids[k], row.remaining)]
            && Drain(db.grants, rows', amount)
               == TakeRow(db.grants, Drain(db.grants, rows, amount), Row(ids[k], row.remaining))
          else rows' == rows)
  {
    LiveRowsSnoc(db.grants, ids, k);
    LiveRowsFit(db.grants, ids[..k]);
    LiveRowsFit(db.grants, ids[..k + 1]);
    hide LiveRows;
    DrainTurn(db.grants, LiveRows(db.grants, ids[..k]), ids[k], amount);
  }

  lemma DrawdownLocksWell(db: Db, held: set<Lock>, ses: Session)
    requires ses.DrawdownCall? && ses.dpc.DLock? && SessionOk(db, ses) && GrantsLive(db.grants)
    ensures DrawdownStep(db, held, ses, []).Go? ==> StepsWell(db, held, ses, DrawdownStep(db, held, ses, []).next)
  {
    hide LiveRows, Drain, TakeRow, Sum;
    var DLock(ids, read, k, drawn) := ses.dpc;
    if k < |ids| && drawn.left > 0 {
      NewGrantLock(ids, k);
      DrawTurn(db, ids, k, ses.amount);
    }
  }

  lemma DrawdownStepsWell(db: Db, held: set<Lock>, ses: Session, pick: seq<GrantId>)
    requires ses.DrawdownCall? && SessionOk(db, ses) && ValidPick(db, ses, pick) && GrantsLive(db.grants)
    ensures DrawdownStep(db, held, ses, pick).Go? ==> StepsWell(db, held, ses, DrawdownStep(db, held, ses, pick).next)
  {
    match ses.dpc
    case DStart => assert pick[..0] == [];
    case DLock(ids, read, k, drawn) => DrawdownLocksWell(db, held, ses);
  }

  lemma DrainTurn(grants: map<GrantId, Grant>, rows: seq<Row>, g: GrantId, amount: nat)
    requires g in grants &&
      forall i | 0 <= i < |rows| :: rows[i].id in grants && rows[i].amount <= grants[rows[i].id].remaining
    ensures Drain(grants, rows + [Row(g, grants[g].remaining)], amount)
         == TakeRow(grants, Drain(grants, rows, amount), Row(g, grants[g].remaining))
  {
    assert (rows + [Row(g, grants[g].remaining)])[..|rows|] == rows;
  }

  lemma GoStepsWell(db: Db, held: set<Lock>, ses: Session, pick: seq<GrantId>)
    requires SessionOk(db, ses) && ValidPick(db, ses, pick) && GrantsLive(db.grants)
    ensures Advance(db, held, ses, pick).Go? ==> StepsWell(db, held, ses, Advance(db, held, ses, pick).next)
  {
    match ses
    case TransferCall(_, _, _, _, _) => TransferStepsWell(db, held, ses);
    case WaterfallCall(_, _, _, _) => WaterfallStepsWell(db, held, ses, pick);
    case DrawdownCall(_, _, _) => DrawdownStepsWell(db, held, ses, pick);
    case ExpireCall(_, _) =>
    case Done(_) =>
  }

  // Commits are serial operations

  /** Committing the private writes does what the operation does alone, right now,
      and changes nothing outside the session's locks. */
  ghost predicate CommitsAs(db: Db, ses: Session, w: Writes, op: Op) {
    && GrantsLive(db.grants) && Enabled(db, op)
    && Merge(db, w) == Apply(db, op)
    && Confined(db, Merge(db, w), Locks(ses))
  }

  lemma TransferMerges(db: Db, s: AccId, d: AccId, amount: nat, key: Key, currency: string, written: map<AccId, int>)
    requires ReadyToWrite(db, s, d, amount, currency) && BothWritten(db, s, d, amount, written)
    requires key !in db.txns && GrantsLive(db.grants)
    ensures
      var w := Writes(
        written,
        [Entry(s, Debit, amount, written[s], Some(key)),
         Entry(d, Credit, amount, db.accounts[d].balance + amount, Some(key))],
        map[key := Txn(Some(s), d, amount, currency)], map[], []);
      && Enabled(db, Op.Transfer(s, d, amount, key))
      && Merge(db, w) == Apply(db, Op.Transfer(s, d, amount, key))
      && Confined(db, Merge(db, w), {AccountLock(s), AccountLock(d), KeyLock(key)})
  {
    var t := Txn(Some(s), d, amount, currency);
    var db1 := db.(txns := db.txns[key := t]);
    var db2 := Post(db1, s, Debit, amount, Some(key));
    var db3 := Post(db2, d, Credit, amount, Some(key));
    assert Apply(db, Op.Transfer(s, d, amount, key)) == db3;
    assert db.txns + map[key := t] == db.txns[key := t];
    assert db.grants + map[] == db.grants && db.grantEntries + [] == db.grantEntries;
  }

  lemma TransferCommits(db: Db, held: set<Lock>, ses: Session)
    requires ses.TransferCall? && SessionOk(db, ses) && GrantsLive(db.grants)
    requires TransferStep(db, held, ses).Commit?
    ensures CommitsAs(db, ses, TransferStep(db, held, ses).writes, TransferStep(db, held, ses).op)
  {
    hide Merge, Apply, Enabled, Confined;
    assert ses.tpc.TCommit?;
    TransferMerges(db, ses.source, ses.dest, ses.amount, ses.key, ses.tpc.currency, ses.tpc.written);
  }

  lemma DrawnConfined(grants: map<GrantId, Grant>, ids: seq<GrantId>, amount: nat)
    requires forall i | 0 <= i < |ids| :: ids[i] in grants
    requires forall i, j | 0 <= i < j < |ids| :: ids[i] != ids[j]
    requires GrantsLive(grants)
    ensures Fit(grants, LiveRows(grants, ids))
    ensures forall g | g in Drain(grants, LiveRows(grants, ids), amount).rows :: GrantLock(g) in GrantLocks(ids)
  {
    LiveRowsFit(grants, ids);
    var rows := LiveRows(grants, ids);
    DrainIsWaterfall(grants, rows, amount);
    forall g | g in Drain(grants, rows, amount).rows ensures GrantLock(g) in GrantLocks(ids) {
      var i :| 0 <= i < |rows| && rows[i].id == g;
      assert rows[i] in rows;
      var k :| 0 <= k < |ids| && ids[k] == g;
    }
  }

  lemma DrawListConfined(db: Db, ids: seq<GrantId>, amount: nat)
    requires forall i | 0 <= i < |ids| :: ids[i] in db.grants
    requires forall i, j | 0 <= i < j < |ids| :: ids[i] != ids[j]
    requires GrantsLive(db.grants)
    ensures forall g | g in DrawList(db, ids, amount).rows :: GrantLock(g) in GrantLocks(ids)
  {
    hide LiveRows, Drain, Sum;
    DrawnConfined(db.grants, ids, amount);
  }

  lemma WaterfallMerges(db: Db, a: AccId, amount: nat, now: int, ids: seq<GrantId>, seen: set<GrantId>)
    requires GrantsLive(db.grants) && Enabled(db, Op.WaterfallDebit(a, amount, now, ids, seen))
    ensures
      var d := DrawList(db, ids, amount);
      var cash := db.accounts[a].balance;
      var w := Writes(if d.left > 0 then map[a := cash - d.left] else map[],
                      if d.left > 0 then [Entry(a, Debit, d.left, cash - d.left, None)] else [],
                      map[], d.rows, d.entries);
      && Merge(db, w) == Apply(db, Op.WaterfallDebit(a, amount, now, ids, seen))
      && Confined(db, Merge(db, w), {AccountLock(a)} + GrantLocks(ids))
  {
    hide DrawList, LiveRows, Drain, Sum, Amounts, Complete, Fit;
    var d := DrawList(db, ids, amount);
    DrawListConfined(db, ids, amount);
    var db1 := WithDrawn(db, d);
    assert Apply(db, Op.WaterfallDebit(a, amount, now, ids, seen))
        == if d.left == 0 then db1 else Post(db1, a, Debit, d.left, None);
    assert db.txns + map[] == db.txns && db.entries + [] == db.entries;
  }

  lemma WaterfallCommits(db: Db, held: set<Lock>, ses: Session)
    requires ses.WaterfallCall? && SessionOk(db, ses) && GrantsLive(db.grants)
    requires WaterfallStep(db, held, ses, []).Commit?
    ensures CommitsAs(db, ses, WaterfallStep(db, held, ses, []).writes, WaterfallStep(db, held, ses, []).op)
  {
    hide Merge, Apply, LiveRows, Drain, Sum, Amounts, Confined, Fit;
    assert ses.wpc.WCommit?;
    var ids, seen := ses.wpc.ids, ses.wpc.seen;
    assert Enabled(db, Op.WaterfallDebit(ses.account, ses.amount, ses.now, ids, seen));
    assert DrawList(db, ids, ses.amount) == ses.wpc.drawn;
    WaterfallMerges(db, ses.account, ses.amount, ses.now, ids, seen);
  }

  lemma DrawdownMerges(db: Db, a: AccId, amount: nat, ids: seq<GrantId>)
    requires GrantsLive(db.grants) && Enabled(db, Op.Drawdown(a, amount, ids))
    ensures
      var d := DrawList(db, ids, amount);
      var w := Writes(map[], [], map[], d.rows, d.entries);
      && Merge(db, w) == Apply(db, Op.Drawdown(a, amount, ids))
      && Confined(db, Merge(db, w), GrantLocks(ids))
  {
    hide DrawList, LiveRows, Drain;
    var d := DrawList(db, ids, amount);
    DrawListConfined(db, ids, amount);
    assert db.txns + map[] == db.txns && db.entries + [] == db.entries;
  }

  lemma DrawdownCommits(db: Db, held: set<Lock>, ses: Session, pick: seq<GrantId>)
    requires ses.DrawdownCall? && SessionOk(db, ses) && ValidPick(db, ses, pick) && GrantsLive(db.grants)
    requires DrawdownStep(db, held, ses, pick).Commit?
    ensures CommitsAs(db, ses, DrawdownStep(db, held, ses, pick).writes, DrawdownStep(db, held, ses, pick).op)
  {
    hide Merge, Apply, LiveRows, Drain, Sum, Amounts, Confined, Fit;
    var ids := ses.dpc.ids[..ses.dpc.k];
    assert DrawList(db, ids, ses.amount) == ses.dpc.drawn;
    DrawdownMerges(db, ses.account, ses.amount, ids);
  }

  lemma ExpireCommits(db: Db, held: set<Lock>, ses: Session, pick: seq<GrantId>)
    requires ses.ExpireCall? && SessionOk(db, ses) && ValidPick(db, ses, pick) && GrantsLive(db.grants)
    requires ExpireStep(db, held, ses, pick).Commit?
    ensures CommitsAs(db, ses, ExpireStep(db, held, ses, pick).writes, ExpireStep(db, held, ses, pick).op)
  {
    var r := ExpireStep(db, held, ses, pick);
    var after, alone := Merge(db, r.writes), Apply(db, r.op);
    assert after.accounts == alone.accounts;
    assert after.grants == alone.grants;
    assert after.entries == alone.entries && after.grantEntries == alone.grantEntries;
    assert after.txns == alone.txns;
  }

  lemma CommitIsSerial(db: Db, held: set<Lock>, ses: Session, pick: seq<GrantId>)
    requires SessionOk(db, ses) && ValidPick(db, ses, pick) && GrantsLive(db.grants)
    requires Advance(db, held, ses, pick).Commit?
    ensures CommitsAs(db, ses, Advance(db, held, ses, pick).writes, Advance(db, held, ses, pick).op)
  {
    match ses
    case TransferCall(_, _, _, _, _) => TransferCommits(db, held, ses);
    case WaterfallCall(_, _, _, pc) => WaterfallCommits(db, held, ses);
    case DrawdownCall(_, _, _) => DrawdownCommits(db, held, ses, pick);
    case ExpireCall(_, _) => ExpireCommits(db, held, ses, pick);
    case Done(_) =>
  }

  // All sessions together

  ghost predicate Exclusive(s: State) {
    forall p, q | p in s.sessions && q in s.sessions && p != q :: Locks(s.sessions[p]) !! Locks(s.sessions[q])
  }

  /** Between any two steps: the tables are those of the log, no row has two
      holders, and every session's private knowledge is still true. */
  ghost predicate Inv(s: State) {
    && Reachable(s.log, s.db)
    && (forall p | p in s.sessions :: SessionOk(s.db, s.sessions[p]))
    && Exclusive(s)
  }

  lemma LocksInOthers(s: State, p: Pid, q: Pid)
    requires q in s.sessions && q != p
    ensures Locks(s.sessions[q]) <= OthersLocks(s, p)
  {
  }

  lemma ConfinedKeeps(db: Db, db': Db, locks: set<Lock>, others: set<Lock>)
    requires Confined(db, db', locks) && locks !! others
    ensures Kept(db, db', others)
  {
  }

  lemma GoKeepsInv(s: State, p: Pid, next: Session)
    requires Inv(s) && p in s.sessions && StepsWell(s.db, OthersLocks(s, p), s.sessions[p], next)
    ensures Inv(s.(sessions := s.sessions[p := next]))
  {
    forall q | q in s.sessions && q != p ensures Locks(next) !! Locks(s.sessions[q]) {
      LocksInOthers(s, p, q);
    }
  }

  lemma CommitKeepsInv(s: State, p: Pid, w: Writes, op: Op)
    requires Inv(s) && p in s.sessions && CommitsAs(s.db, s.sessions[p], w, op)
    ensures Inv(State(Merge(s.db, w), s.sessions[p := Done(Completed)], s.log + [op]))
  {
    hide Merge, Apply, SessionOk, Grows, Locks;
    var db' := Merge(s.db, w);
    ReplaySnoc(s.log, s.db, op);
    ApplyGrows(s.db, op);
    forall q | q in s.sessions && q != p ensures SessionOk(db', s.sessions[q]) {
      ConfinedKeeps(s.db, db', Locks(s.sessions[p]), Locks(s.sessions[q]));
      SessionKept(s.db, db', s.sessions[q]);
    }
    DoneHoldsNothing(db', Completed);
  }

  lemma DoneHoldsNothing(db: Db, outcome: Outcome)
    ensures SessionOk(db, Done(outcome)) && Locks(Done(outcome)) == {}
  {
  }

  lemma AutoConfined(db: Db, op: Op)
    requires SingleStatement(op) && GrantsLive(db.grants) && Enabled(db, op)
    ensures Confined(db, Apply(db, op), AutoLocks(op))
  {
  }

  lemma AutoKeepsInv(s: State, op: Op)
    requires Inv(s) && CanStep(s, Auto(op))
    ensures Inv(Step(s, Auto(op)))
  {
    hide Apply, SessionOk, Grows, Locks, Enabled;
    var db' := Apply(s.db, op);
    ReplaySnoc(s.log, s.db, op);
    ApplyGrows(s.db, op);
    AutoConfined(s.db, op);
    forall q | q in s.sessions ensures SessionOk(db', s.sessions[q]) {
      assert Locks(s.sessions[q]) <= AllLocks(s);
      ConfinedKeeps(s.db, db', AutoLocks(op), Locks(s.sessions[q]));
      SessionKept(s.db, db', s.sessions[q]);
    }
  }

  lemma BeginKeepsInv(s: State, p: Pid, call: Session)
    requires Inv(s) && CanStep(s, Begin(p, call))
    ensures Inv(Step(s, Begin(p, call)))
  {
  }

  /** Every step of the system keeps the invariant, whoever takes it. */
  lemma StepKeepsInv(s: State, act: Action)
    requires Inv(s) && CanStep(s, act)
    ensures Inv(Step(s, act))
  {
    ReachableIsAudited(s.log, s.db);
    hide SessionOk, Locks, Advance, Exclusive;
    match act
    case Begin(p, call) => BeginKeepsInv(s, p, call);
    case Run(p, pick) =>
      var ses := s.sessions[p];
      GoStepsWell(s.db, OthersLocks(s, p), ses, pick);
      match Advance(s.db, OthersLocks(s, p), ses, pick) {
        case Go(next) => GoKeepsInv(s, p, next);
        case Commit(w, op) =>
          CommitIsSerial(s.db, OthersLocks(s, p), ses, pick);
          CommitKeepsInv(s, p, w, op);
        case Wait(_) =>
      }
    case Abort(p) =>
      DoneHoldsNothing(s.db, Failed(RolledBack));
      GoKeepsInv(s, p, Done(Failed(RolledBack)));
    case Auto(op) => AutoKeepsInv(s, op);
  }

  // Whole runs

  ghost predicate Execution(states: seq<State>, acts: seq<Action>) {
    && |states| == |acts| + 1 && states[0] == INIT
    && forall i | 0 <= i < |acts| :: CanStep(states[i], acts[i]) && states[i + 1] == Step(states[i], acts[i])
  }

  lemma {:induction false} ExecutionInv(states: seq<State>, acts: seq<Action>, n: nat)
    requires Execution(states, acts) && n < |states|
    ensures Inv(states[n])
  {
    if n > 0 {
      ExecutionInv(states, acts, n - 1);
      StepKeepsInv(states[n - 1], acts[n - 1]);
    }
  }

  /** Serializability: at every moment of every interleaving, the committed tables
      are the result of running the committed operations alone, in commit order;
      so every balance reconciles and every grant is accounted for. */
  lemma Serializable(states: seq<State>, acts: seq<Action>, n: nat)
    requires Execution(states, acts) && n < |states|
    ensures
      var s := states[n];
      && Reachable(s.log, s.db)
      && CashAudit(s.db) && Discrepancies(s.db) == {} && GrantAudit(s.db)
  {
    ExecutionInv(states, acts, n);
    ReachableIsAudited(states[n].log, states[n].db);
    Reconciles(states[n].log, states[n].db);
  }
}
