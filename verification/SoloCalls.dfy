/** What becomes of a call that has the tables to itself: it always comes to an end, and
    the tables at its start decide which. And what a refusal means in any interleaving. */
module SoloCalls {
  import opened WaterfallSpec
  import opened Totals
  import opened Database
  import opened Serial
  import opened Effects
  import opened History
  import opened Sessions
  import opened SessionSafety
  import opened Paths
  import opened LockOrder
  import opened Deadlock
  import opened DrawGuarantees
  import opened PostgresTables
  import opened GrantBalances
  import opened DrawDeadlock
  import opened DrawDemand

  // Runs of one call

  predicate Own(acts: seq<Action>, p: Pid) {
    forall i | 0 <= i < |acts| :: acts[i].Run? && acts[i].p == p
  }

  ghost predicate Alone(t: State, p: Pid) {
    Inv(t) && p in t.sessions && forall q | q in t.sessions && q != p :: t.sessions[q].Done?
  }

  ghost predicate Ends(s: State, acts: seq<Action>, p: Pid, t: State) {
    Own(acts, p) && Leads(s, acts, t) && p in t.sessions && t.sessions[p].Done?
  }

  function Called(s: State, p: Pid, call: Session): State {
    s.(sessions := s.sessions[p := call])
  }

  lemma NothingHeld(t: State, p: Pid)
    requires Alone(t, p)
    ensures OthersLocks(t, p) == {}
  {
    hide Inv;
    forall q | q in t.sessions && q != p ensures Locks(t.sessions[q]) == {} {
    }
  }

  lemma NeverWaits(db: Db, ses: Session, pick: seq<GrantId>)
    requires ValidPick(db, ses, pick)
    ensures !Advance(db, {}, ses, pick).Wait?
  {
    hide Sum, Amounts, Drain, TakeRow, Remainings;
  }

  lemma CanRunAlone(t: State, p: Pid) returns (pick: seq<GrantId>)
    requires Alone(t, p) && !t.sessions[p].Done?
    ensures CanStep(t, Run(p, pick))
  {
    hide Inv, Advance;
    NothingHeld(t, p);
    pick := PickExists(t.db, (g: GrantId) => g as int, t.sessions[p]);
    NeverWaits(t.db, t.sessions[p], pick);
  }

  lemma StaysAlone(t: State, p: Pid, pick: seq<GrantId>)
    requires Alone(t, p) && CanStep(t, Run(p, pick))
    ensures Alone(Step(t, Run(p, pick)), p)
  {
    StepKeepsInv(t, Run(p, pick));
    hide Inv, Advance, Merge;
  }

  /** A call alone comes to its end. */
  lemma {:induction false} ComesToEnd(t: State, p: Pid) returns (acts: seq<Action>, u: State)
    requires Alone(t, p)
    ensures Own(acts, p) && Leads(t, acts, u) && Alone(u, p) && u.sessions[p].Done?
    decreases Total(WorkLeft(t))
  {
    hide Inv, CanStep, Step, WorkLeft, Leads;
    if t.sessions[p].Done? {
      LeadsNowhere(t);
      acts, u := [], t;
    } else {
      var pick := CanRunAlone(t, p);
      var t' := Step(t, Run(p, pick));
      StaysAlone(t, p, pick);
      WorkShrinks(t, Run(p, pick));
      var rest;
      rest, u := ComesToEnd(t', p);
      LeadsFrom(t, Run(p, pick), t', rest, u);
      acts := [Run(p, pick)] + rest;
    }
  }

  lemma StartsAlone(s: State, p: Pid, call: Session)
    requires Quiet(s) && Sessions.Fresh(call)
    ensures Alone(Called(s, p, call), p) && GrantsLive(s.db.grants)
  {
    ReachableIsAudited(s.log, s.db);
    var t := Called(s, p, call);
    forall q | q in t.sessions ensures SessionOk(t.db, t.sessions[q]) && Locks(t.sessions[q]) == {} {
      assert t.sessions[q] == if q == p then call else s.sessions[q];
    }
  }

  /** One step of a call alone: the next stage, its end, or its operation done. */
  lemma OneTurn(t: State, p: Pid, pick: seq<GrantId>)
    requires Alone(t, p) && CanStep(t, Run(p, pick))
    ensures !t.sessions[p].Done? && ValidPick(t.db, t.sessions[p], pick)
    ensures SessionOk(t.db, t.sessions[p]) && GrantsLive(t.db.grants)
    ensures Alone(Step(t, Run(p, pick)), p)
    ensures
      var r, t' := Advance(t.db, {}, t.sessions[p], pick), Step(t, Run(p, pick));
      match r
      case Go(next) => t'.db == t.db && t'.sessions[p] == next
      case Commit(_, op) =>
        Enabled(t.db, op) && t'.db == Apply(t.db, op) && t'.sessions[p] == Done(Completed)
      case Wait(_) => false
  {
    NothingHeld(t, p);
    StaysAlone(t, p, pick);
    ReachableIsAudited(t.log, t.db);
    assert SessionOk(t.db, t.sessions[p]);
    hide Inv, Merge, Apply, SessionOk, Advance, ValidPick, Enabled;
    if Advance(t.db, {}, t.sessions[p], pick).Commit? {
      CommitIsSerial(t.db, {}, t.sessions[p], pick);
    }
  }

  // Transfer

  /** How a transfer ends, in the order of its tests. */
  function TransferFate(db: Db, s: AccId, d: AccId, amount: int, key: Key): Outcome {
    if amount <= 0 then Failed(InvalidAmount)
    else if s == d then Failed(SameAccount)
    else if key in db.txns then Existing(db.txns[key])
    else if s !in db.accounts || d !in db.accounts then Failed(AccountNotFound)
    else if db.accounts[s].currency != db.accounts[d].currency then Failed(CurrencyMismatch)
    else if db.accounts[s].balance < amount then Failed(InsufficientFunds)
    else Completed
  }

  lemma CompletesIfEnabled(db: Db, s: AccId, d: AccId, amount: int, key: Key)
    ensures TransferFate(db, s, d, amount, key) == Completed
       <==> amount > 0 && Enabled(db, Op.Transfer(s, d, amount, key))
  {
  }

  function TransferOp(call: Session): Op
    requires call.TransferCall? && call.amount > 0
  {
    Op.Transfer(call.source, call.dest, call.amount, call.key)
  }

  function FateOf(db: Db, call: Session): Outcome
    requires call.TransferCall?
  {
    TransferFate(db, call.source, call.dest, call.amount, call.key)
  }

  /** What a transfer that has come so far has found out. */
  predicate TransferPassed(db: Db, call: Session, pc: TransferPc)
    requires call.TransferCall?
  {
    match pc
    case TStart => true
    case TReadSource => call.amount > 0 && call.source != call.dest && call.key !in db.txns
    case TReadDest(found) =>
      && call.amount > 0 && call.source != call.dest && call.key !in db.txns
      && call.source in db.accounts && found == db.accounts[call.source]
    case _ => FateOf(db, call) == Completed
  }

  lemma TransferTurn(db: Db, call: Session)
    requires call.TransferCall? && SessionOk(db, call) && TransferPassed(db, call, call.tpc)
    requires Advance(db, {}, call, []).Go?
    ensures
      var next := Advance(db, {}, call, []).next;
      if next.TransferCall? then next == call.(tpc := next.tpc) && TransferPassed(db, call, next.tpc)
      else next == Done(FateOf(db, call)) && FateOf(db, call) != Completed
  {
  }

  lemma TransferLastTurn(db: Db, call: Session)
    requires call.TransferCall? && SessionOk(db, call) && TransferPassed(db, call, call.tpc)
    requires Advance(db, {}, call, []).Commit?
    ensures FateOf(db, call) == Completed && Advance(db, {}, call, []).op == TransferOp(call)
  {
  }

  /** Under way on unchanged tables, or ended as they decided. */
  ghost predicate TransferOnItsWay(t: State, p: Pid, start: State, call: Session)
    requires call.TransferCall? && GrantsLive(start.db.grants)
  {
    && Alone(t, p)
    && if t.sessions[p].TransferCall? then
         && t.db == start.db && t.sessions[p] == call.(tpc := t.sessions[p].tpc)
         && TransferPassed(start.db, call, t.sessions[p].tpc)
       else
         && t.sessions[p] == Done(FateOf(start.db, call))
         && t.db == if FateOf(start.db, call) == Completed then Apply(start.db, TransferOp(call)) else start.db
  }

  lemma TransferGoesOn(t: State, p: Pid, start: State, call: Session, pick: seq<GrantId>)
    requires call.TransferCall? && GrantsLive(start.db.grants)
    requires TransferOnItsWay(t, p, start, call) && CanStep(t, Run(p, pick))
    ensures TransferOnItsWay(Step(t, Run(p, pick)), p, start, call)
  {
    hide Inv, CanStep, Step, Apply, SessionOk, Advance, Merge;
    OneTurn(t, p, pick);
    var ses := t.sessions[p];
    assert pick == [] && ValidPick(t.db, ses, []);
    if Advance(t.db, {}, ses, []).Commit? {
      TransferLastTurn(t.db, ses);
    } else {
      TransferTurn(t.db, ses);
    }
  }

  lemma {:induction false} TransferEnds(t: State, acts: seq<Action>, u: State, p: Pid, start: State, call: Session)
    requires call.TransferCall? && GrantsLive(start.db.grants)
    requires TransferOnItsWay(t, p, start, call) && Own(acts, p) && Leads(t, acts, u)
    ensures TransferOnItsWay(u, p, start, call)
    decreases |acts|
  {
    hide TransferOnItsWay, CanStep, Step;
    if acts != [] {
      TransferGoesOn(t, p, start, call, acts[0].pick);
      TransferEnds(Step(t, acts[0]), acts[1..], u, p, start, call);
    }
  }

  /** A transfer that has the tables to itself completes exactly if the operation is
      enabled, and then does it. If not it changes nothing and ends as the first of its
      tests that fails says. */
  lemma TransferAlone(s: State, p: Pid, call: Session)
    requires Quiet(s) && call.TransferCall? && call.tpc.TStart?
    ensures GrantsLive(s.db.grants) && (exists acts, t :: Ends(Called(s, p, call), acts, p, t))
    ensures
      FateOf(s.db, call) == Completed
      <==> call.amount > 0 && Enabled(s.db, Op.Transfer(call.source, call.dest, call.amount, call.key))
    ensures forall acts, t | Ends(Called(s, p, call), acts, p, t) ::
      && t.sessions[p] == Done(FateOf(s.db, call))
      && t.db == if FateOf(s.db, call) == Completed then Apply(s.db, TransferOp(call)) else s.db
  {
    StartsAlone(s, p, call);
    CompletesIfEnabled(s.db, call.source, call.dest, call.amount, call.key);
    hide Quiet, Alone, Leads, Apply, FateOf, Own;
    var acts0, t0 := ComesToEnd(Called(s, p, call), p);
    assert Ends(Called(s, p, call), acts0, p, t0);
    forall acts, t | Ends(Called(s, p, call), acts, p, t)
      ensures TransferOnItsWay(t, p, s, call)
    {
      TransferEnds(Called(s, p, call), acts, t, p, s, call);
    }
  }

  // WaterfallDebit

  /** What grants of the account can be used now, and what they hold together. */
  function Usable(grants: map<GrantId, Grant>, a: AccId, now: int): map<int, int> {
    map g: GrantId | g in grants && grants[g].account == a && grants[g].status == Active && grants[g].expiresAt > now ::
      grants[g].remaining
  }

  ghost function DebitFate(db: Db, call: Session): Outcome
    requires call.WaterfallCall?
  {
    if call.amount <= 0 then Failed(InvalidAmount)
    else if call.account !in db.accounts then Failed(AccountNotFound)
    else if Total(Usable(db.grants, call.account, call.now)) + db.accounts[call.account].balance < call.amount then
      Failed(InsufficientFunds)
    else Completed
  }

  /** A list that the query may return on these tables. */
  ghost predicate UsableList(db: Db, call: Session, ids: seq<GrantId>)
    requires call.WaterfallCall?
  {
    ValidPick(db, call.(wpc := WSelect(0)), ids)
  }

  lemma UsableSum(db: Db, call: Session, ids: seq<GrantId>)
    requires call.WaterfallCall? && UsableList(db, call, ids) && GrantsLive(db.grants)
    ensures forall i | 0 <= i < |ids| :: ids[i] in db.grants
    ensures Sum(Amounts(LiveRows(db.grants, ids))) == Total(Usable(db.grants, call.account, call.now))
  {
    hide Sum, LiveRows, Amounts;
    AllLive(db.grants, ids);
    SumIsTotal(Usable(db.grants, call.account, call.now), ids, Remainings(db.grants, ids));
  }

  /** What a waterfall debit that has come so far has found out. */
  ghost predicate DebitPassed(db: Db, call: Session, pc: WaterfallPc)
    requires call.WaterfallCall?
  {
    match pc
    case WStart => true
    case WSelect(_) => call.amount > 0 && call.account in db.accounts
    case WLock(_, ids, seen, _, _) =>
      && call.amount > 0 && call.account in db.accounts && UsableList(db, call, ids) && seen == db.grants.Keys
    case WCommit(_, ids, seen, _, _) =>
      DebitFate(db, call) == Completed && UsableList(db, call, ids) && seen == db.grants.Keys
  }

  lemma DebitTurn(db: Db, ses: Session, pick: seq<GrantId>)
    requires ses.WaterfallCall? && SessionOk(db, ses) && GrantsLive(db.grants) && DebitPassed(db, ses, ses.wpc)
    requires ValidPick(db, ses, pick) && Advance(db, {}, ses, pick).Go?
    ensures
      var next := Advance(db, {}, ses, pick).next;
      if next.WaterfallCall? then next == ses.(wpc := next.wpc) && DebitPassed(db, ses, next.wpc)
      else next == Done(DebitFate(db, ses)) && DebitFate(db, ses) != Completed
  {
    hide Sum, Amounts, LiveRows, Drain, Total, Usable, Precedes, Fit;
    if ses.wpc.WLock? && ses.wpc.k == |ses.wpc.ids| {
      assert ses.wpc.ids[..ses.wpc.k] == ses.wpc.ids;
      UsableSum(db, ses, ses.wpc.ids);
      RowsAreCovered(db, ses.wpc.ids);
    }
  }

  lemma RowsAreCovered(db: Db, ids: seq<GrantId>)
    requires GrantsLive(db.grants) && (forall i | 0 <= i < |ids| :: ids[i] in db.grants)
    requires forall i, j | 0 <= i < j < |ids| :: ids[i] != ids[j]
    ensures RowsCovered(db.grants, LiveRows(db.grants, ids))
  {
    hide LiveRows;
    LiveRowsFit(db.grants, ids);
  }

  lemma DebitLastTurn(db: Db, ses: Session)
    requires ses.WaterfallCall? && SessionOk(db, ses) && DebitPassed(db, ses, ses.wpc)
    requires ValidPick(db, ses, []) && Advance(db, {}, ses, []).Commit?
    ensures
      && ses.wpc.WCommit? && DebitFate(db, ses) == Completed && ses.amount > 0 && UsableList(db, ses, ses.wpc.ids)
      && Advance(db, {}, ses, []).op
         == Op.WaterfallDebit(ses.account, ses.amount, ses.now, ses.wpc.ids, db.grants.Keys)
  {
    hide Sum, Amounts, LiveRows, Drain, Total, Usable, Listed, Fit;
  }

  function DebitOp(db: Db, call: Session, ids: seq<GrantId>): Op
    requires call.WaterfallCall? && call.amount > 0
  {
    Op.WaterfallDebit(call.account, call.amount, call.now, ids, db.grants.Keys)
  }

  ghost predicate DebitDone(db: Db, db': Db, call: Session)
    requires call.WaterfallCall? && GrantsLive(db.grants) && call.amount > 0
  {
    exists ids :: UsableList(db, call, ids) && Enabled(db, DebitOp(db, call, ids))
      && db' == Apply(db, DebitOp(db, call, ids))
  }

  ghost predicate DebitOnItsWay(t: State, p: Pid, start: State, call: Session)
    requires call.WaterfallCall? && GrantsLive(start.db.grants)
  {
    && Alone(t, p)
    && if t.sessions[p].WaterfallCall? then
         && t.db == start.db && t.sessions[p] == call.(wpc := t.sessions[p].wpc)
         && DebitPassed(start.db, call, t.sessions[p].wpc)
       else
         && t.sessions[p] == Done(DebitFate(start.db, call))
         && if DebitFate(start.db, call) == Completed then DebitDone(start.db, t.db, call) else t.db == start.db
  }

  lemma DebitGoesOn(t: State, p: Pid, start: State, call: Session, pick: seq<GrantId>)
    requires call.WaterfallCall? && GrantsLive(start.db.grants)
    requires DebitOnItsWay(t, p, start, call) && CanStep(t, Run(p, pick))
    ensures DebitOnItsWay(Step(t, Run(p, pick)), p, start, call)
  {
    hide Inv, CanStep, Step, Apply, SessionOk, Advance, Merge, Enabled, ValidPick;
    OneTurn(t, p, pick);
    var ses := t.sessions[p];
    if Advance(t.db, {}, ses, pick).Commit? {
      CommitsWithoutPick(t.db, ses, pick);
      DebitLastTurn(t.db, ses);
    } else {
      DebitTurn(t.db, ses, pick);
    }
  }

  lemma CommitsWithoutPick(db: Db, ses: Session, pick: seq<GrantId>)
    requires ValidPick(db, ses, pick) && Advance(db, {}, ses, pick).Commit? && (ses.WaterfallCall? || ses.DrawdownCall?)
    ensures pick == []
  {
    hide Sum, Amounts, LiveRows, Drain, TakeRow, Remainings;
  }

  lemma {:induction false} DebitEnds(t: State, acts: seq<Action>, u: State, p: Pid, start: State, call: Session)
    requires call.WaterfallCall? && GrantsLive(start.db.grants)
    requires DebitOnItsWay(t, p, start, call) && Own(acts, p) && Leads(t, acts, u)
    ensures DebitOnItsWay(u, p, start, call)
    decreases |acts|
  {
    hide DebitOnItsWay, CanStep, Step;
    if acts != [] {
      DebitGoesOn(t, p, start, call, acts[0].pick);
      DebitEnds(Step(t, acts[0]), acts[1..], u, p, start, call);
    }
  }

  /** A waterfall debit that has the tables to itself completes exactly if its amount is
      positive, its account exists, and the usable grants and the cash, with its sign,
      cover the amount; and then it is one WaterfallDebit over those grants. If not it
      changes nothing and names the first of these that fails. */
  lemma DebitAlone(s: State, p: Pid, call: Session)
    requires Quiet(s) && call.WaterfallCall? && call.wpc.WStart?
    ensures GrantsLive(s.db.grants) && (exists acts, t :: Ends(Called(s, p, call), acts, p, t))
    ensures forall acts, t | Ends(Called(s, p, call), acts, p, t) ::
      && t.sessions[p] == Done(DebitFate(s.db, call))
      && if DebitFate(s.db, call) == Completed then DebitDone(s.db, t.db, call) else t.db == s.db
  {
    StartsAlone(s, p, call);
    hide Quiet, Alone, Leads, DebitDone, Total, Own;
    var acts0, t0 := ComesToEnd(Called(s, p, call), p);
    assert Ends(Called(s, p, call), acts0, p, t0);
    forall acts, t | Ends(Called(s, p, call), acts, p, t)
      ensures DebitOnItsWay(t, p, s, call)
    {
      DebitEnds(Called(s, p, call), acts, t, p, s, call);
    }
  }

  // Drawdown

  ghost function DrawdownFate(db: Db, a: AccId, x: int): Outcome {
    if x <= 0 then Failed(InvalidAmount)
    else if GrantBalance(db.grants, a) < x then Failed(InsufficientGrants)
    else Completed
  }

  ghost predicate DrawdownOnItsWay(t: State, p: Pid, start: State, a: AccId, x: int) {
    && Alone(t, p)
    && if t.sessions[p].DrawdownCall? then
         && t.db == start.db && Asking(start.db, a, x, t.sessions[p])
         && (t.sessions[p].dpc.DLock? ==> DrawdownFate(start.db, a, x) == Completed)
       else
         && t.sessions[p] == Done(DrawdownFate(start.db, a, x))
         && if DrawdownFate(start.db, a, x) == Completed then
              GrantBalance(t.db.grants, a) == GrantBalance(start.db.grants, a) - x && t.db.accounts == start.db.accounts
            else t.db == start.db
  }

  lemma DrawdownTurn(db: Db, a: AccId, x: int, ses: Session, pick: seq<GrantId>)
    requires Asking(db, a, x, ses) && SessionOk(db, ses) && ValidPick(db, ses, pick)
    requires ses.dpc.DLock? ==> DrawdownFate(db, a, x) == Completed
    requires Advance(db, {}, ses, pick).Go?
    ensures
      var next := Advance(db, {}, ses, pick).next;
      if next.DrawdownCall? then Asking(db, a, x, next) && DrawdownFate(db, a, x) == Completed
      else next == Done(DrawdownFate(db, a, x)) && DrawdownFate(db, a, x) != Completed
  {
    hide GrantBalance, Sum, Drain, LiveRows, TakeRow, Remainings;
    if ses.dpc.DStart? {
      QuerySumIsBalance(db, a, x, pick);
    }
  }

  lemma DrawdownLastTurn(t: State, p: Pid, a: AccId, x: int)
    requires Alone(t, p) && Asking(t.db, a, x, t.sessions[p]) && t.sessions[p].dpc.DLock?
    requires DrawdownFate(t.db, a, x) == Completed && Completes(t, p)
    ensures
      var t' := Step(t, Run(p, []));
      GrantBalance(t'.db.grants, a) == GrantBalance(t.db.grants, a) - x && t'.db.accounts == t.db.accounts
  {
    hide Inv, CanStep, Step, GrantBalance, Merge;
    OpenMeansEmptied(t, p);
    TakenOnCompletion(t, p);
    DrawdownCommit(t, p);
  }

  lemma DrawdownGoesOn(t: State, p: Pid, start: State, a: AccId, x: int, pick: seq<GrantId>)
    requires DrawdownOnItsWay(t, p, start, a, x) && CanStep(t, Run(p, pick))
    ensures DrawdownOnItsWay(Step(t, Run(p, pick)), p, start, a, x)
  {
    hide Inv, CanStep, Step, Apply, SessionOk, Advance, Merge, Enabled, ValidPick, GrantBalance, Listed;
    OneTurn(t, p, pick);
    var ses := t.sessions[p];
    if Advance(t.db, {}, ses, pick).Commit? {
      CommitsWithoutPick(t.db, ses, pick);
      CommitsFromLock(t.db, ses);
      DrawdownLastTurn(t, p, a, x);
    } else {
      DrawdownTurn(t.db, a, x, ses, pick);
    }
  }

  lemma CommitsFromLock(db: Db, ses: Session)
    requires ses.DrawdownCall? && ValidPick(db, ses, []) && Advance(db, {}, ses, []).Commit?
    ensures ses.dpc.DLock?
  {
    hide Sum, TakeRow, Remainings;
  }

  lemma {:induction false} DrawdownEnds(
    t: State, acts: seq<Action>, u: State, p: Pid, start: State, a: AccId, x: int)
    requires DrawdownOnItsWay(t, p, start, a, x) && Own(acts, p) && Leads(t, acts, u)
    ensures DrawdownOnItsWay(u, p, start, a, x)
    decreases |acts|
  {
    hide DrawdownOnItsWay, CanStep, Step;
    if acts != [] {
      DrawdownGoesOn(t, p, start, a, x, acts[0].pick);
      DrawdownEnds(Step(t, acts[0]), acts[1..], u, p, start, a, x);
    }
  }

  /** A Drawdown that has the tables to itself completes exactly if its amount is positive
      and within the account's grants, and then takes exactly that from them. */
  lemma DrawdownAlone(s: State, p: Pid, a: AccId, x: int)
    requires Quiet(s)
    ensures exists acts, t :: Ends(Called(s, p, Ask(a, x)), acts, p, t)
    ensures forall acts, t | Ends(Called(s, p, Ask(a, x)), acts, p, t) ::
      && t.sessions[p] == Done(DrawdownFate(s.db, a, x))
      && if DrawdownFate(s.db, a, x) == Completed then
           GrantBalance(t.db.grants, a) == GrantBalance(s.db.grants, a) - x && t.db.accounts == s.db.accounts
         else t.db == s.db
  {
    StartsAlone(s, p, Ask(a, x));
    hide Quiet, Alone, Leads, GrantBalance, Own;
    var acts0, t0 := ComesToEnd(Called(s, p, Ask(a, x)), p);
    assert Ends(Called(s, p, Ask(a, x)), acts0, p, t0);
    forall acts, t | Ends(Called(s, p, Ask(a, x)), acts, p, t)
      ensures DrawdownOnItsWay(t, p, s, a, x)
    {
      DrawdownEnds(Called(s, p, Ask(a, x)), acts, t, p, s, a, x);
    }
  }

  // ExpireGrants

  lemma {:induction false} MarksAll(t: State, p: Pid, now: int, rest: set<GrantId>)
    returns (acts: seq<Action>, u: State, marked: set<GrantId>)
    requires Alone(t, p) && t.sessions[p].ExpireCall? && t.sessions[p].now == now
    requires forall g | g in rest ::
      && g in t.db.grants && t.db.grants[g].status == Active && t.db.grants[g].expiresAt < now
      && g !in t.sessions[p].marked
    requires forall g | g in t.db.grants && t.db.grants[g].status == Active && t.db.grants[g].expiresAt < now ::
      g in rest || g in t.sessions[p].marked
    ensures Own(acts, p) && Leads(t, acts, u) && Alone(u, p) && u.db == t.db
    ensures u.sessions[p] == ExpireCall(now, marked)
    ensures forall g | g in t.db.grants && t.db.grants[g].status == Active && t.db.grants[g].expiresAt < now ::
      g in marked
    decreases |rest|
  {
    hide Inv, CanStep, Step, Leads;
    if g :| g in rest {
      var t' := MarksOne(t, p, g);
      var more;
      more, u, marked := MarksAll(t', p, now, rest - {g});
      LeadsFrom(t, Run(p, [g]), t', more, u);
      acts := [Run(p, [g])] + more;
    } else {
      LeadsNowhere(t);
      acts, u, marked := [], t, t.sessions[p].marked;
    }
  }

  lemma MarksOne(t: State, p: Pid, g: GrantId) returns (t': State)
    requires Alone(t, p) && t.sessions[p].ExpireCall? && g in t.db.grants && g !in t.sessions[p].marked
    requires t.db.grants[g].status == Active && t.db.grants[g].expiresAt < t.sessions[p].now
    ensures CanStep(t, Run(p, [g])) && t' == Step(t, Run(p, [g])) && Alone(t', p) && t'.db == t.db
    ensures t'.sessions[p] == ExpireCall(t.sessions[p].now, t.sessions[p].marked + {g})
  {
    NothingHeld(t, p);
    StaysAlone(t, p, [g]);
    t' := Step(t, Run(p, [g]));
  }

  lemma SweepCommits(t: State, p: Pid) returns (t': State)
    requires Alone(t, p) && t.sessions[p].ExpireCall?
    ensures CanStep(t, Run(p, [])) && t' == Step(t, Run(p, []))
    ensures p in t'.sessions && t'.sessions[p] == Done(Completed)
    ensures GrantsLive(t.db.grants) && Enabled(t.db, Expire(t.sessions[p].marked, t.sessions[p].now))
    ensures t'.db == Apply(t.db, Expire(t.sessions[p].marked, t.sessions[p].now))
  {
    NothingHeld(t, p);
    hide Inv, Apply, Merge;
    OneTurn(t, p, []);
    t' := Step(t, Run(p, []));
  }

  lemma EndsAfter(s: State, acts: seq<Action>, t: State, p: Pid, u: State)
    requires Own(acts, p) && Leads(s, acts, t) && CanStep(t, Run(p, [])) && u == Step(t, Run(p, []))
    requires p in u.sessions && u.sessions[p].Done?
    ensures Ends(s, acts + [Run(p, [])], p, u)
  {
    hide Leads, CanStep, Step;
    LeadsOn(s, acts, t, Run(p, []), u);
  }

  lemma ClosesAllDue(db: Db, marked: set<GrantId>, now: int)
    requires GrantsLive(db.grants) && Enabled(db, Expire(marked, now))
    requires forall g | g in db.grants && db.grants[g].status == Active && db.grants[g].expiresAt < now :: g in marked
    ensures
      var grants' := Apply(db, Expire(marked, now)).grants;
      && grants'.Keys == db.grants.Keys
      && forall g | g in db.grants ::
           var row := db.grants[g];
           grants'[g] == if row.status == Active && row.expiresAt < now then row.(status := Expired) else row
  {
    hide Apply;
    ExpireClosesItsRows(db, marked, now);
  }

  /** A sweep that has the tables to itself can close all that is past due, whatever has
      been used of it. */
  lemma SweepAlone(s: State, p: Pid, now: int) returns (acts: seq<Action>, t: State)
    requires Quiet(s)
    ensures Ends(Called(s, p, ExpireCall(now, {})), acts, p, t) && t.sessions[p] == Done(Completed)
    ensures t.db.grants.Keys == s.db.grants.Keys
    ensures forall g | g in s.db.grants ::
      var row := s.db.grants[g];
      t.db.grants[g] == if row.status == Active && row.expiresAt < now then row.(status := Expired) else row
  {
    StartsAlone(s, p, ExpireCall(now, {}));
    hide Quiet, Inv, Leads, Apply, CanStep, Step, Alone, Enabled, Own, Ends;
    var s0 := Called(s, p, ExpireCall(now, {}));
    var first, u, marked := MarksAll(s0, p, now, PastDue(s.db.grants, now));
    t := SweepCommits(u, p);
    EndsAfter(s0, first, u, p, t);
    acts := first + [Run(p, [])];
    ClosesAllDue(s.db, marked, now);
  }

  // What a refusal means

  /** The ground that the tables of this moment give for the refusal. For a transfer's
      first test of funds it is the balance that the transfer read. */
  ghost predicate Grounds(db: Db, ses: Session, reason: Reason) {
    match ses
    case TransferCall(s, d, amount, key, pc) => (
      match reason
      case InvalidAmount => amount <= 0
      case SameAccount => s == d
      case AccountNotFound => s !in db.accounts || d !in db.accounts
      case CurrencyMismatch =>
        s in db.accounts && d in db.accounts && db.accounts[s].currency != db.accounts[d].currency
      case InsufficientFunds =>
        if pc.TReadDest? then pc.found.balance < amount
        else s in db.accounts && db.accounts[s].balance < amount
      case DuplicateKey => key in db.txns
      case _ => false)
    case WaterfallCall(a, amount, now, pc) => (
      match reason
      case InvalidAmount => amount <= 0
      case AccountNotFound => a !in db.accounts
      case InsufficientFunds =>
        && a in db.accounts && pc.WLock? && (forall i | 0 <= i < |pc.ids| :: pc.ids[i] in db.grants)
        && Sum(Amounts(LiveRows(db.grants, pc.ids))) + db.accounts[a].balance < amount
      case _ => false)
    case DrawdownCall(a, amount, _) => (
      match reason
      case InvalidAmount => amount <= 0
      case InsufficientGrants => GrantBalance(db.grants, a) < amount
      case _ => false)
    case _ => false
  }

  /** In any interleaving a call gives up only for a reason that the tables bear out. */
  lemma RefusedWithGrounds(s: State, p: Pid, pick: seq<GrantId>, reason: Reason)
    requires Inv(s) && CanStep(s, Run(p, pick)) && Step(s, Run(p, pick)).sessions[p] == Done(Failed(reason))
    ensures Grounds(s.db, s.sessions[p], reason)
  {
    ReachableIsAudited(s.log, s.db);
    var ses := s.sessions[p];
    assert SessionOk(s.db, ses);
    hide Inv, Merge, Grounds;
    assert Advance(s.db, OthersLocks(s, p), ses, pick) == Fail(reason);
    match ses
    case TransferCall(_, _, _, _, _) => TransferGrounds(s.db, OthersLocks(s, p), ses, reason);
    case WaterfallCall(_, _, _, _) => DebitGrounds(s.db, OthersLocks(s, p), ses, pick, reason);
    case DrawdownCall(_, _, _) => DrawdownGrounds(s.db, OthersLocks(s, p), ses, pick, reason);
    case ExpireCall(_, _) =>
    case Done(_) =>
  }

  lemma TransferGrounds(db: Db, held: set<Lock>, ses: Session, reason: Reason)
    requires ses.TransferCall? && SessionOk(db, ses) && TransferStep(db, held, ses) == Fail(reason)
    ensures Grounds(db, ses, reason)
  {
  }

  lemma DebitGrounds(db: Db, held: set<Lock>, ses: Session, pick: seq<GrantId>, reason: Reason)
    requires ses.WaterfallCall? && SessionOk(db, ses) && GrantsLive(db.grants)
    requires WaterfallStep(db, held, ses, pick) == Fail(reason)
    ensures Grounds(db, ses, reason)
  {
    hide Sum, Amounts, LiveRows, Drain, Precedes, Fit;
    if ses.wpc.WLock? && ses.wpc.k == |ses.wpc.ids| {
      assert ses.wpc.ids[..ses.wpc.k] == ses.wpc.ids;
      RowsAreCovered(db, ses.wpc.ids);
    }
  }

  lemma DrawdownGrounds(db: Db, held: set<Lock>, ses: Session, pick: seq<GrantId>, reason: Reason)
    requires ses.DrawdownCall? && SessionOk(db, ses) && ValidPick(db, ses, pick)
    requires Advance(db, held, ses, pick) == Fail(reason)
    ensures Grounds(db, ses, reason)
  {
    hide GrantBalance, Sum, Drain, LiveRows, TakeRow, Remainings;
    if ses.dpc.DStart? {
      QuerySumIsBalance(db, ses.account, ses.amount, pick);
    }
  }

  // What the outcome tells the caller

  /** The operation is this call's own. */
  predicate OpOf(ses: Session, op: Op) {
    match ses
    case TransferCall(s, d, amount, key, _) => amount > 0 && op == Op.Transfer(s, d, amount, key)
    case WaterfallCall(a, amount, now, _) =>
      op.WaterfallDebit? && op.account == a && op.amount == amount && op.now == now
    case DrawdownCall(a, amount, _) => op.Drawdown? && op.account == a && op.amount == amount
    case ExpireCall(now, marked) => op == Expire(marked, now)
    case Done(_) => false
  }

  lemma CommitsOwnOp(db: Db, held: set<Lock>, ses: Session, pick: seq<GrantId>)
    requires ValidPick(db, ses, pick) && Advance(db, held, ses, pick).Commit?
    ensures OpOf(ses, Advance(db, held, ses, pick).op)
  {
    hide Sum, Amounts, Drain, TakeRow, Remainings;
  }

  lemma GoesOnWithoutCompleting(db: Db, held: set<Lock>, ses: Session, pick: seq<GrantId>)
    requires ValidPick(db, ses, pick) && Advance(db, held, ses, pick).Go? && !ses.Done?
    ensures Advance(db, held, ses, pick).next != Done(Completed)
  {
    hide Sum, Amounts, Drain, TakeRow, Remainings;
  }

  /** In any interleaving, when a call ends: it is told that it completed exactly if at
      that moment one operation of its own took effect, and if not, nothing changed. */
  lemma OutcomeTellsEffect(s: State, act: Action, p: Pid)
    requires Inv(s) && CanStep(s, act) && Unfinished(s, p) && Step(s, act).sessions[p].Done?
    ensures GrantsLive(s.db.grants) && (act.Run? || act.Abort?) && act.p == p
    ensures
      var t := Step(s, act);
      if t.sessions[p].outcome == Completed then
        exists op :: OpOf(s.sessions[p], op) && Enabled(s.db, op) && t.db == Apply(s.db, op) && t.log == s.log + [op]
      else t.db == s.db && t.log == s.log
  {
    ReachableIsAudited(s.log, s.db);
    var ses := s.sessions[p];
    assert SessionOk(s.db, ses);
    hide Inv, Advance, Merge, Apply, Enabled, ValidPick, OpOf, SessionOk;
    if act.Run? {
      var r := Advance(s.db, OthersLocks(s, p), ses, act.pick);
      if r.Commit? {
        CommitIsSerial(s.db, OthersLocks(s, p), ses, act.pick);
        CommitsOwnOp(s.db, OthersLocks(s, p), ses, act.pick);
        assert OpOf(ses, r.op) && Step(s, act).db == Apply(s.db, r.op);
      } else {
        GoesOnWithoutCompleting(s.db, OthersLocks(s, p), ses, act.pick);
      }
    }
  }
}
