/** No set of calls can block each other for ever: as long as ties between grants
    are broken one fixed way, some unfinished call can always take its next step,
    and only so many steps are left. */
module Deadlock {
  import opened WaterfallSpec
  import opened Totals
  import opened Database
  import opened Serial
  import opened GrantLife
  import opened History
  import opened Sessions
  import opened SessionSafety
  import opened Paths
  import opened LockOrder
  import opened CallHistories

  ghost predicate Unfinished(s: State, p: Pid) {
    p in s.sessions && !s.sessions[p].Done?
  }

  /** The call can take its own next step, its query answered with ties as fixed. */
  ghost predicate CanRun(s: State, tie: GrantId -> int, p: Pid) {
    exists pick :: CanStep(s, Run(p, pick)) && TieOrdered(s.db.grants, tie, pick)
  }

  ghost predicate AllTied(s: State, tie: GrantId -> int) {
    forall p | p in s.sessions :: SessionTied(s.db.grants, tie, s.sessions[p])
  }

  /** No sweep of expired grants is under way: it locks rows in no fixed order. */
  ghost predicate NoSweep(s: State) {
    forall p | p in s.sessions :: !s.sessions[p].ExpireCall?
  }

  ghost predicate NoDrawdown(s: State) {
    forall p | p in s.sessions :: !s.sessions[p].DrawdownCall?
  }

  /** Either ties come in one fixed order, or nobody locks grants without holding
      their account. */
  ghost predicate Orderly(s: State, tie: GrantId -> int) {
    Inv(s) && NoSweep(s) && (AllTied(s, tie) || NoDrawdown(s))
  }

  /** Without drawdowns, whoever holds an account finds its grants free. */
  lemma GrantsUncontended(s: State, p: Pid)
    requires Inv(s) && NoSweep(s) && NoDrawdown(s)
    requires p in s.sessions && s.sessions[p].WaterfallCall? && s.sessions[p].wpc.WLock?
    requires s.sessions[p].wpc.k < |s.sessions[p].wpc.ids|
    ensures GrantLock(s.sessions[p].wpc.ids[s.sessions[p].wpc.k]) !in OthersLocks(s, p)
  {
    hide LiveRows, Sum, Drain, Amounts, Fit;
    var ses := s.sessions[p];
    var g := ses.wpc.ids[ses.wpc.k];
    forall q | q in s.sessions && q != p ensures GrantLock(g) !in Locks(s.sessions[q]) {
      assert AccountLock(ses.account) in Locks(ses);
      assert SessionOk(s.db, s.sessions[q]);
      GrantComesWithAccount(s.db, s.sessions[q], g);
    }
  }

  lemma GrantComesWithAccount(db: Db, ses: Session, g: GrantId)
    requires SessionOk(db, ses) && !ses.DrawdownCall? && !ses.ExpireCall?
    ensures GrantLock(g) in Locks(ses) ==> g in db.grants && AccountLock(db.grants[g].account) in Locks(ses)
  {
    hide LiveRows, Sum, Drain, Amounts, Fit;
  }

  lemma WaitsAboveOwn(s: State, tie: GrantId -> int, p: Pid, pick: seq<GrantId>)
    requires Orderly(s, tie) && Unfinished(s, p) && ValidPick(s.db, s.sessions[p], pick)
    requires Advance(s.db, OthersLocks(s, p), s.sessions[p], pick).Wait?
    ensures
      var l := Advance(s.db, OthersLocks(s, p), s.sessions[p], pick).lock;
      && l in OthersLocks(s, p)
      && forall l' | l' in Locks(s.sessions[p]) :: Below(LockRank(s.db.grants, tie, l'), LockRank(s.db.grants, tie, l))
  {
    hide SessionOk, Below, LockRank, ValidPick, Locks, LiveRows, Sum, Drain;
    if SessionTied(s.db.grants, tie, s.sessions[p]) {
      WaitsAbove(s.db, OthersLocks(s, p), s.sessions[p], pick, tie);
    } else {
      GrantsUncontended(s, p);
      assert false;
    }
  }

  /** A blocked call waits for a lock of another unfinished call, and that lock
      stands above all that it holds itself. */
  lemma BlockedByHigher(s: State, tie: GrantId -> int, p: Pid) returns (wanted: Lock, owner: Pid)
    requires Orderly(s, tie) && OneToOne(tie)
    requires Unfinished(s, p) && !CanRun(s, tie, p)
    ensures Unfinished(s, owner) && wanted in Locks(s.sessions[owner])
    ensures forall l | l in Locks(s.sessions[p]) ::
      Below(LockRank(s.db.grants, tie, l), LockRank(s.db.grants, tie, wanted))
  {
    hide SessionOk, Advance, Below, LockRank, ValidPick, Orderly;
    var pick := PickExists(s.db, tie, s.sessions[p]);
    assert !CanStep(s, Run(p, pick));
    WaitsAboveOwn(s, tie, p, pick);
    wanted := Advance(s.db, OthersLocks(s, p), s.sessions[p], pick).lock;
    owner :| owner in s.sessions && owner != p && wanted in Locks(s.sessions[owner]);
  }

  ghost predicate Lower(s: State, tie: GrantId -> int, q: Pid, top: Lock)
    requires q in s.sessions
  {
    forall l | l in Locks(s.sessions[q]) :: Below(LockRank(s.db.grants, tie, l), LockRank(s.db.grants, tie, top))
  }

  lemma LowerStill(s: State, tie: GrantId -> int, q: Pid, p: Pid, top: Lock, wanted: Lock)
    requires q in s.sessions && p in s.sessions && Lower(s, tie, q, top)
    requires top in Locks(s.sessions[p]) && Lower(s, tie, p, wanted)
    ensures Lower(s, tie, q, wanted)
  {
    hide Locks, LockRank;
  }

  /** Following the waits from one blocked call leads ever upwards, so among finitely
      many calls it ends at one that can run. */
  lemma {:induction false} ChaseWaits(s: State, tie: GrantId -> int, p: Pid, top: Lock, unvisited: set<Pid>)
    returns (runner: Pid)
    requires Orderly(s, tie) && OneToOne(tie)
    requires Unfinished(s, p) && top in Locks(s.sessions[p])
    requires forall q | q in s.sessions && q !in unvisited :: Lower(s, tie, q, top)
    ensures Unfinished(s, runner) && CanRun(s, tie, runner)
    decreases |unvisited|
  {
    hide Orderly, CanRun, LockRank, Locks;
    assert p in unvisited;
    if CanRun(s, tie, p) {
      runner := p;
    } else {
      var wanted, owner := BlockedByHigher(s, tie, p);
      forall q | q in s.sessions && q !in unvisited - {p} ensures Lower(s, tie, q, wanted) {
        if q != p {
          LowerStill(s, tie, q, p, top, wanted);
        }
      }
      runner := ChaseWaits(s, tie, owner, wanted, unvisited - {p});
    }
  }

  /** Deadlock freedom of one state. */
  lemma SomeCallCanRun(s: State, tie: GrantId -> int, p: Pid) returns (runner: Pid)
    requires Orderly(s, tie) && OneToOne(tie) && Unfinished(s, p)
    ensures Unfinished(s, runner) && CanRun(s, tie, runner)
  {
    if CanRun(s, tie, p) {
      runner := p;
    } else {
      var wanted, owner := BlockedByHigher(s, tie, p);
      runner := ChaseWaits(s, tie, owner, wanted, s.sessions.Keys);
    }
  }

  // Ties over whole runs

  ghost predicate PicksTied(states: seq<State>, acts: seq<Action>, tie: GrantId -> int)
    requires |states| == |acts| + 1
  {
    forall i | 0 <= i < |acts| && acts[i].Run? :: TieOrdered(states[i].db.grants, tie, acts[i].pick)
  }

  lemma TiesAge(db: Db, db': Db, tie: GrantId -> int, ses: Session)
    requires SessionTied(db.grants, tie, ses) && Grows(db, db')
    ensures SessionTied(db'.grants, tie, ses)
  {
    hide Below;
  }

  lemma TiesTaken(s: State, tie: GrantId -> int, act: Action)
    requires AllTied(s, tie) && CanStep(s, act)
    requires act.Run? ==> TieOrdered(s.db.grants, tie, act.pick)
    ensures forall p | p in Step(s, act).sessions :: SessionTied(s.db.grants, tie, Step(s, act).sessions[p])
  {
    hide TieOrdered, Sum, Amounts, Drain, Apply, Merge, Enabled;
  }

  lemma TiedAfter(s: State, s': State, tie: GrantId -> int)
    requires forall p | p in s'.sessions :: SessionTied(s.db.grants, tie, s'.sessions[p])
    requires Grows(s.db, s'.db)
    ensures AllTied(s', tie)
  {
    hide SessionTied, Grows;
    forall p | p in s'.sessions ensures SessionTied(s'.db.grants, tie, s'.sessions[p]) {
      TiesAge(s.db, s'.db, tie, s'.sessions[p]);
    }
  }

  lemma {:induction false} RunsStayTied(states: seq<State>, acts: seq<Action>, tie: GrantId -> int, n: nat)
    requires Execution(states, acts) && PicksTied(states, acts, tie) && n < |states|
    ensures AllTied(states[n], tie)
  {
    if n > 0 {
      hide Step, CanStep, SessionTied, Grows, AllTied;
      RunsStayTied(states, acts, tie, n - 1);
      assert states[n] == Step(states[n - 1], acts[n - 1]);
      TiesTaken(states[n - 1], tie, acts[n - 1]);
      RunGrows(states, acts, n - 1, n);
      TiedAfter(states[n - 1], states[n], tie);
    } else {
      assert states[n].sessions == map[];
    }
  }

  /** Deadlock freedom of every run: whenever a call is unfinished, some call can take
      its own next step. */
  lemma NoDeadlock(states: seq<State>, acts: seq<Action>, tie: GrantId -> int, n: nat, p: Pid)
    requires Execution(states, acts) && PicksTied(states, acts, tie) && OneToOne(tie)
    requires n < |states| && NoSweep(states[n]) && Unfinished(states[n], p)
    ensures exists runner :: Unfinished(states[n], runner) && CanRun(states[n], tie, runner)
  {
    ExecutionInv(states, acts, n);
    RunsStayTied(states, acts, tie, n);
    var runner := SomeCallCanRun(states[n], tie, p);
  }

  // Without ties there is nothing to break

  /** No two active grants of one account share priority and expiry. Finished grants
      are on no list. */
  ghost predicate NoTies(grants: map<GrantId, Grant>) {
    forall g, h | g in grants && h in grants && g != h && grants[g].account == grants[h].account
                  && grants[g].status == Active && grants[h].status == Active ::
      grants[g].priority != grants[h].priority || grants[g].expiresAt != grants[h].expiresAt
  }

  lemma UntiedPick(db: Db, ses: Session, pick: seq<GrantId>, tie: GrantId -> int)
    requires NoTies(db.grants) && ValidPick(db, ses, pick)
    ensures TieOrdered(db.grants, tie, pick)
  {
  }

  /** If no two active grants of one account share priority and expiry, the order
      clause alone rules deadlock out. */
  lemma NoTiesNoDeadlock(states: seq<State>, acts: seq<Action>, n: nat, p: Pid)
    requires Execution(states, acts) && n < |states| && NoSweep(states[n]) && Unfinished(states[n], p)
    requires forall i | 0 <= i < |states| :: NoTies(states[i].db.grants)
    ensures exists runner, pick :: Unfinished(states[n], runner) && CanStep(states[n], Run(runner, pick))
  {
    var tie := (g: GrantId) => g as int;
    forall i | 0 <= i < |acts| && acts[i].Run? ensures TieOrdered(states[i].db.grants, tie, acts[i].pick) {
      UntiedPick(states[i].db, states[i].sessions[acts[i].p], acts[i].pick, tie);
    }
    NoDeadlock(states, acts, tie, n, p);
    var runner :| Unfinished(states[n], runner) && CanRun(states[n], tie, runner);
    var pick :| CanStep(states[n], Run(runner, pick)) && TieOrdered(states[n].db.grants, tie, pick);
  }

  /** Transfers and waterfall debits alone never block each other, however ties come:
      the account lock that a debit takes first already keeps its grants to itself. */
  lemma NoDrawdownNoDeadlock(states: seq<State>, acts: seq<Action>, n: nat, p: Pid)
    requires Execution(states, acts) && n < |states| && NoSweep(states[n]) && NoDrawdown(states[n])
    requires Unfinished(states[n], p)
    ensures exists runner, pick :: Unfinished(states[n], runner) && CanStep(states[n], Run(runner, pick))
  {
    hide Inv, CanStep;
    var tie := (g: GrantId) => g as int;
    ExecutionInv(states, acts, n);
    var runner := SomeCallCanRun(states[n], tie, p);
    var pick :| CanStep(states[n], Run(runner, pick)) && TieOrdered(states[n].db.grants, tie, pick);
  }

  // Every call has a bounded number of steps left

  /** Steps a call has left at most, with so many grants in the table. */
  function Work(grants: nat, ses: Session): int {
    match ses
    case TransferCall(_, _, _, _, pc) => (
      match pc
      case TStart => 8
      case TReadSource => 7
      case TReadDest(_) => 6
      case TFirst(_) => 5
      case TSecond(_, _) => 4
      case TReread(_, _) => 3
      case TInsert(_, _, _) => 2
      case TCommit(_, _, _) => 1)
    case WaterfallCall(_, _, _, pc) => (
      match pc
      case WStart => grants + 4
      case WSelect(_) => grants + 3
      case WLock(_, ids, _, k, _) => |ids| - k + 2
      case WCommit(_, _, _, _, _) => 1)
    case DrawdownCall(_, _, pc) => (
      match pc
      case DStart => grants + 2
      case DLock(ids, _, k, _) => |ids| - k + 1)
    case ExpireCall(_, marked) => grants - |marked| + 1
    case Done(_) => 0
  }

  lemma {:induction false} DistinctFit<T>(ids: seq<T>, all: set<T>)
    requires forall i, j | 0 <= i < j < |ids| :: ids[i] != ids[j]
    requires forall i | 0 <= i < |ids| :: ids[i] in all
    ensures |ids| <= |all|
    decreases |ids|
  {
    if ids != [] {
      DistinctFit(ids[1..], all - {ids[0]});
    }
  }

  lemma SubsetFits<T>(some: set<T>, all: set<T>)
    requires some <= all
    ensures |some| <= |all|
  {
    assert all == some + (all - some);
  }

  /** An unfinished call has at least one step left, and each step it takes uses one. */
  lemma StepUsesWork(db: Db, held: set<Lock>, ses: Session, pick: seq<GrantId>)
    requires SessionOk(db, ses) && ValidPick(db, ses, pick) && !ses.Done?
    ensures Work(|db.grants|, ses) >= 1
    ensures Advance(db, held, ses, pick).Go? ==>
      0 <= Work(|db.grants|, Advance(db, held, ses, pick).next) < Work(|db.grants|, ses)
  {
    hide Sum, Amounts, Drain, LiveRows, Fit, TakeRow, Remainings, ListOk, Eligible, TransferOk;
    match ses
    case TransferCall(_, _, _, _, _) => TransferUsesWork(db, held, ses);
    case WaterfallCall(_, _, _, WSelect(_)) => DistinctFit(pick, db.grants.Keys);
    case DrawdownCall(_, _, DStart) => DistinctFit(pick, db.grants.Keys);
    case ExpireCall(_, marked) =>
      SubsetFits(marked, db.grants.Keys);
      if pick != [] {
        SubsetFits(marked + {pick[0]}, db.grants.Keys);
      }
    case _ =>
  }

  lemma TransferUsesWork(db: Db, held: set<Lock>, ses: Session)
    requires ses.TransferCall?
    ensures Work(|db.grants|, ses) >= 1
    ensures TransferStep(db, held, ses).Go? ==>
      0 <= Work(|db.grants|, TransferStep(db, held, ses).next) < Work(|db.grants|, ses)
  {
  }

  ghost function WorkLeft(s: State): map<Pid, int> {
    map p | p in s.sessions :: Work(|s.db.grants|, s.sessions[p])
  }

  lemma CommitAddsNoGrant(db: Db, ses: Session, w: Writes, op: Op)
    requires CommitsAs(db, ses, w, op) && (op.Transfer? || op.Drawdown? || op.WaterfallDebit? || op.Expire?)
    ensures Merge(db, w).grants.Keys == db.grants.Keys
  {
    hide Merge, Confined, Drain, LiveRows, Sum, Complete, Fit;
    match op
    case Drawdown(a, amount, ids) =>
      LiveRowsFit(db.grants, ids);
      DrainAges(db.grants, LiveRows(db.grants, ids), amount);
    case WaterfallDebit(a, amount, now, ids, seen) =>
      LiveRowsFit(db.grants, ids);
      DrainAges(db.grants, LiveRows(db.grants, ids), amount);
    case _ =>
  }

  lemma KeysCount(m: map<GrantId, Grant>, m': map<GrantId, Grant>)
    requires m.Keys == m'.Keys
    ensures |m| == |m'|
  {
    assert |m| == |m.Keys| && |m'| == |m'.Keys|;
  }

  ghost predicate WorkCounted(s: State) {
    forall p | p in s.sessions :: Work(|s.db.grants|, s.sessions[p]) >= 0
  }

  lemma InvCountsWork(s: State)
    requires Inv(s)
    ensures WorkCounted(s)
  {
    forall p | p in s.sessions ensures Work(|s.db.grants|, s.sessions[p]) >= 0 {
      hide LiveRows, Sum, Drain, Amounts, Fit;
      match s.sessions[p]
      case ExpireCall(_, marked) => SubsetFits(marked, s.db.grants.Keys);
      case _ =>
    }
  }

  lemma ReplacedWork(s: State, s': State, p: Pid)
    requires Inv(s') && p in s.sessions && |s'.db.grants| == |s.db.grants|
    requires p in s'.sessions && s'.sessions == s.sessions[p := s'.sessions[p]]
    requires Work(|s.db.grants|, s'.sessions[p]) < Work(|s.db.grants|, s.sessions[p])
    ensures 0 <= Total(WorkLeft(s')) < Total(WorkLeft(s))
  {
    InvCountsWork(s');
    hide Work, Inv;
    TotalPut(WorkLeft(s), p, Work(|s.db.grants|, s'.sessions[p]));
    assert WorkLeft(s') == WorkLeft(s)[p := Work(|s.db.grants|, s'.sessions[p])];
    TotalNonNegative(WorkLeft(s'));
  }

  /** The steps left in all calls together shrink with every step or rollback. */
  lemma WorkShrinks(s: State, act: Action)
    requires Inv(s) && CanStep(s, act) && (act.Run? || act.Abort?)
    ensures 0 <= Total(WorkLeft(Step(s, act))) < Total(WorkLeft(s))
  {
    StepKeepsInv(s, act);
    ReachableIsAudited(s.log, s.db);
    hide SessionOk, Exclusive, Advance, Work, WorkLeft, Merge, CommitsAs, Reachable, Locks;
    var p, s', n := act.p, Step(s, act), |s.db.grants|;
    var pick := if act.Run? then act.pick else [];
    if act.Run? {
      StepUsesWork(s.db, OthersLocks(s, p), s.sessions[p], pick);
      if Advance(s.db, OthersLocks(s, p), s.sessions[p], pick).Commit? {
        CommitKeepsCount(s, p, pick);
        DoneHasNoWork(n, Completed);
      }
    } else {
      UnfinishedHasWork(s, p);
      DoneHasNoWork(n, Failed(RolledBack));
    }
    ReplacedWork(s, s', p);
  }

  lemma DoneHasNoWork(grants: nat, outcome: Outcome)
    ensures Work(grants, Done(outcome)) == 0
  {
  }

  lemma UnfinishedHasWork(s: State, p: Pid)
    requires Inv(s) && Unfinished(s, p)
    ensures Work(|s.db.grants|, s.sessions[p]) >= 1
  {
    hide LiveRows, Sum, Drain, Amounts, Fit;
    match s.sessions[p]
    case ExpireCall(_, marked) => SubsetFits(marked, s.db.grants.Keys);
    case _ =>
  }

  lemma CommitKeepsCount(s: State, p: Pid, pick: seq<GrantId>)
    requires Inv(s) && p in s.sessions && ValidPick(s.db, s.sessions[p], pick)
    requires Advance(s.db, OthersLocks(s, p), s.sessions[p], pick).Commit?
    ensures |Merge(s.db, Advance(s.db, OthersLocks(s, p), s.sessions[p], pick).writes).grants| == |s.db.grants|
  {
    hide CommitsAs, Merge, SessionOk, ValidPick, Drain, Amounts, Sum, TakeRow, Remainings, Exclusive, Replay;
    ReachableIsAudited(s.log, s.db);
    var r := Advance(s.db, OthersLocks(s, p), s.sessions[p], pick);
    CommitIsSerial(s.db, OthersLocks(s, p), s.sessions[p], pick);
    assert r.op.Transfer? || r.op.Drawdown? || r.op.WaterfallDebit? || r.op.Expire?;
    CommitAddsNoGrant(s.db, s.sessions[p], r.writes, r.op);
    KeysCount(s.db.grants, Merge(s.db, r.writes).grants);
  }

  /** Once no new calls and no single-statement operations arrive, a run ends: it has
      no more steps left than the work left at that point. */
  lemma {:induction false} RunsEnd(states: seq<State>, acts: seq<Action>, m: nat, n: nat)
    requires Execution(states, acts) && m <= n < |states|
    requires forall i | m <= i < n :: acts[i].Run? || acts[i].Abort?
    ensures 0 <= Total(WorkLeft(states[n])) <= Total(WorkLeft(states[m])) - (n - m)
    decreases n - m
  {
    hide Inv, WorkLeft, Step, CanStep, Work;
    if m < n {
      RunsEnd(states, acts, m, n - 1);
      ExecutionInv(states, acts, n - 1);
      WorkShrinks(states[n - 1], acts[n - 1]);
    } else {
      ExecutionInv(states, acts, m);
      InvCountsWork(states[m]);
      WorkIsNonNegative(states[m]);
    }
  }

  lemma WorkIsNonNegative(s: State)
    requires WorkCounted(s)
    ensures Total(WorkLeft(s)) >= 0
  {
    TotalNonNegative(WorkLeft(s));
  }

  // Every call finishes

  lemma StepGrows(s: State, act: Action)
    requires Inv(s) && CanStep(s, act)
    ensures Grows(s.db, Step(s, act).db)
  {
    StepKeepsInv(s, act);
    var s' := Step(s, act);
    assert s.log <= s'.log by {
      hide Inv, Apply, Merge, ValidPick;
    }
    var before := PrefixGrows(s'.log, |s.log|, s'.db);
    assert s'.log[..|s.log|] == s.log;
  }

  /** No step of a call turns it into a sweep or a drawdown, and lists in a fixed order
      stay so. */
  lemma StaysOrderly(s: State, tie: GrantId -> int, act: Action)
    requires Orderly(s, tie) && CanStep(s, act) && (act.Run? || act.Abort?)
    requires act.Run? ==> TieOrdered(s.db.grants, tie, act.pick)
    ensures Orderly(Step(s, act), tie)
  {
    StepKeepsInv(s, act);
    StepGrows(s, act);
    if AllTied(s, tie) {
      TiesTaken(s, tie, act);
      hide AllTied, Inv, Grows;
      TiedAfter(s, Step(s, act), tie);
    }
    SameKinds(s, act);
  }

  lemma SameKinds(s: State, act: Action)
    requires CanStep(s, act) && (act.Run? || act.Abort?)
    ensures NoSweep(s) ==> NoSweep(Step(s, act))
    ensures NoDrawdown(s) ==> NoDrawdown(Step(s, act))
  {
    hide Apply, Merge, Sum, Amounts, Drain, TakeRow;
  }

  lemma {:induction false} StaysOrderlyToEnd(
    states: seq<State>, acts: seq<Action>, tie: GrantId -> int, m: nat, n: nat)
    requires Execution(states, acts) && PicksTied(states, acts, tie) && m <= n < |states|
    requires Orderly(states[m], tie) && forall i | m <= i < n :: acts[i].Run? || acts[i].Abort?
    ensures Orderly(states[n], tie)
    decreases n - m
  {
    hide Orderly, Step, CanStep, TieOrdered;
    if m < n {
      StaysOrderlyToEnd(states, acts, tie, m, n - 1);
      StaysOrderly(states[n - 1], tie, acts[n - 1]);
    }
  }

  ghost predicate AllDone(s: State) {
    forall p | p in s.sessions :: s.sessions[p].Done?
  }

  /** A run without arrivals and sweeps, its ties ordered or no drawdown under way, is no
      longer than the work left at its start; and when it cannot be extended, every call
      has ended. */
  lemma EveryCallFinishes(states: seq<State>, acts: seq<Action>, tie: GrantId -> int, m: nat, n: nat)
    requires Execution(states, acts) && PicksTied(states, acts, tie) && OneToOne(tie) && m <= n < |states|
    requires NoSweep(states[m]) && forall i | m <= i < n :: acts[i].Run? || acts[i].Abort?
    ensures n - m <= Total(WorkLeft(states[m]))
    ensures (forall p :: !CanRun(states[n], tie, p)) ==> AllDone(states[n])
  {
    hide Inv, WorkLeft, CanRun, Step, CanStep;
    RunsEnd(states, acts, m, n);
    ExecutionInv(states, acts, m);
    RunsStayTied(states, acts, tie, m);
    StaysOrderlyToEnd(states, acts, tie, m, n);
    if forall p :: !CanRun(states[n], tie, p) {
      forall p | p in states[n].sessions ensures states[n].sessions[p].Done? {
        if !states[n].sessions[p].Done? {
          var runner := SomeCallCanRun(states[n], tie, p);
        }
      }
    }
  }

  /** And from every such state there is a run that brings every call to its end. */
  lemma {:induction false} CallsCanFinish(s: State, tie: GrantId -> int) returns (acts: seq<Action>, t: State)
    requires Orderly(s, tie) && OneToOne(tie)
    ensures Leads(s, acts, t) && AllDone(t) && forall i | 0 <= i < |acts| :: acts[i].Run?
    decreases Total(WorkLeft(s))
  {
    hide WorkLeft, Step, CanStep, AllTied, TieOrdered, NoSweep, NoDrawdown, Inv;
    if AllDone(s) {
      acts, t := [], s;
    } else {
      var p :| p in s.sessions && !s.sessions[p].Done?;
      var runner := SomeCallCanRun(s, tie, p);
      var pick :| CanStep(s, Run(runner, pick)) && TieOrdered(s.db.grants, tie, pick);
      var act := Run(runner, pick);
      StaysOrderly(s, tie, act);
      WorkShrinks(s, act);
      var rest;
      rest, t := CallsCanFinish(Step(s, act), tie);
      acts := [act] + rest;
      assert acts[1..] == rest;
    }
  }
}
