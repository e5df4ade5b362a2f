/** When two drawdowns can block each other: on any table with no call under way, for
    any two accounts and amounts, exactly if they ask the same account and two active
    grants tie for its first place, neither of which is enough for the call that
    locks it. */
module DrawDeadlock {
  import opened WaterfallSpec
  import opened Database
  import opened Serial
  import opened History
  import opened Sessions
  import opened SessionSafety
  import opened Paths
  import opened LockOrder
  import opened Deadlock
  import opened DrawGuarantees
  import opened PostgresTables
  import opened GrantBalances

  // The question

  ghost predicate Quiet(s: State) {
    Inv(s) && forall r | r in s.sessions :: s.sessions[r].Done?
  }

  function Ask(a: AccId, x: int): Session {
    DrawdownCall(a, x, DStart)
  }

  function With(s: State, p: Pid, c: Session, q: Pid, d: Session): State {
    s.(sessions := s.sessions[p := c][q := d])
  }

  ghost predicate Stuck(t: State, p: Pid, q: Pid) {
    Unfinished(t, p) && Unfinished(t, q) && forall r, pick :: !CanStep(t, Run(r, pick))
  }

  predicate Theirs(acts: seq<Action>, p: Pid, q: Pid) {
    forall i | 0 <= i < |acts| :: (acts[i].Run? || acts[i].Abort?) && (acts[i].p == p || acts[i].p == q)
  }

  ghost predicate CanBlock(s: State, p: Pid, c: Session, q: Pid, d: Session) {
    exists acts, t :: Theirs(acts, p, q) && Leads(With(s, p, c, q, d), acts, t) && Stuck(t, p, q)
  }

  // The answer

  /** An active grant that no other active grant of the account comes before. */
  ghost predicate Foremost(grants: map<GrantId, Grant>, a: AccId, g: GrantId) {
    && g in grants && grants[g].account == a && grants[g].status == Active
    && forall h | h in grants && grants[h].account == a && grants[h].status == Active :: Precedes(grants[g], grants[h])
  }

  ghost predicate TiedShort(grants: map<GrantId, Grant>, a: AccId, x: int, y: int, g: GrantId, h: GrantId) {
    && g != h && Foremost(grants, a, g) && Foremost(grants, a, h)
    && grants[g].remaining < x && grants[h].remaining < y
  }

  /** Both calls pass their test on the same account, where two grants tie for the
      first place and each call wants more than the one it takes first. */
  ghost predicate Rivals(grants: map<GrantId, Grant>, a: AccId, x: int, b: AccId, y: int) {
    && a == b && x <= GrantBalance(grants, a) && y <= GrantBalance(grants, a)
    && exists g, h :: TiedShort(grants, a, x, y, g, h)
  }

  // If

  lemma NoneBefore(grants: map<GrantId, Grant>, a: AccId, tie: GrantId -> int, i: GrantId, g: GrantId)
    requires Foremost(grants, a, g) && i in grants && grants[i].account == a && grants[i].status == Active
    requires tie(g) <= tie(i)
    ensures !Before(grants, tie, i, g)
  {
    assert Precedes(grants[g], grants[i]);
  }

  /** A correct answer to the query may put two tied foremost grants first, in either
      order. */
  lemma ListWithHeads(db: Db, a: AccId, x: int, g: GrantId, h: GrantId) returns (ids: seq<GrantId>)
    requires g != h && Foremost(db.grants, a, g) && Foremost(db.grants, a, h)
    ensures ValidPick(db, Ask(a, x), ids) && |ids| >= 2 && ids[0] == g && ids[1] == h
  {
    var tie := (i: GrantId) => if i == g then -2 else if i == h then -1 else i as int;
    ids := PickExists(db, tie, Ask(a, x));
    var i :| 0 <= i < |ids| && ids[i] == g;
    var j :| 0 <= j < |ids| && ids[j] == h;
    forall k | 0 <= k < |ids| ensures !Before(db.grants, tie, ids[k], ids[i]) {
      NoneBefore(db.grants, a, tie, ids[k], g);
    }
    forall k | 0 <= k < |ids| && k != i ensures !Before(db.grants, tie, ids[k], ids[j]) {
      assert ids[k] != ids[i];
      NoneBefore(db.grants, a, tie, ids[k], h);
    }
  }

  lemma AskReads(s: State, p: Pid, a: AccId, x: nat, ids: seq<GrantId>)
    requires p in s.sessions && s.sessions[p] == Ask(a, x) && x > 0 && ValidPick(s.db, Ask(a, x), ids)
    requires x <= GrantBalance(s.db.grants, a)
    ensures CanStep(s, Run(p, ids))
    ensures
      var next := DrawdownCall(a, x, DLock(ids, Remainings(s.db.grants, ids), 0, Drawn(map[], [], x)));
      Step(s, Run(p, ids)) == s.(sessions := s.sessions[p := next])
  {
    hide GrantBalance, Remainings, Sum;
    QuerySumIsBalance(s.db, a, x, ids);
  }

  lemma AskLocks(s: State, p: Pid, a: AccId, x: nat, ids: seq<GrantId>, read: seq<nat>)
    requires p in s.sessions && ids != [] && ids[0] in s.db.grants && GrantLock(ids[0]) !in OthersLocks(s, p)
    requires s.sessions[p] == DrawdownCall(a, x, DLock(ids, read, 0, Drawn(map[], [], x)))
    requires s.db.grants[ids[0]].status == Active && s.db.grants[ids[0]].remaining < x
    ensures CanStep(s, Run(p, []))
    ensures
      var r := s.db.grants[ids[0]].remaining;
      var drawn := TakeRow(s.db.grants, Drawn(map[], [], x), Row(ids[0], r));
      && drawn.left == x - r
      && Step(s, Run(p, [])) == s.(sessions := s.sessions[p := DrawdownCall(a, x, DLock(ids, read, 1, drawn))])
  {
  }

  lemma LocksOfAsk(a: AccId, x: int, ids: seq<GrantId>, read: seq<nat>, drawn: Drawn)
    requires ids != []
    ensures Locks(DrawdownCall(a, x, DLock(ids, read, 0, drawn))) == {}
    ensures Locks(DrawdownCall(a, x, DLock(ids, read, 1, drawn))) == {GrantLock(ids[0])}
  {
    assert GrantLocks(ids[..0]) == {} && GrantLocks(ids[..1]) == {GrantLock(ids[0])};
  }

  /** Holding one grant and waiting for the one that the other session holds. */
  ghost predicate WaitsFor(t: State, p: Pid, q: Pid) {
    && p in t.sessions && q in t.sessions && t.sessions[p].DrawdownCall? && t.sessions[p].dpc.DLock?
    && (var pc := t.sessions[p].dpc;
        && pc.k < |pc.ids| && pc.drawn.left > 0 && pc.ids[pc.k] in t.db.grants
        && GrantLock(pc.ids[pc.k]) in Locks(t.sessions[q]))
  }

  lemma Waits(t: State, p: Pid, q: Pid, pick: seq<GrantId>)
    requires p != q && WaitsFor(t, p, q)
    ensures !CanStep(t, Run(p, pick))
  {
    assert GrantLock(t.sessions[p].dpc.ids[t.sessions[p].dpc.k]) in OthersLocks(t, p);
  }

  lemma EachWaits(t: State, p: Pid, q: Pid)
    requires p != q && WaitsFor(t, p, q) && WaitsFor(t, q, p)
    requires forall r | r in t.sessions && r != p && r != q :: t.sessions[r].Done?
    ensures Stuck(t, p, q)
  {
    forall r, pick ensures !CanStep(t, Run(r, pick)) {
      if r == p {
        Waits(t, p, q, pick);
      } else if r == q {
        Waits(t, q, p, pick);
      }
    }
  }

  function Listing(a: AccId, x: nat, ids: seq<GrantId>, read: seq<nat>): Session {
    DrawdownCall(a, x, DLock(ids, read, 0, Drawn(map[], [], x)))
  }

  function Locking(grants: map<GrantId, Grant>, a: AccId, x: nat, ids: seq<GrantId>, read: seq<nat>): Session
    requires ids != [] && ids[0] in grants
  {
    var row := Row(ids[0], grants[ids[0]].remaining);
    DrawdownCall(a, x, DLock(ids, read, 1, TakeRow(grants, Drawn(map[], [], x), row)))
  }

  // Replacing one session's place in the program
  lemma Replaces(s: State, p: Pid, c: Session, q: Pid, d: Session, e: Session)
    requires p != q
    ensures With(s, p, c, q, d).sessions[p := e] == With(s, p, e, q, d).sessions
    ensures With(s, p, c, q, d).sessions[q := e] == With(s, p, c, q, e).sessions
    ensures s.sessions[p := c][p := e] == s.sessions[p := e]
  {
  }

  lemma BothList(s: State, p: Pid, q: Pid, a: AccId, x: nat, y: nat, ids0: seq<GrantId>, ids1: seq<GrantId>)
    requires p != q && p !in s.sessions && q !in s.sessions && x > 0 && y > 0
    requires x <= GrantBalance(s.db.grants, a) && y <= GrantBalance(s.db.grants, a)
    requires ValidPick(s.db, Ask(a, x), ids0) && ValidPick(s.db, Ask(a, y), ids1)
    ensures
      var read0, read1 := Remainings(s.db.grants, ids0), Remainings(s.db.grants, ids1);
      Leads(With(s, p, Ask(a, x), q, Ask(a, y)), [Run(p, ids0), Run(q, ids1)],
            With(s, p, Listing(a, x, ids0, read0), q, Listing(a, y, ids1, read1)))
  {
    hide CanStep, Step, GrantBalance, Remainings, Leads;
    var c, d := Listing(a, x, ids0, Remainings(s.db.grants, ids0)), Listing(a, y, ids1, Remainings(s.db.grants, ids1));
    var s0, s1 := With(s, p, Ask(a, x), q, Ask(a, y)), With(s, p, c, q, Ask(a, y));
    AskReads(s0, p, a, x, ids0);
    Replaces(s, p, Ask(a, x), q, Ask(a, y), c);
    AskReads(s1, q, a, y, ids1);
    Replaces(s, p, c, q, Ask(a, y), d);
    LeadsTwice(s0, Run(p, ids0), s1, Run(q, ids1), With(s, p, c, q, d));
  }

  lemma LeadsTwice(s: State, first: Action, t: State, second: Action, u: State)
    requires CanStep(s, first) && t == Step(s, first) && CanStep(t, second) && u == Step(t, second)
    ensures Leads(s, [first, second], u)
  {
    hide CanStep, Step;
    LeadsOn(s, [], s, first, t);
    LeadsOn(s, [] + [first], t, second, u);
    assert [] + [first] + [second] == [first, second];
  }

  lemma BothLock(
    s: State, p: Pid, q: Pid, a: AccId, x: nat, y: nat, ids0: seq<GrantId>, ids1: seq<GrantId>,
    read0: seq<nat>, read1: seq<nat>)
    requires (forall r | r in s.sessions :: s.sessions[r].Done?) && p != q && p !in s.sessions && q !in s.sessions
    requires ids0 != [] && ids1 != [] && ids0[0] != ids1[0] && ids0[0] in s.db.grants && ids1[0] in s.db.grants
    requires s.db.grants[ids0[0]].status == Active && s.db.grants[ids0[0]].remaining < x
    requires s.db.grants[ids1[0]].status == Active && s.db.grants[ids1[0]].remaining < y
    ensures Leads(
      With(s, p, Listing(a, x, ids0, read0), q, Listing(a, y, ids1, read1)), [Run(p, []), Run(q, [])],
      With(s, p, Locking(s.db.grants, a, x, ids0, read0), q, Locking(s.db.grants, a, y, ids1, read1)))
  {
    hide CanStep, Step, TakeRow, Locks, Leads;
    var c1, d1 := Listing(a, x, ids0, read0), Listing(a, y, ids1, read1);
    var c2, d2 := Locking(s.db.grants, a, x, ids0, read0), Locking(s.db.grants, a, y, ids1, read1);
    LocksOfAsk(a, x, ids0, read0, c1.dpc.drawn);
    LocksOfAsk(a, x, ids0, read0, c2.dpc.drawn);
    LocksOfAsk(a, y, ids1, read1, d1.dpc.drawn);
    var s2, s3, s4 := With(s, p, c1, q, d1), With(s, p, c2, q, d1), With(s, p, c2, q, d2);
    OnlyLocks(s, p, c1, q, d1);
    AskLocks(s2, p, a, x, ids0, read0);
    Replaces(s, p, c1, q, d1, c2);
    OnlyLocks(s, p, c2, q, d1);
    AskLocks(s3, q, a, y, ids1, read1);
    Replaces(s, p, c2, q, d1, d2);
    LeadsTwice(s2, Run(p, []), s3, Run(q, []), s4);
  }

  lemma BothStuck(
    s: State, p: Pid, q: Pid, a: AccId, x: nat, y: nat, ids0: seq<GrantId>, ids1: seq<GrantId>,
    read0: seq<nat>, read1: seq<nat>)
    requires (forall r | r in s.sessions :: s.sessions[r].Done?) && p != q && p !in s.sessions && q !in s.sessions
    requires |ids0| > 1 && |ids1| > 1 && ids0[0] == ids1[1] && ids1[0] == ids0[1]
    requires ids0[0] in s.db.grants && ids1[0] in s.db.grants
    requires s.db.grants[ids0[0]].remaining < x && s.db.grants[ids1[0]].remaining < y
    ensures Stuck(With(s, p, Locking(s.db.grants, a, x, ids0, read0), q, Locking(s.db.grants, a, y, ids1, read1)), p, q)
  {
    hide Locks;
    var c, d := Locking(s.db.grants, a, x, ids0, read0), Locking(s.db.grants, a, y, ids1, read1);
    LocksOfAsk(a, x, ids0, read0, c.dpc.drawn);
    LocksOfAsk(a, y, ids1, read1, d.dpc.drawn);
    var t := With(s, p, c, q, d);
    assert t.sessions[p] == c && t.sessions[q] == d;
    EachWaits(t, p, q);
  }

  /** Each call locks its own foremost grant, then waits for the other's. */
  lemma RivalsBlock(s: State, p: Pid, q: Pid, a: AccId, x: nat, y: nat, g: GrantId, h: GrantId)
    returns (acts: seq<Action>, t: State)
    requires Quiet(s) && p != q && p !in s.sessions && q !in s.sessions
    requires x <= GrantBalance(s.db.grants, a) && y <= GrantBalance(s.db.grants, a)
    requires TiedShort(s.db.grants, a, x, y, g, h)
    ensures Theirs(acts, p, q) && Leads(With(s, p, Ask(a, x), q, Ask(a, y)), acts, t) && Stuck(t, p, q)
  {
    hide Leads, GrantBalance, Remainings, Inv, Stuck, ValidPick, Locking;
    var ids0 := ListWithHeads(s.db, a, x, g, h);
    var ids1 := ListWithHeads(s.db, a, y, h, g);
    ListsExist(s.db, a, x, ids0);
    ListsExist(s.db, a, y, ids1);
    var read0, read1 := Remainings(s.db.grants, ids0), Remainings(s.db.grants, ids1);
    BothList(s, p, q, a, x, y, ids0, ids1);
    BothLock(s, p, q, a, x, y, ids0, ids1, read0, read1);
    BothStuck(s, p, q, a, x, y, ids0, ids1, read0, read1);
    var s0 := With(s, p, Ask(a, x), q, Ask(a, y));
    var s2 := With(s, p, Listing(a, x, ids0, read0), q, Listing(a, y, ids1, read1));
    t := With(s, p, Locking(s.db.grants, a, x, ids0, read0), q, Locking(s.db.grants, a, y, ids1, read1));
    LeadsThrough(s0, [Run(p, ids0), Run(q, ids1)], s2, [Run(p, []), Run(q, [])], t);
    acts := [Run(p, ids0), Run(q, ids1)] + [Run(p, []), Run(q, [])];
  }

  lemma ListsExist(db: Db, a: AccId, x: int, ids: seq<GrantId>)
    requires ValidPick(db, Ask(a, x), ids)
    ensures forall i | 0 <= i < |ids| :: ids[i] in db.grants
  {
  }

  /** On a quiet table the two calls' locks are the only ones. */
  lemma OnlyLocks(s: State, p: Pid, c: Session, q: Pid, d: Session)
    requires (forall r | r in s.sessions :: s.sessions[r].Done?) && p != q && p !in s.sessions && q !in s.sessions
    ensures OthersLocks(With(s, p, c, q, d), p) == Locks(d) && OthersLocks(With(s, p, c, q, d), q) == Locks(c)
  {
    var t := With(s, p, c, q, d);
    assert t.sessions[p] == c && t.sessions[q] == d;
    forall r | r in t.sessions && r != p && r != q ensures Locks(t.sessions[r]) == {} {
      assert t.sessions[r] == s.sessions[r];
    }
    forall l | l in Locks(d) ensures l in OthersLocks(t, p) {
    }
    forall l | l in Locks(c) ensures l in OthersLocks(t, q) {
    }
  }

  // Only if

  /** A drawdown still under way on the list that its query returned from this table. */
  ghost predicate Asking(db: Db, a: AccId, x: int, ses: Session) {
    ses.DrawdownCall? && ses.account == a && ses.amount == x
    && (match ses.dpc
        case DStart => true
        case DLock(ids, read, _, _) => ValidPick(db, Ask(a, x), ids) && read == Remainings(db.grants, ids))
  }

  /** Both calls under way, nothing committed, nobody else. */
  ghost predicate Paired(db: Db, t: State, p: Pid, a: AccId, x: int, q: Pid, b: AccId, y: int) {
    && Inv(t) && t.db == db && p in t.sessions && q in t.sessions
    && Asking(db, a, x, t.sessions[p]) && Asking(db, b, y, t.sessions[q])
    && forall r | r in t.sessions && r != p && r != q :: t.sessions[r].Done?
  }

  lemma AskingGoesOn(db: Db, held: set<Lock>, a: AccId, x: int, ses: Session, pick: seq<GrantId>)
    requires Asking(db, a, x, ses) && ValidPick(db, ses, pick) && Advance(db, held, ses, pick).Go?
    ensures
      var next := Advance(db, held, ses, pick).next;
      next.Done? || Asking(db, a, x, next)
  {
    hide Sum, TakeRow;
  }

  lemma PairGoesOn(db: Db, t: State, act: Action, p: Pid, a: AccId, x: int, q: Pid, b: AccId, y: int)
    requires Paired(db, t, p, a, x, q, b, y) && p != q && CanStep(t, act)
    requires (act.Run? || act.Abort?) && (act.p == p || act.p == q)
    ensures
      var t' := Step(t, act);
      && p in t'.sessions && q in t'.sessions
      && (t'.sessions[p].Done? || t'.sessions[q].Done? || Paired(db, t', p, a, x, q, b, y))
  {
    StepKeepsInv(t, act);
    hide Inv, Advance, Asking, Merge;
    if act.Run? && Advance(t.db, OthersLocks(t, act.p), t.sessions[act.p], act.pick).Go? {
      if act.p == p {
        AskingGoesOn(db, OthersLocks(t, p), a, x, t.sessions[p], act.pick);
      } else {
        AskingGoesOn(db, OthersLocks(t, q), b, y, t.sessions[q], act.pick);
      }
    }
  }

  lemma {:induction false} DoneStaysDone(s: State, acts: seq<Action>, t: State, r: Pid)
    requires Leads(s, acts, t) && r in s.sessions && s.sessions[r].Done?
    requires forall i | 0 <= i < |acts| :: acts[i].Run? || acts[i].Abort?
    ensures r in t.sessions && t.sessions[r].Done?
    decreases |acts|
  {
    if acts != [] {
      var s' := Step(s, acts[0]);
      assert r in s'.sessions && s'.sessions[r].Done? by {
        hide Advance, Merge, ValidPick;
      }
      hide Step, CanStep;
      DoneStaysDone(s', acts[1..], t, r);
    }
  }

  /** As long as neither call has ended, both are still on the lists of one table. */
  lemma {:induction false} StillPaired(
    db: Db, s: State, acts: seq<Action>, t: State, p: Pid, a: AccId, x: int, q: Pid, b: AccId, y: int)
    requires Paired(db, s, p, a, x, q, b, y) && p != q && Theirs(acts, p, q) && Leads(s, acts, t)
    requires Unfinished(t, p) && Unfinished(t, q)
    ensures Paired(db, t, p, a, x, q, b, y)
    decreases |acts|
  {
    hide Step, CanStep, Paired;
    if acts != [] {
      var s', rest := Step(s, acts[0]), acts[1..];
      assert forall i | 0 <= i < |rest| :: rest[i] == acts[i + 1];
      PairGoesOn(db, s, acts[0], p, a, x, q, b, y);
      if s'.sessions[p].Done? {
        DoneStaysDone(s', rest, t, p);
      } else if s'.sessions[q].Done? {
        DoneStaysDone(s', rest, t, q);
      } else {
        StillPaired(db, s', rest, t, p, a, x, q, b, y);
      }
    }
  }

  /** A stuck call has listed its grants and waits for one that the other holds. */
  lemma StuckWaits(db: Db, t: State, p: Pid, a: AccId, x: int, q: Pid, b: AccId, y: int)
    requires Paired(db, t, p, a, x, q, b, y) && p != q && Stuck(t, p, q)
    ensures WaitsFor(t, p, q) && t.sessions[q].dpc.DLock? && t.sessions[q].dpc.k > 0
  {
    hide Inv, Sum, TakeRow, Stuck, Listed;
    var tie := (g: GrantId) => g as int;
    var pick := PickExists(db, tie, t.sessions[p]);
    NotRunning(t, p, q, p, pick);
    NotRunning(t, p, q, p, []);
    assert t.sessions[p].dpc.DLock?;
    OnlyHolder(t, p, q);
  }

  lemma NotRunning(t: State, p: Pid, q: Pid, r: Pid, pick: seq<GrantId>)
    requires Stuck(t, p, q)
    ensures !CanStep(t, Run(r, pick))
  {
  }

  lemma OnlyHolder(t: State, p: Pid, q: Pid)
    requires p in t.sessions && q in t.sessions && p != q
    requires forall r | r in t.sessions && r != p && r != q :: t.sessions[r].Done?
    ensures OthersLocks(t, p) == Locks(t.sessions[q])
  {
    forall r | r in t.sessions && r != p && r != q ensures Locks(t.sessions[r]) == {} {
    }
    forall l | l in Locks(t.sessions[q]) ensures l in OthersLocks(t, p) {
    }
  }

  /** A call that has locked grants and still wants more has found its first one
      foremost and too small, and its query's total sufficient. */
  lemma FirstIsShort(db: Db, a: AccId, x: int, ses: Session)
    requires SessionOk(db, ses) && Asking(db, a, x, ses) && ses.dpc.DLock? && GrantsLive(db.grants)
    requires ses.dpc.k > 0 && ses.dpc.drawn.left > 0
    ensures
      var ids := ses.dpc.ids;
      && ids != [] && Foremost(db.grants, a, ids[0]) && db.grants[ids[0]].remaining < x
      && GrantLock(ids[0]) in Locks(ses) && x <= GrantBalance(db.grants, a)
  {
    hide GrantBalance, Sum, Drain, LiveRows, Waterfall;
    var DLock(ids, read, k, drawn) := ses.dpc;
    QuerySumIsBalance(db, a, x, ids);
    var taken := ids[..k];
    AllLive(db.grants, taken);
    LeftOfDrain(db.grants, LiveRows(db.grants, taken), x);
    WaterfallSnoc(Amounts(LiveRows(db.grants, taken)), 0, x);
    FirstOfSum(Remainings(db.grants, taken));
    assert taken[0] == ids[0] && GrantLock(taken[0]) in GrantLocks(taken);
    forall h | h in db.grants && db.grants[h].account == a && db.grants[h].status == Active
      ensures Precedes(db.grants[ids[0]], db.grants[h])
    {
      var j :| 0 <= j < |ids| && ids[j] == h;
    }
  }

  lemma FirstOfSum(s: seq<nat>)
    requires s != []
    ensures s[0] <= Sum(s)
  {
  }

  lemma StuckAreRivals(db: Db, t: State, p: Pid, a: AccId, x: int, q: Pid, b: AccId, y: int)
    requires Paired(db, t, p, a, x, q, b, y) && p != q && Stuck(t, p, q)
    ensures Rivals(db.grants, a, x, b, y)
  {
    StuckWaits(db, t, p, a, x, q, b, y);
    assert Stuck(t, q, p);
    StuckWaits(db, t, q, b, y, p, a, x);
    ReachableIsAudited(t.log, db);
    FirstIsShort(db, a, x, t.sessions[p]);
    FirstIsShort(db, b, y, t.sessions[q]);
    HeldIsListed(t.sessions[q], t.sessions[p].dpc.ids[t.sessions[p].dpc.k]);
    var g, h := t.sessions[p].dpc.ids[0], t.sessions[q].dpc.ids[0];
    assert GrantLock(g) in Locks(t.sessions[p]) && GrantLock(h) in Locks(t.sessions[q]);
    assert TiedShort(db.grants, a, x, y, g, h);
  }

  lemma HeldIsListed(ses: Session, g: GrantId)
    requires ses.DrawdownCall? && GrantLock(g) in Locks(ses)
    ensures ses.dpc.DLock? && g in ses.dpc.ids
  {
    var pc := ses.dpc;
    var held := if pc.k <= |pc.ids| then pc.ids[..pc.k] else pc.ids;
    var i :| 0 <= i < |held| && GrantLock(held[i]) == GrantLock(g);
    assert held[i] == pc.ids[i];
  }

  /** The exact condition, for all tables, accounts and amounts. */
  lemma DrawdownsBlockExactly(s: State, p: Pid, a: AccId, x: int, q: Pid, b: AccId, y: int)
    requires Quiet(s) && p != q && p !in s.sessions && q !in s.sessions
    ensures CanBlock(s, p, Ask(a, x), q, Ask(b, y)) <==> Rivals(s.db.grants, a, x, b, y)
  {
    if Rivals(s.db.grants, a, x, b, y) {
      var g, h :| TiedShort(s.db.grants, a, x, y, g, h);
      var acts, t := RivalsBlock(s, p, q, a, x, y, g, h);
    }
    if CanBlock(s, p, Ask(a, x), q, Ask(b, y)) {
      var acts, t :| Theirs(acts, p, q) && Leads(With(s, p, Ask(a, x), q, Ask(b, y)), acts, t) && Stuck(t, p, q);
      StartsPaired(s, p, a, x, q, b, y);
      StillPaired(s.db, With(s, p, Ask(a, x), q, Ask(b, y)), acts, t, p, a, x, q, b, y);
      StuckAreRivals(s.db, t, p, a, x, q, b, y);
    }
  }

  lemma StartsPaired(s: State, p: Pid, a: AccId, x: int, q: Pid, b: AccId, y: int)
    requires Quiet(s) && p != q && p !in s.sessions && q !in s.sessions
    ensures Paired(s.db, With(s, p, Ask(a, x), q, Ask(b, y)), p, a, x, q, b, y)
  {
    BeginKeepsInv(s, p, Ask(a, x));
    BeginKeepsInv(Step(s, Begin(p, Ask(a, x))), q, Ask(b, y));
  }
}
