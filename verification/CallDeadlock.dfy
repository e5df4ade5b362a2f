/** When calls of any kind can deadlock: from a table with no call under way, any number
    of transfers, debits and drawdowns can block each other exactly if two active grants
    of one account tie, however far down the list they stand. */
module CallDeadlock {
  import opened WaterfallSpec
  import opened Database
  import opened Totals
  import opened Serial
  import opened GrantLife
  import opened History
  import opened Sessions
  import opened SessionSafety
  import opened Paths
  import opened LockOrder
  import opened Deadlock
  import opened PostgresTables
  import opened DrawDeadlock

  // Any number of calls of any kind

  /** Transfers, debits and drawdowns arrive and run as they like, next to deposits,
      withdrawals and sign-ups; no grant is issued and no sweep runs. */
  predicate NoNewGrants(acts: seq<Action>) {
    forall i | 0 <= i < |acts| :: Admitted(acts[i])
  }

  predicate Admitted(act: Action) {
    match act
    case Begin(_, call) => !call.ExpireCall?
    case Auto(op) => !op.Issue?
    case _ => true
  }

  ghost predicate Blocked(t: State) {
    (exists p :: Unfinished(t, p)) && forall r, pick :: !CanStep(t, Run(r, pick))
  }

  ghost predicate CanDeadlock(s: State) {
    exists acts, t :: NoNewGrants(acts) && Leads(s, acts, t) && Blocked(t)
  }

  /** Nothing ties, nothing listed so far tied, and no sweep is under way. */
  ghost predicate Untied(s: State, tie: GrantId -> int) {
    Inv(s) && NoSweep(s) && AllTied(s, tie) && NoTies(s.db.grants)
  }

  lemma TiesDoNotAppear(db: Db, db': Db)
    requires NoTies(db.grants) && Grows(db, db') && db'.grants.Keys <= db.grants.Keys
    ensures NoTies(db'.grants)
  {
    forall g | g in db'.grants ensures GrantAges(db.grants[g], db'.grants[g]) {
      assert g in db.grants;
    }
  }

  lemma StepAddsNoGrant(s: State, act: Action)
    requires Inv(s) && CanStep(s, act) && Admitted(act)
    ensures Step(s, act).db.grants.Keys == s.db.grants.Keys
  {
    if act.Run? {
      ReachableIsAudited(s.log, s.db);
      hide SessionOk, Exclusive, Merge, CommitsAs, Replay;
      var r := Advance(s.db, OthersLocks(s, act.p), s.sessions[act.p], act.pick);
      if r.Commit? {
        CommitIsSerial(s.db, OthersLocks(s, act.p), s.sessions[act.p], act.pick);
        OnlyCallsCommit(s.db, OthersLocks(s, act.p), s.sessions[act.p], act.pick);
        CommitAddsNoGrant(s.db, s.sessions[act.p], r.writes, r.op);
      }
    }
  }

  lemma OnlyCallsCommit(db: Db, held: set<Lock>, ses: Session, pick: seq<GrantId>)
    requires ValidPick(db, ses, pick) && Advance(db, held, ses, pick).Commit?
    ensures
      var op := Advance(db, held, ses, pick).op;
      op.Transfer? || op.Drawdown? || op.WaterfallDebit? || op.Expire?
  {
    hide Sum, Amounts, Drain, TakeRow, Remainings;
  }

  lemma StaysUntied(s: State, tie: GrantId -> int, act: Action)
    requires Untied(s, tie) && CanStep(s, act) && Admitted(act)
    ensures Untied(Step(s, act), tie)
  {
    StepKeepsInv(s, act);
    StepGrows(s, act);
    StepAddsNoGrant(s, act);
    TiesDoNotAppear(s.db, Step(s, act).db);
    if act.Run? {
      UntiedPick(s.db, s.sessions[act.p], act.pick, tie);
    }
    TiesTaken(s, tie, act);
    hide Inv, NoTies, AllTied, Grows;
    TiedAfter(s, Step(s, act), tie);
    StaysSweepless(s, act);
  }

  lemma StaysSweepless(s: State, act: Action)
    requires NoSweep(s) && CanStep(s, act) && Admitted(act)
    ensures NoSweep(Step(s, act))
  {
    hide Apply, Merge, Sum, Amounts, Drain, TakeRow;
  }

  lemma {:induction false} UntiedToEnd(s: State, acts: seq<Action>, t: State, tie: GrantId -> int)
    requires Untied(s, tie) && NoNewGrants(acts) && Leads(s, acts, t)
    ensures Untied(t, tie)
    decreases |acts|
  {
    hide Untied, Step, CanStep, Admitted;
    if acts != [] {
      StaysUntied(s, tie, acts[0]);
      UntiedToEnd(Step(s, acts[0]), acts[1..], t, tie);
    }
  }

  lemma UntiedIsFree(t: State, tie: GrantId -> int)
    requires Untied(t, tie) && OneToOne(tie)
    ensures !Blocked(t)
  {
    hide Inv, AllTied, NoTies, CanStep;
    if p :| Unfinished(t, p) {
      var runner := SomeCallCanRun(t, tie, p);
    }
  }

  // A tie further down the list comes to the front

  lemma {:induction false} SomeFreePid(used: set<Pid>) returns (p: Pid)
    ensures p !in used && forall q | q in used :: q < p
    decreases |used|
  {
    if q :| q in used {
      var free := SomeFreePid(used - {q});
      p := if free <= q then q + 1 else free;
      forall r | r in used ensures r < p {
        assert r != q ==> r in used - {q};
      }
    } else {
      p := 0;
    }
  }

  lemma HoldsAtMostAll(grants: map<GrantId, Grant>, a: AccId, g: GrantId)
    requires g in grants && grants[g].account == a && grants[g].status == Active
    ensures grants[g].remaining <= GrantBalance(grants, a)
  {
    var held := Holdings(grants, a);
    TotalRemove(held, g);
    TotalNonNegative(held - {g});
  }

  lemma TwoHoldMore(grants: map<GrantId, Grant>, a: AccId, g: GrantId, h: GrantId)
    requires g in grants && grants[g].account == a && grants[g].status == Active && GrantsLive(grants)
    requires h in grants && grants[h].account == a && grants[h].status == Active && g != h
    ensures grants[g].remaining < GrantBalance(grants, a) && grants[h].remaining < GrantBalance(grants, a)
  {
    var held := Holdings(grants, a);
    TotalRemove(held, g);
    TotalRemove(held - {g}, h);
    TotalNonNegative(held - {g} - {h});
  }

  function Emptied(db: Db, e: GrantId): Db
    requires e in db.grants
  {
    db.(grants := db.grants[e := db.grants[e].(remaining := 0, status := Depleted)],
        grantEntries := db.grantEntries + [GrantEntry(e, db.grants[e].remaining, 0)])
  }

  function Taken(db: Db, a: AccId, ids: seq<GrantId>, e: GrantId): Session
    requires e in db.grants && forall i | 0 <= i < |ids| :: ids[i] in db.grants
  {
    var row := db.grants[e];
    DrawdownCall(a, row.remaining, DLock(ids, Remainings(db.grants, ids), 1,
      Drawn(map[e := row.(remaining := 0, status := Depleted)], [GrantEntry(e, row.remaining, 0)], 0)))
  }

  lemma TakesAll(s: State, p: Pid, a: AccId, ids: seq<GrantId>, e: GrantId)
    requires forall i | 0 <= i < |ids| :: ids[i] in s.db.grants
    requires ids != [] && ids[0] == e && e in s.db.grants && s.db.grants[e].status == Active
    requires s.db.grants[e].remaining > 0 && p in s.sessions && OthersLocks(s, p) == {}
    requires s.sessions[p] == Listing(a, s.db.grants[e].remaining, ids, Remainings(s.db.grants, ids))
    ensures CanStep(s, Run(p, []))
    ensures Step(s, Run(p, [])) == s.(sessions := s.sessions[p := Taken(s.db, a, ids, e)])
  {
    var r := s.db.grants[e].remaining;
    var d := TakeRow(s.db.grants, Drawn(map[], [], r), Row(e, r));
    assert d.rows == Taken(s.db, a, ids, e).dpc.drawn.rows && d.entries == Taken(s.db, a, ids, e).dpc.drawn.entries;
  }

  lemma CommitsAll(s: State, p: Pid, a: AccId, ids: seq<GrantId>, e: GrantId)
    requires forall i | 0 <= i < |ids| :: ids[i] in s.db.grants
    requires ids != [] && ids[0] == e && e in s.db.grants && s.db.grants[e].remaining > 0
    requires p in s.sessions && s.sessions[p] == Taken(s.db, a, ids, e)
    ensures CanStep(s, Run(p, []))
    ensures
      var t := Step(s, Run(p, []));
      t.db == Emptied(s.db, e) && t.sessions == s.sessions[p := Done(Completed)]
  {
    var drawn := s.sessions[p].dpc.drawn;
    var after := Merge(s.db, Writes(map[], [], map[], drawn.rows, drawn.entries));
    assert after.accounts == s.db.accounts && after.grants == Emptied(s.db, e).grants;
    assert after.txns == s.db.txns && after.entries == s.db.entries;
  }

  /** One drawdown of exactly what the foremost grant holds empties it and leaves the
      rest of the tables alone. */
  lemma FrontIsEmptied(s: State, a: AccId, ids: seq<GrantId>) returns (acts: seq<Action>, t: State)
    requires Quiet(s) && ids != [] && ValidPick(s.db, Ask(a, 0), ids)
    ensures Quiet(t) && NoNewGrants(acts) && Leads(s, acts, t)
    ensures ids[0] in s.db.grants && t.db == Emptied(s.db, ids[0])
  {
    hide CanStep, Step, Leads, Inv, Listing, Emptied, ValidPick, Ask;
    AuditedHead(s, a, ids);
    var p := SomeFreePid(s.sessions.Keys);
    var r := s.db.grants[ids[0]].remaining;
    var s2 := s.(sessions := s.sessions[p := Listing(a, r, ids, Remainings(s.db.grants, ids))]);
    OneLists(s, p, a, ids);
    t := OneTakes(s, p, a, ids);
    LeadsThrough(s, [Begin(p, Ask(a, r)), Run(p, ids)], s2, [Run(p, []), Run(p, [])], t);
    acts := [Begin(p, Ask(a, r)), Run(p, ids)] + [Run(p, []), Run(p, [])];
    LeadsKeepsInv(s, acts, t);
    AskIsAdmitted(p, a, r);
  }

  lemma AskIsAdmitted(p: Pid, a: AccId, x: int)
    ensures Admitted(Begin(p, Ask(a, x)))
  {
  }

  lemma AuditedHead(s: State, a: AccId, ids: seq<GrantId>)
    requires Inv(s) && ids != [] && ValidPick(s.db, Ask(a, 0), ids)
    ensures forall i | 0 <= i < |ids| :: ids[i] in s.db.grants
    ensures s.db.grants[ids[0]].account == a && s.db.grants[ids[0]].status == Active
    ensures 0 < s.db.grants[ids[0]].remaining <= GrantBalance(s.db.grants, a)
  {
    ReachableIsAudited(s.log, s.db);
    HoldsAtMostAll(s.db.grants, a, ids[0]);
  }

  lemma OneLists(s: State, p: Pid, a: AccId, ids: seq<GrantId>)
    requires Inv(s) && p !in s.sessions && ids != [] && ValidPick(s.db, Ask(a, 0), ids)
    requires forall i | 0 <= i < |ids| :: ids[i] in s.db.grants
    ensures
      var r := s.db.grants[ids[0]].remaining;
      Leads(s, [Begin(p, Ask(a, r)), Run(p, ids)],
            s.(sessions := s.sessions[p := Listing(a, r, ids, Remainings(s.db.grants, ids))]))
  {
    AuditedHead(s, a, ids);
    hide CanStep, Step, Leads, Inv, GrantBalance, Remainings;
    var r := s.db.grants[ids[0]].remaining;
    var next := Listing(a, r, ids, Remainings(s.db.grants, ids));
    var s1 := s.(sessions := s.sessions[p := Ask(a, r)]);
    BeginsCall(s, p, Ask(a, r));
    AskReads(s1, p, a, r, ids);
    Replaces(s, p, Ask(a, r), p + 1, next, next);
    LeadsTwice(s, Begin(p, Ask(a, r)), s1, Run(p, ids), s.(sessions := s.sessions[p := next]));
  }

  lemma OneTakes(s: State, p: Pid, a: AccId, ids: seq<GrantId>) returns (t: State)
    requires Quiet(s) && p !in s.sessions && ids != [] && ValidPick(s.db, Ask(a, 0), ids)
    requires forall i | 0 <= i < |ids| :: ids[i] in s.db.grants
    ensures
      var r := s.db.grants[ids[0]].remaining;
      Leads(s.(sessions := s.sessions[p := Listing(a, r, ids, Remainings(s.db.grants, ids))]),
            [Run(p, []), Run(p, [])], t)
    ensures t.db == Emptied(s.db, ids[0]) && t.sessions == s.sessions[p := Done(Completed)]
  {
    AuditedHead(s, a, ids);
    hide CanStep, Step, Leads, Inv, GrantBalance, Remainings, Locks, Emptied, Taken, ValidPick, Listing;
    var e := ids[0];
    var listing := Listing(a, s.db.grants[e].remaining, ids, Remainings(s.db.grants, ids));
    var taken := Taken(s.db, a, ids, e);
    var s2, s3 := s.(sessions := s.sessions[p := listing]), s.(sessions := s.sessions[p := taken]);
    NobodyHolds(s, p, listing);
    TakesAll(s2, p, a, ids, e);
    Replaces(s, p, listing, p + 1, listing, taken);
    CommitsAll(s3, p, a, ids, e);
    t := Step(s3, Run(p, []));
    Replaces(s, p, taken, p + 1, taken, Done(Completed));
    LeadsTwice(s2, Run(p, []), s3, Run(p, []), t);
  }

  lemma BeginsCall(s: State, p: Pid, call: Session)
    requires p !in s.sessions && Fresh(call)
    ensures CanStep(s, Begin(p, call)) && Step(s, Begin(p, call)) == s.(sessions := s.sessions[p := call])
  {
  }

  lemma NobodyHolds(s: State, p: Pid, c: Session)
    requires forall r | r in s.sessions :: s.sessions[r].Done?
    ensures OthersLocks(s.(sessions := s.sessions[p := c]), p) == {}
  {
    var t := s.(sessions := s.sessions[p := c]);
    forall r | r in t.sessions && r != p ensures Locks(t.sessions[r]) == {} {
      assert t.sessions[r] == s.sessions[r];
    }
  }

  ghost function ActiveOf(grants: map<GrantId, Grant>, a: AccId): set<GrantId> {
    set g | g in grants && grants[g].account == a && grants[g].status == Active
  }

  ghost predicate TiedPair(grants: map<GrantId, Grant>, a: AccId, g: GrantId, h: GrantId) {
    && g != h && g in ActiveOf(grants, a) && h in ActiveOf(grants, a)
    && grants[g].priority == grants[h].priority && grants[g].expiresAt == grants[h].expiresAt
  }

  lemma HeadIsForemost(db: Db, a: AccId, x: int, ids: seq<GrantId>)
    requires ValidPick(db, Ask(a, x), ids) && ids != []
    ensures Foremost(db.grants, a, ids[0])
  {
    forall h | h in db.grants && db.grants[h].account == a && db.grants[h].status == Active
      ensures Precedes(db.grants[ids[0]], db.grants[h])
    {
      var j :| 0 <= j < |ids| && ids[j] == h;
    }
  }

  lemma EmptyingKeepsPair(db: Db, a: AccId, e: GrantId, g: GrantId, h: GrantId)
    requires TiedPair(db.grants, a, g, h) && e in ActiveOf(db.grants, a) && e != g && e != h
    ensures TiedPair(Emptied(db, e).grants, a, g, h)
    ensures ActiveOf(Emptied(db, e).grants, a) == ActiveOf(db.grants, a) - {e}
  {
  }

  /** Wherever two active grants tie, drawdowns can empty what comes before them, and
      then two more block each other. */
  lemma {:induction false} TiesBlock(s: State, a: AccId, g: GrantId, h: GrantId)
    returns (acts: seq<Action>, t: State)
    requires Quiet(s) && TiedPair(s.db.grants, a, g, h)
    ensures NoNewGrants(acts) && Leads(s, acts, t) && Blocked(t)
    decreases |ActiveOf(s.db.grants, a)|
  {
    hide Inv, Leads, GrantBalance, Emptied;
    var tie := (i: GrantId) => i as int;
    var ids := PickExists(s.db, tie, Ask(a, 0));
    assert g in ids && h in ids;
    HeadIsForemost(s.db, a, 0, ids);
    if Foremost(s.db.grants, a, g) {
      acts, t := TiedFrontBlocks(s, a, g, h);
    } else {
      NotHead(s.db.grants, a, g, h, ids[0]);
      var first, s' := FrontIsEmptied(s, a, ids);
      EmptyingKeepsPair(s.db, a, ids[0], g, h);
      var rest;
      rest, t := TiesBlock(s', a, g, h);
      LeadsThrough(s, first, s', rest, t);
      acts := first + rest;
    }
  }

  lemma NotHead(grants: map<GrantId, Grant>, a: AccId, g: GrantId, h: GrantId, e: GrantId)
    requires TiedPair(grants, a, g, h) && Foremost(grants, a, e) && !Foremost(grants, a, g)
    ensures e != g && e != h && e in ActiveOf(grants, a)
  {
  }

  lemma TiedFrontBlocks(s: State, a: AccId, g: GrantId, h: GrantId) returns (acts: seq<Action>, t: State)
    requires Quiet(s) && TiedPair(s.db.grants, a, g, h) && Foremost(s.db.grants, a, g)
    ensures NoNewGrants(acts) && Leads(s, acts, t) && Blocked(t)
  {
    ReachableIsAudited(s.log, s.db);
    hide CanStep, Step, Leads, Inv, GrantBalance;
    TwoHoldMore(s.db.grants, a, g, h);
    var x: nat := GrantBalance(s.db.grants, a);
    var p := SomeFreePid(s.sessions.Keys);
    var q := SomeFreePid(s.sessions.Keys + {p});
    assert TiedShort(s.db.grants, a, x, x, g, h);
    var before := TwoAsk(s, p, q, a, x);
    var after;
    after, t := RivalsBlock(s, p, q, a, x, x, g, h);
    LeadsThrough(s, before, With(s, p, Ask(a, x), q, Ask(a, x)), after, t);
    acts := before + after;
    assert Blocked(t) by {
      hide Unfinished;
    }
  }

  lemma TwoAsk(s: State, p: Pid, q: Pid, a: AccId, x: int) returns (acts: seq<Action>)
    requires p != q && p !in s.sessions && q !in s.sessions
    ensures NoNewGrants(acts) && Leads(s, acts, With(s, p, Ask(a, x), q, Ask(a, x)))
  {
    hide CanStep, Step, Leads;
    var s1 := s.(sessions := s.sessions[p := Ask(a, x)]);
    acts := [Begin(p, Ask(a, x)), Begin(q, Ask(a, x))];
    BeginsCall(s, p, Ask(a, x));
    BeginsCall(s1, q, Ask(a, x));
    LeadsTwice(s, acts[0], s1, acts[1], With(s, p, Ask(a, x), q, Ask(a, x)));
  }

  /** Deadlock freedom and its exact condition: from any table with no call under way,
      transfers, debits and drawdowns can reach a deadlock if and only if two active
      grants of one account tie. */
  lemma DeadlockExactly(s: State)
    requires Quiet(s)
    ensures CanDeadlock(s) <==> !NoTies(s.db.grants)
  {
    var tie := (i: GrantId) => i as int;
    if !NoTies(s.db.grants) {
      var g, h :| g in s.db.grants && h in s.db.grants && g != h
        && s.db.grants[g].account == s.db.grants[h].account
        && s.db.grants[g].status == Active && s.db.grants[h].status == Active
        && s.db.grants[g].priority == s.db.grants[h].priority && s.db.grants[g].expiresAt == s.db.grants[h].expiresAt;
      var acts, t := TiesBlock(s, s.db.grants[g].account, g, h);
    } else if CanDeadlock(s) {
      var acts, t :| NoNewGrants(acts) && Leads(s, acts, t) && Blocked(t);
      assert Untied(s, tie);
      hide Leads, Blocked, Untied;
      UntiedToEnd(s, acts, t, tie);
      UntiedIsFree(t, tie);
    }
  }
}
