/** When a Drawdown can complete with less than its amount, and how little it can take: on
    any table with no call under way, for any number of Drawdowns called at once. It can
    fall short exactly if those that pass their test ask together for more than the
    account's grants hold, and then by at most that excess. */
module DrawShortfall {
  import opened Common
  import opened WaterfallSpec
  import opened Totals
  import opened Database
  import opened Sessions
  import opened SessionSafety
  import opened Paths
  import opened LockOrder
  import opened Deadlock
  import opened DrawGuarantees
  import opened PostgresTables
  import opened GrantBalances
  import opened DrawDeadlock
  import opened DrawDemand

  // The question

  predicate AllAsk(calls: map<Pid, Session>) {
    forall p | p in calls :: calls[p].DrawdownCall? && calls[p].dpc.DStart?
  }

  function Arrived(s: State, calls: map<Pid, Session>): State {
    s.(sessions := s.sessions + calls)
  }

  /** Steps and rollbacks of the calls that are there. */
  predicate NoArrivals(acts: seq<Action>) {
    forall i | 0 <= i < |acts| :: acts[i].Run? || acts[i].Abort?
  }

  /** Some run of these calls completes this one with that much taken. */
  ghost predicate CanTake(s: State, p: Pid, taken: int) {
    exists acts, t :: NoArrivals(acts) && Leads(s, acts, t) && Completes(t, p) && Taken(t, p) == taken
  }

  ghost predicate CanFallShort(s: State, p: Pid)
    requires p in s.sessions && s.sessions[p].DrawdownCall?
  {
    exists taken :: taken < s.sessions[p].amount && CanTake(s, p, taken)
  }

  // The answer

  /** The amounts of those calls on the account that pass their test on this table. */
  ghost function Passing(grants: map<GrantId, Grant>, calls: map<Pid, Session>, a: AccId): map<Pid, int> {
    map p | p in calls && calls[p].DrawdownCall? && calls[p].account == a
            && 0 < calls[p].amount <= GrantBalance(grants, a) :: calls[p].amount
  }

  /** What the calls that pass ask for beyond what the account's grants hold. */
  ghost function Excess(grants: map<GrantId, Grant>, calls: map<Pid, Session>, a: AccId): nat {
    Floor(Total(Passing(grants, calls, a)) - GrantBalance(grants, a))
  }

  // Only if

  lemma ArrivalsKeepInv(s: State, calls: map<Pid, Session>)
    requires Quiet(s) && AllAsk(calls)
    ensures Inv(Arrived(s, calls)) && NoSweep(Arrived(s, calls))
  {
    var t := Arrived(s, calls);
    forall p | p in t.sessions ensures SessionOk(t.db, t.sessions[p]) && Locks(t.sessions[p]) == {} {
      assert t.sessions[p] == if p in calls then calls[p] else s.sessions[p];
    }
  }

  lemma StartsOverBy(s: State, calls: map<Pid, Session>, a: AccId)
    requires Quiet(s) && AllAsk(calls)
    ensures OverBy(Arrived(s, calls), a, Excess(s.db.grants, calls, a))
  {
    hide GrantBalance, Inv;
    ArrivalsKeepInv(s, calls);
    var t := Arrived(s, calls);
    forall p | p in t.sessions
      ensures ListsAll(t.db.grants, a, t.sessions[p])
      ensures
        var passing := Passing(s.db.grants, calls, a);
        Demand(t.db.grants, a, t.sessions[p]) == if p in passing then passing[p] else 0
    {
      assert t.sessions[p] == if p in calls then calls[p] else s.sessions[p];
    }
    TotalWithoutZeros(Demands(t, a), Passing(s.db.grants, calls, a));
  }

  lemma {:induction false} NoArrivalsAffordable(s: State, acts: seq<Action>, t: State, a: AccId, excess: nat)
    requires NoArrivals(acts) && Leads(s, acts, t)
    ensures AllAffordable(s, acts, a, excess)
    decreases |acts|
  {
    hide Step, CanStep;
    if acts != [] {
      NoArrivalsAffordable(Step(s, acts[0]), acts[1..], t, a, excess);
    }
  }

  ghost predicate SameCall(ses: Session, a: AccId, x: int) {
    ses.Done? || (ses.DrawdownCall? && ses.account == a && ses.amount == x)
  }

  lemma StaysSameCall(s: State, act: Action, p: Pid, a: AccId, x: int)
    requires CanStep(s, act) && (act.Run? || act.Abort?) && p in s.sessions && SameCall(s.sessions[p], a, x)
    ensures p in Step(s, act).sessions && SameCall(Step(s, act).sessions[p], a, x)
  {
    hide Merge, Sum, TakeRow, Remainings, Amounts, Drain;
  }

  lemma {:induction false} SameCallToEnd(s: State, acts: seq<Action>, t: State, p: Pid, a: AccId, x: int)
    requires NoArrivals(acts) && Leads(s, acts, t) && p in s.sessions && SameCall(s.sessions[p], a, x)
    ensures p in t.sessions && SameCall(t.sessions[p], a, x)
    decreases |acts|
  {
    hide Step, CanStep, SameCall;
    if acts != [] {
      StaysSameCall(s, acts[0], p, a, x);
      SameCallToEnd(Step(s, acts[0]), acts[1..], t, p, a, x);
    }
  }

  /** A call that asks for nothing or for more than there is, and has not ended yet. */
  ghost predicate Doomed(s: State, p: Pid, a: AccId, x: int) {
    && Inv(s) && NoSweep(s) && p in s.sessions
    && (s.sessions[p].Done? || (s.sessions[p] == Ask(a, x) && !(0 < x <= GrantBalance(s.db.grants, a))))
  }

  lemma BalanceFalls(s: State, act: Action, a: AccId)
    requires Inv(s) && NoSweep(s) && CanStep(s, act) && (act.Run? || act.Abort?)
    ensures GrantBalance(Step(s, act).db.grants, a) <= GrantBalance(s.db.grants, a) && NoSweep(Step(s, act))
  {
    hide Inv, GrantBalance, Merge, TakeRow, Sum, Amounts, Drain, Remainings, Covers;
    if act.Run? && Advance(s.db, OthersLocks(s, act.p), s.sessions[act.p], act.pick).Commit? {
      CommitSpends(s, a, act.p, act.pick);
    }
  }

  lemma StaysDoomed(s: State, act: Action, p: Pid, a: AccId, x: int)
    requires Doomed(s, p, a, x) && CanStep(s, act) && (act.Run? || act.Abort?)
    ensures Doomed(Step(s, act), p, a, x)
  {
    StepKeepsInv(s, act);
    BalanceFalls(s, act, a);
    hide Inv, GrantBalance, Merge, TakeRow, Remainings, NoSweep;
    if act.Run? && act.p == p {
      QuerySumIsBalance(s.db, a, x, act.pick);
    }
  }

  lemma {:induction false} DoomedToEnd(s: State, acts: seq<Action>, t: State, p: Pid, a: AccId, x: int)
    requires NoArrivals(acts) && Leads(s, acts, t) && Doomed(s, p, a, x)
    ensures Doomed(t, p, a, x)
    decreases |acts|
  {
    hide Step, CanStep, Doomed;
    if acts != [] {
      StaysDoomed(s, acts[0], p, a, x);
      DoomedToEnd(Step(s, acts[0]), acts[1..], t, p, a, x);
    }
  }

  /** No run takes less than all but the excess, and none completes a call that does not
      pass. */
  lemma NoRunTakesLess(s: State, calls: map<Pid, Session>, p: Pid, acts: seq<Action>, t: State)
    requires Quiet(s) && AllAsk(calls) && p in calls
    requires NoArrivals(acts) && Leads(Arrived(s, calls), acts, t) && Completes(t, p)
    ensures
      var a, x := calls[p].account, calls[p].amount;
      p in Passing(s.db.grants, calls, a) && Floor(x - Excess(s.db.grants, calls, a)) <= Taken(t, p) <= x
  {
    hide Inv, GrantBalance, CanStep, Step, Leads, OverBy, Taken, Excess;
    var s0, a, x := Arrived(s, calls), calls[p].account, calls[p].amount;
    ArrivalsKeepInv(s, calls);
    assert s0.sessions[p] == Ask(a, x);
    if 0 < x <= GrantBalance(s.db.grants, a) {
      StartsOverBy(s, calls, a);
      NoArrivalsAffordable(s0, acts, t, a, Excess(s.db.grants, calls, a));
      SameCallToEnd(s0, acts, t, p, a, x);
      RunShortByAtMost(s0, acts, t, a, Excess(s.db.grants, calls, a), p);
    } else {
      DoomedToEnd(s0, acts, t, p, a, x);
      TakenOnCompletion(t, p);
    }
  }

  // If

  lemma {:induction false} AllList(s: State, todo: set<Pid>, a: AccId, ids: seq<GrantId>)
    returns (acts: seq<Action>, t: State)
    requires ValidPick(s.db, Ask(a, 0), ids) && todo <= s.sessions.Keys
    requires forall q | q in todo ::
      var ses := s.sessions[q];
      ses.DrawdownCall? && ses == Ask(a, ses.amount) && 0 < ses.amount <= GrantBalance(s.db.grants, a)
    ensures NoArrivals(acts) && Leads(s, acts, t) && t.db == s.db && t.sessions.Keys == s.sessions.Keys
    ensures forall q | q in s.sessions ::
      t.sessions[q] == if q in todo then Listing(a, s.sessions[q].amount, ids, Remainings(s.db.grants, ids))
                       else s.sessions[q]
    decreases |todo|
  {
    hide CanStep, Step, Leads, GrantBalance, Remainings;
    if q :| q in todo {
      var x := s.sessions[q].amount;
      AskReads(s, q, a, x, ids);
      var s' := s.(sessions := s.sessions[q := Listing(a, x, ids, Remainings(s.db.grants, ids))]);
      var rest;
      rest, t := AllList(s', todo - {q}, a, ids);
      LeadsFrom(s, Run(q, ids), s', rest, t);
      acts := [Run(q, ids)] + rest;
    } else {
      acts, t := [], s;
      LeadsNowhere(s);
    }
  }

  lemma EndCompletes(t: State, p: Pid)
    requires Inv(t) && p in t.sessions && t.sessions[p].DrawdownCall? && t.sessions[p].dpc.DLock?
    requires t.sessions[p].dpc.k >= |t.sessions[p].dpc.ids| || t.sessions[p].dpc.drawn.left == 0
    ensures Completes(t, p)
  {
    assert SessionOk(t.db, t.sessions[p]);
    hide Inv, Fit, LiveRows, Drain, Sum, Listed, TakeRow, Merge;
  }

  lemma TurnGoesOn(t: State, p: Pid)
    requires Inv(t) && p in t.sessions && t.sessions[p].DrawdownCall? && t.sessions[p].dpc.DLock?
    requires t.sessions[p].dpc.k < |t.sessions[p].dpc.ids| && t.sessions[p].dpc.drawn.left > 0
    requires OthersLocks(t, p) == {}
    ensures CanStep(t, Run(p, []))
    ensures
      var t', pc := Step(t, Run(p, [])), t.sessions[p].dpc;
      && p in t'.sessions && t' == t.(sessions := t.sessions[p := t'.sessions[p]])
      && t'.sessions[p].DrawdownCall? && t'.sessions[p].dpc.DLock?
      && t'.sessions[p] == t.sessions[p].(dpc := DLock(pc.ids, pc.read, pc.k + 1, t'.sessions[p].dpc.drawn))
  {
    assert SessionOk(t.db, t.sessions[p]);
    hide Inv, Fit, LiveRows, Drain, Sum, TakeRow, Merge;
  }

  /** Nobody else holds a row, so the loop goes through to its end. */
  lemma {:induction false} LoopsToEnd(t: State, p: Pid) returns (acts: seq<Action>, u: State)
    requires Inv(t) && p in t.sessions && t.sessions[p].DrawdownCall? && t.sessions[p].dpc.DLock?
    requires OthersLocks(t, p) == {}
    ensures NoArrivals(acts) && Leads(t, acts, u) && Inv(u) && Completes(u, p)
    ensures u == t.(sessions := t.sessions[p := u.sessions[p]])
    ensures
      var ses, ses' := t.sessions[p], u.sessions[p];
      ses'.account == ses.account && ses'.amount == ses.amount && ses'.dpc.DLock? && ses'.dpc.ids == ses.dpc.ids
    decreases |t.sessions[p].dpc.ids| - t.sessions[p].dpc.k
  {
    hide Inv, CanStep, Step, Leads, Completes;
    var pc := t.sessions[p].dpc;
    if pc.k >= |pc.ids| || pc.drawn.left == 0 {
      EndCompletes(t, p);
      acts, u := [], t;
      LeadsNowhere(t);
    } else {
      TurnGoesOn(t, p);
      var t' := Step(t, Run(p, []));
      StepKeepsInv(t, Run(p, []));
      SameOthers(t, t', p);
      var rest;
      rest, u := LoopsToEnd(t', p);
      LeadsFrom(t, Run(p, []), t', rest, u);
      acts := [Run(p, [])] + rest;
    }
  }

  lemma SameOthers(t: State, t': State, p: Pid)
    requires p in t.sessions && p in t'.sessions && t'.sessions == t.sessions[p := t'.sessions[p]]
    ensures OthersLocks(t', p) == OthersLocks(t, p)
  {
    forall q | q in t.sessions && q != p ensures t'.sessions[q] == t.sessions[q] {
    }
    forall q | q in t'.sessions && q != p ensures t'.sessions[q] == t.sessions[q] {
    }
  }

  predicate LockFree(t: State) {
    forall q | q in t.sessions :: Locks(t.sessions[q]) == {}
  }

  lemma LockFreeOthers(t: State, p: Pid)
    requires LockFree(t)
    ensures OthersLocks(t, p) == {}
  {
  }

  lemma OneReplaced(t: State, u: State, p: Pid)
    requires NoSweep(t) && p in t.sessions && p in u.sessions && u.sessions == t.sessions[p := u.sessions[p]]
    requires !u.sessions[p].ExpireCall?
    ensures NoSweep(u)
    ensures LockFree(t) && u.sessions[p].Done? ==> LockFree(u)
  {
  }

  /** A Drawdown run to its commit by itself takes its amount, or all there is. */
  lemma OneCompletes(t: State, p: Pid) returns (acts: seq<Action>, u: State)
    requires Inv(t) && NoSweep(t) && LockFree(t)
    requires p in t.sessions && t.sessions[p].DrawdownCall? && t.sessions[p].dpc.DLock?
    requires Covers(t.db.grants, t.sessions[p].account, t.sessions[p].dpc.ids)
    ensures NoArrivals(acts) && Leads(t, acts, u) && Inv(u) && NoSweep(u) && LockFree(u)
    ensures u.sessions == t.sessions[p := Done(Completed)]
    ensures
      var ses := t.sessions[p];
      && Spends(t.db.grants, u.db.grants, ses.account, Floor(ses.amount))
      && GrantBalance(u.db.grants, ses.account)
           == GrantBalance(t.db.grants, ses.account) - Min(ses.amount, GrantBalance(t.db.grants, ses.account))
  {
    hide Inv, CanStep, Step, Leads, GrantBalance, LockFree, NoSweep, Covers, Spends, OthersLocks;
    LockFreeOthers(t, p);
    var v;
    acts, v := LoopsToEnd(t, p);
    OneReplaced(t, v, p);
    u := CompletionStep(v, p);
    OneReplaced(t, u, p);
    LeadsOn(t, acts, v, Run(p, []), u);
    acts := acts + [Run(p, [])];
    OpenMeansEmptied(v, p);
  }

  lemma CompletionStep(v: State, p: Pid) returns (u: State)
    requires Inv(v) && NoSweep(v) && Completes(v, p)
    ensures u == Step(v, Run(p, [])) && Inv(u) && u.sessions == v.sessions[p := Done(Completed)]
    ensures Spends(v.db.grants, u.db.grants, v.sessions[p].account, Floor(v.sessions[p].amount))
  {
    u := Step(v, Run(p, []));
    TakenOnCompletion(v, p);
    StepKeepsInv(v, Run(p, []));
    hide Inv, Merge, GrantBalance, Spends;
    assert Advance(v.db, OthersLocks(v, p), v.sessions[p], []).Commit?;
    CommitSpends(v, v.sessions[p].account, p, []);
  }

  predicate OnList(ses: Session, a: AccId, ids: seq<GrantId>) {
    ses.DrawdownCall? && ses.account == a && ses.amount > 0 && ses.dpc.DLock? && ses.dpc.ids == ids
  }

  /** What these calls ask for. */
  function Asked(t: State, todo: set<Pid>): map<Pid, int> {
    map q | q in todo && q in t.sessions && t.sessions[q].DrawdownCall? :: t.sessions[q].amount
  }

  lemma AskedLess(t: State, u: State, todo: set<Pid>, q: Pid)
    requires q in todo && q in t.sessions && t.sessions[q].DrawdownCall?
    requires u.sessions == t.sessions[q := Done(Completed)]
    requires forall r | r in todo && r in t.sessions && t.sessions[r].DrawdownCall? :: t.sessions[r].amount > 0
    ensures Total(Asked(t, todo)) == t.sessions[q].amount + Total(Asked(u, todo - {q}))
    ensures Total(Asked(u, todo - {q})) >= 0
  {
    TotalRemove(Asked(t, todo), q);
    assert Asked(t, todo) - {q} == Asked(u, todo - {q});
    TotalNonNegative(Asked(u, todo - {q}));
  }

  lemma NothingAsked(t: State, a: AccId, todo: set<Pid>)
    requires forall q :: q !in todo
    ensures Floor(GrantBalance(t.db.grants, a) - Total(Asked(t, todo))) == GrantBalance(t.db.grants, a)
  {
    TotalNonNegative(Holdings(t.db.grants, a));
  }

  /** One after the other, they take all they ask for or all there is. */
  lemma {:induction false} AllComplete(t: State, todo: set<Pid>, a: AccId, ids: seq<GrantId>)
    returns (acts: seq<Action>, u: State)
    requires Inv(t) && NoSweep(t) && LockFree(t) && Covers(t.db.grants, a, ids) && todo <= t.sessions.Keys
    requires forall q | q in todo :: OnList(t.sessions[q], a, ids)
    ensures NoArrivals(acts) && Leads(t, acts, u) && Inv(u) && NoSweep(u) && LockFree(u)
    ensures Covers(u.db.grants, a, ids)
    ensures forall q | q in t.sessions && q !in todo :: q in u.sessions && u.sessions[q] == t.sessions[q]
    ensures GrantBalance(u.db.grants, a) == Floor(GrantBalance(t.db.grants, a) - Total(Asked(t, todo)))
    decreases |todo|
  {
    hide Inv, CanStep, Step, Leads, GrantBalance, LockFree, NoSweep, Asked;
    if q :| q in todo {
      var first, t' := OneCompletes(t, q);
      AskedLess(t, t', todo, q);
      var rest;
      rest, u := AllComplete(t', todo - {q}, a, ids);
      LeadsThrough(t, first, t', rest, u);
      acts := first + rest;
    } else {
      NothingAsked(t, a, todo);
      LeadsNowhere(t);
      acts, u := [], t;
    }
  }

  /** After their queries: everyone on the whole list, nobody holding anything. */
  lemma ListedAreReady(
    s: State, calls: map<Pid, Session>, a: AccId, ids: seq<GrantId>, acts: seq<Action>, t: State)
    requires Quiet(s) && AllAsk(calls) && ValidPick(s.db, Ask(a, 0), ids)
    requires Leads(Arrived(s, calls), acts, t) && t.db == s.db && t.sessions.Keys == Arrived(s, calls).sessions.Keys
    requires forall q | q in t.sessions ::
      t.sessions[q] == if q in Passing(s.db.grants, calls, a) then
                         Listing(a, Arrived(s, calls).sessions[q].amount, ids, Remainings(s.db.grants, ids))
                       else Arrived(s, calls).sessions[q]
    ensures Inv(t) && NoSweep(t) && LockFree(t) && Covers(t.db.grants, a, ids)
    ensures forall q | q in Passing(s.db.grants, calls, a) ::
      q in t.sessions && OnList(t.sessions[q], a, ids) && t.sessions[q].amount == calls[q].amount
  {
    hide GrantBalance, Remainings, Leads;
    ArrivalsKeepInv(s, calls);
    LeadsKeepsInv(Arrived(s, calls), acts, t);
    hide Inv;
    forall q | q in t.sessions ensures Locks(t.sessions[q]) == {} && !t.sessions[q].ExpireCall? {
      assert GrantLocks(ids[..0]) == {};
    }
  }

  lemma PassingAsk(grants: map<GrantId, Grant>, calls: map<Pid, Session>, p: Pid, a: AccId, ids: seq<GrantId>, t: State)
    requires p in Passing(grants, calls, a)
    requires forall q | q in Passing(grants, calls, a) ::
      q in t.sessions && OnList(t.sessions[q], a, ids) && t.sessions[q].amount == calls[q].amount
    ensures
      var passing := Passing(grants, calls, a);
      Total(passing) == calls[p].amount + Total(Asked(t, passing.Keys - {p}))
  {
    hide GrantBalance;
    var passing := Passing(grants, calls, a);
    TotalRemove(passing, p);
    var asked := Asked(t, passing.Keys - {p});
    forall q | q in passing && q != p ensures q in asked && asked[q] == passing[q] {
      assert OnList(t.sessions[q], a, ids);
    }
    assert asked == passing - {p};
  }

  /** All that can pass run their query, then all but one complete. */
  lemma AllButOne(s: State, calls: map<Pid, Session>, p: Pid, ids: seq<GrantId>) returns (acts: seq<Action>, t: State)
    requires Quiet(s) && AllAsk(calls) && p in calls && ValidPick(s.db, Ask(calls[p].account, 0), ids)
    requires p in Passing(s.db.grants, calls, calls[p].account)
    ensures NoArrivals(acts) && Leads(Arrived(s, calls), acts, t)
    ensures Inv(t) && LockFree(t) && Covers(t.db.grants, calls[p].account, ids)
    ensures p in t.sessions && OnList(t.sessions[p], calls[p].account, ids) && t.sessions[p].amount == calls[p].amount
    ensures
      var a, x := calls[p].account, calls[p].amount;
      GrantBalance(t.db.grants, a) == Floor(GrantBalance(s.db.grants, a) + x - Total(Passing(s.db.grants, calls, a)))
  {
    hide Inv, CanStep, Step, Leads, GrantBalance, ValidPick, Covers;
    hide OnList, LockFree, NoSweep, Asked, Remainings, Total;
    var s0, a := Arrived(s, calls), calls[p].account;
    ArrivalsKeepInv(s, calls);
    var passing := Passing(s.db.grants, calls, a).Keys;
    PassingHaveAsked(s, calls, a);
    var first, t1 := AllList(s0, passing, a, ids);
    ListedAreReady(s, calls, a, ids, first, t1);
    var next;
    next, t := AllComplete(t1, passing - {p}, a, ids);
    LeadsThrough(s0, first, t1, next, t);
    acts := first + next;
    PassingAsk(s.db.grants, calls, p, a, ids, t1);
  }

  lemma PassingHaveAsked(s: State, calls: map<Pid, Session>, a: AccId)
    requires AllAsk(calls)
    ensures
      var t := Arrived(s, calls);
      forall q | q in Passing(s.db.grants, calls, a) ::
        && q in t.sessions && t.sessions[q].DrawdownCall? && t.sessions[q] == Ask(a, t.sessions[q].amount)
        && t.sessions[q].amount == calls[q].amount && 0 < t.sessions[q].amount <= GrantBalance(s.db.grants, a)
  {
    hide GrantBalance;
  }

  /** The call that completes last is left with what the others leave. */
  lemma LastTakesTheRest(s: State, calls: map<Pid, Session>, p: Pid) returns (acts: seq<Action>, t: State)
    requires Quiet(s) && AllAsk(calls) && p in calls && p in Passing(s.db.grants, calls, calls[p].account)
    ensures NoArrivals(acts) && Leads(Arrived(s, calls), acts, t) && Completes(t, p)
    ensures Taken(t, p) == Floor(calls[p].amount - Excess(s.db.grants, calls, calls[p].account))
  {
    hide Inv, CanStep, Step, Leads, GrantBalance, ValidPick, LockFree, Taken, Covers, Quiet, Passing;
    var a := calls[p].account;
    var ids := PickExists(s.db, (g: GrantId) => g as int, Ask(a, 0));
    var before, t1 := AllButOne(s, calls, p, ids);
    LockFreeOthers(t1, p);
    var last;
    last, t := LoopsToEnd(t1, p);
    LeadsThrough(Arrived(s, calls), before, t1, last, t);
    acts := before + last;
    OpenMeansEmptied(t, p);
  }

  /** The worst case, for all tables and any number of calls: a call can complete exactly
      if it passes its test, and the least it can then take is its amount less the
      excess. */
  lemma WorstCase(s: State, calls: map<Pid, Session>, p: Pid)
    requires Quiet(s) && AllAsk(calls) && p in calls
    ensures
      var a, x := calls[p].account, calls[p].amount;
      var s0, least := Arrived(s, calls), Floor(x - Excess(s.db.grants, calls, a));
      && ((exists taken :: CanTake(s0, p, taken)) <==> p in Passing(s.db.grants, calls, a))
      && (p in Passing(s.db.grants, calls, a) ==> CanTake(s0, p, least))
      && forall taken | CanTake(s0, p, taken) :: least <= taken <= x
  {
    hide Inv, Leads, CanStep, Step, Taken, Passing, Excess;
    if p in Passing(s.db.grants, calls, calls[p].account) {
      var acts, t := LastTakesTheRest(s, calls, p);
      assert CanTake(Arrived(s, calls), p, Floor(calls[p].amount - Excess(s.db.grants, calls, calls[p].account)));
    }
    forall taken | CanTake(Arrived(s, calls), p, taken)
      ensures p in Passing(s.db.grants, calls, calls[p].account)
      ensures Floor(calls[p].amount - Excess(s.db.grants, calls, calls[p].account)) <= taken <= calls[p].amount
    {
      var acts, t :| NoArrivals(acts) && Leads(Arrived(s, calls), acts, t) && Completes(t, p) && Taken(t, p) == taken;
      NoRunTakesLess(s, calls, p, acts, t);
    }
  }

  /** So it can fall short exactly if it passes and the calls that pass ask together for
      more than there is. */
  lemma FallsShortExactly(s: State, calls: map<Pid, Session>, p: Pid)
    requires Quiet(s) && AllAsk(calls) && p in calls
    ensures
      var passing := Passing(s.db.grants, calls, calls[p].account);
      CanFallShort(Arrived(s, calls), p)
      <==> p in passing && Total(passing) > GrantBalance(s.db.grants, calls[p].account)
  {
    hide Inv, CanTake, GrantBalance;
    WorstCase(s, calls, p);
  }

  // Two calls

  lemma PassingOfTwo(grants: map<GrantId, Grant>, p: Pid, a: AccId, x: int, q: Pid, b: AccId, y: int)
    requires p != q && 0 < x <= GrantBalance(grants, a)
    ensures Total(Passing(grants, map[p := Ask(a, x), q := Ask(b, y)], a))
         == x + if a == b && 0 < y <= GrantBalance(grants, a) then y else 0
  {
    hide GrantBalance;
    var passing := Passing(grants, map[p := Ask(a, x), q := Ask(b, y)], a);
    TotalRemove(passing, p);
    if a == b && 0 < y <= GrantBalance(grants, a) {
      TotalRemove(passing - {p}, q);
      assert passing - {p} - {q} == map[];
    } else {
      assert passing - {p} == map[];
    }
  }

  /** Of two Drawdowns called at once the first can fall short exactly if both ask the
      same account, each for no more than it holds, and together for more. */
  lemma DrawdownsFallShortExactly(s: State, p: Pid, a: AccId, x: int, q: Pid, b: AccId, y: int)
    requires Quiet(s) && p != q
    ensures
      var balance := GrantBalance(s.db.grants, a);
      CanFallShort(With(s, p, Ask(a, x), q, Ask(b, y)), p)
      <==> a == b && 0 < x <= balance && 0 < y <= balance && x + y > balance
  {
    hide Inv, CanFallShort, GrantBalance;
    var calls := map[p := Ask(a, x), q := Ask(b, y)];
    FallsShortExactly(s, calls, p);
    assert Arrived(s, calls).sessions == With(s, p, Ask(a, x), q, Ask(b, y)).sessions;
    if 0 < x <= GrantBalance(s.db.grants, a) {
      PassingOfTwo(s.db.grants, p, a, x, q, b, y);
    }
  }
}
