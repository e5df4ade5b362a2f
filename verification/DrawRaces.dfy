/** Runs from the empty database in which the code does less than it promises: two
    Drawdowns block each other for good, a Drawdown that acted on a stale read takes
    less than its amount, and a WaterfallDebit is refused although grants would do. */
module DrawRaces {
  import opened Common
  import opened WaterfallSpec
  import opened Totals
  import opened Database
  import opened Serial
  import opened Sessions
  import opened SessionSafety
  import opened Paths
  import opened DrawGuarantees
  import opened PostgresTables
  import opened DrawDeadlock
  import opened DrawDemand
  import opened DrawShortfall

  // An account with two grants of 5 that tie, and two callers who each want 8

  const FULL: Grant := Grant(0, 5, 5, 100, 0, Active, 11)
  const FULL_TOO: Grant := FULL.(key := 12)
  const GRANTS: map<GrantId, Grant> := map[1 := FULL, 2 := FULL_TOO]
  const ISSUED: Db := EMPTY_DB.(accounts := map[0 := Account("USD", 0)], grants := GRANTS)
  const SETUP: seq<Op> := [OpenAccount(0, "USD"), Issue(1, 0, 5, 100, 0, 11), Issue(2, 0, 5, 100, 0, 12)]

  const CALL: Session := Ask(0, 8)
  const FIRST: State := State(ISSUED, map[], SETUP)

  lemma ReachFirst() returns (acts: seq<Action>)
    ensures Leads(INIT, acts, FIRST)
  {
    var db1 := EMPTY_DB.(accounts := map[0 := Account("USD", 0)]);
    var s1 := State(db1, map[], SETUP[..1]);
    var s2 := State(db1.(grants := map[1 := FULL]), map[], SETUP[..2]);
    LeadsOn(INIT, [], INIT, Auto(SETUP[0]), s1);
    LeadsOn(INIT, [Auto(SETUP[0])], s1, Auto(SETUP[1]), s2);
    LeadsOn(INIT, [Auto(SETUP[0])] + [Auto(SETUP[1])], s2, Auto(SETUP[2]), FIRST);
    acts := [Auto(SETUP[0])] + [Auto(SETUP[1])] + [Auto(SETUP[2])];
  }

  lemma Begins(s: State, p: Pid, call: Session)
    requires p !in s.sessions && Sessions.Fresh(call)
    ensures CanStep(s, Begin(p, call)) && Step(s, Begin(p, call)) == s.(sessions := s.sessions[p := call])
  {
  }

  lemma ReachBothAsk() returns (acts: seq<Action>)
    ensures Leads(INIT, acts, With(FIRST, 0, CALL, 1, CALL))
  {
    hide CanStep, Step, Leads;
    acts := ReachFirst();
    var s1 := FIRST.(sessions := FIRST.sessions[0 := CALL]);
    Begins(FIRST, 0, CALL);
    LeadsOn(INIT, acts, FIRST, Begin(0, CALL), s1);
    Begins(s1, 1, CALL);
    acts := acts + [Begin(0, CALL)];
    LeadsOn(INIT, acts, s1, Begin(1, CALL), With(FIRST, 0, CALL, 1, CALL));
    acts := acts + [Begin(1, CALL)];
  }

  lemma FirstIsQuiet()
    ensures Quiet(FIRST)
  {
    hide CanStep, Step, Leads;
    var acts := ReachFirst();
    var path := Trace(INIT, acts, FIRST);
    ExecutionInv(path, acts, |acts|);
  }

  // Tied grants

  lemma TenAvailable()
    ensures GrantBalance(GRANTS, 0) == 10
  {
    var held := Holdings(GRANTS, 0);
    TotalRemove(held, 1);
    TotalRemove(held - {1}, 2);
    assert held - {1} - {2} == map[];
  }

  /** A deadlock from the empty database: two grants tie, both calls want more than
      either, and from there on neither call can take a step. */
  lemma TiesCanDeadlock() returns (states: seq<State>, acts: seq<Action>, k: nat)
    ensures Execution(states, acts) && k <= |acts| && states[k] == With(FIRST, 0, CALL, 1, CALL)
    ensures Theirs(acts[k..], 0, 1) && Stuck(states[|acts|], 0, 1)
  {
    hide CanStep, Step, Leads, Inv, GrantBalance, Theirs, Stuck;
    FirstIsQuiet();
    TenAvailable();
    assert TiedShort(GRANTS, 0, 8, 8, 1, 2);
    DrawdownsBlockExactly(FIRST, 0, 0, 8, 1, 0, 8);
    var after, t :| Theirs(after, 0, 1) && Leads(With(FIRST, 0, CALL, 1, CALL), after, t) && Stuck(t, 0, 1);
    var asked := ReachBothAsk();
    acts, k := asked + after, |asked|;
    assert acts[k..] == after;
    states := TraceThrough(INIT, asked, With(FIRST, 0, CALL, 1, CALL), after, t);
  }

  // A stale read

  /** A Drawdown may complete with less than its amount: of the ten available both calls
      want eight, both run their query before either has committed, and the one that
      comes last is left with two. */
  lemma StaleReadFallsShort() returns (states: seq<State>, acts: seq<Action>, k: nat)
    ensures Execution(states, acts) && k <= |acts| && states[k] == With(FIRST, 0, CALL, 1, CALL)
    ensures NoArrivals(acts[k..]) && Completes(states[|acts|], 1) && Taken(states[|acts|], 1) == 2
  {
    hide CanStep, Step, Leads, Inv, GrantBalance, NoArrivals, Taken, Passing;
    FirstIsQuiet();
    TenAvailable();
    var calls := map[1 := CALL, 0 := CALL];
    PassingOfTwo(GRANTS, 1, 0, 8, 0, 0, 8);
    TwoPass(calls);
    assert Arrived(FIRST, calls).sessions == With(FIRST, 0, CALL, 1, CALL).sessions;
    WorstCase(FIRST, calls, 1);
    var both := With(FIRST, 0, CALL, 1, CALL);
    assert CanTake(both, 1, 2);
    var after, t :| NoArrivals(after) && Leads(both, after, t) && Completes(t, 1) && Taken(t, 1) == 2;
    var asked := ReachBothAsk();
    acts, k := asked + after, |asked|;
    assert acts[k..] == after;
    states := TraceThrough(INIT, asked, both, after, t);
  }

  lemma TwoPass(calls: map<Pid, Session>)
    requires calls == map[1 := CALL, 0 := CALL] && GrantBalance(GRANTS, 0) == 10
    ensures 1 in Passing(GRANTS, calls, 0)
  {
    hide GrantBalance;
  }

  // An overdrawn account

  const RICH: Grant := Grant(0, 10, 10, 100, 0, Active, 11)
  const OPENING: seq<Op> := [OpenAccount(0, "USD"), Issue(1, 0, 10, 100, 0, 11), Op.Withdraw(0, 5)]

  /** Five were withdrawn from an empty account that has a grant of ten. */
  const OWING: Db := EMPTY_DB.(
    accounts := map[0 := Account("USD", -5)], entries := [Entry(0, Debit, 5, -5, None)], grants := map[1 := RICH])

  function Debiting(pc: WaterfallPc): Session {
    WaterfallCall(0, 8, 0, pc)
  }

  /** The account's debit of eight, with its last lock granted. */
  const REFUSED: State := State(OWING, map[0 := Debiting(WLock(-5, [1], {1}, 1, [Row(1, 10)]))], OPENING)

  lemma ReachOwing() returns (acts: seq<Action>)
    ensures Leads(INIT, acts, State(OWING, map[], OPENING))
  {
    var db1 := EMPTY_DB.(accounts := map[0 := Account("USD", 0)]);
    var db2 := db1.(grants := map[1 := RICH]);
    var s1, s2 := State(db1, map[], OPENING[..1]), State(db2, map[], OPENING[..2]);
    LeadsOn(INIT, [], INIT, Auto(OPENING[0]), s1);
    LeadsOn(INIT, [Auto(OPENING[0])], s1, Auto(OPENING[1]), s2);
    LeadsOn(INIT, [Auto(OPENING[0])] + [Auto(OPENING[1])], s2, Auto(OPENING[2]), State(OWING, map[], OPENING));
    acts := [Auto(OPENING[0])] + [Auto(OPENING[1])] + [Auto(OPENING[2])];
  }

  lemma OwingSteps(pc: WaterfallPc, pick: seq<GrantId>, next: WaterfallPc)
    requires (pc == WStart && pick == [] && next == WSelect(-5))
          || (pc == WSelect(-5) && pick == [1] && next == WLock(-5, [1], {1}, 0, []))
          || (pc == WLock(-5, [1], {1}, 0, []) && pick == [] && next == WLock(-5, [1], {1}, 1, [Row(1, 10)]))
    ensures
      var s := State(OWING, map[0 := Debiting(pc)], OPENING);
      CanStep(s, Run(0, pick)) && Step(s, Run(0, pick)) == State(OWING, map[0 := Debiting(next)], OPENING)
  {
    var s := State(OWING, map[0 := Debiting(pc)], OPENING);
    assert OthersLocks(s, 0) == {};
    assert s.sessions[0 := Debiting(next)] == map[0 := Debiting(next)];
    assert [1][0] in [1] && OWING.grants.Keys == {1} && Eligible(RICH, 0, 0);
    assert [] + [Row(1, 10)] == [Row(1, 10)];
  }

  lemma ReachRefused() returns (acts: seq<Action>)
    ensures Leads(INIT, acts, REFUSED)
  {
    hide CanStep, Step, Leads;
    acts := ReachOwing();
    var s0, s1 := State(OWING, map[], OPENING), State(OWING, map[0 := Debiting(WStart)], OPENING);
    var s2 := State(OWING, map[0 := Debiting(WSelect(-5))], OPENING);
    var s3 := State(OWING, map[0 := Debiting(WLock(-5, [1], {1}, 0, []))], OPENING);
    Begins(s0, 0, Debiting(WStart));
    assert s0.sessions[0 := Debiting(WStart)] == s1.sessions;
    LeadsOn(INIT, acts, s0, Begin(0, Debiting(WStart)), s1);
    acts := acts + [Begin(0, Debiting(WStart))];
    OwingSteps(WStart, [], WSelect(-5));
    LeadsOn(INIT, acts, s1, Run(0, []), s2);
    acts := acts + [Run(0, [])];
    OwingSteps(WSelect(-5), [1], WLock(-5, [1], {1}, 0, []));
    LeadsOn(INIT, acts, s2, Run(0, [1]), s3);
    acts := acts + [Run(0, [1])];
    OwingSteps(WLock(-5, [1], {1}, 0, []), [], WLock(-5, [1], {1}, 1, [Row(1, 10)]));
    LeadsOn(INIT, acts, s3, Run(0, []), REFUSED);
    acts := acts + [Run(0, [])];
  }

  /** An overdrawn account is refused a debit of eight although its grant holds ten. */
  lemma OverdrawnIsRefused() returns (states: seq<State>, acts: seq<Action>)
    ensures Execution(states, acts) && states[|acts|] == REFUSED
    ensures CanStep(REFUSED, Run(0, []))
    ensures Step(REFUSED, Run(0, [])) == REFUSED.(sessions := map[0 := Done(Failed(InsufficientFunds))])
    ensures Sum(Sources(OWING, 0, [1])) >= 8 && Sum(Amounts(LiveRows(OWING.grants, [1]))) == 10
  {
    hide Leads;
    acts := ReachRefused();
    states := Trace(INIT, acts, REFUSED);
    assert LiveRows(OWING.grants, [1]) == [Row(1, 10)] by {
      assert [1][..0] == [];
    }
    assert Amounts([Row(1, 10)]) == [10] && Sum([10]) == 10 + Sum([10][1..]);
    assert Sources(OWING, 0, [1]) == [10, 0];
    assert Sum([10, 0]) == 10 + Sum([10, 0][1..]);
    assert REFUSED.sessions[0 := Done(Failed(InsufficientFunds))] == map[0 := Done(Failed(InsufficientFunds))];
  }
}
