/** Finite runs of the session system from a given state to another. */
module Paths {
  import opened Sessions
  import opened SessionSafety

  ghost predicate Leads(s: State, acts: seq<Action>, t: State)
    decreases |acts|
  {
    if acts == [] then s == t
    else CanStep(s, acts[0]) && Leads(Step(s, acts[0]), acts[1..], t)
  }

  lemma LeadsNowhere(s: State)
    ensures Leads(s, [], s)
  {
  }

  lemma LeadsFrom(s: State, act: Action, s': State, rest: seq<Action>, t: State)
    requires CanStep(s, act) && s' == Step(s, act) && Leads(s', rest, t)
    ensures Leads(s, [act] + rest, t)
  {
    hide CanStep, Step;
    assert ([act] + rest)[1..] == rest;
  }

  lemma {:induction false} LeadsOn(s: State, acts: seq<Action>, t: State, act: Action, u: State)
    requires Leads(s, acts, t) && CanStep(t, act) && u == Step(t, act)
    ensures Leads(s, acts + [act], u)
    decreases |acts|
  {
    hide CanStep, Step;
    if acts == [] {
      assert acts + [act] == [act] && [act][1..] == [];
      assert Leads(u, [], u);
    } else {
      LeadsOn(Step(s, acts[0]), acts[1..], t, act, u);
      assert (acts + [act])[1..] == acts[1..] + [act];
    }
  }

  lemma {:induction false} LeadsThrough(s: State, before: seq<Action>, t: State, after: seq<Action>, u: State)
    requires Leads(s, before, t) && Leads(t, after, u)
    ensures Leads(s, before + after, u)
    decreases |before|
  {
    hide CanStep, Step;
    if before == [] {
      assert before + after == after;
    } else {
      LeadsThrough(Step(s, before[0]), before[1..], t, after, u);
      assert (before + after)[1..] == before[1..] + after;
    }
  }

  lemma {:induction false} Trace(s: State, acts: seq<Action>, t: State) returns (states: seq<State>)
    requires Leads(s, acts, t)
    ensures |states| == |acts| + 1 && states[0] == s && states[|acts|] == t
    ensures forall i | 0 <= i < |acts| :: CanStep(states[i], acts[i]) && states[i + 1] == Step(states[i], acts[i])
    decreases |acts|
  {
    hide CanStep, Step;
    if acts == [] {
      states := [s];
    } else {
      var rest := Trace(Step(s, acts[0]), acts[1..], t);
      states := [s] + rest;
      forall i | 0 <= i < |acts| ensures CanStep(states[i], acts[i]) && states[i + 1] == Step(states[i], acts[i]) {
        assert i > 0 ==> acts[i] == acts[1..][i - 1] && states[i] == rest[i - 1];
      }
    }
  }

  lemma TraceThrough(s: State, before: seq<Action>, t: State, after: seq<Action>, u: State)
    returns (states: seq<State>)
    requires Leads(s, before, t) && Leads(t, after, u)
    ensures
      var acts := before + after;
      && |states| == |acts| + 1 && states[0] == s && states[|before|] == t && states[|acts|] == u
      && forall i | 0 <= i < |acts| :: CanStep(states[i], acts[i]) && states[i + 1] == Step(states[i], acts[i])
  {
    hide CanStep, Step, Leads;
    var first := Trace(s, before, t);
    var second := Trace(t, after, u);
    var acts := before + after;
    states := first + second[1..];
    forall i | 0 <= i < |acts| ensures CanStep(states[i], acts[i]) && states[i + 1] == Step(states[i], acts[i]) {
      var k := i - |before|;
      assert k >= 0 ==> acts[i] == after[k] && states[i] == second[k] && states[i + 1] == second[k + 1];
    }
  }

  lemma {:induction false} LeadsKeepsInv(s: State, acts: seq<Action>, t: State)
    requires Inv(s) && Leads(s, acts, t)
    ensures Inv(t)
    decreases |acts|
  {
    hide Inv, Step, CanStep;
    if acts != [] {
      StepKeepsInv(s, acts[0]);
      LeadsKeepsInv(Step(s, acts[0]), acts[1..], t);
    }
  }
}
