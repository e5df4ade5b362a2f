/** The waterfall draw: take an amount from sources in priority order, emptying
    each source before the next one is touched. Every draw in the repository
    that may split an amount is measured against this one definition. */
module WaterfallSpec {
  import opened Common

  function Sum(s: seq<nat>): nat {
    if s == [] then 0 else s[0] + Sum(s[1..])
  }

  function Waterfall(avails: seq<nat>, amount: nat): (takes: seq<nat>)
    ensures |takes| == |avails|
  {
    if avails == [] then []
    else
      var take := Min(avails[0], amount);
      [take] + Waterfall(avails[1..], amount - take)
  }

  /** What a draw must achieve, said without an algorithm. */
  ghost predicate IsDraw(avails: seq<nat>, amount: nat, takes: seq<nat>) {
    && |takes| == |avails|
    && (forall i | 0 <= i < |takes| :: takes[i] <= avails[i])
    && Sum(takes) == Min(amount, Sum(avails))
    && (forall i, j | 0 <= i < j < |takes| :: takes[j] > 0 ==> takes[i] == avails[i])
  }

  lemma {:induction false} SumBounds(avails: seq<nat>, takes: seq<nat>)
    requires |takes| == |avails|
    requires forall i | 0 <= i < |takes| :: takes[i] <= avails[i]
    ensures Sum(takes) <= Sum(avails)
    ensures Sum(takes) == Sum(avails) ==> takes == avails
  {
    if avails != [] {
      SumBounds(avails[1..], takes[1..]);
      if Sum(takes) == Sum(avails) {
        assert takes == [takes[0]] + takes[1..];
        assert avails == [avails[0]] + avails[1..];
      }
    }
  }

  lemma {:induction false} ZeroSum(takes: seq<nat>)
    requires Sum(takes) == 0
    ensures forall i | 0 <= i < |takes| :: takes[i] == 0
  {
    if takes != [] {
      ZeroSum(takes[1..]);
      assert forall i | 1 <= i < |takes| :: takes[i] == takes[1..][i - 1];
    }
  }

  lemma {:induction false} PositiveSum(takes: seq<nat>)
    requires Sum(takes) > 0
    ensures exists i :: 0 <= i < |takes| && takes[i] > 0
  {
    if takes[0] == 0 {
      PositiveSum(takes[1..]);
      var i :| 0 <= i < |takes[1..]| && takes[1..][i] > 0;
      assert takes[i + 1] > 0;
    }
  }

  lemma {:induction false} WaterfallIsDraw(avails: seq<nat>, amount: nat)
    ensures IsDraw(avails, amount, Waterfall(avails, amount))
  {
    if avails != [] {
      var takes := Waterfall(avails, amount);
      var left := amount - takes[0];
      var tail := Waterfall(avails[1..], left);
      WaterfallIsDraw(avails[1..], left);
      assert takes[1..] == tail;
      forall i | 0 <= i < |takes|
        ensures takes[i] <= avails[i]
      {
        if i > 0 { assert takes[i] == tail[i - 1]; }
      }
      forall i, j | 0 <= i < j < |takes| && takes[j] > 0
        ensures takes[i] == avails[i]
      {
        assert takes[j] == tail[j - 1];
        if left == 0 {
          ZeroSum(tail);
        } else if i > 0 {
          assert takes[i] == tail[i - 1];
        }
      }
    }
  }

  lemma DrawHead(avails: seq<nat>, amount: nat, takes: seq<nat>)
    requires IsDraw(avails, amount, takes) && avails != []
    ensures takes[0] == Min(avails[0], amount)
    ensures IsDraw(avails[1..], amount - takes[0], takes[1..])
  {
    var tail := takes[1..];
    assert forall i, j | 0 <= i < j < |tail| :: tail[j] > 0 ==> takes[j + 1] > 0 && tail[i] == takes[i + 1];
    SumBounds(avails[1..], tail);
    if Sum(tail) > 0 {
      PositiveSum(tail);
      var i :| 0 <= i < |tail| && tail[i] > 0;
      assert takes[i + 1] > 0 && takes[0] == avails[0];
    }
  }

  /** There is only one way to draw: the description pins down every share. */
  lemma {:induction false} DrawIsUnique(avails: seq<nat>, amount: nat, takes: seq<nat>)
    ensures IsDraw(avails, amount, takes) <==> takes == Waterfall(avails, amount)
  {
    WaterfallIsDraw(avails, amount);
    if IsDraw(avails, amount, takes) && avails != [] {
      DrawHead(avails, amount, takes);
      DrawIsUnique(avails[1..], amount - takes[0], takes[1..]);
      assert takes == [takes[0]] + takes[1..];
    }
  }

  lemma {:induction false} SumSnoc(s: seq<nat>, x: nat)
    ensures Sum(s + [x]) == Sum(s) + x
  {
    if s == [] {
      assert s + [x] == [x];
    } else {
      SumSnoc(s[1..], x);
      assert (s + [x])[1..] == s[1..] + [x];
    }
  }

  /** The recursion from the left agrees with the loops, which grow a prefix:
      the next source gives what the sources before it left open. */
  lemma {:induction false} WaterfallSnoc(avails: seq<nat>, x: nat, amount: nat)
    ensures Sum(Waterfall(avails, amount)) == Min(amount, Sum(avails))
    ensures Waterfall(avails + [x], amount)
         == Waterfall(avails, amount) + [Min(x, amount - Min(amount, Sum(avails)))]
  {
    WaterfallIsDraw(avails, amount);
    if avails == [] {
      assert avails + [x] == [x];
    } else {
      var take := Min(avails[0], amount);
      WaterfallSnoc(avails[1..], x, amount - take);
      assert (avails + [x])[1..] == avails[1..] + [x];
      assert Sum(avails) == avails[0] + Sum(avails[1..]);
      assert [take] + (Waterfall(avails[1..], amount - take) + [Min(x, amount - Min(amount, Sum(avails)))])
          == Waterfall(avails, amount) + [Min(x, amount - Min(amount, Sum(avails)))];
    }
  }
}
