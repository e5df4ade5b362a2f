/** What a draw does to the available balance that the service reports. */
module GrantBalances {
  import opened Common
  import opened WaterfallSpec
  import opened Totals
  import opened Database
  import opened Serial
  import opened History
  import opened Sessions
  import opened PostgresTables
  import opened CreditService

  lemma NothingSums(m: map<int, int>)
    requires forall g :: g !in m
    ensures Total(m) == Sum([])
  {
  }

  lemma {:induction false} SumIsTotal(m: map<int, int>, ids: seq<GrantId>, values: seq<nat>)
    requires |values| == |ids| && forall i | 0 <= i < |ids| :: ids[i] in m && m[ids[i]] == values[i]
    requires forall i, j | 0 <= i < j < |ids| :: ids[i] != ids[j]
    requires forall g | g in m :: g >= 0 && g in ids
    ensures Sum(values) == Total(m)
    decreases |ids|
  {
    hide Sum, Total;
    if ids != [] {
      var n := |ids| - 1;
      TotalRemove(m, ids[n]);
      assert ids == ids[..n] + [ids[n]] && values == values[..n] + [values[n]];
      SumIsTotal(m - {ids[n]}, ids[..n], values[..n]);
      SumSnoc(values[..n], values[n]);
    } else {
      assert forall g | g in m :: g in ids;
      NothingSums(m);
    }
  }

  /** The sum over the query's rows is the aggregate over the table. */
  lemma QuerySumIsBalance(db: Db, a: AccId, amount: int, pick: seq<GrantId>)
    requires ValidPick(db, DrawdownCall(a, amount, DStart), pick)
    ensures Sum(Remainings(db.grants, pick)) == GrantBalance(db.grants, a)
  {
    SumIsTotal(Holdings(db.grants, a), pick, Remainings(db.grants, pick));
  }

  lemma ReducedHolding(grants: map<GrantId, Grant>, g: GrantId, take: nat, a: AccId)
    requires g in grants && grants[g].status == Active && take <= grants[g].remaining
    ensures GrantBalance(grants[g := Reduced(grants[g], take)], a)
         == GrantBalance(grants, a) - if grants[g].account == a then take else 0
  {
    var grants' := grants[g := Reduced(grants[g], take)];
    var before, after := Holdings(grants, a), Holdings(grants', a);
    if grants[g].account != a {
      assert after == before;
    } else if take == grants[g].remaining {
      TotalRemove(before, g);
      assert after == before - {g};
    } else {
      TotalPut(before, g, grants[g].remaining - take);
      assert after == before[g := grants[g].remaining - take];
    }
  }

  /** A draw lowers the account's available balance by exactly what it took, and no
      other account's. */
  lemma {:induction false} DrawLowersBalance(db: Db, a: AccId, ids: seq<GrantId>, amount: nat, b: AccId, k: nat)
    requires GrantsLive(db.grants) && Listed(db.grants, a, ids) && k <= |ids|
    ensures
      var d := DrawList(db, ids[..k], amount);
      && d.left <= amount
      && GrantBalance((db.grants + d.rows), b) == GrantBalance(db.grants, b) - if a == b then amount - d.left else 0
    decreases k
  {
    hide DrawList, GrantBalance, Reduced;
    if k == 0 {
      NothingDrawnYet(db, ids, amount);
      assert db.grants + map[] == db.grants;
    } else {
      DrawLowersBalance(db, a, ids, amount, b, k - 1);
      NextTurn(db, ids, k - 1, amount);
      var d, g := DrawList(db, ids[..k - 1], amount), db.grants[ids[k - 1]];
      if g.status == Active && d.left > 0 {
        var take := Min(g.remaining, d.left);
        ReducedHolding(db.grants + d.rows, ids[k - 1], take, b);
        assert db.grants + d.rows[ids[k - 1] := Reduced(g, take)]
            == (db.grants + d.rows)[ids[k - 1] := Reduced(g, take)];
      }
    }
  }

  /** A Drawdown whose query sees the table as it is passes its test exactly when its
      amount is available, and then lowers what is available by exactly that. */
  lemma SerialDrawdown(db: Db, a: AccId, amount: nat, pick: seq<GrantId>, b: AccId)
    requires GrantsLive(db.grants) && amount > 0
    requires ValidPick(db, DrawdownCall(a, amount, DStart), pick)
    ensures Sum(Remainings(db.grants, pick)) >= amount <==> amount <= GrantBalance(db.grants, a)
    ensures Enabled(db, Op.Drawdown(a, amount, pick))
    ensures amount <= GrantBalance(db.grants, a) ==>
      GrantBalance(Apply(db, Op.Drawdown(a, amount, pick)).grants, b)
        == GrantBalance(db.grants, b) - if a == b then amount else 0
  {
    hide GrantBalance, Remainings, LiveRows, Drain, Sum, Waterfall, Amounts;
    QuerySumIsBalance(db, a, amount, pick);
    DrawLowersBalance(db, a, pick, amount, b, |pick|);
    assert pick[..|pick|] == pick;
    if amount <= GrantBalance(db.grants, a) {
      AllLive(db.grants, pick);
      LiveRowsFit(db.grants, pick);
      var rows := LiveRows(db.grants, pick);
      DrainIsWaterfall(db.grants, rows, amount);
      WaterfallIsDraw(Amounts(rows), amount);
    }
  }

  lemma {:induction false} AllLive(grants: map<GrantId, Grant>, ids: seq<GrantId>)
    requires forall i | 0 <= i < |ids| :: ids[i] in grants && grants[ids[i]].status == Active
    ensures Amounts(LiveRows(grants, ids)) == Remainings(grants, ids)
    decreases |ids|
  {
    if ids != [] {
      var n := |ids| - 1;
      AllLive(grants, ids[..n]);
      assert ids == ids[..n] + [ids[n]];
      var before := LiveRows(grants, ids[..n]);
      assert LiveRows(grants, ids) == before + [Row(ids[n], grants[ids[n]].remaining)];
      assert Amounts(LiveRows(grants, ids)) == Amounts(before) + [grants[ids[n]].remaining];
      assert Remainings(grants, ids) == Remainings(grants, ids[..n]) + [grants[ids[n]].remaining];
    }
  }

  /** The query's extra test for a positive remainder never excludes anything. */
  lemma PositiveFilterIsRedundant(log: seq<Op>, db: Db, g: GrantId, a: AccId, now: int)
    requires Reachable(log, db) && g in db.grants
    ensures Eligible(db.grants[g], a, now)
       <==> db.grants[g].account == a && db.grants[g].status == Active && db.grants[g].expiresAt > now
  {
    ReachableIsAudited(log, db);
  }
}
