/** What a Drawdown is sure to take, whatever else is under way: all of its amount but
    what the draws on its account ask for, taken together, beyond what its grants hold. */
module DrawDemand {
  import opened Common
  import opened WaterfallSpec
  import opened Totals
  import opened Database
  import opened Serial
  import opened GrantLife
  import opened History
  import opened Sessions
  import opened SessionSafety
  import opened Paths
  import opened Deadlock
  import opened DrawGuarantees
  import opened PostgresTables
  import opened CreditService
  import opened GrantBalances

  // Demand and supply

  /** The most that a call may still take from the account's grants. A Drawdown that has
      not run its query counts only if it can pass its test. */
  ghost function Demand(grants: map<GrantId, Grant>, a: AccId, ses: Session): nat {
    match ses
    case DrawdownCall(b, x, DStart) => if b == a && 0 < x <= GrantBalance(grants, a) then x else 0
    case DrawdownCall(b, x, DLock(_, _, _, _)) => if b == a then Floor(x) else 0
    case WaterfallCall(b, x, _, _) => if b == a then Floor(x) else 0
    case _ => 0
  }

  ghost function Demands(s: State, a: AccId): map<Pid, int> {
    map p | p in s.sessions :: Demand(s.db.grants, a, s.sessions[p])
  }

  predicate Covers(grants: map<GrantId, Grant>, a: AccId, ids: seq<GrantId>) {
    forall g | g in grants && grants[g].account == a && grants[g].status == Active :: g in ids
  }

  predicate ListsAll(grants: map<GrantId, Grant>, a: AccId, ses: Session) {
    ses.DrawdownCall? && ses.account == a && ses.dpc.DLock? ==> Covers(grants, a, ses.dpc.ids)
  }

  /** All draws under way on the account ask for at most this much more than its grants
      hold, and no Drawdown under way on it has missed a grant. */
  ghost predicate OverBy(s: State, a: AccId, excess: nat) {
    && Inv(s) && NoSweep(s) && Total(Demands(s, a)) <= GrantBalance(s.db.grants, a) + excess
    && forall p | p in s.sessions :: ListsAll(s.db.grants, a, s.sessions[p])
  }

  /** What may happen without breaking that: any step or rollback of any call, any
      arrival but a sweep whose demand still fits, and any other operation but a new
      grant on this account. */
  ghost predicate Affordable(s: State, a: AccId, excess: nat, act: Action) {
    match act
    case Begin(_, call) =>
      !call.ExpireCall? && Total(Demands(s, a)) + Demand(s.db.grants, a, call) <= GrantBalance(s.db.grants, a) + excess
    case Auto(op) => op.Issue? ==> op.account != a
    case _ => true
  }

  // What one commit may take

  /** The tables after it: no grant of the account has come back or is new, and the
      balance has fallen by at most this much. */
  ghost predicate Spends(grants: map<GrantId, Grant>, grants': map<GrantId, Grant>, a: AccId, most: nat) {
    && GrantBalance(grants, a) - most <= GrantBalance(grants', a) <= GrantBalance(grants, a)
    && forall g | g in grants' && grants'[g].account == a && grants'[g].status == Active ::
         g in grants && grants[g].account == a && grants[g].status == Active
  }

  predicate Draws(op: Op) {
    op.Drawdown? || op.WaterfallDebit?
  }

  lemma DrawSpends(db: Db, op: Op, a: AccId)
    requires GrantsLive(db.grants) && Enabled(db, op) && Draws(op)
    ensures Spends(db.grants, Apply(db, op).grants, a, if op.account == a then op.amount else 0)
  {
    hide LiveRows, Sum, Amounts, GrantBalance;
    var d := DrawList(db, op.ids, op.amount);
    assert Apply(db, op).grants == db.grants + d.rows;
    assert op.ids[..|op.ids|] == op.ids;
    DrawLowersBalance(db, op.account, op.ids, op.amount, a, |op.ids|);
    LiveRowsFit(db.grants, op.ids);
    DrainAges(db.grants, LiveRows(db.grants, op.ids), op.amount);
  }

  lemma OtherSpendsNothing(db: Db, op: Op, a: AccId)
    requires GrantsLive(db.grants) && Enabled(db, op) && !Draws(op) && !op.Expire?
    requires op.Issue? ==> op.account != a
    ensures Spends(db.grants, Apply(db, op).grants, a, 0)
  {
    var grants' := Apply(db, op).grants;
    if op.Issue? {
      assert Holdings(grants', a) == Holdings(db.grants, a);
    } else {
      assert grants' == db.grants;
    }
  }

  /** The commit of a call takes no more than its demand. */
  lemma CommitSpends(s: State, a: AccId, p: Pid, pick: seq<GrantId>)
    requires Inv(s) && NoSweep(s) && CanStep(s, Run(p, pick))
    requires Advance(s.db, OthersLocks(s, p), s.sessions[p], pick).Commit?
    ensures Spends(s.db.grants, Step(s, Run(p, pick)).db.grants, a, Demand(s.db.grants, a, s.sessions[p]))
    ensures s.sessions[p].DrawdownCall? ==> s.sessions[p].dpc.DLock?
  {
    ReachableIsAudited(s.log, s.db);
    var ses := s.sessions[p];
    var op := Advance(s.db, OthersLocks(s, p), ses, pick).op;
    CommitIsSerial(s.db, OthersLocks(s, p), ses, pick);
    OpOfSession(s.db, OthersLocks(s, p), ses, pick);
    hide Inv, Advance, Apply, Merge, Enabled, Spends;
    if Draws(op) {
      DrawSpends(s.db, op, a);
    } else {
      OtherSpendsNothing(s.db, op, a);
    }
  }

  lemma OpOfSession(db: Db, held: set<Lock>, ses: Session, pick: seq<GrantId>)
    requires ValidPick(db, ses, pick) && Advance(db, held, ses, pick).Commit? && !ses.ExpireCall?
    ensures
      var op := Advance(db, held, ses, pick).op;
      match ses
      case TransferCall(_, _, _, _, _) => op.Transfer?
      case WaterfallCall(b, x, _, _) => op.WaterfallDebit? && op.account == b && op.amount == x
      case DrawdownCall(b, x, pc) => op.Drawdown? && op.account == b && op.amount == x && pc.DLock?
      case _ => false
  {
    hide Sum, Amounts, Drain, TakeRow, Remainings;
  }

  // No affordable step adds to the excess

  /** From its query on a Drawdown lists every grant, and no step adds to a demand. */
  lemma GoAsksNoMore(db: Db, held: set<Lock>, ses: Session, pick: seq<GrantId>, a: AccId)
    requires ValidPick(db, ses, pick) && Advance(db, held, ses, pick).Go? && !ses.ExpireCall?
    requires ListsAll(db.grants, a, ses)
    ensures
      var next := Advance(db, held, ses, pick).next;
      && Demand(db.grants, a, next) <= Demand(db.grants, a, ses)
      && ListsAll(db.grants, a, next) && !next.ExpireCall?
  {
    hide GrantBalance, Sum, Remainings, TakeRow, Amounts, Drain;
    if ses.DrawdownCall? && ses.dpc.DStart? {
      QuerySumIsBalance(db, ses.account, ses.amount, pick);
    }
  }

  lemma FallingBalanceAsksNoMore(grants: map<GrantId, Grant>, grants': map<GrantId, Grant>, a: AccId, ses: Session)
    requires GrantBalance(grants', a) <= GrantBalance(grants, a)
    ensures Demand(grants', a, ses) <= Demand(grants, a, ses)
  {
  }

  /** One call's demand falls by what it spends; the others ask no more than before. */
  lemma DemandsFall(s: State, s': State, a: AccId, p: Pid, spent: nat)
    requires p in s.sessions && p in s'.sessions && s'.sessions == s.sessions[p := s'.sessions[p]]
    requires GrantBalance(s'.db.grants, a) <= GrantBalance(s.db.grants, a)
    requires Demand(s'.db.grants, a, s'.sessions[p]) + spent <= Demand(s.db.grants, a, s.sessions[p])
    ensures Total(Demands(s', a)) + spent <= Total(Demands(s, a))
  {
    hide GrantBalance, Demand;
    var less := Demands(s, a)[p := Demand(s.db.grants, a, s.sessions[p]) - spent];
    TotalPut(Demands(s, a), p, Demand(s.db.grants, a, s.sessions[p]) - spent);
    forall q | q in s'.sessions ensures Demands(s', a)[q] <= less[q] {
      FallingBalanceAsksNoMore(s.db.grants, s'.db.grants, a, s.sessions[q]);
    }
    TotalBelow(Demands(s', a), less);
  }

  lemma StillListsAll(grants: map<GrantId, Grant>, grants': map<GrantId, Grant>, a: AccId, most: nat, ses: Session)
    requires ListsAll(grants, a, ses) && Spends(grants, grants', a, most)
    ensures ListsAll(grants', a, ses)
  {
  }

  lemma DoneAsksNothing(grants: map<GrantId, Grant>, a: AccId, outcome: Outcome)
    ensures Demand(grants, a, Done(outcome)) == 0 && ListsAll(grants, a, Done(outcome))
  {
  }

  /** A session put in the place of one of the same demand or more. */
  lemma ReplacedStaysOverBy(s: State, s': State, a: AccId, excess: nat, p: Pid)
    requires OverBy(s, a, excess) && Inv(s') && p in s.sessions && p in s'.sessions && s'.db == s.db
    requires s'.sessions == s.sessions[p := s'.sessions[p]] && !s'.sessions[p].ExpireCall?
    requires Demand(s.db.grants, a, s'.sessions[p]) <= Demand(s.db.grants, a, s.sessions[p])
    requires ListsAll(s.db.grants, a, s'.sessions[p])
    ensures OverBy(s', a, excess)
  {
    hide Inv, GrantBalance, Demand, ListsAll;
    DemandsFall(s, s', a, p, 0);
  }

  lemma CommitStaysOverBy(s: State, a: AccId, excess: nat, p: Pid, pick: seq<GrantId>)
    requires OverBy(s, a, excess) && CanStep(s, Run(p, pick))
    requires Advance(s.db, OthersLocks(s, p), s.sessions[p], pick).Commit?
    ensures OverBy(Step(s, Run(p, pick)), a, excess)
  {
    hide Inv, Advance, GrantBalance, Demand, ListsAll, Merge;
    var s' := Step(s, Run(p, pick));
    StepKeepsInv(s, Run(p, pick));
    CommitSpends(s, a, p, pick);
    assert s'.sessions == s.sessions[p := Done(Completed)];
    DoneAsksNothing(s'.db.grants, a, Completed);
    DemandsFall(s, s', a, p, Demand(s.db.grants, a, s.sessions[p]));
    forall q | q in s'.sessions ensures ListsAll(s'.db.grants, a, s'.sessions[q]) {
      if q != p {
        StillListsAll(s.db.grants, s'.db.grants, a, Demand(s.db.grants, a, s.sessions[p]), s.sessions[q]);
      }
    }
  }

  lemma AutoSpendsNothing(s: State, a: AccId, op: Op)
    requires Inv(s) && CanStep(s, Auto(op)) && (op.Issue? ==> op.account != a)
    ensures Spends(s.db.grants, Step(s, Auto(op)).db.grants, a, 0) && Step(s, Auto(op)).sessions == s.sessions
  {
    hide Inv, Apply, Enabled, Spends;
    OtherSpendsNothing(s.db, op, a);
  }

  lemma AutoStaysOverBy(s: State, a: AccId, excess: nat, op: Op)
    requires OverBy(s, a, excess) && CanStep(s, Auto(op)) && Affordable(s, a, excess, Auto(op))
    ensures OverBy(Step(s, Auto(op)), a, excess)
  {
    hide Inv, CanStep, Step, GrantBalance, ListsAll, Demand;
    var s' := Step(s, Auto(op));
    StepKeepsInv(s, Auto(op));
    AutoSpendsNothing(s, a, op);
    forall q | q in s'.sessions
      ensures Demand(s'.db.grants, a, s.sessions[q]) == Demand(s.db.grants, a, s.sessions[q])
      ensures ListsAll(s'.db.grants, a, s'.sessions[q])
    {
      FallingBalanceAsksNoMore(s.db.grants, s'.db.grants, a, s.sessions[q]);
      FallingBalanceAsksNoMore(s'.db.grants, s.db.grants, a, s.sessions[q]);
      StillListsAll(s.db.grants, s'.db.grants, a, 0, s.sessions[q]);
    }
    assert Demands(s', a) == Demands(s, a);
  }

  lemma BeginStaysOverBy(s: State, a: AccId, excess: nat, p: Pid, call: Session)
    requires OverBy(s, a, excess) && CanStep(s, Begin(p, call)) && Affordable(s, a, excess, Begin(p, call))
    ensures OverBy(Step(s, Begin(p, call)), a, excess)
  {
    hide Inv, GrantBalance, Demand;
    BeginKeepsInv(s, p, call);
    TotalPut(Demands(s, a), p, Demand(s.db.grants, a, call));
    assert Demands(Step(s, Begin(p, call)), a) == Demands(s, a)[p := Demand(s.db.grants, a, call)];
  }

  /** Whatever happens next, as long as new calls ask for no more than that leaves. */
  lemma StaysOverBy(s: State, a: AccId, excess: nat, act: Action)
    requires OverBy(s, a, excess) && CanStep(s, act) && Affordable(s, a, excess, act)
    ensures OverBy(Step(s, act), a, excess)
  {
    match act
    case Begin(p, call) => BeginStaysOverBy(s, a, excess, p, call);
    case Run(p, pick) =>
      hide Inv, GrantBalance, Demands, Demand, ListsAll;
      match Advance(s.db, OthersLocks(s, p), s.sessions[p], pick) {
        case Go(next) =>
          StepKeepsInv(s, act);
          GoAsksNoMore(s.db, OthersLocks(s, p), s.sessions[p], pick, a);
          ReplacedStaysOverBy(s, Step(s, act), a, excess, p);
        case Commit(_, _) => CommitStaysOverBy(s, a, excess, p, pick);
        case Wait(_) =>
      }
    case Abort(p) =>
      StepKeepsInv(s, act);
      DoneAsksNothing(s.db.grants, a, Failed(RolledBack));
      ReplacedStaysOverBy(s, Step(s, act), a, excess, p);
    case Auto(op) => AutoStaysOverBy(s, a, excess, op);
  }

  // So no Drawdown falls short by more

  /** A run in which every arrival can be afforded when it comes. */
  ghost predicate AllAffordable(s: State, acts: seq<Action>, a: AccId, excess: nat)
    decreases |acts|
  {
    acts != [] ==>
      CanStep(s, acts[0]) && Affordable(s, a, excess, acts[0]) && AllAffordable(Step(s, acts[0]), acts[1..], a, excess)
  }

  lemma {:induction false} OverByToEnd(s: State, acts: seq<Action>, t: State, a: AccId, excess: nat)
    requires OverBy(s, a, excess) && Leads(s, acts, t) && AllAffordable(s, acts, a, excess)
    ensures OverBy(t, a, excess)
    decreases |acts|
  {
    hide OverBy, Step, CanStep, Affordable;
    if acts != [] {
      StaysOverBy(s, a, excess, acts[0]);
      OverByToEnd(Step(s, acts[0]), acts[1..], t, a, excess);
    }
  }

  /** The Drawdown's next step completes it. */
  ghost predicate Completes(s: State, p: Pid) {
    && p in s.sessions && s.sessions[p].DrawdownCall? && CanStep(s, Run(p, []))
    && Step(s, Run(p, [])).sessions[p] == Done(Completed)
  }

  /** What its account's grants lose by that step. */
  ghost function Taken(s: State, p: Pid): int
    requires Completes(s, p)
  {
    var a := s.sessions[p].account;
    GrantBalance(s.db.grants, a) - GrantBalance(Step(s, Run(p, [])).db.grants, a)
  }

  /** A completed Drawdown has taken what it no longer wants. */
  lemma TakenOnCompletion(s: State, p: Pid)
    requires Inv(s) && Completes(s, p)
    ensures
      var ses := s.sessions[p];
      && ses.dpc.DLock? && (ses.dpc.k == |ses.dpc.ids| || ses.dpc.drawn.left == 0)
      && ses.amount > 0 && Taken(s, p) == ses.amount - ses.dpc.drawn.left
  {
    hide GrantBalance, LiveRows, Drain, Sum, Merge, TakeRow, Remainings;
    ReachableIsAudited(s.log, s.db);
    var ses := s.sessions[p];
    assert ses.dpc.DLock?;
    var DLock(ids, read, k, drawn) := ses.dpc;
    DrawdownCommitsAs(s, p);
    DrawLowersBalance(s.db, ses.account, ids, ses.amount, ses.account, k);
  }

  /** A list of all the account's active grants holds what the account's grants hold. */
  lemma CoveredSum(grants: map<GrantId, Grant>, a: AccId, ids: seq<GrantId>)
    requires Listed(grants, a, ids) && Covers(grants, a, ids) && GrantsLive(grants)
    ensures Sum(Amounts(LiveRows(grants, ids))) == GrantBalance(grants, a)
  {
    hide Sum, LiveRows;
    LiveRowsFit(grants, ids);
    var rows := LiveRows(grants, ids);
    forall i | 0 <= i < |rows| ensures rows[i].id in ids {
      assert rows[i] in rows;
    }
    var held := Holdings(grants, a);
    forall g | g in held ensures g in Ids(rows) {
      var i :| 0 <= i < |rows| && rows[i] == Row(g, grants[g].remaining);
      assert Ids(rows)[i] == g;
    }
    SumIsTotal(held, Ids(rows), Amounts(rows));
  }

  /** It leaves something open only if it has emptied all of them. */
  lemma OpenMeansEmptied(s: State, p: Pid)
    requires Inv(s) && Completes(s, p) && ListsAll(s.db.grants, s.sessions[p].account, s.sessions[p])
    ensures Taken(s, p) == Min(s.sessions[p].amount, GrantBalance(s.db.grants, s.sessions[p].account))
  {
    hide GrantBalance, LiveRows, Sum, Drain, Amounts, Waterfall, CanStep, Step, Fit;
    TakenOnCompletion(s, p);
    ReachableIsAudited(s.log, s.db);
    var ses := s.sessions[p];
    var DLock(ids, read, k, drawn) := ses.dpc;
    LeftOfDrain(s.db.grants, LiveRows(s.db.grants, ids[..k]), ses.amount);
    WaterfallIsDraw(Amounts(LiveRows(s.db.grants, ids[..k])), ses.amount);
    if k == |ids| {
      assert ids[..k] == ids;
      CoveredSum(s.db.grants, ses.account, ids);
    } else {
      BalanceStaysNonNegative(s, p);
    }
  }

  lemma BalanceStaysNonNegative(s: State, p: Pid)
    requires Completes(s, p)
    ensures Taken(s, p) <= GrantBalance(s.db.grants, s.sessions[p].account)
  {
    hide CanStep, Step;
    TotalNonNegative(Holdings(Step(s, Run(p, [])).db.grants, s.sessions[p].account));
  }

  /** A Drawdown that completes has taken all but at most the excess; so without excess
      it has taken exactly its amount. */
  lemma ShortByAtMost(s: State, a: AccId, excess: nat, p: Pid)
    requires OverBy(s, a, excess) && Completes(s, p) && s.sessions[p].account == a
    ensures Floor(s.sessions[p].amount - excess) <= Taken(s, p) <= s.sessions[p].amount
  {
    hide Inv, GrantBalance, CanStep, Step, ListsAll, Taken;
    OpenMeansEmptied(s, p);
    TakenOnCompletion(s, p);
    TotalRemove(Demands(s, a), p);
    TotalNonNegative(Demands(s, a) - {p});
    BalanceIsNonNegative(s.db.grants, a);
  }

  lemma BalanceIsNonNegative(grants: map<GrantId, Grant>, a: AccId)
    ensures GrantBalance(grants, a) >= 0
  {
    TotalNonNegative(Holdings(grants, a));
  }

  /** Over whole runs: however calls of all kinds arrive, interleave and roll back, a
      Drawdown falls short by at most what the draws on its account ask in excess. */
  lemma RunShortByAtMost(s: State, acts: seq<Action>, t: State, a: AccId, excess: nat, p: Pid)
    requires OverBy(s, a, excess) && Leads(s, acts, t) && AllAffordable(s, acts, a, excess)
    requires Completes(t, p) && t.sessions[p].account == a
    ensures Floor(t.sessions[p].amount - excess) <= Taken(t, p) <= t.sessions[p].amount
  {
    hide OverBy, CanStep, Step, Leads, AllAffordable, Taken;
    OverByToEnd(s, acts, t, a, excess);
    ShortByAtMost(t, a, excess, p);
  }
}
