/** What a caller can rely on from one point of a run to a later one: repeated
    transfers, and draws on grants read before they were locked. */
module CallHistories {
  import opened Common
  import opened WaterfallSpec
  import opened Database
  import opened Serial
  import opened GrantLife
  import opened History
  import opened Sessions
  import opened SessionSafety
  import opened DrawGuarantees
  import opened CashService

  lemma {:induction false} LogGrows(states: seq<State>, acts: seq<Action>, m: nat, n: nat)
    requires Execution(states, acts) && m <= n < |states|
    ensures states[m].log <= states[n].log
    decreases n - m
  {
    if m < n {
      LogGrows(states, acts, m, n - 1);
      hide Apply, Advance, Merge, ValidPick;
      assert states[n] == Step(states[n - 1], acts[n - 1]);
    }
  }

  /** Nothing committed is ever taken back. */
  lemma RunGrows(states: seq<State>, acts: seq<Action>, m: nat, n: nat)
    requires Execution(states, acts) && m <= n < |states|
    ensures Grows(states[m].db, states[n].db)
  {
    LogGrows(states, acts, m, n);
    ExecutionInv(states, acts, m);
    ExecutionInv(states, acts, n);
    var before := PrefixGrows(states[n].log, |states[m].log|, states[n].db);
    assert states[n].log[..|states[m].log|] == states[m].log;
  }

  // Transfers with the same key

  /** However many calls carry a key and however they interleave, at most one of them
      takes effect: one stored transaction, with a debit and a matching credit. */
  lemma KeyedEffectIsUnique(states: seq<State>, acts: seq<Action>, n: nat, key: Key)
    requires Execution(states, acts) && n < |states|
    ensures
      var s := states[n];
      && Uses(s.log, key) <= 1
      && (Uses(s.log, key) == 1 <==> key in s.db.txns)
      && (if key in s.db.txns then Carried(s.db.txns[key], Tagged(s.db.entries, key))
          else Tagged(s.db.entries, key) == [])
  {
    ExecutionInv(states, acts, n);
    KeyTakesEffectOnce(states[n].log, states[n].db, key);
  }

  /** Once a key is stored it stays as it is: a later call with it returns the stored
      transaction and changes nothing, and a call already under way never commits. */
  lemma StoredTransferIsFinal(states: seq<State>, acts: seq<Action>, m: nat, n: nat, key: Key, p: Pid)
    requires Execution(states, acts) && m <= n < |states| && key in states[m].db.txns
    requires p in states[n].sessions && states[n].sessions[p].TransferCall? && states[n].sessions[p].key == key
    ensures
      var s := states[n];
      var ses := s.sessions[p];
      && key in s.db.txns && s.db.txns[key] == states[m].db.txns[key]
      && Uses(s.log, key) == Uses(states[m].log, key) == 1
      && (ses.tpc == TStart && ses.amount > 0 && ses.source != ses.dest ==>
            CanStep(s, Run(p, []))
            && Step(s, Run(p, [])) ==
            s.(sessions := s.sessions[p := Done(Existing(states[m].db.txns[key]))]))
      && !Advance(s.db, OthersLocks(s, p), ses, []).Commit?
  {
    hide Carried, Tagged, Uses, Execution, Exclusive, Replay;
    RunGrows(states, acts, m, n);
    KeyedEffectIsUnique(states, acts, m, key);
    KeyedEffectIsUnique(states, acts, n, key);
    ExecutionInv(states, acts, n);
  }

  /** A transfer that holds both accounts and its key always commits, in any
      interleaving, as one transfer of the balances committed right then. */
  lemma TransferRefinesAtomicStep(s: State, p: Pid)
    requires Inv(s) && p in s.sessions && s.sessions[p].TransferCall? && s.sessions[p].tpc.TCommit?
    ensures CanStep(s, Run(p, []))
    ensures
      var TransferCall(a, b, amount, key, _) := s.sessions[p];
      var db, db' := s.db, Step(s, Run(p, [])).db;
      && amount > 0 && a != b && a in db.accounts && b in db.accounts && key !in db.txns
      && db.accounts[a].currency == db.accounts[b].currency && db.accounts[a].balance >= amount
      && (var paid, received := db.accounts[a].balance - amount, db.accounts[b].balance + amount;
          && db'.accounts == db.accounts[a := db.accounts[a].(balance := paid)]
                [b := db.accounts[b].(balance := received)]
          && db'.entries
               == db.entries + [Entry(a, Debit, amount, paid, Some(key))]
                  + [Entry(b, Credit, amount, received, Some(key))]
          && db'.txns == db.txns[key := Txn(Some(a), b, amount, db.accounts[a].currency)])
      && db'.grants == db.grants && db'.grantEntries == db.grantEntries && db'.users == db.users
  {
    hide Merge, Apply;
    ReachableIsAudited(s.log, s.db);
    var ses := s.sessions[p];
    TransferCommits(s.db, OthersLocks(s, p), ses);
    AppliedTransfer(s.db, ses.source, ses.dest, ses.amount, ses.key);
  }

  // Grants read before they are locked

  /** What the unlocked query at step m told the caller. */
  ghost predicate FollowsQuery(ses: Session, a: AccId, amount: int, pick: seq<GrantId>, read: seq<nat>) {
    match ses
    case DrawdownCall(b, x, DLock(ids, r, _, _)) => b == a && x == amount && ids == pick && r == read
    case Done(_) => true
    case _ => false
  }

  ghost predicate Queries(s: State, act: Action, p: Pid, pick: seq<GrantId>) {
    && act == Run(p, pick) && CanStep(s, act)
    && s.sessions[p].DrawdownCall? && s.sessions[p].dpc == DStart
  }

  lemma {:induction false} QueryIsRemembered(
    states: seq<State>, acts: seq<Action>, m: nat, n: nat, p: Pid, pick: seq<GrantId>)
    requires Execution(states, acts) && m < n < |states| && Queries(states[m], acts[m], p, pick)
    ensures forall i | 0 <= i < |pick| :: pick[i] in states[m].db.grants
    ensures p in states[n].sessions
    ensures FollowsQuery(states[n].sessions[p], states[m].sessions[p].account, states[m].sessions[p].amount,
                         pick, Remainings(states[m].db.grants, pick))
    decreases n
  {
    hide Apply, Merge, Sum, TakeRow, Remainings;
    if m + 1 < n {
      QueryIsRemembered(states, acts, m, n - 1, p, pick);
      assert states[n] == Step(states[n - 1], acts[n - 1]);
    } else {
      assert states[n] == Step(states[m], acts[m]);
    }
  }

  /** A Drawdown whose query ran at step m and whose commit runs at step n takes
      exactly its amount if the grants it locked are at step n what they were at m. */
  lemma UndisturbedDrawdownIsExact(
    states: seq<State>, acts: seq<Action>, m: nat, n: nat, p: Pid, pick: seq<GrantId>)
    requires Execution(states, acts) && m < n < |states| && Queries(states[m], acts[m], p, pick)
    requires p in states[n].sessions && states[n].sessions[p].DrawdownCall? && states[n].sessions[p].dpc.DLock?
    requires
      var pc := states[n].sessions[p].dpc;
      && (pc.k >= |pc.ids| || pc.drawn.left == 0)
      && (forall i | 0 <= i < pc.k && i < |pick| ::
            pick[i] in states[m].db.grants && pick[i] in states[n].db.grants
            && states[n].db.grants[pick[i]] == states[m].db.grants[pick[i]])
    ensures
      var s := states[n];
      var ses := s.sessions[p];
      && CanStep(s, Run(p, [])) && ses.amount > 0 && ses.dpc.k <= |pick|
      && (forall i | 0 <= i < |pick| :: pick[i] in s.db.grants)
      && (var rows := LiveRows(s.db.grants, pick[..ses.dpc.k]);
          var shares := Waterfall(Amounts(rows), ses.amount);
          && Sum(shares) == ses.amount
          && Fit(s.db.grants, rows) && Within(rows, shares)
          && DrewGrants(s.db, Step(s, Run(p, [])).db, rows, shares))
  {
    hide LiveRows, Waterfall, Sum, DrewGrants, Step, Drain, Amounts;
    QueryIsRemembered(states, acts, m, n, p, pick);
    ExecutionInv(states, acts, n);
    var s := states[n];
    DrawdownCommit(s, p);
    var pc := s.sessions[p].dpc;
    forall i | 0 <= i < pc.k
      ensures s.db.grants[pick[i]].status == Active && s.db.grants[pick[i]].remaining == pc.read[i]
    {
      assert ValidPick(states[m].db, states[m].sessions[p], pick);
    }
    assert Undisturbed(s.db, pick[..pc.k], pc.read[..pc.k]);
  }
}
