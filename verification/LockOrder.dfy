/** One global order on locks, which every call climbs as it takes its locks. */
module LockOrder {
  import opened WaterfallSpec
  import opened Database
  import opened Sessions
  import opened SessionSafety

  // Accounts by identifier, then grants by account, priority, expiry and a fixed
  // tie-breaker, then transaction keys.

  datatype Rank = Rank(kind: int, account: int, priority: int, expiry: int, tie: int)

  predicate Below(x: Rank, y: Rank) {
    x.kind < y.kind || (x.kind == y.kind && (
      x.account < y.account || (x.account == y.account && (
        x.priority < y.priority || (x.priority == y.priority && (
          x.expiry < y.expiry || (x.expiry == y.expiry && x.tie < y.tie)))))))
  }

  function GrantRank(g: Grant, tie: int): Rank {
    Rank(1, g.account, g.priority, g.expiresAt, tie)
  }

  ghost function LockRank(grants: map<GrantId, Grant>, tie: GrantId -> int, l: Lock): Rank {
    match l
    case AccountLock(a) => Rank(0, a, 0, 0, 0)
    case GrantLock(g) => if g in grants then GrantRank(grants[g], tie(g)) else Rank(1, 0, 0, 0, 0)
    case KeyLock(_) => Rank(2, 0, 0, 0, 0)
  }

  ghost predicate Before(grants: map<GrantId, Grant>, tie: GrantId -> int, g: GrantId, h: GrantId) {
    g in grants && h in grants && Below(GrantRank(grants[g], tie(g)), GrantRank(grants[h], tie(h)))
  }

  /** Tied grants always come in the same order. */
  ghost predicate TieOrdered(grants: map<GrantId, Grant>, tie: GrantId -> int, ids: seq<GrantId>) {
    && (forall i | 0 <= i < |ids| :: ids[i] in grants)
    && (forall i, j | 0 <= i < j < |ids| :: Before(grants, tie, ids[i], ids[j]))
  }

  ghost predicate OneToOne(tie: GrantId -> int) {
    forall g, h :: tie(g) == tie(h) ==> g == h
  }

  ghost predicate SessionTied(grants: map<GrantId, Grant>, tie: GrantId -> int, ses: Session) {
    match ses
    case WaterfallCall(_, _, _, WLock(_, ids, _, _, _)) => TieOrdered(grants, tie, ids)
    case DrawdownCall(_, _, DLock(ids, _, _, _)) => TieOrdered(grants, tie, ids)
    case _ => true
  }

  // The list a query may return exists, ties broken as fixed

  lemma BeforeIsTransitive(grants: map<GrantId, Grant>, tie: GrantId -> int, g: GrantId, h: GrantId, last: GrantId)
    requires Before(grants, tie, g, h) && Before(grants, tie, h, last)
    ensures Before(grants, tie, g, last)
  {
  }

  lemma BeforeIsTotal(grants: map<GrantId, Grant>, tie: GrantId -> int, g: GrantId, h: GrantId)
    requires OneToOne(tie) && g in grants && h in grants && g != h
    ensures Before(grants, tie, g, h) || Before(grants, tie, h, g)
  {
    assert tie(g) != tie(h);
  }

  lemma AppendTied(grants: map<GrantId, Grant>, tie: GrantId -> int, ids: seq<GrantId>, last: GrantId)
    requires TieOrdered(grants, tie, ids) && last in grants
    requires forall g | g in ids :: Before(grants, tie, g, last)
    ensures TieOrdered(grants, tie, ids + [last])
  {
    hide Before;
    forall i | 0 <= i < |ids| ensures Before(grants, tie, ids[i], last) {
      assert ids[i] in ids;
    }
  }

  lemma {:induction false} InsertTied(grants: map<GrantId, Grant>, tie: GrantId -> int, ids: seq<GrantId>, g: GrantId)
    returns (more: seq<GrantId>)
    requires OneToOne(tie) && TieOrdered(grants, tie, ids) && g in grants && g !in ids
    ensures TieOrdered(grants, tie, more) && forall h :: h in more <==> h in ids || h == g
    decreases |ids|
  {
    hide Before, OneToOne;
    if ids == [] {
      more := [g];
      return;
    }
    var n := |ids| - 1;
    var last := ids[n];
    assert ids == ids[..n] + [last] && last in ids;
    BeforeIsTotal(grants, tie, g, last);
    if Before(grants, tie, last, g) {
      forall h | h in ids ensures Before(grants, tie, h, g) {
        if h != last {
          BeforeIsTransitive(grants, tie, h, last, g);
        }
      }
      AppendTied(grants, tie, ids, g);
      more := ids + [g];
    } else {
      var rest := InsertTied(grants, tie, ids[..n], g);
      AppendTied(grants, tie, rest, last);
      more := rest + [last];
    }
  }

  lemma {:induction false} TiedListExists(grants: map<GrantId, Grant>, tie: GrantId -> int, wanted: set<GrantId>)
    returns (ids: seq<GrantId>)
    requires OneToOne(tie) && wanted <= grants.Keys
    ensures TieOrdered(grants, tie, ids) && forall g :: g in ids <==> g in wanted
    decreases |wanted|
  {
    if wanted == {} {
      ids := [];
    } else {
      var g :| g in wanted;
      ids := TiedListExists(grants, tie, wanted - {g});
      ids := InsertTied(grants, tie, ids, g);
    }
  }

  lemma TiedIsListed(grants: map<GrantId, Grant>, tie: GrantId -> int, a: AccId, ids: seq<GrantId>)
    requires TieOrdered(grants, tie, ids) && forall g | g in ids :: g in grants && grants[g].account == a
    ensures Listed(grants, a, ids)
  {
    forall i, j | 0 <= i < j < |ids| ensures ids[i] != ids[j] && Precedes(grants[ids[i]], grants[ids[j]]) {
      assert ids[i] in ids && ids[j] in ids && Before(grants, tie, ids[i], ids[j]);
    }
  }

  /** Whatever a session's query is, the database has an answer to it. */
  lemma PickExists(db: Db, tie: GrantId -> int, ses: Session) returns (pick: seq<GrantId>)
    requires OneToOne(tie)
    ensures ValidPick(db, ses, pick) && TieOrdered(db.grants, tie, pick)
  {
    var wanted := match ses
      case WaterfallCall(a, _, now, WSelect(_)) => set g | g in db.grants && Eligible(db.grants[g], a, now)
      case DrawdownCall(a, _, DStart) =>
        set g | g in db.grants && db.grants[g].account == a && db.grants[g].status == Active
      case _ => {};
    pick := TiedListExists(db.grants, tie, wanted);
    forall i | 0 <= i < |pick| ensures pick[i] in wanted {
      assert pick[i] in pick;
    }
    if pick != [] {
      TiedIsListed(db.grants, tie, db.grants[pick[0]].account, pick);
    }
  }

  // Calls climb the order

  lemma WaitsAboveGrants(grants: map<GrantId, Grant>, tie: GrantId -> int, ids: seq<GrantId>, k: nat, l: Lock)
    requires TieOrdered(grants, tie, ids) && k < |ids| && l in GrantLocks(ids[..k])
    ensures Below(LockRank(grants, tie, l), LockRank(grants, tie, GrantLock(ids[k])))
  {
    var i :| 0 <= i < k && l == GrantLock(ids[..k][i]);
    assert Before(grants, tie, ids[i], ids[k]);
  }

  /** A session only ever waits for a lock that others hold and that stands above
      every lock it holds itself. */
  lemma WaitsAbove(db: Db, held: set<Lock>, ses: Session, pick: seq<GrantId>, tie: GrantId -> int)
    requires SessionOk(db, ses) && SessionTied(db.grants, tie, ses) && ValidPick(db, ses, pick) && !ses.ExpireCall?
    requires Advance(db, held, ses, pick).Wait?
    ensures
      var l := Advance(db, held, ses, pick).lock;
      && l in held
      && forall l' | l' in Locks(ses) :: Below(LockRank(db.grants, tie, l'), LockRank(db.grants, tie, l))
  {
    hide LiveRows, Sum, Drain;
    var l := Advance(db, held, ses, pick).lock;
    match ses
    case WaterfallCall(a, _, _, WLock(_, ids, _, k, _)) =>
      forall l' | l' in Locks(ses) ensures Below(LockRank(db.grants, tie, l'), LockRank(db.grants, tie, l)) {
        if l' in GrantLocks(ids[..k]) {
          WaitsAboveGrants(db.grants, tie, ids, k, l');
        }
      }
    case DrawdownCall(_, _, DLock(ids, _, k, _)) =>
      forall l' | l' in Locks(ses) ensures Below(LockRank(db.grants, tie, l'), LockRank(db.grants, tie, l)) {
        WaitsAboveGrants(db.grants, tie, ids, k, l');
      }
    case _ =>
  }
}
