/** Concurrent database sessions. Each call runs as a transaction whose writes stay
    private until it commits; rows it has locked stay locked until it ends; plain
    reads see the last committed rows. Any interleaving of steps may happen, and a
    transaction may roll back at any of them. */
module Sessions {
  import opened Common
  import opened WaterfallSpec
  import opened Database
  import opened Serial

  type Pid = int

  datatype Lock = AccountLock(account: AccId) | GrantLock(grant: GrantId) | KeyLock(key: Key)

  datatype Reason =
    | InvalidAmount | SameAccount | AccountNotFound | CurrencyMismatch
    | InsufficientFunds | InsufficientGrants | DuplicateKey | RolledBack

  datatype Outcome = Completed | Existing(txn: Txn) | Failed(reason: Reason)

  datatype TransferPc =
    | TStart
    | TReadSource
    | TReadDest(found: Account)
    | TFirst(currency: string)
    | TSecond(currency: string, written: map<AccId, int>)
    | TReread(currency: string, written: map<AccId, int>)
    | TInsert(currency: string, written: map<AccId, int>, destSeen: int)
    | TCommit(currency: string, written: map<AccId, int>, destSeen: int)

  datatype WaterfallPc =
    | WStart
    | WSelect(cash: int)
    | WLock(cash: int, ids: seq<GrantId>, seen: set<GrantId>, k: nat, got: seq<Row>)
    | WCommit(cash: int, ids: seq<GrantId>, seen: set<GrantId>, got: seq<Row>, drawn: Drawn)

  datatype DrawdownPc =
    | DStart
    | DLock(ids: seq<GrantId>, read: seq<nat>, k: nat, drawn: Drawn)

  datatype Session =
    | TransferCall(source: AccId, dest: AccId, amount: int, key: Key, tpc: TransferPc)
    | WaterfallCall(account: AccId, amount: int, now: int, wpc: WaterfallPc)
    | DrawdownCall(account: AccId, amount: int, dpc: DrawdownPc)
    | ExpireCall(now: int, marked: set<GrantId>)
    | Done(outcome: Outcome)

  function GrantLocks(ids: seq<GrantId>): set<Lock> {
    set i | 0 <= i < |ids| :: GrantLock(ids[i])
  }

  /** The rows a session holds. Ending it lets go of all of them. */
  function Locks(ses: Session): set<Lock> {
    match ses
    case TransferCall(s, d, _, key, pc) => (
      match pc
      case TSecond(_, _) => {AccountLock(Min(s, d))}
      case TReread(_, _) => {AccountLock(s), AccountLock(d)}
      case TInsert(_, _, _) => {AccountLock(s), AccountLock(d)}
      case TCommit(_, _, _) => {AccountLock(s), AccountLock(d), KeyLock(key)}
      case _ => {})
    case WaterfallCall(a, _, _, pc) => (
      match pc
      case WStart => {}
      case WSelect(_) => {AccountLock(a)}
      case WLock(_, ids, _, k, _) => {AccountLock(a)} + GrantLocks(if k <= |ids| then ids[..k] else ids)
      case WCommit(_, ids, _, _, _) => {AccountLock(a)} + GrantLocks(ids))
    case DrawdownCall(_, _, pc) => (
      match pc
      case DStart => {}
      case DLock(ids, _, k, _) => GrantLocks(if k <= |ids| then ids[..k] else ids))
    case ExpireCall(_, marked) => set g | g in marked :: GrantLock(g)
    case Done(_) => {}
  }

  /** What a transaction writes when it commits. */
  datatype Writes = Writes(
    balances: map<AccId, int>, entries: seq<Entry>, txns: map<Key, Txn>,
    grants: map<GrantId, Grant>, grantEntries: seq<GrantEntry>)

  function Merge(db: Db, w: Writes): Db {
    db.(accounts := map a | a in db.accounts ::
          if a in w.balances then db.accounts[a].(balance := w.balances[a]) else db.accounts[a],
        entries := db.entries + w.entries,
        txns := db.txns + w.txns,
        grants := db.grants + w.grants,
        grantEntries := db.grantEntries + w.grantEntries)
  }

  datatype Result = Wait(lock: Lock) | Go(next: Session) | Commit(writes: Writes, op: Op)

  function Fail(reason: Reason): Result {
    Go(Done(Failed(reason)))
  }

  // Transfer

  /** A plain read, seeing the session's own writes. */
  function BalanceSeen(db: Db, written: map<AccId, int>, a: AccId): int
    requires a in db.accounts
  {
    if a in written then written[a] else db.accounts[a].balance
  }

  /** The guarded debit: no row, no lock, if the balance is short. */
  function DebitStep(
    db: Db, held: set<Lock>, ses: Session, currency: string, written: map<AccId, int>, last: bool): Result
    requires ses.TransferCall?
  {
    if ses.source !in db.accounts || BalanceSeen(db, written, ses.source) < ses.amount then Fail(InsufficientFunds)
    else if AccountLock(ses.source) in held then Wait(AccountLock(ses.source))
    else
      var w := written[ses.source := BalanceSeen(db, written, ses.source) - ses.amount];
      Go(ses.(tpc := if last then TReread(currency, w) else TSecond(currency, w)))
  }

  function CreditStep(
    db: Db, held: set<Lock>, ses: Session, currency: string, written: map<AccId, int>, last: bool): Result
    requires ses.TransferCall?
  {
    if ses.dest !in db.accounts then Fail(AccountNotFound)
    else if AccountLock(ses.dest) in held then Wait(AccountLock(ses.dest))
    else
      var w := written[ses.dest := BalanceSeen(db, written, ses.dest) + ses.amount];
      Go(ses.(tpc := if last then TReread(currency, w) else TSecond(currency, w)))
  }

  function TransferStep(db: Db, held: set<Lock>, ses: Session): Result
    requires ses.TransferCall?
  {
    var TransferCall(s, d, amount, key, pc) := ses;
    match pc
    case TStart =>
      if amount <= 0 then Fail(InvalidAmount)
      else if s == d then Fail(SameAccount)
      else if key in db.txns then Go(Done(Existing(db.txns[key])))
      else Go(ses.(tpc := TReadSource))
    case TReadSource =>
      if s !in db.accounts then Fail(AccountNotFound) else Go(ses.(tpc := TReadDest(db.accounts[s])))
    case TReadDest(found) =>
      if d !in db.accounts then Fail(AccountNotFound)
      else if found.currency != db.accounts[d].currency then Fail(CurrencyMismatch)
      else if found.balance < amount then Fail(InsufficientFunds)
      else Go(ses.(tpc := TFirst(found.currency)))
    case TFirst(currency) =>
      if s < d then DebitStep(db, held, ses, currency, map[], false)
      else CreditStep(db, held, ses, currency, map[], false)
    case TSecond(currency, written) =>
      if s < d then CreditStep(db, held, ses, currency, written, true)
      else DebitStep(db, held, ses, currency, written, true)
    case TReread(currency, written) =>
      if d !in db.accounts then Fail(AccountNotFound)
      else Go(ses.(tpc := TInsert(currency, written, BalanceSeen(db, written, d))))
    case TInsert(currency, written, destSeen) =>
      if key in db.txns then Fail(DuplicateKey)
      else if KeyLock(key) in held then Wait(KeyLock(key))
      else Go(ses.(tpc := TCommit(currency, written, destSeen)))
    case TCommit(currency, written, destSeen) =>
      if amount <= 0 || s !in written then Fail(RolledBack)
      else
        Commit(
          Writes(written,
                 [Entry(s, Debit, amount, written[s], Some(key)), Entry(d, Credit, amount, destSeen, Some(key))],
                 map[key := Txn(Some(s), d, amount, currency)], map[], []),
          Op.Transfer(s, d, amount, key))
  }

  // WaterfallDebit

  function WaterfallStep(db: Db, held: set<Lock>, ses: Session, pick: seq<GrantId>): Result
    requires ses.WaterfallCall?
  {
    var WaterfallCall(a, amount, now, pc) := ses;
    match pc
    case WStart =>
      if amount <= 0 then Fail(InvalidAmount)
      else if a !in db.accounts then Fail(AccountNotFound)
      else if AccountLock(a) in held then Wait(AccountLock(a))
      else Go(ses.(wpc := WSelect(db.accounts[a].balance)))
    case WSelect(cash) => Go(ses.(wpc := WLock(cash, pick, db.grants.Keys, 0, [])))
    case WLock(cash, ids, seen, k, got) =>
      if k < |ids| then
        if ids[k] !in db.grants then Fail(RolledBack)
        else if GrantLock(ids[k]) in held then Wait(GrantLock(ids[k]))
        else
          var row := db.grants[ids[k]];
          var got' := if Eligible(row, a, now) then got + [Row(ids[k], row.remaining)] else got;
          Go(ses.(wpc := WLock(cash, ids, seen, k + 1, got')))
      else if Sum(Amounts(got)) + cash < amount then Fail(InsufficientFunds)
      else if amount <= 0 || !RowsCovered(db.grants, got) then Fail(RolledBack)
      else Go(ses.(wpc := WCommit(cash, ids, seen, got, Drain(db.grants, got, amount))))
    case WCommit(cash, ids, seen, got, drawn) =>
      if a !in db.accounts || amount <= 0 then Fail(RolledBack)
      else
        var left := drawn.left;
        Commit(
          Writes(if left > 0 then map[a := db.accounts[a].balance - left] else map[],
                 if left > 0 then [Entry(a, Debit, left, cash - left, None)] else [],
                 map[], drawn.rows, drawn.entries),
          Op.WaterfallDebit(a, amount, now, ids, seen))
  }

  /** The decrement of each locked row passes its own guard. */
  predicate RowsCovered(grants: map<GrantId, Grant>, rows: seq<Row>) {
    forall i | 0 <= i < |rows| :: rows[i].id in grants && rows[i].amount <= grants[rows[i].id].remaining
  }

  // Drawdown

  function Remainings(grants: map<GrantId, Grant>, ids: seq<GrantId>): (s: seq<nat>)
    requires forall i | 0 <= i < |ids| :: ids[i] in grants
    ensures |s| == |ids|
  {
    seq(|ids|, i requires 0 <= i < |ids| => grants[ids[i]].remaining)
  }

  function DrawdownStep(db: Db, held: set<Lock>, ses: Session, pick: seq<GrantId>): Result
    requires ses.DrawdownCall?
    requires forall i | 0 <= i < |pick| :: pick[i] in db.grants
  {
    var DrawdownCall(a, amount, pc) := ses;
    match pc
    case DStart =>
      if amount <= 0 then Fail(InvalidAmount)
      else
        var read := Remainings(db.grants, pick);
        if Sum(read) < amount then Fail(InsufficientGrants)
        else Go(ses.(dpc := DLock(pick, read, 0, Drawn(map[], [], amount))))
    case DLock(ids, read, k, drawn) =>
      if k >= |ids| || drawn.left == 0 then
        if amount <= 0 then Fail(RolledBack)
        else
          Commit(Writes(map[], [], map[], drawn.rows, drawn.entries),
                 Op.Drawdown(a, amount, if k <= |ids| then ids[..k] else ids))
      else if ids[k] !in db.grants then Fail(RolledBack)
      else if GrantLock(ids[k]) in held then Wait(GrantLock(ids[k]))
      else
        var row := db.grants[ids[k]];
        if row.status != Active then Go(ses.(dpc := DLock(ids, read, k + 1, drawn)))
        else Go(ses.(dpc := DLock(ids, read, k + 1, TakeRow(db.grants, drawn, Row(ids[k], row.remaining)))))
  }

  // ExpireGrants: rows are locked in whatever order the sweep meets them

  function ExpireStep(db: Db, held: set<Lock>, ses: Session, pick: seq<GrantId>): Result
    requires ses.ExpireCall?
  {
    if pick == [] then
      Commit(Writes(map[], [], map[],
                    map g | g in ses.marked && g in db.grants :: db.grants[g].(status := Expired), []),
             Op.Expire(ses.marked, ses.now))
    else if GrantLock(pick[0]) in held then Wait(GrantLock(pick[0]))
    else Go(ses.(marked := ses.marked + {pick[0]}))
  }

  /** What the database may answer to the query a session is about to run. */
  ghost predicate ValidPick(db: Db, ses: Session, pick: seq<GrantId>) {
    match ses
    case WaterfallCall(a, _, now, WSelect(_)) =>
      && Listed(db.grants, a, pick)
      && (forall i | 0 <= i < |pick| :: Eligible(db.grants[pick[i]], a, now))
      && (forall g | g in db.grants && Eligible(db.grants[g], a, now) :: g in pick)
    case DrawdownCall(a, _, DStart) =>
      && Listed(db.grants, a, pick)
      && (forall i | 0 <= i < |pick| :: db.grants[pick[i]].status == Active)
      && (forall g | g in db.grants && db.grants[g].account == a && db.grants[g].status == Active :: g in pick)
    case ExpireCall(now, marked) =>
      pick == [] || (|pick| == 1 && pick[0] in db.grants && pick[0] !in marked
                     && db.grants[pick[0]].status == Active && db.grants[pick[0]].expiresAt < now)
    case _ => pick == []
  }

  ghost function Advance(db: Db, held: set<Lock>, ses: Session, pick: seq<GrantId>): Result
    requires ValidPick(db, ses, pick)
  {
    match ses
    case TransferCall(_, _, _, _, _) => TransferStep(db, held, ses)
    case WaterfallCall(_, _, _, _) => WaterfallStep(db, held, ses, pick)
    case DrawdownCall(_, _, _) => DrawdownStep(db, held, ses, pick)
    case ExpireCall(_, _) => ExpireStep(db, held, ses, pick)
    case Done(_) => Go(ses)
  }

  // The system

  datatype State = State(db: Db, sessions: map<Pid, Session>, log: seq<Op>)

  const INIT: State := State(EMPTY_DB, map[], [])

  function OthersLocks(s: State, p: Pid): set<Lock> {
    set q, l | q in s.sessions && q != p && l in Locks(s.sessions[q]) :: l
  }

  function AllLocks(s: State): set<Lock> {
    set q, l | q in s.sessions && l in Locks(s.sessions[q]) :: l
  }

  datatype Action =
    | Begin(p: Pid, call: Session)
    | Run(p: Pid, pick: seq<GrantId>)
    | Abort(p: Pid)
    | Auto(op: Op)

  predicate Fresh(call: Session) {
    match call
    case TransferCall(_, _, _, _, pc) => pc == TStart
    case WaterfallCall(_, _, _, pc) => pc == WStart
    case DrawdownCall(_, _, pc) => pc == DStart
    case ExpireCall(_, marked) => marked == {}
    case Done(_) => false
  }

  /** Row locks that a single-statement operation needs. */
  function AutoLocks(op: Op): set<Lock> {
    match op
    case SignUp(_, a, key) => {AccountLock(a), KeyLock(key)}
    case Deposit(a, _) => {AccountLock(a)}
    case Withdraw(a, _) => {AccountLock(a)}
    case _ => {}
  }

  predicate SingleStatement(op: Op) {
    op.SignUp? || op.OpenAccount? || op.Deposit? || op.Withdraw? || op.Issue?
  }

  ghost predicate CanStep(s: State, act: Action) {
    match act
    case Begin(p, call) => p !in s.sessions && Fresh(call)
    case Run(p, pick) =>
      && p in s.sessions && !s.sessions[p].Done? && ValidPick(s.db, s.sessions[p], pick)
      && !Advance(s.db, OthersLocks(s, p), s.sessions[p], pick).Wait?
    case Abort(p) => p in s.sessions && !s.sessions[p].Done?
    case Auto(op) =>
      SingleStatement(op) && GrantsLive(s.db.grants) && Enabled(s.db, op) && AutoLocks(op) !! AllLocks(s)
  }

  ghost function Step(s: State, act: Action): State
    requires CanStep(s, act)
  {
    match act
    case Begin(p, call) => s.(sessions := s.sessions[p := call])
    case Run(p, pick) => (
      match Advance(s.db, OthersLocks(s, p), s.sessions[p], pick)
      case Go(next) => s.(sessions := s.sessions[p := next])
      case Commit(w, op) => State(Merge(s.db, w), s.sessions[p := Done(Completed)], s.log + [op])
      case Wait(_) => s)
    case Abort(p) => s.(sessions := s.sessions[p := Done(Failed(RolledBack))])
    case Auto(op) => s.(db := Apply(s.db, op), log := s.log + [op])
  }
}
