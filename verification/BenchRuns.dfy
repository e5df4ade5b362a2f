/** All workers of the benchmark at once. Every worker runs in a goroutine of its own,
    so the requests of different workers reach the server in any order: between the
    chunks of a top-up, between top-up and draw, between direct debit and chain. A
    request may also get lost before the server has seen it, or its reply after. */
module BenchRuns {
  import opened Common
  import opened DrawCycle
  import opened WaterfallSpec
  import opened TigerBeetle
  import opened WaterfallChain
  import opened WaterfallBatch
  import opened BankFunding
  import opened WaterfallWorker
  import opened Layout
  import opened WaterfallSetup

  /** The four draw methods, the last two of each pair on the worker's own accounts as
      looked up. */
  datatype Call = Hardcoded | WithIDs | OptimisticHardcoded | OptimisticWithIDs

  /** Where a worker's goroutine stands between two requests. */
  datatype Pc = Idle | Topping(call: Call, rest: seq<Transfer>) | Drawing(call: Call) | FallingBack

  datatype WorkerState = WorkerState(draws: nat, pc: Pc)

  datatype Bench = Bench(ledger: Ledger, nextId: TransferId, workers: seq<WorkerState>)

  datatype Act = Start(i: nat, call: Call) | Send(i: nat) | LoseRequest(i: nat) | LoseReply(i: nat)

  predicate CanAct(b: Bench, act: Act) {
    act.i < |b.workers| && (act.Start? <==> b.workers[act.i].pc.Idle?)
  }

  predicate Batched(call: Call) {
    call.Hardcoded? || call.WithIDs?
  }

  /** The request that a worker is about to send. */
  function Request(b: Bench, chains: seq<Chain>, pc: Pc): seq<Transfer>
    requires chains != [] && !pc.Idle?
  {
    match pc
    case Topping(_, rest) => rest[..Min(|rest|, BATCH_LIMIT)]
    case Drawing(call) =>
      if Batched(call) then Batch(IdBlocks(b.nextId, |chains|), chains, WATERFALL_TARGET)
      else [Direct(b.nextId, chains[0], WATERFALL_TARGET)]
    case FallingBack => AppendChain([], IdBlock(b.nextId, 7), chains[0], WATERFALL_TARGET)
  }

  /** The worker after the server's answer. */
  function Answered(w: WorkerState, chains: seq<Chain>, ok: bool): WorkerState
    requires !w.pc.Idle?
  {
    match w.pc
    case Topping(call, rest) =>
      if !ok then w.(pc := Idle)
      else if |rest| <= BATCH_LIMIT then w.(pc := Drawing(call))
      else w.(pc := Topping(call, rest[BATCH_LIMIT..]))
    case Drawing(call) =>
      if Batched(call) then WorkerState(w.draws + (if ok then |chains| else 0), Idle)
      else WorkerState(w.draws + 1, if ok then Idle else FallingBack)
    case FallingBack => w.(pc := Idle)
  }

  /** One call to the server: refused whole above the limit. */
  function Server(l: Ledger, batch: seq<Transfer>): (Ledger, bool) {
    if |batch| > BATCH_LIMIT then (l, false)
    else
      var r := CreateTransfers(l, batch, 0);
      (r.ledger, r.failures == [])
  }

  function IdsTaken(b: Bench, chains: seq<Chain>, pc: Pc): nat {
    match pc
    case Drawing(call) => if Batched(call) then 7 * |chains| else 1
    case FallingBack => 7
    case _ => 0
  }

  function Step(b: Bench, all: seq<seq<Chain>>, act: Act): Bench
    requires CanAct(b, act) && |all| == |b.workers| && all[act.i] != []
  {
    var w, chains := b.workers[act.i], all[act.i];
    match act
    case Start(i, call) =>
      if w.draws < TOP_UP_EVERY then b.(workers := b.workers[i := w.(pc := Drawing(call))])
      else
        var tops := TopUps(b.nextId, chains);
        Bench(b.ledger, b.nextId + |tops|, b.workers[i := WorkerState(0, Topping(call, tops))])
    case Send(i) =>
      var (ledger, ok) := Server(b.ledger, Request(b, chains, w.pc));
      Bench(ledger, b.nextId + IdsTaken(b, chains, w.pc), b.workers[i := Answered(w, chains, ok)])
    case LoseRequest(i) => b.(workers := b.workers[i := w.(pc := Idle)])
    case LoseReply(i) =>
      var ledger := Server(b.ledger, Request(b, chains, w.pc)).0;
      Bench(ledger, b.nextId + IdsTaken(b, chains, w.pc), b.workers[i := w.(pc := Idle)])
  }

  // The invariant

  /** Credits still to be sent: to the worker's own priority sources, with identifiers
      that nobody has used. */
  ghost predicate Pending(l: Ledger, nextId: TransferId, chains: seq<Chain>, rest: seq<Transfer>) {
    && Acceptable(l, rest)
    && (forall i | 0 <= i < |rest| :: rest[i].id < nextId && rest[i].credit in Priorities(chains))
  }

  ghost predicate WorkerOk(l: Ledger, nextId: TransferId, chains: seq<Chain>, w: WorkerState) {
    && chains != [] && Owned(l, chains)
    && (match w.pc
        case Idle => w.draws < TOP_UP_EVERY + |chains|
        case Topping(_, rest) => w.draws == 0 && Pending(l, nextId, chains, rest)
        case Drawing(_) => w.draws < TOP_UP_EVERY
        case FallingBack =>
          && w.draws <= TOP_UP_EVERY && chains[0].a in l.accounts
          && l.accounts[chains[0].a].Headroom() < WATERFALL_TARGET)
  }

  function PendingIds(w: WorkerState): set<TransferId> {
    match w.pc
    case Topping(_, rest) => set i | 0 <= i < |rest| :: rest[i].id
    case _ => {}
  }

  /** Double entry, no overdraft, every chain ready with its control accounts square,
      workers apart, counters below their ceiling. */
  ghost predicate BenchOk(b: Bench, all: seq<seq<Chain>>) {
    && Sound(b.ledger) && (forall id | id in b.ledger.used :: id < b.nextId)
    && |all| == |b.workers|
    && (forall i | 0 <= i < |all| :: WorkerOk(b.ledger, b.nextId, all[i], b.workers[i]))
    && (forall i, j | 0 <= i < |all| && 0 <= j < |all| && i != j ::
          AllAccounts(all[i]) !! AllAccounts(all[j]) && PendingIds(b.workers[i]) !! PendingIds(b.workers[j]))
  }

  // One request

  /** What a request of one worker may do to the ledger. */
  ghost predicate Serves(l: Ledger, l': Ledger, chains: seq<Chain>, ids: set<TransferId>) {
    Sound(l') && l'.used <= l.used + ids && Owned(l', chains) && Confines(l, l', chains)
  }

  lemma NothingServes(l: Ledger, chains: seq<Chain>, ids: set<TransferId>)
    requires Sound(l) && Owned(l, chains)
    ensures Serves(l, l, chains, ids)
  {
  }

  lemma CreditsKeepReady(l: Ledger, l': Ledger, batch: seq<Transfer>, chains: seq<Chain>, c: nat)
    requires Owned(l, chains) && Paid(l, l', batch) && c < |chains|
    requires forall k | k in {chains[c].d, chains[c].dest, chains[c].setup, chains[c].limit} :: Received(batch, k) == 0
    ensures ChainReady(l', chains[c])
  {
    hide Received, Outlay, Ids;
    var ch := chains[c];
    assert ChainReady(l, ch);
    var s := ch.Sources();
    assert s[0] == ch.a && s[1] == ch.b && s[2] == ch.c && s[3] == ch.d;
    forall k | k in ch.Accounts() ensures k in l.accounts && k != GLOBAL_BANK {
      assert k in AllAccounts(chains);
    }
    assert forall i | 0 <= i < 4 :: s[i] in ch.Accounts();
    assert ch.setup in ch.Accounts() && ch.limit in ch.Accounts();
  }

  lemma {:induction false} NotReceived(batch: seq<Transfer>, k: AccountId)
    requires forall i | 0 <= i < |batch| :: batch[i].credit != k
    ensures Received(batch, k) == 0
  {
    if batch != [] {
      NotReceived(batch[1..], k);
    }
  }

  lemma CreditsMiss(l: Ledger, chains: seq<Chain>, batch: seq<Transfer>, c: nat, k: AccountId)
    requires Owned(l, chains) && c < |chains| && k in {chains[c].d, chains[c].dest, chains[c].setup, chains[c].limit}
    requires forall i | 0 <= i < |batch| :: batch[i].credit in Priorities(chains)
    ensures Received(batch, k) == 0
  {
    PriorityMembers(l, chains, c);
    hide Priorities, Received, Owned;
    NotReceived(batch, k);
  }

  /** Any part of a top-up keeps the worker's chains ready and everybody else's
      accounts as they are. */
  lemma CreditsServe(l: Ledger, l': Ledger, chains: seq<Chain>, batch: seq<Transfer>)
    requires Owned(l, chains) && Paid(l, l', batch)
    requires forall i | 0 <= i < |batch| :: batch[i].credit in Priorities(chains)
    ensures Owned(l', chains) && Confines(l, l', chains)
  {
    hide Received, Outlay, Ids, Priorities, ChainReady, Chain.Accounts;
    forall c | 0 <= c < |chains| ensures ChainReady(l', chains[c]) {
      forall k | k in {chains[c].d, chains[c].dest, chains[c].setup, chains[c].limit} ensures Received(batch, k) == 0 {
        CreditsMiss(l, chains, batch, c, k);
      }
      CreditsKeepReady(l, l', batch, chains, c);
    }
    PrioritiesDistinct(l, chains);
    forall k | k in l.accounts.Keys - AllAccounts(chains) - {GLOBAL_BANK} ensures l'.accounts[k] == l.accounts[k] {
      NotReceived(batch, k);
    }
  }

  lemma ToppingServes(l: Ledger, nextId: TransferId, chains: seq<Chain>, rest: seq<Transfer>)
    requires Sound(l) && Owned(l, chains) && Pending(l, nextId, chains, rest)
    ensures
      var n := Min(|rest|, BATCH_LIMIT);
      var (l', ok) := Server(l, rest[..n]);
      && ok && Serves(l, l', chains, Ids(rest[..n])) && Pending(l', nextId, chains, rest[n..])
  {
    hide Received, Outlay, CreateTransfers, Sound, Owned, Confines, BankReady;
    var n := Min(|rest|, BATCH_LIMIT);
    assert rest == rest[..n] + rest[n..];
    OwnedHasBank(l, chains);
    AcceptableSplit(l, rest[..n], rest[n..]);
    CreditsArePaid(l, rest[..n], 0);
    BatchKeepsSound(l, rest[..n], 0);
    CreditsServe(l, CreateTransfers(l, rest[..n], 0).ledger, chains, rest[..n]);
  }

  lemma OwnedHasBank(l: Ledger, chains: seq<Chain>)
    requires Owned(l, chains)
    ensures BankReady(l)
  {
  }

  lemma BatchServes(l: Ledger, base: TransferId, chains: seq<Chain>)
    requires Sound(l) && Owned(l, chains) && forall id | id in l.used :: id < base
    ensures
      var batch := Batch(IdBlocks(base, |chains|), chains, WATERFALL_TARGET);
      var (l', ok) := Server(l, batch);
      && Serves(l, l', chains, Ids(batch))
      && (ok ==> OneRequest(|chains|))
  {
    hide CreateTransfers, Sound, Owned, Confines, Batch, BatchSettled, Funded, Ids;
    var batch := Batch(IdBlocks(base, |chains|), chains, WATERFALL_TARGET);
    BatchLength(IdBlocks(base, |chains|), chains, WATERFALL_TARGET);
    NothingServes(l, chains, Ids(batch));
    DrawAll(l, base, chains);
    BatchKeepsSound(l, batch, 0);
    BatchUses(l, batch, 0);
    SettledConfines(l, CreateTransfers(l, batch, 0).ledger, chains);
  }

  lemma FirstChainConfines(l: Ledger, l': Ledger, chains: seq<Chain>)
    requires Owned(l, chains) && chains != [] && ChainReady(l', chains[0]) && l'.accounts.Keys == l.accounts.Keys
    requires SameOn(l, l', l.accounts.Keys - chains[0].Accounts())
    ensures Owned(l', chains) && Confines(l, l', chains)
  {
    OwnedAfterFirst(l, l', chains);
    AccountsOf(l, chains);
    hide Chain.Accounts, AllAccounts, ChainReady;
  }

  lemma DirectServes(l: Ledger, id: TransferId, chains: seq<Chain>)
    requires Sound(l) && Owned(l, chains) && chains != [] && id !in l.used
    ensures
      var batch := [Direct(id, chains[0], WATERFALL_TARGET)];
      var (l', ok) := Server(l, batch);
      && Serves(l, l', chains, Ids(batch)) && chains[0].a in l'.accounts
      && (ok <==> l.accounts[chains[0].a].Headroom() >= WATERFALL_TARGET) && (!ok ==> l' == l)
  {
    hide Confines, Sound;
    var ch, batch := chains[0], [Direct(id, chains[0], WATERFALL_TARGET)];
    assert ChainReady(l, ch) && ch.Sources()[0] == ch.a;
    NothingServes(l, chains, Ids(batch));
    DirectDebit(l, id, ch, WATERFALL_TARGET);
    BatchKeepsSound(l, batch, 0);
    BatchUses(l, batch, 0);
    if l.accounts[ch.a].Headroom() >= WATERFALL_TARGET {
      var l' := Move(l, ch.a, ch.dest, WATERFALL_TARGET, id);
      DirectKeepsReady(l, l', ch, WATERFALL_TARGET, id);
      FirstChainConfines(l, l', chains);
    }
  }

  /** The chain that follows a rejected direct debit: paid in full exactly if B, C and
      D can, since A is still where the debit found it. */
  lemma ChainServes(l: Ledger, base: TransferId, chains: seq<Chain>)
    requires Sound(l) && Owned(l, chains) && chains != [] && forall id | id in l.used :: id < base
    ensures
      var batch := AppendChain([], IdBlock(base, 7), chains[0], WATERFALL_TARGET);
      var (l', ok) := Server(l, batch);
      && Serves(l, l', chains, Ids(batch)) && (ok <==> Funded(l, chains[0], WATERFALL_TARGET))
      && Settled(l, l', chains[0], WATERFALL_TARGET)
  {
    hide Confines, Sound, CreateTransfers, Settled, Funded, Ids;
    var batch := AppendChain([], IdBlock(base, 7), chains[0], WATERFALL_TARGET);
    SingleChain(l, IdBlock(base, 7), chains[0], WATERFALL_TARGET);
    BatchKeepsSound(l, batch, 0);
    BatchUses(l, batch, 0);
    FirstChainConfines(l, CreateTransfers(l, batch, 0).ledger, chains);
  }

  // One step

  /** What the sender's own request does to it. */
  lemma SenderStaysOk(b: Bench, all: seq<seq<Chain>>, i: nat)
    requires BenchOk(b, all) && i < |all| && !b.workers[i].pc.Idle?
    ensures
      var w, batch := b.workers[i], Request(b, all[i], b.workers[i].pc);
      var (l', ok) := Server(b.ledger, batch);
      && Serves(b.ledger, l', all[i], Ids(batch))
      && WorkerOk(l', b.nextId + IdsTaken(b, all[i], w.pc), all[i], Answered(w, all[i], ok))
  {
    hide Sound, Confines, CreateTransfers, Server, Batch, Ids, TopUps, Acceptable, Owned, Settled, Funded;
    var w, chains := b.workers[i], all[i];
    assert WorkerOk(b.ledger, b.nextId, chains, w);
    match w.pc
    case Topping(_, rest) =>
      ToppingServes(b.ledger, b.nextId, chains, rest);
    case Drawing(call) =>
      if Batched(call) {
        BatchServes(b.ledger, b.nextId, chains);
      } else {
        DirectServes(b.ledger, b.nextId, chains);
      }
    case FallingBack => ChainServes(b.ledger, b.nextId, chains);
  }

  /** Identifiers of a request are the sender's pending ones, or new. */
  lemma RequestIds(b: Bench, chains: seq<Chain>, w: WorkerState)
    requires chains != [] && !w.pc.Idle?
    ensures forall id | id in Ids(Request(b, chains, w.pc)) ::
      id in PendingIds(w) || b.nextId <= id < b.nextId + IdsTaken(b, chains, w.pc)
  {
    match w.pc
    case Topping(_, rest) =>
      var n := Min(|rest|, BATCH_LIMIT);
      forall id | id in Ids(rest[..n]) ensures id in PendingIds(w) {
        var k :| 0 <= k < n && id == rest[..n][k].id;
        assert rest[k].id == id;
      }
    case Drawing(call) =>
      if Batched(call) {
        BatchIdsFrom(b.nextId, chains, |chains|);
        assert chains[..|chains|] == chains;
      }
    case FallingBack =>
  }

  lemma {:induction false} BatchIdsFrom(base: TransferId, chains: seq<Chain>, k: nat)
    requires k <= |chains|
    ensures forall i | 0 <= i < |Batch(IdBlocks(base, k), chains[..k], WATERFALL_TARGET)| ::
      base <= Batch(IdBlocks(base, k), chains[..k], WATERFALL_TARGET)[i].id < base + 7 * k
    decreases k
  {
    if k > 0 {
      BatchIdsFrom(base, chains, k - 1);
      BatchIds(base, chains, WATERFALL_TARGET, k - 1);
    }
  }

  /** A worker that did not send: nothing it owns or waits for has moved. */
  lemma BystanderStaysOk(
    l: Ledger, l': Ledger, nextId: TransferId, nextId': TransferId, ids: set<TransferId>, theirs: seq<Chain>,
    w: WorkerState)
    requires Owned(l', theirs) && AllAccounts(theirs) <= l.accounts.Keys && SameOn(l, l', AllAccounts(theirs))
    requires l'.accounts.Keys == l.accounts.Keys && l'.used <= l.used + ids
    requires WorkerOk(l, nextId, theirs, w) && nextId <= nextId' && ids !! PendingIds(w)
    ensures WorkerOk(l', nextId', theirs, w)
  {
    hide Sound, AllAccounts, Priorities, Owned;
    match w.pc
    case Topping(_, rest) =>
      forall i | 0 <= i < |rest| ensures rest[i].id !in l'.used && rest[i].credit in l'.accounts {
        assert rest[i].id in PendingIds(w);
      }
    case FallingBack => FirstIsOwned(l, theirs);
    case _ =>
  }

  lemma FirstIsOwned(l: Ledger, chains: seq<Chain>)
    requires Owned(l, chains) && chains != []
    ensures chains[0].a in AllAccounts(chains)
  {
    assert chains[0].a in chains[0].Accounts();
  }

  lemma OthersStayOk(b: Bench, all: seq<seq<Chain>>, i: nat, j: nat)
    requires BenchOk(b, all) && i < |all| && j < |all| && i != j && !b.workers[i].pc.Idle?
    ensures
      var w, batch := b.workers[i], Request(b, all[i], b.workers[i].pc);
      WorkerOk(Server(b.ledger, batch).0, b.nextId + IdsTaken(b, all[i], w.pc), all[j], b.workers[j])
  {
    hide Sound, CreateTransfers, Server, Batch, Request, Owned, Acceptable, AllAccounts, Pending;
    var batch := Request(b, all[i], b.workers[i].pc);
    var l' := Server(b.ledger, batch).0;
    SenderStaysOk(b, all, i);
    RequestIds(b, all[i], b.workers[i]);
    PendingBelow(b, all, j);
    assert WorkerOk(b.ledger, b.nextId, all[i], b.workers[i]) && WorkerOk(b.ledger, b.nextId, all[j], b.workers[j]);
    assert Confines(b.ledger, l', all[i]);
    OthersStayReady(b.ledger, l', all[i], all[j]);
    BystanderStaysOk(
      b.ledger, l', b.nextId, b.nextId + IdsTaken(b, all[i], b.workers[i].pc), Ids(batch), all[j], b.workers[j]);
  }

  lemma PendingBelow(b: Bench, all: seq<seq<Chain>>, j: nat)
    requires BenchOk(b, all) && j < |all|
    ensures forall id | id in PendingIds(b.workers[j]) :: id < b.nextId
  {
    assert WorkerOk(b.ledger, b.nextId, all[j], b.workers[j]);
  }

  lemma SendKeepsOk(b: Bench, all: seq<seq<Chain>>, i: nat)
    requires BenchOk(b, all) && CanAct(b, Send(i)) && all[i] != []
    ensures BenchOk(Step(b, all, Send(i)), all)
  {
    hide Sound, Confines, CreateTransfers, Server, Batch, WorkerOk, AllAccounts;
    var b', w := Step(b, all, Send(i)), b.workers[i];
    var batch := Request(b, all[i], w.pc);
    SenderStaysOk(b, all, i);
    RequestIds(b, all[i], w);
    PendingBelow(b, all, i);
    AnsweredIds(w, all[i], Server(b.ledger, batch).1);
    forall j | 0 <= j < |all| ensures WorkerOk(b'.ledger, b'.nextId, all[j], b'.workers[j]) {
      if j != i {
        OthersStayOk(b, all, i, j);
      }
    }
  }

  lemma AnsweredIds(w: WorkerState, chains: seq<Chain>, ok: bool)
    requires !w.pc.Idle?
    ensures PendingIds(Answered(w, chains, ok)) <= PendingIds(w)
  {
    if w.pc.Topping? && ok && |w.pc.rest| > BATCH_LIMIT {
      var rest := w.pc.rest;
      forall id | id in PendingIds(Answered(w, chains, ok)) ensures id in PendingIds(w) {
        var k :| 0 <= k < |rest[BATCH_LIMIT..]| && id == rest[BATCH_LIMIT..][k].id;
        assert rest[BATCH_LIMIT + k].id == id;
      }
    }
  }

  lemma StartKeepsOk(b: Bench, all: seq<seq<Chain>>, i: nat, call: Call)
    requires BenchOk(b, all) && CanAct(b, Start(i, call)) && all[i] != []
    ensures BenchOk(Step(b, all, Start(i, call)), all)
  {
    hide Sound, Confines, AllAccounts, Owned;
    var b', w := Step(b, all, Start(i, call)), b.workers[i];
    assert WorkerOk(b.ledger, b.nextId, all[i], w);
    if w.draws >= TOP_UP_EVERY {
      var tops := TopUps(b.nextId, all[i]);
      TopUpsAcceptable(b.ledger, b.nextId, all[i]);
      forall k | 0 <= k < |tops| ensures b.nextId <= tops[k].id < b'.nextId && tops[k].credit in Priorities(all[i]) {
      }
    }
    forall j | 0 <= j < |all| ensures WorkerOk(b'.ledger, b'.nextId, all[j], b'.workers[j]) {
      assert WorkerOk(b.ledger, b.nextId, all[j], b.workers[j]);
      PendingBelow(b, all, j);
    }
    forall j | 0 <= j < |all| && j != i ensures PendingIds(b'.workers[i]) !! PendingIds(b'.workers[j]) {
      PendingBelow(b, all, j);
    }
  }

  /** Every request, loss and start keeps the invariant, whichever worker it is. */
  lemma StepKeepsOk(b: Bench, all: seq<seq<Chain>>, act: Act)
    requires BenchOk(b, all) && CanAct(b, act)
    ensures all[act.i] != [] && BenchOk(Step(b, all, act), all)
  {
    assert WorkerOk(b.ledger, b.nextId, all[act.i], b.workers[act.i]);
    match act
    case Start(i, call) => StartKeepsOk(b, all, i, call);
    case Send(i) => SendKeepsOk(b, all, i);
    case LoseRequest(i) => LostRequestKeepsOk(b, all, i);
    case LoseReply(i) => LostReplyKeepsOk(b, all, i);
  }

  lemma LostRequestKeepsOk(b: Bench, all: seq<seq<Chain>>, i: nat)
    requires BenchOk(b, all) && CanAct(b, LoseRequest(i)) && all[i] != []
    ensures BenchOk(Step(b, all, LoseRequest(i)), all)
  {
    hide Sound, Confines, AllAccounts, Owned;
    var b' := Step(b, all, LoseRequest(i));
    forall j | 0 <= j < |all| ensures WorkerOk(b'.ledger, b'.nextId, all[j], b'.workers[j]) {
      assert WorkerOk(b.ledger, b.nextId, all[j], b.workers[j]);
    }
  }

  /** The server has done its part, and the worker ends its call without counting it. */
  lemma LostReplyKeepsOk(b: Bench, all: seq<seq<Chain>>, i: nat)
    requires BenchOk(b, all) && CanAct(b, LoseReply(i)) && all[i] != []
    ensures BenchOk(Step(b, all, LoseReply(i)), all)
  {
    hide Sound, Confines, AllAccounts, Owned, Server, Request, Pending;
    var sent, b' := Step(b, all, Send(i)), Step(b, all, LoseReply(i));
    SendKeepsOk(b, all, i);
    assert WorkerOk(b.ledger, b.nextId, all[i], b.workers[i]);
    forall j | 0 <= j < |all| ensures WorkerOk(b'.ledger, b'.nextId, all[j], b'.workers[j]) {
      assert WorkerOk(sent.ledger, sent.nextId, all[j], sent.workers[j]);
    }
    forall j | 0 <= j < |all| && j != i ensures b'.workers[j] == sent.workers[j] {
    }
  }

  // Whole runs

  ghost predicate BenchRun(states: seq<Bench>, all: seq<seq<Chain>>, acts: seq<Act>) {
    && |states| == |acts| + 1 && |all| == |states[0].workers| && (forall i | 0 <= i < |all| :: all[i] != [])
    && forall k | 0 <= k < |acts| ::
         && |all| == |states[k].workers| && CanAct(states[k], acts[k])
         && states[k + 1] == Step(states[k], all, acts[k])
  }

  lemma {:induction false} RunKeepsOk(states: seq<Bench>, all: seq<seq<Chain>>, acts: seq<Act>, k: nat)
    requires BenchRun(states, all, acts) && BenchOk(states[0], all) && k < |states|
    ensures BenchOk(states[k], all)
  {
    hide BenchOk, Step;
    if k > 0 {
      RunKeepsOk(states, all, acts, k - 1);
      StepKeepsOk(states[k - 1], all, acts[k - 1]);
    }
  }

  /** Every draw, at the moment its request is served, is the waterfall on the ledger of
      that moment: a batch settles all chains, a direct debit takes the whole waterfall
      from A or changes nothing, and a chain sent after it settles the first chain. */
  lemma DrawIsWaterfall(b: Bench, all: seq<seq<Chain>>, i: nat)
    requires BenchOk(b, all) && i < |all| && (b.workers[i].pc.Drawing? || b.workers[i].pc.FallingBack?)
    ensures all[i] != [] && Owned(b.ledger, all[i])
    ensures
      var l, chains, pc := b.ledger, all[i], b.workers[i].pc;
      var l' := Step(b, all, Send(i)).ledger;
      if pc.Drawing? && Batched(pc.call) then
        if OneRequest(|chains|) then BatchSettled(l, l', chains, WATERFALL_TARGET) else l' == l
      else if pc.Drawing? then
        chains[0].a in l.accounts && chains[0].dest in l.accounts
        && (if l.accounts[chains[0].a].Headroom() >= WATERFALL_TARGET then
              && Waterfall(Avails(l, chains[0].Sources()), WATERFALL_TARGET) == [WATERFALL_TARGET, 0, 0, 0]
              && l' == Move(l, chains[0].a, chains[0].dest, WATERFALL_TARGET, b.nextId)
            else l' == l)
      else Settled(l, l', chains[0], WATERFALL_TARGET)
  {
    var l, chains, pc := b.ledger, all[i], b.workers[i].pc;
    assert WorkerOk(l, b.nextId, chains, b.workers[i]);
    assert ChainReady(l, chains[0]);
    hide Sound, Confines, CreateTransfers, Batch, BatchSettled, Settled, AllAccounts, Waterfall;
    if pc.FallingBack? {
      ChainServes(l, b.nextId, chains);
    } else if Batched(pc.call) {
      BatchLength(IdBlocks(b.nextId, |chains|), chains, WATERFALL_TARGET);
      DrawAll(l, b.nextId, chains);
    } else {
      assert chains[0].Sources()[0] == chains[0].a;
      DirectDebit(l, b.nextId, chains[0], WATERFALL_TARGET);
      if l.accounts[chains[0].a].Headroom() >= WATERFALL_TARGET {
        FirstPaysAll(l, chains[0], WATERFALL_TARGET);
      }
    }
  }

  function AllWorkers(w: nat, n: nat): (all: seq<seq<Chain>>)
    ensures |all| == w
  {
    seq(w, i requires 0 <= i < w => WorkerChains(i, n))
  }

  /** The benchmark as the set-up hands it over. */
  function AfterSetup(client: Ledger, nextId: TransferId, w: nat): Bench {
    Bench(client, nextId, seq(w, i => WorkerState(0, Idle)))
  }

  lemma SetupStartsOk(l: Ledger, nextId: TransferId, w: nat, n: nat)
    requires n > 0 && Sound(l) && forall id | id in l.used :: id < nextId
    requires forall i | 0 <= i < w :: Owned(l, WorkerChains(i, n))
    ensures BenchOk(AfterSetup(l, nextId, w), AllWorkers(w, n))
  {
    hide Sound, Owned, AllAccounts, WorkerChains;
    var b, all := AfterSetup(l, nextId, w), AllWorkers(w, n);
    forall i, j | 0 <= i < w && 0 <= j < w && i != j ensures AllAccounts(all[i]) !! AllAccounts(all[j]) {
      WorkersApart(n, i, j);
    }
  }

  /** The whole-run invariant: from the set-up on, whatever the workers call and in
      whatever order their requests arrive, debits equal credits, no constrained
      account is overdrawn, every chain of every worker is ready with its control
      accounts square, and every counter stays below its ceiling. */
  lemma WholeRun(
    l: Ledger, nextId: TransferId, w: nat, n: nat, states: seq<Bench>, acts: seq<Act>, k: nat)
    requires n > 0 && Sound(l) && forall id | id in l.used :: id < nextId
    requires forall i | 0 <= i < w :: Owned(l, WorkerChains(i, n))
    requires BenchRun(states, AllWorkers(w, n), acts) && states[0] == AfterSetup(l, nextId, w) && k < |states|
    ensures
      var b := states[k];
      && Sound(b.ledger) && |b.workers| == w
      && forall i | 0 <= i < w :: Owned(b.ledger, WorkerChains(i, n)) && b.workers[i].draws < TOP_UP_EVERY + n
  {
    SetupStartsOk(l, nextId, w, n);
    RunKeepsOk(states, AllWorkers(w, n), acts, k);
    forall i | 0 <= i < w
      ensures Owned(states[k].ledger, WorkerChains(i, n)) && states[k].workers[i].draws < TOP_UP_EVERY + n
    {
      assert WorkerOk(states[k].ledger, states[k].nextId, AllWorkers(w, n)[i], states[k].workers[i]);
    }
  }

  // The methods themselves

  /** All workers are different objects on one client, each in good order. */
  ghost predicate Staffed(client: Client, workers: seq<Worker>, n: nat)
    reads client, workers
  {
    && client.Valid()
    && (forall i | 0 <= i < |workers| ::
          workers[i].client == client && workers[i].chains == WorkerChains(i, n) && workers[i].Valid())
    && (forall i, j | 0 <= i < j < |workers| :: workers[i] != workers[j])
  }

  method MakeWorkers(client: Client, all: seq<seq<Chain>>, n: nat) returns (workers: seq<Worker>)
    requires client.Valid() && n > 0
    requires forall i | 0 <= i < |all| :: all[i] == WorkerChains(i, n) && Owned(client.ledger, all[i])
    ensures Staffed(client, workers, n) && |workers| == |all| && fresh(workers)
    ensures forall i | 0 <= i < |workers| :: workers[i].drawsCnt == 0
  {
    hide Owned, WorkerChains, Sound;
    workers := [];
    for i := 0 to |all|
      invariant |workers| == i && fresh(workers) && Staffed(client, workers, n)
      invariant forall j | 0 <= j < i :: workers[j].drawsCnt == 0
    {
      var worker := new Worker(client, all[i]);
      workers := workers + [worker];
    }
  }

  /** One call of one worker leaves every worker in good order. */
  method CallWorker(client: Client, workers: seq<Worker>, n: nat, i: nat, call: Call) returns (ok: bool)
    requires Staffed(client, workers, n) && i < |workers|
    modifies client, workers[i]
    ensures Staffed(client, workers, n)
  {
    ghost var before := client.ledger;
    var worker: Worker := workers[i];
    match call {
      case Hardcoded => ghost var mid; ok, mid := worker.DoHardcoded();
      case WithIDs => ghost var mid, base; ok, mid, base := worker.DoWithIDs(OwnSources(worker.chains));
      case OptimisticHardcoded => ghost var mid, ids; ok, mid, ids := worker.DoOptimistic();
      case OptimisticWithIDs =>
        var allIDs: seq<AccountId> := worker.chains[0].Sources();
        assert allIDs[..4] == allIDs;
        ghost var mid, ids; ok, mid, ids := worker.DoOptimisticWithIDs(allIDs);
    }
    forall j | 0 <= j < |workers| && j != i ensures workers[j].Valid() {
      WorkersStayApart(before, client.ledger, n, i, j);
    }
  }

  /** Set-up, workers, and any sequence of their calls. */
  method RunCalls(client: Client, w: nat, n: nat, schedule: seq<(nat, Call)>) returns (workers: seq<Worker>)
    requires n > 0 && client.Valid()
    requires SetupPossible(client.ledger, 7 * (w * n)) && Unopened(client.ledger, 7 * (w * n))
    requires forall k | 0 <= k < |schedule| :: schedule[k].0 < w
    modifies client
    ensures |workers| == w && fresh(workers) && Staffed(client, workers, n)
  {
    var all := SetupWaterfall(client, w, n);
    workers := MakeWorkers(client, all, n);
    for k := 0 to |schedule|
      invariant |workers| == w && fresh(workers) && Staffed(client, workers, n)
    {
      var ok := CallWorker(client, workers, n, schedule[k].0, schedule[k].1);
    }
  }
}
