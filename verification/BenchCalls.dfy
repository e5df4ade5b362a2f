/** What one call of one worker sends and achieves, request by request, next to whatever
    the other workers do in between. */
module BenchCalls {
  import opened Common
  import opened DrawCycle
  import opened TigerBeetle
  import opened WaterfallChain
  import opened WaterfallBatch
  import opened BankFunding
  import opened WaterfallWorker
  import opened BenchRuns

  // Between two requests of a worker

  /** Whatever another worker does, this one stays where it stands and so do its
      accounts. */
  lemma OthersKeepMine(b: Bench, all: seq<seq<Chain>>, act: Act, i: nat)
    requires BenchOk(b, all) && CanAct(b, act) && act.i != i && i < |all|
    ensures all[act.i] != [] && Step(b, all, act).workers[i] == b.workers[i]
    ensures AllAccounts(all[i]) <= b.ledger.accounts.Keys
    ensures SameOn(b.ledger, Step(b, all, act).ledger, AllAccounts(all[i]))
  {
    hide Sound, Confines, CreateTransfers, Server, Batch, Owned, Acceptable, AllAccounts, TopUps, Request;
    assert WorkerOk(b.ledger, b.nextId, all[i], b.workers[i]);
    assert WorkerOk(b.ledger, b.nextId, all[act.i], b.workers[act.i]);
    if !act.Start? {
      SenderStaysOk(b, all, act.i);
      OthersStayReady(b.ledger, Server(b.ledger, Request(b, all[act.i], b.workers[act.i].pc)).0, all[act.i], all[i]);
    } else {
      MineArePresent(b.ledger, all[i]);
    }
  }

  lemma MineArePresent(l: Ledger, chains: seq<Chain>)
    requires Owned(l, chains)
    ensures AllAccounts(chains) <= l.accounts.Keys
  {
    AccountsOf(l, chains);
  }

  lemma InRange(b: Bench, all: seq<seq<Chain>>)
    requires BenchOk(b, all)
    ensures |b.workers| == |all|
  {
  }

  lemma {:induction false} WaitsUnchanged(
    states: seq<Bench>, all: seq<seq<Chain>>, acts: seq<Act>, k: nat, m: nat, i: nat)
    requires BenchRun(states, all, acts) && BenchOk(states[0], all) && k <= m < |states| && i < |all|
    requires forall j | k <= j < m :: acts[j].i != i
    ensures BenchOk(states[k], all) && BenchOk(states[m], all)
    ensures states[m].workers[i] == states[k].workers[i]
    ensures AllAccounts(all[i]) <= states[k].ledger.accounts.Keys
    ensures SameOn(states[k].ledger, states[m].ledger, AllAccounts(all[i]))
    decreases m - k
  {
    hide BenchOk, Step, AllAccounts, CanAct;
    RunKeepsOk(states, all, acts, k);
    InRange(states[k], all);
    if k < m {
      OthersKeepMine(states[k], all, acts[k], i);
      WaitsUnchanged(states, all, acts, k + 1, m, i);
    } else {
      StandsSame(states[k], all, i);
    }
  }

  lemma StandsSame(b: Bench, all: seq<seq<Chain>>, i: nat)
    requires BenchOk(b, all) && i < |all|
    ensures AllAccounts(all[i]) <= b.ledger.accounts.Keys && SameOn(b.ledger, b.ledger, AllAccounts(all[i]))
  {
    hide AllAccounts, Owned;
    assert WorkerOk(b.ledger, b.nextId, all[i], b.workers[i]);
    MineArePresent(b.ledger, all[i]);
  }

  // The optimistic draw

  ghost predicate AboutToTry(b: Bench, all: seq<seq<Chain>>, i: nat) {
    && BenchOk(b, all) && i < |all| && b.workers[i].pc.Drawing?
    && (b.workers[i].pc.call.OptimisticHardcoded? || b.workers[i].pc.call.OptimisticWithIDs?)
  }

  /** After the direct debit the call goes on exactly if A held too little, with the
      full chain as its next request; either way the draw is counted. */
  lemma TriesThenChain(b: Bench, all: seq<seq<Chain>>, i: nat)
    requires AboutToTry(b, all, i)
    ensures CanAct(b, Send(i)) && all[i] != [] && all[i][0].a in b.ledger.accounts
    ensures
      var ch, b' := all[i][0], Step(b, all, Send(i));
      var w' := b'.workers[i];
      && w'.draws == b.workers[i].draws + 1
      && (w'.pc.Idle? <==> b.ledger.accounts[ch.a].Headroom() >= WATERFALL_TARGET)
      && (!w'.pc.Idle? ==>
            && b'.ledger == b.ledger
            && Request(b', all[i], w'.pc) == AppendChain([], IdBlock(b'.nextId, 7), ch, WATERFALL_TARGET))
  {
    hide Sound, Confines, CreateTransfers, Owned, Serves;
    assert WorkerOk(b.ledger, b.nextId, all[i], b.workers[i]);
    ReadyFirst(b.ledger, all[i]);
    DirectServes(b.ledger, b.nextId, all[i]);
  }

  lemma ReadyFirst(l: Ledger, chains: seq<Chain>)
    requires Owned(l, chains) && chains != []
    ensures ChainReady(l, chains[0]) && chains[0].a in l.accounts
  {
    assert chains[0].Sources()[0] == chains[0].a && ChainReady(l, chains[0]);
  }

  /** In any run: until it acts again, the worker's next request is that chain, if A held
      too little, and there is none if A paid. */
  lemma NextIsTheChain(states: seq<Bench>, all: seq<seq<Chain>>, acts: seq<Act>, k: nat, m: nat, i: nat)
    requires BenchRun(states, all, acts) && BenchOk(states[0], all) && k < m < |states|
    requires AboutToTry(states[k], all, i) && acts[k] == Send(i) && forall j | k < j < m :: acts[j].i != i
    ensures BenchOk(states[m], all) && all[i] != [] && all[i][0].a in states[k].ledger.accounts
    ensures
      var ch, pc := all[i][0], states[m].workers[i].pc;
      && (pc.Idle? <==> states[k].ledger.accounts[ch.a].Headroom() >= WATERFALL_TARGET)
      && (!pc.Idle? ==>
            Request(states[m], all[i], pc) == AppendChain([], IdBlock(states[m].nextId, 7), ch, WATERFALL_TARGET))
  {
    hide BenchOk, CreateTransfers, Server, TopUps, AllAccounts;
    TriesThenChain(states[k], all, i);
    WaitsUnchanged(states, all, acts, k + 1, m, i);
  }

  /** In any run: a direct debit that failed and the chain after it leave the worker's
      first chain as one chain on the ledger of the debit would, funded or not. */
  lemma TryAndChainInRun(states: seq<Bench>, all: seq<seq<Chain>>, acts: seq<Act>, k: nat, m: nat, i: nat)
    requires BenchRun(states, all, acts) && BenchOk(states[0], all) && k < m < |acts|
    requires AboutToTry(states[k], all, i) && acts[k] == Send(i) && forall j | k < j < m :: acts[j].i != i
    requires !states[m].workers[i].pc.Idle? && acts[m] == Send(i)
    ensures all[i] != [] && ChainReady(states[k].ledger, all[i][0])
    ensures Settled(states[k].ledger, states[m + 1].ledger, all[i][0], WATERFALL_TARGET)
    ensures states[m + 1].workers[i].pc.Idle?
  {
    hide BenchOk, CreateTransfers, Server, TopUps, AllAccounts, Settled, ChainReady, Owned;
    var b, t, chains := states[k], states[m], all[i];
    TriesThenChain(b, all, i);
    WaitsUnchanged(states, all, acts, k + 1, m, i);
    TryingIsOwned(b, all, i);
    TriedIsFallingBack(b, all, i);
    DrawIsWaterfall(t, all, i);
    FirstOfAll(chains);
    SameOnChain(b.ledger, t.ledger, chains[0]);
    SameThenSettled(b.ledger, t.ledger, states[m + 1].ledger, chains[0], WATERFALL_TARGET);
  }

  lemma TryingIsOwned(b: Bench, all: seq<seq<Chain>>, i: nat)
    requires AboutToTry(b, all, i)
    ensures all[i] != [] && Owned(b.ledger, all[i]) && ChainReady(b.ledger, all[i][0])
  {
    assert WorkerOk(b.ledger, b.nextId, all[i], b.workers[i]);
    ReadyFirst(b.ledger, all[i]);
  }

  lemma TriedIsFallingBack(b: Bench, all: seq<seq<Chain>>, i: nat)
    requires AboutToTry(b, all, i) && all[i] != []
    ensures var pc := Step(b, all, Send(i)).workers[i].pc; pc.Idle? || pc.FallingBack?
  {
    hide BenchOk, CreateTransfers, Server, Request;
    InRange(b, all);
  }

  lemma FirstOfAll(chains: seq<Chain>)
    requires chains != []
    ensures chains[0].Accounts() <= AllAccounts(chains)
  {
  }

  /** The requests of one optimistic draw served one after the other: the net effect of
      the full chain on the ledger it began on. The destination gets the target if and
      only if the chain was funded, and nothing otherwise. */
  lemma OptimisticAlone(b: Bench, all: seq<seq<Chain>>, i: nat) returns (end: Bench)
    requires AboutToTry(b, all, i)
    ensures CanAct(b, Send(i)) && all[i] != [] && ChainReady(b.ledger, all[i][0])
    ensures
      var b1 := Step(b, all, Send(i));
      if b1.workers[i].pc.Idle? then end == b1 else CanAct(b1, Send(i)) && end == Step(b1, all, Send(i))
    ensures BenchOk(end, all) && end.workers[i] == WorkerState(b.workers[i].draws + 1, Idle)
    ensures
      var ch := all[i][0];
      var full := CreateTransfers(b.ledger, AppendChain([], IdBlock(b.nextId + 1, 7), ch, WATERFALL_TARGET), 0);
      && SameNet(end.ledger, full.ledger) && Confines(b.ledger, end.ledger, all[i])
      && ch.dest in b.ledger.accounts && ch.dest in end.ledger.accounts
      && end.ledger.accounts[ch.dest].Net()
         == b.ledger.accounts[ch.dest].Net() + if Funded(b.ledger, ch, WATERFALL_TARGET) then WATERFALL_TARGET else 0
  {
    hide BenchOk, CreateTransfers, ChainReady, Owned, Confines, SameNet, Settled, Funded;
    TryingIsOwned(b, all, i);
    TriesThenChain(b, all, i);
    StepKeepsOk(b, all, Send(i));
    var b1, chains := Step(b, all, Send(i)), all[i];
    if b1.workers[i].pc.Idle? {
      end := b1;
    } else {
      end := Step(b1, all, Send(i));
      StepKeepsOk(b1, all, Send(i));
    }
    RequestsAreOptimistic(b, all, i, end);
    IdsAreFresh(b, all);
    OptimisticKeeps(b.ledger, b.nextId, IdBlock(b.nextId + 1, 7), chains, WATERFALL_TARGET);
    DestinationGains(b.ledger, end.ledger, b.nextId + 1, chains[0]);
  }

  lemma IdsAreFresh(b: Bench, all: seq<seq<Chain>>)
    requires BenchOk(b, all)
    ensures Fresh(b.ledger, [b.nextId] + IdBlock(b.nextId + 1, 7)) && Fresh(b.ledger, IdBlock(b.nextId + 1, 7))
  {
    var ids := [b.nextId] + IdBlock(b.nextId + 1, 7);
    assert forall j | 0 <= j < 8 :: ids[j] == b.nextId + j;
  }

  lemma RequestsAreOptimistic(b: Bench, all: seq<seq<Chain>>, i: nat, end: Bench)
    requires AboutToTry(b, all, i) && all[i] != []
    requires
      var b1 := Step(b, all, Send(i));
      |b1.workers| == |all| && if b1.workers[i].pc.Idle? then end == b1 else end == Step(b1, all, Send(i))
    ensures end.ledger
         == Optimistic(b.ledger, b.nextId, IdBlock(b.nextId + 1, 7), all[i][0], WATERFALL_TARGET).ledger
    ensures end.workers[i].pc.Idle? && end.workers[i].draws == b.workers[i].draws + 1
  {
    hide BenchOk, CreateTransfers;
    InRange(b, all);
  }

  lemma DestinationGains(l: Ledger, l': Ledger, base: TransferId, ch: Chain)
    requires ChainReady(l, ch) && Fresh(l, IdBlock(base, 7))
    requires SameNet(l', CreateTransfers(l, AppendChain([], IdBlock(base, 7), ch, WATERFALL_TARGET), 0).ledger)
    ensures ch.dest in l.accounts && ch.dest in l'.accounts
    ensures l'.accounts[ch.dest].Net()
         == l.accounts[ch.dest].Net() + if Funded(l, ch, WATERFALL_TARGET) then WATERFALL_TARGET else 0
  {
    hide CreateTransfers, Funded;
    SingleChain(l, IdBlock(base, 7), ch, WATERFALL_TARGET);
    assert ch.dest in ch.Accounts();
  }

  // Top-up first

  ghost predicate SendsTo(b: Bench, all: seq<seq<Chain>>, i: nat, n: nat, end: Bench)
    decreases n
  {
    if n == 0 then b == end
    else
      && CanAct(b, Send(i)) && |all| == |b.workers| && all[i] != []
      && SendsTo(Step(b, all, Send(i)), all, i, n - 1, end)
  }

  /** The rest of a top-up, chunk after chunk, is paid in full; then comes the draw. */
  lemma {:induction false} ToppingAlone(b: Bench, all: seq<seq<Chain>>, i: nat) returns (n: nat, mid: Bench)
    requires BenchOk(b, all) && i < |all| && b.workers[i].pc.Topping?
    ensures SendsTo(b, all, i, n, mid) && BenchOk(mid, all)
    ensures mid.workers[i] == WorkerState(0, Drawing(b.workers[i].pc.call))
    ensures BankReady(b.ledger) && Paid(b.ledger, mid.ledger, b.workers[i].pc.rest)
    decreases |b.workers[i].pc.rest|
  {
    hide Sound, CreateTransfers, Paid, Owned, Acceptable;
    assert WorkerOk(b.ledger, b.nextId, all[i], b.workers[i]);
    hide BenchOk, WorkerOk;
    var rest := b.workers[i].pc.rest;
    var k := Min(|rest|, BATCH_LIMIT);
    var b1 := Step(b, all, Send(i));
    StepKeepsOk(b, all, Send(i));
    InRange(b1, all);
    ChunkIsPaid(b, all, i);
    if |rest| <= BATCH_LIMIT {
      assert rest[..k] == rest;
      n, mid := 1, b1;
    } else {
      var m;
      m, mid := ToppingAlone(b1, all, i);
      n := m + 1;
      assert rest == rest[..k] + rest[k..];
      PaidTwice(b.ledger, b1.ledger, mid.ledger, rest[..k], rest[k..]);
    }
  }

  lemma ChunkIsPaid(b: Bench, all: seq<seq<Chain>>, i: nat)
    requires BenchOk(b, all) && i < |all| && b.workers[i].pc.Topping?
    ensures all[i] != [] && CanAct(b, Send(i)) && |all| == |b.workers| && BankReady(b.ledger)
    ensures
      var b1, rest, k := Step(b, all, Send(i)), b.workers[i].pc.rest, Min(|b.workers[i].pc.rest|, BATCH_LIMIT);
      && Paid(b.ledger, b1.ledger, rest[..k])
      && b1.workers[i] == WorkerState(0, if |rest| <= BATCH_LIMIT then Drawing(b.workers[i].pc.call)
                                         else Topping(b.workers[i].pc.call, rest[k..]))
  {
    hide Sound, CreateTransfers, Paid, Owned, Acceptable;
    assert WorkerOk(b.ledger, b.nextId, all[i], b.workers[i]);
    var rest := b.workers[i].pc.rest;
    var k := Min(|rest|, BATCH_LIMIT);
    OwnedHasBank(b.ledger, all[i]);
    assert rest == rest[..k] + rest[k..];
    AcceptableSplit(b.ledger, rest[..k], rest[k..]);
    CreditsArePaid(b.ledger, rest[..k], 0);
  }

  /** Before its draw a call tops up if and only if 150 draws have been counted, with the
      counter at zero from then on: fifty for A, B and C of every chain. */
  lemma TopsUpFirst(b: Bench, all: seq<seq<Chain>>, i: nat, call: Call) returns (n: nat, mid: Bench)
    requires BenchOk(b, all) && i < |all| && b.workers[i].pc.Idle?
    ensures all[i] != [] && Owned(b.ledger, all[i]) && CanAct(b, Start(i, call)) && |all| == |b.workers|
    ensures SendsTo(Step(b, all, Start(i, call)), all, i, n, mid) && BenchOk(mid, all)
    ensures if b.workers[i].draws < TOP_UP_EVERY then
              n == 0 && mid.ledger == b.ledger && mid.workers[i] == WorkerState(b.workers[i].draws, Drawing(call))
            else
              n > 0 && ToppedUp(b.ledger, mid.ledger, all[i]) && mid.workers[i] == WorkerState(0, Drawing(call))
  {
    hide Sound, CreateTransfers, Paid, Owned, TopUps, ToppedUp;
    assert WorkerOk(b.ledger, b.nextId, all[i], b.workers[i]);
    var b1 := Step(b, all, Start(i, call));
    StepKeepsOk(b, all, Start(i, call));
    if b.workers[i].draws < TOP_UP_EVERY {
      n, mid := 0, b1;
    } else {
      n, mid := ToppingAlone(b1, all, i);
      TopUpsPaid(b.ledger, mid.ledger, b.nextId, all[i]);
    }
  }

  // The batch draw

  /** After the one request of a batch call the worker has counted all its draws if the
      batch fits one request and every chain was funded, and none if not. */
  lemma CountsAllOrNone(b: Bench, all: seq<seq<Chain>>, i: nat)
    requires BenchOk(b, all) && i < |all| && b.workers[i].pc.Drawing?
    requires b.workers[i].pc.call.Hardcoded? || b.workers[i].pc.call.WithIDs?
    ensures all[i] != [] && Owned(b.ledger, all[i])
    ensures
      var chains := all[i];
      var paid := OneRequest(|chains|) && forall c | 0 <= c < |chains| :: Funded(b.ledger, chains[c], WATERFALL_TARGET);
      Step(b, all, Send(i)).workers[i] == WorkerState(b.workers[i].draws + (if paid then |chains| else 0), Idle)
  {
    hide Sound, CreateTransfers, Owned, Batch, Funded;
    assert WorkerOk(b.ledger, b.nextId, all[i], b.workers[i]);
    BatchLength(IdBlocks(b.nextId, |all[i]|), all[i], WATERFALL_TARGET);
    DrawAll(b.ledger, b.nextId, all[i]);
  }

  // Losses

  /** A request that got lost has changed nothing; a reply that got lost has left the
      ledger as the request would. Either way the call is over and not counted. */
  lemma LossesAreNotCounted(b: Bench, all: seq<seq<Chain>>, i: nat)
    requires BenchOk(b, all) && i < |all| && !b.workers[i].pc.Idle?
    ensures all[i] != [] && |all| == |b.workers| && CanAct(b, Send(i))
    ensures
      var lost, late := Step(b, all, LoseRequest(i)), Step(b, all, LoseReply(i));
      && lost.ledger == b.ledger && late.ledger == Step(b, all, Send(i)).ledger
      && lost.workers == late.workers == b.workers[i := WorkerState(b.workers[i].draws, Idle)]
  {
    assert WorkerOk(b.ledger, b.nextId, all[i], b.workers[i]);
    hide BenchOk, Server, Request;
  }
}
