/** The benchmark's set-up: opens seven accounts per chain and the funding bank, and
    pays every source its first balance. */
module WaterfallSetup {
  import opened TigerBeetle
  import opened WaterfallChain
  import opened WaterfallBatch
  import opened BankFunding
  import opened WaterfallWorker
  import opened Layout

  /** First balances of A, B, C and D. */
  const SOURCE_FUNDS: seq<nat> := [50, 50, 50, 1_000_000]

  // The account list

  /** Slot x of the layout: four constrained sources, destination, SETUP, LIMIT. */
  function SlotAt(x: nat): NewAccount {
    NewAccount(WATERFALL_BASE + x, x % 7 < 4 || x % 7 == 6)
  }

  function AccountsUpTo(x: nat): (batch: seq<NewAccount>)
    ensures |batch| == x + 1
  {
    [NewAccount(GLOBAL_BANK, false)] + seq(x, i requires 0 <= i => SlotAt(i))
  }

  lemma AccountsSnoc(x: nat)
    ensures AccountsUpTo(x + 1) == AccountsUpTo(x) + [SlotAt(x)]
  {
  }

  method BuildAccounts(w: nat, n: nat) returns (accounts: seq<NewAccount>)
    ensures accounts == AccountsUpTo(7 * (w * n))
  {
    accounts := [NewAccount(GLOBAL_BANK, false)];
    for i := 0 to w
      invariant accounts == AccountsUpTo(7 * (i * n))
    {
      for c := 0 to n
        invariant accounts == AccountsUpTo(7 * (i * n + c))
      {
        BasesAgree(i, c, n);
        accounts := AddChain(accounts, ChainBase(i, c, n), i * n + c);
      }
      assert (i + 1) * n == i * n + n;
    }
  }

  /** Sources, destination, SETUP and LIMIT of one chain. */
  method AddChain(accounts: seq<NewAccount>, b: AccountId, ghost x: nat) returns (more: seq<NewAccount>)
    requires accounts == AccountsUpTo(7 * x) && b == WATERFALL_BASE + 7 * x
    ensures more == AccountsUpTo(7 * (x + 1))
  {
    more := accounts;
    for j := 0 to 4
      invariant more == AccountsUpTo(7 * x + j)
    {
      AccountsSnoc(7 * x + j);
      more := more + [NewAccount(b + j, true)];
    }
    AccountsSnoc(7 * x + 4);
    more := more + [NewAccount(b + 4, false)];
    AccountsSnoc(7 * x + 5);
    more := more + [NewAccount(b + 5, false)];
    AccountsSnoc(7 * x + 6);
    more := more + [NewAccount(b + 6, true)];
  }

  /** The layout keeps clear of the bank, and the bank, if it exists already, may be
      overdrawn. The slots may exist already, with any balance and any flag. */
  ghost predicate SetupPossible(l: Ledger, x: nat) {
    && x <= GLOBAL_BANK - WATERFALL_BASE
    && (GLOBAL_BANK in l.accounts ==> !l.accounts[GLOBAL_BANK].constrained)
  }

  /** A server where the set-up has not run yet. */
  ghost predicate Unopened(l: Ledger, x: nat) {
    GLOBAL_BANK !in l.accounts && forall k | WATERFALL_BASE <= k < WATERFALL_BASE + x :: k !in l.accounts
  }

  /** The account that a request to open finds or makes. */
  function AfterRequest(l: Ledger, a: NewAccount): Account {
    if a.id in l.accounts then l.accounts[a.id] else Account(0, 0, 0, 0, a.constrained)
  }

  predicate SlotOpen(l: Ledger, l': Ledger, s: nat) {
    var k := WATERFALL_BASE + s;
    k in l'.accounts && l'.accounts[k] == AfterRequest(l, SlotAt(s))
  }

  ghost predicate LaidOut(l: Ledger, l': Ledger, x: nat) {
    && l'.used == l.used
    && (forall k :: k in l'.accounts <==>
          k in l.accounts || k == GLOBAL_BANK || WATERFALL_BASE <= k < WATERFALL_BASE + x)
    && (forall k | k in l.accounts :: l'.accounts[k] == l.accounts[k])
    && l'.accounts[GLOBAL_BANK] == AfterRequest(l, NewAccount(GLOBAL_BANK, false))
    && (forall s: nat | s < x :: SlotOpen(l, l', s))
  }

  /** Every slot exists afterwards: as it was, or with zero balances and the flag of
      its role. */
  lemma {:induction false} OpeningLaysOut(l: Ledger, x: nat)
    requires SetupPossible(l, x)
    ensures LaidOut(l, AfterOpening(l, AccountsUpTo(x)), x)
  {
    if x == 0 {
      assert AccountsUpTo(0) == [NewAccount(GLOBAL_BANK, false)];
      assert AfterOpening(l, AccountsUpTo(0)[..0]) == l;
    } else {
      OpeningLaysOut(l, x - 1);
      OpeningOneMore(l, x - 1);
      hide AfterOpening, AccountsUpTo;
      NextSlotLaidOut(l, AfterOpening(l, AccountsUpTo(x - 1)), x - 1);
    }
  }

  function OpenSlot(l: Ledger, x: nat): Ledger {
    l.(accounts := l.accounts[WATERFALL_BASE + x := AfterRequest(l, SlotAt(x))])
  }

  lemma OpeningOneMore(l: Ledger, x: nat)
    ensures AfterOpening(l, AccountsUpTo(x + 1)) == OpenSlot(AfterOpening(l, AccountsUpTo(x)), x)
  {
    AccountsSnoc(x);
    assert AccountsUpTo(x + 1)[..x + 1] == AccountsUpTo(x);
  }

  lemma NextSlotLaidOut(l: Ledger, before: Ledger, x: nat)
    requires LaidOut(l, before, x) && x < GLOBAL_BANK - WATERFALL_BASE
    ensures LaidOut(l, OpenSlot(before, x), x + 1)
  {
    forall s: nat | s < x + 1 ensures SlotOpen(l, OpenSlot(before, x), s) {
      assert s < x ==> SlotOpen(l, before, s);
    }
  }

  // The funding list

  function FundAt(base: TransferId, x: nat): Transfer {
    Credit(base + x, WATERFALL_BASE + x / 4 * 7 + x % 4, SOURCE_FUNDS[x % 4])
  }

  function FundsUpTo(base: TransferId, x: nat): (batch: seq<Transfer>)
    ensures |batch| == x
  {
    seq(x, i requires 0 <= i => FundAt(base, i))
  }

  lemma FundedOnce(base: TransferId, chains: nat, s: nat)
    requires s < 7 * chains
    ensures Received(FundsUpTo(base, 4 * chains), WATERFALL_BASE + s) == if s % 7 < 4 then SOURCE_FUNDS[s % 7] else 0
  {
    hide Received;
    var batch := FundsUpTo(base, 4 * chains);
    forall i, j | 0 <= i < j < |batch| ensures batch[i].credit != batch[j].credit {
      assert i / 4 < j / 4 || i % 4 < j % 4;
    }
    ReceivedOnce(batch, WATERFALL_BASE + s);
    if s % 7 < 4 {
      var x := s / 7 * 4 + s % 7;
      assert x / 4 == s / 7 && x % 4 == s % 7;
      assert batch[x].credit == WATERFALL_BASE + s;
    }
  }

  lemma FundsAcceptable(l: Ledger, base: TransferId, chains: nat)
    requires forall id | id in l.used :: id < base
    requires 7 * chains <= GLOBAL_BANK - WATERFALL_BASE
    requires forall k | WATERFALL_BASE <= k < WATERFALL_BASE + 7 * chains :: k in l.accounts
    ensures Acceptable(l, FundsUpTo(base, 4 * chains))
  {
    var batch := FundsUpTo(base, 4 * chains);
    forall x | 0 <= x < |batch|
      ensures batch[x].id == base + x && WATERFALL_BASE <= batch[x].credit < WATERFALL_BASE + 7 * chains
    {
      assert x / 4 < chains;
    }
  }

  lemma {:induction false} FundsOutlay(base: TransferId, chains: nat)
    ensures Outlay(FundsUpTo(base, 4 * chains)) == 1_000_150 * chains
  {
    if chains > 0 {
      var at := 4 * (chains - 1);
      var last := [FundAt(base, at), FundAt(base, at + 1), FundAt(base, at + 2), FundAt(base, at + 3)];
      assert FundsUpTo(base, 4 * chains) == FundsUpTo(base, at) + last;
      ReceivedSplit(FundsUpTo(base, at), last, 0);
      FundsOutlay(base, chains - 1);
      OutlayOfFour(last);
    }
  }

  lemma OutlayOfFour(four: seq<Transfer>)
    requires |four| == 4
    ensures Outlay(four) == four[0].amount + four[1].amount + four[2].amount + four[3].amount
  {
    assert four[1..][1..] == four[2..] && four[2..][1..] == four[3..] && four[3..][1..] == [];
    assert Outlay(four[3..]) == four[3].amount && Outlay(four[2..]) == four[2].amount + Outlay(four[3..]);
    assert Outlay(four[1..]) == four[1].amount + Outlay(four[2..]);
  }

  // What the set-up leaves behind

  /** A chain as it starts out. */
  ghost predicate StartsFull(l: Ledger, ch: Chain) {
    && ch.Accounts() <= l.accounts.Keys
    && l.accounts[ch.a] == l.accounts[ch.b] == l.accounts[ch.c] == Account(0, 0, 50, 0, true)
    && l.accounts[ch.d] == Account(0, 0, 1_000_000, 0, true)
    && l.accounts[ch.dest] == l.accounts[ch.setup] == Account(0, 0, 0, 0, false)
    && l.accounts[ch.limit] == Account(0, 0, 0, 0, true)
  }

  /** Slot s holds what it held, or nothing if it is new, and its role's funds. */
  predicate SlotFunded(l: Ledger, l': Ledger, s: nat) {
    var k, funds := WATERFALL_BASE + s, if s % 7 < 4 then SOURCE_FUNDS[s % 7] else 0;
    k in l'.accounts && l'.accounts[k] == Credited(AfterRequest(l, SlotAt(s)), funds)
  }

  /** All slots funded by the bank, and no other account changed. */
  ghost predicate AllFunded(l: Ledger, l': Ledger, chains: nat) {
    && GLOBAL_BANK in l'.accounts
    && l'.accounts[GLOBAL_BANK] == Debited(AfterRequest(l, NewAccount(GLOBAL_BANK, false)), 1_000_150 * chains)
    && (forall s: nat | s < 7 * chains :: SlotFunded(l, l', s))
    && (forall k | k in l.accounts && k != GLOBAL_BANK && !(WATERFALL_BASE <= k < WATERFALL_BASE + 7 * chains) ::
          k in l'.accounts && l'.accounts[k] == l.accounts[k])
  }

  lemma FundedOutside(base: TransferId, chains: nat, k: AccountId)
    requires !(WATERFALL_BASE <= k < WATERFALL_BASE + 7 * chains)
    ensures Received(FundsUpTo(base, 4 * chains), k) == 0
  {
    hide Received;
    var batch := FundsUpTo(base, 4 * chains);
    forall i | 0 <= i < |batch| ensures batch[i].credit != k {
      assert i / 4 < chains;
    }
    forall i, j | 0 <= i < j < |batch| ensures batch[i].credit != batch[j].credit {
      assert i / 4 < j / 4 || i % 4 < j % 4;
    }
    ReceivedOnce(batch, k);
  }

  lemma FundingFunds(l: Ledger, l1: Ledger, l2: Ledger, base: TransferId, chains: nat)
    requires LaidOut(l, l1, 7 * chains) && 7 * chains <= GLOBAL_BANK - WATERFALL_BASE
    requires BankReady(l1) && Paid(l1, l2, FundsUpTo(base, 4 * chains))
    ensures AllFunded(l, l2, chains)
  {
    hide Received, Outlay, FundsUpTo;
    FundsOutlay(base, chains);
    forall s: nat | s < 7 * chains ensures SlotFunded(l, l2, s) {
      FundedOnce(base, chains, s);
      assert SlotOpen(l, l1, s);
    }
    forall k | k in l.accounts && k != GLOBAL_BANK && !(WATERFALL_BASE <= k < WATERFALL_BASE + 7 * chains)
      ensures k in l2.accounts && l2.accounts[k] == l.accounts[k]
    {
      FundedOutside(base, chains, k);
    }
  }

  predicate FundedAt(l: Ledger, l': Ledger, a: NewAccount, funds: nat) {
    a.id in l'.accounts && l'.accounts[a.id] == Credited(AfterRequest(l, a), funds)
  }

  /** What the set-up has done to one chain. */
  predicate ChainFunded(l: Ledger, l': Ledger, ch: Chain) {
    && FundedAt(l, l', NewAccount(ch.a, true), 50) && FundedAt(l, l', NewAccount(ch.b, true), 50)
    && FundedAt(l, l', NewAccount(ch.c, true), 50) && FundedAt(l, l', NewAccount(ch.d, true), 1_000_000)
    && FundedAt(l, l', NewAccount(ch.dest, false), 0) && FundedAt(l, l', NewAccount(ch.setup, false), 0)
    && FundedAt(l, l', NewAccount(ch.limit, true), 0)
  }

  lemma SlotOfChain(l: Ledger, l': Ledger, chains: nat, x: nat, j: nat)
    requires AllFunded(l, l', chains) && x < chains && j < 7
    ensures
      FundedAt(l, l', NewAccount(WATERFALL_BASE + 7 * x + j, j < 4 || j == 6), if j < 4 then SOURCE_FUNDS[j] else 0)
  {
    var s := 7 * x + j;
    assert s % 7 == j && SlotFunded(l, l', s);
  }

  lemma SlotsOfChain(l: Ledger, l': Ledger, chains: nat, x: nat)
    requires AllFunded(l, l', chains) && x < chains
    ensures ChainFunded(l, l', ChainAt(WATERFALL_BASE + 7 * x))
  {
    hide AllFunded, FundedAt;
    SlotOfChain(l, l', chains, x, 0);
    SlotOfChain(l, l', chains, x, 1);
    SlotOfChain(l, l', chains, x, 2);
    SlotOfChain(l, l', chains, x, 3);
    SlotOfChain(l, l', chains, x, 4);
    SlotOfChain(l, l', chains, x, 5);
    SlotOfChain(l, l', chains, x, 6);
  }

  /** A new chain starts full; a chain that was ready is ready again. */
  lemma ChainFundedIsReady(l: Ledger, l': Ledger, ch: Chain)
    requires ch.Distinct() && ChainFunded(l, l', ch)
    ensures ch.Accounts() !! l.accounts.Keys ==> StartsFull(l', ch) && ChainReady(l', ch)
    ensures ChainReady(l, ch) ==> ChainReady(l', ch)
  {
    var src := ch.Sources();
    assert src[0] == ch.a && src[1] == ch.b && src[2] == ch.c && src[3] == ch.d;
    assert ch.a in ch.Accounts() && ch.b in ch.Accounts() && ch.c in ch.Accounts() && ch.d in ch.Accounts();
    assert ch.dest in ch.Accounts() && ch.setup in ch.Accounts() && ch.limit in ch.Accounts();
  }

  /** On a new server every worker finds its chains ready, full, and apart from all
      others; where the set-up has run before, a worker that was ready stays so. */
  lemma WorkerIsReady(l: Ledger, l': Ledger, w: nat, n: nat, i: nat)
    requires AllFunded(l, l', w * n) && SetupPossible(l, 7 * (w * n)) && i < w
    ensures Unopened(l, 7 * (w * n)) ==>
      Owned(l', WorkerChains(i, n)) && forall c | 0 <= c < n :: StartsFull(l', WorkerChains(i, n)[c])
    ensures Owned(l, WorkerChains(i, n)) ==> Owned(l', WorkerChains(i, n))
  {
    hide StartsFull, AllFunded, ChainFunded;
    var chains := WorkerChains(i, n);
    forall c | 0 <= c < n
      ensures Unopened(l, 7 * (w * n)) ==> ChainReady(l', chains[c]) && StartsFull(l', chains[c])
      ensures ChainReady(l, chains[c]) ==> ChainReady(l', chains[c])
      ensures GLOBAL_BANK !in chains[c].Accounts()
    {
      WorkerChainIsReady(l, l', w, n, i, c);
    }
    forall c, c' | 0 <= c < c' < n ensures chains[c].Accounts() !! chains[c'].Accounts() {
      BasesAgree(i, c, n);
      BasesAgree(i, c', n);
      ChainsDisjoint(ChainIndex(i, c, n), ChainIndex(i, c', n));
    }
    BankStaysReady(l, l', w * n);
  }

  lemma BankStaysReady(l: Ledger, l': Ledger, chains: nat)
    requires AllFunded(l, l', chains) && SetupPossible(l, 7 * chains)
    ensures BankReady(l')
  {
  }

  lemma WorkerChainIsReady(l: Ledger, l': Ledger, w: nat, n: nat, i: nat, c: nat)
    requires AllFunded(l, l', w * n) && SetupPossible(l, 7 * (w * n)) && i < w && c < n
    ensures
      var ch := ChainAt(ChainBase(i, c, n));
      && (Unopened(l, 7 * (w * n)) ==> ChainReady(l', ch) && StartsFull(l', ch))
      && (ChainReady(l, ch) ==> ChainReady(l', ch))
      && GLOBAL_BANK !in ch.Accounts()
  {
    hide StartsFull, AllFunded, ChainFunded, ChainReady;
    BasesAgree(i, c, n);
    IndexBound(i, c, w, n);
    SlotsOfChain(l, l', w * n, ChainIndex(i, c, n));
    ChainsDisjoint(ChainIndex(i, c, n), ChainIndex(i, c, n));
    ChainFundedIsReady(l, l', ChainAt(ChainBase(i, c, n)));
    BankOutsideLayout(w, n);
  }

  lemma ChainsApart(n: nat, i: nat, c: nat, j: nat, c': nat)
    requires i != j && c < n && c' < n
    ensures ChainAt(ChainBase(i, c, n)).Accounts() !! ChainAt(ChainBase(j, c', n)).Accounts()
  {
    BasesAgree(i, c, n);
    BasesAgree(j, c', n);
    if ChainIndex(i, c, n) == ChainIndex(j, c', n) {
      IndexInjective(i, c, j, c', n);
    }
    ChainsDisjoint(ChainIndex(i, c, n), ChainIndex(j, c', n));
  }

  lemma AccountsApart(mine: seq<Chain>, theirs: seq<Chain>)
    requires forall c, c' | 0 <= c < |mine| && 0 <= c' < |theirs| :: mine[c].Accounts() !! theirs[c'].Accounts()
    ensures AllAccounts(mine) !! AllAccounts(theirs)
  {
    hide Chain.Accounts;
  }

  lemma WorkersApart(n: nat, i: nat, j: nat)
    requires i != j
    ensures AllAccounts(WorkerChains(i, n)) !! AllAccounts(WorkerChains(j, n))
  {
    hide AllAccounts, Chain.Accounts, ChainAt, ChainBase;
    var mine, theirs := WorkerChains(i, n), WorkerChains(j, n);
    forall c, c' | 0 <= c < n && 0 <= c' < n ensures mine[c].Accounts() !! theirs[c'].Accounts() {
      ChainsApart(n, i, c, j, c');
    }
    AccountsApart(mine, theirs);
  }

  /** Different workers own different accounts, so what one does leaves the chains of
      the other as they are. */
  lemma WorkersStayApart(l: Ledger, l': Ledger, n: nat, i: nat, j: nat)
    requires Owned(l, WorkerChains(i, n)) && Owned(l, WorkerChains(j, n)) && i != j
    requires Confines(l, l', WorkerChains(i, n))
    ensures Owned(l', WorkerChains(j, n))
    ensures AllAccounts(WorkerChains(j, n)) <= l.accounts.Keys && SameOn(l, l', AllAccounts(WorkerChains(j, n)))
  {
    WorkersApart(n, i, j);
    hide AllAccounts, Owned, Confines, SameOn;
    OthersStayReady(l, l', WorkerChains(i, n), WorkerChains(j, n));
  }

  method BuildFunds(client: Client, w: nat, n: nat) returns (transfers: seq<Transfer>)
    requires client.Valid()
    modifies client`nextId
    ensures client.Valid() && transfers == FundsUpTo(old(client.nextId), 4 * (w * n))
    ensures client.nextId == old(client.nextId) + 4 * (w * n)
  {
    hide Sound;
    ghost var base := client.nextId;
    transfers := [];
    for i := 0 to w
      invariant client.Valid() && client.nextId == base + 4 * (i * n) && transfers == FundsUpTo(base, 4 * (i * n))
    {
      for c := 0 to n
        invariant client.Valid() && client.nextId == base + 4 * (i * n + c)
        invariant transfers == FundsUpTo(base, 4 * (i * n + c))
      {
        var b := ChainBase(i, c, n);
        BasesAgree(i, c, n);
        ghost var at := 4 * (i * n + c);
        for j := 0 to 4
          invariant client.Valid() && client.nextId == base + at + j && transfers == FundsUpTo(base, at + j)
        {
          assert (at + j) / 4 == i * n + c && (at + j) % 4 == j;
          var id := client.NewIds(1);
          transfers := transfers + [Credit(id[0], b + j, SOURCE_FUNDS[j])];
        }
      }
      assert (i + 1) * n == i * n + n;
    }
  }

  lemma NothingOpened(l: Ledger)
    ensures AfterOpening(l, []) == l
  {
  }

  method OpenInChunks(client: Client, accounts: seq<NewAccount>)
    requires client.Valid()
    modifies client`ledger
    ensures client.Valid() && client.ledger == AfterOpening(old(client.ledger), accounts)
    ensures client.ledger.used == old(client.ledger).used
  {
    hide AfterOpening, Sound;
    NothingOpened(client.ledger);
    var rest := accounts;
    ghost var done: seq<NewAccount> := [];
    while |rest| > 0
      invariant accounts == done + rest && client.Valid()
      invariant client.ledger == AfterOpening(old(client.ledger), done) && client.ledger.used == old(client.ledger).used
      decreases |rest|
    {
      var k := if BATCH_LIMIT > |rest| then |rest| else BATCH_LIMIT;
      OpeningSplit(old(client.ledger), done, rest[..k]);
      var accepted := client.CreateAccounts(rest[..k]);
      assert accounts == done + rest[..k] + rest[k..];
      done, rest := done + rest[..k], rest[k..];
    }
    assert done == accounts;
  }

  method ListWorkers(w: nat, n: nat) returns (workers: seq<seq<Chain>>)
    ensures |workers| == w && forall i | 0 <= i < w :: workers[i] == WorkerChains(i, n)
  {
    workers := [];
    for i := 0 to w
      invariant |workers| == i && forall x | 0 <= x < i :: workers[x] == WorkerChains(x, n)
    {
      var chains := [];
      for c := 0 to n
        invariant chains == WorkerChains(i, n)[..c]
      {
        chains := chains + [ChainAt(ChainBase(i, c, n))];
      }
      workers := workers + [chains];
    }
  }

  /** The whole set-up. It funds whatever the slots hold, so a second run funds the
      same chains again. */
  method SetupWaterfall(client: Client, w: nat, n: nat) returns (workers: seq<seq<Chain>>)
    requires client.Valid() && SetupPossible(client.ledger, 7 * (w * n))
    modifies client
    ensures client.Valid() && AllFunded(old(client.ledger), client.ledger, w * n)
    ensures |workers| == w && forall i | 0 <= i < w :: workers[i] == WorkerChains(i, n)
    ensures Unopened(old(client.ledger), 7 * (w * n)) ==> forall i | 0 <= i < w ::
      Owned(client.ledger, workers[i]) && forall c | 0 <= c < n :: StartsFull(client.ledger, WorkerChains(i, n)[c])
    ensures forall i | 0 <= i < w && Owned(old(client.ledger), workers[i]) :: Owned(client.ledger, workers[i])
  {
    hide LaidOut, AllFunded, Acceptable, StartsFull, Owned, Unopened;
    var accounts := BuildAccounts(w, n);
    ghost var before := client.ledger;
    OpenInChunks(client, accounts);
    OpeningLaysOut(before, 7 * (w * n));
    ghost var laid, base := client.ledger, client.nextId;
    var transfers := BuildFunds(client, w, n);
    FundsAccepted(before, laid, base, w * n);
    var ok := client.SubmitChunks(transfers);
    FundingFunds(before, laid, client.ledger, base, w * n);
    workers := ListWorkers(w, n);
    forall i | 0 <= i < w
      ensures Unopened(before, 7 * (w * n)) ==>
        Owned(client.ledger, workers[i]) && forall c | 0 <= c < n :: StartsFull(client.ledger, WorkerChains(i, n)[c])
      ensures Owned(before, workers[i]) ==> Owned(client.ledger, workers[i])
    {
      WorkerIsReady(before, client.ledger, w, n, i);
    }
  }

  lemma FundsAccepted(before: Ledger, laid: Ledger, base: TransferId, chains: nat)
    requires LaidOut(before, laid, 7 * chains) && SetupPossible(before, 7 * chains)
    requires forall id | id in laid.used :: id < base
    ensures BankReady(laid) && Acceptable(laid, FundsUpTo(base, 4 * chains))
  {
    FundsAcceptable(laid, base, chains);
  }
}
