/** One benchmark worker: it owns some chains, draws on all of them in one call or
    on the first of them optimistically, and tops the priority sources up. */
module WaterfallWorker {
  import opened DrawCycle
  import opened TigerBeetle
  import opened WaterfallChain
  import opened WaterfallBatch
  import opened BankFunding

  const TOP_UP_AMOUNT: nat := 50

  // The top-up list

  /** Sources A, B and C of every chain, chain by chain. */
  function Priorities(chains: seq<Chain>): (tos: seq<AccountId>)
    ensures |tos| == 3 * |chains|
  {
    seq(3 * |chains|, i requires 0 <= i < 3 * |chains| => chains[i / 3].Sources()[i % 3])
  }

  function TopUps(base: TransferId, chains: seq<Chain>): (tops: seq<Transfer>)
    ensures |tops| == 3 * |chains|
  {
    seq(3 * |chains|, i requires 0 <= i < 3 * |chains| => Credit(base + i, Priorities(chains)[i], TOP_UP_AMOUNT))
  }

  lemma {:induction false} ReceivedOnce(batch: seq<Transfer>, k: AccountId)
    requires forall i, j | 0 <= i < j < |batch| :: batch[i].credit != batch[j].credit
    ensures forall i | 0 <= i < |batch| && batch[i].credit == k :: Received(batch, k) == batch[i].amount
    ensures (forall i | 0 <= i < |batch| :: batch[i].credit != k) ==> Received(batch, k) == 0
  {
    if batch != [] {
      var tail := batch[1..];
      assert forall i | 1 <= i < |batch| :: batch[i] == tail[i - 1];
      ReceivedOnce(tail, k);
    }
  }

  lemma {:induction false} OutlayOf(batch: seq<Transfer>, amount: nat)
    requires forall i | 0 <= i < |batch| :: batch[i].amount == amount
    ensures Outlay(batch) == |batch| * amount
  {
    if batch != [] {
      OutlayOf(batch[1..], amount);
    }
  }

  /** The share of one chain in the top-up. */
  ghost predicate ChainToppedUp(l: Ledger, l': Ledger, ch: Chain) {
    && ch.Accounts() <= l.accounts.Keys && ch.Accounts() <= l'.accounts.Keys
    && (forall k | k in ch.Accounts() ::
          l'.accounts[k] == if k in {ch.a, ch.b, ch.c} then Credited(l.accounts[k], TOP_UP_AMOUNT) else l.accounts[k])
  }

  /** Fifty more for A, B and C of every chain, paid by the bank. */
  ghost predicate ToppedUp(l: Ledger, l': Ledger, chains: seq<Chain>)
    requires AllReady(l, chains) && BankReady(l)
  {
    && l'.accounts.Keys == l.accounts.Keys
    && (forall i | 0 <= i < |chains| :: ChainToppedUp(l, l', chains[i]))
    && l'.accounts[GLOBAL_BANK] == Debited(l.accounts[GLOBAL_BANK], 3 * |chains| * TOP_UP_AMOUNT)
    && SameOn(l, l', l.accounts.Keys - AllAccounts(chains) - {GLOBAL_BANK})
  }

  ghost predicate Owned(l: Ledger, chains: seq<Chain>) {
    && AllReady(l, chains) && BankReady(l) && GLOBAL_BANK !in AllAccounts(chains)
  }

  lemma PrioritiesDistinct(l: Ledger, chains: seq<Chain>)
    requires Owned(l, chains)
    ensures
      var tos := Priorities(chains);
      && (forall i, j | 0 <= i < j < |tos| :: tos[i] != tos[j])
      && (forall i | 0 <= i < |tos| :: tos[i] in l.accounts && tos[i] != GLOBAL_BANK && tos[i] in AllAccounts(chains))
  {
    var tos := Priorities(chains);
    forall i | 0 <= i < |tos|
      ensures tos[i] in chains[i / 3].Accounts() && tos[i] in AllAccounts(chains) && tos[i] in l.accounts
    {
      assert chains[i / 3].Distinct();
    }
    forall i, j | 0 <= i < j < |tos| ensures tos[i] != tos[j] {
      if i / 3 == j / 3 {
        assert i % 3 != j % 3;
      }
    }
  }

  lemma TopUpsAcceptable(l: Ledger, base: TransferId, chains: seq<Chain>)
    requires Owned(l, chains) && forall id | id in l.used :: id < base
    ensures Acceptable(l, TopUps(base, chains))
  {
    hide Priorities, AllAccounts, Owned;
    PrioritiesDistinct(l, chains);
    var tops := TopUps(base, chains);
    assert forall i | 0 <= i < |tops| :: tops[i].id == base + i && tops[i].credit == Priorities(chains)[i];
  }

  lemma PriorityMembers(l: Ledger, chains: seq<Chain>, c: nat)
    requires Owned(l, chains) && c < |chains|
    ensures
      var tos := Priorities(chains);
      var ch := chains[c];
      && tos[3 * c] == ch.a && tos[3 * c + 1] == ch.b && tos[3 * c + 2] == ch.c
      && (forall i | 0 <= i < |tos| :: tos[i] !in {ch.d, ch.dest, ch.setup, ch.limit})
  {
    var tos := Priorities(chains);
    var ch := chains[c];
    forall i | 0 <= i < |tos| ensures tos[i] !in {ch.d, ch.dest, ch.setup, ch.limit} {
      assert tos[i] in {chains[i / 3].a, chains[i / 3].b, chains[i / 3].c};
      assert tos[i] in chains[i / 3].Accounts();
      assert ch.Distinct();
    }
  }

  lemma TopUpsReceived(l: Ledger, base: TransferId, chains: seq<Chain>, k: AccountId)
    requires Owned(l, chains)
    ensures
      var tos := Priorities(chains);
      && (forall i | 0 <= i < |tos| && tos[i] == k :: Received(TopUps(base, chains), k) == TOP_UP_AMOUNT)
      && ((forall i | 0 <= i < |tos| :: tos[i] != k) ==> Received(TopUps(base, chains), k) == 0)
  {
    var tops := TopUps(base, chains);
    PrioritiesDistinct(l, chains);
    assert forall i | 0 <= i < |tops| :: tops[i].credit == Priorities(chains)[i] && tops[i].amount == TOP_UP_AMOUNT;
    ReceivedOnce(tops, k);
  }

  lemma ReceivedByChain(l: Ledger, base: TransferId, chains: seq<Chain>, c: nat, k: AccountId)
    requires Owned(l, chains) && c < |chains| && k in chains[c].Accounts()
    ensures Received(TopUps(base, chains), k)
         == if k in {chains[c].a, chains[c].b, chains[c].c} then TOP_UP_AMOUNT else 0
  {
    PriorityMembers(l, chains, c);
    TopUpsReceived(l, base, chains, k);
    assert chains[c].Distinct();
  }

  lemma ChainIsToppedUp(l: Ledger, l': Ledger, base: TransferId, chains: seq<Chain>, c: nat)
    requires Owned(l, chains) && Paid(l, l', TopUps(base, chains)) && c < |chains|
    ensures ChainToppedUp(l, l', chains[c])
  {
    var ch := chains[c];
    assert ChainReady(l, ch);
    forall k | k in ch.Accounts()
      ensures l'.accounts[k]
           == if k in {ch.a, ch.b, ch.c} then Credited(l.accounts[k], TOP_UP_AMOUNT) else l.accounts[k]
    {
      assert k in AllAccounts(chains) && k != GLOBAL_BANK;
      ReceivedByChain(l, base, chains, c, k);
    }
  }

  lemma TopUpsOutlay(base: TransferId, chains: seq<Chain>)
    ensures Outlay(TopUps(base, chains)) == 3 * |chains| * TOP_UP_AMOUNT
  {
    OutlayOf(TopUps(base, chains), TOP_UP_AMOUNT);
  }

  lemma ChainsAreToppedUp(l: Ledger, l': Ledger, base: TransferId, chains: seq<Chain>)
    requires Owned(l, chains) && Paid(l, l', TopUps(base, chains))
    ensures forall c | 0 <= c < |chains| :: ChainToppedUp(l, l', chains[c]) && ChainReady(l', chains[c])
  {
    forall c | 0 <= c < |chains|
      ensures ChainToppedUp(l, l', chains[c]) && ChainReady(l', chains[c])
    {
      ChainIsToppedUp(l, l', base, chains, c);
      CreditKeepsReady(l, l', chains[c]);
    }
  }

  lemma OthersAreKept(l: Ledger, l': Ledger, base: TransferId, chains: seq<Chain>)
    requires Owned(l, chains) && Paid(l, l', TopUps(base, chains))
    ensures SameOn(l, l', l.accounts.Keys - AllAccounts(chains) - {GLOBAL_BANK})
  {
    hide TopUps, Priorities, AllAccounts, Received, Ids, Outlay, Owned;
    PrioritiesDistinct(l, chains);
    forall k | k in l.accounts.Keys - AllAccounts(chains) - {GLOBAL_BANK} ensures l'.accounts[k] == l.accounts[k] {
      TopUpsReceived(l, base, chains, k);
    }
  }

  lemma TopUpsPaid(l: Ledger, l': Ledger, base: TransferId, chains: seq<Chain>)
    requires Owned(l, chains) && Paid(l, l', TopUps(base, chains))
    ensures ToppedUp(l, l', chains) && Owned(l', chains)
  {
    ChainsAreToppedUp(l, l', base, chains);
    OthersAreKept(l, l', base, chains);
    TopUpsOutlay(base, chains);
  }

  lemma CreditKeepsReady(l: Ledger, l': Ledger, ch: Chain)
    requires ChainReady(l, ch) && ChainToppedUp(l, l', ch)
    ensures ChainReady(l', ch)
  {
    var s := ch.Sources();
    assert s[0] == ch.a && s[1] == ch.b && s[2] == ch.c && s[3] == ch.d;
    assert forall i | 0 <= i < 4 :: s[i] in ch.Accounts();
    assert ch.setup in ch.Accounts() && ch.limit in ch.Accounts();
  }

  // Several workers on one ledger

  /** Everything that changed is the worker's own, or the bank's counters. */
  ghost predicate Confines(l: Ledger, l': Ledger, chains: seq<Chain>) {
    && l'.accounts.Keys == l.accounts.Keys
    && SameOn(l, l', l.accounts.Keys - AllAccounts(chains) - {GLOBAL_BANK})
    && (BankReady(l) ==> BankReady(l'))
  }

  lemma ConfinesTwice(l: Ledger, l1: Ledger, l2: Ledger, chains: seq<Chain>)
    requires Confines(l, l1, chains) && Confines(l1, l2, chains)
    ensures Confines(l, l2, chains)
  {
    hide AllAccounts;
  }

  lemma AccountsOf(l: Ledger, chains: seq<Chain>)
    requires AllReady(l, chains)
    ensures AllAccounts(chains) <= l.accounts.Keys
    ensures forall i | 0 <= i < |chains| :: chains[i].Accounts() <= AllAccounts(chains)
  {
    forall k | k in AllAccounts(chains) ensures k in l.accounts {
      var i :| 0 <= i < |chains| && k in chains[i].Accounts();
      assert ChainReady(l, chains[i]);
    }
  }

  /** Whatever one worker does, the chains of the others stay ready, with the balances
      they had. */
  lemma OthersStayReady(l: Ledger, l': Ledger, mine: seq<Chain>, theirs: seq<Chain>)
    requires Owned(l, mine) && Owned(l, theirs) && AllAccounts(mine) !! AllAccounts(theirs)
    requires Confines(l, l', mine)
    ensures Owned(l', theirs)
    ensures AllAccounts(theirs) <= l.accounts.Keys && SameOn(l, l', AllAccounts(theirs))
  {
    hide AllAccounts, ChainReady, BankReady, Chain.Accounts;
    AccountsOf(l, theirs);
    assert SameOn(l, l', AllAccounts(theirs));
    forall i | 0 <= i < |theirs| ensures ChainReady(l', theirs[i]) {
      SameOnChain(l, l', theirs[i]);
    }
  }

  // The draws

  /** A chain with its sources replaced by the ones the metadata names. */
  function WithSources(ch: Chain, ids: seq<AccountId>): Chain
    requires |ids| >= 4
  {
    ch.(a := ids[0], b := ids[1], c := ids[2], d := ids[3])
  }

  function IdBlocks(base: TransferId, n: nat): (blocks: seq<seq<TransferId>>)
    ensures |blocks| == n && forall i | 0 <= i < n :: |blocks[i]| == 7 && blocks[i] == IdBlock(base + 7 * i, 7)
  {
    seq(n, i requires 0 <= i => IdBlock(base + 7 * i, 7))
  }

  lemma IdBlocksFresh(l: Ledger, base: TransferId, n: nat)
    requires forall id | id in l.used :: id < base
    ensures AllFresh(l, IdBlocks(base, n))
  {
    var blocks := IdBlocks(base, n);
    forall i | 0 <= i < n
      ensures Fresh(l, blocks[i])
      ensures forall x | x in IdSet(blocks[i]) :: base + 7 * i <= x < base + 7 * (i + 1)
    {
    }
  }

  lemma {:induction false} BatchIds(base: TransferId, chains: seq<Chain>, target: nat, k: nat)
    requires k <= |chains|
    ensures forall i | 0 <= i < |Batch(IdBlocks(base, k), chains[..k], target)| ::
      Batch(IdBlocks(base, k), chains[..k], target)[i].id < base + 7 * k
    ensures k < |chains| ==>
      Batch(IdBlocks(base, k + 1), chains[..k + 1], target)
        == AppendChain(Batch(IdBlocks(base, k), chains[..k], target), IdBlock(base + 7 * k, 7), chains[k], target)
    decreases k
  {
    if k > 0 {
      BatchIds(base, chains, target, k - 1);
    }
    if k < |chains| {
      BatchSnoc(IdBlocks(base, k), chains[..k], IdBlock(base + 7 * k, 7), chains[k], target);
      assert IdBlocks(base, k + 1) == IdBlocks(base, k) + [IdBlock(base + 7 * k, 7)];
      assert chains[..k + 1] == chains[..k] + [chains[k]];
    }
  }

  /** Whether a batch of n chains is within the server's limit. */
  predicate OneRequest(n: nat) {
    7 * n <= BATCH_LIMIT
  }

  lemma {:induction false} BatchLength(ids: seq<seq<TransferId>>, chains: seq<Chain>, target: nat)
    requires |ids| == |chains| && forall i | 0 <= i < |ids| :: |ids[i]| == 7
    ensures |Batch(ids, chains, target)| == 7 * |chains|
    decreases |chains|
  {
    if chains != [] {
      BatchLength(ids[1..], chains[1..], target);
    }
  }

  lemma SettledConfines(l: Ledger, l': Ledger, chains: seq<Chain>)
    requires Owned(l, chains) && BatchSettled(l, l', chains, WATERFALL_TARGET)
    ensures Confines(l, l', chains)
  {
    hide Settled, AllAccounts;
  }

  class Worker {
    const client: Client
    const chains: seq<Chain>
    var drawsCnt: nat

    /** What every call finds and leaves: a sound ledger, square control accounts,
        sources within their credit, and the draw counter below its ceiling. */
    ghost predicate Valid()
      reads this, client
    {
      && client.Valid() && Owned(client.ledger, chains)
      && |chains| > 0 && drawsCnt < TOP_UP_EVERY + |chains|
    }

    constructor (client: Client, chains: seq<Chain>)
      requires client.Valid() && Owned(client.ledger, chains) && |chains| > 0
      ensures Valid() && this.client == client && this.chains == chains && drawsCnt == 0
    {
      this.client, this.chains, drawsCnt := client, chains, 0;
    }

    /** The list of credits for one top-up, three per chain. */
    method BuildTopUps() returns (tops: seq<Transfer>)
      requires client.Valid()
      modifies client`nextId
      ensures client.Valid() && tops == TopUps(old(client.nextId), chains)
      ensures client.nextId == old(client.nextId) + |tops|
    {
      ghost var base := client.nextId;
      tops := [];
      for c := 0 to |chains|
        invariant client.Valid() && client.nextId == base + 3 * c && tops == TopUps(base, chains)[..3 * c]
      {
        for j := 0 to 3
          invariant client.Valid() && client.nextId == base + 3 * c + j && tops == TopUps(base, chains)[..3 * c + j]
        {
          var id := client.NewIds(1);
          assert (3 * c + j) / 3 == c && (3 * c + j) % 3 == j;
          assert TopUps(base, chains)[3 * c + j] == Credit(id[0], chains[c].Sources()[j], TOP_UP_AMOUNT);
          tops := tops + [Credit(id[0], chains[c].Sources()[j], TOP_UP_AMOUNT)];
        }
      }
    }

    method MaybeTopUp() returns (ok: bool)
      requires Valid()
      modifies this`drawsCnt, client
      ensures Valid() && ok && drawsCnt < TOP_UP_EVERY
      ensures old(drawsCnt) < TOP_UP_EVERY ==>
        drawsCnt == old(drawsCnt) && client.ledger == old(client.ledger) && client.nextId == old(client.nextId)
      ensures old(drawsCnt) >= TOP_UP_EVERY ==>
        drawsCnt == 0 && ToppedUp(old(client.ledger), client.ledger, chains)
      ensures Confines(old(client.ledger), client.ledger, chains)
    {
      if drawsCnt < TOP_UP_EVERY {
        return true;
      }
      drawsCnt := 0;
      ghost var base := client.nextId;
      var tops := BuildTopUps();
      TopUpsAcceptable(client.ledger, base, chains);
      ok := client.SubmitChunks(tops);
      TopUpsPaid(old(client.ledger), client.ledger, base, chains);
    }

    /** Builds and submits one batch of chains; shared by the two batch paths. */
    method SubmitChains(targets: seq<Chain>) returns (ok: bool)
      requires client.Valid()
      modifies client
      ensures client.Valid() && client.nextId == old(client.nextId) + 7 * |targets|
      ensures !OneRequest(|targets|) ==> !ok && client.ledger == old(client.ledger)
      ensures OneRequest(|targets|) ==>
        var batch := Batch(IdBlocks(old(client.nextId), |targets|), targets, WATERFALL_TARGET);
        var r := CreateTransfers(old(client.ledger), batch, 0);
        client.ledger == r.ledger && (ok <==> r.failures == [])
    {
      ghost var base := client.nextId;
      var batch: seq<Transfer> := [];
      for c := 0 to |targets|
        invariant client.Valid() && client.ledger == old(client.ledger) && client.nextId == base + 7 * c
        invariant batch == Batch(IdBlocks(base, c), targets[..c], WATERFALL_TARGET)
      {
        BatchIds(base, targets, WATERFALL_TARGET, c);
        var ids := client.NewIds(7);
        batch := AppendChain(batch, ids, targets[c], WATERFALL_TARGET);
      }
      BatchIds(base, targets, WATERFALL_TARGET, |targets|);
      assert targets[..|targets|] == targets;
      BatchLength(IdBlocks(base, |targets|), targets, WATERFALL_TARGET);
      var reply := client.Submit(batch);
      ok := reply == Results([]);
    }

    /** One draw on every chain. Returns no error exactly when the batch fits one
        request and every chain could pay; the counter moves only then, although paid
        chains stay paid. */
    method DoHardcoded() returns (ok: bool, ghost mid: Ledger)
      requires Valid()
      modifies this`drawsCnt, client
      ensures Valid()
      ensures if old(drawsCnt) < TOP_UP_EVERY then mid == old(client.ledger)
              else ToppedUp(old(client.ledger), mid, chains)
      ensures Owned(mid, chains)
      ensures if OneRequest(|chains|) then BatchSettled(mid, client.ledger, chains, WATERFALL_TARGET)
              else client.ledger == mid
      ensures ok <==>
        OneRequest(|chains|) && forall i | 0 <= i < |chains| :: Funded(mid, chains[i], WATERFALL_TARGET)
      ensures drawsCnt == Counted(old(drawsCnt)) + (if ok then |chains| else 0)
      ensures Confines(old(client.ledger), client.ledger, chains)
    {
      hide CreateTransfers, Batch, Funded, BatchSettled, ToppedUp, Confines;
      ghost var before := client.ledger;
      var topped := MaybeTopUp();
      mid := client.ledger;
      DrawAll(client.ledger, client.nextId, chains);
      ok := SubmitChains(chains);
      if OneRequest(|chains|) {
        SettledConfines(mid, client.ledger, chains);
        ConfinesTwice(before, mid, client.ledger, chains);
      }
      if ok {
        drawsCnt := drawsCnt + |chains|;
      }
    }

    /** The same draw on source accounts resolved elsewhere. A short list stops the
        call before anything is submitted; with the worker's own sources it is
        DoHardcoded. */
    method DoWithIDs(chainIDs: seq<seq<AccountId>>) returns (ok: bool, ghost mid: Ledger, ghost base: TransferId)
      requires Valid() && |chainIDs| <= |chains|
      modifies this`drawsCnt, client
      ensures client.Valid() && drawsCnt < TOP_UP_EVERY + |chains|
      ensures if old(drawsCnt) < TOP_UP_EVERY then mid == old(client.ledger) && base == old(client.nextId)
              else ToppedUp(old(client.ledger), mid, chains)
      ensures !Complete(chainIDs) ==> !ok && client.ledger == mid && Valid()
      ensures !OneRequest(|chainIDs|) ==> !ok && client.ledger == mid
      ensures Complete(chainIDs) && OneRequest(|chainIDs|) ==>
        var targets := Targets(chains, chainIDs);
        var r := CreateTransfers(mid, Batch(IdBlocks(base, |targets|), targets, WATERFALL_TARGET), 0);
        client.ledger == r.ledger && (ok <==> r.failures == [])
      ensures chainIDs == OwnSources(chains) ==>
        && Valid() && Owned(mid, chains) && Confines(old(client.ledger), client.ledger, chains)
        && (OneRequest(|chains|) ==> BatchSettled(mid, client.ledger, chains, WATERFALL_TARGET))
        && (ok <==>
              OneRequest(|chains|) && forall i | 0 <= i < |chains| :: Funded(mid, chains[i], WATERFALL_TARGET))
      ensures drawsCnt == Counted(old(drawsCnt)) + (if ok then |chainIDs| else 0)
    {
      hide CreateTransfers, Batch, Funded, BatchSettled, ToppedUp, Confines, OneRequest;
      ghost var before := client.ledger;
      var topped := MaybeTopUp();
      mid, base := client.ledger, client.nextId;
      var complete, targets := ResolveTargets(chainIDs);
      if !complete {
        return false, mid, base;
      }
      DrawAll(mid, base, chains);
      OwnTargets(chains);
      ok := SubmitChains(targets);
      if ok {
        drawsCnt := drawsCnt + |chainIDs|;
      }
      if OneRequest(|chainIDs|) && targets == chains {
        SettledConfines(mid, client.ledger, chains);
        ConfinesTwice(before, mid, client.ledger, chains);
      }
    }

    method ResolveTargets(chainIDs: seq<seq<AccountId>>) returns (complete: bool, targets: seq<Chain>)
      requires |chainIDs| <= |chains|
      ensures complete <==> Complete(chainIDs)
      ensures complete ==> targets == Targets(chains, chainIDs)
    {
      targets := [];
      for c := 0 to |chainIDs|
        invariant Complete(chainIDs[..c]) && targets == Targets(chains, chainIDs[..c])
      {
        if |chainIDs[c]| < 4 {
          return false, [];
        }
        targets := targets + [WithSources(chains[c], chainIDs[c])];
      }
      assert chainIDs[..|chainIDs|] == chainIDs;
      complete := true;
    }

    /** One draw on the first chain, its first source tried alone. The counter moves
        whether or not the draw was paid. */
    method DoOptimistic() returns (ok: bool, ghost mid: Ledger, ghost ids: seq<TransferId>)
      requires Valid()
      modifies this`drawsCnt, client
      ensures Valid()
      ensures if old(drawsCnt) < TOP_UP_EVERY then mid == old(client.ledger)
              else ToppedUp(old(client.ledger), mid, chains)
      ensures |ids| == 7 && ChainReady(mid, chains[0])
      ensures
        var full := CreateTransfers(mid, AppendChain([], ids, chains[0], WATERFALL_TARGET), 0);
        SameNet(client.ledger, full.ledger) && (ok <==> full.failures == [])
      ensures ok <==> Funded(mid, chains[0], WATERFALL_TARGET)
      ensures drawsCnt == Counted(old(drawsCnt)) + 1
      ensures Confines(old(client.ledger), client.ledger, chains)
    {
      ok, mid, ids := DrawOn(chains[0]);
    }

    /** The optimistic draw on looked-up accounts: fewer than four stop it before
        the top-up, and the worker's own four make it DoOptimistic. */
    method DoOptimisticWithIDs(allIDs: seq<AccountId>) returns (ok: bool, ghost mid: Ledger, ghost ids: seq<TransferId>)
      requires Valid()
      modifies this`drawsCnt, client
      ensures client.Valid() && drawsCnt < TOP_UP_EVERY + |chains|
      ensures |allIDs| < 4 ==> !ok && drawsCnt == old(drawsCnt) && client.ledger == old(client.ledger)
      ensures |allIDs| >= 4 ==>
        && drawsCnt == Counted(old(drawsCnt)) + 1
        && (if old(drawsCnt) < TOP_UP_EVERY then mid == old(client.ledger)
            else ToppedUp(old(client.ledger), mid, chains))
      ensures |allIDs| >= 4 && allIDs[..4] == chains[0].Sources() ==>
        && Valid() && |ids| == 7 && (ok <==> Funded(mid, chains[0], WATERFALL_TARGET))
        && SameNet(client.ledger, CreateTransfers(mid, AppendChain([], ids, chains[0], WATERFALL_TARGET), 0).ledger)
        && Confines(old(client.ledger), client.ledger, chains)
    {
      if |allIDs| < 4 {
        return false, client.ledger, [];
      }
      SameSources(chains[0], allIDs);
      ok, mid, ids := DrawOn(WithSources(chains[0], allIDs));
    }

    /** Top-up check, optimistic attempt, count: what both optimistic paths do. */
    method DrawOn(ch: Chain) returns (ok: bool, ghost mid: Ledger, ghost ids: seq<TransferId>)
      requires Valid()
      modifies this`drawsCnt, client
      ensures client.Valid() && drawsCnt == Counted(old(drawsCnt)) + 1
      ensures if old(drawsCnt) < TOP_UP_EVERY then mid == old(client.ledger)
              else ToppedUp(old(client.ledger), mid, chains)
      ensures |ids| == 7
      ensures ch == chains[0] ==>
        && Valid() && ChainReady(mid, ch) && (ok <==> Funded(mid, ch, WATERFALL_TARGET))
        && (ok <==> CreateTransfers(mid, AppendChain([], ids, ch, WATERFALL_TARGET), 0).failures == [])
        && SameNet(client.ledger, CreateTransfers(mid, AppendChain([], ids, ch, WATERFALL_TARGET), 0).ledger)
        && Confines(old(client.ledger), client.ledger, chains)
    {
      hide Optimistic, CreateTransfers, Confines, SameNet, ToppedUp, Funded;
      ghost var before := client.ledger;
      var topped := MaybeTopUp();
      mid := client.ledger;
      ids := IdBlock(client.nextId + 1, 7);
      OptimisticKeeps(mid, client.nextId, ids, chains, WATERFALL_TARGET);
      ok := TryDirectThenChain(ch);
      if ch == chains[0] {
        ConfinesTwice(before, mid, client.ledger, chains);
      }
      drawsCnt := drawsCnt + 1;
    }

    method TryDirectThenChain(ch: Chain) returns (ok: bool)
      requires client.Valid()
      modifies client
      ensures client.Valid()
      ensures
        var r := Optimistic(
                   old(client.ledger), old(client.nextId), IdBlock(old(client.nextId) + 1, 7), ch, WATERFALL_TARGET);
        client.ledger == r.ledger && (ok <==> r.failures == [])
    {
      hide CreateTransfers, Sound;
      var id := client.NewIds(1);
      var reply := client.Submit([Direct(id[0], ch, WATERFALL_TARGET)]);
      if reply == Results([]) {
        return true;
      }
      var ids := client.NewIds(7);
      reply := client.Submit(AppendChain([], ids, ch, WATERFALL_TARGET));
      ok := reply == Results([]);
    }
  }

  lemma SameSources(ch: Chain, ids: seq<AccountId>)
    requires |ids| >= 4
    ensures ids[..4] == ch.Sources() ==> WithSources(ch, ids) == ch
  {
    if ids[..4] == ch.Sources() {
      assert ids[..4][0] == ids[0] && ids[..4][1] == ids[1] && ids[..4][2] == ids[2] && ids[..4][3] == ids[3];
    }
  }

  /** The counter after the top-up check. */
  function Counted(draws: nat): nat {
    if draws < TOP_UP_EVERY then draws else 0
  }

  predicate Complete(chainIDs: seq<seq<AccountId>>) {
    forall i | 0 <= i < |chainIDs| :: |chainIDs[i]| >= 4
  }

  function Targets(chains: seq<Chain>, chainIDs: seq<seq<AccountId>>): (targets: seq<Chain>)
    requires |chainIDs| <= |chains| && Complete(chainIDs)
    ensures |targets| == |chainIDs|
  {
    seq(|chainIDs|, c requires 0 <= c < |chainIDs| => WithSources(chains[c], chainIDs[c]))
  }

  function OwnSources(chains: seq<Chain>): seq<seq<AccountId>> {
    seq(|chains|, c requires 0 <= c < |chains| => chains[c].Sources())
  }

  lemma OwnTargets(chains: seq<Chain>)
    ensures Complete(OwnSources(chains)) && Targets(chains, OwnSources(chains)) == chains
  {
    forall c | 0 <= c < |chains| ensures WithSources(chains[c], OwnSources(chains)[c]) == chains[c] {
    }
  }

  /** A batch over all chains, with identifiers nobody has used. */
  lemma DrawAll(l: Ledger, base: TransferId, chains: seq<Chain>)
    requires Owned(l, chains) && forall id | id in l.used :: id < base
    ensures
      var r := CreateTransfers(l, Batch(IdBlocks(base, |chains|), chains, WATERFALL_TARGET), 0);
      && BatchSettled(l, r.ledger, chains, WATERFALL_TARGET) && Owned(r.ledger, chains)
      && (r.failures == [] <==> forall i | 0 <= i < |chains| :: Funded(l, chains[i], WATERFALL_TARGET))
  {
    hide AllFresh, Batch, CreateTransfers, Settled, ChainReady, ExpectedFailures, Funded, Chain.Accounts;
    IdBlocksFresh(l, base, |chains|);
    BatchSettlesChains(l, IdBlocks(base, |chains|), chains, WATERFALL_TARGET, 0);
    NoFailuresMeansFunded(l, chains, WATERFALL_TARGET, 0);
    var r := CreateTransfers(l, Batch(IdBlocks(base, |chains|), chains, WATERFALL_TARGET), 0);
    assert GLOBAL_BANK in l.accounts.Keys - AllAccounts(chains);
  }

  lemma OptimisticKeeps(l: Ledger, id: TransferId, ids: seq<TransferId>, chains: seq<Chain>, target: nat)
    requires Owned(l, chains) && |chains| > 0 && |ids| == 7 && Fresh(l, [id] + ids) && target < WATERFALL_AMOUNT_MAX
    ensures
      var quick := Optimistic(l, id, ids, chains[0], target);
      var full := CreateTransfers(l, AppendChain([], ids, chains[0], target), 0);
      && Owned(quick.ledger, chains)
      && SameNet(quick.ledger, full.ledger) && (quick.failures == [] <==> full.failures == [])
      && (quick.failures == [] <==> Funded(l, chains[0], target))
      && Confines(l, quick.ledger, chains)
  {
    var ch := chains[0];
    OptimisticRefinesChain(l, id, ids, ch, target);
    assert forall i | 0 <= i < 7 :: ids[i] == ([id] + ids)[i + 1];
    assert id == ([id] + ids)[0];
    DirectDebit(l, id, ch, target);
    SingleChain(l, ids, ch, target);
    var quick := Optimistic(l, id, ids, ch, target);
    assert SameOn(l, quick.ledger, l.accounts.Keys - ch.Accounts());
    OwnedAfterFirst(l, quick.ledger, chains);
  }

  lemma OwnedAfterFirst(l: Ledger, l': Ledger, chains: seq<Chain>)
    requires Owned(l, chains) && |chains| > 0 && ChainReady(l', chains[0])
    requires SameOn(l, l', l.accounts.Keys - chains[0].Accounts())
    ensures Owned(l', chains)
  {
    forall i | 0 < i < |chains| ensures ChainReady(l', chains[i]) {
      assert ChainReady(l, chains[i]) && chains[0].Accounts() !! chains[i].Accounts();
      SameOnChain(l, l', chains[i]);
    }
    assert forall k | k in chains[0].Accounts() :: k in AllAccounts(chains);
  }
}
