/** Plain credits from the funding bank, as the set-up and the periodic top-up
    submit them: unlinked, unclamped, in chunks no larger than a batch may be. */
module BankFunding {
  import opened Totals
  import opened TigerBeetle

  const GLOBAL_BANK: AccountId := 50_000_000
  const BATCH_LIMIT: nat := 8189

  function Credit(id: TransferId, to: AccountId, amount: nat): Transfer {
    Transfer(id, GLOBAL_BANK, to, amount, false, false, false)
  }

  predicate BankReady(l: Ledger) {
    GLOBAL_BANK in l.accounts && !l.accounts[GLOBAL_BANK].constrained
  }

  /** A batch of credits that the ledger will accept. */
  ghost predicate Acceptable(l: Ledger, batch: seq<Transfer>) {
    && (forall i | 0 <= i < |batch| ::
          && batch[i] == Credit(batch[i].id, batch[i].credit, batch[i].amount)
          && batch[i].credit in l.accounts && batch[i].credit != GLOBAL_BANK && batch[i].id !in l.used)
    && (forall i, j | 0 <= i < j < |batch| :: batch[i].id != batch[j].id)
  }

  /** What a batch brings to one account. */
  function Received(batch: seq<Transfer>, k: AccountId): nat {
    if batch == [] then 0
    else (if batch[0].credit == k then batch[0].amount else 0) + Received(batch[1..], k)
  }

  function Outlay(batch: seq<Transfer>): nat {
    if batch == [] then 0 else batch[0].amount + Outlay(batch[1..])
  }

  lemma {:induction false} ReceivedSplit(a: seq<Transfer>, b: seq<Transfer>, k: AccountId)
    ensures Received(a + b, k) == Received(a, k) + Received(b, k)
    ensures Outlay(a + b) == Outlay(a) + Outlay(b)
  {
    if a == [] {
      assert a + b == b;
    } else {
      ReceivedSplit(a[1..], b, k);
      assert (a + b)[1..] == a[1..] + b;
    }
  }

  ghost function Ids(batch: seq<Transfer>): set<TransferId> {
    set i | 0 <= i < |batch| :: batch[i].id
  }

  lemma IdsSplit(a: seq<Transfer>, b: seq<Transfer>)
    ensures Ids(a + b) == Ids(a) + Ids(b)
  {
    var ab := a + b;
    forall x | x in Ids(a) + Ids(b) ensures x in Ids(ab) {
      if x in Ids(a) {
        var i :| 0 <= i < |a| && x == a[i].id;
        assert ab[i].id == x;
      } else {
        var i :| 0 <= i < |b| && x == b[i].id;
        assert ab[|a| + i].id == x;
      }
    }
  }

  ghost predicate Paid(l: Ledger, l': Ledger, batch: seq<Transfer>)
    requires BankReady(l)
  {
    && l'.accounts.Keys == l.accounts.Keys
    && l'.accounts[GLOBAL_BANK]
         == l.accounts[GLOBAL_BANK].(debitsPosted := l.accounts[GLOBAL_BANK].debitsPosted + Outlay(batch))
    && (forall k | k in l.accounts && k != GLOBAL_BANK ::
          l'.accounts[k] == l.accounts[k].(creditsPosted := l.accounts[k].creditsPosted + Received(batch, k)))
    && l'.used == l.used + Ids(batch)
  }

  lemma PaidTwice(l: Ledger, l1: Ledger, l2: Ledger, a: seq<Transfer>, b: seq<Transfer>)
    requires BankReady(l) && Paid(l, l1, a) && Paid(l1, l2, b)
    ensures Paid(l, l2, a + b)
  {
    forall k ensures Received(a + b, k) == Received(a, k) + Received(b, k) {
      ReceivedSplit(a, b, k);
    }
    ReceivedSplit(a, b, GLOBAL_BANK);
    IdsSplit(a, b);
  }

  lemma CreditIsPaid(l: Ledger, t: Transfer, offset: nat) returns (l1: Ledger)
    requires BankReady(l) && Acceptable(l, [t])
    ensures RunChain(l, [t], offset) == Posted(l1) && Paid(l, l1, [t])
  {
    assert [t][0] == t;
    l1 := Move(l, GLOBAL_BANK, t.credit, t.amount, t.id);
    assert Execute(l, t, offset) == Posted(l1);
  }

  lemma AcceptableSplit(l: Ledger, a: seq<Transfer>, b: seq<Transfer>)
    requires Acceptable(l, a + b)
    ensures Acceptable(l, a)
    ensures forall l1: Ledger | l1.accounts.Keys == l.accounts.Keys && l1.used == l.used + Ids(a) :: Acceptable(l1, b)
  {
    var ab := a + b;
    assert forall i | 0 <= i < |a| :: ab[i] == a[i];
    assert forall i | 0 <= i < |b| :: ab[|a| + i] == b[i];
  }

  /** Every such batch is accepted in full and pays each account its sum. */
  lemma {:induction false} CreditsArePaid(l: Ledger, batch: seq<Transfer>, offset: nat)
    requires BankReady(l) && Acceptable(l, batch)
    ensures CreateTransfers(l, batch, offset).failures == []
    ensures Paid(l, CreateTransfers(l, batch, offset).ledger, batch)
    decreases |batch|
  {
    if batch != [] {
      var t := batch[0];
      assert ChainLength(batch) == 1 && batch[..1] == [t] && batch == [t] + batch[1..];
      AcceptableSplit(l, [t], batch[1..]);
      var l1 := CreditIsPaid(l, t, offset);
      CreditsArePaid(l1, batch[1..], offset + 1);
      PaidTwice(l, l1, CreateTransfers(l, batch, offset).ledger, [t], batch[1..]);
    }
  }

  lemma ChunkIsPaid(l0: Ledger, l: Ledger, done: seq<Transfer>, rest: seq<Transfer>, n: nat) returns (l': Ledger)
    requires BankReady(l0) && BankReady(l) && Paid(l0, l, done) && Acceptable(l, rest) && n <= |rest|
    ensures CreateTransfers(l, rest[..n], 0) == BatchResult(l', [])
    ensures BankReady(l') && Paid(l0, l', done + rest[..n]) && Acceptable(l', rest[n..])
    ensures done + rest == done + rest[..n] + rest[n..]
  {
    hide Received, Outlay, CreateTransfers, Ids;
    assert rest == rest[..n] + rest[n..];
    AcceptableSplit(l, rest[..n], rest[n..]);
    CreditsArePaid(l, rest[..n], 0);
    l' := CreateTransfers(l, rest[..n], 0).ledger;
    PaidTwice(l0, l, l', done, rest[..n]);
  }

  // Opening accounts

  datatype NewAccount = NewAccount(id: AccountId, constrained: bool)

  /** The ledger after a request to open accounts. An account that exists stays as it
      is, and the callers treat that as success. */
  function AfterOpening(l: Ledger, batch: seq<NewAccount>): Ledger {
    if batch == [] then l
    else
      var before, last := AfterOpening(l, batch[..|batch| - 1]), batch[|batch| - 1];
      if last.id in before.accounts then before
      else before.(accounts := before.accounts[last.id := Account(0, 0, 0, 0, last.constrained)])
  }

  lemma {:induction false} OpeningSplit(l: Ledger, a: seq<NewAccount>, b: seq<NewAccount>)
    ensures AfterOpening(l, a + b) == AfterOpening(AfterOpening(l, a), b)
    decreases |b|
  {
    if b == [] {
      assert a + b == a;
    } else {
      OpeningSplit(l, a, b[..|b| - 1]);
      assert (a + b)[..|a + b| - 1] == a + b[..|b| - 1];
    }
  }

  lemma NewAccountKeepsSound(l: Ledger, k: AccountId, constrained: bool)
    requires Sound(l) && k !in l.accounts
    ensures Sound(l.(accounts := l.accounts[k := Account(0, 0, 0, 0, constrained)]))
  {
    hide Total;
    var l' := l.(accounts := l.accounts[k := Account(0, 0, 0, 0, constrained)]);
    var ds := map j | j in l.accounts :: l.accounts[j].debitsPosted as int;
    var cs := map j | j in l.accounts :: l.accounts[j].creditsPosted as int;
    TotalPut(ds, k, 0);
    TotalPut(cs, k, 0);
    assert (map j | j in l'.accounts :: l'.accounts[j].debitsPosted as int) == ds[k := 0];
    assert (map j | j in l'.accounts :: l'.accounts[j].creditsPosted as int) == cs[k := 0];
  }

  lemma NothingPaid(l: Ledger)
    requires BankReady(l)
    ensures Paid(l, l, [])
  {
  }

  function IdBlock(base: TransferId, n: nat): seq<TransferId> {
    seq(n, i requires 0 <= i => base + i)
  }

  /** What the server answers: nothing at all to a request above its limit, or the
      failures of the batch. */
  datatype Reply = Refused | Results(failures: seq<Failure>)

  /** The client connection: the ledger it talks to, and fresh identifiers. */
  class Client {
    var ledger: Ledger
    var nextId: TransferId

    ghost predicate Valid()
      reads this
    {
      Sound(ledger) && forall id | id in ledger.used :: id < nextId
    }

    constructor ()
      ensures Valid() && ledger == Ledger(map[], {})
    {
      ledger := Ledger(map[], {});
      nextId := 0;
    }

    method CreateAccounts(batch: seq<NewAccount>) returns (accepted: bool)
      requires Valid()
      modifies `ledger
      ensures Valid() && ledger.used == old(ledger).used
      ensures accepted <==> |batch| <= BATCH_LIMIT
      ensures ledger == if accepted then AfterOpening(old(ledger), batch) else old(ledger)
    {
      if |batch| > BATCH_LIMIT {
        return false;
      }
      for n := 0 to |batch|
        invariant Valid() && ledger == AfterOpening(old(ledger), batch[..n]) && ledger.used == old(ledger).used
      {
        assert batch[..n + 1][..n] == batch[..n];
        if batch[n].id !in ledger.accounts {
          NewAccountKeepsSound(ledger, batch[n].id, batch[n].constrained);
          ledger := ledger.(accounts := ledger.accounts[batch[n].id := Account(0, 0, 0, 0, batch[n].constrained)]);
        }
      }
      assert batch[..|batch|] == batch;
      accepted := true;
    }

    method NewIds(n: nat) returns (ids: seq<TransferId>)
      requires Valid()
      modifies `nextId
      ensures Valid() && nextId == old(nextId) + n
      ensures ids == IdBlock(old(nextId), n)
    {
      ids := IdBlock(nextId, n);
      nextId := nextId + n;
    }

    /** One call to the server. A batch above the limit is refused whole. */
    method Submit(batch: seq<Transfer>) returns (reply: Reply)
      requires Valid() && forall i | 0 <= i < |batch| :: batch[i].id < nextId
      modifies `ledger
      ensures Valid()
      ensures |batch| > BATCH_LIMIT ==> reply == Refused && ledger == old(ledger)
      ensures |batch| <= BATCH_LIMIT ==>
        reply.Results? && BatchResult(ledger, reply.failures) == CreateTransfers(old(ledger), batch, 0)
    {
      if |batch| > BATCH_LIMIT {
        return Refused;
      }
      var r := CreateTransfers(ledger, batch, 0);
      BatchKeepsSound(ledger, batch, 0);
      BatchUses(ledger, batch, 0);
      ledger, reply := r.ledger, Results(r.failures);
    }

    /** The loop that feeds a long list of credits to the server in chunks. */
    method SubmitChunks(batch: seq<Transfer>) returns (ok: bool)
      requires Valid() && BankReady(ledger) && Acceptable(ledger, batch)
      requires forall i | 0 <= i < |batch| :: batch[i].id < nextId
      modifies `ledger
      ensures Valid() && ok && Paid(old(ledger), ledger, batch)
    {
      hide Acceptable, Paid, CreateTransfers, Sound, BankReady;
      NothingPaid(ledger);
      var rest := batch;
      ghost var done := [];
      ok := true;
      while |rest| > 0 && ok
        invariant batch == done + rest && forall i | 0 <= i < |rest| :: rest[i].id < nextId
        invariant ok && Valid() && BankReady(ledger) && Acceptable(ledger, rest)
        invariant Paid(old(ledger), ledger, done)
        decreases |rest|
      {
        var n := if BATCH_LIMIT > |rest| then |rest| else BATCH_LIMIT;
        ghost var l' := ChunkIsPaid(old(ledger), ledger, done, rest, n);
        var reply := Submit(rest[..n]);
        ok := reply == Results([]);
        done, rest := done + rest[..n], rest[n..];
      }
      assert done == batch;
    }
  }

  lemma {:induction false} ChainUses(l: Ledger, chain: seq<Transfer>, at: nat)
    requires RunChain(l, chain, at).Posted?
    ensures RunChain(l, chain, at).ledger.used <= l.used + Ids(chain)
    decreases |chain|
  {
    if chain != [] {
      ChainUses(Execute(l, chain[0], at).ledger, chain[1..], at + 1);
      IdsSplit([chain[0]], chain[1..]);
      assert [chain[0]] + chain[1..] == chain && [chain[0]][0] == chain[0];
    }
  }

  /** A batch marks no identifier as used but its own. */
  lemma {:induction false} BatchUses(l: Ledger, batch: seq<Transfer>, offset: nat)
    ensures CreateTransfers(l, batch, offset).ledger.used <= l.used + Ids(batch)
    decreases |batch|
  {
    if batch != [] {
      var n := ChainLength(batch);
      var r := RunChain(l, batch[..n], offset);
      if r.Posted? {
        ChainUses(l, batch[..n], offset);
      }
      BatchUses(if r.Posted? then r.ledger else l, batch[n..], offset + n);
      IdsSplit(batch[..n], batch[n..]);
      assert batch[..n] + batch[n..] == batch;
    }
  }
}
