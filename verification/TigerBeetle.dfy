/** The part of TigerBeetle that the waterfall relies on: accounts with debit and
    credit counters, the overdraft flag, balancing transfers that clamp their
    amount, and linked chains that post together or not at all. */
module TigerBeetle {
  import opened Common
  import opened Totals

  type AccountId = int
  type TransferId = int

  datatype Account = Account(
    debitsPosted: nat, debitsPending: nat, creditsPosted: nat, creditsPending: nat,
    constrained: bool) // debits_must_not_exceed_credits
  {
    /** What a balancing debit may still take. */
    function Headroom(): nat {
      if debitsPosted + debitsPending >= creditsPosted then 0
      else creditsPosted - debitsPosted - debitsPending
    }

    /** What a balancing credit may still give. */
    function Shortfall(): nat {
      if creditsPosted + creditsPending >= debitsPosted then 0
      else debitsPosted - creditsPosted - creditsPending
    }

    function Net(): int {
      creditsPosted - debitsPosted
    }

    predicate Overdrawn() {
      constrained && debitsPosted + debitsPending > creditsPosted
    }
  }

  datatype Ledger = Ledger(accounts: map<AccountId, Account>, used: set<TransferId>)

  datatype Transfer = Transfer(
    id: TransferId, debit: AccountId, credit: AccountId, amount: nat,
    linked: bool, balancingDebit: bool, balancingCredit: bool)

  datatype Code =
    | Exists
    | DebitAccountNotFound
    | CreditAccountNotFound
    | AccountsMustBeDifferent
    | ExceedsCredits
    | LinkedEventFailed
    | LinkedEventChainOpen

  datatype Failure = Failure(index: nat, code: Code)

  datatype Outcome = Posted(ledger: Ledger) | Rejected(at: nat, code: Code)

  /** The amount after clamping. A clamp to zero is still a valid transfer. */
  function Resolve(l: Ledger, t: Transfer): nat
    requires t.debit in l.accounts && t.credit in l.accounts
  {
    var d := if t.balancingDebit then Min(t.amount, l.accounts[t.debit].Headroom()) else t.amount;
    if t.balancingCredit then Min(d, l.accounts[t.credit].Shortfall()) else d
  }

  function Move(l: Ledger, debit: AccountId, credit: AccountId, amount: nat, id: TransferId): Ledger
    requires debit in l.accounts && credit in l.accounts && debit != credit
  {
    var d := l.accounts[debit];
    var c := l.accounts[credit];
    Ledger(
      l.accounts[debit := d.(debitsPosted := d.debitsPosted + amount)]
                [credit := c.(creditsPosted := c.creditsPosted + amount)],
      l.used + {id})
  }

  function Execute(l: Ledger, t: Transfer, at: nat): Outcome {
    if t.id in l.used then Rejected(at, Exists)
    else if t.debit !in l.accounts then Rejected(at, DebitAccountNotFound)
    else if t.credit !in l.accounts then Rejected(at, CreditAccountNotFound)
    else if t.debit == t.credit then Rejected(at, AccountsMustBeDifferent)
    else
      var amount := Resolve(l, t);
      var l' := Move(l, t.debit, t.credit, amount, t.id);
      if l'.accounts[t.debit].Overdrawn() then Rejected(at, ExceedsCredits) else Posted(l')
  }

  /** Runs the members of one chain in turn; the first rejection rejects the chain. */
  function RunChain(l: Ledger, chain: seq<Transfer>, at: nat): Outcome
    decreases |chain|
  {
    if chain == [] then Posted(l)
    else if |chain| == 1 && chain[0].linked then Rejected(at, LinkedEventChainOpen)
    else
      match Execute(l, chain[0], at)
      case Rejected(k, code) => Rejected(k, code)
      case Posted(l') => RunChain(l', chain[1..], at + 1)
  }

  /** A chain runs up to and includes its first unlinked transfer. */
  function ChainLength(batch: seq<Transfer>): (n: nat)
    requires batch != []
    ensures 1 <= n <= |batch|
  {
    if batch[0].linked && |batch| > 1 then 1 + ChainLength(batch[1..]) else 1
  }

  function ChainFailures(offset: nat, length: nat, at: nat, code: Code): seq<Failure> {
    seq(length, i requires 0 <= i => Failure(offset + i, if offset + i == at then code else LinkedEventFailed))
  }

  datatype BatchResult = BatchResult(ledger: Ledger, failures: seq<Failure>)

  /** CreateTransfers: chain after chain, each atomic, reporting the failed events. */
  function CreateTransfers(l: Ledger, batch: seq<Transfer>, offset: nat): BatchResult
    decreases |batch|
  {
    if batch == [] then BatchResult(l, [])
    else
      var n := ChainLength(batch);
      match RunChain(l, batch[..n], offset)
      case Posted(l') => CreateTransfers(l', batch[n..], offset + n)
      case Rejected(at, code) =>
        var rest := CreateTransfers(l, batch[n..], offset + n);
        rest.(failures := ChainFailures(offset, n, at, code) + rest.failures)
  }

  /** A rejected chain leaves the ledger alone and is reported member by member: the
      culprit with its own code, every other member as failed with it; then the batch
      goes on. */
  lemma RejectedChainIsReported(l: Ledger, batch: seq<Transfer>, offset: nat)
    requires batch != [] && RunChain(l, batch[..ChainLength(batch)], offset).Rejected?
    ensures
      var n, rejected := ChainLength(batch), RunChain(l, batch[..ChainLength(batch)], offset);
      var r, rest := CreateTransfers(l, batch, offset), CreateTransfers(l, batch[n..], offset + n);
      && r.ledger == rest.ledger && |r.failures| == n + |rest.failures| && r.failures[n..] == rest.failures
      && offset <= rejected.at < offset + n
      && (forall i | 0 <= i < n ::
            && r.failures[i].index == offset + i
            && r.failures[i].code == if offset + i == rejected.at then rejected.code else LinkedEventFailed)
  {
    RejectionIsInside(l, batch[..ChainLength(batch)], offset);
  }

  lemma {:induction false} RejectionIsInside(l: Ledger, chain: seq<Transfer>, at: nat)
    requires RunChain(l, chain, at).Rejected?
    ensures at <= RunChain(l, chain, at).at < at + |chain|
    decreases |chain|
  {
    if |chain| > 1 && Execute(l, chain[0], at).Posted? {
      RejectionIsInside(Execute(l, chain[0], at).ledger, chain[1..], at + 1);
    }
  }

  /** Two linked transfers, of which the second would overdraw its account: both fail,
      and the first leaves no trace. */
  lemma LinkedPairRollsBack(l: Ledger, first: Transfer, second: Transfer)
    requires first.linked && !second.linked && Execute(l, first, 0).Posted?
    requires Execute(Execute(l, first, 0).ledger, second, 1) == Rejected(1, ExceedsCredits)
    ensures
      CreateTransfers(l, [first, second], 0)
        == BatchResult(l, [Failure(0, LinkedEventFailed), Failure(1, ExceedsCredits)])
  {
    var batch := [first, second];
    assert batch[1..] == [second] && ChainLength([second]) == 1;
    assert ChainLength(batch) == 2 && batch[..2] == batch && batch[2..] == [];
    assert CreateTransfers(l, batch[2..], 2) == BatchResult(l, []);
    RejectedChainIsReported(l, batch, 0);
    var r := CreateTransfers(l, batch, 0);
    assert r.failures == [r.failures[0], r.failures[1]];
  }

  // Whole-ledger invariants

  ghost function Debits(l: Ledger): int {
    Total(map k | k in l.accounts :: l.accounts[k].debitsPosted as int)
  }

  ghost function Credits(l: Ledger): int {
    Total(map k | k in l.accounts :: l.accounts[k].creditsPosted as int)
  }

  ghost predicate Sound(l: Ledger) {
    && Debits(l) == Credits(l)
    && (forall k | k in l.accounts :: !l.accounts[k].Overdrawn())
  }

  lemma MoveBalances(l: Ledger, debit: AccountId, credit: AccountId, amount: nat, id: TransferId)
    requires debit in l.accounts && credit in l.accounts && debit != credit
    ensures Debits(Move(l, debit, credit, amount, id)) == Debits(l) + amount
    ensures Credits(Move(l, debit, credit, amount, id)) == Credits(l) + amount
  {
    var l' := Move(l, debit, credit, amount, id);
    var ds := map k | k in l.accounts :: l.accounts[k].debitsPosted as int;
    var cs := map k | k in l.accounts :: l.accounts[k].creditsPosted as int;
    TotalPut(ds, debit, ds[debit] + amount);
    TotalPut(cs, credit, cs[credit] + amount);
    assert (map k | k in l'.accounts :: l'.accounts[k].debitsPosted as int) == ds[debit := ds[debit] + amount];
    assert (map k | k in l'.accounts :: l'.accounts[k].creditsPosted as int) == cs[credit := cs[credit] + amount];
  }

  lemma {:induction false} ChainKeepsSound(l: Ledger, chain: seq<Transfer>, at: nat)
    requires Sound(l)
    ensures RunChain(l, chain, at).Posted? ==> Sound(RunChain(l, chain, at).ledger)
    decreases |chain|
  {
    if chain != [] && Execute(l, chain[0], at).Posted? {
      MoveBalances(l, chain[0].debit, chain[0].credit, Resolve(l, chain[0]), chain[0].id);
      ChainKeepsSound(Execute(l, chain[0], at).ledger, chain[1..], at + 1);
    }
  }

  /** Double entry and the overdraft flag hold after every batch, whatever it contains. */
  lemma {:induction false} BatchKeepsSound(l: Ledger, batch: seq<Transfer>, offset: nat)
    requires Sound(l)
    ensures Sound(CreateTransfers(l, batch, offset).ledger)
    decreases |batch|
  {
    if batch != [] {
      var n := ChainLength(batch);
      ChainKeepsSound(l, batch[..n], offset);
      var r := RunChain(l, batch[..n], offset);
      BatchKeepsSound(if r.Posted? then r.ledger else l, batch[n..], offset + n);
    }
  }

  /** Accounts that no transfer of a chain names are left as they were. */
  lemma {:induction false} ChainFrame(l: Ledger, chain: seq<Transfer>, at: nat, k: AccountId)
    requires RunChain(l, chain, at).Posted?
    requires forall t | t in chain :: t.debit != k && t.credit != k
    ensures
      var l' := RunChain(l, chain, at).ledger;
      l'.accounts.Keys == l.accounts.Keys && (k in l.accounts ==> l'.accounts[k] == l.accounts[k])
    decreases |chain|
  {
    if chain != [] {
      assert chain[0] in chain;
      ChainFrame(Execute(l, chain[0], at).ledger, chain[1..], at + 1, k);
    }
  }
}
