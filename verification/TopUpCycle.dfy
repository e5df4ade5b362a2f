/** How long a worker's funds last: which source pays for which call, when the worker
    draws on all its chains again and again and tops the priority sources up. */
module TopUpCycle {
  import opened DrawCycle
  import opened WaterfallSpec
  import opened TigerBeetle
  import opened WaterfallChain
  import opened WaterfallBatch
  import opened BankFunding
  import opened WaterfallWorker
  import opened Layout
  import opened WaterfallSetup

  /** Calls from one top-up to the next, with n draws counted per call. */
  function CallsPerCycle(n: nat): nat
    requires n > 0
  {
    (TOP_UP_EVERY + n - 1) / n
  }

  /** How many of the first m calls fall to source s, when the sources of a cycle take
      fifty calls each. */
  function Served(m: nat, calls: nat, s: nat): nat
    requires calls > 0
  {
    if m == 0 then 0
    else Served(m - 1, calls, s) + if (m - 1) % calls / 50 == s then 1 else 0
  }

  // The cycle in numbers

  /** What the sources of a chain hold j calls after a top-up: at least what is left of
      fifty each, and exactly that where the cycle is long enough to empty them. */
  predicate OnCycle(n: nat, j: nat, v: seq<nat>) {
    && |v| == 4
    && v[0] + j >= 50 && v[0] + v[1] + j >= 100 && v[0] + v[1] + v[2] + j >= 150
    && (n <= 2 ==> v[0] == Left(0, j))
    && (n == 1 ==> v[1] == Left(1, j) && v[2] == Left(2, j))
  }

  function Refilled(v: seq<nat>): seq<nat>
    requires |v| == 4
  {
    [v[0] + TOP_UP_AMOUNT, v[1] + TOP_UP_AMOUNT, v[2] + TOP_UP_AMOUNT, v[3]]
  }

  function Unit(s: nat): (takes: seq<nat>)
    ensures |takes| == 4
  {
    seq(4, i => if i == s then 1 else 0)
  }

  lemma SumOfFour(v: seq<nat>)
    requires |v| == 4
    ensures Sum(v) == v[0] + v[1] + v[2] + v[3]
  {
    assert v[1..][1..] == v[2..] && v[2..][1..] == v[3..] && v[3..][1..] == [];
    assert Sum(v[3..]) == v[3] && Sum(v[2..]) == v[2] + Sum(v[3..]) && Sum(v[1..]) == v[1] + Sum(v[2..]);
  }

  /** A draw of one unit falls to the first source that holds anything. */
  lemma UnitDraw(v: seq<nat>, s: nat)
    requires |v| == 4 && s < 4 && v[s] >= 1 && forall i | 0 <= i < s :: v[i] == 0
    ensures Waterfall(v, 1) == Unit(s) && Sum(v) >= 1
  {
    SumOfFour(v);
    SumOfFour(Unit(s));
    assert IsDraw(v, 1, Unit(s));
    DrawIsUnique(v, 1, Unit(s));
  }

  /** With the draws so far below the top-up threshold, the payer is the source whose
      fifty calls it is. */
  lemma PayerInTurn(n: nat, j: nat, v: seq<nat>)
    requires n > 0 && n * j < TOP_UP_EVERY && OnCycle(n, j, v)
    ensures j / 50 < 3 && v[j / 50] >= 1 && forall i | 0 <= i < j / 50 :: v[i] == 0
  {
    if n >= 3 {
      assert n * j >= 3 * j;
    }
  }

  lemma NextOnCycle(n: nat, j: nat, v: seq<nat>, v': seq<nat>)
    requires n > 0 && n * j < TOP_UP_EVERY && OnCycle(n, j, v)
    requires |v'| == 4 && forall i | 0 <= i < 4 :: v'[i] == v[i] - Unit(j / 50)[i]
    ensures OnCycle(n, j + 1, v')
  {
    PayerInTurn(n, j, v);
  }

  lemma RefilledOnCycle(n: nat, j: nat, v: seq<nat>)
    requires n > 0 && OnCycle(n, j, v) && n * j >= TOP_UP_EVERY
    ensures OnCycle(n, 0, Refilled(v))
  {
    if n <= 2 {
      assert n * j <= 2 * j;
    }
  }

  lemma ThresholdIsCycle(n: nat, j: nat)
    requires n > 0
    ensures n * j < TOP_UP_EVERY <==> j < CallsPerCycle(n)
  {
    var q := CallsPerCycle(n);
    DivisionRoundsUp(TOP_UP_EVERY, n);
    MultiplesApart(j, q, n);
    MultiplesApart(q, j, n);
    assert n * j == j * n && n * q == q * n;
  }

  lemma DivisionRoundsUp(x: nat, n: nat)
    requires n > 0
    ensures x <= n * ((x + n - 1) / n) < x + n
  {
  }

  lemma PositionInCycle(k: nat, c: nat, q: nat, j: nat)
    requires j < q && k == c * q + j
    ensures k % q == j
  {
    var d, r := k / q, k % q;
    assert k == d * q + r && 0 <= r < q;
    MultiplesApart(c, d, q);
    MultiplesApart(d, c, q);
  }

  lemma {:induction false} MultiplesApart(c: nat, d: nat, q: nat)
    ensures c < d ==> c * q + q <= d * q
    decreases d
  {
    if c < d {
      MultiplesApart(c, d - 1, q);
      assert d * q == (d - 1) * q + q;
    }
  }

  /** Source s of a worker with n chains is ever drawn on exactly if n * s < 3: all of
      A, B and C with one chain, A and B with two, A alone with more; D never. */
  lemma WhoEverPays(n: nat, s: nat)
    requires n > 0
    ensures (exists m :: Served(m, CallsPerCycle(n), s) > 0) <==> n * s < 3
  {
    hide CallsPerCycle, Served;
    ReachedInCycle(n, s);
    var q := CallsPerCycle(n);
    if n * s < 3 {
      ServedInTurn(q, s);
    } else {
      forall m: nat ensures Served(m, q, s) == 0 {
        NeverServed(m, q, s);
      }
    }
  }

  lemma ReachedInCycle(n: nat, s: nat)
    requires n > 0
    ensures CallsPerCycle(n) > 0 && (50 * s < CallsPerCycle(n) <==> n * s < 3)
  {
    ThresholdIsCycle(n, 0);
    ThresholdIsCycle(n, 50 * s);
    hide CallsPerCycle;
    assert n * (50 * s) == 50 * (n * s);
  }

  lemma ServedInTurn(q: nat, s: nat)
    requires 50 * s < q
    ensures Served(50 * s + 1, q, s) > 0
  {
    SmallRemainder(50 * s, q);
  }

  lemma SmallRemainder(x: nat, q: nat)
    requires x < q
    ensures x % q == x
  {
  }

  lemma {:induction false} NeverServed(m: nat, q: nat, s: nat)
    requires 0 < q <= 50 * s
    ensures Served(m, q, s) == 0
  {
    if m > 0 {
      NeverServed(m - 1, q, s);
    }
  }

  // The worker follows it

  /** Every chain holds the same, source by source. */
  ghost predicate Even(l: Ledger, chains: seq<Chain>, v: seq<nat>)
    requires AllReady(l, chains)
  {
    |v| == 4 && forall i | 0 <= i < |chains| :: ChainReady(l, chains[i]) && Avails(l, chains[i].Sources()) == v
  }

  lemma AvailsOfChain(l: Ledger, ch: Chain)
    requires ChainReady(l, ch)
    ensures Avails(l, ch.Sources()) == [
      l.accounts[ch.a].Headroom(), l.accounts[ch.b].Headroom(),
      l.accounts[ch.c].Headroom(), l.accounts[ch.d].Headroom()]
  {
    AvailsAt(l, ch.Sources());
  }

  /** The set-up leaves every chain as the cycle expects it. */
  lemma SetupIsEven(l: Ledger, chains: seq<Chain>)
    requires Owned(l, chains) && forall i | 0 <= i < |chains| :: StartsFull(l, chains[i])
    ensures Even(l, chains, [50, 50, 50, 1_000_000])
  {
    hide Avails;
    forall i | 0 <= i < |chains|
      ensures ChainReady(l, chains[i]) && Avails(l, chains[i].Sources()) == [50, 50, 50, 1_000_000] {
      assert ChainReady(l, chains[i]) && StartsFull(l, chains[i]);
      AvailsOfChain(l, chains[i]);
    }
  }

  lemma RefillReaches(l: Ledger, l': Ledger, chains: seq<Chain>, v: seq<nat>)
    requires Owned(l, chains) && Owned(l', chains) && ToppedUp(l, l', chains) && Even(l, chains, v)
    ensures Even(l', chains, Refilled(v))
  {
    forall i | 0 <= i < |chains| ensures Avails(l', chains[i].Sources()) == Refilled(v) {
      var ch := chains[i];
      assert ChainReady(l, ch) && ChainReady(l', ch) && ChainToppedUp(l, l', ch);
      RefillReachesChain(l, l', ch);
    }
  }

  lemma RefillReachesChain(l: Ledger, l': Ledger, ch: Chain)
    requires ChainReady(l, ch) && ChainReady(l', ch) && ChainToppedUp(l, l', ch)
    ensures Avails(l', ch.Sources()) == Refilled(Avails(l, ch.Sources()))
  {
    AvailsOfChain(l, ch);
    AvailsOfChain(l', ch);
    var s := ch.Sources();
    assert s[0] == ch.a && s[1] == ch.b && s[2] == ch.c && s[3] == ch.d;
    assert forall k | k in s :: k in ch.Accounts() && !l.accounts[k].Overdrawn() && l.accounts[k].constrained;
  }

  /** One unit drawn from the same source of every chain. */
  lemma DrawReaches(l: Ledger, l': Ledger, chains: seq<Chain>, v: seq<nat>, s: nat)
    requires AllReady(l, chains) && AllReady(l', chains)
    requires BatchSettled(l, l', chains, WATERFALL_TARGET) && Even(l, chains, v)
    requires s < 4 && v[s] >= 1 && forall i | 0 <= i < s :: v[i] == 0
    ensures
      var v' := seq(4, i requires 0 <= i < 4 => (if i == s then v[i] - 1 else v[i]));
      Even(l', chains, v')
    ensures forall i | 0 <= i < |chains| :: Funded(l, chains[i], WATERFALL_TARGET) && PaidOnce(l, l', chains[i], s)
  {
    var v' := seq(4, i requires 0 <= i < 4 => (if i == s then v[i] - 1 else v[i]));
    UnitDraw(v, s);
    forall i | 0 <= i < |chains|
      ensures Funded(l, chains[i], WATERFALL_TARGET) && PaidOnce(l, l', chains[i], s)
      ensures Avails(l', chains[i].Sources()) == v'
    {
      assert ChainReady(l, chains[i]) && ChainReady(l', chains[i]) && Settled(l, l', chains[i], WATERFALL_TARGET);
      DrawReachesChain(l, l', chains[i], v, s);
    }
  }

  ghost predicate PaidOnce(l: Ledger, l': Ledger, ch: Chain, s: nat)
    requires ChainReady(l, ch) && ChainReady(l', ch)
  {
    forall i | 0 <= i < 4 ::
      l'.accounts[ch.Sources()[i]].debitsPosted
        == l.accounts[ch.Sources()[i]].debitsPosted + if i == s then 1 else 0
  }

  function Only(s: nat, i: nat): nat {
    if i == s then 1 else 0
  }

  lemma SettledByOne(l: Ledger, l': Ledger, ch: Chain, s: nat)
    requires ChainReady(l, ch) && Settled(l, l', ch, WATERFALL_TARGET) && s < 4
    requires Waterfall(Avails(l, ch.Sources()), 1) == Unit(s) && Sum(Avails(l, ch.Sources())) >= 1
    ensures Funded(l, ch, WATERFALL_TARGET)
    ensures ch.Accounts() <= l.accounts.Keys && ch.Accounts() <= l'.accounts.Keys
    ensures l'.accounts[ch.a] == Debited(l.accounts[ch.a], Only(s, 0))
    ensures l'.accounts[ch.b] == Debited(l.accounts[ch.b], Only(s, 1))
    ensures l'.accounts[ch.c] == Debited(l.accounts[ch.c], Only(s, 2))
    ensures l'.accounts[ch.d] == Debited(l.accounts[ch.d], Only(s, 3))
  {
    hide Waterfall, Sum, Avails;
  }

  lemma DrawReachesChain(l: Ledger, l': Ledger, ch: Chain, v: seq<nat>, s: nat)
    requires ChainReady(l, ch) && ChainReady(l', ch) && Settled(l, l', ch, WATERFALL_TARGET)
    requires |v| == 4 && Avails(l, ch.Sources()) == v && Waterfall(v, 1) == Unit(s) && Sum(v) >= 1 && s < 4 && v[s] >= 1
    ensures Funded(l, ch, WATERFALL_TARGET) && PaidOnce(l, l', ch, s)
    ensures Avails(l', ch.Sources()) == seq(4, i requires 0 <= i < 4 => (if i == s then v[i] - 1 else v[i]))
  {
    hide Waterfall, Sum, Avails, ChainReady, Settled, Funded, Account.Headroom;
    SettledByOne(l, l', ch, s);
    DebitedByOne(l, l', ch, s);
    AvailsOfChain(l, ch);
    AvailsOfChain(l', ch);
    assert Avails(l', ch.Sources()) == seq(4, i requires 0 <= i < 4 => (if i == s then v[i] - 1 else v[i]));
  }

  lemma DebitedByOne(l: Ledger, l': Ledger, ch: Chain, s: nat)
    requires ChainReady(l, ch) && ChainReady(l', ch)
    requires l'.accounts[ch.a] == Debited(l.accounts[ch.a], Only(s, 0))
    requires l'.accounts[ch.b] == Debited(l.accounts[ch.b], Only(s, 1))
    requires l'.accounts[ch.c] == Debited(l.accounts[ch.c], Only(s, 2))
    requires l'.accounts[ch.d] == Debited(l.accounts[ch.d], Only(s, 3))
    ensures PaidOnce(l, l', ch, s)
    ensures l'.accounts[ch.a].Headroom() == l.accounts[ch.a].Headroom() - Only(s, 0)
    ensures l'.accounts[ch.b].Headroom() == l.accounts[ch.b].Headroom() - Only(s, 1)
    ensures l'.accounts[ch.c].Headroom() == l.accounts[ch.c].Headroom() - Only(s, 2)
    ensures l'.accounts[ch.d].Headroom() == l.accounts[ch.d].Headroom() - Only(s, 3)
  {
    SourcesHaveHeadroom(l, ch);
    SourcesHaveHeadroom(l', ch);
    hide ChainReady;
    var src := ch.Sources();
    assert src[0] == ch.a && src[1] == ch.b && src[2] == ch.c && src[3] == ch.d;
  }

  lemma SourcesHaveHeadroom(l: Ledger, ch: Chain)
    requires ChainReady(l, ch)
    ensures forall s | 0 <= s < 4 :: ch.Sources()[s] in l.accounts
    ensures forall k | k in {ch.a, ch.b, ch.c, ch.d} ::
      var x := l.accounts[k];
      x.Headroom() == x.creditsPosted - x.debitsPosted - x.debitsPending
  {
    var s := ch.Sources();
    assert s[0] == ch.a && s[1] == ch.b && s[2] == ch.c && s[3] == ch.d;
  }

  // The benchmark's loop

  /** Each source of each chain has been debited once per call that fell to it. */
  ghost predicate Booked(start: Ledger, l: Ledger, chains: seq<Chain>, m: nat, calls: nat)
    requires AllReady(start, chains) && AllReady(l, chains) && calls > 0
  {
    forall i, s: nat | 0 <= i < |chains| && s < 4 :: BookedAt(start, l, chains[i], s, Served(m, calls, s))
  }

  ghost predicate BookedAt(start: Ledger, l: Ledger, ch: Chain, s: nat, count: nat)
    requires s < 4
  {
    var k := ch.Sources()[s];
    k in start.accounts && k in l.accounts && l.accounts[k].debitsPosted == start.accounts[k].debitsPosted + count
  }

  /** Where a worker stands after k calls: c full cycles and j calls into the next. */
  ghost predicate Stands(
    start: Ledger, l: Ledger, chains: seq<Chain>, k: nat, v: seq<nat>, j: nat, c: nat)
    requires Owned(start, chains) && Owned(l, chains) && |chains| > 0
  {
    var q := CallsPerCycle(|chains|);
    && k == c * q + j && j <= q && Even(l, chains, v) && OnCycle(|chains|, j, v) && Booked(start, l, chains, k, q)
  }

  lemma StandsAtStart(start: Ledger, chains: seq<Chain>)
    requires Owned(start, chains) && |chains| > 0 && Even(start, chains, [50, 50, 50, 1_000_000])
    ensures Stands(start, start, chains, 0, [50, 50, 50, 1_000_000], 0, 0)
  {
    forall i, s: nat | 0 <= i < |chains| && s < 4 ensures BookedAt(start, start, chains[i], s, 0) {
      assert ChainReady(start, chains[i]);
    }
  }

  lemma StandsRefilled(start: Ledger, l: Ledger, mid: Ledger, chains: seq<Chain>, k: nat, v: seq<nat>, j: nat, c: nat)
    returns (v': seq<nat>)
    requires Owned(start, chains) && Owned(l, chains) && Owned(mid, chains) && |chains| > 0
    requires Stands(start, l, chains, k, v, j, c) && ToppedUp(l, mid, chains) && |chains| * j >= TOP_UP_EVERY
    ensures Stands(start, mid, chains, k, v', 0, c + 1)
  {
    hide Avails, ChainReady, Served, OnCycle, ToppedUp, Booked, CallsPerCycle, Refilled;
    v' := Refilled(v);
    var q := CallsPerCycle(|chains|);
    ThresholdIsCycle(|chains|, j);
    assert (c + 1) * q == c * q + q;
    RefilledOnCycle(|chains|, j, v);
    RefillReaches(l, mid, chains, v);
    RefillBooksNothing(start, l, mid, chains, k, q);
  }

  lemma RefillDebitsNothing(l: Ledger, mid: Ledger, ch: Chain)
    requires ChainReady(l, ch) && ChainToppedUp(l, mid, ch)
    ensures forall s | 0 <= s < 4 ::
      && ch.Sources()[s] in l.accounts && ch.Sources()[s] in mid.accounts
      && mid.accounts[ch.Sources()[s]].debitsPosted == l.accounts[ch.Sources()[s]].debitsPosted
  {
    forall s | 0 <= s < 4 ensures ch.Sources()[s] in ch.Accounts() {
    }
  }

  lemma RefillBooksNothing(start: Ledger, l: Ledger, mid: Ledger, chains: seq<Chain>, k: nat, q: nat)
    requires Owned(start, chains) && Owned(l, chains) && Owned(mid, chains) && q > 0
    requires Booked(start, l, chains, k, q) && ToppedUp(l, mid, chains)
    ensures Booked(start, mid, chains, k, q)
  {
    hide ChainReady, ChainToppedUp, Chain.Accounts, SameOn, AllAccounts;
    forall i, s: nat | 0 <= i < |chains| && s < 4 ensures BookedAt(start, mid, chains[i], s, Served(k, q, s)) {
      RefillDebitsNothing(l, mid, chains[i]);
      assert BookedAt(start, l, chains[i], s, Served(k, q, s));
    }
  }

  lemma StandsAfterDraw(start: Ledger, mid: Ledger, l: Ledger, chains: seq<Chain>, k: nat, v: seq<nat>, j: nat, c: nat)
    returns (v': seq<nat>)
    requires Owned(start, chains) && Owned(mid, chains) && Owned(l, chains) && |chains| > 0
    requires Stands(start, mid, chains, k, v, j, c) && |chains| * j < TOP_UP_EVERY
    requires BatchSettled(mid, l, chains, WATERFALL_TARGET)
    ensures Stands(start, l, chains, k + 1, v', j + 1, c)
    ensures forall i | 0 <= i < |chains| :: Funded(mid, chains[i], WATERFALL_TARGET)
  {
    hide Avails, BatchSettled, Sum, ChainReady, Served;
    var n, q := |chains|, CallsPerCycle(|chains|);
    ThresholdIsCycle(n, j);
    PayerInTurn(n, j, v);
    PositionInCycle(k, c, q, j);
    DrawReaches(mid, l, chains, v, j / 50);
    v' := seq(4, i requires 0 <= i < 4 => (if i == j / 50 then v[i] - 1 else v[i]));
    NextOnCycle(n, j, v, v');
    BookedOnce(start, mid, l, chains, k, q, j / 50);
  }

  lemma BookedOnce(start: Ledger, mid: Ledger, l: Ledger, chains: seq<Chain>, k: nat, q: nat, payer: nat)
    requires AllReady(start, chains) && AllReady(mid, chains) && AllReady(l, chains) && q > 0
    requires Booked(start, mid, chains, k, q) && k % q / 50 == payer
    requires forall i | 0 <= i < |chains| :: PaidOnce(mid, l, chains[i], payer)
    ensures Booked(start, l, chains, k + 1, q)
  {
    hide ChainReady;
    var more := k + 1;
    forall i, s: nat | 0 <= i < |chains| && s < 4 ensures BookedAt(start, l, chains[i], s, Served(more, q, s)) {
      SourcesPresent(mid, chains[i]);
      SourcesPresent(l, chains[i]);
      assert BookedAt(start, mid, chains[i], s, Served(k, q, s)) && PaidOnce(mid, l, chains[i], payer);
    }
  }

  lemma SourcesPresent(l: Ledger, ch: Chain)
    requires ChainReady(l, ch)
    ensures forall s | 0 <= s < 4 :: ch.Sources()[s] in l.accounts
  {
  }

  /** One worker's goroutine with the batch path as its operation: m calls in a row.
      None fails, and call k is paid by the source whose turn it is, on every chain;
      unless the batch is above the server's limit, in which case all fail. */
  method RunBatches(w: Worker, m: nat) returns (errors: int)
    requires w.Valid() && w.drawsCnt == 0 && Even(w.client.ledger, w.chains, [50, 50, 50, 1_000_000])
    modifies w`drawsCnt, w.client
    ensures w.Valid() && old(AllReady(w.client.ledger, w.chains))
    ensures OneRequest(|w.chains|) ==>
      errors == 0 && Booked(old(w.client.ledger), w.client.ledger, w.chains, m, CallsPerCycle(|w.chains|))
    ensures !OneRequest(|w.chains|) ==> errors == m && w.client.ledger == old(w.client.ledger)
  {
    hide Stands, ChainReady, Funded, BatchSettled, ToppedUp, Confines, Even, BankReady, Client.Valid;
    ghost var start, n := w.client.ledger, |w.chains|;
    ghost var v: seq<nat>, j: nat, c: nat := [50, 50, 50, 1_000_000], 0, 0;
    errors := 0;
    StandsAtStart(start, w.chains);
    for k := 0 to m
      invariant w.Valid()
      invariant OneRequest(n) ==>
        errors == 0 && w.drawsCnt == n * j && Stands(start, w.client.ledger, w.chains, k, v, j, c)
      invariant !OneRequest(n) ==> errors == k && w.drawsCnt == 0 && w.client.ledger == start
    {
      ghost var before := w.client.ledger;
      var ok, mid := w.DoHardcoded();
      if OneRequest(n) {
        if n * j >= TOP_UP_EVERY {
          v := StandsRefilled(start, before, mid, w.chains, k, v, j, c);
          j, c := 0, c + 1;
        }
        v := StandsAfterDraw(start, mid, w.client.ledger, w.chains, k, v, j, c);
        j := j + 1;
      }
      errors := if ok then errors else errors + 1;
    }
    if OneRequest(n) {
      BookedAtEnd(start, w.client.ledger, w.chains, m, v, j, c);
    }
  }

  lemma BookedAtEnd(start: Ledger, l: Ledger, chains: seq<Chain>, k: nat, v: seq<nat>, j: nat, c: nat)
    requires Owned(start, chains) && Owned(l, chains) && |chains| > 0 && Stands(start, l, chains, k, v, j, c)
    ensures AllReady(start, chains) && AllReady(l, chains) && Booked(start, l, chains, k, CallsPerCycle(|chains|))
  {
  }

  /** From the set-up on: a new worker's first m calls follow the cycle. */
  method RunFromSetup(client: Client, w: nat, n: nat, i: nat, m: nat)
    returns (worker: Worker, errors: int, ghost start: Ledger)
    requires n > 0 && i < w && client.Valid()
    requires SetupPossible(client.ledger, 7 * (w * n)) && Unopened(client.ledger, 7 * (w * n))
    modifies client
    ensures fresh(worker) && worker.Valid() && worker.client == client && worker.chains == WorkerChains(i, n)
    ensures OneRequest(n) ==> errors == 0 && SharesPaid(client.ledger, worker.chains, m, CallsPerCycle(n))
    ensures AllFunded(old(client.ledger), start, w * n)
    ensures !OneRequest(n) ==> errors == m && client.ledger == start
  {
    var all := SetupWaterfall(client, w, n);
    worker := new Worker(client, all[i]);
    SetupIsEven(client.ledger, all[i]);
    start := client.ledger;
    errors := RunBatches(worker, m);
    if OneRequest(n) {
      BookedFromZero(start, client.ledger, worker.chains, m, CallsPerCycle(n));
    }
  }

  /** What each source of each chain has paid in all, since it was opened. */
  ghost predicate SharesPaid(l: Ledger, chains: seq<Chain>, m: nat, calls: nat)
    requires calls > 0
  {
    forall i, s: nat | 0 <= i < |chains| && s < 4 :: PaidInAll(l, chains[i], s, Served(m, calls, s))
  }

  predicate PaidInAll(l: Ledger, ch: Chain, s: nat, count: nat)
    requires s < 4
  {
    ch.Sources()[s] in l.accounts && l.accounts[ch.Sources()[s]].debitsPosted == count
  }

  lemma BookedFromZero(start: Ledger, l: Ledger, chains: seq<Chain>, m: nat, calls: nat)
    requires AllReady(start, chains) && AllReady(l, chains) && calls > 0 && Booked(start, l, chains, m, calls)
    requires forall i | 0 <= i < |chains| :: StartsFull(start, chains[i])
    ensures SharesPaid(l, chains, m, calls)
  {
    forall i, s: nat | 0 <= i < |chains| && s < 4 ensures PaidInAll(l, chains[i], s, Served(m, calls, s)) {
      assert BookedAt(start, l, chains[i], s, Served(m, calls, s)) && StartsFull(start, chains[i]);
    }
  }
}
