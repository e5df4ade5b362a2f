/** The client-side waterfall: read the source accounts, compute the draws, submit
    them as one linked batch. */
module WaterfallTransfers {
  import opened Common
  import opened WaterfallSpec
  import opened TigerBeetle

  const U64: nat := 0x1_0000_0000_0000_0000

  datatype Source = Source(id: AccountId, account: Account)

  /** The counters convert to 64 bits; the program aborts otherwise. */
  predicate Fits(a: Account) {
    a.creditsPosted < U64 && a.debitsPosted < U64 && a.debitsPending < U64
  }

  /** 64-bit arithmetic: the sum of the two debit counters may wrap. */
  function Available(a: Account): nat
    requires Fits(a)
  {
    var debits := (a.debitsPosted + a.debitsPending) % U64;
    if debits >= a.creditsPosted then 0 else a.creditsPosted - debits
  }

  /** The read is right exactly if the sum does not wrap below the credits. */
  lemma AvailableIsHeadroom(a: Account)
    requires Fits(a)
    ensures Available(a) == a.Headroom()
       <==> a.debitsPosted + a.debitsPending < U64 || a.debitsPosted + a.debitsPending - U64 >= a.creditsPosted
  {
    if a.debitsPosted + a.debitsPending >= U64 {
      assert (a.debitsPosted + a.debitsPending) % U64 == a.debitsPosted + a.debitsPending - U64;
    }
  }

  predicate AllFit(sources: seq<Source>) {
    forall i | 0 <= i < |sources| :: Fits(sources[i].account)
  }

  function Availables(sources: seq<Source>): (avails: seq<nat>)
    requires AllFit(sources)
    ensures |avails| == |sources|
  {
    seq(|sources|, i requires 0 <= i < |sources| => Available(sources[i].account))
  }

  /** One transfer per source that gives anything. */
  function Shares(sources: seq<Source>, takes: seq<nat>, dest: AccountId, base: TransferId): seq<Transfer>
    requires |takes| == |sources|
  {
    if sources == [] then []
    else if takes[0] == 0 then Shares(sources[1..], takes[1..], dest, base)
    else
      [Transfer(base, sources[0].id, dest, takes[0], false, false, false)]
      + Shares(sources[1..], takes[1..], dest, base + 1)
  }

  lemma {:induction false} SharesSnoc(
    sources: seq<Source>, takes: seq<nat>, dest: AccountId, base: TransferId, s: Source, take: nat)
    requires |takes| == |sources|
    ensures
      var shares := Shares(sources, takes, dest, base);
      Shares(sources + [s], takes + [take], dest, base)
        == shares + if take == 0 then [] else [Transfer(base + |shares|, s.id, dest, take, false, false, false)]
    decreases |sources|
  {
    if sources == [] {
      assert sources + [s] == [s] && takes + [take] == [take];
    } else {
      SharesSnoc(sources[1..], takes[1..], dest, if takes[0] == 0 then base else base + 1, s, take);
      assert (sources + [s])[1..] == sources[1..] + [s];
      assert (takes + [take])[1..] == takes[1..] + [take];
    }
  }

  lemma {:induction false} NoMoreShares(
    sources: seq<Source>, takes: seq<nat>, k: nat, dest: AccountId, base: TransferId)
    requires |takes| == |sources| && k <= |sources|
    requires forall i | k <= i < |takes| :: takes[i] == 0
    ensures Shares(sources, takes, dest, base) == Shares(sources[..k], takes[..k], dest, base)
    decreases |sources|
  {
    if sources == [] {
      assert sources[..k] == [] && takes[..k] == [];
    } else if k == 0 {
      NoMoreShares(sources[1..], takes[1..], 0, dest, base);
    } else {
      NoMoreShares(sources[1..], takes[1..], k - 1, dest, if takes[0] == 0 then base else base + 1);
      assert sources[..k][1..] == sources[1..][..k - 1] && takes[..k][1..] == takes[1..][..k - 1];
    }
  }

  lemma {:induction false} SharesArePositive(
    sources: seq<Source>, takes: seq<nat>, dest: AccountId, base: TransferId)
    requires |takes| == |sources|
    ensures forall t | t in Shares(sources, takes, dest, base) :: t.amount > 0 && t.credit == dest && !t.linked
  {
    if sources != [] {
      SharesArePositive(sources[1..], takes[1..], dest, if takes[0] == 0 then base else base + 1);
    }
  }

  /** All but the last carry the linked flag. */
  function Linked(ts: seq<Transfer>): (linked: seq<Transfer>)
    ensures |linked| == |ts|
  {
    seq(|ts|, i requires 0 <= i < |ts| => ts[i].(linked := i < |ts| - 1))
  }

  datatype Result = Aborted | Built(transfers: seq<Transfer>)

  /** The program reads source k, which does not fit, because those before it, all of
      which fit, have not met the target. */
  ghost predicate AbortsAt(sources: seq<Source>, target: nat, k: nat) {
    && k < |sources| && !Fits(sources[k].account)
    && AllFit(sources[..k]) && Sum(Availables(sources[..k])) < target
  }

  /** The program's loop. It aborts exactly if it reaches a source that does not fit;
      what it builds is the waterfall of the sources it read, however the rest look. */
  method BuildWaterfallTransfers(sources: seq<Source>, dest: AccountId, target: nat, base: TransferId)
    returns (r: Result, ghost read: nat)
    ensures r.Aborted? <==> exists k: nat :: AbortsAt(sources, target, k)
    ensures read <= |sources| && AllFit(sources[..read])
    ensures r.Built? ==>
      && (read == |sources| || Sum(Availables(sources[..read])) >= target)
      && r.transfers == Linked(Shares(sources[..read], Waterfall(Availables(sources[..read]), target), dest, base))
    ensures r.Built? && AllFit(sources) ==>
      r.transfers == Linked(Shares(sources, Waterfall(Availables(sources), target), dest, base))
  {
    hide Shares, Waterfall, Sum, Fits;
    NoShares(target, dest, base);
    var transfers: seq<Transfer> := [];
    var remaining: nat := target;
    var k := 0;
    while k < |sources| && remaining != 0
      invariant k <= |sources| && remaining <= target && AllFit(sources[..k])
      invariant remaining == target - Sum(Waterfall(Availables(sources[..k]), target))
      invariant transfers == Shares(sources[..k], Waterfall(Availables(sources[..k]), target), dest, base)
    {
      var src := sources[k];
      if !Fits(src.account) {
        OpenBelowTarget(Availables(sources[..k]), target);
        assert AbortsAt(sources, target, k);
        return Aborted, k;
      }
      assert sources[..k + 1][..k] == sources[..k] && sources[..k + 1][..k + 1] == sources[..k + 1];
      NextShare(sources[..k + 1], k, target, dest, base);
      var avail := Available(src.account);
      k := k + 1;
      if avail != 0 {
        var draw := if avail > remaining then remaining else avail;
        remaining := remaining - draw;
        transfers := transfers + [Transfer(base + |transfers|, src.id, dest, draw, false, false, false)];
      }
    }
    read := k;
    OpenBelowTarget(Availables(sources[..k]), target);
    NeverAborts(sources, target, k);
    if AllFit(sources) {
      LastShares(sources, k, target, dest, base);
    }
    SharesArePositive(sources[..k], Waterfall(Availables(sources[..k]), target), dest, base);
    transfers := LinkAllButLast(transfers);
    r := Built(transfers);
  }

  method LinkAllButLast(plain: seq<Transfer>) returns (transfers: seq<Transfer>)
    requires forall t | t in plain :: !t.linked
    ensures transfers == Linked(plain)
  {
    transfers := plain;
    var i := 0;
    while i < |transfers| - 1
      invariant 0 <= i && |transfers| == |plain| && (plain == [] || i <= |plain| - 1)
      invariant forall x | 0 <= x < |plain| :: transfers[x] == plain[x].(linked := x < i || plain[x].linked)
    {
      transfers := transfers[i := transfers[i].(linked := true)];
      i := i + 1;
    }
    assert forall x | 0 <= x < |plain| :: plain[x] in plain;
    assert transfers == Linked(plain);
  }

  /** Something is left to draw exactly while the sources have less than the target. */
  lemma OpenBelowTarget(avails: seq<nat>, target: nat)
    ensures Sum(Waterfall(avails, target)) == Min(target, Sum(avails))
  {
    WaterfallIsDraw(avails, target);
  }

  lemma {:induction false} SumOfPrefix(avails: seq<nat>, k: nat)
    requires k <= |avails|
    ensures Sum(avails[..k]) <= Sum(avails)
    decreases k
  {
    if k > 0 {
      SumOfPrefix(avails[1..], k - 1);
      assert avails[..k][1..] == avails[1..][..k - 1];
    }
  }

  lemma NeverAborts(sources: seq<Source>, target: nat, read: nat)
    requires read <= |sources| && AllFit(sources[..read])
    requires read == |sources| || Sum(Availables(sources[..read])) >= target
    ensures !exists k: nat :: AbortsAt(sources, target, k)
  {
    hide Fits;
    forall i | 0 <= i < read ensures Fits(sources[i].account) {
      assert sources[..read][i] == sources[i];
    }
    forall k: nat | read <= k < |sources| && AllFit(sources[..k])
      ensures Sum(Availables(sources[..k])) >= target
    {
      assert Availables(sources[..k])[..read] == Availables(sources[..read]);
      SumOfPrefix(Availables(sources[..k]), read);
    }
  }

  lemma NoShares(target: nat, dest: AccountId, base: TransferId)
    ensures Availables([]) == [] && Sum(Waterfall([], target)) == 0
    ensures Shares([], Waterfall([], target), dest, base) == []
  {
  }

  lemma NextShare(sources: seq<Source>, k: nat, target: nat, dest: AccountId, base: TransferId)
    requires k < |sources| && AllFit(sources)
    ensures
      var avails := Availables(sources[..k]);
      var takes := Waterfall(avails, target);
      var shares := Shares(sources[..k], takes, dest, base);
      var left := target - Sum(takes);
      var take := Min(Available(sources[k].account), left);
      && left >= 0
      && Sum(Waterfall(Availables(sources[..k + 1]), target)) == Sum(takes) + take
      && Shares(sources[..k + 1], Waterfall(Availables(sources[..k + 1]), target), dest, base)
           == shares
              + if take == 0 then [] else [Transfer(base + |shares|, sources[k].id, dest, take, false, false, false)]
  {
    var avails := Availables(sources[..k]);
    var takes := Waterfall(avails, target);
    var x := Available(sources[k].account);
    WaterfallSnoc(avails, x, target);
    assert sources[..k + 1] == sources[..k] + [sources[k]];
    assert Availables(sources[..k + 1]) == avails + [x];
    var take := Min(x, target - Sum(takes));
    SumSnoc(takes, take);
    SharesSnoc(sources[..k], takes, dest, base, sources[k], take);
  }

  lemma LastShares(sources: seq<Source>, k: nat, target: nat, dest: AccountId, base: TransferId)
    requires k <= |sources| && AllFit(sources)
    requires k == |sources| || target == Sum(Waterfall(Availables(sources[..k]), target))
    ensures Shares(sources, Waterfall(Availables(sources), target), dest, base)
         == Shares(sources[..k], Waterfall(Availables(sources[..k]), target), dest, base)
  {
    if k == |sources| {
      assert sources[..k] == sources;
    } else {
      var avails := Availables(sources);
      var takes := Waterfall(avails, target);
      assert avails[..k] == Availables(sources[..k]);
      WaterfallPrefix(avails, k, target);
      NoMoreShares(sources, takes, k, dest, base);
    }
  }

  /** Once a prefix of the sources pays everything, the rest give nothing. */
  lemma {:induction false} WaterfallPrefix(avails: seq<nat>, k: nat, amount: nat)
    requires k <= |avails|
    ensures Waterfall(avails, amount)[..k] == Waterfall(avails[..k], amount)
    ensures Sum(Waterfall(avails[..k], amount)) == amount ==>
      forall i | k <= i < |avails| :: Waterfall(avails, amount)[i] == 0
    decreases k
  {
    var takes := Waterfall(avails, amount);
    if k == 0 {
      if amount == 0 {
        WaterfallIsDraw(avails, 0);
        ZeroSum(takes);
      }
    } else {
      var take := Min(avails[0], amount);
      WaterfallPrefix(avails[1..], k - 1, amount - take);
      assert avails[..k][1..] == avails[1..][..k - 1];
      assert takes == [take] + Waterfall(avails[1..], amount - take);
    }
  }

  // Running what was built

  /** The reads still describe the ledger, and the accounts are different ones. */
  ghost predicate Current(l: Ledger, sources: seq<Source>, dest: AccountId) {
    && dest in l.accounts
    && (forall i | 0 <= i < |sources| ::
          sources[i].id in l.accounts && l.accounts[sources[i].id] == sources[i].account && sources[i].id != dest)
    && (forall i, j | 0 <= i < j < |sources| :: sources[i].id != sources[j].id)
  }

  ghost predicate Drained(l: Ledger, l': Ledger, sources: seq<Source>, takes: seq<nat>, dest: AccountId)
    requires |takes| == |sources| && Current(l, sources, dest)
  {
    && l'.accounts.Keys == l.accounts.Keys
    && (forall i | 0 <= i < |sources| ::
          l'.accounts[sources[i].id]
            == sources[i].account.(debitsPosted := sources[i].account.debitsPosted + takes[i]))
    && l'.accounts[dest] == l.accounts[dest].(creditsPosted := l.accounts[dest].creditsPosted + Sum(takes))
    && (forall k | k in l.accounts && k != dest && (forall i | 0 <= i < |sources| :: k != sources[i].id) ::
          l'.accounts[k] == l.accounts[k])
  }

  /** The draws never exceed the headroom of their source. */
  predicate Covered(sources: seq<Source>, takes: seq<nat>)
    requires |takes| == |sources|
  {
    forall i | 0 <= i < |sources| :: takes[i] > 0 ==> takes[i] <= sources[i].account.Headroom()
  }

  lemma LinkedHead(t: Transfer, rest: seq<Transfer>)
    ensures Linked([t] + rest)[0] == t.(linked := rest != [])
    ensures Linked([t] + rest)[1..] == Linked(rest)
  {
  }

  lemma ShareExecutes(l: Ledger, s: Source, take: nat, dest: AccountId, base: TransferId, linked: bool, at: nat)
    returns (l1: Ledger)
    requires s.id in l.accounts && l.accounts[s.id] == s.account && dest in l.accounts && s.id != dest
    requires 0 < take <= s.account.Headroom() && base !in l.used
    ensures l1 == Move(l, s.id, dest, take, base)
    ensures Execute(l, Transfer(base, s.id, dest, take, linked, false, false), at) == Posted(l1)
  {
    l1 := Move(l, s.id, dest, take, base);
  }

  lemma DrainedCons(
    l: Ledger, l1: Ledger, l': Ledger, sources: seq<Source>, takes: seq<nat>, dest: AccountId, base: TransferId)
    requires |takes| == |sources| > 0 && Current(l, sources, dest)
    requires l1 == if takes[0] == 0 then l else Move(l, sources[0].id, dest, takes[0], base)
    requires Current(l1, sources[1..], dest) && Drained(l1, l', sources[1..], takes[1..], dest)
    ensures Drained(l, l', sources, takes, dest)
  {
    forall i | 0 <= i < |sources|
      ensures l'.accounts[sources[i].id]
           == sources[i].account.(debitsPosted := sources[i].account.debitsPosted + takes[i])
    {
      if i > 0 {
        assert sources[i] == sources[1..][i - 1] && takes[i] == takes[1..][i - 1];
      } else {
        assert forall j | 0 <= j < |sources[1..]| :: sources[1..][j] == sources[j + 1];
      }
    }
    forall k | k in l.accounts && k != dest && (forall i | 0 <= i < |sources| :: k != sources[i].id)
      ensures l'.accounts[k] == l.accounts[k]
    {
      assert forall j | 0 <= j < |sources[1..]| :: k != sources[1..][j].id;
    }
  }

  lemma CurrentTail(l: Ledger, l1: Ledger, sources: seq<Source>, take: nat, dest: AccountId, base: TransferId)
    requires sources != [] && Current(l, sources, dest)
    requires l1 == if take == 0 then l else Move(l, sources[0].id, dest, take, base)
    ensures Current(l1, sources[1..], dest)
  {
    assert forall j | 0 <= j < |sources[1..]| :: sources[1..][j] == sources[j + 1];
  }

  /** Built from current reads, the batch is accepted and every source loses its
      share, whether or not it is protected against overdrafts. */
  lemma {:induction false} SharesExecute(
    l: Ledger, sources: seq<Source>, takes: seq<nat>, dest: AccountId, base: TransferId, at: nat)
    returns (l': Ledger)
    requires |takes| == |sources| && Current(l, sources, dest) && Covered(sources, takes)
    requires forall id | id in l.used :: id < base
    ensures RunChain(l, Linked(Shares(sources, takes, dest, base)), at) == Posted(l')
    ensures Drained(l, l', sources, takes, dest)
    decreases |sources|
  {
    if sources == [] {
      l' := l;
    } else {
      var s, take := sources[0], takes[0];
      assert forall j | 0 <= j < |sources[1..]| :: sources[1..][j] == sources[j + 1] && takes[1..][j] == takes[j + 1];
      if take == 0 {
        CurrentTail(l, l, sources, take, dest, base);
        l' := SharesExecute(l, sources[1..], takes[1..], dest, base, at);
        DrainedCons(l, l, l', sources, takes, dest, base);
      } else {
        var rest := Shares(sources[1..], takes[1..], dest, base + 1);
        var t := Transfer(base, s.id, dest, take, false, false, false);
        var l1 := ShareExecutes(l, s, take, dest, base, rest != [], at);
        CurrentTail(l, l1, sources, take, dest, base);
        l' := SharesExecute(l1, sources[1..], takes[1..], dest, base + 1, at + 1);
        LinkedHead(t, rest);
        DrainedCons(l, l1, l', sources, takes, dest, base);
      }
    }
  }

  lemma {:induction false} LinkedIsOneChain(ts: seq<Transfer>, rest: seq<Transfer>)
    requires ts != [] && forall t | t in ts :: !t.linked
    ensures ChainLength(Linked(ts) + rest) == |ts|
    decreases |ts|
  {
    var batch := Linked(ts) + rest;
    assert ts[0] in ts;
    if |ts| > 1 {
      LinkedHead(ts[0], ts[1..]);
      assert [ts[0]] + ts[1..] == ts;
      assert batch[1..] == Linked(ts[1..]) + rest;
      LinkedIsOneChain(ts[1..], rest);
    }
  }

  /** Read, compute, submit: with nothing in between, the client-side waterfall
      moves exactly the waterfall of the headrooms, in one atomic chain. */
  lemma BuiltBatchDraws(l: Ledger, sources: seq<Source>, dest: AccountId, target: nat, base: TransferId)
    requires Current(l, sources, dest) && forall id | id in l.used :: id < base
    requires AllFit(sources)
    requires forall i | 0 <= i < |sources| :: Available(sources[i].account) == sources[i].account.Headroom()
    ensures
      var takes := Waterfall(Availables(sources), target);
      var batch := Linked(Shares(sources, takes, dest, base));
      var r := CreateTransfers(l, batch, 0);
      && r.failures == [] && Drained(l, r.ledger, sources, takes, dest)
      && Sum(takes) == Min(target, Sum(Availables(sources)))
      && (batch != [] ==> ChainLength(batch) == |batch|)
  {
    var avails := Availables(sources);
    var takes := Waterfall(avails, target);
    WaterfallIsDraw(avails, target);
    forall i | 0 <= i < |sources| ensures takes[i] <= sources[i].account.Headroom() {
      assert avails[i] == Available(sources[i].account);
    }
    var plain := Shares(sources, takes, dest, base);
    var batch := Linked(plain);
    var l' := SharesExecute(l, sources, takes, dest, base, 0);
    SharesArePositive(sources, takes, dest, base);
    if batch != [] {
      LinkedIsOneChain(plain, []);
      assert batch + [] == batch && batch[..|batch|] == batch && batch[|batch|..] == [];
    }
  }
}
