/** The seven linked transfers that ask TigerBeetle for one waterfall draw, and
    the proof that they compute the waterfall. */
module WaterfallChain {
  import opened Common
  import opened WaterfallSpec
  import opened TigerBeetle

  const WATERFALL_TARGET: nat := 1
  const WATERFALL_AMOUNT_MAX: nat := 1_000_000_000_000

  /** Accounts of one chain; sources in priority order. */
  datatype Chain = Chain(a: AccountId, b: AccountId, c: AccountId, d: AccountId,
                         dest: AccountId, setup: AccountId, limit: AccountId)
  {
    function Sources(): seq<AccountId> { [a, b, c, d] }

    function Accounts(): set<AccountId> { {a, b, c, d, dest, setup, limit} }

    predicate Distinct() {
      && a != b && a != c && a != d && a != dest && a != setup && a != limit
      && b != c && b != d && b != dest && b != setup && b != limit
      && c != d && c != dest && c != setup && c != limit
      && d != dest && d != setup && d != limit
      && dest != setup && dest != limit && setup != limit
    }
  }

  function Pull(id: TransferId, source: AccountId, setup: AccountId, target: nat): Transfer {
    Transfer(id, source, setup, target, true, true, true)
  }

  /** Appends the seven transfers of one draw to a batch. */
  function AppendChain(batch: seq<Transfer>, ids: seq<TransferId>, ch: Chain, target: nat): seq<Transfer>
    requires |ids| == 7
  {
    batch + [
      Transfer(ids[0], ch.setup, ch.limit, target, true, false, false),
      Pull(ids[1], ch.a, ch.setup, target),
      Pull(ids[2], ch.b, ch.setup, target),
      Pull(ids[3], ch.c, ch.setup, target),
      Pull(ids[4], ch.d, ch.setup, target),
      Transfer(ids[5], ch.setup, ch.dest, target, true, false, false),
      Transfer(ids[6], ch.limit, ch.setup, WATERFALL_AMOUNT_MAX, false, false, true)
    ]
  }

  // The middle section, for any number of sources

  ghost predicate Fresh(l: Ledger, ids: seq<TransferId>) {
    && (forall i | 0 <= i < |ids| :: ids[i] !in l.used)
    && (forall i, j | 0 <= i < j < |ids| :: ids[i] != ids[j])
  }

  ghost function IdSet(ids: seq<TransferId>): set<TransferId> {
    set i | 0 <= i < |ids| :: ids[i]
  }

  lemma IdSetCons(ids: seq<TransferId>)
    requires ids != []
    ensures IdSet(ids) == {ids[0]} + IdSet(ids[1..])
  {
    assert ids == [ids[0]] + ids[1..];
    forall x | x in IdSet(ids) ensures x in {ids[0]} + IdSet(ids[1..]) {
      var i :| 0 <= i < |ids| && x == ids[i];
      if i > 0 { assert x == ids[1..][i - 1]; }
    }
  }

  function Pulls(ids: seq<TransferId>, sources: seq<AccountId>, setup: AccountId, target: nat): seq<Transfer>
    requires |ids| == |sources|
  {
    if sources == [] then []
    else [Pull(ids[0], sources[0], setup, target)] + Pulls(ids[1..], sources[1..], setup, target)
  }

  function Avails(l: Ledger, sources: seq<AccountId>): (avails: seq<nat>)
    requires forall i | 0 <= i < |sources| :: sources[i] in l.accounts
    ensures |avails| == |sources|
  {
    if sources == [] then []
    else
      [l.accounts[sources[0]].Headroom()] + Avails(l, sources[1..])
  }

  ghost predicate Pullable(l: Ledger, sources: seq<AccountId>, setup: AccountId) {
    && (forall i | 0 <= i < |sources| ::
          sources[i] in l.accounts && l.accounts[sources[i]].constrained && !l.accounts[sources[i]].Overdrawn())
    && (forall i, j | 0 <= i < j < |sources| :: sources[i] != sources[j])
    && setup in l.accounts && setup !in sources && !l.accounts[setup].constrained
  }

  /** What the sources and SETUP look like after the shares have moved. */
  ghost predicate Pulled(l: Ledger, l': Ledger, sources: seq<AccountId>, setup: AccountId, takes: seq<nat>)
    requires |takes| == |sources| && Pullable(l, sources, setup)
  {
    && l'.accounts.Keys == l.accounts.Keys
    && l'.accounts[setup] == l.accounts[setup].(creditsPosted := l.accounts[setup].creditsPosted + Sum(takes))
    && (forall i | 0 <= i < |sources| ::
          sources[i] in l'.accounts && l'.accounts[sources[i]]
            == l.accounts[sources[i]].(debitsPosted := l.accounts[sources[i]].debitsPosted + takes[i]))
    && (forall k | k in l.accounts && k != setup && k !in sources :: l'.accounts[k] == l.accounts[k])
  }

  lemma PullOne(l: Ledger, source: AccountId, setup: AccountId, target: nat, id: TransferId, at: nat)
    requires source in l.accounts && l.accounts[source].constrained && !l.accounts[source].Overdrawn()
    requires setup in l.accounts && setup != source && !l.accounts[setup].constrained && id !in l.used
    requires l.accounts[setup].Shortfall() <= target
    ensures
      var take := Min(l.accounts[source].Headroom(), l.accounts[setup].Shortfall());
      && Execute(l, Pull(id, source, setup, target), at) == Posted(Move(l, source, setup, take, id))
      && Move(l, source, setup, take, id).accounts[setup].Shortfall() == l.accounts[setup].Shortfall() - take
  {
  }

  lemma {:induction false} AvailsFrame(l: Ledger, l1: Ledger, sources: seq<AccountId>)
    requires forall i | 0 <= i < |sources| ::
      sources[i] in l.accounts && sources[i] in l1.accounts && l1.accounts[sources[i]] == l.accounts[sources[i]]
    ensures Avails(l1, sources) == Avails(l, sources)
  {
    if sources != [] {
      AvailsFrame(l, l1, sources[1..]);
    }
  }

  lemma PullableTail(l: Ledger, l1: Ledger, sources: seq<AccountId>, setup: AccountId, take: nat, ids: seq<TransferId>)
    requires |ids| == |sources| > 0 && Pullable(l, sources, setup) && Fresh(l, ids)
    requires l1 == Move(l, sources[0], setup, take, ids[0])
    ensures Pullable(l1, sources[1..], setup) && Fresh(l1, ids[1..])
    ensures Avails(l1, sources[1..]) == Avails(l, sources)[1..]
  {
    assert forall i | 0 <= i < |sources[1..]| ::
        sources[1..][i] == sources[i + 1] && l1.accounts[sources[i + 1]] == l.accounts[sources[i + 1]];
    AvailsFrame(l, l1, sources[1..]);
  }

  lemma PulledCons(
    l: Ledger, l1: Ledger, l': Ledger, sources: seq<AccountId>, setup: AccountId, takes: seq<nat>, id: TransferId)
    requires |takes| == |sources| > 0 && Pullable(l, sources, setup)
    requires l1 == Move(l, sources[0], setup, takes[0], id)
    requires Pullable(l1, sources[1..], setup) && Pulled(l1, l', sources[1..], setup, takes[1..])
    ensures Pulled(l, l', sources, setup, takes)
  {
    forall i | 0 <= i < |sources|
      ensures sources[i] in l'.accounts
      ensures l'.accounts[sources[i]]
           == l.accounts[sources[i]].(debitsPosted := l.accounts[sources[i]].debitsPosted + takes[i])
    {
      if i > 0 {
        assert sources[i] == sources[1..][i - 1] && takes[i] == takes[1..][i - 1];
        assert l1.accounts[sources[i]] == l.accounts[sources[i]];
      } else {
        assert sources[0] !in sources[1..];
      }
    }
  }

  /** The balancing transfers hand SETUP exactly the waterfall of what it lacks. */
  lemma {:induction false} PullAll(
    l: Ledger, sources: seq<AccountId>, setup: AccountId, target: nat, ids: seq<TransferId>,
    rest: seq<Transfer>, at: nat, end: nat) returns (l': Ledger)
    requires end == at + |ids|
    requires |ids| == |sources| && Pullable(l, sources, setup) && Fresh(l, ids) && rest != []
    requires l.accounts[setup].Shortfall() <= target
    ensures Pulled(l, l', sources, setup, Waterfall(Avails(l, sources), l.accounts[setup].Shortfall()))
    ensures l'.used == l.used + IdSet(ids)
    ensures RunChain(l, Pulls(ids, sources, setup, target) + rest, at) == RunChain(l', rest, end)
    decreases |sources|
  {
    var takes := Waterfall(Avails(l, sources), l.accounts[setup].Shortfall());
    if sources == [] {
      l' := l;
      assert Pulls(ids, sources, setup, target) + rest == rest;
    } else {
      var s := sources[0];
      PullOne(l, s, setup, target, ids[0], at);
      var l1 := Move(l, s, setup, takes[0], ids[0]);
      PullableTail(l, l1, sources, setup, takes[0], ids);
      l' := PullAll(l1, sources[1..], setup, target, ids[1..], rest, at + 1, end);
      PulledCons(l, l1, l', sources, setup, takes, ids[0]);
      IdSetCons(ids);
      PullsHead(l, l1, sources, setup, target, ids, rest, at);
    }
  }

  lemma PullsHead(
    l: Ledger, l1: Ledger, sources: seq<AccountId>, setup: AccountId, target: nat, ids: seq<TransferId>,
    rest: seq<Transfer>, at: nat)
    requires |ids| == |sources| > 0 && rest != []
    requires Execute(l, Pull(ids[0], sources[0], setup, target), at) == Posted(l1)
    ensures RunChain(l, Pulls(ids, sources, setup, target) + rest, at)
         == RunChain(l1, Pulls(ids[1..], sources[1..], setup, target) + rest, at + 1)
  {
    var chain := Pulls(ids, sources, setup, target) + rest;
    assert chain[0] == Pull(ids[0], sources[0], setup, target);
    assert chain[1..] == Pulls(ids[1..], sources[1..], setup, target) + rest;
  }

  // The whole chain

  /** No debt between SETUP and LIMIT is outstanding. */
  predicate Square(a: Account) {
    a.debitsPosted == a.creditsPosted && a.debitsPending == 0 && a.creditsPending == 0
  }

  ghost predicate ChainReady(l: Ledger, ch: Chain) {
    && ch.Distinct() && ch.Accounts() <= l.accounts.Keys
    && Pullable(l, ch.Sources(), ch.setup)
    && Square(l.accounts[ch.setup]) && Square(l.accounts[ch.limit]) && l.accounts[ch.limit].constrained
  }

  function Debited(a: Account, amount: nat): Account {
    a.(debitsPosted := a.debitsPosted + amount)
  }

  function Credited(a: Account, amount: nat): Account {
    a.(creditsPosted := a.creditsPosted + amount)
  }

  /** One draw, account by account: each source gives its share, the destination
      gets the target, SETUP and LIMIT are square again, nothing else moves. */
  ghost predicate Drew(l: Ledger, l': Ledger, ch: Chain, target: nat, takes: seq<nat>)
    requires |takes| == 4 && ch.Accounts() <= l.accounts.Keys
  {
    && l'.accounts.Keys == l.accounts.Keys
    && l'.accounts[ch.a] == Debited(l.accounts[ch.a], takes[0])
    && l'.accounts[ch.b] == Debited(l.accounts[ch.b], takes[1])
    && l'.accounts[ch.c] == Debited(l.accounts[ch.c], takes[2])
    && l'.accounts[ch.d] == Debited(l.accounts[ch.d], takes[3])
    && l'.accounts[ch.dest] == Credited(l.accounts[ch.dest], target)
    && l'.accounts[ch.setup] == Credited(Debited(l.accounts[ch.setup], 2 * target), 2 * target)
    && l'.accounts[ch.limit] == Credited(Debited(l.accounts[ch.limit], target), target)
    && (forall k | k in l.accounts && k !in ch.Accounts() :: l'.accounts[k] == l.accounts[k])
  }

  function Closing(ids: seq<TransferId>, ch: Chain, target: nat): seq<Transfer>
    requires |ids| == 2
  {
    [Transfer(ids[0], ch.setup, ch.dest, target, true, false, false),
     Transfer(ids[1], ch.limit, ch.setup, WATERFALL_AMOUNT_MAX, false, false, true)]
  }

  /** The ledger after the first five transfers. */
  ghost predicate OpenedAndPulled(l: Ledger, l5: Ledger, ch: Chain, target: nat, takes: seq<nat>)
    requires |takes| == 4 && ch.Accounts() <= l.accounts.Keys
  {
    && l5.accounts.Keys == l.accounts.Keys
    && l5.accounts[ch.a] == Debited(l.accounts[ch.a], takes[0])
    && l5.accounts[ch.b] == Debited(l.accounts[ch.b], takes[1])
    && l5.accounts[ch.c] == Debited(l.accounts[ch.c], takes[2])
    && l5.accounts[ch.d] == Debited(l.accounts[ch.d], takes[3])
    && l5.accounts[ch.setup] == Credited(Debited(l.accounts[ch.setup], target), Sum(takes))
    && l5.accounts[ch.limit] == Credited(l.accounts[ch.limit], target)
    && (forall k | k in l.accounts && k !in ch.Accounts() :: l5.accounts[k] == l.accounts[k])
    && l5.accounts[ch.dest] == l.accounts[ch.dest]
  }

  lemma Open(l: Ledger, ids: seq<TransferId>, ch: Chain, target: nat, at: nat) returns (l1: Ledger)
    requires |ids| == 7 && ChainReady(l, ch) && Fresh(l, ids)
    ensures l1 == Move(l, ch.setup, ch.limit, target, ids[0])
    ensures Execute(l, AppendChain([], ids, ch, target)[0], at) == Posted(l1)
    ensures Pullable(l1, ch.Sources(), ch.setup) && Fresh(l1, ids[1..5])
    ensures Avails(l1, ch.Sources()) == Avails(l, ch.Sources())
    ensures l1.accounts[ch.setup].Shortfall() == target
  {
    var sources := ch.Sources();
    l1 := Move(l, ch.setup, ch.limit, target, ids[0]);
    assert forall i | 0 <= i < 4 :: l1.accounts[sources[i]] == l.accounts[sources[i]];
    AvailsFrame(l, l1, sources);
  }

  lemma PulledIsOpened(l: Ledger, l1: Ledger, l5: Ledger, ch: Chain, target: nat, takes: seq<nat>, id: TransferId)
    requires |takes| == 4 && ChainReady(l, ch) && l1 == Move(l, ch.setup, ch.limit, target, id)
    requires Pullable(l1, ch.Sources(), ch.setup) && Pulled(l1, l5, ch.Sources(), ch.setup, takes)
    ensures OpenedAndPulled(l, l5, ch, target, takes)
  {
    var s := ch.Sources();
    assert s[0] == ch.a && s[1] == ch.b && s[2] == ch.c && s[3] == ch.d;
  }

  lemma ChainTail(ids: seq<TransferId>, ch: Chain, target: nat)
    requires |ids| == 7
    ensures AppendChain([], ids, ch, target)[1..]
         == Pulls(ids[1..5], ch.Sources(), ch.setup, target) + Closing(ids[5..], ch, target)
  {
    PullsOfFour(ids[1..5], ch, target);
  }

  /** The first five transfers leave SETUP owing exactly what could not be taken. */
  lemma OpenAndPull(l: Ledger, ids: seq<TransferId>, ch: Chain, target: nat, at: nat, end: nat) returns (l5: Ledger)
    requires |ids| == 7 && ChainReady(l, ch) && Fresh(l, ids) && end == at + 5
    ensures OpenedAndPulled(l, l5, ch, target, Waterfall(Avails(l, ch.Sources()), target))
    ensures l5.used == l.used + IdSet(ids[..5])
    ensures RunChain(l, AppendChain([], ids, ch, target), at) == RunChain(l5, Closing(ids[5..], ch, target), end)
  {
    var l1 := Open(l, ids, ch, target, at);
    var rest := Closing(ids[5..], ch, target);
    l5 := PullAll(l1, ch.Sources(), ch.setup, target, ids[1..5], rest, at + 1, end);
    PulledIsOpened(l, l1, l5, ch, target, Waterfall(Avails(l, ch.Sources()), target), ids[0]);
    IdSetCons(ids[..5]);
    assert ids[..5][1..] == ids[1..5];
    ChainTail(ids, ch, target);
  }

  lemma PullsOfFour(ids: seq<TransferId>, ch: Chain, target: nat)
    requires |ids| == 4
    ensures Pulls(ids, ch.Sources(), ch.setup, target) == [
      Pull(ids[0], ch.a, ch.setup, target), Pull(ids[1], ch.b, ch.setup, target),
      Pull(ids[2], ch.c, ch.setup, target), Pull(ids[3], ch.d, ch.setup, target)]
  {
    var s := ch.Sources();
    assert s[1..] == [ch.b, ch.c, ch.d] && s[1..][1..] == [ch.c, ch.d] && s[1..][1..][1..] == [ch.d];
    assert Pulls(ids[1..][1..][1..], s[1..][1..][1..], ch.setup, target) == [Pull(ids[3], ch.d, ch.setup, target)];
    assert Pulls(ids[1..][1..], s[1..][1..], ch.setup, target)
        == [Pull(ids[2], ch.c, ch.setup, target), Pull(ids[3], ch.d, ch.setup, target)];
  }

  /** The sixth transfer overdraws SETUP freely; the seventh is the real test:
      LIMIT holds the target, and is asked for whatever SETUP still owes. */
  lemma Close(
    l: Ledger, l5: Ledger, ids: seq<TransferId>, ch: Chain, target: nat, takes: seq<nat>, at: nat)
    returns (l6: Ledger, repaid: nat)
    requires |ids| == 2 && |takes| == 4 && ChainReady(l, ch) && Fresh(l5, ids)
    requires OpenedAndPulled(l, l5, ch, target, takes) && Sum(takes) <= target
    ensures repaid == Min(WATERFALL_AMOUNT_MAX, 2 * target - Sum(takes))
    ensures l6 == Move(l5, ch.setup, ch.dest, target, ids[0])
    ensures RunChain(l5, Closing(ids, ch, target), at)
         == if repaid > target then Rejected(at + 1, ExceedsCredits)
            else Posted(Move(l6, ch.limit, ch.setup, repaid, ids[1]))
  {
    var chain := Closing(ids, ch, target);
    l6 := Move(l5, ch.setup, ch.dest, target, ids[0]);
    assert Execute(l5, chain[0], at) == Posted(l6);
    assert l6.accounts[ch.setup].Shortfall() == 2 * target - Sum(takes);
    repaid := Resolve(l6, chain[1]);
    assert chain[1..] == [chain[1]] && chain[1..][1..] == [];
    var l7 := Move(l6, ch.limit, ch.setup, repaid, ids[1]);
    assert Execute(l6, chain[1], at + 1)
        == if repaid > target then Rejected(at + 1, ExceedsCredits) else Posted(l7);
    assert RunChain(l6, chain[1..], at + 1)
        == if repaid > target then Rejected(at + 1, ExceedsCredits) else Posted(l7);
  }

  lemma RunWhole(l: Ledger, ids: seq<TransferId>, ch: Chain, target: nat, at: nat)
    returns (l5: Ledger, l6: Ledger, repaid: nat)
    requires |ids| == 7 && ChainReady(l, ch) && Fresh(l, ids)
    ensures
      var takes := Waterfall(Avails(l, ch.Sources()), target);
      && Sum(takes) == Min(target, Sum(Avails(l, ch.Sources())))
      && OpenedAndPulled(l, l5, ch, target, takes) && l5.used == l.used + IdSet(ids[..5])
      && l6 == Move(l5, ch.setup, ch.dest, target, ids[5])
      && repaid == Min(WATERFALL_AMOUNT_MAX, 2 * target - Sum(takes))
    ensures RunChain(l, AppendChain([], ids, ch, target), at)
         == if repaid > target then Rejected(at + 6, ExceedsCredits)
            else Posted(Move(l6, ch.limit, ch.setup, repaid, ids[6]))
  {
    var takes := Waterfall(Avails(l, ch.Sources()), target);
    WaterfallIsDraw(Avails(l, ch.Sources()), target);
    var end := at + 5;
    l5 := OpenAndPull(l, ids, ch, target, at, end);
    assert forall i | 5 <= i < 7 :: ids[i] !in IdSet(ids[..5]);
    l6, repaid := Close(l, l5, ids[5..], ch, target, takes, end);
  }

  /** What one chain does, for every target. It is accepted exactly when the
      sources can pay or the target reaches the terminator's amount; a rejected
      chain is rejected at its seventh member. */
  lemma ChainComputesWaterfall(l: Ledger, ids: seq<TransferId>, ch: Chain, target: nat, at: nat)
    requires |ids| == 7 && ChainReady(l, ch) && Fresh(l, ids)
    ensures
      var avails := Avails(l, ch.Sources());
      var takes := Waterfall(avails, target);
      var r := RunChain(l, AppendChain([], ids, ch, target), at);
      && (r.Posted? <==> Sum(avails) >= target || target >= WATERFALL_AMOUNT_MAX)
      && (r.Rejected? ==> r == Rejected(at + 6, ExceedsCredits))
      && (r.Posted? && target < WATERFALL_AMOUNT_MAX ==>
            Sum(takes) == target && Drew(l, r.ledger, ch, target, takes) && ChainReady(r.ledger, ch)
            && r.ledger.used == l.used + IdSet(ids))
  {
    hide RunChain, AppendChain, Drew, OpenedAndPulled, Avails, Waterfall, Sum, Fresh;
    WaterfallIsDraw(Avails(l, ch.Sources()), target);
    var takes := Waterfall(Avails(l, ch.Sources()), target);
    var l5, l6, repaid := RunWhole(l, ids, ch, target, at);
    if repaid <= target && target < WATERFALL_AMOUNT_MAX {
      var l' := Move(l6, ch.limit, ch.setup, repaid, ids[6]);
      ClosedIsDrew(l, l5, l6, l', ids[5..], ch, target, takes);
      DrewKeepsReady(l, l', ch, target, takes);
      IdSetAppend(ids[..5], ids[5..]);
      assert ids[..5] + ids[5..] == ids;
    }
  }

  lemma ClosedIsDrew(
    l: Ledger, l5: Ledger, l6: Ledger, l': Ledger, ids: seq<TransferId>, ch: Chain, target: nat, takes: seq<nat>)
    requires |ids| == 2 && |takes| == 4 && ChainReady(l, ch)
    requires OpenedAndPulled(l, l5, ch, target, takes) && Sum(takes) == target
    requires l6 == Move(l5, ch.setup, ch.dest, target, ids[0])
    requires l' == Move(l6, ch.limit, ch.setup, target, ids[1])
    ensures Drew(l, l', ch, target, takes) && l'.used == l5.used + IdSet(ids)
  {
    assert IdSet(ids) == {ids[0], ids[1]};
  }

  lemma IdSetAppend(a: seq<TransferId>, b: seq<TransferId>)
    ensures IdSet(a + b) == IdSet(a) + IdSet(b)
  {
    forall x | x in IdSet(a) + IdSet(b) ensures x in IdSet(a + b) {
      if x in IdSet(a) {
        var i :| 0 <= i < |a| && a[i] == x;
        assert (a + b)[i] == x;
      } else {
        var i :| 0 <= i < |b| && b[i] == x;
        assert (a + b)[|a| + i] == x;
      }
    }
  }

  lemma DrewKeepsReady(l: Ledger, l': Ledger, ch: Chain, target: nat, takes: seq<nat>)
    requires ChainReady(l, ch) && |takes| == 4 && Drew(l, l', ch, target, takes)
    requires forall i | 0 <= i < 4 :: takes[i] <= Avails(l, ch.Sources())[i]
    ensures ChainReady(l', ch)
  {
    var s := ch.Sources();
    AvailsAt(l, s);
    forall i | 0 <= i < 4 ensures !l'.accounts[s[i]].Overdrawn() {
      assert s[0] == ch.a && s[1] == ch.b && s[2] == ch.c && s[3] == ch.d;
    }
  }

  lemma {:induction false} AvailsAt(l: Ledger, sources: seq<AccountId>)
    requires forall i | 0 <= i < |sources| :: sources[i] in l.accounts
    ensures forall i | 0 <= i < |sources| :: Avails(l, sources)[i] == l.accounts[sources[i]].Headroom()
  {
    if sources != [] {
      AvailsAt(l, sources[1..]);
      forall i | 1 <= i < |sources|
        ensures Avails(l, sources)[i] == l.accounts[sources[i]].Headroom()
      {
        assert Avails(l, sources)[i] == Avails(l, sources[1..])[i - 1];
      }
    }
  }

  /** The bound is sharp: at the terminator's amount itself an underfunded draw
      goes through, and the destination is paid more than the sources gave. */
  lemma StrictBoundNeeded(l: Ledger, ids: seq<TransferId>, ch: Chain, at: nat)
    requires |ids| == 7 && ChainReady(l, ch) && Fresh(l, ids)
    requires Sum(Avails(l, ch.Sources())) < WATERFALL_AMOUNT_MAX
    ensures
      var r := RunChain(l, AppendChain([], ids, ch, WATERFALL_AMOUNT_MAX), at);
      && r.Posted? && ch.Accounts() <= r.ledger.accounts.Keys
      && r.ledger.accounts[ch.dest] == Credited(l.accounts[ch.dest], WATERFALL_AMOUNT_MAX)
      && r.ledger.accounts[ch.setup].Shortfall() == WATERFALL_AMOUNT_MAX - Sum(Avails(l, ch.Sources())) > 0
  {
    var l5, l6, repaid := RunWhole(l, ids, ch, WATERFALL_AMOUNT_MAX, at);
  }
}
