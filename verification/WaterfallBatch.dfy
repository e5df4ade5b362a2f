/** Many chains in one CreateTransfers call, and the optimistic single debit that
    stands in for a chain. */
module WaterfallBatch {
  import opened WaterfallSpec
  import opened TigerBeetle
  import opened WaterfallChain

  predicate Funded(l: Ledger, ch: Chain, target: nat)
    requires forall i | 0 <= i < 4 :: ch.Sources()[i] in l.accounts
  {
    Sum(Avails(l, ch.Sources())) >= target
  }

  /** The chain's own accounts after one attempt: drawn if the sources can pay,
      as before if they cannot. */
  ghost predicate Settled(l: Ledger, l': Ledger, ch: Chain, target: nat)
    requires ChainReady(l, ch)
  {
    && ch.Accounts() <= l'.accounts.Keys
    && (if Funded(l, ch, target) then
          var takes := Waterfall(Avails(l, ch.Sources()), target);
          && l'.accounts[ch.a] == Debited(l.accounts[ch.a], takes[0])
          && l'.accounts[ch.b] == Debited(l.accounts[ch.b], takes[1])
          && l'.accounts[ch.c] == Debited(l.accounts[ch.c], takes[2])
          && l'.accounts[ch.d] == Debited(l.accounts[ch.d], takes[3])
          && l'.accounts[ch.dest] == Credited(l.accounts[ch.dest], target)
          && l'.accounts[ch.setup] == Credited(Debited(l.accounts[ch.setup], 2 * target), 2 * target)
          && l'.accounts[ch.limit] == Credited(Debited(l.accounts[ch.limit], target), target)
        else
          SameOn(l, l', ch.Accounts()))
  }

  ghost predicate SameOn(l: Ledger, l': Ledger, ks: set<AccountId>)
    requires ks <= l.accounts.Keys
  {
    forall k | k in ks :: k in l'.accounts && l'.accounts[k] == l.accounts[k]
  }

  lemma SameOnChain(l: Ledger, l1: Ledger, ch: Chain)
    requires ChainReady(l, ch) && SameOn(l, l1, ch.Accounts())
    ensures ChainReady(l1, ch) && Avails(l1, ch.Sources()) == Avails(l, ch.Sources())
  {
    var s := ch.Sources();
    assert forall i | 0 <= i < 4 :: s[i] in ch.Accounts();
    AvailsFrame(l, l1, s);
  }

  // A batch of chains

  function Batch(ids: seq<seq<TransferId>>, chains: seq<Chain>, target: nat): seq<Transfer>
    requires |ids| == |chains| && forall i | 0 <= i < |ids| :: |ids[i]| == 7
  {
    if chains == [] then []
    else AppendChain([], ids[0], chains[0], target) + Batch(ids[1..], chains[1..], target)
  }

  lemma {:induction false} BatchSnoc(
    ids: seq<seq<TransferId>>, chains: seq<Chain>, id: seq<TransferId>, ch: Chain, target: nat)
    requires |ids| == |chains| && |id| == 7 && forall i | 0 <= i < |ids| :: |ids[i]| == 7
    ensures Batch(ids + [id], chains + [ch], target) == AppendChain(Batch(ids, chains, target), id, ch, target)
    decreases |chains|
  {
    if chains == [] {
      assert ids + [id] == [id] && chains + [ch] == [ch];
      assert Batch(ids + [id], chains + [ch], target) == AppendChain([], id, ch, target);
    } else {
      BatchSnoc(ids[1..], chains[1..], id, ch, target);
      assert (ids + [id])[1..] == ids[1..] + [id];
      assert (chains + [ch])[1..] == chains[1..] + [ch];
    }
  }

  ghost predicate AllFresh(l: Ledger, ids: seq<seq<TransferId>>) {
    && (forall i | 0 <= i < |ids| :: |ids[i]| == 7 && Fresh(l, ids[i]))
    && (forall i, j | 0 <= i < j < |ids| :: IdSet(ids[i]) !! IdSet(ids[j]))
  }

  ghost predicate AllReady(l: Ledger, chains: seq<Chain>) {
    && (forall i | 0 <= i < |chains| :: ChainReady(l, chains[i]))
    && (forall i, j | 0 <= i < j < |chains| :: chains[i].Accounts() !! chains[j].Accounts())
  }

  ghost function AllAccounts(chains: seq<Chain>): set<AccountId> {
    set i, k | 0 <= i < |chains| && k in chains[i].Accounts() :: k
  }

  /** What the whole batch has done to the ledger. */
  ghost predicate BatchSettled(l: Ledger, l': Ledger, chains: seq<Chain>, target: nat)
    requires AllReady(l, chains)
  {
    && l'.accounts.Keys == l.accounts.Keys
    && (forall i | 0 <= i < |chains| :: Settled(l, l', chains[i], target))
    && SameOn(l, l', l.accounts.Keys - AllAccounts(chains))
  }

  lemma ChainIsSeven(ids: seq<TransferId>, ch: Chain, target: nat, rest: seq<Transfer>)
    requires |ids| == 7
    ensures ChainLength(AppendChain([], ids, ch, target) + rest) == 7
  {
    var batch := AppendChain([], ids, ch, target) + rest;
    assert batch[6..] == [batch[6]] + rest && ChainLength(batch[6..]) == 1;
    assert batch[5..][1..] == batch[6..] && batch[5..][0] == batch[5] && ChainLength(batch[5..]) == 2;
    assert batch[4..][1..] == batch[5..] && batch[4..][0] == batch[4] && ChainLength(batch[4..]) == 3;
    assert batch[3..][1..] == batch[4..] && batch[3..][0] == batch[3] && ChainLength(batch[3..]) == 4;
    assert batch[2..][1..] == batch[3..] && batch[2..][0] == batch[2] && ChainLength(batch[2..]) == 5;
    assert batch[1..][1..] == batch[2..] && batch[1..][0] == batch[1] && ChainLength(batch[1..]) == 6;
  }

  /** The first chain of a batch runs as it would alone. */
  lemma RunFirst(l: Ledger, ids: seq<TransferId>, ch: Chain, target: nat, rest: seq<Transfer>, offset: nat, end: nat)
    returns (l1: Ledger)
    requires |ids| == 7 && ChainReady(l, ch) && Fresh(l, ids) && target < WATERFALL_AMOUNT_MAX && end == offset + 7
    ensures Settled(l, l1, ch, target) && ChainReady(l1, ch)
    ensures l1.accounts.Keys == l.accounts.Keys && SameOn(l, l1, l.accounts.Keys - ch.Accounts())
    ensures l1.used <= l.used + IdSet(ids)
    ensures
      var r := CreateTransfers(l, AppendChain([], ids, ch, target) + rest, offset);
      var rr := CreateTransfers(l1, rest, end);
      && r.ledger == rr.ledger
      && r.failures == if Funded(l, ch, target) then rr.failures
                       else ChainFailures(offset, 7, offset + 6, ExceedsCredits) + rr.failures
  {
    var chain := AppendChain([], ids, ch, target);
    var batch := chain + rest;
    ChainIsSeven(ids, ch, target, rest);
    assert batch[..7] == chain && batch[7..] == rest;
    ChainComputesWaterfall(l, ids, ch, target, offset);
    var r := RunChain(l, chain, offset);
    l1 := if r.Posted? then r.ledger else l;
  }

  /** The errors a caller sees: seven per underfunded chain, the seventh naming
      the overdraft, in the order of the batch. */
  ghost function ExpectedFailures(l: Ledger, chains: seq<Chain>, target: nat, offset: nat): seq<Failure>
    requires AllReady(l, chains)
  {
    if chains == [] then []
    else
      (if Funded(l, chains[0], target) then [] else ChainFailures(offset, 7, offset + 6, ExceedsCredits))
      + ExpectedFailures(l, chains[1..], target, offset + 7)
  }

  /** A member of a chain that cannot pay: the seventh as an overdraft, the others as
      failed with it. */
  ghost predicate MemberFails(l: Ledger, ch: Chain, target: nat, first: nat, f: Failure)
    requires ChainReady(l, ch)
  {
    && !Funded(l, ch, target) && first <= f.index < first + 7
    && f.code == if f.index == first + 6 then ExceedsCredits else LinkedEventFailed
  }

  ghost predicate SomeMemberFails(l: Ledger, chains: seq<Chain>, target: nat, offset: nat, f: Failure)
    requires AllReady(l, chains)
  {
    exists i :: 0 <= i < |chains| && MemberFails(l, chains[i], target, offset + 7 * i, f)
  }

  lemma FirstOrLater(l: Ledger, chains: seq<Chain>, target: nat, offset: nat, f: Failure)
    requires AllReady(l, chains) && chains != []
    ensures SomeMemberFails(l, chains, target, offset, f)
       <==> MemberFails(l, chains[0], target, offset, f) || SomeMemberFails(l, chains[1..], target, offset + 7, f)
  {
    hide ChainReady, MemberFails;
    if i :| 0 <= i < |chains| && MemberFails(l, chains[i], target, offset + 7 * i, f) {
      if i > 0 {
        assert MemberFails(l, chains[1..][i - 1], target, offset + 7 + 7 * (i - 1), f);
      }
    }
    if i :| 0 <= i < |chains[1..]| && MemberFails(l, chains[1..][i], target, offset + 7 + 7 * i, f) {
      assert MemberFails(l, chains[i + 1], target, offset + 7 * (i + 1), f);
    }
  }

  lemma ChainMemberFails(offset: nat, f: Failure)
    ensures f in ChainFailures(offset, 7, offset + 6, ExceedsCredits) <==>
      offset <= f.index < offset + 7 && f.code == if f.index == offset + 6 then ExceedsCredits else LinkedEventFailed
  {
    var failures := ChainFailures(offset, 7, offset + 6, ExceedsCredits);
    if offset <= f.index < offset + 7
       && f.code == if f.index == offset + 6 then ExceedsCredits else LinkedEventFailed {
      assert failures[f.index - offset] == f;
    }
  }

  predicate Rising(failures: seq<Failure>, from: nat) {
    && (forall j | 0 <= j < |failures| :: failures[j].index >= from)
    && (forall j, k | 0 <= j < k < |failures| :: failures[j].index < failures[k].index)
  }

  lemma RisesOn(head: seq<Failure>, rest: seq<Failure>, from: nat, mid: nat)
    requires Rising(rest, mid) && from <= mid
    requires forall j | 0 <= j < |head| :: head[j].index == from + j < mid
    ensures Rising(rest, from) && Rising(head + rest, from)
  {
  }

  /** Reported are exactly the members of the chains that cannot pay, each once, in the
      order of the batch. */
  lemma {:induction false} FailuresNamed(l: Ledger, chains: seq<Chain>, target: nat, offset: nat)
    requires AllReady(l, chains)
    ensures
      var failures := ExpectedFailures(l, chains, target, offset);
      && (forall f :: f in failures <==> SomeMemberFails(l, chains, target, offset, f))
      && Rising(failures, offset)
    decreases |chains|
  {
    hide ChainReady, Funded, SomeMemberFails;
    var failures := ExpectedFailures(l, chains, target, offset);
    if chains == [] {
      forall f ensures !SomeMemberFails(l, chains, target, offset, f) {
        NoChainFails(l, target, offset, f);
      }
    } else {
      var rest := ExpectedFailures(l, chains[1..], target, offset + 7);
      FailuresNamed(l, chains[1..], target, offset + 7);
      RisesOn(ChainFailures(offset, 7, offset + 6, ExceedsCredits), rest, offset, offset + 7);
      forall f ensures f in failures <==> SomeMemberFails(l, chains, target, offset, f) {
        FirstOrLater(l, chains, target, offset, f);
        ChainMemberFails(offset, f);
      }
    }
  }

  lemma NoChainFails(l: Ledger, target: nat, offset: nat, f: Failure)
    ensures !SomeMemberFails(l, [], target, offset, f)
  {
  }

  lemma {:induction false} ExpectedFrame(l: Ledger, l1: Ledger, chains: seq<Chain>, target: nat, offset: nat)
    requires AllReady(l, chains)
    requires forall i | 0 <= i < |chains| :: SameOn(l, l1, chains[i].Accounts())
    ensures AllReady(l1, chains)
    ensures ExpectedFailures(l1, chains, target, offset) == ExpectedFailures(l, chains, target, offset)
    decreases |chains|
  {
    forall i | 0 <= i < |chains|
      ensures ChainReady(l1, chains[i]) && Avails(l1, chains[i].Sources()) == Avails(l, chains[i].Sources())
    {
      SameOnChain(l, l1, chains[i]);
    }
    if chains != [] {
      ExpectedFrame(l, l1, chains[1..], target, offset + 7);
    }
  }

  lemma SettledThenSame(l: Ledger, l1: Ledger, l': Ledger, ch: Chain, target: nat)
    requires ChainReady(l, ch) && Settled(l, l1, ch, target) && SameOn(l1, l', ch.Accounts())
    ensures Settled(l, l', ch, target)
  {
    assert forall k | k in ch.Accounts() :: l'.accounts[k] == l1.accounts[k];
  }

  lemma SameThenSettled(l: Ledger, l1: Ledger, l': Ledger, ch: Chain, target: nat)
    requires ChainReady(l, ch) && SameOn(l, l1, ch.Accounts()) && ChainReady(l1, ch) && Settled(l1, l', ch, target)
    ensures Settled(l, l', ch, target)
  {
    SameOnChain(l, l1, ch);
    assert forall k | k in ch.Accounts() :: l1.accounts[k] == l.accounts[k];
  }

  lemma AccountsPresent(l: Ledger, chains: seq<Chain>)
    requires AllReady(l, chains)
    ensures forall i | 0 <= i < |chains| :: chains[i].Accounts() <= l.accounts.Keys
  {
    forall i | 0 <= i < |chains| ensures chains[i].Accounts() <= l.accounts.Keys {
      assert ChainReady(l, chains[i]);
    }
  }

  lemma SettledCons(l: Ledger, l1: Ledger, l': Ledger, chains: seq<Chain>, target: nat)
    requires chains != [] && AllReady(l, chains)
    requires Settled(l, l1, chains[0], target)
    requires l1.accounts.Keys == l.accounts.Keys && SameOn(l, l1, l.accounts.Keys - chains[0].Accounts())
    requires AllReady(l1, chains[1..]) && BatchSettled(l1, l', chains[1..], target)
    ensures BatchSettled(l, l', chains, target)
  {
    hide Settled, ChainReady, Chain.Accounts;
    AccountsPresent(l, chains);
    var tail := chains[1..];
    var rest := AllAccounts(tail);
    assert forall k | k in chains[0].Accounts() :: k !in rest;
    SettledThenSame(l, l1, l', chains[0], target);
    forall i | 0 < i < |chains| ensures Settled(l, l', chains[i], target) {
      assert tail[i - 1] == chains[i];
      SameThenSettled(l, l1, l', chains[i], target);
    }
    forall k | k in l.accounts.Keys - AllAccounts(chains) ensures l'.accounts[k] == l.accounts[k] {
      assert k !in chains[0].Accounts() && k !in rest;
    }
  }

  lemma NothingDiffers(l: Ledger, ks: set<AccountId>)
    requires ks <= l.accounts.Keys
    ensures SameOn(l, l, ks)
  {
  }

  lemma TailUntouched(l: Ledger, l1: Ledger, chains: seq<Chain>)
    requires chains != [] && AllReady(l, chains) && SameOn(l, l1, l.accounts.Keys - chains[0].Accounts())
    ensures AllReady(l, chains[1..])
    ensures forall i | 0 <= i < |chains[1..]| ::
      chains[1..][i].Accounts() <= l.accounts.Keys && SameOn(l, l1, chains[1..][i].Accounts())
  {
    hide ChainReady, Chain.Accounts;
    AccountsPresent(l, chains);
    forall i | 0 <= i < |chains[1..]| ensures SameOn(l, l1, chains[1..][i].Accounts()) {
      assert chains[1..][i] == chains[i + 1];
    }
  }

  /** A batch settles every chain as if it were alone: a failed chain changes
      no account of any other chain, and is reported in full. */
  lemma {:induction false} BatchSettlesChains(
    l: Ledger, ids: seq<seq<TransferId>>, chains: seq<Chain>, target: nat, offset: nat)
    requires |ids| == |chains| && AllFresh(l, ids) && AllReady(l, chains) && target < WATERFALL_AMOUNT_MAX
    ensures
      var r := CreateTransfers(l, Batch(ids, chains, target), offset);
      && BatchSettled(l, r.ledger, chains, target) && AllReady(r.ledger, chains)
      && r.failures == ExpectedFailures(l, chains, target, offset)
    decreases |chains|
  {
    hide ChainReady, Settled, Chain.Accounts, RunChain, SameOn, Fresh;
    AccountsPresent(l, chains);
    if chains == [] {
      assert SameOn(l, l, l.accounts.Keys - AllAccounts(chains)) by {
        NothingDiffers(l, l.accounts.Keys - AllAccounts(chains));
      }
    } else {
      var tail := chains[1..];
      var end := offset + 7;
      var l1 := RunFirst(l, ids[0], chains[0], target, Batch(ids[1..], tail, target), offset, end);
      TailUntouched(l, l1, chains);
      ExpectedFrame(l, l1, tail, target, end);
      FreshTail(l, l1, ids);
      BatchSettlesChains(l1, ids[1..], tail, target, end);
      var r := CreateTransfers(l, Batch(ids, chains, target), offset);
      SettledCons(l, l1, r.ledger, chains, target);
      BatchKeepsReady(l1, r.ledger, chains, target);
    }
  }

  lemma FreshTail(l: Ledger, l1: Ledger, ids: seq<seq<TransferId>>)
    requires ids != [] && AllFresh(l, ids) && l1.used <= l.used + IdSet(ids[0])
    ensures AllFresh(l1, ids[1..])
  {
    var tail := ids[1..];
    forall i | 0 <= i < |tail| ensures Fresh(l1, tail[i]) {
      assert tail[i] == ids[i + 1];
      assert forall j | 0 <= j < 7 :: tail[i][j] in IdSet(tail[i]);
    }
  }

  lemma BatchKeepsReady(l1: Ledger, l': Ledger, chains: seq<Chain>, target: nat)
    requires chains != [] && ChainReady(l1, chains[0])
    requires forall i, j | 0 <= i < j < |chains| :: chains[i].Accounts() !! chains[j].Accounts()
    requires AllReady(l1, chains[1..]) && BatchSettled(l1, l', chains[1..], target) && AllReady(l', chains[1..])
    ensures AllReady(l', chains)
  {
    hide Settled, ChainReady, Chain.Accounts;
    AccountsPresent(l1, [chains[0]]);
    assert [chains[0]][0] == chains[0];
    assert forall k | k in chains[0].Accounts() :: k !in AllAccounts(chains[1..]);
    SameOnChain(l1, l', chains[0]);
    assert forall i | 1 <= i < |chains| :: chains[i] == chains[1..][i - 1];
  }

  lemma {:induction false} NoFailuresMeansFunded(l: Ledger, chains: seq<Chain>, target: nat, offset: nat)
    requires AllReady(l, chains)
    ensures ExpectedFailures(l, chains, target, offset) == []
       <==> forall i | 0 <= i < |chains| :: Funded(l, chains[i], target)
    decreases |chains|
  {
    if chains != [] {
      NoFailuresMeansFunded(l, chains[1..], target, offset + 7);
      assert forall i | 1 <= i < |chains| :: chains[i] == chains[1..][i - 1];
    }
  }

  // The optimistic path

  /** A lone debit of the first source, with no flags. */
  function Direct(id: TransferId, ch: Chain, target: nat): Transfer {
    Transfer(id, ch.a, ch.dest, target, false, false, false)
  }

  lemma DirectDebit(l: Ledger, id: TransferId, ch: Chain, target: nat)
    requires ChainReady(l, ch) && id !in l.used
    ensures CreateTransfers(l, [Direct(id, ch, target)], 0)
         == if l.accounts[ch.a].Headroom() >= target
            then BatchResult(Move(l, ch.a, ch.dest, target, id), [])
            else BatchResult(l, [Failure(0, ExceedsCredits)])
  {
    var t := Direct(id, ch, target);
    assert [t][..1] == [t] && [t][1..] == [];
    assert ch.Sources()[0] == ch.a;
    assert RunChain(l, [t], 0) == Execute(l, t, 0);
    if l.accounts[ch.a].Headroom() < target {
      assert ChainFailures(0, 1, 0, ExceedsCredits) == [Failure(0, ExceedsCredits)];
    }
  }

  ghost predicate SameNet(l: Ledger, l': Ledger) {
    && l.accounts.Keys == l'.accounts.Keys
    && forall k | k in l.accounts :: l.accounts[k].Net() == l'.accounts[k].Net()
  }

  function Optimistic(l: Ledger, id: TransferId, ids: seq<TransferId>, ch: Chain, target: nat): BatchResult
    requires |ids| == 7
  {
    var fast := CreateTransfers(l, [Direct(id, ch, target)], 0);
    if fast.failures == [] then fast
    else CreateTransfers(fast.ledger, AppendChain([], ids, ch, target), 0)
  }

  lemma SingleChain(l: Ledger, ids: seq<TransferId>, ch: Chain, target: nat)
    requires |ids| == 7 && ChainReady(l, ch) && Fresh(l, ids) && target < WATERFALL_AMOUNT_MAX
    ensures
      var full := CreateTransfers(l, AppendChain([], ids, ch, target), 0);
      && Settled(l, full.ledger, ch, target) && ChainReady(full.ledger, ch)
      && full.ledger.accounts.Keys == l.accounts.Keys
      && SameOn(l, full.ledger, l.accounts.Keys - ch.Accounts())
      && full.ledger.used <= l.used + IdSet(ids)
      && (full.failures == [] <==> Funded(l, ch, target))
  {
    var chain := AppendChain([], ids, ch, target);
    assert chain + [] == chain;
    var l1 := RunFirst(l, ids, ch, target, [], 0, 7);
  }

  /** If the first source can pay alone, the waterfall leaves the others alone. */
  lemma FirstPaysAll(l: Ledger, ch: Chain, target: nat)
    requires ChainReady(l, ch) && l.accounts[ch.a].Headroom() >= target
    ensures Waterfall(Avails(l, ch.Sources()), target) == [target, 0, 0, 0]
    ensures Funded(l, ch, target)
  {
    var avails := Avails(l, ch.Sources());
    assert Waterfall(avails, target) == [target] + Waterfall(avails[1..], 0);
    WaterfallIsDraw(avails[1..], 0);
    ZeroSum(Waterfall(avails[1..], 0));
    assert Sum(avails) >= target;
  }

  lemma DirectHasNetOfChain(l: Ledger, l': Ledger, ch: Chain, target: nat, id: TransferId)
    requires ChainReady(l, ch) && l.accounts[ch.a].Headroom() >= target
    requires l'.accounts.Keys == l.accounts.Keys && Settled(l, l', ch, target)
    requires SameOn(l, l', l.accounts.Keys - ch.Accounts())
    ensures SameNet(Move(l, ch.a, ch.dest, target, id), l')
  {
    FirstPaysAll(l, ch, target);
    var quick := Move(l, ch.a, ch.dest, target, id);
    forall k | k in l.accounts ensures quick.accounts[k].Net() == l'.accounts[k].Net() {
      if k !in ch.Accounts() {
        assert l'.accounts[k] == l.accounts[k];
      }
    }
  }

  /** Trying the first source alone and falling back to the chain has the net
      effect of the chain, and succeeds exactly when the chain does. */
  lemma OptimisticRefinesChain(l: Ledger, id: TransferId, ids: seq<TransferId>, ch: Chain, target: nat)
    requires ChainReady(l, ch) && |ids| == 7 && Fresh(l, [id] + ids) && target < WATERFALL_AMOUNT_MAX
    ensures
      var quick := Optimistic(l, id, ids, ch, target);
      var full := CreateTransfers(l, AppendChain([], ids, ch, target), 0);
      && SameNet(quick.ledger, full.ledger)
      && (quick.failures == [] <==> full.failures == [])
      && ChainReady(quick.ledger, ch)
  {
    assert forall i | 0 <= i < 7 :: ids[i] == ([id] + ids)[i + 1];
    assert id == ([id] + ids)[0];
    DirectDebit(l, id, ch, target);
    SingleChain(l, ids, ch, target);
    if l.accounts[ch.a].Headroom() >= target {
      var full := CreateTransfers(l, AppendChain([], ids, ch, target), 0);
      FirstPaysAll(l, ch, target);
      DirectHasNetOfChain(l, full.ledger, ch, target, id);
      DirectKeepsReady(l, Move(l, ch.a, ch.dest, target, id), ch, target, id);
    }
  }

  lemma DirectKeepsReady(l: Ledger, l': Ledger, ch: Chain, target: nat, id: TransferId)
    requires ChainReady(l, ch) && l.accounts[ch.a].Headroom() >= target
    requires l' == Move(l, ch.a, ch.dest, target, id)
    ensures ChainReady(l', ch)
  {
    var s := ch.Sources();
    assert s[0] == ch.a && s[1] == ch.b && s[2] == ch.c && s[3] == ch.d;
    assert forall i | 1 <= i < 4 :: l'.accounts[s[i]] == l.accounts[s[i]];
  }
}
