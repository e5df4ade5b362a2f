/** Where the benchmark's accounts live. The set-up numbers seven accounts per
    chain, chain after chain and worker after worker; the metadata store repeats
    the same numbering independently. */
module Layout {
  import opened TigerBeetle
  import opened WaterfallChain
  import opened BankFunding

  const WATERFALL_BASE: AccountId := 10_000_000

  /** Number of chain c of worker i when every worker has n chains. */
  function ChainIndex(i: nat, c: nat, n: nat): nat {
    i * n + c
  }

  /** The set-up's own formula: a stride of 7n accounts per worker. */
  function ChainBase(i: nat, c: nat, n: nat): AccountId {
    WATERFALL_BASE + i * (n * 7) + c * 7
  }

  /** The metadata store's formula for the same number. */
  function MetadataBase(i: nat, c: nat, n: nat): AccountId {
    WATERFALL_BASE + (i * n + c) * 7
  }

  function ChainAt(base: AccountId): Chain {
    Chain(base, base + 1, base + 2, base + 3, base + 4, base + 5, base + 6)
  }

  function WorkerChains(i: nat, n: nat): (chains: seq<Chain>)
    ensures |chains| == n
  {
    seq(n, c requires 0 <= c < n => ChainAt(ChainBase(i, c, n)))
  }

  /** The seven account numbers of a chain: four sources, destination, SETUP, LIMIT. */
  lemma ChainNumbers(i: nat, c: nat, n: nat)
    requires c < n
    ensures
      var ch, b := WorkerChains(i, n)[c], 10_000_000 + 7 * (i * n + c);
      && ch.a == b && ch.b == b + 1 && ch.c == b + 2 && ch.d == b + 3
      && ch.dest == b + 4 && ch.setup == b + 5 && ch.limit == b + 6
  {
    BasesAgree(i, c, n);
  }

  lemma BasesAgree(i: nat, c: nat, n: nat)
    ensures ChainBase(i, c, n) == MetadataBase(i, c, n) == WATERFALL_BASE + 7 * ChainIndex(i, c, n)
  {
    assert i * (n * 7) == i * n * 7;
  }

  lemma IndexBound(i: nat, c: nat, w: nat, n: nat)
    requires i < w && c < n
    ensures ChainIndex(i, c, n) < w * n
  {
    assert w * n >= (i + 1) * n == i * n + n;
  }

  lemma IndexInjective(i: nat, c: nat, i': nat, c': nat, n: nat)
    requires c < n && c' < n && ChainIndex(i, c, n) == ChainIndex(i', c', n)
    ensures i == i' && c == c'
  {
    if i < i' {
      IndexBound(i, c, i', n);
    } else if i > i' {
      IndexBound(i', c', i, n);
    }
  }

  lemma IndexOnto(x: nat, w: nat, n: nat) returns (i: nat, c: nat)
    requires x < w * n
    ensures i < w && c < n && x == ChainIndex(i, c, n)
  {
    if x < n {
      i, c := 0, x;
    } else {
      assert (w - 1) * n == w * n - n;
      i, c := IndexOnto(x - n, w - 1, n);
      i := i + 1;
    }
  }

  /** No two (worker, chain, slot) triples share an account. */
  lemma LayoutInjective(i: nat, c: nat, j: nat, i': nat, c': nat, j': nat, n: nat)
    requires c < n && c' < n && j < 7 && j' < 7
    ensures ChainBase(i, c, n) + j == ChainBase(i', c', n) + j' <==> i == i' && c == c' && j == j'
  {
    BasesAgree(i, c, n);
    BasesAgree(i', c', n);
    if ChainBase(i, c, n) + j == ChainBase(i', c', n) + j' {
      assert ChainIndex(i, c, n) == ChainIndex(i', c', n);
      IndexInjective(i, c, i', c', n);
    }
  }

  lemma ChainsDisjoint(x: nat, y: nat)
    ensures ChainAt(WATERFALL_BASE + 7 * x).Distinct()
    ensures x != y ==>
      ChainAt(WATERFALL_BASE + 7 * x).Accounts() !! ChainAt(WATERFALL_BASE + 7 * y).Accounts()
  {
  }

  /** The funding bank stays outside the layout exactly while the layout has at most
      forty million slots, whatever the worker and chain counts. */
  lemma BankOutsideLayout(w: nat, n: nat)
    ensures (forall i: nat, c: nat | i < w && c < n :: GLOBAL_BANK !in ChainAt(ChainBase(i, c, n)).Accounts())
       <==> 7 * (w * n) <= GLOBAL_BANK - WATERFALL_BASE
  {
    if 7 * (w * n) <= GLOBAL_BANK - WATERFALL_BASE {
      forall i: nat, c: nat | i < w && c < n
        ensures GLOBAL_BANK !in ChainAt(ChainBase(i, c, n)).Accounts()
      {
        BasesAgree(i, c, n);
        IndexBound(i, c, w, n);
      }
    } else {
      var slot := (GLOBAL_BANK - WATERFALL_BASE) / 7;
      var i, c := IndexOnto(slot, w, n);
      BasesAgree(i, c, n);
      assert GLOBAL_BANK in ChainAt(ChainBase(i, c, n)).Accounts();
    }
  }
}
