/** The metadata store beside TigerBeetle: which account serves which user at which
    priority. It is filled once and read before every draw. */
module MetadataIndex {
  import opened Common
  import opened TigerBeetle
  import opened WaterfallWorker
  import opened Layout

  const USER_BASE: int := 1_000_000
  const CHUNK_SIZE: nat := 5000

  datatype Key = Key(user: int, priority: int)
  datatype Row = Row(key: Key, account: AccountId)

  /** Row x of the insert list, four rows per user. */
  function RowAt(x: nat): Row {
    Row(Key(USER_BASE + x / 4, x % 4), WATERFALL_BASE + x / 4 * 7 + x % 4)
  }

  function RowsUpTo(x: nat): (rows: seq<Row>)
    ensures |rows| == x
  {
    seq(x, i requires 0 <= i => RowAt(i))
  }

  lemma RowKeysInjective(x: nat, y: nat)
    ensures RowAt(x).key == RowAt(y).key ==> x == y
  {
  }

  /** The table that a list of rows builds, later rows last. */
  function TableOf(rows: seq<Row>): map<Key, AccountId> {
    if rows == [] then map[]
    else
      var last := rows[|rows| - 1];
      TableOf(rows[..|rows| - 1])[last.key := last.account]
  }

  lemma {:induction false} TableOfSplit(a: seq<Row>, b: seq<Row>)
    ensures TableOf(a + b) == TableOf(a) + TableOf(b)
    decreases |b|
  {
    if b == [] {
      assert a + b == a;
    } else {
      var n := |b| - 1;
      TableOfSplit(a, b[..n]);
      assert (a + b)[..|a + b| - 1] == a + b[..n];
    }
  }

  lemma RowKey(k: Key, x: nat)
    ensures k == RowAt(x).key <==> 0 <= k.priority < 4 && 4 * (k.user - USER_BASE) + k.priority == x
  {
  }

  lemma TableGrows(x: nat)
    ensures TableOf(RowsUpTo(x + 1)) == TableOf(RowsUpTo(x))[RowAt(x).key := RowAt(x).account]
  {
    assert RowsUpTo(x + 1)[..x] == RowsUpTo(x);
  }

  /** Every row is stored, once, under its own key. */
  lemma {:induction false} TableOfRows(x: nat)
    ensures |TableOf(RowsUpTo(x))| == x
    ensures forall k :: k in TableOf(RowsUpTo(x)) <==>
      0 <= k.priority < 4 && USER_BASE <= k.user && 4 * (k.user - USER_BASE) + k.priority < x
    ensures forall i | 0 <= i < x ::
      RowAt(i).key in TableOf(RowsUpTo(x))
      && TableOf(RowsUpTo(x))[RowAt(i).key] == RowAt(i).account
  {
    if x > 0 {
      TableOfRows(x - 1);
      TableGrows(x - 1);
      hide RowAt, TableOf, RowsUpTo;
      forall k
        ensures k == RowAt(x - 1).key <==> 0 <= k.priority < 4 && 4 * (k.user - USER_BASE) + k.priority == x - 1
      {
        RowKey(k, x - 1);
      }
    }
  }

  lemma NextChunk(total: nat, start: nat, end: nat)
    requires start <= end <= total
    ensures
      var chunk := RowsUpTo(total)[start..end];
      && (forall i | 0 <= i < |chunk| :: chunk[i].key !in TableOf(RowsUpTo(start)))
      && (forall i, j | 0 <= i < j < |chunk| :: chunk[i].key != chunk[j].key)
      && TableOf(RowsUpTo(start)) + TableOf(chunk) == TableOf(RowsUpTo(end))
  {
    hide TableOf, RowAt;
    var chunk := RowsUpTo(total)[start..end];
    forall i | 0 <= i < |chunk| ensures chunk[i] == RowAt(start + i) && chunk[i].key !in TableOf(RowsUpTo(start)) {
      KeyNotYetStored(start, start + i);
    }
    forall i, j | 0 <= i < j < |chunk| ensures chunk[i].key != chunk[j].key {
      RowKeysInjective(start + i, start + j);
    }
    TableOfSplit(RowsUpTo(start), chunk);
    assert RowsUpTo(end) == RowsUpTo(start) + chunk;
  }

  lemma KeyNotYetStored(x: nat, y: nat)
    requires x <= y
    ensures RowAt(y).key !in TableOf(RowsUpTo(x))
  {
    TableOfRows(x);
  }

  class MetadataStore {
    var table: map<Key, AccountId>

    constructor ()
      ensures table == map[]
    {
      table := map[];
    }

    /** The bulk load aborts on a repeated primary key, so none may repeat. */
    method BulkInsert(rows: seq<Row>)
      requires forall i | 0 <= i < |rows| :: rows[i].key !in table
      requires forall i, j | 0 <= i < j < |rows| :: rows[i].key != rows[j].key
      modifies this
      ensures table == old(table) + TableOf(rows)
    {
      for n := 0 to |rows|
        invariant table == old(table) + TableOf(rows[..n])
      {
        table := table[rows[n].key := rows[n].account];
        assert rows[..n + 1][..n] == rows[..n];
      }
      assert rows[..|rows|] == rows;
    }

    method BuildRows(workers: nat, n: nat) returns (rows: seq<Row>)
      ensures rows == RowsUpTo(4 * (workers * n))
    {
      rows := [];
      for i := 0 to workers
        invariant rows == RowsUpTo(4 * (i * n))
      {
        for c := 0 to n
          invariant rows == RowsUpTo(4 * (i * n + c))
        {
          var userID := USER_BASE + i * n + c;
          var tbBase := MetadataBase(i, c, n);
          for pri := 0 to 4
            invariant rows == RowsUpTo(4 * (i * n + c) + pri)
          {
            assert (4 * (i * n + c) + pri) / 4 == i * n + c && (4 * (i * n + c) + pri) % 4 == pri;
            rows := rows + [Row(Key(userID, pri), tbBase + pri)];
          }
        }
        assert (i + 1) * n == i * n + n;
      }
    }

    /** Fills the table in chunks. */
    method SetupWaterfall(workers: nat, n: nat) returns (userIDs: seq<seq<int>>)
      requires table == map[]
      modifies this
      ensures table == TableOf(RowsUpTo(4 * (workers * n)))
      ensures |userIDs| == workers && forall i | 0 <= i < workers :: userIDs[i] == UserIDs(i, n)
    {
      var rows := BuildRows(workers, n);
      var start := 0;
      while start < |rows|
        invariant 0 <= start && table == TableOf(RowsUpTo(Min(start, |rows|)))
        decreases |rows| - start
      {
        var end := if start + CHUNK_SIZE > |rows| then |rows| else start + CHUNK_SIZE;
        NextChunk(|rows|, start, end);
        BulkInsert(rows[start..end]);
        start := start + CHUNK_SIZE;
      }
      userIDs := [];
      for i := 0 to workers
        invariant |userIDs| == i && forall x | 0 <= x < i :: userIDs[x] == UserIDs(x, n)
      {
        userIDs := userIDs + [UserIDs(i, n)];
      }
    }
  }

  function UserIDs(i: nat, n: nat): (ids: seq<int>)
    ensures |ids| == n
  {
    seq(n, c requires 0 <= c => USER_BASE + ChainIndex(i, c, n))
  }

  // Reading the index

  predicate Before(a: Key, b: Key) {
    a.user < b.user || (a.user == b.user && a.priority < b.priority)
  }

  /** What the store may answer to a query for some users, ordered by user and
      priority: every matching row, and only those. */
  ghost predicate IsAnswer(table: map<Key, AccountId>, users: seq<int>, answer: seq<Row>) {
    && (forall i | 0 <= i < |answer| ::
          answer[i].key in table && table[answer[i].key] == answer[i].account && answer[i].key.user in users)
    && (forall k | k in table && k.user in users :: exists i :: 0 <= i < |answer| && answer[i].key == k)
    && (forall i, j | 0 <= i < j < |answer| :: Before(answer[i].key, answer[j].key))
  }

  ghost predicate Holds(s: seq<int>, v: int) {
    exists i :: 0 <= i < |s| && s[i] == v
  }

  lemma {:induction false} IncreasingRange(s: seq<int>, lo: int, hi: int)
    requires lo <= hi
    requires forall i, j | 0 <= i < j < |s| :: s[i] < s[j]
    requires forall i | 0 <= i < |s| :: lo <= s[i] < hi
    requires forall v | lo <= v < hi :: Holds(s, v)
    ensures |s| == hi - lo && forall i | 0 <= i < |s| :: s[i] == lo + i
    decreases |s|
  {
    if s != [] {
      assert lo <= s[0] < hi;
      assert Holds(s, lo);
      var tail := s[1..];
      forall v | lo + 1 <= v < hi ensures Holds(tail, v) {
        assert Holds(s, v);
        var i :| 0 <= i < |s| && s[i] == v;
        assert tail[i - 1] == v;
      }
      IncreasingRange(tail, lo + 1, hi);
      assert forall i | 1 <= i < |s| :: s[i] == tail[i - 1];
    } else {
      assert lo < hi ==> Holds(s, lo);
    }
  }

  function Code(k: Key): int {
    4 * (k.user - USER_BASE) + k.priority
  }

  function Codes(answer: seq<Row>): (codes: seq<int>)
    ensures |codes| == |answer|
  {
    seq(|answer|, i requires 0 <= i < |answer| => Code(answer[i].key))
  }

  lemma RowOfCode(total: nat, users: seq<int>, answer: seq<Row>, i: nat)
    requires IsAnswer(TableOf(RowsUpTo(total)), users, answer) && i < |answer|
    ensures 0 <= Code(answer[i].key) < total && answer[i] == RowAt(Code(answer[i].key))
    ensures 0 <= answer[i].key.priority < 4 && answer[i].key.user in users
  {
    TableOfRows(total);
    assert RowAt(Code(answer[i].key)).key == answer[i].key;
  }

  /** The order clause leaves the store no choice: the answer is the slice of the
      insert list that belongs to those users. */
  lemma AnswerIsSlice(total: nat, first: nat, count: nat, users: seq<int>, answer: seq<Row>)
    requires 4 * (first + count) <= total
    requires forall u :: u in users <==> USER_BASE + first <= u < USER_BASE + first + count
    requires IsAnswer(TableOf(RowsUpTo(total)), users, answer)
    ensures |answer| == 4 * count && forall r: nat | r < 4 * count :: answer[r] == RowAt(4 * first + r)
  {
    CodesCover(total, first, count, users, answer);
    IncreasingRange(Codes(answer), 4 * first, 4 * (first + count));
    forall r: nat | r < 4 * count ensures answer[r] == RowAt(4 * first + r) {
      RowOfCode(total, users, answer, r);
      assert Codes(answer)[r] == 4 * first + r;
    }
  }

  lemma CodesCover(total: nat, first: nat, count: nat, users: seq<int>, answer: seq<Row>)
    requires 4 * (first + count) <= total
    requires forall u :: u in users <==> USER_BASE + first <= u < USER_BASE + first + count
    requires IsAnswer(TableOf(RowsUpTo(total)), users, answer)
    ensures
      var codes := Codes(answer);
      && (forall i, j | 0 <= i < j < |codes| :: codes[i] < codes[j])
      && (forall i | 0 <= i < |codes| :: 4 * first <= codes[i] < 4 * (first + count))
      && (forall v | 4 * first <= v < 4 * (first + count) :: Holds(codes, v))
  {
    var codes := Codes(answer);
    forall i | 0 <= i < |codes|
      ensures 4 * first <= codes[i] < 4 * (first + count) && 0 <= answer[i].key.priority < 4
    {
      RowOfCode(total, users, answer, i);
    }
    forall v | 4 * first <= v < 4 * (first + count) ensures Holds(codes, v) {
      CodeIsHeld(total, first, count, users, answer, v);
    }
  }

  lemma CodeIsHeld(total: nat, first: nat, count: nat, users: seq<int>, answer: seq<Row>, v: int)
    requires 4 * first <= v < 4 * (first + count) <= total
    requires forall u :: u in users <==> USER_BASE + first <= u < USER_BASE + first + count
    requires IsAnswer(TableOf(RowsUpTo(total)), users, answer)
    ensures Holds(Codes(answer), v)
  {
    TableOfRows(total);
    var k := RowAt(v).key;
    assert k in TableOf(RowsUpTo(total)) && k.user in users;
    var i :| 0 <= i < |answer| && answer[i].key == k;
    assert Codes(answer)[i] == v;
  }

  /** The groups after the first r rows of the answer have been dealt out. */
  function Dealt(i: nat, n: nat, r: nat): (groups: seq<seq<AccountId>>)
    ensures |groups| == n
  {
    seq(n, c requires 0 <= c < n =>
      WorkerChains(i, n)[c].Sources()[..if r <= 4 * c then 0 else if r >= 4 * c + 4 then 4 else r - 4 * c])
  }

  lemma UsersOfWorker(i: nat, n: nat)
    ensures forall u :: u in UserIDs(i, n) <==> USER_BASE + i * n <= u < USER_BASE + i * n + n
    ensures forall x, y | 0 <= x < y < n :: UserIDs(i, n)[x] != UserIDs(i, n)[y]
  {
    forall u | USER_BASE + i * n <= u < USER_BASE + i * n + n ensures u in UserIDs(i, n) {
      assert UserIDs(i, n)[u - USER_BASE - i * n] == u;
    }
  }

  lemma DealOne(i: nat, n: nat, r: nat)
    requires r < 4 * n
    ensures Dealt(i, n, r + 1)
         == Dealt(i, n, r)[r / 4 := Dealt(i, n, r)[r / 4] + [RowAt(4 * (i * n) + r).account]]
    ensures RowAt(4 * (i * n) + r).key.user == UserIDs(i, n)[r / 4]
  {
    var c := r / 4;
    BasesAgree(i, c, n);
    assert (4 * (i * n) + r) / 4 == i * n + c && (4 * (i * n) + r) % 4 == r % 4;
    var sources := WorkerChains(i, n)[c].Sources();
    assert sources[..r % 4] + [sources[r % 4]] == sources[..r % 4 + 1];
    assert sources[r % 4] == RowAt(4 * (i * n) + r).account;
  }

  method IndexUsers(userIDs: seq<int>) returns (idx: map<int, nat>)
    requires forall x, y | 0 <= x < y < |userIDs| :: userIDs[x] != userIDs[y]
    ensures forall x: nat | x < |userIDs| :: userIDs[x] in idx && idx[userIDs[x]] == x
  {
    idx := map[];
    for c := 0 to |userIDs|
      invariant forall x: nat | x < c :: userIDs[x] in idx && idx[userIDs[x]] == x
    {
      idx := idx[userIDs[c] := c];
    }
  }

  /** Groups the answer by chain. The groups are the very sources that the set-up
      gave the worker, in priority order. */
  method LookupAccounts(store: MetadataStore, workers: nat, i: nat, n: nat, answer: seq<Row>)
    returns (chainIDs: seq<seq<AccountId>>)
    requires i < workers && store.table == TableOf(RowsUpTo(4 * (workers * n)))
    requires IsAnswer(store.table, UserIDs(i, n), answer)
    ensures chainIDs == OwnSources(WorkerChains(i, n))
  {
    hide TableOf, RowsUpTo, IsAnswer, RowAt, UserIDs, Dealt, OwnSources, WorkerChains;
    UsersOfWorker(i, n);
    var idx := IndexUsers(UserIDs(i, n));
    OwnAnswer(workers, i, n, answer);
    chainIDs := DealOut(i, n, answer, idx);
  }

  lemma OwnAnswer(workers: nat, i: nat, n: nat, answer: seq<Row>)
    requires i < workers && IsAnswer(TableOf(RowsUpTo(4 * (workers * n))), UserIDs(i, n), answer)
    ensures |answer| == 4 * n && forall r: nat | r < 4 * n :: answer[r] == RowAt(4 * (i * n) + r)
  {
    hide TableOf, RowsUpTo, IsAnswer, RowAt, UserIDs;
    UsersOfWorker(i, n);
    WorkerSlice(workers, i, n);
    AnswerIsSlice(4 * (workers * n), i * n, n, UserIDs(i, n), answer);
  }

  method DealOut(ghost i: nat, n: nat, answer: seq<Row>, idx: map<int, nat>) returns (chainIDs: seq<seq<AccountId>>)
    requires |answer| == 4 * n && forall r: nat | r < 4 * n :: answer[r] == RowAt(4 * (i * n) + r)
    requires forall x: nat | x < n :: UserIDs(i, n)[x] in idx && idx[UserIDs(i, n)[x]] == x
    ensures chainIDs == OwnSources(WorkerChains(i, n))
  {
    chainIDs := seq(n, c => []);
    assert chainIDs == Dealt(i, n, 0);
    for r := 0 to |answer|
      invariant chainIDs == Dealt(i, n, r)
    {
      DealOne(i, n, r);
      assert UserIDs(i, n)[r / 4] in idx;
      var c := idx[answer[r].key.user];
      chainIDs := chainIDs[c := chainIDs[c] + [answer[r].account]];
    }
    AllDealt(i, n);
  }

  lemma FirstAnswer(workers: nat, i: nat, n: nat, answer: seq<Row>)
    requires i < workers && n > 0
    requires IsAnswer(TableOf(RowsUpTo(4 * (workers * n))), [UserIDs(i, n)[0]], answer)
    ensures |answer| == 4 && forall r: nat | r < 4 :: answer[r].account == WorkerChains(i, n)[0].Sources()[r]
  {
    WorkerSlice(workers, i, n);
    var users := [UserIDs(i, n)[0]];
    assert forall u :: u in users <==> u == users[0];
    AnswerIsSlice(4 * (workers * n), i * n, 1, users, answer);
    BasesAgree(i, 0, n);
    forall r: nat | r < 4 ensures answer[r].account == WorkerChains(i, n)[0].Sources()[r] {
      assert (4 * (i * n) + r) / 4 == i * n && (4 * (i * n) + r) % 4 == r;
    }
  }

  /** The first user's accounts alone, for the optimistic path. */
  method LookupFirstChain(store: MetadataStore, workers: nat, i: nat, n: nat, answer: seq<Row>)
    returns (ids: seq<AccountId>)
    requires i < workers && n > 0 && store.table == TableOf(RowsUpTo(4 * (workers * n)))
    requires IsAnswer(store.table, [UserIDs(i, n)[0]], answer)
    ensures ids == WorkerChains(i, n)[0].Sources()
  {
    FirstAnswer(workers, i, n, answer);
    ids := [];
    for r := 0 to |answer|
      invariant ids == WorkerChains(i, n)[0].Sources()[..r]
    {
      ids := ids + [answer[r].account];
    }
  }

  lemma WorkerSlice(workers: nat, i: nat, n: nat)
    requires i < workers
    ensures 4 * (i * n + n) <= 4 * (workers * n)
  {
    assert (i + 1) * n <= workers * n;
  }

  lemma AllDealt(i: nat, n: nat)
    ensures Dealt(i, n, 4 * n) == OwnSources(WorkerChains(i, n))
  {
    forall c | 0 <= c < n ensures Dealt(i, n, 4 * n)[c] == OwnSources(WorkerChains(i, n))[c] {
      var sources := WorkerChains(i, n)[c].Sources();
      assert sources[..4] == sources;
    }
  }
}
