/** The PostgreSQL benchmark's draw: the first account in order that can pay the
    whole amount pays it. Nothing is split, and a flag lets the query skip accounts
    that hit zero. Money is counted in units of 10^-12. */
module FirstFitBench {
  import opened Common
  import opened DrawCycle

  type AccId = int

  const DEBIT: int := 100_000_000_000
  const SMALL_BALANCE: int := 50 * DEBIT
  const CASH_BALANCE: int := 1_000_000 * DEBIT

  datatype Entry = Entry(account: AccId, amount: int, balanceAfter: int)

  datatype Rows = Rows(balance: map<AccId, int>, depleted: set<AccId>, entries: seq<Entry>)

  datatype DrawResult = DrawResult(ok: bool, rows: Rows)

  /** Plain first fit, with no flag and no fast path. */
  function FirstFit(rows: Rows, accounts: seq<AccId>, amount: int): DrawResult {
    if accounts == [] then DrawResult(false, rows)
    else if accounts[0] in rows.balance && rows.balance[accounts[0]] >= amount then
      var id := accounts[0];
      var left := rows.balance[id] - amount;
      DrawResult(true, Rows(
        rows.balance[id := left],
        if left == 0 then rows.depleted + {id} else rows.depleted - {id},
        rows.entries + [Entry(id, amount, left)]))
    else FirstFit(rows, accounts[1..], amount)
  }

  predicate Able(rows: Rows, id: AccId, amount: int) {
    id in rows.balance && rows.balance[id] >= amount
  }

  /** Account i pays: it is the first that can, and only its row and one entry change. */
  ghost predicate PaidBy(rows: Rows, accounts: seq<AccId>, amount: int, i: nat, after: Rows) {
    && i < |accounts| && Able(rows, accounts[i], amount) && (forall j | 0 <= j < i :: !Able(rows, accounts[j], amount))
    && (var left := rows.balance[accounts[i]] - amount;
        && after.balance == rows.balance[accounts[i] := left]
        && after.depleted == (if left == 0 then rows.depleted + {accounts[i]} else rows.depleted - {accounts[i]})
        && after.entries == rows.entries + [Entry(accounts[i], amount, left)])
  }

  lemma PaidByLater(rows: Rows, accounts: seq<AccId>, amount: int, i: nat, after: Rows)
    requires accounts != [] && !Able(rows, accounts[0], amount) && PaidBy(rows, accounts[1..], amount, i, after)
    ensures PaidBy(rows, accounts, amount, i + 1, after)
  {
    forall j | 0 <= j < i + 1 ensures !Able(rows, accounts[j], amount) {
      assert j > 0 ==> accounts[j] == accounts[1..][j - 1];
    }
  }

  /** First fit as its caller sees it: who pays, and when nobody does. */
  lemma {:induction false} FirstFitPays(rows: Rows, accounts: seq<AccId>, amount: int)
    ensures
      var r := FirstFit(rows, accounts, amount);
      && (r.ok <==> exists i :: 0 <= i < |accounts| && Able(rows, accounts[i], amount))
      && (r.ok ==> exists i: nat :: PaidBy(rows, accounts, amount, i, r.rows))
      && (!r.ok ==> r.rows == rows)
  {
    var r := FirstFit(rows, accounts, amount);
    if accounts != [] && !Able(rows, accounts[0], amount) {
      FirstFitPays(rows, accounts[1..], amount);
      assert forall i | 1 <= i < |accounts| :: accounts[i] == accounts[1..][i - 1];
      if r.ok {
        var i: nat :| PaidBy(rows, accounts[1..], amount, i, r.rows);
        PaidByLater(rows, accounts, amount, i, r.rows);
      }
    } else if accounts != [] {
      assert PaidBy(rows, accounts, amount, 0, r.rows);
    }
  }

  class BenchDb {
    var balance: map<AccId, int>
    var depleted: set<AccId>
    var entries: seq<Entry>

    function View(): Rows
      reads this
    {
      Rows(balance, depleted, entries)
    }

    /** A flagged account holds nothing. */
    ghost predicate Valid()
      reads this
    {
      forall id | id in depleted :: id in balance && balance[id] == 0
    }

    /** The guarded update: funds suffice and the flag is clear. */
    method Debit(id: AccId, amount: int) returns (left: Option<int>)
      requires Valid() && amount > 0
      modifies this
      ensures Valid() && entries == old(entries)
      ensures id in old(balance) && old(balance)[id] >= amount ==>
        && left == Some(old(balance)[id] - amount) && balance == old(balance)[id := left.value]
        && depleted == if left.value == 0 then old(depleted) + {id} else old(depleted) - {id}
      ensures !(id in old(balance) && old(balance)[id] >= amount) ==> left == None && View() == old(View())
    {
      if id in balance && balance[id] >= amount && id !in depleted {
        var b := balance[id] - amount;
        balance := balance[id := b];
        depleted := if b == 0 then depleted + {id} else depleted - {id};
        left := Some(b);
      } else {
        left := None;
      }
    }

    /** One statement on the first account, then one transaction over the others. */
    method WaterfallDraw(accounts: seq<AccId>, amount: int) returns (ok: bool)
      requires Valid() && accounts != [] && amount > 0
      modifies this
      ensures Valid()
      ensures DrawResult(ok, View()) == FirstFit(old(View()), accounts, amount)
    {
      var left := Debit(accounts[0], amount);
      if left.Some? {
        entries := entries + [Entry(accounts[0], amount, left.value)];
        return true;
      }
      if |accounts| <= 1 {
        return false;
      }
      ok := WaterfallOneTxn(accounts[1..], amount);
    }

    method WaterfallOneTxn(accounts: seq<AccId>, amount: int) returns (ok: bool)
      requires Valid() && amount > 0
      modifies this
      ensures Valid()
      ensures DrawResult(ok, View()) == FirstFit(old(View()), accounts, amount)
    {
      for i := 0 to |accounts|
        invariant Valid() && View() == old(View())
        invariant FirstFit(View(), accounts[i..], amount) == FirstFit(old(View()), accounts, amount)
      {
        var left := Debit(accounts[i], amount);
        if left.Some? {
          entries := entries + [Entry(accounts[i], amount, left.value)];
          return true;
        }
        assert accounts[i..][1..] == accounts[i + 1..];
      }
      ok := false;
    }

    /** Sets a balance and clears the flag. */
    method Reset(id: AccId, amount: int)
      requires Valid()
      modifies this
      ensures Valid() && entries == old(entries)
      ensures if id in old(balance) then balance == old(balance)[id := amount] && depleted == old(depleted) - {id}
              else balance == old(balance) && depleted == old(depleted)
    {
      if id in balance {
        balance := balance[id := amount];
        depleted := depleted - {id};
      }
    }

    method SetupWaterfallBalances(group: seq<AccId>)
      requires Valid() && InGroup(group)
      modifies this
      ensures Valid() && InGroup(group) && entries == old(entries) && AtDraw(View(), group, 0)
      ensures forall id | id in old(balance) && id !in group :: id in balance && balance[id] == old(balance)[id]
    {
      for i := 0 to 4
        invariant forall id | id in old(balance) && id !in group :: id in balance && balance[id] == old(balance)[id]
        invariant Valid() && InGroup(group) && entries == old(entries)
        invariant forall j | 0 <= j < i ::
          balance[group[j]] == (if j == 3 then CASH_BALANCE else SMALL_BALANCE) && group[j] !in depleted
      {
        Reset(group[i], if i == 3 then CASH_BALANCE else SMALL_BALANCE);
      }
    }

    method TopUpPriorityAccounts(group: seq<AccId>)
      requires Valid() && InGroup(group)
      modifies this
      ensures Valid() && InGroup(group) && entries == old(entries) && balance[group[3]] == old(balance)[group[3]]
      ensures forall j | 0 <= j < 3 :: balance[group[j]] == SMALL_BALANCE && group[j] !in depleted
      ensures forall id | id in old(balance) && id !in group :: id in balance && balance[id] == old(balance)[id]
    {
      for i := 0 to 3
        invariant forall id | id in old(balance) && id !in group :: id in balance && balance[id] == old(balance)[id]
        invariant Valid() && InGroup(group) && entries == old(entries) && balance[group[3]] == old(balance)[group[3]]
        invariant forall j | 0 <= j < i :: balance[group[j]] == SMALL_BALANCE && group[j] !in depleted
      {
        Reset(group[i], SMALL_BALANCE);
      }
    }

    /** A group is four different existing accounts. */
    ghost predicate InGroup(group: seq<AccId>)
      reads this
    {
      && |group| == 4 && (forall i | 0 <= i < 4 :: group[i] in balance)
      && (forall i, j | 0 <= i < j < 4 :: group[i] != group[j])
    }

    /** One goroutine's life: n draws with the periodic refill. Draw k is served by
        the account its position in the cycle names, none fails for lack of funds,
        and neither the cash account nor any account outside the group is touched. */
    method RunWaterfall(group: seq<AccId>, n: nat) returns (drawCount: nat)
      requires Valid() && InGroup(group)
      modifies this
      ensures Valid() && drawCount == n
      ensures Cycled(old(entries), entries, group, n)
      ensures InGroup(group) && balance[group[3]] == CASH_BALANCE
      ensures forall id | id in old(balance) && id !in group :: id in balance && balance[id] == old(balance)[id]
    {
      hide FirstFit, Cycled, Left, AtDraw;
      NotYetCycled(entries, group);
      SetupWaterfallBalances(group);
      drawCount := 0;
      for k := 0 to n
        invariant Valid() && InGroup(group) && drawCount == k && AtDraw(View(), group, k)
        invariant Cycled(old(entries), entries, group, k)
        invariant forall id | id in old(balance) && id !in group :: id in balance && balance[id] == old(balance)[id]
      {
        ServedInTurn(View(), group, k);
        CycledOnce(old(entries), entries, group, k, balance[group[k % 150 / 50]] - DEBIT);
        var success := WaterfallDraw(group, DEBIT);
        if success {
          drawCount := drawCount + 1;
          if drawCount % TOP_UP_EVERY == 0 {
            TopUpPriorityAccounts(group);
            CycleTurns(View(), group, drawCount);
          }
        }
      }
      CashAtDraw(View(), group, n);
    }
  }

  /** New entries since `before`: one per draw, each on the account whose turn it is. */
  ghost predicate Cycled(before: seq<Entry>, entries: seq<Entry>, group: seq<AccId>, n: nat)
    requires |group| == 4
  {
    && |entries| == |before| + n && entries[..|before|] == before
    && forall k | 0 <= k < n ::
         entries[|before| + k].account == group[k % 150 / 50] && entries[|before| + k].amount == DEBIT
  }

  lemma NotYetCycled(entries: seq<Entry>, group: seq<AccId>)
    requires |group| == 4
    ensures Cycled(entries, entries, group, 0)
  {
    assert entries[..|entries|] == entries;
  }

  lemma CycledOnce(before: seq<Entry>, entries: seq<Entry>, group: seq<AccId>, k: nat, left: int)
    requires |group| == 4 && Cycled(before, entries, group, k)
    ensures Cycled(before, entries + [Entry(group[k % 150 / 50], DEBIT, left)], group, k + 1)
  {
    assert (entries + [Entry(group[k % 150 / 50], DEBIT, left)])[..|before|] == entries[..|before|];
  }

  /** The group's rows before draw k: the closed form of the cycle. */
  ghost predicate AtDraw(rows: Rows, group: seq<AccId>, k: nat) {
    && |group| == 4 && (forall i | 0 <= i < 4 :: group[i] in rows.balance)
    && (forall i | 0 <= i < 3 :: rows.balance[group[i]] == Left(i, k % 150) * DEBIT)
    && rows.balance[group[3]] == CASH_BALANCE
  }

  /** Between two cycles the refilled group stands where the first one began. */
  lemma CycleTurns(rows: Rows, group: seq<AccId>, k: nat)
    requires k % 150 == 0 && |group| == 4 && forall i | 0 <= i < 4 :: group[i] in rows.balance
    requires forall i | 0 <= i < 3 :: rows.balance[group[i]] == SMALL_BALANCE
    requires rows.balance[group[3]] == CASH_BALANCE
    ensures AtDraw(rows, group, k)
  {
  }

  lemma CashAtDraw(rows: Rows, group: seq<AccId>, k: nat)
    requires AtDraw(rows, group, k)
    ensures |group| == 4 && group[3] in rows.balance && rows.balance[group[3]] == CASH_BALANCE
  {
  }

  lemma ServedInTurn(rows: Rows, group: seq<AccId>, k: nat)
    requires AtDraw(rows, group, k) && forall i, j | 0 <= i < j < 4 :: group[i] != group[j]
    ensures
      var r := FirstFit(rows, group, DEBIT);
      var payer := group[k % 150 / 50];
      && r.ok
      && r.rows.balance == rows.balance[payer := rows.balance[payer] - DEBIT]
      && r.rows.entries == rows.entries + [Entry(payer, DEBIT, rows.balance[payer] - DEBIT)]
      && group[3] in r.rows.balance && r.rows.balance[group[3]] == CASH_BALANCE
      && ((k + 1) % 150 != 0 ==> AtDraw(r.rows, group, k + 1))
  {
    var r := k % 150;
    FirstWithFunds(rows, group, r / 50);
    NextPosition(k);
  }

  lemma NextPosition(k: nat)
    ensures 0 <= k % 150 / 50 < 3
    ensures (k + 1) % 150 != 0 ==> (k + 1) % 150 == k % 150 + 1
    ensures forall i | 0 <= i < 3 :: Left(i, k % 150) >= 1 <==> i >= k % 150 / 50
    ensures (k + 1) % 150 != 0 ==>
      forall i | 0 <= i < 3 :: Left(i, (k + 1) % 150) == Left(i, k % 150) - if i == k % 150 / 50 then 1 else 0
  {
    NextInCycle(k);
    var r := k % 150;
    Fifties(r);
    forall i | 0 <= i < 3
      ensures Left(i, r) >= 1 <==> i >= r / 50
      ensures r < 149 ==> Left(i, r + 1) == Left(i, r) - if i == r / 50 then 1 else 0
    {
      LeftAt(i, r, r / 50);
    }
  }

  lemma NextInCycle(k: nat)
    ensures if k % 150 == 149 then (k + 1) % 150 == 0 else (k + 1) % 150 == k % 150 + 1
  {
    var c, r := k / 150, k % 150;
    assert k + 1 == 150 * c + (r + 1);
  }

  lemma Fifties(r: nat)
    requires r < 150
    ensures r / 50 < 3 && 50 * (r / 50) <= r < 50 * (r / 50) + 50
  {
  }

  lemma LeftAt(i: nat, r: nat, turn: nat)
    requires i < 3 && turn < 3 && 50 * turn <= r < 50 * turn + 50
    ensures Left(i, r) >= 1 <==> i >= turn
    ensures Left(i, r + 1) == Left(i, r) - if i == turn then 1 else 0
  {
  }

  lemma FirstWithFunds(rows: Rows, group: seq<AccId>, i: nat)
    requires |group| == 4 && i < 3 && forall j | 0 <= j < 4 :: group[j] in rows.balance
    requires rows.balance[group[i]] >= DEBIT && forall j | 0 <= j < i :: rows.balance[group[j]] < DEBIT
    ensures
      var r := FirstFit(rows, group, DEBIT);
      && r.ok && r.rows.balance == rows.balance[group[i] := rows.balance[group[i]] - DEBIT]
      && r.rows.entries == rows.entries + [Entry(group[i], DEBIT, rows.balance[group[i]] - DEBIT)]
  {
    var rest, last := group[1..], group[1..][1..];
    assert rest[0] == group[1] && last[0] == group[2];
    if i > 0 {
      assert FirstFit(rows, group, DEBIT) == FirstFit(rows, rest, DEBIT);
    }
    if i > 1 {
      assert FirstFit(rows, rest, DEBIT) == FirstFit(rows, last, DEBIT);
    }
  }
}
