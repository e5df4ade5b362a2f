/** The ledger's tables as they are updated in place, one method per SQL statement. */
module PostgresTables {
  import opened Common
  import opened Totals
  import opened Database
  import opened Serial

  class Tables {
    var users: set<string>
    var accounts: map<AccId, Account>
    var entries: seq<Entry>
    var txns: map<Key, Txn>
    var grants: map<GrantId, Grant>
    var grantEntries: seq<GrantEntry>
    var saved: Db // the tables when the transaction in progress began

    constructor ()
      ensures View() == EMPTY_DB
    {
      saved := EMPTY_DB;
      users, accounts, entries := {}, map[], [];
      txns, grants, grantEntries := map[], map[], [];
    }

    function View(): Db
      reads this
    {
      Db(users, accounts, entries, txns, grants, grantEntries)
    }

    method Begin()
      modifies this`saved
      ensures saved == View()
    {
      saved := View();
    }

    /** A transaction that does not commit leaves the tables of its start. */
    method Rollback()
      modifies this
      ensures View() == old(saved)
    {
      users, accounts, entries := saved.users, saved.accounts, saved.entries;
      txns, grants, grantEntries := saved.txns, saved.grants, saved.grantEntries;
    }

    // accounts.sql

    method DebitAccount(a: AccId, amount: nat) returns (row: Option<Account>)
      modifies this`accounts
      ensures row.Some? <==> a in old(accounts) && old(accounts)[a].balance >= amount
      ensures row.None? ==> accounts == old(accounts)
      ensures row.Some? ==> row.value == old(accounts)[a].(balance := old(accounts)[a].balance - amount)
      ensures row.Some? ==> accounts == old(accounts)[a := row.value]
    {
      row := None;
      if a in accounts && accounts[a].balance >= amount {
        row := Some(accounts[a].(balance := accounts[a].balance - amount));
        accounts := accounts[a := row.value];
      }
    }

    method CreditAccount(a: AccId, amount: nat) returns (row: Option<Account>)
      modifies this`accounts
      ensures row.Some? <==> a in old(accounts)
      ensures row.None? ==> accounts == old(accounts)
      ensures row.Some? ==> row.value == old(accounts)[a].(balance := old(accounts)[a].balance + amount)
      ensures row.Some? ==> accounts == old(accounts)[a := row.value]
    {
      row := None;
      if a in accounts {
        row := Some(accounts[a].(balance := accounts[a].balance + amount));
        accounts := accounts[a := row.value];
      }
    }

    // transactions.sql

    /** The key column is unique. */
    method CreateTransaction(key: Key, t: Txn) returns (ok: bool)
      modifies this`txns
      ensures ok <==> key !in old(txns)
      ensures txns == if ok then old(txns)[key := t] else old(txns)
    {
      ok := key !in txns;
      if ok {
        txns := txns[key := t];
      }
    }

    method CreateLedgerEntry(e: Entry)
      modifies this`entries
      ensures entries == old(entries) + [e]
    {
      entries := entries + [e];
    }

    method DepositAtomic(a: AccId, amount: nat) returns (found: bool)
      modifies this`accounts, this`entries
      ensures found <==> a in old(accounts)
      ensures View() == if found then Post(old(View()), a, Credit, amount, None) else old(View())
    {
      var row := CreditAccount(a, amount);
      found := row.Some?;
      if found {
        CreateLedgerEntry(Entry(a, Credit, amount, row.value.balance, None));
      }
    }

    /** Unlike the guarded debit, this one never looks at the balance. */
    method WithdrawAtomic(a: AccId, amount: nat) returns (found: bool)
      modifies this`accounts, this`entries
      ensures found <==> a in old(accounts)
      ensures View() == if found then Post(old(View()), a, Debit, amount, None) else old(View())
    {
      found := a in accounts;
      if found {
        accounts := accounts[a := accounts[a].(balance := accounts[a].balance - amount)];
        CreateLedgerEntry(Entry(a, Debit, amount, accounts[a].balance, None));
      }
    }

    // grants.sql

    method DrawdownGrant(g: GrantId, amount: nat) returns (ok: bool)
      modifies this`grants
      ensures ok <==> g in old(grants) && old(grants)[g].remaining >= amount && old(grants)[g].status == Active
      ensures grants == if ok then old(grants)[g := old(grants)[g].(remaining := old(grants)[g].remaining - amount)]
                        else old(grants)
    {
      ok := g in grants && grants[g].remaining >= amount && grants[g].status == Active;
      if ok {
        grants := grants[g := grants[g].(remaining := grants[g].remaining - amount)];
      }
    }

    method DepleteGrant(g: GrantId)
      modifies this`grants
      ensures grants == if g in old(grants) then old(grants)[g := old(grants)[g].(remaining := 0, status := Depleted)]
                        else old(grants)
    {
      if g in grants {
        grants := grants[g := grants[g].(remaining := 0, status := Depleted)];
      }
    }

    method CreateGrantLedgerEntry(e: GrantEntry)
      modifies this`grantEntries
      ensures grantEntries == old(grantEntries) + [e]
    {
      grantEntries := grantEntries + [e];
    }

    /** Marks all that are past due, and counts them. */
    method ExpireActiveGrants(now: int) returns (count: nat)
      modifies this`grants
      ensures grants.Keys == old(grants).Keys
      ensures forall g | g in old(grants) ::
        var row := old(grants)[g];
        grants[g] == if row.status == Active && row.expiresAt < now then row.(status := Expired) else row
      ensures count == |set g | g in old(grants) && old(grants)[g].status == Active && old(grants)[g].expiresAt < now|
      ensures Enabled(old(View()), Expire(PastDue(old(grants), now), now))
      ensures GrantsLive(old(grants)) ==> View() == Apply(old(View()), Expire(PastDue(old(grants), now), now))
    {
      var due := PastDue(grants, now);
      assert due == set g | g in grants && grants[g].status == Active && grants[g].expiresAt < now;
      count := |due|;
      grants := map g | g in grants :: if g in due then grants[g].(status := Expired) else grants[g];
    }

    /** The aggregate over an account's active grants. */
    method GetGrantBalance(a: AccId) returns (balance: int)
      ensures balance == GrantBalance(grants, a)
    {
      balance := 0;
      var open: set<int> := set g: GrantId | g in grants && grants[g].account == a && grants[g].status == Active;
      ghost var rest := Holdings(grants, a);
      while exists g :: g in open
        invariant rest.Keys == open && forall g | g in open :: g in grants && rest[g] == grants[g].remaining
        invariant balance + Total(rest) == GrantBalance(grants, a)
        decreases |open|
      {
        var g: int :| g in open;
        TotalRemove(rest, g);
        rest := rest - {g};
        balance := balance + grants[g].remaining;
        open := open - {g};
      }
    }
  }

  function PastDue(grants: map<GrantId, Grant>, now: int): set<GrantId> {
    set g | g in grants && grants[g].expiresAt < now && grants[g].status == Active
  }

  function Holdings(grants: map<GrantId, Grant>, a: AccId): map<int, int> {
    map g: GrantId | g in grants && grants[g].account == a && grants[g].status == Active :: grants[g].remaining
  }

  /** All that an account's active grants hold. */
  ghost function GrantBalance(grants: map<GrantId, Grant>, a: AccId): int {
    Total(Holdings(grants, a))
  }
}
