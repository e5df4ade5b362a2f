/** What each operation does to the tables, written out column by column. */
module Effects {
  import opened Common
  import opened Database
  import opened Serial

  lemma IssueAddsOneRow(
    db: Db, g: GrantId, a: AccId, amount: nat, expiresAt: int, priority: int, key: Key)
    requires GrantsLive(db.grants) && Enabled(db, Issue(g, a, amount, expiresAt, priority, key))
    ensures
      var db' := Apply(db, Issue(g, a, amount, expiresAt, priority, key));
      && g !in db.grants && db'.grants.Keys == db.grants.Keys + {g}
      && (forall h | h in db.grants :: db'.grants[h] == db.grants[h])
      && (var row := db'.grants[g];
          && row.account == a && row.initial == row.remaining == amount && row.status == Active
          && row.expiresAt == expiresAt && row.priority == priority && row.key == key)
      && db'.users == db.users && db'.accounts == db.accounts && db'.entries == db.entries
      && db'.txns == db.txns && db'.grantEntries == db.grantEntries
  {
  }

  lemma OpeningAddsOneAccount(db: Db, a: AccId, currency: string)
    requires GrantsLive(db.grants) && Enabled(db, OpenAccount(a, currency))
    ensures
      var db' := Apply(db, OpenAccount(a, currency));
      && a !in db.accounts && db'.accounts.Keys == db.accounts.Keys + {a}
      && (forall b | b in db.accounts :: db'.accounts[b] == db.accounts[b])
      && db'.accounts[a].currency == currency && db'.accounts[a].balance == 0
      && db'.users == db.users && db'.entries == db.entries && db'.txns == db.txns
      && db'.grants == db.grants && db'.grantEntries == db.grantEntries
  {
  }

  /** One balance moves, one entry shows the amount, the side and the new balance, and
      nothing else changes. */
  ghost predicate OneSided(db: Db, db': Db, a: AccId, kind: Kind, amount: nat, balance: int) {
    && a in db.accounts && db'.accounts.Keys == db.accounts.Keys
    && (forall b | b in db.accounts && b != a :: db'.accounts[b] == db.accounts[b])
    && db'.accounts[a].currency == db.accounts[a].currency && db'.accounts[a].balance == balance
    && |db'.entries| == |db.entries| + 1 && db'.entries[..|db.entries|] == db.entries
    && (var e := db'.entries[|db.entries|];
        && e.account == a && e.kind == kind && e.amount == amount && e.balanceAfter == balance && e.txn == None)
    && db'.users == db.users && db'.txns == db.txns
    && db'.grants == db.grants && db'.grantEntries == db.grantEntries
  }

  lemma DepositAddsToOneBalance(db: Db, a: AccId, amount: nat)
    requires GrantsLive(db.grants) && Enabled(db, Deposit(a, amount))
    ensures
      amount > 0 && a in db.accounts
      && OneSided(db, Apply(db, Deposit(a, amount)), a, Credit, amount, db.accounts[a].balance + amount)
  {
  }

  lemma WithdrawTakesFromOneBalance(db: Db, a: AccId, amount: nat)
    requires GrantsLive(db.grants) && Enabled(db, Withdraw(a, amount))
    ensures
      amount > 0 && a in db.accounts
      && OneSided(db, Apply(db, Withdraw(a, amount)), a, Debit, amount, db.accounts[a].balance - amount)
  {
  }

  lemma TransferMovesOneAmount(db: Db, s: AccId, d: AccId, amount: nat, key: Key)
    requires GrantsLive(db.grants) && Enabled(db, Op.Transfer(s, d, amount, key))
    ensures
      var db' := Apply(db, Op.Transfer(s, d, amount, key));
      && amount > 0 && s != d && s in db.accounts && d in db.accounts && db'.accounts.Keys == db.accounts.Keys
      && db'.accounts[s].balance == db.accounts[s].balance - amount >= 0
      && db'.accounts[d].balance == db.accounts[d].balance + amount
      && db'.accounts[s].currency == db.accounts[s].currency == db.accounts[d].currency == db'.accounts[d].currency
      && (forall b | b in db.accounts && b != s && b != d :: db'.accounts[b] == db.accounts[b])
      && db'.entries == db.entries
           + [Entry(s, Debit, amount, db'.accounts[s].balance, Some(key)),
              Entry(d, Credit, amount, db'.accounts[d].balance, Some(key))]
      && key !in db.txns && db'.txns == db.txns[key := Txn(Some(s), d, amount, db.accounts[s].currency)]
      && db'.users == db.users && db'.grants == db.grants && db'.grantEntries == db.grantEntries
  {
  }

  lemma SignUpOpensWithBonus(db: Db, user: string, a: AccId, key: Key)
    requires GrantsLive(db.grants) && Enabled(db, SignUp(user, a, key))
    ensures
      var db', bonus := Apply(db, SignUp(user, a, key)), 100_000_000_000_000;
      && user !in db.users && db'.users == db.users + {user}
      && a !in db.accounts && db'.accounts == db.accounts[a := Account("USD", bonus)]
      && db'.entries == db.entries + [Entry(a, Credit, bonus, bonus, Some(key))]
      && key !in db.txns && db'.txns == db.txns[key := Txn(None, a, bonus, "USD")]
      && db'.grants == db.grants && db'.grantEntries == db.grantEntries
  {
  }

  lemma ExpireClosesItsRows(db: Db, marked: set<GrantId>, now: int)
    requires GrantsLive(db.grants) && Enabled(db, Expire(marked, now))
    ensures
      var db' := Apply(db, Expire(marked, now));
      && db'.grants.Keys == db.grants.Keys
      && (forall g | g in marked :: g in db.grants && db.grants[g].status == Active && db.grants[g].expiresAt < now)
      && (forall g | g in db.grants ::
            db'.grants[g] == if g in marked then db.grants[g].(status := Expired) else db.grants[g])
      && db'.users == db.users && db'.accounts == db.accounts && db'.entries == db.entries
      && db'.txns == db.txns && db'.grantEntries == db.grantEntries
  {
  }
}
