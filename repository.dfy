/**
 * DataRepository: the app's single entry point to the store. It seeds the
 * default accounts, forwards mutations to the DAOs, and derives the balance
 * and planning views from the query results.
 */
module Repository {
  import opened Wrappers
  import opened Entities
  import opened Tables
  import opened Lists
  import opened Database

  /** The day length the due-items view looks ahead (`24 * 3600 * 1000`). */
  const LookAheadMillis: int := 24 * 3600 * 1000

  predicate IsCredit(t: Transaction) { t.fields.category == CREDIT }
  predicate IsDebit(t: Transaction) { t.fields.category == DEBIT }
  predicate IsPending(u: UpcomingItem) { u.fields.status == PENDING }

  /** A transaction's effect on a balance: credits add, debits subtract. */
  function Signed(t: Transaction): real {
    if t.fields.category == CREDIT then t.fields.amount else -t.fields.amount
  }

  /** The balance of a set of transactions: what the credits add minus what the debits take. */
  ghost function BalanceOf(ts: set<Transaction>): real {
    SumOf(ts, Signed)
  }

  /** `getTotalBalance`: credits minus debits over every transaction, whichever account it names. */
  ghost function TotalBalance(s: Store): real {
    BalanceOf(TransactionRows(s))
  }

  /** `getAccountBalance`: the two SUM queries combined, each absent sum read as 0. */
  ghost function AccountBalance(s: Store, accountId: int): real {
    OrZero(AccountTotal(s, accountId, CREDIT)) - OrZero(AccountTotal(s, accountId, DEBIT))
  }

  /** The computation `getTotalBalance` runs on the list: CREDIT `sumOf` minus DEBIT `sumOf`. */
  function ListBalance(ts: seq<Transaction>): real {
    SeqSum(Filter(ts, IsCredit), Amount) - SeqSum(Filter(ts, IsDebit), Amount)
  }

  /** Splitting by category: the signed sum is the credit total minus the debit total. */
  lemma SignedSplit(ts: set<Transaction>)
    ensures BalanceOf(ts) == SumOf(InCategory(ts, CREDIT), Amount) - SumOf(InCategory(ts, DEBIT), Amount)
  {
    var c, d := InCategory(ts, CREDIT), InCategory(ts, DEBIT);
    assert ts == c + d;
    SumOfUnion(c, d, Signed);
    SumOfCongruent(c, Signed, Amount);
    SumOfNegate(d, Amount, Signed);
  }

  /** An account's balance is the signed sum of exactly its own transactions. */
  lemma AccountBalanceIsSignedSum(s: Store, accountId: int)
    ensures AccountBalance(s, accountId) == BalanceOf(OfAccount(s, accountId))
  {
    SignedSplit(OfAccount(s, accountId));
  }

  /** The list computation over any date-ordered listing gives the total balance. */
  lemma ListBalanceOfListing(r: seq<Transaction>, ts: set<Transaction>, key: Transaction -> int, descending: bool)
    requires IsListing(r, ts, key, descending)
    ensures ListBalance(r) == BalanceOf(ts)
  {
    FilterSum(r, ts, key, descending, IsCredit, Amount, InCategory(ts, CREDIT));
    FilterSum(r, ts, key, descending, IsDebit, Amount, InCategory(ts, DEBIT));
    SignedSplit(ts);
  }

  /** The transactions whose account id lies in `ids`. */
  function OfAccounts(s: Store, ids: set<int>): set<Transaction> {
    set t | t in TransactionRows(s) && t.fields.accountId in ids
  }

  lemma {:induction false} PartitionByAccount(s: Store, ids: set<int>)
    ensures BalanceOf(OfAccounts(s, ids)) == SumOf(ids, a => BalanceOf(OfAccount(s, a)))
    decreases ids
  {
    if ids == {} {
      assert OfAccounts(s, ids) == {};
    } else {
      var a := AnyElement(ids);
      var rest := ids - {a};
      PartitionByAccount(s, rest);
      SumOfRemove(ids, a => BalanceOf(OfAccount(s, a)), a);
      assert OfAccounts(s, ids) == OfAccount(s, a) + OfAccounts(s, rest);
      SumOfUnion(OfAccount(s, a), OfAccounts(s, rest), Signed);
    }
  }

  /**
   * When every transaction names a live account, the total balance is the
   * sum of the per-account balances.
   */
  lemma TotalIsSumOfAccountBalances(s: Store)
    requires forall t | t in TransactionRows(s) :: t.fields.accountId in s.accounts.rows
    ensures TotalBalance(s) == SumOf(s.accounts.rows.Keys, a => AccountBalance(s, a))
  {
    var ids := s.accounts.rows.Keys;
    assert OfAccounts(s, ids) == TransactionRows(s);
    PartitionByAccount(s, ids);
    forall a | a in ids ensures AccountBalance(s, a) == BalanceOf(OfAccount(s, a)) {
      AccountBalanceIsSignedSum(s, a);
    }
    SumOfCongruent(ids, a => AccountBalance(s, a), a => BalanceOf(OfAccount(s, a)));
  }

  /** A transaction inserted under a fresh id moves the total balance by exactly its signed amount. */
  lemma InsertFreshAddsSigned(s: Store, t: Transaction)
    requires s.Valid() && t.id == 0
    ensures TotalBalance(s.(transactions := s.transactions.InsertReplace(t))) == TotalBalance(s) + Signed(t)
  {
    var k := s.transactions.AssignedId(t);
    var row := Row(k, t.fields);
    var s2 := s.(transactions := s.transactions.InsertReplace(t));
    assert s2.transactions.rows == s.transactions.rows[k := row];
    forall x | x in TransactionRows(s) ensures x.id != k {
      var j := KeyOf(s.transactions.rows, x);
    }
    assert row !in TransactionRows(s);
    assert TransactionRows(s2) == TransactionRows(s) + {row} by {
      forall x | x in TransactionRows(s2) ensures x in TransactionRows(s) + {row} {
        var j := KeyOf(s2.transactions.rows, x);
        if j != k { assert s.transactions.rows[j] == x; }
      }
      forall x | x in TransactionRows(s) ensures x in TransactionRows(s2) {
        var j := KeyOf(s.transactions.rows, x);
        assert s2.transactions.rows[j] == x;
      }
    }
    SumOfRemove(TransactionRows(s2), Signed, row);
    assert TransactionRows(s2) - {row} == TransactionRows(s);
  }

  /** The accounts table after `initDefaultAccounts`: seeded with Cash and Bank Account only when empty. */
  function Seeded(t: Table<AccountFields>): (r: Table<AccountFields>)
    requires t.Valid()
    ensures r.Valid()
    ensures t.rows != map[] ==> r == t
    ensures t.rows == map[] ==>
              r.rows.Keys == {t.next, t.next + 1} &&
              r.rows[t.next] == Row(t.next, AccountFields("Cash", "Cash", 0.0)) &&
              r.rows[t.next + 1] == Row(t.next + 1, AccountFields("Bank Account", "Bank", 0.0))
  {
    if t.Count() == 0 then
      t.InsertReplace(NewAccount("Cash", "Cash", 0.0)).InsertReplace(NewAccount("Bank Account", "Bank", 0.0))
    else t
  }

  /** Seeding twice is seeding once. */
  lemma SeedingIdempotent(t: Table<AccountFields>)
    requires t.Valid()
    ensures Seeded(Seeded(t)) == Seeded(t)
  {
    if t.rows == map[] {
      assert t.next in Seeded(t).rows;
    }
  }

  /** The pending upcoming items of one type. */
  function PendingOfType(s: Store, kind: PlanningType): set<UpcomingItem> {
    set u | u in ItemsOfType(s, kind) && IsPending(u)
  }

  /** Marking a stored item completed takes exactly that item out of the pending list of its type. */
  lemma MarkedLeavesPending(s: Store, u: UpcomingItem, kind: PlanningType)
    requires s.Valid() && u.id in s.upcoming.rows
    ensures PendingOfType(s.(upcoming := s.upcoming.Update(u.(fields := u.fields.(status := COMPLETED)))), kind) ==
            PendingOfType(s, kind) - {s.upcoming.rows[u.id]}
  {
    var done := u.(fields := u.fields.(status := COMPLETED));
    var s2 := s.(upcoming := s.upcoming.Update(done));
    var stored := s.upcoming.rows[u.id];
    forall x | x in PendingOfType(s2, kind) ensures x in PendingOfType(s, kind) - {stored} {
      var j := KeyOf(s2.upcoming.rows, x);
      assert s2.upcoming.rows[u.id].fields.status == COMPLETED;
      assert j != u.id;
      assert s.upcoming.rows[j] == x;
    }
    forall x | x in PendingOfType(s, kind) - {stored} ensures x in PendingOfType(s2, kind) {
      var j := KeyOf(s.upcoming.rows, x);
      assert j != u.id;
      assert s2.upcoming.rows[j] == x;
    }
  }

  class DataRepository {
    const db: LedgerDatabase

    constructor (db: LedgerDatabase)
      ensures this.db == db
    {
      this.db := db;
    }

    /** `initDefaultAccounts`: a count check, then the two default accounts if the table is empty. */
    method InitDefaultAccounts()
      requires db.Valid()
      modifies db
      ensures db.Valid()
      ensures db.accounts == Seeded(old(db.accounts))
      ensures db.transactions == old(db.transactions) && db.upcoming == old(db.upcoming)
    {
      var n := db.GetAccountCount();
      if n == 0 {
        db.InsertAccount(NewAccount("Cash", "Cash", 0.0));
        db.InsertAccount(NewAccount("Bank Account", "Bank", 0.0));
      }
    }

    method AddAccount(a: Account)
      requires db.Valid()
      modifies db
      ensures db.Valid()
      ensures db.accounts == old(db.accounts).InsertReplace(a)
      ensures db.transactions == old(db.transactions) && db.upcoming == old(db.upcoming)
    {
      db.InsertAccount(a);
    }

    method UpdateAccount(a: Account)
      requires db.Valid()
      modifies db
      ensures db.Valid()
      ensures db.accounts == old(db.accounts).Update(a)
      ensures db.transactions == old(db.transactions) && db.upcoming == old(db.upcoming)
    {
      db.UpdateAccount(a);
    }

    /** Removes the account only: its transactions stay and still count in the total balance. */
    method DeleteAccount(a: Account)
      requires db.Valid()
      modifies db
      ensures db.Valid()
      ensures db.accounts == old(db.accounts).Delete(a)
      ensures db.transactions == old(db.transactions) && db.upcoming == old(db.upcoming)
      ensures TotalBalance(db.Snapshot()) == old(TotalBalance(db.Snapshot()))
    {
      db.DeleteAccount(a);
    }

    /**
     * `addTransaction`: a plain insert. A taken id makes the insert throw,
     * and the exception propagates to the caller; `ok == false` stands for
     * it. The app's callers always pass id 0, which never conflicts.
     */
    method AddTransaction(t: Transaction) returns (ok: bool)
      requires db.Valid()
      modifies db
      ensures db.Valid()
      ensures ok <==> t.id == 0 || t.id !in old(db.transactions.rows)
      ensures db.transactions == if ok then old(db.transactions).InsertReplace(t) else old(db.transactions)
      ensures db.accounts == old(db.accounts) && db.upcoming == old(db.upcoming)
      ensures t.id == 0 ==> TotalBalance(db.Snapshot()) == old(TotalBalance(db.Snapshot())) + Signed(t)
    {
      ok := db.InsertTransaction(t);
      if t.id == 0 {
        InsertFreshAddsSigned(old(db.Snapshot()), t);
      }
    }

    method DeleteTransaction(t: Transaction)
      requires db.Valid()
      modifies db
      ensures db.Valid()
      ensures db.transactions == old(db.transactions).Delete(t)
      ensures db.accounts == old(db.accounts) && db.upcoming == old(db.upcoming)
    {
      db.DeleteTransaction(t);
    }

    /** `getAccountBalance` */
    method GetAccountBalance(accountId: int) returns (b: real)
      ensures b == AccountBalance(db.Snapshot(), accountId)
      ensures b == BalanceOf(OfAccount(db.Snapshot(), accountId))
    {
      var credit := db.GetAccountTotal(accountId, CREDIT);
      var debit := db.GetAccountTotal(accountId, DEBIT);
      b := credit.GetOr(0.0) - debit.GetOr(0.0);
      AccountBalanceIsSignedSum(db.Snapshot(), accountId);
    }

    /** `getAccountCredit`/`getAccountDebit`: the account's total of one category, 0 when it has none. */
    method GetAccountCategoryTotal(accountId: int, c: TransactionCategory) returns (total: real)
      ensures total == SumOf(InCategory(OfAccount(db.Snapshot(), accountId), c), Amount)
      ensures InCategory(OfAccount(db.Snapshot(), accountId), c) == {} ==> total == 0.0
    {
      var sum := db.GetAccountTotal(accountId, c);
      total := sum.GetOr(0.0);
    }

    /** `getTotalBalance`, computed on the date-ordered list of all transactions. */
    method GetTotalBalance() returns (b: real)
      ensures b == TotalBalance(db.Snapshot())
    {
      var all := db.GetAllTransactions();
      b := ListBalance(all);
      ListBalanceOfListing(all, TransactionRows(db.Snapshot()), Date, true);
    }

    /** The legacy `getBalance(type)`: the two type-keyed SUM queries combined, absent read as 0. */
    method GetBalance(kind: TransactionType) returns (b: real)
      ensures b == BalanceOf(OfType(db.Snapshot(), kind))
    {
      var credit := db.GetTypeTotal(kind, CREDIT);
      var debit := db.GetTypeTotal(kind, DEBIT);
      b := credit.GetOr(0.0) - debit.GetOr(0.0);
      SignedSplit(OfType(db.Snapshot(), kind));
    }

    /** `getUpcomingByType`: the DAO's dueDate-ordered list of that type, PENDING items only. */
    method GetUpcomingByType(kind: PlanningType) returns (r: seq<UpcomingItem>)
      ensures IsListing(r, PendingOfType(db.Snapshot(), kind), DueDate, false)
      ensures forall i | 0 <= i < |r| :: r[i].fields.status == PENDING && r[i].fields.kind == kind
    {
      var list := db.GetUpcomingItemsByType(kind);
      r := Filter(list, IsPending);
      FilterListing(list, ItemsOfType(db.Snapshot(), kind), DueDate, false, IsPending);
      assert forall i | 0 <= i < |r| :: r[i] in Elements(r);
    }

    /** `getDuePlanningItems`: pending items due no later than one day after `now`. */
    method GetDuePlanningItems(now: int) returns (r: seq<UpcomingItem>)
      ensures IsListing(r, DuePending(db.Snapshot(), now + LookAheadMillis), Id, false)
    {
      r := db.GetDuePendingItems(now + LookAheadMillis);
    }

    /** `addUpcomingItem`: a REPLACE insert. */
    method AddUpcomingItem(u: UpcomingItem)
      requires db.Valid()
      modifies db
      ensures db.Valid()
      ensures db.upcoming == old(db.upcoming).InsertReplace(u)
      ensures db.accounts == old(db.accounts) && db.transactions == old(db.transactions)
    {
      db.InsertUpcomingItem(u);
    }

    method DeleteUpcomingItem(u: UpcomingItem)
      requires db.Valid()
      modifies db
      ensures db.Valid()
      ensures db.upcoming == old(db.upcoming).Delete(u)
      ensures db.accounts == old(db.accounts) && db.transactions == old(db.transactions)
    {
      db.DeleteUpcomingItem(u);
    }

    /**
     * `markUpcomingAsProcessed`: writes the item back with status COMPLETED.
     * For an item as stored, only its status changes; no transaction is created.
     */
    method MarkUpcomingAsProcessed(u: UpcomingItem)
      requires db.Valid()
      modifies db
      ensures db.Valid()
      ensures db.upcoming == old(db.upcoming).Update(u.(fields := u.fields.(status := COMPLETED)))
      ensures db.accounts == old(db.accounts) && db.transactions == old(db.transactions)
      ensures db.upcoming.rows.Keys == old(db.upcoming.rows.Keys)
      ensures u.id in old(db.upcoming.rows) && old(db.upcoming.rows[u.id]) == u ==>
                db.upcoming.rows[u.id] == u.(fields := u.fields.(status := COMPLETED))
      ensures forall k | k in old(db.upcoming.rows) && k != u.id :: db.upcoming.rows[k] == old(db.upcoming.rows[k])
      ensures u.id in old(db.upcoming.rows) ==>
                forall kind :: PendingOfType(db.Snapshot(), kind) ==
                               old(PendingOfType(db.Snapshot(), kind)) - {old(db.upcoming.rows[u.id])}
    {
      db.UpdateUpcomingItem(u.(fields := u.fields.(status := COMPLETED)));
      if u.id in old(db.upcoming.rows) {
        forall kind ensures PendingOfType(db.Snapshot(), kind) ==
                            old(PendingOfType(db.Snapshot(), kind)) - {old(db.upcoming.rows[u.id])} {
          MarkedLeavesPending(old(db.Snapshot()), u, kind);
        }
      }
    }
  }
}
