/**
 * The Room database: the accounts, transactions and upcoming_items tables,
 * and the three DAOs' operations on them. Mutators change the tables in
 * place; queries read them. A query the DAO declares as a `Flow` is modelled
 * by its value on the current contents.
 */
module Database {
  import opened Wrappers
  import opened Entities
  import opened Lists
  import opened Tables

  /** The contents of the three tables, counters included. */
  datatype Store = Store(
    accounts: Table<AccountFields>,
    transactions: Table<TransactionFields>,
    upcoming: Table<UpcomingFields>)
  {
    ghost predicate Valid() {
      accounts.Valid() && transactions.Valid() && upcoming.Valid()
    }
  }

  function Amount(t: Transaction): real { t.fields.amount }
  function Date(t: Transaction): int { t.fields.date }
  function DueDate(u: UpcomingItem): int { u.fields.dueDate }

  // ------------------------------------------------------------ selections

  function AccountRows(s: Store): set<Account> { s.accounts.rows.Values }
  function TransactionRows(s: Store): set<Transaction> { s.transactions.rows.Values }
  function UpcomingRows(s: Store): set<UpcomingItem> { s.upcoming.rows.Values }

  /** `WHERE accountId = :accountId` */
  function OfAccount(s: Store, accountId: int): set<Transaction> {
    set t | t in TransactionRows(s) && t.fields.accountId == accountId
  }

  /** `WHERE type = :type` */
  function OfType(s: Store, kind: TransactionType): set<Transaction> {
    set t | t in TransactionRows(s) && t.fields.kind == kind
  }

  /** `WHERE date BETWEEN :startDate AND :endDate`, both ends included. */
  function Between(s: Store, startDate: int, endDate: int): set<Transaction> {
    set t | t in TransactionRows(s) && startDate <= t.fields.date <= endDate
  }

  /** The rows of one category among `ts`. */
  function InCategory(ts: set<Transaction>, c: TransactionCategory): set<Transaction> {
    set t | t in ts && t.fields.category == c
  }

  /** `SELECT SUM(amount) ... WHERE accountId = :accountId AND category = :c` */
  ghost function AccountTotal(s: Store, accountId: int, c: TransactionCategory): Option<real> {
    SumOrNull(InCategory(OfAccount(s, accountId), c), Amount)
  }

  /** The legacy `SELECT SUM(amount) ... WHERE type = :type AND category = :c` */
  ghost function TypeTotal(s: Store, kind: TransactionType, c: TransactionCategory): Option<real> {
    SumOrNull(InCategory(OfType(s, kind), c), Amount)
  }

  /** The stats row of one account: its columns and its two correlated SUM sub-queries. */
  ghost function StatsOf(s: Store, a: Account): AccountWithStats {
    AccountWithStats(a.id, a.fields.name, a.fields.kind,
                     AccountTotal(s, a.id, CREDIT), AccountTotal(s, a.id, DEBIT))
  }

  /** `upcoming_items WHERE type = :type` */
  function ItemsOfType(s: Store, kind: PlanningType): set<UpcomingItem> {
    set u | u in UpcomingRows(s) && u.fields.kind == kind
  }

  /** `upcoming_items WHERE status = 'PENDING' AND dueDate <= :timestamp` */
  function DuePending(s: Store, timestamp: int): set<UpcomingItem> {
    set u | u in UpcomingRows(s) && u.fields.status == PENDING && u.fields.dueDate <= timestamp
  }

  /** In a valid table a row is identified by its id. */
  lemma RowsDistinctIds<D>(t: Table<D>, x: Row<D>, y: Row<D>)
    requires t.Valid() && x in t.rows.Values && y in t.rows.Values && x.id == y.id
    ensures x == y
  {
    RowAtId(t, x);
    RowAtId(t, y);
  }

  /** A transaction whose account does not exist is in no account's SUM sub-queries. */
  lemma OrphanInNoStats(s: Store, t: Transaction, a: Account, c: TransactionCategory)
    requires s.Valid() && t in TransactionRows(s) && a in AccountRows(s)
    requires t.fields.accountId !in s.accounts.rows
    ensures t !in InCategory(OfAccount(s, a.id), c)
  {
    RowAtId(s.accounts, a);
  }

  class LedgerDatabase {
    var accounts: Table<AccountFields>
    var transactions: Table<TransactionFields>
    var upcoming: Table<UpcomingFields>

    function Snapshot(): Store
      reads this
    {
      Store(accounts, transactions, upcoming)
    }

    ghost predicate Valid()
      reads this
    {
      Snapshot().Valid()
    }

    /** A freshly created database: three empty tables. */
    constructor ()
      ensures Valid()
      ensures accounts.rows == map[] && transactions.rows == map[] && upcoming.rows == map[]
    {
      accounts := EmptyTable();
      transactions := EmptyTable();
      upcoming := EmptyTable();
    }

    // ---------------------------------------------------------- TransactionDao

    /** `SELECT * FROM transactions ORDER BY date DESC` */
    method GetAllTransactions() returns (r: seq<Transaction>)
      ensures IsListing(r, TransactionRows(Snapshot()), Date, true)
    {
      r := ListBy(TransactionRows(Snapshot()), Date, true);
    }

    /** `... WHERE accountId = :accountId ORDER BY date DESC` */
    method GetTransactionsByAccount(accountId: int) returns (r: seq<Transaction>)
      ensures IsListing(r, OfAccount(Snapshot(), accountId), Date, true)
    {
      r := ListBy(OfAccount(Snapshot(), accountId), Date, true);
    }

    /**
     * `... ORDER BY date DESC LIMIT :limit`: the `limit` latest rows, or all
     * of them when there are fewer or the limit is negative (no limit in SQLite).
     */
    method GetRecentTransactions(limit: int) returns (r: seq<Transaction>)
      ensures Ordered(r, Date, true) && Distinct(r)
      ensures Elements(r) <= TransactionRows(Snapshot())
      ensures |r| == if 0 <= limit < |TransactionRows(Snapshot())| then limit else |TransactionRows(Snapshot())|
      ensures forall t, i | t in TransactionRows(Snapshot()) && t !in Elements(r) && 0 <= i < |r| ::
                t.fields.date <= r[i].fields.date
    {
      var all := ListBy(TransactionRows(Snapshot()), Date, true);
      ListingLength(all, TransactionRows(Snapshot()), Date, true);
      r := if 0 <= limit < |all| then all[..limit] else all;
      forall t, i | t in TransactionRows(Snapshot()) && t !in Elements(r) && 0 <= i < |r|
        ensures t.fields.date <= r[i].fields.date
      {
        var j := IndexOf(all, t);
        assert forall k | 0 <= k < |r| :: r[k] in Elements(r);
        assert Before(Date, true, all[i], all[j]);
      }
    }

    /** `... WHERE type = :type ORDER BY date DESC` */
    method GetTransactionsByType(kind: TransactionType) returns (r: seq<Transaction>)
      ensures IsListing(r, OfType(Snapshot(), kind), Date, true)
    {
      r := ListBy(OfType(Snapshot(), kind), Date, true);
    }

    /** `... WHERE date BETWEEN :startDate AND :endDate ORDER BY date DESC` */
    method GetTransactionsBetweenDates(startDate: int, endDate: int) returns (r: seq<Transaction>)
      ensures IsListing(r, Between(Snapshot(), startDate, endDate), Date, true)
      ensures forall i | 0 <= i < |r| :: startDate <= r[i].fields.date <= endDate
    {
      r := ListBy(Between(Snapshot(), startDate, endDate), Date, true);
      assert forall i | 0 <= i < |r| :: r[i] in Elements(r);
    }

    /**
     * Plain `@Insert`: ABORT on an existing id. SQLite then writes nothing and
     * Room throws `SQLiteConstraintException`; `ok == false` stands for that
     * exception.
     */
    method InsertTransaction(t: Transaction) returns (ok: bool)
      requires Valid()
      modifies this
      ensures Valid()
      ensures ok <==> t.id == 0 || t.id !in old(transactions.rows)
      ensures transactions == if ok then old(transactions).InsertReplace(t) else old(transactions)
      ensures accounts == old(accounts) && upcoming == old(upcoming)
    {
      var res := transactions.InsertAbort(t);
      transactions, ok := res.0, res.1;
    }

    /** `@Delete` */
    method DeleteTransaction(t: Transaction)
      requires Valid()
      modifies this
      ensures Valid()
      ensures transactions == old(transactions).Delete(t)
      ensures accounts == old(accounts) && upcoming == old(upcoming)
    {
      transactions := transactions.Delete(t);
    }

    /** The legacy `getTotalCredit`/`getTotalDebit` by `type`: absent when no row matches. */
    method GetTypeTotal(kind: TransactionType, c: TransactionCategory) returns (r: Option<real>)
      ensures r == TypeTotal(Snapshot(), kind, c)
    {
      r := SumBy(InCategory(OfType(Snapshot(), kind), c), Amount);
    }

    /** `getAccountTotalCredit`/`getAccountTotalDebit`: absent when the account has no such row. */
    method GetAccountTotal(accountId: int, c: TransactionCategory) returns (r: Option<real>)
      ensures r == AccountTotal(Snapshot(), accountId, c)
    {
      r := SumBy(InCategory(OfAccount(Snapshot(), accountId), c), Amount);
    }

    /** `SELECT * FROM transactions`, listed in rowid order. */
    method GetAllTransactionsSync() returns (r: seq<Transaction>)
      ensures IsListing(r, TransactionRows(Snapshot()), Id, false)
    {
      r := ListBy(TransactionRows(Snapshot()), Id, false);
    }

    /** `insertAll` with REPLACE */
    method InsertAllTransactions(ts: seq<Transaction>)
      requires Valid()
      modifies this
      ensures Valid()
      ensures transactions == old(transactions).InsertAll(ts)
      ensures accounts == old(accounts) && upcoming == old(upcoming)
    {
      transactions := transactions.InsertAll(ts);
    }

    /** `DELETE FROM transactions` */
    method DeleteAllTransactions()
      requires Valid()
      modifies this
      ensures Valid()
      ensures transactions == old(transactions).DeleteAll()
      ensures accounts == old(accounts) && upcoming == old(upcoming)
    {
      transactions := transactions.DeleteAll();
    }

    // -------------------------------------------------------------- AccountDao

    /** `SELECT * FROM accounts`, listed in rowid order (the `Flow` and the synchronous query alike). */
    method GetAllAccounts() returns (r: seq<Account>)
      ensures IsListing(r, AccountRows(Snapshot()), Id, false)
    {
      r := ListBy(AccountRows(Snapshot()), Id, false);
    }

    /** `getAccountsWithStats`: one row per account, in rowid order, with its two SUM sub-queries. */
    method GetAccountsWithStats() returns (r: seq<AccountWithStats>)
      requires Valid()
      ensures |r| == |accounts.rows|
      ensures forall i | 0 <= i < |r| :: r[i].id in accounts.rows && r[i] == StatsOf(Snapshot(), accounts.rows[r[i].id])
      ensures forall k | k in accounts.rows :: exists i | 0 <= i < |r| :: r[i].id == k
      ensures forall i, j | 0 <= i < j < |r| :: r[i].id < r[j].id
    {
      var accs := GetAllAccounts();
      IdListing(accounts, accs);
      r := [];
      var i := 0;
      while i < |accs|
        invariant 0 <= i <= |accs| && |r| == i
        invariant forall j | 0 <= j < i :: r[j] == StatsOf(Snapshot(), accs[j])
      {
        var credit := GetAccountTotal(accs[i].id, CREDIT);
        var debit := GetAccountTotal(accs[i].id, DEBIT);
        r := r + [AccountWithStats(accs[i].id, accs[i].fields.name, accs[i].fields.kind, credit, debit)];
        i := i + 1;
      }
    }

    /** `SELECT * FROM accounts WHERE id = :id`: the row, or null. */
    method GetAccountById(id: int) returns (r: Option<Account>)
      requires Valid()
      ensures r.Some? <==> id in accounts.rows
      ensures r.Some? ==> r.value == accounts.rows[id] && r.value.id == id
    {
      r := if id in accounts.rows then Some(accounts.rows[id]) else None;
    }

    /** `@Insert(onConflict = REPLACE)` */
    method InsertAccount(a: Account)
      requires Valid()
      modifies this
      ensures Valid()
      ensures accounts == old(accounts).InsertReplace(a)
      ensures transactions == old(transactions) && upcoming == old(upcoming)
    {
      accounts := accounts.InsertReplace(a);
    }

    /** `@Update` */
    method UpdateAccount(a: Account)
      requires Valid()
      modifies this
      ensures Valid()
      ensures accounts == old(accounts).Update(a)
      ensures transactions == old(transactions) && upcoming == old(upcoming)
    {
      accounts := accounts.Update(a);
    }

    /** `@Delete`: the account only; its transactions stay. */
    method DeleteAccount(a: Account)
      requires Valid()
      modifies this
      ensures Valid()
      ensures accounts == old(accounts).Delete(a)
      ensures transactions == old(transactions) && upcoming == old(upcoming)
    {
      accounts := accounts.Delete(a);
    }

    /** `SELECT COUNT(*) FROM accounts` */
    method GetAccountCount() returns (n: int)
      ensures n == |accounts.rows|
    {
      n := accounts.Count();
    }

    /** `insertAll` with REPLACE */
    method InsertAllAccounts(accs: seq<Account>)
      requires Valid()
      modifies this
      ensures Valid()
      ensures accounts == old(accounts).InsertAll(accs)
      ensures transactions == old(transactions) && upcoming == old(upcoming)
    {
      accounts := accounts.InsertAll(accs);
    }

    /** `DELETE FROM accounts` */
    method DeleteAllAccounts()
      requires Valid()
      modifies this
      ensures Valid()
      ensures accounts == old(accounts).DeleteAll()
      ensures transactions == old(transactions) && upcoming == old(upcoming)
    {
      accounts := accounts.DeleteAll();
    }

    // ------------------------------------------------------------- UpcomingDao

    /** `SELECT * FROM upcoming_items ORDER BY dueDate ASC` */
    method GetAllUpcomingItems() returns (r: seq<UpcomingItem>)
      ensures IsListing(r, UpcomingRows(Snapshot()), DueDate, false)
    {
      r := ListBy(UpcomingRows(Snapshot()), DueDate, false);
    }

    /** `... WHERE type = :type ORDER BY dueDate ASC` */
    method GetUpcomingItemsByType(kind: PlanningType) returns (r: seq<UpcomingItem>)
      ensures IsListing(r, ItemsOfType(Snapshot(), kind), DueDate, false)
    {
      r := ListBy(ItemsOfType(Snapshot(), kind), DueDate, false);
    }

    /** `... WHERE status = 'PENDING' AND dueDate <= :timestamp`, listed in rowid order. */
    method GetDuePendingItems(timestamp: int) returns (r: seq<UpcomingItem>)
      ensures IsListing(r, DuePending(Snapshot(), timestamp), Id, false)
    {
      r := ListBy(DuePending(Snapshot(), timestamp), Id, false);
    }

    /** `@Insert(onConflict = REPLACE)` */
    method InsertUpcomingItem(u: UpcomingItem)
      requires Valid()
      modifies this
      ensures Valid()
      ensures upcoming == old(upcoming).InsertReplace(u)
      ensures accounts == old(accounts) && transactions == old(transactions)
    {
      upcoming := upcoming.InsertReplace(u);
    }

    /** `@Update` */
    method UpdateUpcomingItem(u: UpcomingItem)
      requires Valid()
      modifies this
      ensures Valid()
      ensures upcoming == old(upcoming).Update(u)
      ensures accounts == old(accounts) && transactions == old(transactions)
    {
      upcoming := upcoming.Update(u);
    }

    /** `@Delete` */
    method DeleteUpcomingItem(u: UpcomingItem)
      requires Valid()
      modifies this
      ensures Valid()
      ensures upcoming == old(upcoming).Delete(u)
      ensures accounts == old(accounts) && transactions == old(transactions)
    {
      upcoming := upcoming.Delete(u);
    }

    /** `SELECT * FROM upcoming_items`, listed in rowid order. */
    method GetAllItemsSync() returns (r: seq<UpcomingItem>)
      ensures IsListing(r, UpcomingRows(Snapshot()), Id, false)
    {
      r := ListBy(UpcomingRows(Snapshot()), Id, false);
    }

    /** `insertAll` with REPLACE */
    method InsertAllUpcoming(us: seq<UpcomingItem>)
      requires Valid()
      modifies this
      ensures Valid()
      ensures upcoming == old(upcoming).InsertAll(us)
      ensures accounts == old(accounts) && transactions == old(transactions)
    {
      upcoming := upcoming.InsertAll(us);
    }

    /** `DELETE FROM upcoming_items` */
    method DeleteAllUpcoming()
      requires Valid()
      modifies this
      ensures Valid()
      ensures upcoming == old(upcoming).DeleteAll()
      ensures accounts == old(accounts) && transactions == old(transactions)
    {
      upcoming := upcoming.DeleteAll();
    }
  }
}
