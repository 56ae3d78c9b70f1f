/**
 * The three stored record types (accounts, transactions, upcoming items),
 * their enums, the constructor defaults, and the derived AccountWithStats.
 *
 * Every record is a `Row`: the surrogate key `id` plus the record's other
 * columns. `id == 0` means "not set": the store assigns a key on insert.
 */
module Entities {
  import opened Wrappers

  /** Legacy CASH/BANK tag of a transaction, and the source of an upcoming item. */
  datatype TransactionType = CASH | BANK

  /** Which side of a balance a transaction counts on. */
  datatype TransactionCategory = CREDIT | DEBIT

  datatype PlanningType = INCOME | PAYMENT

  datatype PlanningStatus = PENDING | COMPLETED | DELAYED

  /** A stored record: its primary key and the remaining columns. */
  datatype Row<D> = Row(id: int, fields: D)

  /** Columns of `accounts`. `kind` is the free-form `type` string; `balance` is a stored column. */
  datatype AccountFields = AccountFields(name: string, kind: string, balance: real)

  /** Columns of `transactions`; `kind` is the legacy CASH/BANK `type` column. */
  datatype TransactionFields = TransactionFields(
    kind: TransactionType,
    category: TransactionCategory,
    amount: real,
    date: int,
    description: string,
    accountId: int)

  /** Columns of `upcoming_items`; `kind` is the INCOME/PAYMENT `type` column. */
  datatype UpcomingFields = UpcomingFields(
    kind: PlanningType,
    amount: real,
    dueDate: int,
    description: string,
    sourceOrDest: TransactionType,
    status: PlanningStatus)

  type Account = Row<AccountFields>
  type Transaction = Row<TransactionFields>
  type UpcomingItem = Row<UpcomingFields>

  /** `Account(id = 0, name, type, balance = 0.0)`. */
  function NewAccount(name: string, kind: string, balance: real := 0.0, id: int := 0): Account {
    Row(id, AccountFields(name, kind, balance))
  }

  /** `Transaction(id = 0, type, category, amount, date, description, accountId = 1)`. */
  function NewTransaction(kind: TransactionType, category: TransactionCategory, amount: real, date: int,
                          description: string, accountId: int := 1, id: int := 0): Transaction {
    Row(id, TransactionFields(kind, category, amount, date, description, accountId))
  }

  /** `UpcomingItem(id = 0, type, amount, dueDate, description, sourceOrDest, status = PENDING)`. */
  function NewUpcomingItem(kind: PlanningType, amount: real, dueDate: int, description: string,
                           sourceOrDest: TransactionType, status: PlanningStatus := PENDING,
                           id: int := 0): UpcomingItem {
    Row(id, UpcomingFields(kind, amount, dueDate, description, sourceOrDest, status))
  }

  /** The defaults the constructors fill in when the caller leaves them out. */
  lemma ConstructorDefaults(name: string, kind: string, t: TransactionType, c: TransactionCategory,
                            p: PlanningType, amount: real, date: int, description: string)
    ensures NewAccount(name, kind).id == 0 && NewAccount(name, kind).fields.balance == 0.0
    ensures NewTransaction(t, c, amount, date, description).id == 0
    ensures NewTransaction(t, c, amount, date, description).fields.accountId == 1
    ensures NewUpcomingItem(p, amount, date, description, t).id == 0
    ensures NewUpcomingItem(p, amount, date, description, t).fields.status == PENDING
  {
  }

  /** A missing SQL SUM read as zero (`?: 0.0`). */
  function OrZero(total: Option<real>): real {
    total.GetOr(0.0)
  }

  /** One row of the accounts-with-stats query: the account and its two SUM aggregates. */
  datatype AccountWithStats = AccountWithStats(
    id: int,
    name: string,
    kind: string,
    totalCredit: Option<real>,
    totalDebit: Option<real>)
  {
    /** The derived balance, recomputed from the two totals on every read. */
    function Balance(): real {
      OrZero(totalCredit) - OrZero(totalDebit)
    }
  }

  /** An absent total reads as 0: the balance is the same as with a total of exactly 0. */
  lemma AbsentTotalIsZero(s: AccountWithStats)
    ensures s.totalCredit.None? && s.totalDebit.None? ==> s.Balance() == 0.0
    ensures s.totalCredit.None? ==> s.Balance() == s.(totalCredit := Some(0.0)).Balance()
    ensures s.totalDebit.None? ==> s.Balance() == s.(totalDebit := Some(0.0)).Balance()
    ensures s.Balance() == s.(totalCredit := Some(OrZero(s.totalCredit)), totalDebit := Some(OrZero(s.totalDebit))).Balance()
  {
  }
}
