# Finvovo ledger core in Dafny

Finvovo is a local personal-ledger app for Android. This project models its
sequential core and proves properties of that model:

- **Ledger store.** Three Room tables (accounts, transactions, upcoming items),
  each with its AUTOINCREMENT id counter. The three DAOs' inserts, updates,
  deletes, `deleteAll`/`insertAll` and queries are modelled: date ordering,
  filters, inclusive ranges, and `SUM` aggregates that are null over no rows.
- **`DataRepository` rules.** Per-account and total balances, idempotent
  default-account seeding, non-cascading account deletion, the PENDING-only
  planning views, and "mark processed".
- **`BackupManager`.** Export to a structured JSON document. Import parses
  everything first, then replaces all three tables in one transaction.
- **`ReminderWorker`.** The today/tomorrow classification and the loop that
  posts reminders.
- **Screen state machines.** The Ask-AI date-range selector, two-step PIN
  setup, the lock screen and its recovery check, the setup wizard, the
  activity's routing and resume-lock rule, the preference store with its
  defaults, the add-transaction, planning and account dialogs, the home search
  and account cards, the transaction list with its day sections, and the
  currency selector.

Modelling choices:

- Amounts are `real`; ids and timestamps are `int`.
- Enums are Dafny datatypes, and the converters are encode/decode functions
  whose decoding fails on unknown names.
- The start of a local day is computed for a fixed zone offset. Its properties
  are proved: never later than its input, within one day of it, idempotent,
  and monotone.
- Clocks, the zone offset, opened streams, PDF generation results and
  biometric availability are parameters.
- `Double.toString` is a parameter `amountText` of the search filters.

Modules follow the source:

| file | models |
|---|---|
| `wrappers.dfy` | `Option` / `Result` |
| `clock.dfy` | start of day |
| `text.dfy` | blank, digit, number-text and ignore-case checks; `toDoubleOrNull` on the digits-and-dot alphabet |
| `entities.dfy` | the records and their defaults; `AccountWithStats` |
| `converters.dfy` | the Room type converters |
| `lists.dfy` | `filter`, subsequences, `groupBy` |
| `tables.dfy` | one SQLite table; `SUM`; ordered listings |
| `database.dfy` | the three DAOs |
| `repository.dfy` | `DataRepository` |
| `backup.dfy` | `BackupManager` |
| `reminders.dfy` | `ReminderWorker` |
| `askai.dfy` | `AskAIViewModel` |
| `pinsetup.dfy` | the PIN setup screen |
| `lockscreen.dfy` | the lock screen and the forgot-password dialog |
| `setup.dfy` | the setup wizard |
| `mainactivity.dfy` | `MainActivity` |
| `addtransaction.dfy` | the add-transaction screen |
| `planning.dfy` | the planning screen and its dialog |
| `accountdialog.dfy` | the add/edit account dialogs |
| `home.dfy` | the home screen |
| `transactionlist.dfy` | the transaction list screen |
| `currency.dfy` | the currency selector |
| `preferences.dfy` | `PreferenceManager` |

Where the app's own texts and comments say one thing and its code does
another, the model follows the code:

- Deleting an account leaves its transactions in place, although the
  confirmation dialog says they are deleted too (app/src/main/java/com/example/finvovo/ui/home/HomeScreen.kt:280;
  `Home.HomeScreen.OnDeleteConfirm`).
- The setup wizard's initial currency symbol is the mis-encoded three-character
  text `"â‚¹"`, although the line's comment calls it the default, which is `"₹"`
  (app/src/main/java/com/example/finvovo/ui/setup/SetupScreen.kt:44; `Setup.InitialSymbolIsNotDefault`).
- A missing `accountId` in an imported transaction reads as 0 through `optInt`
  (app/src/main/java/com/example/finvovo/data/BackupManager.kt:144), not as the entity default 1 declared at app/src/main/java/com/example/finvovo/data/model/Transaction.kt:23
  (`Backup.DecodeTransaction`).
- The Home screen builds its edit/delete targets as `Account(id, name, type)`
  (app/src/main/java/com/example/finvovo/ui/home/HomeScreen.kt:158). The edited copy therefore carries balance 0.0, so an update
  overwrites the stored balance with 0 (`Home.CardOf`,
  `AccountDialog.EditAccountDialog.OnConfirm`).
- Setup completion credits the opening balances to accounts 1 and 2 by fixed
  id, which the comments name Cash and Bank (app/src/main/java/com/example/finvovo/MainActivity.kt:123-124). Those are the
  seeded Cash and Bank accounts only when the id counter starts fresh
  (`Main.OpeningAccountsOnFreshDatabase`).

## Model

| member | source | states |
|---|---|---|
| `Entities.ConstructorDefaults` | app/src/main/java/com/example/finvovo/data/model/Transaction.kt:16-24 | records built without id have id 0; a transaction without `accountId` belongs to account 1; an account's balance defaults to 0.0; an upcoming item's status defaults to PENDING |
| `Entities.AbsentTotalIsZero` | app/src/main/java/com/example/finvovo/data/model/AccountWithStats.kt:7-11 | the derived balance is 0 with both totals absent, and an absent total gives the same balance as a total of 0 |
| `Converters.ToTransactionType` | app/src/main/java/com/example/finvovo/data/Converters.kt:10-11 | decoding succeeds exactly on "CASH" and "BANK", and what it decodes encodes back to the same name |
| `Converters.ToTransactionCategory` | app/src/main/java/com/example/finvovo/data/Converters.kt:16-17 | decoding succeeds exactly on "CREDIT" and "DEBIT", and round-trips to the same name |
| `Converters.ToPlanningType` | app/src/main/java/com/example/finvovo/data/Converters.kt:22-23 | decoding succeeds exactly on "INCOME" and "PAYMENT", and round-trips to the same name |
| `Converters.ToPlanningStatus` | app/src/main/java/com/example/finvovo/data/Converters.kt:28-29 | decoding succeeds exactly on "PENDING", "COMPLETED" and "DELAYED", and round-trips to the same name |
| `Converters.DecodeEncode` | app/src/main/java/com/example/finvovo/data/Converters.kt:7-29 | decoding the encoding of every constant of the four enums gives that constant back |
| `Converters.EncodingInjective` | app/src/main/java/com/example/finvovo/data/Converters.kt:8-26 | distinct constants have distinct names, so enums are stored by name |
| `Tables.Table.AssignedId` | app/src/main/java/com/example/finvovo/data/model/Account.kt:8 | id 0 receives a fresh key not yet in the table; any other id is kept |
| `Tables.Table.InsertReplace` | app/src/main/java/com/example/finvovo/data/AccountDao.kt:29-30 | REPLACE insert: the key set gains the assigned key, the row there is the new one, every other row is unchanged, the counter never decreases |
| `Tables.Table.InsertAbort` | app/src/main/java/com/example/finvovo/data/TransactionDao.kt:31-32 | plain insert succeeds iff the id is 0 or absent; on success it is the REPLACE insert, otherwise the table is unchanged |
| `Tables.Table.Update` | app/src/main/java/com/example/finvovo/data/AccountDao.kt:32-33 | only the row with the same id is replaced; an absent id changes nothing; keys and counter unchanged |
| `Tables.Table.Delete` | app/src/main/java/com/example/finvovo/data/AccountDao.kt:35-36 | exactly the key of the argument's id is removed and every other row is unchanged |
| `Tables.Table.DeleteAll` | app/src/main/java/com/example/finvovo/data/TransactionDao.kt:58-59 | no rows remain and the AUTOINCREMENT counter is kept |
| `Tables.Table.InsertAll` | app/src/main/java/com/example/finvovo/data/TransactionDao.kt:55-56 | REPLACE inserts in list order: the table stays valid and keeps every earlier key |
| `Tables.Table.Count` | app/src/main/java/com/example/finvovo/data/AccountDao.kt:39-40 | the number of rows |
| `Tables.RestoreSame` | app/src/main/java/com/example/finvovo/data/AccountDao.kt:46-50 | `deleteAll` then `insertAll` of a table's own rows gives back the same rows |
| `Tables.RestoreInto` | app/src/main/java/com/example/finvovo/data/AccountDao.kt:46-50 | `deleteAll` then `insertAll(xs)`, where xs lists the rows of a valid table t (distinct nonzero ids, each under its own key), leaves exactly t's rows on any table |
| `Tables.InsertAllFresh` | app/src/main/java/com/example/finvovo/data/AccountDao.kt:46-50 | REPLACE inserts of id-less rows into an empty table: the row at list position i lands under key next + i, no other key exists, and the counter advances by the number of rows |
| `Tables.InsertAllFreshKeys` | app/src/main/java/com/example/finvovo/data/AccountDao.kt:46-50 | REPLACE inserts of id-less rows into any valid table keep its rows and keys, add exactly the keys next to next + (length of rs) − 1, with the row at list position i under next + i, and advance the counter by the length of rs |
| `Tables.InsertAllKeys` | app/src/main/java/com/example/finvovo/data/AccountDao.kt:46-50 | REPLACE inserts of any rows: every nonzero id is a key afterwards, every new key is a listed id or at least the old counter, and the table grows by at most one row per insert |
| `Tables.RestoreListed` | app/src/main/java/com/example/finvovo/data/AccountDao.kt:46-50 | `deleteAll` then `insertAll` of rows that all carry an id leaves exactly those rows keyed by id, a later row with the same id replacing an earlier one |
| `Tables.RestoreFresh` | app/src/main/java/com/example/finvovo/data/AccountDao.kt:46-50 | `deleteAll` then `insertAll` of id-less rows gives them distinct fresh keys from the old counter on, in list order |
| `Tables.RestoreKeysOf` | app/src/main/java/com/example/finvovo/data/AccountDao.kt:46-50 | `deleteAll` then `insertAll` of any rows: ids kept, other keys fresh, no more rows than listed |
| `Tables.SumOrNull` | app/src/main/java/com/example/finvovo/data/TransactionDao.kt:45-49 | `SUM` is null over no rows and the sum of the amounts otherwise |
| `Tables.SumBy` | app/src/main/java/com/example/finvovo/data/TransactionDao.kt:45-49 | the loop that adds up the rows computes `SumOrNull` |
| `Tables.SumOfUnion` | app/src/main/java/com/example/finvovo/data/DataRepository.kt:100-109 | the sum over a disjoint union is the sum of the two sums |
| `Tables.SeqSumIsSumOf` | app/src/main/java/com/example/finvovo/data/DataRepository.kt:105-106 | `sumOf` over a duplicate-free list equals the sum over its set of elements |
| `Tables.ListBy` | app/src/main/java/com/example/finvovo/data/TransactionDao.kt:14-15 | `ORDER BY`: a duplicate-free list of exactly the selected rows, sorted by the key; tie order unspecified |
| `Tables.ListingLength` | app/src/main/java/com/example/finvovo/data/TransactionDao.kt:14-15 | a listing has as many entries as the selection has rows |
| `Tables.FilterListing` | app/src/main/java/com/example/finvovo/data/DataRepository.kt:121-127 | filtering a listing gives a listing of the filtered selection, in the same order |
| `Tables.FilterOrdered` | app/src/main/java/com/example/finvovo/ui/transactions/TransactionListScreen.kt:52-61 | filtering keeps a list sorted |
| `Database.LedgerDatabase.GetAllTransactions` | app/src/main/java/com/example/finvovo/data/TransactionDao.kt:14-15 | every transaction once, date non-increasing |
| `Database.LedgerDatabase.constructor` | app/src/main/java/com/example/finvovo/data/AppDatabase.kt:9-21 | a new database holds three empty tables |
| `Database.LedgerDatabase.GetTransactionsByAccount` | app/src/main/java/com/example/finvovo/data/TransactionDao.kt:18-19 | exactly the rows with that `accountId`, date non-increasing |
| `Database.LedgerDatabase.GetRecentTransactions` | app/src/main/java/com/example/finvovo/data/TransactionDao.kt:21-22 | `min(limit, rows)` rows (all of them for a negative limit), date non-increasing, and no omitted row is later than a returned one |
| `Database.LedgerDatabase.GetTransactionsByType` | app/src/main/java/com/example/finvovo/data/TransactionDao.kt:24-25 | exactly the rows of that legacy type, date non-increasing |
| `Database.LedgerDatabase.GetTransactionsBetweenDates` | app/src/main/java/com/example/finvovo/data/TransactionDao.kt:28-29 | exactly the rows with start ≤ date ≤ end, both ends included, date non-increasing |
| `Database.LedgerDatabase.InsertTransaction` | app/src/main/java/com/example/finvovo/data/TransactionDao.kt:31-32 | ABORT insert: succeeds iff the id is 0 or free; the other tables are unchanged |
| `Database.LedgerDatabase.DeleteTransaction` | app/src/main/java/com/example/finvovo/data/TransactionDao.kt:34-35 | removes only the row with that id |
| `Database.LedgerDatabase.GetTypeTotal` | app/src/main/java/com/example/finvovo/data/TransactionDao.kt:38-42 | the legacy SUM by type and category, null when no row matches |
| `Database.LedgerDatabase.GetAccountTotal` | app/src/main/java/com/example/finvovo/data/TransactionDao.kt:45-49 | the SUM of the account's rows of one category, null when it has none |
| `Database.LedgerDatabase.GetAllTransactionsSync` | app/src/main/java/com/example/finvovo/data/TransactionDao.kt:52-53 | every transaction once |
| `Database.LedgerDatabase.InsertAllTransactions` | app/src/main/java/com/example/finvovo/data/TransactionDao.kt:55-56 | REPLACE inserts of the list; the other tables unchanged |
| `Database.LedgerDatabase.DeleteAllTransactions` | app/src/main/java/com/example/finvovo/data/TransactionDao.kt:58-59 | the transactions table emptied, counter kept |
| `Database.LedgerDatabase.GetAllAccounts` | app/src/main/java/com/example/finvovo/data/AccountDao.kt:10-11 | every account once |
| `Database.LedgerDatabase.GetAccountsWithStats` | app/src/main/java/com/example/finvovo/data/AccountDao.kt:14-23 | one row per account, each with its name, type and its own CREDIT/DEBIT sums (null if none) |
| `Database.OrphanInNoStats` | app/src/main/java/com/example/finvovo/data/AccountDao.kt:14-23 | a transaction naming no existing account is in no account's sums |
| `Database.LedgerDatabase.GetAccountById` | app/src/main/java/com/example/finvovo/data/AccountDao.kt:26-27 | the row with that id, or null iff there is none |
| `Database.LedgerDatabase.InsertAccount` | app/src/main/java/com/example/finvovo/data/AccountDao.kt:29-30 | REPLACE insert into accounts only |
| `Database.LedgerDatabase.UpdateAccount` | app/src/main/java/com/example/finvovo/data/AccountDao.kt:32-33 | update by id in accounts only |
| `Database.LedgerDatabase.DeleteAccount` | app/src/main/java/com/example/finvovo/data/AccountDao.kt:35-36 | removes the account and leaves the transactions table untouched |
| `Database.LedgerDatabase.GetAccountCount` | app/src/main/java/com/example/finvovo/data/AccountDao.kt:39-40 | the number of account rows |
| `Database.LedgerDatabase.InsertAllAccounts` | app/src/main/java/com/example/finvovo/data/AccountDao.kt:46-47 | REPLACE inserts into accounts only |
| `Database.LedgerDatabase.DeleteAllAccounts` | app/src/main/java/com/example/finvovo/data/AccountDao.kt:49-50 | the accounts table emptied |
| `Database.LedgerDatabase.GetAllUpcomingItems` | app/src/main/java/com/example/finvovo/data/UpcomingDao.kt:15-16 | every item once, dueDate non-decreasing |
| `Database.LedgerDatabase.GetUpcomingItemsByType` | app/src/main/java/com/example/finvovo/data/UpcomingDao.kt:18-19 | exactly the items of that type, dueDate non-decreasing |
| `Database.LedgerDatabase.GetDuePendingItems` | app/src/main/java/com/example/finvovo/data/UpcomingDao.kt:21-22 | exactly the PENDING items with dueDate ≤ the timestamp |
| `Database.LedgerDatabase.InsertUpcomingItem` | app/src/main/java/com/example/finvovo/data/UpcomingDao.kt:24-25 | REPLACE insert into upcoming items only |
| `Database.LedgerDatabase.UpdateUpcomingItem` | app/src/main/java/com/example/finvovo/data/UpcomingDao.kt:27-28 | update by id in upcoming items only |
| `Database.LedgerDatabase.DeleteUpcomingItem` | app/src/main/java/com/example/finvovo/data/UpcomingDao.kt:30-31 | removes only that item |
| `Database.LedgerDatabase.GetAllItemsSync` | app/src/main/java/com/example/finvovo/data/UpcomingDao.kt:34-35 | every item once |
| `Database.LedgerDatabase.InsertAllUpcoming` | app/src/main/java/com/example/finvovo/data/UpcomingDao.kt:37-38 | REPLACE inserts into upcoming items only |
| `Database.LedgerDatabase.DeleteAllUpcoming` | app/src/main/java/com/example/finvovo/data/UpcomingDao.kt:40-41 | the upcoming items table emptied |
| `Repository.Seeded` | app/src/main/java/com/example/finvovo/data/DataRepository.kt:20-30 | a non-empty table is unchanged; an empty one gains exactly ("Cash", "Cash") and ("Bank Account", "Bank") with balance 0.0 |
| `Repository.DataRepository.constructor` | app/src/main/java/com/example/finvovo/data/DataRepository.kt:10-14 | the repository works on the given database |
| `Repository.SeedingIdempotent` | app/src/main/java/com/example/finvovo/data/DataRepository.kt:20-30 | seeding twice equals seeding once |
| `Repository.DataRepository.InitDefaultAccounts` | app/src/main/java/com/example/finvovo/data/DataRepository.kt:20-30 | the count check then inserts give `Seeded`; the other tables unchanged |
| `Repository.DataRepository.AddAccount` | app/src/main/java/com/example/finvovo/data/DataRepository.kt:32-36 | a REPLACE insert of the account |
| `Repository.DataRepository.UpdateAccount` | app/src/main/java/com/example/finvovo/data/DataRepository.kt:38-42 | an update by id |
| `Repository.DataRepository.DeleteAccount` | app/src/main/java/com/example/finvovo/data/DataRepository.kt:44-50 | removes only the account; its transactions stay and the total balance is unchanged |
| `Repository.DataRepository.AddTransaction` | app/src/main/java/com/example/finvovo/data/DataRepository.kt:70-74 | a plain insert: refused on a taken id; a fresh transaction moves the total balance by exactly its signed amount |
| `Repository.InsertFreshAddsSigned` | app/src/main/java/com/example/finvovo/data/DataRepository.kt:70-74 | inserting a transaction with id 0 adds its signed amount to the total balance |
| `Repository.DataRepository.DeleteTransaction` | app/src/main/java/com/example/finvovo/data/DataRepository.kt:76-80 | removes that transaction only |
| `Repository.DataRepository.GetAccountBalance` | app/src/main/java/com/example/finvovo/data/DataRepository.kt:83-90 | credit minus debit with absent sums as 0, which equals the signed sum of exactly that account's transactions |
| `Repository.AccountBalanceIsSignedSum` | app/src/main/java/com/example/finvovo/data/DataRepository.kt:83-90 | an account's balance is the signed sum of its own transactions |
| `Repository.DataRepository.GetAccountCategoryTotal` | app/src/main/java/com/example/finvovo/data/DataRepository.kt:92-96 | the account's total of one category, 0 when it has none |
| `Repository.DataRepository.GetTotalBalance` | app/src/main/java/com/example/finvovo/data/DataRepository.kt:100-109 | the list computation equals CREDIT sum minus DEBIT sum over all transactions, whatever account they name |
| `Repository.ListBalanceOfListing` | app/src/main/java/com/example/finvovo/data/DataRepository.kt:105-108 | filtering and `sumOf` on any listing of a set gives that set's credit-minus-debit balance |
| `Repository.SignedSplit` | app/src/main/java/com/example/finvovo/data/DataRepository.kt:105-108 | the signed sum is the credit sum minus the debit sum |
| `Repository.TotalIsSumOfAccountBalances` | app/src/main/java/com/example/finvovo/data/DataRepository.kt:83-109 | when every transaction names a live account, the total balance is the sum of the per-account balances |
| `Repository.PartitionByAccount` | app/src/main/java/com/example/finvovo/data/DataRepository.kt:83-109 | the balance of the transactions of a set of accounts is the sum of their account balances |
| `Repository.DataRepository.GetBalance` | app/src/main/java/com/example/finvovo/data/DataRepository.kt:112-116 | the legacy type balance is the signed sum of the transactions of that type |
| `Repository.DataRepository.GetUpcomingByType` | app/src/main/java/com/example/finvovo/data/DataRepository.kt:121-127 | exactly the PENDING items of that type, dueDate order |
| `Repository.DataRepository.GetDuePlanningItems` | app/src/main/java/com/example/finvovo/data/DataRepository.kt:129-132 | exactly the PENDING items with dueDate ≤ now + 86 400 000 |
| `Repository.DataRepository.AddUpcomingItem` | app/src/main/java/com/example/finvovo/data/DataRepository.kt:134-145 | a REPLACE insert of the item |
| `Repository.DataRepository.DeleteUpcomingItem` | app/src/main/java/com/example/finvovo/data/DataRepository.kt:147-151 | removes that item only |
| `Repository.DataRepository.MarkUpcomingAsProcessed` | app/src/main/java/com/example/finvovo/data/DataRepository.kt:154-162 | only the status becomes COMPLETED, no other field or row changes, no transaction is added, and the item leaves its type's pending list |
| `Repository.MarkedLeavesPending` | app/src/main/java/com/example/finvovo/data/DataRepository.kt:154-162 | after marking a stored item, every type's pending set is the old one minus exactly that item |
| `Backup.Truncate` | app/src/main/java/com/example/finvovo/data/BackupManager.kt:142 | a double read as a long is rounded toward zero |
| `Backup.EncodeAll` | app/src/main/java/com/example/finvovo/data/BackupManager.kt:41-81 | one JSON object per row, in order |
| `Backup.EncodeRows` | app/src/main/java/com/example/finvovo/data/BackupManager.kt:41-50 | the `forEach` loop builds exactly `EncodeAll` |
| `Backup.ExportData` | app/src/main/java/com/example/finvovo/data/BackupManager.kt:29-94 | true unless the write throws; with an opened stream the document written is the export of the current store (version 1, every row of every table once, enums by name) |
| `Backup.DecodeAccount` | app/src/main/java/com/example/finvovo/data/BackupManager.kt:120-128 | succeeds iff name, balance and type are present and well-typed; a missing id reads as 0 |
| `Backup.DecodeTransaction` | app/src/main/java/com/example/finvovo/data/BackupManager.kt:135-146 | succeeds iff the required fields are present and the enum names are constants; missing id and accountId read as 0 |
| `Backup.DecodeItem` | app/src/main/java/com/example/finvovo/data/BackupManager.kt:153-167 | succeeds iff every field but id is present and the three enum names are constants |
| `Backup.ParseEach` | app/src/main/java/com/example/finvovo/data/BackupManager.kt:119-129 | an array parses iff every element decodes, into the decoded elements in order |
| `Backup.ParseRows` | app/src/main/java/com/example/finvovo/data/BackupManager.kt:117-130 | the loop computes `ParseEach` |
| `Backup.ParseOptionalRows` | app/src/main/java/com/example/finvovo/data/BackupManager.kt:113-118 | a missing array parses as empty |
| `Backup.ParseBackup` | app/src/main/java/com/example/finvovo/data/BackupManager.kt:99-169 | an unreadable input or a non-object root fails; otherwise it succeeds iff all three optional arrays parse, and then holds exactly their rows |
| `Backup.Restore` | app/src/main/java/com/example/finvovo/data/BackupManager.kt:172-180 | the store after the replacement is again a valid store, each counter above every key (its rows are stated by the lemmas below) |
| `Backup.RestoreWithIds` | app/src/main/java/com/example/finvovo/data/BackupManager.kt:172-180 | any parsed backup whose records all carry an id: each table holds exactly its array's records keyed by id, a later duplicate id winning |
| `Backup.RestoreWithoutIds` | app/src/main/java/com/example/finvovo/data/BackupManager.kt:172-180 | any parsed backup whose records carry no id: the record at position i of each array lands under the fresh key next + i of its table's old counter, and nothing else remains |
| `Backup.RestoreKeys` | app/src/main/java/com/example/finvovo/data/BackupManager.kt:172-180 | any parsed backup: every record id is restored as a key, every other key is at least the table's old counter, and no table has more rows than its array had records |
| `Backup.ImportData` | app/src/main/java/com/example/finvovo/data/BackupManager.kt:96-187 | true iff everything parses; then the store is the restore of the parsed rows; otherwise the store is unchanged |
| `Backup.DecodeEncodeAccount` | app/src/main/java/com/example/finvovo/data/BackupManager.kt:43-47 | an exported account imports back as itself |
| `Backup.DecodeEncodeTransaction` | app/src/main/java/com/example/finvovo/data/BackupManager.kt:56-63 | an exported transaction imports back as itself |
| `Backup.DecodeEncodeItem` | app/src/main/java/com/example/finvovo/data/BackupManager.kt:71-78 | an exported upcoming item imports back as itself |
| `Backup.ParseDocument` | app/src/main/java/com/example/finvovo/data/BackupManager.kt:110-169 | parsing an exported document gives back the three row lists it was built from |
| `Backup.ExportImportRoundTrip` | app/src/main/java/com/example/finvovo/data/BackupManager.kt:29-187 | importing what export wrote restores the very same store |
| `Backup.ImportIntoOtherStore` | app/src/main/java/com/example/finvovo/data/BackupManager.kt:172-180 | importing an export of one store into any other store leaves exactly the exported rows |
| `Backup.VersionIgnored` | app/src/main/java/com/example/finvovo/data/BackupManager.kt:110-115 | the version field is never read on import |
| `Backup.MissingArraysReadAsEmpty` | app/src/main/java/com/example/finvovo/data/BackupManager.kt:113-118 | a root without the three arrays imports as an empty store |
| `Backup.BadAccountFailsImport` | app/src/main/java/com/example/finvovo/data/BackupManager.kt:120-127 | one undecodable account anywhere makes the whole import fail |
| `Clock.StartOfDay` | app/src/main/java/com/example/finvovo/ui/askai/AskAIViewModel.kt:67-75 | a local midnight, never later than its input and less than one day earlier |
| `Clock.StartOfDayCharacterized` | app/src/main/java/com/example/finvovo/ui/askai/AskAIViewModel.kt:67-75 | two instants share a day start exactly when they fall in the same local day |
| `Clock.StartOfDayIdempotent` | app/src/main/java/com/example/finvovo/ui/askai/AskAIViewModel.kt:67-75 | the start of a day start is itself |
| `Clock.StartOfDayMonotone` | app/src/main/java/com/example/finvovo/notification/ReminderWorker.kt:35-41 | a later time never has an earlier day start |
| `Clock.NextDayStart` | app/src/main/java/com/example/finvovo/notification/ReminderWorker.kt:32 | one day later has the day start one day later |
| `Reminders.Classify` | app/src/main/java/com/example/finvovo/notification/ReminderWorker.kt:43-57 | a notification iff the due day is today or tomorrow; today's has id `item.id` and a "Today" title, tomorrow's id `item.id + 100000` and a "Tomorrow" title |
| `Reminders.Notifications` | app/src/main/java/com/example/finvovo/notification/ReminderWorker.kt:34-58 | the loop posts at most one notification per item |
| `Reminders.ClassifyWindow` | app/src/main/java/com/example/finvovo/notification/ReminderWorker.kt:25-57 | an item is reminded iff its due time lies in [today's midnight, two midnights later) |
| `Reminders.NotificationsExact` | app/src/main/java/com/example/finvovo/notification/ReminderWorker.kt:34-58 | every notification comes from a PENDING item's classification, and every PENDING item due today or tomorrow yields one |
| `Reminders.OnlyPendingNotify` | app/src/main/java/com/example/finvovo/notification/ReminderWorker.kt:22-23 | items none of which is PENDING yield no notification |
| `Reminders.PendingFilterInvisible` | app/src/main/java/com/example/finvovo/notification/ReminderWorker.kt:23 | filtering to PENDING first changes nothing about what is posted |
| `Reminders.DoWork` | app/src/main/java/com/example/finvovo/notification/ReminderWorker.kt:17-61 | always success; the posted notifications are those of the dueDate-ordered list of all items |
| `AskAI.PackageNamesDistinct` | app/src/main/java/com/example/finvovo/ui/askai/AskAIViewModel.kt:22-27 | the three models share to three different packages |
| `AskAI.PackageName` | app/src/main/java/com/example/finvovo/ui/askai/AskAIViewModel.kt:22-27 | each model opens one of the three assistant packages |
| `AskAI.WholeDaysRange` | app/src/main/java/com/example/finvovo/ui/askai/AskAIViewModel.kt:105-107 | a time is in [start, end + 86 400 000 − 1] iff its day lies between the two selected days |
| `AskAI.AskAIViewModel.constructor` | app/src/main/java/com/example/finvovo/ui/askai/AskAIViewModel.kt:38-52 | no dates, ChatGPT selected, not loading |
| `AskAI.AskAIViewModel.SetStartDate` | app/src/main/java/com/example/finvovo/ui/askai/AskAIViewModel.kt:54-61 | the start is the day start of the date; the end is cleared iff it was set and earlier |
| `AskAI.AskAIViewModel.SetEndDate` | app/src/main/java/com/example/finvovo/ui/askai/AskAIViewModel.kt:63-65 | the end is the day start of the date; start unchanged, no ordering check |
| `AskAI.AskAIViewModel.SetSelectedModel` | app/src/main/java/com/example/finvovo/ui/askai/AskAIViewModel.kt:77-79 | only the model changes |
| `AskAI.AskAIViewModel.OnAskAIClicked` | app/src/main/java/com/example/finvovo/ui/askai/AskAIViewModel.kt:81-128 | exactly one event; a missing date or start > end is an error with no query; otherwise the exported list is the inclusive whole-day range, an empty result or failed PDF is an error, and loading ends false |
| `PinSetup.PinSetupScreen.OnNumberClick` | app/src/main/java/com/example/finvovo/ui/security/PinSetupScreen.kt:75-95 | the error clears; step 1 appends below 4 digits and moves on at 4; a complete matching confirmation reports the PIN; a mismatch sets the error, clears both and returns to step 1 |
| `PinSetup.PinSetupScreen.constructor` | app/src/main/java/com/example/finvovo/ui/security/PinSetupScreen.kt:21-24 | step 1 with both entries empty and no error |
| `PinSetup.PinSetupScreen.OnDeleteClick` | app/src/main/java/com/example/finvovo/ui/security/PinSetupScreen.kt:96-103 | the error clears and the current step's buffer loses its last digit; the step never changes |
| `PinSetup.DropLast` | app/src/main/java/com/example/finvovo/ui/security/PinSetupScreen.kt:99 | the input without its last character; empty stays empty |
| `LockScreen.LockScreenState.OnNumberClick` | app/src/main/java/com/example/finvovo/ui/security/LockScreen.kt:244-249 | a digit is appended only below 4 digits and clears the error; the fourth digit unlocks iff the PIN is correct |
| `LockScreen.LockScreenState.constructor` | app/src/main/java/com/example/finvovo/ui/security/LockScreen.kt:49-57 | an empty entry, no error, the stored PIN and both biometric flags kept |
| `LockScreen.LockScreenState.VerifyPin` | app/src/main/java/com/example/finvovo/ui/security/LockScreen.kt:63-74 | at length 4 the correct PIN unlocks; a wrong one sets "Incorrect PIN" and clears the entry |
| `LockScreen.LockScreenState.OnDeleteClick` | app/src/main/java/com/example/finvovo/ui/security/LockScreen.kt:250-253 | the error clears and the last digit, if any, is dropped |
| `LockScreen.LockScreenState.StartsBiometricPrompt` | app/src/main/java/com/example/finvovo/ui/security/LockScreen.kt:107-114 | the prompt starts iff biometrics are enabled in both places and the device can authenticate |
| `LockScreen.LockScreenState.ShowsBiometricButton` | app/src/main/java/com/example/finvovo/ui/security/LockScreen.kt:260 | the button shows iff both flags hold |
| `LockScreen.RecoveryDialogFor` | app/src/main/java/com/example/finvovo/ui/security/LockScreen.kt:283-307 | "Recovery Unavailable" iff no security question is stored; otherwise the reset dialog shows the stored question |
| `LockScreen.AnswerMatches` | app/src/main/java/com/example/finvovo/ui/security/LockScreen.kt:334 | accepted iff an answer is stored and equals the given one ignoring case |
| `LockScreen.ForgotPasswordDialog.OnVerify` | app/src/main/java/com/example/finvovo/ui/security/LockScreen.kt:333-339 | success iff the answer matches ignoring case; otherwise the error message is set |
| `LockScreen.ForgotPasswordDialog.constructor` | app/src/main/java/com/example/finvovo/ui/security/LockScreen.kt:278-280 | an empty answer and no error |
| `LockScreen.ForgotPasswordDialog.OnAnswerChange` | app/src/main/java/com/example/finvovo/ui/security/LockScreen.kt:313-314 | only the answer changes |
| `Setup.OpeningAmount` | app/src/main/java/com/example/finvovo/ui/setup/SetupScreen.kt:118-119 | the parsed balance, 0 for unparseable text, never negative |
| `Setup.InitialSymbolIsNotDefault` | app/src/main/java/com/example/finvovo/ui/setup/SetupScreen.kt:44 | the wizard's initial symbol differs from the preference default "₹" |
| `Setup.SetupWizard.constructor` | app/src/main/java/com/example/finvovo/ui/setup/SetupScreen.kt:37-53 | step 1, empty fields, initial symbol |
| `Setup.SetupWizard.OnCurrencySelected` | app/src/main/java/com/example/finvovo/ui/setup/SetupScreen.kt:79-83 | the symbol is stored in the preferences and the wizard moves to step 2 |
| `Setup.SetupWizard.OnCashChange` | app/src/main/java/com/example/finvovo/ui/setup/SetupScreen.kt:192 | the edit is accepted iff every character is an ASCII digit or '.' |
| `Setup.SetupWizard.OnBankChange` | app/src/main/java/com/example/finvovo/ui/setup/SetupScreen.kt:205 | the edit is accepted iff every character is an ASCII digit or '.' |
| `Setup.SetupWizard.OnNext` | app/src/main/java/com/example/finvovo/ui/setup/SetupScreen.kt:91 | the balance step moves to step 3 |
| `Setup.SetupWizard.OnPinChange` | app/src/main/java/com/example/finvovo/ui/setup/SetupScreen.kt:95 | the edit is accepted iff at most 4 characters, all ASCII digits |
| `Setup.SetupWizard.OnQuestionChange` | app/src/main/java/com/example/finvovo/ui/setup/SetupScreen.kt:97 | only the question changes |
| `Setup.SetupWizard.OnAnswerChange` | app/src/main/java/com/example/finvovo/ui/setup/SetupScreen.kt:99 | only the answer changes |
| `Setup.SetupWizard.OnFinish` | app/src/main/java/com/example/finvovo/ui/setup/SetupScreen.kt:101-121 | completes iff the PIN has 4 digits and question and answer are non-blank; a rejection shows its message and saves nothing; success saves PIN, question and answer and reports the two parsed balances |
| `Main.InitialRoute` | app/src/main/java/com/example/finvovo/MainActivity.kt:101-107 | Locked iff a PIN is set and lock is enabled; else Setup iff setup is not done; else Home |
| `Main.MainActivity.OnStop` | app/src/main/java/com/example/finvovo/MainActivity.kt:37-40 | in background, timestamp recorded |
| `Main.MainActivity.constructor` | app/src/main/java/com/example/finvovo/MainActivity.kt:26-28 | in the foreground, no pending lock, timestamp 0, on the splash screen |
| `Main.MainActivity.OnStart` | app/src/main/java/com/example/finvovo/MainActivity.kt:42-52 | locks iff a PIN is set, lock is enabled and more than 6000 ms passed since the last stop; the flag always ends false |
| `Main.MainActivity.OnSplashFinished` | app/src/main/java/com/example/finvovo/MainActivity.kt:100-108 | the state becomes `InitialRoute` of the preferences |
| `Main.MainActivity.OnUnlock` | app/src/main/java/com/example/finvovo/MainActivity.kt:114 | Home |
| `Main.MainActivity.OnRequestPinReset` | app/src/main/java/com/example/finvovo/MainActivity.kt:115 | PinSetup |
| `Main.MainActivity.OnPinSet` | app/src/main/java/com/example/finvovo/MainActivity.kt:132-135 | the new PIN is saved, then Home |
| `Main.OpeningTransaction` | app/src/main/java/com/example/finvovo/MainActivity.kt:146-158 | a CREDIT "Opening Balance" of the amount on that account, CASH for account 1 else BANK, adding exactly the amount to a balance |
| `Main.MainActivity.SaveInitialTransaction` | app/src/main/java/com/example/finvovo/MainActivity.kt:146-158 | the opening transaction is inserted and the total balance grows by the amount |
| `Main.MainActivity.OnSetupComplete` | app/src/main/java/com/example/finvovo/MainActivity.kt:120-127 | accounts seeded; one opening transaction per positive amount (none for amounts ≤ 0); total balance grows by the positive amounts; setupDone; Home |
| `Main.OpeningTotal` | app/src/main/java/com/example/finvovo/MainActivity.kt:123-124 | the credited opening total is never negative, and 0 when neither amount is positive |
| `Main.OpeningAccountsOnFreshDatabase` | app/src/main/java/com/example/finvovo/MainActivity.kt:122-124 | on a fresh counter ids 1 and 2 are Cash and Bank Account; after earlier inserts neither id exists |
| `Main.CountAfterFreshInsert` | app/src/main/java/com/example/finvovo/data/AccountDao.kt:29-30 | an id-0 insert adds exactly one row |
| `AddTransaction.FindById` | app/src/main/java/com/example/finvovo/ui/transactions/AddTransactionScreen.kt:42 | `find`: the first account with that id, or null iff none has it |
| `AddTransaction.DefaultSelection` | app/src/main/java/com/example/finvovo/ui/transactions/AddTransactionScreen.kt:41-45 | the account with the default id if present, else the first account |
| `AddTransaction.AddTransactionForm.constructor` | app/src/main/java/com/example/finvovo/ui/transactions/AddTransactionScreen.kt:29-35 | empty fields, category DEBIT, no account selected |
| `AddTransaction.AddTransactionForm.OnAccountsLoaded` | app/src/main/java/com/example/finvovo/ui/transactions/AddTransactionScreen.kt:39-47 | fills only an empty selection, with `DefaultSelection` of a non-empty list |
| `AddTransaction.AddTransactionForm.OnAccountClick` | app/src/main/java/com/example/finvovo/ui/transactions/AddTransactionScreen.kt:111-114 | selects that account |
| `AddTransaction.AddTransactionForm.OnCategoryClick` | app/src/main/java/com/example/finvovo/ui/transactions/AddTransactionScreen.kt:78-84 | sets the category |
| `AddTransaction.AddTransactionForm.OnAmountChange` | app/src/main/java/com/example/finvovo/ui/transactions/AddTransactionScreen.kt:122 | accepted iff ASCII digits and '.' only |
| `AddTransaction.AddTransactionForm.OnDescriptionChange` | app/src/main/java/com/example/finvovo/ui/transactions/AddTransactionScreen.kt:130 | sets the description |
| `AddTransaction.AddTransactionForm.OnDateSelected` | app/src/main/java/com/example/finvovo/ui/transactions/AddTransactionScreen.kt:55-58 | sets the date |
| `AddTransaction.FormTransaction` | app/src/main/java/com/example/finvovo/ui/transactions/AddTransactionScreen.kt:151-158 | type CASH with the chosen category, amount, date, description and the selected account's id |
| `AddTransaction.AddTransactionForm.OnSave` | app/src/main/java/com/example/finvovo/ui/transactions/AddTransactionScreen.kt:146-163 | saves iff the amount parses, the description is non-blank and an account is selected; then the total balance moves by the signed amount; otherwise nothing changes |
| `Planning.PageType` | app/src/main/java/com/example/finvovo/ui/planning/PlanningScreen.kt:72 | page 0 is INCOME, any other PAYMENT |
| `Planning.DialogItem` | app/src/main/java/com/example/finvovo/ui/planning/PlanningScreen.kt:183-190 | the tab's type, the amount, due date and description, sourceOrDest CASH, PENDING |
| `Planning.SavedItemIsListed` | app/src/main/java/com/example/finvovo/ui/planning/PlanningScreen.kt:113-120 | a saved item joins its tab's pending list and nothing else changes there |
| `Planning.PlanningScreen.OnTabSelected` | app/src/main/java/com/example/finvovo/ui/planning/PlanningScreen.kt:44-53 | selects the tab |
| `Planning.PlanningScreen.constructor` | app/src/main/java/com/example/finvovo/ui/planning/PlanningScreen.kt:33-34 | the Income tab, no dialog |
| `Planning.PlanningScreen.PageItems` | app/src/main/java/com/example/finvovo/ui/planning/PlanningScreen.kt:72-73 | exactly the PENDING items of the page's type, dueDate order |
| `Planning.PlanningScreen.OnMarkProcessed` | app/src/main/java/com/example/finvovo/ui/planning/PlanningScreen.kt:90-92 | marks the item processed, with the repository's guarantees |
| `Planning.PlanningScreen.OnDelete` | app/src/main/java/com/example/finvovo/ui/planning/PlanningScreen.kt:93-95 | deletes the item |
| `Planning.PlanningScreen.OnAddClick` | app/src/main/java/com/example/finvovo/ui/planning/PlanningScreen.kt:104 | opens the dialog |
| `Planning.PlanningScreen.OnDialogSave` | app/src/main/java/com/example/finvovo/ui/planning/PlanningScreen.kt:116-119 | inserts the item and closes the dialog |
| `Planning.PlanningScreen.OnDialogDismiss` | app/src/main/java/com/example/finvovo/ui/planning/PlanningScreen.kt:115 | closes the dialog |
| `Planning.AddPlanningItemDialog.OnAmountChange` | app/src/main/java/com/example/finvovo/ui/planning/PlanningScreen.kt:157 | accepted iff ASCII digits and '.' only |
| `Planning.AddPlanningItemDialog.constructor` | app/src/main/java/com/example/finvovo/ui/planning/PlanningScreen.kt:132-137 | empty amount and description, due date now, the tab's type |
| `Planning.AddPlanningItemDialog.OnDescriptionChange` | app/src/main/java/com/example/finvovo/ui/planning/PlanningScreen.kt:164 | sets the description |
| `Planning.AddPlanningItemDialog.OnDateSelected` | app/src/main/java/com/example/finvovo/ui/planning/PlanningScreen.kt:141-144 | sets the due date |
| `Planning.AddPlanningItemDialog.OnSave` | app/src/main/java/com/example/finvovo/ui/planning/PlanningScreen.kt:179-192 | an item iff the amount parses and the description is non-blank, built by `DialogItem` |
| `AccountDialog.InitialTypeNotInMenu` | app/src/main/java/com/example/finvovo/ui/home/AddAccountDialog.kt:17-19 | the default type "General" is not one of the five menu types |
| `AccountDialog.AddAccountDialog.constructor` | app/src/main/java/com/example/finvovo/ui/home/AddAccountDialog.kt:16-17 | an empty name and the type "General" |
| `AccountDialog.AddAccountDialog.OnNameChange` | app/src/main/java/com/example/finvovo/ui/home/AddAccountDialog.kt:31 | only the name changes |
| `AccountDialog.AddAccountDialog.OnMenuItemClick` | app/src/main/java/com/example/finvovo/ui/home/AddAccountDialog.kt:56-63 | the type becomes that menu entry |
| `AccountDialog.AddAccountDialog.OnConfirm` | app/src/main/java/com/example/finvovo/ui/home/AddAccountDialog.kt:71-75 | fires iff the name is non-blank, with the name and a type that is "General" or a menu type |
| `AccountDialog.EditAccountDialog.constructor` | app/src/main/java/com/example/finvovo/ui/home/AddAccountDialog.kt:95-96 | starts with the account's name and type |
| `AccountDialog.EditAccountDialog.OnNameChange` | app/src/main/java/com/example/finvovo/ui/home/AddAccountDialog.kt:110 | only the name changes |
| `AccountDialog.EditAccountDialog.OnMenuItemClick` | app/src/main/java/com/example/finvovo/ui/home/AddAccountDialog.kt:134-142 | the type becomes that menu entry, the name is kept |
| `AccountDialog.EditAccountDialog.OnConfirm` | app/src/main/java/com/example/finvovo/ui/home/AddAccountDialog.kt:149-152 | fires iff the name is non-blank, with a copy keeping id and balance and replacing only name and type |
| `Home.SearchFilter` | app/src/main/java/com/example/finvovo/ui/home/HomeScreen.kt:51-60 | blank query: the list unchanged; otherwise exactly the items whose description contains the query ignoring case or whose amount text contains it |
| `Home.SearchKeepsOrder` | app/src/main/java/com/example/finvovo/ui/home/HomeScreen.kt:55-58 | the filtered list is a subsequence of the input |
| `Home.DescriptionFindsItself` | app/src/main/java/com/example/finvovo/ui/home/HomeScreen.kt:56 | searching an item's own description finds it |
| `Home.SearchKeepsDateOrder` | app/src/main/java/com/example/finvovo/ui/transactions/TransactionListScreen.kt:52-61 | the filter keeps a newest-first list newest first |
| `Home.HomeScreen.RecentShown` | app/src/main/java/com/example/finvovo/ui/home/HomeScreen.kt:47-60 | the search filter of the five (or fewer) latest transactions |
| `Home.HomeScreen.constructor` | app/src/main/java/com/example/finvovo/ui/home/HomeScreen.kt:62-65 | no dialog open and no account chosen for edit or delete |
| `Home.HomeScreen.OnAddAccountClick` | app/src/main/java/com/example/finvovo/ui/home/HomeScreen.kt:236 | opens the add dialog, nothing else changes |
| `Home.CardOf` | app/src/main/java/com/example/finvovo/ui/home/HomeScreen.kt:158-162 | absent totals shown as 0, balance their difference; the card's account carries balance 0.0 |
| `Home.HomeScreen.Cards` | app/src/main/java/com/example/finvovo/ui/home/HomeScreen.kt:156-162 | one card per account, each showing that account's balance |
| `Home.HomeScreen.OnAddAccountConfirm` | app/src/main/java/com/example/finvovo/ui/home/HomeScreen.kt:254-258 | a new account with the dialog's name and type and balance 0.0 |
| `Home.HomeScreen.OnEditClick` | app/src/main/java/com/example/finvovo/ui/home/HomeScreen.kt:163-165 | the edit dialog opens on the card's account |
| `Home.HomeScreen.OnEditConfirm` | app/src/main/java/com/example/finvovo/ui/home/HomeScreen.kt:267-270 | an update by id, then the dialog closes |
| `Home.HomeScreen.OnDeleteClick` | app/src/main/java/com/example/finvovo/ui/home/HomeScreen.kt:166-168 | the confirmation opens on the card's account |
| `Home.HomeScreen.OnDeleteConfirm` | app/src/main/java/com/example/finvovo/ui/home/HomeScreen.kt:280-289 | deletes only the account: transactions and total balance unchanged |
| `TransactionList.TransactionListScreen.Source` | app/src/main/java/com/example/finvovo/ui/transactions/TransactionListScreen.kt:41-45 | the account's transactions with an account id, all transactions otherwise, newest first |
| `TransactionList.TransactionListScreen.constructor` | app/src/main/java/com/example/finvovo/ui/transactions/TransactionListScreen.kt:33-40 | the screen keeps its repository, account id, account name and zone offset |
| `TransactionList.TransactionListScreen.HeaderBalance` | app/src/main/java/com/example/finvovo/ui/transactions/TransactionListScreen.kt:63-67 | the account balance with an account id, the total balance otherwise |
| `TransactionList.TransactionListScreen.HeaderTitle` | app/src/main/java/com/example/finvovo/ui/transactions/TransactionListScreen.kt:91 | the account name, or "Total Balance" |
| `TransactionList.TransactionListScreen.Render` | app/src/main/java/com/example/finvovo/ui/transactions/TransactionListScreen.kt:52-106 | header iff the query is blank; "no match" iff a non-blank query matches nothing; the sections are the day groups of the filtered source, newest day first |
| `TransactionList.SectionPairNewestFirst` | app/src/main/java/com/example/finvovo/ui/transactions/TransactionListScreen.kt:104-106 | of two day sections of a newest-first list, the earlier is the later day |
| `TransactionList.DaySectionsNewestFirst` | app/src/main/java/com/example/finvovo/ui/transactions/TransactionListScreen.kt:104-106 | day sections of a newest-first list have strictly decreasing days |
| `TransactionList.SectionsHoldTheirDay` | app/src/main/java/com/example/finvovo/ui/transactions/TransactionListScreen.kt:104-106 | a section holds exactly the transactions of its day |
| `TransactionList.EveryTransactionHasItsSection` | app/src/main/java/com/example/finvovo/ui/transactions/TransactionListScreen.kt:104-106 | every transaction appears in the section of its day |
| `Lists.GroupOf` | app/src/main/java/com/example/finvovo/ui/transactions/TransactionListScreen.kt:104-106 | exactly the elements with that key, in input order |
| `Lists.FirstIndex` | app/src/main/java/com/example/finvovo/ui/transactions/TransactionListScreen.kt:104-106 | the first position holding the key, or the length when none does |
| `Lists.GroupByKeys` | app/src/main/java/com/example/finvovo/ui/transactions/TransactionListScreen.kt:104-106 | group keys are distinct and are exactly the keys occurring in the input |
| `Lists.GroupByContents` | app/src/main/java/com/example/finvovo/ui/transactions/TransactionListScreen.kt:104-106 | each group holds exactly its key's elements, in input order |
| `Lists.GroupByOrder` | app/src/main/java/com/example/finvovo/ui/transactions/TransactionListScreen.kt:104-106 | groups come in first-occurrence order |
| `Lists.Filter` | app/src/main/java/com/example/finvovo/ui/home/HomeScreen.kt:55-58 | the kept elements are input elements satisfying the predicate, and every satisfying element is kept |
| `Lists.FilterIsSubsequence` | app/src/main/java/com/example/finvovo/ui/home/HomeScreen.kt:55-58 | `filter` keeps input order |
| `Currency.SearchCurrencies` | app/src/main/java/com/example/finvovo/ui/components/CurrencySelector.kt:230-237 | blank search: the full list; otherwise exactly the entries whose country or code contains the text ignoring case |
| `Currency.CurrencySelector.Shown` | app/src/main/java/com/example/finvovo/ui/components/CurrencySelector.kt:230-237 | the rows shown are at most the catalogue |
| `Currency.SearchKeepsCatalogueOrder` | app/src/main/java/com/example/finvovo/ui/components/CurrencySelector.kt:230-237 | the shown entries are a subsequence of the catalogue |
| `Currency.OwnCodeFindsEntry` | app/src/main/java/com/example/finvovo/ui/components/CurrencySelector.kt:233-236 | searching an entry's own code or country finds it |
| `Currency.CurrencySelector.constructor` | app/src/main/java/com/example/finvovo/ui/components/CurrencySelector.kt:27-28 | empty search, the current symbol selected |
| `Currency.CurrencySelector.OnSearchChange` | app/src/main/java/com/example/finvovo/ui/components/CurrencySelector.kt:258 | sets the search text only |
| `Currency.CurrencySelector.OnItemClick` | app/src/main/java/com/example/finvovo/ui/components/CurrencySelector.kt:277-283 | selects the row's symbol; every row with that symbol shows selected |
| `Currency.CurrencySelector.OnDone` | app/src/main/java/com/example/finvovo/ui/components/CurrencySelector.kt:302 | reports the selected symbol |
| `Text.ParseDecimal` | app/src/main/java/com/example/finvovo/ui/transactions/AddTransactionScreen.kt:147 | `toDoubleOrNull` on digits and dots: a value iff at least one digit and at most one dot, never negative |
| `Text.ParseWhole` | app/src/main/java/com/example/finvovo/ui/transactions/AddTransactionScreen.kt:147 | a non-empty string of digits parses to its decimal value |
| `Text.ParseFraction` | app/src/main/java/com/example/finvovo/ui/transactions/AddTransactionScreen.kt:147 | digits, one dot, digits parse to the whole part plus the fraction digits over ten to their count |
| `Text.DigitsOfValue` | app/src/main/java/com/example/finvovo/ui/transactions/AddTransactionScreen.kt:147 | printing n in w digits and reading them back gives n modulo 10^w |
| `Text.DecimalTextRoundTrip` | app/src/main/java/com/example/finvovo/ui/transactions/AddTransactionScreen.kt:147 | the amount text of n / 10^k (whole digits, then a dot and k fraction digits when k > 0) parses back to exactly n / 10^k |
| `Text.EqualsIgnoreCaseIsLowerEquality` | app/src/main/java/com/example/finvovo/ui/security/LockScreen.kt:334 | ignore-case equality is equality after lowering |
| `Text.ContainsReflexive` | app/src/main/java/com/example/finvovo/ui/home/HomeScreen.kt:56 | a text contains itself, ignoring case |
| `Preferences.StringOpt` | app/src/main/java/com/example/finvovo/data/PreferenceManager.kt:16 | `getString(key, null)`: present iff the key is stored |
| `Preferences.PutString` | app/src/main/java/com/example/finvovo/data/PreferenceManager.kt:17 | `putString(key, v)` reads back v afterwards (null removes), other keys unchanged |
| `Preferences.BoolOr` | app/src/main/java/com/example/finvovo/data/PreferenceManager.kt:12 | `getBoolean(key, default)`: the default while the key is absent, else the stored value |
| `Preferences.PreferenceManager.constructor` | app/src/main/java/com/example/finvovo/data/PreferenceManager.kt:8-29 | opens the file with the given contents; the observed currency symbol starts from the stored one |
| `Preferences.PreferenceManager.PutBoolean` | app/src/main/java/com/example/finvovo/data/PreferenceManager.kt:13 | a boolean write reads back as written and changes nothing else |
| `Preferences.PreferenceManager.PutNullableString` | app/src/main/java/com/example/finvovo/data/PreferenceManager.kt:17 | a nullable string write reads back as written (null removes) and changes nothing else |
| `Preferences.PreferenceManager.FreshInstallDefaults` | app/src/main/java/com/example/finvovo/data/PreferenceManager.kt:11-55 | empty storage reads as: setup not done, no PIN, biometric and tutorial off, "₹", vibration and app lock on, no security question or answer |
| `Preferences.PreferenceManager.SetSetupDone` | app/src/main/java/com/example/finvovo/data/PreferenceManager.kt:11-13 | reads back the value set, no other setting changes |
| `Preferences.PreferenceManager.SetPinCode` | app/src/main/java/com/example/finvovo/data/PreferenceManager.kt:15-17 | reads back the value set, no other setting changes |
| `Preferences.PreferenceManager.SetBiometricEnabled` | app/src/main/java/com/example/finvovo/data/PreferenceManager.kt:19-21 | reads back the value set, no other setting changes |
| `Preferences.PreferenceManager.SetTutorialCompleted` | app/src/main/java/com/example/finvovo/data/PreferenceManager.kt:23-25 | reads back the value set, no other setting changes |
| `Preferences.PreferenceManager.SetSelectedCurrencySymbol` | app/src/main/java/com/example/finvovo/data/PreferenceManager.kt:31-36 | reads back the symbol set, and the observed currency symbol becomes it too |
| `Preferences.PreferenceManager.SetVibrationEnabled` | app/src/main/java/com/example/finvovo/data/PreferenceManager.kt:39-41 | reads back the value set, no other setting changes |
| `Preferences.PreferenceManager.SetAppLockEnabled` | app/src/main/java/com/example/finvovo/data/PreferenceManager.kt:44-46 | reads back the value set, no other setting changes |
| `Preferences.PreferenceManager.SetSecurityQuestion1` | app/src/main/java/com/example/finvovo/data/PreferenceManager.kt:49-51 | reads back the value set, no other setting changes |
| `Preferences.PreferenceManager.SetSecurityAnswer1` | app/src/main/java/com/example/finvovo/data/PreferenceManager.kt:53-55 | reads back the value set, no other setting changes |

## Left out

- Text.IsDigit: admits the ASCII digits '0' to '9' only. Kotlin's `Char.isDigit` also accepts the other Unicode decimal digits (such as the Arabic-Indic "١٢٣"); the amount and PIN filters below inherit this.
- Setup.SetupWizard.OnCashChange: accepts digit-and-dot text over ASCII digits only; other Unicode decimal digits, which `isDigit` accepts, are refused (see Text.IsDigit).
- Setup.SetupWizard.OnBankChange: the same ASCII-only restriction as `Setup.SetupWizard.OnCashChange`.
- Setup.SetupWizard.OnPinChange: accepts up to four ASCII digits only; a PIN of other Unicode decimal digits, which `isDigit` accepts but the number keyboard does not offer, is refused.
- AddTransaction.AddTransactionForm.OnAmountChange: accepts digit-and-dot text over ASCII digits only (see Text.IsDigit).
- Planning.AddPlanningItemDialog.OnAmountChange: the same ASCII-only restriction as `AddTransaction.AddTransactionForm.OnAmountChange`.
- Repository.DataRepository.AddTransaction: the `SQLiteConstraintException` that a taken id raises is the result `ok == false`, not an exception; the app's callers always pass id 0, which never conflicts.
- Database.LedgerDatabase.InsertTransaction: the ABORT insert's `SQLiteConstraintException` on a taken id is the result `ok == false`, with nothing written.
- Backup.DecodeAccount: refuses a `name` or `type` that is not a string and a `balance` that is a numeric string; org.json's `getString` and `getDouble` would convert them (see the JSON item below).
- Backup.DecodeTransaction: the same kind restriction for `type`, `category`, `description`, `amount` and `date`.
- Backup.DecodeItem: the same kind restriction for its text, enum and number fields.
- Floating point.
  - Amounts are exact reals: no `Double` rounding in `SUM`, `sumOf`, subtraction or parsing.
  - `toDoubleOrNull` is modelled on the digit-and-dot alphabet the input fields admit, with no exponent or sign.
  - `Double.toString` in the search filters is a parameter.
  - `String.format("%.2f")` and the notification message text are not modelled.
- Integer width: ids, timestamps and `item.id + 100000` are unbounded integers. 32-bit id overflow and notification-id collisions between items are not modelled.
- Calendar and time zones: the start of day uses one fixed zone offset. Daylight-saving changes, where a day is not 86 400 000 ms long, are not modelled.
- Date text: the transaction list groups by the formatted "dd MMM yyyy" text. The model groups by the local day start, which names the same day.
- JSON text and streams.
  - The backup document is a structured value. org.json's text syntax and the stream reading/writing are left out.
  - org.json's coercions between value kinds are left out; the model's getters accept only their own kind of value, so such a backup fails to import in the model although the app imports it.
    - `getString` turns any non-null value into text: a boolean into "true" or "false", JSON null into "null", a number into its Java `toString`, an array or object into its JSON text.
    - `getDouble`, `getLong` and `optInt` read numeric strings such as "12.5"; the model's `optInt` reads such a string as 0.
  - An unreadable stream is an absent input. The `timestamp` field is a parameter.
- `BackupData`: the class is never used and is not modelled.
- Room and SQLite machinery: schema, migrations, the `runInTransaction` implementation (taken as atomic) and the database's rowid scan order are not modelled. Unordered queries are listed by ascending id.
- Flow and coroutines: flows, `combine`, dispatchers, `LaunchedEffect` delays, `viewModelScope` and cancellation are not modelled.
  - Views are values of the current store.
  - A launched coroutine is modelled as running to completion at once.
  - `AskAI.AskAIViewModel.OnAskAIClicked` does not expose the intermediate `isLoading = true` state.
- Concurrency: the startup seeding race between the application class and setup completion is not modelled; calls are sequential.
- Platform services: notification delivery, WorkManager scheduling, biometric APIs, toasts, intents, FileProvider, vibration, snackbars and logging are not modelled.
  - `Reminders.DoWork` returns the notifications it would post.
  - The biometric result is a parameter.
- PDF generation: the exporter goes through a foreign library. Its outcome (a file, none, or an exception) is a parameter of `AskAI.AskAIViewModel.OnAskAIClicked`.
- Currency catalogue: the list of about 190 literal entries is not reproduced. `Currency.CurrencySelector` takes the catalogue as a parameter.
- Case folding: ignore-case comparison lowers ASCII letters only; the rest of Unicode case folding is not modelled.
- Preferences: the SharedPreferences file is two typed maps, one for booleans and one for strings. Reading a key stored under the other type is not modelled.
- Repository getters that only forward a DAO flow (`allAccounts`, `accountsWithStats`, `allTransactions`, `recentTransactions`, `getTransactionsByAccount`, `getTransactionsByType`, `getTransactionsBetweenDates`, `allUpcomingItems`) are modelled by the DAO query methods they forward to.
- Presentation and navigation composables (layout, animations, the drawer, the tutorial, settings, splash and about screens) are not modelled.
