/**
 * BackupManager: export of the three tables to a JSON document and import
 * of such a document back into the database. The document is modelled as a
 * JSON value tree. The text form and the character streams are not
 * modelled, and neither are org.json's coercions between value kinds:
 * `getString` turning any other non-null value into text (a boolean into
 * "true" or "false", JSON null into "null", a number into its Java
 * `toString`, an array or object into its JSON text), and `getDouble`,
 * `getLong` and `optInt` reading numeric strings such as "12.5". The model's getters
 * accept only their own kind.
 */
module Backup {
  import opened Wrappers
  import opened Entities
  import opened Converters
  import opened Tables
  import opened Database

  /** A JSON value as org.json holds it; numbers are integral (`Int`/`Long`) or not (`Double`). */
  datatype Json =
    | JNull
    | JBool(b: bool)
    | JInt(n: int)
    | JReal(x: real)
    | JString(s: string)
    | JArray(items: seq<Json>)
    | JObject(fields: map<string, Json>)

  /** Why an import is refused; the source only reports `false`. */
  datatype ImportError =
    | Unreadable
    | NotAnObject
    | MissingField(key: string)
    | UnknownName(key: string)

  /** The `version` the export writes. */
  const BackupVersion: int := 1

  /** The three row lists an import parses before touching the database. */
  datatype Parsed = Parsed(accounts: seq<Account>, transactions: seq<Transaction>, upcomingItems: seq<UpcomingItem>)

  /** Where the export is written: an opened stream, none (`openOutputStream` gave null), or one whose write throws. */
  datatype OutputStream = Opened | Unavailable | Failing

  // ------------------------------------------------------------ org.json accessors

  /** A double truncated toward zero, as a Java narrowing conversion does. */
  function Truncate(x: real): (n: int)
    ensures x >= 0.0 ==> 0 <= n && n as real <= x < n as real + 1.0
    ensures x < 0.0 ==> n <= 0 && n as real - 1.0 < x <= n as real
  {
    if x >= 0.0 then x.Floor else -((-x).Floor)
  }

  /** `optInt(key)`: the number's int value, or 0 when the key is absent or not a number. */
  function OptInt(m: map<string, Json>, key: string): int {
    if key !in m then 0
    else match m[key]
      case JInt(n) => n
      case JReal(x) => Truncate(x)
      case _ => 0
  }

  /**
   * `getString(key)` on a string value. Any other value fails here, although
   * org.json converts booleans, JSON null, numbers, arrays and objects to text.
   */
  function GetString(m: map<string, Json>, key: string): Result<string, ImportError> {
    if key in m && m[key].JString? then Success(m[key].s) else Failure(MissingField(key))
  }

  /** `getDouble(key)`: fails unless the value is a number. */
  function GetDouble(m: map<string, Json>, key: string): Result<real, ImportError> {
    if key !in m then Failure(MissingField(key))
    else match m[key]
      case JInt(n) => Success(n as real)
      case JReal(x) => Success(x)
      case _ => Failure(MissingField(key))
  }

  /** `getLong(key)`: fails unless the value is a number; a double is truncated. */
  function GetLong(m: map<string, Json>, key: string): Result<int, ImportError> {
    if key !in m then Failure(MissingField(key))
    else match m[key]
      case JInt(n) => Success(n)
      case JReal(x) => Success(Truncate(x))
      case _ => Failure(MissingField(key))
  }

  /** `optJSONArray(key)`: the array, or null when absent or not an array. */
  function OptArray(m: map<string, Json>, key: string): Option<seq<Json>> {
    if key in m && m[key].JArray? then Some(m[key].items) else None
  }

  /** `Enum.valueOf(getString(key))` for a decoder of constant names. */
  function GetEnum<E>(m: map<string, Json>, key: string, decode: string -> Option<E>): Result<E, ImportError> {
    var name :- GetString(m, key);
    if decode(name).Some? then Success(decode(name).value) else Failure(UnknownName(key))
  }

  // ------------------------------------------------------------ export mapping

  function EncodeAccount(a: Account): Json {
    JObject(map[
      "id" := JInt(a.id),
      "name" := JString(a.fields.name),
      "balance" := JReal(a.fields.balance),
      "type" := JString(a.fields.kind)])
  }

  function EncodeTransaction(t: Transaction): Json {
    JObject(map[
      "id" := JInt(t.id),
      "amount" := JReal(t.fields.amount),
      "category" := JString(FromTransactionCategory(t.fields.category)),
      "description" := JString(t.fields.description),
      "date" := JInt(t.fields.date),
      "type" := JString(FromTransactionType(t.fields.kind)),
      "accountId" := JInt(t.fields.accountId)])
  }

  function EncodeItem(u: UpcomingItem): Json {
    JObject(map[
      "id" := JInt(u.id),
      "type" := JString(FromPlanningType(u.fields.kind)),
      "amount" := JReal(u.fields.amount),
      "dueDate" := JInt(u.fields.dueDate),
      "description" := JString(u.fields.description),
      "sourceOrDest" := JString(FromTransactionType(u.fields.sourceOrDest)),
      "status" := JString(FromPlanningStatus(u.fields.status))])
  }

  function EncodeAll<T>(rs: seq<T>, encode: T -> Json): (r: seq<Json>)
    ensures |r| == |rs| && forall i | 0 <= i < |rs| :: r[i] == encode(rs[i])
  {
    seq(|rs|, i requires 0 <= i < |rs| => encode(rs[i]))
  }

  /** The root object the export builds from the three row lists. */
  function Document(timestamp: int, accounts: seq<Account>, transactions: seq<Transaction>,
                    items: seq<UpcomingItem>): Json {
    JObject(map[
      "version" := JInt(BackupVersion),
      "timestamp" := JInt(timestamp),
      "accounts" := JArray(EncodeAll(accounts, EncodeAccount)),
      "transactions" := JArray(EncodeAll(transactions, EncodeTransaction)),
      "upcomingItems" := JArray(EncodeAll(items, EncodeItem))])
  }

  /** `doc` is what the export of `s` at time `timestamp` produces: every row of every table, once. */
  ghost predicate IsExportOf(doc: Json, s: Store, timestamp: int) {
    exists accounts, transactions, items ::
      IsListing(accounts, AccountRows(s), Id, false) &&
      IsListing(transactions, TransactionRows(s), Id, false) &&
      IsListing(items, UpcomingRows(s), Id, false) &&
      doc == Document(timestamp, accounts, transactions, items)
  }

  // ------------------------------------------------------------ import mapping

  /** One account object: `name`, `balance` and `type` are required; a missing `id` reads as 0. */
  function DecodeAccount(j: Json): (r: Result<Account, ImportError>)
    ensures r.Success? <==>
              j.JObject? && GetString(j.fields, "name").Success? && GetDouble(j.fields, "balance").Success? &&
              GetString(j.fields, "type").Success?
    ensures r.Success? ==> r.value.id == OptInt(j.fields, "id")
    ensures r.Success? && "id" !in j.fields ==> r.value.id == 0
  {
    if !j.JObject? then Failure(NotAnObject)
    else
      var m := j.fields;
      var name :- GetString(m, "name");
      var balance :- GetDouble(m, "balance");
      var kind :- GetString(m, "type");
      Success(Row(OptInt(m, "id"), AccountFields(name, kind, balance)))
  }

  /**
   * One transaction object: `amount`, `category`, `description`, `date` and
   * `type` are required and the two enums must name constants; a missing
   * `id` or `accountId` reads as 0.
   */
  function DecodeTransaction(j: Json): (r: Result<Transaction, ImportError>)
    ensures r.Success? <==>
              j.JObject? && GetDouble(j.fields, "amount").Success? &&
              GetEnum(j.fields, "category", ToTransactionCategory).Success? &&
              GetString(j.fields, "description").Success? && GetLong(j.fields, "date").Success? &&
              GetEnum(j.fields, "type", ToTransactionType).Success?
    ensures r.Success? ==> r.value.id == OptInt(j.fields, "id") && r.value.fields.accountId == OptInt(j.fields, "accountId")
    ensures r.Success? && "accountId" !in j.fields ==> r.value.fields.accountId == 0
  {
    if !j.JObject? then Failure(NotAnObject)
    else
      var m := j.fields;
      var amount :- GetDouble(m, "amount");
      var category :- GetEnum(m, "category", ToTransactionCategory);
      var description :- GetString(m, "description");
      var date :- GetLong(m, "date");
      var kind :- GetEnum(m, "type", ToTransactionType);
      Success(Row(OptInt(m, "id"), TransactionFields(kind, category, amount, date, description, OptInt(m, "accountId"))))
  }

  /** One upcoming-item object: every field but `id` is required, and the three enums must name constants. */
  function DecodeItem(j: Json): (r: Result<UpcomingItem, ImportError>)
    ensures r.Success? <==>
              j.JObject? && GetEnum(j.fields, "type", ToPlanningType).Success? &&
              GetDouble(j.fields, "amount").Success? && GetLong(j.fields, "dueDate").Success? &&
              GetString(j.fields, "description").Success? &&
              GetEnum(j.fields, "sourceOrDest", ToTransactionType).Success? &&
              GetEnum(j.fields, "status", ToPlanningStatus).Success?
    ensures r.Success? ==> r.value.id == OptInt(j.fields, "id")
  {
    if !j.JObject? then Failure(NotAnObject)
    else
      var m := j.fields;
      var kind :- GetEnum(m, "type", ToPlanningType);
      var amount :- GetDouble(m, "amount");
      var dueDate :- GetLong(m, "dueDate");
      var description :- GetString(m, "description");
      var source :- GetEnum(m, "sourceOrDest", ToTransactionType);
      var status :- GetEnum(m, "status", ToPlanningStatus);
      Success(Row(OptInt(m, "id"), UpcomingFields(kind, amount, dueDate, description, source, status)))
  }

  /** Decodes every element in order; the first element that does not decode fails the whole array. */
  function ParseEach<T>(arr: seq<Json>, decode: Json -> Result<T, ImportError>): (r: Result<seq<T>, ImportError>)
    ensures r.Success? <==> forall i | 0 <= i < |arr| :: decode(arr[i]).Success?
    ensures r.Success? ==> |r.value| == |arr| && forall i | 0 <= i < |arr| :: decode(arr[i]) == Success(r.value[i])
    decreases |arr|
  {
    if arr == [] then Success([])
    else
      var init :- ParseEach(arr[..|arr| - 1], decode);
      var last :- decode(arr[|arr| - 1]);
      Success(init + [last])
  }

  /** An optional array of the root: absent (or not an array) reads as an empty list. */
  function ParseOptional<T>(m: map<string, Json>, key: string, decode: Json -> Result<T, ImportError>): Result<seq<T>, ImportError> {
    match OptArray(m, key)
    case None => Success([])
    case Some(arr) => ParseEach(arr, decode)
  }

  /** Everything `importData` reads before it writes: an unreadable stream or a non-object root fails. */
  function ParseBackup(input: Option<Json>): (r: Result<Parsed, ImportError>)
    ensures input.None? ==> r == Failure(Unreadable)
    ensures input.Some? && !input.value.JObject? ==> r == Failure(NotAnObject)
    ensures r.Success? <==>
              input.Some? && input.value.JObject? &&
              ParseOptional(input.value.fields, "accounts", DecodeAccount).Success? &&
              ParseOptional(input.value.fields, "transactions", DecodeTransaction).Success? &&
              ParseOptional(input.value.fields, "upcomingItems", DecodeItem).Success?
    ensures r.Success? ==>
              r.value.accounts == ParseOptional(input.value.fields, "accounts", DecodeAccount).value &&
              r.value.transactions == ParseOptional(input.value.fields, "transactions", DecodeTransaction).value &&
              r.value.upcomingItems == ParseOptional(input.value.fields, "upcomingItems", DecodeItem).value
  {
    if input.None? then Failure(Unreadable)
    else if !input.value.JObject? then Failure(NotAnObject)
    else
      var m := input.value.fields;
      var accounts :- ParseOptional(m, "accounts", DecodeAccount);
      var transactions :- ParseOptional(m, "transactions", DecodeTransaction);
      var items :- ParseOptional(m, "upcomingItems", DecodeItem);
      Success(Parsed(accounts, transactions, items))
  }

  /** The store after a successful import: each table emptied, then refilled with the parsed rows. */
  function Restore(s: Store, p: Parsed): (r: Store)
    requires s.Valid()
    ensures r.Valid()
  {
    Store(s.accounts.DeleteAll().InsertAll(p.accounts),
          s.transactions.DeleteAll().InsertAll(p.transactions),
          s.upcoming.DeleteAll().InsertAll(p.upcomingItems))
  }

  // ------------------------------------------------------------ the two operations

  /** Builds one JSON array element by element, as the export's `forEach` loops do. */
  method EncodeRows<T>(rows: seq<T>, encode: T -> Json) returns (arr: seq<Json>)
    ensures arr == EncodeAll(rows, encode)
  {
    arr := [];
    for i := 0 to |rows|
      invariant arr == EncodeAll(rows[..i], encode)
    {
      arr := arr + [encode(rows[i])];
    }
    assert rows[..|rows|] == rows;
  }

  /**
   * `exportData`: reads the three tables and writes the document. With no
   * output stream nothing is written and the result is still true; a
   * failing write gives false.
   */
  method ExportData(db: LedgerDatabase, now: int, stream: OutputStream) returns (ok: bool, written: Option<Json>)
    ensures ok <==> stream != Failing
    ensures written.Some? <==> stream == Opened
    ensures written.Some? ==> IsExportOf(written.value, db.Snapshot(), now)
  {
    var accounts := db.GetAllAccounts();
    var transactions := db.GetAllTransactionsSync();
    var items := db.GetAllItemsSync();
    var accountsArray := EncodeRows(accounts, EncodeAccount);
    var transactionsArray := EncodeRows(transactions, EncodeTransaction);
    var upcomingArray := EncodeRows(items, EncodeItem);
    var root := JObject(map[
      "version" := JInt(BackupVersion),
      "timestamp" := JInt(now),
      "accounts" := JArray(accountsArray),
      "transactions" := JArray(transactionsArray),
      "upcomingItems" := JArray(upcomingArray)]);
    assert root == Document(now, accounts, transactions, items);
    match stream
    case Opened => ok, written := true, Some(root);
    case Unavailable => ok, written := true, None;
    case Failing => ok, written := false, None;
  }

  /** Parses one array element by element into a list, stopping at the first element that fails. */
  method ParseRows<T>(arr: seq<Json>, decode: Json -> Result<T, ImportError>) returns (ok: bool, rows: seq<T>)
    ensures ok <==> ParseEach(arr, decode).Success?
    ensures ok ==> rows == ParseEach(arr, decode).value
  {
    rows := [];
    for i := 0 to |arr|
      invariant ParseEach(arr[..i], decode) == Success(rows)
    {
      var r := decode(arr[i]);
      if r.Failure? {
        return false, rows;
      }
      assert arr[..i + 1][..i] == arr[..i];
      rows := rows + [r.value];
    }
    assert arr[..|arr|] == arr;
    ok := true;
  }

  /** Parses an optional root array; absent reads as empty. */
  method ParseOptionalRows<T>(m: map<string, Json>, key: string, decode: Json -> Result<T, ImportError>)
    returns (ok: bool, rows: seq<T>)
    ensures ok <==> ParseOptional(m, key, decode).Success?
    ensures ok ==> rows == ParseOptional(m, key, decode).value
  {
    var arr := OptArray(m, key);
    if arr.None? {
      return true, [];
    }
    ok, rows := ParseRows(arr.value, decode);
  }

  /**
   * `importData`: parses all three arrays first; only if every record
   * parses are the three tables emptied and refilled, as one transaction.
   */
  method ImportData(db: LedgerDatabase, input: Option<Json>) returns (ok: bool)
    requires db.Valid()
    modifies db
    ensures db.Valid()
    ensures ok <==> ParseBackup(input).Success?
    ensures ok ==> db.Snapshot() == Restore(old(db.Snapshot()), ParseBackup(input).value)
    ensures !ok ==> db.Snapshot() == old(db.Snapshot())
  {
    if input.None? || !input.value.JObject? {
      return false;
    }
    var m := input.value.fields;
    var good, accounts := ParseOptionalRows(m, "accounts", DecodeAccount);
    if !good {
      return false;
    }
    var transactions: seq<Transaction>;
    good, transactions := ParseOptionalRows(m, "transactions", DecodeTransaction);
    if !good {
      return false;
    }
    var items: seq<UpcomingItem>;
    good, items := ParseOptionalRows(m, "upcomingItems", DecodeItem);
    if !good {
      return false;
    }
    db.DeleteAllAccounts();
    db.DeleteAllTransactions();
    db.DeleteAllUpcoming();
    db.InsertAllAccounts(accounts);
    db.InsertAllTransactions(transactions);
    db.InsertAllUpcoming(items);
    ok := true;
  }

  // ------------------------------------------------------------ properties

  /** An encoded account decodes back to itself. */
  lemma DecodeEncodeAccount(a: Account)
    ensures DecodeAccount(EncodeAccount(a)) == Success(a)
  {
    var m := EncodeAccount(a).fields;
    assert GetString(m, "name") == Success(a.fields.name);
    assert GetDouble(m, "balance") == Success(a.fields.balance);
    assert GetString(m, "type") == Success(a.fields.kind);
    assert OptInt(m, "id") == a.id;
  }

  /** An encoded transaction decodes back to itself: enums by name, every column present. */
  lemma DecodeEncodeTransaction(t: Transaction)
    ensures DecodeTransaction(EncodeTransaction(t)) == Success(t)
  {
    var m := EncodeTransaction(t).fields;
    DecodeEncode(t.fields.kind, t.fields.category, INCOME, PENDING);
    assert GetDouble(m, "amount") == Success(t.fields.amount);
    assert GetEnum(m, "category", ToTransactionCategory) == Success(t.fields.category);
    assert GetString(m, "description") == Success(t.fields.description);
    assert GetLong(m, "date") == Success(t.fields.date);
    assert GetEnum(m, "type", ToTransactionType) == Success(t.fields.kind);
    assert OptInt(m, "id") == t.id;
    assert OptInt(m, "accountId") == t.fields.accountId;
  }

  /** An encoded upcoming item decodes back to itself. */
  lemma DecodeEncodeItem(u: UpcomingItem)
    ensures DecodeItem(EncodeItem(u)) == Success(u)
  {
    var m := EncodeItem(u).fields;
    DecodeEncode(u.fields.sourceOrDest, CREDIT, u.fields.kind, u.fields.status);
    assert GetEnum(m, "type", ToPlanningType) == Success(u.fields.kind);
    assert GetDouble(m, "amount") == Success(u.fields.amount);
    assert GetLong(m, "dueDate") == Success(u.fields.dueDate);
    assert GetString(m, "description") == Success(u.fields.description);
    assert GetEnum(m, "sourceOrDest", ToTransactionType) == Success(u.fields.sourceOrDest);
    assert GetEnum(m, "status", ToPlanningStatus) == Success(u.fields.status);
    assert OptInt(m, "id") == u.id;
  }

  /** An encoded list parses back to the same list when every element round-trips. */
  lemma ParseEachEncoded<T>(rs: seq<T>, encode: T -> Json, decode: Json -> Result<T, ImportError>)
    requires forall r | r in rs :: decode(encode(r)) == Success(r)
    ensures ParseEach(EncodeAll(rs, encode), decode) == Success(rs)
  {
    var arr := EncodeAll(rs, encode);
    assert forall i | 0 <= i < |arr| :: decode(arr[i]) == Success(rs[i]);
    var v := ParseEach(arr, decode).value;
    assert |v| == |rs| && forall i | 0 <= i < |rs| :: v[i] == rs[i];
    assert v == rs;
  }

  /** Parsing an exported document gives back the three listings it was built from. */
  lemma ParseDocument(now: int, accounts: seq<Account>, transactions: seq<Transaction>, items: seq<UpcomingItem>)
    ensures ParseBackup(Some(Document(now, accounts, transactions, items))) == Success(Parsed(accounts, transactions, items))
  {
    forall a | a in accounts ensures DecodeAccount(EncodeAccount(a)) == Success(a) {
      DecodeEncodeAccount(a);
    }
    forall t | t in transactions ensures DecodeTransaction(EncodeTransaction(t)) == Success(t) {
      DecodeEncodeTransaction(t);
    }
    forall u | u in items ensures DecodeItem(EncodeItem(u)) == Success(u) {
      DecodeEncodeItem(u);
    }
    var m := Document(now, accounts, transactions, items).fields;
    assert ParseOptional(m, "accounts", DecodeAccount) == Success(accounts) by {
      assert OptArray(m, "accounts") == Some(EncodeAll(accounts, EncodeAccount));
      ParseEachEncoded(accounts, EncodeAccount, DecodeAccount);
    }
    assert ParseOptional(m, "transactions", DecodeTransaction) == Success(transactions) by {
      assert OptArray(m, "transactions") == Some(EncodeAll(transactions, EncodeTransaction));
      ParseEachEncoded(transactions, EncodeTransaction, DecodeTransaction);
    }
    assert ParseOptional(m, "upcomingItems", DecodeItem) == Success(items) by {
      assert OptArray(m, "upcomingItems") == Some(EncodeAll(items, EncodeItem));
      ParseEachEncoded(items, EncodeItem, DecodeItem);
    }
  }

  /** A listing of a valid table by id meets the preconditions of the restore lemmas. */
  lemma ListingCoversTable<D>(t: Table<D>, rs: seq<Row<D>>)
    requires t.Valid() && IsListing(rs, t.rows.Values, Id, false)
    ensures forall r | r in rs :: r.id in t.rows && t.rows[r.id] == r
    ensures forall k | k in t.rows :: t.rows[k] in rs
  {
    forall r | r in rs ensures r.id in t.rows && t.rows[r.id] == r {
      assert r in Elements(rs);
      RowAtId(t, r);
    }
    forall k | k in t.rows ensures t.rows[k] in rs {
      assert t.rows[k] in Elements(rs);
    }
  }

  /** Importing what export wrote restores the very same store, counters included. */
  lemma ExportImportRoundTrip(s: Store, now: int, doc: Json)
    requires s.Valid() && IsExportOf(doc, s, now)
    ensures ParseBackup(Some(doc)).Success?
    ensures Restore(s, ParseBackup(Some(doc)).value) == s
  {
    var accounts, transactions, items :|
      IsListing(accounts, AccountRows(s), Id, false) &&
      IsListing(transactions, TransactionRows(s), Id, false) &&
      IsListing(items, UpcomingRows(s), Id, false) &&
      doc == Document(now, accounts, transactions, items);
    ParseDocument(now, accounts, transactions, items);
    ListingCoversTable(s.accounts, accounts);
    ListingCoversTable(s.transactions, transactions);
    ListingCoversTable(s.upcoming, items);
    RestoreSame(s.accounts, accounts);
    RestoreSame(s.transactions, transactions);
    RestoreSame(s.upcoming, items);
  }

  /** Importing an export of `s` into any other store leaves exactly `s`'s rows in every table. */
  lemma ImportIntoOtherStore(u: Store, s: Store, now: int, doc: Json)
    requires u.Valid() && s.Valid() && IsExportOf(doc, s, now)
    ensures ParseBackup(Some(doc)).Success?
    ensures var r := Restore(u, ParseBackup(Some(doc)).value);
            r.accounts.rows == s.accounts.rows && r.transactions.rows == s.transactions.rows &&
            r.upcoming.rows == s.upcoming.rows
  {
    var accounts, transactions, items :|
      IsListing(accounts, AccountRows(s), Id, false) &&
      IsListing(transactions, TransactionRows(s), Id, false) &&
      IsListing(items, UpcomingRows(s), Id, false) &&
      doc == Document(now, accounts, transactions, items);
    ParseDocument(now, accounts, transactions, items);
    ListingCoversTable(s.accounts, accounts);
    ListingCoversTable(s.transactions, transactions);
    ListingCoversTable(s.upcoming, items);
    RestoreInto(u.accounts, s.accounts, accounts);
    RestoreInto(u.transactions, s.transactions, transactions);
    RestoreInto(u.upcoming, s.upcoming, items);
  }

  /**
   * Any parsed backup whose records all carry an id: every table ends up
   * holding exactly the parsed rows keyed by their ids, a later record with
   * the same id replacing an earlier one.
   */
  lemma RestoreWithIds(s: Store, p: Parsed)
    requires s.Valid()
    requires forall a | a in p.accounts :: a.id != 0
    requires forall t | t in p.transactions :: t.id != 0
    requires forall u | u in p.upcomingItems :: u.id != 0
    ensures Restore(s, p).accounts.rows == MapOf(p.accounts)
    ensures Restore(s, p).transactions.rows == MapOf(p.transactions)
    ensures Restore(s, p).upcoming.rows == MapOf(p.upcomingItems)
  {
    RestoreListed(s.accounts, p.accounts);
    RestoreListed(s.transactions, p.transactions);
    RestoreListed(s.upcoming, p.upcomingItems);
  }

  /**
   * Any parsed backup whose records carry no id (id 0): the record at
   * position `i` of each array gets the fresh key `next + i` of its table's
   * old counter, so nothing is lost or merged.
   */
  lemma RestoreWithoutIds(s: Store, p: Parsed)
    requires s.Valid()
    requires forall a | a in p.accounts :: a.id == 0
    requires forall t | t in p.transactions :: t.id == 0
    requires forall u | u in p.upcomingItems :: u.id == 0
    ensures FilledFresh(Restore(s, p).accounts, s.accounts.next, p.accounts)
    ensures FilledFresh(Restore(s, p).transactions, s.transactions.next, p.transactions)
    ensures FilledFresh(Restore(s, p).upcoming, s.upcoming.next, p.upcomingItems)
  {
    RestoreFresh(s.accounts, p.accounts);
    RestoreFresh(s.transactions, p.transactions);
    RestoreFresh(s.upcoming, p.upcomingItems);
  }

  /**
   * Any parsed backup at all: every record with an id is restored under that
   * id, every other key is fresh (at least the table's old counter), and no
   * table ends up with more rows than its array had records.
   */
  lemma RestoreKeys(s: Store, p: Parsed)
    requires s.Valid()
    ensures KeysFrom(Restore(s, p).accounts, s.accounts.next, p.accounts)
    ensures KeysFrom(Restore(s, p).transactions, s.transactions.next, p.transactions)
    ensures KeysFrom(Restore(s, p).upcoming, s.upcoming.next, p.upcomingItems)
  {
    RestoreKeysOf(s.accounts, p.accounts);
    RestoreKeysOf(s.transactions, p.transactions);
    RestoreKeysOf(s.upcoming, p.upcomingItems);
  }


  /** The `version` field is never read: replacing it changes nothing about the import. */
  lemma VersionIgnored(m: map<string, Json>, v: Json)
    ensures ParseBackup(Some(JObject(m["version" := v]))) == ParseBackup(Some(JObject(m)))
  {
    var m' := m["version" := v];
    assert OptArray(m', "accounts") == OptArray(m, "accounts");
    assert OptArray(m', "transactions") == OptArray(m, "transactions");
    assert OptArray(m', "upcomingItems") == OptArray(m, "upcomingItems");
  }

  /** A root object without the three arrays imports as an empty store. */
  lemma MissingArraysReadAsEmpty(m: map<string, Json>)
    requires "accounts" !in m && "transactions" !in m && "upcomingItems" !in m
    ensures ParseBackup(Some(JObject(m))) == Success(Parsed([], [], []))
  {
  }

  /** A record that does not decode makes the whole import fail, wherever it sits in its array. */
  lemma BadAccountFailsImport(m: map<string, Json>, i: int)
    requires OptArray(m, "accounts").Some? && 0 <= i < |OptArray(m, "accounts").value|
    requires DecodeAccount(OptArray(m, "accounts").value[i]).Failure?
    ensures ParseBackup(Some(JObject(m))).Failure?
  {
  }
}
