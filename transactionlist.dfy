/**
 * TransactionListScreen: the transactions of one account (or of all
 * accounts), a balance header, the search filter, and the list grouped into
 * one section per day. The screen labels a day by its "dd MMM yyyy" text;
 * the model uses the day's local midnight, which names the same day.
 */
module TransactionList {
  import opened Wrappers
  import opened Entities
  import opened Clock
  import opened Lists
  import opened Tables
  import opened Database
  import opened Repository
  import Home
  import Text

  const TotalBalanceTitle := "Total Balance"

  /** The grouping key: the local day a transaction falls on. */
  function DayOf(zoneOffset: int): Transaction -> int {
    (t: Transaction) => StartOfDay(t.fields.date, zoneOffset)
  }

  /** Two day sections of a list sorted newest first: the earlier one is the later day. */
  lemma SectionPairNewestFirst(ts: seq<Transaction>, zoneOffset: int, i: nat, j: nat)
    requires Ordered(ts, Date, true)
    requires i < j < |GroupBy(ts, DayOf(zoneOffset))|
    ensures GroupBy(ts, DayOf(zoneOffset))[i].0 > GroupBy(ts, DayOf(zoneOffset))[j].0
  {
    var key := DayOf(zoneOffset);
    var g := GroupBy(ts, key);
    GroupByKeys(ts, key);
    GroupByOrder(ts, key);
    GroupKeyOccurs(ts, key, i);
    GroupKeyOccurs(ts, key, j);
    var p, q := FirstIndex(ts, key, g[i].0), FirstIndex(ts, key, g[j].0);
    assert p < q < |ts|;
    assert Before(Date, true, ts[p], ts[q]);
    assert key(ts[p]) == g[i].0 && key(ts[q]) == g[j].0;
    StartOfDayMonotone(ts[q].fields.date, ts[p].fields.date, zoneOffset);
    assert g[i].0 != g[j].0;
  }

  /** For a list sorted newest first, the day sections come newest day first. */
  lemma DaySectionsNewestFirst(ts: seq<Transaction>, zoneOffset: int)
    requires Ordered(ts, Date, true)
    ensures forall i, j | 0 <= i < j < |GroupBy(ts, DayOf(zoneOffset))| ::
              GroupBy(ts, DayOf(zoneOffset))[i].0 > GroupBy(ts, DayOf(zoneOffset))[j].0
  {
    forall i, j | 0 <= i < j < |GroupBy(ts, DayOf(zoneOffset))|
      ensures GroupBy(ts, DayOf(zoneOffset))[i].0 > GroupBy(ts, DayOf(zoneOffset))[j].0
    {
      SectionPairNewestFirst(ts, zoneOffset, i, j);
    }
  }

  /** Each section holds exactly the transactions of its day, in list order. */
  lemma SectionsHoldTheirDay(ts: seq<Transaction>, zoneOffset: int, i: nat)
    requires i < |GroupBy(ts, DayOf(zoneOffset))|
    ensures var s := GroupBy(ts, DayOf(zoneOffset))[i];
            forall t | t in s.1 :: t in ts && StartOfDay(t.fields.date, zoneOffset) == s.0
    ensures var s := GroupBy(ts, DayOf(zoneOffset))[i];
            forall t | t in ts && StartOfDay(t.fields.date, zoneOffset) == s.0 :: t in s.1
  {
    GroupByContents(ts, DayOf(zoneOffset));
  }

  /** Every transaction of the list appears in the section of its day. */
  lemma EveryTransactionHasItsSection(ts: seq<Transaction>, zoneOffset: int, t: Transaction)
    requires t in ts
    ensures var g := GroupBy(ts, DayOf(zoneOffset));
            exists i | 0 <= i < |g| :: g[i].0 == StartOfDay(t.fields.date, zoneOffset) && t in g[i].1
  {
    var key := DayOf(zoneOffset);
    var g := GroupBy(ts, key);
    GroupByKeys(ts, key);
    GroupByContents(ts, key);
    var j := IndexOf(ts, t);
    assert key(ts[j]) == key(t);
    assert FirstIndex(ts, key, key(t)) < |ts|;
    var i := GroupIndex(g, key(t));
    assert i < |g|;
    assert g[i].1 == GroupOf(ts, key, key(t));
    assert g[i].0 == StartOfDay(t.fields.date, zoneOffset) && t in g[i].1;
    assert GroupBy(ts, DayOf(zoneOffset))[i] == g[i];
  }

  /** What the screen shows for one query. */
  datatype View = View(
    showsHeader: bool,
    sections: seq<(int, seq<Transaction>)>,
    showsNoMatch: bool)

  class TransactionListScreen {
    const repository: DataRepository
    const accountId: Option<int>
    const accountName: Option<string>
    const zoneOffset: int

    constructor (repository: DataRepository, accountId: Option<int>, accountName: Option<string>, zoneOffset: int)
      ensures this.repository == repository && this.accountId == accountId
      ensures this.accountName == accountName && this.zoneOffset == zoneOffset
    {
      this.repository := repository;
      this.accountId := accountId;
      this.accountName := accountName;
      this.zoneOffset := zoneOffset;
    }

    /** The source list: the account's transactions, or all of them, newest first. */
    method Source() returns (raw: seq<Transaction>)
      ensures accountId.Some? ==> IsListing(raw, OfAccount(repository.db.Snapshot(), accountId.value), Date, true)
      ensures accountId.None? ==> IsListing(raw, TransactionRows(repository.db.Snapshot()), Date, true)
    {
      if accountId.Some? {
        raw := repository.db.GetTransactionsByAccount(accountId.value);
      } else {
        raw := repository.db.GetAllTransactions();
      }
    }

    /** The header: the account's balance, or the total balance over all accounts. */
    method HeaderBalance() returns (b: real)
      ensures accountId.Some? ==> b == AccountBalance(repository.db.Snapshot(), accountId.value)
      ensures accountId.None? ==> b == TotalBalance(repository.db.Snapshot())
    {
      if accountId.Some? {
        b := repository.GetAccountBalance(accountId.value);
      } else {
        b := repository.GetTotalBalance();
      }
    }

    function HeaderTitle(): (s: string)
      ensures accountName.Some? ==> s == accountName.value
      ensures accountName.None? ==> s == TotalBalanceTitle
    {
      accountName.GetOr(TotalBalanceTitle)
    }

    /**
     * The list for a query: the header only without a query, a "no match"
     * note for a query that matches nothing, and the matching transactions
     * in day sections, newest day first.
     */
    method Render(query: string, amountText: real -> string) returns (v: View)
      ensures exists raw :: Ordered(raw, Date, true) &&
                (accountId.Some? ==> IsListing(raw, OfAccount(repository.db.Snapshot(), accountId.value), Date, true)) &&
                (accountId.None? ==> IsListing(raw, TransactionRows(repository.db.Snapshot()), Date, true)) &&
                v.sections == GroupBy(Home.SearchFilter(raw, query, amountText), DayOf(zoneOffset)) &&
                (v.showsNoMatch <==> Home.SearchFilter(raw, query, amountText) == [] && !Text.IsBlank(query))
      ensures v.showsHeader <==> Text.IsBlank(query)
      ensures forall i, j | 0 <= i < j < |v.sections| :: v.sections[i].0 > v.sections[j].0
    {
      var raw := Source();
      var shown := Home.SearchFilter(raw, query, amountText);
      Home.SearchKeepsDateOrder(raw, query, amountText);
      DaySectionsNewestFirst(shown, zoneOffset);
      v := View(Text.IsBlank(query), GroupBy(shown, DayOf(zoneOffset)), shown == [] && !Text.IsBlank(query));
    }
  }
}
