/**
 * HomeScreen: the total balance, one card per account with its totals,
 * the five most recent transactions filtered by the search box, and the
 * add, edit and delete account actions.
 */
module Home {
  import opened Wrappers
  import opened Entities
  import opened Text
  import opened Lists
  import opened Tables
  import opened Database
  import opened Repository

  /** How many recent transactions the home screen lists (`recentTransactions`). */
  const RecentCount := 5

  /**
   * The search test: the description contains the query ignoring case, or
   * the amount's text contains it. `amountText` is Kotlin's `Double.toString`,
   * which is not part of this model.
   */
  predicate Matches(t: Transaction, query: string, amountText: real -> string) {
    ContainsIgnoreCase(t.fields.description, query) || Contains(amountText(t.fields.amount), query)
  }

  /** `Matches` for one query, as the predicate handed to `filter`. */
  function Matcher(query: string, amountText: real -> string): Transaction -> bool {
    t => Matches(t, query, amountText)
  }

  /** The list shown for a query: all of it for a blank query, else the matching transactions. */
  function SearchFilter(ts: seq<Transaction>, query: string, amountText: real -> string): (r: seq<Transaction>)
    ensures IsBlank(query) ==> r == ts
    ensures !IsBlank(query) ==> forall i | 0 <= i < |r| :: r[i] in ts && Matches(r[i], query, amountText)
    ensures !IsBlank(query) ==> forall i | 0 <= i < |ts| && Matches(ts[i], query, amountText) :: ts[i] in r
  {
    if IsBlank(query) then ts else Filter(ts, Matcher(query, amountText))
  }

  /** Searching a list sorted by date, newest first, leaves it sorted. */
  lemma SearchKeepsDateOrder(ts: seq<Transaction>, query: string, amountText: real -> string)
    requires Ordered(ts, Date, true)
    ensures Ordered(SearchFilter(ts, query, amountText), Date, true)
  {
    if !IsBlank(query) {
      FilterOrdered(ts, Matcher(query, amountText), Date, true);
    }
  }

  /** The filtered list keeps the input's order: it is a subsequence of it. */
  lemma SearchKeepsOrder(ts: seq<Transaction>, query: string, amountText: real -> string)
    ensures IsSubsequence(SearchFilter(ts, query, amountText), ts)
  {
    if IsBlank(query) {
      FilterAll(ts, t => true);
      FilterIsSubsequence(ts, t => true);
    } else {
      FilterIsSubsequence(ts, Matcher(query, amountText));
    }
  }

  /** A transaction always matches a query equal to its own description. */
  lemma DescriptionFindsItself(ts: seq<Transaction>, i: int, amountText: real -> string)
    requires 0 <= i < |ts|
    ensures ts[i] in SearchFilter(ts, ts[i].fields.description, amountText)
  {
    ContainsReflexive(ts[i].fields.description);
  }

  /** An account card: the totals shown (absent ones as 0) and the derived balance. */
  datatype Card = Card(account: Account, totalCredit: real, totalDebit: real, balance: real)

  function CardOf(a: AccountWithStats): (c: Card)
    ensures c.balance == c.totalCredit - c.totalDebit
    ensures c.totalCredit == OrZero(a.totalCredit) && c.totalDebit == OrZero(a.totalDebit)
    ensures c.account == NewAccount(a.name, a.kind, 0.0, a.id)
  {
    Card(NewAccount(a.name, a.kind, 0.0, a.id), OrZero(a.totalCredit), OrZero(a.totalDebit), a.Balance())
  }

  class HomeScreen {
    const repository: DataRepository
    var showAddAccountDialog: bool
    var accountToEdit: Option<Account>
    var showDeleteConfirmDialog: bool
    var accountToDelete: Option<Account>

    constructor (repository: DataRepository)
      ensures this.repository == repository
      ensures !showAddAccountDialog && accountToEdit == None
      ensures !showDeleteConfirmDialog && accountToDelete == None
    {
      this.repository := repository;
      showAddAccountDialog := false;
      accountToEdit := None;
      showDeleteConfirmDialog := false;
      accountToDelete := None;
    }

    /** The recent list as shown: the five latest transactions, filtered by the search query. */
    method RecentShown(query: string, amountText: real -> string) returns (shown: seq<Transaction>)
      ensures exists recent :: shown == SearchFilter(recent, query, amountText) &&
                Ordered(recent, Date, true) && Distinct(recent) &&
                Elements(recent) <= TransactionRows(repository.db.Snapshot()) &&
                |recent| == if RecentCount < |TransactionRows(repository.db.Snapshot())| then RecentCount
                            else |TransactionRows(repository.db.Snapshot())|
      ensures |shown| <= RecentCount
    {
      var recent := repository.db.GetRecentTransactions(RecentCount);
      shown := SearchFilter(recent, query, amountText);
    }

    /** The cards: one per account, by id, each showing that account's balance. */
    method Cards() returns (cards: seq<Card>)
      requires repository.db.Valid()
      ensures |cards| == |repository.db.accounts.rows|
      ensures forall i | 0 <= i < |cards| ::
                var a := cards[i].account;
                a.id in repository.db.accounts.rows &&
                a.fields.name == repository.db.accounts.rows[a.id].fields.name &&
                a.fields.kind == repository.db.accounts.rows[a.id].fields.kind &&
                cards[i].balance == AccountBalance(repository.db.Snapshot(), a.id)
      ensures forall k | k in repository.db.accounts.rows :: exists i | 0 <= i < |cards| :: cards[i].account.id == k
      ensures forall i, j | 0 <= i < j < |cards| :: cards[i].account.id < cards[j].account.id
    {
      var stats := repository.db.GetAccountsWithStats();
      cards := seq(|stats|, i requires 0 <= i < |stats| => CardOf(stats[i]));
      ghost var s := repository.db.Snapshot();
      ghost var rows := repository.db.accounts.rows;
      forall i | 0 <= i < |cards|
        ensures cards[i].account.id in rows
        ensures cards[i].account.fields.name == rows[cards[i].account.id].fields.name
        ensures cards[i].account.fields.kind == rows[cards[i].account.id].fields.kind
        ensures cards[i].balance == AccountBalance(s, cards[i].account.id)
      {
        assert cards[i] == CardOf(stats[i]);
        assert stats[i] == StatsOf(s, rows[stats[i].id]);
      }
      forall k | k in repository.db.accounts.rows ensures exists i | 0 <= i < |cards| :: cards[i].account.id == k {
        var i :| 0 <= i < |stats| && stats[i].id == k;
        assert cards[i].account.id == k;
      }
    }

    method OnAddAccountClick()
      modifies this
      ensures showAddAccountDialog
      ensures accountToEdit == old(accountToEdit) && accountToDelete == old(accountToDelete)
      ensures showDeleteConfirmDialog == old(showDeleteConfirmDialog)
    {
      showAddAccountDialog := true;
    }

    /** The add dialog's `onConfirm`: a new account with the dialog's name and type and balance 0. */
    method OnAddAccountConfirm(name: string, kind: string)
      requires repository.db.Valid()
      modifies this, repository.db
      ensures repository.db.Valid()
      ensures repository.db.accounts == old(repository.db.accounts).InsertReplace(NewAccount(name, kind, 0.0))
      ensures repository.db.transactions == old(repository.db.transactions)
      ensures repository.db.upcoming == old(repository.db.upcoming)
      ensures !showAddAccountDialog
      ensures accountToEdit == old(accountToEdit) && accountToDelete == old(accountToDelete)
    {
      repository.AddAccount(NewAccount(name, kind, 0.0));
      showAddAccountDialog := false;
    }

    /** A card's edit action opens the edit dialog on the card's account. */
    method OnEditClick(card: Card)
      modifies this
      ensures accountToEdit == Some(card.account)
      ensures showAddAccountDialog == old(showAddAccountDialog) && accountToDelete == old(accountToDelete)
    {
      accountToEdit := Some(card.account);
    }

    method OnEditConfirm(updated: Account)
      requires repository.db.Valid()
      modifies this, repository.db
      ensures repository.db.Valid()
      ensures repository.db.accounts == old(repository.db.accounts).Update(updated)
      ensures repository.db.transactions == old(repository.db.transactions)
      ensures repository.db.upcoming == old(repository.db.upcoming)
      ensures accountToEdit == None
      ensures showAddAccountDialog == old(showAddAccountDialog) && accountToDelete == old(accountToDelete)
    {
      repository.UpdateAccount(updated);
      accountToEdit := None;
    }

    /** A card's delete action asks for confirmation. */
    method OnDeleteClick(card: Card)
      modifies this
      ensures accountToDelete == Some(card.account) && showDeleteConfirmDialog
      ensures showAddAccountDialog == old(showAddAccountDialog) && accountToEdit == old(accountToEdit)
    {
      accountToDelete := Some(card.account);
      showDeleteConfirmDialog := true;
    }

    /**
     * "Delete": removes the account and nothing else. Its transactions stay,
     * so the total balance does not change.
     */
    method OnDeleteConfirm()
      requires repository.db.Valid()
      modifies this, repository.db
      ensures repository.db.Valid()
      ensures repository.db.accounts ==
                if old(accountToDelete).Some? then old(repository.db.accounts).Delete(old(accountToDelete).value)
                else old(repository.db.accounts)
      ensures repository.db.transactions == old(repository.db.transactions)
      ensures repository.db.upcoming == old(repository.db.upcoming)
      ensures TotalBalance(repository.db.Snapshot()) == old(TotalBalance(repository.db.Snapshot()))
      ensures !showDeleteConfirmDialog && accountToDelete == old(accountToDelete)
    {
      if accountToDelete.Some? {
        repository.DeleteAccount(accountToDelete.value);
      }
      showDeleteConfirmDialog := false;
    }
  }
}
