/**
 * AddTransactionScreen: the form that records a credit or debit against
 * one account. The account list is the `allAccounts` flow; `OnAccountsLoaded`
 * is the effect that runs each time it emits.
 */
module AddTransaction {
  import opened Wrappers
  import opened Entities
  import opened Text
  import opened Tables
  import opened Database
  import opened Repository

  /** Kotlin's `find { it.id == id }`: the first account with that id. */
  function FindById(accounts: seq<Account>, id: int): (r: Option<Account>)
    ensures r.None? <==> forall i | 0 <= i < |accounts| :: accounts[i].id != id
    ensures r.Some? ==> r.value.id == id
    ensures r.Some? ==>
              exists i | 0 <= i < |accounts| :: accounts[i] == r.value && forall j | 0 <= j < i :: accounts[j].id != id
    decreases |accounts|
  {
    if accounts == [] then None
    else if accounts[0].id == id then Some(accounts[0])
    else
      var r := FindById(accounts[1..], id);
      assert r.Some? ==> exists i | 1 <= i < |accounts| :: accounts[i] == r.value && forall j | 0 <= j < i :: accounts[j].id != id by {
        if r.Some? {
          var i :| 0 <= i < |accounts[1..]| && accounts[1..][i] == r.value && forall j | 0 <= j < i :: accounts[1..][j].id != id;
          assert accounts[i + 1] == r.value;
          assert forall j | 1 <= j < i + 1 :: accounts[j].id == accounts[1..][j - 1].id;
        }
      }
      r
  }

  /** The account preselected from a non-empty list: the default one if listed, else the first. */
  function DefaultSelection(accounts: seq<Account>, defaultAccountId: Option<int>): (a: Account)
    requires accounts != []
    ensures a in accounts
    ensures defaultAccountId.Some? && FindById(accounts, defaultAccountId.value).Some? ==> a.id == defaultAccountId.value
    ensures defaultAccountId.None? || FindById(accounts, defaultAccountId.value).None? ==> a == accounts[0]
  {
    if defaultAccountId.Some? then FindById(accounts, defaultAccountId.value).GetOr(accounts[0])
    else accounts[0]
  }

  /** The transaction the form saves: type CASH, the account's id, and what was entered. */
  function FormTransaction(category: TransactionCategory, amount: real, date: int, description: string, account: Account): (t: Transaction)
    ensures t.id == 0 && t.fields.kind == CASH && t.fields.category == category
    ensures t.fields.amount == amount && t.fields.date == date
    ensures t.fields.description == description && t.fields.accountId == account.id
  {
    NewTransaction(CASH, category, amount, date, description, account.id)
  }

  class AddTransactionForm {
    const repository: DataRepository
    const defaultAccountId: Option<int>
    var amount: string
    var description: string
    var category: TransactionCategory
    var selectedAccount: Option<Account>
    var selectedDate: int

    predicate Valid()
      reads this
    {
      IsAmountText(amount)
    }

    /** The form opens empty, as a debit, dated `now`, with no account chosen yet. */
    constructor (repository: DataRepository, defaultAccountId: Option<int>, now: int)
      ensures Valid()
      ensures this.repository == repository && this.defaultAccountId == defaultAccountId
      ensures amount == "" && description == "" && category == DEBIT
      ensures selectedAccount == None && selectedDate == now
    {
      this.repository := repository;
      this.defaultAccountId := defaultAccountId;
      amount := "";
      description := "";
      category := DEBIT;
      selectedAccount := None;
      selectedDate := now;
    }

    /** The effect on each emission of the account list: it only fills an empty selection. */
    method OnAccountsLoaded(accounts: seq<Account>)
      modifies this
      ensures old(selectedAccount).Some? ==> selectedAccount == old(selectedAccount)
      ensures old(selectedAccount).None? ==>
                selectedAccount == if accounts == [] then None else Some(DefaultSelection(accounts, defaultAccountId))
      ensures amount == old(amount) && description == old(description) && category == old(category)
      ensures selectedDate == old(selectedDate)
    {
      if selectedAccount.None? && accounts != [] {
        selectedAccount := Some(DefaultSelection(accounts, defaultAccountId));
      }
    }

    method OnAccountClick(a: Account)
      modifies this
      ensures selectedAccount == Some(a)
      ensures amount == old(amount) && description == old(description) && category == old(category)
      ensures selectedDate == old(selectedDate)
    {
      selectedAccount := Some(a);
    }

    method OnCategoryClick(c: TransactionCategory)
      modifies this
      ensures category == c
      ensures amount == old(amount) && description == old(description)
      ensures selectedAccount == old(selectedAccount) && selectedDate == old(selectedDate)
    {
      category := c;
    }

    /** The amount field takes an edit only when it is made of digits and dots. */
    method OnAmountChange(text: string)
      requires Valid()
      modifies this
      ensures Valid()
      ensures amount == if IsAmountText(text) then text else old(amount)
      ensures description == old(description) && category == old(category)
      ensures selectedAccount == old(selectedAccount) && selectedDate == old(selectedDate)
    {
      if IsAmountText(text) {
        amount := text;
      }
    }

    method OnDescriptionChange(text: string)
      modifies this
      ensures description == text
      ensures amount == old(amount) && category == old(category)
      ensures selectedAccount == old(selectedAccount) && selectedDate == old(selectedDate)
    {
      description := text;
    }

    method OnDateSelected(date: int)
      modifies this
      ensures selectedDate == date
      ensures amount == old(amount) && description == old(description) && category == old(category)
      ensures selectedAccount == old(selectedAccount)
    {
      selectedDate := date;
    }

    /**
     * "Save Transaction": with a parseable amount, a non-blank description
     * and a chosen account, the transaction is added and `onTransactionSaved`
     * follows (`saved`); otherwise nothing happens.
     */
    method OnSave() returns (saved: bool)
      requires Valid() && repository.db.Valid()
      modifies repository.db
      ensures repository.db.Valid()
      ensures saved <==> ParseDecimal(amount).Some? && !IsBlank(description) && selectedAccount.Some?
      ensures saved ==>
                var t := FormTransaction(category, ParseDecimal(amount).value, selectedDate, description, selectedAccount.value);
                repository.db.transactions == old(repository.db.transactions).InsertReplace(t) &&
                TotalBalance(repository.db.Snapshot()) == old(TotalBalance(repository.db.Snapshot())) + Signed(t)
      ensures !saved ==> repository.db.transactions == old(repository.db.transactions)
      ensures repository.db.accounts == old(repository.db.accounts)
      ensures repository.db.upcoming == old(repository.db.upcoming)
    {
      var amt := ParseDecimal(amount);
      var finalAccount := selectedAccount;
      saved := false;
      if amt.Some? && !IsBlank(description) && finalAccount.Some? {
        var transaction := FormTransaction(category, amt.value, selectedDate, description, finalAccount.value);
        var ok := repository.AddTransaction(transaction);
        saved := true;
      }
    }
  }
}
