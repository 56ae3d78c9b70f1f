/**
 * PlanningScreen: two pages of pending upcoming items (income, payments),
 * each item with "Mark Completed" and "Delete", and the dialog that adds
 * an item to the current page's type.
 */
module Planning {
  import opened Wrappers
  import opened Entities
  import opened Text
  import opened Tables
  import opened Database
  import opened Repository

  /** Page or tab 0 lists income, any other page payments. */
  function PageType(page: int): (k: PlanningType)
    ensures k == INCOME <==> page == 0
  {
    if page == 0 then INCOME else PAYMENT
  }

  /** The item the dialog saves for a page type: status PENDING, sourceOrDest CASH, a fresh id. */
  function DialogItem(kind: PlanningType, amount: real, dueDate: int, description: string): (u: UpcomingItem)
    ensures u.id == 0 && u.fields.kind == kind && u.fields.amount == amount
    ensures u.fields.dueDate == dueDate && u.fields.description == description
    ensures u.fields.sourceOrDest == CASH && u.fields.status == PENDING
  {
    NewUpcomingItem(kind, amount, dueDate, description, CASH)
  }

  /** A saved item shows on its page: it is pending and of the page's type. */
  lemma SavedItemIsListed(s: Store, page: int, amount: real, dueDate: int, description: string)
    requires s.Valid()
    ensures var u := DialogItem(PageType(page), amount, dueDate, description);
            var s2 := s.(upcoming := s.upcoming.InsertReplace(u));
            var k := s.upcoming.AssignedId(u);
            s2.upcoming.rows[k] in PendingOfType(s2, PageType(page)) &&
            PendingOfType(s2, PageType(page)) == PendingOfType(s, PageType(page)) + {s2.upcoming.rows[k]}
  {
    var u := DialogItem(PageType(page), amount, dueDate, description);
    var s2 := s.(upcoming := s.upcoming.InsertReplace(u));
    var k := s.upcoming.AssignedId(u);
    assert s2.upcoming.rows == s.upcoming.rows[k := s2.upcoming.rows[k]];
    forall x | x in PendingOfType(s2, PageType(page)) ensures x in PendingOfType(s, PageType(page)) + {s2.upcoming.rows[k]} {
      var j := KeyOf(s2.upcoming.rows, x);
      if j != k { assert s.upcoming.rows[j] == x; }
    }
    forall x | x in PendingOfType(s, PageType(page)) ensures x in PendingOfType(s2, PageType(page)) {
      var j := KeyOf(s.upcoming.rows, x);
      assert s2.upcoming.rows[j] == x;
    }
  }

  class PlanningScreen {
    const repository: DataRepository
    var selectedTab: int
    var showAddDialog: bool

    constructor (repository: DataRepository)
      ensures this.repository == repository && selectedTab == 0 && !showAddDialog
    {
      this.repository := repository;
      selectedTab := 0;
      showAddDialog := false;
    }

    /** Tab clicks and pager swipes both set the selected page (0 or 1). */
    method OnTabSelected(page: int)
      requires page == 0 || page == 1
      modifies this
      ensures selectedTab == page && showAddDialog == old(showAddDialog)
    {
      selectedTab := page;
    }

    /** The list on a page: its type's pending items by due date. */
    method PageItems(page: int) returns (items: seq<UpcomingItem>)
      ensures IsListing(items, PendingOfType(repository.db.Snapshot(), PageType(page)), DueDate, false)
      ensures forall i | 0 <= i < |items| :: items[i].fields.status == PENDING && items[i].fields.kind == PageType(page)
    {
      items := repository.GetUpcomingByType(PageType(page));
    }

    method OnMarkProcessed(item: UpcomingItem)
      requires repository.db.Valid()
      modifies repository.db
      ensures repository.db.Valid()
      ensures repository.db.upcoming == old(repository.db.upcoming).Update(item.(fields := item.fields.(status := COMPLETED)))
      ensures repository.db.accounts == old(repository.db.accounts)
      ensures repository.db.transactions == old(repository.db.transactions)
      ensures item.id in old(repository.db.upcoming.rows) ==>
                forall kind :: PendingOfType(repository.db.Snapshot(), kind) ==
                               old(PendingOfType(repository.db.Snapshot(), kind)) - {old(repository.db.upcoming.rows[item.id])}
    {
      repository.MarkUpcomingAsProcessed(item);
    }

    method OnDelete(item: UpcomingItem)
      requires repository.db.Valid()
      modifies repository.db
      ensures repository.db.Valid()
      ensures repository.db.upcoming == old(repository.db.upcoming).Delete(item)
      ensures repository.db.accounts == old(repository.db.accounts)
      ensures repository.db.transactions == old(repository.db.transactions)
    {
      repository.DeleteUpcomingItem(item);
    }

    method OnAddClick()
      modifies this
      ensures showAddDialog && selectedTab == old(selectedTab)
    {
      showAddDialog := true;
    }

    /** The dialog's `onSave`: the item is added and the dialog closes. */
    method OnDialogSave(item: UpcomingItem)
      requires repository.db.Valid()
      modifies this, repository.db
      ensures repository.db.Valid()
      ensures repository.db.upcoming == old(repository.db.upcoming).InsertReplace(item)
      ensures repository.db.accounts == old(repository.db.accounts)
      ensures repository.db.transactions == old(repository.db.transactions)
      ensures !showAddDialog && selectedTab == old(selectedTab)
    {
      repository.AddUpcomingItem(item);
      showAddDialog := false;
    }

    method OnDialogDismiss()
      modifies this
      ensures !showAddDialog && selectedTab == old(selectedTab)
    {
      showAddDialog := false;
    }
  }

  class AddPlanningItemDialog {
    const kind: PlanningType
    var amount: string
    var description: string
    var selectedDate: int

    predicate Valid()
      reads this
    {
      IsAmountText(amount)
    }

    constructor (kind: PlanningType, now: int)
      ensures Valid() && this.kind == kind
      ensures amount == "" && description == "" && selectedDate == now
    {
      this.kind := kind;
      amount := "";
      description := "";
      selectedDate := now;
    }

    method OnAmountChange(text: string)
      requires Valid()
      modifies this
      ensures Valid()
      ensures amount == if IsAmountText(text) then text else old(amount)
      ensures description == old(description) && selectedDate == old(selectedDate)
    {
      if IsAmountText(text) {
        amount := text;
      }
    }

    method OnDescriptionChange(text: string)
      modifies this
      ensures description == text && amount == old(amount) && selectedDate == old(selectedDate)
    {
      description := text;
    }

    method OnDateSelected(date: int)
      modifies this
      ensures selectedDate == date && amount == old(amount) && description == old(description)
    {
      selectedDate := date;
    }

    /** "Save": the item handed to `onSave`, or nothing without a parseable amount and a non-blank description. */
    method OnSave() returns (item: Option<UpcomingItem>)
      requires Valid()
      ensures item.Some? <==> ParseDecimal(amount).Some? && !IsBlank(description)
      ensures item.Some? ==> item.value == DialogItem(kind, ParseDecimal(amount).value, selectedDate, description)
      ensures item.Some? ==> item.value.fields.amount >= 0.0
    {
      var amt := ParseDecimal(amount);
      item := None;
      if amt.Some? && !IsBlank(description) {
        item := Some(DialogItem(kind, amt.value, selectedDate, description));
      }
    }
  }
}
