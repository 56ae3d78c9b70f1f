/**
 * ReminderWorker: the periodic job that posts a notification for each
 * pending upcoming item due today or tomorrow. Notification delivery is a
 * platform service; the model returns the notifications the job posts.
 */
module Reminders {
  import opened Wrappers
  import opened Entities
  import opened Clock
  import opened Tables
  import opened Lists
  import opened Database
  import opened Repository

  /** The offset that keeps a "tomorrow" notification's id apart from a "today" one. */
  const TomorrowIdOffset: int := 100000

  /** One posted notification. The message carries the item's description and amount. */
  datatype Notification = Notification(id: int, title: string, description: string, amount: real, dueToday: bool)

  function TypeLabel(kind: PlanningType): string {
    if kind == INCOME then "Upcoming Income" else "Upcoming Payment"
  }

  /** The per-item decision of `doWork`, for an item already known to be pending. */
  function Classify(u: UpcomingItem, now: int, zoneOffset: int): (r: Option<Notification>)
    ensures r.Some? <==>
              StartOfDay(u.fields.dueDate, zoneOffset) == StartOfDay(now, zoneOffset) ||
              StartOfDay(u.fields.dueDate, zoneOffset) == StartOfDay(now, zoneOffset) + DayMillis
    ensures r.Some? && r.value.dueToday ==>
              r.value.id == u.id && r.value.title == "Reminder: " + TypeLabel(u.fields.kind) + " Today"
    ensures r.Some? && !r.value.dueToday ==>
              r.value.id == u.id + TomorrowIdOffset && r.value.title == "Reminder: " + TypeLabel(u.fields.kind) + " Tomorrow"
    ensures r.Some? ==> (r.value.dueToday <==> StartOfDay(u.fields.dueDate, zoneOffset) == StartOfDay(now, zoneOffset))
  {
    var today := StartOfDay(now, zoneOffset);
    var tomorrow := today + DayMillis;
    var itemDate := StartOfDay(u.fields.dueDate, zoneOffset);
    var typeStr := TypeLabel(u.fields.kind);
    if itemDate == today then
      Some(Notification(u.id, "Reminder: " + typeStr + " Today", u.fields.description, u.fields.amount, true))
    else if itemDate == tomorrow then
      Some(Notification(u.id + TomorrowIdOffset, "Reminder: " + typeStr + " Tomorrow", u.fields.description, u.fields.amount, false))
    else None
  }

  /** An item is reminded of exactly when it falls due in the two local days starting at today's midnight. */
  lemma ClassifyWindow(u: UpcomingItem, now: int, zoneOffset: int)
    ensures Classify(u, now, zoneOffset).Some? <==>
              StartOfDay(now, zoneOffset) <= u.fields.dueDate < StartOfDay(now, zoneOffset) + 2 * DayMillis
  {
    var today := StartOfDay(now, zoneOffset);
    StartOfDayCharacterized(u.fields.dueDate, today, zoneOffset);
    StartOfDayCharacterized(u.fields.dueDate, today + DayMillis, zoneOffset);
  }

  /** The notifications posted for `items`, in list order: one per pending item due today or tomorrow. */
  function Notifications(items: seq<UpcomingItem>, now: int, zoneOffset: int): (r: seq<Notification>)
    ensures |r| <= |items|
    decreases |items|
  {
    if items == [] then []
    else
      var rest := Notifications(items[1..], now, zoneOffset);
      if items[0].fields.status == PENDING && Classify(items[0], now, zoneOffset).Some?
      then [Classify(items[0], now, zoneOffset).value] + rest
      else rest
  }

  /** Every notification comes from a pending item of the list, and every pending item due today or tomorrow posts one. */
  lemma {:induction false} NotificationsExact(items: seq<UpcomingItem>, now: int, zoneOffset: int)
    ensures forall n | n in Notifications(items, now, zoneOffset) ::
              exists u | u in items :: u.fields.status == PENDING && Classify(u, now, zoneOffset) == Some(n)
    ensures forall u | u in items && u.fields.status == PENDING && Classify(u, now, zoneOffset).Some? ::
              Classify(u, now, zoneOffset).value in Notifications(items, now, zoneOffset)
    decreases |items|
  {
    if items != [] {
      NotificationsExact(items[1..], now, zoneOffset);
      forall u | u in items ensures u == items[0] || u in items[1..] {
        var j := IndexOf(items, u);
        if j > 0 { assert items[1..][j - 1] == u; }
      }
    }
  }

  /** Items that are not pending post nothing. */
  lemma {:induction false} OnlyPendingNotify(items: seq<UpcomingItem>, now: int, zoneOffset: int)
    requires forall u | u in items :: u.fields.status != PENDING
    ensures Notifications(items, now, zoneOffset) == []
    decreases |items|
  {
    if items != [] {
      assert forall u | u in items[1..] :: u in items;
      OnlyPendingNotify(items[1..], now, zoneOffset);
    }
  }

  /**
   * `doWork`: reads all upcoming items (ordered by due date), keeps the
   * pending ones and posts a notification for each one due today or
   * tomorrow. It always reports success.
   */
  method DoWork(db: LedgerDatabase, now: int, zoneOffset: int) returns (posted: seq<Notification>, success: bool)
    ensures success
    ensures exists items :: IsListing(items, UpcomingRows(db.Snapshot()), DueDate, false) &&
                            posted == Notifications(items, now, zoneOffset)
  {
    var allItems := db.GetAllUpcomingItems();
    var pendingItems := Filter(allItems, IsPending);
    posted := [];
    var i := |pendingItems|;
    while i > 0
      invariant 0 <= i <= |pendingItems|
      invariant posted == Notifications(pendingItems[i..], now, zoneOffset)
    {
      i := i - 1;
      var n := Classify(pendingItems[i], now, zoneOffset);
      assert pendingItems[i..][1..] == pendingItems[i + 1..];
      if n.Some? {
        posted := [n.value] + posted;
      }
    }
    PendingFilterInvisible(allItems, now, zoneOffset);
    success := true;
  }

  /** Filtering to pending items first posts the same notifications as classifying the whole list. */
  lemma {:induction false} PendingFilterInvisible(items: seq<UpcomingItem>, now: int, zoneOffset: int)
    ensures Notifications(Filter(items, IsPending), now, zoneOffset) == Notifications(items, now, zoneOffset)
    decreases |items|
  {
    if items != [] {
      PendingFilterInvisible(items[1..], now, zoneOffset);
    }
  }
}
