/**
 * The alerts page: notifications filtered by kind and shown newest first,
 * their icons, and marking one as read. Dates are millisecond timestamps.
 */
module Alerts {
  import opened Lists

  /** A notification; `kind` is one of 'examen', 'note', 'evenement', 'info', 'autre'. */
  datatype Notification = Notification(
    id: string,
    kind: string,
    title: string,
    message: string,
    time: string,
    dateObj: int,
    isRead: bool)

  /** The comparator `(a, b) => b.dateObj - a.dateObj`: newest first. */
  predicate NoOlder(a: Notification, b: Notification) {
    a.dateObj >= b.dateObj
  }

  lemma DateOrderIsTotalPreorder()
    ensures TotalPreorder(NoOlder)
  {
  }

  /** Kept by the filter: every notification for 'all', otherwise those of that kind. */
  predicate Shown(n: Notification, filter: string) {
    filter == "all" || n.kind == filter
  }

  /** The `filteredNotifications` getter: the shown ones, each as often as held, newest first. */
  function FilteredNotifications(notifications: seq<Notification>, filter: string): (r: seq<Notification>)
    ensures forall n :: multiset(r)[n] == if Shown(n, filter) then multiset(notifications)[n] else 0
    ensures filter == "all" ==> multiset(r) == multiset(notifications)
    ensures SortedBy(NoOlder, r)
  {
    DateOrderIsTotalPreorder();
    var kept := if filter != "all" then Filter((n: Notification) => n.kind == filter, notifications) else notifications;
    SortBy(NoOlder, kept)
  }

  /** `getNotificationIcon` */
  function NotificationIcon(kind: string): (icon: string)
    ensures kind == "examen" ==> icon == "school-outline"
    ensures kind == "note" ==> icon == "trophy-outline"
    ensures kind == "evenement" ==> icon == "calendar"
    ensures kind == "info" ==> icon == "information-circle-outline"
    ensures kind !in {"examen", "note", "evenement", "info"} ==> icon == "notifications-outline"
  {
    match kind
    case "examen" => "school-outline"
    case "note" => "trophy-outline"
    case "evenement" => "calendar"
    case "info" => "information-circle-outline"
    case _ => "notifications-outline"
  }

  /** `find(n => n.id === id)`, as an index: the first notification with that id, or -1. */
  function FirstWithId(notifications: seq<Notification>, id: string): (k: int)
    ensures -1 <= k < |notifications|
    ensures 0 <= k ==> notifications[k].id == id && forall j :: 0 <= j < k ==> notifications[j].id != id
    ensures k == -1 ==> forall j :: 0 <= j < |notifications| ==> notifications[j].id != id
  {
    FirstIndex(notifications, (n: Notification) => n.id == id)
  }

  /** The list after `markAsRead(id)`. */
  function MarkedRead(notifications: seq<Notification>, id: string): (r: seq<Notification>)
    ensures |r| == |notifications|
    ensures forall j :: 0 <= j < |r| ==>
      r[j] == if j == FirstWithId(notifications, id) then notifications[j].(isRead := true) else notifications[j]
  {
    var k := FirstWithId(notifications, id);
    if k == -1 then notifications else notifications[k := notifications[k].(isRead := true)]
  }

  /**
   * Marking is idempotent, an unknown id changes nothing, and only the first
   * notification with the id is touched.
   */
  lemma MarkedReadProperties(notifications: seq<Notification>, id: string)
    ensures MarkedRead(MarkedRead(notifications, id), id) == MarkedRead(notifications, id)
    ensures (forall j :: 0 <= j < |notifications| ==> notifications[j].id != id) ==>
      MarkedRead(notifications, id) == notifications
    ensures forall j :: 0 <= j < |notifications| && notifications[j].id == id ==>
      MarkedRead(notifications, id)[j].isRead || exists i :: 0 <= i < j && notifications[i].id == id
  {
    var once := MarkedRead(notifications, id);
    var k := FirstWithId(notifications, id);
    if k != -1 {
      assert FirstWithId(once, id) == k by {
        assert forall j :: 0 <= j < k ==> once[j].id == notifications[j].id;
      }
    }
  }

  class AlertePage {
    var selectedFilter: string
    var notifications: seq<Notification>

    constructor (initial: seq<Notification>)
      ensures selectedFilter == "all" && notifications == initial
    {
      selectedFilter := "all";
      notifications := initial;
    }

    /** `sortNotificationsByDate`: reorders the held list, newest first. */
    method SortNotificationsByDate()
      modifies this`notifications
      ensures multiset(notifications) == multiset(old(notifications))
      ensures SortedBy(NoOlder, notifications)
    {
      DateOrderIsTotalPreorder();
      notifications := SortBy(NoOlder, notifications);
    }

    /** `markAsRead` */
    method MarkAsRead(id: string)
      modifies this`notifications
      ensures notifications == MarkedRead(old(notifications), id)
    {
      var k := FirstWithId(notifications, id);
      if k != -1 {
        notifications := notifications[k := notifications[k].(isRead := true)];
      }
    }
  }
}
