/** The notification centre (client/src/pages/notifications/Notifications.js): the
    list with its read flags, the unread counter shown beside it, the filter and
    the styling fallback. */
module Notifications {
  import opened Common

  /** `action` only records whether the notification has an action button. */
  datatype Notification = Notification(id: int, kind: string, read: bool, hasAction: bool)

  /** The page state: the list and the separately kept unread counter. */
  datatype NotificationsState = NotificationsState(notifications: seq<Notification>, unreadCount: nat)

  predicate IsUnread(n: Notification) { !n.read }

  function CountUnread(ns: seq<Notification>): nat
  {
    CountWhere(ns, IsUnread)
  }

  /** The counter agrees with the list. */
  predicate CounterAccurate(s: NotificationsState)
  {
    s.unreadCount == CountUnread(s.notifications)
  }

  /** The state once the notifications are loaded: the counter is the number of
      unread ones. */
  function Loaded(ns: seq<Notification>): (s: NotificationsState)
    ensures s.notifications == ns
    ensures CounterAccurate(s)
  {
    NotificationsState(ns, CountUnread(ns))
  }

  /** The list with every notification carrying `id` marked read, all else kept. */
  function MarkRead(ns: seq<Notification>, id: int): (r: seq<Notification>)
    ensures |r| == |ns|
    ensures forall i :: 0 <= i < |ns| ==> r[i] == if ns[i].id == id then ns[i].(read := true) else ns[i]
  {
    seq(|ns|, i requires 0 <= i < |ns| => if ns[i].id == id then ns[i].(read := true) else ns[i])
  }

  /** `markAsRead(id)` as written: the counter drops by one (not below zero) whether
      or not the notification was unread. The action button of a notification calls
      it for read notifications too. */
  function MarkAsReadAsWritten(s: NotificationsState, id: int): (r: NotificationsState)
    ensures r.notifications == MarkRead(s.notifications, id)
    ensures r.unreadCount == if s.unreadCount > 0 then s.unreadCount - 1 else 0
  {
    NotificationsState(MarkRead(s.notifications, id), if s.unreadCount > 0 then s.unreadCount - 1 else 0)
  }

  /** Clicking the action of a read notification makes the counter disagree with the
      list: it reads zero while a warning is still unread. */
  lemma AsWrittenCounterDrifts()
    ensures var s := Loaded([Notification(1, "warning", false, true), Notification(3, "info", true, true)]);
      var r := MarkAsReadAsWritten(s, 3);
      CounterAccurate(s) && !CounterAccurate(r) && r.unreadCount == 0 && CountUnread(r.notifications) == 1
  {
    var ns := [Notification(1, "warning", false, true), Notification(3, "info", true, true)];
    var marked := MarkRead(ns, 3);
    assert marked == ns;
    assert ns[..1] == [ns[0]] && [ns[0]][..0] == [];
    assert CountUnread(ns) == 1;
  }

  function UnreadWithId(ns: seq<Notification>, id: int): nat
  {
    CountWhere(ns, (n: Notification) => n.id == id && !n.read)
  }

  /** Marking read removes exactly the unread notifications carrying `id` from the
      unread count. */
  lemma {:induction false} CountAfterMark(ns: seq<Notification>, id: int)
    ensures CountUnread(MarkRead(ns, id)) == CountUnread(ns) - UnreadWithId(ns, id)
    decreases |ns|
  {
    if ns != [] {
      var init := ns[..|ns| - 1];
      CountAfterMark(init, id);
      assert MarkRead(ns, id)[..|ns| - 1] == MarkRead(init, id);
      UnreadWithIdBound(init, id);
    }
  }

  lemma {:induction false} UnreadWithIdBound(ns: seq<Notification>, id: int)
    ensures UnreadWithId(ns, id) <= CountUnread(ns)
    decreases |ns|
  {
    if ns != [] {
      UnreadWithIdBound(ns[..|ns| - 1], id);
    }
  }

  /** `markAsRead(id)` as intended: the counter drops only by the notifications that
      were actually unread. */
  function MarkAsRead(s: NotificationsState, id: int): (r: NotificationsState)
    ensures r.notifications == MarkRead(s.notifications, id)
    ensures CounterAccurate(s) ==> CounterAccurate(r)
    ensures CounterAccurate(s) ==> r.unreadCount <= s.unreadCount
  {
    var drop := UnreadWithId(s.notifications, id);
    CountAfterMark(s.notifications, id);
    NotificationsState(MarkRead(s.notifications, id), if s.unreadCount >= drop then s.unreadCount - drop else 0)
  }

  /** On an unread notification with a unique id the two agree. */
  lemma AgreeOnUnread(s: NotificationsState, i: nat)
    requires CounterAccurate(s)
    requires i < |s.notifications| && !s.notifications[i].read
    requires forall j :: 0 <= j < |s.notifications| && j != i ==> s.notifications[j].id != s.notifications[i].id
    ensures MarkAsRead(s, s.notifications[i].id) == MarkAsReadAsWritten(s, s.notifications[i].id)
  {
    OnlyOneUnreadWithId(s.notifications, i);
  }

  lemma {:induction false} OnlyOneUnreadWithId(ns: seq<Notification>, i: nat)
    requires i < |ns| && !ns[i].read
    requires forall j :: 0 <= j < |ns| && j != i ==> ns[j].id != ns[i].id
    ensures UnreadWithId(ns, ns[i].id) == 1
    decreases |ns|
  {
    var id := ns[i].id;
    var init := ns[..|ns| - 1];
    if i == |ns| - 1 {
      NoneWithId(init, id);
    } else {
      OnlyOneUnreadWithId(init, i);
    }
  }

  lemma {:induction false} NoneWithId(ns: seq<Notification>, id: int)
    requires forall j :: 0 <= j < |ns| ==> ns[j].id != id
    ensures UnreadWithId(ns, id) == 0
    decreases |ns|
  {
    if ns != [] {
      NoneWithId(ns[..|ns| - 1], id);
    }
  }

  /** `markAllAsRead`: every notification read, counter zero. */
  function MarkAllAsRead(s: NotificationsState): (r: NotificationsState)
    ensures |r.notifications| == |s.notifications|
    ensures forall i :: 0 <= i < |s.notifications| ==> r.notifications[i] == s.notifications[i].(read := true)
    ensures r.unreadCount == 0 && CounterAccurate(r)
  {
    var ns := seq(|s.notifications|, i requires 0 <= i < |s.notifications| => s.notifications[i].(read := true));
    NoneUnread(ns);
    NotificationsState(ns, 0)
  }

  lemma {:induction false} NoneUnread(ns: seq<Notification>)
    requires forall i :: 0 <= i < |ns| ==> ns[i].read
    ensures CountUnread(ns) == 0
    decreases |ns|
  {
    if ns != [] {
      NoneUnread(ns[..|ns| - 1]);
    }
  }

  /** Whether the filter shows a notification. */
  predicate Shown(n: Notification, filter: string)
  {
    if filter == "all" then true
    else if filter == "unread" then !n.read
    else n.kind == filter
  }

  /** `filteredNotifications`. */
  function FilteredNotifications(ns: seq<Notification>, filter: string): (r: seq<Notification>)
    ensures filter == "all" ==> r == ns
    ensures filter == "unread" ==> (forall n :: n in r <==> n in ns && !n.read)
    ensures filter == "unread" ==> |r| == CountUnread(ns)
    ensures filter != "all" && filter != "unread" ==> forall n :: n in r <==> n in ns && n.kind == filter
  {
    if filter == "all" then ns
    else
      var keep := n => Shown(n, filter);
      if filter == "unread" then CountWhereSame(ns, keep, IsUnread); KeepWhere(ns, keep)
      else KeepWhere(ns, n => Shown(n, filter))
  }

  /** Every filter keeps the list's order and repetitions: filtering distributes over
      concatenation, and a single notification is kept exactly when the filter shows it. */
  lemma FilteredKeepsOrder(a: seq<Notification>, b: seq<Notification>, n: Notification, filter: string)
    ensures FilteredNotifications(a + b, filter) == FilteredNotifications(a, filter) + FilteredNotifications(b, filter)
    ensures FilteredNotifications([n], filter) == if Shown(n, filter) then [n] else []
  {
    if filter != "all" {
      var p := (x: Notification) => Shown(x, filter);
      KeepWhereAppend(a, b, p);
      KeepWhereSingleton(n, p);
    }
  }

  datatype NotificationType = Info | Warning | Success | Critical

  /** `getNotificationType(type)`: a known type styles as itself, anything else as info. */
  function NotificationTypeOf(kind: string): (t: NotificationType)
    ensures kind == "warning" <==> t == Warning
    ensures kind == "success" <==> t == Success
    ensures kind == "critical" <==> t == Critical
    ensures kind !in {"warning", "success", "critical"} <==> t == Info
  {
    match kind
    case "warning" => Warning
    case "success" => Success
    case "critical" => Critical
    case _ => Info
  }
}
