/** services/notification_service.py: storing notifications, listing a user's
    notifications, and marking one as read. The websocket push itself is not
    modelled; `Create` only reports whether it would have been scheduled. */
module NotificationService {
  import opened Common
  import opened Lists
  import opened Store

  /** `create`: stores one unread notification for `userId`. A missing or
      empty payload is stored as the empty map. The push to the user's
      websocket is scheduled exactly when background tasks were handed in. */
  method Create(db: Db, userId: int, kind: string, payload: Option<Payload>, now: int,
                hasBackgroundTasks: bool)
    returns (n: Notification, pushScheduled: bool)
    requires db.Valid()
    modifies db`notifications, db`nextId
    ensures db.Valid()
    ensures db.notifications == old(db.notifications) + [n]
    ensures db.nextId == old(db.nextId) + 1
    ensures n == Notification(old(db.nextId), userId, kind, payload.GetOr(map[]), false, now)
    ensures pushScheduled == hasBackgroundTasks
  {
    var body := if payload.Some? && payload.value != map[] then payload.value else map[];
    n := db.AddNotification(Notification(0, userId, kind, body, false, now));
    pushScheduled := hasBackgroundTasks;
  }

  /** Newest first: `ORDER BY created_at DESC`. */
  function NewestFirstKey(n: Notification): int { -n.createdAt }

  function Listed(userId: int, unreadOnly: bool): Notification -> bool {
    (n: Notification) => n.userId == userId && (unreadOnly ==> !n.isRead)
  }

  /** `list_by_user`: the user's notifications (only the unread ones when
      asked), newest first. */
  function ListByUser(ns: seq<Notification>, userId: int, unreadOnly: bool): (r: seq<Notification>)
    ensures forall n :: n in r <==> n in ns && n.userId == userId && (unreadOnly ==> !n.isRead)
    ensures multiset(r) == multiset(Filter(ns, Listed(userId, unreadOnly)))
    ensures forall i, j :: 0 <= i < j < |r| ==> r[i].createdAt >= r[j].createdAt
  {
    var r := FilterSorted(ns, Listed(userId, unreadOnly), NewestFirstKey);
    assert forall i, j :: 0 <= i < j < |r| ==> NewestFirstKey(r[i]) <= NewestFirstKey(r[j]);
    r
  }

  function OwnedBy(notificationId: int, userId: int): Notification -> bool {
    (n: Notification) => n.id == notificationId && n.userId == userId
  }

  /** The table after `mark_as_read`: the first row with that id and that
      owner is marked read; without such a row nothing changes. */
  function MarkedRead(ns: seq<Notification>, notificationId: int, userId: int): (r: seq<Notification>)
    ensures |r| == |ns|
    ensures forall i :: 0 <= i < |ns| ==> r[i] == ns[i] || (r[i] == ns[i].(isRead := true) && OwnedBy(notificationId, userId)(ns[i]))
  {
    match FirstIndex(ns, OwnedBy(notificationId, userId))
    case None => ns
    case Some(i) => ns[i := ns[i].(isRead := true)]
  }

  /** Marking the same notification read a second time changes nothing. */
  lemma MarkedReadIdempotent(ns: seq<Notification>, notificationId: int, userId: int)
    ensures MarkedRead(MarkedRead(ns, notificationId, userId), notificationId, userId)
         == MarkedRead(ns, notificationId, userId)
  {
    var p := OwnedBy(notificationId, userId);
    match FirstIndex(ns, p)
    case None =>
    case Some(i) =>
      var once := ns[i := ns[i].(isRead := true)];
      assert p(once[i]);
      assert forall j :: 0 <= j < i ==> once[j] == ns[j];
      assert FirstIndex(once, p) == Some(i);
  }

  /** Only the owner can mark a notification read: for any other user the
      table is unchanged. */
  lemma MarkedReadOnlyOwner(ns: seq<Notification>, notificationId: int, userId: int)
    requires forall i :: 0 <= i < |ns| && ns[i].id == notificationId ==> ns[i].userId != userId
    ensures MarkedRead(ns, notificationId, userId) == ns
  {
  }

  /** `mark_as_read`: sets `is_read` on the notification with that id if it
      belongs to `userId` and returns it; otherwise returns None. */
  method MarkAsRead(db: Db, notificationId: int, userId: int) returns (r: Option<Notification>)
    requires db.Valid()
    modifies db`notifications
    ensures db.Valid()
    ensures db.notifications == MarkedRead(old(db.notifications), notificationId, userId)
    ensures r.None? <==> forall i :: 0 <= i < |old(db.notifications)| ==>
                          !OwnedBy(notificationId, userId)(old(db.notifications)[i])
    ensures r.Some? ==> r.value.id == notificationId && r.value.userId == userId && r.value.isRead
    ensures r.Some? ==> r.value in db.notifications
  {
    var k := FirstIndex(db.notifications, OwnedBy(notificationId, userId));
    if k.None? {
      r := None;
    } else {
      var i := k.value;
      var n := db.notifications[i].(isRead := true);
      IdsBelowUpdate(db.notifications, NotificationId, db.nextId, i, n);
      db.notifications := db.notifications[i := n];
      r := Some(n);
    }
  }
}
