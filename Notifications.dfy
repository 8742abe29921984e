/** The notification routes of src/routes/notifications.ts: the caller's
    list, newest first, with its `hasUnread` flag, and marking one of the
    caller's notifications as read. */
module Notifications {
  import opened Common
  import opened Records
  import opened Store
  import opened Sorting

  const INVALID_NOTIFICATION_MESSAGE: string := "Invalid notification provided"
  const UPDATED_MESSAGE: string := "Updated successfully!"

  function CreatedAt(n: Notification): real {
    n.createdAt as real
  }

  /** `find({ userId }).sort({ createdAt: -1 })`: exactly the caller's
      notifications, newest first. */
  function UserNotifications(ns: seq<Notification>, userId: Id): (r: seq<Notification>)
    ensures forall n :: n in r <==> n in ns && n.userId == userId
    ensures multiset(r) == multiset(Filter(ns, (n: Notification) => n.userId == userId))
    ensures SortedDesc(r, CreatedAt)
  {
    var owned := Filter(ns, (n: Notification) => n.userId == userId);
    var r := SortDesc(owned, CreatedAt);
    forall n
      ensures n in r <==> n in owned
    {
      assert n in r <==> n in multiset(r);
      assert n in owned <==> n in multiset(owned);
    }
    r
  }

  /** `notifications.some((n) => !n.isRead)`. */
  function HasUnread(list: seq<Notification>): (r: bool)
    ensures r <==> exists i :: 0 <= i < |list| && !list[i].isRead
  {
    if list == [] then false
    else
      assert forall i :: 1 <= i < |list| ==> list[i] == list[1..][i - 1];
      !list[0].isRead || HasUnread(list[1..])
  }

  /** The flag is computed over the caller's list only: another user's
      unread notification does not raise it. */
  lemma HasUnreadIsOwnerScoped(ns: seq<Notification>, userId: Id)
    ensures HasUnread(UserNotifications(ns, userId)) <==>
              exists i :: 0 <= i < |ns| && ns[i].userId == userId && !ns[i].isRead
  {
    var list := UserNotifications(ns, userId);
    if HasUnread(list) {
      var i :| 0 <= i < |list| && !list[i].isRead;
      assert list[i] in list;
      var j :| 0 <= j < |ns| && ns[j] == list[i];
    } else {
      forall i | 0 <= i < |ns| && ns[i].userId == userId
        ensures ns[i].isRead
      {
        assert ns[i] in ns;
        assert ns[i] in list;
        var j :| 0 <= j < |list| && list[j] == ns[i];
      }
    }
  }

  // ---------------------------------------------------------------------
  // PATCH /:id: findOneAndUpdate({ _id, userId }, { isRead: true })

  /** The first notification with that id and owner. */
  function FindOwned(ns: seq<Notification>, id: Id, userId: Id): (r: Option<nat>)
    ensures r.Some? ==> r.value < |ns| && ns[r.value].id == id && ns[r.value].userId == userId
                        && forall k :: 0 <= k < r.value ==> !(ns[k].id == id && ns[k].userId == userId)
    ensures r.None? <==> forall k :: 0 <= k < |ns| ==> !(ns[k].id == id && ns[k].userId == userId)
  {
    if ns == [] then None
    else if ns[0].id == id && ns[0].userId == userId then Some(0)
    else match FindOwned(ns[1..], id, userId)
      case None => None
      case Some(k) => Some(k + 1)
  }

  /** The stored notifications after the update. */
  function MarkedRead(ns: seq<Notification>, id: Id, userId: Id): (r: seq<Notification>)
    ensures |r| == |ns|
  {
    match FindOwned(ns, id, userId)
    case None => ns
    case Some(k) => ns[k := ns[k].(isRead := true)]
  }

  /** Only one notification can change: the caller's own with that id, which
      becomes read; every other record, and every other field, stays. */
  lemma MarkReadChangesOnlyTheMatch(ns: seq<Notification>, id: Id, userId: Id)
    ensures var r := MarkedRead(ns, id, userId);
            forall j :: 0 <= j < |ns| ==>
              r[j].(isRead := ns[j].isRead) == ns[j]
              && (r[j] != ns[j] ==> ns[j].id == id && ns[j].userId == userId && r[j].isRead)
    ensures FindOwned(ns, id, userId).Some? ==> MarkedRead(ns, id, userId)[FindOwned(ns, id, userId).value].isRead
    ensures FindOwned(ns, id, userId).None? ==> MarkedRead(ns, id, userId) == ns
  {
  }

  /** Marking the same notification twice is the same as marking it once. */
  lemma MarkReadIdempotent(ns: seq<Notification>, id: Id, userId: Id)
    ensures MarkedRead(MarkedRead(ns, id, userId), id, userId) == MarkedRead(ns, id, userId)
  {
    var once := MarkedRead(ns, id, userId);
    var k := FindOwned(ns, id, userId);
    if k.Some? {
      var k2 := FindOwned(once, id, userId);
      assert once[k.value].id == id && once[k.value].userId == userId;
      assert forall j :: 0 <= j < k.value ==> once[j] == ns[j];
      assert k2 == k;
      assert once[k.value := once[k.value].(isRead := true)] == once;
    }
  }

  /** `PATCH /:id`: 400 and nothing changed unless the caller owns a
      notification with that id; otherwise it is marked read. */
  method MarkRead(db: Db, id: Id, userId: Id) returns (r: Outcome<string>)
    requires db.Valid()
    modifies db`notifications
    ensures db.Valid()
    ensures db.notifications == MarkedRead(old(db.notifications), id, userId)
    ensures FindOwned(old(db.notifications), id, userId).None? <==> r == Fail(BAD_REQUEST, INVALID_NOTIFICATION_MESSAGE)
    ensures r.Fail? || r == Ok(UPDATED_MESSAGE)
  {
    var k := FindOwned(db.notifications, id, userId);
    if k.None? {
      return Fail(BAD_REQUEST, INVALID_NOTIFICATION_MESSAGE);
    }
    db.notifications := db.notifications[k.value := db.notifications[k.value].(isRead := true)];
    r := Ok(UPDATED_MESSAGE);
  }
}
