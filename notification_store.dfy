/** The client store of notifications (`notificationStore.ts`): the list, a
    stored count of unread notifications, a loading flag and the last error.
    The actions are mock implementations that wait on a timer and then change
    the list; the settling of that wait is an input. */
module NotificationStore {
  import opened Wrappers
  import opened Seqs

  datatype Kind = Reminder | Suggestion | Appointment | System

  datatype Notification = Notification(
    id: string,
    userId: string,
    title: string,
    message: string,
    kind: Kind,
    read: bool,
    timestamp: int,
    actionUrl: Option<string>)

  predicate IsUnread(n: Notification) { !n.read }

  /** `notifications.filter(n => !n.read).length`. */
  function CountUnread(ns: seq<Notification>): nat
  {
    CountWhere(ns, IsUnread)
  }

  const HourMs := 3600000
  const DayMs := 86400000

  const ReminderMessage := "You haven't logged your mood today. Take a moment to check in with yourself."
  const InsightMessage := "We've generated new insights based on your recent mood entries."
  const WalkMessage := "Based on your mood patterns, a short walk might help you feel better today."
  const SessionMessage := "Reminder: You have a therapy session scheduled for tomorrow at 3:00 PM."

  /** The four notifications `fetchNotifications` returns for `userId` at instant `now`. */
  function MockNotifications(userId: string, now: int): seq<Notification>
  {
    [ Notification("1", userId, "Time to log your mood", ReminderMessage, Reminder, false, now - HourMs, None),
      Notification("2", userId, "New insight available", InsightMessage, System, false, now - DayMs, Some("/insights")),
      Notification("3", userId, "Activity suggestion", WalkMessage, Suggestion, true, now - 2 * DayMs, None),
      Notification("4", userId, "Upcoming appointment", SessionMessage, Appointment, true, now - 3 * DayMs, Some("/appointments")) ]
  }

  /** The fetched notifications all belong to the user, are newest first, and two are unread. */
  lemma MockNotificationsFacts(userId: string, now: int)
    ensures |MockNotifications(userId, now)| == 4
    ensures CountUnread(MockNotifications(userId, now)) == 2
    ensures forall i :: 0 <= i < 4 ==> MockNotifications(userId, now)[i].userId == userId
    ensures forall i, j :: 0 <= i < j < 4 ==>
              MockNotifications(userId, now)[i].timestamp > MockNotifications(userId, now)[j].timestamp
  {
    var ns := MockNotifications(userId, now);
    assert ns == [ns[0], ns[1], ns[2], ns[3]];
    CountUnreadFour(ns[0], ns[1], ns[2], ns[3]);
  }

  /** The unread count of four notifications, one by one. */
  lemma CountUnreadFour(a: Notification, b: Notification, c: Notification, d: Notification)
    ensures CountUnread([a, b, c, d]) ==
              (if a.read then 0 else 1) + (if b.read then 0 else 1) + (if c.read then 0 else 1) + (if d.read then 0 else 1)
  {
    var s := [a, b, c, d];
    assert s[1..] == [b, c, d] && [b, c, d][1..] == [c, d] && [c, d][1..] == [d] && [d][1..] == s[..0];
    assert CountUnread([d]) == (if d.read then 0 else 1);
    assert CountUnread([c, d]) == (if c.read then 0 else 1) + CountUnread([d]);
    assert CountUnread([b, c, d]) == (if b.read then 0 else 1) + CountUnread([c, d]);
    assert CountUnread(s) == (if a.read then 0 else 1) + CountUnread([b, c, d]);
  }

  /** `notifications.map(n => p(n) ? { ...n, read: true } : n)`: the
      notifications that `p` selects become read, and nothing else changes. */
  function MarkWhere(ns: seq<Notification>, p: Notification -> bool): (r: seq<Notification>)
    ensures |r| == |ns|
    ensures forall i :: 0 <= i < |ns| ==> r[i].read == (ns[i].read || p(ns[i]))
    ensures forall i :: 0 <= i < |ns| ==> r[i] == ns[i].(read := r[i].read)
  {
    Map(ns, (n: Notification) => if p(n) then n.(read := true) else n)
  }

  /** `notifications.map(n => n.id === id ? { ...n, read: true } : n)`. */
  function MarkRead(ns: seq<Notification>, id: string): (r: seq<Notification>)
    ensures |r| == |ns|
    ensures forall i :: 0 <= i < |ns| ==> r[i].read == (ns[i].read || ns[i].id == id)
    ensures forall i :: 0 <= i < |ns| ==> r[i] == ns[i].(read := r[i].read)
  {
    MarkWhere(ns, (n: Notification) => n.id == id)
  }

  lemma MarkReadIdempotent(ns: seq<Notification>, id: string)
    ensures MarkRead(MarkRead(ns, id), id) == MarkRead(ns, id)
  {
  }

  /** Marking reads off exactly the unread notifications with that id. */
  lemma {:induction false} MarkReadCount(ns: seq<Notification>, id: string)
    ensures CountUnread(MarkRead(ns, id)) ==
              CountUnread(ns) - CountWhere(ns, (n: Notification) => !n.read && n.id == id)
  {
    if ns != [] {
      MarkReadCount(ns[1..], id);
      assert MarkRead(ns, id)[1..] == MarkRead(ns[1..], id);
    }
  }

  /** `notifications.map(n => n.userId === userId ? { ...n, read: true } : n)`. */
  function MarkAllFor(ns: seq<Notification>, userId: string): (r: seq<Notification>)
    ensures |r| == |ns|
    ensures forall i :: 0 <= i < |ns| ==> r[i].read == (ns[i].read || ns[i].userId == userId)
    ensures forall i :: 0 <= i < |ns| ==> r[i] == ns[i].(read := r[i].read)
  {
    MarkWhere(ns, (n: Notification) => n.userId == userId)
  }

  /** After marking one user's notifications, nothing is unread exactly when every
      notification was read already or belongs to that user. */
  lemma MarkAllForLeavesNoneUnreadIff(ns: seq<Notification>, userId: string)
    ensures CountUnread(MarkAllFor(ns, userId)) == 0 <==>
              forall i :: 0 <= i < |ns| ==> ns[i].read || ns[i].userId == userId
  {
    var r := MarkAllFor(ns, userId);
    assert (forall i :: 0 <= i < |r| ==> !IsUnread(r[i])) <==>
           (forall i :: 0 <= i < |ns| ==> ns[i].read || ns[i].userId == userId);
  }

  /** A list with another user's unread notification: `markAllAsRead` stores a
      count of 0 while one notification stays unread. */
  lemma MarkAllForOtherUserKeepsUnread()
    ensures var ns := [Notification("9", "other", "", "", Reminder, false, 0, None)];
            CountUnread(MarkAllFor(ns, "me")) == 1
  {
    var ns := [Notification("9", "other", "", "", Reminder, false, 0, None)];
    assert MarkAllFor(ns, "me")[0].read == false;
  }

  /** `notifications.filter(n => n.id !== id)`. */
  function Remove(ns: seq<Notification>, id: string): (r: seq<Notification>)
    ensures forall i :: 0 <= i < |r| ==> r[i].id != id && r[i] in ns
    ensures forall i :: 0 <= i < |ns| && ns[i].id != id ==> ns[i] in r
  {
    Filter(ns, (n: Notification) => n.id != id)
  }

  /** Removing keeps the others in order and takes exactly the unread ones with that id off the count. */
  lemma {:induction false} RemoveSpec(ns: seq<Notification>, id: string)
    ensures Subseq(Remove(ns, id), ns)
    ensures CountUnread(Remove(ns, id)) ==
              CountUnread(ns) - CountWhere(ns, (n: Notification) => !n.read && n.id == id)
  {
    FilterIsSubseq(ns, (n: Notification) => n.id != id);
    RemoveCount(ns, id);
  }

  lemma {:induction false} RemoveCount(ns: seq<Notification>, id: string)
    ensures CountUnread(Remove(ns, id)) ==
              CountUnread(ns) - CountWhere(ns, (n: Notification) => !n.read && n.id == id)
  {
    if ns != [] {
      RemoveCount(ns[1..], id);
      assert Remove(ns, id) == if ns[0].id != id then [ns[0]] + Remove(ns[1..], id) else Remove(ns[1..], id);
    }
  }

  class Store {
    var notifications: seq<Notification>
    var unreadCount: int
    var isLoading: bool
    var error: Option<string>

    /** The stored count agrees with the flags. */
    predicate CountConsistent()
      reads this
    {
      unreadCount == CountUnread(notifications)
    }

    constructor()
      ensures notifications == [] && unreadCount == 0 && !isLoading && error == None
      ensures CountConsistent()
    {
      notifications := [];
      unreadCount := 0;
      isLoading := false;
      error := None;
    }

    method StartRequest()
      modifies this
      ensures isLoading && error == None
      ensures notifications == old(notifications) && unreadCount == old(unreadCount)
    {
      isLoading := true;
      error := None;
    }

    method Fail(message: string)
      modifies this
      ensures !isLoading && error == Some(message)
      ensures notifications == old(notifications) && unreadCount == old(unreadCount)
    {
      error := Some(message);
      isLoading := false;
    }

    /** `thrown` is the message of the awaited step if it throws. */
    method FetchNotifications(userId: string, now: int, thrown: Option<string>)
      modifies this
      ensures !isLoading
      ensures thrown.None? ==>
                notifications == MockNotifications(userId, now) && unreadCount == 2 &&
                CountConsistent() && error == None
      ensures thrown.Some? ==>
                notifications == old(notifications) && unreadCount == old(unreadCount) && error == thrown
    {
      StartRequest();
      if thrown.None? {
        var mocks := MockNotifications(userId, now);
        MockNotificationsFacts(userId, now);
        var count := CountUnread(mocks);
        assert count == 2;
        notifications := mocks;
        unreadCount := count;
        isLoading := false;
      } else {
        Fail(thrown.value);
      }
    }

    method MarkAsRead(id: string, thrown: Option<string>)
      modifies this
      ensures !isLoading
      ensures thrown.None? ==>
                notifications == MarkRead(old(notifications), id) && CountConsistent() && error == None
      ensures thrown.Some? ==>
                notifications == old(notifications) && unreadCount == old(unreadCount) && error == thrown
    {
      StartRequest();
      if thrown.None? {
        notifications := MarkRead(notifications, id);
        unreadCount := CountUnread(notifications);
        isLoading := false;
      } else {
        Fail(thrown.value);
      }
    }

    /** Marks one user's notifications and stores a count of 0 whatever remains
        unread, so the count agrees with the flags exactly when every unread
        notification belonged to that user. */
    method MarkAllAsRead(userId: string, thrown: Option<string>)
      modifies this
      ensures !isLoading
      ensures thrown.None? ==>
                notifications == MarkAllFor(old(notifications), userId) && unreadCount == 0 && error == None
      ensures thrown.None? ==>
                (CountConsistent() <==>
                   forall i :: 0 <= i < |old(notifications)| ==>
                     old(notifications)[i].read || old(notifications)[i].userId == userId)
      ensures thrown.Some? ==>
                notifications == old(notifications) && unreadCount == old(unreadCount) && error == thrown
    {
      StartRequest();
      if thrown.None? {
        MarkAllForLeavesNoneUnreadIff(notifications, userId);
        notifications := MarkAllFor(notifications, userId);
        unreadCount := 0;
        isLoading := false;
      } else {
        Fail(thrown.value);
      }
    }

    method DeleteNotification(id: string, thrown: Option<string>)
      modifies this
      ensures !isLoading
      ensures thrown.None? ==>
                notifications == Remove(old(notifications), id) && CountConsistent() && error == None
      ensures thrown.Some? ==>
                notifications == old(notifications) && unreadCount == old(unreadCount) && error == thrown
    {
      StartRequest();
      if thrown.None? {
        notifications := Remove(notifications, id);
        unreadCount := CountUnread(notifications);
        isLoading := false;
      } else {
        Fail(thrown.value);
      }
    }
  }
}
