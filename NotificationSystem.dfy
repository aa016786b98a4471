/** The notification log (src/components/NotificationSystem.tsx): a most-recent-first list
    with a read flag per entry, mirrored in the storage entry `notifications`. */
module NotificationSystem {
  import opened Sequences
  import opened Persistence
  import Text

  datatype Notification = Notification(id: string, title: string, message: string, read: bool, timestamp: int)

  /** `unreadCount`. */
  function UnreadCount(ns: seq<Notification>): (n: nat)
    ensures n <= |ns|
  {
    |Filter(ns, (n: Notification) => !n.read)|
  }

  /** `markAllAsRead`: the same entries in the same order, all read. */
  function MarkAll(ns: seq<Notification>): (r: seq<Notification>)
    ensures |r| == |ns|
    ensures forall i :: 0 <= i < |ns| ==> r[i].read && r[i].(read := ns[i].read) == ns[i]
  {
    if ns == [] then [] else [ns[0].(read := true)] + MarkAll(ns[1..])
  }

  /** `markAsRead(id)`: the entries with that id become read; nothing else changes. */
  function MarkOne(ns: seq<Notification>, id: string): (r: seq<Notification>)
    ensures |r| == |ns|
    ensures forall i :: 0 <= i < |ns| ==> r[i] == if ns[i].id == id then ns[i].(read := true) else ns[i]
  {
    if ns == [] then [] else [if ns[0].id == id then ns[0].(read := true) else ns[0]] + MarkOne(ns[1..], id)
  }

  /** `removeNotification(id)`. */
  function RemoveById(ns: seq<Notification>, id: string): (r: seq<Notification>)
    ensures forall i :: 0 <= i < |r| ==> r[i].id != id
  {
    Filter(ns, (n: Notification) => n.id != id)
  }

  /** The entry `addNotification` creates at instant `now` (`Date.now()`, taken to be the
      same instant as the `new Date()` of its timestamp): unread, id `notification-<now>`. */
  function NewNotification(title: string, message: string, now: nat): (n: Notification)
    ensures n.id == "notification-" + Text.DecimalString(now)
    ensures !n.read && n.timestamp == now && n.title == title && n.message == message
  {
    Notification("notification-" + Text.DecimalString(now), title, message, false, now)
  }

  /** The unread count is the number of entries whose `read` is false, and is never more
      than the length. */
  lemma {:induction false} UnreadCountCounts(ns: seq<Notification>)
    ensures UnreadCount(ns) <= |ns|
    ensures UnreadCount(ns) == 0 <==> forall i :: 0 <= i < |ns| ==> ns[i].read
  {
    if ns != [] {
      UnreadCountCounts(ns[1..]);
      assert forall i :: 1 <= i < |ns| ==> ns[i] == ns[1..][i - 1];
    }
  }

  /** After marking all as read nothing is unread, and marking all again changes nothing. */
  lemma MarkAllClearsUnread(ns: seq<Notification>)
    ensures UnreadCount(MarkAll(ns)) == 0
    ensures MarkAll(MarkAll(ns)) == MarkAll(ns)
  {
    UnreadCountCounts(MarkAll(ns));
  }

  /** Marking one entry read never raises the unread count, and lowers it when an unread
      entry has that id. */
  lemma {:induction false} MarkOneNeverIncreases(ns: seq<Notification>, id: string)
    ensures UnreadCount(MarkOne(ns, id)) <= UnreadCount(ns)
    ensures (exists i :: 0 <= i < |ns| && ns[i].id == id && !ns[i].read) ==>
            UnreadCount(MarkOne(ns, id)) < UnreadCount(ns)
  {
    if ns != [] {
      MarkOneNeverIncreases(ns[1..], id);
      var r := MarkOne(ns, id);
      assert r[1..] == MarkOne(ns[1..], id);
      assert forall i :: 1 <= i < |ns| ==> ns[i] == ns[1..][i - 1];
    }
  }

  /** Removing keeps exactly the entries with another id, in their original order. */
  lemma RemoveByIdKeepsOthers(ns: seq<Notification>, id: string)
    ensures IsSubsequence(RemoveById(ns, id), ns)
    ensures forall x :: x in RemoveById(ns, id) <==> x in ns && x.id != id
    ensures forall x :: multiset(RemoveById(ns, id))[x] == if x.id != id then multiset(ns)[x] else 0
  {
    FilterIsSubsequence(ns, (n: Notification) => n.id != id);
    forall x {
      FilterMembership(ns, (n: Notification) => n.id != id, x);
    }
    forall x ensures multiset(RemoveById(ns, id))[x] == if x.id != id then multiset(ns)[x] else 0 {
      FilterCount(ns, (n: Notification) => n.id != id, x);
    }
  }

  /** Adding puts one unread entry in front: the length and the unread count both grow by one. */
  lemma AddGrowsUnread(ns: seq<Notification>, title: string, message: string, now: nat)
    ensures var r := [NewNotification(title, message, now)] + ns;
      |r| == |ns| + 1 && UnreadCount(r) == UnreadCount(ns) + 1 && r[1..] == ns
  {
    var r := [NewNotification(title, message, now)] + ns;
    assert r[1..] == ns;
  }

  /** Entries added at different instants get different ids. */
  lemma AddedIdsDiffer(now1: nat, now2: nat, t1: string, m1: string, t2: string, m2: string)
    requires now1 != now2
    ensures NewNotification(t1, m1, now1).id != NewNotification(t2, m2, now2).id
  {
    var p := "notification-";
    if NewNotification(t1, m1, now1).id == NewNotification(t2, m2, now2).id {
      var a := Text.DecimalString(now1);
      var b := Text.DecimalString(now2);
      assert (p + a)[|p|..] == a && (p + b)[|p|..] == b;
      Text.DecimalStringInjective(now1, now2);
    }
  }

  /** The list the load effect leaves: the stored records when the entry parses, and the
      list as it was (empty on mount) when the entry is missing or malformed. */
  function LoadedNotifications(b: Blob<Notification>, current: seq<Notification>): (ns: seq<Notification>)
    ensures b.Records? ==> ns == b.items
    ensures !b.Records? ==> ns == current
  {
    if b.Records? then b.items else current
  }

  /** The component's notification state together with the storage entry. */
  class NotificationLog {
    var notifications: seq<Notification>
    var stored: Blob<Notification>

    constructor (blob: Blob<Notification>)
      ensures notifications == [] && stored == blob
    {
      notifications := [];
      stored := blob;
    }

    /** `setNotifications(next)` followed by the save effect it triggers. */
    method SetNotifications(next: seq<Notification>)
      modifies this
      ensures notifications == next
      ensures stored == AfterSave(next, old(stored))
    {
      notifications := next;
      if |notifications| > 0 {
        stored := Records(notifications);
      }
    }

    /** The load effect: the state is set (and the save effect runs) only when the entry parses. */
    method Load()
      modifies this
      ensures notifications == LoadedNotifications(old(stored), old(notifications))
      ensures stored == if old(stored).Records? then AfterSave(notifications, old(stored)) else old(stored)
    {
      if stored.Records? {
        SetNotifications(stored.items);
      }
    }

    method MarkAllAsRead()
      modifies this
      ensures notifications == MarkAll(old(notifications))
      ensures stored == AfterSave(notifications, old(stored))
    {
      SetNotifications(MarkAll(notifications));
    }

    method MarkAsRead(id: string)
      modifies this
      ensures notifications == MarkOne(old(notifications), id)
      ensures stored == AfterSave(notifications, old(stored))
    {
      SetNotifications(MarkOne(notifications, id));
    }

    method Remove(id: string)
      modifies this
      ensures notifications == RemoveById(old(notifications), id)
      ensures stored == AfterSave(notifications, old(stored))
    {
      SetNotifications(RemoveById(notifications, id));
    }

    /** `addNotification`: prepends the new entry and returns its id. */
    method Add(title: string, message: string, now: nat) returns (id: string)
      modifies this
      ensures notifications == [NewNotification(title, message, now)] + old(notifications)
      ensures id == notifications[0].id == "notification-" + Text.DecimalString(now)
      ensures stored == Records(notifications)
    {
      var n := NewNotification(title, message, now);
      SetNotifications([n] + notifications);
      id := n.id;
    }
  }
}
