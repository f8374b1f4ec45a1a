/** The notification inbox: a newest-first list of notifications and a separate
    unread counter, changed by add, mark-read, mark-all-read and remove.

    Ids come from the clock, so two entries may share one; every operation below
    is stated for lists with repeated ids. */
module NotificationContext {
  import opened Common

  datatype Notification = Notification(id: int, timestamp: int, read: bool, kind: string, message: string)

  /** What a caller passes to `addNotification`. Any of id, timestamp and read the
      caller supplies wins over the default, because the caller's object is spread last. */
  datatype NotificationInput = NotificationInput(
    id: Option<int>, timestamp: Option<int>, read: Option<bool>, kind: string, message: string)

  /** The entry that `addNotification` builds at clock reading `now`. */
  function NewNotification(input: NotificationInput, now: int): (n: Notification)
    ensures n.id == (if input.id.Some? then input.id.value else now)
    ensures n.timestamp == (if input.timestamp.Some? then input.timestamp.value else now)
    ensures n.read <==> input.read == Some(true)
    ensures n.kind == input.kind && n.message == input.message
  {
    Notification(input.id.GetOr(now), input.timestamp.GetOr(now), input.read.GetOr(false), input.kind, input.message)
  }

  /** The number of unread entries in a list. */
  function UnreadIn(ns: seq<Notification>): nat {
    |Filter(ns, (n: Notification) => !n.read)|
  }

  /** One entry marked read if it carries the id. */
  function MarkOne(n: Notification, id: int): Notification {
    if n.id == id then n.(read := true) else n
  }

  /** The `map` of `markAsRead`: every entry with the id is read, every other entry
      is unchanged, and the length and order are kept. */
  function MarkRead(ns: seq<Notification>, id: int): (r: seq<Notification>)
    ensures |r| == |ns|
    ensures forall i :: 0 <= i < |ns| ==> r[i] == (if ns[i].id == id then ns[i].(read := true) else ns[i])
  {
    if ns == [] then [] else [MarkOne(ns[0], id)] + MarkRead(ns[1..], id)
  }

  /** The `map` of `markAllAsRead`: the same entries in the same order, all read. */
  function MarkAll(ns: seq<Notification>): (r: seq<Notification>)
    ensures |r| == |ns|
    ensures forall i :: 0 <= i < |ns| ==> r[i] == ns[i].(read := true)
  {
    if ns == [] then [] else [ns[0].(read := true)] + MarkAll(ns[1..])
  }

  /** The `filter` of `removeNotification`: the entries without the id, in order. */
  function Without(ns: seq<Notification>, id: int): (r: seq<Notification>)
    ensures forall n :: n in r <==> n in ns && n.id != id
  {
    Filter(ns, (n: Notification) => n.id != id)
  }

  /** The `find` of `removeNotification`: the position of the first entry with
      the id, if any. */
  function FindById(ns: seq<Notification>, id: int): (r: Option<nat>)
    ensures r.None? <==> forall i :: 0 <= i < |ns| ==> ns[i].id != id
    ensures r.Some? ==> r.value < |ns| && ns[r.value].id == id
    ensures r.Some? ==> forall j :: 0 <= j < r.value ==> ns[j].id != id
  {
    if ns == [] then None
    else if ns[0].id == id then Some(0)
    else match FindById(ns[1..], id)
      case None => None
      case Some(i) => Some(i + 1)
  }

  /** After marking all, nothing is unread. */
  lemma {:induction false} MarkAllLeavesNoneUnread(ns: seq<Notification>)
    ensures UnreadIn(MarkAll(ns)) == 0
  {
    if ns != [] {
      MarkAllLeavesNoneUnread(ns[1..]);
      assert MarkAll(ns)[1..] == MarkAll(ns[1..]);
    }
  }

  /** Marking by id never creates unread entries, and after it no entry with that id is unread. */
  lemma {:induction false} MarkReadNeverAddsUnread(ns: seq<Notification>, id: int)
    ensures UnreadIn(MarkRead(ns, id)) <= UnreadIn(ns)
    ensures forall n :: n in MarkRead(ns, id) && n.id == id ==> n.read
  {
    if ns != [] {
      MarkReadNeverAddsUnread(ns[1..], id);
      assert MarkRead(ns, id)[1..] == MarkRead(ns[1..], id);
    }
  }

  /** Marking an id that no entry carries changes nothing. */
  lemma {:induction false} MarkReadAbsentId(ns: seq<Notification>, id: int)
    requires forall i :: 0 <= i < |ns| ==> ns[i].id != id
    ensures MarkRead(ns, id) == ns
  {
    if ns != [] {
      MarkReadAbsentId(ns[1..], id);
    }
  }

  /** Removing entries never creates unread ones. */
  lemma {:induction false} WithoutNeverAddsUnread(ns: seq<Notification>, id: int)
    ensures UnreadIn(Without(ns, id)) <= UnreadIn(ns)
  {
    if ns != [] {
      var head := if ns[0].id != id then [ns[0]] else [];
      assert Without(ns, id) == head + Without(ns[1..], id);
      UnreadInConcat(head, Without(ns[1..], id));
      assert ns == [ns[0]] + ns[1..];
      UnreadInConcat([ns[0]], ns[1..]);
      WithoutNeverAddsUnread(ns[1..], id);
    }
  }

  /** The unread entries of two lists joined are those of each. */
  lemma UnreadInConcat(a: seq<Notification>, b: seq<Notification>)
    ensures UnreadIn(a + b) == UnreadIn(a) + UnreadIn(b)
  {
    FilterConcat(a, b, (n: Notification) => !n.read);
  }

  /** Removing is order-preserving: it distributes over the two halves of a list. */
  lemma WithoutKeepsOrder(a: seq<Notification>, b: seq<Notification>, id: int)
    ensures Without(a + b, id) == Without(a, id) + Without(b, id)
  {
    FilterConcat(a, b, (n: Notification) => n.id != id);
  }

  /** The provider's state. The counter is kept apart from the list and is only
      ever stepped, so it need not equal `UnreadIn(notifications)`. */
  class NotificationCenter {
    var notifications: seq<Notification>
    var unreadCount: int

    /** The counter is never negative. */
    ghost predicate Valid()
      reads this
    {
      unreadCount >= 0
    }

    constructor ()
      ensures Valid()
      ensures notifications == [] && unreadCount == 0
    {
      notifications := [];
      unreadCount := 0;
    }

    /** `addNotification`: the new entry goes first, the rest keep their order,
        and the counter goes up by exactly one (even for an entry passed in as read). */
    method AddNotification(input: NotificationInput, now: int)
      requires Valid()
      modifies this
      ensures Valid()
      ensures notifications == [NewNotification(input, now)] + old(notifications)
      ensures unreadCount == old(unreadCount) + 1
    {
      notifications := [NewNotification(input, now)] + notifications;
      unreadCount := unreadCount + 1;
    }

    /** `markAsRead`: the entries with the id become read and the counter drops by
        one, floored at zero, whether or not such an unread entry existed. */
    method MarkAsRead(id: int)
      requires Valid()
      modifies this
      ensures Valid()
      ensures notifications == MarkRead(old(notifications), id)
      ensures unreadCount == if old(unreadCount) >= 1 then old(unreadCount) - 1 else 0
    {
      notifications := MarkRead(notifications, id);
      unreadCount := if unreadCount - 1 > 0 then unreadCount - 1 else 0;
    }

    /** `markAllAsRead`: every entry is read and the counter is zero. */
    method MarkAllAsRead()
      requires Valid()
      modifies this
      ensures Valid()
      ensures notifications == MarkAll(old(notifications)) && UnreadIn(notifications) == 0
      ensures unreadCount == 0
    {
      notifications := MarkAll(notifications);
      unreadCount := 0;
      MarkAllLeavesNoneUnread(old(notifications));
    }

    /** `removeNotification`: every entry with the id goes; the counter drops by
        one (floored at zero) only when the first entry with the id was unread. */
    method RemoveNotification(id: int)
      requires Valid()
      modifies this
      ensures Valid()
      ensures notifications == Without(old(notifications), id)
      ensures var found := FindById(old(notifications), id);
        unreadCount == if found.Some? && !old(notifications)[found.value].read && old(unreadCount) >= 1
                       then old(unreadCount) - 1 else old(unreadCount)
    {
      var removed := FindById(notifications, id);
      if removed.Some? && !notifications[removed.value].read {
        unreadCount := if unreadCount - 1 > 0 then unreadCount - 1 else 0;
      }
      notifications := Without(notifications, id);
    }
  }

  /** The counter drifts: adding one entry and then marking an id nobody carries
      leaves the counter at 0 while one entry is still unread. */
  method CounterDrift() returns (counter: int, unread: nat)
    ensures counter == 0 && unread == 1
  {
    var center := new NotificationCenter();
    center.AddNotification(NotificationInput(Some(1), None, None, "info", "Sensor R105 battery low"), 1000);
    center.MarkAsRead(2);
    MarkReadAbsentId(center.notifications, 2);
    counter := center.unreadCount;
    unread := UnreadIn(center.notifications);
  }
}
