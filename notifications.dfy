/** The notification inbox: marking one notification read, "mark all as
    read" (one write per unread notification), the type icons, and the
    unread highlight. */
module Notifications {
  import opened Seqs

  datatype Notification = Notification(id: string, kind: string, title: string, message: string, read: bool, createdAt: string)

  /** `markAsRead(id)` as written to the stored records: the notification
      with that id is read; every other one is unchanged. */
  function MarkRead(ns: seq<Notification>, id: string): (r: seq<Notification>)
    ensures |r| == |ns|
    ensures forall k :: 0 <= k < |ns| ==> r[k] == (if ns[k].id == id then ns[k].(read := true) else ns[k])
  {
    MapWhere(ns, (n: Notification) => n.id == id, (n: Notification) => n.(read := true))
  }

  /** The ids "Mark all as read" writes: those of the unread notifications,
      in list order. */
  function UnreadIds(ns: seq<Notification>): (r: seq<string>)
    ensures forall id :: id in r <==> exists k :: 0 <= k < |ns| && !ns[k].read && ns[k].id == id
    decreases |ns|
  {
    if |ns| == 0 then []
    else
      var rest := UnreadIds(ns[1..]);
      assert forall k :: 1 <= k < |ns| ==> ns[k] == ns[1..][k - 1];
      assert forall j :: 0 <= j < |ns[1..]| ==> ns[1..][j] == ns[j + 1];
      if !ns[0].read then [ns[0].id] + rest else rest
  }

  /** Only an unread notification gets the highlight border and its own
      "Mark as read" button. */
  predicate Highlighted(n: Notification) {
    !n.read
  }

  datatype Icon = CheckCircle | Clock | AlertTriangle | Bell

  /** `getNotificationIcon`: approval, reminder and alert, a bell for
      anything else. */
  function NotificationIcon(kind: string): (r: Icon)
    ensures kind == "approval" <==> r == CheckCircle
    ensures kind == "reminder" <==> r == Clock
    ensures kind == "alert" <==> r == AlertTriangle
  {
    match kind
    case "approval" => CheckCircle
    case "reminder" => Clock
    case "alert" => AlertTriangle
    case _ => Bell
  }

  /** The stored notifications of the signed-in user. */
  class Inbox {
    var notifications: seq<Notification>

    constructor (stored: seq<Notification>)
      ensures notifications == stored
    {
      notifications := stored;
    }

    /** One `markAsRead` write; a failed write is only logged. */
    method MarkAsRead(id: string, writeOk: bool)
      modifies this
      ensures notifications == (if writeOk then MarkRead(old(notifications), id) else old(notifications))
    {
      if writeOk {
        notifications := MarkRead(notifications, id);
      }
    }

    /** "Mark all as read": one write per unread notification, `failing`
        naming the ids whose write fails. Afterwards a notification is read
        unless its id's write failed, and a failed one is as it was. */
    method MarkAllAsRead(failing: set<string>)
      modifies this
      ensures |notifications| == |old(notifications)|
      ensures forall k :: 0 <= k < |notifications| ==>
        notifications[k] == (if old(notifications)[k].id in failing then old(notifications)[k]
                             else old(notifications)[k].(read := true))
    {
      var before := notifications;
      var targets := UnreadIds(notifications);
      var i := 0;
      while i < |targets|
        invariant 0 <= i <= |targets|
        invariant |notifications| == |before|
        invariant forall k :: 0 <= k < |before| ==>
          notifications[k] == (if before[k].id in targets[..i] && before[k].id !in failing
                               then before[k].(read := true) else before[k])
      {
        MarkAsRead(targets[i], targets[i] !in failing);
        assert targets[..i + 1] == targets[..i] + [targets[i]];
        i := i + 1;
      }
      assert targets[..i] == targets;
      forall k | 0 <= k < |before| && before[k].id !in failing && before[k].id !in targets
        ensures before[k].read
      {
      }
    }

    function Unread(): seq<string>
      reads this
    {
      UnreadIds(notifications)
    }
  }

  /** Once every write succeeds, nothing is highlighted any more. */
  lemma {:induction false} AllReadAfterMarkAll(before: seq<Notification>, after: seq<Notification>)
    requires |after| == |before|
    requires forall k :: 0 <= k < |before| ==> after[k] == before[k].(read := true)
    ensures forall k :: 0 <= k < |after| ==> !Highlighted(after[k])
    ensures UnreadIds(after) == []
  {
    UnreadIdsOfAllRead(after);
  }

  lemma {:induction false} UnreadIdsOfAllRead(ns: seq<Notification>)
    requires forall k :: 0 <= k < |ns| ==> ns[k].read
    ensures UnreadIds(ns) == []
    decreases |ns|
  {
    if |ns| > 0 {
      UnreadIdsOfAllRead(ns[1..]);
    }
  }
}
