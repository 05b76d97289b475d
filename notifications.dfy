/** The customer's notification panel: clicking a notification marks it read on
    the server and then clears its "New" badge locally. */
module Notifications {
  import opened Http
  import opened Lists
  import opened Entities

  /** `prev.map(n => n._id === id ? { ...n, isNew: false } : n)`. */
  function MarkRead(notifications: seq<Notification>, id: string): (r: seq<Notification>)
    ensures |r| == |notifications|
    ensures forall i :: 0 <= i < |notifications| ==>
              r[i] == if notifications[i].id == id then notifications[i].(isNew := false) else notifications[i]
  {
    UpdateWhere(notifications, (n: Notification) => n.id == id, (n: Notification) => n.(isNew := false))
  }

  /** After marking, nothing with that id is new, and every other notification
      keeps its flag; ids, titles and messages never change. */
  lemma MarkReadEffect(notifications: seq<Notification>, id: string)
    ensures forall i :: 0 <= i < |notifications| ==>
              && MarkRead(notifications, id)[i].isNew == (notifications[i].isNew && notifications[i].id != id)
              && MarkRead(notifications, id)[i].id == notifications[i].id
              && MarkRead(notifications, id)[i].title == notifications[i].title
              && MarkRead(notifications, id)[i].message == notifications[i].message
  {
  }

  /** Marking the same notification twice is the same as marking it once. */
  lemma MarkReadIdempotent(notifications: seq<Notification>, id: string)
    ensures MarkRead(MarkRead(notifications, id), id) == MarkRead(notifications, id)
  {
    var once := MarkRead(notifications, id);
    var twice := MarkRead(once, id);
    assert |twice| == |once|;
    assert forall i :: 0 <= i < |once| ==> twice[i] == once[i];
  }

  /** Marking two notifications read gives the same list in either order. */
  lemma MarkReadCommutes(notifications: seq<Notification>, a: string, b: string)
    ensures MarkRead(MarkRead(notifications, a), b) == MarkRead(MarkRead(notifications, b), a)
  {
    var ab := MarkRead(MarkRead(notifications, a), b);
    var ba := MarkRead(MarkRead(notifications, b), a);
    assert |ab| == |ba|;
    assert forall i :: 0 <= i < |ab| ==> ab[i] == ba[i];
  }

  /** The "New" badge is rendered for notifications flagged new. */
  predicate ShowsNewBadge(n: Notification) {
    n.isNew
  }

  /** A clicked notification no longer shows its badge once the request succeeds. */
  lemma ClickedLosesBadge(notifications: seq<Notification>, i: nat)
    requires i < |notifications|
    ensures !ShowsNewBadge(MarkRead(notifications, notifications[i].id)[i])
  {
  }

  /** Marking one notification read leaves every other row's badge as it was. */
  lemma UnclickedKeepsBadge(notifications: seq<Notification>, id: string, i: nat)
    requires i < |notifications| && notifications[i].id != id
    ensures ShowsNewBadge(MarkRead(notifications, id)[i]) == ShowsNewBadge(notifications[i])
  {
  }

  class NotificationPanelView {
    var notifications: seq<Notification>

    constructor ()
      ensures notifications == []
    {
      notifications := [];
    }

    /** `fetchNotifications`: replaced on success, kept on failure. */
    method FetchNotifications(response: Outcome<seq<Notification>>)
      modifies this
      ensures notifications == if response.Ok? then response.data else old(notifications)
    {
      if response.Ok? {
        notifications := response.data;
      }
    }

    /** `handleNotificationClick`: the list is patched only after the PUT succeeds. */
    method HandleNotificationClick(id: string, response: Outcome<()>)
      modifies this
      ensures notifications == if response.Ok? then MarkRead(old(notifications), id) else old(notifications)
    {
      if response.Ok? {
        notifications := MarkRead(notifications, id);
      }
    }
  }
}
