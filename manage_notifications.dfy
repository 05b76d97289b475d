/** The admin notification screen: send a notification with a title and a
    message, or delete one; after either the list is fetched again. */
module ManageNotifications {
  import opened Optional
  import opened Http
  import opened Entities

  const RequiredAlert := "Title and message are required!"

  /** The `!title || !message` guard: both fields must be non-empty. */
  function SendError(title: string, message: string): (err: Option<string>)
    ensures err.None? <==> title != "" && message != ""
    ensures err.Some? ==> err.value == RequiredAlert
  {
    if title == "" || message == "" then Some(RequiredAlert) else None
  }

  datatype NotificationRequest = NotificationRequest(title: string, message: string)

  class ManageNotificationsView {
    var notifications: seq<Notification>
    var title: string
    var message: string
    var alerts: seq<string>

    constructor ()
      ensures notifications == [] && title == "" && message == "" && alerts == []
    {
      notifications := [];
      title := "";
      message := "";
      alerts := [];
    }

    /** `fetchNotifications`: replaced on success, kept on failure. */
    method FetchNotifications(response: Outcome<seq<Notification>>)
      modifies this
      ensures notifications == if response.Ok? then response.data else old(notifications)
      ensures title == old(title) && message == old(message) && alerts == old(alerts)
    {
      if response.Ok? {
        notifications := response.data;
      }
    }

    method SetTitle(value: string)
      modifies this
      ensures title == value
      ensures notifications == old(notifications) && message == old(message) && alerts == old(alerts)
    {
      title := value;
    }

    method SetMessage(value: string)
      modifies this
      ensures message == value
      ensures notifications == old(notifications) && title == old(title) && alerts == old(alerts)
    {
      message := value;
    }

    /** `sendNotification`: an empty title or message is rejected with an alert
        and no request. A successful POST starts a refetch (`refetch` is its
        answer) and clears both fields; a failed one keeps what was typed. */
    method SendNotification(response: Outcome<()>, refetch: Outcome<seq<Notification>>)
      returns (sent: Option<NotificationRequest>)
      modifies this
      ensures var err := SendError(old(title), old(message));
        if err.Some? then
          sent == None && alerts == old(alerts) + [err.value]
          && title == old(title) && message == old(message) && notifications == old(notifications)
        else
          && sent == Some(NotificationRequest(old(title), old(message)))
          && alerts == old(alerts)
          && (response.Ok? ==> title == "" && message == ""
                               && notifications == if refetch.Ok? then refetch.data else old(notifications))
          && (response.Failed? ==> title == old(title) && message == old(message) && notifications == old(notifications))
    {
      var err := SendError(title, message);
      if err.Some? {
        alerts := alerts + [err.value];
        return None;
      }
      sent := Some(NotificationRequest(title, message));
      if response.Ok? {
        FetchNotifications(refetch);
        title := "";
        message := "";
      }
    }

    /** `deleteNotification`: the list is only refreshed from the server, never patched locally. */
    method DeleteNotification(id: string, response: Outcome<()>, refetch: Outcome<seq<Notification>>)
      modifies this
      ensures notifications == if response.Ok? && refetch.Ok? then refetch.data else old(notifications)
      ensures title == old(title) && message == old(message) && alerts == old(alerts)
    {
      if response.Ok? {
        FetchNotifications(refetch);
      }
    }
  }
}
