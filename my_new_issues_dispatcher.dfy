/** The dispatcher of "my-new-issues" notifications, registered under the key "MyNewIssues" and
    offered both globally and per project. */
module MyNewIssuesDispatcher {
  import opened Common
  import opened NotificationApi
  import opened MyIssuesDispatcher

  /** The dispatcher's key. */
  const KEY := "MyNewIssues"

  /** The host's metadata property names. */
  const GLOBAL_NOTIFICATION := "globalNotification"
  const PER_PROJECT_NOTIFICATION := "perProjectNotification"

  /** What the host learns of a dispatcher: its key and its properties. */
  datatype DispatcherMetadata = DispatcherMetadata(dispatcherKey: string, properties: map<string, string>)

  /** `newMetadata`: this dispatcher, offered for global and for per-project subscriptions. */
  function NewMetadata(): (m: DispatcherMetadata)
    ensures m.dispatcherKey == KEY
    ensures Get(m.properties, GLOBAL_NOTIFICATION) == Some("true")
    ensures Get(m.properties, PER_PROJECT_NOTIFICATION) == Some("true")
  {
    DispatcherMetadata(KEY, map[GLOBAL_NOTIFICATION := "true", PER_PROJECT_NOTIFICATION := "true"])
  }

  class MyNewIssuesNotificationDispatcher {
    const notificationType: string
    /** `manager.findNotificationSubscribers(this, projectKey)`, for this dispatcher. */
    const findNotificationSubscribers: Option<string> -> Subscribers

    constructor (findNotificationSubscribers: Option<string> -> Subscribers)
      ensures notificationType == NOTIFICATION_TYPE_NEW && GetKey() == KEY
      ensures this.findNotificationSubscribers == findNotificationSubscribers
    {
      notificationType := NOTIFICATION_TYPE_NEW;
      this.findNotificationSubscribers := findNotificationSubscribers;
    }

    /** `getKey`. */
    function GetKey(): string
    {
      KEY
    }

    /** `dispatch`: nothing for a notification without an assignee; otherwise the assignee,
        with each channel they subscribed with on the notification's project. */
    method Dispatch(notification: Notification, context: DispatchContext)
      modifies context
      ensures context.recipients == old(context.recipients) +
        Recipients(findNotificationSubscribers(notification.FieldValue("projectKey")), notification.FieldValue("assignee"))
    {
      var assignee := notification.FieldValue("assignee");
      if assignee.None? {
        return;
      }
      var projectKey := notification.FieldValue("projectKey");
      var subscribedRecipients := findNotificationSubscribers(projectKey);
      AddAssigneeChannels(subscribedRecipients, assignee.value, context);
    }
  }
}
