/** The host's notification vocabulary as the plugin uses it: the analysed project, a
    notification (a type and string fields), the manager that schedules notifications, the
    channels subscribers are reached on, the dispatch context that collects recipients, and the
    e-mail message a template produces. */
module NotificationApi {
  import opened Common

  /** The plugin's notification type for new issues assigned to a developer. */
  const NOTIFICATION_TYPE_NEW := "my-new-issues"

  /** The analysed project: its key, its long name (which may be null) and its analysis date. */
  datatype Project = Project(key: string, longName: Option<string>, analysisDate: int)

  /** A notification: its type and its field values. A field set to null reads back as null,
      so it is simply absent here. */
  datatype Notification = Notification(kind: string, fields: map<string, string>, defaultMessage: Option<string>)
  {
    /** `getFieldValue`. */
    function FieldValue(name: string): Option<string>
    {
      Get(fields, name)
    }
  }

  /** A notification with no fields yet. */
  function NewNotification(kind: string): (n: Notification)
    ensures n.kind == kind && n.fields == map[] && n.defaultMessage.None?
  {
    Notification(kind, map[], None)
  }

  /** `setFieldValue`: the field then reads back as the value given; a null value removes it,
      as putting null into the field map does. */
  function SetFieldValue(n: Notification, name: string, value: Option<string>): (r: Notification)
    ensures r.kind == n.kind && r.defaultMessage == n.defaultMessage
    ensures r.FieldValue(name) == value
    ensures forall other :: other != name ==> r.FieldValue(other) == n.FieldValue(other)
  {
    match value
    case None => n.(fields := n.fields - {name})
    case Some(v) => n.(fields := n.fields[name := v])
  }

  /** The batch-side NotificationManager: what has been scheduled for sending, in order. */
  class NotificationManager {
    var scheduled: seq<Notification>

    constructor ()
      ensures scheduled == []
    {
      scheduled := [];
    }

    /** `scheduleForSending`. */
    method ScheduleForSending(notification: Notification)
      modifies this
      ensures scheduled == old(scheduled) + [notification]
    {
      scheduled := scheduled + [notification];
    }
  }

  /** A NotificationChannel (e-mail, ...), identified by its key. */
  datatype Channel = Channel(key: string)

  /** One (login, channel) pair per channel, in the channels' order. */
  function RecipientPairs(login: string, channels: seq<Channel>): (pairs: seq<(string, Channel)>)
    ensures |pairs| == |channels|
    ensures forall i :: 0 <= i < |pairs| ==> pairs[i] == (login, channels[i])
  {
    if channels == [] then [] else [(login, channels[0])] + RecipientPairs(login, channels[1..])
  }

  /** The dispatcher's Context: the recipients added to it, in order. */
  class DispatchContext {
    var recipients: seq<(string, Channel)>

    constructor ()
      ensures recipients == []
    {
      recipients := [];
    }

    /** `addUser`. */
    method AddUser(login: string, channel: Channel)
      modifies this
      ensures recipients == old(recipients) + [(login, channel)]
    {
      recipients := recipients + [(login, channel)];
    }
  }

  /** The e-mail a template produces: its message id, and its subject and body, either of which
      may be null. */
  datatype EmailMessage = EmailMessage(messageId: string, subject: Option<string>, message: Option<string>)
}
