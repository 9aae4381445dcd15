/** Dispatching a "my issues" notification: of all the users subscribed to the notification on
    the project, only the notification's assignee is handed the notification, once per channel
    they subscribed with. */
module MyIssuesDispatcher {
  import opened Common
  import opened NotificationApi

  /** A subscriber multimap, login to the channels the login subscribed with. */
  type Subscribers = map<string, seq<Channel>>

  /** The recipients a dispatch adds: nothing without an assignee or when the assignee has not
      subscribed, otherwise the assignee with each of their channels, in order. */
  function Recipients(subscribers: Subscribers, assignee: Option<string>): (r: seq<(string, Channel)>)
    ensures assignee.None? ==> r == []
    ensures forall p :: p in r ==> assignee == Some(p.0) && p.0 in subscribers && p.1 in subscribers[p.0]
    ensures assignee.Some? && assignee.value in subscribers ==>
      forall c :: c in subscribers[assignee.value] ==> (assignee.value, c) in r
  {
    match assignee
    case None => []
    case Some(login) =>
      if login in subscribers then
        var r := RecipientPairs(login, subscribers[login]);
        assert forall c :: c in subscribers[login] ==> (login, c) in r by {
          forall c | c in subscribers[login]
            ensures (login, c) in r
          {
            var i :| 0 <= i < |subscribers[login]| && subscribers[login][i] == c;
            assert r[i] == (login, c);
          }
        }
        r
      else []
  }

  /** Each channel of a login yields its pair as often as the channel is listed, and no pair of
      another login appears. */
  lemma {:induction false} PairCounts(login: string, channels: seq<Channel>)
    ensures forall c :: multiset(RecipientPairs(login, channels))[(login, c)] == multiset(channels)[c]
    ensures forall p: (string, Channel) :: p.0 != login ==> multiset(RecipientPairs(login, channels))[p] == 0
    decreases |channels|
  {
    if channels != [] {
      PairCounts(login, channels[1..]);
      assert channels == [channels[0]] + channels[1..];
      assert RecipientPairs(login, channels) == [(login, channels[0])] + RecipientPairs(login, channels[1..]);
    }
  }

  /** Every channel the assignee subscribed with is added exactly as often as it is listed —
      once for a channel listed once — and nothing is added for anyone else. */
  lemma AssigneeChannelsOnce(subscribers: Subscribers, assignee: string)
    requires assignee in subscribers
    ensures forall c :: multiset(Recipients(subscribers, Some(assignee)))[(assignee, c)] == multiset(subscribers[assignee])[c]
    ensures forall p: (string, Channel) :: p.0 != assignee ==> multiset(Recipients(subscribers, Some(assignee)))[p] == 0
  {
    PairCounts(assignee, subscribers[assignee]);
  }

  /** With user1 on e-mail and user2 on twitter, a notification assigned to user1 reaches user1
      on e-mail only. */
  lemma TwoSubscribersExample()
    ensures Recipients(map["user1" := [Channel("email")], "user2" := [Channel("twitter")]], Some("user1"))
      == [("user1", Channel("email"))]
  {
    var subscribers := map["user1" := [Channel("email")], "user2" := [Channel("twitter")]];
    assert subscribers["user1"] == [Channel("email")];
    assert RecipientPairs("user1", [Channel("email")]) == [("user1", Channel("email"))];
  }

  /** The loops of `dispatch`: over every subscriber, and for the one whose login equals the
      assignee, over its channels, adding each to the context. The map's iteration order is
      immaterial, since one login at most matches. */
  method AddAssigneeChannels(subscribers: Subscribers, assignee: string, context: DispatchContext)
    modifies context
    ensures context.recipients == old(context.recipients) + Recipients(subscribers, Some(assignee))
  {
    var remaining := subscribers.Keys;
    while remaining != {}
      invariant remaining <= subscribers.Keys
      invariant context.recipients == old(context.recipients) +
        (if assignee in subscribers && assignee !in remaining then Recipients(subscribers, Some(assignee)) else [])
      decreases |remaining|
    {
      var userLogin :| userLogin in remaining;
      if assignee == userLogin {
        AddUserChannels(userLogin, subscribers[userLogin], context);
      }
      remaining := remaining - {userLogin};
    }
  }

  /** The inner loop: the login with each of its channels, in order. */
  method AddUserChannels(login: string, channels: seq<Channel>, context: DispatchContext)
    modifies context
    ensures context.recipients == old(context.recipients) + RecipientPairs(login, channels)
  {
    for j := 0 to |channels|
      invariant context.recipients == old(context.recipients) + RecipientPairs(login, channels[..j])
    {
      PairsSnoc(login, channels[..j], channels[j]);
      assert channels[..j + 1] == channels[..j] + [channels[j]];
      context.AddUser(login, channels[j]);
    }
    assert channels[..|channels|] == channels;
  }

  /** One more channel adds one more pair at the end. */
  lemma {:induction false} PairsSnoc(login: string, channels: seq<Channel>, c: Channel)
    ensures RecipientPairs(login, channels + [c]) == RecipientPairs(login, channels) + [(login, c)]
  {
    var left := RecipientPairs(login, channels + [c]);
    var right := RecipientPairs(login, channels) + [(login, c)];
    assert |left| == |right|;
    forall i | 0 <= i < |left|
      ensures left[i] == right[i]
    {
      if i < |channels| {
        assert (channels + [c])[i] == channels[i];
      }
    }
  }

  /** The dispatcher shared by "my new issues" and "my changed issues". */
  class MyIssuesNotificationDispatcher {
    const notificationType: string
    /** `manager.findNotificationSubscribers(this, projectKey)`, for this dispatcher. */
    const findNotificationSubscribers: Option<string> -> Subscribers

    constructor (notificationType: string, findNotificationSubscribers: Option<string> -> Subscribers)
      ensures this.notificationType == notificationType
      ensures this.findNotificationSubscribers == findNotificationSubscribers
    {
      this.notificationType := notificationType;
      this.findNotificationSubscribers := findNotificationSubscribers;
    }

    /** `dispatch`: nothing for a notification without an assignee; otherwise the assignee,
        with each channel they subscribed with on the notification's project. */
    method Dispatch(notification: Notification, context: DispatchContext)
      modifies context
      ensures context.recipients == old(context.recipients) +
        Recipients(findNotificationSubscribers(notification.FieldValue("projectKey")), notification.FieldValue("assignee"))
    {
      var assignee := notification.FieldValue("assignee");
      if assignee.None? {
        return;
      }
      var projectKey := notification.FieldValue("projectKey");
      var subscribedRecipients := findNotificationSubscribers(projectKey);
      AddAssigneeChannels(subscribedRecipients, assignee.value, context);
    }
  }
}
