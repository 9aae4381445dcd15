/** Building and scheduling one notification per assignee from the new issues grouped by
    assignee: the project's name and key, the analysis date, the number of issues, the assignee
    and the number of issues of each severity. */
module IssueNotifications {
  import opened Common
  import opened NotificationApi

  /** `IssuesBySeverity.issues(severity)`: how many issues of the group have the severity. */
  function CountSeverity(group: seq<Issue>, severity: string): (n: nat)
    ensures n <= |group|
  {
    if group == [] then 0
    else CountSeverity(group[..|group| - 1], severity) + if group[|group| - 1].severity == severity then 1 else 0
  }

  /** When every issue's severity is on the scale, the per-severity counts add up to the size
      of the group. */
  lemma {:induction false} SeverityCountsSum(group: seq<Issue>)
    requires forall i :: 0 <= i < |group| ==> group[i].severity in SeverityAll
    ensures CountSeverity(group, INFO) + CountSeverity(group, MINOR) + CountSeverity(group, MAJOR)
          + CountSeverity(group, CRITICAL) + CountSeverity(group, BLOCKER) == |group|
  {
    if group != [] {
      var init := group[..|group| - 1];
      assert forall i :: 0 <= i < |init| ==> init[i] == group[i];
      SeverityCountsSum(init);
    }
  }

  /** The name of the field holding the count for a severity. */
  function CountField(severity: string): (name: string)
    ensures IsCountField(name)
  {
    assert ("count-" + severity)[..6] == "count-";
    "count-" + severity
  }

  /** Whether a field name is one of the severity-count fields' shape. */
  predicate IsCountField(name: string)
  {
    |name| >= 6 && name[..6] == "count-"
  }

  /** A severity-count field is none of the other fields of the notification. */
  lemma OtherFieldsAreNotCounts()
    ensures !IsCountField("projectName") && !IsCountField("projectKey") && !IsCountField("projectDate")
    ensures !IsCountField("count") && !IsCountField("assignee")
  {
    assert "projectName"[0] != 'c' && "projectKey"[0] != 'c' && "projectDate"[0] != 'c';
    assert "assignee"[0] != 'c';
  }

  /** The count fields of `severities`, set in order: each severity's field holds the decimal
      count of its issues, and no other field is set. */
  function CountFields(group: seq<Issue>, severities: seq<string>): (fields: map<string, string>)
    ensures forall s :: s in severities ==>
      CountField(s) in fields && fields[CountField(s)] == NatToString(CountSeverity(group, s))
    ensures forall name :: name in fields ==> IsCountField(name)
  {
    if severities == [] then map[]
    else
      var last := severities[|severities| - 1];
      var earlier := severities[..|severities| - 1];
      assert forall s :: s in severities ==> s == last || s in earlier;
      assert forall s :: CountField(s) == CountField(last) ==> s == last by {
        forall s | CountField(s) == CountField(last) ensures s == last {
          assert s == CountField(s)[6..] && last == CountField(last)[6..];
        }
      }
      CountFields(group, earlier)[CountField(last) := NatToString(CountSeverity(group, last))]
  }

  /** The fields `sendIssues` sets before the severity loop, for a group of `size` issues: a
      null project name leaves its field unset. */
  function BaseFields(project: Project, assignee: string, size: nat, formatDateTime: int -> string): map<string, string>
  {
    var named: map<string, string> := if project.longName.Some? then map["projectName" := project.longName.value] else map[];
    named["projectKey" := project.key]["projectDate" := formatDateTime(project.analysisDate)]
      ["count" := NatToString(size)]["assignee" := assignee]
  }

  /** The default message of a notification for `size` issues. */
  function DefaultMessage(project: Project, size: nat): string
  {
    NatToString(size) + " new issues on " + Str(project.longName) + ".\n"
  }

  /** The notification `sendIssues` schedules for one assignee's group of new issues. */
  function NewIssuesNotification(project: Project, kind: string, assignee: string, group: seq<Issue>,
                                 formatDateTime: int -> string): Notification
  {
    Notification(kind, BaseFields(project, assignee, |group|, formatDateTime) + CountFields(group, SeverityAll),
                 Some(DefaultMessage(project, |group|)))
  }

  /** What the scheduled notification carries: its type, the project's name and key, the
      formatted analysis date, the decimal size of the group, the assignee, each severity's
      decimal count and the default message. */
  lemma NewIssuesNotificationFields(project: Project, kind: string, assignee: string, group: seq<Issue>,
                                    formatDateTime: int -> string)
    ensures var n := NewIssuesNotification(project, kind, assignee, group, formatDateTime);
      && n.kind == kind
      && n.FieldValue("projectName") == project.longName
      && n.FieldValue("projectKey") == Some(project.key)
      && n.FieldValue("projectDate") == Some(formatDateTime(project.analysisDate))
      && n.FieldValue("count") == Some(NatToString(|group|))
      && n.FieldValue("assignee") == Some(assignee)
      && (forall s :: s in SeverityAll ==> n.FieldValue(CountField(s)) == Some(NatToString(CountSeverity(group, s))))
      && n.defaultMessage == Some(NatToString(|group|) + " new issues on " + Str(project.longName) + ".\n")
  {
    var base := BaseFields(project, assignee, |group|, formatDateTime);
    var counts := CountFields(group, SeverityAll);
    OtherFieldsAreNotCounts();
    BaseFieldValues(project, assignee, |group|, formatDateTime);
    assert "projectName" !in counts && "projectKey" !in counts && "projectDate" !in counts;
    assert "count" !in counts && "assignee" !in counts;
  }

  /** Reading back the fields set before the severity loop. */
  lemma BaseFieldValues(project: Project, assignee: string, size: nat, formatDateTime: int -> string)
    ensures var base := BaseFields(project, assignee, size, formatDateTime);
      && Get(base, "projectName") == project.longName
      && Get(base, "projectKey") == Some(project.key)
      && Get(base, "projectDate") == Some(formatDateTime(project.analysisDate))
      && Get(base, "count") == Some(NatToString(size))
      && Get(base, "assignee") == Some(assignee)
  {
    assert "projectName"[7] != "projectDate"[7];
    assert |"projectName"| != |"projectKey"| && |"projectName"| != |"count"| && |"projectName"| != |"assignee"|;
  }

  /** Updating a merge updates its right-hand side. */
  lemma MergeUpdate(base: map<string, string>, counts: map<string, string>, k: string, v: string)
    ensures (base + counts)[k := v] == base + counts[k := v]
  {
  }

  /** Reading the fields back: the severity counts of a scheduled notification add up to its
      count when every issue's severity is on the scale. */
  lemma NotificationCountsAddUp(project: Project, kind: string, assignee: string, group: seq<Issue>,
                                formatDateTime: int -> string)
    requires forall i :: 0 <= i < |group| ==> group[i].severity in SeverityAll
    ensures var n := NewIssuesNotification(project, kind, assignee, group, formatDateTime);
      && n.FieldValue(CountField(INFO)).Some? && n.FieldValue(CountField(MINOR)).Some?
      && n.FieldValue(CountField(MAJOR)).Some? && n.FieldValue(CountField(CRITICAL)).Some?
      && n.FieldValue(CountField(BLOCKER)).Some? && n.FieldValue("count").Some?
      && DecimalValue(n.FieldValue(CountField(INFO)).value) + DecimalValue(n.FieldValue(CountField(MINOR)).value)
       + DecimalValue(n.FieldValue(CountField(MAJOR)).value) + DecimalValue(n.FieldValue(CountField(CRITICAL)).value)
       + DecimalValue(n.FieldValue(CountField(BLOCKER)).value)
      == DecimalValue(n.FieldValue("count").value)
  {
    NewIssuesNotificationFields(project, kind, assignee, group, formatDateTime);
    SeverityCountsSum(group);
    DecimalRoundTrip(|group|);
    DecimalRoundTrip(CountSeverity(group, INFO));
    DecimalRoundTrip(CountSeverity(group, MINOR));
    DecimalRoundTrip(CountSeverity(group, MAJOR));
    DecimalRoundTrip(CountSeverity(group, CRITICAL));
    DecimalRoundTrip(CountSeverity(group, BLOCKER));
  }

  /** The notifications for the assignees of `order`, in that order: one per assignee. */
  function NotificationsFor(project: Project, kind: string, groups: map<string, seq<Issue>>, order: seq<string>,
                            formatDateTime: int -> string): (ns: seq<Notification>)
    requires forall a :: a in order ==> a in groups
    ensures |ns| == |order|
  {
    if order == [] then []
    else
      assert forall a :: a in order[..|order| - 1] ==> a in order;
      NotificationsFor(project, kind, groups, order[..|order| - 1], formatDateTime)
        + [NewIssuesNotification(project, kind, order[|order| - 1], groups[order[|order| - 1]], formatDateTime)]
  }

  /** The notification at each position is the one built for the assignee at that position,
      from that assignee's group. */
  lemma {:induction false} NotificationsForAt(project: Project, kind: string, groups: map<string, seq<Issue>>,
                                              order: seq<string>, formatDateTime: int -> string, i: nat)
    requires forall a :: a in order ==> a in groups
    requires i < |order|
    ensures order[i] in groups
    ensures NotificationsFor(project, kind, groups, order, formatDateTime)[i]
      == NewIssuesNotification(project, kind, order[i], groups[order[i]], formatDateTime)
    decreases |order|
  {
    assert order[i] in order;
    var init := order[..|order| - 1];
    assert forall a :: a in init ==> a in order;
    var earlier := NotificationsFor(project, kind, groups, init, formatDateTime);
    var last := order[|order| - 1];
    var ns := earlier + [NewIssuesNotification(project, kind, last, groups[last], formatDateTime)];
    assert NotificationsFor(project, kind, groups, order, formatDateTime) == ns;
    if i < |init| {
      NotificationsForAt(project, kind, groups, init, formatDateTime, i);
      assert ns[i] == earlier[i];
      assert init[i] == order[i];
    }
  }

  /** Extending the order by one assignee appends that assignee's notification. */
  lemma NotificationsForSnoc(project: Project, kind: string, groups: map<string, seq<Issue>>, order: seq<string>,
                             a: string, formatDateTime: int -> string)
    requires forall k :: k in order ==> k in groups
    requires a in groups
    ensures forall k :: k in order + [a] ==> k in groups
    ensures NotificationsFor(project, kind, groups, order + [a], formatDateTime)
      == NotificationsFor(project, kind, groups, order, formatDateTime)
         + [NewIssuesNotification(project, kind, a, groups[a], formatDateTime)]
  {
    assert (order + [a])[..|order|] == order;
  }

  /** `order` lists every key of `keys` exactly once. */
  ghost predicate Enumerates(order: seq<string>, keys: set<string>)
  {
    && (forall k :: k in order <==> k in keys)
    && (forall i, j :: 0 <= i < j < |order| ==> order[i] != order[j])
  }

  /** Part way through the keys: `order` lists, once each, the keys not in `remaining`. */
  ghost predicate EnumeratesBut(order: seq<string>, keys: set<string>, remaining: set<string>)
  {
    && remaining <= keys
    && (forall k :: k in order <==> k in keys && k !in remaining)
    && (forall i, j :: 0 <= i < j < |order| ==> order[i] != order[j])
  }

  /** Taking one more key from `remaining` keeps the enumeration going. */
  lemma EnumeratesStep(order: seq<string>, keys: set<string>, remaining: set<string>, a: string)
    requires EnumeratesBut(order, keys, remaining) && a in remaining
    ensures EnumeratesBut(order + [a], keys, remaining - {a})
  {
    forall k
      ensures k in order + [a] <==> k in keys && k !in remaining - {a}
    {
      assert k in order + [a] <==> k in order || k == a;
    }
    forall i, j | 0 <= i < j < |order + [a]|
      ensures (order + [a])[i] != (order + [a])[j]
    {
      if j == |order| {
        assert (order + [a])[i] == order[i] && order[i] in order;
      } else {
        assert (order + [a])[i] == order[i] && (order + [a])[j] == order[j];
      }
    }
  }

  class IssueNotifications {
    const notificationsManager: NotificationManager
    /** The host's `DateUtils.formatDateTime`. */
    const formatDateTime: int -> string

    constructor (notificationsManager: NotificationManager, formatDateTime: int -> string)
      ensures this.notificationsManager == notificationsManager && this.formatDateTime == formatDateTime
    {
      this.notificationsManager := notificationsManager;
      this.formatDateTime := formatDateTime;
    }

    /** The setter calls and the severity loop of `sendIssues` for one assignee. */
    method BuildNotification(project: Project, kind: string, assignee: string, newIssues: seq<Issue>)
      returns (notification: Notification)
      ensures notification == NewIssuesNotification(project, kind, assignee, newIssues, formatDateTime)
    {
      notification := SetBaseFields(project, kind, assignee, |newIssues|);
      notification := SetSeverityCounts(notification, newIssues, SeverityAll);
    }

    /** The setter calls before the severity loop. */
    method SetBaseFields(project: Project, kind: string, assignee: string, size: nat)
      returns (notification: Notification)
      ensures notification == Notification(kind, BaseFields(project, assignee, size, formatDateTime),
                                            Some(DefaultMessage(project, size)))
    {
      notification := NewNotification(kind);
      notification := SetFieldValue(notification, "projectName", project.longName);
      notification := SetFieldValue(notification, "projectKey", Some(project.key));
      notification := notification.(defaultMessage := Some(NatToString(size) + " new issues on " + Str(project.longName) + ".\n"));
      notification := SetFieldValue(notification, "projectDate", Some(formatDateTime(project.analysisDate)));
      notification := SetFieldValue(notification, "count", Some(NatToString(size)));
      notification := SetFieldValue(notification, "assignee", Some(assignee));
    }

    /** The severity loop, over `Severity.ALL`: each severity's count field set in turn. */
    method SetSeverityCounts(start: Notification, newIssues: seq<Issue>, severities: seq<string>)
      returns (notification: Notification)
      ensures notification.kind == start.kind && notification.defaultMessage == start.defaultMessage
      ensures notification.fields == start.fields + CountFields(newIssues, severities)
    {
      notification := start;
      assert start.fields + map[] == start.fields;
      for i := 0 to |severities|
        invariant notification.kind == start.kind && notification.defaultMessage == start.defaultMessage
        invariant notification.fields == start.fields + CountFields(newIssues, severities[..i])
      {
        var severity := severities[i];
        assert severities[..i + 1][..i] == severities[..i];
        MergeUpdate(start.fields, CountFields(newIssues, severities[..i]), CountField(severity),
                    NatToString(CountSeverity(newIssues, severity)));
        notification := SetFieldValue(notification, CountField(severity), Some(NatToString(CountSeverity(newIssues, severity))));
      }
      assert severities[..|severities|] == severities;
    }

    /** `sendIssues`: one notification per assignee of the map, in the map's iteration order,
        returned as `order`. */
    method SendIssues(project: Project, newIssuesByAssignee: map<string, seq<Issue>>, notificationType: string)
      returns (ghost order: seq<string>)
      modifies notificationsManager
      ensures Enumerates(order, newIssuesByAssignee.Keys)
      ensures notificationsManager.scheduled == old(notificationsManager.scheduled)
        + NotificationsFor(project, notificationType, newIssuesByAssignee, order, formatDateTime)
    {
      var remaining := newIssuesByAssignee.Keys;
      order := [];
      while remaining != {}
        invariant EnumeratesBut(order, newIssuesByAssignee.Keys, remaining)
        invariant notificationsManager.scheduled == old(notificationsManager.scheduled)
          + NotificationsFor(project, notificationType, newIssuesByAssignee, order, formatDateTime)
        decreases |remaining|
      {
        var assignee :| assignee in remaining;
        var newIssues := newIssuesByAssignee[assignee];
        var notification := BuildNotification(project, notificationType, assignee, newIssues);
        ghost var before := NotificationsFor(project, notificationType, newIssuesByAssignee, order, formatDateTime);
        notificationsManager.ScheduleForSending(notification);
        NotificationsForSnoc(project, notificationType, newIssuesByAssignee, order, assignee, formatDateTime);
        AppendAssoc(old(notificationsManager.scheduled), before, [notification]);
        EnumeratesStep(order, newIssuesByAssignee.Keys, remaining, assignee);
        remaining := remaining - {assignee};
        order := order + [assignee];
      }
    }
  }
}
