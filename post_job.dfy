/** The post-analysis job: groups the new, unresolved, assigned issues of the analysis by
    assignee and, when there is at least one, has one "my-new-issues" notification per assignee
    scheduled. */
module PostJob {
  import opened Common
  import opened NotificationApi
  import IN = IssueNotifications

  /** The issue is counted: it has an assignee, is new and has no resolution. */
  predicate Qualifies(issue: Issue)
  {
    issue.assignee.Some? && issue.isNew && issue.resolution.None?
  }

  /** The counted issues assigned to `a`, in the cache's order. */
  function IssuesOf(issues: seq<Issue>, a: string): (group: seq<Issue>)
    ensures forall x :: x in group <==> x in issues && Qualifies(x) && x.assignee == Some(a)
  {
    if issues == [] then []
    else
      var x := issues[|issues| - 1];
      var init := issues[..|issues| - 1];
      assert issues == init + [x];
      IssuesOf(init, a) + (if Qualifies(x) && x.assignee.value == a then [x] else [])
  }

  /** The assignees of the counted issues. */
  function Assignees(issues: seq<Issue>): (r: set<string>)
    ensures forall a {:trigger IssuesOf(issues, a)} :: a in r <==> IssuesOf(issues, a) != []
  {
    if issues == [] then {}
    else
      var x := issues[|issues| - 1];
      var init := issues[..|issues| - 1];
      assert issues == init + [x];
      Assignees(init) + if Qualifies(x) then {x.assignee.value} else {}
  }

  /** The number of counted issues. */
  function QualifyingCount(issues: seq<Issue>): nat
  {
    if issues == [] then 0
    else QualifyingCount(issues[..|issues| - 1]) + if Qualifies(issues[|issues| - 1]) then 1 else 0
  }

  /** The map `sendNotifications` builds: each assignee of a counted issue, to the counted issues
      assigned to them. */
  function GroupByAssignee(issues: seq<Issue>): (groups: map<string, seq<Issue>>)
  {
    map a | a in Assignees(issues) :: IssuesOf(issues, a)
  }

  /** Every counted issue is in its assignee's group, and a group holds only counted issues of
      its own assignee. */
  lemma GroupMembership(issues: seq<Issue>, x: Issue)
    ensures x in issues && Qualifies(x) <==>
      x.assignee.Some? && x.assignee.value in GroupByAssignee(issues) && x in GroupByAssignee(issues)[x.assignee.value]
    ensures forall a :: a in GroupByAssignee(issues) && x in GroupByAssignee(issues)[a] ==> x.assignee == Some(a)
  {
  }

  /** No assignee gets an empty group. */
  lemma NoEmptyGroup(issues: seq<Issue>)
    ensures forall a :: a in GroupByAssignee(issues) ==> GroupByAssignee(issues)[a] != []
  {
  }

  /** One more issue from the cache: a counted issue is added to its assignee's group, the group
      being created empty first when missing; any other issue changes nothing. */
  lemma GroupStep(issues: seq<Issue>, x: Issue)
    ensures GroupByAssignee(issues + [x]) ==
      if Qualifies(x) then
        var groups := GroupByAssignee(issues);
        var a := x.assignee.value;
        groups[a := (if a in groups then groups[a] else []) + [x]]
      else GroupByAssignee(issues)
  {
    var groups := GroupByAssignee(issues);
    var next := GroupByAssignee(issues + [x]);
    AssigneesSnoc(issues, x);
    if Qualifies(x) {
      var a := x.assignee.value;
      assert a !in groups ==> IssuesOf(issues, a) == [];
      var expected := groups[a := (if a in groups then groups[a] else []) + [x]];
      assert next.Keys == expected.Keys;
      forall b | b in next ensures next[b] == expected[b] {
        IssuesOfSnoc(issues, x, b);
        if b != a {
          assert IssuesOf(issues, b) + [] == IssuesOf(issues, b);
        }
      }
    } else {
      assert next.Keys == groups.Keys;
      forall b | b in next ensures next[b] == groups[b] {
        IssuesOfSnoc(issues, x, b);
        assert IssuesOf(issues, b) + [] == IssuesOf(issues, b);
      }
    }
  }

  /** One more issue: its assignee joins the assignees when it is counted. */
  lemma AssigneesSnoc(issues: seq<Issue>, x: Issue)
    ensures Assignees(issues + [x]) == Assignees(issues) + if Qualifies(x) then {x.assignee.value} else {}
  {
    var s := issues + [x];
    assert s[..|s| - 1] == issues;
  }

  /** One more issue: it ends its assignee's group when it is counted. */
  lemma IssuesOfSnoc(issues: seq<Issue>, x: Issue, b: string)
    ensures IssuesOf(issues + [x], b) == IssuesOf(issues, b) + if Qualifies(x) && x.assignee.value == b then [x] else []
  {
    var s := issues + [x];
    assert s[..|s| - 1] == issues;
  }

  /** The sum of the sizes of the groups of the assignees in `order`. */
  function GroupSizes(groups: map<string, seq<Issue>>, order: seq<string>): nat
    requires forall a :: a in order ==> a in groups
  {
    if order == [] then 0
    else
      assert forall a :: a in order[..|order| - 1] ==> a in order;
      GroupSizes(groups, order[..|order| - 1]) + |groups[order[|order| - 1]]|
  }

  /** The number of counted issues whose assignee is in `keys`. */
  function CountIn(issues: seq<Issue>, keys: set<string>): nat
  {
    if issues == [] then 0
    else
      var x := issues[|issues| - 1];
      CountIn(issues[..|issues| - 1], keys) + if Qualifies(x) && x.assignee.value in keys then 1 else 0
  }

  lemma {:induction false} CountInInsert(issues: seq<Issue>, keys: set<string>, a: string)
    requires a !in keys
    ensures CountIn(issues, keys + {a}) == CountIn(issues, keys) + |IssuesOf(issues, a)|
  {
    if issues != [] {
      CountInInsert(issues[..|issues| - 1], keys, a);
    }
  }

  lemma {:induction false} CountInAssignees(issues: seq<Issue>, keys: set<string>)
    requires Assignees(issues) <= keys
    ensures CountIn(issues, keys) == QualifyingCount(issues)
  {
    if issues != [] {
      var init := issues[..|issues| - 1];
      assert Assignees(init) <= Assignees(issues) by {
        forall a | a in Assignees(init) ensures a in Assignees(issues) {
          var y := IssuesOf(init, a)[0];
          assert y in IssuesOf(init, a);
          assert y in init && y in issues;
          assert y in IssuesOf(issues, a);
        }
      }
      CountInAssignees(init, keys);
      var x := issues[|issues| - 1];
      if Qualifies(x) {
        assert x in IssuesOf(issues, x.assignee.value);
      }
    }
  }

  lemma {:induction false} GroupSizesCount(issues: seq<Issue>, order: seq<string>)
    requires forall a :: a in order ==> a in GroupByAssignee(issues)
    requires forall i, j :: 0 <= i < j < |order| ==> order[i] != order[j]
    ensures GroupSizes(GroupByAssignee(issues), order) == CountIn(issues, set a | a in order)
  {
    var groups := GroupByAssignee(issues);
    if order == [] {
      assert (set a | a in order) == {};
      CountInEmpty(issues);
    } else {
      var init := order[..|order| - 1];
      var last := order[|order| - 1];
      var before := set a | a in init;
      assert forall a :: a in init ==> a in order;
      GroupSizesCount(issues, init);
      DistinctLast(order);
      CountInInsert(issues, before, last);
      GroupSizesSnoc(groups, order);
    }
  }

  /** The last of distinct names adds one name to the set of the others. */
  lemma DistinctLast(order: seq<string>)
    requires order != []
    requires forall i, j :: 0 <= i < j < |order| ==> order[i] != order[j]
    ensures var init := order[..|order| - 1];
      && (set a | a in order) == (set a | a in init) + {order[|order| - 1]}
      && order[|order| - 1] !in (set a | a in init)
  {
    var init := order[..|order| - 1];
    var last := order[|order| - 1];
    assert order == init + [last];
    forall i | 0 <= i < |init| ensures init[i] != last {
      assert init[i] == order[i];
    }
  }

  /** The sizes along `order` are those along all but its last name, plus the last one's. */
  lemma GroupSizesSnoc(groups: map<string, seq<Issue>>, order: seq<string>)
    requires order != [] && forall a :: a in order ==> a in groups
    ensures GroupSizes(groups, order) ==
      GroupSizes(groups, order[..|order| - 1]) + |groups[order[|order| - 1]]|
  {
  }

  lemma {:induction false} CountInEmpty(issues: seq<Issue>)
    ensures CountIn(issues, {}) == 0
  {
    if issues != [] {
      CountInEmpty(issues[..|issues| - 1]);
    }
  }

  /** Whatever order the groups are sent in, their sizes add up to the number of counted issues:
      every new, unresolved, assigned issue is reported exactly once. */
  lemma GroupSizesAddUp(issues: seq<Issue>, order: seq<string>)
    requires IN.Enumerates(order, GroupByAssignee(issues).Keys)
    ensures GroupSizes(GroupByAssignee(issues), order) == QualifyingCount(issues)
  {
    GroupSizesCount(issues, order);
    assert (set a | a in order) == Assignees(issues);
    CountInAssignees(issues, (set a | a in order));
  }

  /** Two new unresolved issues assigned to two developers and a third that is not new give one
      group of one issue per developer. */
  lemma TwoAssigneesExample(x1: Issue, x2: Issue, x3: Issue)
    requires Qualifies(x1) && Qualifies(x2) && !x3.isNew
    requires x1.assignee == Some("user1") && x2.assignee == Some("user2")
    ensures GroupByAssignee([x1, x2, x3]) == map["user1" := [x1], "user2" := [x2]]
  {
    assert GroupByAssignee([x1]) == map["user1" := [x1]] by {
      assert GroupByAssignee([]) == map[];
      GroupStep([], x1);
      assert [] + [x1] == [x1];
    }
    assert GroupByAssignee([x1, x2]) == map["user1" := [x1], "user2" := [x2]] by {
      GroupStep([x1], x2);
      assert [x1] + [x2] == [x1, x2];
      assert "user2" !in map["user1" := [x1]] && [] + [x2] == [x2];
    }
    GroupStep([x1, x2], x3);
    assert [x1, x2] + [x3] == [x1, x2, x3];
  }

  /** The loop of `sendNotifications`: the map from assignee to new issues. */
  method GroupNewIssues(issues: seq<Issue>) returns (newIssuesByAssignee: map<string, seq<Issue>>)
    ensures newIssuesByAssignee == GroupByAssignee(issues)
  {
    newIssuesByAssignee := map[];
    assert GroupByAssignee(issues[..0]) == map[];
    for i := 0 to |issues|
      invariant newIssuesByAssignee == GroupByAssignee(issues[..i])
    {
      var issue := issues[i];
      GroupStep(issues[..i], issue);
      TakeSnoc(issues, i);
      if issue.assignee.None? {
        continue;
      }
      var assignee := issue.assignee.value;
      if issue.isNew && issue.resolution.None? {
        var newIssues: seq<Issue>;
        if assignee in newIssuesByAssignee {
          newIssues := newIssuesByAssignee[assignee];
        } else {
          newIssues := [];
          newIssuesByAssignee := newIssuesByAssignee[assignee := newIssues];
        }
        newIssuesByAssignee := newIssuesByAssignee[assignee := newIssues + [issue]];
      }
    }
    assert issues[..|issues|] == issues;
  }

  class SendIssueNotificationsPostJob {
    /** The issues of the analysis, as the issue cache lists them. */
    const issueCache: seq<Issue>
    const notifications: IN.IssueNotifications

    constructor (issueCache: seq<Issue>, notifications: IN.IssueNotifications)
      ensures this.issueCache == issueCache && this.notifications == notifications
    {
      this.issueCache := issueCache;
      this.notifications := notifications;
    }

    /** The constructor that builds its own IssueNotifications around the manager. */
    constructor WithManager(issueCache: seq<Issue>, notificationsManager: NotificationManager,
                            formatDateTime: int -> string)
      ensures this.issueCache == issueCache
      ensures this.notifications.notificationsManager == notificationsManager
      ensures this.notifications.formatDateTime == formatDateTime
    {
      this.issueCache := issueCache;
      this.notifications := new IN.IssueNotifications(notificationsManager, formatDateTime);
    }

    /** `sendNotifications`: nothing is scheduled when no issue counts; otherwise one
        "my-new-issues" notification per assignee, in the order returned. */
    method SendNotifications(project: Project) returns (ghost order: seq<string>)
      modifies notifications.notificationsManager
      ensures var groups := GroupByAssignee(issueCache);
        if groups == map[] then
          notifications.notificationsManager.scheduled == old(notifications.notificationsManager.scheduled)
        else
          && IN.Enumerates(order, groups.Keys)
          && notifications.notificationsManager.scheduled == old(notifications.notificationsManager.scheduled)
            + IN.NotificationsFor(project, NOTIFICATION_TYPE_NEW, groups, order, notifications.formatDateTime)
    {
      var newIssuesByAssignee := GroupNewIssues(issueCache);
      order := [];
      if newIssuesByAssignee != map[] {
        order := notifications.SendIssues(project, newIssuesByAssignee, NOTIFICATION_TYPE_NEW);
      }
    }

    /** `executeOn`. */
    method ExecuteOn(project: Project) returns (ghost order: seq<string>)
      modifies notifications.notificationsManager
      ensures var groups := GroupByAssignee(issueCache);
        if groups == map[] then
          notifications.notificationsManager.scheduled == old(notifications.notificationsManager.scheduled)
        else
          && IN.Enumerates(order, groups.Keys)
          && notifications.notificationsManager.scheduled == old(notifications.notificationsManager.scheduled)
            + IN.NotificationsFor(project, NOTIFICATION_TYPE_NEW, groups, order, notifications.formatDateTime)
    {
      order := SendNotifications(project);
    }
  }
}
