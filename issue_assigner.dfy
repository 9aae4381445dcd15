/** The issue handler that assigns each issue as the analysis reports it. When the plugin is
    enabled, an issue whose commit date is strictly after the configured cutoff and which has
    no assignee is assigned to the user resolved for its SCM author, or to the default assignee
    when no author is found. Any failure on the way is swallowed and leaves the issue
    unassigned. Unlike the wrapper's gate, an unset or unparseable cutoff here blocks
    assignment. */
module IssueAssigner {
  import opened Common
  import RF = ResourceFinder
  import B = Blame
  import IW = IssueWrapper

  /** The host's assignee resolution, which is not part of this model: the user for an SCM
      author, and the default assignee; either may throw. */
  datatype Assign = Assign(assigneeFor: string -> Result<User>, defaultAssignee: Result<User>)

  /** The cutoff setting is present and the date parser accepts it. */
  predicate CutoffParses(settings: Settings, parseDate: string -> Option<int>)
  {
    settings.issueCutoffDate.Some? && parseDate(settings.issueCutoffDate.value).Some?
  }

  /** `createdAfterCutoffDate` as a value: the issue's commit date is strictly after the cutoff. */
  function CreatedAfterCutoff(blame: B.Blame, issue: Issue, cutoffDate: int): (r: Result<bool>)
    ensures r.Ok? <==> blame.CommitDateFor(issue).Ok?
    ensures r.Ok? ==> (r.value <==> blame.CommitDateFor(issue).value > cutoffDate)
    ensures r.Err? ==> r.error == blame.CommitDateFor(issue).error
  {
    var issueCreatedDate :- blame.CommitDateFor(issue);
    Ok(issueCreatedDate > cutoffDate)
  }

  /** `issueCreatedAfterCutoffDate` as a value: false unless the cutoff is set and parses; the
      blame is consulted only then. */
  function CutoffGate(blame: B.Blame, issue: Issue, settings: Settings, parseDate: string -> Option<int>): (r: Result<bool>)
    ensures !CutoffParses(settings, parseDate) ==> r == Ok(false)
    ensures CutoffParses(settings, parseDate) ==>
      r == CreatedAfterCutoff(blame, issue, parseDate(settings.issueCutoffDate.value).value)
  {
    match settings.issueCutoffDate
    case None => Ok(false)
    case Some(pref) =>
      match parseDate(pref)
      case None => Ok(false)
      case Some(cutoffDate) => CreatedAfterCutoff(blame, issue, cutoffDate)
  }

  /** `shouldAssign` as a value: the cutoff gate, then no assignee yet. A failure can only come
      from the cutoff gate, and it escapes even for an assigned issue. */
  function AssignGate(blame: B.Blame, issue: Issue, settings: Settings, parseDate: string -> Option<int>): (r: Result<bool>)
    ensures r == Ok(true) <==> CutoffGate(blame, issue, settings, parseDate) == Ok(true) && issue.assignee.None?
    ensures r.Err? <==> CutoffGate(blame, issue, settings, parseDate).Err?
    ensures r.Err? ==> r.error == CutoffGate(blame, issue, settings, parseDate).error
  {
    var after :- CutoffGate(blame, issue, settings, parseDate);
    Ok(after && issue.assignee.None?)
  }

  /** The user `assignIssue` picks: the default assignee when the blame finds no author, the
      user resolved for the author otherwise. */
  function ChosenAssignee(blame: B.Blame, assign: Assign, settings: Settings, issue: Issue): (r: Result<User>)
    ensures blame.ScmAuthorFor(issue, settings.assignToAuthor).Err? ==>
      r == Err(blame.ScmAuthorFor(issue, settings.assignToAuthor).error)
    ensures blame.ScmAuthorFor(issue, settings.assignToAuthor) == Ok(None) ==> r == assign.defaultAssignee
    ensures blame.ScmAuthorFor(issue, settings.assignToAuthor).Ok? ==>
      blame.ScmAuthorFor(issue, settings.assignToAuthor).value.Some? ==>
      r == assign.assigneeFor(blame.ScmAuthorFor(issue, settings.assignToAuthor).value.value)
  {
    var author :- blame.ScmAuthorFor(issue, settings.assignToAuthor);
    match author
    case None => assign.defaultAssignee
    case Some(a) => assign.assigneeFor(a)
  }

  /** What `onIssue` does to an issue: the user it is assigned to, or nothing. */
  function Outcome(blame: B.Blame, assign: Assign, settings: Settings, parseDate: string -> Option<int>, issue: Issue): (r: Option<User>)
    ensures r.Some? <==>
      && settings.enabled
      && AssignGate(blame, issue, settings, parseDate) == Ok(true)
      && ChosenAssignee(blame, assign, settings, issue).Ok?
    ensures r.Some? ==> r.value == ChosenAssignee(blame, assign, settings, issue).value
  {
    if !settings.enabled then None
    else match AssignGate(blame, issue, settings, parseDate)
      case Err(_) => None
      case Ok(should) =>
        if !should then None
        else match ChosenAssignee(blame, assign, settings, issue)
          case Err(_) => None
          case Ok(assignee) => Some(assignee)
  }

  /** A disabled plugin assigns nothing. */
  lemma DisabledAssignsNothing(blame: B.Blame, assign: Assign, settings: Settings, parseDate: string -> Option<int>, issue: Issue)
    requires !settings.enabled
    ensures Outcome(blame, assign, settings, parseDate, issue) == None
  {
  }

  /** An unset or unparseable cutoff blocks every assignment. */
  lemma NoCutoffAssignsNothing(blame: B.Blame, assign: Assign, settings: Settings, parseDate: string -> Option<int>, issue: Issue)
    requires !CutoffParses(settings, parseDate)
    ensures Outcome(blame, assign, settings, parseDate, issue) == None
  {
  }

  /** An issue committed on or before the cutoff is not assigned. */
  lemma NotAfterCutoffAssignsNothing(blame: B.Blame, assign: Assign, settings: Settings, parseDate: string -> Option<int>, issue: Issue)
    requires CutoffParses(settings, parseDate)
    requires blame.CommitDateFor(issue).Ok?
    requires blame.CommitDateFor(issue).value <= parseDate(settings.issueCutoffDate.value).value
    ensures Outcome(blame, assign, settings, parseDate, issue) == None
  {
  }

  /** An issue that already has an assignee is not reassigned. */
  lemma AssignedIssueKept(blame: B.Blame, assign: Assign, settings: Settings, parseDate: string -> Option<int>, issue: Issue)
    requires issue.assignee.Some?
    ensures Outcome(blame, assign, settings, parseDate, issue) == None
  {
  }

  /** An eligible issue without blame author goes to the default assignee, and one with an
      author to the user resolved for that author. */
  lemma EligibleIssueAssigned(blame: B.Blame, assign: Assign, settings: Settings, parseDate: string -> Option<int>, issue: Issue, user: User)
    requires settings.enabled && issue.assignee.None? && CutoffParses(settings, parseDate)
    requires blame.CommitDateFor(issue).Ok?
    requires blame.CommitDateFor(issue).value > parseDate(settings.issueCutoffDate.value).value
    ensures blame.ScmAuthorFor(issue, settings.assignToAuthor) == Ok(None) && assign.defaultAssignee == Ok(user) ==>
      Outcome(blame, assign, settings, parseDate, issue) == Some(user)
    ensures blame.ScmAuthorFor(issue, settings.assignToAuthor).Ok? ==>
      blame.ScmAuthorFor(issue, settings.assignToAuthor).value.Some? ==>
      assign.assigneeFor(blame.ScmAuthorFor(issue, settings.assignToAuthor).value.value) == Ok(user) ==>
      Outcome(blame, assign, settings, parseDate, issue) == Some(user)
  {
  }

  /** Every failure, of the gate, of the blame or of the assignee lookup, leaves the issue
      unassigned. */
  lemma FailureAssignsNothing(blame: B.Blame, assign: Assign, settings: Settings, parseDate: string -> Option<int>, issue: Issue)
    requires AssignGate(blame, issue, settings, parseDate).Err?
          || ChosenAssignee(blame, assign, settings, issue).Err?
    ensures Outcome(blame, assign, settings, parseDate, issue) == None
  {
  }

  /** The two gates disagree on an unset cutoff: an issue the wrapper finds assignable is not
      assigned by the handler. */
  lemma GatesDisagreeWithoutCutoff(blame: B.Blame, assign: Assign, settings: Settings, parseDate: string -> Option<int>, issue: Issue)
    requires settings.enabled && settings.issueCutoffDate.None?
    requires IW.IsNewEnough(issue, settings) && IW.IsUnassigned(issue) && IW.IsSevereEnough(issue, settings)
    requires blame.CommitDateFor(issue).Ok?
    ensures IW.IsAssignable(blame, issue, settings, parseDate) == Ok(true)
    ensures Outcome(blame, assign, settings, parseDate, issue) == None
  {
  }

  /** The handler's view of the issue being reported, and the assignments made to it. */
  class IssueContext {
    const issue: Issue
    var assignments: seq<User>

    constructor (issue: Issue)
      ensures this.issue == issue && assignments == []
    {
      this.issue := issue;
      assignments := [];
    }

    /** `context.assign`. */
    method Assign(assignee: User)
      modifies this
      ensures assignments == old(assignments) + [assignee]
    {
      assignments := assignments + [assignee];
    }
  }

  class IssueAssigner {
    const settings: Settings
    const blame: B.Blame
    const assign: Assign
    const parseDate: string -> Option<int>

    ghost predicate Valid()
      reads this, blame
    {
      blame.Valid()
    }

    constructor (settings: Settings, sonarIndex: RF.SonarIndex, measuresFinder: RF.Resource -> Option<B.Measures>,
                 assign: Assign, parseDate: string -> Option<int>)
      ensures Valid() && fresh(blame)
      ensures this.settings == settings && this.assign == assign && this.parseDate == parseDate
      ensures blame.index == sonarIndex && blame.measuresFinder == measuresFinder
    {
      this.settings := settings;
      this.blame := new B.Blame(sonarIndex, measuresFinder);
      this.assign := assign;
      this.parseDate := parseDate;
    }

    /** `shouldExecute`. */
    predicate ShouldExecute()
    {
      settings.enabled
    }

    /** `createdAfterCutoffDate`. */
    method CreatedAfterCutoffDate(issue: Issue, cutoffDate: int) returns (r: Result<bool>)
      requires Valid()
      modifies blame
      ensures Valid()
      ensures r == CreatedAfterCutoff(blame, issue, cutoffDate)
      ensures blame.resourceMeasuresMap == blame.CacheAfter(old(blame.resourceMeasuresMap), issue.componentKey)
      ensures blame.finderCalls <= old(blame.finderCalls) + 1
    {
      var issueCreatedDate := blame.GetCommitDateForIssue(issue);
      if issueCreatedDate.Err? {
        return Err(issueCreatedDate.error);
      }
      return Ok(issueCreatedDate.value > cutoffDate);
    }

    /** `issueCreatedAfterCutoffDate`: the blame is consulted only for a cutoff that parses. */
    method IssueCreatedAfterCutoffDate(issue: Issue) returns (r: Result<bool>)
      requires Valid()
      modifies blame
      ensures Valid()
      ensures r == CutoffGate(blame, issue, settings, parseDate)
      ensures blame.resourceMeasuresMap ==
        if CutoffParses(settings, parseDate) then blame.CacheAfter(old(blame.resourceMeasuresMap), issue.componentKey)
        else old(blame.resourceMeasuresMap)
      ensures blame.finderCalls <= old(blame.finderCalls) + if CutoffParses(settings, parseDate) then 1 else 0
    {
      var result := Ok(false);
      var issueCutoffDatePref := settings.issueCutoffDate;
      if issueCutoffDatePref.Some? {
        var cutoffDate := parseDate(issueCutoffDatePref.value);
        if cutoffDate.Some? {
          result := CreatedAfterCutoffDate(issue, cutoffDate.value);
        }
      }
      return result;
    }

    /** `shouldAssign`. */
    method ShouldAssign(issue: Issue) returns (r: Result<bool>)
      requires Valid()
      modifies blame
      ensures Valid()
      ensures r == AssignGate(blame, issue, settings, parseDate)
      ensures blame.resourceMeasuresMap ==
        if CutoffParses(settings, parseDate) then blame.CacheAfter(old(blame.resourceMeasuresMap), issue.componentKey)
        else old(blame.resourceMeasuresMap)
      ensures blame.finderCalls <= old(blame.finderCalls) + if CutoffParses(settings, parseDate) then 1 else 0
    {
      var after := IssueCreatedAfterCutoffDate(issue);
      if after.Err? {
        return Err(after.error);
      }
      return Ok(after.value && issue.assignee.None?);
    }

    /** `assignIssue`: assigns the chosen user, or fails and assigns nothing. */
    method AssignIssue(context: IssueContext) returns (r: Result<User>)
      requires Valid()
      modifies blame, context
      ensures Valid()
      ensures r == ChosenAssignee(blame, assign, settings, context.issue)
      ensures context.assignments == old(context.assignments) + if r.Ok? then [r.value] else []
      ensures blame.resourceMeasuresMap == blame.CacheAfter(old(blame.resourceMeasuresMap), context.issue.componentKey)
      ensures blame.finderCalls <= old(blame.finderCalls) + 1
    {
      var issue := context.issue;
      var author := blame.GetScmAuthorForIssue(issue, settings.assignToAuthor);
      if author.Err? {
        return Err(author.error);
      }
      var assignee;
      if author.value.None? {
        assignee := assign.defaultAssignee;
      } else {
        assignee := assign.assigneeFor(author.value.value);
      }
      if assignee.Err? {
        return Err(assignee.error);
      }
      context.Assign(assignee.value);
      return Ok(assignee.value);
    }

    /** `onIssue`: nothing when disabled; otherwise the gate, then the assignment, every failure
        swallowed. The blame cache is consulted, for the issue's file only, exactly when the
        plugin is enabled and the cutoff parses. */
    method OnIssue(context: IssueContext)
      requires Valid()
      modifies blame, context
      ensures Valid()
      ensures context.assignments == old(context.assignments) +
        match Outcome(blame, assign, settings, parseDate, context.issue)
        case None => []
        case Some(assignee) => [assignee]
      ensures blame.resourceMeasuresMap ==
        if settings.enabled && CutoffParses(settings, parseDate)
        then blame.CacheAfter(old(blame.resourceMeasuresMap), context.issue.componentKey)
        else old(blame.resourceMeasuresMap)
      ensures !settings.enabled ==> blame.finderCalls == old(blame.finderCalls)
    {
      if !ShouldExecute() {
        return;
      }
      var issue := context.issue;
      var should := ShouldAssign(issue);
      if should.Ok? && should.value {
        blame.CacheAfterIdempotent(old(blame.resourceMeasuresMap), issue.componentKey);
        var outcome := AssignIssue(context);
      }
    }
  }
}
