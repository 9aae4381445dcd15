/** The assignability gates of one issue as the wrapper states them: new enough, unassigned,
    severe enough and created after the cutoff date, checked in that order and stopping at the
    first that fails. Here an unset or unparseable cutoff date lets the issue through. */
module IssueWrapper {
  import opened Common
  import B = Blame

  /** `isNewEnough`: any issue when only-assign-new is off, only new issues when it is on. */
  predicate IsNewEnough(issue: Issue, settings: Settings)
  {
    !settings.onlyAssignNew || issue.isNew
  }

  /** `isUnassigned`. */
  predicate IsUnassigned(issue: Issue)
  {
    issue.assignee.None?
  }

  /** `isSevereEnough`: the issue's position in the severity scale is at least the configured
      one's, an unknown or unset severity having position -1. */
  predicate IsSevereEnough(issue: Issue, settings: Settings)
  {
    IndexOf(SeverityAll, issue.severity) >= IndexOfOption(SeverityAll, settings.severity)
  }

  /** `createdAfterCutoffDate`: strictly after, an equal date does not pass. */
  predicate CreatedAfterCutoffDate(issueCreatedDate: int, cutoffDate: int)
  {
    issueCreatedDate > cutoffDate
  }

  /** `issueCreatedAfterCutoffDate`: the issue's commit date is fetched first (its failure
      escapes); then an unset cutoff, or one the date parser rejects, passes, and a parsed one
      demands a strictly later commit date. */
  function IssueCreatedAfterCutoffDate(
    blame: B.Blame, issue: Issue, settings: Settings, parseDate: string -> Option<int>): (r: Result<bool>)
    ensures blame.CommitDateFor(issue).Err? ==> r == Err(blame.CommitDateFor(issue).error)
    ensures blame.CommitDateFor(issue).Ok? && settings.issueCutoffDate.Some? ==>
      parseDate(settings.issueCutoffDate.value).Some? ==>
      r == Ok(blame.CommitDateFor(issue).value > parseDate(settings.issueCutoffDate.value).value)
    ensures blame.CommitDateFor(issue).Ok? ==>
      (settings.issueCutoffDate.None? || parseDate(settings.issueCutoffDate.value).None?) ==> r == Ok(true)
  {
    var issueCreatedDate :- blame.CommitDateFor(issue);
    match settings.issueCutoffDate
    case None => Ok(true)
    case Some(pref) =>
      match parseDate(pref)
      case None => Ok(true)
      case Some(cutoffDate) => Ok(CreatedAfterCutoffDate(issueCreatedDate, cutoffDate))
  }

  /** `isAssignable`: the short-circuit conjunction of the four gates; only the last consults
      the blame, so only it can fail. */
  function IsAssignable(
    blame: B.Blame, issue: Issue, settings: Settings, parseDate: string -> Option<int>): (r: Result<bool>)
    ensures r.Err? ==> IsNewEnough(issue, settings) && IsUnassigned(issue) && IsSevereEnough(issue, settings)
    ensures r == Ok(true) <==>
      && IsNewEnough(issue, settings) && IsUnassigned(issue) && IsSevereEnough(issue, settings)
      && IssueCreatedAfterCutoffDate(blame, issue, settings, parseDate) == Ok(true)
  {
    if !IsNewEnough(issue, settings) then Ok(false)
    else if !IsUnassigned(issue) then Ok(false)
    else if !IsSevereEnough(issue, settings) then Ok(false)
    else IssueCreatedAfterCutoffDate(blame, issue, settings, parseDate)
  }

  /** An issue that already has an assignee is never assignable, and the blame is not
      consulted for it. */
  lemma AssignedNeverAssignable(
    blame: B.Blame, issue: Issue, settings: Settings, parseDate: string -> Option<int>)
    requires issue.assignee.Some?
    ensures IsAssignable(blame, issue, settings, parseDate) == Ok(false)
  {
  }

  /** With only-assign-new on, an issue that is not new is not assignable; with it off, newness
      does not matter. */
  lemma NewEnoughGate(
    blame: B.Blame, issue: Issue, settings: Settings, parseDate: string -> Option<int>)
    ensures settings.onlyAssignNew && !issue.isNew ==> IsAssignable(blame, issue, settings, parseDate) == Ok(false)
    ensures !settings.onlyAssignNew ==>
      IsAssignable(blame, issue, settings, parseDate) ==
      IsAssignable(blame, issue.(isNew := !issue.isNew), settings, parseDate)
  {
  }

  /** For severities on the scale, being severe enough is being at least as high on it. */
  lemma SevereEnoughByRank(issue: Issue, settings: Settings, i: nat, j: nat)
    requires i < |SeverityAll| && j < |SeverityAll|
    requires issue.severity == SeverityAll[i] && settings.severity == Some(SeverityAll[j])
    ensures IsSevereEnough(issue, settings) <==> i >= j
  {
    assert IndexOf(SeverityAll, SeverityAll[i]) == i by { SeverityPositions(i); }
    assert IndexOf(SeverityAll, SeverityAll[j]) == j by { SeverityPositions(j); }
  }

  /** The severities of the scale are distinct, so each one's position is its index. */
  lemma SeverityPositions(i: nat)
    requires i < |SeverityAll|
    ensures IndexOf(SeverityAll, SeverityAll[i]) == i
  {
    var k := IndexOf(SeverityAll, SeverityAll[i]);
    assert SeverityAll[k] == SeverityAll[i];
    assert forall a, b :: 0 <= a < b < |SeverityAll| ==> SeverityAll[a] != SeverityAll[b];
  }

  /** With MAJOR configured, MAJOR, CRITICAL and BLOCKER issues are severe enough and INFO and
      MINOR ones are not. */
  lemma SevereEnoughForMajor(issue: Issue, settings: Settings)
    requires settings.severity == Some(MAJOR)
    ensures issue.severity in {MAJOR, CRITICAL, BLOCKER} ==> IsSevereEnough(issue, settings)
    ensures issue.severity in {INFO, MINOR} ==> !IsSevereEnough(issue, settings)
  {
    SeverityPositions(0);
    SeverityPositions(1);
    SeverityPositions(2);
    SeverityPositions(3);
    SeverityPositions(4);
  }

  /** An unset or unknown configured severity lets every issue through; an issue whose
      severity is not on the scale passes only such a configuration. */
  lemma SevereEnoughUnknown(issue: Issue, settings: Settings)
    ensures (settings.severity.None? || settings.severity.value !in SeverityAll) ==> IsSevereEnough(issue, settings)
    ensures issue.severity !in SeverityAll ==>
      (IsSevereEnough(issue, settings) <==> settings.severity.None? || settings.severity.value !in SeverityAll)
  {
  }

  /** An unset cutoff, or one that does not parse, passes every issue whose commit date is
      found. */
  lemma CutoffUnsetOrUnparseablePasses(
    blame: B.Blame, issue: Issue, settings: Settings, parseDate: string -> Option<int>)
    requires blame.CommitDateFor(issue).Ok?
    requires settings.issueCutoffDate.None? || parseDate(settings.issueCutoffDate.value).None?
    ensures IssueCreatedAfterCutoffDate(blame, issue, settings, parseDate) == Ok(true)
  {
  }

  /** A commit on the cutoff date itself does not pass. */
  lemma CutoffDateItselfFails(
    blame: B.Blame, issue: Issue, settings: Settings, parseDate: string -> Option<int>)
    requires blame.CommitDateFor(issue).Ok? && settings.issueCutoffDate.Some?
    requires parseDate(settings.issueCutoffDate.value) == Some(blame.CommitDateFor(issue).value)
    ensures IssueCreatedAfterCutoffDate(blame, issue, settings, parseDate) == Ok(false)
  {
  }

  /** The commit date is fetched before the cutoff is read: a blame failure escapes from an
      issue that passed the first three gates even when no cutoff is set. */
  lemma BlameFailureEscapesWithoutCutoff(
    blame: B.Blame, issue: Issue, settings: Settings, parseDate: string -> Option<int>)
    requires IsNewEnough(issue, settings) && IsUnassigned(issue) && IsSevereEnough(issue, settings)
    requires settings.issueCutoffDate.None?
    requires blame.CommitDateFor(issue).Err?
    ensures IsAssignable(blame, issue, settings, parseDate) == Err(blame.CommitDateFor(issue).error)
  {
  }
}
