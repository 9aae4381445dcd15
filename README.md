# sonar-issue-assign, modelled in Dafny

A model of the SonarQube Issue Assign plugin. During an analysis the plugin assigns each issue
to the developer blamed for it. After the analysis it mails each developer a digest of the new
issues assigned to them. The model covers the plugin's own decision logic and the
step-by-step code around it:

- **Blame attribution** (`blame.dfy`). Over a file's SCM measures (line → author, line →
  last-commit date) it finds the latest commit date, the lines of that commit, and the unique
  last committer. It also picks the author for an issue (the line's author or the last
  committer) and the commit date for an issue. The class `Blame.Blame` keeps the per-file
  measures cache the source fills lazily.
- **Resource lookup** (`resource_finder.dfy`). The resource key is taken from
  `org:project:resourceKey` using Java's `String.split`, including its dropping of trailing
  empty fields. The model has the direct index lookup and the fallback linear search.
- **Assignability** (`issue_wrapper.dfy`). The four gates are checked in order: new enough,
  unassigned, severe enough on the `Severity.ALL` scale, and committed strictly after the cutoff
  date.
- **The issue handler** (`issue_assigner.dfy`). `onIssue` passes the cutoff gate (unlike the
  wrapper's, an unset cutoff blocks here) and the no-assignee check. It then resolves the blame
  author's user, or the default assignee when there is no author, and swallows every failure.
- **User lookup** (`users.dfy`). Users are found by login, otherwise by e-mail. An address
  embedded as `Name <mail>` is extracted. The e-mail → user map is built once.
- **Notifications**:
  - `post_job.dfy`: the post-job groups new, unresolved, assigned issues by assignee.
  - `issue_notifications.dfy`: one notification per group is built and scheduled, with the
    count of each severity.
  - `email_format.dfy`, `my_issues_template.dfy`, `my_new_issues_template.dfy`: the two e-mail
    templates. They share the count line and the `${name}` substitution.
  - `my_issues_dispatcher.dfy`, `my_new_issues_dispatcher.dfy`: the two dispatchers hand a
    notification only to its assignee's channels.
- **Host services** (`notification_api.dfy`, `common.dfy`). The notification manager, the
  dispatch context and the notification record are stated only as far as the plugin uses them.

Java's `null` is `Option.None` and a thrown exception is `Result.Err` carrying the exception's
kind. Dates are integers. Parsing and formatting dates, URL encoding, message labels, the
settings lookup, the measures finder and the user finder are function parameters; their
implementations are not part of this model. Each loop and each in-place update of the source
is a method with loop invariants. Each method is proved equal to a function, and the
properties of the source are lemmas about that function.

Where the source's documentation and its code disagree, the model follows the code:
- The cutoff test is strictly "after", not "at or after".
- A file-level issue has no line author (null). The documentation describes a configurable
  fallback to the last committer.
- The wrapper's cutoff gate lets an unset or unparseable cutoff through. The handler's gate
  blocks it (`IssueAssigner.GatesDisagreeWithoutCutoff`).
- No rejection reason is recorded.

Two tests expect otherwise than the code: `BlameTest.java` lines 209-210, and
`IssueAssignerTest`'s assignment with no cutoff configured. The model follows the code there too.

## Model

| member | source | states |
|---|---|---|
| ResourceFinder.DropTrailingEmpty | src/main/java/org/sonar/plugins/issueassign/ResourceFinder.java:61-64 | `String.split` drops exactly the trailing empty fields: the result is a prefix of the full split, ends in a non-empty field, and only empty fields were dropped |
| ResourceFinder.SplitJoin | src/main/java/org/sonar/plugins/issueassign/ResourceFinder.java:61-64 | splitting the component key at ':' loses nothing: joining the fields with ':' gives the key back |
| ResourceFinder.ResourceKeyFromComponentKey | src/main/java/org/sonar/plugins/issueassign/ResourceFinder.java:61-64 | the resource key is field 2 of the key split at ':'; it exists iff some field from the third on is non-empty, and otherwise the array index throws |
| ResourceFinder.ResourceKeyOfWellFormedKey | src/main/java/org/sonar/plugins/issueassign/ResourceFinder.java:61-64 | for a key org:project:resourceKey (no ':' in the parts, non-empty resource key) the resource key is the third part |
| ResourceFinder.GetResource | src/main/java/org/sonar/plugins/issueassign/ResourceFinder.java:50-59 | the direct lookup finds a resource iff the resource key can be taken from the component key and the index has a file for it; any exception gives null |
| ResourceFinder.FirstMatch | src/main/java/org/sonar/plugins/issueassign/ResourceFinder.java:66-85 | the position of the first resource whose effective key is the component key and whose id is non-null, or -1 iff none matches |
| ResourceFinder.Resolve | src/main/java/org/sonar/plugins/issueassign/ResourceFinder.java:41-48 | a direct hit is returned as is; otherwise the first matching resource in index order; otherwise ResourceNotFound |
| ResourceFinder.SearchAllResources | src/main/java/org/sonar/plugins/issueassign/ResourceFinder.java:66-81 | the loop returns a matching resource with no match before it, or ResourceNotFound when no resource matches |
| ResourceFinder.Find | src/main/java/org/sonar/plugins/issueassign/ResourceFinder.java:41-48 | `find` returns exactly `Resolve`: the direct lookup, falling back to the search |
| Blame.MaxAlong | src/main/java/org/sonar/plugins/issueassign/Blame.java:109-114 | the maximum date over the lines of the iteration order: attained by some line and at least every line's date |
| Blame.ScanAuthors | src/main/java/org/sonar/plugins/issueassign/Blame.java:80-91 | the loop over the latest commit's lines: the first line read sets the author (null when it has none); after that a line without author throws NullPointer and another author throws NoUniqueAuthorForLastCommit; its properties are the Scan* lemmas |
| Blame.LastCommitter | src/main/java/org/sonar/plugins/issueassign/Blame.java:73-95 | the latest commit date (its failure escapes), the lines committed then in iteration order, and the scan; its properties are the LastCommitter* lemmas |
| Blame.LastCommitDate | src/main/java/org/sonar/plugins/issueassign/Blame.java:109-114 | the latest commit date is a date of the file and no line is later; an empty date map throws NoSuchElement |
| Blame.LastCommitDateOrderIndependent | src/main/java/org/sonar/plugins/issueassign/Blame.java:109-114 | the latest date does not depend on the date map's iteration order |
| Blame.LinesAt | src/main/java/org/sonar/plugins/issueassign/Blame.java:116-131 | exactly the lines whose date is the given date |
| Blame.LinesOfLastCommitNonEmpty | src/main/java/org/sonar/plugins/issueassign/Blame.java:116-131 | the lines of the latest commit are never empty |
| Blame.ScanHolding | src/main/java/org/sonar/plugins/issueassign/Blame.java:73-95 | once an author is held and every line has an author, the loop keeps it iff every remaining line is by that author, and fails with NoUniqueAuthorForLastCommit otherwise |
| Blame.ScanConflict | src/main/java/org/sonar/plugins/issueassign/Blame.java:73-95 | two lines with different authors make the loop fail, in any order and whether or not other lines lack an author |
| Blame.ScanHeldMismatch | src/main/java/org/sonar/plugins/issueassign/Blame.java:73-95 | a line by another author than the one held makes the loop fail |
| Blame.ScanNoAuthor | src/main/java/org/sonar/plugins/issueassign/Blame.java:73-95 | lines none of which has an author give a null author |
| Blame.LastCommitterUnique | src/main/java/org/sonar/plugins/issueassign/Blame.java:73-95 | when every line of the latest commit is by `a`, the last committer is `a` |
| Blame.LastCommitterConflict | src/main/java/org/sonar/plugins/issueassign/Blame.java:73-95 | two lines of the latest commit with different authors give a failure, and it is NoUniqueAuthorForLastCommit when every such line has an author |
| Blame.LastCommitterNone | src/main/java/org/sonar/plugins/issueassign/Blame.java:73-95 | when no line of the latest commit has an author, the last committer is null |
| Blame.LastCommitterAllAuthored | src/main/java/org/sonar/plugins/issueassign/Blame.java:73-95 | when every line of the latest commit has an author: the shared author if there is one, and the conflict otherwise (both directions) |
| Blame.LastCommitterOrderIndependent | src/main/java/org/sonar/plugins/issueassign/Blame.java:73-95 | when every line of the latest commit has an author, the last committer does not depend on the iteration order |
| Blame.LastCommitterOrderDependent | src/main/java/org/sonar/plugins/issueassign/Blame.java:73-95 | when a line of the latest commit lacks an author, the order matters: lines [l1, l2] with only l2 authored by `a` give `a`, and [l2, l1] give NullPointer |
| Blame.AuthorForIssueLine | src/main/java/org/sonar/plugins/issueassign/Blame.java:97-99 | the author at the issue's line, null for a file-level issue or a line without author |
| Blame.ScmAuthorForIssue | src/main/java/org/sonar/plugins/issueassign/Blame.java:47-59 | a last-committer failure escapes whatever the flag; with the flag set, the line's author; with it off, the last committer when there is one and NullPointer when the last committer is null |
| Blame.ScmAuthorWithLastCommitter | src/main/java/org/sonar/plugins/issueassign/Blame.java:47-59 | with last committer `a`: the line's author when the flag is set or it equals `a`, and `a` otherwise |
| Blame.ScmAuthorWithoutLastCommitter | src/main/java/org/sonar/plugins/issueassign/Blame.java:47-59 | with a null last committer: the line's author when the flag is set, and NullPointer (the `equals` on null) when it is off |
| Blame.CommitDateForIssue | src/main/java/org/sonar/plugins/issueassign/Blame.java:61-71 | the file's latest date for a file-level issue, the line's date otherwise; a line without a date throws |
| Blame.CommitDateAtMostLatest | src/main/java/org/sonar/plugins/issueassign/Blame.java:61-71 | a commit date found for an issue is never later than the file's latest commit |
| Blame.LinesAtStep | src/main/java/org/sonar/plugins/issueassign/Blame.java:122-128 | from any position, the line there is collected first exactly when it carries the date, then the lines after it |
| Blame.CollectLinesAt | src/main/java/org/sonar/plugins/issueassign/Blame.java:116-131 | the loop collects exactly `LinesAt` for the given date, in iteration order |
| Blame.UniqueAuthor | src/main/java/org/sonar/plugins/issueassign/Blame.java:73-95 | the author loop computes `ScanAuthors` from no author |
| Blame.Blame.MeasuresFor | src/main/java/org/sonar/plugins/issueassign/Blame.java:101-107 | null measures from the finder are MissingScmMeasureData; finder failures escape; non-null measures are returned |
| Blame.Blame.CacheAfter | src/main/java/org/sonar/plugins/issueassign/Blame.java:133-144 | one lookup touches no other key, and a lookup whose resource is found leaves the key cached |
| Blame.Blame.CacheAfterIdempotent | src/main/java/org/sonar/plugins/issueassign/Blame.java:133-144 | looking a key up twice leaves the cache as looking it up once |
| Blame.Blame.constructor | src/main/java/org/sonar/plugins/issueassign/Blame.java:42-45 | an empty cache that is consistent with the finders |
| Blame.Blame.GetScmMeasuresForResource | src/main/java/org/sonar/plugins/issueassign/Blame.java:133-144 | the finders' answer; a key cached with non-null measures costs no finder call; afterwards the key maps to the answer and the cache is `CacheAfter` of the old one |
| Blame.Blame.FindAndCache | src/main/java/org/sonar/plugins/issueassign/Blame.java:140-143 | on a miss: exactly one finder call, the finders' answer returned and cached, the cache as `CacheAfter` says, and the measures still consistent with the finders |
| Blame.Blame.GetMeasuresForResource | src/main/java/org/sonar/plugins/issueassign/Blame.java:101-107 | returns `MeasuresFor` and updates the cache as `CacheAfter` says |
| Blame.Blame.GetLastCommitDate | src/main/java/org/sonar/plugins/issueassign/Blame.java:109-114 | returns the latest commit date of the file's measures, through the cache |
| Blame.Blame.GetLinesFromLastCommit | src/main/java/org/sonar/plugins/issueassign/Blame.java:116-131 | returns the lines dated the given date, through the cache |
| Blame.Blame.GetLastCommitterForResource | src/main/java/org/sonar/plugins/issueassign/Blame.java:73-95 | returns `LastCommitter` of the file's measures, through the cache |
| Blame.Blame.GetScmAuthorForIssue | src/main/java/org/sonar/plugins/issueassign/Blame.java:47-59 | returns `ScmAuthorForIssue` of the file's measures, through the cache |
| Blame.Blame.GetCommitDateForIssue | src/main/java/org/sonar/plugins/issueassign/Blame.java:61-71 | returns `CommitDateForIssue` of the file's measures, through the cache |
| IssueWrapper.IssueCreatedAfterCutoffDate | src/main/java/org/sonar/plugins/issueassign/IssueWrapper.java:89-108 | the blame date is fetched first and its failure escapes; an unset or unparseable cutoff passes; a parsed cutoff needs a strictly later commit date |
| IssueWrapper.IsNewEnough | src/main/java/org/sonar/plugins/issueassign/IssueWrapper.java:56-65 | every issue when only-assign-new is off, only new issues when it is on (used by `NewEnoughGate`) |
| IssueWrapper.IsUnassigned | src/main/java/org/sonar/plugins/issueassign/IssueWrapper.java:67-69 | the issue has no assignee (used by `AssignedNeverAssignable`) |
| IssueWrapper.IsSevereEnough | src/main/java/org/sonar/plugins/issueassign/IssueWrapper.java:71-87 | the issue's index in `Severity.ALL` is at least the configured severity's, -1 for an unknown or unset one (used by `SevereEnoughByRank` and `SevereEnoughUnknown`) |
| IssueWrapper.CreatedAfterCutoffDate | src/main/java/org/sonar/plugins/issueassign/IssueWrapper.java:110-121 | the commit date is strictly after the cutoff (used by `CutoffDateItselfFails`) |
| IssueWrapper.IsAssignable | src/main/java/org/sonar/plugins/issueassign/IssueWrapper.java:49-54 | true iff new enough, unassigned, severe enough and after the cutoff; a failure only once the first three gates pass |
| IssueWrapper.AssignedNeverAssignable | src/main/java/org/sonar/plugins/issueassign/IssueWrapper.java:67-69 | an issue with an assignee is never assignable and the blame is not consulted |
| IssueWrapper.NewEnoughGate | src/main/java/org/sonar/plugins/issueassign/IssueWrapper.java:56-65 | with only-assign-new on, a non-new issue is not assignable; with it off, newness does not matter |
| IssueWrapper.SevereEnoughByRank | src/main/java/org/sonar/plugins/issueassign/IssueWrapper.java:71-87 | for severities on the scale, severe enough iff the issue's rank is at least the configured one |
| IssueWrapper.SeverityPositions | src/main/java/org/sonar/plugins/issueassign/IssueWrapper.java:71-87 | each severity's position in `Severity.ALL` is its index |
| IssueWrapper.SevereEnoughForMajor | src/main/java/org/sonar/plugins/issueassign/IssueWrapper.java:71-87 | with MAJOR configured, MAJOR, CRITICAL and BLOCKER pass and INFO and MINOR do not |
| IssueWrapper.SevereEnoughUnknown | src/main/java/org/sonar/plugins/issueassign/IssueWrapper.java:71-87 | an unset or unknown configured severity passes every issue; an issue of unknown severity passes only such a configuration |
| IssueWrapper.CutoffUnsetOrUnparseablePasses | src/main/java/org/sonar/plugins/issueassign/IssueWrapper.java:89-108 | an unset or unparseable cutoff passes every issue whose commit date is found |
| IssueWrapper.CutoffDateItselfFails | src/main/java/org/sonar/plugins/issueassign/IssueWrapper.java:110-121 | a commit on the cutoff date itself does not pass |
| IssueWrapper.BlameFailureEscapesWithoutCutoff | src/main/java/org/sonar/plugins/issueassign/IssueWrapper.java:89-108 | a blame failure escapes from an issue past the first three gates even with no cutoff set |
| Users.FollowedByIff | src/main/java/org/sonar/plugins/issueassign/Users.java:78-81 | the first `b` followed by a `c` exists iff some `b` is followed by some `c` |
| Users.HasEmbeddedEmailAddress | src/main/java/org/sonar/plugins/issueassign/Users.java:78-81 | true iff '<', '@' and '>' occur at increasing positions, which is what `.*<.*@.*>.*` matches |
| Users.IsEmailAddress | src/main/java/org/sonar/plugins/issueassign/Users.java:72-75 | the name contains '@' (`SonarUserFor` states what the lookup does with and without it) |
| Users.ExtractEmail | src/main/java/org/sonar/plugins/issueassign/Users.java:83-88 | the text after the first '<' up to the next '>'; it fails iff no '>' follows |
| Users.ExtractEmbedded | src/main/java/org/sonar/plugins/issueassign/Users.java:83-88 | an address written between brackets after a prefix without '<' is extracted exactly |
| Users.EmbeddedExtractionSucceeds | src/main/java/org/sonar/plugins/issueassign/Users.java:83-88 | extraction cannot fail on a name with an embedded address |
| Users.EmailIndex | src/main/java/org/sonar/plugins/issueassign/Users.java:102-113 | the map holds exactly the non-empty e-mails of the users, each bound to a user with that e-mail |
| Users.EmailIndexLastWins | src/main/java/org/sonar/plugins/issueassign/Users.java:102-113 | a later user with the same e-mail overwrites an earlier one |
| Users.LastWithEmail | src/main/java/org/sonar/plugins/issueassign/Users.java:106-111 | the position of the last user with the e-mail, or -1 when none has it |
| Users.EmailIndexIsLast | src/main/java/org/sonar/plugins/issueassign/Users.java:102-113 | an indexed e-mail is bound to the last user in the list that has it |
| Users.UserByEmail | src/main/java/org/sonar/plugins/issueassign/Users.java:90-100 | the user the index holds for that e-mail (the last user with it, by `EmailIndexIsLast`), or SonarUserNotFound iff the e-mail is not indexed |
| Users.SonarUserFor | src/main/java/org/sonar/plugins/issueassign/Users.java:47-70 | a login found directly is returned unchanged; otherwise a name without '@' is SonarUserNotFound, a name with an embedded address is looked up by the extracted address, and any other e-mail name by itself |
| Users.EmailNameLookup | src/main/java/org/sonar/plugins/issueassign/Users.java:47-70 | a name `prefix<email>suffix` with an embedded address, no '<' in the prefix and no '>' in the address, is looked up by the address between its brackets |
| Users.EmbeddedNameShape | src/main/java/org/sonar/plugins/issueassign/Users.java:78-88 | every name with an embedded address has that shape: the part before its first '<', '<', the extracted address, '>' and the rest |
| Users.ExtractedShape | src/main/java/org/sonar/plugins/issueassign/Users.java:83-88 | a successful extraction after a '<' is the text between the first '<' and the next '>', and the name is rebuilt from the pieces |
| Users.PlainEmailLookup | src/main/java/org/sonar/plugins/issueassign/Users.java:47-70 | an e-mail name without embedded address, whatever brackets it holds, is looked up as it is |
| Users.Users.constructor | src/main/java/org/sonar/plugins/issueassign/Users.java:43-45 | no e-mail map yet |
| Users.EmailIndexSnoc | src/main/java/org/sonar/plugins/issueassign/Users.java:106-111 | one more user is put under their e-mail when they have a non-empty one, and changes nothing otherwise |
| Users.Users.InitialiseUserMap | src/main/java/org/sonar/plugins/issueassign/Users.java:102-113 | the loop builds exactly `EmailIndex` of all users |
| Users.Users.GetSonarUserByEmail | src/main/java/org/sonar/plugins/issueassign/Users.java:90-100 | returns `UserByEmail`; builds the map on first use and never rebuilds it |
| Users.Users.GetSonarUser | src/main/java/org/sonar/plugins/issueassign/Users.java:47-70 | returns `SonarUserFor`; a map once built stays |
| IssueAssigner.CreatedAfterCutoff | src/main/java/org/sonar/plugins/issueassign/IssueAssigner.java:98-111 | true iff the blame commit date is strictly after the cutoff; blame failures escape |
| IssueAssigner.CutoffGate | src/main/java/org/sonar/plugins/issueassign/IssueAssigner.java:76-96 | false for an unset or unparseable cutoff, without consulting the blame; otherwise `CreatedAfterCutoff` |
| IssueAssigner.AssignGate | src/main/java/org/sonar/plugins/issueassign/IssueAssigner.java:72-74 | true iff the cutoff gate passes and there is no assignee; it fails iff the cutoff gate fails |
| IssueAssigner.ChosenAssignee | src/main/java/org/sonar/plugins/issueassign/IssueAssigner.java:113-129 | blame failures escape; no author gives the default assignee; an author gives the user resolved for them |
| IssueAssigner.Outcome | src/main/java/org/sonar/plugins/issueassign/IssueAssigner.java:52-70 | an assignment happens iff the plugin is enabled, the gate passes and the assignee is found, and it is that assignee |
| IssueAssigner.DisabledAssignsNothing | src/main/java/org/sonar/plugins/issueassign/IssueAssigner.java:52-70 | a disabled plugin assigns nothing |
| IssueAssigner.NoCutoffAssignsNothing | src/main/java/org/sonar/plugins/issueassign/IssueAssigner.java:76-96 | an unset or unparseable cutoff blocks every assignment |
| IssueAssigner.NotAfterCutoffAssignsNothing | src/main/java/org/sonar/plugins/issueassign/IssueAssigner.java:98-111 | an issue committed on or before the cutoff is not assigned |
| IssueAssigner.AssignedIssueKept | src/main/java/org/sonar/plugins/issueassign/IssueAssigner.java:72-74 | an issue that has an assignee is not reassigned |
| IssueAssigner.EligibleIssueAssigned | src/main/java/org/sonar/plugins/issueassign/IssueAssigner.java:113-129 | an eligible issue goes to the default assignee when the blame has no author, and to the author's user otherwise |
| IssueAssigner.FailureAssignsNothing | src/main/java/org/sonar/plugins/issueassign/IssueAssigner.java:52-70 | any failure of the gate, the blame or the assignee lookup leaves the issue unassigned |
| IssueAssigner.GatesDisagreeWithoutCutoff | src/main/java/org/sonar/plugins/issueassign/IssueAssigner.java:76-96 | with no cutoff set, an issue the wrapper finds assignable is not assigned by the handler |
| IssueAssigner.IssueAssigner.constructor | src/main/java/org/sonar/plugins/issueassign/IssueAssigner.java:46-50 | the settings, the host services and a fresh, empty blame cache |
| IssueAssigner.IssueAssigner.ShouldExecute | src/main/java/org/sonar/plugins/issueassign/IssueAssigner.java:131-133 | the plugin's enabled setting (`OnIssue` states that a disabled plugin assigns nothing) |
| IssueAssigner.IssueAssigner.CreatedAfterCutoffDate | src/main/java/org/sonar/plugins/issueassign/IssueAssigner.java:98-111 | returns `CreatedAfterCutoff`; touches only the issue's cache entry |
| IssueAssigner.IssueAssigner.IssueCreatedAfterCutoffDate | src/main/java/org/sonar/plugins/issueassign/IssueAssigner.java:76-96 | returns `CutoffGate`; the cache is untouched unless the cutoff parses |
| IssueAssigner.IssueAssigner.ShouldAssign | src/main/java/org/sonar/plugins/issueassign/IssueAssigner.java:72-74 | returns `AssignGate`, with the same cache effect |
| IssueAssigner.IssueAssigner.AssignIssue | src/main/java/org/sonar/plugins/issueassign/IssueAssigner.java:113-129 | returns `ChosenAssignee`, and assigns it to the issue exactly when it is found |
| IssueAssigner.IssueAssigner.OnIssue | src/main/java/org/sonar/plugins/issueassign/IssueAssigner.java:52-70 | the issue's assignments grow by `Outcome` and nothing else; a disabled plugin makes no finder call |
| IssueNotifications.SeverityCountsSum | src/main/java/org/sonar/plugins/issueassign/notification/IssueNotifications.java:57-59 | when every severity is on the scale, the per-severity counts add up to the group size |
| IssueNotifications.CountFields | src/main/java/org/sonar/plugins/issueassign/notification/IssueNotifications.java:56-58 | each severity's `count-S` field holds the decimal count of its issues, and no other field is set |
| IssueNotifications.BaseFieldValues | src/main/java/org/sonar/plugins/issueassign/notification/IssueNotifications.java:52-55 | the fields set before the loop read back as the project name (null when unset), the key, the formatted date, the decimal group size and the assignee |
| IssueNotifications.NewIssuesNotification | src/main/java/org/sonar/plugins/issueassign/notification/IssueNotifications.java:47-62 | the notification built for one assignee's group; its fields are stated by `NewIssuesNotificationFields` and `NotificationCountsAddUp` |
| IssueNotifications.NewIssuesNotificationFields | src/main/java/org/sonar/plugins/issueassign/notification/IssueNotifications.java:47-68 | the type; projectName and projectKey from the project; the formatted date; the decimal group size as `count`; the assignee; each `count-S`; the default message |
| IssueNotifications.NotificationCountsAddUp | src/main/java/org/sonar/plugins/issueassign/notification/IssueNotifications.java:55-59 | read back as numbers, the `count-S` fields add up to `count` |
| IssueNotifications.NotificationsFor | src/main/java/org/sonar/plugins/issueassign/notification/IssueNotifications.java:47-62 | one notification per assignee of the order |
| IssueNotifications.NotificationsForAt | src/main/java/org/sonar/plugins/issueassign/notification/IssueNotifications.java:47-62 | the notification at each position is the one built for the assignee at that position, from that assignee's group |
| IssueNotifications.NotificationsForSnoc | src/main/java/org/sonar/plugins/issueassign/notification/IssueNotifications.java:47-62 | one more assignee appends exactly their notification |
| IssueNotifications.EnumeratesStep | src/main/java/org/sonar/plugins/issueassign/notification/IssueNotifications.java:47-49 | visiting one more entry keeps the visited assignees listed once each, and exactly the entries not left to visit |
| IssueNotifications.IssueNotifications.constructor | src/main/java/org/sonar/plugins/issueassign/notification/IssueNotifications.java:43-45 | keeps the manager |
| IssueNotifications.IssueNotifications.BuildNotification | src/main/java/org/sonar/plugins/issueassign/notification/IssueNotifications.java:52-59 | the setter calls and the severity loop build exactly `NewIssuesNotification` |
| IssueNotifications.IssueNotifications.SetBaseFields | src/main/java/org/sonar/plugins/issueassign/notification/IssueNotifications.java:51-55 | the chained setters leave the type, exactly the base fields (no project name when it is null) and the default message |
| IssueNotifications.IssueNotifications.SetSeverityCounts | src/main/java/org/sonar/plugins/issueassign/notification/IssueNotifications.java:56-58 | the severity loop adds exactly the count fields of the severities and changes nothing else |
| IssueNotifications.IssueNotifications.SendIssues | src/main/java/org/sonar/plugins/issueassign/notification/IssueNotifications.java:47-62 | exactly one notification per map entry, each with the given type, appended to the schedule in the map's iteration order |
| PostJob.IssuesOf | src/main/java/org/sonar/plugins/issueassign/notification/SendIssueNotificationsPostJob.java:62-75 | exactly the new, unresolved issues assigned to the assignee |
| PostJob.GroupByAssignee | src/main/java/org/sonar/plugins/issueassign/notification/SendIssueNotificationsPostJob.java:62-75 | the new, unresolved, assigned issues grouped by assignee in list order; its properties are `GroupMembership`, `NoEmptyGroup`, `GroupStep` and `GroupSizesAddUp` |
| PostJob.Assignees | src/main/java/org/sonar/plugins/issueassign/notification/SendIssueNotificationsPostJob.java:62-75 | an assignee is a key iff they have a counted issue |
| PostJob.GroupMembership | src/main/java/org/sonar/plugins/issueassign/notification/SendIssueNotificationsPostJob.java:62-75 | an issue is in its assignee's group iff it is new, unresolved and assigned; a group holds only its own assignee's issues |
| PostJob.NoEmptyGroup | src/main/java/org/sonar/plugins/issueassign/notification/SendIssueNotificationsPostJob.java:68-73 | no group is empty |
| PostJob.AssigneesSnoc | src/main/java/org/sonar/plugins/issueassign/notification/SendIssueNotificationsPostJob.java:62-75 | one more issue adds its assignee to the assignees exactly when it is counted |
| PostJob.IssuesOfSnoc | src/main/java/org/sonar/plugins/issueassign/notification/SendIssueNotificationsPostJob.java:62-75 | one more issue ends its assignee's group exactly when it is counted, and leaves every other group alone |
| PostJob.GroupStep | src/main/java/org/sonar/plugins/issueassign/notification/SendIssueNotificationsPostJob.java:62-75 | one more issue: a counted one is added at the end of its assignee's group, created empty first; any other changes nothing |
| PostJob.GroupSizesAddUp | src/main/java/org/sonar/plugins/issueassign/notification/SendIssueNotificationsPostJob.java:62-75 | in any enumeration order, the group sizes add up to the number of counted issues |
| PostJob.TwoAssigneesExample | src/test/java/org/sonar/plugins/issueassign/notification/SendIssueNotificationsPostJobTest.java:69-85 | two new issues with distinct assignees and one old issue give two groups of one issue each |
| PostJob.GroupNewIssues | src/main/java/org/sonar/plugins/issueassign/notification/SendIssueNotificationsPostJob.java:62-75 | the get/put/add loop builds exactly `GroupByAssignee` |
| PostJob.SendIssueNotificationsPostJob.constructor | src/main/java/org/sonar/plugins/issueassign/notification/SendIssueNotificationsPostJob.java:44-47 | keeps the issue cache and the notifications |
| PostJob.SendIssueNotificationsPostJob.WithManager | src/main/java/org/sonar/plugins/issueassign/notification/SendIssueNotificationsPostJob.java:49-52 | builds its own notifications around the manager |
| PostJob.SendIssueNotificationsPostJob.SendNotifications | src/main/java/org/sonar/plugins/issueassign/notification/SendIssueNotificationsPostJob.java:59-80 | nothing is scheduled iff no group exists; otherwise one my-new-issues notification per group, appended in the enumeration order |
| PostJob.SendIssueNotificationsPostJob.ExecuteOn | src/main/java/org/sonar/plugins/issueassign/notification/SendIssueNotificationsPostJob.java:55-57 | the same as `SendNotifications` |
| EmailFormat.Entries | src/main/java/org/sonar/plugins/issueassign/notification/MyIssuesEmailTemplate.java:84-91 | exactly one entry per severity listed |
| EmailFormat.EntriesAt | src/main/java/org/sonar/plugins/issueassign/notification/MyIssuesEmailTemplate.java:84-91 | the entry at each position is "label: count" of the severity at that position, the label from i18n and the count from the severity's count field |
| EmailFormat.EntriesSnoc | src/main/java/org/sonar/plugins/issueassign/notification/MyIssuesEmailTemplate.java:84-91 | one more severity adds its entry at the end |
| EmailFormat.CountBySeverity | src/main/java/org/sonar/plugins/issueassign/notification/MyIssuesEmailTemplate.java:83-92 | the entries of the reversed severities joined by three spaces; `CountBySeverityLine` spells it out |
| EmailFormat.CountBySeverityLine | src/main/java/org/sonar/plugins/issueassign/notification/MyIssuesEmailTemplate.java:83-92 | the count line is the BLOCKER, CRITICAL, MAJOR, MINOR and INFO entries, separated by three spaces, with none at the end |
| EmailFormat.ReverseSeverities | src/main/java/org/sonar/plugins/issueassign/notification/MyIssuesEmailTemplate.java:84 | `Lists.reverse(Severity.ALL)` lists the most severe first |
| EmailFormat.AppendCountBySeverity | src/main/java/org/sonar/plugins/issueassign/notification/MyIssuesEmailTemplate.java:83-92 | the iterator loop over the reversed severities appends exactly the count line |
| EmailFormat.AppendEntries | src/main/java/org/sonar/plugins/issueassign/notification/MyIssuesEmailTemplate.java:85-91 | the loop appends every entry in order, with three spaces after each entry that has a successor and none after the last |
| EmailFormat.Replace | src/main/java/org/sonar/plugins/issueassign/notification/MyIssuesEmailTemplate.java:103-104 | a null template gives null and a template gives text |
| EmailFormat.Substitute | src/main/java/org/sonar/plugins/issueassign/notification/MyIssuesEmailTemplate.java:103-104 | `${name}` placeholders replaced from the map, left as written when unmapped or unclosed; its properties are the placeholder lemmas below |
| EmailFormat.NoPlaceholderUnchanged | src/main/java/org/sonar/plugins/issueassign/notification/MyIssuesEmailTemplate.java:103-104 | a template without '$' comes out unchanged |
| EmailFormat.LiteralPrefix | src/main/java/org/sonar/plugins/issueassign/notification/MyIssuesEmailTemplate.java:103-104 | text without '$' is copied and the substitution continues after it |
| EmailFormat.PlaceholderStep | src/main/java/org/sonar/plugins/issueassign/notification/MyIssuesEmailTemplate.java:103-104 | at a `${` with a closing brace, the name's value or the placeholder as written, then the rest |
| EmailFormat.Placeholder | src/main/java/org/sonar/plugins/issueassign/notification/MyIssuesEmailTemplate.java:103-104 | `${name}` becomes the name's value, or stays as written when it has none, and the rest is substituted |
| EmailFormat.SubstituteAlone | src/main/java/org/sonar/plugins/issueassign/notification/MyIssuesEmailTemplate.java:103-104 | a template of one placeholder gives its value, or itself |
| EmailFormat.PutValue | src/main/java/org/sonar/plugins/issueassign/notification/MyIssuesEmailTemplate.java:96-101 | after `put`, the name reads as the value (null leaves it unresolved) and every other name is unchanged |
| EmailFormat.Values | src/main/java/org/sonar/plugins/issueassign/notification/MyIssuesEmailTemplate.java:96-101 | each of the five names reads as its value, and there are no other names |
| EmailFormat.PlaceholderValues | src/main/java/org/sonar/plugins/issueassign/notification/MyIssuesEmailTemplate.java:96-104 | `${date}` is the raw date string, `${url}` the link, `${countBySeverity}` the count line; `${projectName}` and `${count}` their fields, or themselves when unset |
| EmailFormat.PlaceholderOf | src/main/java/org/sonar/plugins/issueassign/notification/MyIssuesEmailTemplate.java:103-104 | a placeholder alone gives the value the map has for its name, or itself |
| EmailFormat.TwoPlaceholders | src/main/java/org/sonar/plugins/issueassign/notification/MyIssuesEmailTemplate.java:103-104 | two placeholders around text without '$' each become their value, or stay as written |
| EmailFormat.SubjectExample | src/test/java/org/sonar/plugins/issueassign/notification/MyIssuesEmailTemplateTest.java:114-119 | the subject template `${projectName}|${count}` gives name, '|', count |
| MyIssuesTemplate.MyIssuesEmailTemplate.constructor | src/main/java/org/sonar/plugins/issueassign/notification/MyIssuesEmailTemplate.java:55-61 | keeps the settings and the two template setting names |
| MyIssuesTemplate.MyIssuesEmailTemplate.Formatted | src/main/java/org/sonar/plugins/issueassign/notification/MyIssuesEmailTemplate.java:68-110 | null iff the type differs or the key, date or assignee is missing; an unparseable date throws; otherwise the id type/key/assignee and the configured subject and content, substituted with the five values |
| MyIssuesTemplate.MyIssuesEmailTemplate.MessageIdParts | src/main/java/org/sonar/plugins/issueassign/notification/MyIssuesEmailTemplate.java:107 | the message id splits at '/' into the type, the project key and the assignee |
| MyIssuesTemplate.MyIssuesEmailTemplate.Format | src/main/java/org/sonar/plugins/issueassign/notification/MyIssuesEmailTemplate.java:68-110 | the checks, the loop, the puts and the substitutions give exactly `Formatted` |
| MyNewIssuesTemplate.MyNewIssuesEmailTemplate.constructor | src/main/java/org/sonar/plugins/issueassign/notification/MyNewIssuesEmailTemplate.java:52-55 | keeps the e-mail settings and the labels |
| MyNewIssuesTemplate.MyNewIssuesEmailTemplate.Encode | src/main/java/org/sonar/plugins/issueassign/notification/MyNewIssuesEmailTemplate.java:102-108 | the URL encoding of a string; null throws |
| MyNewIssuesTemplate.MyNewIssuesEmailTemplate.GenerateUrl | src/main/java/org/sonar/plugins/issueassign/notification/MyNewIssuesEmailTemplate.java:97-100 | a link iff there is an assignee; a null assignee throws in the encoder |
| MyNewIssuesTemplate.MyNewIssuesEmailTemplate.UrlFields | src/main/java/org/sonar/plugins/issueassign/notification/MyNewIssuesEmailTemplate.java:97-100 | the link is the base URL + `/issues/search#` and then exactly the componentRoots, createdAt and assignees fields, each encoded, in order |
| MyNewIssuesTemplate.MyNewIssuesEmailTemplate.Footer | src/main/java/org/sonar/plugins/issueassign/notification/MyNewIssuesEmailTemplate.java:86-95 | empty unless the key and the date are both present, otherwise "\nSee it in SonarQube: <url>\n"; it fails iff both are present and the date does not parse or the assignee is missing |
| MyNewIssuesTemplate.MyNewIssuesEmailTemplate.Formatted | src/main/java/org/sonar/plugins/issueassign/notification/MyNewIssuesEmailTemplate.java:58-84 | null iff the type is not my-new-issues; fails iff the footer fails; id type/key/assignee; subject "<name>: new issues assigned to you"; message the body then the footer |
| MyNewIssuesTemplate.MyNewIssuesEmailTemplate.FooterPresence | src/main/java/org/sonar/plugins/issueassign/notification/MyNewIssuesEmailTemplate.java:86-95 | a message is produced, and it is the bare body iff the key or the date is missing |
| MyNewIssuesTemplate.MyNewIssuesEmailTemplate.MissingAssigneeFails | src/main/java/org/sonar/plugins/issueassign/notification/MyNewIssuesEmailTemplate.java:86-100 | with a key and a parseable date but no assignee, `format` throws instead of producing a message |
| MyNewIssuesTemplate.MyNewIssuesEmailTemplate.MessageIdParts | src/main/java/org/sonar/plugins/issueassign/notification/MyNewIssuesEmailTemplate.java:81 | the message id splits at '/' into my-new-issues, the project key and the assignee |
| MyNewIssuesTemplate.MyNewIssuesEmailTemplate.AppendFooter | src/main/java/org/sonar/plugins/issueassign/notification/MyNewIssuesEmailTemplate.java:86-95 | the builder extended by `Footer`, or its failure |
| MyNewIssuesTemplate.MyNewIssuesEmailTemplate.Format | src/main/java/org/sonar/plugins/issueassign/notification/MyNewIssuesEmailTemplate.java:58-84 | the appends, the severity loop and the footer give exactly `Formatted` |
| MyIssuesDispatcher.Recipients | src/main/java/org/sonar/plugins/issueassign/notification/MyIssuesNotificationDispatcher.java:46-67 | nothing without an assignee; every pair added is the assignee with one of their channels; every channel of the assignee is added |
| MyIssuesDispatcher.PairCounts | src/main/java/org/sonar/plugins/issueassign/notification/MyIssuesNotificationDispatcher.java:60-63 | each channel yields its pair as often as it is listed, and no pair of another login appears |
| MyIssuesDispatcher.AssigneeChannelsOnce | src/main/java/org/sonar/plugins/issueassign/notification/MyIssuesNotificationDispatcher.java:56-63 | each of the assignee's channels is added as often as it is listed (once in a multimap's set), and nothing for anyone else |
| MyIssuesDispatcher.TwoSubscribersExample | src/test/java/org/sonar/plugins/issueassign/notification/MyIssuesNotificationDispatcherTest.java:77-88 | with user1 on e-mail and user2 on twitter, a notification for user1 adds only (user1, e-mail) |
| MyIssuesDispatcher.AddAssigneeChannels | src/main/java/org/sonar/plugins/issueassign/notification/MyIssuesNotificationDispatcher.java:56-65 | the nested loops add exactly `Recipients` for the assignee |
| MyIssuesDispatcher.AddUserChannels | src/main/java/org/sonar/plugins/issueassign/notification/MyIssuesNotificationDispatcher.java:60-63 | the inner loop adds the login with each of its channels, in order, and nothing else |
| MyIssuesDispatcher.MyIssuesNotificationDispatcher.constructor | src/main/java/org/sonar/plugins/issueassign/notification/MyIssuesNotificationDispatcher.java:40-43 | keeps the notification type and the manager's lookup |
| MyIssuesDispatcher.MyIssuesNotificationDispatcher.Dispatch | src/main/java/org/sonar/plugins/issueassign/notification/MyIssuesNotificationDispatcher.java:46-67 | the context gains exactly `Recipients` for the notification's project subscribers and assignee |
| MyNewIssuesDispatcher.NewMetadata | src/main/java/org/sonar/plugins/issueassign/notification/MyNewIssuesNotificationDispatcher.java:54-58 | the metadata is keyed MyNewIssues and offers both global and per-project subscription |
| MyNewIssuesDispatcher.MyNewIssuesNotificationDispatcher.constructor | src/main/java/org/sonar/plugins/issueassign/notification/MyNewIssuesNotificationDispatcher.java:41-52 | the notification type is my-new-issues and the key is MyNewIssues |
| MyNewIssuesDispatcher.MyNewIssuesNotificationDispatcher.GetKey | src/main/java/org/sonar/plugins/issueassign/notification/MyNewIssuesNotificationDispatcher.java:49-52 | the dispatcher key MyNewIssues (the constructor states it) |
| MyNewIssuesDispatcher.MyNewIssuesNotificationDispatcher.Dispatch | src/main/java/org/sonar/plugins/issueassign/notification/MyNewIssuesNotificationDispatcher.java:60-83 | the context gains exactly `Recipients` for the notification's project subscribers and assignee |
| Common.DecimalRoundTrip | src/main/java/org/sonar/plugins/issueassign/notification/IssueNotifications.java:55-58 | a count rendered with `String.valueOf` reads back as the same number |
| Common.NatToStringInjective | src/main/java/org/sonar/plugins/issueassign/notification/IssueNotifications.java:55-58 | distinct counts render as distinct strings |

## Left out

- Logging (`LOG.*`, `DiagnosticLogger`) and plugin registration (`IssueAssignPlugin`: property declarations, the extension list). They have no behaviour beyond constants.
- Date parsing and formatting (`DateUtils`, `SimpleDateFormat`): parameters here. Dates are integers and `Date.after` is `>`.
- `URLEncoder`, the `I18n` labels, `Settings.getString` and `EmailSettings`: parameters. `MyNewIssuesTemplate.MyNewIssuesEmailTemplate.UrlFields` assumes the encoder leaves no '|' in its output.
- The host services `SonarIndex`, `MeasuresFinder`, `UserFinder`, `NotificationManager` and the dispatch context are values, or classes recording their calls. Their own behaviour is not part of this model.
- `IssuesBySeverity` is a sequence of issues counted per severity.
- The Java regex `.*<.*@.*>.*` is modelled as '<', '@' and '>' at increasing positions. Line terminators, which `.` does not match, are not modelled.
- `EmailFormat.Replace`: does not substitute placeholders inside inserted values again (Apache `StrSubstitutor` does), and does not model its other escape and default-value syntax. Only the one-pass `${name}` replacement and the `$${` escape are modelled.
- The host's `NotificationDispatcher.performDispatch` type filter belongs to the host's base class and is not part of this model. `Dispatch` is modelled as called for the dispatcher's own type.
- The host's `AbstractIssueHandler` context (`context.assign`) and `IssueCache` are a recording class and a sequence.
- The post-job calls `sendNewIssues` (SendIssueNotificationsPostJob.java:78) and the handler calls `getCommitDateForIssueLine` (IssueAssigner.java:100). Neither is defined in the source; they are modelled as `sendIssues` with type "my-new-issues" and as `getCommitDateForIssue` (Blame.java:61-72), which the wrapper calls at IssueWrapper.java:92.
- Map iteration order (`HashMap.entrySet`, `Multimap.asMap`) is an unspecified choice in the loops. `IssueNotifications.IssueNotifications.SendIssues` and `PostJob.SendIssueNotificationsPostJob.SendNotifications` return it as a ghost `order`. The line → date map's order is a field of `Blame.ScmMeasures`. The last committer depends on that order when a line of the latest commit has no author: the first line read may set the author to null, which a later line then replaces, or a later authorless line may throw NullPointer (`Blame.LastCommitterOrderDependent`). When every such line has an author, the order does not matter (`Blame.LastCommitterOrderIndependent`).
- `IssueWrapper` reads the commit date through the pure `Blame.Blame.CommitDateFor`. The blame cache's side effect on that path is not modelled (it is modelled on the handler's path).
- The distinction between `IssueAssignPluginException` and other exceptions in `onIssue`: both are caught, and only "no assignment" is modelled.
- Exception messages and stack traces.
- Behaviour seen only in tests, with no source: the blameless-to-last-committer setting, SCM-username extraction, `NoAssignReason`, and changed-issue partitioning.
- `EmailFormat.CountBySeverityLine`: states the line as the five entries in order. It does not spell the entries out with the test's literal labels and counts.
- `MyIssuesDispatcher.Recipients`: a subscriber's channels are a sequence. Guava's `HashMultimap` holds each channel at most once, so "as often as listed" means once there.
- The two `MyIssuesEmailTemplate` subclasses supply `getNotificationType` and `generateUrl`. Here they are constructor arguments; the subclasses are not part of this model.
