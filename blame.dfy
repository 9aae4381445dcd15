/** Blame attribution over a file's SCM measures: the author and the last-commit date of
    every line. The pure part (the latest commit date, the lines of the latest commit, the
    unique last committer, the author for an issue) is stated as functions on one file's
    measures; the class `Blame` holds the per-file measures cache that the source fills
    lazily, and its methods go through that cache. */
module Blame {
  import opened Common
  import RF = ResourceFinder

  /** One file's SCM measures: line -> author, line -> last-commit date, and the order in
      which the line -> date map is iterated. */
  datatype ScmMeasures = ScmMeasures(
    authorsByLine: map<int, string>,
    lastCommitsByLine: map<int, int>,
    lineOrder: seq<int>)
  {
    /** The iteration order lists every line of the date map exactly once. */
    predicate Valid()
    {
      && (forall l :: l in lineOrder ==> l in lastCommitsByLine)
      && (forall l :: l in lastCommitsByLine ==> l in lineOrder)
      && (forall i, j :: 0 <= i < j < |lineOrder| ==> lineOrder[i] != lineOrder[j])
    }
  }

  type Measures = m: ScmMeasures | m.Valid() witness ScmMeasures(map[], map[], [])

  // ---------------------------------------------------------------------------------------
  // The latest commit date of a file.

  /** The largest date among the lines of `order`. */
  function MaxAlong(order: seq<int>, dates: map<int, int>): (d: int)
    requires |order| > 0
    requires forall l :: l in order ==> l in dates
    ensures exists l :: l in order && dates[l] == d
    ensures forall l :: l in order ==> dates[l] <= d
  {
    var first := order[0];
    assert first in order;
    if |order| == 1 then dates[first]
    else
      var rest := MaxAlong(order[1..], dates);
      assert forall l :: l in order ==> l == first || l in order[1..];
      if dates[first] >= rest then dates[first] else rest
  }

  /** `getLastCommitDate`: the last element of the sorted set of the file's commit dates,
      which is their maximum; an empty date map has no last element. */
  function LastCommitDate(m: Measures): (r: Result<int>)
    ensures r.Err? <==> |m.lastCommitsByLine| == 0
    ensures r.Err? ==> r.error == NoSuchElement
    ensures r.Ok? ==> r.value in m.lastCommitsByLine.Values
    ensures r.Ok? ==> forall l :: l in m.lastCommitsByLine ==> m.lastCommitsByLine[l] <= r.value
  {
    LineOrderEmpty(m);
    if |m.lineOrder| == 0 then Err(NoSuchElement)
    else Ok(MaxAlong(m.lineOrder, m.lastCommitsByLine))
  }

  lemma LineOrderEmpty(m: Measures)
    ensures |m.lineOrder| == 0 <==> |m.lastCommitsByLine| == 0
  {
    if |m.lineOrder| == 0 {
      assert forall l :: l !in m.lastCommitsByLine;
      assert m.lastCommitsByLine == map[];
    }
    if |m.lineOrder| > 0 {
      var k := m.lineOrder[0];
      assert k in m.lineOrder;
      assert k in m.lastCommitsByLine;
      assert m.lastCommitsByLine != map[];
    }
  }

  /** The latest date depends only on the date map, not on its iteration order. */
  lemma LastCommitDateOrderIndependent(m1: Measures, m2: Measures)
    requires m1.lastCommitsByLine == m2.lastCommitsByLine
    ensures LastCommitDate(m1) == LastCommitDate(m2)
  {
    if LastCommitDate(m1).Ok? {
      var d1, d2 := LastCommitDate(m1).value, LastCommitDate(m2).value;
      var l1 :| l1 in m1.lastCommitsByLine && m1.lastCommitsByLine[l1] == d1;
      var l2 :| l2 in m2.lastCommitsByLine && m2.lastCommitsByLine[l2] == d2;
      assert d1 <= d2 && d2 <= d1;
    }
  }

  /** The lines of `order` whose date is `d`, in iteration order. */
  function LinesAt(order: seq<int>, dates: map<int, int>, d: int): (lines: seq<int>)
    requires forall l :: l in order ==> l in dates
    ensures forall l :: l in lines <==> l in order && dates[l] == d
    ensures |lines| <= |order|
  {
    if |order| == 0 then []
    else
      var rest := LinesAt(order[1..], dates, d);
      assert forall l :: l in order <==> l == order[0] || l in order[1..];
      if dates[order[0]] == d then [order[0]] + rest else rest
  }

  /** The lines of the latest commit are never empty. */
  lemma LinesOfLastCommitNonEmpty(m: Measures)
    requires LastCommitDate(m).Ok?
    ensures LinesAt(m.lineOrder, m.lastCommitsByLine, LastCommitDate(m).value) != []
  {
    var d := LastCommitDate(m).value;
    var l :| l in m.lastCommitsByLine && m.lastCommitsByLine[l] == d;
    assert l in LinesAt(m.lineOrder, m.lastCommitsByLine, d);
  }

  // ---------------------------------------------------------------------------------------
  // The last committer.

  /** The loop of `getLastCommitterForResource` from the current `author` on: while no author
      is held, take the next line's author (null when the line has none); once one is held,
      a line without author dereferences null and a line with another author is a conflict. */
  function ScanAuthors(lines: seq<int>, authors: map<int, string>, author: Option<string>): Result<Option<string>>
    decreases |lines|
  {
    if |lines| == 0 then Ok(author)
    else match author
      case None => ScanAuthors(lines[1..], authors, Get(authors, lines[0]))
      case Some(a) =>
        if lines[0] !in authors then Err(NullPointer)
        else if authors[lines[0]] != a then Err(NoUniqueAuthorForLastCommit)
        else ScanAuthors(lines[1..], authors, author)
  }

  /** `getLastCommitterForResource` on one file's measures. */
  function LastCommitter(m: Measures): Result<Option<string>>
  {
    var d :- LastCommitDate(m);
    ScanAuthors(LinesAt(m.lineOrder, m.lastCommitsByLine, d), m.authorsByLine, None)
  }

  /** All lines carry an author and it is `a` throughout. */
  ghost predicate AllAuthoredBy(lines: seq<int>, authors: map<int, string>, a: string)
  {
    forall l :: l in lines ==> l in authors && authors[l] == a
  }

  /** When every line has an author, a scan holding `a` succeeds with `a` exactly when all
      lines are by `a`, and otherwise reports the conflict. */
  lemma {:induction false} ScanHolding(lines: seq<int>, authors: map<int, string>, a: string)
    requires forall l :: l in lines ==> l in authors
    ensures ScanAuthors(lines, authors, Some(a)) ==
      if AllAuthoredBy(lines, authors, a) then Ok(Some(a)) else Err(NoUniqueAuthorForLastCommit)
    decreases |lines|
  {
    if |lines| > 0 {
      assert forall l :: l in lines <==> l == lines[0] || l in lines[1..];
      ScanHolding(lines[1..], authors, a);
    }
  }

  /** A scan that starts with no author and meets two lines by different authors fails,
      whatever the order of the lines and whether other lines lack an author. */
  lemma {:induction false} ScanConflict(lines: seq<int>, authors: map<int, string>, l1: int, l2: int)
    requires l1 in lines && l2 in lines && l1 in authors && l2 in authors
    requires authors[l1] != authors[l2]
    ensures ScanAuthors(lines, authors, None).Err?
    decreases |lines|
  {
    var head := lines[0];
    assert forall l :: l in lines ==> l == head || l in lines[1..];
    if head in authors {
      var other := if authors[l1] != authors[head] then l1 else l2;
      ScanHeldMismatch(lines[1..], authors, authors[head], other);
    } else {
      ScanConflict(lines[1..], authors, l1, l2);
    }
  }

  /** A scan holding `a` that meets a line by someone else fails. */
  lemma {:induction false} ScanHeldMismatch(lines: seq<int>, authors: map<int, string>, a: string, l: int)
    requires l in lines && l in authors && authors[l] != a
    ensures ScanAuthors(lines, authors, Some(a)).Err?
    decreases |lines|
  {
    assert forall k :: k in lines ==> k == lines[0] || k in lines[1..];
    if lines[0] != l && lines[0] in authors && authors[lines[0]] == a {
      ScanHeldMismatch(lines[1..], authors, a, l);
    }
  }

  /** A scan over lines none of which has an author finds no author. */
  lemma {:induction false} ScanNoAuthor(lines: seq<int>, authors: map<int, string>)
    requires forall l :: l in lines ==> l !in authors
    ensures ScanAuthors(lines, authors, None) == Ok(None)
    decreases |lines|
  {
    if |lines| > 0 {
      assert lines[0] in lines;
      assert Get(authors, lines[0]) == None;
      assert forall l :: l in lines[1..] ==> l in lines;
      ScanNoAuthor(lines[1..], authors);
    }
  }

  /** The lines of the file's latest commit. */
  ghost function LastCommitLines(m: Measures): set<int>
    requires LastCommitDate(m).Ok?
  {
    set l | l in m.lastCommitsByLine && m.lastCommitsByLine[l] == LastCommitDate(m).value
  }

  /** If every line of the latest commit is by `a`, the last committer is `a`. */
  lemma LastCommitterUnique(m: Measures, a: string)
    requires |m.lastCommitsByLine| > 0
    requires forall l :: l in LastCommitLines(m) ==> l in m.authorsByLine && m.authorsByLine[l] == a
    ensures LastCommitter(m) == Ok(Some(a))
  {
    var d := LastCommitDate(m).value;
    var lines := LinesAt(m.lineOrder, m.lastCommitsByLine, d);
    assert LastCommitter(m) == ScanAuthors(lines, m.authorsByLine, None);
    LinesOfLastCommitNonEmpty(m);
    assert forall l :: l in lines ==> l in LastCommitLines(m);
    var rest := lines[1..];
    assert lines[0] in lines;
    assert Get(m.authorsByLine, lines[0]) == Some(a);
    assert ScanAuthors(lines, m.authorsByLine, None) == ScanAuthors(rest, m.authorsByLine, Some(a));
    assert forall l :: l in rest ==> l in lines;
    ScanHolding(rest, m.authorsByLine, a);
    assert AllAuthoredBy(rest, m.authorsByLine, a);
  }

  /** If two lines of the latest commit have different authors, there is no last committer:
      the result is the conflict when every line of that commit has an author, and an error
      in any case. */
  lemma LastCommitterConflict(m: Measures, l1: int, l2: int)
    requires |m.lastCommitsByLine| > 0
    requires l1 in LastCommitLines(m) && l2 in LastCommitLines(m)
    requires l1 in m.authorsByLine && l2 in m.authorsByLine
    requires m.authorsByLine[l1] != m.authorsByLine[l2]
    ensures LastCommitter(m).Err?
    ensures (forall l :: l in LastCommitLines(m) ==> l in m.authorsByLine) ==>
      LastCommitter(m) == Err(NoUniqueAuthorForLastCommit)
  {
    var lines := LinesAt(m.lineOrder, m.lastCommitsByLine, LastCommitDate(m).value);
    ScanConflict(lines, m.authorsByLine, l1, l2);
    if forall l :: l in LastCommitLines(m) ==> l in m.authorsByLine {
      assert lines[0] in lines;
      ScanHolding(lines[1..], m.authorsByLine, m.authorsByLine[lines[0]]);
      var other := if m.authorsByLine[l1] != m.authorsByLine[lines[0]] then l1 else l2;
      assert other in lines && other != lines[0];
      assert forall l :: l in lines ==> l == lines[0] || l in lines[1..];
    }
  }

  /** If no line of the latest commit has an author, the last committer is null. */
  lemma LastCommitterNone(m: Measures)
    requires |m.lastCommitsByLine| > 0
    requires forall l :: l in LastCommitLines(m) ==> l !in m.authorsByLine
    ensures LastCommitter(m) == Ok(None)
  {
    ScanNoAuthor(LinesAt(m.lineOrder, m.lastCommitsByLine, LastCommitDate(m).value), m.authorsByLine);
  }

  /** When every line of the latest commit has an author, the last committer is that author
      if they all share it, and the conflict otherwise. */
  lemma LastCommitterAllAuthored(m: Measures, l0: int)
    requires |m.lastCommitsByLine| > 0
    requires forall l :: l in LastCommitLines(m) ==> l in m.authorsByLine
    requires l0 in LastCommitLines(m)
    ensures LastCommitter(m) ==
      if forall l :: l in LastCommitLines(m) ==> m.authorsByLine[l] == m.authorsByLine[l0]
      then Ok(Some(m.authorsByLine[l0]))
      else Err(NoUniqueAuthorForLastCommit)
  {
    var a := m.authorsByLine[l0];
    if l2 :| l2 in LastCommitLines(m) && m.authorsByLine[l2] != a {
      LastCommitterConflict(m, l0, l2);
    } else {
      LastCommitterUnique(m, a);
    }
  }

  /** When every line of the latest commit has an author, the last committer does not depend
      on the order in which the date map is iterated. */
  lemma LastCommitterOrderIndependent(m1: Measures, m2: Measures)
    requires m1.authorsByLine == m2.authorsByLine && m1.lastCommitsByLine == m2.lastCommitsByLine
    requires |m1.lastCommitsByLine| > 0
    requires forall l :: l in LastCommitLines(m1) ==> l in m1.authorsByLine
    ensures LastCommitter(m1) == LastCommitter(m2)
  {
    LastCommitDateOrderIndependent(m1, m2);
    assert LastCommitLines(m2) == LastCommitLines(m1);
    var d := LastCommitDate(m1).value;
    var l0 :| l0 in m1.lastCommitsByLine && m1.lastCommitsByLine[l0] == d;
    assert l0 in LastCommitLines(m1);
    LastCommitterAllAuthored(m1, l0);
    LastCommitterAllAuthored(m2, l0);
  }

  // ---------------------------------------------------------------------------------------
  // The author and the commit date for an issue.

  /** `getAuthorForIssueLine`: the author at the issue's line; a file-level issue (no line)
      and a line without author both give null. */
  function AuthorForIssueLine(m: Measures, issue: Issue): (r: Option<string>)
    ensures r.Some? <==> issue.line.Some? && issue.line.value in m.authorsByLine
    ensures r.Some? ==> r.value == m.authorsByLine[issue.line.value]
  {
    match issue.line
    case None => None
    case Some(l) => Get(m.authorsByLine, l)
  }

  /** `getScmAuthorForIssue` on one file's measures. The last committer is computed first, so
      its failure is the result whatever the flag; then the issue line's author is chosen when
      the flag is set or when it is the last committer, and the last committer otherwise (a
      null last committer is dereferenced when the flag is off). */
  function ScmAuthorForIssue(m: Measures, issue: Issue, assignToAuthor: bool): (r: Result<Option<string>>)
    ensures LastCommitter(m).Err? ==> r == Err(LastCommitter(m).error)
    ensures LastCommitter(m).Ok? && assignToAuthor ==> r == Ok(AuthorForIssueLine(m, issue))
    ensures LastCommitter(m) == Ok(None) && !assignToAuthor ==> r == Err(NullPointer)
    ensures LastCommitter(m).Ok? && LastCommitter(m).value.Some? && !assignToAuthor ==>
      r.Ok? && r.value == LastCommitter(m).value
    ensures r.Ok? ==> r.value == AuthorForIssueLine(m, issue) || r == LastCommitter(m)
  {
    var authorForIssueLine := AuthorForIssueLine(m, issue);
    var lastCommitter :- LastCommitter(m);
    if assignToAuthor then Ok(authorForIssueLine)
    else match lastCommitter
      case None => Err(NullPointer)
      case Some(c) => if authorForIssueLine == Some(c) then Ok(authorForIssueLine) else Ok(lastCommitter)
  }

  /** With a last committer `a`: the flag or agreement with `a` gives the issue line's author,
      and anything else gives `a`. */
  lemma ScmAuthorWithLastCommitter(m: Measures, issue: Issue, assignToAuthor: bool, a: string)
    requires LastCommitter(m) == Ok(Some(a))
    ensures ScmAuthorForIssue(m, issue, assignToAuthor) ==
      if assignToAuthor || AuthorForIssueLine(m, issue) == Some(a) then Ok(AuthorForIssueLine(m, issue))
      else Ok(Some(a))
  {
  }

  /** With a null last committer the flag gives the issue line's author, and without the flag
      the null is dereferenced. */
  lemma ScmAuthorWithoutLastCommitter(m: Measures, issue: Issue, assignToAuthor: bool)
    requires LastCommitter(m) == Ok(None)
    ensures ScmAuthorForIssue(m, issue, assignToAuthor) ==
      if assignToAuthor then Ok(AuthorForIssueLine(m, issue)) else Err(NullPointer)
  {
  }

  /** The last committer depends on the iteration order of the date map when a line of the
      latest commit has no author: two lines committed together, only the second of which
      has an author `a`, give `a` when the unauthored line comes first and dereference null
      when it comes second. */
  lemma LastCommitterOrderDependent(authors: map<int, string>, dates: map<int, int>, l1: int, l2: int, d: int, a: string)
    requires l1 != l2 && dates.Keys == {l1, l2} && dates[l1] == d && dates[l2] == d
    requires authors == map[l2 := a]
    ensures ScmMeasures(authors, dates, [l1, l2]).Valid() && ScmMeasures(authors, dates, [l2, l1]).Valid()
    ensures LastCommitter(ScmMeasures(authors, dates, [l1, l2])) == Ok(Some(a))
    ensures LastCommitter(ScmMeasures(authors, dates, [l2, l1])) == Err(NullPointer)
  {
    LatestLinesOfTwo(authors, dates, l1, l2, d);
    assert ScanAuthors([l1, l2], authors, None) == ScanAuthors([l2], authors, None);
    assert ScanAuthors([l2], authors, None) == ScanAuthors([], authors, Some(a));
    LatestLinesOfTwo(authors, dates, l2, l1, d);
    assert ScanAuthors([l2, l1], authors, None) == ScanAuthors([l1], authors, Some(a));
  }

  /** Two lines committed together: the latest commit holds both, in iteration order. */
  lemma LatestLinesOfTwo(authors: map<int, string>, dates: map<int, int>, l1: int, l2: int, d: int)
    requires l1 != l2 && dates.Keys == {l1, l2} && dates[l1] == d && dates[l2] == d
    ensures ScmMeasures(authors, dates, [l1, l2]).Valid()
    ensures LastCommitter(ScmMeasures(authors, dates, [l1, l2])) == ScanAuthors([l1, l2], authors, None)
  {
    TwoLinesValid(authors, dates, l1, l2);
    var m: Measures := ScmMeasures(authors, dates, [l1, l2]);
    TwoLinesLatest(m, l1, l2, d);
    TwoLinesAt(dates, l1, l2, d);
  }

  lemma TwoLinesValid(authors: map<int, string>, dates: map<int, int>, l1: int, l2: int)
    requires l1 != l2 && dates.Keys == {l1, l2}
    ensures ScmMeasures(authors, dates, [l1, l2]).Valid()
  {
  }

  lemma TwoLinesLatest(m: Measures, l1: int, l2: int, d: int)
    requires m.lineOrder == [l1, l2] && m.lastCommitsByLine.Keys == {l1, l2}
    requires m.lastCommitsByLine[l1] == d && m.lastCommitsByLine[l2] == d
    ensures LastCommitDate(m) == Ok(d)
  {
    var latest := LastCommitDate(m).value;
    var k :| k in m.lastCommitsByLine && m.lastCommitsByLine[k] == latest;
    assert k == l1 || k == l2;
  }

  lemma TwoLinesAt(dates: map<int, int>, l1: int, l2: int, d: int)
    requires l1 in dates && l2 in dates && dates[l1] == d && dates[l2] == d
    ensures LinesAt([l1, l2], dates, d) == [l1, l2]
  {
    var order := [l1, l2];
    LinesAtStep(order, dates, d, 0);
    LinesAtStep(order, dates, d, 1);
    assert order[2..] == [];
  }

  /** `getCommitDateForIssue` on one file's measures: the file's latest date for a
      file-level issue, the date at the line otherwise; a line without a date is dereferenced
      (its date is logged) and throws. */
  function CommitDateForIssue(m: Measures, issue: Issue): (r: Result<int>)
    ensures issue.line.None? ==> r == LastCommitDate(m)
    ensures issue.line.Some? && issue.line.value in m.lastCommitsByLine ==> r == Ok(m.lastCommitsByLine[issue.line.value])
    ensures issue.line.Some? && issue.line.value !in m.lastCommitsByLine ==> r == Err(NullPointer)
  {
    match issue.line
    case None => LastCommitDate(m)
    case Some(l) => if l in m.lastCommitsByLine then Ok(m.lastCommitsByLine[l]) else Err(NullPointer)
  }

  /** A commit date found for an issue is never later than the file's latest commit. */
  lemma CommitDateAtMostLatest(m: Measures, issue: Issue)
    requires CommitDateForIssue(m, issue).Ok?
    ensures LastCommitDate(m).Ok? && CommitDateForIssue(m, issue).value <= LastCommitDate(m).value
  {
  }

  // ---------------------------------------------------------------------------------------
  // The loops of the source.

  /** The loop of `getLinesFromLastCommit`: the lines dated `date`, in iteration order. */
  method CollectLinesAt(m: Measures, date: int) returns (lines: seq<int>)
    ensures lines == LinesAt(m.lineOrder, m.lastCommitsByLine, date)
  {
    lines := [];
    var i := 0;
    while i < |m.lineOrder|
      invariant 0 <= i <= |m.lineOrder|
      invariant lines + LinesAt(m.lineOrder[i..], m.lastCommitsByLine, date)
             == LinesAt(m.lineOrder, m.lastCommitsByLine, date)
    {
      var line := m.lineOrder[i];
      LinesAtStep(m.lineOrder, m.lastCommitsByLine, date, i);
      ghost var rest := LinesAt(m.lineOrder[i + 1..], m.lastCommitsByLine, date);
      if m.lastCommitsByLine[line] == date {
        AppendAssoc(lines, [line], rest);
        lines := lines + [line];
      }
      i := i + 1;
    }
    assert lines + [] == lines;
  }

  /** The lines from position `i` on: the line at `i` when it has the date, then the lines
      after it. */
  lemma LinesAtStep(order: seq<int>, dates: map<int, int>, d: int, i: nat)
    requires forall l :: l in order ==> l in dates
    requires i < |order|
    ensures forall l :: l in order[i + 1..] ==> l in order
    ensures LinesAt(order[i..], dates, d)
      == if dates[order[i]] == d then [order[i]] + LinesAt(order[i + 1..], dates, d) else LinesAt(order[i + 1..], dates, d)
  {
    assert order[i..][1..] == order[i + 1..];
  }

  /** The loop of `getLastCommitterForResource` over the lines of the latest commit. */
  method UniqueAuthor(lines: seq<int>, authors: map<int, string>) returns (r: Result<Option<string>>)
    ensures r == ScanAuthors(lines, authors, None)
  {
    var author: Option<string> := None;
    var i := 0;
    while i < |lines|
      invariant 0 <= i <= |lines|
      invariant ScanAuthors(lines[i..], authors, author) == ScanAuthors(lines, authors, None)
    {
      var line := lines[i];
      assert lines[i..][1..] == lines[i + 1..];
      if author.None? {
        author := Get(authors, line);
      } else {
        if line !in authors {
          return Err(NullPointer);
        }
        var nextAuthor := authors[line];
        if nextAuthor != author.value {
          return Err(NoUniqueAuthorForLastCommit);
        }
      }
      i := i + 1;
    }
    return Ok(author);
  }

  // ---------------------------------------------------------------------------------------
  // The cache of measures per component key.

  class Blame {
    const index: RF.SonarIndex
    const measuresFinder: RF.Resource -> Option<Measures>
    /** component key -> measures, a null value standing for measures the finder did not have. */
    var resourceMeasuresMap: map<string, Option<Measures>>
    /** How many times the finders were consulted. */
    ghost var finderCalls: nat

    /** What the finders give for a component key: the resource lookup may throw, and the
        measures finder may return null. */
    function Fetch(componentKey: string): Result<Option<Measures>>
    {
      var resource :- RF.Resolve(index, componentKey);
      Ok(measuresFinder(resource))
    }

    /** `getMeasuresForResource` as a value: null measures are MissingScmMeasureData. */
    function MeasuresFor(componentKey: string): (r: Result<Measures>)
      ensures r.Ok? <==> Fetch(componentKey).Ok? && Fetch(componentKey).value.Some?
      ensures r.Ok? ==> Fetch(componentKey).value == Some(r.value)
      ensures Fetch(componentKey) == Ok(None) ==> r == Err(MissingScmMeasureData)
      ensures Fetch(componentKey).Err? ==> r == Err(Fetch(componentKey).error)
    {
      var found :- Fetch(componentKey);
      if found.None? then Err(MissingScmMeasureData) else Ok(found.value)
    }

    /** `getCommitDateForIssue` as a value. */
    function CommitDateFor(issue: Issue): Result<int>
    {
      var m :- MeasuresFor(issue.componentKey);
      CommitDateForIssue(m, issue)
    }

    /** `getScmAuthorForIssue` as a value. */
    function ScmAuthorFor(issue: Issue, assignToAuthor: bool): Result<Option<string>>
    {
      var m :- MeasuresFor(issue.componentKey);
      ScmAuthorForIssue(m, issue, assignToAuthor)
    }

    /** Every cached entry is what the finders give for its key. */
    ghost predicate Valid()
      reads this
    {
      forall k :: k in resourceMeasuresMap ==> Fetch(k) == Ok(resourceMeasuresMap[k])
    }

    /** The key is cached with non-null measures. */
    ghost predicate Cached(componentKey: string)
      reads this
    {
      componentKey in resourceMeasuresMap && resourceMeasuresMap[componentKey].Some?
    }

    /** The cache after one lookup of `componentKey`: a key cached with non-null measures is
        left alone; otherwise the key is bound to what the finder returned, unless finding
        the resource threw. */
    function CacheAfter(cache: map<string, Option<Measures>>, componentKey: string): (after: map<string, Option<Measures>>)
      ensures forall k :: k != componentKey ==>
        (k in after <==> k in cache) && (k in after ==> after[k] == cache[k])
      ensures Fetch(componentKey).Ok? ==> componentKey in after
    {
      if componentKey in cache && cache[componentKey].Some? then cache
      else match Fetch(componentKey)
        case Ok(found) => cache[componentKey := found]
        case Err(_) => cache
    }

    /** Looking the same key up twice leaves the cache as looking it up once. */
    lemma CacheAfterIdempotent(cache: map<string, Option<Measures>>, componentKey: string)
      ensures CacheAfter(CacheAfter(cache, componentKey), componentKey) == CacheAfter(cache, componentKey)
    {
    }

    constructor (index: RF.SonarIndex, measuresFinder: RF.Resource -> Option<Measures>)
      ensures Valid()
      ensures this.index == index && this.measuresFinder == measuresFinder
      ensures resourceMeasuresMap == map[] && finderCalls == 0
    {
      this.index := index;
      this.measuresFinder := measuresFinder;
      resourceMeasuresMap := map[];
      finderCalls := 0;
    }

    /** `getScmMeasuresForResource`: the cached measures when non-null, otherwise the
        finders' answer, which is then cached (a null answer included). */
    method GetScmMeasuresForResource(componentKey: string) returns (r: Result<Option<Measures>>)
      requires Valid()
      modifies this
      ensures Valid()
      ensures r == Fetch(componentKey)
      ensures resourceMeasuresMap == CacheAfter(old(resourceMeasuresMap), componentKey)
      ensures r.Ok? ==> componentKey in resourceMeasuresMap && resourceMeasuresMap[componentKey] == r.value
      ensures finderCalls == old(finderCalls) + if old(Cached(componentKey)) then 0 else 1
    {
      var cached := Get(resourceMeasuresMap, componentKey);
      if cached.Some? && cached.value.Some? {
        return Ok(cached.value);
      }
      r := FindAndCache(componentKey);
    }

    /** The cache miss: one call into the finders, whose answer is cached unless finding the
        resource threw. */
    method FindAndCache(componentKey: string) returns (r: Result<Option<Measures>>)
      requires Valid() && !Cached(componentKey)
      modifies this
      ensures Valid()
      ensures r == Fetch(componentKey)
      ensures resourceMeasuresMap == CacheAfter(old(resourceMeasuresMap), componentKey)
      ensures r.Ok? ==> componentKey in resourceMeasuresMap && resourceMeasuresMap[componentKey] == r.value
      ensures finderCalls == old(finderCalls) + 1
    {
      var resource := RF.Find(index, componentKey);
      finderCalls := finderCalls + 1;
      if resource.Err? {
        return Err(resource.error);
      }
      var measures := measuresFinder(resource.value);
      resourceMeasuresMap := resourceMeasuresMap[componentKey := measures];
      return Ok(measures);
    }

    /** `getMeasuresForResource`: null measures throw MissingScmMeasureData. */
    method GetMeasuresForResource(componentKey: string) returns (r: Result<Measures>)
      requires Valid()
      modifies this
      ensures Valid()
      ensures r == MeasuresFor(componentKey)
      ensures resourceMeasuresMap == CacheAfter(old(resourceMeasuresMap), componentKey)
      ensures finderCalls == old(finderCalls) + if old(Cached(componentKey)) then 0 else 1
    {
      var found := GetScmMeasuresForResource(componentKey);
      if found.Err? {
        return Err(found.error);
      }
      if found.value.None? {
        return Err(MissingScmMeasureData);
      }
      return Ok(found.value.value);
    }

    /** `getLastCommitDate`. */
    method GetLastCommitDate(componentKey: string) returns (r: Result<int>)
      requires Valid()
      modifies this
      ensures Valid()
      ensures r == (var m :- MeasuresFor(componentKey); LastCommitDate(m))
      ensures resourceMeasuresMap == CacheAfter(old(resourceMeasuresMap), componentKey)
      ensures finderCalls == old(finderCalls) + if old(Cached(componentKey)) then 0 else 1
    {
      var m := GetMeasuresForResource(componentKey);
      if m.Err? {
        return Err(m.error);
      }
      r := LastCommitDate(m.value);
    }

    /** `getLinesFromLastCommit`: the lines dated `lastCommitDate`, in iteration order. */
    method GetLinesFromLastCommit(componentKey: string, lastCommitDate: int) returns (r: Result<seq<int>>)
      requires Valid()
      modifies this
      ensures Valid()
      ensures r == (var m :- MeasuresFor(componentKey); Ok(LinesAt(m.lineOrder, m.lastCommitsByLine, lastCommitDate)))
      ensures resourceMeasuresMap == CacheAfter(old(resourceMeasuresMap), componentKey)
      ensures finderCalls == old(finderCalls) + if old(Cached(componentKey)) then 0 else 1
    {
      var found := GetMeasuresForResource(componentKey);
      if found.Err? {
        return Err(found.error);
      }
      var lines := CollectLinesAt(found.value, lastCommitDate);
      return Ok(lines);
    }

    /** `getLastCommitterForResource`: the author shared by every line of the latest commit. */
    method GetLastCommitterForResource(componentKey: string) returns (r: Result<Option<string>>)
      requires Valid()
      modifies this
      ensures Valid()
      ensures r == (var m :- MeasuresFor(componentKey); LastCommitter(m))
      ensures resourceMeasuresMap == CacheAfter(old(resourceMeasuresMap), componentKey)
      ensures finderCalls == old(finderCalls) + if old(Cached(componentKey)) then 0 else 1
    {
      var date := GetLastCommitDate(componentKey);
      if date.Err? {
        return Err(date.error);
      }
      CacheAfterIdempotent(old(resourceMeasuresMap), componentKey);
      var found := GetLinesFromLastCommit(componentKey, date.value);
      var m := GetMeasuresForResource(componentKey);
      r := UniqueAuthor(found.value, m.value.authorsByLine);
    }

    /** `getScmAuthorForIssue`. */
    method GetScmAuthorForIssue(issue: Issue, assignToAuthor: bool) returns (r: Result<Option<string>>)
      requires Valid()
      modifies this
      ensures Valid()
      ensures r == ScmAuthorFor(issue, assignToAuthor)
      ensures resourceMeasuresMap == CacheAfter(old(resourceMeasuresMap), issue.componentKey)
      ensures finderCalls == old(finderCalls) + if old(Cached(issue.componentKey)) then 0 else 1
    {
      var found := GetMeasuresForResource(issue.componentKey);
      if found.Err? {
        return Err(found.error);
      }
      var authorForIssueLine := AuthorForIssueLine(found.value, issue);
      CacheAfterIdempotent(old(resourceMeasuresMap), issue.componentKey);
      var lastCommitter := GetLastCommitterForResource(issue.componentKey);
      if lastCommitter.Err? {
        return Err(lastCommitter.error);
      }
      if assignToAuthor {
        return Ok(authorForIssueLine);
      }
      if lastCommitter.value.None? {
        return Err(NullPointer);
      }
      if authorForIssueLine == lastCommitter.value {
        return Ok(authorForIssueLine);
      }
      return Ok(lastCommitter.value);
    }

    /** `getCommitDateForIssue`. */
    method GetCommitDateForIssue(issue: Issue) returns (r: Result<int>)
      requires Valid()
      modifies this
      ensures Valid()
      ensures r == CommitDateFor(issue)
      ensures resourceMeasuresMap == CacheAfter(old(resourceMeasuresMap), issue.componentKey)
      ensures finderCalls == old(finderCalls) + if old(Cached(issue.componentKey)) then 0 else 1
    {
      if issue.line.None? {
        r := GetLastCommitDate(issue.componentKey);
        return;
      }
      var found := GetMeasuresForResource(issue.componentKey);
      if found.Err? {
        return Err(found.error);
      }
      var dates := found.value.lastCommitsByLine;
      if issue.line.value !in dates {
        return Err(NullPointer);
      }
      return Ok(dates[issue.line.value]);
    }
  }
}
