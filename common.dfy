/** Shared vocabulary of the plugin model: optional values for Java references that may be
    null, results for calls that may throw, the host's severity scale, the issue record, and
    the few string operations (decimal rendering, joining, character search) that several
    components use. */
module Common {

  /** A Java reference that may be null. */
  datatype Option<+T> = None | Some(value: T)

  /** The exceptions the modelled code throws or lets escape. */
  datatype Failure =
    | ResourceNotFound              // ResourceNotFoundException
    | MissingScmMeasureData         // MissingScmMeasureDataException
    | NoUniqueAuthorForLastCommit   // NoUniqueAuthorForLastCommitException
    | SonarUserNotFound             // SonarUserNotFoundException
    | NullPointer                   // a dereference of null
    | NoSuchElement                 // SortedSet.last() on an empty set
    | IndexOutOfBounds              // an array or substring index out of range
    | UnparseableDate               // the host's date parser rejected its input

  /** The outcome of a call that returns a value or throws. */
  datatype Result<+T> = Ok(value: T) | Err(error: Failure) {
    predicate IsFailure() { Err? }
    function PropagateFailure<U>(): Result<U> requires Err? { Err(error) }
    function Extract(): T requires Ok? { value }
  }

  function Get<K, V>(m: map<K, V>, k: K): (r: Option<V>)
    ensures r.Some? <==> k in m
    ensures r.Some? ==> r.value == m[k]
  {
    if k in m then Some(m[k]) else None
  }

  /** Java's rendering of a possibly-null string inside a concatenation. */
  function Str(s: Option<string>): string
  {
    match s
    case Some(v) => v
    case None => "null"
  }

  // ---------------------------------------------------------------------------------------
  // The host's severity scale, Severity.ALL, least severe first.

  const INFO := "INFO"
  const MINOR := "MINOR"
  const MAJOR := "MAJOR"
  const CRITICAL := "CRITICAL"
  const BLOCKER := "BLOCKER"
  const SeverityAll: seq<string> := [INFO, MINOR, MAJOR, CRITICAL, BLOCKER]

  /** List.indexOf: the first position of `x`, or -1. */
  function IndexOf<T(==)>(s: seq<T>, x: T): (i: int)
    ensures -1 <= i < |s|
    ensures i == -1 <==> x !in s
    ensures i >= 0 ==> s[i] == x && x !in s[..i]
  {
    if |s| == 0 then -1
    else if s[0] == x then 0
    else
      var j := IndexOf(s[1..], x);
      if j == -1 then -1
      else
        assert s[..j + 1] == [s[0]] + s[1..][..j];
        j + 1
  }

  /** List.indexOf for an argument that may be null: a null is never in the list. */
  function IndexOfOption<T(==)>(s: seq<T>, x: Option<T>): (i: int)
    ensures -1 <= i < |s|
    ensures x.None? ==> i == -1
    ensures x.Some? ==> i == IndexOf(s, x.value)
  {
    if x.None? then -1 else IndexOf(s, x.value)
  }

  /** Lists.reverse. */
  function Reverse<T>(s: seq<T>): (r: seq<T>)
    ensures |r| == |s|
    ensures forall i :: 0 <= i < |s| ==> r[i] == s[|s| - 1 - i]
  {
    if s == [] then [] else Reverse(s[1..]) + [s[0]]
  }

  /** Concatenation regroups freely. */
  lemma AppendAssoc<T>(a: seq<T>, b: seq<T>, c: seq<T>)
    ensures a + b + c == a + (b + c)
  {
  }

  /** A sequence is the part before a position, the element there and the part after. */
  lemma Reassemble<T>(s: seq<T>, i: nat)
    requires i < |s|
    ensures s == s[..i] + [s[i]] + s[i + 1..]
  {
  }

  /** A concatenation splits back into its two parts. */
  lemma SplitAppend<T>(a: seq<T>, b: seq<T>)
    ensures (a + b)[..|a|] == a && (a + b)[|a|..] == b
  {
  }

  /** A prefix one longer is the prefix and the next element. */
  lemma TakeSnoc<T>(s: seq<T>, i: nat)
    requires i < |s|
    ensures s[..i + 1] == s[..i] + [s[i]]
  {
  }

  // ---------------------------------------------------------------------------------------
  // The issue record, as the host's Issue and DefaultIssue expose it.

  datatype Issue = Issue(
    key: string,
    componentKey: string,
    line: Option<int>,
    severity: string,
    assignee: Option<string>,
    isNew: bool,
    resolution: Option<string>)

  /** A user of the host: login and e-mail address (which may be null). */
  datatype User = User(login: string, email: Option<string>)

  /** The plugin's settings as the gates read them: the enabled, only-assign-new and
      assign-to-author flags, the configured severity and the cutoff date text, either of
      which may be unset. */
  datatype Settings = Settings(
    enabled: bool,
    onlyAssignNew: bool,
    assignToAuthor: bool,
    severity: Option<string>,
    issueCutoffDate: Option<string>)

  // ---------------------------------------------------------------------------------------
  // Strings.

  /** String.indexOf(char): the first position of `c`, or -1. */
  function IndexOfChar(s: string, c: char): (i: int)
    ensures -1 <= i < |s|
    ensures i == -1 <==> c !in s
    ensures i >= 0 ==> s[i] == c && c !in s[..i]
  {
    IndexOf(s, c)
  }

  /** The first `c` of `a + b` lies in `b` when `a` has none. */
  lemma {:induction false} IndexOfCharAfter(a: string, b: string, c: char)
    requires c !in a && |b| > 0 && b[0] == c
    ensures IndexOfChar(a + b, c) == |a|
  {
    if a != [] {
      assert (a + b)[1..] == a[1..] + b;
      assert forall x :: x in a[1..] ==> x in a;
      IndexOfCharAfter(a[1..], b, c);
    }
  }

  /** Splitting `s` at every `sep`, keeping empty fields. */
  function Split(s: string, sep: char): (fields: seq<string>)
    ensures |fields| >= 1
    ensures forall i :: 0 <= i < |fields| ==> sep !in fields[i]
    decreases |s|
  {
    var i := IndexOfChar(s, sep);
    if i == -1 then [s] else [s[..i]] + Split(s[i + 1..], sep)
  }

  /** A field without the separator, the separator, and the rest split into that field and
      the rest's fields. */
  lemma SplitCons(a: string, b: string, sep: char)
    requires sep !in a
    ensures Split(a + [sep] + b, sep) == [a] + Split(b, sep)
  {
    var s := a + [sep] + b;
    IndexOfCharAfter(a, [sep] + b, sep);
    assert a + ([sep] + b) == s;
    assert s[..|a|] == a && s[|a| + 1..] == b;
  }

  /** Three fields without the separator, joined by it, split back into the three. */
  lemma SplitThree(f1: string, f2: string, f3: string, sep: char)
    requires sep !in f1 && sep !in f2 && sep !in f3
    ensures Split(f1 + [sep] + (f2 + [sep] + f3), sep) == [f1, f2, f3]
  {
    SplitCons(f1, f2 + [sep] + f3, sep);
    SplitCons(f2, f3, sep);
    assert Split(f3, sep) == [f3];
  }

  function DigitChar(d: nat): (c: char)
    requires d < 10
    ensures '0' <= c <= '9'
  {
    "0123456789"[d]
  }

  function DigitValue(c: char): nat
    requires '0' <= c <= '9'
  {
    (c as int - '0' as int) as nat
  }

  /** String.valueOf(int) for a non-negative count. */
  function NatToString(n: nat): (s: string)
    ensures |s| >= 1
    ensures forall i :: 0 <= i < |s| ==> '0' <= s[i] <= '9'
    ensures |s| > 1 ==> s[0] != '0'
    decreases n
  {
    if n < 10 then [DigitChar(n)] else NatToString(n / 10) + [DigitChar(n % 10)]
  }

  /** The value of a string of decimal digits: the reading side of NatToString. */
  function DecimalValue(s: string): nat
    requires forall i :: 0 <= i < |s| ==> '0' <= s[i] <= '9'
  {
    if s == [] then 0 else DecimalValue(s[..|s| - 1]) * 10 + DigitValue(s[|s| - 1])
  }

  /** Reading back a rendered count gives the count: the decimal field values of a
      notification carry the number they were made from. */
  lemma {:induction false} DecimalRoundTrip(n: nat)
    ensures DecimalValue(NatToString(n)) == n
    decreases n
  {
    var s := NatToString(n);
    if n < 10 {
      assert s[..|s| - 1] == [];
    } else {
      DecimalRoundTrip(n / 10);
      assert s[..|s| - 1] == NatToString(n / 10);
    }
  }

  /** Rendering is injective: distinct counts give distinct strings. */
  lemma NatToStringInjective(m: nat, n: nat)
    requires NatToString(m) == NatToString(n)
    ensures m == n
  {
    DecimalRoundTrip(m);
    DecimalRoundTrip(n);
  }

  /** The parts joined by `sep`, with no separator before the first or after the last. */
  function Join(parts: seq<string>, sep: string): string
  {
    if |parts| == 0 then ""
    else if |parts| == 1 then parts[0]
    else Join(parts[..|parts| - 1], sep) + sep + parts[|parts| - 1]
  }
}
