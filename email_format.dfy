/** What both e-mail templates share: the line of per-severity counts, most severe first, and
    the `${name}` placeholder substitution the configurable template applies to its subject and
    body. */
module EmailFormat {
  import opened Common
  import opened NotificationApi
  import IN = IssueNotifications

  /** `I18n.message(Locale.ENGLISH, key, defaultText)`: a label for a message key. */
  type I18n = (string, string) -> string

  /** The three spaces between two severity entries. */
  const SEPARATOR := "   "

  /** "Label: count" for one severity; a missing count field prints as "null". */
  function SeverityEntry(n: Notification, i18n: I18n, severity: string): string
  {
    i18n("severity." + severity, severity) + ": " + Str(n.FieldValue(IN.CountField(severity)))
  }

  /** The entries of the given severities, in that order. */
  function Entries(n: Notification, i18n: I18n, severities: seq<string>): (es: seq<string>)
    ensures |es| == |severities|
  {
    if severities == [] then []
    else Entries(n, i18n, severities[..|severities| - 1]) + [SeverityEntry(n, i18n, severities[|severities| - 1])]
  }

  /** Each entry is the entry of the severity at its position. */
  lemma {:induction false} EntriesAt(n: Notification, i18n: I18n, severities: seq<string>, i: nat)
    requires i < |severities|
    ensures Entries(n, i18n, severities)[i] == SeverityEntry(n, i18n, severities[i])
    decreases |severities|
  {
    var init := severities[..|severities| - 1];
    if i < |init| {
      EntriesAt(n, i18n, init, i);
      assert init[i] == severities[i];
    }
  }

  /** The count line: the entries of `Severity.ALL` reversed, separated (not terminated) by
      three spaces. */
  function CountBySeverity(n: Notification, i18n: I18n): string
  {
    Join(Entries(n, i18n, Reverse(SeverityAll)), SEPARATOR)
  }

  /** The count line spelled out: BLOCKER first, INFO last, one separator between neighbours. */
  lemma CountBySeverityLine(n: Notification, i18n: I18n)
    ensures CountBySeverity(n, i18n) ==
      SeverityEntry(n, i18n, BLOCKER) + SEPARATOR + SeverityEntry(n, i18n, CRITICAL) + SEPARATOR
      + SeverityEntry(n, i18n, MAJOR) + SEPARATOR + SeverityEntry(n, i18n, MINOR) + SEPARATOR
      + SeverityEntry(n, i18n, INFO)
  {
    ReverseSeverities();
    var severities := [BLOCKER, CRITICAL, MAJOR, MINOR, INFO];
    var es := Entries(n, i18n, severities);
    EntriesAt(n, i18n, severities, 0);
    EntriesAt(n, i18n, severities, 1);
    EntriesAt(n, i18n, severities, 2);
    EntriesAt(n, i18n, severities, 3);
    EntriesAt(n, i18n, severities, 4);
    assert es == [es[0], es[1], es[2], es[3], es[4]];
    JoinFive(es[0], es[1], es[2], es[3], es[4], SEPARATOR);
  }

  /** Five parts joined: a separator between each two neighbours. */
  lemma JoinFive(a: string, b: string, c: string, d: string, e: string, sep: string)
    ensures Join([a, b, c, d, e], sep) == a + sep + b + sep + c + sep + d + sep + e
  {
    assert [a, b][..1] == [a];
    assert Join([a, b], sep) == a + sep + b;
    assert [a, b, c][..2] == [a, b];
    assert Join([a, b, c], sep) == a + sep + b + sep + c;
    assert [a, b, c, d][..3] == [a, b, c];
    assert Join([a, b, c, d], sep) == a + sep + b + sep + c + sep + d;
    assert [a, b, c, d, e][..4] == [a, b, c, d];
  }

  /** `Lists.reverse(Severity.ALL)`: most severe first. */
  lemma ReverseSeverities()
    ensures Reverse(SeverityAll) == [BLOCKER, CRITICAL, MAJOR, MINOR, INFO]
  {
    var r := Reverse(SeverityAll);
    assert r[0] == BLOCKER && r[1] == CRITICAL && r[2] == MAJOR && r[3] == MINOR && r[4] == INFO;
  }

  /** Joining one more part appends a separator and the part, except after nothing. */
  lemma JoinSnoc(parts: seq<string>, part: string, sep: string)
    ensures Join(parts + [part], sep) == if parts == [] then part else Join(parts, sep) + sep + part
  {
    assert (parts + [part])[..|parts|] == parts;
  }

  /** The count line as both templates build it: the entries of `Severity.ALL` reversed. */
  method AppendCountBySeverity(sb: string, n: Notification, i18n: I18n) returns (r: string)
    ensures r == sb + CountBySeverity(n, i18n)
  {
    var severities := Reverse(SeverityAll);
    r := AppendEntries(sb, n, i18n, severities);
  }

  /** The iterator loop of both templates: each severity's entry, in the iterator's order, and
      three spaces after every entry that has a successor. */
  method AppendEntries(sb: string, n: Notification, i18n: I18n, severities: seq<string>) returns (r: string)
    ensures r == sb + Join(Entries(n, i18n, severities), SEPARATOR)
  {
    r := sb;
    var i := 0;
    while i < |severities|
      invariant 0 <= i <= |severities|
      invariant r == sb + Join(Entries(n, i18n, severities[..i]), SEPARATOR)
                       + (if 0 < i < |severities| then SEPARATOR else "")
    {
      var severity := severities[i];
      var severityLabel := i18n("severity." + severity, severity);
      var entry := severityLabel + ": " + Str(n.FieldValue(IN.CountField(severity)));
      ghost var done := Entries(n, i18n, severities[..i]);
      EntriesSnoc(n, i18n, severities, i);
      JoinSnoc(done, entry, SEPARATOR);
      ghost var before := r;
      r := r + entry;
      if i == 0 {
        assert before == sb;
      } else {
        AppendAssoc(sb + Join(done, SEPARATOR), SEPARATOR, entry);
        AppendAssoc(sb, Join(done, SEPARATOR) + SEPARATOR, entry);
        AppendAssoc(sb, Join(done, SEPARATOR), SEPARATOR);
      }
      i := i + 1;
      if i < |severities| {
        r := r + SEPARATOR;
      }
    }
    assert severities[..|severities|] == severities;
  }

  /** The entries of one more severity: one more entry at the end. */
  lemma EntriesSnoc(n: Notification, i18n: I18n, severities: seq<string>, i: nat)
    requires i < |severities|
    ensures Entries(n, i18n, severities[..i + 1])
      == Entries(n, i18n, severities[..i]) + [SeverityEntry(n, i18n, severities[i])]
  {
    assert severities[..i + 1][..i] == severities[..i];
  }

  // ---------------------------------------------------------------------------------------
  // Placeholder substitution (StrSubstitutor with the default `${`, `}` and `$` markers).

  /** One pass over the template: `${name}` becomes the value of `name` when it has one and is
      kept as written otherwise; `$${` is the escape for a literal `${`; a `${` with no closing
      brace after it is kept as written, with the rest of the template. */
  function Substitute(t: string, values: map<string, string>): (r: string)
    decreases |t|
  {
    if t == [] then []
    else if |t| >= 3 && t[0] == '$' && t[1] == '$' && t[2] == '{' then "${" + Substitute(t[3..], values)
    else if |t| >= 2 && t[0] == '$' && t[1] == '{' then
      var close := IndexOfChar(t[2..], '}');
      if close < 0 then t
      else
        var name := t[2..2 + close];
        (if name in values then values[name] else t[..3 + close]) + Substitute(t[3 + close..], values)
    else [t[0]] + Substitute(t[1..], values)
  }

  /** `StrSubstitutor.replace`: a null template gives null. */
  function Replace(t: Option<string>, values: map<string, string>): (r: Option<string>)
    ensures r.Some? <==> t.Some?
  {
    match t
    case None => None
    case Some(s) => Some(Substitute(s, values))
  }

  /** A template without `$` comes out unchanged. */
  lemma {:induction false} NoPlaceholderUnchanged(t: string, values: map<string, string>)
    requires '$' !in t
    ensures Substitute(t, values) == t
  {
    if t != [] {
      assert t[0] != '$';
      assert forall c :: c in t[1..] ==> c in t;
      NoPlaceholderUnchanged(t[1..], values);
      assert [t[0]] + t[1..] == t;
    }
  }

  /** A text without `$` is copied and the substitution goes on after it. */
  lemma {:induction false} LiteralPrefix(lit: string, rest: string, values: map<string, string>)
    requires '$' !in lit
    ensures Substitute(lit + rest, values) == lit + Substitute(rest, values)
  {
    if lit != [] {
      var t := lit + rest;
      assert t[0] == lit[0] && t[1..] == lit[1..] + rest;
      assert Substitute(t, values) == [lit[0]] + Substitute(lit[1..] + rest, values);
      assert '$' !in lit[1..] by {
        assert forall c :: c in lit[1..] ==> c in lit;
      }
      LiteralPrefix(lit[1..], rest, values);
      AppendAssoc([lit[0]], lit[1..], Substitute(rest, values));
      assert [lit[0]] + lit[1..] == lit;
    } else {
      assert lit + rest == rest;
    }
  }

  /** One step of the substitution at a `${` that has a closing brace. */
  lemma PlaceholderStep(t: string, values: map<string, string>, close: int)
    requires |t| >= 2 && t[0] == '$' && t[1] == '{'
    requires IndexOfChar(t[2..], '}') == close && close >= 0
    ensures Substitute(t, values) ==
      (if t[2..2 + close] in values then values[t[2..2 + close]] else t[..3 + close]) + Substitute(t[3 + close..], values)
  {
  }

  /** A placeholder is replaced by its value when it has one and kept as written otherwise,
      and the substitution goes on after it. */
  lemma Placeholder(name: string, rest: string, values: map<string, string>)
    requires '}' !in name
    ensures Substitute("${" + name + "}" + rest, values) ==
      (if name in values then values[name] else "${" + name + "}") + Substitute(rest, values)
  {
    var opening := "${";
    var placeholder := opening + name + "}";
    var t := placeholder + rest;
    var u := name + ("}" + rest);
    assert t == opening + u by {
      AppendAssoc(opening, name, "}");
      AppendAssoc(opening + name, "}", rest);
      AppendAssoc(opening, name, "}" + rest);
    }
    SplitAppend(opening, u);
    SplitAppend(name, "}" + rest);
    SplitAppend(placeholder, rest);
    assert t[2..2 + |name|] == u[..|name|];
    IndexOfCharAfter(name, "}" + rest, '}');
    PlaceholderStep(t, values, |name|);
  }

  /** A template that is one placeholder gives its value, or itself when it has none. */
  lemma SubstituteAlone(name: string, values: map<string, string>)
    requires '}' !in name
    ensures Substitute("${" + name + "}", values) == if name in values then values[name] else "${" + name + "}"
  {
    assert "${" + name + "}" + "" == "${" + name + "}";
    Placeholder(name, "", values);
  }

  /** `values.put(name, value)`: a null value leaves its placeholder unresolved, so it is
      simply absent here. */
  function PutValue(values: map<string, string>, name: string, value: Option<string>): (r: map<string, string>)
    ensures Get(r, name) == value
    ensures forall other :: other != name ==> Get(r, other) == Get(values, other)
  {
    match value
    case None => values - {name}
    case Some(v) => values[name := v]
  }

  /** The values of the configurable template, put in the order `format` puts them. */
  function Values(projectName: Option<string>, date: string, count: Option<string>,
                  countBySeverity: string, url: string): (values: map<string, string>)
    ensures Get(values, "projectName") == projectName
    ensures Get(values, "date") == Some(date)
    ensures Get(values, "count") == count
    ensures Get(values, "countBySeverity") == Some(countBySeverity)
    ensures Get(values, "url") == Some(url)
    ensures forall k :: k in values ==> k in {"projectName", "date", "count", "countBySeverity", "url"}
  {
    var v1 := PutValue(map[], "projectName", projectName);
    var v2 := PutValue(v1, "date", Some(date));
    var v3 := PutValue(v2, "count", count);
    var v4 := PutValue(v3, "countBySeverity", Some(countBySeverity));
    PutValue(v4, "url", Some(url))
  }

  /** Each of the five placeholders stands for its value: `${date}` for the date exactly as the
      notification carries it, `${url}` for the link, `${countBySeverity}` for the count line,
      and `${projectName}` and `${count}` for those fields when they are set and for themselves
      when they are not. */
  lemma PlaceholderValues(projectName: Option<string>, date: string, count: Option<string>,
                          countBySeverity: string, url: string)
    ensures var values := Values(projectName, date, count, countBySeverity, url);
      && Substitute("${" + "date" + "}", values) == date
      && Substitute("${" + "url" + "}", values) == url
      && Substitute("${" + "countBySeverity" + "}", values) == countBySeverity
      && Substitute("${" + "projectName" + "}", values)
         == (if projectName.Some? then projectName.value else "${" + "projectName" + "}")
      && Substitute("${" + "count" + "}", values) == (if count.Some? then count.value else "${" + "count" + "}")
  {
    var values := Values(projectName, date, count, countBySeverity, url);
    PlaceholderOf(values, "date", Some(date));
    PlaceholderOf(values, "url", Some(url));
    PlaceholderOf(values, "countBySeverity", Some(countBySeverity));
    PlaceholderOf(values, "projectName", projectName);
    PlaceholderOf(values, "count", count);
  }

  /** A placeholder alone gives the value of its name, or itself when the name has none. */
  lemma PlaceholderOf(values: map<string, string>, name: string, v: Option<string>)
    requires '}' !in name && Get(values, name) == v
    ensures Substitute("${" + name + "}", values) == if v.Some? then v.value else "${" + name + "}"
  {
    SubstituteAlone(name, values);
  }

  /** The subject template "${projectName}|${count}" gives the project name and the count
      separated by '|'. */
  lemma SubjectExample(values: map<string, string>, projectName: string, count: string)
    requires Get(values, "projectName") == Some(projectName) && Get(values, "count") == Some(count)
    ensures Substitute("${" + "projectName" + "}" + "|" + ("${" + "count" + "}"), values) == projectName + "|" + count
  {
    TwoPlaceholders("projectName", "|", "count", values);
  }

  /** Two placeholders with a text without `$` between them: each is replaced by its value,
      or kept as written when it has none. */
  lemma TwoPlaceholders(first: string, between: string, second: string, values: map<string, string>)
    requires '}' !in first && '}' !in second && '$' !in between
    ensures Substitute("${" + first + "}" + between + ("${" + second + "}"), values)
      == (if first in values then values[first] else "${" + first + "}") + between
         + (if second in values then values[second] else "${" + second + "}")
  {
    var p2 := "${" + second + "}";
    AppendAssoc("${" + first + "}", between, p2);
    Placeholder(first, between + p2, values);
    LiteralPrefix(between, p2, values);
    SubstituteAlone(second, values);
  }
}
