/** The fixed e-mail for "my-new-issues" notifications: the project, the number of new issues,
    the line of counts per severity, and, when the notification carries a project key and a
    project date, a footer linking to the issues search. */
module MyNewIssuesTemplate {
  import opened Common
  import opened NotificationApi
  import opened EmailFormat

  class MyNewIssuesEmailTemplate {
    /** `EmailSettings.getServerBaseURL()`. */
    const serverBaseUrl: string
    const i18n: I18n
    /** `DateUtils.parseDateTime`; None where it throws. */
    const parseDateTime: string -> Option<int>
    /** `DateUtils.formatDateTime`. */
    const formatDateTime: int -> string
    /** `URLEncoder.encode(s, "UTF-8")` of a non-null string. */
    const urlEncode: string -> string

    constructor (serverBaseUrl: string, i18n: I18n, parseDateTime: string -> Option<int>,
                 formatDateTime: int -> string, urlEncode: string -> string)
      ensures this.serverBaseUrl == serverBaseUrl && this.i18n == i18n
      ensures this.parseDateTime == parseDateTime && this.formatDateTime == formatDateTime
      ensures this.urlEncode == urlEncode
    {
      this.serverBaseUrl := serverBaseUrl;
      this.i18n := i18n;
      this.parseDateTime := parseDateTime;
      this.formatDateTime := formatDateTime;
      this.urlEncode := urlEncode;
    }

    /** `encode`: the encoder dereferences its argument, so null fails. */
    function Encode(s: Option<string>): (r: Result<string>)
      ensures r.Ok? <==> s.Some?
      ensures r.Ok? ==> r.value == urlEncode(s.value)
      ensures r.Err? ==> r.error == NullPointer
    {
      match s
      case None => Err(NullPointer)
      case Some(v) => Ok(urlEncode(v))
    }

    /** The part of the link before its fields. */
    function UrlPrefix(): string
    {
      serverBaseUrl + "/issues/search#"
    }

    /** `generateUrl`: the issues search of the project, the analysis date and the assignee,
        each encoded; a null assignee fails in the encoder. */
    function GenerateUrl(projectKey: string, assignee: Option<string>, date: int): (r: Result<string>)
      ensures r.Ok? <==> assignee.Some?
      ensures r.Err? ==> r.error == NullPointer
    {
      var key := urlEncode(projectKey);
      var createdAt := urlEncode(formatDateTime(date));
      var assignees :- Encode(assignee);
      Ok(UrlPrefix() + "componentRoots=" + key + "|createdAt=" + createdAt + "|assignees=" + assignees)
    }

    /** The link reads back: after the prefix come exactly the three fields, in order, when the
        encoder leaves no '|' in them (the encoder escapes '|'). */
    lemma UrlFields(projectKey: string, assignee: string, date: int)
      requires '|' !in urlEncode(projectKey) && '|' !in urlEncode(formatDateTime(date)) && '|' !in urlEncode(assignee)
      ensures var url := GenerateUrl(projectKey, Some(assignee), date).value;
        && |url| >= |UrlPrefix()| && url[..|UrlPrefix()|] == UrlPrefix()
        && Split(url[|UrlPrefix()|..], '|') == [
             "componentRoots=" + urlEncode(projectKey),
             "createdAt=" + urlEncode(formatDateTime(date)),
             "assignees=" + urlEncode(assignee)]
    {
      var url := GenerateUrl(projectKey, Some(assignee), date).value;
      var key, createdAt, assignees := urlEncode(projectKey), urlEncode(formatDateTime(date)), urlEncode(assignee);
      var f1 := "componentRoots=" + key;
      var f2 := "createdAt=" + createdAt;
      var f3 := "assignees=" + assignees;
      NoBarInField("componentRoots=", key);
      NoBarInField("createdAt=", createdAt);
      NoBarInField("assignees=", assignees);
      assert "|createdAt=" == ['|'] + "createdAt=" && "|assignees=" == ['|'] + "assignees=";
      var rest := f1 + ['|'] + (f2 + ['|'] + f3);
      RegroupFields(UrlPrefix(), "componentRoots=", key, "createdAt=", createdAt, "assignees=", assignees, '|');
      assert url == UrlPrefix() + rest;
      assert url[|UrlPrefix()|..] == rest;
      SplitThree(f1, f2, f3, '|');
    }

    /** `appendFooter`'s text: the link line when the project key and date are both present,
        nothing otherwise; the date parser's and the encoder's failures escape. */
    function Footer(n: Notification): (r: Result<string>)
      ensures n.FieldValue("projectKey").None? || n.FieldValue("projectDate").None? ==> r == Ok("")
      ensures r.Ok? && r.value != "" ==>
        && n.FieldValue("projectKey").Some? && n.FieldValue("projectDate").Some?
        && parseDateTime(n.FieldValue("projectDate").value).Some? && n.FieldValue("assignee").Some?
        && r.value == "\nSee it in SonarQube: "
           + GenerateUrl(n.FieldValue("projectKey").value, n.FieldValue("assignee"),
                         parseDateTime(n.FieldValue("projectDate").value).value).value + "\n"
      ensures r.Err? <==>
        && n.FieldValue("projectKey").Some? && n.FieldValue("projectDate").Some?
        && (parseDateTime(n.FieldValue("projectDate").value).None? || n.FieldValue("assignee").None?)
    {
      var projectKey := n.FieldValue("projectKey");
      var dateString := n.FieldValue("projectDate");
      if projectKey.Some? && dateString.Some? then
        match parseDateTime(dateString.value)
        case None => Err(UnparseableDate)
        case Some(date) =>
          var url :- GenerateUrl(projectKey.value, n.FieldValue("assignee"), date);
          Ok("\n" + "See it in SonarQube: " + url + "\n")
      else Ok("")
    }

    /** The message id: the type, the project key and the assignee, separated by '/'. */
    function MessageId(n: Notification): string
    {
      NOTIFICATION_TYPE_NEW + "/" + Str(n.FieldValue("projectKey")) + "/" + Str(n.FieldValue("assignee"))
    }

    /** The body before the footer. */
    function Body(n: Notification): string
    {
      "Project: " + Str(n.FieldValue("projectName")) + "\n\n"
        + Str(n.FieldValue("count")) + " new issues" + "\n\n"
        + "   " + CountBySeverity(n, i18n) + "\n"
    }

    /** `format`: null for any other type, and for "my-new-issues" always a message unless the
        footer fails: id "my-new-issues/key/assignee", subject "<name>: new issues assigned to
        you", body and footer. */
    function Formatted(n: Notification): (r: Result<Option<EmailMessage>>)
      ensures r == Ok(None) <==> n.kind != NOTIFICATION_TYPE_NEW
      ensures r.Err? <==> n.kind == NOTIFICATION_TYPE_NEW && Footer(n).Err?
      ensures r.Ok? && r.value.Some? ==>
        && r.value.value.subject == Some(Str(n.FieldValue("projectName")) + ": new issues assigned to you")
        && r.value.value.message == Some(Body(n) + Footer(n).value)
      ensures r.Ok? && r.value.Some? ==> r.value.value.messageId == MessageId(n)
    {
      if n.kind != NOTIFICATION_TYPE_NEW then Ok(None)
      else
        var footer :- Footer(n);
        Ok(Some(EmailMessage(
          MessageId(n),
          Some(Str(n.FieldValue("projectName")) + ": new issues assigned to you"),
          Some(Body(n) + footer))))
    }

    /** The footer is there exactly when the project key and date are: the message is the bare
        body iff one of them is missing, and a missing field never makes the message null. */
    lemma FooterPresence(n: Notification)
      requires n.kind == NOTIFICATION_TYPE_NEW && Formatted(n).Ok?
      ensures Formatted(n).value.Some?
      ensures Formatted(n).value.value.message == Some(Body(n)) <==>
        n.FieldValue("projectKey").None? || n.FieldValue("projectDate").None?
    {
      var footer := Footer(n).value;
      if n.FieldValue("projectKey").Some? && n.FieldValue("projectDate").Some? {
        assert footer[0] == '\n';
        assert |Body(n) + footer| > |Body(n)|;
      } else {
        assert Body(n) + "" == Body(n);
      }
    }

    /** With a project key and a parseable date but no assignee the encoder is handed null and
        `format` fails instead of producing a message. */
    lemma MissingAssigneeFails(n: Notification)
      requires n.kind == NOTIFICATION_TYPE_NEW
      requires n.FieldValue("projectKey").Some? && n.FieldValue("projectDate").Some?
      requires parseDateTime(n.FieldValue("projectDate").value).Some?
      requires n.FieldValue("assignee").None?
      ensures Formatted(n) == Err(NullPointer)
    {
    }

    /** The message id reads back as the type, the project key and the assignee when neither
        holds a '/'. */
    lemma MessageIdParts(n: Notification)
      requires n.FieldValue("projectKey").Some? && n.FieldValue("assignee").Some?
      requires '/' !in n.FieldValue("projectKey").value && '/' !in n.FieldValue("assignee").value
      ensures Split(MessageId(n), '/') ==
        [NOTIFICATION_TYPE_NEW, n.FieldValue("projectKey").value, n.FieldValue("assignee").value]
    {
      var key := n.FieldValue("projectKey").value;
      var assignee := n.FieldValue("assignee").value;
      assert '/' !in NOTIFICATION_TYPE_NEW;
      assert MessageId(n) == NOTIFICATION_TYPE_NEW + ['/'] + (key + ['/'] + assignee);
      SplitThree(NOTIFICATION_TYPE_NEW, key, assignee, '/');
    }

    /** `appendFooter`: the builder, extended by the footer. */
    method AppendFooter(sb: string, n: Notification) returns (r: Result<string>)
      ensures Footer(n).Err? ==> r == Err(Footer(n).error)
      ensures Footer(n).Ok? ==> r == Ok(sb + Footer(n).value)
    {
      var projectKey := n.FieldValue("projectKey");
      var dateString := n.FieldValue("projectDate");
      var assignee := n.FieldValue("assignee");
      if projectKey.Some? && dateString.Some? {
        var date := parseDateTime(dateString.value);
        if date.None? {
          return Err(UnparseableDate);
        }
        var url := GenerateUrl(projectKey.value, assignee, date.value);
        if url.Err? {
          return Err(url.error);
        }
        var footer := "\n" + "See it in SonarQube: " + url.value + "\n";
        assert sb + "\n" + "See it in SonarQube: " + url.value + "\n" == sb + footer;
        return Ok(sb + "\n" + "See it in SonarQube: " + url.value + "\n");
      }
      assert sb + "" == sb;
      return Ok(sb);
    }

    /** `format`, step by step: the type check, the body appended piece by piece, the severity
        loop, the footer and the message. */
    method Format(n: Notification) returns (r: Result<Option<EmailMessage>>)
      ensures r == Formatted(n)
    {
      if n.kind != NOTIFICATION_TYPE_NEW {
        return Ok(None);
      }
      var projectName := n.FieldValue("projectName");
      var sb := "Project: " + Str(projectName) + "\n\n";
      sb := sb + Str(n.FieldValue("count")) + " new issues" + "\n\n";
      sb := sb + "   ";
      sb := AppendCountBySeverity(sb, n, i18n);
      sb := sb + "\n";
      assert sb == Body(n);
      var withFooter := AppendFooter(sb, n);
      if withFooter.Err? {
        return Err(withFooter.error);
      }
      r := Ok(Some(EmailMessage(
        MessageId(n),
        Some(Str(projectName) + ": new issues assigned to you"),
        Some(withFooter.value))));
    }
  }

  /** The link's concatenation, regrouped field by field. */
  lemma RegroupFields(prefix: string, n1: string, v1: string, n2: string, v2: string, n3: string, v3: string, sep: char)
    ensures prefix + n1 + v1 + ([sep] + n2) + v2 + ([sep] + n3) + v3
      == prefix + (n1 + v1 + [sep] + (n2 + v2 + [sep] + (n3 + v3)))
  {
  }

  /** No '|' in a field name and its value: none in the field. */
  lemma NoBarInField(name: string, value: string)
    requires '|' !in name && '|' !in value
    ensures '|' !in name + value
  {
  }
}
