/** The configurable e-mail template for "my issues" notifications: it answers only
    notifications of its own type that carry a project key, a project date and an assignee, and
    fills the configured subject and body templates with the project name, the date, the count,
    the line of counts per severity and a link. */
module MyIssuesTemplate {
  import opened Common
  import opened NotificationApi
  import opened EmailFormat

  class MyIssuesEmailTemplate {
    /** `getNotificationType()`, supplied by each concrete template. */
    const notificationType: string
    /** `generateUrl(projectKey, assignee, date)`, supplied by each concrete template. */
    const generateUrl: (string, string, int) -> string
    /** The host's `Settings.getString`: the configured text of a setting, or null. */
    const getString: string -> Option<string>
    const i18n: I18n
    const subjectTemplateSetting: string
    const contentTemplateSetting: string
    /** `DateUtils.parseDateTime`; None where it throws. */
    const parseDateTime: string -> Option<int>

    constructor (notificationType: string, generateUrl: (string, string, int) -> string,
                 getString: string -> Option<string>, i18n: I18n,
                 subjectTemplateSetting: string, contentTemplateSetting: string,
                 parseDateTime: string -> Option<int>)
      ensures this.notificationType == notificationType && this.generateUrl == generateUrl
      ensures this.getString == getString && this.i18n == i18n
      ensures this.subjectTemplateSetting == subjectTemplateSetting
      ensures this.contentTemplateSetting == contentTemplateSetting
      ensures this.parseDateTime == parseDateTime
    {
      this.notificationType := notificationType;
      this.generateUrl := generateUrl;
      this.getString := getString;
      this.i18n := i18n;
      this.subjectTemplateSetting := subjectTemplateSetting;
      this.contentTemplateSetting := contentTemplateSetting;
      this.parseDateTime := parseDateTime;
    }

    /** The notification is one this template formats: its type, and the three fields it needs. */
    predicate Answers(n: Notification)
    {
      && n.kind == notificationType
      && n.FieldValue("projectKey").Some? && n.FieldValue("projectDate").Some? && n.FieldValue("assignee").Some?
    }

    /** The placeholder values for a notification the template answers, its date parsed as
        `date`. */
    function MessageValues(n: Notification, date: int): map<string, string>
      requires Answers(n)
    {
      var url := generateUrl(n.FieldValue("projectKey").value, n.FieldValue("assignee").value, date);
      Values(n.FieldValue("projectName"), n.FieldValue("projectDate").value, n.FieldValue("count"),
             CountBySeverity(n, i18n), url)
    }

    /** `format`: null for another type or a missing key, date or assignee; the date parser's
        failure escapes; otherwise the message whose id is type/key/assignee and whose subject
        and body are the configured templates, substituted. */
    function Formatted(n: Notification): (r: Result<Option<EmailMessage>>)
      ensures r == Ok(None) <==> !Answers(n)
      ensures r.Err? <==> Answers(n) && parseDateTime(n.FieldValue("projectDate").value).None?
      ensures r.Err? ==> r.error == UnparseableDate
      ensures r.Ok? && r.value.Some? ==>
        var values := MessageValues(n, parseDateTime(n.FieldValue("projectDate").value).value);
        && r.value.value.subject == Replace(getString(subjectTemplateSetting), values)
        && r.value.value.message == Replace(getString(contentTemplateSetting), values)
      ensures r.Ok? && r.value.Some? ==>
        r.value.value.messageId ==
          notificationType + "/" + n.FieldValue("projectKey").value + "/" + n.FieldValue("assignee").value
    {
      if n.kind != notificationType then Ok(None)
      else if n.FieldValue("projectKey").None? || n.FieldValue("projectDate").None? || n.FieldValue("assignee").None? then
        Ok(None)
      else
        match parseDateTime(n.FieldValue("projectDate").value)
        case None => Err(UnparseableDate)
        case Some(date) =>
          var values := MessageValues(n, date);
          Ok(Some(EmailMessage(
            notificationType + "/" + Str(n.FieldValue("projectKey")) + "/" + Str(n.FieldValue("assignee")),
            Replace(getString(subjectTemplateSetting), values),
            Replace(getString(contentTemplateSetting), values))))
    }

    /** The message id reads back as the type, the project key and the assignee when none of
        them holds a '/'. */
    lemma MessageIdParts(n: Notification)
      requires Formatted(n).Ok? && Formatted(n).value.Some?
      requires '/' !in notificationType
      requires '/' !in n.FieldValue("projectKey").value && '/' !in n.FieldValue("assignee").value
      ensures Split(Formatted(n).value.value.messageId, '/') ==
        [notificationType, n.FieldValue("projectKey").value, n.FieldValue("assignee").value]
    {
      var key := n.FieldValue("projectKey").value;
      var assignee := n.FieldValue("assignee").value;
      var head := notificationType + ['/'];
      assert "/" == ['/'];
      assert Formatted(n).value.value.messageId == head + key + ['/'] + assignee;
      AppendAssoc(head + key, ['/'], assignee);
      AppendAssoc(head, key, ['/'] + assignee);
      AppendAssoc(key, ['/'], assignee);
      SplitThree(notificationType, key, assignee, '/');
    }

    /** `format`, step by step: the checks, the date, the link, the count line built by the
        severity loop, the values put one by one, the substitutions and the message. */
    method Format(n: Notification) returns (r: Result<Option<EmailMessage>>)
      ensures r == Formatted(n)
    {
      if n.kind != notificationType {
        return Ok(None);
      }
      var projectName := n.FieldValue("projectName");
      var projectKey := n.FieldValue("projectKey");
      var dateString := n.FieldValue("projectDate");
      var assignee := n.FieldValue("assignee");
      if projectKey.None? || dateString.None? || assignee.None? {
        return Ok(None);
      }
      var parsed := parseDateTime(dateString.value);
      if parsed.None? {
        return Err(UnparseableDate);
      }
      var date := parsed.value;
      var url := generateUrl(projectKey.value, assignee.value, date);
      var countBySeverity := AppendCountBySeverity("", n, i18n);
      assert countBySeverity == CountBySeverity(n, i18n);
      var count := n.FieldValue("count");
      var values: map<string, string> := map[];
      values := PutValue(values, "projectName", projectName);
      values := PutValue(values, "date", dateString);
      values := PutValue(values, "count", count);
      values := PutValue(values, "countBySeverity", Some(countBySeverity));
      values := PutValue(values, "url", Some(url));
      var subject := Replace(getString(subjectTemplateSetting), values);
      var content := Replace(getString(contentTemplateSetting), values);
      r := Ok(Some(EmailMessage(notificationType + "/" + Str(n.FieldValue("projectKey")) + "/" + Str(n.FieldValue("assignee")),
                                subject, content)));
    }
  }
}
