/** Bulk notifications: the send dialog's guards and payload, its form
    state, the template preview's sample data, and how the list of sent
    notifications shows each one. */
module Notifications {
  import opened Values
  import opened Text
  import DataProvider

  // ---------------------------------------------------------------- send dialog

  /** The send form: who gets the notification (`target` is "all", "role"
      or "specific"), which role or comma-separated user ids, and the
      delivery channels. */
  datatype SendForm = SendForm(
    title: string,
    body: string,
    target: string,
    role: string,
    userIds: string,
    sendEmail: bool,
    sendPush: bool)

  /** The form as the dialog opens and as closing leaves it. */
  const DefaultForm: SendForm := SendForm("", "", "all", "", "", true, true)

  const TitleBodyRequired := "Title and body are required"
  const RoleRequired := "Please select a role"
  const UserIdsRequired := "Please enter user IDs"
  const ChannelRequired := "At least one delivery channel (Email or Push) must be enabled"

  predicate HasTitleAndBody(f: SendForm)
  {
    f.title != "" && f.body != ""
  }

  /** The target names its recipients: a role when targeting a role, at
      least one non-blank character of ids when targeting users. */
  predicate HasRecipients(f: SendForm)
  {
    && (f.target == "role" ==> f.role != "")
    && (f.target == "specific" ==> !IsBlank(f.userIds))
  }

  predicate HasChannel(f: SendForm)
  {
    f.sendEmail || f.sendPush
  }

  /** The fields every send payload carries. */
  const PayloadBase: set<string> := {"title", "body", "target", "sendEmail", "sendPush"}

  /** The send payload: the always-present fields, plus `role` when
      targeting a role, or the trimmed ids when targeting users. */
  function Payload(f: SendForm): (p: Fields)
    ensures p.Keys == PayloadBase
      + (if f.target == "role" then {"role"} else {})
      + (if f.target == "specific" then {"userIds"} else {})
    ensures p["title"] == JStr(f.title) && p["body"] == JStr(f.body) && p["target"] == JStr(f.target)
    ensures p["sendEmail"] == JBool(f.sendEmail) && p["sendPush"] == JBool(f.sendPush)
    ensures f.target == "role" ==> p["role"] == JStr(f.role)
    ensures f.target == "specific" ==>
      && p["userIds"].JStrs?
      && |p["userIds"].items| == CountChar(f.userIds, ',') + 1
      && forall i :: 0 <= i < |p["userIds"].items| ==> p["userIds"].items[i] == Trim(Split(f.userIds, ',')[i])
  {
    var base := map[
      "title" := JStr(f.title), "body" := JStr(f.body), "target" := JStr(f.target),
      "sendEmail" := JBool(f.sendEmail), "sendPush" := JBool(f.sendPush)];
    if f.target == "role" then base["role" := JStr(f.role)]
    else if f.target == "specific" then base["userIds" := JStrs(SplitTrimmed(f.userIds, ','))]
    else base
  }

  /** The outcome of the checks: the first warning, or the payload to
      send. */
  datatype Check = Warned(message: string) | Ready(payload: Fields)

  /** The four guards in order; only the first that fails is reported. */
  function SendCheck(f: SendForm): (c: Check)
    ensures c == Warned(TitleBodyRequired) <==> !HasTitleAndBody(f)
    ensures c == Warned(RoleRequired) <==> HasTitleAndBody(f) && f.target == "role" && f.role == ""
    ensures c == Warned(UserIdsRequired) <==> HasTitleAndBody(f) && f.target == "specific" && IsBlank(f.userIds)
    ensures c == Warned(ChannelRequired) <==> HasTitleAndBody(f) && HasRecipients(f) && !HasChannel(f)
    ensures c.Ready? <==> HasTitleAndBody(f) && HasRecipients(f) && HasChannel(f)
    ensures c.Ready? ==> c.payload == Payload(f)
  {
    if !HasTitleAndBody(f) then Warned(TitleBodyRequired)
    else if f.target == "role" && f.role == "" then Warned(RoleRequired)
    else if f.target == "specific" && IsBlank(f.userIds) then Warned(UserIdsRequired)
    else if !HasChannel(f) then Warned(ChannelRequired)
    else Ready(Payload(f))
  }

  /** The user ids of a users-targeted send are the comma-separated
      pieces, trimmed, one per piece and empty pieces included, and none
      holds a comma. */
  lemma PayloadIdsFromInput(f: SendForm)
    requires f.target == "specific" && SendCheck(f).Ready?
    ensures var ids := SendCheck(f).payload["userIds"].items;
      && |ids| >= 1
      && |ids| == |Split(f.userIds, ',')|
      && forall i :: 0 <= i < |ids| ==> ',' !in ids[i]
  {
    var pieces := Split(f.userIds, ',');
    var ids := SendCheck(f).payload["userIds"].items;
    forall i | 0 <= i < |ids| ensures ',' !in ids[i] {
      assert ids[i] == Trim(pieces[i]);
      assert ',' !in pieces[i];
    }
  }

  /** The totals the send endpoint reports. */
  datatype SendReply = SendReply(sent: int, failed: int, totalTargeted: int)

  /** The result card the dialog shows after sending. */
  datatype SendResult = SendResult(sent: int, failed: int, total: int)

  class SendNotificationDialog {
    var form: SendForm
    var result: Option<SendResult>

    constructor ()
      ensures form == DefaultForm && result == None
    {
      form := DefaultForm;
      result := None;
    }

    /** `setFormData`: the form is replaced as a whole. */
    method SetForm(f: SendForm)
      modifies this
      ensures form == f && result == old(result)
    {
      form := f;
    }

    /** `handleSend`: the guards return early with a warning and change
        nothing; otherwise the payload is built, the result is cleared and
        the send request is made. `reply` is what the endpoint answers,
        `None` when the request fails, which leaves the result cleared. */
    method HandleSend(reply: Option<SendReply>) returns (warning: Option<string>, request: Option<DataProvider.Dispatch>)
      modifies this
      ensures form == old(form)
      ensures SendCheck(form).Warned? ==>
        warning == Some(SendCheck(form).message) && request.None? && result == old(result)
      ensures SendCheck(form).Ready? ==>
        && warning.None?
        && request == Some(DataProvider.Create("notificationSend", SendCheck(form).payload))
        && result == (if reply.Some? then Some(SendResult(reply.value.sent, reply.value.failed, reply.value.totalTargeted)) else None)
    {
      if form.title == "" || form.body == "" {
        return Some(TitleBodyRequired), None;
      }
      if form.target == "role" && form.role == "" {
        return Some(RoleRequired), None;
      }
      if form.target == "specific" && Trim(form.userIds) == "" {
        TrimEmptyIffBlank(form.userIds);
        return Some(UserIdsRequired), None;
      }
      if !form.sendEmail && !form.sendPush {
        TrimEmptyIffBlank(form.userIds);
        return Some(ChannelRequired), None;
      }
      TrimEmptyIffBlank(form.userIds);
      result := None;
      var payload: Fields := map[
        "title" := JStr(form.title), "body" := JStr(form.body), "target" := JStr(form.target),
        "sendEmail" := JBool(form.sendEmail), "sendPush" := JBool(form.sendPush)];
      if form.target == "role" {
        payload := payload["role" := JStr(form.role)];
      } else if form.target == "specific" {
        payload := payload["userIds" := JStrs(SplitTrimmed(form.userIds, ','))];
      }
      warning := None;
      request := Some(DataProvider.Create("notificationSend", payload));
      if reply.Some? {
        result := Some(SendResult(reply.value.sent, reply.value.failed, reply.value.totalTargeted));
      }
    }

    /** `handleClose`: back to the default form, with no result. */
    method HandleClose()
      modifies this
      ensures form == DefaultForm && result == None
    {
      form := DefaultForm;
      result := None;
    }
  }

  /** A send that passes the checks posts its payload to the send
      endpoint, unchanged. */
  lemma SendRequest(f: SendForm)
    requires SendCheck(f).Ready?
    ensures DataProvider.Create("notificationSend", SendCheck(f).payload)
      == DataProvider.Custom(DataProvider.Request(DataProvider.POST, "/notifications/admin/send", map[], Some(Payload(f))))
  {
  }

  /** Closing after any edits and sends leaves the dialog as a fresh one:
      every further send warns that title and body are required. */
  method CloseResets(f: SendForm, reply: Option<SendReply>) returns (warning: Option<string>, request: Option<DataProvider.Dispatch>)
    ensures warning == Some(TitleBodyRequired) && request.None?
  {
    var d := new SendNotificationDialog();
    d.SetForm(f);
    warning, request := d.HandleSend(reply);
    d.HandleClose();
    warning, request := d.HandleSend(reply);
  }

  // ---------------------------------------------------------------- template preview

  /** The sample value of a template variable: fixed text for the five
      known names, the name in square brackets for any other. */
  function SampleValue(v: string): (s: string)
    ensures v == "applicantName" ==> s == "John Doe"
    ensures v == "jobTitle" ==> s == "Software Engineer"
    ensures v == "companyName" ==> s == "TechCorp Inc."
    ensures v == "interviewDate" ==> s == "January 15, 2025"
    ensures v == "interviewTime" ==> s == "2:00 PM"
    ensures v !in KnownVariables ==> s == "[" + v + "]"
    ensures s != []
  {
    if v == "applicantName" then "John Doe"
    else if v == "jobTitle" then "Software Engineer"
    else if v == "companyName" then "TechCorp Inc."
    else if v == "interviewDate" then "January 15, 2025"
    else if v == "interviewTime" then "2:00 PM"
    else "[" + v + "]"
  }

  const KnownVariables: set<string> := {"applicantName", "jobTitle", "companyName", "interviewDate", "interviewTime"}

  /** Lines 300-308 of `PreviewDialog`: one entry per variable, filled in
      variable order. */
  method DefaultSampleData(variables: seq<string>) returns (data: map<string, string>)
    ensures data.Keys == set v | v in variables
    ensures forall v :: v in data ==> data[v] == SampleValue(v)
  {
    data := map[];
    var i := 0;
    while i < |variables|
      invariant 0 <= i <= |variables|
      invariant data.Keys == set v | v in variables[..i]
      invariant forall v :: v in data ==> data[v] == SampleValue(v)
    {
      var v := variables[i];
      assert variables[..i + 1] == variables[..i] + [v];
      data := data[v := SampleValue(v)];
      i := i + 1;
    }
    assert variables[..|variables|] == variables;
  }

  /** A notification template, as far as the preview reads it. */
  datatype NotificationTemplate = NotificationTemplate(variables: Option<seq<string>>)

  datatype Preview = Preview(title: string, body: string, emailSubject: string)

  class PreviewDialog {
    var sampleData: map<string, string>
    var preview: Option<Preview>

    constructor ()
      ensures sampleData == map[] && preview == None
    {
      sampleData := map[];
      preview := None;
    }

    /** The effect run when the template changes: the preview is cleared,
        and the sample data is reset to the defaults when the template
        lists variables; otherwise the sample data stays as it was. */
    method OnTemplate(template: Option<NotificationTemplate>)
      modifies this
      ensures preview == None
      ensures template.Some? && template.value.variables.Some? ==>
        && sampleData.Keys == set v | v in template.value.variables.value
        && forall v :: v in sampleData ==> sampleData[v] == SampleValue(v)
      ensures !(template.Some? && template.value.variables.Some?) ==> sampleData == old(sampleData)
    {
      preview := None;
      if template.Some? && template.value.variables.Some? {
        sampleData := DefaultSampleData(template.value.variables.value);
      }
    }
  }

  // ---------------------------------------------------------------- sent list

  /** The body column: at most 50 characters, then "..." when cut. */
  function BodyPreview(body: Option<string>): (r: Option<string>)
    ensures body.None? ==> r.None?
    ensures body.Some? && |body.value| <= 50 ==> r == body
    ensures body.Some? && |body.value| > 50 ==>
      r.Some? && |r.value| == 53 && r.value[..50] == body.value[..50] && r.value[50..] == "..."
  {
    if body.Some? && |body.value| > 50 then Some(body.value[..50] + "...") else body
  }

  /** The recipient's name when known. */
  datatype Recipient = Recipient(firstName: Option<string>, lastName: Option<string>)

  /** The recipient column: the user's first and last name, or else the
      first eight characters of the user id and "..." (the id of a
      notification with neither prints as "undefined..."). */
  function RecipientLabel(user: Option<Recipient>, userId: Option<string>): (r: string)
    ensures user.Some? ==> r == Template(user.value.firstName) + " " + Template(user.value.lastName)
    ensures user.None? && userId.Some? ==> r == Prefix(userId.value, 8) + "..." && |r| <= 11
    ensures user.None? && userId.None? ==> r == "undefined..."
  {
    if user.Some? then Template(user.value.firstName) + " " + Template(user.value.lastName)
    else if userId.Some? then Prefix(userId.value, 8) + "..."
    else "undefined..."
  }

  /** The type column: every underscore shown as a space. */
  function TypeLabel(kind: Option<string>): (r: Option<string>)
    ensures kind.None? <==> r.None?
    ensures r.Some? ==> |r.value| == |kind.value| && '_' !in r.value
  {
    if kind.Some? then Some(ReplaceAll(kind.value, '_', ' ')) else None
  }

  /** The status column: a read notification is "completed" and labelled
      "Read", an unread one "pending" and "Unread". */
  function ReadChip(isRead: bool): (chip: (string, string))
    ensures chip.0 == "completed" <==> isRead
    ensures chip.1 == "Read" <==> isRead
    ensures !isRead ==> chip == ("pending", "Unread")
  {
    if isRead then ("completed", "Read") else ("pending", "Unread")
  }
}
