/** Support tickets: the status and priority lookups of the ticket list,
    the labels it shows, and the two update dialogs' guard, defaults and
    payloads. */
module SupportTickets {
  import opened Values
  import opened Text
  import DataProvider

  datatype TicketIcon = PendingIcon | InProgressIcon | ResolvedIcon | ClosedIcon

  const TicketStatuses: set<string> := {"pending", "in_progress", "resolved", "closed"}

  /** `getStatusIcon`: one icon per known status, none otherwise. */
  function StatusIcon(status: string): (icon: Option<TicketIcon>)
    ensures icon.Some? <==> status in TicketStatuses
    ensures icon == Some(PendingIcon) <==> status == "pending"
    ensures icon == Some(InProgressIcon) <==> status == "in_progress"
    ensures icon == Some(ResolvedIcon) <==> status == "resolved"
    ensures icon == Some(ClosedIcon) <==> status == "closed"
  {
    match status
    case "pending" => Some(PendingIcon)
    case "in_progress" => Some(InProgressIcon)
    case "resolved" => Some(ResolvedIcon)
    case "closed" => Some(ClosedIcon)
    case _ => None
  }

  /** `getStatusColor`: closed tickets look like unknown ones. */
  function StatusColor(status: string): (c: ChipColor)
    ensures c == Warning <==> status == "pending"
    ensures c == Info <==> status == "in_progress"
    ensures c == Success <==> status == "resolved"
    ensures c == Default <==> status !in {"pending", "in_progress", "resolved"}
  {
    match status
    case "pending" => Warning
    case "in_progress" => Info
    case "resolved" => Success
    case "closed" => Default
    case _ => Default
  }

  /** `getPriorityColor`: a missing or empty priority, and any unknown
      one, is default. */
  function PriorityColor(priority: Option<string>): (c: ChipColor)
    ensures !Truthy(priority) ==> c == Default
    ensures c == Success <==> priority == Some("low")
    ensures c == Info <==> priority == Some("medium")
    ensures c == Warning <==> priority == Some("high")
    ensures c == Error <==> priority == Some("urgent")
    ensures c == Default <==> !(priority.Some? && priority.value in {"low", "medium", "high", "urgent"})
  {
    if !Truthy(priority) then Default
    else match priority.value
      case "low" => Success
      case "medium" => Info
      case "high" => Warning
      case "urgent" => Error
      case _ => Default
  }

  /** The status dialog starts at the ticket's status, or "pending". */
  function InitialStatus(status: Option<string>): (s: string)
    ensures Truthy(status) ==> s == status.value
    ensures !Truthy(status) ==> s == "pending"
  {
    Or(status, "pending")
  }

  /** The priority dialog starts at the ticket's priority, or "medium". */
  function InitialPriority(priority: Option<string>): (p: string)
    ensures Truthy(priority) ==> p == priority.value
    ensures !Truthy(priority) ==> p == "medium"
  {
    Or(priority, "medium")
  }

  const ResolutionRequired := "Resolution message is required when resolving a ticket"

  /** The status dialog's save: resolving needs a message that is not
      blank; otherwise the payload names the action and the status, and
      carries the message only when it is not empty (an empty one is sent
      as undefined, a blank one as it is). */
  function StatusUpdate(status: string, message: string): (r: Result<Fields, string>)
    ensures r.Err? <==> status == "resolved" && IsBlank(message)
    ensures r.Err? ==> r.error == ResolutionRequired
    ensures r.Ok? ==> r.value.Keys <= {"action", "status", "resolutionMessage"}
    ensures r.Ok? ==> ("resolutionMessage" in r.value <==> message != "")
    ensures r.Ok? ==> "action" in r.value && "status" in r.value
    ensures r.Ok? ==> r.value["action"] == JStr("updateStatus") && r.value["status"] == JStr(status)
    ensures r.Ok? && message != "" ==> r.value["resolutionMessage"] == JStr(message)
  {
    TrimEmptyIffBlank(message);
    if status == "resolved" && Trim(message) == "" then Err(ResolutionRequired)
    else Ok(StatusPayload(status, message))
  }

  /** `{action: "updateStatus", status, resolutionMessage: message ||
      undefined}`. */
  function StatusPayload(status: string, message: string): (p: Fields)
    ensures p.Keys <= {"action", "status", "resolutionMessage"}
    ensures "resolutionMessage" in p <==> message != ""
    ensures "action" in p && "status" in p
    ensures p["action"] == JStr("updateStatus") && p["status"] == JStr(status)
    ensures message != "" ==> p["resolutionMessage"] == JStr(message)
  {
    var payload := map["action" := JStr("updateStatus"), "status" := JStr(status)];
    if message != "" then payload["resolutionMessage" := JStr(message)] else payload
  }

  /** The priority dialog's save: the action and the priority only. */
  function PriorityUpdate(priority: string): (p: Fields)
    ensures p.Keys == {"action", "priority"}
    ensures p["action"] == JStr("updatePriority") && p["priority"] == JStr(priority)
  {
    map["action" := JStr("updatePriority"), "priority" := JStr(priority)]
  }

  /** A status save that passes the guard becomes one PATCH of the ticket's
      status, without the action; a resolving one always carries a
      non-blank message. */
  lemma StatusUpdateRequest(id: string, status: string, message: string)
    requires StatusUpdate(status, message).Ok?
    ensures var d := DataProvider.Update("supportTickets", id, StatusUpdate(status, message).value);
      && d.Custom?
      && d.req.verb == DataProvider.PATCH
      && d.req.path == "/admin/support/tickets/" + id + "/status"
      && d.req.body.Some?
      && d.req.body.value.Keys == {"status"} + (if message != "" then {"resolutionMessage"} else {})
      && d.req.body.value["status"] == JStr(status)
      && (status == "resolved" ==> d.req.body.value["resolutionMessage"] == JStr(message) && !IsBlank(message))
  {
    var payload := StatusUpdate(status, message).value;
    assert DataProvider.IsAction(payload, "updateStatus");
    if status == "resolved" {
      assert message != "";
    }
  }

  /** A priority save becomes one PATCH of the ticket's priority carrying
      the priority alone. */
  lemma PriorityUpdateRequest(id: string, priority: string)
    ensures DataProvider.Update("supportTickets", id, PriorityUpdate(priority))
      == DataProvider.Custom(DataProvider.Request(DataProvider.PATCH, "/admin/support/tickets/" + id + "/priority", map[],
           Some(map["priority" := JStr(priority)])))
  {
    var payload := PriorityUpdate(priority);
    assert !DataProvider.IsAction(payload, "updateStatus");
    assert Pick(payload, {"priority"}) == map["priority" := JStr(priority)];
  }

  /** The category column: `category?.replace("_", " ") || "N/A"`, which
      turns only the first underscore into a space. */
  function CategoryLabel(category: Option<string>): (r: string)
    ensures !Truthy(category) ==> r == "N/A"
    ensures Truthy(category) ==> |r| == |category.value|
    ensures Truthy(category) && '_' !in category.value ==> r == category.value
    ensures Truthy(category) && '_' in category.value ==>
      CountChar(r, '_') == CountChar(category.value, '_') - 1
    ensures Truthy(category) && '_' in category.value ==> r[IndexOf(category.value, '_')] == ' '
    ensures Truthy(category) ==>
      forall i :: (0 <= i < |category.value| && ('_' !in category.value || i != IndexOf(category.value, '_')))
        ==> r[i] == category.value[i]
  {
    if Truthy(category) then
      ReplaceFirstRemovesOne(category.value, '_', ' ');
      ReplaceFirst(category.value, '_', ' ')
    else "N/A"
  }

  /** The status column: only the first underscore becomes a space. */
  function StatusLabel(status: string): (r: string)
    ensures |r| == |status|
    ensures '_' !in status ==> r == status
    ensures '_' in status ==> CountChar(r, '_') == CountChar(status, '_') - 1
    ensures '_' in status ==> r[IndexOf(status, '_')] == ' '
    ensures forall i :: 0 <= i < |status| && ('_' !in status || i != IndexOf(status, '_')) ==> r[i] == status[i]
  {
    ReplaceFirstRemovesOne(status, '_', ' ');
    ReplaceFirst(status, '_', ' ')
  }
}
