/** The data provider: how each list, show, create, update and delete call
    of the panel becomes a request to the back end (method, path under the
    API base URL, query map and JSON body), and the headers `httpClient`
    attaches. Resources and actions it does not handle are handed to the
    generic REST provider, which is not modelled (`Base`). */
module DataProvider {
  import opened Values
  import opened Text
  import AuthProvider

  datatype HttpMethod = GET | POST | PUT | PATCH | DELETE

  /** A request: method, path under the API base URL, query parameters
      (before percent-encoding) and JSON body (`None`: no body). */
  datatype Request = Request(verb: HttpMethod, path: string, query: map<string, string>, body: Option<Fields>)

  /** Either a request this provider builds, or a call handed to the
      generic REST provider. */
  datatype Dispatch = Custom(req: Request) | Base

  datatype Pagination = Pagination(page: int, perPage: int)
  datatype Sort = Sort(field: string, order: string)

  /** `params` of `getList`; filter values are the strings that reach the
      query string. */
  datatype ListParams = ListParams(pagination: Option<Pagination>, sort: Option<Sort>, filter: Option<map<string, string>>)

  // ---------------------------------------------------------------- headers

  const AcceptJson: map<string, string> := map["Accept" := "application/json"]

  /** `Bearer ${token}` as section 2.1 of RFC 6750 writes the credential. */
  function Bearer(entry: AuthProvider.AuthEntry): (v: string)
    ensures v == "Bearer " + Template(entry.token)
    ensures v[..7] == "Bearer "
  {
    "Bearer " + Template(entry.token)
  }

  /** The headers `httpClient` sends, given the caller's headers and the
      stored `auth` entry. */
  function RequestHeaders(supplied: Option<map<string, string>>, stored: Option<AuthProvider.AuthEntry>): (h: map<string, string>)
    ensures stored.Some? ==> "Authorization" in h && h["Authorization"] == Bearer(stored.value)
    ensures stored.None? ==> ("Authorization" in h <==> supplied.Some? && "Authorization" in supplied.value)
    ensures supplied.None? ==> "Accept" in h && h["Accept"] == "application/json"
    ensures supplied.Some? ==> ("Accept" in h <==> "Accept" in supplied.value)
    ensures supplied.Some? ==> forall k :: k in supplied.value && k != "Authorization" ==> k in h && h[k] == supplied.value[k]
    ensures h.Keys <= (if supplied.Some? then supplied.value.Keys else {"Accept"}) + {"Authorization"}
  {
    var base := if supplied.Some? then supplied.value else AcceptJson;
    if stored.Some? then base["Authorization" := Bearer(stored.value)] else base
  }

  /** The options object `httpClient` receives; it fills in the headers in
      place before calling `fetch`. */
  class FetchOptions {
    var headers: Option<map<string, string>>

    constructor (headers: Option<map<string, string>>)
      ensures this.headers == headers
    {
      this.headers := headers;
    }

    /** Lines 11-19 of `httpClient`: default to `Accept: application/json`
        when no headers were given, then set `Authorization` when an `auth`
        entry is stored. */
    method PrepareHeaders(stored: Option<AuthProvider.AuthEntry>)
      modifies this
      ensures headers == Some(RequestHeaders(old(headers), stored))
    {
      if headers.None? {
        headers := Some(AcceptJson);
      }
      if stored.Some? {
        headers := Some(headers.value["Authorization" := Bearer(stored.value)]);
      }
    }
  }

  // ---------------------------------------------------------------- getList

  /** `params.pagination || { page: 1, perPage }`. */
  function PageOf(p: ListParams, defaultPerPage: int): Pagination
  {
    if p.pagination.Some? then p.pagination.value else Pagination(1, defaultPerPage)
  }

  /** `params.sort || fallback`. */
  function SortOf(p: ListParams, fallback: Sort): Sort
  {
    if p.sort.Some? then p.sort.value else fallback
  }

  /** `params.filter || {}`. */
  function FilterOf(p: ListParams): map<string, string>
  {
    if p.filter.Some? then p.filter.value else map[]
  }

  /** The keys a paged query starts with, before the filter is spread. */
  function PagingKeys(sorted: bool): set<string>
  {
    if sorted then {"page", "limit", "sortBy", "sortOrder"} else {"page", "limit"}
  }

  /** `{ page, limit, [sortBy, sortOrder,] ...filter }`: the filter is
      spread last, so a filter key named like a paging key wins. */
  function PagedQuery(p: ListParams, defaultPerPage: int, defaultSort: Option<Sort>, filter: map<string, string>): (q: map<string, string>)
    ensures q.Keys == PagingKeys(defaultSort.Some?) + filter.Keys
    ensures forall k :: k in filter ==> q[k] == filter[k]
    ensures "page" !in filter ==> q["page"] == IntToString(PageOf(p, defaultPerPage).page)
    ensures "limit" !in filter ==> q["limit"] == IntToString(PageOf(p, defaultPerPage).perPage)
    ensures defaultSort.Some? && "sortBy" !in filter ==> q["sortBy"] == SortOf(p, defaultSort.value).field
    ensures defaultSort.Some? && "sortOrder" !in filter ==> q["sortOrder"] == SortOf(p, defaultSort.value).order
  {
    var pg := PageOf(p, defaultPerPage);
    var paging := map["page" := IntToString(pg.page), "limit" := IntToString(pg.perPage)];
    var sorted :=
      if defaultSort.Some? then
        var s := SortOf(p, defaultSort.value);
        paging["sortBy" := s.field]["sortOrder" := s.order]
      else paging;
    sorted + filter
  }

  /** Where a paged list lives, its default page size and default sort
      (`None`: the query carries no sort). */
  datatype ListRoute = ListRoute(path: string, defaultPerPage: int, defaultSort: Option<Sort>)

  /** The list branches that differ only in path, page size and sort. */
  const PagedRoutes: map<string, ListRoute> := map[
    "jobPosts" := ListRoute("/admin/job-posts", 10, Some(Sort("createdAt", "DESC"))),
    "queue" := ListRoute("/queue", 10, None),
    "applicants" := ListRoute("/jobPost/applicants/all", 10, None),
    "users" := ListRoute("/admin/users", 10, Some(Sort("createdAt", "DESC"))),
    "rejectionFeedback" := ListRoute("/admin/applications/rejection-feedback/list", 10, None),
    "interviewAudit" := ListRoute("/admin/interviews/audit", 10, Some(Sort("scheduledAt", "DESC"))),
    "supportTickets" := ListRoute("/admin/support/tickets", 25, Some(Sort("createdAt", "DESC"))),
    "feedback" := ListRoute("/admin/support/feedback", 25, Some(Sort("createdAt", "DESC")))
  ]

  /** Every resource whose list this provider builds itself. */
  const ListResources: set<string> := PagedRoutes.Keys + {"adminApplications", "notificationTemplates", "sentNotifications"}

  function GetRequest(path: string, query: map<string, string>): Request
  {
    Request(GET, path, query, None)
  }

  /** The application-list query: paged and sorted by `appliedAt` like the
      other lists, except that the filter's `minRating` travels as
      `ratingMin` and never under its own name. */
  predicate ApplicationsQuery(p: ListParams, q: map<string, string>)
  {
    var f := FilterOf(p);
    var pg := PageOf(p, 10);
    var s := SortOf(p, Sort("appliedAt", "DESC"));
    && q.Keys == PagingKeys(true) + (f.Keys - {"minRating"}) + (if "minRating" in f then {"ratingMin"} else {})
    && "minRating" !in q
    && ("minRating" in f ==> q["ratingMin"] == f["minRating"])
    && (forall k :: k in f && k != "minRating" && !(k == "ratingMin" && "minRating" in f) ==> q[k] == f[k])
    && ("page" !in f ==> q["page"] == IntToString(pg.page))
    && ("limit" !in f ==> q["limit"] == IntToString(pg.perPage))
    && ("sortBy" !in f ==> q["sortBy"] == s.field)
    && ("sortOrder" !in f ==> q["sortOrder"] == s.order)
  }

  /** Lines 115-133 of `getList`: the query is built from the filter
      without `minRating`, then `ratingMin` is set on it when the filter
      has a minimum rating. */
  method BuildApplicationsQuery(p: ListParams) returns (query: map<string, string>)
    ensures ApplicationsQuery(p, query)
  {
    var f := FilterOf(p);
    query := PagedQuery(p, 10, Some(Sort("appliedAt", "DESC")), f - {"minRating"});
    if "minRating" in f {
      query := query["ratingMin" := f["minRating"]];
    }
  }

  /** `k` reaches the sent-notifications query exactly when the filter has a
      truthy value for it, and then unchanged. */
  predicate Forwarded(q: map<string, string>, filter: map<string, string>, k: string)
  {
    && (k in q <==> k in filter && filter[k] != "")
    && (k in q ==> q[k] == filter[k])
  }

  /** The sent-notifications query: the page as `currentPage` and
      `pageLength` (25 rows by default), no sort, and only the truthy
      `type`, `isRead` and `search` filters. */
  predicate SentNotificationsQuery(p: ListParams, q: map<string, string>)
  {
    var pg := PageOf(p, 25);
    var f := FilterOf(p);
    && q.Keys <= {"currentPage", "pageLength", "type", "isRead", "search"}
    && "currentPage" in q && q["currentPage"] == IntToString(pg.page)
    && "pageLength" in q && q["pageLength"] == IntToString(pg.perPage)
    && Forwarded(q, f, "type") && Forwarded(q, f, "isRead") && Forwarded(q, f, "search")
  }

  /** Lines 250-266 of `getList`: the paging keys first, then each filter
      that is present and truthy. */
  method BuildSentNotificationsQuery(p: ListParams) returns (query: map<string, string>)
    ensures SentNotificationsQuery(p, query)
  {
    var pg := PageOf(p, 25);
    query := map["currentPage" := IntToString(pg.page), "pageLength" := IntToString(pg.perPage)];
    if p.filter.Some? {
      var f := p.filter.value;
      if "type" in f && f["type"] != "" {
        query := query["type" := f["type"]];
      }
      if "isRead" in f && f["isRead"] != "" {
        query := query["isRead" := f["isRead"]];
      }
      if "search" in f && f["search"] != "" {
        query := query["search" := f["search"]];
      }
    }
  }

  /** `getList`: the list request for `resource`, or `Base` for a resource
      this provider does not handle. */
  method GetList(resource: string, p: ListParams) returns (d: Dispatch)
    ensures d.Base? <==> resource !in ListResources
    ensures d.Custom? ==> d.req.verb == GET && d.req.body.None?
    ensures resource in PagedRoutes ==>
      var route := PagedRoutes[resource];
      d == Custom(GetRequest(route.path, PagedQuery(p, route.defaultPerPage, route.defaultSort, FilterOf(p))))
    ensures resource == "adminApplications" ==>
      d.req.path == "/admin/applications" && ApplicationsQuery(p, d.req.query)
    ensures resource == "sentNotifications" ==>
      d.req.path == "/notifications/admin/notifications" && SentNotificationsQuery(p, d.req.query)
    ensures resource == "notificationTemplates" ==> d == Custom(GetRequest("/notifications/admin/templates", map[]))
  {
    if resource in PagedRoutes {
      var route := PagedRoutes[resource];
      d := Custom(GetRequest(route.path, PagedQuery(p, route.defaultPerPage, route.defaultSort, FilterOf(p))));
    } else if resource == "adminApplications" {
      var query := BuildApplicationsQuery(p);
      d := Custom(GetRequest("/admin/applications", query));
    } else if resource == "notificationTemplates" {
      d := Custom(GetRequest("/notifications/admin/templates", map[]));
    } else if resource == "sentNotifications" {
      var query := BuildSentNotificationsQuery(p);
      d := Custom(GetRequest("/notifications/admin/notifications", query));
    } else {
      d := Base;
    }
  }

  /** Without pagination and without a filter, a paged list asks for page
      "1" with the route's default limit, which is "25" for support tickets
      and feedback and "10" for the others. */
  lemma DefaultPagination(resource: string)
    requires resource in PagedRoutes
    ensures var q := PagedQuery(ListParams(None, None, None), PagedRoutes[resource].defaultPerPage, PagedRoutes[resource].defaultSort, map[]);
      && q["page"] == "1"
      && q["limit"] == (if resource in {"supportTickets", "feedback"} then "25" else "10")
  {
    assert NatToString(10) == NatToString(1) + [Digit(0)];
    assert NatToString(25) == NatToString(2) + [Digit(5)];
  }

  // ---------------------------------------------------------------- getOne

  /** The path of one record of `resource`, for the resources this
      provider shows itself. */
  const OnePaths: map<string, string> := map[
    "jobPosts" := "/admin/job-posts/",
    "users" := "/admin/users/",
    "adminApplications" := "/admin/applications/",
    "rejectionFeedback" := "/admin/applications/rejection-feedback/",
    "interviewAudit" := "/admin/interviews/audit/",
    "supportTickets" := "/admin/support/tickets/",
    "feedback" := "/admin/support/feedback/",
    "notificationTemplates" := "/notifications/admin/templates/"
  ]

  /** `getOne`: a GET of the record's path, or `Base`. */
  function GetOne(resource: string, id: string): (d: Dispatch)
    ensures d.Custom? <==> resource in OnePaths
    ensures d.Custom? ==> d.req.verb == GET && d.req.query == map[] && d.req.body.None?
    ensures d.Custom? ==> |d.req.path| > |id| && d.req.path[|d.req.path| - |id|..] == id && d.req.path[|d.req.path| - |id| - 1] == '/'
  {
    if resource in OnePaths then Custom(GetRequest(OnePaths[resource] + id, map[])) else Base
  }

  /** The record path extends the list path by `/id` for every resource
      shown here, except rejection feedback, whose list lives under
      `.../list` and whose records do not. */
  lemma OneUnderList(resource: string, id: string)
    requires resource in OnePaths && resource != "rejectionFeedback"
    ensures resource != "notificationTemplates" ==>
      resource in ListResources && resource != "sentNotifications" &&
      GetOne(resource, id).req.path ==
        (if resource == "adminApplications" then "/admin/applications" else PagedRoutes[resource].path) + "/" + id
    ensures resource == "notificationTemplates" ==>
      GetOne(resource, id).req.path == "/notifications/admin/templates" + "/" + id
  {
    var base := OnePaths[resource];
    assert GetOne(resource, id).req.path == base + id;
    var list :=
      if resource == "jobPosts" then "/admin/job-posts"
      else if resource == "users" then "/admin/users"
      else if resource == "adminApplications" then "/admin/applications"
      else if resource == "interviewAudit" then "/admin/interviews/audit"
      else if resource == "supportTickets" then "/admin/support/tickets"
      else if resource == "feedback" then "/admin/support/feedback"
      else "/notifications/admin/templates";
    assert base == list + "/";
    assert resource !in {"adminApplications", "notificationTemplates"} ==>
      resource in PagedRoutes && PagedRoutes[resource].path == list;
    assert base + id == list + "/" + id;
  }

  // ---------------------------------------------------------------- create

  /** `${value}` for a JSON value; an absent one prints as "undefined". */
  function JsonText(v: Option<Json>): string
  {
    match v
    case None => "undefined"
    case Some(JStr(s)) => s
    case Some(JInt(i)) => IntToString(i)
    case Some(JBool(b)) => if b then "true" else "false"
    case Some(JStrs(items)) => Join(items, ",")
  }

  function Field(data: Fields, k: string): Option<Json>
  {
    if k in data then Some(data[k]) else None
  }

  /** `create`: POSTs the form data as it is, except the template reset,
      which posts nothing to a path naming the template type. */
  function Create(resource: string, data: Fields): (d: Dispatch)
    ensures d.Custom? <==> resource in {"queue", "notificationSend", "notificationTemplatePreview", "notificationTemplateReset"}
    ensures d.Custom? ==> d.req.verb == POST && d.req.query == map[]
    ensures d.Custom? && resource != "notificationTemplateReset" ==> d.req.body == Some(data)
    ensures resource == "notificationTemplateReset" ==>
      d.req.body.None? && d.req.path == "/notifications/admin/templates/reset/" + JsonText(Field(data, "type"))
  {
    if resource == "queue" then Custom(Request(POST, "/queue/add", map[], Some(data)))
    else if resource == "notificationSend" then Custom(Request(POST, "/notifications/admin/send", map[], Some(data)))
    else if resource == "notificationTemplatePreview" then Custom(Request(POST, "/notifications/admin/templates/preview", map[], Some(data)))
    else if resource == "notificationTemplateReset" then
      Custom(Request(POST, "/notifications/admin/templates/reset/" + JsonText(Field(data, "type")), map[], None))
    else Base
  }

  // ---------------------------------------------------------------- update

  /** `params.data.action === name`. */
  predicate IsAction(data: Fields, name: string)
  {
    "action" in data && data["action"] == JStr(name)
  }

  /** The user actions the provider handles itself. */
  predicate KnownUserAction(data: Fields)
  {
    IsAction(data, "block") || IsAction(data, "unblock") || IsAction(data, "delete") || IsAction(data, "checkDeleteEligibility")
  }

  /** An application update names at least one of the three fields. */
  predicate HasApplicationField(data: Fields)
  {
    "notes" in data || "rating" in data || "status" in data
  }

  /** The field an application update sends: notes before rating before
      status. */
  function ApplicationField(data: Fields): (k: string)
    requires HasApplicationField(data)
    ensures k in data && k in {"notes", "rating", "status"}
    ensures k == "notes" <==> "notes" in data
    ensures k == "status" <==> "notes" !in data && "rating" !in data
  {
    if "notes" in data then "notes" else if "rating" in data then "rating" else "status"
  }

  /** `update`: each handled resource and action maps to exactly one
      request; everything else goes to the generic provider. */
  function Update(resource: string, id: string, data: Fields): (d: Dispatch)
    ensures d.Custom? ==> d.req.query == map[]
    ensures d.Custom? && d.req.body.Some? ==> d.req.body.value.Keys <= data.Keys
    ensures d.Custom? && d.req.body.Some? ==> forall k :: k in d.req.body.value ==> d.req.body.value[k] == data[k]
    ensures resource in {"queue", "jobPosts", "notificationTemplates"} ==>
      d.Custom? && d.req.verb == PUT && d.req.body == Some(data)
    ensures resource == "queue" ==> d.req.path == "/queue/poster/" + id
    ensures resource == "jobPosts" ==> d.req.path == "/jobPost/" + id
    ensures resource == "notificationTemplates" ==> d.req.path == "/notifications/admin/templates/" + id
    ensures resource == "users" ==> (d.Custom? <==> KnownUserAction(data))
    ensures resource == "adminApplications" ==> (d.Custom? <==> HasApplicationField(data))
    ensures resource == "adminApplications" && d.Custom? ==>
      var k := ApplicationField(data);
      && d.req.verb == PATCH
      && d.req.path == "/admin/applications/" + id + "/" + k
      && d.req.body == Some(Pick(data, {k}))
      && d.req.body.value.Keys == {k}
    ensures resource == "supportTickets" ==> (d.Custom? <==> IsAction(data, "updateStatus") || IsAction(data, "updatePriority"))
    ensures resource == "supportTickets" && d.Custom? ==> d.req.verb == PATCH && d.req.body.Some? && "action" !in d.req.body.value
    ensures resource !in {"queue", "jobPosts", "users", "adminApplications", "supportTickets", "notificationTemplates"} ==> d.Base?
  {
    if resource == "queue" then
      Custom(Request(PUT, "/queue/poster/" + id, map[], Some(data)))
    else if resource == "jobPosts" then
      Custom(Request(PUT, "/jobPost/" + id, map[], Some(data)))
    else if resource == "users" && IsAction(data, "block") then
      Custom(Request(PATCH, "/admin/users/" + id + "/block", map[], Some(Pick(data, {"reason"}))))
    else if resource == "users" && IsAction(data, "unblock") then
      Custom(Request(PATCH, "/admin/users/" + id + "/unblock", map[], None))
    else if resource == "users" && IsAction(data, "delete") then
      Custom(Request(DELETE, "/admin/users/" + id, map[], Some(Pick(data, {"ticketId"}))))
    else if resource == "users" && IsAction(data, "checkDeleteEligibility") then
      Custom(Request(GET, "/admin/users/" + id + "/delete-eligibility", map[], None))
    else if resource == "adminApplications" && HasApplicationField(data) then
      var k := ApplicationField(data);
      Custom(Request(PATCH, "/admin/applications/" + id + "/" + k, map[], Some(Pick(data, {k}))))
    else if resource == "supportTickets" && IsAction(data, "updateStatus") then
      Custom(Request(PATCH, "/admin/support/tickets/" + id + "/status", map[], Some(Pick(data, {"status", "resolutionMessage"}))))
    else if resource == "supportTickets" && IsAction(data, "updatePriority") then
      Custom(Request(PATCH, "/admin/support/tickets/" + id + "/priority", map[], Some(Pick(data, {"priority"}))))
    else if resource == "notificationTemplates" then
      Custom(Request(PUT, "/notifications/admin/templates/" + id, map[], Some(data)))
    else Base
  }

  /** A users update sends one request per action: block carries only the
      reason, unblock nothing, delete only the ticket id, and the
      eligibility check is a GET; the action itself never reaches the
      body. */
  lemma UserUpdateRequests(id: string, data: Fields)
    requires KnownUserAction(data)
    ensures var r := Update("users", id, data).req;
      && (IsAction(data, "block") ==> r.verb == PATCH && r.path == "/admin/users/" + id + "/block" && r.body.value.Keys == data.Keys * {"reason"})
      && (IsAction(data, "unblock") ==> r.verb == PATCH && r.path == "/admin/users/" + id + "/unblock" && r.body.None?)
      && (IsAction(data, "delete") ==> r.verb == DELETE && r.path == "/admin/users/" + id && r.body.value.Keys == data.Keys * {"ticketId"})
      && (IsAction(data, "checkDeleteEligibility") ==> r.verb == GET && r.path == "/admin/users/" + id + "/delete-eligibility" && r.body.None?)
      && (r.body.Some? ==> "action" !in r.body.value)
  {
  }

  // ---------------------------------------------------------------- delete

  /** `delete`: queue entries and job posts are deleted here, by id. */
  function Delete(resource: string, id: string): (d: Dispatch)
    ensures d.Custom? <==> resource in {"queue", "jobPosts"}
    ensures d.Custom? ==> d.req.verb == DELETE && d.req.body.None? && d.req.query == map[]
    ensures resource == "jobPosts" ==> d.req.path == Update(resource, id, map[]).req.path
    ensures resource == "queue" ==> d.req.path == Update(resource, id, map[]).req.path
  {
    if resource == "queue" then Custom(Request(DELETE, "/queue/poster/" + id, map[], None))
    else if resource == "jobPosts" then Custom(Request(DELETE, "/jobPost/" + id, map[], None))
    else Base
  }
}
