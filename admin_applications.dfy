/** Applications as administrators see them: status colours and names, the
    CSV export, and the notes, rating and status dialogs. */
module AdminApplications {
  import opened Values
  import opened Text
  import Csv
  import DataProvider

  const Grey := "#757575"

  const StatusColors: map<string, string> := map[
    "pending" := "#ff9800",
    "in_queue" := "#2196f3",
    "reviewed" := "#9c27b0",
    "shortlisted" := "#4caf50",
    "rejected" := "#f44336",
    "hired" := "#00c853"
  ]

  /** `getStatusColor`: six statuses have their own colour, all others are
      grey. */
  function StatusColor(status: string): (c: string)
    ensures status in StatusColors ==> c == StatusColors[status]
    ensures c == Grey <==> status !in StatusColors
  {
    if status in StatusColors then StatusColors[status] else Grey
  }

  const StatusNames: map<string, string> := map[
    "pending" := "Pending",
    "in_queue" := "In Queue",
    "reviewed" := "Reviewed",
    "shortlisted" := "Shortlisted",
    "rejected" := "Rejected",
    "hired" := "Hired"
  ]

  /** `formatStatus`: the six statuses by name, any other unchanged. */
  function FormatStatus(status: string): (name: string)
    ensures status in StatusNames ==> name == StatusNames[status]
    ensures status !in StatusNames ==> name == status
    ensures '_' !in name <==> '_' !in status || status in StatusNames
  {
    if status in StatusNames then StatusNames[status] else status
  }

  /** Every named status also has its own colour, and no other status
      has one. */
  lemma NamedIffColoured(status: string)
    ensures status in StatusNames <==> StatusColor(status) != Grey
  {
  }

  /** An application as the export reads it; dates are instants. */
  datatype ApplicationRecord = ApplicationRecord(
    applicantName: Option<string>,
    applicantEmail: Option<string>,
    jobTitle: Option<string>,
    status: Option<string>,
    rating: Option<int>,
    hasVideo: bool,
    hasFeedback: bool,
    interviewCount: Option<int>,
    appliedAt: Option<int>,
    reviewedAt: DateField)

  const Headers: seq<string> := [
    "Applicant Name", "Applicant Email", "Job Title", "Status", "Rating",
    "Has Video", "Has Feedback", "Interview Count", "Applied", "Reviewed"]

  /** One export row, a cell per header. */
  function ExportRow(r: ApplicationRecord, format: int -> string): (cells: seq<string>)
    ensures |cells| == |Headers| == 10
    ensures cells[0] == Or(r.applicantName, "") && cells[1] == Or(r.applicantEmail, "") && cells[2] == Or(r.jobTitle, "")
    ensures cells[3] == FormatStatus(Or(r.status, ""))
    ensures !TruthyInt(r.rating) ==> cells[4] == "Not rated"
    ensures TruthyInt(r.rating) ==> cells[4] == IntToString(r.rating.value)
    ensures cells[5] == Csv.YesNo(r.hasVideo) && cells[6] == Csv.YesNo(r.hasFeedback)
    ensures cells[7] == IntToString(OrInt(r.interviewCount, 0))
    ensures cells[8] == Csv.DateCell(r.appliedAt, format)
    ensures r.reviewedAt.Unset? ==> cells[9] == "Not reviewed"
    ensures r.reviewedAt.Unparsable? ==> cells[9] == "Invalid Date"
    ensures r.reviewedAt.At? ==> cells[9] == format(r.reviewedAt.instant)
  {
    [
      Or(r.applicantName, ""),
      Or(r.applicantEmail, ""),
      Or(r.jobTitle, ""),
      FormatStatus(Or(r.status, "")),
      if TruthyInt(r.rating) then IntToString(r.rating.value) else "Not rated",
      Csv.YesNo(r.hasVideo),
      Csv.YesNo(r.hasFeedback),
      IntToString(OrInt(r.interviewCount, 0)),
      Csv.DateCell(r.appliedAt, format),
      Csv.SetDateCell(r.reviewedAt, "Not reviewed", format)
    ]
  }

  function ExportRows(records: seq<ApplicationRecord>, format: int -> string): (rows: seq<seq<string>>)
    ensures |rows| == |records|
    ensures forall i :: 0 <= i < |records| ==> rows[i] == ExportRow(records[i], format) && |rows[i]| == |Headers|
  {
    seq(|records|, i requires 0 <= i < |records| => ExportRow(records[i], format))
  }

  /** `applicationExporter`'s CSV text: the header line first, then at
      least one line per application. */
  function Export(records: seq<ApplicationRecord>, format: int -> string): (csv: string)
    ensures Split(csv, '\n')[0] == Join(Headers, ",")
    ensures |Split(csv, '\n')| >= |records| + 1
  {
    Csv.DocumentHeader(Headers, ExportRows(records, format));
    Csv.Document(Headers, ExportRows(records, format))
  }

  /** The notes dialog starts at the application's notes, or empty. */
  function InitialNotes(notes: Option<string>): (n: string)
    ensures Truthy(notes) ==> n == notes.value
    ensures !Truthy(notes) ==> n == ""
  {
    Or(notes, "")
  }

  /** The rating dialog starts at the application's rating, or 0. */
  function InitialRating(rating: Option<int>): (n: int)
    ensures TruthyInt(rating) ==> n == rating.value
    ensures !TruthyInt(rating) ==> n == 0
  {
    OrInt(rating, 0)
  }

  /** A rating change: clearing the stars (`null`) gives 0. */
  function RatingChange(newValue: Option<int>): (n: int)
    ensures newValue.None? ==> n == 0
    ensures newValue.Some? ==> n == newValue.value
  {
    OrInt(newValue, 0)
  }

  /** The status dialog starts at the application's status, or
      "pending". */
  function InitialStatus(status: Option<string>): (s: string)
    ensures Truthy(status) ==> s == status.value
    ensures !Truthy(status) ==> s == "pending"
  {
    Or(status, "pending")
  }

  /** What each dialog saves: one field only. */
  datatype Edit = Notes(notes: string) | Rating(rating: int) | Status(status: string)

  function EditPayload(e: Edit): (p: Fields)
    ensures |p.Keys| == 1 && DataProvider.HasApplicationField(p)
    ensures e.Notes? ==> p == map["notes" := JStr(e.notes)]
    ensures e.Rating? ==> p == map["rating" := JInt(e.rating)]
    ensures e.Status? ==> p == map["status" := JStr(e.status)]
  {
    match e
    case Notes(n) => map["notes" := JStr(n)]
    case Rating(r) => map["rating" := JInt(r)]
    case Status(s) => map["status" := JStr(s)]
  }

  /** The field an edit saves. */
  function EditField(e: Edit): string
  {
    match e
    case Notes(_) => "notes"
    case Rating(_) => "rating"
    case Status(_) => "status"
  }

  /** Each dialog's save becomes one PATCH to its own field's endpoint,
      whose body is the payload itself. */
  lemma EditRequest(id: string, e: Edit)
    ensures DataProvider.Update("adminApplications", id, EditPayload(e))
      == DataProvider.Custom(DataProvider.Request(DataProvider.PATCH, "/admin/applications/" + id + "/" + EditField(e), map[], Some(EditPayload(e))))
  {
    var p := EditPayload(e);
    assert Pick(p, {EditField(e)}) == p;
  }
}
