/** The interview audit: status colours and names for interviews and the
    CSV export of the audit list. */
module InterviewAudit {
  import opened Values
  import opened Text
  import Csv

  const Grey := "#757575"

  const StatusColors: map<string, string> := map[
    "scheduled" := "#2196f3",
    "in_progress" := "#ff9800",
    "completed" := "#4caf50",
    "cancelled" := "#f44336"
  ]

  /** `getStatusColor`: four statuses have their own colour, all others are
      grey. */
  function StatusColor(status: string): (c: string)
    ensures status in StatusColors ==> c == StatusColors[status]
    ensures c == Grey <==> status !in StatusColors
  {
    if status in StatusColors then StatusColors[status] else Grey
  }

  const StatusNames: map<string, string> := map[
    "scheduled" := "Scheduled",
    "in_progress" := "In Progress",
    "completed" := "Completed",
    "cancelled" := "Cancelled"
  ]

  /** `formatStatus`: the four statuses by name, any other unchanged. */
  function FormatStatus(status: string): (name: string)
    ensures status in StatusNames ==> name == StatusNames[status]
    ensures status !in StatusNames ==> name == status
    ensures '_' !in name <==> '_' !in status || status in StatusNames
  {
    if status in StatusNames then StatusNames[status] else status
  }

  /** Every named status also has its own colour, and no other status
      has one. */
  lemma NamedIffColoured(status: string)
    ensures status in StatusNames <==> StatusColor(status) != Grey
  {
  }

  /** An interview as the audit export reads it; dates are instants. */
  datatype InterviewRecord = InterviewRecord(
    intervieweeName: Option<string>,
    intervieweeEmail: Option<string>,
    interviewerName: Option<string>,
    interviewerEmail: Option<string>,
    jobTitle: Option<string>,
    status: Option<string>,
    recordingUrl: Option<string>,
    durationMinutes: Option<int>,
    scheduledAt: Option<int>,
    startedAt: DateField,
    endedAt: DateField)

  const Headers: seq<string> := [
    "Interviewee Name", "Interviewee Email", "Interviewer Name",
    "Interviewer Email", "Job Title", "Status", "Has Recording",
    "Duration (minutes)", "Scheduled", "Started", "Ended"]

  /** The duration cell: the minutes when non-zero, "N/A" otherwise. */
  function DurationCell(minutes: Option<int>): (cell: string)
    ensures cell == "N/A" <==> !TruthyInt(minutes)
    ensures TruthyInt(minutes) ==> cell == IntToString(minutes.value)
  {
    if TruthyInt(minutes) then
      var cell := IntToString(minutes.value);
      assert cell[0] != 'N';
      cell
    else "N/A"
  }

  /** One export row, a cell per header. */
  function ExportRow(r: InterviewRecord, format: int -> string): (cells: seq<string>)
    ensures |cells| == |Headers| == 11
    ensures cells[0] == Or(r.intervieweeName, "") && cells[1] == Or(r.intervieweeEmail, "")
    ensures cells[2] == Or(r.interviewerName, "") && cells[3] == Or(r.interviewerEmail, "")
    ensures cells[4] == Or(r.jobTitle, "N/A")
    ensures cells[5] == FormatStatus(Or(r.status, ""))
    ensures cells[6] == Csv.YesNo(Truthy(r.recordingUrl))
    ensures cells[7] == DurationCell(r.durationMinutes)
    ensures cells[8] == Csv.DateCell(r.scheduledAt, format)
    ensures r.startedAt.Unset? ==> cells[9] == "Not started"
    ensures r.startedAt.Unparsable? ==> cells[9] == "Invalid Date"
    ensures r.startedAt.At? ==> cells[9] == format(r.startedAt.instant)
    ensures r.endedAt.Unset? ==> cells[10] == "Not ended"
    ensures r.endedAt.Unparsable? ==> cells[10] == "Invalid Date"
    ensures r.endedAt.At? ==> cells[10] == format(r.endedAt.instant)
  {
    [
      Or(r.intervieweeName, ""),
      Or(r.intervieweeEmail, ""),
      Or(r.interviewerName, ""),
      Or(r.interviewerEmail, ""),
      Or(r.jobTitle, "N/A"),
      FormatStatus(Or(r.status, "")),
      Csv.YesNo(Truthy(r.recordingUrl)),
      DurationCell(r.durationMinutes),
      Csv.DateCell(r.scheduledAt, format),
      Csv.SetDateCell(r.startedAt, "Not started", format),
      Csv.SetDateCell(r.endedAt, "Not ended", format)
    ]
  }

  function ExportRows(records: seq<InterviewRecord>, format: int -> string): (rows: seq<seq<string>>)
    ensures |rows| == |records|
    ensures forall i :: 0 <= i < |records| ==> rows[i] == ExportRow(records[i], format) && |rows[i]| == |Headers|
  {
    seq(|records|, i requires 0 <= i < |records| => ExportRow(records[i], format))
  }

  /** `interviewAuditExporter`'s CSV text: the header line first, then at
      least one line per interview. */
  function Export(records: seq<InterviewRecord>, format: int -> string): (csv: string)
    ensures Split(csv, '\n')[0] == Join(Headers, ",")
    ensures |Split(csv, '\n')| >= |records| + 1
  {
    Csv.DocumentHeader(Headers, ExportRows(records, format));
    Csv.Document(Headers, ExportRows(records, format))
  }
}
