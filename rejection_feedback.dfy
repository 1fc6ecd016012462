/** Rejection feedback: the screening-type names, the CSV export, the
    screening chip and which media a rejection shows. */
module RejectionFeedback {
  import opened Values
  import opened Text
  import Csv
  import EnhancedChip

  const ScreeningTypes: map<string, string> := map[
    "video" := "Video",
    "audio" := "Audio",
    "text" := "Text",
    "main_screening" := "Main Screening",
    "question_response" := "Question Response"
  ]

  /** `formatScreeningType`: the five known types by name, any other
      unchanged. */
  function FormatScreeningType(t: string): (name: string)
    ensures t in ScreeningTypes ==> name == ScreeningTypes[t]
    ensures t !in ScreeningTypes ==> name == t
    ensures '_' !in name <==> '_' !in t || t in ScreeningTypes
    ensures name == "" <==> t == ""
  {
    if t in ScreeningTypes then ScreeningTypes[t] else t
  }

  /** A rejection as the list, the export and the detail page read it. */
  datatype RejectionRecord = RejectionRecord(
    applicantName: Option<string>,
    jobTitle: Option<string>,
    screeningType: Option<string>,
    responseText: Option<string>,
    responseVideoUrl: Option<string>,
    responseAudioUrl: Option<string>,
    createdAt: Option<int>)

  const Headers: seq<string> := [
    "Applicant Name", "Job Title", "Screening Type", "Rejection Reason",
    "Has Video", "Has Audio", "Rejected On"]

  /** One export row, a cell per header. */
  function ExportRow(r: RejectionRecord, format: int -> string): (cells: seq<string>)
    ensures |cells| == |Headers| == 7
    ensures cells[0] == Or(r.applicantName, "N/A") && cells[1] == Or(r.jobTitle, "N/A")
    ensures cells[2] == FormatScreeningType(Or(r.screeningType, ""))
    ensures cells[3] == Or(r.responseText, "")
    ensures cells[4] == Csv.YesNo(Truthy(r.responseVideoUrl)) && cells[5] == Csv.YesNo(Truthy(r.responseAudioUrl))
    ensures cells[6] == Csv.DateCell(r.createdAt, format)
  {
    [
      Or(r.applicantName, "N/A"),
      Or(r.jobTitle, "N/A"),
      FormatScreeningType(Or(r.screeningType, "")),
      Or(r.responseText, ""),
      Csv.YesNo(Truthy(r.responseVideoUrl)),
      Csv.YesNo(Truthy(r.responseAudioUrl)),
      Csv.DateCell(r.createdAt, format)
    ]
  }

  function ExportRows(records: seq<RejectionRecord>, format: int -> string): (rows: seq<seq<string>>)
    ensures |rows| == |records|
    ensures forall i :: 0 <= i < |records| ==> rows[i] == ExportRow(records[i], format) && |rows[i]| == |Headers|
  {
    seq(|records|, i requires 0 <= i < |records| => ExportRow(records[i], format))
  }

  /** `rejectionFeedbackExporter`'s CSV text: the header line first, then
      at least one line per rejection. */
  function Export(records: seq<RejectionRecord>, format: int -> string): (csv: string)
    ensures Split(csv, '\n')[0] == Join(Headers, ",")
    ensures |Split(csv, '\n')| >= |records| + 1
  {
    Csv.DocumentHeader(Headers, ExportRows(records, format));
    Csv.Document(Headers, ExportRows(records, format))
  }

  /** The status the screening chip is coloured by: "in_review" for a
      video or audio screening, "pending" for any other. */
  function ScreeningChipStatus(t: Option<string>): (status: string)
    ensures status == "in_review" <==> t == Some("video") || t == Some("audio")
    ensures status != "in_review" ==> status == "pending"
  {
    if t == Some("video") || t == Some("audio") then "in_review" else "pending"
  }

  /** The screening chip: coloured by `ScreeningChipStatus`, labelled with
      the type's name; without a type (or with an empty one) the chip
      falls back to its status's own label. */
  function ScreeningChip(t: Option<string>): (chip: EnhancedChip.Chip)
    ensures chip.bg == EnhancedChip.ConfigOf(ScreeningChipStatus(t)).bg
    ensures chip.icon == EnhancedChip.ConfigOf(ScreeningChipStatus(t)).icon
    ensures t.Some? && t.value != "" ==> chip.text == FormatScreeningType(t.value)
    ensures t.None? || t == Some("") ==> chip.text == EnhancedChip.DisplayLabel(ScreeningChipStatus(t), None)
    ensures chip.size == EnhancedChip.Small
  {
    var given := if t.Some? then Some(FormatScreeningType(t.value)) else None;
    EnhancedChip.Render(ScreeningChipStatus(t), given, None)
  }

  /** The list's media column: a chip per present medium, or "None". */
  datatype MediaChips = MediaChips(chips: seq<string>, none: bool)

  function ListMedia(r: RejectionRecord): (m: MediaChips)
    ensures "Video" in m.chips <==> Truthy(r.responseVideoUrl)
    ensures "Audio" in m.chips <==> Truthy(r.responseAudioUrl)
    ensures |m.chips| <= 2
    ensures |m.chips| == 2 ==> m.chips == ["Video", "Audio"]
    ensures m.none <==> m.chips == []
  {
    var video := Truthy(r.responseVideoUrl);
    var audio := Truthy(r.responseAudioUrl);
    MediaChips((if video then ["Video"] else []) + (if audio then ["Audio"] else []), !video && !audio)
  }

  /** The detail page's media card and the players inside it. */
  datatype MediaCard = MediaCard(card: bool, videoPlayer: bool, audioPlayer: bool)

  function DetailMedia(r: RejectionRecord): (m: MediaCard)
    ensures m.card <==> Truthy(r.responseVideoUrl) || Truthy(r.responseAudioUrl)
    ensures m.videoPlayer <==> Truthy(r.responseVideoUrl)
    ensures m.audioPlayer <==> Truthy(r.responseAudioUrl) && !Truthy(r.responseVideoUrl)
    ensures m.card <==> m.videoPlayer || m.audioPlayer
    ensures !(m.videoPlayer && m.audioPlayer)
  {
    var video := Truthy(r.responseVideoUrl);
    var audio := Truthy(r.responseAudioUrl);
    MediaCard(video || audio, video, audio && !video)
  }

  /** The list and the detail page agree: the card shows exactly when the
      list shows a media chip, and it then holds one player, the video
      one whenever the list shows a video chip. */
  lemma MediaAgrees(r: RejectionRecord)
    ensures DetailMedia(r).card <==> !ListMedia(r).none
    ensures DetailMedia(r).videoPlayer <==> "Video" in ListMedia(r).chips
    ensures DetailMedia(r).audioPlayer <==> ListMedia(r).chips == ["Audio"]
  {
    var v := Truthy(r.responseVideoUrl);
    var a := Truthy(r.responseAudioUrl);
    if v && a {
      assert ListMedia(r).chips == ["Video", "Audio"];
    }
  }

  /** The reason as the list shows it ("N/A" when empty) and as the detail
      page shows it ("No reason provided"); both agree on a given
      reason. */
  function ListReason(r: RejectionRecord): (text: string)
    ensures Truthy(r.responseText) ==> text == r.responseText.value
    ensures text == "N/A" <==> !Truthy(r.responseText) || r.responseText == Some("N/A")
  {
    Or(r.responseText, "N/A")
  }

  function DetailReason(r: RejectionRecord): (text: string)
    ensures Truthy(r.responseText) ==> text == r.responseText.value
    ensures text == "No reason provided" <==> !Truthy(r.responseText) || r.responseText == Some("No reason provided")
  {
    Or(r.responseText, "No reason provided")
  }

  /** The list, the detail page and the export show the same reason when
      there is one; only the placeholders differ. */
  lemma ReasonsAgree(r: RejectionRecord, format: int -> string)
    ensures Truthy(r.responseText) <==> ListReason(r) == DetailReason(r)
    ensures Truthy(r.responseText) ==> ExportRow(r, format)[3] == ListReason(r)
    ensures !Truthy(r.responseText) ==> ExportRow(r, format)[3] == ""
  {
  }
}
