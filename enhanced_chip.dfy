/** The shared status chip: a fixed table from status to background colour
    and icon, with a grey, icon-less fallback, and a label derived from the
    status unless one is given. */
module EnhancedChip {
  import opened Values
  import opened Text

  datatype Icon = CheckCircle | HourglassEmpty | Cancel | Queue | Star | Visibility | Done | Work
  datatype Config = Config(bg: string, icon: Option<Icon>)
  datatype Size = Small | Medium

  const Grey := "#757575"

  /** `STATUS_CONFIG`. */
  const StatusConfig: map<string, Config> := map[
    "published" := Config("#4caf50", Some(CheckCircle)),
    "active" := Config("#4caf50", Some(CheckCircle)),
    "completed" := Config("#00c853", Some(Done)),
    "hired" := Config("#00c853", Some(Work)),
    "shortlisted" := Config("#4caf50", Some(Star)),
    "pending" := Config("#ff9800", Some(HourglassEmpty)),
    "in_review" := Config("#ff9800", Some(Visibility)),
    "in_queue" := Config("#2196f3", Some(Queue)),
    "scheduled" := Config("#2196f3", Some(Queue)),
    "in_progress" := Config("#ff9800", Some(HourglassEmpty)),
    "rejected" := Config("#f44336", Some(Cancel)),
    "cancelled" := Config("#f44336", Some(Cancel)),
    "draft" := Config(Grey, None),
    "archived" := Config(Grey, None),
    "reviewed" := Config("#9c27b0", Some(Visibility))
  ]

  /** The configured look of a status, or grey with no icon. Only drafts
      and archived items share the fallback's look. */
  function ConfigOf(status: string): (c: Config)
    ensures status in StatusConfig ==> c == StatusConfig[status]
    ensures c.icon.None? <==> status !in StatusConfig || status in {"draft", "archived"}
    ensures c.bg == Grey <==> status !in StatusConfig || status in {"draft", "archived"}
    ensures c.icon.None? <==> c.bg == Grey
  {
    if status in StatusConfig then StatusConfig[status] else Config(Grey, None)
  }

  /** `label || status.replace(/_/g, " ").replace(/\b\w/g, upper)`: a
      non-empty label verbatim, otherwise the status with underscores as
      spaces and every word capitalised. */
  function DisplayLabel(status: string, given: Option<string>): (r: string)
    ensures Truthy(given) ==> r == given.value
    ensures !Truthy(given) ==> |r| == |status| && '_' !in r
    ensures !Truthy(given) ==> forall i :: 0 <= i < |r| && WordStart(r, i) ==> !('a' <= r[i] <= 'z')
    ensures !Truthy(given) ==> forall i :: 0 <= i < |r| && !WordStart(r, i) ==>
      r[i] == (if status[i] == '_' then ' ' else status[i])
    ensures !Truthy(given) ==> forall i :: 0 <= i < |r| && WordStart(r, i) ==> r[i] == ToUpper(status[i])
  {
    if Truthy(given) then given.value
    else
      var spaced := ReplaceAll(status, '_', ' ');
      CapitalizeWordsStarts(spaced);
      CapitalizeWords(spaced)
  }

  /** What the chip shows. */
  datatype Chip = Chip(text: string, size: Size, bg: string, icon: Option<Icon>)

  /** The chip for `status`; `size` defaults to small when not given. */
  function Render(status: string, given: Option<string>, size: Option<Size>): (c: Chip)
    ensures size.None? ==> c.size == Small
    ensures size.Some? ==> c.size == size.value
    ensures status !in StatusConfig ==> c.bg == Grey && c.icon.None?
    ensures status in StatusConfig ==> c.bg == StatusConfig[status].bg && c.icon == StatusConfig[status].icon
    ensures c.text == DisplayLabel(status, given)
  {
    var config := ConfigOf(status);
    Chip(DisplayLabel(status, given), if size.Some? then size.value else Small, config.bg, config.icon)
  }
}
