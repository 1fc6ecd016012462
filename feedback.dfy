/** User feedback as administrators see it: the category icon, colour and
    label, the rating colour and the insight sentence, and the review
    chip. */
module Feedback {
  import opened Values
  import opened Text

  /** The icons a category is drawn with. */
  datatype CategoryIcon = Idea | Bug | Comment | General

  /** `getCategoryIcon`. */
  function IconOf(category: string): (icon: CategoryIcon)
    ensures icon == Idea <==> category == "feature_request"
    ensures icon == Bug <==> category == "bug_report"
    ensures icon == Comment <==> category == "general_feedback"
  {
    match category
    case "feature_request" => Idea
    case "bug_report" => Bug
    case "general_feedback" => Comment
    case _ => General
  }

  /** `getCategoryColor`: feature requests are blue, bug reports red, all
      other categories (general feedback included) the default colour. */
  function CategoryColor(category: string): (c: ChipColor)
    ensures c == Info <==> category == "feature_request"
    ensures c == Error <==> category == "bug_report"
    ensures c == Default <==> category != "feature_request" && category != "bug_report"
  {
    match category
    case "feature_request" => Info
    case "bug_report" => Error
    case "general_feedback" => Default
    case _ => Default
  }

  /** `formatCategory`: the first underscore becomes a space, then every
      word start is upper-cased. Any later underscore stays, and since an
      underscore is a word character, the letter after it stays lower
      case. */
  function FormatCategory(category: string): (text: string)
    ensures |text| == |category|
    ensures '_' in category ==> text[IndexOf(category, '_')] == ' '
    ensures forall i :: 0 <= i < |category| && ('_' !in category || i != IndexOf(category, '_')) ==>
      (text[i] == '_' <==> category[i] == '_')
    ensures forall i :: 0 <= i < |text| && WordStart(text, i) ==> !('a' <= text[i] <= 'z')
    ensures forall i :: 0 <= i < |text| ==> text[i] == category[i] || text[i] == ' ' || text[i] == ToUpper(category[i])
  {
    var spaced := ReplaceFirst(category, '_', ' ');
    CapitalizeWordsStarts(spaced);
    CapitalizeWords(spaced)
  }

  /** The three categories the form offers read as their names. */
  lemma BugReportLabel()
    ensures FormatCategory("bug_report") == "Bug Report"
  {
    assert "bug" + "_" + "report" == "bug_report";
    assert ToUpper('b') == 'B' && ToUpper('r') == 'R';
    assert [ToUpper('b')] + "bug"[1..] + " " + [ToUpper('r')] + "report"[1..] == "Bug Report";
    CategoryLabelFrom("bug", "report", "Bug Report");
  }

  lemma FeatureRequestLabel()
    ensures FormatCategory("feature_request") == "Feature Request"
  {
    assert "feature" + "_" + "request" == "feature_request";
    assert ToUpper('f') == 'F' && ToUpper('r') == 'R';
    assert [ToUpper('f')] + "feature"[1..] + " " + [ToUpper('r')] + "request"[1..] == "Feature Request";
    CategoryLabelFrom("feature", "request", "Feature Request");
  }

  lemma GeneralFeedbackLabel()
    ensures FormatCategory("general_feedback") == "General Feedback"
  {
    assert "general" + "_" + "feedback" == "general_feedback";
    assert ToUpper('g') == 'G' && ToUpper('f') == 'F';
    assert [ToUpper('g')] + "general"[1..] + " " + [ToUpper('f')] + "feedback"[1..] == "General Feedback";
    CategoryLabelFrom("general", "feedback", "General Feedback");
  }

  /** The first underscore of `first + "_" + second` is the one between
      the words, when `first` has none. */
  lemma ReplaceJoined(first: string, second: string)
    requires '_' !in first
    ensures ReplaceFirst(first + "_" + second, '_', ' ') == first + " " + second
  {
    var category := first + "_" + second;
    assert category[|first|] == '_' && category[..|first|] == first;
    assert IndexOf(category, '_') == |first|;
    assert category[|first| + 1..] == second;
  }

  /** Capitalising two lower-case words separated by a space upper-cases
      the first letter of each. */
  lemma CapitalizeTwoWords(first: string, second: string)
    requires |first| > 0 && |second| > 0
    requires forall i :: 0 <= i < |first| ==> 'a' <= first[i] <= 'z'
    requires forall i :: 0 <= i < |second| ==> 'a' <= second[i] <= 'z'
    ensures CapitalizeWords(first + " " + second)
      == [ToUpper(first[0])] + first[1..] + " " + [ToUpper(second[0])] + second[1..]
  {
    var spaced := first + " " + second;
    var text := [ToUpper(first[0])] + first[1..] + " " + [ToUpper(second[0])] + second[1..];
    var r := CapitalizeWords(spaced);
    var n := |first|;
    forall i | 0 <= i < |r| ensures r[i] == text[i] {
      if i < n {
        assert spaced[i] == first[i];
        if i > 0 {
          assert spaced[i - 1] == first[i - 1];
          assert text[i] == first[i];
        }
      } else if i == n {
        assert spaced[i] == ' ' && text[i] == ' ';
      } else {
        assert spaced[i] == second[i - n - 1];
        if i > n + 1 {
          assert spaced[i - 1] == second[i - n - 2];
          assert text[i] == second[i - n - 1];
        } else {
          assert spaced[i - 1] == ' ';
          assert text[i] == ToUpper(second[0]);
        }
      }
    }
  }

  /** A category of two lower-case words joined by one underscore reads as
      the two words, each with its first letter upper-cased. */
  lemma CategoryLabelFrom(first: string, second: string, text: string)
    requires |first| > 0 && |second| > 0
    requires forall i :: 0 <= i < |first| ==> 'a' <= first[i] <= 'z'
    requires forall i :: 0 <= i < |second| ==> 'a' <= second[i] <= 'z'
    requires text == [ToUpper(first[0])] + first[1..] + " " + [ToUpper(second[0])] + second[1..]
    ensures FormatCategory(first + "_" + second) == text
  {
    assert '_' !in first;
    ReplaceJoined(first, second);
    CapitalizeTwoWords(first, second);
  }

  /** `getRatingColor`: four stars and up are good, three neutral, fewer
      bad. */
  function RatingColor(rating: int): (c: ChipColor)
    ensures c == Success <==> rating >= 4
    ensures c == Warning <==> rating == 3
    ensures c == Error <==> rating < 3
  {
    if rating >= 4 then Success else if rating == 3 then Warning else Error
  }

  /** The insight sentence of the detail page. */
  function Insight(rating: int): (text: string)
    ensures text == "Positive feedback" <==> rating >= 4
    ensures text == "Neutral feedback" <==> rating == 3
    ensures text == "Negative feedback" <==> rating < 3
  {
    if rating >= 4 then "Positive feedback"
    else if rating == 3 then "Neutral feedback"
    else "Negative feedback"
  }

  /** The insight sentence and the rating chip's colour always agree. */
  lemma InsightMatchesColor(rating: int)
    ensures Insight(rating) == "Positive feedback" <==> RatingColor(rating) == Success
    ensures Insight(rating) == "Neutral feedback" <==> RatingColor(rating) == Warning
    ensures Insight(rating) == "Negative feedback" <==> RatingColor(rating) == Error
  {
  }

  /** The status column: "Reviewed" in green once a review date is set,
      "Pending" in amber before. */
  function ReviewChip(reviewedAt: DateField): (chip: (string, ChipColor))
    ensures chip.0 == "Reviewed" <==> !reviewedAt.Unset?
    ensures chip.0 == "Pending" <==> reviewedAt.Unset?
    ensures chip.1 == Success <==> !reviewedAt.Unset?
    ensures chip.1 == Warning <==> reviewedAt.Unset?
  {
    if !reviewedAt.Unset? then ("Reviewed", Success) else ("Pending", Warning)
  }
}
