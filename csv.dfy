/** The CSV text every exporter of the panel builds: a header line of the
    column names joined by commas, then one line per row whose cells are
    each wrapped in double quotes, all lines joined by newlines. */
module Csv {
  import opened Values
  import opened Text

  /** A flag cell: "Yes" for a truthy field, "No" otherwise. */
  function YesNo(b: bool): (cell: string)
    ensures cell == "Yes" <==> b
    ensures !b ==> cell == "No"
  {
    if b then "Yes" else "No"
  }

  /** `new Date(t).toLocaleString()`, with the locale's rendering of an
      instant as the parameter `format`; a missing date is an Invalid
      Date. */
  function DateCell(t: Option<int>, format: int -> string): (cell: string)
    ensures t.Some? ==> cell == format(t.value)
    ensures t.None? ==> cell == "Invalid Date"
  {
    if t.Some? then format(t.value) else "Invalid Date"
  }

  /** `field ? new Date(field).toLocaleString() : fallback`: the fallback
      only when the raw field is missing; a set but unparsable field still
      goes through `new Date` and prints "Invalid Date". */
  function SetDateCell(d: DateField, fallback: string, format: int -> string): (cell: string)
    ensures d.Unset? ==> cell == fallback
    ensures d.Unparsable? ==> cell == "Invalid Date"
    ensures d.At? ==> cell == format(d.instant)
  {
    match d
    case Unset => fallback
    case Unparsable => "Invalid Date"
    case At(t) => format(t)
  }

  /** Every cell wrapped in double quotes. */
  function QuoteCells(cells: seq<string>): (r: seq<string>)
    ensures |r| == |cells|
    ensures forall j :: 0 <= j < |r| ==> r[j] == Quote(cells[j])
  {
    seq(|cells|, j requires 0 <= j < |cells| => Quote(cells[j]))
  }

  /** One data line: `row.map(cell => `"${cell}"`).join(",")`. */
  function RowLine(cells: seq<string>): (line: string)
    ensures |cells| > 0 ==> Quote(cells[0]) <= line && line[0] == '"'
    ensures |cells| == 0 ==> line == ""
  {
    Join(QuoteCells(cells), ",")
  }

  /** The lines of the document before they are joined. */
  function Lines(headers: seq<string>, rows: seq<seq<string>>): (r: seq<string>)
    ensures |r| == |rows| + 1
    ensures r[0] == Join(headers, ",")
    ensures forall i :: 0 <= i < |rows| ==> r[i + 1] == RowLine(rows[i])
  {
    [Join(headers, ",")] + seq(|rows|, i requires 0 <= i < |rows| => RowLine(rows[i]))
  }

  /** `[headers.join(","), ...rows.map(...)].join("\n")`. */
  function Document(headers: seq<string>, rows: seq<seq<string>>): (doc: string)
    ensures Join(headers, ",") <= doc
  {
    Join(Lines(headers, rows), "\n")
  }

  /** No header and no cell holds a line break. */
  predicate SingleLineCells(headers: seq<string>, rows: seq<seq<string>>)
  {
    && (forall j :: 0 <= j < |headers| ==> '\n' !in headers[j])
    && (forall i, j :: 0 <= i < |rows| && 0 <= j < |rows[i]| ==> '\n' !in rows[i][j])
  }

  /** When no cell holds a line break, the document has exactly one line for
      the header and one per row, in order, and each data line is the row's
      cells quoted and comma-joined. (Cells are not escaped, so this says
      nothing about reading cell values back.) */
  lemma DocumentLines(headers: seq<string>, rows: seq<seq<string>>)
    requires SingleLineCells(headers, rows)
    ensures Split(Document(headers, rows), '\n') == Lines(headers, rows)
    ensures |Split(Document(headers, rows), '\n')| == |rows| + 1
  {
    var lines := Lines(headers, rows);
    JoinAvoids(headers, ",", '\n');
    forall k | 0 <= k < |lines| ensures '\n' !in lines[k] {
      if k > 0 {
        var row := rows[k - 1];
        var q := QuoteCells(row);
        forall j | 0 <= j < |q| ensures '\n' !in q[j] {
          assert q[j] == "\"" + row[j] + "\"";
        }
        JoinAvoids(q, ",", '\n');
      }
    }
    SplitJoin(lines, '\n');
  }

  /** Whatever the cells hold, the first line of the document is the
      header line, and there is at least one line per row after it. */
  lemma DocumentHeader(headers: seq<string>, rows: seq<seq<string>>)
    requires forall j :: 0 <= j < |headers| ==> '\n' !in headers[j]
    ensures Split(Document(headers, rows), '\n')[0] == Join(headers, ",")
    ensures |Split(Document(headers, rows), '\n')| >= |rows| + 1
  {
    var lines := Lines(headers, rows);
    JoinAvoids(headers, ",", '\n');
    JoinCountsSeparators(lines, '\n');
    if |lines| == 1 {
      SplitWithout(lines[0], '\n');
    } else {
      SplitAfterPiece(lines[0], '\n', Join(lines[1..], "\n"));
    }
  }
}
