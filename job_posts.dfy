/** Job posts as administrators see them: the employment-type names, the
    CSV export and the lines of the detail panel (location, pay type, pay
    range and weekly hours). */
module JobPosts {
  import opened Values
  import opened Text
  import Csv

  const EmploymentTypes: map<string, string> := map[
    "full_time" := "Full Time",
    "part_time" := "Part Time",
    "gig" := "Gig",
    "seasonal" := "Seasonal",
    "contract" := "Contract",
    "internship" := "Internship"
  ]

  /** `formatEmploymentType`: the six known types by name, any other
      unchanged. */
  function FormatEmploymentType(t: string): (name: string)
    ensures t in EmploymentTypes ==> name == EmploymentTypes[t]
    ensures t !in EmploymentTypes ==> name == t
    ensures '_' !in name <==> '_' !in t || t in EmploymentTypes
  {
    if t in EmploymentTypes then EmploymentTypes[t] else t
  }

  /** A job post as the export and the detail panel read it. */
  datatype JobPostRecord = JobPostRecord(
    jobTitle: Option<string>,
    posterName: Option<string>,
    posterEmail: Option<string>,
    address: Option<string>,
    city: Option<string>,
    zip: Option<string>,
    companyName: Option<string>,
    status: Option<string>,
    employmentType: Option<string>,
    applicationCount: Option<int>,
    createdAt: Option<int>,
    isSalary: bool,
    isHourly: bool,
    payRangeMin: Option<int>,
    payRangeMax: Option<int>,
    payCurrency: Option<string>,
    minHoursPerWeek: Option<int>,
    maxHoursPerWeek: Option<int>)

  const Headers: seq<string> := [
    "Job Title", "Posted By", "Email", "City", "Company", "Status", "Type",
    "Applications", "Created"]

  /** One export row, a cell per header; missing text fields are empty. */
  function ExportRow(r: JobPostRecord, format: int -> string): (cells: seq<string>)
    ensures |cells| == |Headers| == 9
    ensures cells[0] == Or(r.jobTitle, "") && cells[1] == Or(r.posterName, "") && cells[2] == Or(r.posterEmail, "")
    ensures cells[3] == Or(r.city, "") && cells[4] == Or(r.companyName, "") && cells[5] == Or(r.status, "")
    ensures cells[6] == FormatEmploymentType(Or(r.employmentType, ""))
    ensures cells[7] == IntToString(OrInt(r.applicationCount, 0))
    ensures cells[8] == Csv.DateCell(r.createdAt, format)
  {
    [
      Or(r.jobTitle, ""),
      Or(r.posterName, ""),
      Or(r.posterEmail, ""),
      Or(r.city, ""),
      Or(r.companyName, ""),
      Or(r.status, ""),
      FormatEmploymentType(Or(r.employmentType, "")),
      IntToString(OrInt(r.applicationCount, 0)),
      Csv.DateCell(r.createdAt, format)
    ]
  }

  function ExportRows(records: seq<JobPostRecord>, format: int -> string): (rows: seq<seq<string>>)
    ensures |rows| == |records|
    ensures forall i :: 0 <= i < |records| ==> rows[i] == ExportRow(records[i], format) && |rows[i]| == |Headers|
  {
    seq(|records|, i requires 0 <= i < |records| => ExportRow(records[i], format))
  }

  /** `jobPostExporter`'s CSV text: the header line first, then at least
      one line per job post. */
  function Export(records: seq<JobPostRecord>, format: int -> string): (csv: string)
    ensures Split(csv, '\n')[0] == Join(Headers, ",")
    ensures |Split(csv, '\n')| >= |records| + 1
  {
    Csv.DocumentHeader(Headers, ExportRows(records, format));
    Csv.Document(Headers, ExportRows(records, format))
  }

  /** The text the location line trims when the city is known. */
  function LocationText(r: JobPostRecord): string
    requires Truthy(r.city)
  {
    Or(r.address, "") + " " + r.city.value + ", " + Or(r.zip, "")
  }

  /** The location line: "address city, zip" trimmed when the city is
      known, "N/A" otherwise. */
  function Location(r: JobPostRecord): (line: string)
    ensures !Truthy(r.city) ==> line == "N/A"
    ensures Truthy(r.city) ==> ',' in line && line == Trim(line)
  {
    if Truthy(r.city) then
      var text := LocationText(r);
      assert text[|Or(r.address, "") + " " + r.city.value|] == ',';
      TrimKeeps(text, ',');
      var line := Trim(text);
      TrimmedFixed(text);
      line
    else "N/A"
  }

  /** A trimmed string trims to itself. */
  lemma TrimmedFixed(s: string)
    ensures Trim(Trim(s)) == Trim(s)
  {
    var t := Trim(s);
    if t != [] {
      assert TrimStart(t) == t;
      assert TrimEnd(t) == t;
    }
  }

  /** Every visible character of the city shows in the location line. */
  lemma LocationShowsCity(r: JobPostRecord)
    requires Truthy(r.city)
    ensures forall c :: c in r.city.value && !IsWhitespace(c) ==> c in Location(r)
  {
    var text := LocationText(r);
    forall c | c in r.city.value && !IsWhitespace(c) ensures c in Location(r) {
      var i :| 0 <= i < |r.city.value| && r.city.value[i] == c;
      assert text[|Or(r.address, "") + " "| + i] == c;
      TrimKeeps(text, c);
    }
  }

  /** The pay type line: "Salary" wins over "Hourly"; neither gives
      "N/A". */
  function PayType(r: JobPostRecord): (line: string)
    ensures line == "Salary" <==> r.isSalary
    ensures line == "Hourly" <==> !r.isSalary && r.isHourly
    ensures line == "N/A" <==> !r.isSalary && !r.isHourly
  {
    if r.isSalary then "Salary" else if r.isHourly then "Hourly" else "N/A"
  }

  /** Three pieces joined by spaces, as the range lines write them. */
  lemma JoinThree(a: string, b: string, c: string)
    ensures Join([a, b, c], " ") == a + " " + b + " " + c
  {
    assert [a, b, c][1..] == [b, c];
    assert [b, c][1..] == [c];
    assert Join([b, c], " ") == b + " " + c;
  }

  /** The pay range line: "<cur><min> - <cur><max>" when both bounds are
      non-zero, with "$" as the default currency; otherwise "Not
      specified". */
  function PayRange(r: JobPostRecord): (line: string)
    ensures line == "Not specified" <==> !(TruthyInt(r.payRangeMin) && TruthyInt(r.payRangeMax))
    ensures TruthyInt(r.payRangeMin) && TruthyInt(r.payRangeMax) ==>
      line == Join([Or(r.payCurrency, "$") + IntToString(r.payRangeMin.value), "-", Or(r.payCurrency, "$") + IntToString(r.payRangeMax.value)], " ")
  {
    if TruthyInt(r.payRangeMin) && TruthyInt(r.payRangeMax) then
      var cur := Or(r.payCurrency, "$");
      var lo := cur + IntToString(r.payRangeMin.value);
      var hi := cur + IntToString(r.payRangeMax.value);
      JoinThree(lo, "-", hi);
      var line := lo + " " + "-" + " " + hi;
      assert line[|lo| + 1] == '-';
      assert "Not specified"[0] == 'N';
      line
    else "Not specified"
  }

  /** The hours line: "<min> - <max> hrs" when both are non-zero; otherwise
      "Not specified". */
  function Hours(r: JobPostRecord): (line: string)
    ensures line == "Not specified" <==> !(TruthyInt(r.minHoursPerWeek) && TruthyInt(r.maxHoursPerWeek))
    ensures TruthyInt(r.minHoursPerWeek) && TruthyInt(r.maxHoursPerWeek) ==>
      line == Join([IntToString(r.minHoursPerWeek.value), "-", IntToString(r.maxHoursPerWeek.value) + " hrs"], " ")
  {
    if TruthyInt(r.minHoursPerWeek) && TruthyInt(r.maxHoursPerWeek) then
      var lo := IntToString(r.minHoursPerWeek.value);
      var hi := IntToString(r.maxHoursPerWeek.value) + " hrs";
      JoinThree(lo, "-", hi);
      var line := lo + " " + "-" + " " + hi;
      assert line[|lo| + 1] == '-';
      line
    else "Not specified"
  }

  /** A space-free currency lets the pay range be read back: split on
      spaces it gives exactly the lower amount, the dash and the upper
      amount. */
  lemma PayRangeParts(r: JobPostRecord)
    requires TruthyInt(r.payRangeMin) && TruthyInt(r.payRangeMax)
    requires ' ' !in Or(r.payCurrency, "$")
    ensures Split(PayRange(r), ' ') == [Or(r.payCurrency, "$") + IntToString(r.payRangeMin.value), "-", Or(r.payCurrency, "$") + IntToString(r.payRangeMax.value)]
  {
    var cur := Or(r.payCurrency, "$");
    var parts := [cur + IntToString(r.payRangeMin.value), "-", cur + IntToString(r.payRangeMax.value)];
    forall i | 0 <= i < |parts| ensures ' ' !in parts[i] {
    }
    SplitJoin(parts, ' ');
  }

  /** The hours line reads back the same way: both numbers, the dash and
      the unit. */
  lemma HoursParts(r: JobPostRecord)
    requires TruthyInt(r.minHoursPerWeek) && TruthyInt(r.maxHoursPerWeek)
    ensures Split(Hours(r), ' ') == [IntToString(r.minHoursPerWeek.value), "-", IntToString(r.maxHoursPerWeek.value), "hrs"]
  {
    var lo := IntToString(r.minHoursPerWeek.value);
    var hi := IntToString(r.maxHoursPerWeek.value);
    var parts := [lo, "-", hi, "hrs"];
    assert Join(parts, " ") == Join([lo, "-", hi + " hrs"], " ") by {
      assert parts[1..][1..][1..] == ["hrs"];
      assert Join(parts[1..][1..], " ") == hi + " " + "hrs";
      assert Join(parts[1..], " ") == "-" + " " + (hi + " " + "hrs");
      JoinThree(lo, "-", hi + " hrs");
    }
    forall i | 0 <= i < |parts| ensures ' ' !in parts[i] {
    }
    SplitJoin(parts, ' ');
  }
}
