/** The analytics export panel (CSV text, report text, file name) and the
    analytics filter panel. */
module Export {

  import opened Opt
  import opened Text
  import opened TagLists

  /** A record as an ordered list of fields: `Object.keys` order. */
  type Record = seq<(String, String)>

  function Keys(r: Record): (ks: seq<String>)
    ensures |ks| == |r| && forall i | 0 <= i < |r| :: ks[i] == r[i].0
  {
    seq(|r|, i requires 0 <= i < |r| => r[i].0)
  }

  /** `row[key]`: the value of the field with that name, if any. */
  function Lookup(r: Record, k: String): (v: Option<String>)
    ensures v.None? <==> forall i | 0 <= i < |r| :: r[i].0 != k
  {
    if r == [] then None
    else if r[0].0 == k then Some(r[0].1)
    else
      var v := Lookup(r[1..], k);
      assert forall i | 1 <= i < |r| :: r[i] == r[1..][i - 1];
      v
  }

  lemma {:induction false} LookupOfDistinctKeys(r: Record, j: nat)
    requires j < |r| && NoDuplicates(Keys(r))
    ensures Lookup(r, r[j].0) == Some(r[j].1)
  {
    if j > 0 {
      assert r[0].0 == Keys(r)[0] != Keys(r)[j] == r[j].0;
      assert Keys(r[1..]) == Keys(r)[1..];
      LookupOfDistinctKeys(r[1..], j - 1);
    }
  }

  /** A template literal of a missing field prints "undefined". */
  function Field(r: Record, k: String): String {
    match Lookup(r, k)
    case None => "undefined"
    case Some(v) => v
  }

  function Quote(v: String): (q: String)
    ensures |q| == |v| + 2 && q[1..|q| - 1] == v
  {
    "\"" + v + "\""
  }

  function CsvCells(headers: seq<String>, row: Record): (cells: seq<String>)
    ensures |cells| == |headers|
  {
    seq(|headers|, i requires 0 <= i < |headers| => Quote(Field(row, headers[i])))
  }

  /** `convertToCSV`: a header line of the first record's keys, then one line
      per record of its quoted values in header order; no escaping. */
  function ConvertToCsv(data: seq<Record>): (csv: String)
    ensures data == [] ==> csv == []
  {
    if data == [] then [] else Join(CsvLines(data), "\n")
  }

  /** The lines of the CSV: the header line, then one line per record. */
  function CsvLines(data: seq<Record>): (lines: seq<String>)
    requires data != []
    ensures |lines| == |data| + 1
  {
    var headers := Keys(data[0]);
    [Join(headers, ",")] + seq(|data|, i requires 0 <= i < |data| => Join(CsvCells(headers, data[i]), ","))
  }

  // ---------------------------------------------------------------------------
  // Reading the CSV back

  function Unquote(cell: String): String {
    if |cell| >= 2 then cell[1..|cell| - 1] else cell
  }

  function ParseRow(headers: seq<String>, line: String): (r: Record) {
    var cells := Split(line, ',');
    var n := if |headers| < |cells| then |headers| else |cells|;
    seq(n, i requires 0 <= i < n => (headers[i], Unquote(cells[i])))
  }

  /** A reader for the panel's CSV: split into lines, the first line into
      headers, every further line into cells with their quotes removed. */
  function ParseCsv(csv: String): seq<Record> {
    if csv == [] then []
    else
      var lines := Split(csv, '\n');
      var headers := Split(lines[0], ',');
      seq(|lines| - 1, i requires 0 <= i < |lines| - 1 => ParseRow(headers, lines[i + 1]))
  }

  /** Records the CSV can carry: all with the first record's field names,
      distinct and non-empty in number, and no comma or line break in any
      name or value. */
  predicate Exportable(data: seq<Record>) {
    data != [] ==>
      && |data[0]| >= 1
      && NoDuplicates(Keys(data[0]))
      && (forall i | 0 <= i < |data| :: Keys(data[i]) == Keys(data[0]))
      && (forall i, j | 0 <= i < |data| && 0 <= j < |data[i]| ::
            ',' !in data[i][j].0 && '\n' !in data[i][j].0 && ',' !in data[i][j].1 && '\n' !in data[i][j].1)
  }

  lemma {:induction false} JoinAvoids(xs: seq<String>, sep: String, c: char)
    requires c !in sep && forall k | 0 <= k < |xs| :: c !in xs[k]
    ensures c !in Join(xs, sep)
  {
    if |xs| > 1 {
      JoinAvoids(xs[1..], sep, c);
    }
  }

  lemma JoinOfTwoOrMore(xs: seq<String>, sep: String)
    requires |xs| >= 2 && sep != []
    ensures Join(xs, sep) != []
  {
    assert |Join(xs, sep)| >= |sep|;
  }

  /** One data line reads back as its record. */
  lemma RowRoundTrip(headers: seq<String>, row: Record)
    requires |headers| >= 1 && Keys(row) == headers && NoDuplicates(headers)
    requires forall j | 0 <= j < |row| :: ',' !in row[j].1
    ensures ParseRow(headers, Join(CsvCells(headers, row), ",")) == row
  {
    var cells := CsvCells(headers, row);
    forall j | 0 <= j < |headers| ensures Field(row, headers[j]) == row[j].1 && ',' !in cells[j] {
      LookupOfDistinctKeys(row, j);
    }
    SplitJoin(cells, ',');
    var parsed := ParseRow(headers, Join(cells, ","));
    assert |parsed| == |row|;
    forall j | 0 <= j < |row| ensures parsed[j] == row[j] {
      assert Unquote(cells[j]) == row[j].1;
    }
  }

  /** A data line avoids every character its values avoid, other than the
      comma and the quote it adds. */
  lemma RowAvoids(headers: seq<String>, row: Record, c: char)
    requires Keys(row) == headers && NoDuplicates(headers) && c != ',' && c != '"'
    requires forall j | 0 <= j < |row| :: c !in row[j].1
    ensures c !in Join(CsvCells(headers, row), ",")
  {
    var cells := CsvCells(headers, row);
    forall j | 0 <= j < |cells| ensures c !in cells[j] {
      LookupOfDistinctKeys(row, j);
    }
    JoinAvoids(cells, ",", c);
  }

  /** The header line and the line of the i-th record. */
  lemma CsvLineOf(data: seq<Record>, i: nat)
    requires i < |data|
    ensures CsvLines(data)[0] == Join(Keys(data[0]), ",")
    ensures CsvLines(data)[i + 1] == Join(CsvCells(Keys(data[0]), data[i]), ",")
  {}

  /** What exportability says of one record. */
  lemma ExportableAt(data: seq<Record>, i: nat)
    requires Exportable(data) && i < |data|
    ensures Keys(data[i]) == Keys(data[0]) && NoDuplicates(Keys(data[0]))
    ensures forall j | 0 <= j < |data[i]| :: '\n' !in data[i][j].1
  {}

  /** No line of the CSV of exportable records holds a line break. */
  lemma CsvLinesAvoidBreak(data: seq<Record>)
    requires data != [] && Exportable(data)
    ensures forall k | 0 <= k < |CsvLines(data)| :: '\n' !in CsvLines(data)[k]
  {
    forall k | 0 <= k < |CsvLines(data)| ensures '\n' !in CsvLines(data)[k] {
      if k == 0 {
        HeaderLineAvoids(data);
        CsvLineOf(data, 0);
      } else {
        ExportableAt(data, k - 1);
        RowLineAvoids(data, k - 1);
      }
    }
  }

  lemma RowLineAvoids(data: seq<Record>, i: nat)
    requires i < |data| && Keys(data[i]) == Keys(data[0]) && NoDuplicates(Keys(data[0]))
    requires forall j | 0 <= j < |data[i]| :: '\n' !in data[i][j].1
    ensures '\n' !in CsvLines(data)[i + 1]
  {
    CsvLineOf(data, i);
    RowAvoids(Keys(data[0]), data[i], '\n');
  }

  lemma HeaderLineAvoids(data: seq<Record>)
    requires data != [] && Exportable(data)
    ensures '\n' !in Join(Keys(data[0]), ",")
  {
    var headers := Keys(data[0]);
    forall m | 0 <= m < |headers| ensures '\n' !in headers[m] {
      assert headers[m] == data[0][m].0;
    }
    JoinAvoids(headers, ",", '\n');
  }

  /** Reading the CSV of exportable records gives the records back. */
  lemma CsvRoundTrip(data: seq<Record>)
    requires Exportable(data)
    ensures ParseCsv(ConvertToCsv(data)) == data
  {
    if data != [] {
      var headers := Keys(data[0]);
      var lines := CsvLines(data);
      CsvLinesAvoidBreak(data);
      SplitJoin(lines, '\n');
      JoinOfTwoOrMore(lines, "\n");
      forall k | 0 <= k < |headers| ensures ',' !in headers[k] {
        assert headers[k] == data[0][k].0;
      }
      SplitJoin(headers, ',');
      var parsed := ParseCsv(ConvertToCsv(data));
      assert |parsed| == |data|;
      forall i | 0 <= i < |data| ensures parsed[i] == data[i] {
        assert parsed[i] == ParseRow(headers, lines[i + 1]);
        RowRoundTrip(headers, data[i]);
      }
    }
  }

  // ---------------------------------------------------------------------------
  // The report text

  function FieldLines(item: Record): String {
    if item == [] then [] else item[0].0 + (": " + (item[0].1 + ("\n" + FieldLines(item[1..]))))
  }

  function Heading(number: nat): (h: String)
    ensures '\n' !in h
  {
    var digits := NatToString(number);
    assert forall k | 0 <= k < |digits| :: IsDigit(digits[k]);
    "Application " + digits
  }

  function Blocks(data: seq<Record>, number: nat): String
    decreases |data|
  {
    if data == [] then []
    else Heading(number) + (":\n" + (FieldLines(data[0]) + ("\n" + Blocks(data[1..], number + 1))))
  }

  /** `convertToPDFText`: a title, then per record a numbered heading, one
      "key: value" line per field and an empty line. */
  const ReportTitle := "Job Applications Report"

  function ReportText(data: seq<Record>): (r: String)
    ensures |r| >= |ReportTitle| + 2 && r[..|ReportTitle| + 2] == ReportTitle + "\n\n"
  {
    ReportTitle + "\n\n" + Blocks(data, 1)
  }

  predicate NoLineBreaks(item: Record) {
    forall j | 0 <= j < |item| :: '\n' !in item[j].0 && '\n' !in item[j].1
  }

  lemma {:induction false} FieldLinesCount(item: Record)
    requires NoLineBreaks(item)
    ensures CountChar(FieldLines(item), '\n') == |item|
  {
    if item != [] {
      CountCharAbsent(item[0].0, '\n');
      CountCharAbsent(item[0].1, '\n');
      CountCharAppend(item[0].0, ": " + (item[0].1 + ("\n" + FieldLines(item[1..]))), '\n');
      CountCharAppend(": ", item[0].1 + ("\n" + FieldLines(item[1..])), '\n');
      CountCharAppend(item[0].1, "\n" + FieldLines(item[1..]), '\n');
      CountCharAppend("\n", FieldLines(item[1..]), '\n');
      FieldLinesCount(item[1..]);
    }
  }

  function LineTotal(data: seq<Record>): nat {
    if data == [] then 0 else |data[0]| + 2 + LineTotal(data[1..])
  }

  lemma {:induction false} BlocksCount(data: seq<Record>, number: nat)
    requires forall i | 0 <= i < |data| :: NoLineBreaks(data[i])
    ensures CountChar(Blocks(data, number), '\n') == LineTotal(data)
    decreases |data|
  {
    if data != [] {
      var heading := Heading(number);
      var rest := FieldLines(data[0]) + ("\n" + Blocks(data[1..], number + 1));
      CountCharAbsent(heading, '\n');
      CountCharAppend(heading, ":\n" + rest, '\n');
      CountCharAppend(":\n", rest, '\n');
      CountCharAppend(FieldLines(data[0]), "\n" + Blocks(data[1..], number + 1), '\n');
      CountCharAppend("\n", Blocks(data[1..], number + 1), '\n');
      FieldLinesCount(data[0]);
      BlocksCount(data[1..], number + 1);
    }
  }

  /** The report has the title's two lines and, per record, a heading, one
      line per field and a blank line. */
  lemma ReportLineCount(data: seq<Record>)
    requires forall i | 0 <= i < |data| :: NoLineBreaks(data[i])
    ensures CountChar(ReportText(data), '\n') == 2 + LineTotal(data)
  {
    CountCharAppend(ReportTitle + "\n\n", Blocks(data, 1), '\n');
    TitleLineCount();
    BlocksCount(data, 1);
  }

  lemma TitleLineCount()
    ensures CountChar(ReportTitle + "\n\n", '\n') == 2
  {
    TitleHasNoBreak();
    TwoBreaksAfter(ReportTitle);
  }

  /** A text without line breaks followed by two of them holds two. */
  lemma TwoBreaksAfter(t: String)
    requires '\n' !in t
    ensures CountChar(t + "\n\n", '\n') == 2
  {
    CountCharAbsent(t, '\n');
    CountCharAppend(t, "\n\n", '\n');
    assert CountChar("\n\n", '\n') == 1 + CountChar("\n", '\n');
  }

  lemma TitleHasNoBreak()
    ensures '\n' !in ReportTitle
  {}

  // ---------------------------------------------------------------------------
  // The download

  datatype Format = Csv | Json | Excel | Pdf | OtherFormat(name: String)

  /** The file's text: CSV for both spreadsheet formats, the JSON dump of the
      records, or the report text. */
  datatype Content = CsvText(csv: String) | JsonOf(records: seq<Record>) | Report(text: String)

  datatype Download = Download(content: Content, mimeType: String, fileName: String)

  function Extension(f: Format): String {
    match f
    case Csv => "csv"
    case Json => "json"
    case Excel => "xlsx"
    case Pdf => "pdf"
    case OtherFormat(_) => ""
  }

  /** `downloadFile`: nothing for an unknown format. */
  function DownloadFile(data: seq<Record>, f: Format, range: String): (r: Option<Download>)
    ensures r.None? <==> f.OtherFormat?
    ensures r.Some? ==> r.value.fileName == "job_applications_" + range + "days." + Extension(f)
    ensures f == Csv || f == Excel ==> r.value.content == CsvText(ConvertToCsv(data))
  {
    var name := "job_applications_" + range + "days." + Extension(f);
    match f
    case Csv => Some(Download(CsvText(ConvertToCsv(data)), "text/csv", name))
    case Json => Some(Download(JsonOf(data), "application/json", name))
    case Excel => Some(Download(CsvText(ConvertToCsv(data)), "application/vnd.ms-excel", name))
    case Pdf => Some(Download(Report(ReportText(data)), "application/pdf", name))
    case OtherFormat(_) => None
  }

  /** For one range, different formats download under different names. */
  lemma FileNamesDistinct(data: seq<Record>, f1: Format, f2: Format, range: String)
    requires !f1.OtherFormat? && !f2.OtherFormat? && f1 != f2
    ensures DownloadFile(data, f1, range).value.fileName != DownloadFile(data, f2, range).value.fileName
  {
    var p := "job_applications_" + range + "days.";
    var n1 := DownloadFile(data, f1, range).value.fileName;
    var n2 := DownloadFile(data, f2, range).value.fileName;
    assert n1 == p + Extension(f1) && n2 == p + Extension(f2);
    assert n1[|p|..] == Extension(f1);
    assert n2[|p|..] == Extension(f2);
  }

  /** The panel's initial choice: CSV of the last 30 days. */
  const InitialFormat := Csv
  const InitialRange := "30"

  // ---------------------------------------------------------------------------
  // The analytics filter panel

  datatype AnalyticsFilters = AnalyticsFilters(
    dateRange: String,
    jobType: String,
    company: String,
    status: String,
    platform: String)

  const DefaultAnalyticsFilters := AnalyticsFilters("30", "all", "", "all", "all")

  datatype FilterPanel = FilterPanel(filters: AnalyticsFilters, expanded: bool)

  const InitialFilterPanel := FilterPanel(DefaultAnalyticsFilters, false)

  datatype AnalyticsField = DateRangeField | JobTypeField | CompanyField | StatusField | PlatformField

  /** `handleFilterChange`: one field changes; nothing is passed on yet. */
  function ChangeAnalyticsFilter(p: FilterPanel, field: AnalyticsField, value: String): (r: FilterPanel)
    ensures r.expanded == p.expanded
    ensures field == DateRangeField ==> r.filters == p.filters.(dateRange := value)
    ensures field == JobTypeField ==> r.filters == p.filters.(jobType := value)
    ensures field == CompanyField ==> r.filters == p.filters.(company := value)
    ensures field == StatusField ==> r.filters == p.filters.(status := value)
    ensures field == PlatformField ==> r.filters == p.filters.(platform := value)
  {
    match field
    case DateRangeField => p.(filters := p.filters.(dateRange := value))
    case JobTypeField => p.(filters := p.filters.(jobType := value))
    case CompanyField => p.(filters := p.filters.(company := value))
    case StatusField => p.(filters := p.filters.(status := value))
    case PlatformField => p.(filters := p.filters.(platform := value))
  }

  /** "Apply": the filters are passed on as they are and the panel closes. */
  function ApplyFilters(p: FilterPanel): (r: (FilterPanel, AnalyticsFilters))
    ensures r.1 == p.filters && r.0.filters == p.filters && !r.0.expanded
  {
    (p.(expanded := false), p.filters)
  }

  /** "Reset": the defaults are set and passed on; the panel stays as it is. */
  function ResetFilters(p: FilterPanel): (r: (FilterPanel, AnalyticsFilters))
    ensures r.0.filters == DefaultAnalyticsFilters && r.1 == DefaultAnalyticsFilters
    ensures r.0.expanded == p.expanded
  {
    (p.(filters := DefaultAnalyticsFilters), DefaultAnalyticsFilters)
  }

  /** Changes made since the last apply are dropped by a reset, and an apply
      right after a reset passes the defaults on again. */
  lemma ResetDiscardsChanges(p: FilterPanel, field: AnalyticsField, value: String)
    ensures ResetFilters(ChangeAnalyticsFilter(p, field, value)).0.filters == InitialFilterPanel.filters
    ensures ApplyFilters(ResetFilters(p).0).1 == DefaultAnalyticsFilters
  {}
}
