/** The application-history page: the filter the page applies to the
    application list, the export rows, the table (sorting and selection), the
    list item (salary text and notes), the summary header, and the filter bar. */
module Applications {

  import opened Opt
  import opened Text
  import opened Seqs
  import opened Numbers
  import opened Sorting
  import opened TagLists
  import opened I18n

  /** One application. Dates are milliseconds; salaries are in thousands, with
      0 standing for a missing value as JavaScript's `!x` treats it. */
  datatype Application = Application(
    id: int,
    company: String,
    position: String,
    appliedDate: int,
    status: String,
    salaryMin: int,
    salaryMax: int,
    notes: seq<String>)

  const DayMs := 24 * 60 * 60 * 1000

  // ---------------------------------------------------------------------------
  // The page's filter

  /** The filter bar's values, all strings as the selects and inputs give them. */
  datatype HistoryFilters = HistoryFilters(
    search: String,
    status: String,
    dateRange: String,
    category: String,
    company: String)

  const DefaultHistoryFilters := HistoryFilters("", "all", "all", "all", "")

  /** The words that put a position in a category; an unknown category has none. */
  function CategoryKeywords(category: String): seq<String> {
    if category == "web-developer" then ["web developer", "frontend", "front-end"]
    else if category == "full-stack" then ["full stack", "fullstack"]
    else if category == "ai-ml" then ["machine learning", "ai", "artificial intelligence", "ml"]
    else if category == "internship" then ["intern", "internship"]
    else []
  }

  predicate MatchesSearch(a: Application, search: String) {
    search == []
    || Contains(Lower(a.company), Lower(search))
    || Contains(Lower(a.position), Lower(search))
  }

  predicate MatchesStatus(a: Application, status: String) {
    status == "all" || a.status == status
  }

  /** Applied within the last `days` days, `days` being `parseInt` of the range.
      A range that does not parse gives an invalid cutoff date, and every
      comparison with an invalid date is false. */
  predicate MatchesDateRange(a: Application, range: String, now: int) {
    range == "all" ||
    match ParseInt(range)
    case None => false
    case Some(days) => a.appliedDate >= now - days * DayMs
  }

  /** Some keyword of the category occurs in the lower-cased position. */
  predicate MatchesCategory(a: Application, category: String) {
    category == "all" ||
    var keywords := CategoryKeywords(category);
    exists i | 0 <= i < |keywords| :: Contains(Lower(a.position), keywords[i])
  }

  predicate MatchesCompany(a: Application, company: String) {
    company == [] || Contains(Lower(a.company), Lower(company))
  }

  predicate Shown(f: HistoryFilters, now: int, a: Application) {
    && MatchesSearch(a, f.search)
    && MatchesStatus(a, f.status)
    && MatchesDateRange(a, f.dateRange, now)
    && MatchesCategory(a, f.category)
    && MatchesCompany(a, f.company)
  }

  function BySearch(f: HistoryFilters): Application -> bool { (a: Application) => MatchesSearch(a, f.search) }
  function ByStatus(f: HistoryFilters): Application -> bool { (a: Application) => MatchesStatus(a, f.status) }
  function ByDate(f: HistoryFilters, now: int): Application -> bool { (a: Application) => MatchesDateRange(a, f.dateRange, now) }
  function ByCategory(f: HistoryFilters): Application -> bool { (a: Application) => MatchesCategory(a, f.category) }
  function ByCompany(f: HistoryFilters): Application -> bool { (a: Application) => MatchesCompany(a, f.company) }
  function ByShown(f: HistoryFilters, now: int): Application -> bool { (a: Application) => Shown(f, now, a) }

  /** `handleFiltersChange`: the five filters one after the other. */
  function FilterApplications(apps: seq<Application>, f: HistoryFilters, now: int): (r: seq<Application>)
    ensures |r| <= |apps|
    ensures forall a | a in r :: a in apps && Shown(f, now, a)
    ensures forall a | a in apps && Shown(f, now, a) :: a in r
  {
    var s1 := Filter(apps, BySearch(f));
    var s2 := Filter(s1, ByStatus(f));
    var s3 := Filter(s2, ByDate(f, now));
    var s4 := Filter(s3, ByCategory(f));
    Filter(s4, ByCompany(f))
  }

  /** The staged filter keeps exactly the applications passing all five
      filters, in their original order. */
  lemma FilterIsConjunction(apps: seq<Application>, f: HistoryFilters, now: int)
    ensures FilterApplications(apps, f, now) == Filter(apps, ByShown(f, now))
  {
    var p12 := (a: Application) => MatchesSearch(a, f.search) && MatchesStatus(a, f.status);
    var p123 := (a: Application) => p12(a) && MatchesDateRange(a, f.dateRange, now);
    var p1234 := (a: Application) => p123(a) && MatchesCategory(a, f.category);
    FilterFilter(apps, BySearch(f), ByStatus(f), p12);
    FilterFilter(apps, p12, ByDate(f, now), p123);
    FilterFilter(apps, p123, ByCategory(f), p1234);
    FilterFilter(apps, p1234, ByCompany(f), ByShown(f, now));
  }

  /** With the filter bar's initial values every application is listed. */
  lemma DefaultFiltersShowAll(apps: seq<Application>, now: int)
    ensures FilterApplications(apps, DefaultHistoryFilters, now) == apps
  {
    FilterIsConjunction(apps, DefaultHistoryFilters, now);
    forall a | a in apps ensures Shown(DefaultHistoryFilters, now, a) {}
    FilterAll(apps, ByShown(DefaultHistoryFilters, now));
  }

  /** The offered date ranges are nested: the last 7 days lie within the last
      30, and those within the last 90. */
  lemma DateRangesNested(a: Application, now: int)
    ensures MatchesDateRange(a, "7", now) ==> MatchesDateRange(a, "30", now)
    ensures MatchesDateRange(a, "30", now) ==> MatchesDateRange(a, "90", now)
  {
    RangeReads("7", 7);
    RangeReads("30", 30);
    RangeReads("90", 90);
  }

  /** An offered range reads as its number of days. */
  lemma RangeReads(range: String, days: nat)
    requires range != [] && AllDigits(range) && DigitsValue(range) == days
    ensures forall a: Application, now: int :: MatchesDateRange(a, range, now) <==> a.appliedDate >= now - days * DayMs
  {
    ParseIntOfDigits(range);
  }

  /** A range that `parseInt` cannot read (empty, or starting with neither
      white space, a sign nor a digit) hides every application. */
  lemma UnreadableRangeHidesAll(a: Application, range: String, now: int)
    requires range != "all"
    requires range == [] || (!IsDigit(range[0]) && !IsSpace(range[0]) && range[0] != '-' && range[0] != '+')
    ensures !MatchesDateRange(a, range, now)
  {
    if range != [] {
      TrimStartOfVisible(range);
    }
  }

  /** A category without keywords hides every application. */
  lemma UnknownCategoryHidesAll(a: Application, category: String)
    requires category !in {"all", "web-developer", "full-stack", "ai-ml", "internship"}
    ensures !MatchesCategory(a, category)
  {}

  /** Keywords match anywhere inside the position: "ml" inside "html" files an
      HTML position under AI/ML. */
  lemma HtmlPositionIsAiMl(a: Application)
    requires a.position == "HTML Developer"
    ensures MatchesCategory(a, "ai-ml")
  {
    var p := Lower(a.position);
    assert p[2..4] == "ml";
    assert OccursAt(p, CategoryKeywords("ai-ml")[3], 2);
  }

  // ---------------------------------------------------------------------------
  // Export rows

  /** One exported row; `notes` is present only when notes are included. */
  datatype ExportRow = ExportRow(
    company: String,
    position: String,
    appliedDate: int,
    status: String,
    salary: String,
    notes: Option<String>)

  /** `$<min>k - $<max>k`, written even when a bound is missing. */
  function ExportSalary(min: int, max: int): (r: String)
    ensures |r| >= 7 && r[0] == '$' && r[|r| - 1] == 'k'
  {
    "$" + (IntToString(min) + ("k - $" + (IntToString(max) + "k")))
  }

  function ExportRowOf(a: Application, includeNotes: bool): (r: ExportRow)
    ensures r.notes.Some? <==> includeNotes
    ensures includeNotes ==> r.notes.value == Join(a.notes, "; ")
    ensures r.company == a.company && r.position == a.position && r.status == a.status
    ensures r.appliedDate == a.appliedDate
    ensures r.salary == ExportSalary(a.salaryMin, a.salaryMax)
  {
    ExportRow(a.company, a.position, a.appliedDate, a.status, ExportSalary(a.salaryMin, a.salaryMax),
              if includeNotes then Some(Join(a.notes, "; ")) else None)
  }

  /** The export holds one row per listed application, in list order. */
  function ExportRows(apps: seq<Application>, includeNotes: bool): (r: seq<ExportRow>)
    ensures |r| == |apps|
    ensures forall i | 0 <= i < |apps| :: r[i] == ExportRowOf(apps[i], includeNotes)
    ensures forall i | 0 <= i < |apps| :: r[i].salary == ExportSalary(apps[i].salaryMin, apps[i].salaryMax)
    ensures forall i | 0 <= i < |apps| :: r[i].notes.Some? <==> includeNotes
  {
    Map(apps, (a: Application) => ExportRowOf(a, includeNotes))
  }

  /** A number written in front of a text starting with a non-digit can be
      read back, and so can the text. */
  lemma NumberThenText(m1: nat, rest1: String, m2: nat, rest2: String)
    requires rest1 != [] && !IsDigit(rest1[0]) && rest2 != [] && !IsDigit(rest2[0])
    requires NatToString(m1) + rest1 == NatToString(m2) + rest2
    ensures m1 == m2 && rest1 == rest2
  {
    LeadingDigitsOfConcat(NatToString(m1), rest1);
    LeadingDigitsOfConcat(NatToString(m2), rest2);
    NatToStringInjective(m1, m2);
    assert rest1 == (NatToString(m1) + rest1)[|NatToString(m1)|..];
    assert rest2 == (NatToString(m2) + rest2)[|NatToString(m2)|..];
  }

  lemma ExportSalaryParts(min: nat, max: nat)
    ensures ExportSalary(min, max)[1..] == NatToString(min) + ("k - $" + (NatToString(max) + "k"))
  {
    var tail := NatToString(min) + ("k - $" + (NatToString(max) + "k"));
    assert ExportSalary(min, max) == "$" + tail;
    assert ("$" + tail)[1..] == tail;
  }

  /** Two salary ranges export to the same text only when they are equal. */
  lemma ExportSalaryInjective(min1: nat, max1: nat, min2: nat, max2: nat)
    requires ExportSalary(min1, max1) == ExportSalary(min2, max2)
    ensures min1 == min2 && max1 == max2
  {
    ExportSalaryParts(min1, max1);
    ExportSalaryParts(min2, max2);
    NumberThenText(min1, "k - $" + (NatToString(max1) + "k"), min2, "k - $" + (NatToString(max2) + "k"));
    assert ("k - $" + (NatToString(max1) + "k"))[5..] == NatToString(max1) + "k";
    assert ("k - $" + (NatToString(max2) + "k"))[5..] == NatToString(max2) + "k";
    NumberThenText(max1, "k", max2, "k");
  }

  // ---------------------------------------------------------------------------
  // The table: sorting and selection

  datatype TableKey = CompanyColumn | PositionColumn | AppliedDateColumn | StatusColumn

  datatype TableSort = TableSort(key: TableKey, direction: Direction)

  /** The table's initial sort: newest applications first. */
  const DefaultTableSort := TableSort(AppliedDateColumn, Desc)

  /** A header click: ascending, unless the column is already sorted ascending. */
  function ClickHeader(s: TableSort, key: TableKey): (r: TableSort)
    ensures r.key == key
    ensures r.direction == Desc <==> s.key == key && s.direction == Asc
  {
    TableSort(key, if s.key == key && s.direction == Asc then Desc else Asc)
  }

  /** Clicking one column twice returns it to ascending order. */
  lemma ClickTwice(s: TableSort, key: TableKey)
    ensures ClickHeader(ClickHeader(s, key), key) == TableSort(key, if s.key == key && s.direction == Asc then Asc else Desc)
    ensures ClickHeader(ClickHeader(ClickHeader(s, key), key), key) == ClickHeader(s, key)
  {}

  /** Dates compare as numbers; the text columns lower-cased as strings. */
  function TableKeyOf(key: TableKey): Application -> Key {
    match key
    case CompanyColumn => (a: Application) => Str(Lower(a.company))
    case PositionColumn => (a: Application) => Str(Lower(a.position))
    case AppliedDateColumn => (a: Application) => Num(a.appliedDate)
    case StatusColumn => (a: Application) => Str(Lower(a.status))
  }

  /** The text columns ignore letter case, and the date column orders by
      the timestamp itself. */
  lemma TableKeysCompare(a: Application, b: Application)
    ensures Lower(a.company) == Lower(b.company) ==> TableKeyOf(CompanyColumn)(a) == TableKeyOf(CompanyColumn)(b)
    ensures Lower(a.position) == Lower(b.position) ==> TableKeyOf(PositionColumn)(a) == TableKeyOf(PositionColumn)(b)
    ensures Lower(a.status) == Lower(b.status) ==> TableKeyOf(StatusColumn)(a) == TableKeyOf(StatusColumn)(b)
    ensures KeyLt(TableKeyOf(AppliedDateColumn)(a), TableKeyOf(AppliedDateColumn)(b)) <==> a.appliedDate < b.appliedDate
  {}

  function SortedApplications(apps: seq<Application>, s: TableSort): (r: seq<Application>)
    ensures multiset(r) == multiset(apps)
    ensures Sorted(r, TableKeyOf(s.key), s.direction)
  {
    SortBy(apps, TableKeyOf(s.key), s.direction)
  }

  /** Rows sharing a sort value keep their list order. */
  lemma TableSortStable(apps: seq<Application>, s: TableSort, k: Key)
    ensures Filter(SortedApplications(apps, s), (a: Application) => TableKeyOf(s.key)(a) == k)
         == Filter(apps, (a: Application) => TableKeyOf(s.key)(a) == k)
  {
    SortStable(apps, TableKeyOf(s.key), s.direction, k, (a: Application) => TableKeyOf(s.key)(a) == k);
  }

  function AppIds(apps: seq<Application>): seq<int> {
    Map(apps, (a: Application) => a.id)
  }

  /** The header checkbox: all ids when the selection is not as long as the
      list, otherwise nothing. */
  function SelectAll(selected: seq<int>, apps: seq<Application>): (r: seq<int>)
    ensures |selected| == |apps| ==> r == []
    ensures |selected| != |apps| ==> r == AppIds(apps) && |r| == |apps|
  {
    if |selected| == |apps| then [] else AppIds(apps)
  }

  /** A row checkbox toggles that row's id. */
  function SelectApplication(selected: seq<int>, id: int): (r: seq<int>)
    ensures id in r <==> id !in selected
    ensures forall other | other != id :: other in r <==> other in selected
    ensures id !in selected ==> r == selected + [id]
    ensures RemoveAll(r, id) == RemoveAll(selected, id)
  {
    ToggleKeepsOthers(selected, id);
    Toggle(selected, id)
  }

  /** Ticking an unticked row and unticking it gives the selection back. */
  lemma SelectApplicationTwice(selected: seq<int>, id: int)
    requires id !in selected
    ensures SelectApplication(SelectApplication(selected, id), id) == selected
  {
    ToggleTwiceRestores(selected, id);
  }

  /** Whether the header checkbox shows as checked. */
  predicate HeaderChecked(selected: seq<int>, apps: seq<Application>) {
    |selected| == |apps| && |apps| > 0
  }

  /** From an empty selection, the header checkbox selects every row and a
      second click clears them again. */
  lemma SelectAllTwice(apps: seq<Application>)
    requires |apps| > 0
    ensures HeaderChecked(SelectAll([], apps), apps)
    ensures forall i | 0 <= i < |apps| :: apps[i].id in SelectAll([], apps)
    ensures SelectAll(SelectAll([], apps), apps) == []
  {}

  /** The header checkbox compares lengths only: a selection of as many ids as
      there are rows shows as "all selected" even when no row is selected. */
  lemma HeaderCheckedCountsOnly(apps: seq<Application>)
    requires |apps| == 1 && apps[0].id == 1
    ensures HeaderChecked([2], apps) && 1 !in [2]
  {}

  // ---------------------------------------------------------------------------
  // The list item

  /** The salary text: both bounds, one bound, or "Not specified". */
  function FormatSalary(min: int, max: int, currency: String): (r: String)
    ensures min == 0 && max == 0 ==> r == "Not specified"
    ensures min != 0 && max != 0 ==> r == currency + IntToString(min) + "k - " + currency + IntToString(max) + "k"
    ensures min != 0 && max == 0 ==> r == currency + IntToString(min) + "k+"
    ensures min == 0 && max != 0 ==> r == "Up to " + currency + IntToString(max) + "k"
  {
    if min == 0 && max == 0 then "Not specified"
    else if min != 0 && max != 0 then currency + IntToString(min) + "k - " + currency + IntToString(max) + "k"
    else if min != 0 then currency + IntToString(min) + "k+"
    else "Up to " + currency + IntToString(max) + "k"
  }

  /** With the default "$" the list's salary text for a full range is the
      export's salary text. */
  lemma FormatSalaryMatchesExport(min: int, max: int)
    requires min != 0 && max != 0
    ensures FormatSalary(min, max, "$") == ExportSalary(min, max)
  {
    var a, b := IntToString(min), IntToString(max);
    var d, sep, k: String := "$", "k - ", "k";
    assert sep + d == "k - $";
    calc {
      FormatSalary(min, max, "$");
      ((((d + a) + sep) + d) + b) + k;
      { AppendAssoc(d + a, sep, d); }
      (((d + a) + (sep + d)) + b) + k;
      { AppendAssoc(d + a, sep + d, b); }
      ((d + a) + ((sep + d) + b)) + k;
      { AppendAssoc(d + a, (sep + d) + b, k); AppendAssoc(sep + d, b, k); }
      (d + a) + ((sep + d) + (b + k));
      { AppendAssoc(d, a, (sep + d) + (b + k)); }
      d + (a + ((sep + d) + (b + k)));
      ExportSalary(min, max);
    }
  }

  /** The note dialog: its text and whether it is open. */
  datatype NoteDialog = NoteDialog(text: String, open: bool)

  /** Saving a note: a blank note does nothing; otherwise the trimmed note is
      passed on for the application and the dialog is cleared and closed. */
  function SaveNote(d: NoteDialog, appId: int): (r: (NoteDialog, Option<(int, String)>))
    ensures IsBlank(d.text) ==> r == (d, None)
    ensures !IsBlank(d.text) ==> r.0 == NoteDialog("", false) && r.1.Some?
    ensures r.1.Some? ==> r.1.value.0 == appId && r.1.value.1 == Trim(d.text)
    ensures r.1.Some? ==> r.1.value.1 != [] && Contains(d.text, r.1.value.1) && Trimmed(r.1.value.1)
  {
    var t := Trim(d.text);
    if t != [] then (NoteDialog("", false), Some((appId, t))) else (d, None)
  }

  // ---------------------------------------------------------------------------
  // Status badges

  datatype StatusConfig = StatusConfig(color: String, icon: String, caption: Texts)

  /** The badge of a status; an unknown status is shown as submitted. */
  const SubmittedConfig := StatusConfig("bg-primary text-primary-foreground", "Send", Texts("Submitted", "Enviado", "Soumis"))

  function StatusConfigOf(status: String): (r: StatusConfig)
    ensures status !in {"viewed", "interview", "rejected", "offer"} <==> r == SubmittedConfig
  {
    if status == "viewed" then StatusConfig("bg-accent text-accent-foreground", "Eye", Texts("Viewed", "Visto", "Vu"))
    else if status == "interview" then StatusConfig("bg-success text-success-foreground", "Calendar", Texts("Interview", "Entrevista", "Entretien"))
    else if status == "rejected" then StatusConfig("bg-error text-error-foreground", "X", Texts("Rejected", "Rechazado", "Rejeté"))
    else if status == "offer" then StatusConfig("bg-success text-success-foreground", "CheckCircle", Texts("Offer", "Oferta", "Offre"))
    else SubmittedConfig
  }

  /** Each known status has its own icon; interview and offer share a colour. */
  lemma StatusIconsDistinct(s1: String, s2: String)
    requires s1 in {"submitted", "viewed", "interview", "rejected", "offer"}
    requires s2 in {"submitted", "viewed", "interview", "rejected", "offer"}
    requires s1 != s2
    ensures StatusConfigOf(s1).icon != StatusConfigOf(s2).icon
  {}

  // ---------------------------------------------------------------------------
  // Summary header

  datatype Summary = Summary(total: nat, pending: nat, interviews: nat, responseRate: int)

  predicate IsPending(a: Application) { a.status == "submitted" || a.status == "viewed" }

  predicate IsSubmitted(a: Application) { a.status == "submitted" }

  /** An application the company has reacted to. */
  predicate HasResponse(a: Application) { a.status != "submitted" }

  predicate IsInterview(a: Application) { a.status == "interview" }

  /** Totals, pending (submitted or viewed), interviews, and the share of
      applications past "submitted", as a rounded percentage. */
  function Summarize(apps: seq<Application>): (r: Summary)
    ensures r.total == |apps|
    ensures r.pending == |Filter(apps, IsPending)|
    ensures r.interviews == |Filter(apps, IsInterview)|
    ensures apps == [] ==> r.responseRate == 0
    ensures apps != [] ==> r.responseRate == RoundDiv(100 * |Filter(apps, HasResponse)|, |apps|)
  {
    var responded := Count(apps, HasResponse);
    Summary(|apps|, Count(apps, IsPending), Count(apps, IsInterview),
            if |apps| > 0 then RoundDiv(100 * responded, |apps|) else 0)
  }

  /** The applications that got a response are all those not still
      submitted. */
  lemma RespondedAreNotSubmitted(apps: seq<Application>)
    ensures |Filter(apps, HasResponse)| == |apps| - |Filter(apps, IsSubmitted)|
  {
    CountComplement(apps, IsSubmitted, HasResponse);
  }

  /** The response rate is a percentage. */
  lemma ResponseRateBounds(apps: seq<Application>)
    ensures 0 <= Summarize(apps).responseRate <= 100
  {
    if |apps| > 0 {
      var responded := Count(apps, HasResponse);
      assert 0 <= 100 * responded <= 100 * |apps|;
      RoundDivBounds(100 * responded, |apps|, 0, 100);
    }
  }

  /** Pending applications and interviews never overlap. */
  lemma PendingAndInterviewsDisjoint(apps: seq<Application>)
    ensures Summarize(apps).pending + Summarize(apps).interviews <= Summarize(apps).total
  {
    CountDisjoint(apps, IsPending, IsInterview);
  }

  /** With no application past "submitted" the rate is zero. */
  lemma SummaryNoneResponded(apps: seq<Application>)
    requires forall a | a in apps :: a.status == "submitted"
    ensures Summarize(apps).responseRate == 0
  {
    if |apps| > 0 {
      FilterNone(apps, HasResponse);
      assert 100 * Count(apps, HasResponse) == 0 * |apps|;
      RoundDivExact(0, |apps|);
    }
  }

  /** When every application has moved past "submitted" the rate is 100. */
  lemma SummaryAllResponded(apps: seq<Application>)
    requires |apps| > 0 && forall a | a in apps :: a.status != "submitted"
    ensures Summarize(apps).responseRate == 100
  {
    FilterAll(apps, HasResponse);
    assert 100 * Count(apps, HasResponse) == 100 * |apps|;
    RoundDivExact(100, |apps|);
  }

  // ---------------------------------------------------------------------------
  // The filter bar

  datatype FilterField = SearchField | StatusField | DateRangeField | CategoryField | CompanyField

  /** `{ ...prev, [key]: value }`. */
  function ChangeFilter(f: HistoryFilters, field: FilterField, value: String): (r: HistoryFilters)
    ensures field == SearchField ==> r.search == value
    ensures field != SearchField ==> r.search == f.search
    ensures field == StatusField ==> r.status == value
    ensures field != StatusField ==> r.status == f.status
    ensures field == DateRangeField ==> r.dateRange == value
    ensures field != DateRangeField ==> r.dateRange == f.dateRange
    ensures field == CategoryField ==> r.category == value
    ensures field != CategoryField ==> r.category == f.category
    ensures field == CompanyField ==> r.company == value
    ensures field != CompanyField ==> r.company == f.company
  {
    match field
    case SearchField => f.(search := value)
    case StatusField => f.(status := value)
    case DateRangeField => f.(dateRange := value)
    case CategoryField => f.(category := value)
    case CompanyField => f.(company := value)
  }

  /** "Clear filters": back to the initial values. */
  function ClearAllFilters(): (r: HistoryFilters)
    ensures !HasActiveFilters(r)
  {
    DefaultHistoryFilters
  }

  /** Some value is neither empty nor 'all'. */
  predicate HasActiveFilters(f: HistoryFilters) {
    var values := [f.search, f.status, f.dateRange, f.category, f.company];
    exists i | 0 <= i < 5 :: values[i] != "" && values[i] != "all"
  }

  /** Setting any one filter to a value that is neither empty nor "all"
      shows the "Clear filters" button, whatever the other filters hold. */
  lemma SettingAFilterActivates(f: HistoryFilters, field: FilterField, value: String)
    requires value != "" && value != "all"
    ensures HasActiveFilters(ChangeFilter(f, field, value))
  {
    var g := ChangeFilter(f, field, value);
    var values := [g.search, g.status, g.dateRange, g.category, g.company];
    var i := match field
      case SearchField => 0
      case StatusField => 1
      case DateRangeField => 2
      case CategoryField => 3
      case CompanyField => 4;
    assert values[i] == value;
  }

  /** A filter bar that looks inactive hides nothing, provided the selects hold
      non-empty values and the text boxes do not hold the word "all". */
  lemma InactiveFiltersShowAll(f: HistoryFilters, now: int, a: Application)
    requires !HasActiveFilters(f)
    requires f.status != "" && f.dateRange != "" && f.category != ""
    requires f.search != "all" && f.company != "all"
    ensures Shown(f, now, a)
  {
    var values := [f.search, f.status, f.dateRange, f.category, f.company];
    assert values[0] == f.search && values[1] == f.status && values[2] == f.dateRange;
    assert values[3] == f.category && values[4] == f.company;
  }

  /** Typing "all" into the search box filters the list but does not count
      as an active filter. */
  lemma SearchForAllLooksInactive()
    ensures !HasActiveFilters(ChangeFilter(DefaultHistoryFilters, SearchField, "all"))
  {
    var f := ChangeFilter(DefaultHistoryFilters, SearchField, "all");
    var values := [f.search, f.status, f.dateRange, f.category, f.company];
    assert forall i | 0 <= i < 5 :: values[i] == "" || values[i] == "all";
  }
}
