/** The application-templates page: the template list, the filter-and-sort
    query that produces the visible list, the list operations (duplicate,
    delete, save), the filter bar's state, and the statistics cards. */
module Templates {

  import opened Opt
  import opened Text
  import opened Seqs
  import opened Numbers
  import opened Sorting

  datatype TemplateType = CoverLetter | Resume

  /** One template. Timestamps are milliseconds; `createdAt` is only set on
      templates created in the editor. */
  datatype Template = Template(
    id: int,
    name: String,
    kind: TemplateType,
    content: String,
    preview: String,
    jobTypes: seq<String>,
    lastModified: int,
    usageCount: int,
    responseRate: int,
    isDefault: bool,
    createdAt: Option<int>)

  // ---------------------------------------------------------------------------
  // The query: search, type, job type, performance and usage filters, then sort

  datatype TypeFilter = AllTypes | OnlyType(kind: TemplateType)
  datatype JobTypeFilter = AllJobTypes | OnlyJobType(jobType: String)

  /** Performance buckets. `AnyPerformance` stands for 'all', for an unset value
      and for any value the filter does not recognise: none of them filters. */
  datatype Performance = AnyPerformance | High | Medium | Low | NeverUsedPerformance
  datatype Usage = AnyUsage | FrequentlyUsed | OccasionallyUsed | NeverUsed | DefaultOnly

  datatype SortField = ByName | ByUsageCount | ByResponseRate | ByLastModified

  datatype TemplateQuery = TemplateQuery(
    search: String,
    typeFilter: TypeFilter,
    jobType: JobTypeFilter,
    performance: Performance,
    usage: Usage,
    sortBy: SortField,
    sortOrder: Direction)

  /** The page's initial query and the filter bar's reset value. */
  const DefaultQuery := TemplateQuery("", AllTypes, AllJobTypes, AnyPerformance, AnyUsage, ByLastModified, Desc)

  predicate MatchesSearch(t: Template, search: String) {
    search == []
    || Contains(Lower(t.name), Lower(search))
    || Contains(Lower(t.content), Lower(search))
  }

  predicate MatchesType(t: Template, f: TypeFilter) {
    f.AllTypes? || t.kind == f.kind
  }

  predicate MatchesJobType(t: Template, f: JobTypeFilter) {
    f.AllJobTypes? || f.jobType in t.jobTypes
  }

  predicate MatchesPerformance(t: Template, p: Performance) {
    match p
    case AnyPerformance => true
    case High => t.responseRate > 20
    case Medium => 10 <= t.responseRate <= 20
    case Low => t.responseRate < 10
    case NeverUsedPerformance => t.usageCount == 0
  }

  predicate MatchesUsage(t: Template, u: Usage) {
    match u
    case AnyUsage => true
    case FrequentlyUsed => t.usageCount > 10
    case OccasionallyUsed => 1 <= t.usageCount <= 10
    case NeverUsed => t.usageCount == 0
    case DefaultOnly => t.isDefault
  }

  /** A template is shown exactly when it passes every filter of the query. */
  predicate Visible(q: TemplateQuery, t: Template) {
    && MatchesSearch(t, q.search)
    && MatchesType(t, q.typeFilter)
    && MatchesJobType(t, q.jobType)
    && MatchesPerformance(t, q.performance)
    && MatchesUsage(t, q.usage)
  }

  /** The comparator's key: lower-cased name, usage count, response rate, or
      modification time. */
  function SortKey(field: SortField): Template -> Key {
    match field
    case ByName => (t: Template) => Str(Lower(t.name))
    case ByUsageCount => (t: Template) => Num(t.usageCount)
    case ByResponseRate => (t: Template) => Num(t.responseRate)
    case ByLastModified => (t: Template) => Num(t.lastModified)
  }

  // Each filter of the page as a predicate value.
  function BySearch(q: TemplateQuery): Template -> bool { (t: Template) => MatchesSearch(t, q.search) }
  function ByType(q: TemplateQuery): Template -> bool { (t: Template) => MatchesType(t, q.typeFilter) }
  function ByJobType(q: TemplateQuery): Template -> bool { (t: Template) => MatchesJobType(t, q.jobType) }
  function ByPerformance(q: TemplateQuery): Template -> bool { (t: Template) => MatchesPerformance(t, q.performance) }
  function ByUsage(q: TemplateQuery): Template -> bool { (t: Template) => MatchesUsage(t, q.usage) }
  function ByVisible(q: TemplateQuery): Template -> bool { (t: Template) => Visible(q, t) }

  /** The filters one after the other, in the page's order. */
  function FilterInStages(ts: seq<Template>, q: TemplateQuery): seq<Template> {
    Filter(Filter(Filter(Filter(Filter(ts, BySearch(q)), ByType(q)), ByJobType(q)), ByPerformance(q)), ByUsage(q))
  }

  /** The visible list: the filtered templates, stably sorted. */
  function Query(ts: seq<Template>, q: TemplateQuery): (r: seq<Template>)
    ensures multiset(r) == multiset(FilterInStages(ts, q))
    ensures Sorted(r, SortKey(q.sortBy), q.sortOrder)
  {
    SortBy(FilterInStages(ts, q), SortKey(q.sortBy), q.sortOrder)
  }

  /** Running the filters in stages is the same as filtering once by `Visible`. */
  lemma StagesAreConjunction(ts: seq<Template>, q: TemplateQuery)
    ensures FilterInStages(ts, q) == Filter(ts, ByVisible(q))
  {
    var p12 := (t: Template) => MatchesSearch(t, q.search) && MatchesType(t, q.typeFilter);
    var p123 := (t: Template) => p12(t) && MatchesJobType(t, q.jobType);
    var p1234 := (t: Template) => p123(t) && MatchesPerformance(t, q.performance);
    var f12 := Filter(ts, p12);
    FilterFilter(ts, BySearch(q), ByType(q), p12);
    var f123 := Filter(ts, p123);
    FilterFilter(ts, p12, ByJobType(q), p123);
    var f1234 := Filter(ts, p1234);
    FilterFilter(ts, p123, ByPerformance(q), p1234);
    FilterFilter(ts, p1234, ByUsage(q), ByVisible(q));
  }

  /** What the page shows: exactly the templates passing every filter, each as
      often as in the list, in comparator order. */
  lemma QueryShowsVisible(ts: seq<Template>, q: TemplateQuery)
    ensures multiset(Query(ts, q)) == multiset(Filter(ts, ByVisible(q)))
    ensures forall t | t in Query(ts, q) :: t in ts && Visible(q, t)
    ensures forall t | t in ts && Visible(q, t) :: t in Query(ts, q)
  {
    StagesAreConjunction(ts, q);
    var r := Query(ts, q);
    var f := Filter(ts, ByVisible(q));
    forall t | t in r ensures t in ts && Visible(q, t) {
      assert t in multiset(r);
      assert t in multiset(f);
    }
    forall t | t in ts && Visible(q, t) ensures t in r {
      assert t in multiset(f);
      assert t in multiset(r);
    }
  }

  /** Templates with the same sort key keep their list order. */
  lemma QueryStable(ts: seq<Template>, q: TemplateQuery, k: Key)
    ensures Filter(Query(ts, q), (t: Template) => SortKey(q.sortBy)(t) == k)
         == Filter(Filter(ts, ByVisible(q)), (t: Template) => SortKey(q.sortBy)(t) == k)
  {
    StagesAreConjunction(ts, q);
    SortStable(FilterInStages(ts, q), SortKey(q.sortBy), q.sortOrder, k, (t: Template) => SortKey(q.sortBy)(t) == k);
  }

  /** The default query hides nothing. */
  lemma DefaultQueryShowsAll(t: Template)
    ensures Visible(DefaultQuery, t)
  {
    assert Lower("") == "";
  }

  /** The three performance buckets split the templates: each template is in
      exactly one of them. */
  lemma PerformanceBucketsPartition(t: Template)
    ensures MatchesPerformance(t, High) || MatchesPerformance(t, Medium) || MatchesPerformance(t, Low)
    ensures !(MatchesPerformance(t, High) && MatchesPerformance(t, Medium))
    ensures !(MatchesPerformance(t, High) && MatchesPerformance(t, Low))
    ensures !(MatchesPerformance(t, Medium) && MatchesPerformance(t, Low))
  {}

  /** The three usage buckets split the templates with a non-negative usage
      count, and "never used" is the same filter under performance and usage. */
  lemma UsageBucketsPartition(t: Template)
    requires t.usageCount >= 0
    ensures MatchesUsage(t, FrequentlyUsed) || MatchesUsage(t, OccasionallyUsed) || MatchesUsage(t, NeverUsed)
    ensures !(MatchesUsage(t, FrequentlyUsed) && MatchesUsage(t, OccasionallyUsed))
    ensures !(MatchesUsage(t, FrequentlyUsed) && MatchesUsage(t, NeverUsed))
    ensures !(MatchesUsage(t, OccasionallyUsed) && MatchesUsage(t, NeverUsed))
    ensures MatchesUsage(t, NeverUsed) == MatchesPerformance(t, NeverUsedPerformance)
  {}

  // ---------------------------------------------------------------------------
  // List operations

  function Ids(ts: seq<Template>): seq<int> {
    Map(ts, (t: Template) => t.id)
  }

  /** The copy made by "duplicate": a fresh id and time, " (Copy)" after the
      name, no usage, no response rate, never the default. */
  function Duplicate(ts: seq<Template>, t: Template, newId: int, now: int): (r: seq<Template>)
    ensures |r| == |ts| + 1 && r[1..] == ts
    ensures r[0].id == newId && r[0].name == t.name + " (Copy)" && r[0].lastModified == now
    ensures r[0].usageCount == 0 && r[0].responseRate == 0 && !r[0].isDefault
    ensures r[0].content == t.content && r[0].kind == t.kind && r[0].jobTypes == t.jobTypes
  {
    var copy := t.(id := newId, name := t.name + " (Copy)", lastModified := now,
                   usageCount := 0, responseRate := 0, isDefault := false);
    [copy] + ts
  }

  /** Deleting a template removes every template with its id and nothing else,
      keeping the order of the rest. */
  function Delete(ts: seq<Template>, id: int): (r: seq<Template>)
    ensures forall t | t in r :: t.id != id
    ensures forall t | t in ts :: t in r <==> t.id != id
    ensures IsSubseq(r, ts)
  {
    Filter(ts, (t: Template) => t.id != id)
  }

  /** The preview text stored with a saved template: the first 150 characters
      of the content followed by "...". */
  function PreviewOf(content: String): (r: String)
    ensures 3 <= |r| <= 153 && r[|r| - 3..] == "..."
    ensures |content| <= 150 ==> r == content + "..."
    ensures |content| > 150 ==> |r| == 153 && r[..150] == content[..150]
  {
    (if |content| <= 150 then content else content[..150]) + "..."
  }

  /** The fields the editor's form holds. */
  datatype TemplateForm = TemplateForm(
    name: String,
    kind: TemplateType,
    content: String,
    jobTypes: seq<String>,
    isDefault: bool)

  /** The record the editor saves on top of an existing template: the form's
      fields over the template's, the modification time and a fresh preview;
      id, usage, response rate and creation time are kept. */
  function ApplyForm(base: Template, form: TemplateForm, now: int): (r: Template)
    ensures r.id == base.id && r.usageCount == base.usageCount
    ensures r.responseRate == base.responseRate && r.createdAt == base.createdAt
    ensures r.name == form.name && r.kind == form.kind && r.content == form.content
    ensures r.jobTypes == form.jobTypes && r.isDefault == form.isDefault
    ensures r.lastModified == now && r.preview == PreviewOf(form.content)
  {
    Template(base.id, form.name, form.kind, form.content, PreviewOf(form.content),
             form.jobTypes, now, base.usageCount, base.responseRate, form.isDefault, base.createdAt)
  }

  /** A template created from the editor: fresh id, creation time, no usage. */
  function NewTemplate(form: TemplateForm, now: int, newId: int): (r: Template)
    ensures r.id == newId && r.usageCount == 0 && r.responseRate == 0
    ensures r.createdAt == Some(now) && r.lastModified == now
    ensures r.name == form.name && r.content == form.content && r.isDefault == form.isDefault
  {
    Template(newId, form.name, form.kind, form.content, PreviewOf(form.content),
             form.jobTypes, now, 0, 0, form.isDefault, Some(now))
  }

  /** Saving from the editor: an edited template replaces every entry with its
      id in place; a new one is put first. */
  function SaveTemplate(ts: seq<Template>, selected: Option<Template>, form: TemplateForm,
                        now: int, newId: int): (r: seq<Template>)
    ensures selected.Some? ==> |r| == |ts|
    ensures selected.None? ==> |r| == |ts| + 1 && r[1..] == ts
  {
    match selected
    case Some(sel) =>
      Map(ts, (t: Template) => if t.id == sel.id then ApplyForm(sel, form, now) else t)
    case None =>
      [NewTemplate(form, now, newId)] + ts
  }

  /** An edit keeps the list of ids, and every template with another id. */
  lemma EditKeepsOthers(ts: seq<Template>, sel: Template, form: TemplateForm, now: int, newId: int)
    ensures Ids(SaveTemplate(ts, Some(sel), form, now, newId)) == Ids(ts)
    ensures forall i | 0 <= i < |ts| && ts[i].id != sel.id ::
              SaveTemplate(ts, Some(sel), form, now, newId)[i] == ts[i]
    ensures forall i | 0 <= i < |ts| && ts[i].id == sel.id ::
              SaveTemplate(ts, Some(sel), form, now, newId)[i].content == form.content
  {}

  /** Deleting a freshly created template gives the old list back. */
  lemma CreateThenDelete(ts: seq<Template>, form: TemplateForm, now: int, newId: int)
    requires newId !in Ids(ts)
    ensures Delete(SaveTemplate(ts, None, form, now, newId), newId) == ts
  {
    DeleteAbsent(ts, newId);
  }

  /** Deleting a fresh duplicate gives the old list back. */
  lemma DuplicateThenDelete(ts: seq<Template>, t: Template, now: int, newId: int)
    requires newId !in Ids(ts)
    ensures Delete(Duplicate(ts, t, newId, now), newId) == ts
  {
    DeleteAbsent(ts, newId);
    assert ([Duplicate(ts, t, newId, now)[0]] + ts)[1..] == ts;
  }

  lemma DeleteAbsent(ts: seq<Template>, id: int)
    requires id !in Ids(ts)
    ensures Delete(ts, id) == ts
  {
    forall t | t in ts ensures t.id != id {
      var i :| 0 <= i < |ts| && ts[i] == t;
      assert Ids(ts)[i] == t.id;
    }
    FilterAll(ts, (t: Template) => t.id != id);
  }

  // ---------------------------------------------------------------------------
  // The filter bar

  /** One control of the filter bar changed. */
  datatype FilterChange =
    | SetSearch(search: String)
    | SetType(typeFilter: TypeFilter)
    | SetJobType(jobType: JobTypeFilter)
    | SetPerformance(performance: Performance)
    | SetUsage(usage: Usage)

  /** `{ ...filters, [key]: value }`: the named filter takes the new value and
      nothing else changes. */
  function ChangeFilter(q: TemplateQuery, c: FilterChange): (r: TemplateQuery)
    ensures r.sortBy == q.sortBy && r.sortOrder == q.sortOrder
    ensures c.SetSearch? ==> r.search == c.search
    ensures !c.SetSearch? ==> r.search == q.search
    ensures c.SetType? ==> r.typeFilter == c.typeFilter
    ensures !c.SetType? ==> r.typeFilter == q.typeFilter
    ensures c.SetJobType? ==> r.jobType == c.jobType
    ensures !c.SetJobType? ==> r.jobType == q.jobType
    ensures c.SetPerformance? ==> r.performance == c.performance
    ensures !c.SetPerformance? ==> r.performance == q.performance
    ensures c.SetUsage? ==> r.usage == c.usage
    ensures !c.SetUsage? ==> r.usage == q.usage
  {
    match c
    case SetSearch(s) => q.(search := s)
    case SetType(f) => q.(typeFilter := f)
    case SetJobType(f) => q.(jobType := f)
    case SetPerformance(p) => q.(performance := p)
    case SetUsage(u) => q.(usage := u)
  }

  /** A sort change keeps every filter; the order defaults to the current one. */
  function ChangeSort(q: TemplateQuery, field: SortField, order: Option<Direction>): (r: TemplateQuery)
    ensures r.sortBy == field
    ensures order.Some? ==> r.sortOrder == order.value
    ensures order.None? ==> r.sortOrder == q.sortOrder
    ensures forall t :: Visible(r, t) == Visible(q, t)
  {
    q.(sortBy := field, sortOrder := order.GetOr(q.sortOrder))
  }

  /** The "Clear" button: everything back to the default, including the
      performance and usage filters and the sort. */
  function ClearFilters(): (r: TemplateQuery)
    ensures !HasActiveFilters(r)
  {
    DefaultQuery
  }

  /** Whether the "Clear" button and the "(filtered)" note show: only search,
      type and job type are looked at. */
  predicate HasActiveFilters(q: TemplateQuery) {
    q.search != [] || !q.typeFilter.AllTypes? || !q.jobType.AllJobTypes?
  }

  /** A non-empty search, or a type or job-type filter other than "all",
      shows the "Clear" button whatever else the query holds. */
  lemma TextFilterActivates(q: TemplateQuery, c: FilterChange)
    requires (c.SetSearch? && c.search != []) || (c.SetType? && !c.typeFilter.AllTypes?)
          || (c.SetJobType? && !c.jobType.AllJobTypes?)
    ensures HasActiveFilters(ChangeFilter(q, c))
  {}

  /** Setting the performance or usage filter alone never shows the "Clear"
      button, although it hides templates. */
  lemma PerformanceFilterNotActive(p: Performance)
    ensures !HasActiveFilters(ChangeFilter(DefaultQuery, SetPerformance(p)))
  {}

  /** Any query with no search, type or job-type filter looks inactive. */
  lemma InactiveMeansNoTextFilters(q: TemplateQuery, t: Template)
    requires !HasActiveFilters(q)
    ensures Visible(q, t) <==> MatchesPerformance(t, q.performance) && MatchesUsage(t, q.usage)
  {}

  // The sort drop-down encodes field and order as "<field>-<order>" and
  // decodes the option value with `split('-')`.

  function FieldName(f: SortField): String {
    match f
    case ByName => "name"
    case ByUsageCount => "usageCount"
    case ByResponseRate => "responseRate"
    case ByLastModified => "lastModified"
  }

  function OrderName(d: Direction): String {
    match d
    case Asc => "asc"
    case Desc => "desc"
  }

  function SortOptionValue(f: SortField, d: Direction): (r: String)
    ensures Contains(r, FieldName(f))
  {
    assert OccursAt(FieldName(f) + "-" + OrderName(d), FieldName(f), 0);
    FieldName(f) + "-" + OrderName(d)
  }

  /** The page's reading of a sort field name; anything unknown sorts by time. */
  function ParseField(s: String): SortField {
    if s == "name" then ByName
    else if s == "usageCount" then ByUsageCount
    else if s == "responseRate" then ByResponseRate
    else ByLastModified
  }

  /** The page's reading of an order: ascending only for "asc". */
  function ParseOrder(s: String): Direction {
    if s == "asc" then Asc else Desc
  }

  /** `const [sortBy, sortOrder] = value.split('-')`: the first piece names
      the field; a missing second piece leaves the order undefined, so the
      order is absent. */
  function ParseSortOption(value: String): (r: (SortField, Option<Direction>))
    ensures '-' !in value ==> r == (ParseField(value), None)
    ensures '-' in value ==> r.1.Some?
  {
    var parts := Split(value, '-');
    SplitWithoutSeparator(value, '-');
    SplitWithSeparator(value, '-');
    (ParseField(parts[0]), if |parts| > 1 then Some(ParseOrder(parts[1])) else None)
  }

  /** The drop-down's `onChange`: the decoded pair goes to `handleSortChange`,
      whose default parameter keeps the current order when none was decoded. */
  function SelectSortOption(q: TemplateQuery, value: String): (r: TemplateQuery)
    ensures r.sortBy == ParseSortOption(value).0
    ensures '-' !in value ==> r.sortOrder == q.sortOrder
    ensures forall t :: Visible(r, t) == Visible(q, t)
  {
    var (field, order) := ParseSortOption(value);
    ChangeSort(q, field, order)
  }

  /** Choosing any offered option sets exactly the field and order it shows. */
  lemma SelectOfferedOption(q: TemplateQuery, f: SortField, d: Direction)
    ensures var r := SelectSortOption(q, SortOptionValue(f, d)); r.sortBy == f && r.sortOrder == d
  {
    SortOptionRoundTrip(f, d);
  }

  lemma SplitWithoutSeparator(s: String, sep: char)
    ensures sep !in s ==> Split(s, sep) == [s]
  {
    if sep !in s {
      SplitNoSeparator(s, sep);
    }
  }

  /** Every option of the drop-down decodes to the field and order it encodes. */
  lemma SortOptionRoundTrip(f: SortField, d: Direction)
    ensures ParseSortOption(SortOptionValue(f, d)) == (f, Some(d))
  {
    var parts := [FieldName(f), OrderName(d)];
    NamesReadBack(f, d);
    assert SortOptionValue(f, d) == Join(parts, "-");
    SplitJoin(parts, '-');
  }

  /** The names hold no dash and each reads back as what it names. */
  lemma NamesReadBack(f: SortField, d: Direction)
    ensures '-' !in FieldName(f) && '-' !in OrderName(d)
    ensures ParseField(FieldName(f)) == f && ParseOrder(OrderName(d)) == d
  {}

  // ---------------------------------------------------------------------------
  // Statistics cards

  datatype TemplateStats = TemplateStats(
    total: nat,
    coverLetters: nat,
    resumes: nat,
    totalApplications: int,
    avgResponseRate: int,
    defaultTemplates: nat,
    highPerformers: nat)

  predicate IsCoverLetter(t: Template) { t.kind == CoverLetter }
  predicate IsResume(t: Template) { t.kind == Resume }
  predicate IsDefaultTemplate(t: Template) { t.isDefault }
  /** A high performer answers more than one application in five. */
  predicate IsHighPerformer(t: Template) { t.responseRate > 20 }
  function UsageOf(t: Template): int { t.usageCount }
  function RateOf(t: Template): int { t.responseRate }

  /** The statistics cards: counts of each kind, of defaults and of high
      performers, the applications sent with all templates, and the mean
      response rate rounded to a whole percentage (0 with no templates). */
  function Stats(ts: seq<Template>): (r: TemplateStats)
    ensures r.total == |ts|
    ensures r.coverLetters == |Filter(ts, IsCoverLetter)|
    ensures r.resumes == |Filter(ts, IsResume)|
    ensures r.totalApplications == Sum(ts, UsageOf)
    ensures ts == [] ==> r.avgResponseRate == 0
    ensures ts != [] ==> r.avgResponseRate == RoundDiv(Sum(ts, RateOf), |ts|)
    ensures r.defaultTemplates == |Filter(ts, IsDefaultTemplate)|
    ensures r.highPerformers == |Filter(ts, IsHighPerformer)|
  {
    TemplateStats(
      |ts|,
      Count(ts, IsCoverLetter),
      Count(ts, IsResume),
      Sum(ts, UsageOf),
      if |ts| > 0 then RoundDiv(Sum(ts, RateOf), |ts|) else 0,
      Count(ts, IsDefaultTemplate),
      Count(ts, IsHighPerformer))
  }

  /** Adding a template moves each card by that template's share alone: the
      accumulator step of the `reduce` calls and the `filter` counts. */
  lemma StatsAppend(ts: seq<Template>, t: Template)
    ensures Stats(ts + [t]).total == Stats(ts).total + 1
    ensures Stats(ts + [t]).totalApplications == Stats(ts).totalApplications + t.usageCount
    ensures Stats(ts + [t]).coverLetters == Stats(ts).coverLetters + (if IsCoverLetter(t) then 1 else 0)
    ensures Stats(ts + [t]).resumes == Stats(ts).resumes + (if IsResume(t) then 1 else 0)
    ensures Stats(ts + [t]).defaultTemplates == Stats(ts).defaultTemplates + (if t.isDefault then 1 else 0)
    ensures Stats(ts + [t]).highPerformers == Stats(ts).highPerformers + (if IsHighPerformer(t) then 1 else 0)
  {
    SumAppend(ts, t, UsageOf);
    FilterAppend(ts, [t], IsCoverLetter);
    FilterAppend(ts, [t], IsResume);
    FilterAppend(ts, [t], IsDefaultTemplate);
    FilterAppend(ts, [t], IsHighPerformer);
  }

  /** Cover letters and resumes together are all the templates, and the other
      counters never exceed the total. */
  lemma StatsCountsConsistent(ts: seq<Template>)
    ensures Stats(ts).coverLetters + Stats(ts).resumes == Stats(ts).total
    ensures Stats(ts).defaultTemplates <= Stats(ts).total
    ensures Stats(ts).highPerformers <= Stats(ts).total
  {
    CountComplement(ts, IsCoverLetter, IsResume);
  }

  /** With every response rate a percentage, the average is a percentage too,
      and with usage counts non-negative so is the application total. */
  lemma StatsAverageInRange(ts: seq<Template>)
    requires forall t | t in ts :: 0 <= t.responseRate <= 100 && t.usageCount >= 0
    ensures 0 <= Stats(ts).avgResponseRate <= 100
    ensures Stats(ts).totalApplications >= 0
  {
    SumNonNegative(ts, UsageOf);
    if |ts| > 0 {
      SumBounds(ts, RateOf, 0, 100);
      RoundDivBounds(Sum(ts, RateOf), |ts|, 0, 100);
    }
  }

  /** When every template has the same rate the average is that rate. */
  lemma StatsAverageOfEqualRates(ts: seq<Template>, rate: int)
    requires |ts| > 0 && forall t | t in ts :: t.responseRate == rate
    ensures Stats(ts).avgResponseRate == rate
  {
    SumBounds(ts, RateOf, rate, rate);
    RoundDivExact(rate, |ts|);
  }
}
