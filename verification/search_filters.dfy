/** The list editors of the job-search configuration: advanced filters
    (keywords, companies, platforms and more), locations, job categories and
    experience levels. */
module SearchFilters {

  import opened Opt
  import opened Text
  import opened TagLists

  // ---------------------------------------------------------------------------
  // Advanced filters: eight lists of strings

  datatype ListName =
    | Keywords | ExcludeKeywords | CompanyBlacklist | CompanyWhitelist
    | Platforms | CompanySize | JobType | Benefits

  datatype AdvancedFilters = AdvancedFilters(
    keywords: seq<String>,
    excludeKeywords: seq<String>,
    companyBlacklist: seq<String>,
    companyWhitelist: seq<String>,
    platforms: seq<String>,
    companySize: seq<String>,
    jobType: seq<String>,
    benefits: seq<String>)

  const InitialFilters := AdvancedFilters(
    ["React", "JavaScript", "Node.js"],
    ["Senior", "Lead", "Manager"],
    ["Company A", "Company B"],
    ["Google", "Microsoft", "Apple"],
    ["linkedin", "indeed", "glassdoor"],
    ["startup", "medium", "large"],
    ["full-time", "contract"],
    ["health-insurance", "remote-work", "flexible-hours"])

  function Get(f: AdvancedFilters, n: ListName): seq<String> {
    match n
    case Keywords => f.keywords
    case ExcludeKeywords => f.excludeKeywords
    case CompanyBlacklist => f.companyBlacklist
    case CompanyWhitelist => f.companyWhitelist
    case Platforms => f.platforms
    case CompanySize => f.companySize
    case JobType => f.jobType
    case Benefits => f.benefits
  }

  /** `{ ...filters, [n]: xs }`: the named list replaced, every other kept. */
  function With(f: AdvancedFilters, n: ListName, xs: seq<String>): (r: AdvancedFilters)
    ensures Get(r, n) == xs
    ensures forall m | m != n :: Get(r, m) == Get(f, m)
  {
    match n
    case Keywords => f.(keywords := xs)
    case ExcludeKeywords => f.(excludeKeywords := xs)
    case CompanyBlacklist => f.(companyBlacklist := xs)
    case CompanyWhitelist => f.(companyWhitelist := xs)
    case Platforms => f.(platforms := xs)
    case CompanySize => f.(companySize := xs)
    case JobType => f.(jobType := xs)
    case Benefits => f.(benefits := xs)
  }

  /** Two filter values agreeing on every list are the same. */
  lemma FiltersExtensional(f: AdvancedFilters, g: AdvancedFilters)
    requires forall n :: Get(f, n) == Get(g, n)
    ensures f == g
  {
    assert Get(f, Keywords) == Get(g, Keywords) && Get(f, ExcludeKeywords) == Get(g, ExcludeKeywords);
    assert Get(f, CompanyBlacklist) == Get(g, CompanyBlacklist) && Get(f, CompanyWhitelist) == Get(g, CompanyWhitelist);
    assert Get(f, Platforms) == Get(g, Platforms) && Get(f, CompanySize) == Get(g, CompanySize);
    assert Get(f, JobType) == Get(g, JobType) && Get(f, Benefits) == Get(g, Benefits);
  }

  /** `addItem`: appends a non-empty item not yet in the list, and reports
      whether the filters changed (only then are they passed on). The item is
      not trimmed. */
  function AddItem(f: AdvancedFilters, n: ListName, item: String): (r: (AdvancedFilters, bool))
    ensures r.1 <==> item != [] && item !in Get(f, n)
    ensures r.1 ==> Get(r.0, n) == Get(f, n) + [item]
    ensures !r.1 ==> r.0 == f
    ensures forall m | m != n :: Get(r.0, m) == Get(f, m)
  {
    if item != [] && item !in Get(f, n) then (With(f, n, Get(f, n) + [item]), true) else (f, false)
  }

  /** `removeItem`: every copy of the item leaves the named list. */
  function RemoveItem(f: AdvancedFilters, n: ListName, item: String): (r: AdvancedFilters)
    ensures item !in Get(r, n)
    ensures forall y | y != item :: y in Get(r, n) <==> y in Get(f, n)
    ensures forall m | m != n :: Get(r, m) == Get(f, m)
  {
    With(f, n, RemoveAll(Get(f, n), item))
  }

  /** `toggleItem`: removes a present item, appends an absent one. */
  function ToggleItem(f: AdvancedFilters, n: ListName, item: String): (r: AdvancedFilters)
    ensures item in Get(r, n) <==> item !in Get(f, n)
    ensures forall y | y != item :: y in Get(r, n) <==> y in Get(f, n)
    ensures item !in Get(f, n) ==> Get(r, n) == Get(f, n) + [item]
    ensures RemoveAll(Get(r, n), item) == RemoveAll(Get(f, n), item)
    ensures forall m | m != n :: Get(r, m) == Get(f, m)
  {
    ToggleKeepsOthers(Get(f, n), item);
    With(f, n, Toggle(Get(f, n), item))
  }

  /** Toggling an absent item twice gives the filters back. */
  lemma ToggleItemTwice(f: AdvancedFilters, n: ListName, item: String)
    requires item !in Get(f, n)
    ensures ToggleItem(ToggleItem(f, n, item), n, item) == f
  {
    ToggleTwiceRestores(Get(f, n), item);
    var g := ToggleItem(ToggleItem(f, n, item), n, item);
    FiltersExtensional(g, f);
  }

  /** Adding and then removing a new item gives the filters back. */
  lemma AddThenRemove(f: AdvancedFilters, n: ListName, item: String)
    requires item != [] && item !in Get(f, n)
    ensures RemoveItem(AddItem(f, n, item).0, n, item) == f
  {
    RemoveAllAppend(Get(f, n), [item], item);
    assert RemoveAll([item], item) == [];
    FiltersExtensional(RemoveItem(AddItem(f, n, item).0, n, item), f);
  }

  /** None of the three edits puts a duplicate into a duplicate-free list. */
  lemma EditsKeepListsDuplicateFree(f: AdvancedFilters, n: ListName, item: String)
    requires NoDuplicates(Get(f, n))
    ensures NoDuplicates(Get(AddItem(f, n, item).0, n))
    ensures NoDuplicates(Get(RemoveItem(f, n, item), n))
    ensures NoDuplicates(Get(ToggleItem(f, n, item), n))
  {
    EditsKeepNoDuplicates(Get(f, n), item);
    if item != [] && item !in Get(f, n) {
      NoDuplicatesAppend(Get(f, n), item);
    }
  }

  /** The Enter key adds without the button's blank check: a string of spaces
      is added. */
  lemma EnterAddsBlankKeyword(f: AdvancedFilters)
    requires " " !in f.keywords
    ensures AddItem(f, Keywords, " ").1 && IsBlank(" ")
  {}

  // ---------------------------------------------------------------------------
  // Locations

  datatype SearchType = Remote | Onsite | Hybrid | AllTypes

  datatype LocationSettings = LocationSettings(
    searchType: SearchType,
    locations: seq<String>,
    radius: int,
    remoteOnly: bool,
    hybridAcceptable: bool)

  const InitialLocations := LocationSettings(Remote, ["San Francisco, CA", "New York, NY"], 25, true, true)

  function SetSearchType(s: LocationSettings, t: SearchType): (r: LocationSettings)
    ensures r.searchType == t && r.(searchType := s.searchType) == s
  {
    s.(searchType := t)
  }

  /** The radius slider, its value already read as a number. */
  function SetRadius(s: LocationSettings, radius: int): (r: LocationSettings)
    ensures r.radius == radius && r.(radius := s.radius) == s
  {
    s.(radius := radius)
  }

  /** The location form: settings and the text being typed. */
  datatype LocationForm = LocationForm(settings: LocationSettings, input: String)

  /** `addLocation`: a non-empty new location is appended and the text box
      cleared; otherwise nothing changes. */
  function AddLocation(form: LocationForm, location: String): (r: LocationForm)
    ensures location != [] && location !in form.settings.locations ==>
      r.settings.locations == form.settings.locations + [location] && r.input == []
    ensures location == [] || location in form.settings.locations ==> r == form
    ensures r.settings.(locations := form.settings.locations) == form.settings
  {
    if location != [] && location !in form.settings.locations then
      LocationForm(form.settings.(locations := form.settings.locations + [location]), [])
    else form
  }

  /** `removeLocation`: every equal entry is removed. */
  function RemoveLocation(s: LocationSettings, location: String): (r: LocationSettings)
    ensures location !in r.locations
    ensures forall y | y != location :: y in r.locations <==> y in s.locations
    ensures r.(locations := s.locations) == s
  {
    s.(locations := RemoveAll(s.locations, location))
  }

  const PopularLocations: seq<String> := [
    "San Francisco, CA", "New York, NY", "Seattle, WA", "Austin, TX",
    "Boston, MA", "Los Angeles, CA", "Chicago, IL", "Denver, CO"]

  /** A popular-location button is disabled when the location is listed. */
  predicate PopularDisabled(s: LocationSettings, location: String) {
    location in s.locations
  }

  /** Exactly the enabled popular-location buttons change the list. */
  lemma PopularButtonsMatchAdd(form: LocationForm, i: nat)
    requires i < |PopularLocations|
    ensures PopularDisabled(form.settings, PopularLocations[i])
        <==> AddLocation(form, PopularLocations[i]) == form
  {
    var loc := PopularLocations[i];
    assert loc != [];
    if !PopularDisabled(form.settings, loc) {
      assert |AddLocation(form, loc).settings.locations| == |form.settings.locations| + 1;
    }
  }

  // ---------------------------------------------------------------------------
  // Job categories

  const CategoryIds: seq<String> := [
    "web-developer-intern", "full-stack-intern", "full-stack-developer",
    "web-developer", "ai-intern", "ai-developer"]

  const InitialCategories: seq<String> := ["web-developer-intern", "full-stack-developer"]

  function ToggleCategory(selected: seq<String>, id: String): (r: seq<String>)
    ensures id in r <==> id !in selected
    ensures forall y | y != id :: y in r <==> y in selected
    ensures id !in selected ==> r == selected + [id]
    ensures RemoveAll(r, id) == RemoveAll(selected, id)
  {
    ToggleKeepsOthers(selected, id);
    Toggle(selected, id)
  }

  /** Ticking an unselected category and unticking it gives the selection back. */
  lemma ToggleCategoryTwice(selected: seq<String>, id: String)
    requires id !in selected
    ensures ToggleCategory(ToggleCategory(selected, id), id) == selected
  {
    ToggleTwiceRestores(selected, id);
  }

  /** "Select all": every category, in the order they are listed. */
  function SelectAllCategories(): (r: seq<String>)
    ensures |r| == 6 && NoDuplicates(r)
    ensures forall id :: id in r <==> id in CategoryIds
  {
    CategoryIds
  }

  function ClearAllCategories(): (r: seq<String>)
    ensures |r| == 0
  {
    []
  }

  /** The header's "<n> selected": the text reads back as the number of
      selected categories, followed by the word. */
  function SelectedLabel(selected: seq<String>): (r: String)
    ensures |r| > 9 && r[|r| - 9..] == " selected"
    ensures ParseLeadingNat(r) == Some(|selected|)
  {
    DigitsValueOfNatToString(|selected|);
    LeadingDigitsOfConcat(NatToString(|selected|), " selected");
    NatToString(|selected|) + " selected"
  }

  /** Toggling every unselected category after clearing selects them all,
      and the count then reads 6. */
  lemma CategoryTogglesFromEmpty(id: String)
    requires id in CategoryIds
    ensures ToggleCategory(ClearAllCategories(), id) == [id]
    ensures ToggleCategory(ToggleCategory(ClearAllCategories(), id), id) == []
    ensures SelectedLabel(SelectAllCategories()) == "6 selected"
  {
    assert NatToString(6) == "6";
  }

  // ---------------------------------------------------------------------------
  // Experience levels

  const ExperienceIds: seq<String> := ["internship", "entry-level", "junior", "no-experience"]
  const InitialExperience: seq<String> := ["entry-level", "internship"]

  function ToggleExperience(selected: seq<String>, id: String): (r: seq<String>)
    ensures id in r <==> id !in selected
    ensures id !in selected ==> r == selected + [id]
    ensures RemoveAll(r, id) == RemoveAll(selected, id)
  {
    ToggleKeepsOthers(selected, id);
    Toggle(selected, id)
  }

  /** The "Recommended" badge. */
  predicate Recommended(id: String) {
    id == "entry-level" || id == "internship"
  }

  /** The recommended levels are exactly the ones selected at first. */
  lemma RecommendedAreInitial(id: String)
    requires id in ExperienceIds
    ensures Recommended(id) <==> id in InitialExperience
  {}
}
