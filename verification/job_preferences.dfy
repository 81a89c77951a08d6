/** The profile's job-preferences card: multi-select lists, salary
    expectations and single choices, edited on a copy that is handed up on
    save and thrown away on cancel. */
module JobPreferences {

  import opened Opt
  import opened Text
  import opened TagLists

  /** A salary bound: the number it starts as, or the text the number box
      stores once it has been typed into. */
  datatype Amount = Number(n: int) | Typed(text: String)

  datatype SalaryExpectation = SalaryExpectation(min: Amount, max: Amount, currency: String)

  datatype Preferences = Preferences(
    targetRoles: seq<String>,
    salary: SalaryExpectation,
    locations: seq<String>,
    workArrangement: String,
    experienceLevel: String,
    availability: String,
    companySizes: seq<String>,
    industries: seq<String>)

  datatype MultiList = TargetRoles | Locations | CompanySizes | Industries

  const TargetRoleOptions: seq<String> := [
    "Frontend Developer", "Backend Developer", "Full Stack Developer", "Web Developer",
    "Software Engineer", "AI/ML Engineer", "Data Scientist", "DevOps Engineer",
    "Mobile Developer", "UI/UX Designer"]

  const LocationOptions: seq<String> := [
    "New York, NY", "San Francisco, CA", "Austin, TX", "Seattle, WA",
    "Boston, MA", "Remote", "Flexible"]

  const CompanySizeOptions: seq<String> := [
    "Startup (1-50 employees)", "Small (51-200 employees)",
    "Medium (201-1000 employees)", "Large (1000+ employees)"]

  const IndustryOptions: seq<String> := [
    "Technology", "Finance", "Healthcare", "E-commerce", "Education",
    "Gaming", "Media & Entertainment", "Consulting", "Government", "Non-profit"]

  const Currencies: seq<String> := ["USD", "EUR", "GBP", "INR", "CAD", "AUD"]

  function OptionsOf(l: MultiList): seq<String> {
    match l
    case TargetRoles => TargetRoleOptions
    case Locations => LocationOptions
    case CompanySizes => CompanySizeOptions
    case Industries => IndustryOptions
  }

  function Selected(p: Preferences, l: MultiList): seq<String> {
    match l
    case TargetRoles => p.targetRoles
    case Locations => p.locations
    case CompanySizes => p.companySizes
    case Industries => p.industries
  }

  function WithSelected(p: Preferences, l: MultiList, xs: seq<String>): (r: Preferences)
    ensures Selected(r, l) == xs
    ensures forall m | m != l :: Selected(r, m) == Selected(p, m)
    ensures r.salary == p.salary && r.workArrangement == p.workArrangement
    ensures r.experienceLevel == p.experienceLevel && r.availability == p.availability
  {
    match l
    case TargetRoles => p.(targetRoles := xs)
    case Locations => p.(locations := xs)
    case CompanySizes => p.(companySizes := xs)
    case Industries => p.(industries := xs)
  }

  /** The multi-select's button text: the count once anything is selected,
      the placeholder before. */
  function MultiSelectLabel(selected: seq<String>, placeholder: String): (r: String)
    ensures selected == [] ==> r == placeholder
    ensures selected != [] ==> |r| > 9 && r[|r| - 9..] == " selected"
    ensures selected != [] ==> ParseLeadingNat(r) == Some(|selected|)
  {
    DigitsValueOfNatToString(|selected|);
    LeadingDigitsOfConcat(NatToString(|selected|), " selected");
    if |selected| > 0 then NatToString(|selected|) + " selected" else placeholder
  }

  /** The controls of the card; none of them is usable outside editing. */
  datatype PreferenceEdit =
    | ToggleOption(list: MultiList, option: String)
    | SetSalaryMin(minText: String)
    | SetSalaryMax(maxText: String)
    | SetCurrency(currency: String)
    | SetWorkArrangement(arrangement: String)
    | SetExperienceLevel(level: String)
    | SetAvailability(availability: String)

  datatype Card = Card(isEditing: bool, edited: Preferences)

  /** One control used while editing: a checkbox toggles its option in its
      list (removed when present, appended when absent); the salary boxes
      store their text. Outside editing nothing changes. */
  function ApplyEdit(c: Card, e: PreferenceEdit): (r: Card)
    ensures !c.isEditing ==> r == c
    ensures r.isEditing == c.isEditing
    ensures c.isEditing && e.ToggleOption? ==>
      (e.option in Selected(r.edited, e.list) <==> e.option !in Selected(c.edited, e.list))
      && (forall y | y != e.option :: y in Selected(r.edited, e.list) <==> y in Selected(c.edited, e.list))
      && (forall m | m != e.list :: Selected(r.edited, m) == Selected(c.edited, m))
    ensures c.isEditing && e.ToggleOption? ==>
      (e.option !in Selected(c.edited, e.list) ==> Selected(r.edited, e.list) == Selected(c.edited, e.list) + [e.option])
      && RemoveAll(Selected(r.edited, e.list), e.option) == RemoveAll(Selected(c.edited, e.list), e.option)
    ensures c.isEditing && e.ToggleOption? ==>
      r.edited.salary == c.edited.salary && r.edited.workArrangement == c.edited.workArrangement
      && r.edited.experienceLevel == c.edited.experienceLevel && r.edited.availability == c.edited.availability
    ensures c.isEditing && e.SetSalaryMin? ==> r.edited == c.edited.(salary := c.edited.salary.(min := Typed(e.minText)))
    ensures c.isEditing && e.SetSalaryMax? ==> r.edited == c.edited.(salary := c.edited.salary.(max := Typed(e.maxText)))
    ensures c.isEditing && e.SetCurrency? ==> r.edited == c.edited.(salary := c.edited.salary.(currency := e.currency))
    ensures c.isEditing && e.SetWorkArrangement? ==> r.edited == c.edited.(workArrangement := e.arrangement)
    ensures c.isEditing && e.SetExperienceLevel? ==> r.edited == c.edited.(experienceLevel := e.level)
    ensures c.isEditing && e.SetAvailability? ==> r.edited == c.edited.(availability := e.availability)
  {
    if !c.isEditing then c
    else
      var p := c.edited;
      var p' := match e
        case ToggleOption(l, option) =>
          (ToggleKeepsOthers(Selected(p, l), option);
           WithSelected(p, l, Toggle(Selected(p, l), option)))
        case SetSalaryMin(t) => p.(salary := p.salary.(min := Typed(t)))
        case SetSalaryMax(t) => p.(salary := p.salary.(max := Typed(t)))
        case SetCurrency(cur) => p.(salary := p.salary.(currency := cur))
        case SetWorkArrangement(v) => p.(workArrangement := v)
        case SetExperienceLevel(v) => p.(experienceLevel := v)
        case SetAvailability(v) => p.(availability := v);
      Card(true, p')
  }

  /** `handleSave`: the copy is handed up and editing ends. */
  function Save(c: Card): (r: (Card, Preferences))
    ensures r.1 == c.edited && r.0 == Card(false, c.edited)
  {
    (c.(isEditing := false), c.edited)
  }

  /** `handleCancel`: the copy goes back to the saved preferences. */
  function Cancel(c: Card, saved: Preferences): (r: Card)
    ensures r == Card(false, saved)
  {
    Card(false, saved)
  }

  /** An edit made before a cancel is not handed up by the next save. */
  lemma CancelDiscardsEdits(c: Card, e: PreferenceEdit, saved: Preferences)
    ensures Save(Cancel(ApplyEdit(c, e), saved)).1 == saved
  {}

  /** Ticking an unticked option twice gives the preferences back. */
  lemma ToggleOptionTwice(c: Card, l: MultiList, option: String)
    requires c.isEditing && option !in Selected(c.edited, l)
    ensures ApplyEdit(ApplyEdit(c, ToggleOption(l, option)), ToggleOption(l, option)) == c
  {
    ToggleTwiceRestores(Selected(c.edited, l), option);
    var p := c.edited;
    var q := ApplyEdit(ApplyEdit(c, ToggleOption(l, option)), ToggleOption(l, option)).edited;
    assert Selected(q, l) == Selected(p, l);
    assert forall m :: Selected(q, m) == Selected(p, m);
    assert q.targetRoles == Selected(q, TargetRoles) && q.locations == Selected(q, Locations);
    assert q.companySizes == Selected(q, CompanySizes) && q.industries == Selected(q, Industries);
  }

  /** A list picked from its options stays within them, whatever is ticked. */
  lemma ToggleStaysWithinOptions(c: Card, l: MultiList, i: nat)
    requires c.isEditing && i < |OptionsOf(l)|
    requires forall y | y in Selected(c.edited, l) :: y in OptionsOf(l)
    ensures forall y | y in Selected(ApplyEdit(c, ToggleOption(l, OptionsOf(l)[i])).edited, l) :: y in OptionsOf(l)
  {}

  /** Ticking keeps a duplicate-free list duplicate-free. */
  lemma ToggleKeepsDuplicateFree(c: Card, l: MultiList, option: String)
    requires c.isEditing && NoDuplicates(Selected(c.edited, l))
    ensures NoDuplicates(Selected(ApplyEdit(c, ToggleOption(l, option)).edited, l))
  {
    EditsKeepNoDuplicates(Selected(c.edited, l), option);
  }

  /** A typed salary is kept as text, so the read-only view shows exactly what
      was typed rather than a formatted number. */
  lemma TypedSalaryKeptAsText(c: Card, t: String)
    requires c.isEditing
    ensures var r := Save(ApplyEdit(c, SetSalaryMin(t))).1;
            r.salary.min.Typed? && r.salary.min.text == t
  {}
}
