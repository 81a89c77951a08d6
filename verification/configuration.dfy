/** The job-search configuration page: sections replaced as the section
    components report them, a changes flag, save and reset; and the action
    bar's button rules and "last saved" text. */
module Configuration {

  import opened Opt
  import opened Text
  import opened Clock
  import opened I18n

  /** The page stores whatever object a section reports; it never looks
      inside, so a section is kept as a JavaScript-like value. */
  datatype Value =
    | TextValue(s: String)
    | NumberValue(n: int)
    | FlagValue(b: bool)
    | ListValue(items: seq<Value>)
    | ObjectValue(fields: seq<(String, Value)>)

  type Config = map<String, Value>

  function TextList(xs: seq<String>): (r: Value)
    ensures r.ListValue? && |r.items| == |xs|
  {
    ListValue(seq(|xs|, i requires 0 <= i < |xs| => TextValue(xs[i])))
  }

  /** The configuration the page starts with and resets to. */
  function InitialConfig(): (r: Config)
    ensures r.Keys == {"categories", "experience", "location", "salary", "schedule", "filters"}
  {
    map[
      "categories" := TextList(["web-developer-intern", "full-stack-developer"]),
      "experience" := TextList(["entry-level", "internship"]),
      "location" := ObjectValue([
        ("searchType", TextValue("remote")),
        ("locations", TextList(["San Francisco, CA", "New York, NY"])),
        ("radius", NumberValue(25))]),
      "salary" := ObjectValue([
        ("currency", TextValue("USD")),
        ("minSalary", NumberValue(45000)),
        ("maxSalary", NumberValue(85000)),
        ("salaryType", TextValue("annual"))]),
      "schedule" := ObjectValue([
        ("interval", TextValue("daily")),
        ("startTime", TextValue("09:00")),
        ("endTime", TextValue("17:00")),
        ("maxApplicationsPerDay", NumberValue(10))]),
      "filters" := ObjectValue([
        ("keywords", TextList(["React", "JavaScript", "Node.js"])),
        ("platforms", TextList(["linkedin", "indeed", "glassdoor"]))])
    ]
  }

  datatype Page = Page(config: Config, hasChanges: bool)

  function InitialPage(): Page { Page(InitialConfig(), false) }

  /** `handleConfigurationChange`: the section replaced, the others kept, and
      the page marked as changed. */
  function ChangeSection(p: Page, section: String, data: Value): (r: Page)
    ensures r.hasChanges
    ensures section in r.config && r.config[section] == data
    ensures r.config.Keys == p.config.Keys + {section}
    ensures forall k | k in p.config && k != section :: r.config[k] == p.config[k]
  {
    Page(p.config[section := data], true)
  }

  /** `handleSave`: the configuration kept, the changes flag cleared. */
  function SavePage(p: Page): (r: Page)
    ensures r.config == p.config && !r.hasChanges
  {
    p.(hasChanges := false)
  }

  /** `handleReset`: back to the initial page. */
  function ResetPage(p: Page): (r: Page)
    ensures r.config == InitialConfig() && !r.hasChanges
  {
    InitialPage()
  }

  /** Reporting a section's current value again still marks the page as
      changed, though nothing differs. */
  lemma SameValueStillChanges(p: Page, section: String)
    requires section in p.config
    ensures ChangeSection(p, section, p.config[section]).config == p.config
    ensures ChangeSection(p, section, p.config[section]).hasChanges
  {}

  /** Changing one section after another is changing them in either order
      when they are different sections. */
  lemma SectionChangesCommute(p: Page, s1: String, d1: Value, s2: String, d2: Value)
    requires s1 != s2
    ensures ChangeSection(ChangeSection(p, s1, d1), s2, d2) == ChangeSection(ChangeSection(p, s2, d2), s1, d1)
  {}

  // ---------------------------------------------------------------------------
  // The action bar

  datatype Actions = Actions(
    isSaving: bool,
    isPreviewing: bool,
    showResetConfirm: bool,
    lastSaved: Option<int>)

  const InitialActions := Actions(false, false, false, None)

  predicate SaveDisabled(a: Actions, hasChanges: bool) { a.isPreviewing || !hasChanges }
  predicate ResetDisabled(a: Actions) { a.isSaving || a.isPreviewing }
  predicate PreviewDisabled(a: Actions) { a.isSaving }

  /** The green "saved" panel. */
  predicate SuccessShown(a: Actions, hasChanges: bool) { a.lastSaved.Some? && !hasChanges }

  /** `handleSave` starts: while the save runs, neither reset nor preview can
      be pressed. */
  function StartSave(a: Actions): (r: Actions)
    ensures r.isSaving && ResetDisabled(r) && PreviewDisabled(r)
    ensures r.(isSaving := a.isSaving) == a
  {
    a.(isSaving := true)
  }

  /** `handlePreview` starts: while the preview runs, neither save nor reset
      can be pressed, with or without unsaved changes. */
  function StartPreview(a: Actions): (r: Actions)
    ensures r.isPreviewing && ResetDisabled(r)
    ensures SaveDisabled(r, true) && SaveDisabled(r, false)
    ensures r.(isPreviewing := a.isPreviewing) == a
  {
    a.(isPreviewing := true)
  }

  /** The preview ends; with nothing else running, every control except a
      Save without changes is available again. */
  function FinishPreview(a: Actions): (r: Actions)
    ensures !r.isPreviewing && r.(isPreviewing := a.isPreviewing) == a
    ensures !a.isSaving ==> !ResetDisabled(r) && !PreviewDisabled(r)
    ensures !a.isSaving ==> (!SaveDisabled(r, true) && SaveDisabled(r, false))
  {
    a.(isPreviewing := false)
  }

  /** A completed save at `now`: the time remembered and the page saved. */
  function Save(a: Actions, p: Page, now: int): (r: (Actions, Page))
    ensures r.0.lastSaved == Some(now) && !r.0.isSaving
    ensures SuccessShown(r.0, r.1.hasChanges)
    ensures SaveDisabled(r.0, r.1.hasChanges)
    ensures r.1.config == p.config
  {
    (a.(isSaving := false, lastSaved := Some(now)), SavePage(p))
  }

  function AskReset(a: Actions): (r: Actions)
    ensures r.showResetConfirm && r.(showResetConfirm := a.showResetConfirm) == a
  {
    a.(showResetConfirm := true)
  }

  /** `confirmReset`: the page reset, the dialog closed, the save time cleared. */
  function ConfirmReset(a: Actions, p: Page): (r: (Actions, Page))
    ensures !r.0.showResetConfirm && r.0.lastSaved.None?
    ensures r.1 == InitialPage()
    ensures !SuccessShown(r.0, r.1.hasChanges)
  {
    (a.(showResetConfirm := false, lastSaved := None), ResetPage(p))
  }

  /** Any edit after a save hides the panel and enables Save again. */
  lemma EditAfterSave(a: Actions, p: Page, now: int, section: String, data: Value)
    requires !a.isPreviewing
    ensures var (a1, p1) := Save(a, p, now);
            var p2 := ChangeSection(p1, section, data);
            !SuccessShown(a1, p2.hasChanges) && !SaveDisabled(a1, p2.hasChanges)
  {}

  // ---------------------------------------------------------------------------
  // "Last saved"

  datatype SavedText = Words(text: String) | LocaleDateTime(at: int)

  /** Nothing before a save; then "just now" under a minute, "<n> minutes ago"
      under an hour (whole minutes, rounded down), and the date and time after
      that. */
  function FormatLastSaved(lastSaved: Option<int>, now: int, code: String): (r: Option<SavedText>)
    ensures lastSaved.None? <==> r.None?
    ensures lastSaved.Some? && now - lastSaved.value >= 60 * MinuteMs ==> r == Some(LocaleDateTime(lastSaved.value))
    ensures lastSaved.Some? && now - lastSaved.value < 60 * MinuteMs ==> r.Some? && r.value.Words?
  {
    match lastSaved
    case None => None
    case Some(t) =>
      var minutes := (now - t) / MinuteMs;
      var lang := TimeTextLanguage(code);
      if minutes < 1 then
        Some(Words(if lang == En then "just now" else if lang == Es then "ahora mismo" else "à l'instant"))
      else if minutes < 60 then
        var n := IntToString(minutes);
        Some(Words(if lang == En then n + " minutes ago"
                   else if lang == Es then "hace " + n + " minutos"
                   else "il y a " + n + " minutes"))
      else Some(LocaleDateTime(t))
  }

  /** The English text names the whole minutes elapsed. */
  lemma MinutesAgoCounts(t: int, now: int, n: nat)
    requires 1 <= n < 60 && n * MinuteMs <= now - t < (n + 1) * MinuteMs
    ensures FormatLastSaved(Some(t), now, "en") == Some(Words(NatToString(n) + " minutes ago"))
  {
    assert (now - t) / MinuteMs == n;
  }

  /** Less than a minute after saving it reads "just now", in English; a
      language other than English or Spanish reads French. */
  lemma JustNowTexts(t: int, now: int, code: String)
    requires t <= now < t + MinuteMs
    ensures FormatLastSaved(Some(t), now, "en") == Some(Words("just now"))
    ensures code != "en" && code != "es" ==> FormatLastSaved(Some(t), now, code) == Some(Words("à l'instant"))
  {}
}
