/** The salary-range section of the job-search configuration: a table of
    slider ranges per currency and salary type, and the handlers that keep the
    minimum at or below the maximum. */
module Salary {

  datatype Currency = USD | EUR | GBP | INR
  datatype SalaryType = Annual | Hourly

  /** A slider range with its step and the entry-level pair it resets to. */
  datatype SliderRange = SliderRange(min: int, max: int, step: int, entryMin: int, entryMax: int)

  function RangeOf(c: Currency, t: SalaryType): SliderRange {
    match (c, t)
    case (USD, Annual) => SliderRange(35000, 150000, 5000, 45000, 85000)
    case (USD, Hourly) => SliderRange(15, 75, 2, 20, 40)
    case (EUR, Annual) => SliderRange(30000, 120000, 5000, 40000, 70000)
    case (EUR, Hourly) => SliderRange(12, 60, 2, 18, 35)
    case (GBP, Annual) => SliderRange(25000, 100000, 5000, 35000, 60000)
    case (GBP, Hourly) => SliderRange(10, 50, 2, 15, 30)
    case (INR, Annual) => SliderRange(300000, 2000000, 50000, 400000, 800000)
    case (INR, Hourly) => SliderRange(200, 2000, 50, 300, 600)
  }

  /** Every entry pair lies inside its slider, in order. */
  lemma EntryWithinRange(c: Currency, t: SalaryType)
    ensures var g := RangeOf(c, t); g.min <= g.entryMin <= g.entryMax <= g.max && g.step > 0
  {}

  datatype SalarySettings = SalarySettings(
    currency: Currency,
    minSalary: int,
    maxSalary: int,
    salaryType: SalaryType,
    negotiable: bool)

  const InitialSalary := SalarySettings(USD, 45000, 85000, Annual, true)

  predicate Ordered(s: SalarySettings) { s.minSalary <= s.maxSalary }

  /** The bounds sit inside the slider of the current currency and type. */
  predicate WithinSlider(s: SalarySettings) {
    var g := RangeOf(s.currency, s.salaryType);
    g.min <= s.minSalary && s.maxSalary <= g.max
  }

  /** Both bounds set to the entry pair of the current currency and type. */
  function EntryLevel(s: SalarySettings): (r: SalarySettings)
    ensures Ordered(r) && WithinSlider(r)
    ensures r.currency == s.currency && r.salaryType == s.salaryType && r.negotiable == s.negotiable
  {
    var g := RangeOf(s.currency, s.salaryType);
    EntryWithinRange(s.currency, s.salaryType);
    s.(minSalary := g.entryMin, maxSalary := g.entryMax)
  }

  /** A new currency, with the bounds reset to its entry pair. */
  function ChangeCurrency(s: SalarySettings, c: Currency): (r: SalarySettings)
    ensures r.currency == c && r.salaryType == s.salaryType && r.negotiable == s.negotiable
    ensures Ordered(r) && WithinSlider(r)
    ensures (r.minSalary, r.maxSalary) == (RangeOf(c, s.salaryType).entryMin, RangeOf(c, s.salaryType).entryMax)
  {
    EntryLevel(s.(currency := c))
  }

  /** A new salary type, with the bounds reset to its entry pair. */
  function ChangeSalaryType(s: SalarySettings, t: SalaryType): (r: SalarySettings)
    ensures r.salaryType == t && r.currency == s.currency && r.negotiable == s.negotiable
    ensures Ordered(r) && WithinSlider(r)
    ensures (r.minSalary, r.maxSalary) == (RangeOf(s.currency, t).entryMin, RangeOf(s.currency, t).entryMax)
  {
    EntryLevel(s.(salaryType := t))
  }

  /** The minimum slider: the maximum is pushed up to meet a larger minimum. */
  function SetMin(s: SalarySettings, v: int): (r: SalarySettings)
    ensures r.minSalary == v && Ordered(r)
    ensures v <= s.maxSalary ==> r.maxSalary == s.maxSalary
    ensures v > s.maxSalary ==> r.maxSalary == v
    ensures r.currency == s.currency && r.salaryType == s.salaryType && r.negotiable == s.negotiable
  {
    s.(minSalary := v, maxSalary := if v > s.maxSalary then v else s.maxSalary)
  }

  /** The maximum slider: the minimum is pulled down to meet a smaller maximum. */
  function SetMax(s: SalarySettings, v: int): (r: SalarySettings)
    ensures r.maxSalary == v && Ordered(r)
    ensures v >= s.minSalary ==> r.minSalary == s.minSalary
    ensures v < s.minSalary ==> r.minSalary == v
    ensures r.currency == s.currency && r.salaryType == s.salaryType && r.negotiable == s.negotiable
  {
    s.(maxSalary := v, minSalary := if v < s.minSalary then v else s.minSalary)
  }

  /** A slider value inside the slider keeps the bounds inside it. */
  lemma SlidersKeepWithin(s: SalarySettings, v: int)
    requires WithinSlider(s) && Ordered(s)
    requires RangeOf(s.currency, s.salaryType).min <= v <= RangeOf(s.currency, s.salaryType).max
    ensures WithinSlider(SetMin(s, v)) && WithinSlider(SetMax(s, v))
  {}

  /** Moving the minimum within the current range leaves the range alone
      when it was already ordered, and then moving it back restores it. */
  lemma SetMinUndo(s: SalarySettings, v: int)
    requires Ordered(s) && v <= s.maxSalary
    ensures SetMin(SetMin(s, v), s.minSalary) == s
  {}

  function ToggleNegotiable(s: SalarySettings): (r: SalarySettings)
    ensures r.negotiable == !s.negotiable && r.(negotiable := s.negotiable) == s
  {
    s.(negotiable := !s.negotiable)
  }

  /** The initial settings are USD's annual entry pair. */
  lemma InitialIsEntryLevel()
    ensures EntryLevel(InitialSalary) == InitialSalary
  {}
}
