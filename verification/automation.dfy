/** The header's automation controls: the quick-action buttons with their
    confirmation dialog, and the status indicator with its periodic refresh. */
module Automation {

  import opened Opt
  import opened Text
  import opened I18n

  // ---------------------------------------------------------------------------
  // Quick actions

  datatype Action = Pause | Resume | Stop

  /** `confirmAction` is `null` (None) or one of the three actions. */
  datatype Controls = Controls(
    running: bool,
    dialogOpen: bool,
    confirmAction: Option<Action>,
    loading: bool)

  const InitialControls := Controls(true, false, None, false)

  /** An open dialog always knows which action it confirms. */
  predicate Consistent(c: Controls) {
    c.dialogOpen ==> c.confirmAction.Some?
  }

  /** `executeAction` once its wait is over: pause and stop halt the
      automation, resume starts it, no action leaves it; in every case the
      dialog is closed and forgets its action. */
  function Execute(c: Controls, a: Option<Action>): (r: Controls)
    ensures a == Some(Pause) || a == Some(Stop) ==> !r.running
    ensures a == Some(Resume) ==> r.running
    ensures a.None? ==> r.running == c.running
    ensures !r.loading && !r.dialogOpen && r.confirmAction.None?
  {
    var running := match a
      case Some(Pause) => false
      case Some(Resume) => true
      case Some(Stop) => false
      case None => c.running;
    Controls(running, false, None, false)
  }

  /** The pause/resume button: a running automation asks before pausing; a
      stopped one resumes at once. */
  function ToggleAutomation(c: Controls): (r: Controls)
    ensures c.running ==> r == c.(confirmAction := Some(Pause), dialogOpen := true)
    ensures !c.running ==> r.running && !r.dialogOpen
  {
    if c.running then c.(confirmAction := Some(Pause), dialogOpen := true)
    else Execute(c, Some(Resume))
  }

  /** The emergency-stop button always asks first. */
  function EmergencyStop(c: Controls): (r: Controls)
    ensures r.dialogOpen && r.confirmAction == Some(Stop)
    ensures r.running == c.running && r.loading == c.loading
  {
    c.(confirmAction := Some(Stop), dialogOpen := true)
  }

  /** "Cancel" only closes the dialog; the remembered action stays. */
  function Cancel(c: Controls): (r: Controls)
    ensures !r.dialogOpen && r.(dialogOpen := c.dialogOpen) == c
  {
    c.(dialogOpen := false)
  }

  /** "Confirm" runs the remembered action. */
  function Confirm(c: Controls): (r: Controls)
    ensures r.running <==> c.confirmAction == Some(Resume) || (c.confirmAction.None? && c.running)
    ensures !r.dialogOpen && r.confirmAction.None?
  {
    Execute(c, c.confirmAction)
  }

  /** The quick search only shows the spinner while it waits. */
  function QuickSearch(c: Controls, done: bool): (r: Controls)
    ensures r.loading == !done && r.(loading := c.loading) == c
  {
    c.(loading := !done)
  }

  /** The pause/resume, emergency-stop and cancel buttons are disabled while
      something is loading. */
  predicate ButtonsDisabled(c: Controls) { c.loading }

  /** The dialog's message: the stop warning for a stop, the pause warning
      for anything else. */
  function DialogMessageKey(c: Controls): (r: String)
    ensures r == "confirmStop" <==> c.confirmAction == Some(Stop)
  {
    if c.confirmAction == Some(Stop) then "confirmStop" else "confirmPause"
  }

  datatype ControlEvent = ToggleClicked | StopClicked | CancelClicked | ConfirmClicked | SearchStarted | SearchDone

  function Step(c: Controls, e: ControlEvent): Controls {
    match e
    case ToggleClicked => ToggleAutomation(c)
    case StopClicked => EmergencyStop(c)
    case CancelClicked => Cancel(c)
    case ConfirmClicked => Confirm(c)
    case SearchStarted => QuickSearch(c, false)
    case SearchDone => QuickSearch(c, true)
  }

  function Run(c: Controls, es: seq<ControlEvent>): Controls
    decreases |es|
  {
    if es == [] then c else Run(Step(c, es[0]), es[1..])
  }

  /** Every sequence of clicks keeps the dialog consistent. */
  lemma {:induction false} RunKeepsConsistent(c: Controls, es: seq<ControlEvent>)
    requires Consistent(c)
    ensures Consistent(Run(c, es))
    decreases |es|
  {
    if es != [] {
      assert Consistent(Step(c, es[0]));
      RunKeepsConsistent(Step(c, es[0]), es[1..]);
    }
  }

  /** Pausing takes the toggle and a confirmation; cancelling keeps it running. */
  lemma PauseNeedsConfirmation(c: Controls)
    requires c.running
    ensures !Confirm(ToggleAutomation(c)).running
    ensures Cancel(ToggleAutomation(c)).running && !Cancel(ToggleAutomation(c)).dialogOpen
  {}

  /** A confirmed emergency stop halts the automation from any state. */
  lemma ConfirmedStopHalts(c: Controls)
    ensures !Confirm(EmergencyStop(c)).running
    ensures DialogMessageKey(EmergencyStop(c)) == "confirmStop"
  {}

  /** Pausing and then resuming gives a running automation with no dialog. */
  lemma PauseThenResume(c: Controls)
    requires c.running
    ensures var r := ToggleAutomation(Confirm(ToggleAutomation(c)));
            r.running && !r.dialogOpen && r.confirmAction.None? && !r.loading
  {}

  // ---------------------------------------------------------------------------
  // Status indicator

  datatype Status = Active | Paused | Failing

  /** The status, the number of jobs shown as running, and the time of the
      last update (kept as a number; only its time of day is shown). */
  datatype Indicator = Indicator(status: Status, jobsRunning: int, lastUpdate: int)

  function InitialIndicator(now: int): Indicator { Indicator(Active, 3, now) }

  /** The jobs count is one of the values the source can produce and a
      paused automation runs none. */
  predicate Valid(s: Indicator) {
    0 <= s.jobsRunning <= 5 && (s.status == Paused ==> s.jobsRunning == 0)
  }

  /** The periodic refresh. `biased` is `Math.random() > 0.3`; `pick` is the
      index drawn into `[active, paused, error]`; `draw` is
      `floor(Math.random() * 5)`. Biased towards active with 1 to 5 jobs;
      otherwise the drawn status, with the count cleared only for paused. */
  function Tick(s: Indicator, biased: bool, pick: nat, draw: nat, now: int): (r: Indicator)
    requires pick < 3 && draw < 5
    ensures r.lastUpdate == now
    ensures biased ==> r.status == Active && r.jobsRunning == draw + 1
    ensures !biased ==> r.status == [Active, Paused, Failing][pick]
    ensures !biased && r.status != Paused ==> r.jobsRunning == s.jobsRunning
    ensures Valid(s) ==> Valid(r)
  {
    if biased then Indicator(Active, draw + 1, now)
    else
      var st := [Active, Paused, Failing][pick];
      Indicator(st, if st == Paused then 0 else s.jobsRunning, now)
  }

  /** A click toggles active and paused, leaves an error alone, and always
      refreshes the time. */
  function Click(s: Indicator, draw: nat, now: int): (r: Indicator)
    requires draw < 5
    ensures r.lastUpdate == now
    ensures s.status == Active ==> r.status == Paused && r.jobsRunning == 0
    ensures s.status == Paused ==> r.status == Active && 1 <= r.jobsRunning <= 5
    ensures s.status == Failing ==> r == s.(lastUpdate := now)
    ensures Valid(s) ==> Valid(r)
  {
    match s.status
    case Active => Indicator(Paused, 0, now)
    case Paused => Indicator(Active, draw + 1, now)
    case Failing => s.(lastUpdate := now)
  }

  /** Two clicks bring an active indicator back to active, with a freshly
      drawn count. */
  lemma ClickTwice(s: Indicator, d1: nat, d2: nat, t1: int, t2: int)
    requires s.status == Active && d1 < 5 && d2 < 5
    ensures Click(Click(s, d1, t1), d2, t2) == Indicator(Active, d2 + 1, t2)
  {}

  /** An unbiased refresh that draws "active" after a pause shows an active
      automation running no jobs: the count is only drawn on the biased
      path. */
  lemma ActiveWithNoJobs(s: Indicator, now: int)
    requires s.status == Paused && Valid(s)
    ensures var r := Tick(s, false, 0, 0, now); r.status == Active && r.jobsRunning == 0
  {}

  datatype StatusTexts = StatusTexts(icon: String, text: Texts, description: Texts)

  /** The icon, name and description of the current status. */
  function StatusConfig(s: Indicator): (r: StatusTexts)
    ensures s.status == Paused ==> r.icon == "Pause"
    ensures s.status == Active ==> r.icon == "Play" && r.text.en == "Active"
    ensures s.status == Failing ==> r.icon == "AlertCircle" && r.description.en == "Requires attention"
  {
    match s.status
    case Active =>
      var n := IntToString(s.jobsRunning);
      StatusTexts("Play", Texts("Active", "Activo", "Actif"),
                  Texts(n + " jobs running", n + " trabajos ejecutándose", n + " emplois en cours"))
    case Paused =>
      StatusTexts("Pause", Texts("Paused", "Pausado", "En pause"),
                  Texts("Automation paused", "Automatización pausada", "Automatisation en pause"))
    case Failing =>
      StatusTexts("AlertCircle", Texts("Error", "Error", "Erreur"),
                  Texts("Requires attention", "Requiere atención", "Nécessite une attention"))
  }

  /** The three statuses show three different icons. */
  lemma StatusIconsDistinct(a: Indicator, b: Indicator)
    requires a.status != b.status
    ensures StatusConfig(a).icon != StatusConfig(b).icon
  {}

  /** The active description reads back, in every language, as the number of
      running jobs. */
  lemma ActiveDescriptionReadsJobs(s: Indicator)
    requires s.status == Active && s.jobsRunning >= 0
    ensures ParseLeadingNat(StatusConfig(s).description.en) == Some(s.jobsRunning)
    ensures ParseLeadingNat(StatusConfig(s).description.es) == Some(s.jobsRunning)
    ensures ParseLeadingNat(StatusConfig(s).description.fr) == Some(s.jobsRunning)
  {
    var n := NatToString(s.jobsRunning);
    DigitsValueOfNatToString(s.jobsRunning);
    LeadingDigitsOfConcat(n, " jobs running");
    LeadingDigitsOfConcat(n, " trabajos ejecutándose");
    LeadingDigitsOfConcat(n, " emplois en cours");
  }

  /** The indicator reads its texts directly by language code: a language
      other than the three shows nothing. */
  function ShownText(t: Texts, code: String): (r: String)
    ensures code !in {"en", "es", "fr"} ==> r == []
    ensures code == "en" ==> r == t.en
  {
    InLanguage(t, LanguageOf(code))
  }
}
