/** The profile's account-settings card: four tabs of notification,
    automation and privacy settings, edited on a copy that is handed up on
    save and thrown away on cancel. */
module AccountSettings {

  import opened Opt
  import opened Text

  datatype Notices = Notices(email: bool, push: bool, jobAlerts: bool, weeklyReports: bool, systemUpdates: bool)

  /** `dailyLimit` holds what `parseInt` made of the number box: None where
      it gave `NaN`. */
  datatype AutomationPrefs = AutomationPrefs(schedule: String, dailyLimit: Option<int>, rateLimiting: bool, autoRetry: bool)

  datatype Privacy = Privacy(profileVisibility: String, dataSharing: bool, twoFactorAuth: bool)

  datatype Settings = Settings(notifications: Notices, automation: AutomationPrefs, privacy: Privacy)

  /** The eight on/off switches of the card. */
  datatype Switch =
    | EmailNotices | PushNotices | JobAlerts | WeeklyReports | SystemUpdates
    | RateLimiting | AutoRetry | DataSharing

  function SwitchValue(s: Settings, w: Switch): bool {
    match w
    case EmailNotices => s.notifications.email
    case PushNotices => s.notifications.push
    case JobAlerts => s.notifications.jobAlerts
    case WeeklyReports => s.notifications.weeklyReports
    case SystemUpdates => s.notifications.systemUpdates
    case RateLimiting => s.automation.rateLimiting
    case AutoRetry => s.automation.autoRetry
    case DataSharing => s.privacy.dataSharing
  }

  /** `{ ...s, group: { ...s.group, field: b } }` for the switch's group and
      field: that switch set, every other one, and every other setting, kept. */
  function WithSwitch(s: Settings, w: Switch, b: bool): (r: Settings)
    ensures SwitchValue(r, w) == b
    ensures forall v | v != w :: SwitchValue(r, v) == SwitchValue(s, v)
    ensures r.automation.schedule == s.automation.schedule && r.automation.dailyLimit == s.automation.dailyLimit
    ensures r.privacy.profileVisibility == s.privacy.profileVisibility && r.privacy.twoFactorAuth == s.privacy.twoFactorAuth
  {
    match w
    case EmailNotices => s.(notifications := s.notifications.(email := b))
    case PushNotices => s.(notifications := s.notifications.(push := b))
    case JobAlerts => s.(notifications := s.notifications.(jobAlerts := b))
    case WeeklyReports => s.(notifications := s.notifications.(weeklyReports := b))
    case SystemUpdates => s.(notifications := s.notifications.(systemUpdates := b))
    case RateLimiting => s.(automation := s.automation.(rateLimiting := b))
    case AutoRetry => s.(automation := s.automation.(autoRetry := b))
    case DataSharing => s.(privacy := s.privacy.(dataSharing := b))
  }

  /** The controls of the card; the selects and the number box only exist
      while editing. */
  datatype SettingsEdit =
    | Flip(w: Switch)
    | SetSchedule(schedule: String)
    | SetDailyLimit(input: String)
    | SetVisibility(visibility: String)

  /** The card: the tab shown, editing or not, the copy being edited, and the
      delete-account dialog. */
  datatype Card = Card(activeTab: String, isEditing: bool, edited: Settings, showDeleteConfirm: bool)

  function InitialCard(saved: Settings): Card { Card("notifications", false, saved, false) }

  /** One control used. A switch is disabled and the other controls are not
      shown unless the card is being edited, so outside editing nothing
      changes; a switch flips its own value. */
  function ApplyEdit(c: Card, e: SettingsEdit): (r: Card)
    ensures !c.isEditing ==> r == c
    ensures r.(edited := c.edited) == c
    ensures c.isEditing && e.Flip? ==>
      r.edited == WithSwitch(c.edited, e.w, !SwitchValue(c.edited, e.w))
    ensures c.isEditing && e.SetDailyLimit? ==>
      r.edited == c.edited.(automation := c.edited.automation.(dailyLimit := ParseInt(e.input)))
    ensures c.isEditing && e.SetSchedule? ==>
      r.edited == c.edited.(automation := c.edited.automation.(schedule := e.schedule))
    ensures c.isEditing && e.SetVisibility? ==>
      r.edited == c.edited.(privacy := c.edited.privacy.(profileVisibility := e.visibility))
  {
    if !c.isEditing then c
    else
      var s := c.edited;
      var s' := match e
        case Flip(w) => WithSwitch(s, w, !SwitchValue(s, w))
        case SetSchedule(v) => s.(automation := s.automation.(schedule := v))
        case SetDailyLimit(input) => s.(automation := s.automation.(dailyLimit := ParseInt(input)))
        case SetVisibility(v) => s.(privacy := s.privacy.(profileVisibility := v));
      c.(edited := s')
  }

  /** The Edit button: shown on every tab but the subscription tab, where
      there is nothing to press. */
  function StartEditing(c: Card): (r: Card)
    ensures r.isEditing <==> c.isEditing || c.activeTab != "subscription"
    ensures r.(isEditing := c.isEditing) == c
  {
    if c.activeTab == "subscription" then c else c.(isEditing := true)
  }

  /** `handleSave`: the copy is handed up and editing ends. */
  function Save(c: Card): (r: (Card, Settings))
    ensures r.1 == c.edited && !r.0.isEditing && r.0.edited == c.edited
  {
    (c.(isEditing := false), c.edited)
  }

  /** `handleCancel`: the copy goes back to the saved settings. */
  function Cancel(c: Card, saved: Settings): (r: Card)
    ensures r.edited == saved && !r.isEditing && r.activeTab == c.activeTab
  {
    c.(edited := saved, isEditing := false)
  }

  function SelectTab(c: Card, id: String): (r: Card)
    ensures r.activeTab == id && r.(activeTab := c.activeTab) == c
  {
    c.(activeTab := id)
  }

  datatype Tab = NotificationsTab | AutomationTab | PrivacyTab | SubscriptionTab

  /** `renderTabContent`: an unknown tab shows the notifications tab. */
  function TabShown(activeTab: String): (r: Tab)
    ensures r == SubscriptionTab <==> activeTab == "subscription"
    ensures activeTab !in {"automation", "privacy", "subscription"} ==> r == NotificationsTab
  {
    if activeTab == "automation" then AutomationTab
    else if activeTab == "privacy" then PrivacyTab
    else if activeTab == "subscription" then SubscriptionTab
    else NotificationsTab
  }

  /** The edit, save and cancel buttons sit in the header on every tab but
      the subscription one. */
  predicate EditControlsShown(c: Card) { c.activeTab != "subscription" }

  /** Flipping a switch twice while editing gives the copy back. */
  lemma FlipTwice(c: Card, w: Switch)
    requires c.isEditing
    ensures ApplyEdit(ApplyEdit(c, Flip(w)), Flip(w)) == c
  {
    var s := c.edited;
    var s2 := ApplyEdit(ApplyEdit(c, Flip(w)), Flip(w)).edited;
    assert SwitchValue(s2, w) == SwitchValue(s, w);
    SettingsExtensional(s2, s);
  }

  /** Two settings agreeing on every switch and every other field are equal. */
  lemma SettingsExtensional(s: Settings, t: Settings)
    requires forall w :: SwitchValue(s, w) == SwitchValue(t, w)
    requires s.automation.schedule == t.automation.schedule && s.automation.dailyLimit == t.automation.dailyLimit
    requires s.privacy.profileVisibility == t.privacy.profileVisibility && s.privacy.twoFactorAuth == t.privacy.twoFactorAuth
    ensures s == t
  {
    assert SwitchValue(s, EmailNotices) == SwitchValue(t, EmailNotices);
    assert SwitchValue(s, PushNotices) == SwitchValue(t, PushNotices);
    assert SwitchValue(s, JobAlerts) == SwitchValue(t, JobAlerts);
    assert SwitchValue(s, WeeklyReports) == SwitchValue(t, WeeklyReports);
    assert SwitchValue(s, SystemUpdates) == SwitchValue(t, SystemUpdates);
    assert SwitchValue(s, RateLimiting) == SwitchValue(t, RateLimiting);
    assert SwitchValue(s, AutoRetry) == SwitchValue(t, AutoRetry);
    assert SwitchValue(s, DataSharing) == SwitchValue(t, DataSharing);
  }

  function ApplyEdits(c: Card, es: seq<SettingsEdit>): Card
    decreases |es|
  {
    if es == [] then c else ApplyEdits(ApplyEdit(c, es[0]), es[1..])
  }

  /** Whatever was edited, cancelling hands the saved settings back to the
      next save. */
  lemma CancelDiscardsEdits(c: Card, es: seq<SettingsEdit>, saved: Settings)
    ensures Save(Cancel(ApplyEdits(c, es), saved)).1 == saved
  {}

  /** Outside editing no sequence of controls changes the card. */
  lemma {:induction false} EditsNeedEditing(c: Card, es: seq<SettingsEdit>)
    requires !c.isEditing
    ensures ApplyEdits(c, es) == c
    decreases |es|
  {
    if es != [] {
      EditsNeedEditing(ApplyEdit(c, es[0]), es[1..]);
    }
  }

  /** A number typed into the daily-limit box is stored as that number; an
      emptied box stores `NaN`. */
  lemma DailyLimitReadsBack(c: Card, n: int)
    requires c.isEditing
    ensures ApplyEdit(c, SetDailyLimit(IntToString(n))).edited.automation.dailyLimit == Some(n)
    ensures ApplyEdit(c, SetDailyLimit("")).edited.automation.dailyLimit.None?
  {
    ParseIntOfIntToString(n);
  }

  /** Moving to the subscription tab while editing hides the buttons but does
      not end editing; coming back shows them again with the copy intact. */
  lemma SubscriptionTabKeepsEditing(c: Card, back: String)
    requires c.isEditing && back != "subscription"
    ensures !EditControlsShown(SelectTab(c, "subscription"))
    ensures var r := SelectTab(SelectTab(c, "subscription"), back);
            EditControlsShown(r) && r.isEditing && r.edited == c.edited
  {}

  function OpenDeleteConfirm(c: Card): (r: Card)
    ensures r.showDeleteConfirm && r.(showDeleteConfirm := c.showDeleteConfirm) == c
  {
    c.(showDeleteConfirm := true)
  }

  /** Both buttons of the delete dialog only close it; no setting changes. */
  function CloseDeleteConfirm(c: Card): (r: Card)
    ensures !r.showDeleteConfirm && r.(showDeleteConfirm := c.showDeleteConfirm) == c
  {
    c.(showDeleteConfirm := false)
  }
}
