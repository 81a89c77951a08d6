/** The dashboard's recent-activity feed: status badges with a fallback,
    the entry icon, translated captions and relative times without a day
    bucket. */
module Activity {

  import opened Text
  import opened Clock
  import opened I18n
  import Notifications

  datatype Activity = Activity(
    id: int,
    kind: String,
    company: String,
    position: String,
    status: String,
    timestamp: int,
    platform: String)

  /** The captions the feed translates. */
  function FeedTexts(): (r: map<String, Texts>)
    ensures "offer" !in r && "application" in r && "response" in r
  {
    map[
      "recentActivity" := Texts("Recent Activity", "Actividad Reciente", "Activité Récente"),
      "viewAll" := Texts("View All", "Ver Todo", "Voir Tout"),
      "submitted" := Texts("Submitted", "Enviado", "Soumis"),
      "viewed" := Texts("Viewed", "Visto", "Vu"),
      "interview" := Texts("Interview", "Entrevista", "Entretien"),
      "rejected" := Texts("Rejected", "Rechazado", "Rejeté"),
      "application" := Texts("Applied to", "Aplicado a", "Candidature à"),
      "response" := Texts("Response from", "Respuesta de", "Réponse de")]
  }

  datatype Badge = Badge(color: String, icon: String)

  const SubmittedBadge := Badge("bg-primary text-primary-foreground", "Send")

  /** `getStatusConfig`: four known statuses; anything else looks submitted. */
  function StatusBadge(status: String): (r: Badge)
    ensures status !in {"viewed", "interview", "rejected"} <==> r == SubmittedBadge
  {
    if status == "viewed" then Badge("bg-info text-info-foreground", "Eye")
    else if status == "interview" then Badge("bg-success text-success-foreground", "Calendar")
    else if status == "rejected" then Badge("bg-error text-error-foreground", "X")
    else SubmittedBadge
  }

  /** `getActivityIcon`: applications show a document, anything else a
      message. */
  function ActivityIcon(kind: String): (r: String)
    ensures r == "FileText" <==> kind == "application"
    ensures r != "FileText" ==> r == "MessageSquare"
  {
    if kind == "application" then "FileText" else "MessageSquare"
  }

  /** The badge text of an entry's status. */
  function StatusCaption(a: Activity, code: String): String {
    GetText(FeedTexts(), a.status, LanguageOf(code))
  }

  /** An offer is drawn with the submitted badge but captioned with the raw
      key, since the feed has no text for it. */
  lemma OfferShowsRawKey(a: Activity, code: String)
    requires a.status == "offer"
    ensures StatusCaption(a, code) == "offer"
    ensures StatusBadge(a.status) == SubmittedBadge
  {}

  /** `formatTimestamp` of the feed: "just now" under a minute, minutes
      under an hour, and hours from then on, however many. */
  function FeedTimestamp(timestamp: int, now: int, code: String): (r: String)
    ensures now - timestamp < MinuteMs ==> r in {"Just now", "Ahora mismo", "À l'instant"}
  {
    var diff := now - timestamp;
    var minutes := diff / MinuteMs;
    var hours := diff / HourMs;
    var lang := TimeTextLanguage(code);
    if minutes < 1 then
      if lang == En then "Just now" else if lang == Es then "Ahora mismo" else "À l'instant"
    else if minutes < 60 then
      var m := IntToString(minutes);
      if lang == En then m + "m ago" else if lang == Es then "hace " + m + "m" else "il y a " + m + "m"
    else
      var h := IntToString(hours);
      if lang == En then h + "h ago" else if lang == Es then "hace " + h + "h" else "il y a " + h + "h"
  }

  /** Under a day the feed and the notification list word elapsed time the
      same way, in every language. */
  lemma SameAsNotificationsBelowADay(timestamp: int, now: int, code: String)
    requires now - timestamp < DayMs
    ensures FeedTimestamp(timestamp, now, code) == Notifications.FormatTimestamp(timestamp, now, code)
  {
    var diff := now - timestamp;
    if diff / MinuteMs >= 60 {
      assert diff >= HourMs;
      assert diff / HourMs < 24;
    }
  }

  /** From a day on the feed keeps counting hours where the notification
      list counts days. */
  lemma HoursPastADay(timestamp: int, now: int, n: nat)
    requires 24 <= n && n * HourMs <= now - timestamp < (n + 1) * HourMs
    ensures FeedTimestamp(timestamp, now, "en") == NatToString(n) + "h ago"
  {
    var diff := now - timestamp;
    assert diff / HourMs == n;
    assert diff / MinuteMs >= 60;
  }

  /** The sample entries shown at first; `now` is the page's clock. */
  function SampleActivities(now: int): (r: seq<Activity>)
    ensures |r| == 6
    ensures forall i | 0 <= i < |r| :: r[i].id == i + 1 && r[i].timestamp < now
    ensures forall i, j | 0 <= i < j < |r| :: r[j].timestamp < r[i].timestamp
  {
    [
      Activity(1, "application", "TechCorp Solutions", "Frontend Developer Intern", "submitted", now - 15 * MinuteMs, "LinkedIn"),
      Activity(2, "response", "StartupXYZ", "Full Stack Developer", "viewed", now - 2 * HourMs, "Indeed"),
      Activity(3, "application", "AI Innovations Inc", "Generative AI Intern", "submitted", now - 4 * HourMs, "AngelList"),
      Activity(4, "response", "WebDev Agency", "Junior Web Developer", "interview", now - 6 * HourMs, "Glassdoor"),
      Activity(5, "application", "Digital Solutions Ltd", "React Developer", "submitted", now - 8 * HourMs, "LinkedIn"),
      Activity(6, "response", "Tech Startup Hub", "Full Stack Intern", "rejected", now - 12 * HourMs, "Indeed")]
  }
}
