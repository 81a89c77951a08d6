/** The header's notification list: unread count, marking as read, clearing,
    the capped arrival of new notifications, the badge, and relative times. */
module Notifications {

  import opened Opt
  import opened Text
  import opened Seqs
  import opened Clock
  import opened I18n

  datatype Kind = Success | Info | Warning | Error | OtherKind(name: String)

  datatype Notification = Notification(
    id: int,
    kind: Kind,
    title: Texts,
    message: Texts,
    timestamp: int,
    read: bool)

  /** How many notifications the list keeps. */
  const Capacity := 10

  predicate IsUnread(n: Notification) { !n.read }

  function UnreadCount(ns: seq<Notification>): (c: nat)
    ensures c <= |ns|
    ensures c == 0 <==> forall n | n in ns :: n.read
  {
    var unread := Filter(ns, IsUnread);
    assert unread != [] ==> unread[0] in unread;
    Count(ns, IsUnread)
  }

  /** One notification marked: read when it has the id, and otherwise or in
      any other field unchanged. */
  function MarkOne(n: Notification, id: int): (r: Notification)
    ensures r.read <==> n.read || n.id == id
    ensures r.(read := n.read) == n
  {
    if n.id == id then n.(read := true) else n
  }

  /** `markAsRead`: every notification with the id becomes read; nothing else
      changes. */
  function MarkAsRead(ns: seq<Notification>, id: int): (r: seq<Notification>)
    ensures |r| == |ns|
    ensures forall i | 0 <= i < |ns| :: r[i] == (if ns[i].id == id then ns[i].(read := true) else ns[i])
  {
    if ns == [] then [] else [MarkOne(ns[0], id)] + MarkAsRead(ns[1..], id)
  }

  lemma MarkAsReadIdempotent(ns: seq<Notification>, id: int)
    ensures MarkAsRead(MarkAsRead(ns, id), id) == MarkAsRead(ns, id)
  {}

  predicate UnreadOther(id: int, n: Notification) { !n.read && n.id != id }

  /** After marking, the unread ones are those unread before with another id. */
  lemma {:induction false} UnreadAfterMarkAsRead(ns: seq<Notification>, id: int)
    ensures UnreadCount(MarkAsRead(ns, id)) == Count(ns, (n: Notification) => UnreadOther(id, n))
  {
    if ns != [] {
      UnreadAfterMarkAsRead(ns[1..], id);
      assert MarkAsRead(ns, id)[1..] == MarkAsRead(ns[1..], id);
    }
  }

  /** `markAllAsRead`: the same list, every entry read. */
  function MarkAllAsRead(ns: seq<Notification>): (r: seq<Notification>)
    ensures |r| == |ns|
    ensures forall i | 0 <= i < |ns| :: r[i] == ns[i].(read := true)
    ensures UnreadCount(r) == 0
  {
    var r := seq(|ns|, i requires 0 <= i < |ns| => ns[i].(read := true));
    assert forall n | n in r :: n.read;
    r
  }

  /** `clearNotification`: exactly the entries with the id go. */
  function ClearNotification(ns: seq<Notification>, id: int): (r: seq<Notification>)
    ensures forall n :: n in r <==> n in ns && n.id != id
    ensures IsSubseq(r, ns)
  {
    Filter(ns, (n: Notification) => n.id != id)
  }

  /** A new notification goes in front of the nine most recent others. */
  function Push(ns: seq<Notification>, n: Notification): (r: seq<Notification>)
    ensures |r| == if |ns| + 1 < Capacity then |ns| + 1 else Capacity
    ensures r[0] == n && r[1..] == ns[..|r| - 1]
  {
    [n] + ns[..if |ns| < Capacity - 1 then |ns| else Capacity - 1]
  }

  /** Notifications arriving one after another, the latest in front. */
  function PushAll(ns: seq<Notification>, arrivals: seq<Notification>): seq<Notification>
    decreases |arrivals|
  {
    if arrivals == [] then ns else PushAll(Push(ns, arrivals[0]), arrivals[1..])
  }

  /** The list never grows past ten, however many arrive, and loses nothing
      below that. */
  lemma {:induction false} PushBounded(ns: seq<Notification>, arrivals: seq<Notification>)
    requires |ns| <= Capacity
    ensures |PushAll(ns, arrivals)| == if |ns| + |arrivals| < Capacity then |ns| + |arrivals| else Capacity
    decreases |arrivals|
  {
    if arrivals != [] {
      PushBounded(Push(ns, arrivals[0]), arrivals[1..]);
    }
  }

  const UpdateTitle := Texts("New Update", "Nueva Actualización", "Nouvelle Mise à Jour")
  const UpdateMessage := Texts(
    "You have a new job application update",
    "Tienes una nueva actualización de solicitud de trabajo",
    "Vous avez une nouvelle mise à jour de candidature")

  /** The periodic arrival: one in three chances out of ten (`draw > 0.7`)
      adds an unread "New Update" with the given id, time and kind index. */
  function Arrive(ns: seq<Notification>, arrives: bool, id: int, now: int, kindIndex: nat): (r: seq<Notification>)
    requires kindIndex < 3
    ensures !arrives ==> r == ns
    ensures arrives ==> |r| >= 1 && r[0].id == id && !r[0].read && r[0].timestamp == now && UnreadCount(r) >= 1
  {
    if !arrives then ns
    else
      var n := Notification(id, [Success, Info, Warning][kindIndex], UpdateTitle, UpdateMessage, now, false);
      var r := Push(ns, n);
      assert r[0] in Filter(r, IsUnread);
      r
  }

  /** The bell's badge: hidden at zero, "9+" above nine. */
  function Badge(unread: nat): (r: Option<String>)
    ensures r.None? <==> unread == 0
    ensures unread > 9 ==> r == Some("9+")
  {
    if unread == 0 then None else if unread > 9 then Some("9+") else Some(NatToString(unread))
  }

  /** A badge of one digit shows the count itself. */
  lemma BadgeReadsBack(unread: nat)
    requires 1 <= unread <= 9
    ensures |Badge(unread).value| == 1 && DigitsValue(Badge(unread).value) == unread
  {
    DigitsValueOfNatToString(unread);
  }

  function IconOf(k: Kind): String {
    match k
    case Success => "CheckCircle"
    case Info => "Info"
    case Warning => "AlertTriangle"
    case Error => "AlertCircle"
    case OtherKind(_) => "Bell"
  }

  /** The known kinds have their own icons; any other kind shows the bell. */
  lemma IconsDistinct(a: Kind, b: Kind)
    ensures !a.OtherKind? && !b.OtherKind? && a != b ==> IconOf(a) != IconOf(b)
    ensures a.OtherKind? <==> IconOf(a) == "Bell"
  {}

  // ---------------------------------------------------------------------------
  // Relative time

  /** Whole minutes, hours or days elapsed, in the largest unit below the
      next bucket; French days are "j". */
  function FormatTimestamp(timestamp: int, now: int, code: String): (r: String)
    ensures now - timestamp < MinuteMs ==> r in {"Just now", "Ahora mismo", "À l'instant"}
  {
    var diff := now - timestamp;
    var minutes := diff / MinuteMs;
    var hours := diff / HourMs;
    var days := diff / DayMs;
    var lang := TimeTextLanguage(code);
    if minutes < 1 then
      if lang == En then "Just now" else if lang == Es then "Ahora mismo" else "À l'instant"
    else if minutes < 60 then
      var m := IntToString(minutes);
      if lang == En then m + "m ago" else if lang == Es then "hace " + m + "m" else "il y a " + m + "m"
    else if hours < 24 then
      var h := IntToString(hours);
      if lang == En then h + "h ago" else if lang == Es then "hace " + h + "h" else "il y a " + h + "h"
    else
      var d := IntToString(days);
      if lang == En then d + "d ago" else if lang == Es then "hace " + d + "d" else "il y a " + d + "j"
  }

  /** Under an hour the English text counts whole minutes. */
  lemma MinutesAgo(timestamp: int, now: int, n: nat)
    requires 1 <= n < 60 && n * MinuteMs <= now - timestamp < (n + 1) * MinuteMs
    ensures FormatTimestamp(timestamp, now, "en") == NatToString(n) + "m ago"
  {
    assert (now - timestamp) / MinuteMs == n;
  }

  /** Under a day the English text counts whole hours. */
  lemma HoursAgo(timestamp: int, now: int, n: nat)
    requires 1 <= n < 24 && n * HourMs <= now - timestamp < (n + 1) * HourMs
    ensures FormatTimestamp(timestamp, now, "en") == NatToString(n) + "h ago"
  {
    var diff := now - timestamp;
    assert diff / HourMs == n;
    assert diff / MinuteMs >= 60;
  }

  /** From a day on the English text counts whole days, with no upper bucket. */
  lemma DaysAgo(timestamp: int, now: int, n: nat)
    requires 1 <= n && n * DayMs <= now - timestamp < (n + 1) * DayMs
    ensures FormatTimestamp(timestamp, now, "en") == NatToString(n) + "d ago"
  {
    DayBuckets(now - timestamp, n);
  }

  /** A difference of `n` whole days is past the minute and hour buckets. */
  lemma DayBuckets(diff: int, n: nat)
    requires 1 <= n && n * DayMs <= diff < (n + 1) * DayMs
    ensures diff / DayMs == n && diff / HourMs >= 24 && diff / MinuteMs >= 60
  {}

  const SubmittedTitle := Texts("Application Submitted", "Solicitud Enviada", "Candidature Soumise")
  const SubmittedMessage := Texts(
    "Your application to TechCorp was successfully submitted",
    "Tu solicitud a TechCorp fue enviada exitosamente",
    "Votre candidature à TechCorp a été soumise avec succès")
  const InterviewTitle := Texts("Interview Scheduled", "Entrevista Programada", "Entretien Programmé")
  const InterviewMessage := Texts(
    "Interview with StartupXYZ scheduled for tomorrow at 2 PM",
    "Entrevista con StartupXYZ programada para mañana a las 2 PM",
    "Entretien avec StartupXYZ programmé pour demain à 14h")
  const LimitTitle := Texts("Application Limit Reached", "Límite de Solicitudes Alcanzado", "Limite de Candidatures Atteinte")
  const LimitMessage := Texts(
    "Daily application limit reached. Upgrade to continue",
    "Límite diario de solicitudes alcanzado. Actualiza para continuar",
    "Limite quotidienne de candidatures atteinte. Mettez à niveau pour continuer")

  /** The sample list shown at first: two unread, one read. */
  function SampleNotifications(now: int): (r: seq<Notification>)
    ensures UnreadCount(r) == 2 && Badge(UnreadCount(r)) == Some("2")
  {
    var r := [
      Notification(1, Success, SubmittedTitle, SubmittedMessage, now - 5 * MinuteMs, false),
      Notification(2, Info, InterviewTitle, InterviewMessage, now - 2 * HourMs, false),
      Notification(3, Warning, LimitTitle, LimitMessage, now - 4 * HourMs, true)];
    UnreadOfThree(r);
    assert Badge(2) == Some("2");
    r
  }

  /** Three notifications of which the last alone is read have two unread. */
  lemma UnreadOfThree(r: seq<Notification>)
    requires |r| == 3 && !r[0].read && !r[1].read && r[2].read
    ensures UnreadCount(r) == 2
  {
    assert r[1..][1..][1..] == [];
    assert Filter(r[2..], IsUnread) == [];
    assert Filter(r[1..], IsUnread) == [r[1]];
    assert Filter(r, IsUnread) == [r[0], r[1]];
  }
}
