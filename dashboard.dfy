/**
  The notification store and the classifiers of the dashboard
  (DashboardManager in app/static/js/dashboard.js).
*/
module Dashboard {
  import opened Common

  /** Capacity of the most-recent-first notification list. */
  const NotificationCap: nat := 50

  /** A notification; entries created by the dashboard start unread (`read` absent). */
  datatype Notification = Notification(
    kind: string, title: string, message: string, timestamp: string, severity: string, read: bool)

  /** One `showToast` call. */
  datatype Toast = Toast(kind: string, title: string, message: string, duration: int)

  // ---------------------------------------------------------------------------
  // Classifiers

  /** Severity of a detection from its confidence (0.8 and 0.6 cut-offs, both strict). */
  function ThreatSeverity(confidence: real): (r: string)
    ensures r == "high" <==> confidence > 0.8
    ensures r == "medium" <==> 0.6 < confidence <= 0.8
    ensures r == "low" <==> confidence <= 0.6
  {
    if confidence > 0.8 then "high"
    else if confidence > 0.6 then "medium"
    else "low"
  }

  /** How long ago something happened, as `formatTime` buckets it. */
  datatype TimeAgo = JustNow | MinutesAgo(minutes: nat) | HoursAgo(hours: nat) | OnDate

  /** Bucket an age in milliseconds; the counts are whole minutes or hours rounded down. */
  function Bucket(diff: int): (b: TimeAgo)
    ensures b == JustNow <==> diff < 60000
    ensures b.MinutesAgo? <==> 60000 <= diff < 3600000
    ensures b.MinutesAgo? ==> 1 <= b.minutes < 60 && b.minutes * 60000 <= diff < (b.minutes + 1) * 60000
    ensures b.HoursAgo? <==> 3600000 <= diff < 86400000
    ensures b.HoursAgo? ==> 1 <= b.hours < 24 && b.hours * 3600000 <= diff < (b.hours + 1) * 3600000
    ensures b == OnDate <==> diff >= 86400000
  {
    if diff < 60000 then JustNow
    else if diff < 3600000 then MinutesAgo(diff / 60000)
    else if diff < 86400000 then HoursAgo(diff / 3600000)
    else OnDate
  }

  function DigitChar(d: nat): char
    requires d < 10
  {
    "0123456789"[d]
  }

  /** Decimal rendering of a natural number, as JavaScript's template literals print it. */
  function NatToString(n: nat): (s: string)
    ensures |s| >= 1
    ensures forall i :: 0 <= i < |s| ==> '0' <= s[i] <= '9'
    decreases n
  {
    if n < 10 then [DigitChar(n)] else NatToString(n / 10) + [DigitChar(n % 10)]
  }

  function DigitValue(c: char): nat
  {
    if '0' <= c <= '9' then (c as int - '0' as int) as nat else 0
  }

  /** Reads a string of decimal digits back as a number. */
  function ParseNat(s: string): nat
    decreases |s|
  {
    if s == [] then 0 else 10 * ParseNat(s[..|s| - 1]) + DigitValue(s[|s| - 1])
  }

  /** The rendering of counts is exact: reading it back gives the count. */
  lemma {:induction false} NatToStringRoundTrip(n: nat)
    ensures ParseNat(NatToString(n)) == n
    decreases n
  {
    var s := NatToString(n);
    if n < 10 {
      DigitRoundTrip(n);
      assert s[..|s| - 1] == [];
    } else {
      NatToStringRoundTrip(n / 10);
      DigitRoundTrip(n % 10);
      assert s[..|s| - 1] == NatToString(n / 10);
      assert s[|s| - 1] == DigitChar(n % 10);
    }
  }

  lemma DigitRoundTrip(d: nat)
    requires d < 10
    ensures DigitValue(DigitChar(d)) == d
  {
  }

  /** `formatTime`: `dateText` stands for the locale date string used past one day. */
  function FormatTime(now: int, timestamp: int, dateText: string): (r: string)
    ensures !Bucket(now - timestamp).OnDate? ==> r == "Just now" || (|r| >= 6 && r[|r| - 4..] == " ago")
  {
    match Bucket(now - timestamp)
    case JustNow => "Just now"
    case MinutesAgo(m) => NatToString(m) + "m ago"
    case HoursAgo(h) => NatToString(h) + "h ago"
    case OnDate => dateText
  }

  /** What `formatTime` shows for each age band. */
  lemma FormatTimeBands(now: int, timestamp: int, dateText: string)
    ensures var diff := now - timestamp;
      && (diff < 60000 ==> FormatTime(now, timestamp, dateText) == "Just now")
      && (60000 <= diff < 3600000 ==> FormatTime(now, timestamp, dateText) == NatToString(diff / 60000) + "m ago")
      && (3600000 <= diff < 86400000 ==> FormatTime(now, timestamp, dateText) == NatToString(diff / 3600000) + "h ago")
      && (diff >= 86400000 ==> FormatTime(now, timestamp, dateText) == dateText)
  {
  }

  /** The count shown before "m ago" reads back as a whole number of minutes between 1 and 59. */
  lemma FormatTimeMinutesReadBack(now: int, timestamp: int, dateText: string)
    requires 60000 <= now - timestamp < 3600000
    ensures var r := FormatTime(now, timestamp, dateText);
      && |r| > 5 && r[|r| - 5..] == "m ago"
      && var m := ParseNat(r[..|r| - 5]);
         1 <= m < 60 && m * 60000 <= now - timestamp < (m + 1) * 60000
  {
    var m := (now - timestamp) / 60000;
    var r := FormatTime(now, timestamp, dateText);
    assert r == NatToString(m) + "m ago";
    assert r[..|r| - 5] == NatToString(m);
    NatToStringRoundTrip(m);
  }

  const Icons: map<string, string> := map[
    "threat" := "fa-exclamation-triangle",
    "system" := "fa-cog",
    "success" := "fa-check-circle",
    "warning" := "fa-exclamation-circle",
    "error" := "fa-times-circle",
    "info" := "fa-info-circle"]

  /** Icon of a notification type; every type outside the six known ones gets the bell. */
  function NotificationIcon(kind: string): (r: string)
    ensures r == "fa-bell" <==> kind !in Icons
    ensures kind in Icons ==> r == Icons[kind]
  {
    if kind in Icons then Icons[kind] else "fa-bell"
  }

  /** Width of a progress bar: the value capped at 100. */
  function ProgressWidth(value: real): (r: real)
    ensures r <= 100.0
    ensures value <= 100.0 ==> r == value
    ensures value > 100.0 ==> r == 100.0
  {
    if value <= 100.0 then value else 100.0
  }

  /** JavaScript `x || 0` on a numeric field. */
  function OrZero(x: Option<real>): real
  {
    if x.Some? then x.value else 0.0
  }

  /** JavaScript `s || fallback` on a string field: absent or empty gives the fallback. */
  function OrText(s: Option<string>, fallback: string): (r: string)
    ensures s.Some? && s.value != "" ==> r == s.value
    ensures s.None? || s.value == "" ==> r == fallback
  {
    if s.Some? && s.value != "" then s.value else fallback
  }

  /**
    The toast `showToast` displays.  Its parameter defaults apply only to
    absent fields: an explicit empty type or a zero duration is kept.
  */
  function ToastOf(kind: Option<string>, title: string, message: string, duration: Option<int>): (t: Toast)
    ensures t.kind == (if kind.Some? then kind.value else "info")
    ensures t.duration == (if duration.Some? then duration.value else 3000)
    ensures t.title == title && t.message == message
  {
    Toast(if kind.Some? then kind.value else "info", title, message,
          if duration.Some? then duration.value else 3000)
  }

  // ---------------------------------------------------------------------------
  // The notification list

  function UnreadCount(ns: seq<Notification>): (n: nat)
    ensures n <= |ns|
    decreases |ns|
  {
    if ns == [] then 0 else (if ns[0].read then 0 else 1) + UnreadCount(ns[1..])
  }

  /** `addNotification`'s list: the new entry first, cut to the 50 most recent. */
  function Prepend(ns: seq<Notification>, n: Notification): (r: seq<Notification>)
    ensures 1 <= |r| <= NotificationCap
    ensures r[0] == n && r[1..] <= ns
  {
    var l := [n] + ns;
    if |l| > NotificationCap then l[..NotificationCap] else l
  }

  /** The new entry is first, the older entries follow in order, and the oldest beyond 50 are dropped. */
  lemma PrependKeepsNewestFirst(ns: seq<Notification>, n: Notification)
    ensures var r := Prepend(ns, n);
      && |r| == Min(|ns| + 1, NotificationCap)
      && r[0] == n
      && r[1..] == ns[..|r| - 1]
  {
  }

  /** Inserting a batch (oldest first) into an empty panel leaves its 50 newest, newest first. */
  function InsertAll(ns: seq<Notification>, batch: seq<Notification>): seq<Notification>
    decreases |batch|
  {
    if batch == [] then ns else InsertAll(Prepend(ns, batch[0]), batch[1..])
  }

  function Reverse<T>(s: seq<T>): (r: seq<T>)
    ensures |r| == |s|
    ensures forall i :: 0 <= i < |s| ==> r[i] == s[|s| - 1 - i]
    decreases |s|
  {
    if s == [] then [] else Reverse(s[1..]) + [s[0]]
  }

  function TakeAtMost<T>(s: seq<T>, k: nat): seq<T>
  {
    if |s| <= k then s else s[..k]
  }

  /** Cutting the tail to `k` before cutting the whole to `k` changes nothing. */
  lemma TakeAtMostTail<T>(a: seq<T>, b: seq<T>, k: nat)
    ensures TakeAtMost(a + TakeAtMost(b, k), k) == TakeAtMost(a + b, k)
  {
    var l := a + TakeAtMost(b, k);
    var r := TakeAtMost(l, k);
    var t := TakeAtMost(a + b, k);
    assert |r| == |t|;
    forall i | 0 <= i < |r|
      ensures r[i] == t[i]
    {
      if i >= |a| {
        assert l[i] == TakeAtMost(b, k)[i - |a|];
      }
    }
  }

  /** After any sequence of insertions the panel holds the 50 newest entries, newest first. */
  lemma {:induction false} InsertAllNewestFirst(ns: seq<Notification>, batch: seq<Notification>)
    requires |ns| <= NotificationCap
    ensures InsertAll(ns, batch) == TakeAtMost(Reverse(batch) + ns, NotificationCap)
    decreases |batch|
  {
    if batch != [] {
      var n := batch[0];
      var p := Prepend(ns, n);
      calc {
        InsertAll(ns, batch);
        InsertAll(p, batch[1..]);
        { InsertAllNewestFirst(p, batch[1..]); }
        TakeAtMost(Reverse(batch[1..]) + p, NotificationCap);
        { assert p == TakeAtMost([n] + ns, NotificationCap); }
        TakeAtMost(Reverse(batch[1..]) + TakeAtMost([n] + ns, NotificationCap), NotificationCap);
        { TakeAtMostTail(Reverse(batch[1..]), [n] + ns, NotificationCap); }
        TakeAtMost(Reverse(batch[1..]) + ([n] + ns), NotificationCap);
        { assert Reverse(batch[1..]) + ([n] + ns) == Reverse(batch) + ns; }
        TakeAtMost(Reverse(batch) + ns, NotificationCap);
      }
    }
  }

  /** 51 insertions leave exactly 50 entries: the newest 50, newest first. */
  lemma FiftyOneInsertions(batch: seq<Notification>)
    requires |batch| == 51
    ensures |InsertAll([], batch)| == 50
    ensures forall i :: 0 <= i < 50 ==> InsertAll([], batch)[i] == batch[50 - i]
  {
    InsertAllNewestFirst([], batch);
    assert Reverse(batch) + [] == Reverse(batch);
  }

  function MarkAllRead(ns: seq<Notification>): (r: seq<Notification>)
    ensures |r| == |ns|
    ensures forall i :: 0 <= i < |ns| ==> r[i] == ns[i].(read := true)
  {
    seq(|ns|, i requires 0 <= i < |ns| => ns[i].(read := true))
  }

  /** After every entry is marked read, the unread count is 0. */
  lemma {:induction false} MarkAllReadClearsUnread(ns: seq<Notification>)
    ensures UnreadCount(MarkAllRead(ns)) == 0
    decreases |ns|
  {
    if ns != [] {
      assert MarkAllRead(ns)[1..] == MarkAllRead(ns[1..]);
      MarkAllReadClearsUnread(ns[1..]);
    }
  }

  /** The unread count is 0 exactly when every entry is read. */
  lemma {:induction false} UnreadZeroIffAllRead(ns: seq<Notification>)
    ensures UnreadCount(ns) == 0 <==> forall i :: 0 <= i < |ns| ==> ns[i].read
    decreases |ns|
  {
    if ns != [] {
      UnreadZeroIffAllRead(ns[1..]);
      assert forall i :: 0 <= i < |ns| - 1 ==> ns[1..][i] == ns[i + 1];
    }
  }

  /** The unread count of a list with one more entry at the end. */
  lemma {:induction false} UnreadCountSnoc(ns: seq<Notification>, x: Notification)
    ensures UnreadCount(ns + [x]) == UnreadCount(ns) + (if x.read then 0 else 1)
    decreases |ns|
  {
    if ns != [] {
      assert (ns + [x])[1..] == ns[1..] + [x];
      UnreadCountSnoc(ns[1..], x);
    }
  }

  /**
    A new unread entry raises the count by one below the cap; on a full list
    it also pushes out the 50th entry, whose unread mark is lost.
  */
  lemma PrependUnread(ns: seq<Notification>, n: Notification)
    requires !n.read
    ensures |ns| < NotificationCap ==> UnreadCount(Prepend(ns, n)) == UnreadCount(ns) + 1
    ensures |ns| == NotificationCap ==>
      UnreadCount(Prepend(ns, n)) == UnreadCount(ns) + 1 - (if ns[NotificationCap - 1].read then 0 else 1)
  {
    if |ns| < NotificationCap {
      assert Prepend(ns, n)[1..] == ns;
    } else if |ns| == NotificationCap {
      PrependUnreadFull(ns, n);
    }
  }

  lemma PrependUnreadFull(ns: seq<Notification>, n: Notification)
    requires !n.read && |ns| == NotificationCap
    ensures UnreadCount(Prepend(ns, n)) == UnreadCount(ns) + 1 - (if ns[NotificationCap - 1].read then 0 else 1)
  {
    assert Prepend(ns, n) == [n] + ns[..|ns| - 1];
    UnreadPushOut(ns, n);
  }

  /** Putting an entry in front and dropping the last one. */
  lemma UnreadPushOut(ns: seq<Notification>, n: Notification)
    requires |ns| > 0
    ensures UnreadCount([n] + ns[..|ns| - 1])
         == (if n.read then 0 else 1) + UnreadCount(ns) - (if ns[|ns| - 1].read then 0 else 1)
  {
    var init, last := ns[..|ns| - 1], ns[|ns| - 1];
    assert ([n] + init)[1..] == init;
    assert ns == init + [last];
    UnreadCountSnoc(init, last);
  }

  // ---------------------------------------------------------------------------
  // The dashboard object

  class DashboardManager {
    var notifications: seq<Notification>
    var toasts: seq<Toast>
    var badgeCount: nat
    var badgeVisible: bool
    var panelOpen: bool
    var theme: string
    var storedTheme: Option<string>
    var sidebarCollapsed: bool
    var storedSidebar: Option<string>
    var progress: map<string, real>

    /** The list is capped and the badge shows its unread count, hidden exactly at 0. */
    ghost predicate Valid()
      reads this
    {
      && |notifications| <= NotificationCap
      && badgeCount == UnreadCount(notifications)
      && badgeVisible == (badgeCount > 0)
    }

    /** The theme and sidebar flags come from local storage ('light' and expanded by default). */
    constructor (theme0: Option<string>, sidebar0: Option<string>)
      ensures Valid()
      ensures notifications == [] && toasts == [] && !panelOpen && progress == map[]
      ensures theme == OrText(theme0, "light") && storedTheme == theme0
      ensures sidebarCollapsed == (sidebar0 == Some("true")) && storedSidebar == sidebar0
    {
      notifications := [];
      toasts := [];
      badgeCount := 0;
      badgeVisible := false;
      panelOpen := false;
      theme := OrText(theme0, "light");
      storedTheme := theme0;
      sidebarCollapsed := sidebar0 == Some("true");
      storedSidebar := sidebar0;
      progress := map[];
    }

    method UpdateNotificationBadge()
      modifies this`badgeCount, this`badgeVisible
      ensures badgeCount == UnreadCount(notifications) && badgeVisible == (badgeCount > 0)
    {
      badgeCount := UnreadCount(notifications);
      badgeVisible := badgeCount > 0;
    }

    method AddNotification(n: Notification)
      requires Valid()
      modifies this`notifications, this`badgeCount, this`badgeVisible
      ensures Valid()
      ensures notifications == Prepend(old(notifications), n)
    {
      notifications := [n] + notifications;
      if |notifications| > NotificationCap {
        notifications := notifications[..NotificationCap];
      }
      UpdateNotificationBadge();
    }

    /** Opening the panel marks every entry read; closing it leaves the flags alone. */
    method ToggleNotificationPanel()
      requires Valid()
      modifies this`notifications, this`panelOpen, this`badgeCount, this`badgeVisible
      ensures Valid()
      ensures panelOpen == !old(panelOpen)
      ensures panelOpen ==> notifications == MarkAllRead(old(notifications)) && badgeCount == 0 && !badgeVisible
      ensures !panelOpen ==> notifications == old(notifications)
    {
      var opening := !panelOpen;
      if opening {
        var i := 0;
        while i < |notifications|
          invariant 0 <= i <= |notifications| == |old(notifications)|
          invariant forall k :: 0 <= k < i ==> notifications[k] == old(notifications)[k].(read := true)
          invariant forall k :: i <= k < |notifications| ==> notifications[k] == old(notifications)[k]
        {
          notifications := notifications[i := notifications[i].(read := true)];
          i := i + 1;
        }
        MarkAllReadClearsUnread(old(notifications));
        UpdateNotificationBadge();
      }
      panelOpen := opening;
    }

    method CloseNotificationPanel()
      modifies this`panelOpen
      ensures !panelOpen
    {
      panelOpen := false;
    }

    /** `showToast`: a missing type defaults to 'info' and a missing duration to 3000 ms. */
    method ShowToast(kind: Option<string>, title: string, message: string, duration: Option<int>)
      modifies this`toasts
      ensures toasts == old(toasts) + [ToastOf(kind, title, message, duration)]
    {
      toasts := toasts + [ToastOf(kind, title, message, duration)];
    }

    /**
      A detection adds one 'threat' notification with its severity, and a
      toast only above 0.8.  `confidenceText` is the percentage as rendered.
    */
    method HandleThreatUpdate(threatType: string, confidence: real, confidenceText: string, timestamp: string)
      requires Valid()
      modifies this`notifications, this`badgeCount, this`badgeVisible, this`toasts
      ensures Valid()
      ensures notifications == Prepend(old(notifications),
        Notification("threat", "New " + threatType + " Detected", "Confidence: " + confidenceText + "%",
                     timestamp, ThreatSeverity(confidence), false))
      ensures confidence > 0.8 ==>
        toasts == old(toasts) + [Toast("warning", "High-Risk Threat Detected", threatType + " with " + confidenceText + "% confidence", 5000)]
      ensures confidence <= 0.8 ==> toasts == old(toasts)
    {
      AddNotification(Notification("threat", "New " + threatType + " Detected", "Confidence: " + confidenceText + "%",
                                   timestamp, ThreatSeverity(confidence), false));
      if confidence > 0.8 {
        ShowToast(Some("warning"), "High-Risk Threat Detected", threatType + " with " + confidenceText + "% confidence", Some(5000));
      }
    }

    /** `updateStats`: the three progress bars, each capped at 100. */
    method UpdateStats(bandwidth: Option<real>, connections: Option<real>, suspicious: Option<real>)
      modifies this`progress
      ensures progress == old(progress)["bandwidth" := ProgressWidth(OrZero(bandwidth))]
                                       ["connections" := ProgressWidth(OrZero(connections))]
                                       ["suspicious" := ProgressWidth(OrZero(suspicious))]
      ensures forall k :: k in {"bandwidth", "connections", "suspicious"} ==> progress[k] <= 100.0
    {
      progress := progress["bandwidth" := ProgressWidth(OrZero(bandwidth))];
      progress := progress["connections" := ProgressWidth(OrZero(connections))];
      progress := progress["suspicious" := ProgressWidth(OrZero(suspicious))];
    }

    /** 'light' becomes 'dark'; anything else (including a stored unknown theme) becomes 'light'. */
    method ToggleTheme()
      modifies this`theme, this`storedTheme
      ensures theme == (if old(theme) == "light" then "dark" else "light")
      ensures storedTheme == Some(theme)
    {
      theme := if theme == "light" then "dark" else "light";
      storedTheme := Some(theme);
    }

    method ToggleSidebar()
      modifies this`sidebarCollapsed, this`storedSidebar
      ensures sidebarCollapsed == !old(sidebarCollapsed)
      ensures storedSidebar == Some(if sidebarCollapsed then "true" else "false")
    {
      sidebarCollapsed := !sidebarCollapsed;
      storedSidebar := Some(if sidebarCollapsed then "true" else "false");
    }
  }

  /** The theme toggle alternates once the theme is 'light' or 'dark'. */
  lemma ThemeToggleAlternates(t: string)
    ensures var once := if t == "light" then "dark" else "light";
      var twice := if once == "light" then "dark" else "light";
      (t == "light" || t == "dark") ==> twice == t
  {
  }
}
