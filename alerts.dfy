/** The alert record shared by the alert centre, the alerts page, the header
    and the notifications dropdown, and the list operations that all of them
    apply to their own alert list: mark one as read, mark all as read,
    dismiss, clear the read ones, resolve. Also the counters, the tab / type /
    category / search filter and the "time ago" label. */
module Alerts {
  import opened Wrappers
  import opened Seqs
  import opened Strings

  datatype AlertType = Error | Warning | Info | Success

  datatype AlertCategory = Machine | Production | Maintenance | Employee | System

  /** An alert. `timestamp` is in milliseconds since the epoch. The optional
      `actionRequired` flag is only ever read for its truthiness, so an absent
      flag is `false`. */
  datatype Alert = Alert(
    id: string,
    kind: AlertType,
    category: AlertCategory,
    title: string,
    message: string,
    timestamp: int,
    isRead: bool,
    machineId: Option<string>,
    employeeId: Option<string>,
    actionRequired: bool)

  /** The ids of the alerts, in list order. */
  function Ids(s: seq<Alert>): (r: seq<string>)
    ensures |r| == |s|
    ensures forall i :: 0 <= i < |s| ==> r[i] == s[i].id
  {
    seq(|s|, i requires 0 <= i < |s| => s[i].id)
  }

  // ----- The list operations (each page wraps them around its own state) -----

  /** `handleMarkAsRead(id)`. */
  function MarkAsRead(s: seq<Alert>, id: string): (r: seq<Alert>)
    ensures |r| == |s|
    ensures forall i :: 0 <= i < |s| ==> r[i].isRead == (s[i].isRead || s[i].id == id)
    ensures forall i :: 0 <= i < |s| ==> r[i].(isRead := s[i].isRead) == s[i]
  {
    seq(|s|, i requires 0 <= i < |s| => if s[i].id == id then s[i].(isRead := true) else s[i])
  }

  /** `handleMarkAllAsRead()`. */
  function MarkAllAsRead(s: seq<Alert>): (r: seq<Alert>)
    ensures |r| == |s|
    ensures forall i :: 0 <= i < |s| ==> r[i].isRead && r[i].(isRead := s[i].isRead) == s[i]
  {
    seq(|s|, i requires 0 <= i < |s| => s[i].(isRead := true))
  }

  function NotId(id: string): Alert -> bool {
    (a: Alert) => a.id != id
  }

  function IsUnread(a: Alert): bool {
    !a.isRead
  }

  /** `handleDismiss(id)`: removes exactly the alerts with that id and keeps
      the others in order. */
  function Dismiss(s: seq<Alert>, id: string): (r: seq<Alert>)
    ensures forall a :: a in r ==> a.id != id
    ensures forall a: Alert :: a.id != id ==> multiset(r)[a] == multiset(s)[a]
    ensures SubseqOf(r, s)
  {
    FilterIsSubseq(s, NotId(id));
    FilterCounts(s, NotId(id));
    Filter(s, NotId(id))
  }

  /** `handleClearAll()`: keeps exactly the unread alerts, in order. */
  function ClearRead(s: seq<Alert>): (r: seq<Alert>)
    ensures forall a :: a in r ==> !a.isRead
    ensures forall a: Alert :: !a.isRead ==> multiset(r)[a] == multiset(s)[a]
    ensures SubseqOf(r, s)
    ensures |r| == UnreadCount(s)
  {
    FilterIsSubseq(s, IsUnread);
    FilterCounts(s, IsUnread);
    Filter(s, IsUnread)
  }

  /** `handleResolve(id)`. */
  function Resolve(s: seq<Alert>, id: string): (r: seq<Alert>)
    ensures |r| == |s|
    ensures forall i :: 0 <= i < |s| ==>
      if s[i].id == id then r[i].isRead && !r[i].actionRequired
      else r[i] == s[i]
    ensures forall i :: 0 <= i < |s| ==> r[i].(isRead := s[i].isRead, actionRequired := s[i].actionRequired) == s[i]
  {
    seq(|s|, i requires 0 <= i < |s| =>
      if s[i].id == id then s[i].(isRead := true, actionRequired := false) else s[i])
  }

  lemma MarkAsReadIdempotent(s: seq<Alert>, id: string)
    ensures MarkAsRead(MarkAsRead(s, id), id) == MarkAsRead(s, id)
  {
  }

  lemma MarkAllAsReadIdempotent(s: seq<Alert>)
    ensures MarkAllAsRead(MarkAllAsRead(s)) == MarkAllAsRead(s)
  {
  }

  // ----- Counters -----

  function IsActionable(a: Alert): bool {
    a.actionRequired && !a.isRead
  }

  function IsUnreadError(a: Alert): bool {
    a.kind == Error && !a.isRead
  }

  function IsUnreadWarning(a: Alert): bool {
    a.kind == Warning && !a.isRead
  }

  function IsUnreadErrorOrWarning(a: Alert): bool {
    IsUnreadError(a) || IsUnreadWarning(a)
  }

  function UnreadCount(s: seq<Alert>): nat {
    |Filter(s, IsUnread)|
  }

  function ActionRequiredCount(s: seq<Alert>): nat {
    |Filter(s, IsActionable)|
  }

  function ErrorCount(s: seq<Alert>): nat {
    |Filter(s, IsUnreadError)|
  }

  function WarningCount(s: seq<Alert>): nat {
    |Filter(s, IsUnreadWarning)|
  }

  /** The counters shown by the alert pages and the dropdown are nested:
      actionable unread alerts are among the unread ones, and unread errors
      and unread warnings are disjoint parts of the unread ones. */
  lemma CountersOrdered(s: seq<Alert>)
    ensures ActionRequiredCount(s) <= UnreadCount(s) <= |s|
    ensures ErrorCount(s) + WarningCount(s) <= UnreadCount(s)
  {
    FilterWeaker(s, IsActionable, IsUnread);
    FilterDisjointCount(s, IsUnreadError, IsUnreadWarning, IsUnreadErrorOrWarning);
    FilterWeaker(s, IsUnreadErrorOrWarning, IsUnread);
  }

  /** After "mark all as read" nothing is unread. */
  lemma {:induction false} MarkAllAsReadClearsUnread(s: seq<Alert>)
    ensures UnreadCount(MarkAllAsRead(s)) == 0
  {
    var r := MarkAllAsRead(s);
    FilterNone(r, IsUnread);
  }

  // ----- The list filter -----

  datatype Tab = AllTab | UnreadTab | ActionTab

  datatype TypeFilter = AnyType | OnlyType(t: AlertType)

  datatype CategoryFilter = AnyCategory | OnlyCategory(c: AlertCategory)

  predicate MatchesTab(a: Alert, tab: Tab) {
    match tab
    case AllTab => true
    case UnreadTab => !a.isRead
    case ActionTab => a.actionRequired && !a.isRead
  }

  /** Case-insensitive search over title and message; the empty query
      matches everything. */
  predicate MatchesSearch(a: Alert, query: string) {
    query == ""
    || Contains(ToLower(a.title), ToLower(query))
    || Contains(ToLower(a.message), ToLower(query))
  }

  predicate Matches(a: Alert, tab: Tab, tf: TypeFilter, cf: CategoryFilter, query: string) {
    && MatchesTab(a, tab)
    && (tf.AnyType? || a.kind == tf.t)
    && (cf.AnyCategory? || a.category == cf.c)
    && MatchesSearch(a, query)
  }

  function Matcher(tab: Tab, tf: TypeFilter, cf: CategoryFilter, query: string): Alert -> bool {
    a => Matches(a, tab, tf, cf, query)
  }

  /** `filteredAlerts`: the alerts that pass every filter, in list order. */
  function FilterAlerts(s: seq<Alert>, tab: Tab, tf: TypeFilter, cf: CategoryFilter, query: string): (r: seq<Alert>)
    ensures forall a :: a in r ==> Matches(a, tab, tf, cf, query)
    ensures forall a :: Matches(a, tab, tf, cf, query) ==> multiset(r)[a] == multiset(s)[a]
    ensures SubseqOf(r, s)
  {
    FilterIsSubseq(s, Matcher(tab, tf, cf, query));
    FilterCounts(s, Matcher(tab, tf, cf, query));
    Filter(s, Matcher(tab, tf, cf, query))
  }

  /** The "action" tab shows a subsequence of the "unread" tab, which shows a
      subsequence of the "all" tab. */
  lemma TabsNested(s: seq<Alert>, tf: TypeFilter, cf: CategoryFilter, query: string)
    ensures SubseqOf(FilterAlerts(s, ActionTab, tf, cf, query), FilterAlerts(s, UnreadTab, tf, cf, query))
    ensures SubseqOf(FilterAlerts(s, UnreadTab, tf, cf, query), FilterAlerts(s, AllTab, tf, cf, query))
  {
    FilterWeaker(s, Matcher(ActionTab, tf, cf, query), Matcher(UnreadTab, tf, cf, query));
    FilterWeaker(s, Matcher(UnreadTab, tf, cf, query), Matcher(AllTab, tf, cf, query));
  }

  /** With no filter set and an empty search, the whole list is shown. */
  lemma NoFilterShowsAll(s: seq<Alert>)
    ensures FilterAlerts(s, AllTab, AnyType, AnyCategory, "") == s
  {
    FilterAll(s, Matcher(AllTab, AnyType, AnyCategory, ""));
  }

  // ----- "Time ago" label -----

  /** The four buckets of `formatTimeAgo`. */
  datatype Ago = JustNow | MinutesAgo(n: int) | HoursAgo(n: int) | DaysAgo(n: int)

  /** Whole minutes elapsed, rounded down as `Math.floor` does. */
  function ElapsedMinutes(nowMs: int, thenMs: int): (m: int)
    ensures m * 60000 <= nowMs - thenMs < m * 60000 + 60000
  {
    (nowMs - thenMs) / 60000
  }

  /** The bucket of an elapsed time of `m` whole minutes. */
  function AgoOf(m: int): (r: Ago)
    ensures r.JustNow? <==> m < 1
    ensures r.MinutesAgo? ==> 1 <= m < 60 && r.n == m
    ensures r.HoursAgo? ==> 60 <= m < 1440 && r.n * 60 <= m < r.n * 60 + 60
    ensures r.DaysAgo? ==> 1440 <= m && r.n * 1440 <= m < r.n * 1440 + 1440
    ensures (r.HoursAgo? <==> 60 <= m < 1440) && (r.DaysAgo? <==> 1440 <= m)
  {
    if m < 1 then JustNow
    else if m < 60 then MinutesAgo(m)
    else if m < 1440 then HoursAgo(m / 60)
    else DaysAgo(m / 1440)
  }

  function RenderAgo(a: Ago): string {
    match a
    case JustNow => "Ahora mismo"
    case MinutesAgo(n) => "Hace " + IntToString(n) + " min"
    case HoursAgo(n) => "Hace " + IntToString(n) + " hrs"
    case DaysAgo(n) => "Hace " + IntToString(n) + " días"
  }

  /** `formatTimeAgo(date)` evaluated at time `nowMs`. */
  function FormatTimeAgo(nowMs: int, thenMs: int): string {
    RenderAgo(AgoOf(ElapsedMinutes(nowMs, thenMs)))
  }

  /** The label always names a bucket no finer than the elapsed time: within
      the first hour it shows the minutes themselves, and hours and days are
      1..23 and at least 1 respectively. */
  lemma AgoRanges(m: int)
    ensures AgoOf(m).HoursAgo? ==> 1 <= AgoOf(m).n <= 23
    ensures AgoOf(m).DaysAgo? ==> AgoOf(m).n >= 1
  {
  }
}
