/** The notifications dropdown: counters, the badge on the bell, the
    "mark all" button and the click-to-read guard, over the list it is
    given. */
module AlertsDropdown {
  import opened Wrappers
  import opened Strings
  import opened Alerts

  /** The badge over the bell: hidden when nothing is unread, "9+" above
      nine, the count itself otherwise. */
  function Badge(unread: nat): (r: Option<string>)
    ensures r.None? <==> unread == 0
    ensures r == Some("9+") <==> unread > 9
    ensures 1 <= unread <= 9 ==> r == Some([DigitChar(unread)])
  {
    if unread == 0 then None
    else if unread > 9 then Some("9+")
    else Some(NatToString(unread))
  }

  /** The "mark all as read" button is shown. */
  predicate ShowMarkAll(s: seq<Alert>) {
    UnreadCount(s) > 0
  }

  /** The "n requieren acción" note is shown. */
  predicate ShowActionNote(s: seq<Alert>) {
    ActionRequiredCount(s) > 0
  }

  /** Clicking an alert asks to mark it as read only when it is unread. */
  function ClickRequest(a: Alert): (r: Option<string>)
    ensures r.Some? <==> !a.isRead
    ensures r.Some? ==> r.value == a.id
  {
    if !a.isRead then Some(a.id) else None
  }

  /** The list after the click on `a` has been handled by the owner's
      mark-as-read callback. */
  function AfterClick(s: seq<Alert>, a: Alert): seq<Alert> {
    match ClickRequest(a)
    case Some(id) => MarkAsRead(s, id)
    case None => s
  }

  /** Clicking a read alert changes nothing; clicking an unread one leaves
      every alert with its id read and changes nothing else. */
  lemma ClickEffect(s: seq<Alert>, a: Alert)
    ensures a.isRead ==> AfterClick(s, a) == s
    ensures |AfterClick(s, a)| == |s|
    ensures !a.isRead ==> forall i :: 0 <= i < |s| ==>
      AfterClick(s, a)[i] == s[i].(isRead := s[i].isRead || s[i].id == a.id)
  {
  }

  /** The dropdown's counters: the action note implies the mark-all button,
      and after "mark all" the badge and the button disappear. */
  lemma DropdownCounters(s: seq<Alert>)
    ensures ActionRequiredCount(s) <= UnreadCount(s)
    ensures ShowActionNote(s) ==> ShowMarkAll(s)
    ensures Badge(UnreadCount(MarkAllAsRead(s))).None? && !ShowMarkAll(MarkAllAsRead(s))
  {
    CountersOrdered(s);
    MarkAllAsReadClearsUnread(s);
  }
}
