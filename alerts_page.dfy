/** The stand-alone alerts page: its own alert list, changed by the five
    handlers. Its counters, filter and "time ago" label are the ones in
    `Alerts`; unlike the alert centre it has no view scope. */
module AlertsPage {
  import opened Seqs
  import opened Alerts

  class Page {
    var alerts: seq<Alert>

    /** The page starts from the seed alerts. */
    constructor (seed: seq<Alert>)
      ensures alerts == seed
    {
      alerts := seed;
    }

    method HandleMarkAsRead(id: string)
      modifies this
      ensures alerts == MarkAsRead(old(alerts), id)
    {
      alerts := MarkAsRead(alerts, id);
    }

    method HandleMarkAllAsRead()
      modifies this
      ensures alerts == MarkAllAsRead(old(alerts))
    {
      alerts := MarkAllAsRead(alerts);
    }

    method HandleDismiss(id: string)
      modifies this
      ensures alerts == Dismiss(old(alerts), id)
    {
      alerts := Dismiss(alerts, id);
    }

    method HandleClearAll()
      modifies this
      ensures alerts == ClearRead(old(alerts))
    {
      alerts := ClearRead(alerts);
    }

    method HandleResolve(id: string)
      modifies this
      ensures alerts == Resolve(old(alerts), id)
    {
      alerts := Resolve(alerts, id);
    }
  }

  /** "Mark all as read" followed by "clear all" empties the list. */
  lemma MarkAllThenClearEmpties(s: seq<Alert>)
    ensures ClearRead(MarkAllAsRead(s)) == []
  {
    var r := ClearRead(MarkAllAsRead(s));
    MarkAllAsReadClearsUnread(s);
  }

  /** A resolved alert no longer counts as unread or as awaiting action. */
  lemma ResolveRemovesFromCounters(s: seq<Alert>, id: string)
    ensures UnreadCount(Resolve(s, id)) <= UnreadCount(s)
    ensures ActionRequiredCount(Resolve(s, id)) <= ActionRequiredCount(s)
    ensures forall a :: a in Resolve(s, id) && a.id == id ==> !IsUnread(a) && !IsActionable(a)
  {
    var r := Resolve(s, id);
    FilterMonotone(s, r, IsUnread);
    FilterMonotone(s, r, IsActionable);
  }
}
