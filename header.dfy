/** The header's notification bell: it holds its own copy of the seed alerts
    and changes it with three callbacks. Each callback changes only this
    object, so the header's list is independent of every page's list. */
module Header {
  import opened Alerts

  class HeaderAlerts {
    var alerts: seq<Alert>

    constructor (seed: seq<Alert>)
      ensures alerts == seed
    {
      alerts := seed;
    }

    method HandleMarkAsRead(id: string)
      modifies this
      ensures alerts == MarkAsRead(old(alerts), id)
    {
      alerts := MarkAsRead(alerts, id);
    }

    method HandleDismiss(id: string)
      modifies this
      ensures alerts == Dismiss(old(alerts), id)
    {
      alerts := Dismiss(alerts, id);
    }

    method HandleMarkAllAsRead()
      modifies this
      ensures alerts == MarkAllAsRead(old(alerts))
    {
      alerts := MarkAllAsRead(alerts);
    }
  }
}
