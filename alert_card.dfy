/** One alert as a card: its icon, status badge and battery styling, and the
    status changes the card offers to request from the dashboard. */
module AlertCard {
  import opened Alerts
  import DisplayOrder

  const Ambulance := "\U{1F691}"
  const PoliceCar := "\U{1F694}"
  const FireEngine := "\U{1F692}"
  /** The glyph for any type string outside the three. */
  const Siren := "\U{1F6A8}"

  const PendingClass := "bg-pending text-pending-foreground"
  const AssignedClass := "bg-assigned text-assigned-foreground"
  const ResolvedClass := "bg-resolved text-resolved-foreground"
  /** The badge class for any status string outside the three. */
  const MutedClass := "bg-muted text-muted-foreground"

  const HealthyClass := "text-success"
  const CriticalClass := "text-destructive"

  /** A press of one of the card's buttons: the dashboard is asked to give the
      alert `id` the status spelled `target`. */
  datatype Request = Request(id: string, target: string)

  /** What the card shows that depends on the alert, markup aside. */
  datatype Card = Card(icon: string, statusClass: string, batteryClass: string, requests: seq<Request>)

  /** The type-to-icon lookup, total over strings. */
  function TypeIcon(kind: string): (icon: string)
    ensures icon in {Ambulance, PoliceCar, FireEngine, Siren}
    ensures icon == Siren <==> kind !in TypeNames
  {
    match kind
    case "MEDICAL" => Ambulance
    case "POLICE" => PoliceCar
    case "FIRE" => FireEngine
    case _ => Siren
  }

  /** The three types get three different icons, none of them the fallback. */
  lemma TypeIconsDistinct(s: AlertType, t: AlertType)
    ensures TypeIcon(TypeName(s)) != Siren
    ensures TypeIcon(TypeName(s)) == TypeIcon(TypeName(t)) <==> s == t
  {
  }

  /** The status-to-badge-class lookup, total over strings. */
  function StatusColor(status: string): (cls: string)
    ensures cls in {PendingClass, AssignedClass, ResolvedClass, MutedClass}
    ensures cls == MutedClass <==> status !in StatusNames
  {
    match status
    case "PENDING" => PendingClass
    case "ASSIGNED" => AssignedClass
    case "RESOLVED" => ResolvedClass
    case _ => MutedClass
  }

  /** The three statuses get three different badge classes. */
  lemma StatusColorsDistinct(x: Status, y: Status)
    requires x.Known() && y.Known()
    ensures StatusColor(Name(x)) != MutedClass
    ensures StatusColor(Name(x)) == StatusColor(Name(y)) <==> x == y
  {
  }

  /** The battery styling: healthy strictly above 20 percent. */
  function BatteryClass(battery: int): (cls: string)
    ensures cls in {HealthyClass, CriticalClass}
    ensures cls == HealthyClass <==> battery > 20
  {
    if battery > 20 then HealthyClass else CriticalClass
  }

  /** The boundary: 20 percent is critical, 21 is healthy. */
  lemma BatteryBoundary()
    ensures BatteryClass(20) == CriticalClass
    ensures BatteryClass(21) == HealthyClass
  {
  }

  /** The buttons the card shows for the alert's status, in screen order.
      Every button asks for this alert, and for a status strictly later in the
      rank table than the current one. */
  function Offered(alert: Alert): (rs: seq<Request>)
    ensures forall r :: r in rs ==> r.id == alert.id
    ensures forall r :: r in rs ==>
      alert.status.Known() && Parse(r.target).Known() &&
      DisplayOrder.Rank(alert.status) < DisplayOrder.Rank(Parse(r.target))
  {
    match alert.status
    case Pending => [Request(alert.id, "ASSIGNED"), Request(alert.id, "RESOLVED")]
    case Assigned => [Request(alert.id, "RESOLVED")]
    case _ => []
  }

  /** The card offers exactly the statuses that come after the current one:
      one button per later status, and none for a RESOLVED alert or for a
      status the card does not know. */
  lemma OffersExactlyLaterStatuses(alert: Alert, st: Status)
    requires st.Known()
    ensures (exists r :: r in Offered(alert) && r.target == Name(st)) <==>
      alert.status.Known() && DisplayOrder.Rank(alert.status) < DisplayOrder.Rank(st)
    ensures |Offered(alert)| == if alert.status.Known() then 2 - DisplayOrder.Rank(alert.status) else 0
  {
    var rs := Offered(alert);
    if exists r :: r in rs && r.target == Name(st) {
      var r :| r in rs && r.target == Name(st);
      ParseName(st);
    }
    if alert.status.Known() && DisplayOrder.Rank(alert.status) < DisplayOrder.Rank(st) {
      var w := if st == Resolved then rs[|rs| - 1] else rs[0];
      assert w in rs && w.target == Name(st);
    }
  }

  /** A PENDING alert offers to assign it or to resolve it directly. */
  lemma PendingOffers(alert: Alert)
    requires alert.status == Pending
    ensures Offered(alert) == [Request(alert.id, "ASSIGNED"), Request(alert.id, "RESOLVED")]
  {
  }

  /** An ASSIGNED alert offers only to resolve it. */
  lemma AssignedOffers(alert: Alert)
    requires alert.status == Assigned
    ensures Offered(alert) == [Request(alert.id, "RESOLVED")]
  {
  }

  /** A RESOLVED alert offers nothing. */
  lemma ResolvedOffersNothing(alert: Alert)
    requires alert.status == Resolved
    ensures Offered(alert) == []
  {
  }

  /** The card for one alert. Since the alert type is closed, the icon is never
      the fallback; the badge is muted exactly for a status outside the three. */
  function Render(alert: Alert): (c: Card)
    ensures c.icon != Siren
    ensures Canonical(alert.status) ==> (c.statusClass == MutedClass <==> !alert.status.Known())
    ensures c.batteryClass == HealthyClass <==> alert.battery > 20
    ensures c.requests == Offered(alert)
  {
    Card(TypeIcon(TypeName(alert.kind)), StatusColor(Name(alert.status)), BatteryClass(alert.battery), Offered(alert))
  }
}
