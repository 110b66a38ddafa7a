/** The placeholder map: markers for the first few alerts and a caption with
    the number of alerts it was given. Marker positions are a cosmetic
    function of the marker's index and are not modelled. */
module MapView {
  import opened Alerts
  import AlertCard

  /** The most markers the map shows. */
  const MaxMarkers: nat := 8

  const PendingRing := "border-pending bg-pending/20"
  const AssignedRing := "border-assigned bg-assigned/20"
  const ResolvedRing := "border-resolved bg-resolved/20"
  /** The marker class for any status string outside the three. */
  const MutedRing := "border-muted bg-muted/20"

  /** One marker: which alert it stands for, its place in the marker list,
      its glyph, its ring class and its hover title. */
  datatype Marker = Marker(index: nat, id: string, icon: string, ringClass: string, title: string)

  /** What the map shows that depends on its input. */
  datatype View = View(markers: seq<Marker>, locationCount: nat)

  /** The map's own type-to-icon lookup, total over strings. */
  function TypeIcon(kind: string): (icon: string)
    ensures icon == "\U{1F6A8}" <==> kind !in TypeNames
  {
    match kind
    case "MEDICAL" => "\U{1F691}"
    case "POLICE" => "\U{1F694}"
    case "FIRE" => "\U{1F692}"
    case _ => "\U{1F6A8}"
  }

  /** The map and the card draw every type string with the same glyph. */
  lemma TypeIconMatchesCard(kind: string)
    ensures TypeIcon(kind) == AlertCard.TypeIcon(kind)
  {
  }

  /** The map's own status-to-marker-class lookup, total over strings. */
  function StatusColor(status: string): (cls: string)
    ensures cls in {PendingRing, AssignedRing, ResolvedRing, MutedRing}
    ensures cls == MutedRing <==> status !in StatusNames
  {
    match status
    case "PENDING" => PendingRing
    case "ASSIGNED" => AssignedRing
    case "RESOLVED" => ResolvedRing
    case _ => MutedRing
  }

  /** The three statuses get three different marker classes. */
  lemma StatusColorsDistinct(x: Status, y: Status)
    requires x.Known() && y.Known()
    ensures StatusColor(Name(x)) != MutedRing
    ensures StatusColor(Name(x)) == StatusColor(Name(y)) <==> x == y
  {
  }

  /** The marker for the alert at position `index`: it carries the alert's id,
      the glyph of its type (never the fallback), a muted ring exactly for a
      status string outside the three, and a title made of the type and the
      SOS code. */
  function MarkerAt(alert: Alert, index: nat): (m: Marker)
    ensures m.index == index && m.id == alert.id
    ensures m.icon == AlertCard.TypeIcon(TypeName(alert.kind)) && m.icon != AlertCard.Siren
    ensures m.ringClass == MutedRing <==> Name(alert.status) !in StatusNames
    ensures |m.title| > |TypeName(alert.kind)| + |alert.sosId|
    ensures m.title[..|TypeName(alert.kind)|] == TypeName(alert.kind)
    ensures m.title[|m.title| - |alert.sosId|..] == alert.sosId
  {
    Marker(index, alert.id, TypeIcon(TypeName(alert.kind)), StatusColor(Name(alert.status)),
           TypeName(alert.kind) + " - SOS #" + alert.sosId)
  }

  /** The markers: the first `MaxMarkers` alerts, in the order given, each at
      its own position; the rest are dropped. */
  function Markers(alerts: seq<Alert>): (ms: seq<Marker>)
    ensures |ms| <= MaxMarkers
    ensures |ms| == if |alerts| <= MaxMarkers then |alerts| else MaxMarkers
    ensures forall i :: 0 <= i < |ms| ==> ms[i] == MarkerAt(alerts[i], i)
  {
    var shown := if |alerts| <= MaxMarkers then alerts else alerts[..MaxMarkers];
    seq(|shown|, i requires 0 <= i < |shown| => MarkerAt(shown[i], i))
  }

  /** Alerts past the eighth never reach the map: appending to a list that
      already fills it changes no marker. */
  lemma MarkersIgnoreRemainder(alerts: seq<Alert>, more: seq<Alert>)
    requires |alerts| >= MaxMarkers
    ensures Markers(alerts + more) == Markers(alerts)
  {
    var a, b := Markers(alerts + more), Markers(alerts);
    assert |a| == |b|;
    forall i | 0 <= i < |a|
      ensures a[i] == b[i]
    {
      assert (alerts + more)[i] == alerts[i];
    }
  }

  /** The map for a list of alerts. */
  function Render(alerts: seq<Alert>): (v: View)
    ensures v.markers == Markers(alerts)
    ensures v.locationCount == |alerts|
  {
    View(Markers(alerts), |alerts|)
  }

  /** The caption counts every alert, the markers at most eight of them: the
      two differ exactly when there are more than eight alerts. */
  lemma CaptionCountsAll(alerts: seq<Alert>)
    ensures Render(alerts).locationCount >= |Render(alerts).markers|
    ensures Render(alerts).locationCount != |Render(alerts).markers| <==> |alerts| > MaxMarkers
  {
  }

  /** Ten alerts give eight markers and a caption of ten. */
  lemma TenAlerts(alerts: seq<Alert>)
    requires |alerts| == 10
    ensures |Render(alerts).markers| == 8
    ensures Render(alerts).locationCount == 10
  {
  }
}
