/** The alert record shared by the dashboard, the alert card and the map view. */
module Alerts {

  /** The kind of emergency. The record type declares this set closed and no
      operation ever writes the field, so it has exactly three values. */
  datatype AlertType = Medical | Police | Fire

  /** The transport an alert claims to have arrived over. */
  datatype Mode = LoRa | GSM

  /** The lifecycle tag of an alert. The status-update handler casts whatever
      string it receives into this field, so besides the three intended values
      a status can hold any other string; `Other` carries that string. */
  datatype Status = Pending | Assigned | Resolved | Other(raw: string)
  {
    /** One of the three statuses the record type declares. */
    predicate Known() {
      !Other?
    }
  }

  /** One emergency report. Coordinates are decimal degrees, `time` is the
      event time in milliseconds since the epoch, `battery` a percentage. */
  datatype Alert = Alert(
    id: string,
    sosId: string,
    kind: AlertType,
    latitude: real,
    longitude: real,
    time: int,
    battery: int,
    mode: Mode,
    status: Status)

  /** The three status literals the application uses. */
  const StatusNames: set<string> := {"PENDING", "ASSIGNED", "RESOLVED"}

  /** The three alert-type literals. */
  const TypeNames: set<string> := {"MEDICAL", "POLICE", "FIRE"}

  /** The string the record type spells an alert type with. */
  function TypeName(t: AlertType): (name: string)
    ensures name in TypeNames
  {
    match t
    case Medical => "MEDICAL"
    case Police => "POLICE"
    case Fire => "FIRE"
  }

  /** The string a status holds at run time. */
  function Name(st: Status): string
  {
    match st
    case Pending => "PENDING"
    case Assigned => "ASSIGNED"
    case Resolved => "RESOLVED"
    case Other(raw) => raw
  }

  /** A status value that is the one `Parse` gives for its name: an `Other`
      never spells one of the three known statuses. */
  predicate Canonical(st: Status) {
    st.Other? ==> st.raw !in StatusNames
  }

  /** What the cast `newStatus as any` stores: the string itself, seen as a status. */
  function Parse(s: string): (st: Status)
    ensures Canonical(st)
    ensures Name(st) == s
    ensures st.Known() <==> s in StatusNames
  {
    if s == "PENDING" then Pending
    else if s == "ASSIGNED" then Assigned
    else if s == "RESOLVED" then Resolved
    else Other(s)
  }

  /** Parsing the name of a canonical status gives the status back, so on
      canonical values comparing statuses is comparing their strings. */
  lemma ParseName(st: Status)
    requires Canonical(st)
    ensures Parse(Name(st)) == st
  {
  }

  /** Two canonical statuses with the same string are the same status. */
  lemma NameInjective(x: Status, y: Status)
    requires Canonical(x) && Canonical(y)
    ensures Name(x) == Name(y) <==> x == y
  {
    if Name(x) == Name(y) {
      ParseName(x);
      ParseName(y);
    }
  }
}
