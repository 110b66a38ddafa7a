/** The dashboard page: it owns the list of alerts and the time of the last
    refresh, applies status changes requested by the alert cards, and on every
    render derives the counters, the display order, the cards and the map. */
module Index {
  import opened Alerts
  import opened DisplayOrder
  import AlertCard
  import MapView

  /** The four numbers shown above the list. */
  datatype Counters = Counters(totalAlerts: nat, pendingAlerts: nat, assignedAlerts: nat, resolvedAlerts: nat)

  /** A transient notification shown to the operator. */
  datatype Toast = Toast(title: string, description: string)

  const MinuteMs: int := 1000 * 60

  /** The five alerts the page starts with, `now` being the clock when the
      page's code is loaded. Event times are given as offsets before `now`: every
      alert happened between two hours and a quarter of an hour earlier. */
  function Seed(now: int): (s: seq<Alert>)
    ensures |s| == 5
    ensures UniqueIds(s) && AllKnown(s) && AllCanonical(s)
    ensures forall i :: 0 <= i < |s| ==> now - 120 * MinuteMs <= s[i].time <= now - 15 * MinuteMs
  {
    [ Alert("1", "SOS001", Medical, 28.6139, 77.2090, now - MinuteMs * 15, 85, LoRa, Pending),
      Alert("2", "SOS002", Fire, 28.7041, 77.1025, now - MinuteMs * 45, 62, GSM, Assigned),
      Alert("3", "SOS003", Police, 28.5355, 77.3910, now - MinuteMs * 120, 45, LoRa, Resolved),
      Alert("4", "SOS004", Medical, 28.6289, 77.3762, now - MinuteMs * 30, 92, GSM, Pending),
      Alert("5", "SOS005", Fire, 28.6448, 77.1675, now - MinuteMs * 90, 28, LoRa, Assigned) ]
  }

  /** No two alerts share an id. */
  predicate UniqueIds(s: seq<Alert>) {
    forall i, j :: 0 <= i < j < |s| ==> s[i].id != s[j].id
  }

  /** Every status of the list is canonical (see `Alerts.Canonical`). */
  predicate AllCanonical(s: seq<Alert>) {
    forall i :: 0 <= i < |s| ==> Canonical(s[i].status)
  }

  /** The status update: a new list in which every alert whose id is `id` has
      status `newStatus`, all its other fields as they were, and every other
      alert is unchanged, at the same position. */
  function UpdateStatus(s: seq<Alert>, id: string, newStatus: string): (r: seq<Alert>)
    ensures |r| == |s|
    ensures forall i :: 0 <= i < |s| && s[i].id == id ==> r[i] == s[i].(status := Parse(newStatus))
    ensures forall i :: 0 <= i < |s| && s[i].id != id ==> r[i] == s[i]
  {
    if s == [] then []
    else
      var head := if s[0].id == id then s[0].(status := Parse(newStatus)) else s[0];
      [head] + UpdateStatus(s[1..], id, newStatus)
  }

  /** An id that matches no alert leaves the list as it was. */
  lemma UpdateUnknownId(s: seq<Alert>, id: string, newStatus: string)
    requires forall i :: 0 <= i < |s| ==> s[i].id != id
    ensures UpdateStatus(s, id, newStatus) == s
  {
  }

  /** Only the status changes: ids, codes, types, coordinates, times, battery
      levels and modes read the same before and after. */
  lemma UpdateKeepsOtherFields(s: seq<Alert>, id: string, newStatus: string, i: int)
    requires 0 <= i < |s|
    ensures var a := UpdateStatus(s, id, newStatus)[i];
      a.id == s[i].id && a.sosId == s[i].sosId && a.kind == s[i].kind &&
      a.latitude == s[i].latitude && a.longitude == s[i].longitude &&
      a.time == s[i].time && a.battery == s[i].battery && a.mode == s[i].mode
    ensures UpdateStatus(s, id, newStatus)[i].status == if s[i].id == id then Parse(newStatus) else s[i].status
  {
  }

  /** The last of two updates of the same id wins. */
  lemma UpdateLastWins(s: seq<Alert>, id: string, first: string, second: string)
    ensures UpdateStatus(UpdateStatus(s, id, first), id, second) == UpdateStatus(s, id, second)
  {
    var a, b := UpdateStatus(UpdateStatus(s, id, first), id, second), UpdateStatus(s, id, second);
    assert |a| == |b|;
    forall i | 0 <= i < |a|
      ensures a[i] == b[i]
    {
    }
  }

  /** Updates of two different ids can be applied in either order. */
  lemma UpdatesCommute(s: seq<Alert>, id1: string, st1: string, id2: string, st2: string)
    requires id1 != id2
    ensures UpdateStatus(UpdateStatus(s, id1, st1), id2, st2) == UpdateStatus(UpdateStatus(s, id2, st2), id1, st1)
  {
    var a, b := UpdateStatus(UpdateStatus(s, id1, st1), id2, st2), UpdateStatus(UpdateStatus(s, id2, st2), id1, st1);
    assert |a| == |b|;
    forall i | 0 <= i < |a|
      ensures a[i] == b[i]
    {
    }
  }

  /** Updating to one of the three statuses keeps every status known, and any
      update keeps every status canonical. */
  lemma UpdateKeepsKnown(s: seq<Alert>, id: string, newStatus: string)
    ensures AllCanonical(s) ==> AllCanonical(UpdateStatus(s, id, newStatus))
    ensures AllKnown(s) && newStatus in StatusNames ==> AllKnown(UpdateStatus(s, id, newStatus))
  {
    var r := UpdateStatus(s, id, newStatus);
    assert forall i :: 0 <= i < |r| ==> r[i].status == s[i].status || r[i].status == Parse(newStatus);
  }

  /** A request offered by the card of an alert, applied to a list with unique
      ids, moves that alert strictly forward in the rank table, leaves every
      other alert as it was, and keeps all statuses known. */
  lemma OfferedRequestAdvances(s: seq<Alert>, i: int, req: AlertCard.Request)
    requires UniqueIds(s) && 0 <= i < |s|
    requires req in AlertCard.Offered(s[i])
    ensures var r := UpdateStatus(s, req.id, req.target);
      && r[i].status.Known() && s[i].status.Known()
      && Rank(s[i].status) < Rank(r[i].status)
      && (forall j :: 0 <= j < |s| && j != i ==> r[j] == s[j])
    ensures AllKnown(s) ==> AllKnown(UpdateStatus(s, req.id, req.target))
  {
    UpdateKeepsKnown(s, req.id, req.target);
  }

  /** The number of alerts whose status is `st` (a filter's length). */
  function Count(s: seq<Alert>, st: Status): (c: nat)
    ensures c <= |s|
    ensures c == 0 <==> forall i :: 0 <= i < |s| ==> s[i].status != st
    ensures c == |s| <==> forall i :: 0 <= i < |s| ==> s[i].status == st
  {
    if s == [] then 0
    else (if s[0].status == st then 1 else 0) + Count(s[1..], st)
  }

  /** The number of alerts whose status is none of the three. */
  function CountUnknown(s: seq<Alert>): (c: nat)
    ensures c <= |s|
    ensures c == 0 <==> AllKnown(s)
  {
    if s == [] then 0
    else (if s[0].status.Known() then 0 else 1) + CountUnknown(s[1..])
  }

  /** The counters for one render. */
  function Stats(s: seq<Alert>): (c: Counters)
    ensures c.totalAlerts == |s|
    ensures c.pendingAlerts <= c.totalAlerts && c.assignedAlerts <= c.totalAlerts && c.resolvedAlerts <= c.totalAlerts
  {
    Counters(|s|, Count(s, Pending), Count(s, Assigned), Count(s, Resolved))
  }

  /** Every alert is counted once: as pending, assigned, resolved or unknown. */
  lemma {:induction false} CountsPartition(s: seq<Alert>)
    ensures |s| == Count(s, Pending) + Count(s, Assigned) + Count(s, Resolved) + CountUnknown(s)
  {
    if s != [] {
      CountsPartition(s[1..]);
    }
  }

  /** With every status one of the three, the total is the sum of the other three counters. */
  lemma StatsPartition(s: seq<Alert>)
    requires AllKnown(s)
    ensures Stats(s).totalAlerts == Stats(s).pendingAlerts + Stats(s).assignedAlerts + Stats(s).resolvedAlerts
  {
    CountsPartition(s);
  }

  lemma {:induction false} CountAppend(s: seq<Alert>, t: seq<Alert>, st: Status)
    ensures Count(s + t, st) == Count(s, st) + Count(t, st)
  {
    if s == [] {
      assert s + t == t;
    } else {
      assert (s + t)[1..] == s[1..] + t;
      CountAppend(s[1..], t, st);
    }
  }

  /** Taking the alert at `j` out of a list takes it out of its count. */
  lemma CountRemove(t: seq<Alert>, j: int, st: Status)
    requires 0 <= j < |t|
    ensures Count(t, st) == Count(t[..j] + t[j + 1..], st) + (if t[j].status == st then 1 else 0)
  {
    assert t == t[..j] + [t[j]] + t[j + 1..];
    CountAppend(t[..j] + [t[j]], t[j + 1..], st);
    CountAppend(t[..j], [t[j]], st);
    CountAppend(t[..j], t[j + 1..], st);
  }

  /** Taking the alert at `j` out of a list takes it out of its multiset. */
  lemma MultisetRemove(t: seq<Alert>, j: int)
    requires 0 <= j < |t|
    ensures multiset(t[..j] + t[j + 1..]) == multiset(t) - multiset{t[j]}
  {
    assert t == t[..j] + [t[j]] + t[j + 1..];
  }

  /** A count depends only on which alerts there are, not on their order. */
  lemma {:induction false} CountPermutation(s: seq<Alert>, t: seq<Alert>, st: Status)
    requires multiset(s) == multiset(t)
    ensures Count(s, st) == Count(t, st)
  {
    if s == [] {
      assert |t| == |multiset(t)| == 0;
    } else {
      var x := s[0];
      assert x in multiset(t);
      var j :| 0 <= j < |t| && t[j] == x;
      MultisetRemove(t, j);
      MultisetRemove(s, 0);
      CountPermutation(s[1..], t[..j] + t[j + 1..], st);
      CountRemove(t, j, st);
    }
  }

  /** Reordering the list, as the display sort does, leaves the counters alone. */
  lemma StatsPermutation(s: seq<Alert>, t: seq<Alert>)
    requires multiset(s) == multiset(t)
    ensures Stats(s) == Stats(t)
  {
    assert |s| == |multiset(s)| == |t|;
    CountPermutation(s, t, Pending);
    CountPermutation(s, t, Assigned);
    CountPermutation(s, t, Resolved);
  }

  /** Reordering the list keeps every status canonical. */
  lemma CanonicalPermutation(s: seq<Alert>, t: seq<Alert>)
    requires multiset(s) == multiset(t)
    requires AllCanonical(s)
    ensures AllCanonical(t)
  {
    forall i | 0 <= i < |t|
      ensures Canonical(t[i].status)
    {
      assert t[i] in multiset(t);
      assert t[i] in s;
    }
  }

  /** An alert of a list with unique ids occurs in it once. */
  lemma UniqueIdsOnce(s: seq<Alert>, p: int)
    requires UniqueIds(s) && 0 <= p < |s|
    ensures multiset(s)[s[p]] == 1
  {
    var x := s[p];
    assert s == s[..p] + [x] + s[p + 1..];
    forall r | 0 <= r < |s| && r != p
      ensures s[r] != x
    {
      if r < p {
        assert s[r].id != s[p].id;
      } else {
        assert s[p].id != s[r].id;
      }
    }
    assert x !in s[..p] && x !in s[p + 1..];
  }

  /** An alert found at two positions occurs at least twice. */
  lemma TwoPositions(t: seq<Alert>, i: int, j: int)
    requires 0 <= i < j < |t| && t[i] == t[j]
    ensures multiset(t)[t[i]] >= 2
  {
    assert t == t[..j] + t[j..];
    assert t[i] in t[..j] && t[j] in t[j..];
  }

  /** Reordering the list, as the sort does, keeps the ids unique. */
  lemma UniqueIdsPermutation(s: seq<Alert>, t: seq<Alert>)
    requires multiset(s) == multiset(t)
    requires UniqueIds(s)
    ensures UniqueIds(t)
  {
    forall i, j | 0 <= i < j < |t|
      ensures t[i].id != t[j].id
    {
      assert t[i] in multiset(s) && t[j] in multiset(s);
      var p :| 0 <= p < |s| && s[p] == t[i];
      var q :| 0 <= q < |s| && s[q] == t[j];
      if t[i] == t[j] {
        TwoPositions(t, i, j);
        UniqueIdsOnce(s, p);
      } else if p < q {
        assert s[p].id != s[q].id;
      } else {
        assert s[q].id != s[p].id;
      }
    }
  }
  /** A status update keeps the ids unique: it changes no id. */
  lemma UpdateKeepsIds(s: seq<Alert>, id: string, newStatus: string)
    requires UniqueIds(s)
    ensures UniqueIds(UpdateStatus(s, id, newStatus))
  {
    var r := UpdateStatus(s, id, newStatus);
    assert forall i :: 0 <= i < |r| ==> r[i].id == s[i].id;
  }

  /** The count of a list with a given first alert. */
  lemma CountCons(x: Alert, t: seq<Alert>, st: Status)
    ensures Count([x] + t, st) == (if x.status == st then 1 else 0) + Count(t, st)
  {
    assert ([x] + t)[1..] == t;
  }

  /** The count of a five-alert list, alert by alert. */
  lemma CountFive(a: Alert, b: Alert, c: Alert, d: Alert, e: Alert, st: Status)
    ensures Count([a, b, c, d, e], st) ==
      (if a.status == st then 1 else 0) + (if b.status == st then 1 else 0) + (if c.status == st then 1 else 0) +
      (if d.status == st then 1 else 0) + (if e.status == st then 1 else 0)
  {
    CountCons(a, [b, c, d, e], st);
    CountCons(b, [c, d, e], st);
    CountCons(c, [d, e], st);
    CountCons(d, [e], st);
    CountCons(e, [], st);
    assert [a] + [b, c, d, e] == [a, b, c, d, e];
    assert [b] + [c, d, e] == [b, c, d, e] && [c] + [d, e] == [c, d, e];
    assert [d] + [e] == [d, e] && [e] + [] == [e];
  }

  /** The seed list counts five alerts: two pending, two assigned, one resolved. */
  lemma SeedStats(now: int)
    ensures Stats(Seed(now)) == Counters(5, 2, 2, 1)
  {
    var s := Seed(now);
    assert s == [s[0], s[1], s[2], s[3], s[4]];
    assert Count(s, Pending) == 2 by {
      CountFive(s[0], s[1], s[2], s[3], s[4], Pending);
    }
    assert Count(s, Assigned) == 2 by {
      CountFive(s[0], s[1], s[2], s[3], s[4], Assigned);
    }
    assert Count(s, Resolved) == 1 by {
      CountFive(s[0], s[1], s[2], s[3], s[4], Resolved);
    }
  }

  /** Every seed alert shows a healthy battery. */
  lemma SeedBatteries(now: int)
    ensures forall i :: 0 <= i < |Seed(now)| ==> AlertCard.BatteryClass(Seed(now)[i].battery) == AlertCard.HealthyClass
  {
    var s := Seed(now);
    assert forall i :: 0 <= i < |s| ==> s[i].battery >= 28;
  }

  /** Lower-cases one character if it is an ASCII capital letter. */
  function Lower(c: char): (d: char)
    ensures 'A' <= c <= 'Z' ==> 'a' <= d <= 'z' && d as int == c as int + 32
    ensures !('A' <= c <= 'Z') ==> d == c
  {
    if 'A' <= c <= 'Z' then c - 'A' + 'a' else c
  }

  /** Lower-cases the ASCII letters of a string. */
  function AsciiLower(s: string): (r: string)
    ensures |r| == |s|
    ensures forall i :: 0 <= i < |s| ==> r[i] == Lower(s[i])
  {
    if s == [] then [] else [Lower(s[0])] + AsciiLower(s[1..])
  }

  /** The notification of a status update, whether or not any alert matched. */
  function StatusToast(id: string, newStatus: string): (t: Toast)
    ensures t.title == "Status Updated"
    ensures t.description == "Alert " + id + " marked as " + AsciiLower(newStatus)
  {
    Toast("Status Updated", "Alert " + id + " marked as " + AsciiLower(newStatus))
  }

  /** Lower-casing twice is lower-casing once. */
  lemma AsciiLowerIdempotent(s: string)
    ensures AsciiLower(AsciiLower(s)) == AsciiLower(s)
  {
    var r := AsciiLower(s);
    assert forall i :: 0 <= i < |r| ==> Lower(r[i]) == r[i];
  }

  /** The notification of a manual refresh: a fixed text whose title is not
      that of a status update. */
  function RefreshToast(): (t: Toast)
    ensures t.title != "Status Updated"
    ensures t.description == "Alert data has been updated"
  {
    Toast("Data Refreshed", "Alert data has been updated")
  }

  /** A refresh notification is never mistaken for a status-update one. */
  lemma RefreshToastDistinct(id: string, newStatus: string)
    ensures RefreshToast() != StatusToast(id, newStatus)
  {
    assert RefreshToast().title != StatusToast(id, newStatus).title;
  }

  /** The status literal the resolve button sends, lower-cased. */
  lemma LowerResolved()
    ensures AsciiLower("RESOLVED") == "resolved"
  {
    var r := AsciiLower("RESOLVED");
    assert Lower('R') == 'r' && Lower('E') == 'e' && Lower('S') == 's' && Lower('O') == 'o';
    assert Lower('L') == 'l' && Lower('V') == 'v' && Lower('D') == 'd';
    assert forall i :: 0 <= i < 8 ==> r[i] == "resolved"[i];
  }

  /** The card press "resolve" on alert 1 reads "Alert 1 marked as resolved". */
  lemma StatusToastExample()
    ensures StatusToast("1", "RESOLVED").description == "Alert 1 marked as resolved"
  {
    LowerResolved();
    StatusToastText("1", "RESOLVED", "resolved");
    ResolvedWording();
  }

  /** The description of a status toast, once the lower-cased status is known. */
  lemma StatusToastText(id: string, newStatus: string, lowered: string)
    requires AsciiLower(newStatus) == lowered
    ensures StatusToast(id, newStatus).description == "Alert " + id + " marked as " + lowered
  {
  }

  /** The pieces of the example's description put together. */
  lemma ResolvedWording()
    ensures "Alert " + "1" + " marked as " + "resolved" == "Alert 1 marked as resolved"
  {
  }

  /** The page's state. `toasts` records every notification shown, in order. */
  class Dashboard {
    var alerts: array<Alert>
    var lastRefresh: int
    ghost var toasts: seq<Toast>

    /** Every status held is canonical, so the statuses the cards compare
        with `==` agree with the strings the source compares; and no two alerts
        share an id, so a card's request reaches its own alert only (see
        `OfferedRequestAdvances`). */
    ghost predicate Valid()
      reads this, alerts
    {
      AllCanonical(alerts[..]) && UniqueIds(alerts[..])
    }

    /** The page at start-up. The seed list is built from the clock read when
        the code is loaded (`loadTime`), the refresh time from the clock read
        when the page mounts (`mountTime`). */
    constructor (loadTime: int, mountTime: int)
      ensures Valid()
      ensures alerts[..] == Seed(loadTime)
      ensures lastRefresh == mountTime
      ensures toasts == []
    {
      var seed := Seed(loadTime);
      alerts := new Alert[|seed|](i requires 0 <= i < |seed| => seed[i]);
      lastRefresh := mountTime;
      toasts := [];
    }

    /** The callback the cards call: replaces the list by its status update and
        notifies, even when no alert has that id. The refresh time stays. */
    method HandleStatusUpdate(id: string, newStatus: string)
      requires Valid()
      modifies this
      ensures Valid()
      ensures fresh(alerts)
      ensures alerts[..] == UpdateStatus(old(alerts[..]), id, newStatus)
      ensures lastRefresh == old(lastRefresh)
      ensures toasts == old(toasts) + [StatusToast(id, newStatus)]
    {
      var next := UpdateStatus(alerts[..], id, newStatus);
      UpdateKeepsKnown(alerts[..], id, newStatus);
      UpdateKeepsIds(alerts[..], id, newStatus);
      alerts := new Alert[|next|](i requires 0 <= i < |next| => next[i]);
      assert alerts[..] == next;
      toasts := toasts + [StatusToast(id, newStatus)];
    }

    /** The refresh button: stamps the refresh time and notifies; the alerts
        are neither replaced nor changed. */
    method HandleRefresh(now: int)
      requires Valid()
      modifies this`lastRefresh, this`toasts
      ensures Valid()
      ensures alerts == old(alerts) && alerts[..] == old(alerts[..])
      ensures lastRefresh == now
      ensures toasts == old(toasts) + [RefreshToast()]
    {
      lastRefresh := now;
      toasts := toasts + [RefreshToast()];
    }

    /** One firing of the periodic timer: stamps the refresh time, silently. */
    method Tick(now: int)
      requires Valid()
      modifies this`lastRefresh
      ensures Valid()
      ensures alerts == old(alerts) && alerts[..] == old(alerts[..])
      ensures lastRefresh == now
      ensures toasts == old(toasts)
    {
      lastRefresh := now;
    }

    /** One render: counts the alerts, sorts the state array itself into
        display order, then builds one card per alert in that order and the
        map from the sorted array. The counters do not depend on the order. */
    method Render() returns (stats: Counters, cards: seq<AlertCard.Card>, view: MapView.View)
      requires Valid()
      modifies alerts
      ensures Valid()
      ensures stats == Stats(old(alerts[..])) && stats == Stats(alerts[..])
      ensures multiset(alerts[..]) == multiset(old(alerts[..]))
      ensures AllKnown(old(alerts[..])) ==> alerts[..] == ByRank(old(alerts[..]))
      ensures |cards| == alerts.Length
      ensures forall i :: 0 <= i < |cards| ==> cards[i] == AlertCard.Render(alerts[i])
      ensures forall i :: 0 <= i < |cards| ==> (cards[i].statusClass == AlertCard.MutedClass <==> !alerts[i].status.Known())
      ensures view == MapView.Render(alerts[..])
    {
      stats := Stats(alerts[..]);
      SortByRank(alerts);
      StatsPermutation(old(alerts[..]), alerts[..]);
      CanonicalPermutation(old(alerts[..]), alerts[..]);
      UniqueIdsPermutation(old(alerts[..]), alerts[..]);
      cards := seq(alerts.Length, i reads this, alerts requires 0 <= i < alerts.Length => AlertCard.Render(alerts[i]));
      view := MapView.Render(alerts[..]);
    }
  }
}
