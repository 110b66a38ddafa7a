# Emergency alert dashboard: a verified model of its logic

The dashboard shows an in-memory list of SOS alerts (medical, police, fire).
An operator moves alerts through PENDING → ASSIGNED → RESOLVED with buttons
on each alert card. The page shows four counters. It lists the alerts ordered
by status, and it draws a placeholder map with markers for the first eight
alerts. This project models the logic under that markup:

- `Alerts` (alerts.dfy): the alert record. Its status is `Pending | Assigned | Resolved | Other(raw)`. The
  status-update handler casts any string into the field, so `Other` holds a
  string outside the three. `Parse` is that cast, and `Name` gives the string
  back. `Parse` builds `Other` only for strings that are not one of the three
  names. So every status the model produces is `Canonical`, and comparing
  statuses as values is the same as comparing their strings, as the source does.
- `DisplayOrder` (display_order.dfy): the rank table PENDING = 0, ASSIGNED = 1,
  RESOLVED = 2, and the comparator built from it. It also holds the in-place
  sort of the page's own state array. `ByRank` is an independent reference order:
  the PENDING alerts, then the ASSIGNED ones, then the RESOLVED ones, each group
  in its original order. The sort is proved to be a permutation. When every
  status is known, it is proved to produce exactly `ByRank`. `ByRank` is proved
  sorted, stable and a permutation, and it is the only order with those
  properties.
- `AlertCard` (alert_card.dfy): the type→icon and status→class lookups, the
  battery threshold, and the buttons a card offers (a small state machine).
- `MapView` (map_view.dfy): the map's own lookups, the first-eight marker
  selection and the caption count.
- `Index` (index.dfy): the status update as a function on lists, the counters,
  the seed data and the notifications. It also holds class `Dashboard`, which
  owns `alerts` (an array) and `lastRefresh` and has one method per handler
  and one for a render.

Clock readings are parameters (milliseconds): `loadTime` for the seed list,
`mountTime` for the first refresh time, `now` for later handlers. Notifications
go into the ghost log `Dashboard.toasts`.

Points where the code behaves other than its types or layout suggest; the model
follows the code:
- The sort runs on the state array itself (src/pages/Index.tsx:173-174), so the
  stored order changes on every render. Later status updates map over the
  reordered list.
- The `Alert` interface types `status` as a union of three literals
  (src/components/AlertCard.tsx:16), but the update handler casts any string
  into it (src/pages/Index.tsx:87). The dashboard's invariant `Dashboard.Valid`
  keeps every stored status canonical and every id unique.
- The two status→class lookups are separate tables with different class
  strings: badge classes on the card, ring classes on the map. Only the
  type→icon tables agree, and `MapView.TypeIconMatchesCard` proves that.
- A status outside the rank table looks up `undefined`. The subtraction then
  gives NaN, and ECMAScript's `Array.prototype.sort` treats a NaN comparison
  as +0. So `DisplayOrder.Compare` returns 0 whenever either status is unknown.
  That comparator is not consistent, and ECMAScript then leaves the order
  implementation-defined. So the sort promises only a permutation in that case.

## Model

| member | source | states |
|---|---|---|
| `Alerts.Parse` | src/pages/Index.tsx:87 | the cast stores the string itself: `Name(Parse(s)) == s`, the result is canonical, and it is one of the three statuses iff `s` is one of the three names |
| `Alerts.NameInjective` | src/components/AlertCard.tsx:16 | on canonical statuses, equal strings iff equal statuses (so string comparison in the source and value comparison in the model agree) |
| `DisplayOrder.Rank` | src/pages/Index.tsx:175 | the rank table: ranks are at most 2, rank 0 exactly for PENDING, rank 2 exactly for RESOLVED |
| `DisplayOrder.Compare` | src/pages/Index.tsx:174-176 | the comparator is nonzero only between two known statuses, and then its sign is the order of their ranks |
| `DisplayOrder.CompareAntisymmetric` | src/pages/Index.tsx:174-176 | swapping the arguments negates the comparison |
| `DisplayOrder.SortByRank` | src/pages/Index.tsx:173-177 | the in-place sort leaves a permutation of the array, and when every status is known the array equals `ByRank` of its old contents |
| `DisplayOrder.ByRankPermutation` | src/pages/Index.tsx:173-177 | with all statuses known, the display order is a permutation of the list |
| `DisplayOrder.ByRankSorted` | src/pages/Index.tsx:173-177 | the display order is non-decreasing in rank |
| `DisplayOrder.ByRankStable` | src/pages/Index.tsx:173-177 | the alerts of each rank appear in the display order in the relative order they had (stability) |
| `DisplayOrder.StableSortIsByRank` | src/pages/Index.tsx:173-177 | any sorted arrangement that keeps each rank's relative order is the display order (it is unique) |
| `DisplayOrder.SwapKeeps` | src/pages/Index.tsx:174 | exchanging two neighbours of different rank changes no rank's subsequence |
| `DisplayOrder.ByRankExample` | src/pages/Index.tsx:173-177 | [A RESOLVED, B PENDING, C PENDING, D ASSIGNED] is listed as [B, C, D, A] |
| `AlertCard.TypeIcon` | src/components/AlertCard.tsx:24-31 | total over strings; the fallback siren exactly for strings outside MEDICAL, POLICE, FIRE |
| `AlertCard.TypeIconsDistinct` | src/components/AlertCard.tsx:24-31 | the three types get three different icons, none the fallback |
| `AlertCard.StatusColor` | src/components/AlertCard.tsx:33-40 | total over strings; the muted class exactly for strings outside the three statuses |
| `AlertCard.StatusColorsDistinct` | src/components/AlertCard.tsx:33-40 | the three statuses get three different badge classes |
| `AlertCard.BatteryClass` | src/components/AlertCard.tsx:85 | healthy styling iff battery > 20, critical otherwise |
| `AlertCard.BatteryBoundary` | src/components/AlertCard.tsx:85 | 20 percent is critical and 21 is healthy |
| `AlertCard.Offered` | src/components/AlertCard.tsx:97-127 | every offered request carries this alert's id and asks for a status ranked strictly after the current one (never a backward move) |
| `AlertCard.OffersExactlyLaterStatuses` | src/components/AlertCard.tsx:97-127 | a status is offered iff it ranks after the current one; the number of buttons is 2 − rank, and none for an unknown status |
| `AlertCard.PendingOffers` | src/components/AlertCard.tsx:97-117 | PENDING offers exactly ASSIGNED then RESOLVED, both for this alert's id |
| `AlertCard.AssignedOffers` | src/components/AlertCard.tsx:119-127 | ASSIGNED offers exactly RESOLVED, for this alert's id |
| `AlertCard.ResolvedOffersNothing` | src/components/AlertCard.tsx:97-127 | RESOLVED offers no request |
| `AlertCard.Render` | src/components/AlertCard.tsx:53-127 | the card's icon is never the fallback, its badge is muted exactly for an unknown status (for the canonical statuses every dashboard holds), its battery styling follows the threshold, and its buttons are the offered requests |
| `MapView.TypeIcon` | src/components/MapView.tsx:17-24 | total over strings; the fallback siren exactly for strings outside the three types |
| `MapView.TypeIconMatchesCard` | src/components/MapView.tsx:17-24 | the map draws every type string with the same glyph as the card |
| `MapView.StatusColor` | src/components/MapView.tsx:26-33 | total over strings; the muted ring class exactly for strings outside the three statuses |
| `MapView.StatusColorsDistinct` | src/components/MapView.tsx:26-33 | the three statuses get three different marker classes |
| `MapView.MarkerAt` | src/components/MapView.tsx:57-68 | a marker carries its position and the alert's id, the card's glyph for the type (never the fallback), a muted ring exactly for a status string outside the three, and a title starting with the type and ending with the SOS code |
| `MapView.Markers` | src/components/MapView.tsx:57 | at most 8 markers, exactly min(8, n) of them, the i-th for the i-th input alert at index i |
| `MapView.MarkersIgnoreRemainder` | src/components/MapView.tsx:57 | once there are 8 alerts, appending more changes no marker |
| `MapView.Render` | src/components/MapView.tsx:57-108 | the map's markers are the selected ones and its caption counts every alert given |
| `MapView.CaptionCountsAll` | src/components/MapView.tsx:57-108 | the caption count is at least the marker count, and differs from it exactly when there are more than 8 alerts |
| `MapView.TenAlerts` | src/components/MapView.tsx:57-108 | ten alerts give 8 markers and a caption count of 10 |
| `Index.UpdateStatus` | src/pages/Index.tsx:85-88 | same length; each alert with the given id gets status `Parse(newStatus)` and keeps every other field; every other alert is unchanged at its position |
| `Index.UpdateUnknownId` | src/pages/Index.tsx:85-88 | an id matching no alert leaves the list equal to the old one |
| `Index.UpdateKeepsOtherFields` | src/pages/Index.tsx:87 | id, code, type, coordinates, time, battery and mode are the same after an update; only the status of matching alerts changes |
| `Index.UpdateLastWins` | src/pages/Index.tsx:85-88 | two updates of the same id equal the second alone (an update is idempotent) |
| `Index.UpdatesCommute` | src/pages/Index.tsx:85-88 | updates of different ids can be applied in either order |
| `Index.UpdateKeepsKnown` | src/pages/Index.tsx:87 | updating to one of the three names keeps every status known; any update keeps every status canonical |
| `Index.OfferedRequestAdvances` | src/components/AlertCard.tsx:97-127 | with unique ids, a request a card offers moves that alert strictly forward in rank, touches no other alert and keeps all statuses known |
| `Index.Count` | src/pages/Index.tsx:106-108 | a count is at most the length, zero iff no alert has the status, and the length iff all have it |
| `Index.CountUnknown` | src/pages/Index.tsx:105-108 | zero iff every status is one of the three |
| `Index.Stats` | src/pages/Index.tsx:105-108 | the total is the list length and bounds each status counter |
| `Index.CountsPartition` | src/pages/Index.tsx:105-108 | length = pending + assigned + resolved + unknown, for every list |
| `Index.StatsPartition` | src/pages/Index.tsx:105-108 | when every status is one of the three, total = pending + assigned + resolved |
| `Index.CountPermutation` | src/pages/Index.tsx:106-108 | a status count does not depend on the order of the list |
| `Index.StatsPermutation` | src/pages/Index.tsx:105-108 | reordering the list, as the display sort does, leaves all four counters unchanged |
| `Index.Seed` | src/pages/Index.tsx:13-69 | five alerts with distinct ids, every status one of the three (and canonical), each event between 120 and 15 minutes before the load time |
| `Index.CountCons` | src/pages/Index.tsx:106-108 | a list's count is its first alert's contribution plus the count of the rest |
| `Index.CountFive` | src/pages/Index.tsx:106-108 | the count of a five-alert list is the sum of its alerts' contributions |
| `Index.CanonicalPermutation` | src/pages/Index.tsx:173-177 | reordering the list, as the sort does, keeps every status canonical |
| `Index.UniqueIdsOnce` | src/pages/Index.tsx:173-177 | in a list with unique ids, each alert occurs exactly once |
| `Index.TwoPositions` | src/pages/Index.tsx:173-177 | an alert found at two positions occurs at least twice |
| `Index.UniqueIdsPermutation` | src/pages/Index.tsx:173-177 | reordering the list, as the sort does, keeps the ids unique |
| `Index.UpdateKeepsIds` | src/pages/Index.tsx:85-88 | a status update keeps the ids unique |
| `Index.SeedStats` | src/pages/Index.tsx:13-69 | the seed gives total 5, pending 2, assigned 2, resolved 1 |
| `Index.SeedBatteries` | src/pages/Index.tsx:13-69 | every seed alert shows the healthy battery styling |
| `Index.Lower` | src/pages/Index.tsx:92 | an ASCII capital maps to the small letter 32 code points up; every other character is unchanged |
| `Index.AsciiLower` | src/pages/Index.tsx:92 | same length as the input; each character is lower-cased in place |
| `Index.AsciiLowerIdempotent` | src/pages/Index.tsx:92 | lower-casing twice equals lower-casing once |
| `Index.LowerResolved` | src/pages/Index.tsx:92 | "RESOLVED" lower-cases to "resolved" |
| `Index.StatusToast` | src/pages/Index.tsx:90-93 | titled "Status Updated", described as "Alert <id> marked as <lower-cased status>" |
| `Index.StatusToastText` | src/pages/Index.tsx:90-93 | once the status is known to lower-case to a text, the description is "Alert <id> marked as " followed by that text |
| `Index.StatusToastExample` | src/pages/Index.tsx:92 | resolving alert 1 is described as "Alert 1 marked as resolved" |
| `Index.RefreshToast` | src/pages/Index.tsx:98-101 | the refresh notification reads "Alert data has been updated" under a title that is not "Status Updated" |
| `Index.RefreshToastDistinct` | src/pages/Index.tsx:90-101 | a refresh notification never equals a status-update notification |
| `Index.Dashboard.constructor` | src/pages/Index.tsx:13-73 | the page starts valid, with the seed list built from the load-time clock, the mount-time clock as last refresh and no notifications |
| `Index.Dashboard.HandleStatusUpdate` | src/pages/Index.tsx:85-94 | keeps the dashboard valid; the list becomes its status update, the refresh time stays, and one "Status Updated" notification is appended even when no id matches |
| `Index.Dashboard.HandleRefresh` | src/pages/Index.tsx:96-102 | keeps the dashboard valid; only the refresh time changes and a "Data Refreshed" notification is appended; the alert array and its contents are unchanged |
| `Index.Dashboard.Tick` | src/pages/Index.tsx:78-80 | keeps the dashboard valid; the timer callback changes only the refresh time, with no notification |
| `Index.Dashboard.Render` | src/pages/Index.tsx:105-192 | keeps the dashboard valid; counters are taken before the sort and equal those after it; the state array is sorted in place (a permutation, `ByRank` when all statuses are known); one card per alert in the new order, its badge muted exactly for an unknown status; the map gets the sorted array |

## Left out

- Markup, class-string assembly (`cn`) and the card's status border classes (src/components/AlertCard.tsx:44-49): presentation only.
- src/components/AlertStats.tsx and src/components/SOSHeader.tsx are not part of this model: they only lay out values they are given, or static text.
- The 30-second `setInterval`/`clearInterval` lifecycle: timer plumbing. Only the body of the callback is modelled (`Dashboard.Tick`).
- Toast delivery and display: a notification is recorded in the ghost log `toasts` and nothing more.
- Dates: `Date.now()`, ISO strings and locale formatting depend on the clock and the platform. Times are integers in milliseconds, and each clock reading is a parameter. The five `Date.now()` calls of the seed list (src/pages/Index.tsx:20-64) are taken as one reading, `loadTime`.
- Index.Lower: maps only the ASCII capitals A–Z; `toLowerCase` (src/pages/Index.tsx:92) also lower-cases non-ASCII capitals ("É" to "é"). The model has no Unicode case mapping.
- Index.AsciiLower: keeps the length and maps character by character; `toLowerCase` can also lengthen a string ("İ" becomes "i" plus a combining dot), which the model does not capture.
- Index.StatusToast: its description lower-cases through `AsciiLower`, so it inherits the two lines above. Every status the cards send is an ASCII literal, and for those the text is exact.
- Floating point: coordinates are stored as exact `real` decimals, not IEEE doubles. The battery is an integer percentage; the source's `number` also admits fractions, such as 20.5, which the `> 20` threshold (src/components/AlertCard.tsx:85) would style healthy. Every battery the dashboard holds comes from the integer seed, and no operation changes it. The `toFixed(4)` display and the sin/cos marker placement are left out; a marker keeps only its index.
- The Filter, Export and zoom buttons have no handlers.
- React's state scheduling: a handler's functional state update is applied at once, and `Render` models one render of the current state.
