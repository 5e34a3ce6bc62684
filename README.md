# RAN simulator core in Dafny

This project models the core of the RAN simulator, a Go program that simulates
cell towers and cars (UEs, user equipments) driving along routes. Each car is
served by a tower. The simulator speaks a simplified E2 interface to a RAN
controller. The model covers two packages:

- **The traffic simulator's manager** (`pkg/manager/userequipment.go`) owns the
  tower, UE and route tables. It builds one UE per route at start-up, colours
  each route like its UE's serving tower, and moves every UE one waypoint per
  tick. At the end of a route it asks the route service for a new route. An
  off-route UE stops the tick loop after the current pass. A failing route
  service ends the process. Moves and new routes are published as dispatcher
  events.
- **The E2 manager** (`pkg/northbound/e2/manager.go`) stamps every tower with
  its PLMN, an ECI of at least 7 hex digits, its capacity and its 4-connected grid
  neighbours, and stamps every UE with a C-RNTI of at least 4 hex digits. It answers a cell
  configuration request with one cell report per tower and one admission
  request per UE. It turns every tower-change event of a UE into a radio
  measurement report with three CQI values.

Modules, in dependency order:

| file | module | what it holds |
|---|---|---|
| `wrappers.dfy` | `Wrappers`, `Seqs` | `Option`, one sequence lemma |
| `text.dfy` | `Text` | `%d`, `Atoi`, the first match of `[0-9]+`, `%0<w>X`, with their round trips |
| `types.dfy` | `Types` | the records: towers, UEs, routes, events, parameters |
| `cell_grid.dfy` | `CellGrid` | makeNeighbors, makeEci, makeCrnti, Min, Max |
| `motion.dfy` | `Motion` | moveUe as a function `Move`, and what repeated moves do |
| `traffic_sim.dfy` | `TrafficSim` | the state as a value: one turn, one pass, the tick loop; class `Manager` with the imperative methods, each proved equal to its function |
| `e2.dfy` | `E2` | Run, handleCellConfigRequest, makeCqi, radioMeasReportPerUE |

Channels become sequences. The methods of `TrafficSim.Manager` append to two
ghost logs, `ueLog` and `routeLog`, for what `UeChannel` and `RouteChannel`
receive. The E2 handlers return the sequence of messages they would enqueue.

The collaborators outside the core are fields of the value `Motion.Env`:
`findClosestTowers`, `distanceToTower`, `getRotationDegrees` and `newRoute`.
Every property here holds for all such functions, unless a lemma states an
assumption about them (for example `DistinctNames` of the three nearest
towers, or routes that start where they were asked to).

## Where the code and its documented behaviour differ

The model follows the code in each case below. A lemma shows each difference.

- **The serving tower never changes.** `moveUe` reassigns only the 2nd and 3rd
  towers and the distances. It never writes `ue.Tower`. When the serving tower
  has left the nearest three, it stays serving, its distance is recomputed,
  and the two nearest towers become the candidates. The serving distance can
  therefore exceed the 2nd tower's distance (`Motion.ServingCanBeFarther`).
  The documented behaviour is instead that the nearest tower takes over, and
  serving ≤ 2nd ≤ 3rd always holds.
- **The grid is consistent only when it is square.** makeNeighbors computes
  the row as `id / rows`, the column as `id % cols` and a neighbour's number as
  `x * rows + y + 1`. On a square grid the neighbour lists are symmetric, never
  contain the tower itself, and are the cells above, left, right and below, in
  that order. On a 2 x 3 grid, Tower-3 lists itself
  (`CellGrid.NonSquareListsItself`). The documented behaviour calls the neighbour sets
  symmetric on any rectangular grid.
- **An off-route UE stops the loop only after the pass.** The breakout flag is
  read after every UE has had its turn (`TrafficSim.PassBreaksOut`). The
  documented behaviour is that the fault stops the tick loop, with no mention
  of the rest of the pass still running.
- **A failing route service ends the process.** `log.Fatalf` exits, so the
  `breakout = true` that follows it is never reached. The model gives the turn
  the status `Exit`.
- **A route that revisits a waypoint can trap its UE.** moveUe takes the first
  matching waypoint, so a UE loops between the first visits and never reaches
  the end of the route (`Motion.RevisitNeverEnds`).

## Model

| member | source | states |
|---|---|---|
| Text.ParseDecimalOfDecimal | pkg/northbound/e2/manager.go:94 | Atoi of the `%d` rendering of any natural number gives back that number |
| Text.OrdinalExists | pkg/northbound/e2/manager.go:94 | a name has a first `[0-9]+` match (so `[0]` does not panic) exactly when it contains a digit |
| Text.OrdinalAfterPrefix | pkg/northbound/e2/manager.go:107 | a name made of a digit-free prefix and `%d` of n has ordinal n |
| Text.FormatHexRoundTrip | pkg/northbound/e2/manager.go:118 | `%0<w>X` gives max(w, digits) upper-case hex digits that read back as the number |
| CellGrid.Min | pkg/northbound/e2/manager.go:76-81 | the result is one of the two arguments and no larger than either |
| CellGrid.Max | pkg/northbound/e2/manager.go:84-89 | the result is one of the two arguments and no smaller than either |
| CellGrid.MakeNeighbors | pkg/northbound/e2/manager.go:91-113 | the ordinal, the row/column split and the double loop compute exactly `Neighbors`, the tower names of the 4-connected cells inside the clipped window |
| CellGrid.ScanNeighbors | pkg/northbound/e2/manager.go:103-111 | the double loop over the clipped 3 x 3 window appends, in scan order, the names of exactly the adjacent cells |
| CellGrid.NeighborCellsMembers | pkg/northbound/e2/manager.go:103-106 | at most 4 cells; never the tower's own cell; a cell is listed exactly when it is inside the window and adjacent |
| CellGrid.NeighborsShape | pkg/northbound/e2/manager.go:91-113 | every listed name is `Tower-<x*rows+y+1>` of a cell inside the grid and adjacent to the tower's cell; at most 4 |
| CellGrid.SquareNeighborMembers | pkg/northbound/e2/manager.go:97-106 | on an n x n grid, p is a neighbour number of o exactly when p is a tower of the grid and its cell is adjacent to o's |
| CellGrid.SquareNeighborsProper | pkg/northbound/e2/manager.go:97-106 | on an n x n grid, no tower is its own neighbour and every neighbour is a tower of the grid |
| CellGrid.SquareSymmetric | pkg/northbound/e2/manager.go:97-106 | on an n x n grid, neighbourhood of numbers is symmetric |
| CellGrid.SquareNeighborsSymmetric | pkg/northbound/e2/manager.go:91-113 | on an n x n grid, Tower-a is in Tower-b's list exactly when Tower-b is in Tower-a's |
| CellGrid.SquareClosedForm | pkg/northbound/e2/manager.go:97-111 | on an n x n grid the list is o-n, o-1, o+1, o+n, each present exactly when that side is inside the grid |
| CellGrid.SquareAscending | pkg/northbound/e2/manager.go:103-111 | on an n x n grid the neighbour numbers come in strictly ascending order |
| CellGrid.TowerNameInjective | pkg/northbound/e2/manager.go:107 | different tower numbers give different names |
| CellGrid.CentreOfThreeByThree | pkg/northbound/e2/manager.go:91-113 | Tower-5 of a 3 x 3 grid has exactly Tower-2, Tower-4, Tower-6, Tower-8 |
| CellGrid.CornerOfThreeByThree | pkg/northbound/e2/manager.go:91-113 | Tower-1 of a 3 x 3 grid has exactly Tower-2 and Tower-4 |
| CellGrid.NonSquareListsItself | pkg/northbound/e2/manager.go:100-106 | on 2 rows x 3 columns, Tower-3 lists Tower-3 and Tower-4 |
| CellGrid.OrdinalZero | pkg/northbound/e2/manager.go:94-101 | Tower-0 gives id -1 and Go's truncating `/` and `%` put it at (0, -1), so on 3 x 3 it lists only Tower-1 |
| CellGrid.EciReadsBack | pkg/northbound/e2/manager.go:115-119 | the ECI has max(7, digits) upper-case hex digits and reads back as the tower's ordinal |
| CellGrid.CrntiReadsBack | pkg/northbound/e2/manager.go:121-125 | the C-RNTI has max(4, digits) upper-case hex digits and reads back as the UE's ordinal plus one |
| CellGrid.IdentifiersDistinct | pkg/northbound/e2/manager.go:115-125 | names with different ordinals get different ECIs and different C-RNTIs |
| CellGrid.IdentifierWidths | pkg/northbound/e2/manager.go:118-124 | the ECI is exactly 7 digits iff the ordinal is below 16^7; the C-RNTI is exactly 4 digits iff ordinal + 1 is below 16^4 |
| CellGrid.EciOfOne | pkg/northbound/e2/manager.go:115-119 | Tower-1 gets ECI "0000001" |
| CellGrid.EciOf255 | pkg/northbound/e2/manager.go:115-119 | Tower-255 gets ECI "00000FF" |
| Motion.FirstAt | pkg/manager/userequipment.go:114-115 | the index, when there is one, is the first waypoint equal (lat and lng) to the position; none means no waypoint matches |
| Motion.EndOfRouteByPrefix | pkg/manager/userequipment.go:70 | an error text starts with "end of route" exactly for the end-of-route error, not the "unexpectedly hit end of route" one |
| Motion.MoveOutcomes | pkg/manager/userequipment.go:113-162 | first match before the last waypoint: the UE steps to the next waypoint, turned by the heading, with one UPDATED event carrying it; first match at the last waypoint: end-of-route error with that index; no match: the off-route error |
| Motion.MoveKeepsServing | pkg/manager/userequipment.go:119-149 | a move changes only position, rotation, distances and the 2nd/3rd towers as the four-way rule says; serving tower, name and C-RNTI never change |
| Motion.ReassignKeepsRankOrder | pkg/manager/userequipment.go:125-149 | when the serving tower is ranked r among the nearest three, it keeps its own distance and the other two become 2nd and 3rd in rank order; when it is not among them, its distance is recomputed and the two nearest become 2nd and 3rd |
| Motion.ReassignDistinct | pkg/manager/userequipment.go:125-149 | with three distinct nearest names, serving, 2nd and 3rd are pairwise different |
| Motion.ReassignOrdered | pkg/manager/userequipment.go:125-149 | with distances ranked nearest first, the 2nd is no farther than the 3rd, and the serving tower is no farther than the 2nd when it is the nearest |
| Motion.ServingCanBeFarther | pkg/manager/userequipment.go:137-142 | a serving tower ranked third keeps serving with a distance above the 2nd's |
| Motion.MoveClassifies | pkg/manager/userequipment.go:150-157 | the event is UPDATED; TOWER exactly when the 2nd or 3rd tower changed, POSITION exactly when neither did |
| Motion.MoveDistinctTowers | pkg/manager/userequipment.go:121-149 | if the nearest-three answer always has distinct names, a moved UE's three towers are pairwise different |
| Motion.DriveToEnd | pkg/manager/userequipment.go:113-162 | on a route without repeated waypoints, a UE at waypoint j makes one move per remaining waypoint, emits one event per move at the next waypoint, and stops at the last one with end of route |
| Motion.RevisitNeverEnds | pkg/manager/userequipment.go:114-120 | on a route whose third waypoint repeats the first, a UE starting on the first two waypoints never stops, however many moves it makes |
| TrafficSim.UeNameInjective | pkg/manager/userequipment.go:32 | `Ue-%d` reads back as its index, and different indices give different names |
| TrafficSim.RouteNameInjective | pkg/manager/userequipment.go:33 | different indices give different `Route-%d` names |
| TrafficSim.TurnStatus | pkg/manager/userequipment.go:69-89 | a turn breaks out exactly when the UE is off its route, and ends the process exactly when the route ended and newRoute failed |
| TrafficSim.TurnState | pkg/manager/userequipment.go:69-81 | after a turn that did not exit, UE i is its moved self (unchanged when the move failed) and route i is the new route exactly when the old one ended |
| TrafficSim.TurnLogs | pkg/manager/userequipment.go:69-85 | a turn publishes the move's one UE event when the UE moved, and one UPDATED route event when the route ended and was replaced |
| TrafficSim.PassReady | pkg/manager/userequipment.go:66-90 | a pass keeps every UE and route it visits, and each route keeps a waypoint |
| TrafficSim.PassKeepsEarlier | pkg/manager/userequipment.go:66-90 | the turns of UEs i.. leave UE m and route m alone for every earlier m |
| TrafficSim.PassMovesEach | pkg/manager/userequipment.go:66-90 | after a pass that did not exit, each UE j holds the outcome of its own move computed from the state the pass started in |
| TrafficSim.PassReroutes | pkg/manager/userequipment.go:70-85 | after a pass that did not exit, every route that ended got a new route, and route j is exactly its successor or unchanged |
| TrafficSim.PassEvents | pkg/manager/userequipment.go:66-90 | a pass's UE events and route events are the per-UE events in index order |
| TrafficSim.PassBreaksOut | pkg/manager/userequipment.go:86-94 | a pass that did not exit ends with breakout exactly when some UE of it was off its route |
| TrafficSim.PassKeepsOnRoute | pkg/manager/userequipment.go:66-90 | if every UE stands on its route and new routes start where they were asked to, a pass never breaks out and leaves every UE on its route |
| TrafficSim.LoopNeverBreaksOut | pkg/manager/userequipment.go:62-97 | under the same condition the tick loop never stops with a breakout: it either exits the process or runs all its passes |
| TrafficSim.OffRouteStopsLoop | pkg/manager/userequipment.go:86-94 | one off-route UE makes the loop stop after its first pass, unless that pass exits |
| TrafficSim.InitialUe | pkg/manager/userequipment.go:37-48 | the new UE is `Ue-u` on `Route-u` at its first waypoint, served by the nearest tower, with the next two as candidates |
| TrafficSim.TableContents | pkg/manager/userequipment.go:27-60 | the UE table holds Ue-u as InitialUe makes it, for every u below the number of routes |
| TrafficSim.TableOnlyUes | pkg/manager/userequipment.go:27-60 | the UE table holds nothing but Ue-0 .. Ue-(n-1) |
| TrafficSim.PaintedContents | pkg/manager/userequipment.go:51-57 | each Route-u is recoloured like its UE's serving tower, when that tower exists |
| TrafficSim.PaintedElsewhere | pkg/manager/userequipment.go:51-57 | every other route is left as it was |
| TrafficSim.Manager.FindTowerColor | pkg/manager/userequipment.go:104-109 | found exactly when some tower has that Name, with that tower's colour; "" otherwise; on a table keyed by name, the entry under the name |
| TrafficSim.Manager.GetColorForUe | pkg/manager/userequipment.go:99-110 | "" for an unknown UE or when no tower has the UE's serving name; otherwise the colour of such a tower |
| TrafficSim.Manager.MoveUe | pkg/manager/userequipment.go:113-162 | the UE under the name becomes what `Move` says and its event is appended to the UE log; on an error nothing changes and the error is returned |
| TrafficSim.Manager.TakeTurn | pkg/manager/userequipment.go:67-89 | the new state and status are exactly `Turn` of the old state |
| TrafficSim.Manager.MovePass | pkg/manager/userequipment.go:66-94 | the new state and status are exactly `PassFrom` of the old state over all UEs, so every pass lemma applies to the method |
| TrafficSim.Manager.StartMoving | pkg/manager/userequipment.go:62-97 | the new state, the passes run and the last status are exactly `Loop` of the old state |
| TrafficSim.Manager.StartUe | pkg/manager/userequipment.go:31-57 | one iteration of newUserEquipments: the UE is InitialUe and route u alone is recoloured |
| TrafficSim.Manager.NewUserEquipments | pkg/manager/userequipment.go:27-60 | the returned table is `TableUpTo` and the routes are `PaintedUpTo`; towers, UEs and logs are unchanged |
| E2.Run | pkg/northbound/e2/manager.go:48-61 | every tower is stamped with the test PLMN, its ECI, MaxUEs and its neighbours and every UE with its C-RNTI; routes and logs are unchanged |
| E2.StampEachTower | pkg/northbound/e2/manager.go:50-56 | the loop over the tower table, in any order, stamps every tower and changes nothing else |
| E2.StampTower | pkg/northbound/e2/manager.go:51-54 | one tower gets PLMN, ECI, MaxUEs and the neighbours makeNeighbors computes |
| E2.StampEachUe | pkg/northbound/e2/manager.go:57-59 | the loop over the UE table, in any order, sets every UE's C-RNTI |
| E2.EmptyTowersStampable | pkg/northbound/e2/manager.go:50-59 | with no towers Run needs no grid size: an empty tower table is stampable on any grid, including 0 rows or columns, and stays empty |
| E2.StampIdempotent | pkg/northbound/e2/manager.go:48-61 | running Run twice gives the same tables as running it once |
| E2.StampedGridNeighbors | pkg/northbound/e2/manager.go:50-56 | after Run on a full square grid, every listed neighbour is a tower, no tower lists itself, and neighbourhood is mutual |
| E2.StampedGridEcgisDistinct | pkg/northbound/e2/manager.go:51-52 | after Run on a full grid, different towers carry different ECGIs |
| E2.CandidateCells | pkg/northbound/e2/manager.go:179-188 | one candidate cell per listed neighbour, in list order, carrying that neighbour's PLMN and ECI |
| E2.CellConfigReports | pkg/northbound/e2/manager.go:178-205 | one CELL_CONFIG_REPORT per tower in the order ranged over, with the tower's ECGI, MaxUEs and its neighbours' ECGIs |
| E2.UeAdmissions | pkg/northbound/e2/manager.go:208-225 | one UE_ADMISSION_REQUEST per UE in the order ranged over, to the test PLMN and the serving tower's ECI, with the UE's C-RNTI and cause MO_SIGNALLING |
| E2.HandleCellConfigRequest | pkg/northbound/e2/manager.go:173-226 | all tower reports first, then all admission requests; |towers| + |UEs| messages |
| E2.ListsKeysSize | pkg/northbound/e2/manager.go:178-225 | a range over a map visits it once per key, so there is one report per tower and one request per UE |
| E2.ReportCandidatesMutual | pkg/northbound/e2/manager.go:180-188 | after Run on a full square grid, each candidate cell of a report is a different tower that lists the reporting tower back |
| E2.MakeCqi | pkg/northbound/e2/manager.go:127-133 | the CQI is at most 15 and at most the quotient, and equals the quotient exactly when the quotient is at most 15 |
| E2.MakeCqiMonotone | pkg/northbound/e2/manager.go:127-133 | a larger quotient never gives a smaller CQI |
| E2.RadioMeasReport | pkg/northbound/e2/manager.go:257-310 | a message exactly for UPDATED/TOWER events, headed by the serving tower's ECGI, with the UE's C-RNTI and three reports for serving, 2nd and 3rd tower, in that order, each with its one CQI |
| E2.TelemetryAppend | pkg/northbound/e2/manager.go:256-312 | the listener handles events one at a time: the messages for a + b are those for a followed by those for b |
| E2.TelemetrySilent | pkg/northbound/e2/manager.go:257 | a stream with no tower-change event produces no message |
| E2.RadioMeasReportPerUe | pkg/northbound/e2/manager.go:256-312 | the loop over a finite event stream sends exactly `Telemetry` of the stream, in order |
| E2.MoveReport | pkg/northbound/e2/manager.go:257-307 | a move is reported exactly when it changed the 2nd or 3rd tower; the report is headed by the unchanged serving tower and, on a full square grid after Run, its three cells are pairwise different |

## Left out

- Close, RunControl, sendControlLoop, recvControlLoop, RunTelemetry and sendTelemetryLoop: goroutines, channels and gRPC streams. The handler and the listener they run are modelled. Their output is returned as a sequence.
- Concurrency between the tick loop and the E2 handlers: not modelled. Each operation sees one consistent state.
- findClosestTowers, distanceToTower, getRotationDegrees and newRoute are not part of this model. They are the function fields of `Motion.Env`. The `uint32` conversion of the heading happens inside `rotation`.
- E2.MakeCqi: takes the truncated quotient `uint32(0.001 / distance²)` as a natural number. float32 arithmetic, distance 0 and the out-of-range conversion are not modelled. So monotonicity is proved in the quotient, not in the distance.
- E2.RadioMeasReportPerUe: covers a finite prefix of the event stream, with the listener already registered. The type assertion's `log.Fatalf` cannot fire on a stream typed as UE events. A failing RegisterUeListener, which makes the session return without sending anything (the dispatcher refuses a listener name that an earlier telemetry session still holds), is session plumbing. It is left out together with RunTelemetry.
- TrafficSim.Manager.StartMoving: runs at most `fuel` passes. The source loops until a pass breaks out.
- time.Sleep(params.StepDelay) between passes and all logging: no effect on the state, so omitted.
- `log.Fatalf` is modelled as status `Exit` with the state as it was, since the process ends there.
- Map iteration order is left open. Run's loops and FindTowerColor pick any remaining key (`:|`). handleCellConfigRequest takes the order of towers and UEs as parameters, each listing its table's keys once.
- Types.Ue: a value, not a pointer. An event carries the UE as it was just after the move. The Go event holds the `*Ue`, which a listener reads later, possibly after further moves.
- Text.Ordinal: Atoi is exact on the digit run, an unbounded natural number. On a run above MaxInt64, Atoi returns MaxInt64 with ErrRange, which the source ignores. So makeEci of such a name gives "7FFFFFFFFFFFFFFF", while the model formats the exact value. That saturation is not modelled.
- CellGrid.MakeCrnti: `id + 1` is not wrapped at 64 bits. For "Ue-9223372036854775807", Go formats "-8000000000000000" and the model "8000000000000000".
- CellGrid.MakeNeighbors: `x * nrows + y + 1` is computed without 64-bit wrap-around. Go wraps it only for ordinals or grid sizes near MaxInt64.
- Panics are preconditions. A name without a digit (`[0]` of an empty match list) and, when there is at least one tower, a grid with 0 rows or 0 columns (division by zero in makeNeighbors) are excluded by `E2.TowersStampable` and `E2.UesStampable`. With no towers, Run accepts any grid size (`E2.EmptyTowersStampable`). A missing UE or route, or a route without waypoints, is excluded by `TrafficSim.ReadyAt`. A neighbour or serving tower missing from the table (a nil dereference) is excluded by `E2.NeighborsKnown`, and the serving-tower condition by `E2.HandleCellConfigRequest`. Missing report towers are excluded by `E2.EventsReportable`.
- GetTowerByName is not part of this model. It is read as a lookup of the tower table by key.
- TrafficSim.Manager.TakeTurn, TrafficSim.Manager.MovePass, TrafficSim.Manager.StartMoving, TrafficSim.Manager.StartUe and TrafficSim.Manager.NewUserEquipments: require a tower table keyed by tower name, as the simulator builds it. Their specifications (`ColorForUe` inside `Turn`, `Painted`) then look the serving tower up by key, where the source searches the table by Name (pkg/manager/userequipment.go:52-57 and 104-109). The two agree on such a table (`Manager.FindTowerColor`). The methods are not proved for a table whose keys differ from the names. `Manager.FindTowerColor` and `Manager.GetColorForUe` themselves are proved for any table.
- The capacity hint of 8 for the neighbour and candidate lists, and the `CandScell` pointers: allocation details with no visible effect.
