/**
  The E2 northbound side of the simulator: stamping towers and UEs with
  their radio identities, the control messages answering a cell
  configuration request, and the per-UE radio measurement reports sent
  when a UE's candidate towers change. What would be sent on a channel is
  returned as a sequence.
 */
module E2 {
  import opened Wrappers
  import opened Text
  import opened Types
  import opened CellGrid
  import opened Motion
  import opened TrafficSim

  /** The PLMN of the test networks (MCC 001, MNC 001). */
  const TestPlmnId: string := "001001"

  datatype Ecgi = Ecgi(plmnId: string, ecid: string)

  datatype CandScell = CandScell(ecgi: Ecgi)

  /** The admission establishment cause; the simulator only ever sends MO_SIGNALLING. */
  datatype AdmEstCause = MoSignalling

  /** e2.ControlUpdate, one alternative per message type the simulator sends. */
  datatype ControlUpdate =
    | CellConfigReport(ecgi: Ecgi, maxNumConnectedUes: nat, candScells: seq<CandScell>)
    | UeAdmissionRequest(ecgi: Ecgi, crnti: string, cause: AdmEstCause)

  datatype RadioRepPerServCell = RadioRepPerServCell(ecgi: Ecgi, cqiHist: seq<nat>)

  /** e2.TelemetryMessage carrying a RadioMeasReportPerUE. */
  datatype TelemetryMessage = MeasReportPerUe(ecgi: Ecgi, crnti: string, reports: seq<RadioRepPerServCell>)

  function EcgiOf(t: Tower): Ecgi {
    Ecgi(t.plmnId, t.ecid)
  }

  // ---------------------------------------------------------------------------
  // Run: stamping identities
  // ---------------------------------------------------------------------------

  /**
    makeNeighbors and makeEci take the first digit run of every tower name
    and divide by the grid size; a name without a digit, or an empty grid,
    makes them panic.
   */
  predicate TowersStampable(towers: map<string, Tower>, params: TowersParams) {
    forall k :: k in towers ==> params.towerRows > 0 && params.towerCols > 0 && HasDigit(towers[k].name)
  }

  /**
    With no towers, Run divides by nothing: any grid size, 0 rows or 0
    columns included, is accepted, and the tower table stays empty.
   */
  lemma EmptyTowersStampable(params: TowersParams)
    ensures TowersStampable(map[], params)
    ensures StampTowers(map[], params) == map[]
  {
  }

  /** makeCrnti takes the first digit run of every UE name. */
  predicate UesStampable(ues: map<string, Ue>) {
    forall k :: k in ues ==> HasDigit(ues[k].name)
  }

  /** What Run writes into one tower; everything else about the tower is kept. */
  function Stamp(t: Tower, params: TowersParams): Tower
    requires HasDigit(t.name)
    requires params.towerRows > 0 && params.towerCols > 0
  {
    OrdinalExists(t.name);
    t.(plmnId := TestPlmnId, ecid := MakeEci(t.name), maxUes := params.maxUes, neighbors := Neighbors(t.name, params))
  }

  /** What Run writes into one UE. */
  function StampUe(ue: Ue): Ue
    requires HasDigit(ue.name)
  {
    OrdinalExists(ue.name);
    ue.(crnti := MakeCrnti(ue.name))
  }

  function StampTowers(towers: map<string, Tower>, params: TowersParams): (s: map<string, Tower>)
    requires TowersStampable(towers, params)
    ensures s.Keys == towers.Keys
  {
    map k | k in towers :: Stamp(towers[k], params)
  }

  function StampUes(ues: map<string, Ue>): (s: map<string, Ue>)
    requires UesStampable(ues)
    ensures s.Keys == ues.Keys
  {
    map k | k in ues :: StampUe(ues[k])
  }

  /**
    Run: every tower gets the test PLMN, its ECI, the configured MaxUEs and
    its grid neighbours; every UE gets its C-RNTI. Nothing else changes.
   */
  method Run(sim: Manager, params: TowersParams)
    requires TowersStampable(sim.towers, params) && UesStampable(sim.ues)
    modifies sim
    ensures sim.towers == StampTowers(old(sim.towers), params)
    ensures sim.ues == StampUes(old(sim.ues))
    ensures sim.routes == old(sim.routes) && sim.ueLog == old(sim.ueLog) && sim.routeLog == old(sim.routeLog)
  {
    var towers := StampEachTower(sim.towers, params);
    var ues := StampEachUe(sim.ues);
    assert ues == StampUes(sim.ues);
    sim.towers, sim.ues := towers, ues;
  }

  /** The tower table once the towers in `done` have been stamped. */
  ghost function StampedSoFar(towers: map<string, Tower>, params: TowersParams, done: set<string>): (s: map<string, Tower>)
    requires TowersStampable(towers, params)
  {
    map k | k in towers :: if k in done then Stamp(towers[k], params) else towers[k]
  }

  lemma StampOneMore(towers: map<string, Tower>, params: TowersParams, done: set<string>, k: string)
    requires TowersStampable(towers, params) && k in towers
    ensures StampedSoFar(towers, params, done + {k}) == StampedSoFar(towers, params, done)[k := Stamp(towers[k], params)]
  {
  }

  lemma StampedAll(towers: map<string, Tower>, params: TowersParams)
    requires TowersStampable(towers, params)
    ensures StampedSoFar(towers, params, towers.Keys) == StampTowers(towers, params)
  {
  }

  /** The first loop of Run, over the tower table in any order. */
  method StampEachTower(towers: map<string, Tower>, params: TowersParams) returns (stamped: map<string, Tower>)
    requires TowersStampable(towers, params)
    ensures stamped == StampTowers(towers, params)
  {
    stamped := towers;
    var remaining := towers.Keys;
    assert stamped == StampedSoFar(towers, params, {});
    while remaining != {}
      invariant remaining <= towers.Keys
      invariant stamped == StampedSoFar(towers, params, towers.Keys - remaining)
      decreases remaining
    {
      var k :| k in remaining;
      ghost var done := towers.Keys - remaining;
      assert stamped[k] == towers[k];
      var tower := StampTower(stamped[k], params);
      StampOneMore(towers, params, done, k);
      stamped := stamped[k := tower];
      remaining := remaining - {k};
      assert towers.Keys - remaining == done + {k};
    }
    StampedAll(towers, params);
  }

  /** The body of the first loop of Run, for one tower. */
  method StampTower(tower: Tower, params: TowersParams) returns (stamped: Tower)
    requires HasDigit(tower.name)
    requires params.towerRows > 0 && params.towerCols > 0
    ensures stamped == Stamp(tower, params)
  {
    OrdinalExists(tower.name);
    var neighbors := MakeNeighbors(tower.name, params);
    stamped := tower.(plmnId := TestPlmnId, ecid := MakeEci(tower.name), maxUes := params.maxUes, neighbors := neighbors);
  }

  /** The second loop of Run, over the UE table in any order. */
  method StampEachUe(ues: map<string, Ue>) returns (stamped: map<string, Ue>)
    requires UesStampable(ues)
    ensures stamped.Keys == ues.Keys
    ensures forall k :: k in ues ==> stamped[k] == StampUe(ues[k])
  {
    stamped := ues;
    var remaining := ues.Keys;
    while remaining != {}
      invariant remaining <= ues.Keys && stamped.Keys == ues.Keys
      invariant forall k :: k in ues ==>
        stamped[k] == if k in remaining then ues[k] else StampUe(ues[k])
      decreases remaining
    {
      var k :| k in remaining;
      var ue := stamped[k];
      OrdinalExists(ue.name);
      stamped := stamped[k := ue.(crnti := MakeCrnti(ue.name))];
      remaining := remaining - {k};
    }
  }

  /** Run is idempotent: stamping an already stamped table changes nothing. */
  lemma StampIdempotent(towers: map<string, Tower>, ues: map<string, Ue>, params: TowersParams)
    requires TowersStampable(towers, params) && UesStampable(ues)
    ensures TowersStampable(StampTowers(towers, params), params) && UesStampable(StampUes(ues))
    ensures StampTowers(StampTowers(towers, params), params) == StampTowers(towers, params)
    ensures StampUes(StampUes(ues)) == StampUes(ues)
  {
    TowersStampIdempotent(towers, params);
    UesStampIdempotent(ues);
  }

  lemma TowersStampIdempotent(towers: map<string, Tower>, params: TowersParams)
    requires TowersStampable(towers, params)
    ensures TowersStampable(StampTowers(towers, params), params)
    ensures StampTowers(StampTowers(towers, params), params) == StampTowers(towers, params)
  {
    var s := StampTowers(towers, params);
    forall k | k in s
      ensures s[k].name == towers[k].name
    {
      assert s[k] == Stamp(towers[k], params);
    }
    var s2 := StampTowers(s, params);
    forall k | k in s
      ensures s2[k] == s[k]
    {
      assert s2[k] == Stamp(s[k], params);
    }
  }

  lemma UesStampIdempotent(ues: map<string, Ue>)
    requires UesStampable(ues)
    ensures UesStampable(StampUes(ues))
    ensures StampUes(StampUes(ues)) == StampUes(ues)
  {
    var s := StampUes(ues);
    forall k | k in s
      ensures s[k].name == ues[k].name
    {
    }
    var s2 := StampUes(s);
    forall k | k in s
      ensures s2[k] == s[k]
    {
    }
  }

  /**
    A full n x n grid: the towers Tower-1 .. Tower-n², each stored under its
    own name.
   */
  predicate FullGrid(towers: map<string, Tower>, n: nat) {
    n > 0
    && (forall k :: k in towers ==>
          towers[k].name == k && Ordinal(k).Some? && 1 <= Ordinal(k).value <= n * n
          && k == TowerName(Ordinal(k).value))
    && (forall o :: 1 <= o <= n * n ==> TowerName(o) in towers)
  }

  lemma GridStampable(towers: map<string, Tower>, params: TowersParams)
    requires params.towerRows == params.towerCols && FullGrid(towers, params.towerRows)
    ensures TowersStampable(towers, params)
  {
    forall k | k in towers
      ensures HasDigit(towers[k].name)
    {
      OrdinalExists(k);
    }
  }

  /** Every neighbour a tower lists is a tower of the table. */
  predicate NeighborsKnown(towers: map<string, Tower>) {
    forall k, m :: k in towers && 0 <= m < |towers[k].neighbors| ==> towers[k].neighbors[m] in towers
  }

  /**
    On a full square grid, a tower's listed neighbour is another tower of the
    grid, and it lists the tower back.
   */
  lemma GridNeighbor(towers: map<string, Tower>, params: TowersParams, a: string, b: string)
    requires params.towerRows == params.towerCols && FullGrid(towers, params.towerRows)
    requires a in towers && Ordinal(a).Some? && b in Neighbors(a, params)
    ensures b in towers && b != a && Ordinal(b).Some? && a in Neighbors(b, params)
  {
    var n := params.towerRows;
    var o := Ordinal(a).value;
    assert a == TowerName(o);
    NeighborsOfTower(o, params);
    SquareNeighborsProper(o, n);
    var ns := NeighborNumbers(o, n, n);
    var m :| 0 <= m < |ns| && TowerNames(ns)[m] == b;
    var p := ns[m];
    assert p in ns;
    assert b == TowerName(p) && 1 <= p <= n * n;
    NeighborsOfTower(p, params);
    SquareNeighborsSymmetric(o, p, params);
    if b == a {
      TowerNameInjective(o, p);
    }
  }

  /**
    After Run on a full square grid every listed neighbour is a tower of the
    grid, no tower lists itself, and neighbourhood is mutual.
   */
  lemma StampedGridNeighbors(towers: map<string, Tower>, params: TowersParams)
    requires params.towerRows == params.towerCols && FullGrid(towers, params.towerRows)
    ensures TowersStampable(towers, params)
    ensures var s := StampTowers(towers, params);
      && NeighborsKnown(s)
      && forall a, m :: a in s && 0 <= m < |s[a].neighbors| ==>
           s[a].neighbors[m] != a && a in s[s[a].neighbors[m]].neighbors
  {
    GridStampable(towers, params);
    var s := StampTowers(towers, params);
    forall a, m | a in s && 0 <= m < |s[a].neighbors|
      ensures s[a].neighbors[m] in s && s[a].neighbors[m] != a && a in s[s[a].neighbors[m]].neighbors
    {
      var b := s[a].neighbors[m];
      assert s[a].neighbors == Neighbors(a, params);
      assert b in Neighbors(a, params);
      GridNeighbor(towers, params, a, b);
      assert s[b].neighbors == Neighbors(b, params);
    }
  }

  /** After Run on a full grid, different towers carry different ECGIs. */
  lemma StampedGridEcgisDistinct(towers: map<string, Tower>, params: TowersParams, a: string, b: string)
    requires params.towerRows == params.towerCols && FullGrid(towers, params.towerRows)
    requires a in towers && b in towers && a != b
    ensures TowersStampable(towers, params)
    ensures EcgiOf(StampTowers(towers, params)[a]) != EcgiOf(StampTowers(towers, params)[b])
  {
    GridStampable(towers, params);
    IdentifiersDistinct(a, b);
  }

  // ---------------------------------------------------------------------------
  // handleCellConfigRequest
  // ---------------------------------------------------------------------------

  /** `order` lists every key of `keys` exactly once: the order a range over the map visits them. */
  predicate ListsKeys(order: seq<string>, keys: set<string>) {
    (forall a, b :: 0 <= a < b < |order| ==> order[a] != order[b])
    && (forall k :: k in keys ==> k in order) && (forall k :: k in order ==> k in keys)
  }

  /** The candidate cells name, in order, the ECGIs of the towers in `names`. */
  predicate Mirrors(cells: seq<CandScell>, towers: map<string, Tower>, names: seq<string>) {
    |cells| == |names|
    && forall m :: 0 <= m < |names| ==> names[m] in towers && cells[m] == CandScell(EcgiOf(towers[names[m]]))
  }

  /** The CELL_CONFIG_REPORT for the tower stored under `key`. */
  predicate ReportsTower(msg: ControlUpdate, towers: map<string, Tower>, key: string) {
    key in towers
    && msg.CellConfigReport?
    && msg.ecgi == EcgiOf(towers[key])
    && msg.maxNumConnectedUes == towers[key].maxUes
    && Mirrors(msg.candScells, towers, towers[key].neighbors)
  }

  /** The UE_ADMISSION_REQUEST for a UE: test PLMN, its serving tower's ECI, its C-RNTI. */
  predicate AdmitsUe(msg: ControlUpdate, towers: map<string, Tower>, ue: Ue) {
    ue.tower in towers
    && msg == UeAdmissionRequest(Ecgi(TestPlmnId, towers[ue.tower].ecid), ue.crnti, MoSignalling)
  }

  /** The inner loop of handleCellConfigRequest: one candidate cell per listed neighbour. */
  method CandidateCells(towers: map<string, Tower>, neighbors: seq<string>) returns (cells: seq<CandScell>)
    requires forall m :: 0 <= m < |neighbors| ==> neighbors[m] in towers
    ensures Mirrors(cells, towers, neighbors)
  {
    cells := [];
    for m := 0 to |neighbors|
      invariant Mirrors(cells, towers, neighbors[..m])
    {
      var t := towers[neighbors[m]];
      cells := cells + [CandScell(Ecgi(t.plmnId, t.ecid))];
    }
    assert neighbors[..|neighbors|] == neighbors;
  }

  /**
    handleCellConfigRequest: one CELL_CONFIG_REPORT per tower, in the order
    the tower table is ranged over, then one UE_ADMISSION_REQUEST per UE in
    the order the UE table is ranged over.
   */
  method HandleCellConfigRequest(towers: map<string, Tower>, ues: map<string, Ue>, towerOrder: seq<string>, ueOrder: seq<string>)
    returns (out: seq<ControlUpdate>)
    requires ListsKeys(towerOrder, towers.Keys) && ListsKeys(ueOrder, ues.Keys)
    requires NeighborsKnown(towers)
    requires forall k :: k in ues ==> ues[k].tower in towers
    ensures |out| == |towerOrder| + |ueOrder|
    ensures forall k :: 0 <= k < |towerOrder| ==> ReportsTower(out[k], towers, towerOrder[k])
    ensures forall k :: 0 <= k < |ueOrder| ==> AdmitsUe(out[|towerOrder| + k], towers, ues[ueOrder[k]])
  {
    assert forall k :: 0 <= k < |towerOrder| ==> towerOrder[k] in towerOrder;
    assert forall k :: 0 <= k < |ueOrder| ==> ueOrder[k] in ueOrder;
    var reports := CellConfigReports(towers, towerOrder);
    var admissions := UeAdmissions(towers, ues, ueOrder);
    out := reports + admissions;
    forall k | 0 <= k < |towerOrder|
      ensures ReportsTower(out[k], towers, towerOrder[k])
    {
      assert out[k] == reports[k];
    }
    forall k | 0 <= k < |ueOrder|
      ensures AdmitsUe(out[|towerOrder| + k], towers, ues[ueOrder[k]])
    {
      assert out[|towerOrder| + k] == admissions[k];
    }
  }

  /** The first loop of handleCellConfigRequest. */
  method CellConfigReports(towers: map<string, Tower>, order: seq<string>) returns (out: seq<ControlUpdate>)
    requires forall k :: 0 <= k < |order| ==> order[k] in towers
    requires NeighborsKnown(towers)
    ensures |out| == |order|
    ensures forall k :: 0 <= k < |order| ==> ReportsTower(out[k], towers, order[k])
  {
    out := [];
    for t := 0 to |order|
      invariant |out| == t
      invariant forall k :: 0 <= k < t ==> ReportsTower(out[k], towers, order[k])
    {
      var tower := towers[order[t]];
      var cells := CandidateCells(towers, tower.neighbors);
      out := out + [CellConfigReport(Ecgi(tower.plmnId, tower.ecid), tower.maxUes, cells)];
    }
  }

  /** The second loop of handleCellConfigRequest. */
  method UeAdmissions(towers: map<string, Tower>, ues: map<string, Ue>, order: seq<string>) returns (out: seq<ControlUpdate>)
    requires forall k :: 0 <= k < |order| ==> order[k] in ues && ues[order[k]].tower in towers
    ensures |out| == |order|
    ensures forall k :: 0 <= k < |order| ==> AdmitsUe(out[k], towers, ues[order[k]])
  {
    out := [];
    for u := 0 to |order|
      invariant |out| == u
      invariant forall k :: 0 <= k < u ==> AdmitsUe(out[k], towers, ues[order[k]])
    {
      var ue := ues[order[u]];
      var eci := towers[ue.tower].ecid;
      out := out + [UeAdmissionRequest(Ecgi(TestPlmnId, eci), ue.crnti, MoSignalling)];
    }
  }

  /**
    A duplicate-free listing of a key set has exactly as many entries as the
    set: handleCellConfigRequest sends one report per tower and one admission
    request per UE.
   */
  lemma ListsKeysSize(order: seq<string>, keys: set<string>)
    requires ListsKeys(order, keys)
    ensures |order| == |keys|
  {
    assert keys == set k | k in order;
    DistinctSize(order);
  }

  lemma {:induction false} DistinctSize(order: seq<string>)
    requires forall a, b :: 0 <= a < b < |order| ==> order[a] != order[b]
    ensures |set k | k in order| == |order|
  {
    if order != [] {
      var rest := order[1..];
      assert forall a, b :: 0 <= a < b < |rest| ==> rest[a] != rest[b] by {
        forall a, b | 0 <= a < b < |rest|
          ensures rest[a] != rest[b]
        {
          assert rest[a] == order[a + 1] && rest[b] == order[b + 1];
        }
      }
      DistinctSize(rest);
      assert (set k | k in order) == {order[0]} + (set k | k in rest);
      assert order[0] !in (set k | k in rest);
    }
  }

  /**
    On a full square grid after Run, the candidate cells of a tower's report
    are the ECGIs of towers that in turn list that tower, and never its own.
   */
  lemma ReportCandidatesMutual(towers: map<string, Tower>, params: TowersParams, msg: ControlUpdate, key: string, m: nat)
    requires params.towerRows == params.towerCols && FullGrid(towers, params.towerRows)
    requires TowersStampable(towers, params)
    requires ReportsTower(msg, StampTowers(towers, params), key)
    requires m < |msg.candScells|
    ensures var s := StampTowers(towers, params);
      exists nb :: nb in s && msg.candScells[m].ecgi == EcgiOf(s[nb]) && nb != key && key in s[nb].neighbors
  {
    var s := StampTowers(towers, params);
    StampedGridNeighbors(towers, params);
    var nb := s[key].neighbors[m];
    assert nb in s[key].neighbors;
    assert msg.candScells[m].ecgi == EcgiOf(s[nb]);
  }

  // ---------------------------------------------------------------------------
  // radioMeasReportPerUE
  // ---------------------------------------------------------------------------

  /**
    makeCqi's clamp. The quotient 0.001 / distance² truncated to an unsigned
    integer is the argument; the clamp caps it at 15.
   */
  function MakeCqi(quotient: nat): (cqi: nat)
    ensures cqi <= 15 && cqi <= quotient
    ensures cqi == quotient <==> quotient <= 15
  {
    if quotient > 15 then 15 else quotient
  }

  /** A larger quotient never gives a smaller CQI. */
  lemma MakeCqiMonotone(a: nat, b: nat)
    requires a <= b
    ensures MakeCqi(a) <= MakeCqi(b)
  {
  }

  /** Only UPDATED events of update type TOWER are reported. */
  predicate IsTowerChange(ev: UeEvent) {
    ev.eventType == Updated && ev.updateType == TowerUpdate
  }

  /** The serving, 2nd and 3rd towers of the UE can be looked up. */
  predicate ReportTowersKnown(towers: map<string, Tower>, ue: Ue) {
    ue.tower in towers && ue.tower2 in towers && ue.tower3 in towers
  }

  /** One serving-cell report: the tower's ECGI and a single CQI. */
  function CellReport(t: Tower, quotient: nat): RadioRepPerServCell {
    RadioRepPerServCell(EcgiOf(t), [MakeCqi(quotient)])
  }

  /**
    The body of the listener loop of radioMeasReportPerUE for one event:
    nothing unless the event is a TOWER update; otherwise a message headed by
    the serving tower's ECGI with one report each for the serving, 2nd and
    3rd tower, in that order. `quotientOf` is the floating-point
    0.001 / distance², truncated.
   */
  function RadioMeasReport(towers: map<string, Tower>, ev: UeEvent, quotientOf: Distance -> nat): (r: Option<TelemetryMessage>)
    requires IsTowerChange(ev) ==> ReportTowersKnown(towers, ev.ue)
    ensures r.Some? <==> IsTowerChange(ev)
    ensures r.Some? ==>
      var ue, msg := ev.ue, r.value;
      && |msg.reports| == 3
      && msg.ecgi == msg.reports[0].ecgi == EcgiOf(towers[ue.tower])
      && msg.reports[1].ecgi == EcgiOf(towers[ue.tower2])
      && msg.reports[2].ecgi == EcgiOf(towers[ue.tower3])
      && msg.reports[0].cqiHist == [MakeCqi(quotientOf(ue.towerDist))]
      && msg.reports[1].cqiHist == [MakeCqi(quotientOf(ue.tower2Dist))]
      && msg.reports[2].cqiHist == [MakeCqi(quotientOf(ue.tower3Dist))]
      && msg.crnti == ue.crnti
  {
    if !IsTowerChange(ev) then None
    else
      var ue := ev.ue;
      var tower, tower2, tower3 := towers[ue.tower], towers[ue.tower2], towers[ue.tower3];
      var reports := [CellReport(tower, quotientOf(ue.towerDist)),
                      CellReport(tower2, quotientOf(ue.tower2Dist)),
                      CellReport(tower3, quotientOf(ue.tower3Dist))];
      Some(MeasReportPerUe(EcgiOf(tower), ue.crnti, reports))
  }

  predicate EventsReportable(towers: map<string, Tower>, events: seq<UeEvent>) {
    forall k :: 0 <= k < |events| && IsTowerChange(events[k]) ==> ReportTowersKnown(towers, events[k].ue)
  }

  /** Everything the listener sends for a stream of UE events, oldest first. */
  function Telemetry(towers: map<string, Tower>, events: seq<UeEvent>, quotientOf: Distance -> nat): (msgs: seq<TelemetryMessage>)
    requires EventsReportable(towers, events)
    ensures |msgs| <= |events|
    decreases |events|
  {
    if events == [] then []
    else
      var rest := Telemetry(towers, events[..|events| - 1], quotientOf);
      match RadioMeasReport(towers, events[|events| - 1], quotientOf)
      case None => rest
      case Some(msg) => rest + [msg]
  }

  /** The listener handles events one at a time: the messages for a + b are those for a, then those for b. */
  lemma {:induction false} TelemetryAppend(towers: map<string, Tower>, a: seq<UeEvent>, b: seq<UeEvent>, quotientOf: Distance -> nat)
    requires EventsReportable(towers, a + b)
    ensures EventsReportable(towers, a) && EventsReportable(towers, b)
    ensures Telemetry(towers, a + b, quotientOf) == Telemetry(towers, a, quotientOf) + Telemetry(towers, b, quotientOf)
    decreases |b|
  {
    assert forall k :: 0 <= k < |a| ==> a[k] == (a + b)[k];
    assert forall k :: 0 <= k < |b| ==> b[k] == (a + b)[|a| + k];
    if b == [] {
      assert a + b == a;
    } else {
      var b' := b[..|b| - 1];
      assert (a + b)[..|a + b| - 1] == a + b';
      assert forall k :: 0 <= k < |b'| ==> b'[k] == b[k];
      TelemetryAppend(towers, a, b', quotientOf);
    }
  }

  /** A stream with no TOWER update produces no message. */
  lemma {:induction false} TelemetrySilent(towers: map<string, Tower>, events: seq<UeEvent>, quotientOf: Distance -> nat)
    requires forall k :: 0 <= k < |events| ==> !IsTowerChange(events[k])
    ensures EventsReportable(towers, events)
    ensures Telemetry(towers, events, quotientOf) == []
    decreases |events|
  {
    if events != [] {
      var init := events[..|events| - 1];
      assert forall k :: 0 <= k < |init| ==> init[k] == events[k];
      TelemetrySilent(towers, init, quotientOf);
    }
  }

  /**
    The listener loop of radioMeasReportPerUE over a finite stream of UE
    events: the messages it enqueues, in order.
   */
  method RadioMeasReportPerUe(towers: map<string, Tower>, events: seq<UeEvent>, quotientOf: Distance -> nat)
    returns (sent: seq<TelemetryMessage>)
    requires EventsReportable(towers, events)
    ensures sent == Telemetry(towers, events, quotientOf)
  {
    sent := [];
    for k := 0 to |events|
      invariant EventsReportable(towers, events[..k])
      invariant sent == Telemetry(towers, events[..k], quotientOf)
    {
      assert events[..k + 1][..k] == events[..k];
      var ev := events[k];
      if ev.eventType == Updated && ev.updateType == TowerUpdate {
        var ue := ev.ue;
        var tower, tower2, tower3 := towers[ue.tower], towers[ue.tower2], towers[ue.tower3];
        var reports := [RadioRepPerServCell(Ecgi(tower.plmnId, tower.ecid), [MakeCqi(quotientOf(ue.towerDist))]),
                        RadioRepPerServCell(Ecgi(tower2.plmnId, tower2.ecid), [MakeCqi(quotientOf(ue.tower2Dist))]),
                        RadioRepPerServCell(Ecgi(tower3.plmnId, tower3.ecid), [MakeCqi(quotientOf(ue.tower3Dist))])];
        sent := sent + [MeasReportPerUe(Ecgi(tower.plmnId, tower.ecid), ue.crnti, reports)];
      }
    }
    assert events[..|events|] == events;
  }

  /**
    What a move means for the telemetry stream: it triggers a report exactly
    when it changed the 2nd or 3rd tower; the report is headed by the
    unchanged serving tower and, on a full grid after Run with distinct
    nearest-tower names, its three cells are pairwise different.
   */
  lemma MoveReport(env: Env, ue: Ue, route: Route, towers: map<string, Tower>, params: TowersParams, quotientOf: Distance -> nat)
    requires route.waypoints != []
    requires forall p :: DistinctNames(env.closest(p))
    requires params.towerRows == params.towerCols && FullGrid(towers, params.towerRows)
    requires Move(env, ue, route).Moved? ==> ReportTowersKnown(towers, Move(env, ue, route).event.ue)
    ensures TowersStampable(towers, params)
    ensures var out := Move(env, ue, route);
      var s := StampTowers(towers, params);
      out.Moved? ==>
        var r := RadioMeasReport(s, out.event, quotientOf);
        && (r.Some? <==> out.ue.tower2 != ue.tower2 || out.ue.tower3 != ue.tower3)
        && (r.Some? ==>
              && r.value.ecgi == EcgiOf(s[ue.tower])
              && r.value.reports[0].ecgi != r.value.reports[1].ecgi
              && r.value.reports[0].ecgi != r.value.reports[2].ecgi
              && r.value.reports[1].ecgi != r.value.reports[2].ecgi)
  {
    GridStampable(towers, params);
    var out := Move(env, ue, route);
    if out.Moved? {
      MoveKeepsServing(env, ue, route);
      MoveClassifies(env, ue, route);
      MoveDistinctTowers(env, ue, route);
      assert out.event.ue == out.ue;
      var u := out.ue;
      StampedGridEcgisDistinct(towers, params, u.tower, u.tower2);
      StampedGridEcgisDistinct(towers, params, u.tower, u.tower3);
      StampedGridEcgisDistinct(towers, params, u.tower2, u.tower3);
    }
  }
}
