/**
  One step of a UE along its route (Manager.moveUe in pkg/manager), as a
  value: where the UE goes, which candidate towers it gets, which event it
  emits, and the two ways the step fails. The imperative Manager.MoveUe in
  module TrafficSim is proved to do exactly what Move says.
 */
module Motion {
  import opened Wrappers
  import opened Text
  import opened Types

  /** One entry of findClosestTowers' answer: a tower name and its distance. */
  datatype Ranked = Ranked(name: string, dist: Distance)

  /** findClosestTowers' answer: the three nearest towers, nearest first. */
  datatype Nearest = Nearest(first: Ranked, second: Ranked, third: Ranked)

  /**
    The collaborators of the mobility engine that are not part of this model,
    each a total function over the fixed tower table:
    closest        findClosestTowers(position)
    towerDistance  distanceToTower(m.Towers[name], position)
    rotation       uint32(getRotationDegrees(from, to))
    newRoute       newRoute(start, index, apiKey, colour), None when it fails
   */
  datatype Env = Env(
    closest: Coordinate -> Nearest,
    towerDistance: (string, Coordinate) -> Distance,
    rotation: (Coordinate, Coordinate) -> nat,
    newRoute: (Location, nat, string, string) -> Option<Route>)

  function Ranks(near: Nearest): seq<Ranked> {
    [near.first, near.second, near.third]
  }

  predicate DistinctNames(near: Nearest) {
    near.first.name != near.second.name && near.first.name != near.third.name
    && near.second.name != near.third.name
  }

  /** What findClosestTowers is meant to return: nearest first. */
  predicate RankOrdered(near: Nearest) {
    near.first.dist <= near.second.dist <= near.third.dist
  }

  // ---------------------------------------------------------------------------
  // Candidate towers around a serving tower that never changes
  // ---------------------------------------------------------------------------

  /** The serving distance and the 2nd and 3rd candidates that a move assigns. */
  datatype Candidates = Candidates(towerDist: Distance, second: Ranked, third: Ranked)

  /** The four-way branch of moveUe; `ownDist` is what distanceToTower gives for the serving tower. */
  function Reassign(serving: string, near: Nearest, ownDist: Distance): Candidates {
    if serving == near.first.name then Candidates(near.first.dist, near.second, near.third)
    else if serving == near.second.name then Candidates(near.second.dist, near.first, near.third)
    else if serving == near.third.name then Candidates(near.third.dist, near.first, near.second)
    else Candidates(ownDist, near.first, near.second)
  }

  /**
    If the serving tower is the r-th nearest (first occurrence), the serving
    distance is that entry's and the 2nd and 3rd candidates are the other two
    entries in rank order; if it is not among the three, the candidates are
    the two nearest and the serving distance is measured separately.
   */
  lemma ReassignKeepsRankOrder(serving: string, near: Nearest, ownDist: Distance)
    ensures var rs := Ranks(near); var c := Reassign(serving, near, ownDist);
      forall r :: 0 <= r < 3 && rs[r].name == serving && (forall q :: 0 <= q < r ==> rs[q].name != serving) ==>
        c.towerDist == rs[r].dist && [c.second, c.third] == rs[..r] + rs[r + 1..]
    ensures var rs := Ranks(near);
      (forall r :: 0 <= r < 3 ==> rs[r].name != serving) ==>
        Reassign(serving, near, ownDist) == Candidates(ownDist, rs[0], rs[1])
  {
    var rs := Ranks(near);
    assert rs[..0] + rs[1..] == [near.second, near.third];
    assert rs[..1] + rs[2..] == [near.first, near.third];
    assert rs[..2] + rs[3..] == [near.first, near.second];
  }

  /** With distinct names from findClosestTowers the serving, 2nd and 3rd towers are pairwise distinct. */
  lemma ReassignDistinct(serving: string, near: Nearest, ownDist: Distance)
    requires DistinctNames(near)
    ensures var c := Reassign(serving, near, ownDist);
      serving != c.second.name && serving != c.third.name && c.second.name != c.third.name
  {
  }

  /** With ranked input the 2nd candidate is never farther than the 3rd. */
  lemma ReassignOrdered(serving: string, near: Nearest, ownDist: Distance)
    requires RankOrdered(near)
    ensures var c := Reassign(serving, near, ownDist);
      c.second.dist <= c.third.dist
      && (serving == near.first.name ==> c.towerDist <= c.second.dist)
  {
  }

  /**
    The serving tower is not re-ranked: once a UE has driven towards other
    towers its serving distance can exceed that of its 2nd candidate.
   */
  lemma ServingCanBeFarther()
    ensures var near := Nearest(Ranked("Tower-1", 1.0), Ranked("Tower-2", 2.0), Ranked("Tower-3", 3.0));
      RankOrdered(near) && DistinctNames(near)
      && var c := Reassign("Tower-3", near, 0.0);
      c.towerDist > c.second.dist
  {
  }

  // ---------------------------------------------------------------------------
  // Errors
  // ---------------------------------------------------------------------------

  /** The two errors moveUe returns; the index is that of the last waypoint. */
  datatype MoveError = EndOfRoute(route: string, index: nat) | OffRoute(route: string)

  /** The error's text, up to the route name for the off-route error. */
  function ErrorText(e: MoveError): string {
    match e
    case EndOfRoute(route, index) => "end of route " + route + " " + Decimal(index)
    case OffRoute(route) => "unexpectedly hit end of route " + route
  }

  /** startMoving tells the two errors apart by the prefix "end of route" alone, and that is enough. */
  lemma EndOfRouteByPrefix(e: MoveError)
    ensures HasPrefix(ErrorText(e), "end of route") <==> e.EndOfRoute?
  {
    var t := ErrorText(e);
    if e.EndOfRoute? {
      assert t[..12] == "end of route";
    } else {
      assert t[0] == 'u';
    }
  }

  // ---------------------------------------------------------------------------
  // One move
  // ---------------------------------------------------------------------------

  /** moveUe compares positions by longitude and latitude. */
  predicate SamePlace(a: Coordinate, b: Coordinate) {
    a.lng == b.lng && a.lat == b.lat
  }

  /** The index of the first waypoint at `pos`, if any. */
  function FirstAt(wps: seq<Coordinate>, pos: Coordinate): (r: Option<nat>)
    ensures r.Some? ==>
      r.value < |wps| && SamePlace(pos, wps[r.value])
      && forall k :: 0 <= k < r.value ==> !SamePlace(pos, wps[k])
    ensures r.None? ==> forall k :: 0 <= k < |wps| ==> !SamePlace(pos, wps[k])
  {
    if wps == [] then None
    else if SamePlace(pos, wps[0]) then Some(0)
    else match FirstAt(wps[1..], pos)
      case None => None
      case Some(k) => Some(k + 1)
  }

  /** A waypoint at `pos` with none before it is the one FirstAt finds. */
  lemma FirstAtIs(wps: seq<Coordinate>, pos: Coordinate, idx: nat)
    requires idx < |wps| && SamePlace(pos, wps[idx])
    requires forall k :: 0 <= k < idx ==> !SamePlace(pos, wps[k])
    ensures FirstAt(wps, pos) == Some(idx)
  {
    var found := FirstAt(wps, pos);
    assert found.Some?;
    assert !(found.value < idx);
  }

  /** A move either yields the moved UE and the one event it emits, or an error and no change. */
  datatype MoveOutcome = Moved(ue: Ue, event: UeEvent) | Failed(error: MoveError)

  /**
    moveUe: find the first waypoint at the UE's position and step to the next
    one, turning the UE, re-ranking the candidate towers around the serving
    tower and classifying the event. An empty route makes moveUe index an
    empty slice while formatting its error, hence the requirement.
   */
  function Move(env: Env, ue: Ue, route: Route): MoveOutcome
    requires route.waypoints != []
  {
    var wps := route.waypoints;
    match FirstAt(wps, ue.position)
    case None => Failed(OffRoute(route.name))
    case Some(idx) =>
      if idx + 1 == |wps| then Failed(EndOfRoute(route.name, idx))
      else
        var pos := wps[idx + 1];
        var c := Reassign(ue.tower, env.closest(pos), env.towerDistance(ue.tower, pos));
        var moved := ue.(position := pos, rotation := env.rotation(wps[idx], pos),
                         towerDist := c.towerDist,
                         tower2 := c.second.name, tower2Dist := c.second.dist,
                         tower3 := c.third.name, tower3Dist := c.third.dist);
        var kind := if moved.tower2 != ue.tower2 || moved.tower3 != ue.tower3 then TowerUpdate else PositionUpdate;
        Moved(moved, UeEvent(Updated, kind, moved))
  }

  /**
    The three outcomes of a move, by the index of the first waypoint equal to
    the UE's position: a step to the next waypoint with one UPDATED event
    carrying the moved UE, end of route at the last waypoint, or the off-route
    error when no waypoint matches.
   */
  lemma MoveOutcomes(env: Env, ue: Ue, route: Route, idx: nat)
    requires route.waypoints != []
    ensures var wps := route.waypoints; var out := Move(env, ue, route);
      (idx + 1 < |wps| && SamePlace(ue.position, wps[idx])
       && (forall k :: 0 <= k < idx ==> !SamePlace(ue.position, wps[k])) ==>
         out.Moved? && out.ue.position == wps[idx + 1]
         && out.ue.rotation == env.rotation(wps[idx], wps[idx + 1])
         && out.event.eventType == Updated && out.event.ue == out.ue)
      && (idx + 1 == |wps| && SamePlace(ue.position, wps[idx])
          && (forall k :: 0 <= k < idx ==> !SamePlace(ue.position, wps[k])) ==>
         out == Failed(EndOfRoute(route.name, idx)))
      && ((forall k :: 0 <= k < |wps| ==> !SamePlace(ue.position, wps[k])) ==>
         out == Failed(OffRoute(route.name)))
  {
    var wps := route.waypoints;
    if idx < |wps| && SamePlace(ue.position, wps[idx]) && forall k :: 0 <= k < idx ==> !SamePlace(ue.position, wps[k]) {
      FirstAtIs(wps, ue.position, idx);
    }
  }

  /**
    A move changes only position, rotation and the candidate fields; it never
    assigns the serving tower, whose distance and candidates are Reassign's.
   */
  lemma MoveKeepsServing(env: Env, ue: Ue, route: Route)
    requires route.waypoints != []
    ensures var out := Move(env, ue, route);
      out.Moved? ==>
        var pos := out.ue.position;
        var c := Reassign(ue.tower, env.closest(pos), env.towerDistance(ue.tower, pos));
        out.ue == ue.(position := pos, rotation := out.ue.rotation, towerDist := c.towerDist,
                      tower2 := c.second.name, tower2Dist := c.second.dist,
                      tower3 := c.third.name, tower3Dist := c.third.dist)
        && out.ue.tower == ue.tower && out.ue.name == ue.name && out.ue.crnti == ue.crnti
  {
  }

  /**
    The event is a TOWER update exactly when the 2nd or 3rd candidate changed,
    and a POSITION update otherwise.
   */
  lemma MoveClassifies(env: Env, ue: Ue, route: Route)
    requires route.waypoints != []
    ensures var out := Move(env, ue, route);
      out.Moved? ==>
        out.event.eventType == Updated
        && (out.event.updateType == TowerUpdate <==> (out.ue.tower2 != ue.tower2 || out.ue.tower3 != ue.tower3))
        && (out.event.updateType == PositionUpdate <==> (out.ue.tower2 == ue.tower2 && out.ue.tower3 == ue.tower3))
  {
  }

  /** After any move with distinct names from findClosestTowers, Tower, Tower2 and Tower3 are pairwise distinct. */
  lemma MoveDistinctTowers(env: Env, ue: Ue, route: Route)
    requires route.waypoints != []
    requires forall p :: DistinctNames(env.closest(p))
    ensures var out := Move(env, ue, route);
      out.Moved? ==>
        out.ue.tower != out.ue.tower2 && out.ue.tower != out.ue.tower3 && out.ue.tower2 != out.ue.tower3
  {
    var out := Move(env, ue, route);
    if out.Moved? {
      var pos := out.ue.position;
      ReassignDistinct(ue.tower, env.closest(pos), env.towerDistance(ue.tower, pos));
    }
  }

  // ---------------------------------------------------------------------------
  // Driving a whole route
  // ---------------------------------------------------------------------------

  /** The result of repeated moves: the UE, the events emitted, and the error that stopped it if any. */
  datatype Drive = Drive(ue: Ue, events: seq<UeEvent>, stop: Option<MoveError>)

  /** Up to `k` consecutive moves of one UE along one route, stopping at the first error. */
  function DriveFor(env: Env, ue: Ue, route: Route, k: nat): Drive
    requires route.waypoints != []
    decreases k
  {
    if k == 0 then Drive(ue, [], None)
    else match Move(env, ue, route)
      case Failed(e) => Drive(ue, [], Some(e))
      case Moved(u, ev) =>
        var d := DriveFor(env, u, route, k - 1);
        Drive(d.ue, [ev] + d.events, d.stop)
  }

  predicate DistinctWaypoints(wps: seq<Coordinate>) {
    forall a, b :: 0 <= a < b < |wps| ==> !SamePlace(wps[a], wps[b])
  }

  lemma FirstAtDistinct(wps: seq<Coordinate>, j: nat)
    requires DistinctWaypoints(wps) && j < |wps|
    ensures FirstAt(wps, wps[j]) == Some(j)
  {
    var r := FirstAt(wps, wps[j]);
    assert r.Some?;
  }

  /**
    On a route of distinct waypoints a UE at waypoint j visits every later
    waypoint in order, one event per move, and then stops with end of route
    at the last index.
   */
  lemma {:induction false} DriveToEnd(env: Env, ue: Ue, route: Route, j: nat)
    requires DistinctWaypoints(route.waypoints) && j < |route.waypoints|
    requires ue.position == route.waypoints[j]
    ensures var wps := route.waypoints; var d := DriveFor(env, ue, route, |wps| - j);
      |d.events| == |wps| - 1 - j
      && (forall k :: 0 <= k < |d.events| ==> d.events[k].ue.position == wps[j + 1 + k])
      && d.ue.position == wps[|wps| - 1]
      && d.stop == Some(EndOfRoute(route.name, |wps| - 1))
    decreases |route.waypoints| - j
  {
    var wps := route.waypoints;
    FirstAtDistinct(wps, j);
    if j + 1 < |wps| {
      var out := Move(env, ue, route);
      assert out.Moved? && out.ue.position == wps[j + 1];
      DriveToEnd(env, out.ue, route, j + 1);
    }
  }

  /**
    A route that comes back to a waypoint traps the UE: on [a, b, a, c] the
    search always finds the first a, so a UE on the route never reaches c and
    never sees end of route.
   */
  lemma {:induction false} RevisitNeverEnds(env: Env, ue: Ue, route: Route, k: nat)
    requires |route.waypoints| == 4 && !SamePlace(route.waypoints[0], route.waypoints[1])
    requires route.waypoints[2] == route.waypoints[0]
    requires ue.position == route.waypoints[0] || ue.position == route.waypoints[1]
    ensures DriveFor(env, ue, route, k).stop == None
    decreases k
  {
    if k > 0 {
      var wps := route.waypoints;
      var out := Move(env, ue, route);
      if ue.position == wps[0] {
        assert FirstAt(wps, ue.position) == Some(0);
        assert out.Moved? && out.ue.position == wps[1];
      } else {
        assert FirstAt(wps, ue.position) == Some(1);
        assert out.Moved? && out.ue.position == wps[0];
      }
      RevisitNeverEnds(env, out.ue, route, k - 1);
    }
  }
}
