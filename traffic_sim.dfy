/**
  The traffic simulator's manager (pkg/manager): the tables of towers, UEs
  and routes it owns, the two event streams it feeds, and the operations that
  build the UE table, look up a UE's colour, move one UE and drive every UE
  tick after tick.

  The pure functions Turn, PassFrom and Loop say what one UE's turn, one pass
  and a run of passes do to the state; the methods of class Manager are
  proved to do exactly that, and the lemmas say what a pass means.
 */
module TrafficSim {
  import opened Wrappers
  import opened Text
  import opened Types
  import opened Motion
  import opened Seqs

  // ---------------------------------------------------------------------------
  // Names
  // ---------------------------------------------------------------------------

  /** fmt.Sprintf("Ue-%d", i) */
  function UeName(i: nat): string {
    "Ue-" + Decimal(i)
  }

  /** fmt.Sprintf("Route-%d", i) */
  function RouteName(i: nat): string {
    "Route-" + Decimal(i)
  }

  /** The name of UE i reads back as i, so different indices never share a name. */
  lemma UeNameInjective(a: nat, b: nat)
    ensures Ordinal(UeName(a)) == Some(a)
    ensures UeName(a) == UeName(b) <==> a == b
  {
    var prefix := "Ue-";
    assert NoDigits(prefix) by {
      assert !IsDigit(prefix[0]) && !IsDigit(prefix[1]) && !IsDigit(prefix[2]);
    }
    OrdinalAfterPrefix(prefix, a);
    OrdinalAfterPrefix(prefix, b);
  }

  lemma RouteNameInjective(a: nat, b: nat)
    ensures UeName(a) == UeName(b) <==> a == b
    ensures RouteName(a) == RouteName(b) <==> a == b
  {
    var prefix := "Route-";
    assert NoDigits(prefix) by {
      assert !IsDigit(prefix[0]) && !IsDigit(prefix[1]) && !IsDigit(prefix[2]);
      assert !IsDigit(prefix[3]) && !IsDigit(prefix[4]) && !IsDigit(prefix[5]);
    }
    OrdinalAfterPrefix(prefix, a);
    OrdinalAfterPrefix(prefix, b);
    UeNameInjective(a, b);
  }

  // ---------------------------------------------------------------------------
  // The state as a value
  // ---------------------------------------------------------------------------

  /** The manager's mutable tables and the two event streams, as logs of what was sent. */
  datatype World = World(
    ues: map<string, Ue>,
    routes: map<string, Route>,
    ueLog: seq<UeEvent>,
    routeLog: seq<RouteEvent>)

  /** UE i and route i exist and the route has a waypoint (else moveUe dereferences nil or indexes an empty slice). */
  predicate ReadyAt(w: World, i: nat) {
    UeName(i) in w.ues && RouteName(i) in w.routes && w.routes[RouteName(i)].waypoints != []
  }

  /**
    Every UE a pass over `n` routes visits is ready. The body spells out
    ReadyAt: contracts index `w.ues[UeName(j)]` and `w.routes[RouteName(j)]`
    under `forall j`, and those lookups are well-formed only when the
    membership facts are visible to the quantifier without a call to unfold.
   */
  predicate Ready(w: World, n: nat) {
    forall i :: 0 <= i < n ==>
      UeName(i) in w.ues && RouteName(i) in w.routes && w.routes[RouteName(i)].waypoints != []
  }

  /** The tower table is keyed by tower name, as the simulator builds it. */
  predicate KeyedByName(towers: map<string, Tower>) {
    forall k :: k in towers ==> towers[k].name == k
  }

  /** newRoute never hands back an empty route. */
  ghost predicate RoutesNonEmpty(env: Env) {
    forall l, i, key, c :: env.newRoute(l, i, key, c).Some? ==> env.newRoute(l, i, key, c).value.waypoints != []
  }

  /** newRoute's routes begin where they were asked to start. */
  ghost predicate RoutesStartAt(env: Env) {
    forall l, i, key, c :: env.newRoute(l, i, key, c).Some? ==>
      var wps := env.newRoute(l, i, key, c).value.waypoints;
      wps != [] && SamePlace(wps[0], l.position)
  }

  /** The colour getColorForUe finds for a UE, for a table keyed by name. */
  function ColorForUe(towers: map<string, Tower>, ues: map<string, Ue>, ueName: string): string {
    if ueName in ues && ues[ueName].tower in towers then towers[ues[ueName].tower].color else ""
  }

  // ---------------------------------------------------------------------------
  // One turn, one pass, the tick loop
  // ---------------------------------------------------------------------------

  /**
    How a turn or a pass ended: normally, with the breakout flag set by an
    error other than end of route, or with log.Fatalf ending the process
    because newRoute failed.
   */
  datatype PassStatus = Continue | Breakout | Exit

  datatype Pass = Pass(world: World, status: PassStatus)

  /**
    UE i's turn in a pass of startMoving: move it; at end of route ask for a
    new route from the route's last waypoint, in the UE's colour, and publish
    it; on any other error ask for a breakout.
   */
  function Turn(env: Env, towers: map<string, Tower>, apiKey: string, w: World, i: nat): (r: Pass)
    requires ReadyAt(w, i) && RoutesNonEmpty(env)
    ensures r.world.ues.Keys == w.ues.Keys && r.world.routes.Keys == w.routes.Keys
  {
    var ueName := UeName(i);
    var routeName := RouteName(i);
    var route := w.routes[routeName];
    match Move(env, w.ues[ueName], route)
    case Moved(u, ev) => Pass(w.(ues := w.ues[ueName := u], ueLog := w.ueLog + [ev]), Continue)
    case Failed(e) =>
      if HasPrefix(ErrorText(e), "end of route") then
        var finish := route.waypoints[|route.waypoints| - 1];
        match env.newRoute(Location("noname", finish), i, apiKey, ColorForUe(towers, w.ues, ueName))
        case None => Pass(w, Exit)
        case Some(next) =>
          Pass(w.(routes := w.routes[routeName := next], routeLog := w.routeLog + [RouteEvent(Updated, next)]), Continue)
      else Pass(w, Breakout)
  }

  /** The turns of UEs i..n-1 in index order, with the breakout flag so far. */
  function PassFrom(env: Env, towers: map<string, Tower>, apiKey: string, w: World, i: nat, n: nat, breakout: bool): (p: Pass)
    requires Ready(w, n) && RoutesNonEmpty(env)
    ensures p.world.ues.Keys == w.ues.Keys && p.world.routes.Keys == w.routes.Keys
    decreases n - i, 1
  {
    if i >= n then Pass(w, if breakout then Breakout else Continue)
    else TurnAndRest(env, towers, apiKey, w, i, n, breakout)
  }

  /** UE i's turn, then the rest of the pass unless the turn ended the process. */
  function TurnAndRest(env: Env, towers: map<string, Tower>, apiKey: string, w: World, i: nat, n: nat, breakout: bool): (p: Pass)
    requires Ready(w, n) && RoutesNonEmpty(env) && i < n
    ensures p.world.ues.Keys == w.ues.Keys && p.world.routes.Keys == w.routes.Keys
    decreases n - i, 0
  {
    var t := Turn(env, towers, apiKey, w, i);
    TurnReady(env, towers, apiKey, w, i, n);
    if t.status == Exit then t
    else PassFrom(env, towers, apiKey, t.world, i + 1, n, breakout || t.status == Breakout)
  }

  /** `t` ends UE i's turn, and the pass from UE i is that turn followed by the rest of the pass. */
  ghost predicate IsTurnOf(env: Env, towers: map<string, Tower>, apiKey: string, w: World, i: nat, n: nat, breakout: bool, t: Pass)
    requires Ready(w, n) && RoutesNonEmpty(env)
  {
    && Ready(t.world, n)
    && PassFrom(env, towers, apiKey, w, i, n, breakout)
       == if t.status == Exit then t else PassFrom(env, towers, apiKey, t.world, i + 1, n, breakout || t.status == Breakout)
  }

  /** One step of a pass: UE i's turn and what follows it. */
  lemma PassStep(env: Env, towers: map<string, Tower>, apiKey: string, w: World, i: nat, n: nat, breakout: bool) returns (t: Pass)
    requires Ready(w, n) && RoutesNonEmpty(env) && i < n
    ensures ReadyAt(w, i) && t == Turn(env, towers, apiKey, w, i)
    ensures IsTurnOf(env, towers, apiKey, w, i, n, breakout, t)
  {
    assert ReadyAt(w, i);
    t := Turn(env, towers, apiKey, w, i);
    TurnReady(env, towers, apiKey, w, i, n);
    assert PassFrom(env, towers, apiKey, w, i, n, breakout) == TurnAndRest(env, towers, apiKey, w, i, n, breakout);
  }

  lemma TurnReady(env: Env, towers: map<string, Tower>, apiKey: string, w: World, i: nat, n: nat)
    requires ReadyAt(w, i) && RoutesNonEmpty(env) && Ready(w, n)
    ensures Ready(Turn(env, towers, apiKey, w, i).world, n)
  {
    var t := Turn(env, towers, apiKey, w, i).world;
    forall j | 0 <= j < n
      ensures ReadyAt(t, j)
    {
      assert ReadyAt(w, j);
    }
  }

  /** A pass keeps every UE and route it visits, and every route keeps a waypoint. */
  lemma {:induction false} PassReady(env: Env, towers: map<string, Tower>, apiKey: string, w: World, i: nat, n: nat, breakout: bool)
    requires Ready(w, n) && RoutesNonEmpty(env)
    ensures Ready(PassFrom(env, towers, apiKey, w, i, n, breakout).world, n)
    decreases n - i
  {
    if i < n {
      var t := PassStep(env, towers, apiKey, w, i, n, breakout);
      if t.status != Exit {
        PassReady(env, towers, apiKey, t.world, i + 1, n, breakout || t.status == Breakout);
      }
    }
  }

  /** What the tick loop has done: the state, the passes run and how the last one ended. */
  datatype Run = Run(world: World, passes: nat, status: PassStatus)

  /** At most `fuel` passes of startMoving's endless loop, stopping after a pass that breaks out. */
  function Loop(env: Env, towers: map<string, Tower>, params: RoutesParams, w: World, fuel: nat): Run
    requires Ready(w, params.numRoutes) && RoutesNonEmpty(env)
    decreases fuel
  {
    if fuel == 0 then Run(w, 0, Continue)
    else
      var p := PassFrom(env, towers, params.apiKey, w, 0, params.numRoutes, false);
      PassReady(env, towers, params.apiKey, w, 0, params.numRoutes, false);
      if p.status != Continue then Run(p.world, 1, p.status)
      else
        var r := Loop(env, towers, params, p.world, fuel - 1);
        Run(r.world, r.passes + 1, r.status)
  }

  // ---------------------------------------------------------------------------
  // What a pass means
  // ---------------------------------------------------------------------------

  /** The outcome of moving UE j along route j in state w. */
  function OutcomeOf(env: Env, w: World, j: nat): MoveOutcome
    requires ReadyAt(w, j)
  {
    Move(env, w.ues[UeName(j)], w.routes[RouteName(j)])
  }

  /** The UE after its move, or as it was when the move failed. */
  function Settled(out: MoveOutcome, ue: Ue): Ue {
    if out.Moved? then out.ue else ue
  }

  predicate OffRouteAt(env: Env, w: World, j: nat)
    requires ReadyAt(w, j)
  {
    OutcomeOf(env, w, j).Failed? && OutcomeOf(env, w, j).error.OffRoute?
  }

  predicate EndAt(env: Env, w: World, j: nat)
    requires ReadyAt(w, j)
  {
    OutcomeOf(env, w, j).Failed? && OutcomeOf(env, w, j).error.EndOfRoute?
  }

  /** What newRoute answers for UE j when its route ends: from the last waypoint, in the UE's colour. */
  function NewRouteFor(env: Env, towers: map<string, Tower>, apiKey: string, w: World, j: nat): Option<Route>
    requires ReadyAt(w, j)
  {
    var wps := w.routes[RouteName(j)].waypoints;
    env.newRoute(Location("noname", wps[|wps| - 1]), j, apiKey, ColorForUe(towers, w.ues, UeName(j)))
  }

  /** Route j after its UE's turn. */
  function RouteAfter(env: Env, towers: map<string, Tower>, apiKey: string, w: World, j: nat): Route
    requires ReadyAt(w, j)
  {
    var next := NewRouteFor(env, towers, apiKey, w, j);
    if EndAt(env, w, j) && next.Some? then next.value else w.routes[RouteName(j)]
  }

  /** The UE events of the turns of UEs i..n-1, in index order, each computed from the state the pass started in. */
  function MovedEvents(env: Env, w: World, i: nat, n: nat): seq<UeEvent>
    requires Ready(w, n)
    decreases n - i
  {
    if i >= n then []
    else
      assert ReadyAt(w, i);
      var out := OutcomeOf(env, w, i);
      (if out.Moved? then [out.event] else []) + MovedEvents(env, w, i + 1, n)
  }

  /** The route events of the turns of UEs i..n-1, in index order. */
  function RouteEvents(env: Env, towers: map<string, Tower>, apiKey: string, w: World, i: nat, n: nat): seq<RouteEvent>
    requires Ready(w, n)
    decreases n - i
  {
    if i >= n then []
    else
      assert ReadyAt(w, i);
      var next := NewRouteFor(env, towers, apiKey, w, i);
      (if EndAt(env, w, i) && next.Some? then [RouteEvent(Updated, next.value)] else [])
      + RouteEvents(env, towers, apiKey, w, i + 1, n)
  }

  /** States w and v hold the same UE j and route j for every j in lo..n-1. */
  predicate AgreeFrom(w: World, v: World, lo: nat, n: nat) {
    forall j :: lo <= j < n ==>
      ReadyAt(w, j) && ReadyAt(v, j)
      && v.ues[UeName(j)] == w.ues[UeName(j)] && v.routes[RouteName(j)] == w.routes[RouteName(j)]
  }

  /** How UE i's turn ends: a breakout exactly when it is off its route, an exit exactly when newRoute fails it. */
  lemma TurnStatus(env: Env, towers: map<string, Tower>, apiKey: string, w: World, i: nat)
    requires ReadyAt(w, i) && RoutesNonEmpty(env)
    ensures var t := Turn(env, towers, apiKey, w, i);
      && (t.status == Breakout <==> OffRouteAt(env, w, i))
      && (t.status == Exit <==> EndAt(env, w, i) && NewRouteFor(env, towers, apiKey, w, i).None?)
  {
    var out := OutcomeOf(env, w, i);
    if out.Failed? {
      EndOfRouteByPrefix(out.error);
    }
  }

  /** UE i and route i after a turn that does not exit. */
  lemma TurnState(env: Env, towers: map<string, Tower>, apiKey: string, w: World, i: nat)
    requires ReadyAt(w, i) && RoutesNonEmpty(env)
    ensures var t := Turn(env, towers, apiKey, w, i);
      t.status != Exit ==>
        t.world.ues[UeName(i)] == Settled(OutcomeOf(env, w, i), w.ues[UeName(i)])
        && t.world.routes[RouteName(i)] == RouteAfter(env, towers, apiKey, w, i)
  {
    var out := OutcomeOf(env, w, i);
    if out.Failed? {
      EndOfRouteByPrefix(out.error);
    }
  }

  /** The events a turn that does not exit sends. */
  lemma TurnLogs(env: Env, towers: map<string, Tower>, apiKey: string, w: World, i: nat)
    requires ReadyAt(w, i) && RoutesNonEmpty(env)
    ensures var t := Turn(env, towers, apiKey, w, i); var out := OutcomeOf(env, w, i);
      var next := NewRouteFor(env, towers, apiKey, w, i);
      t.status != Exit ==>
        t.world.ueLog == w.ueLog + (if out.Moved? then [out.event] else [])
        && t.world.routeLog == w.routeLog + (if EndAt(env, w, i) && next.Some? then [RouteEvent(Updated, next.value)] else [])
  {
    var out := OutcomeOf(env, w, i);
    if out.Failed? {
      EndOfRouteByPrefix(out.error);
    }
  }

  /** UE i's turn touches nothing the later turns of the pass look at. */
  lemma TurnAgrees(env: Env, towers: map<string, Tower>, apiKey: string, w: World, i: nat, n: nat)
    requires Ready(w, n) && RoutesNonEmpty(env) && i < n
    ensures AgreeFrom(w, Turn(env, towers, apiKey, w, i).world, i + 1, n)
  {
    assert ReadyAt(w, i);
    TurnReady(env, towers, apiKey, w, i, n);
    forall j | i + 1 <= j < n
      ensures UeName(j) != UeName(i) && RouteName(j) != RouteName(i)
    {
      RouteNameInjective(i, j);
    }
  }

  /** States that hold the same UE j and route j give UE j the same turn. */
  lemma AgreeAt(env: Env, towers: map<string, Tower>, apiKey: string, w: World, v: World, j: nat)
    requires ReadyAt(w, j) && ReadyAt(v, j)
    requires v.ues[UeName(j)] == w.ues[UeName(j)] && v.routes[RouteName(j)] == w.routes[RouteName(j)]
    ensures OutcomeOf(env, v, j) == OutcomeOf(env, w, j)
    ensures OffRouteAt(env, v, j) == OffRouteAt(env, w, j) && EndAt(env, v, j) == EndAt(env, w, j)
    ensures NewRouteFor(env, towers, apiKey, v, j) == NewRouteFor(env, towers, apiKey, w, j)
    ensures RouteAfter(env, towers, apiKey, v, j) == RouteAfter(env, towers, apiKey, w, j)
  {
    assert ColorForUe(towers, v.ues, UeName(j)) == ColorForUe(towers, w.ues, UeName(j));
  }

  lemma AgreeSelf(w: World, lo: nat, n: nat)
    requires Ready(w, n)
    ensures AgreeFrom(w, w, lo, n)
  {
  }

  lemma AgreeTrans(o: World, w: World, v: World, lo: nat, n: nat)
    requires AgreeFrom(o, w, lo, n) && AgreeFrom(w, v, lo + 1, n)
    ensures AgreeFrom(o, v, lo + 1, n)
  {
  }

  /** After UE i's turn the rest of the pass still finds every UE ready and UEs i+1.. as in `o`. */
  lemma TurnNext(env: Env, towers: map<string, Tower>, apiKey: string, o: World, w: World, i: nat, n: nat)
    requires Ready(o, n) && Ready(w, n) && RoutesNonEmpty(env) && i < n && AgreeFrom(o, w, i, n)
    ensures ReadyAt(w, i) && ReadyAt(o, i)
    ensures var t := Turn(env, towers, apiKey, w, i);
      Ready(t.world, n) && AgreeFrom(o, t.world, i + 1, n)
  {
    assert ReadyAt(w, i) && ReadyAt(o, i);
    TurnAgrees(env, towers, apiKey, w, i, n);
    TurnReady(env, towers, apiKey, w, i, n);
    AgreeTrans(o, w, Turn(env, towers, apiKey, w, i).world, i, n);
  }

  /** UE i after its turn, as the move computed in `o` says. */
  lemma TurnSettles(env: Env, towers: map<string, Tower>, apiKey: string, o: World, w: World, i: nat, n: nat, breakout: bool) returns (t: Pass)
    requires Ready(o, n) && Ready(w, n) && RoutesNonEmpty(env) && i < n && AgreeFrom(o, w, i, n)
    ensures IsTurnOf(env, towers, apiKey, w, i, n, breakout, t) && AgreeFrom(o, t.world, i + 1, n)
    ensures t.status != Exit ==> t.world.ues[UeName(i)] == Settled(OutcomeOf(env, o, i), o.ues[UeName(i)])
  {
    t := PassStep(env, towers, apiKey, w, i, n, breakout);
    TurnNext(env, towers, apiKey, o, w, i, n);
    AgreeAt(env, towers, apiKey, o, w, i);
    TurnState(env, towers, apiKey, w, i);
  }

  /** Route i after its turn, as the turn computed in `o` says. */
  lemma TurnReroutes(env: Env, towers: map<string, Tower>, apiKey: string, o: World, w: World, i: nat, n: nat, breakout: bool) returns (t: Pass)
    requires Ready(o, n) && Ready(w, n) && RoutesNonEmpty(env) && i < n && AgreeFrom(o, w, i, n)
    ensures IsTurnOf(env, towers, apiKey, w, i, n, breakout, t) && AgreeFrom(o, t.world, i + 1, n)
    ensures (t.status != Exit ==>
            (EndAt(env, o, i) ==> NewRouteFor(env, towers, apiKey, o, i).Some?)
            && t.world.routes[RouteName(i)] == RouteAfter(env, towers, apiKey, o, i))
  {
    t := PassStep(env, towers, apiKey, w, i, n, breakout);
    TurnNext(env, towers, apiKey, o, w, i, n);
    AgreeAt(env, towers, apiKey, o, w, i);
    TurnState(env, towers, apiKey, w, i);
    TurnStatus(env, towers, apiKey, w, i);
  }

  /** The UE log after UE i's turn, followed by the UE events of the later turns computed in `o`. */
  lemma TurnUeLog(env: Env, towers: map<string, Tower>, apiKey: string, o: World, w: World, i: nat, n: nat, breakout: bool) returns (t: Pass)
    requires Ready(o, n) && Ready(w, n) && RoutesNonEmpty(env) && i < n && AgreeFrom(o, w, i, n)
    ensures IsTurnOf(env, towers, apiKey, w, i, n, breakout, t) && AgreeFrom(o, t.world, i + 1, n)
    ensures (t.status != Exit ==>
            t.world.ueLog + MovedEvents(env, o, i + 1, n) == w.ueLog + MovedEvents(env, o, i, n))
  {
    t := PassStep(env, towers, apiKey, w, i, n, breakout);
    TurnNext(env, towers, apiKey, o, w, i, n);
    AgreeAt(env, towers, apiKey, o, w, i);
    TurnLogs(env, towers, apiKey, w, i);
    var out := OutcomeOf(env, o, i);
    AppendAssoc(w.ueLog, if out.Moved? then [out.event] else [], MovedEvents(env, o, i + 1, n));
  }

  /** The route log after UE i's turn, followed by the route events of the later turns computed in `o`. */
  lemma TurnRouteLog(env: Env, towers: map<string, Tower>, apiKey: string, o: World, w: World, i: nat, n: nat, breakout: bool) returns (t: Pass)
    requires Ready(o, n) && Ready(w, n) && RoutesNonEmpty(env) && i < n && AgreeFrom(o, w, i, n)
    ensures IsTurnOf(env, towers, apiKey, w, i, n, breakout, t) && AgreeFrom(o, t.world, i + 1, n)
    ensures (t.status != Exit ==>
            t.world.routeLog + RouteEvents(env, towers, apiKey, o, i + 1, n)
            == w.routeLog + RouteEvents(env, towers, apiKey, o, i, n))
  {
    t := PassStep(env, towers, apiKey, w, i, n, breakout);
    TurnNext(env, towers, apiKey, o, w, i, n);
    AgreeAt(env, towers, apiKey, o, w, i);
    TurnLogs(env, towers, apiKey, w, i);
    var next := NewRouteFor(env, towers, apiKey, o, i);
    AppendAssoc(w.routeLog, if EndAt(env, o, i) && next.Some? then [RouteEvent(Updated, next.value)] else [],
                RouteEvents(env, towers, apiKey, o, i + 1, n));
  }

  /** How UE i's turn ends, as the move computed in `o` says. */
  lemma TurnBreaks(env: Env, towers: map<string, Tower>, apiKey: string, o: World, w: World, i: nat, n: nat, breakout: bool) returns (t: Pass)
    requires Ready(o, n) && Ready(w, n) && RoutesNonEmpty(env) && i < n && AgreeFrom(o, w, i, n)
    ensures IsTurnOf(env, towers, apiKey, w, i, n, breakout, t) && AgreeFrom(o, t.world, i + 1, n)
    ensures t.status == Breakout <==> OffRouteAt(env, o, i)
  {
    t := PassStep(env, towers, apiKey, w, i, n, breakout);
    TurnNext(env, towers, apiKey, o, w, i, n);
    AgreeAt(env, towers, apiKey, o, w, i);
    TurnStatus(env, towers, apiKey, w, i);
  }

  /** UE i's turn leaves every other UE and route as it is. */
  lemma TurnKeeps(env: Env, towers: map<string, Tower>, apiKey: string, w: World, i: nat, n: nat, breakout: bool, m: nat) returns (t: Pass)
    requires Ready(w, n) && RoutesNonEmpty(env) && i < n && m < n && m != i
    ensures IsTurnOf(env, towers, apiKey, w, i, n, breakout, t)
    ensures t.world.ues[UeName(m)] == w.ues[UeName(m)] && t.world.routes[RouteName(m)] == w.routes[RouteName(m)]
  {
    t := PassStep(env, towers, apiKey, w, i, n, breakout);
    assert ReadyAt(w, m);
    RouteNameInjective(i, m);
  }

  /** Later turns leave UE m and route m, for m before the current index, as they are. */
  lemma {:induction false} PassKeepsEarlier(env: Env, towers: map<string, Tower>, apiKey: string, w: World, i: nat, n: nat, breakout: bool, m: nat)
    requires Ready(w, n) && RoutesNonEmpty(env) && m < i && m < n
    ensures var p := PassFrom(env, towers, apiKey, w, i, n, breakout);
      p.world.ues[UeName(m)] == w.ues[UeName(m)] && p.world.routes[RouteName(m)] == w.routes[RouteName(m)]
    decreases n - i
  {
    if i < n {
      var t := TurnKeeps(env, towers, apiKey, w, i, n, breakout, m);
      if t.status != Exit {
        PassKeepsEarlier(env, towers, apiKey, t.world, i + 1, n, breakout || t.status == Breakout, m);
      }
    }
  }

  /** UE i's settled state survives the turns after it, and joins the states they settle. */
  lemma SettledRest(env: Env, towers: map<string, Tower>, apiKey: string, o: World, w: World, i: nat, n: nat, breakout: bool)
    requires Ready(o, n) && Ready(w, n) && RoutesNonEmpty(env) && i < n
    requires w.ues[UeName(i)] == Settled(OutcomeOf(env, o, i), o.ues[UeName(i)])
    requires var p := PassFrom(env, towers, apiKey, w, i + 1, n, breakout);
      p.status != Exit ==>
        forall j :: i + 1 <= j < n ==> p.world.ues[UeName(j)] == Settled(OutcomeOf(env, o, j), o.ues[UeName(j)])
    ensures var p := PassFrom(env, towers, apiKey, w, i + 1, n, breakout);
      p.status != Exit ==>
        forall j :: i <= j < n ==> p.world.ues[UeName(j)] == Settled(OutcomeOf(env, o, j), o.ues[UeName(j)])
  {
    PassKeepsEarlier(env, towers, apiKey, w, i + 1, n, breakout, i);
    PassReady(env, towers, apiKey, w, i + 1, n, breakout);
  }

  /** UE i's new route survives the turns after it, and joins the routes they choose. */
  lemma ReroutedRest(env: Env, towers: map<string, Tower>, apiKey: string, o: World, w: World, i: nat, n: nat, breakout: bool)
    requires Ready(o, n) && Ready(w, n) && RoutesNonEmpty(env) && i < n
    requires (EndAt(env, o, i) ==> NewRouteFor(env, towers, apiKey, o, i).Some?)
      && w.routes[RouteName(i)] == RouteAfter(env, towers, apiKey, o, i)
    requires var p := PassFrom(env, towers, apiKey, w, i + 1, n, breakout);
      p.status != Exit ==>
        forall j :: i + 1 <= j < n ==>
          (EndAt(env, o, j) ==> NewRouteFor(env, towers, apiKey, o, j).Some?)
          && p.world.routes[RouteName(j)] == RouteAfter(env, towers, apiKey, o, j)
    ensures var p := PassFrom(env, towers, apiKey, w, i + 1, n, breakout);
      p.status != Exit ==>
        forall j :: i <= j < n ==>
          (EndAt(env, o, j) ==> NewRouteFor(env, towers, apiKey, o, j).Some?)
          && p.world.routes[RouteName(j)] == RouteAfter(env, towers, apiKey, o, j)
  {
    PassKeepsEarlier(env, towers, apiKey, w, i + 1, n, breakout, i);
    PassReady(env, towers, apiKey, w, i + 1, n, breakout);
  }

  /** A pass settles the UEs it visits as the moves computed in any state `o` agreeing with its start say. */
  lemma {:induction false} PassMovesFrom(env: Env, towers: map<string, Tower>, apiKey: string, o: World, w: World, i: nat, n: nat, breakout: bool)
    requires Ready(o, n) && Ready(w, n) && RoutesNonEmpty(env) && AgreeFrom(o, w, i, n)
    ensures var p := PassFrom(env, towers, apiKey, w, i, n, breakout);
      p.status != Exit ==>
        forall j :: i <= j < n ==> p.world.ues[UeName(j)] == Settled(OutcomeOf(env, o, j), o.ues[UeName(j)])
    decreases n - i
  {
    if i < n {
      var t := TurnSettles(env, towers, apiKey, o, w, i, n, breakout);
      if t.status != Exit {
        var b := breakout || t.status == Breakout;
        PassMovesFrom(env, towers, apiKey, o, t.world, i + 1, n, b);
        SettledRest(env, towers, apiKey, o, t.world, i, n, b);
      }
    }
  }

  /**
    A pass that does not end the process moves every UE exactly once, each
    from the state in which the pass found it, as if all moved at once.
   */
  lemma PassMovesEach(env: Env, towers: map<string, Tower>, apiKey: string, w: World, i: nat, n: nat, breakout: bool)
    requires Ready(w, n) && RoutesNonEmpty(env)
    ensures var p := PassFrom(env, towers, apiKey, w, i, n, breakout);
      p.status != Exit ==>
        forall j :: i <= j < n ==> p.world.ues[UeName(j)] == Settled(OutcomeOf(env, w, j), w.ues[UeName(j)])
  {
    AgreeSelf(w, i, n);
    PassMovesFrom(env, towers, apiKey, w, w, i, n, breakout);
  }

  /** A pass replaces the routes it visits as the turns computed in any state `o` agreeing with its start say. */
  lemma {:induction false} PassReroutesFrom(env: Env, towers: map<string, Tower>, apiKey: string, o: World, w: World, i: nat, n: nat, breakout: bool)
    requires Ready(o, n) && Ready(w, n) && RoutesNonEmpty(env) && AgreeFrom(o, w, i, n)
    ensures var p := PassFrom(env, towers, apiKey, w, i, n, breakout);
      p.status != Exit ==>
        forall j :: i <= j < n ==>
          (EndAt(env, o, j) ==> NewRouteFor(env, towers, apiKey, o, j).Some?)
          && p.world.routes[RouteName(j)] == RouteAfter(env, towers, apiKey, o, j)
    decreases n - i
  {
    if i < n {
      var t := TurnReroutes(env, towers, apiKey, o, w, i, n, breakout);
      if t.status != Exit {
        var b := breakout || t.status == Breakout;
        PassReroutesFrom(env, towers, apiKey, o, t.world, i + 1, n, b);
        ReroutedRest(env, towers, apiKey, o, t.world, i, n, b);
      }
    }
  }

  /**
    A pass that does not end the process replaces exactly the routes whose
    UE reached the end, each with what newRoute answered.
   */
  lemma PassReroutes(env: Env, towers: map<string, Tower>, apiKey: string, w: World, i: nat, n: nat, breakout: bool)
    requires Ready(w, n) && RoutesNonEmpty(env)
    ensures var p := PassFrom(env, towers, apiKey, w, i, n, breakout);
      p.status != Exit ==>
        forall j :: i <= j < n ==>
          (EndAt(env, w, j) ==> NewRouteFor(env, towers, apiKey, w, j).Some?)
          && p.world.routes[RouteName(j)] == RouteAfter(env, towers, apiKey, w, j)
  {
    AgreeSelf(w, i, n);
    PassReroutesFrom(env, towers, apiKey, w, w, i, n, breakout);
  }

  /** The UE events a pass sends, as computed in any state `o` agreeing with its start. */
  lemma {:induction false} PassUeEventsFrom(env: Env, towers: map<string, Tower>, apiKey: string, o: World, w: World, i: nat, n: nat, breakout: bool)
    requires Ready(o, n) && Ready(w, n) && RoutesNonEmpty(env) && AgreeFrom(o, w, i, n)
    ensures var p := PassFrom(env, towers, apiKey, w, i, n, breakout);
      p.status != Exit ==> p.world.ueLog == w.ueLog + MovedEvents(env, o, i, n)
    decreases n - i
  {
    if i < n {
      var t := TurnUeLog(env, towers, apiKey, o, w, i, n, breakout);
      if t.status != Exit {
        PassUeEventsFrom(env, towers, apiKey, o, t.world, i + 1, n, breakout || t.status == Breakout);
      }
    }
  }

  /** The route events a pass sends, as computed in any state `o` agreeing with its start. */
  lemma {:induction false} PassRouteEventsFrom(env: Env, towers: map<string, Tower>, apiKey: string, o: World, w: World, i: nat, n: nat, breakout: bool)
    requires Ready(o, n) && Ready(w, n) && RoutesNonEmpty(env) && AgreeFrom(o, w, i, n)
    ensures var p := PassFrom(env, towers, apiKey, w, i, n, breakout);
      p.status != Exit ==> p.world.routeLog == w.routeLog + RouteEvents(env, towers, apiKey, o, i, n)
    decreases n - i
  {
    if i < n {
      var t := TurnRouteLog(env, towers, apiKey, o, w, i, n, breakout);
      if t.status != Exit {
        PassRouteEventsFrom(env, towers, apiKey, o, t.world, i + 1, n, breakout || t.status == Breakout);
      }
    }
  }

  /**
    The events a pass that does not end the process sends: the UE events and
    route events of its turns, in index order.
   */
  lemma PassEvents(env: Env, towers: map<string, Tower>, apiKey: string, w: World, i: nat, n: nat, breakout: bool)
    requires Ready(w, n) && RoutesNonEmpty(env)
    ensures var p := PassFrom(env, towers, apiKey, w, i, n, breakout);
      p.status != Exit ==>
        p.world.ueLog == w.ueLog + MovedEvents(env, w, i, n)
        && p.world.routeLog == w.routeLog + RouteEvents(env, towers, apiKey, w, i, n)
  {
    AgreeSelf(w, i, n);
    PassUeEventsFrom(env, towers, apiKey, w, w, i, n, breakout);
    PassRouteEventsFrom(env, towers, apiKey, w, w, i, n, breakout);
  }

  /** Whether the pass breaks out after UE i's turn, given what the turns after it decide. */
  lemma BrokeRest(env: Env, towers: map<string, Tower>, apiKey: string, o: World, w: World, i: nat, n: nat, breakout: bool, off: bool)
    requires Ready(o, n) && Ready(w, n) && RoutesNonEmpty(env) && i < n
    requires off <==> OffRouteAt(env, o, i)
    requires var p := PassFrom(env, towers, apiKey, w, i + 1, n, breakout || off);
      p.status != Exit ==>
        (p.status == Breakout <==> breakout || off || exists j :: i + 1 <= j < n && OffRouteAt(env, o, j))
    ensures var p := PassFrom(env, towers, apiKey, w, i + 1, n, breakout || off);
      p.status != Exit ==>
        (p.status == Breakout <==> breakout || exists j :: i <= j < n && OffRouteAt(env, o, j))
  {
    assert ReadyAt(o, i);
    if exists j :: i <= j < n && OffRouteAt(env, o, j) {
      var j :| i <= j < n && OffRouteAt(env, o, j);
      assert j == i || i + 1 <= j < n;
    }
  }

  /** A pass breaks out exactly when the flag was set or a UE it visits is off its route in `o`. */
  lemma {:induction false} PassBreaksOutFrom(env: Env, towers: map<string, Tower>, apiKey: string, o: World, w: World, i: nat, n: nat, breakout: bool)
    requires Ready(o, n) && Ready(w, n) && RoutesNonEmpty(env) && AgreeFrom(o, w, i, n)
    ensures var p := PassFrom(env, towers, apiKey, w, i, n, breakout);
      p.status != Exit ==>
        (p.status == Breakout <==> breakout || exists j :: i <= j < n && OffRouteAt(env, o, j))
    decreases n - i
  {
    if i < n {
      var t := TurnBreaks(env, towers, apiKey, o, w, i, n, breakout);
      if t.status != Exit {
        PassBreaksOutFrom(env, towers, apiKey, o, t.world, i + 1, n, breakout || t.status == Breakout);
        BrokeRest(env, towers, apiKey, o, t.world, i, n, breakout, t.status == Breakout);
      }
    }
  }

  /**
    A pass that does not end the process breaks out exactly when some UE was
    off its route when the pass began.
   */
  lemma PassBreaksOut(env: Env, towers: map<string, Tower>, apiKey: string, w: World, i: nat, n: nat, breakout: bool)
    requires Ready(w, n) && RoutesNonEmpty(env)
    ensures var p := PassFrom(env, towers, apiKey, w, i, n, breakout);
      p.status != Exit ==>
        (p.status == Breakout <==> breakout || exists j :: i <= j < n && OffRouteAt(env, w, j))
  {
    AgreeSelf(w, i, n);
    PassBreaksOutFrom(env, towers, apiKey, w, w, i, n, breakout);
  }

  // ---------------------------------------------------------------------------
  // When the tick loop stops
  // ---------------------------------------------------------------------------

  /** Every UE 0..n-1 stands on a waypoint of its route. */
  predicate OnRoute(w: World, n: nat) {
    forall i :: 0 <= i < n && ReadyAt(w, i) ==>
      FirstAt(w.routes[RouteName(i)].waypoints, w.ues[UeName(i)].position).Some?
  }

  lemma StartAtNonEmpty(env: Env)
    requires RoutesStartAt(env)
    ensures RoutesNonEmpty(env)
  {
  }

  /**
    A UE on its route is never off it after its turn: a move lands on the
    next waypoint, and a new route begins where the old one ended.
   */
  lemma TurnStaysOnRoute(env: Env, towers: map<string, Tower>, apiKey: string, w: World, i: nat)
    requires ReadyAt(w, i) && RoutesStartAt(env)
    requires FirstAt(w.routes[RouteName(i)].waypoints, w.ues[UeName(i)].position).Some?
    ensures !OffRouteAt(env, w, i)
    ensures EndAt(env, w, i) ==> NewRouteFor(env, towers, apiKey, w, i).Some? ==>
      FirstAt(RouteAfter(env, towers, apiKey, w, i).waypoints, w.ues[UeName(i)].position).Some?
    ensures OutcomeOf(env, w, i).Moved? ==>
      FirstAt(w.routes[RouteName(i)].waypoints, OutcomeOf(env, w, i).ue.position).Some?
  {
    var wps := w.routes[RouteName(i)].waypoints;
    var pos := w.ues[UeName(i)].position;
    var idx := FirstAt(wps, pos).value;
    var out := OutcomeOf(env, w, i);
    if out.Moved? {
      assert out.ue.position == wps[idx + 1];
      assert SamePlace(wps[idx + 1], wps[idx + 1]);
    }
    var next := NewRouteFor(env, towers, apiKey, w, i);
    if EndAt(env, w, i) && next.Some? {
      var nwps := next.value.waypoints;
      assert SamePlace(nwps[0], wps[|wps| - 1]);
      assert idx == |wps| - 1;
      assert SamePlace(pos, nwps[0]);
    }
  }

  /**
    While newRoute starts routes where they were asked to start, a pass over
    UEs that are all on their routes never breaks out, and leaves them all on
    their routes.
   */
  lemma PassKeepsOnRoute(env: Env, towers: map<string, Tower>, apiKey: string, w: World, n: nat)
    requires Ready(w, n) && RoutesStartAt(env) && OnRoute(w, n)
    ensures RoutesNonEmpty(env)
    ensures var p := PassFrom(env, towers, apiKey, w, 0, n, false);
      p.status != Breakout && (p.status == Continue ==> OnRoute(p.world, n))
  {
    StartAtNonEmpty(env);
    var p := PassFrom(env, towers, apiKey, w, 0, n, false);
    PassBreaksOut(env, towers, apiKey, w, 0, n, false);
    PassMovesEach(env, towers, apiKey, w, 0, n, false);
    PassReroutes(env, towers, apiKey, w, 0, n, false);
    PassReady(env, towers, apiKey, w, 0, n, false);
    forall j | 0 <= j < n
      ensures !OffRouteAt(env, w, j)
      ensures p.status == Continue ==>
        FirstAt(p.world.routes[RouteName(j)].waypoints, p.world.ues[UeName(j)].position).Some?
    {
      assert ReadyAt(w, j);
      TurnStaysOnRoute(env, towers, apiKey, w, j);
    }
  }

  /**
    Under the same condition the tick loop never breaks out: it runs every
    pass it is given unless the process exits.
   */
  lemma {:induction false} LoopNeverBreaksOut(env: Env, towers: map<string, Tower>, params: RoutesParams, w: World, fuel: nat)
    requires Ready(w, params.numRoutes) && RoutesStartAt(env) && OnRoute(w, params.numRoutes)
    ensures RoutesNonEmpty(env)
    ensures var r := Loop(env, towers, params, w, fuel);
      r.status != Breakout && (r.status == Continue ==> r.passes == fuel)
    decreases fuel
  {
    PassKeepsOnRoute(env, towers, params.apiKey, w, params.numRoutes);
    if fuel > 0 {
      var p := PassFrom(env, towers, params.apiKey, w, 0, params.numRoutes, false);
      PassReady(env, towers, params.apiKey, w, 0, params.numRoutes, false);
      if p.status == Continue {
        LoopNeverBreaksOut(env, towers, params, p.world, fuel - 1);
      }
    }
  }

  /** A UE off its route stops the tick loop right after the pass in which it was found. */
  lemma OffRouteStopsLoop(env: Env, towers: map<string, Tower>, params: RoutesParams, w: World, fuel: nat, j: nat)
    requires Ready(w, params.numRoutes) && RoutesNonEmpty(env)
    requires fuel > 0 && j < params.numRoutes && ReadyAt(w, j) && OffRouteAt(env, w, j)
    ensures var p := PassFrom(env, towers, params.apiKey, w, 0, params.numRoutes, false);
      p.status != Exit ==> Loop(env, towers, params, w, fuel) == Run(p.world, 1, Breakout)
  {
    PassBreaksOut(env, towers, params.apiKey, w, 0, params.numRoutes, false);
  }

  // ---------------------------------------------------------------------------
  // The UE table at start-up
  // ---------------------------------------------------------------------------

  /** Route u exists and has a first waypoint (else newUserEquipments indexes an empty slice). */
  predicate RouteReady(routes: map<string, Route>, u: nat) {
    RouteName(u) in routes && routes[RouteName(u)].waypoints != []
  }

  predicate RoutesReady(routes: map<string, Route>, n: nat) {
    forall u :: 0 <= u < n ==> RouteName(u) in routes && routes[RouteName(u)].waypoints != []
  }

  /**
    The UE newUserEquipments creates for route u: a car at the route's first
    waypoint, served by the nearest tower, with the next two as candidates;
    the serving distance and the C-RNTI keep their zero values.
   */
  function InitialUe(env: Env, routes: map<string, Route>, u: nat): (ue: Ue)
    requires RouteReady(routes, u)
    ensures ue.name == UeName(u) && ue.route == RouteName(u)
    ensures ue.position == routes[RouteName(u)].waypoints[0]
    ensures var near := env.closest(ue.position);
      ue.tower == near.first.name && ue.tower2 == near.second.name && ue.tower3 == near.third.name
  {
    var start := routes[RouteName(u)].waypoints[0];
    var near := env.closest(start);
    Ue(UeName(u), "Car", start, 0, RouteName(u), near.first.name, 0.0,
       near.second.name, near.second.dist, near.third.name, near.third.dist, "")
  }

  /** Route u after newUserEquipments: coloured like the UE's serving tower when that tower exists. */
  function Painted(env: Env, towers: map<string, Tower>, routes: map<string, Route>, u: nat): Route
    requires RouteReady(routes, u)
  {
    var route := routes[RouteName(u)];
    var serving := env.closest(route.waypoints[0]).first.name;
    if serving in towers then route.(color := towers[serving].color) else route
  }

  /** The UE table newUserEquipments has built after routes 0..u-1. */
  function TableUpTo(env: Env, routes: map<string, Route>, u: nat): map<string, Ue>
    requires RoutesReady(routes, u)
  {
    if u == 0 then map[] else TableUpTo(env, routes, u - 1)[UeName(u - 1) := InitialUe(env, routes, u - 1)]
  }

  /** The route table after newUserEquipments has recoloured routes 0..u-1. */
  function PaintedUpTo(env: Env, towers: map<string, Tower>, routes: map<string, Route>, u: nat): (r: map<string, Route>)
    requires RoutesReady(routes, u)
    ensures r.Keys == routes.Keys
  {
    if u == 0 then routes
    else PaintedUpTo(env, towers, routes, u - 1)[RouteName(u - 1) := Painted(env, towers, routes, u - 1)]
  }

  /** `k` is the name of UE lo, …, or UE n-1. */
  predicate NamesUe(k: string, lo: nat, n: nat) {
    exists u :: lo <= u < n && k == UeName(u)
  }

  predicate NamesRoute(k: string, lo: nat, n: nat) {
    exists u :: lo <= u < n && k == RouteName(u)
  }

  /** Exactly the UEs 0..n-1 are in the table, each as InitialUe makes it. */
  lemma {:induction false} TableContents(env: Env, routes: map<string, Route>, n: nat)
    requires RoutesReady(routes, n)
    ensures var t := TableUpTo(env, routes, n);
      forall u :: 0 <= u < n ==> UeName(u) in t && t[UeName(u)] == InitialUe(env, routes, u)
  {
    if n > 0 {
      TableContents(env, routes, n - 1);
      forall u | 0 <= u < n - 1
        ensures UeName(u) != UeName(n - 1)
      {
        UeNameInjective(u, n - 1);
      }
    }
  }

  /** The table holds nothing but the UEs 0..n-1. */
  lemma {:induction false} TableOnlyUes(env: Env, routes: map<string, Route>, n: nat)
    requires RoutesReady(routes, n)
    ensures forall k :: k in TableUpTo(env, routes, n) ==> NamesUe(k, 0, n)
  {
    if n > 0 {
      TableOnlyUes(env, routes, n - 1);
      var t := TableUpTo(env, routes, n - 1);
      forall k | k in TableUpTo(env, routes, n)
        ensures NamesUe(k, 0, n)
      {
        if k in t {
          var u :| 0 <= u < n - 1 && k == UeName(u);
        } else {
          assert k == UeName(n - 1);
        }
      }
    }
  }

  /** Routes 0..n-1 are recoloured like their UE's serving tower. */
  lemma {:induction false} PaintedContents(env: Env, towers: map<string, Tower>, routes: map<string, Route>, n: nat)
    requires RoutesReady(routes, n)
    ensures var r := PaintedUpTo(env, towers, routes, n);
      forall u :: 0 <= u < n ==> r[RouteName(u)] == Painted(env, towers, routes, u)
  {
    if n > 0 {
      PaintedContents(env, towers, routes, n - 1);
      forall u | 0 <= u < n - 1
        ensures RouteName(u) != RouteName(n - 1)
      {
        RouteNameInjective(u, n - 1);
      }
    }
  }

  /** Every route other than Route-0..Route-(n-1) is left as it was. */
  lemma {:induction false} PaintedElsewhere(env: Env, towers: map<string, Tower>, routes: map<string, Route>, n: nat)
    requires RoutesReady(routes, n)
    ensures var r := PaintedUpTo(env, towers, routes, n);
      forall k :: k in routes && !NamesRoute(k, 0, n) ==> r[k] == routes[k]
  {
    if n > 0 {
      PaintedElsewhere(env, towers, routes, n - 1);
      forall k | k in routes && !NamesRoute(k, 0, n)
        ensures !NamesRoute(k, 0, n - 1) && k != RouteName(n - 1)
      {
      }
    }
  }

  /** Routes not yet reached are still the originals. */
  lemma {:induction false} PaintedAhead(env: Env, towers: map<string, Tower>, routes: map<string, Route>, u: nat, v: nat)
    requires RoutesReady(routes, u) && u <= v && RouteName(v) in routes
    ensures PaintedUpTo(env, towers, routes, u)[RouteName(v)] == routes[RouteName(v)]
  {
    if u > 0 {
      PaintedAhead(env, towers, routes, u - 1, v);
      RouteNameInjective(u - 1, v);
    }
  }

  // ---------------------------------------------------------------------------
  // The manager
  // ---------------------------------------------------------------------------

  class Manager {
    var towers: map<string, Tower>
    var ues: map<string, Ue>
    var routes: map<string, Route>
    /** Everything sent on UeChannel, oldest first. */
    ghost var ueLog: seq<UeEvent>
    /** Everything sent on RouteChannel, oldest first. */
    ghost var routeLog: seq<RouteEvent>
    /** The collaborators: nearest towers, distances, headings and the route service. */
    const env: Env

    ghost function State(): World
      reads this
    {
      World(ues, routes, ueLog, routeLog)
    }

    constructor(env: Env, towers: map<string, Tower>, routes: map<string, Route>)
      ensures this.env == env && this.towers == towers && this.routes == routes
      ensures ues == map[] && ueLog == [] && routeLog == []
    {
      this.env := env;
      this.towers := towers;
      this.routes := routes;
      ues := map[];
      ueLog := [];
      routeLog := [];
    }

    /**
      The loop shared by getColorForUe and newUserEquipments: the colour of
      some tower whose Name field is `name`, in whatever order the map is
      ranged over.
     */
    method FindTowerColor(name: string) returns (found: bool, color: string)
      ensures found <==> exists k :: k in towers && towers[k].name == name
      ensures found ==> exists k :: k in towers && towers[k].name == name && towers[k].color == color
      ensures !found ==> color == ""
      ensures KeyedByName(towers) ==> found == (name in towers) && (found ==> color == towers[name].color)
    {
      var remaining := towers.Keys;
      while remaining != {}
        invariant remaining <= towers.Keys
        invariant forall k :: k in towers && k !in remaining ==> towers[k].name != name
        decreases remaining
      {
        var k :| k in remaining;
        if towers[k].name == name {
          return true, towers[k].color;
        }
        remaining := remaining - {k};
      }
      return false, "";
    }

    /** getColorForUe: "" for an unknown UE or when no tower has the UE's serving name. */
    method GetColorForUe(ueName: string) returns (color: string)
      ensures ueName !in ues ==> color == ""
      ensures ueName in ues && (forall k :: k in towers ==> towers[k].name != ues[ueName].tower) ==> color == ""
      ensures ueName in ues && (exists k :: k in towers && towers[k].name == ues[ueName].tower) ==>
        exists k :: k in towers && towers[k].name == ues[ueName].tower && towers[k].color == color
      ensures KeyedByName(towers) ==> color == ColorForUe(towers, ues, ueName)
    {
      if ueName !in ues {
        return "";
      }
      var found;
      found, color := FindTowerColor(ues[ueName].tower);
    }

    /**
      moveUe on the UE stored under `ueName`: the search loop over the
      waypoints, then the step, the re-ranking and the one event.
     */
    method MoveUe(ueName: string, route: Route) returns (err: Option<MoveError>)
      requires ueName in ues && route.waypoints != []
      modifies this
      ensures towers == old(towers) && routes == old(routes) && routeLog == old(routeLog)
      ensures match Move(env, old(ues[ueName]), route)
        case Moved(u, ev) => err == None && ues == old(ues)[ueName := u] && ueLog == old(ueLog) + [ev]
        case Failed(e) => err == Some(e) && ues == old(ues) && ueLog == old(ueLog)
    {
      var ue := ues[ueName];
      var wps := route.waypoints;
      var idx := 0;
      while idx < |wps|
        invariant 0 <= idx <= |wps|
        invariant forall k :: 0 <= k < idx ==> !SamePlace(ue.position, wps[k])
      {
        if ue.position.lng == wps[idx].lng && ue.position.lat == wps[idx].lat {
          FirstAtIs(wps, ue.position, idx);
          if idx + 1 == |wps| {
            return Some(EndOfRoute(route.name, idx));
          }
          var oldTower2, oldTower3 := ue.tower2, ue.tower3;
          ue := ue.(position := wps[idx + 1], rotation := env.rotation(wps[idx], wps[idx + 1]));
          var near := env.closest(ue.position);
          if ue.tower == near.first.name {
            ue := ue.(tower2 := near.second.name, tower3 := near.third.name, towerDist := near.first.dist,
                      tower2Dist := near.second.dist, tower3Dist := near.third.dist);
          } else if ue.tower == near.second.name {
            ue := ue.(tower2 := near.first.name, tower3 := near.third.name, towerDist := near.second.dist,
                      tower2Dist := near.first.dist, tower3Dist := near.third.dist);
          } else if ue.tower == near.third.name {
            ue := ue.(tower2 := near.first.name, tower3 := near.second.name, towerDist := near.third.dist,
                      tower2Dist := near.first.dist, tower3Dist := near.second.dist);
          } else {
            ue := ue.(tower2 := near.first.name, tower3 := near.second.name,
                      towerDist := env.towerDistance(ue.tower, ue.position),
                      tower2Dist := near.first.dist, tower3Dist := near.second.dist);
          }
          var kind := PositionUpdate;
          if ue.tower2 != oldTower2 || ue.tower3 != oldTower3 {
            kind := TowerUpdate;
          }
          ues := ues[ueName := ue];
          ueLog := ueLog + [UeEvent(Updated, kind, ue)];
          return None;
        }
        idx := idx + 1;
      }
      return Some(OffRoute(route.name));
    }

    /** UE i's turn in a pass: the body of startMoving's inner loop. */
    method TakeTurn(i: nat, apiKey: string) returns (status: PassStatus)
      requires KeyedByName(towers) && RoutesNonEmpty(env) && ReadyAt(State(), i)
      modifies this
      ensures towers == old(towers)
      ensures Pass(State(), status) == Turn(env, towers, apiKey, old(State()), i)
    {
      var ueName, routeName := UeName(i), RouteName(i);
      var err := MoveUe(ueName, routes[routeName]);
      if err.Some? && HasPrefix(ErrorText(err.value), "end of route") {
        var wps := routes[routeName].waypoints;
        var finish := wps[|wps| - 1];
        var color := GetColorForUe(ueName);
        var next := env.newRoute(Location("noname", finish), i, apiKey, color);
        if next.None? {
          return Exit;
        }
        routes := routes[routeName := next.value];
        routeLog := routeLog + [RouteEvent(Updated, next.value)];
      } else if err.Some? {
        return Breakout;
      }
      return Continue;
    }

    /** One pass of startMoving's loop: every UE's turn in index order. */
    method MovePass(params: RoutesParams) returns (status: PassStatus)
      requires KeyedByName(towers) && RoutesNonEmpty(env) && Ready(State(), params.numRoutes)
      modifies this
      ensures towers == old(towers)
      ensures Pass(State(), status) == PassFrom(env, towers, params.apiKey, old(State()), 0, params.numRoutes, false)
    {
      var breakout := false;
      var ueidx := 0;
      while ueidx < params.numRoutes
        invariant 0 <= ueidx <= params.numRoutes
        invariant towers == old(towers)
        invariant Ready(State(), params.numRoutes)
        invariant PassFrom(env, towers, params.apiKey, State(), ueidx, params.numRoutes, breakout)
               == PassFrom(env, towers, params.apiKey, old(State()), 0, params.numRoutes, false)
      {
        ghost var before := State();
        var turn := TakeTurn(ueidx, params.apiKey);
        ghost var t := PassStep(env, towers, params.apiKey, before, ueidx, params.numRoutes, breakout);
        if turn == Exit {
          return Exit;
        } else if turn == Breakout {
          breakout := true;
        }
        ueidx := ueidx + 1;
      }
      status := if breakout then Breakout else Continue;
    }

    /**
      startMoving, for at most `fuel` passes: passes run one after the other
      until one ends with a breakout (or the process exits).
     */
    method StartMoving(params: RoutesParams, fuel: nat) returns (passes: nat, status: PassStatus)
      requires KeyedByName(towers) && RoutesNonEmpty(env) && Ready(State(), params.numRoutes)
      modifies this
      ensures towers == old(towers)
      ensures Run(State(), passes, status) == Loop(env, towers, params, old(State()), fuel)
    {
      passes, status := 0, Continue;
      while passes < fuel
        invariant passes <= fuel && towers == old(towers) && status == Continue
        invariant Ready(State(), params.numRoutes)
        invariant var r := Loop(env, towers, params, State(), fuel - passes);
          Loop(env, towers, params, old(State()), fuel) == Run(r.world, r.passes + passes, r.status)
      {
        ghost var before := State();
        status := MovePass(params);
        PassReady(env, towers, params.apiKey, before, 0, params.numRoutes, false);
        passes := passes + 1;
        if status != Continue {
          return;
        }
      }
    }

    /** The body of newUserEquipments' loop for route u: the new UE, and route u recoloured. */
    method StartUe(u: nat) returns (ue: Ue)
      requires KeyedByName(towers) && RouteReady(routes, u)
      modifies this
      ensures towers == old(towers) && ues == old(ues) && ueLog == old(ueLog) && routeLog == old(routeLog)
      ensures ue == InitialUe(env, old(routes), u)
      ensures routes == old(routes)[RouteName(u) := Painted(env, towers, old(routes), u)]
    {
      var name, routeName := UeName(u), RouteName(u);
      var route := routes[routeName];
      var near := env.closest(route.waypoints[0]);
      ue := Ue(name, "Car", route.waypoints[0], 0, routeName, near.first.name, 0.0,
               near.second.name, near.second.dist, near.third.name, near.third.dist, "");
      var found, color := FindTowerColor(near.first.name);
      if found {
        routes := routes[routeName := routes[routeName].(color := color)];
      }
    }

    /**
      newUserEquipments: one UE per route, and each route recoloured like its
      UE's serving tower when the table has a tower of that name.
     */
    method NewUserEquipments(params: RoutesParams) returns (table: map<string, Ue>)
      requires KeyedByName(towers) && RoutesReady(routes, params.numRoutes)
      modifies this
      ensures towers == old(towers) && ues == old(ues) && ueLog == old(ueLog) && routeLog == old(routeLog)
      ensures table == TableUpTo(env, old(routes), params.numRoutes)
      ensures routes == PaintedUpTo(env, towers, old(routes), params.numRoutes)
    {
      table := map[];
      var u := 0;
      while u < params.numRoutes
        invariant 0 <= u <= params.numRoutes
        invariant towers == old(towers) && ues == old(ues) && ueLog == old(ueLog) && routeLog == old(routeLog)
        invariant table == TableUpTo(env, old(routes), u)
        invariant routes == PaintedUpTo(env, towers, old(routes), u)
      {
        PaintedAhead(env, towers, old(routes), u, u);
        var ue := StartUe(u);
        table := table[UeName(u) := ue];
        u := u + 1;
      }
    }
  }
}
