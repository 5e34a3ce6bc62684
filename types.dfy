/**
  The simulator's records (the Go package api/types and the event type of
  the dispatcher), as values.
 */
module Types {

  /** A distance as used for ranking towers: only compared and copied, never computed here. */
  type Distance = r: real | 0.0 <= r

  /** A waypoint or position; the simulator only ever compares two of them for equality. */
  datatype Coordinate = Coordinate(lat: real, lng: real)

  datatype Route = Route(name: string, waypoints: seq<Coordinate>, color: string)

  datatype Location = Location(name: string, position: Coordinate)

  datatype Tower = Tower(
    name: string,
    location: Coordinate,
    color: string,
    plmnId: string,
    ecid: string,
    maxUes: nat,
    neighbors: seq<string>)

  datatype Ue = Ue(
    name: string,
    ueType: string,
    position: Coordinate,
    rotation: nat,
    route: string,
    tower: string,
    towerDist: Distance,
    tower2: string,
    tower2Dist: Distance,
    tower3: string,
    tower3Dist: Distance,
    crnti: string)

  /** trafficsim.Type */
  datatype EventType = NoType | Added | Updated | Removed

  /** trafficsim.UpdateType */
  datatype UpdateType = NoUpdateType | PositionUpdate | TowerUpdate

  /** A dispatcher event whose payload is a UE (what moveUe puts on UeChannel). */
  datatype UeEvent = UeEvent(eventType: EventType, updateType: UpdateType, ue: Ue)

  /** A dispatcher event whose payload is a route (what startMoving puts on RouteChannel). */
  datatype RouteEvent = RouteEvent(eventType: EventType, route: Route)

  datatype TowersParams = TowersParams(towerRows: nat, towerCols: nat, maxUes: nat)

  datatype RoutesParams = RoutesParams(numRoutes: nat, apiKey: string)
}
