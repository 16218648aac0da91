/**
  The route data: a geographic coordinate and a route point that wraps one.
  Coordinates are stored and compared for equality only; no arithmetic is
  ever performed on them, so latitude and longitude are plain reals.
 */
module Route {

  /** A latitude/longitude pair in degrees (CLLocationCoordinate2D). */
  datatype Coord = Coord(lat: real, lon: real)

  /** One point of a route: an immutable wrapper around its coordinate. */
  datatype RoutePoint = RoutePoint(coordinate: Coord)
}
