/**
 * The route record the directions client hands to the toll estimator and
 * the optimizer (models/route.py), with the part of its geometry the
 * estimator reads: legs, each with optional steps, each step with an
 * optional road name and an optional distance in meters.
 */
module Routes {
  import opened Wrappers

  /** One maneuver of a leg; either key may be missing from the step. */
  datatype Step = Step(name: Option<string>, distance: Option<real>)

  /** A leg of the route; the `steps` key may be missing. */
  datatype Leg = Leg(steps: Option<seq<Step>>)

  /** The geometry dictionary; the `legs` key may be missing. */
  datatype Geometry = Geometry(legs: Option<seq<Leg>>)

  datatype RouteCandidate = RouteCandidate(
    routeId: string,
    etaSeconds: int,
    distanceMeters: int,
    toll: Option<real>,
    polyline: string,
    geometry: Option<Geometry>)

  /** A (road name, distance) pair produced by segment extraction. */
  datatype Segment = Segment(name: string, distanceMeters: real)
}
