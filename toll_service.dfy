/**
 * The toll service object (TexasTollService / AustinTollService): it is
 * constructed with a facility table and two flags, and prices a list of
 * routes in place. Each method is proved to compute the rule of the same
 * name in toll_pricing.dfy.
 */
module TollEstimation {
  import opened Wrappers
  import opened Routes
  import opened Patterns
  import opened Money
  import opened TollPricing

  class TollService {
    const config: ServiceConfig

    constructor (table: Table, useDynamicPricing: bool, hasTollTag: bool)
      ensures config == ServiceConfig(table, useDynamicPricing, hasTollTag)
    {
      config := ServiceConfig(table, useDynamicPricing, hasTollTag);
    }

    /** `estimate_tolls`: fills in every unset toll, in place, and returns the same list. */
    method EstimateTolls(routes: array<RouteCandidate>, now: TimeOfDay) returns (result: array<RouteCandidate>)
      modifies routes
      ensures result == routes
      ensures routes[..] == EstimateAll(config, old(routes[..]), now)
    {
      var i := 0;
      while i < routes.Length
        invariant 0 <= i <= routes.Length
        invariant forall k :: 0 <= k < i ==> routes[k] == EstimateRoute(config, old(routes[k]), now)
        invariant forall k :: i <= k < routes.Length ==> routes[k] == old(routes[k])
      {
        var route := routes[i];
        if route.toll.None? {
          var tollCost := CalculateRouteToll(route, now);
          routes[i] := route.(toll := Some(RoundToCents(tollCost)));
        }
        i := i + 1;
      }
      result := routes;
    }

    /** `_calculate_route_toll`: the fallback without segments, otherwise the
        running sum of the segment tolls. */
    method CalculateRouteToll(route: RouteCandidate, now: TimeOfDay) returns (total: real)
      ensures total == RouteToll(config, route, now)
    {
      var segments := ExtractRoadSegments(route);
      if segments == [] {
        total := FallbackTollEstimate(config, route);
        return;
      }
      total := 0.0;
      var i := 0;
      while i < |segments|
        invariant 0 <= i <= |segments|
        invariant total == SegmentsToll(config, route, now, segments[..i])
      {
        var roadName := Lower(segments[i].name);
        var distanceMiles := segments[i].distanceMeters / MetersPerMile;
        var tollInfo := IdentifyTollRoad(roadName);
        if tollInfo.Some? {
          var f := tollInfo.value;
          var rate := FacilityRate(f, route, now);
          MatchedSegmentToll(config, route, now, segments[i], f);
          total := total + distanceMiles * rate;
        } else {
          assert SegmentToll(config, route, now, segments[i]) == 0.0;
        }
        SegmentsTollStep(config, route, now, segments, i);
        i := i + 1;
      }
      assert segments[..i] == segments;
    }

    /** The per-mile rate the loop of `_calculate_route_toll` charges on a
        matched facility: dynamic pricing when enabled and the facility is
        dynamic, then the no-tag surcharge. */
    method FacilityRate(f: Facility, route: RouteCandidate, now: TimeOfDay) returns (rate: real)
      ensures rate == EffectiveRate(config, f, route, now)
    {
      if config.useDynamicPricing && f.pricing.Dynamic? {
        rate := ApplyDynamicPricing(f.ratePerMile, f.pricing.peakMultiplier, f.pricing.congestionSensitive, route, now);
      } else {
        rate := f.ratePerMile;
      }
      if !config.hasTollTag {
        rate := rate * NoTagSurcharge;
      }
    }

    /** `_extract_road_segments`: appends one segment per step, leg by leg. */
    method ExtractRoadSegments(route: RouteCandidate) returns (segments: seq<Segment>)
      ensures segments == RoadSegments(route)
    {
      segments := [];
      if route.geometry.Some? && route.geometry.value.legs.Some? {
        var legs := route.geometry.value.legs.value;
        var i := 0;
        while i < |legs|
          invariant 0 <= i <= |legs|
          invariant segments == LegsSegments(legs[..i])
        {
          var leg := legs[i];
          if leg.steps.Some? {
            var steps := leg.steps.value;
            var j := 0;
            while j < |steps|
              invariant 0 <= j <= |steps|
              invariant segments == LegsSegments(legs[..i]) + StepsSegments(steps[..j])
            {
              var step := steps[j];
              segments := segments + [Segment(step.name.GetOr(""), step.distance.GetOr(0.0))];
              assert steps[..j + 1][..j] == steps[..j];
              j := j + 1;
            }
            assert steps[..j] == steps;
          }
          assert legs[..i + 1][..i] == legs[..i];
          i := i + 1;
        }
        assert legs[..i] == legs;
      }
    }

    /** `_identify_toll_road`: facilities in table order, each facility's
        patterns in order, returning at the first pattern found. */
    method IdentifyTollRoad(roadName: string) returns (tollInfo: Option<Facility>)
      ensures tollInfo == TollPricing.IdentifyTollRoad(config.table, roadName)
    {
      if roadName == "" {
        return None;
      }
      var table := config.table;
      var i := 0;
      while i < |table|
        invariant 0 <= i <= |table|
        invariant FirstMatchFrom(table, roadName, i) == FirstMatchFrom(table, roadName, 0)
      {
        var patterns := table[i].patterns;
        var j := 0;
        while j < |patterns|
          invariant 0 <= j <= |patterns|
          invariant forall q :: 0 <= q < j ==> !Search(patterns[q], roadName)
        {
          if Search(patterns[j], roadName) {
            assert MatchesFacility(table[i], roadName);
            return Some(table[i]);
          }
          j := j + 1;
        }
        i := i + 1;
      }
      return None;
    }
  }
}
