/**
 * The toll estimation rules shared by the Texas-wide and the Austin toll
 * services (services/texas_toll_service.py, services/austin_toll_service.py).
 * Both run one algorithm over different facility tables, so the rules are
 * stated once here, parameterised by the table and the two service flags;
 * the class in toll_service.dfy implements them step by step.
 */
module TollPricing {
  import opened Wrappers
  import opened Routes
  import opened Patterns
  import opened Money

  // ---------------------------------------------------------------- table

  /** A fixed-rate facility, or one with time-of-day and congestion pricing. */
  datatype Pricing = Fixed | Dynamic(peakMultiplier: real, congestionSensitive: bool)

  /** One entry of a `TOLL_ROADS` table; the patterns are tried in order. */
  datatype Facility = Facility(id: string, patterns: seq<Pattern>, ratePerMile: real, pricing: Pricing)

  /** A pricing table, in declaration order. */
  type Table = seq<Facility>

  /** The table and the two flags a toll service is constructed with. */
  datatype ServiceConfig = ServiceConfig(table: Table, useDynamicPricing: bool, hasTollTag: bool)

  /** Rates are never negative, and every peak multiplier is at least the
      midday multiplier (both tables satisfy this). */
  predicate WellFormedTable(table: Table) {
    forall k :: 0 <= k < |table| ==>
      table[k].ratePerMile >= 0.0 &&
      (table[k].pricing.Dynamic? ==> table[k].pricing.peakMultiplier >= MiddayMultiplier)
  }

  const NoTagSurcharge: real := 1.5
  const MetersPerMile: real := 1609.34
  const MilesPerKm: real := 0.621371
  const ExpectedSpeedMph: real := 65.0
  const CongestionSpeedRatio: real := 0.7
  const CongestionMultiplier: real := 1.4
  const MiddayMultiplier: real := 1.3
  const OffPeakMultiplier: real := 0.6
  const HighwaySpeedMph: real := 55.0
  const FallbackTollShareHighway: real := 0.4
  const FallbackTollShareOther: real := 0.3
  const FallbackRatePerMile: real := 0.55

  // ---------------------------------------------------------------- lookup

  predicate MatchesFacility(f: Facility, roadName: string) {
    exists p :: p in f.patterns && Search(p, roadName)
  }

  /** Index of the first facility at or after `i` with a pattern found in the name. */
  function FirstMatchFrom(table: Table, roadName: string, i: nat): (k: Option<nat>)
    requires i <= |table|
    ensures k.Some? ==> i <= k.value < |table| && MatchesFacility(table[k.value], roadName)
    decreases |table| - i
  {
    if i == |table| then None
    else if MatchesFacility(table[i], roadName) then Some(i)
    else FirstMatchFrom(table, roadName, i + 1)
  }

  /** `_identify_toll_road`: none for the empty name, otherwise the first
      facility in table order with a pattern found in the (lowercased) name. */
  function IdentifyTollRoad(table: Table, roadName: string): (r: Option<Facility>)
    ensures roadName == "" ==> r == None
    ensures r.Some? ==> r.value in table && MatchesFacility(r.value, roadName)
  {
    if roadName == "" then None
    else match FirstMatchFrom(table, roadName, 0)
      case None => None
      case Some(k) => Some(table[k])
  }

  /** The lookup is a first-match search: it returns the facility at the least
      index whose patterns match, and none exactly when the name is empty or
      no facility matches. */
  lemma {:induction false} FirstMatchIsLeast(table: Table, roadName: string, i: nat)
    requires i <= |table|
    ensures FirstMatchFrom(table, roadName, i).None? <==>
      forall m :: i <= m < |table| ==> !MatchesFacility(table[m], roadName)
    ensures FirstMatchFrom(table, roadName, i).Some? ==>
      forall m :: i <= m < FirstMatchFrom(table, roadName, i).value ==> !MatchesFacility(table[m], roadName)
    decreases |table| - i
  {
    if i < |table| && !MatchesFacility(table[i], roadName) {
      FirstMatchIsLeast(table, roadName, i + 1);
    }
  }

  lemma IdentifyIsFirstMatch(table: Table, roadName: string)
    ensures IdentifyTollRoad(table, roadName).None? <==>
      (roadName == "" || forall m :: 0 <= m < |table| ==> !MatchesFacility(table[m], roadName))
    ensures IdentifyTollRoad(table, roadName).Some? ==>
      exists k :: 0 <= k < |table| && IdentifyTollRoad(table, roadName).value == table[k] &&
        MatchesFacility(table[k], roadName) &&
        forall m :: 0 <= m < k ==> !MatchesFacility(table[m], roadName)
  {
    FirstMatchIsLeast(table, roadName, 0);
  }

  /** Every pattern of the list from position `q` on spells a character outside `alphabet`. */
  predicate AllPatternsLackFrom(ps: seq<Pattern>, alphabet: set<char>, q: nat)
    decreases |ps| - q
  {
    q >= |ps| || (PatternLacks(ps[q], alphabet) && AllPatternsLackFrom(ps, alphabet, q + 1))
  }

  /** Every pattern of the list spells a character outside `alphabet`. */
  predicate AllPatternsLack(ps: seq<Pattern>, alphabet: set<char>) {
    AllPatternsLackFrom(ps, alphabet, 0)
  }

  lemma {:induction false} AllPatternsLackAt(ps: seq<Pattern>, alphabet: set<char>, q: nat, r: nat)
    requires AllPatternsLackFrom(ps, alphabet, q) && q <= r < |ps|
    ensures PatternLacks(ps[r], alphabet)
    decreases r - q
  {
    if q < r {
      AllPatternsLackAt(ps, alphabet, q + 1, r);
    }
  }

  /** A facility each of whose patterns spells a character the name does not
      contain does not match it. */
  lemma LackingFacilityUnmatched(f: Facility, roadName: string, alphabet: set<char>)
    requires DrawnFrom(roadName, alphabet) && AllPatternsLack(f.patterns, alphabet)
    ensures !MatchesFacility(f, roadName)
  {
    forall q | 0 <= q < |f.patterns|
      ensures !Search(f.patterns[q], roadName)
    {
      AllPatternsLackAt(f.patterns, alphabet, 0, q);
      LackingPatternNotFound(f.patterns[q], roadName, alphabet);
    }
  }

  /** Entries `from` up to `to` (exclusive) each spell, in every pattern, a
      character outside `alphabet`. */
  predicate RangeLacks(table: Table, alphabet: set<char>, from: nat, to: nat)
    decreases (to as int) - (from as int)
  {
    from >= to || (from < |table| && AllPatternsLack(table[from].patterns, alphabet) &&
                   RangeLacks(table, alphabet, from + 1, to))
  }

  /** The first-match search passes over a run of entries that cannot match. */
  lemma {:induction false} SkipRange(table: Table, roadName: string, alphabet: set<char>, from: nat, to: nat)
    requires from <= to <= |table|
    requires DrawnFrom(roadName, alphabet) && RangeLacks(table, alphabet, from, to)
    ensures FirstMatchFrom(table, roadName, from) == FirstMatchFrom(table, roadName, to)
    decreases (to as int) - (from as int)
  {
    if from < to {
      LackingFacilityUnmatched(table[from], roadName, alphabet);
      SkipRange(table, roadName, alphabet, from + 1, to);
    }
  }

  /** The entry at `k` is `f`, and the `q`-th pattern of `f` is found in the name. */
  lemma HitAt(table: Table, roadName: string, k: nat, f: Facility, q: nat)
    requires k < |table| && table[k] == f && q < |f.patterns| && Search(f.patterns[q], roadName)
    ensures MatchesFacility(table[k], roadName)
    ensures FirstMatchFrom(table, roadName, k) == Some(k)
  {
    assert f.patterns[q] in f.patterns;
  }

  /** Searching `a + b` from inside `a` finds what the search of `a` finds,
      and otherwise goes on at the start of `b`. */
  lemma {:induction false} FirstMatchInPrefix(a: Table, b: Table, roadName: string, i: nat)
    requires i <= |a|
    ensures FirstMatchFrom(a + b, roadName, i) ==
      if FirstMatchFrom(a, roadName, i).Some? then FirstMatchFrom(a, roadName, i)
      else FirstMatchFrom(a + b, roadName, |a|)
    decreases |a| - i
  {
    if i < |a| {
      assert (a + b)[i] == a[i];
      FirstMatchInPrefix(a, b, roadName, i + 1);
    }
  }

  /** Searching `a + b` from inside `b` finds the search of `b`, shifted by `|a|`. */
  lemma {:induction false} FirstMatchInSuffix(a: Table, b: Table, roadName: string, j: nat)
    requires j <= |b|
    ensures FirstMatchFrom(a + b, roadName, |a| + j) ==
      match FirstMatchFrom(b, roadName, j)
      case None => None
      case Some(k) => Some(|a| + k)
    decreases |b| - j
  {
    if j < |b| {
      assert (a + b)[|a| + j] == b[j];
      FirstMatchInSuffix(a, b, roadName, j + 1);
    }
  }

  /** A table made of two tables, one after the other, returns what the first
      returns, and what the second returns when the first finds nothing. */
  lemma LookupInConcatenation(a: Table, b: Table, roadName: string)
    ensures IdentifyTollRoad(a + b, roadName) ==
      if IdentifyTollRoad(a, roadName).Some? then IdentifyTollRoad(a, roadName) else IdentifyTollRoad(b, roadName)
  {
    FirstMatchInPrefix(a, b, roadName, 0);
    FirstMatchInSuffix(a, b, roadName, 0);
    match FirstMatchFrom(a, roadName, 0)
    case Some(k) =>
      assert (a + b)[k] == a[k];
    case None =>
      match FirstMatchFrom(b, roadName, 0)
      case Some(k) =>
        assert (a + b)[|a| + k] == b[k];
      case None =>
  }

  /** Every pattern of `later` is a pattern of `earlier` followed by more
      `.*` pieces. */
  predicate Extends(later: Facility, earlier: Facility) {
    forall q :: q in later.patterns ==>
      exists p :: p in earlier.patterns && |p| <= |q| && q[..|p|] == p
  }

  /** A facility that extends a facility of the first table and is not in it
      is never returned: any name it would match was already claimed. */
  lemma Shadowed(a: Table, b: Table, roadName: string, earlier: Facility, later: Facility)
    requires earlier in a && later !in a && Extends(later, earlier)
    ensures IdentifyTollRoad(a + b, roadName) != Some(later)
  {
    LookupInConcatenation(a, b, roadName);
    IdentifyIsFirstMatch(a, roadName);
    IdentifyIsFirstMatch(b, roadName);
    if IdentifyTollRoad(a + b, roadName) == Some(later) {
      assert IdentifyTollRoad(a, roadName).None?;
      var k :| 0 <= k < |b| && later == b[k] && MatchesFacility(b[k], roadName);
      var q :| q in later.patterns && Search(q, roadName);
      var p :| p in earlier.patterns && |p| <= |q| && q[..|p|] == p;
      assert q == p + q[|p|..];
      SearchPrefix(p, q[|p|..], roadName);
    }
  }

  // ---------------------------------------------------------------- time of day

  /** Time of day in microseconds since midnight (the resolution of Python's `time`). */
  const MicrosPerMinute: nat := 60_000_000
  type TimeOfDay = t: nat | t < 24 * 60 * 60_000_000

  /** The reading `h`:`m`:00.000000. */
  function Clock(h: nat, m: nat): nat {
    (h * 60 + m) * MicrosPerMinute
  }

  /** 07:00-09:30 or 16:30-19:00, both ends included. */
  predicate InRushHour(now: TimeOfDay) {
    (Clock(7, 0) <= now <= Clock(9, 30)) || (Clock(16, 30) <= now <= Clock(19, 0))
  }

  /** 11:00-14:00, both ends included. */
  predicate InMidday(now: TimeOfDay) {
    Clock(11, 0) <= now <= Clock(14, 0)
  }

  /** From 21:00 to midnight and from midnight to 06:00, both ends included. */
  predicate InOffPeak(now: TimeOfDay) {
    now >= Clock(21, 0) || now <= Clock(6, 0)
  }

  /** The time-of-day factor. The source tests the windows one after the
      other; because they do not overlap, each window alone decides the factor. */
  function TimeOfDayMultiplier(now: TimeOfDay, peak: real): (m: real)
    ensures InRushHour(now) ==> m == peak
    ensures InMidday(now) ==> m == MiddayMultiplier
    ensures InOffPeak(now) ==> m == OffPeakMultiplier
    ensures !InRushHour(now) && !InMidday(now) && !InOffPeak(now) ==> m == 1.0
  {
    if Clock(7, 0) <= now <= Clock(9, 30) then peak
    else if Clock(16, 30) <= now <= Clock(19, 0) then peak
    else if Clock(11, 0) <= now <= Clock(14, 0) then MiddayMultiplier
    else if now >= Clock(21, 0) || now <= Clock(6, 0) then OffPeakMultiplier
    else 1.0
  }

  /** Average route speed (meters per `1609.34` over seconds, times 3600) is
      below 70% of the expected 65 mph; a route with no positive ETA is never
      congested. */
  predicate Congested(route: RouteCandidate) {
    route.etaSeconds > 0 &&
    (route.distanceMeters as real / MetersPerMile) / (route.etaSeconds as real) * 3600.0
      < ExpectedSpeedMph * CongestionSpeedRatio
  }

  /** The multiplier `_apply_dynamic_pricing` applies to the base rate. */
  function DynamicMultiplier(peak: real, congestionSensitive: bool, route: RouteCandidate, now: TimeOfDay): real {
    var m := TimeOfDayMultiplier(now, peak);
    if congestionSensitive && Congested(route) then Min(m * CongestionMultiplier, peak) else m
  }

  /** `_apply_dynamic_pricing`: the base rate times the dynamic multiplier. */
  function ApplyDynamicPricing(baseRate: real, peak: real, congestionSensitive: bool,
                               route: RouteCandidate, now: TimeOfDay): real
  {
    baseRate * DynamicMultiplier(peak, congestionSensitive, route, now)
  }

  /** On a congested route the multiplier of a congestion-sensitive facility
      is the time factor times 1.4, capped at the peak multiplier; otherwise it
      is the time factor. It never exceeds the peak once the congestion step
      has applied, and never at all when the peak is at least the midday
      factor; it is never below the off-peak factor. */
  lemma DynamicMultiplierBounds(peak: real, congestionSensitive: bool, route: RouteCandidate, now: TimeOfDay)
    ensures congestionSensitive && Congested(route) ==>
      DynamicMultiplier(peak, congestionSensitive, route, now)
        == Min(TimeOfDayMultiplier(now, peak) * 1.4, peak) <= peak
    ensures !(congestionSensitive && Congested(route)) ==>
      DynamicMultiplier(peak, congestionSensitive, route, now) == TimeOfDayMultiplier(now, peak)
    ensures peak >= MiddayMultiplier ==>
      OffPeakMultiplier <= DynamicMultiplier(peak, congestionSensitive, route, now) <= peak
  {
  }

  // ---------------------------------------------------------------- segments

  /** A step becomes a segment; a missing name is "" and a missing distance 0. */
  function StepSegment(step: Step): Segment {
    Segment(step.name.GetOr(""), step.distance.GetOr(0.0))
  }

  function StepsSegments(steps: seq<Step>): seq<Segment>
    decreases |steps|
  {
    if steps == [] then [] else StepsSegments(steps[..|steps| - 1]) + [StepSegment(steps[|steps| - 1])]
  }

  /** A leg without `steps` contributes nothing. */
  function LegSegments(leg: Leg): seq<Segment> {
    match leg.steps
    case None => []
    case Some(steps) => StepsSegments(steps)
  }

  function LegsSegments(legs: seq<Leg>): seq<Segment>
    decreases |legs|
  {
    if legs == [] then [] else LegsSegments(legs[..|legs| - 1]) + LegSegments(legs[|legs| - 1])
  }

  /** `_extract_road_segments`: every step of every leg, in order; no geometry
      or no `legs` gives none. */
  function RoadSegments(route: RouteCandidate): seq<Segment> {
    match route.geometry
    case None => []
    case Some(g) =>
      match g.legs
      case None => []
      case Some(legs) => LegsSegments(legs)
  }

  /** Number of steps over the legs that have `steps`. */
  function StepCount(legs: seq<Leg>): nat
    decreases |legs|
  {
    if legs == [] then 0
    else StepCount(legs[..|legs| - 1]) + (if legs[|legs| - 1].steps.Some? then |legs[|legs| - 1].steps.value| else 0)
  }

  function RouteStepCount(route: RouteCandidate): nat {
    if route.geometry.Some? && route.geometry.value.legs.Some? then StepCount(route.geometry.value.legs.value) else 0
  }

  lemma {:induction false} StepsSegmentsAt(steps: seq<Step>, k: nat)
    requires k < |steps|
    ensures |StepsSegments(steps)| == |steps|
    ensures StepsSegments(steps)[k] == StepSegment(steps[k])
    decreases |steps|
  {
    if k < |steps| - 1 {
      StepsSegmentsAt(steps[..|steps| - 1], k);
    } else if |steps| > 1 {
      StepsSegmentsAt(steps[..|steps| - 1], 0);
    }
  }

  lemma {:induction false} LegsSegmentsLength(legs: seq<Leg>)
    ensures |LegsSegments(legs)| == StepCount(legs)
    decreases |legs|
  {
    if legs != [] {
      LegsSegmentsLength(legs[..|legs| - 1]);
      var last := legs[|legs| - 1];
      if last.steps.Some? && |last.steps.value| > 0 {
        StepsSegmentsAt(last.steps.value, 0);
      } else if last.steps.Some? {
        assert last.steps.value == [];
      }
    }
  }

  /** Extraction yields exactly one segment per step, so it yields none
      exactly when no leg has a non-empty `steps` list. */
  lemma RoadSegmentsCount(route: RouteCandidate)
    ensures |RoadSegments(route)| == RouteStepCount(route)
    ensures RoadSegments(route) == [] <==> RouteStepCount(route) == 0
  {
    if route.geometry.Some? && route.geometry.value.legs.Some? {
      LegsSegmentsLength(route.geometry.value.legs.value);
    }
  }

  /** Legs are flattened in order: the segments of two runs of legs are the
      segments of the first run followed by those of the second. */
  lemma {:induction false} LegsSegmentsAppend(legs1: seq<Leg>, legs2: seq<Leg>)
    ensures LegsSegments(legs1 + legs2) == LegsSegments(legs1) + LegsSegments(legs2)
    decreases |legs2|
  {
    if legs2 != [] {
      var all := legs1 + legs2;
      var init, last := legs2[..|legs2| - 1], legs2[|legs2| - 1];
      assert all[..|all| - 1] == legs1 + init;
      assert all[|all| - 1] == last;
      LegsSegmentsAppend(legs1, init);
      var a, b, c := LegsSegments(legs1), LegsSegments(init), LegSegments(last);
      assert LegsSegments(all) == a + b + c;
      assert LegsSegments(legs2) == b + c;
      assert a + b + c == a + (b + c);
    } else {
      assert legs1 + legs2 == legs1;
    }
  }

  // ---------------------------------------------------------------- tolls

  /** Per-mile rate of a matched facility: dynamic pricing only when the
      service enables it and the facility is dynamic, then the no-tag
      surcharge when the vehicle has no tag. */
  function EffectiveRate(cfg: ServiceConfig, f: Facility, route: RouteCandidate, now: TimeOfDay): real {
    var rate :=
      if cfg.useDynamicPricing && f.pricing.Dynamic? then
        ApplyDynamicPricing(f.ratePerMile, f.pricing.peakMultiplier, f.pricing.congestionSensitive, route, now)
      else f.ratePerMile;
    if cfg.hasTollTag then rate else rate * NoTagSurcharge
  }

  /** The toll one segment adds: nothing when its lowercased name matches no
      facility, otherwise miles times the effective rate. */
  function SegmentToll(cfg: ServiceConfig, route: RouteCandidate, now: TimeOfDay, seg: Segment): real {
    match IdentifyTollRoad(cfg.table, Lower(seg.name))
    case None => 0.0
    case Some(f) => seg.distanceMeters / MetersPerMile * EffectiveRate(cfg, f, route, now)
  }

  function SegmentsToll(cfg: ServiceConfig, route: RouteCandidate, now: TimeOfDay, segs: seq<Segment>): real
    decreases |segs|
  {
    if segs == [] then 0.0
    else SegmentsToll(cfg, route, now, segs[..|segs| - 1]) + SegmentToll(cfg, route, now, segs[|segs| - 1])
  }

  /** A segment whose name matches facility `f` costs its miles times the
      effective rate of `f`. */
  lemma MatchedSegmentToll(cfg: ServiceConfig, route: RouteCandidate, now: TimeOfDay, seg: Segment, f: Facility)
    requires IdentifyTollRoad(cfg.table, Lower(seg.name)) == Some(f)
    ensures SegmentToll(cfg, route, now, seg) == seg.distanceMeters / MetersPerMile * EffectiveRate(cfg, f, route, now)
  {
  }

  /** The running sum over a prefix grows by the toll of the next segment. */
  lemma SegmentsTollStep(cfg: ServiceConfig, route: RouteCandidate, now: TimeOfDay, segs: seq<Segment>, i: nat)
    requires i < |segs|
    ensures SegmentsToll(cfg, route, now, segs[..i + 1]) ==
      SegmentsToll(cfg, route, now, segs[..i]) + SegmentToll(cfg, route, now, segs[i])
  {
    assert segs[..i + 1][..i] == segs[..i];
  }

  /** `_fallback_toll_estimate`: kilometers times 0.621371 give miles; above
      55 mph 40% of the miles are taken as toll miles, otherwise 30%, at
      $0.55 a mile; then the no-tag surcharge. */
  function FallbackTollEstimate(cfg: ServiceConfig, route: RouteCandidate): (r: real)
    ensures route.distanceMeters >= 0 ==> r >= 0.0
    ensures route.distanceMeters == 0 ==> r == 0.0
    ensures route.distanceMeters >= 0 ==>
      var miles := route.distanceMeters as real / 1000.0 * MilesPerKm;
      var surcharge := if cfg.hasTollTag then 1.0 else NoTagSurcharge;
      miles * 0.3 * 0.55 * surcharge <= r <= miles * 0.4 * 0.55 * surcharge
  {
    var miles := route.distanceMeters as real / 1000.0 * MilesPerKm;
    var base := miles * FallbackShare(miles, route.etaSeconds) * FallbackRatePerMile;
    if cfg.hasTollTag then base else base * NoTagSurcharge
  }

  /** The share of the distance taken to be tolled: higher when the average
      speed says the route is mostly highway. */
  function FallbackShare(miles: real, etaSeconds: int): real {
    if etaSeconds > 0 && miles / (etaSeconds as real) * 3600.0 > HighwaySpeedMph then FallbackTollShareHighway
    else FallbackTollShareOther
  }

  /** `_calculate_route_toll`: the fallback when extraction yields no segment,
      otherwise the sum of the segment tolls. */
  function RouteToll(cfg: ServiceConfig, route: RouteCandidate, now: TimeOfDay): real {
    var segs := RoadSegments(route);
    if segs == [] then FallbackTollEstimate(cfg, route) else SegmentsToll(cfg, route, now, segs)
  }

  /** The route after `estimate_tolls`: a preset toll is kept, an unset one
      becomes the route toll rounded to cents. */
  function EstimateRoute(cfg: ServiceConfig, route: RouteCandidate, now: TimeOfDay): RouteCandidate {
    if route.toll.Some? then route else route.(toll := Some(RoundToCents(RouteToll(cfg, route, now))))
  }

  function EstimateAll(cfg: ServiceConfig, routes: seq<RouteCandidate>, now: TimeOfDay): seq<RouteCandidate> {
    seq(|routes|, i requires 0 <= i < |routes| => EstimateRoute(cfg, routes[i], now))
  }

  /** `is_toll_free_route`: the toll is set and equals zero. */
  function IsTollFreeRoute(route: RouteCandidate): bool {
    route.toll == Some(0.0)
  }

  // ---------------------------------------------------------------- properties

  /** A matched facility's effective rate lies between 0.6 and the peak
      multiplier times its base rate (dynamic pricing on, dynamic facility),
      or is the base rate (otherwise), times 1.5 without a tag. */
  lemma EffectiveRateBounds(cfg: ServiceConfig, f: Facility, route: RouteCandidate, now: TimeOfDay)
    requires f.ratePerMile >= 0.0
    requires f.pricing.Dynamic? ==> f.pricing.peakMultiplier >= MiddayMultiplier
    ensures cfg.useDynamicPricing && f.pricing.Dynamic? ==>
      f.ratePerMile * OffPeakMultiplier * TagFactor(cfg) <= EffectiveRate(cfg, f, route, now)
    ensures cfg.useDynamicPricing && f.pricing.Dynamic? ==>
      EffectiveRate(cfg, f, route, now) <= f.ratePerMile * f.pricing.peakMultiplier * TagFactor(cfg)
  {
    if cfg.useDynamicPricing && f.pricing.Dynamic? {
      var m := DynamicMultiplier(f.pricing.peakMultiplier, f.pricing.congestionSensitive, route, now);
      DynamicRate(cfg, f, route, now);
      DynamicMultiplierBounds(f.pricing.peakMultiplier, f.pricing.congestionSensitive, route, now);
      ScaledBetween(EffectiveRate(cfg, f, route, now), f.ratePerMile, TagFactor(cfg),
                    OffPeakMultiplier, m, f.pricing.peakMultiplier);
    }
  }

  lemma StaticRate(cfg: ServiceConfig, f: Facility, route: RouteCandidate, now: TimeOfDay)
    ensures !(cfg.useDynamicPricing && f.pricing.Dynamic?) ==>
      EffectiveRate(cfg, f, route, now) == f.ratePerMile * TagFactor(cfg)
  {
  }

  /** The factor the missing toll tag adds: 1.5 without a tag, 1 with one. */
  function TagFactor(cfg: ServiceConfig): real {
    if cfg.hasTollTag then 1.0 else NoTagSurcharge
  }

  lemma DynamicRate(cfg: ServiceConfig, f: Facility, route: RouteCandidate, now: TimeOfDay)
    requires cfg.useDynamicPricing && f.pricing.Dynamic?
    ensures EffectiveRate(cfg, f, route, now) ==
      f.ratePerMile * DynamicMultiplier(f.pricing.peakMultiplier, f.pricing.congestionSensitive, route, now) *
      TagFactor(cfg)
  {
  }

  /** A looked-up facility is an entry of the table. */
  lemma IdentifiedIsEntry(table: Table, roadName: string)
    ensures IdentifyTollRoad(table, roadName).Some? ==> IdentifyTollRoad(table, roadName).value in table
  {
  }

  /** Segment tolls are never negative on a well-formed table. */
  lemma SegmentTollNonNegative(cfg: ServiceConfig, route: RouteCandidate, now: TimeOfDay, seg: Segment)
    requires WellFormedTable(cfg.table)
    requires seg.distanceMeters >= 0.0
    ensures SegmentToll(cfg, route, now, seg) >= 0.0
  {
    var found := IdentifyTollRoad(cfg.table, Lower(seg.name));
    if found.Some? {
      IdentifyIsFirstMatch(cfg.table, Lower(seg.name));
      EffectiveRateBounds(cfg, found.value, route, now);
      StaticRate(cfg, found.value, route, now);
      var rate := EffectiveRate(cfg, found.value, route, now);
      assert rate >= 0.0;
      assert seg.distanceMeters / MetersPerMile >= 0.0;
    }
  }

  lemma {:induction false} SegmentsTollNonNegative(cfg: ServiceConfig, route: RouteCandidate, now: TimeOfDay,
                                                   segs: seq<Segment>)
    requires WellFormedTable(cfg.table)
    requires forall k :: 0 <= k < |segs| ==> segs[k].distanceMeters >= 0.0
    ensures SegmentsToll(cfg, route, now, segs) >= 0.0
    decreases |segs|
  {
    if segs != [] {
      SegmentsTollNonNegative(cfg, route, now, segs[..|segs| - 1]);
      SegmentTollNonNegative(cfg, route, now, segs[|segs| - 1]);
    }
  }

  /** On a well-formed table, with non-negative route and step distances, the
      route toll is never negative. */
  lemma RouteTollNonNegative(cfg: ServiceConfig, route: RouteCandidate, now: TimeOfDay)
    requires WellFormedTable(cfg.table)
    requires route.distanceMeters >= 0
    requires forall k :: 0 <= k < |RoadSegments(route)| ==> RoadSegments(route)[k].distanceMeters >= 0.0
    ensures RouteToll(cfg, route, now) >= 0.0
  {
    if RoadSegments(route) != [] {
      SegmentsTollNonNegative(cfg, route, now, RoadSegments(route));
    }
  }

  /** Segments whose names match no facility add nothing. */
  lemma {:induction false} UnmatchedSegmentsAreFree(cfg: ServiceConfig, route: RouteCandidate, now: TimeOfDay,
                                                    segs: seq<Segment>)
    requires forall k :: 0 <= k < |segs| ==> IdentifyTollRoad(cfg.table, Lower(segs[k].name)).None?
    ensures SegmentsToll(cfg, route, now, segs) == 0.0
    decreases |segs|
  {
    if segs != [] {
      UnmatchedSegmentsAreFree(cfg, route, now, segs[..|segs| - 1]);
    }
  }

  /** When the route has segments but none of their names matches a facility,
      its toll is zero: the distance-based fallback is used only when there
      are no segments at all. */
  lemma NoMatchedSegmentMeansNoToll(cfg: ServiceConfig, route: RouteCandidate, now: TimeOfDay)
    requires RoadSegments(route) != []
    requires forall k :: 0 <= k < |RoadSegments(route)| ==>
      IdentifyTollRoad(cfg.table, Lower(RoadSegments(route)[k].name)).None?
    ensures RouteToll(cfg, route, now) == 0.0
  {
    UnmatchedSegmentsAreFree(cfg, route, now, RoadSegments(route));
  }

  lemma {:induction false} SegmentsTollNoTag(cfg: ServiceConfig, route: RouteCandidate, now: TimeOfDay,
                                             segs: seq<Segment>)
    ensures SegmentsToll(cfg.(hasTollTag := false), route, now, segs)
      == NoTagSurcharge * SegmentsToll(cfg.(hasTollTag := true), route, now, segs)
    decreases |segs|
  {
    if segs != [] {
      SegmentsTollNoTag(cfg, route, now, segs[..|segs| - 1]);
    }
  }

  /** The no-tag surcharge is applied to every rate after the dynamic factor
      and to the fallback, so a vehicle without a tag pays exactly 1.5 times
      the tagged toll. */
  lemma NoTagPaysOneAndAHalf(cfg: ServiceConfig, route: RouteCandidate, now: TimeOfDay)
    ensures RouteToll(cfg.(hasTollTag := false), route, now)
      == NoTagSurcharge * RouteToll(cfg.(hasTollTag := true), route, now)
  {
    if RoadSegments(route) != [] {
      SegmentsTollNoTag(cfg, route, now, RoadSegments(route));
    }
  }

  lemma {:induction false} SegmentsTollStatic(cfg: ServiceConfig, route: RouteCandidate, t1: TimeOfDay, t2: TimeOfDay,
                                              segs: seq<Segment>)
    requires !cfg.useDynamicPricing
    ensures SegmentsToll(cfg, route, t1, segs) == SegmentsToll(cfg, route, t2, segs)
    decreases |segs|
  {
    if segs != [] {
      SegmentsTollStatic(cfg, route, t1, t2, segs[..|segs| - 1]);
    }
  }

  /** With dynamic pricing switched off the time of day does not matter. */
  lemma StaticPricingIgnoresClock(cfg: ServiceConfig, route: RouteCandidate, t1: TimeOfDay, t2: TimeOfDay)
    requires !cfg.useDynamicPricing
    ensures RouteToll(cfg, route, t1) == RouteToll(cfg, route, t2)
  {
    if RoadSegments(route) != [] {
      SegmentsTollStatic(cfg, route, t1, t2, RoadSegments(route));
    }
  }

  /** For a fixed ETA the fallback never decreases as the distance grows: a
      longer route is charged at least as many miles, at a share that only
      rises once the average speed passes 55 mph. */
  lemma FallbackMonotone(cfg: ServiceConfig, r1: RouteCandidate, r2: RouteCandidate)
    requires 0 <= r1.distanceMeters <= r2.distanceMeters
    requires r1.etaSeconds == r2.etaSeconds
    ensures FallbackTollEstimate(cfg, r1) <= FallbackTollEstimate(cfg, r2)
  {
    var m1 := r1.distanceMeters as real / 1000.0 * MilesPerKm;
    var m2 := r2.distanceMeters as real / 1000.0 * MilesPerKm;
    assert 0.0 <= m1 <= m2;
    var s1 := FallbackShare(m1, r1.etaSeconds);
    var s2 := FallbackShare(m2, r2.etaSeconds);
    if r1.etaSeconds > 0 {
      DivMonotone(m1, m2, r1.etaSeconds as real);
    }
    assert 0.0 <= s1 <= s2;
    ProductMonotone(m1, m2, s1, s2);
  }

  /** `estimate_tolls` keeps the list's length and order; a route whose toll
      was set is unchanged; every other route gets a toll that is a whole
      number of cents within half a cent of its computed toll, and no other
      field changes. */
  lemma EstimateAllSpec(cfg: ServiceConfig, routes: seq<RouteCandidate>, now: TimeOfDay)
    ensures |EstimateAll(cfg, routes, now)| == |routes|
    ensures forall i :: 0 <= i < |routes| && routes[i].toll.Some? ==>
      EstimateAll(cfg, routes, now)[i] == routes[i]
    ensures forall i :: 0 <= i < |routes| && routes[i].toll.None? ==>
      var r := EstimateAll(cfg, routes, now)[i];
      && r.toll.Some?
      && IsWholeCents(r.toll.value)
      && RouteToll(cfg, routes[i], now) - 0.005 <= r.toll.value <= RouteToll(cfg, routes[i], now) + 0.005
      && r.(toll := None) == routes[i]
  {
  }

  /** A freshly priced route counts as toll-free when its computed toll is
      under half a cent, and not when it is over. */
  lemma TollFreeAfterEstimate(cfg: ServiceConfig, route: RouteCandidate, now: TimeOfDay)
    requires route.toll.None?
    ensures 0.0 <= RouteToll(cfg, route, now) < 0.005 ==> IsTollFreeRoute(EstimateRoute(cfg, route, now))
    ensures RouteToll(cfg, route, now) > 0.005 ==> !IsTollFreeRoute(EstimateRoute(cfg, route, now))
  {
    var x := RouteToll(cfg, route, now);
    var r := RoundToCents(x);
    if 0.0 <= x < 0.005 {
      assert 0.0 <= r <= 0.01;
      CentsBetween(r);
    }
  }

  /** The only whole-cent amounts in [0, 0.01) is zero. */
  lemma CentsBetween(r: real)
    requires IsWholeCents(r) && 0.0 <= r < 0.01
    ensures r == 0.0
  {
    assert 0.0 <= r * 100.0 < 1.0;
  }
}
