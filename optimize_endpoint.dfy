/**
 * The pure pieces of the `/optimize` handler (routes/optimize.py): the
 * coordinate validator of the request model, the merge of toll-free
 * candidates into the directions results, the budget lookup, and the path
 * from the merged candidates to the optimizer's result.
 */
module OptimizeEndpoint {
  import opened Wrappers
  import opened Routes
  import TP = TollPricing
  import TexasTolls
  import RO = RoutingOptimizer
  import OptimizeProperties

  // ---------------------------------------------------------------- coordinate validation

  /** A value of the coordinate dictionary: a number (int or float) or anything else. */
  datatype Value = Number(x: real) | NotNumber

  datatype CoordinateError =
    | MissingLatLng                    // a key is missing
    | NotNumeric                       // a value is not a number
    | LatitudeOutOfRange(lat: real)    // latitude outside [-90, 90], reported with its value
    | LongitudeOutOfRange(lng: real)   // longitude outside [-180, 180], reported with its value

  /** A coordinate the request accepts: both keys, both numbers, both in range (bounds included). */
  predicate AcceptableCoordinate(v: map<string, Value>) {
    "lat" in v && "lng" in v && v["lat"].Number? && v["lng"].Number? &&
    -90.0 <= v["lat"].x <= 90.0 && -180.0 <= v["lng"].x <= 180.0
  }

  /** `validate_coordinates`: the checks run in order (keys, numbers,
      latitude, longitude) and the first that fails names the error; an
      accepted coordinate is returned unchanged. */
  function ValidateCoordinates(v: map<string, Value>): (r: Result<map<string, Value>, CoordinateError>)
    ensures r.Ok? <==> AcceptableCoordinate(v)
    ensures r.Ok? ==> r.value == v
  {
    if "lat" !in v || "lng" !in v then Err(MissingLatLng)
    else
      var lat, lng := v["lat"], v["lng"];
      if !lat.Number? || !lng.Number? then Err(NotNumeric)
      else if !(-90.0 <= lat.x <= 90.0) then Err(LatitudeOutOfRange(lat.x))
      else if !(-180.0 <= lng.x <= 180.0) then Err(LongitudeOutOfRange(lng.x))
      else Ok(v)
  }

  /** Which error a rejected coordinate gets: a missing key wins over
      everything, a non-number over any range, and the latitude range over
      the longitude range. */
  lemma ErrorPrecedence(v: map<string, Value>)
    ensures ("lat" !in v || "lng" !in v) <==> ValidateCoordinates(v) == Err(MissingLatLng)
    ensures ValidateCoordinates(v) == Err(NotNumeric) <==>
      "lat" in v && "lng" in v && (v["lat"].NotNumber? || v["lng"].NotNumber?)
    ensures ValidateCoordinates(v).Err? && ValidateCoordinates(v).error.LatitudeOutOfRange? <==>
      "lat" in v && "lng" in v && v["lat"].Number? && v["lng"].Number? && !(-90.0 <= v["lat"].x <= 90.0)
    ensures ValidateCoordinates(v).Err? && ValidateCoordinates(v).error.LongitudeOutOfRange? ==>
      -90.0 <= v["lat"].x <= 90.0
  {
  }

  /** Latitude 91 and longitude 181: the latitude error. */
  lemma BothOutOfRange()
    ensures ValidateCoordinates(map["lat" := Number(91.0), "lng" := Number(181.0)]) == Err(LatitudeOutOfRange(91.0))
  {
  }

  // ---------------------------------------------------------------- merging toll-free candidates

  /** Two distances count as the same route when they are less than 1 km apart. */
  const SameRouteMeters: int := 1000

  function Abs(x: int): nat {
    if x < 0 then -x else x
  }

  /** `route` is at least 1 km longer or shorter than every route of `list`. */
  predicate FarFromAll(list: seq<RouteCandidate>, route: RouteCandidate) {
    forall i :: 0 <= i < |list| ==> Abs(list[i].distanceMeters - route.distanceMeters) >= SameRouteMeters
  }

  /** The candidate list after the loop has gone through `tollFree`: each
      toll-free route is appended when it is far from every route in the
      list at that moment, toll-free routes appended earlier included. */
  function Merged(candidates: seq<RouteCandidate>, tollFree: seq<RouteCandidate>): seq<RouteCandidate>
    decreases |tollFree|
  {
    if tollFree == [] then candidates
    else
      var before := Merged(candidates, tollFree[..|tollFree| - 1]);
      var route := tollFree[|tollFree| - 1];
      if FarFromAll(before, route) then before + [route] else before
  }

  /** The merge loop of the handler, appending to the list in place. */
  method MergeTollFree(candidates: seq<RouteCandidate>, tollFree: seq<RouteCandidate>) returns (merged: seq<RouteCandidate>)
    ensures merged == Merged(candidates, tollFree)
  {
    merged := candidates;
    for k := 0 to |tollFree|
      invariant merged == Merged(candidates, tollFree[..k])
    {
      var route := tollFree[k];
      var isUnique := true;
      var i := 0;
      while i < |merged|
        invariant 0 <= i <= |merged|
        invariant isUnique && FarFromAll(merged[..i], route)
      {
        if Abs(merged[i].distanceMeters - route.distanceMeters) < SameRouteMeters {
          isUnique := false;
          break;
        }
        i := i + 1;
      }
      assert merged[..|merged|] == merged;
      assert isUnique == FarFromAll(merged, route);
      assert tollFree[..k + 1][..k] == tollFree[..k];
      if isUnique {
        merged := merged + [route];
      }
    }
    assert tollFree[..|tollFree|] == tollFree;
  }

  /** The merge keeps the candidates in front, unchanged, and adds at most
      one route per toll-free route. */
  lemma {:induction false} MergedExtends(candidates: seq<RouteCandidate>, tollFree: seq<RouteCandidate>)
    ensures var m := Merged(candidates, tollFree);
      |candidates| <= |m| <= |candidates| + |tollFree| && m[..|candidates|] == candidates
    decreases |tollFree|
  {
    if tollFree != [] {
      var before := Merged(candidates, tollFree[..|tollFree| - 1]);
      MergedExtends(candidates, tollFree[..|tollFree| - 1]);
      assert (before + [tollFree[|tollFree| - 1]])[..|candidates|] == before[..|candidates|];
    }
  }

  /** The appended routes are toll-free routes in their toll-free order:
      `m[|candidates| + j] == tollFree[ix[j]]` with `ix` strictly increasing. */
  lemma {:induction false} MergedKeepsOrder(candidates: seq<RouteCandidate>, tollFree: seq<RouteCandidate>)
    returns (ix: seq<nat>)
    ensures var m := Merged(candidates, tollFree);
      |candidates| + |ix| == |m| &&
      (forall j :: 0 <= j < |ix| ==> ix[j] < |tollFree| && m[|candidates| + j] == tollFree[ix[j]]) &&
      (forall i, j :: 0 <= i < j < |ix| ==> ix[i] < ix[j])
    decreases |tollFree|
  {
    MergedExtends(candidates, tollFree);
    if tollFree == [] {
      ix := [];
    } else {
      var n := |tollFree| - 1;
      var before := Merged(candidates, tollFree[..n]);
      var ix0 := MergedKeepsOrder(candidates, tollFree[..n]);
      if FarFromAll(before, tollFree[n]) {
        ix := ix0 + [n];
      } else {
        ix := ix0;
      }
    }
  }

  /** Every appended route is at least 1 km from every route before it. */
  lemma {:induction false} MergedSeparated(candidates: seq<RouteCandidate>, tollFree: seq<RouteCandidate>)
    ensures var m := Merged(candidates, tollFree);
      forall i, j :: 0 <= i < j < |m| && |candidates| <= j ==>
        Abs(m[i].distanceMeters - m[j].distanceMeters) >= SameRouteMeters
    decreases |tollFree|
  {
    if tollFree != [] {
      MergedSeparated(candidates, tollFree[..|tollFree| - 1]);
      MergedExtends(candidates, tollFree[..|tollFree| - 1]);
    }
  }

  /** Every toll-free route ends up less than 1 km from some merged route:
      itself when appended, the route that blocked it otherwise. */
  lemma {:induction false} MergedCovers(candidates: seq<RouteCandidate>, tollFree: seq<RouteCandidate>, k: nat)
    returns (i: nat)
    requires k < |tollFree|
    ensures var m := Merged(candidates, tollFree);
      i < |m| && Abs(m[i].distanceMeters - tollFree[k].distanceMeters) < SameRouteMeters
    decreases |tollFree|
  {
    var n := |tollFree| - 1;
    var before := Merged(candidates, tollFree[..n]);
    var m := Merged(candidates, tollFree);
    assert forall j :: 0 <= j < |before| ==> m[j] == before[j];
    if k < n {
      i := MergedCovers(candidates, tollFree[..n], k);
      assert m[i] == before[i];
    } else if FarFromAll(before, tollFree[n]) {
      i := |before|;
    } else {
      i :| 0 <= i < |before| && Abs(before[i].distanceMeters - tollFree[n].distanceMeters) < SameRouteMeters;
    }
  }

  /** The merged list is empty exactly when both lists are: with an empty
      list the first toll-free route is always appended. */
  lemma MergedEmpty(candidates: seq<RouteCandidate>, tollFree: seq<RouteCandidate>)
    ensures Merged(candidates, tollFree) == [] <==> candidates == [] && tollFree == []
  {
    MergedExtends(candidates, tollFree);
    if tollFree != [] {
      var i := MergedCovers(candidates, tollFree, 0);
    }
  }

  /** Both directions calls name their routes `mapbox_route_<index>` from 0,
      so a toll-free route 2 km longer than the first candidate is merged in
      with a repeated id. */
  lemma MergeRepeatsIds()
    ensures var m := Merged([RouteCandidate("mapbox_route_0", 900, 10000, None, "", None)],
                            [RouteCandidate("mapbox_route_0", 600, 12000, None, "", None)]);
      |m| == 2 && m[0].routeId == m[1].routeId
  {
    var tollFree := [RouteCandidate("mapbox_route_0", 600, 12000, None, "", None)];
    assert tollFree[..0] == [];
  }

  // ---------------------------------------------------------------- budget

  /** The request preferences (models/route.py): `toll_budget_usd` is optional. */
  datatype Preferences = Preferences(avoidTolls: bool, avoidHighways: bool, tollBudget: Option<real>)

  /** A value of the dumped preferences dictionary. */
  datatype Field = Flag(b: bool) | Amount(x: real) | Null

  const DefaultBudget: real := 10.0

  /** `model_dump()`: every field is present, an unset budget as `None`. */
  function Dump(p: Preferences): map<string, Field> {
    map["avoid_tolls" := Flag(p.avoidTolls),
        "avoid_highways" := Flag(p.avoidHighways),
        "toll_budget_usd" := if p.tollBudget.Some? then Amount(p.tollBudget.value) else Null]
  }

  /** The dumped preferences, or an empty dictionary when none were sent. */
  function PreferencesDict(preferences: Option<Preferences>): map<string, Field> {
    if preferences.Some? then Dump(preferences.value) else map[]
  }

  /** `preferences_dict.get("toll_budget_usd", 10.0)`. */
  function BudgetLookup(preferences: Option<Preferences>): Field {
    var d := PreferencesDict(preferences);
    if "toll_budget_usd" in d then d["toll_budget_usd"] else Amount(DefaultBudget)
  }

  /** The default applies only when no preferences were sent; preferences
      without a budget give `None`, and a sent budget is used as it is. */
  lemma BudgetChoice(preferences: Option<Preferences>)
    ensures preferences.None? ==> BudgetLookup(preferences) == Amount(DefaultBudget)
    ensures BudgetLookup(preferences) == Null <==> preferences.Some? && preferences.value.tollBudget.None?
    ensures forall x :: preferences.Some? && preferences.value.tollBudget == Some(x) ==> BudgetLookup(preferences) == Amount(x)
    ensures BudgetLookup(preferences).Amount? || BudgetLookup(preferences).Null?
  {
  }

  // ---------------------------------------------------------------- the handler

  /** What the handler produces from the candidates it fetched. */
  datatype Outcome =
    | Optimized(result: RO.OptimizationResult)
    | NotFound        // 404: no candidates after the merge
    | ServerError     // 500: the optimizer compares tolls with a `None` budget
    | InvalidInput    // 400: a `ValueError` reached the handler's `except ValueError`

  /** The Texas estimator as the handler configures it: dynamic pricing on,
      the toll tag as sent (true when unset). */
  function HandlerConfig(hasTollTag: Option<bool>): TP.ServiceConfig {
    TP.ServiceConfig(TexasTolls.TexasTable, true, hasTollTag.GetOr(true))
  }

  /** Lines 96-121 of routes/optimize.py: merge the toll-free routes (`None` when fetching them
      failed), stop with not-found when nothing is left, estimate the tolls
      with `cfg` (the handler passes `HandlerConfig`), look up the budget and
      optimize. */
  function Handle(candidates: seq<RouteCandidate>, tollFree: Option<seq<RouteCandidate>>,
                  preferences: Option<Preferences>, cfg: TP.ServiceConfig, now: TP.TimeOfDay): Outcome
  {
    var merged := if tollFree.Some? then Merged(candidates, tollFree.value) else candidates;
    if merged == [] then NotFound
    else
      var estimated := TP.EstimateAll(cfg, merged, now);
      match BudgetLookup(preferences)
      case Amount(budget) => Optimized(RO.Optimize(estimated, budget))
      case _ => ServerError
  }

  /** Not-found exactly when neither directions call gave a route; the
      outcome then depends on nothing else. */
  lemma NotFoundExactlyWhenEmpty(candidates: seq<RouteCandidate>, tollFree: Option<seq<RouteCandidate>>,
                                 preferences: Option<Preferences>, cfg: TP.ServiceConfig, now: TP.TimeOfDay)
    ensures Handle(candidates, tollFree, preferences, cfg, now) == NotFound <==>
      candidates == [] && (tollFree.None? || tollFree.value == [])
  {
    if tollFree.Some? {
      MergedEmpty(candidates, tollFree.value);
    }
    BudgetChoice(preferences);
  }

  /** With routes to rank, preferences sent without a budget end in a server error, and only then. */
  lemma ServerErrorExactlyWithoutBudget(candidates: seq<RouteCandidate>, tollFree: Option<seq<RouteCandidate>>,
                                        preferences: Option<Preferences>, cfg: TP.ServiceConfig, now: TP.TimeOfDay)
    requires candidates != []
    ensures Handle(candidates, tollFree, preferences, cfg, now) == ServerError <==>
      preferences.Some? && preferences.value.tollBudget.None?
  {
    if tollFree.Some? {
      MergedExtends(candidates, tollFree.value);
    }
    BudgetChoice(preferences);
  }

  /** Where, after estimating tolls and optimizing, the id of `routes[i]` is ranked. */
  lemma EstimatedIdRanked(cfg: TP.ServiceConfig, routes: seq<RouteCandidate>, now: TP.TimeOfDay, budget: real, i: int)
    returns (k: nat)
    requires 0 <= i < |routes|
    ensures var r := RO.Optimize(TP.EstimateAll(cfg, routes, now), budget).ranked;
      k < |r| && r[k].route.routeId == routes[i].routeId
  {
    var estimated := TP.EstimateAll(cfg, routes, now);
    TP.EstimateAllSpec(cfg, routes, now);
    k := OptimizeProperties.RankedIdOf(estimated, budget, i);
  }

  /** When the handler optimizes, every candidate id of the merged list is ranked. */
  lemma OptimizedRanksEveryCandidate(candidates: seq<RouteCandidate>, tollFree: Option<seq<RouteCandidate>>,
                                     preferences: Option<Preferences>, cfg: TP.ServiceConfig, now: TP.TimeOfDay,
                                     i: int)
    returns (k: nat)
    requires Handle(candidates, tollFree, preferences, cfg, now).Optimized?
    requires 0 <= i < |if tollFree.Some? then Merged(candidates, tollFree.value) else candidates|
    ensures var merged := if tollFree.Some? then Merged(candidates, tollFree.value) else candidates;
      var ranked := Handle(candidates, tollFree, preferences, cfg, now).result.ranked;
      k < |ranked| && ranked[k].route.routeId == merged[i].routeId
  {
    var merged := if tollFree.Some? then Merged(candidates, tollFree.value) else candidates;
    k := EstimatedIdRanked(cfg, merged, now, BudgetLookup(preferences).x, i);
  }

  // ---------------------------------------------------------------- the response conversion

  /** The keys of the dictionary `optimize_routes` returns, on both of its paths. */
  const ResultKeys: set<string> := {"budget_usd", "recommended_route_id", "routes_ranked", "advisories"}

  /** The fields `OptimizeResponse` declares without a default, so a dictionary
      unpacked into it must carry each of them; other keys are ignored. */
  const ResponseRequiredKeys: set<string> :=
    {"budget_usd", "no_toll_option", "budget_option", "alternatives", "advisories"}

  /** Whether `OptimizeResponse(**d)` accepts a dictionary with keys `keys`;
      when it does not, pydantic raises a `ValidationError`, which is a `ValueError`. */
  predicate ResponseAccepts(keys: set<string>) {
    ResponseRequiredKeys <= keys
  }

  /** The optimizer's result lacks three of the response's required fields. */
  lemma ResultMissesResponseFields()
    ensures !ResponseAccepts(ResultKeys)
    ensures "no_toll_option" !in ResultKeys && "budget_option" !in ResultKeys && "alternatives" !in ResultKeys
  {
    assert "no_toll_option" in ResponseRequiredKeys;
  }

  /** The handler as written: `Handle`, followed by the conversion of the
      optimizer's result into `OptimizeResponse`, whose `ValueError` the
      handler turns into a 400. */
  function HandleAsWritten(candidates: seq<RouteCandidate>, tollFree: Option<seq<RouteCandidate>>,
                           preferences: Option<Preferences>, cfg: TP.ServiceConfig, now: TP.TimeOfDay): Outcome
  {
    match Handle(candidates, tollFree, preferences, cfg, now)
    case Optimized(result) => if ResponseAccepts(ResultKeys) then Optimized(result) else InvalidInput
    case other => other
  }

  /** As written, the handler never returns the optimizer's result: every
      request that reaches the conversion ends in a 400, and the other
      outcomes are those of `Handle`. */
  lemma AsWrittenNeverOptimizes(candidates: seq<RouteCandidate>, tollFree: Option<seq<RouteCandidate>>,
                                preferences: Option<Preferences>, cfg: TP.ServiceConfig, now: TP.TimeOfDay)
    ensures !HandleAsWritten(candidates, tollFree, preferences, cfg, now).Optimized?
    ensures HandleAsWritten(candidates, tollFree, preferences, cfg, now) == InvalidInput <==>
      Handle(candidates, tollFree, preferences, cfg, now).Optimized?
    ensures !Handle(candidates, tollFree, preferences, cfg, now).Optimized? ==>
      HandleAsWritten(candidates, tollFree, preferences, cfg, now) == Handle(candidates, tollFree, preferences, cfg, now)
  {
    ResultMissesResponseFields();
  }

  /** One route and no preferences: `Handle` optimizes with the $10 default,
      while the handler as written answers 400. */
  lemma AsWrittenRejectsOneRoute(route: RouteCandidate, now: TP.TimeOfDay)
    ensures Handle([route], None, None, HandlerConfig(None), now).Optimized?
    ensures Handle([route], None, None, HandlerConfig(None), now).result.budget == DefaultBudget
    ensures HandleAsWritten([route], None, None, HandlerConfig(None), now) == InvalidInput
  {
    AsWrittenNeverOptimizes([route], None, None, HandlerConfig(None), now);
  }

  /** The intended outcome: with routes to rank and a budget to rank them
      by, the handler returns the optimizer's result for the estimated routes. */
  lemma OptimizedExactlyWithBudget(candidates: seq<RouteCandidate>, tollFree: Option<seq<RouteCandidate>>,
                                   preferences: Option<Preferences>, cfg: TP.ServiceConfig, now: TP.TimeOfDay)
    ensures var merged := if tollFree.Some? then Merged(candidates, tollFree.value) else candidates;
      Handle(candidates, tollFree, preferences, cfg, now).Optimized? <==>
        merged != [] && !(preferences.Some? && preferences.value.tollBudget.None?)
    ensures var merged := if tollFree.Some? then Merged(candidates, tollFree.value) else candidates;
      Handle(candidates, tollFree, preferences, cfg, now).Optimized? ==>
        Handle(candidates, tollFree, preferences, cfg, now).result ==
          RO.Optimize(TP.EstimateAll(cfg, merged, now), BudgetLookup(preferences).x)
  {
    BudgetChoice(preferences);
  }
}
