/**
 * The guarantees of `optimize_routes`, stated on the input routes and the
 * budget: the result of `RoutingOptimizer.Optimize`, which the method
 * `RoutingOptimizer.OptimizeRoutes` computes.
 */
module OptimizeProperties {
  import opened Wrappers
  import opened Routes
  import opened RoutingOptimizer
  import opened RankingProperties

  function TollOf(route: RouteCandidate): real {
    route.toll.GetOr(0.0)
  }

  /** `routes[k]` is the route `min(..., key=toll)` picks: the first of least toll. */
  predicate CheapestAt(routes: seq<RouteCandidate>, k: int) {
    0 <= k < |routes| &&
    (forall j :: 0 <= j < |routes| ==> TollOf(routes[k]) <= TollOf(routes[j])) &&
    (forall j :: 0 <= j < k ==> TollOf(routes[k]) < TollOf(routes[j]))
  }

  /** `routes[k]` is the route `min(..., key=eta)` picks: the first of least ETA. */
  predicate FastestAt(routes: seq<RouteCandidate>, k: int) {
    0 <= k < |routes| &&
    (forall j :: 0 <= j < |routes| ==> routes[k].etaSeconds <= routes[j].etaSeconds) &&
    (forall j :: 0 <= j < k ==> routes[k].etaSeconds < routes[j].etaSeconds)
  }

  predicate Affordable(route: RouteCandidate, budget: real) {
    TollOf(route) <= budget
  }

  /** `routes[k]` is the first route of least ETA among those within budget. */
  predicate FastestAffordableAt(routes: seq<RouteCandidate>, budget: real, k: int) {
    0 <= k < |routes| && Affordable(routes[k], budget) &&
    (forall j :: 0 <= j < |routes| && Affordable(routes[j], budget) ==> routes[k].etaSeconds <= routes[j].etaSeconds) &&
    (forall j :: 0 <= j < k && Affordable(routes[j], budget) ==> routes[k].etaSeconds < routes[j].etaSeconds)
  }

  // ---------------------------------------------------------------- from the annotated routes back to the input

  lemma CheapestIndex(routes: seq<RouteCandidate>, budget: real) returns (k: nat)
    requires routes != []
    ensures var rs := AnnotateAll(routes, budget);
      rs != [] && CheapestAt(routes, k) && Cheapest(rs) == rs[k]
  {
    var rs := AnnotateAll(routes, budget);
    k := ArgMin(Tolls(rs));
    assert forall j :: 0 <= j < |routes| ==> Tolls(rs)[j] == TollOf(routes[j]);
  }

  lemma FastestIndex(routes: seq<RouteCandidate>, budget: real) returns (k: nat)
    requires routes != []
    ensures var rs := AnnotateAll(routes, budget);
      rs != [] && FastestAt(routes, k) && Quickest(rs) == rs[k]
  {
    var rs := AnnotateAll(routes, budget);
    k := ArgMin(Etas(rs));
    assert forall j :: 0 <= j < |routes| ==> Etas(rs)[j] == routes[j].etaSeconds as real;
  }

  lemma AffordableAgrees(routes: seq<RouteCandidate>, budget: real)
    ensures SomeWithin(AnnotateAll(routes, budget)) <==> exists i :: 0 <= i < |routes| && Affordable(routes[i], budget)
    ensures forall k :: FastestWithinAt(AnnotateAll(routes, budget), k) <==> FastestAffordableAt(routes, budget, k)
  {
    var rs := AnnotateAll(routes, budget);
    assert forall i :: 0 <= i < |routes| ==> (rs[i].status == Within <==> Affordable(routes[i], budget));
    if SomeWithin(rs) {
      var a :| a in rs && a.status == Within;
      var i :| 0 <= i < |rs| && rs[i] == a;
    }
    if i :| 0 <= i < |routes| && Affordable(routes[i], budget) {
      assert rs[i] in rs;
    }
  }

  // ---------------------------------------------------------------- the ranking

  /** The first entry is the cheapest route, with priority 1, presented as
      toll-free exactly when its toll is under 50 cents. */
  lemma CheapestFirst(routes: seq<RouteCandidate>, budget: real)
    requires routes != []
    ensures var r := Optimize(routes, budget).ranked;
      |r| >= 1 && r[0].priority == 1 &&
      exists k :: CheapestAt(routes, k) && r[0].route == Annotate(routes[k], budget) &&
        (r[0].reason.TollFree? || r[0].reason.LowestToll?) &&
        (r[0].reason.TollFree? <==> TollOf(routes[k]) < TollFreeThreshold)
  {
    var rs := AnnotateAll(routes, budget);
    OptimizeRanked(routes, budget);
    RankedFirst(rs);
    var k := CheapestIndex(routes, budget);
    assert rs[k] == Annotate(routes[k], budget);
  }

  /** The fastest route comes second, with priority 2, unless it has the
      cheapest route's id; then no entry is marked as the fastest. */
  lemma FastestSecond(routes: seq<RouteCandidate>, budget: real)
    requires routes != []
    ensures var r := Optimize(routes, budget).ranked;
      |r| >= 1 &&
      exists k :: FastestAt(routes, k) &&
        (routes[k].routeId != r[0].route.routeId ==>
           |r| >= 2 &&
           r[1] == RankedRoute(Annotate(routes[k], budget), Fastest(Minutes(routes[k].etaSeconds), TollOf(routes[k])), 2)) &&
        (routes[k].routeId == r[0].route.routeId ==> forall i :: 0 <= i < |r| ==> !r[i].reason.Fastest?)
  {
    var rs := AnnotateAll(routes, budget);
    OptimizeRanked(routes, budget);
    RankedFirst(rs);
    RankedSecond(rs);
    var k := FastestIndex(routes, budget);
    assert rs[k] == Annotate(routes[k], budget);
  }

  /** Priority 1 first; the second entry has priority 2 when it is the
      fastest route and 3 otherwise; from there priorities count up by one. */
  lemma PrioritiesCountUp(routes: seq<RouteCandidate>, budget: real)
    requires routes != []
    ensures var r := Optimize(routes, budget).ranked;
      |r| >= 1 && r[0].priority == 1 &&
      (|r| >= 2 ==> r[1].priority == if r[1].reason.Fastest? then 2 else 3) &&
      (forall i :: 1 <= i < |r| - 1 ==> r[i + 1].priority == r[i].priority + 1)
  {
    var rs := AnnotateAll(routes, budget);
    OptimizeRanked(routes, budget);
    RankedNumbered(rs);
    RankedReasons(rs);
    if |Ranked(rs)| >= 2 {
      assert ReasonPlaced(Ranked(rs)[1], 1, Offset(rs), Recommendation(rs));
    }
  }

  /** Each reason agrees with the entry's place and route: the cheapest route's
      reason only first, the fastest's only second, the recommendation only on
      the recommended id and a route within budget, "within budget" only on
      such a route, and the overage only on a route over budget, by its
      rounded excess (`Annotate` ties the status to the toll). */
  lemma ReasonsAgree(routes: seq<RouteCandidate>, budget: real)
    requires routes != []
    ensures var res := Optimize(routes, budget);
      forall k :: 0 <= k < |res.ranked| ==>
        var e := res.ranked[k];
        ((e.reason.TollFree? || e.reason.LowestToll?) <==> k == 0) &&
        (e.reason.Fastest? ==> k == 1) &&
        (e.reason.Recommended? ==> res.recommendedId == Some(e.route.routeId) && e.route.status == Within) &&
        (e.reason.WithinBudget? ==> e.reason.minutesBehind >= 0.0 && e.route.status == Within) &&
        (e.reason.ExceedsBudget? ==> e.route.status == Exceeds && e.reason.overage == e.route.exceedsBy)
  {
    var rs := AnnotateAll(routes, budget);
    OptimizeRanked(routes, budget);
    Stages(routes, budget);
    RankedReasons(rs);
  }

  /** Entries over budget come last, in ascending ETA; entries within budget
      after the first two come in ascending ETA. */
  lemma RankingOrder(routes: seq<RouteCandidate>, budget: real)
    ensures ExceedingLast(Optimize(routes, budget).ranked)
    ensures WithinAscending(Optimize(routes, budget).ranked)
  {
    if routes != [] {
      OptimizeRanked(routes, budget);
      RankedOrder(AnnotateAll(routes, budget));
    }
  }

  /** Every ranked entry is one of the annotated input routes. */
  lemma RankedAreInputs(routes: seq<RouteCandidate>, budget: real)
    ensures var r := Optimize(routes, budget).ranked;
      forall k :: 0 <= k < |r| ==> r[k].route in AnnotateAll(routes, budget)
  {
    if routes != [] {
      OptimizeRanked(routes, budget);
      RankedFromRoutes(AnnotateAll(routes, budget));
    }
  }

  /** Where the id of `routes[i]` is ranked. */
  lemma RankedIdOf(routes: seq<RouteCandidate>, budget: real, i: int) returns (k: nat)
    requires 0 <= i < |routes|
    ensures var r := Optimize(routes, budget).ranked;
      k < |r| && r[k].route.routeId == routes[i].routeId
  {
    var rs := AnnotateAll(routes, budget);
    OptimizeRanked(routes, budget);
    k := RankedIdIndex(rs, i);
  }

  /** The id of every input route is ranked. */
  lemma EveryIdRanked(routes: seq<RouteCandidate>, budget: real)
    ensures var r := Optimize(routes, budget).ranked;
      forall i :: 0 <= i < |routes| ==> exists k :: 0 <= k < |r| && r[k].route.routeId == routes[i].routeId
  {
    forall i | 0 <= i < |routes|
      ensures exists k ::
                0 <= k < |Optimize(routes, budget).ranked| &&
                Optimize(routes, budget).ranked[k].route.routeId == routes[i].routeId
    {
      var k := RankedIdOf(routes, budget, i);
    }
  }

  predicate DistinctRouteIds(routes: seq<RouteCandidate>) {
    forall i, j :: 0 <= i < j < |routes| ==> routes[i].routeId != routes[j].routeId
  }

  /** With distinct ids the ranking lists every annotated route exactly once. */
  lemma DistinctIdsPermutation(routes: seq<RouteCandidate>, budget: real)
    requires DistinctRouteIds(routes)
    ensures var r := Optimize(routes, budget).ranked;
      |r| == |routes| && multiset(RoutesOf(r)) == multiset(AnnotateAll(routes, budget))
  {
    if routes != [] {
      var rs := AnnotateAll(routes, budget);
      OptimizeRanked(routes, budget);
      assert DistinctIds(rs);
      RankedPermutation(rs);
    }
  }

  // ---------------------------------------------------------------- recommendation and advisories

  /** The recommendation is the first fastest route within budget or, when
      none is within budget, the cheapest route. */
  lemma RecommendsFastestWithinBudget(routes: seq<RouteCandidate>, budget: real)
    requires routes != []
    ensures var rec := Optimize(routes, budget).recommendedId;
      ((exists i :: 0 <= i < |routes| && Affordable(routes[i], budget)) ==>
         exists k :: FastestAffordableAt(routes, budget, k) && rec == Some(routes[k].routeId)) &&
      ((forall i :: 0 <= i < |routes| ==> !Affordable(routes[i], budget)) ==>
         exists k :: CheapestAt(routes, k) && rec == Some(routes[k].routeId))
  {
    var rs := AnnotateAll(routes, budget);
    Stages(routes, budget);
    RecommendationChoice(rs);
    AffordableAgrees(routes, budget);
    var c := CheapestIndex(routes, budget);
    if SomeWithin(rs) {
      var k :| FastestWithinAt(rs, k) && Recommendation(rs) == rs[k].routeId;
      assert FastestAffordableAt(routes, budget, k);
    }
  }

  /** No routes: no recommendation and the "no routes" advisory. Otherwise the
      "no route within budget" advisory exactly when every toll exceeds it. */
  lemma AdvisoriesAgree(routes: seq<RouteCandidate>, budget: real)
    ensures Optimize(routes, budget).advisories ==
      if routes == [] then [NoRoutesAvailable]
      else if exists i :: 0 <= i < |routes| && Affordable(routes[i], budget) then []
      else [NoRoutesWithinBudget(budget)]
    ensures Optimize(routes, budget).recommendedId.None? <==> routes == []
  {
    if routes != [] {
      Stages(routes, budget);
      AdvisoriesChoice(AnnotateAll(routes, budget), budget);
      AffordableAgrees(routes, budget);
    }
  }

  /** Two routes within budget sharing an id: only the cheaper, slower one
      is ranked; the faster is dropped from the result. */
  lemma SharedIdDropsRoute()
    ensures var routes := [RouteCandidate("mapbox_route_0", 900, 10000, Some(0.0), "", None),
                           RouteCandidate("mapbox_route_0", 600, 12000, Some(1.0), "", None)];
      Optimize(routes, 5.0).ranked == [RankedRoute(Annotate(routes[0], 5.0), TollFree(15.0), 1)]
  {
    var routes := [RouteCandidate("mapbox_route_0", 900, 10000, Some(0.0), "", None),
                   RouteCandidate("mapbox_route_0", 600, 12000, Some(1.0), "", None)];
    var slow, fast := Annotate(routes[0], 5.0), Annotate(routes[1], 5.0);
    assert slow == Annotated("mapbox_route_0", 900, 10000, 0.0, Within, 0.0, "", None);
    assert fast == Annotated("mapbox_route_0", 600, 12000, 1.0, Within, 0.0, "", None);
    assert AnnotateAll(routes, 5.0) == [slow, fast];
    OptimizeRanked(routes, 5.0);
    SharedIdRanking(slow, fast);
  }
}
