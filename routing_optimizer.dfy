/**
 * The budget-aware route ranking (`RoutingOptimizer.optimize_routes`).
 * Every priced route is annotated with its budget status; the cheapest
 * route is listed first, the fastest second, then the remaining routes
 * within budget by ETA, then every route not yet listed by ETA. The method
 * `OptimizeRoutes` builds the ranking step by step as the source does and
 * is proved to compute `Optimize`; ranking_properties.dfy proves what the
 * ranking guarantees.
 */
module RoutingOptimizer {
  import opened Wrappers
  import opened Routes
  import opened Money

  datatype BudgetStatus = Within | Exceeds

  /** A route as the optimizer annotates it; an unset toll counts as 0. */
  datatype Annotated = Annotated(
    routeId: string,
    etaSeconds: int,
    distanceMeters: int,
    toll: real,
    status: BudgetStatus,
    exceedsBy: real,
    polyline: string,
    geometry: Option<Geometry>)

  /** The `reason` text of a ranked route, as the numbers it is formatted from. */
  datatype Reason =
    | TollFree(minutes: real)
    | LowestToll(toll: real, minutes: real)
    | Fastest(minutes: real, toll: real)
    | Recommended
    | WithinBudget(minutesBehind: real)
    | ExceedsBudget(overage: real)

  datatype RankedRoute = RankedRoute(route: Annotated, reason: Reason, priority: nat)

  datatype Advisory = NoRoutesAvailable | NoRoutesWithinBudget(budget: real)

  datatype OptimizationResult = OptimizationResult(
    budget: real,
    recommendedId: Option<string>,
    ranked: seq<RankedRoute>,
    advisories: seq<Advisory>)

  /** A cheapest route below 50 cents is presented as toll-free. */
  const TollFreeThreshold: real := 0.50

  function Minutes(seconds: int): real {
    seconds as real / 60.0
  }

  // ---------------------------------------------------------------- annotation

  /** A route is within budget exactly when its toll (0 when unset) is at
      most the budget; otherwise it exceeds it by the rounded overage. */
  function Annotate(route: RouteCandidate, budget: real): (a: Annotated)
    ensures a.routeId == route.routeId && a.etaSeconds == route.etaSeconds
    ensures a.distanceMeters == route.distanceMeters
    ensures a.polyline == route.polyline && a.geometry == route.geometry
    ensures a.toll == route.toll.GetOr(0.0)
    ensures a.status == Within <==> a.toll <= budget
    ensures a.exceedsBy >= 0.0
    ensures a.status == Within ==> a.exceedsBy == 0.0
    ensures a.status == Exceeds ==>
      IsWholeCents(a.exceedsBy) && a.toll - budget - 0.005 <= a.exceedsBy <= a.toll - budget + 0.005
  {
    var toll := route.toll.GetOr(0.0);
    Annotated(route.routeId, route.etaSeconds, route.distanceMeters, toll,
              if toll <= budget then Within else Exceeds,
              Max(0.0, RoundToCents(toll - budget)),
              route.polyline, route.geometry)
  }

  function AnnotateAll(routes: seq<RouteCandidate>, budget: real): (rs: seq<Annotated>)
    ensures |rs| == |routes|
    ensures forall i :: 0 <= i < |routes| ==> rs[i] == Annotate(routes[i], budget)
  {
    seq(|routes|, i requires 0 <= i < |routes| => Annotate(routes[i], budget))
  }

  function Tolls(rs: seq<Annotated>): (keys: seq<real>)
    ensures |keys| == |rs| && forall i :: 0 <= i < |rs| ==> keys[i] == rs[i].toll
  {
    seq(|rs|, i requires 0 <= i < |rs| => rs[i].toll)
  }

  function Etas(rs: seq<Annotated>): (keys: seq<real>)
    ensures |keys| == |rs| && forall i :: 0 <= i < |rs| ==> keys[i] == rs[i].etaSeconds as real
  {
    seq(|rs|, i requires 0 <= i < |rs| => rs[i].etaSeconds as real)
  }

  // ---------------------------------------------------------------- min and sorted

  /** Python's `min(..., key=...)`: the position of the least key, the first
      such position when several keys tie. */
  function ArgMin(keys: seq<real>): (k: nat)
    requires |keys| > 0
    ensures k < |keys|
    ensures forall j :: 0 <= j < |keys| ==> keys[k] <= keys[j]
    ensures forall j :: 0 <= j < k ==> keys[k] < keys[j]
    decreases |keys|
  {
    if |keys| == 1 then 0
    else
      var m := ArgMin(keys[..|keys| - 1]);
      if keys[|keys| - 1] < keys[m] then |keys| - 1 else m
  }

  predicate SortedByEta(xs: seq<Annotated>) {
    forall i, j :: 0 <= i < j < |xs| ==> xs[i].etaSeconds <= xs[j].etaSeconds
  }

  /** Every ETA in `xs` is at least `lo`. */
  predicate AtLeast(xs: seq<Annotated>, lo: int) {
    forall k :: 0 <= k < |xs| ==> lo <= xs[k].etaSeconds
  }

  /** Puts `x` after every leading element whose ETA is not larger than its own. */
  function InsertByEta(xs: seq<Annotated>, x: Annotated): (r: seq<Annotated>)
    ensures multiset(r) == multiset(xs) + multiset{x}
    decreases |xs|
  {
    if xs == [] || x.etaSeconds < xs[0].etaSeconds then [x] + xs
    else
      assert xs == [xs[0]] + xs[1..];
      [xs[0]] + InsertByEta(xs[1..], x)
  }

  lemma {:induction false} InsertAtLeast(xs: seq<Annotated>, x: Annotated, lo: int)
    requires AtLeast(xs, lo) && lo <= x.etaSeconds
    ensures AtLeast(InsertByEta(xs, x), lo)
    decreases |xs|
  {
    if xs != [] && x.etaSeconds >= xs[0].etaSeconds {
      InsertAtLeast(xs[1..], x, lo);
    }
  }

  /** Inserting into a sorted list keeps it sorted. */
  lemma {:induction false} InsertSorted(xs: seq<Annotated>, x: Annotated)
    requires SortedByEta(xs)
    ensures SortedByEta(InsertByEta(xs, x))
    decreases |xs|
  {
    if xs != [] && x.etaSeconds >= xs[0].etaSeconds {
      InsertSorted(xs[1..], x);
      InsertAtLeast(xs[1..], x, xs[0].etaSeconds);
    }
  }

  /** Python's `sorted(..., key=eta)`: ascending ETA, a permutation of the input. */
  function SortByEta(xs: seq<Annotated>): (r: seq<Annotated>)
    ensures SortedByEta(r)
    ensures multiset(r) == multiset(xs)
    ensures |r| == |xs|
    decreases |xs|
  {
    if xs == [] then []
    else
      assert xs == xs[..|xs| - 1] + [xs[|xs| - 1]];
      var sortedInit := SortByEta(xs[..|xs| - 1]);
      InsertSorted(sortedInit, xs[|xs| - 1]);
      var r := InsertByEta(sortedInit, xs[|xs| - 1]);
      assert |r| == |multiset(r)|;
      r
  }

  // ---------------------------------------------------------------- filters

  /** The routes within budget, in input order. */
  function WithinOnly(rs: seq<Annotated>): seq<Annotated>
    decreases |rs|
  {
    if rs == [] then []
    else WithinOnly(rs[..|rs| - 1]) + if rs[|rs| - 1].status == Within then [rs[|rs| - 1]] else []
  }

  /** The routes whose id is not in `added`, in input order. */
  function NotAdded(rs: seq<Annotated>, added: set<string>): seq<Annotated>
    decreases |rs|
  {
    if rs == [] then []
    else NotAdded(rs[..|rs| - 1], added) + if rs[|rs| - 1].routeId !in added then [rs[|rs| - 1]] else []
  }

  /** `WithinOnly` keeps exactly the routes within budget. */
  lemma {:induction false} WithinOnlyMembers(rs: seq<Annotated>)
    ensures forall w :: w in WithinOnly(rs) <==> w in rs && w.status == Within
    decreases |rs|
  {
    if rs != [] {
      var init := rs[..|rs| - 1];
      assert rs == init + [rs[|rs| - 1]];
      WithinOnlyMembers(init);
    }
  }

  /** `NotAdded` keeps exactly the routes whose id is not in `added`. */
  lemma {:induction false} NotAddedMembers(rs: seq<Annotated>, added: set<string>)
    ensures forall x :: x in NotAdded(rs, added) <==> x in rs && x.routeId !in added
    decreases |rs|
  {
    if rs != [] {
      var init := rs[..|rs| - 1];
      assert rs == init + [rs[|rs| - 1]];
      NotAddedMembers(init, added);
    }
  }

  // ---------------------------------------------------------------- display order

  /** The display order built so far, the ids it holds, and the next priority. */
  datatype Display = Display(ranked: seq<RankedRoute>, added: set<string>, priority: nat)

  function CheapestReason(r: Annotated): Reason {
    if r.toll < TollFreeThreshold then TollFree(Minutes(r.etaSeconds))
    else LowestToll(r.toll, Minutes(r.etaSeconds))
  }

  /** Steps 1 and 2: the cheapest route with priority 1, then the fastest
      with priority 2 unless it has the cheapest route's id; counting goes on
      at 3 either way. */
  function Leaders(noToll: Annotated, fastest: Annotated): Display {
    var first := [RankedRoute(noToll, CheapestReason(noToll), 1)];
    if fastest.routeId != noToll.routeId then
      Display(first + [RankedRoute(fastest, Fastest(Minutes(fastest.etaSeconds), fastest.toll), 2)],
              {noToll.routeId, fastest.routeId}, 3)
    else Display(first, {noToll.routeId}, 3)
  }

  /** One turn of step 3: a route within budget whose id is not yet listed. */
  function PlaceWithin(d: Display, r: Annotated, leaderEta: int, recommendedId: string): Display {
    if r.routeId in d.added then d
    else
      var reason :=
        if r.routeId == recommendedId then Recommended
        else WithinBudget(Minutes(r.etaSeconds - leaderEta));
      Display(d.ranked + [RankedRoute(r, reason, d.priority)], d.added + {r.routeId}, d.priority + 1)
  }

  function PlacedWithin(d: Display, ws: seq<Annotated>, leaderEta: int, recommendedId: string): Display
    decreases |ws|
  {
    if ws == [] then d
    else PlaceWithin(PlacedWithin(d, ws[..|ws| - 1], leaderEta, recommendedId), ws[|ws| - 1], leaderEta, recommendedId)
  }

  /** One turn of step 4: a route not listed so far; its id is not recorded. */
  function PlaceExceeding(d: Display, r: Annotated): Display {
    Display(d.ranked + [RankedRoute(r, ExceedsBudget(r.exceedsBy), d.priority)], d.added, d.priority + 1)
  }

  function PlacedExceeding(d: Display, xs: seq<Annotated>): Display
    decreases |xs|
  {
    if xs == [] then d
    else PlaceExceeding(PlacedExceeding(d, xs[..|xs| - 1]), xs[|xs| - 1])
  }

  /** The recommended id: the fastest route within budget (the head of the
      ETA-sorted list), or the cheapest route when none is within budget. */
  function RecommendedId(noToll: Annotated, withinSorted: seq<Annotated>): string {
    if withinSorted != [] then withinSorted[0].routeId else noToll.routeId
  }

  function LeaderEta(withinSorted: seq<Annotated>): int {
    if withinSorted != [] then withinSorted[0].etaSeconds else 0
  }

  function Advisories(within: seq<Annotated>, budget: real): seq<Advisory> {
    if within == [] then [NoRoutesWithinBudget(budget)] else []
  }

  /** The display order and advisories, given the annotated routes, the
      cheapest and the fastest of them, and those within budget. */
  function Ranking(annotated: seq<Annotated>, noToll: Annotated, fastest: Annotated,
                   within: seq<Annotated>, budget: real): OptimizationResult
  {
    var withinSorted := SortByEta(within);
    var recommendedId := RecommendedId(noToll, withinSorted);
    var placed := PlacedWithin(Leaders(noToll, fastest), withinSorted, LeaderEta(withinSorted), recommendedId);
    var done := PlacedExceeding(placed, SortByEta(NotAdded(annotated, placed.added)));
    OptimizationResult(budget, Some(recommendedId), done.ranked, Advisories(within, budget))
  }

  /** `optimize_routes`, as a function of the priced routes and the budget. */
  function Optimize(routes: seq<RouteCandidate>, budget: real): OptimizationResult {
    if routes == [] then OptimizationResult(budget, None, [], [NoRoutesAvailable])
    else
      var annotated := AnnotateAll(routes, budget);
      Ranking(annotated, annotated[ArgMin(Tolls(annotated))], annotated[ArgMin(Etas(annotated))],
              WithinOnly(annotated), budget)
  }

  // ---------------------------------------------------------------- the procedure

  /** The annotation loop of `optimize_routes`. */
  method AnnotateRoutes(routes: seq<RouteCandidate>, budget: real) returns (annotated: seq<Annotated>)
    ensures annotated == AnnotateAll(routes, budget)
  {
    annotated := [];
    for i := 0 to |routes|
      invariant |annotated| == i
      invariant forall k :: 0 <= k < i ==> annotated[k] == Annotate(routes[k], budget)
    {
      annotated := annotated + [Annotate(routes[i], budget)];
    }
  }

  /** The comprehension selecting the routes within budget, in input order. */
  method KeepWithin(annotated: seq<Annotated>) returns (within: seq<Annotated>)
    ensures within == WithinOnly(annotated)
  {
    within := [];
    for i := 0 to |annotated|
      invariant within == WithinOnly(annotated[..i])
    {
      if annotated[i].status == Within {
        within := within + [annotated[i]];
      }
      assert annotated[..i + 1][..i] == annotated[..i];
    }
    assert annotated[..|annotated|] == annotated;
  }

  /** The comprehension selecting the routes whose id is not listed yet, in input order. */
  method KeepNotAdded(annotated: seq<Annotated>, added: set<string>) returns (rest: seq<Annotated>)
    ensures rest == NotAdded(annotated, added)
  {
    rest := [];
    for i := 0 to |annotated|
      invariant rest == NotAdded(annotated[..i], added)
    {
      if annotated[i].routeId !in added {
        rest := rest + [annotated[i]];
      }
      assert annotated[..i + 1][..i] == annotated[..i];
    }
    assert annotated[..|annotated|] == annotated;
  }


  /** Step 3: each route within budget, in ETA order, whose id is not listed
      yet is listed as the recommendation or with its minutes behind the
      fastest route within budget. */
  method PlaceWithinBudget(display0: seq<RankedRoute>, added0: set<string>, priority0: nat,
                           withinSorted: seq<Annotated>, recommendedId: string)
    returns (display: seq<RankedRoute>, addedIds: set<string>, priority: nat)
    ensures Display(display, addedIds, priority) ==
      PlacedWithin(Display(display0, added0, priority0), withinSorted, LeaderEta(withinSorted), recommendedId)
  {
    display, addedIds, priority := display0, added0, priority0;
    for k := 0 to |withinSorted|
      invariant Display(display, addedIds, priority) ==
        PlacedWithin(Display(display0, added0, priority0), withinSorted[..k], LeaderEta(withinSorted), recommendedId)
    {
      var route := withinSorted[k];
      if route.routeId !in addedIds {
        var reason;
        if route.routeId == recommendedId {
          reason := Recommended;
        } else {
          reason := WithinBudget(Minutes(route.etaSeconds - withinSorted[0].etaSeconds));
        }
        display := display + [RankedRoute(route, reason, priority)];
        addedIds := addedIds + {route.routeId};
        priority := priority + 1;
      }
      assert withinSorted[..k + 1][..k] == withinSorted[..k];
    }
    assert withinSorted[..|withinSorted|] == withinSorted;
  }

  /** Step 4: every remaining route, in ETA order, with the amount it exceeds
      the budget by; the listed ids are not updated. */
  method PlaceRest(display0: seq<RankedRoute>, addedIds: set<string>, priority0: nat, rest: seq<Annotated>)
    returns (display: seq<RankedRoute>, priority: nat)
    ensures Display(display, addedIds, priority) == PlacedExceeding(Display(display0, addedIds, priority0), rest)
  {
    display, priority := display0, priority0;
    for k := 0 to |rest|
      invariant Display(display, addedIds, priority) == PlacedExceeding(Display(display0, addedIds, priority0), rest[..k])
    {
      var route := rest[k];
      display := display + [RankedRoute(route, ExceedsBudget(route.exceedsBy), priority)];
      priority := priority + 1;
      assert rest[..k + 1][..k] == rest[..k];
    }
    assert rest[..|rest|] == rest;
  }

  /** `optimize_routes` from the choice of the recommended route on: the
      display order is grown with a set of listed ids and a priority counter. */
  method RankRoutes(annotated: seq<Annotated>, noTollRoute: Annotated, fastestOverall: Annotated,
                    within: seq<Annotated>, budget: real) returns (result: OptimizationResult)
    ensures result == Ranking(annotated, noTollRoute, fastestOverall, within, budget)
  {
    var withinSorted := SortByEta(within);
    var recommendedId := if |withinSorted| > 0 then withinSorted[0].routeId else noTollRoute.routeId;

    // 1. the cheapest route
    var display := [RankedRoute(noTollRoute, CheapestReason(noTollRoute), 1)];
    var addedIds := {noTollRoute.routeId};

    // 2. the fastest route, unless its id is already listed
    if fastestOverall.routeId !in addedIds {
      display := display + [RankedRoute(fastestOverall, Fastest(Minutes(fastestOverall.etaSeconds), fastestOverall.toll), 2)];
      addedIds := addedIds + {fastestOverall.routeId};
    }
    assert Display(display, addedIds, 3) == Leaders(noTollRoute, fastestOverall);

    // 3. the other routes within budget, by ETA
    var priority;
    display, addedIds, priority := PlaceWithinBudget(display, addedIds, 3, withinSorted, recommendedId);

    // 4. every route not listed yet, by ETA
    var exceeding := KeepNotAdded(annotated, addedIds);
    display, priority := PlaceRest(display, addedIds, priority, SortByEta(exceeding));

    var advisories: seq<Advisory> := [];
    if within == [] {
      advisories := [NoRoutesWithinBudget(budget)];
    }
    result := OptimizationResult(budget, Some(recommendedId), display, advisories);
  }

  /** `optimize_routes`: annotates the routes in a loop, picks the cheapest
      and the fastest, selects those within budget, then ranks them. The
      routes are only read. */
  method OptimizeRoutes(routes: seq<RouteCandidate>, budget: real) returns (result: OptimizationResult)
    ensures result == Optimize(routes, budget)
    ensures routes == [] ==> result == OptimizationResult(budget, None, [], [NoRoutesAvailable])
  {
    if |routes| == 0 {
      return OptimizationResult(budget, None, [], [NoRoutesAvailable]);
    }

    var annotated := AnnotateRoutes(routes, budget);
    var noTollRoute := annotated[ArgMin(Tolls(annotated))];
    var fastestOverall := annotated[ArgMin(Etas(annotated))];
    var within := KeepWithin(annotated);
    result := RankRoutes(annotated, noTollRoute, fastestOverall, within, budget);
  }
}
