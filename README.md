# tabmap-backend: toll estimation and budget-aware route ranking

This project models the core of tabmap-backend, a routing service for Texas drivers. The service fetches route
candidates from a directions provider and prices each route's tolls. It then ranks the routes against the
driver's toll budget. Four parts are modelled:

- **Toll estimation** (`TexasTollService`, `AustinTollService`).
  - Each step of each leg of a route becomes a road segment with a name and a distance.
  - Each lowercased name is looked up in a facility table. The first facility in table order with a
    pattern found in the name wins.
  - A matched segment costs its miles times the facility's rate per mile. Time-of-day and congestion
    pricing apply when the service and the facility enable them. Without a toll tag the rate is 1.5 times
    higher.
  - A route without segments gets a distance-based fallback estimate instead.
  - `estimate_tolls` fills in, rounded to cents, every toll that is not set yet.
  - The two services run the same algorithm, so it is stated once (`TollPricing`) over a table and two
    flags. `AustinTolls` holds the 6-entry Austin table and `TexasTolls` the 21-entry Texas table.
  - The class `TollEstimation.TollService` implements the algorithm step by step, updating the route list
    in place. Each of its methods is proved to compute the matching rule.
- **Route ranking** (`RoutingOptimizer.optimize_routes`).
  - Every route is annotated as within budget or over it, together with its overage.
  - The ranking lists the cheapest route first and the fastest second, unless the fastest shares the
    cheapest route's id. The rest of the routes within budget follow in ETA order, then every route not
    yet listed, in ETA order.
  - The recommendation is the fastest route within budget, or the cheapest route when none is within
    budget.
  - The method `OptimizeRoutes` builds the ranking as the source does. It is proved equal to the function
    `Optimize`, and `RankingProperties` and `OptimizeProperties` prove what the ranking guarantees.
- **The `/optimize` handler** (`routes/optimize.py`).
  - The coordinate validator of the request model.
  - The loop that merges toll-free candidates into the directions results.
  - The budget lookup with its 10.0 default.
  - The path from the merged candidates to not-found, to a server error, or to the optimizer's result.
  - The conversion of that result into the response model, which as written always fails with a 400.

Routes, tolls and rankings are values: a function takes the routes and returns new ones. So the optimizer
and the handler only read their input routes, as the source does. The source pops `route_obj` from the
annotated dictionaries it builds, but it never modifies a `RouteCandidate`. The toll service updates the
routes in place, as an array in `TollService.EstimateTolls`.

The lookup tables have two notable consequences, proved as lemmas.

- The Texas service resolves the road name "interstate 35" to the North Tarrant Express, because "nte"
  occurs inside "interstate". The Austin table has no such pattern and leaves the name unmatched.
- The San Antonio facility `sh_130_south` can never be returned. Each of its patterns extends a pattern of
  the earlier entry `sh130_toll`.

Two inconsistencies in the code are kept as written.

- `_fallback_toll_estimate` converts meters to miles through kilometers times 0.621371
  (services/texas_toll_service.py:379-380). The segment loop divides by 1609.34 instead (line 278).
- routes/optimize.py:42-47 declares `no_toll_option`, `budget_option` and `alternatives` as required
  response fields. The optimizer returns `budget_usd`, `recommended_route_id`, `routes_ranked` and
  `advisories` (services/routing_optimizer.py:121-126). The consequence is under "## Findings".

## Model

| member | source | states |
|---|---|---|
| Money.RoundToCents | services/texas_toll_service.py:253 | `round(x, 2)` gives a whole number of cents within half a cent of `x` and keeps the sign of `x` |
| Patterns.LowerNormalises | services/texas_toll_service.py:277 | after `lower()` no ASCII capital is left: each capital becomes a small letter, every other character is kept, and lowercasing again changes nothing |
| Patterns.SearchPrefix | services/texas_toll_service.py:333 | a name in which a pattern followed by more `.*` pieces is found also contains the shorter pattern |
| Patterns.LiteralSearch | services/texas_toll_service.py:333 | a one-piece literal pattern is found in a name exactly when its text is a substring of the name |
| Patterns.LackingPatternNotFound | services/texas_toll_service.py:333 | a pattern that spells a character the name does not contain is not found in it |
| TollPricing.FirstMatchFrom | services/texas_toll_service.py:331-334 | the index found is a facility at or after the start whose patterns match the name |
| TollPricing.IdentifyTollRoad | services/texas_toll_service.py:317-336 | defines `_identify_toll_road`; gives none for the empty name, and a facility it gives is a table entry one of whose patterns is found in the name (the least such entry, by `IdentifyIsFirstMatch`) |
| TollPricing.FirstMatchIsLeast | services/texas_toll_service.py:331-336 | nothing is found exactly when no facility from the start on matches; a found index has no match before it |
| TollPricing.IdentifyIsFirstMatch | services/texas_toll_service.py:327-336 | the lookup gives none exactly when the name is empty or no facility matches; otherwise it gives the table entry of least index that matches |
| TollPricing.IdentifiedIsEntry | services/texas_toll_service.py:331-334 | a looked-up facility is an entry of the table |
| TollPricing.LackingFacilityUnmatched | services/texas_toll_service.py:332-333 | a facility each of whose patterns needs a character the name lacks does not match it |
| TollPricing.SkipRange | services/texas_toll_service.py:331-334 | the first-match search passes over a run of entries that need characters the name lacks |
| TollPricing.LookupInConcatenation | services/texas_toll_service.py:331-336 | looking up in two tables laid end to end gives the first table's answer, or the second's when the first finds nothing |
| TollPricing.Shadowed | services/texas_toll_service.py:331-334 | a later facility whose patterns all extend the patterns of an earlier facility is never returned |
| TollPricing.TimeOfDayMultiplier | services/texas_toll_service.py:348-359 | peak multiplier 07:00-09:30 and 16:30-19:00, 1.3 from 11:00 to 14:00, 0.6 from 21:00 to 06:00, 1.0 otherwise, all ends included |
| TollPricing.DynamicMultiplier | services/texas_toll_service.py:338-373 | defines the factor `_apply_dynamic_pricing` applies to the base rate: the time-of-day factor, raised by 1.4 and capped at the peak multiplier on a congested route for a congestion-sensitive facility; bounded by `DynamicMultiplierBounds` |
| TollPricing.DynamicMultiplierBounds | services/texas_toll_service.py:342-373 | on a congested route a congestion-sensitive facility's factor is min(time factor × 1.4, peak); otherwise it is the time factor; with peak ≥ 1.3 the factor lies in [0.6, peak] |
| TollPricing.RoadSegmentsCount | services/texas_toll_service.py:301-315 | extraction gives exactly one segment per step of the legs that have steps, so it gives none exactly when there is no such step |
| TollPricing.StepsSegmentsAt | services/texas_toll_service.py:309-313 | the k-th segment of a leg is its k-th step's name ("" when missing) and distance (0 when missing) |
| TollPricing.LegsSegmentsLength | services/texas_toll_service.py:307-313 | the legs give as many segments as they have steps |
| TollPricing.LegsSegmentsAppend | services/texas_toll_service.py:307-313 | legs are flattened in order: two runs of legs give the first run's segments, then the second's |
| TollPricing.RoadSegments | services/texas_toll_service.py:301-315 | defines `_extract_road_segments`: the name and distance of every step of every leg, in order, and none when the geometry or its legs are missing; counted by `RoadSegmentsCount` |
| TollPricing.SegmentsTollStep | services/texas_toll_service.py:276-297 | the running total grows by the next segment's toll |
| TollPricing.EffectiveRate | services/texas_toll_service.py:283-294 | defines the rate of a matched facility: base rate, times the dynamic factor when both the service and the facility use dynamic pricing, times 1.5 without a tag; bounded by `EffectiveRateBounds` |
| TollPricing.SegmentToll | services/texas_toll_service.py:277-297 | defines what one segment adds: 0 when its lowercased name matches no facility, otherwise its miles times the effective rate; non-negative by `SegmentTollNonNegative` |
| TollPricing.RouteToll | services/texas_toll_service.py:257-299 | defines `_calculate_route_toll`: the fallback when there are no segments, otherwise the sum of the segment tolls; non-negative by `RouteTollNonNegative`, 1.5 times the tagged toll without a tag by `NoTagPaysOneAndAHalf` |
| TollPricing.FallbackTollEstimate | services/texas_toll_service.py:375-398 | the fallback is never negative, is zero for a zero distance, and lies between 30% and 40% of the miles at $0.55, times the surcharge |
| TollPricing.EffectiveRateBounds | services/texas_toll_service.py:283-294 | with dynamic pricing on, a dynamic facility's rate lies between 0.6 and its peak multiplier times the base rate, times 1.5 without a tag |
| TollPricing.SegmentTollNonNegative | services/texas_toll_service.py:281-297 | on a table with non-negative rates, a segment of non-negative length costs nothing negative |
| TollPricing.SegmentsTollNonNegative | services/texas_toll_service.py:274-299 | the sum over segments of non-negative length is never negative |
| TollPricing.RouteTollNonNegative | services/texas_toll_service.py:257-299 | a route's toll is never negative on a well-formed table |
| TollPricing.UnmatchedSegmentsAreFree | services/texas_toll_service.py:276-299 | segments whose names match no facility add nothing |
| TollPricing.NoMatchedSegmentMeansNoToll | services/texas_toll_service.py:268-299 | a route with segments, none of which matches, costs 0: the fallback applies only when there are no segments |
| TollPricing.SegmentsTollNoTag | services/texas_toll_service.py:293-297 | without a tag the segment total is 1.5 times the total with a tag |
| TollPricing.NoTagPaysOneAndAHalf | services/texas_toll_service.py:395-396 | without a tag the route toll, fallback included, is exactly 1.5 times the tagged toll |
| TollPricing.SegmentsTollStatic | services/texas_toll_service.py:287-290 | with dynamic pricing off, the segment total does not depend on the time of day |
| TollPricing.StaticPricingIgnoresClock | services/texas_toll_service.py:287-290 | with dynamic pricing off, the route toll does not depend on the time of day |
| TollPricing.FallbackMonotone | services/texas_toll_service.py:379-392 | for a fixed ETA, a longer route never gets a smaller fallback estimate |
| TollPricing.EstimateRoute | services/texas_toll_service.py:248-253 | defines the treatment of one route by `estimate_tolls`: a set toll is kept, an unset one becomes the route toll rounded to cents |
| TollPricing.EstimateAll | services/texas_toll_service.py:238-255 | defines `estimate_tolls` on the whole list; its guarantees are `EstimateAllSpec` |
| TollPricing.EstimateAllSpec | services/texas_toll_service.py:248-255 | length and order are kept; a route with a toll is unchanged; a route without one gets its computed toll in whole cents, within half a cent, with no other field changed |
| TollPricing.IsTollFreeRoute | services/texas_toll_service.py:400-402 | defines `is_toll_free_route`: the toll is set and equals 0; when that holds after estimation is `TollFreeAfterEstimate` |
| TollPricing.TollFreeAfterEstimate | services/texas_toll_service.py:400-402 | a freshly priced route is toll-free when its computed toll is at least 0 and under half a cent, and not when it is over half a cent |
| TollEstimation.TollService.constructor | services/texas_toll_service.py:217-228 | the service keeps the table and the two flags it is given |
| TollEstimation.TollService.EstimateTolls | services/texas_toll_service.py:238-255 | updates the array in place to the estimated routes and returns the same array |
| TollEstimation.TollService.CalculateRouteToll | services/texas_toll_service.py:257-299 | the loop computes the route toll: the fallback without segments, the sum of segment tolls otherwise |
| TollEstimation.TollService.FacilityRate | services/texas_toll_service.py:283-294 | computes the effective rate of a matched facility |
| TollEstimation.TollService.ExtractRoadSegments | services/texas_toll_service.py:301-315 | the nested loops append exactly the segments of the route, leg by leg and step by step |
| TollEstimation.TollService.IdentifyTollRoad | services/texas_toll_service.py:317-336 | the nested loops return the first facility in table order with a matching pattern |
| AustinTolls.AustinTableWellFormed | services/austin_toll_service.py:24-65 | the Austin table has 6 entries, non-negative rates, and peak multipliers at least 1.3 |
| AustinTolls.Toll183TollNeeds | services/austin_toll_service.py:25-32 | every pattern of 183_toll needs an '8' |
| AustinTolls.Sh45TollNeeds | services/austin_toll_service.py:33-38 | every pattern of sh45_toll needs a '4' |
| AustinTolls.MopacExpressNeeds | services/austin_toll_service.py:39-46 | every pattern of mopac_express needs a 'p' |
| AustinTolls.Sh130TollNeeds | services/austin_toll_service.py:47-52 | every pattern of sh130_toll needs a '1' |
| AustinTolls.Tx71TollNeeds | services/austin_toll_service.py:53-58 | every pattern of tx71_toll needs a '7' |
| AustinTolls.ManorExpresswayNeeds | services/austin_toll_service.py:59-64 | every pattern of manor_expressway needs an 'o' |
| AustinTolls.AustinEntriesNeedOtherLetters | services/austin_toll_service.py:24-65 | no Austin facility matches a name written without those six characters |
| AustinTolls.InterstateIsNoAustinToll | services/austin_toll_service.py:188-207 | the Austin lookup matches neither "interstate 35" nor "i-35" |
| AustinTolls.Sh130SouthMatchesSh130Toll | services/austin_toll_service.py:48 | `sh.*130` is found in "sh 130 south" |
| AustinTolls.Sh130SouthInAustin | services/austin_toll_service.py:188-207 | the Austin lookup gives sh130_toll for "sh 130 south" |
| AustinTolls.InterstateSegmentsAreFree | services/austin_toll_service.py:139-160 | a step named I-35 in either spelling, in any capitalisation, adds nothing to an Austin toll |
| TexasTolls.TexasTableWellFormed | services/texas_toll_service.py:23-190 | the Texas table has 21 entries, non-negative rates, and peak multipliers at least 1.3 |
| TexasTolls.SamHoustonTollwayNeeds | services/texas_toll_service.py:73-81 | every pattern of sam_houston_tollway needs a 'w' |
| TexasTolls.HardyTollNeeds | services/texas_toll_service.py:82-88 | every pattern of hardy_toll needs an 'h' |
| TexasTolls.WestparkTollwayNeeds | services/texas_toll_service.py:89-95 | every pattern of westpark_tollway needs a 'w' |
| TexasTolls.FortBendTollwayNeeds | services/texas_toll_service.py:96-102 | every pattern of fort_bend_tollway needs an 'f' |
| TexasTolls.GrandParkwayNeeds | services/texas_toll_service.py:103-109 | every pattern of grand_parkway needs a 'g' or a '9' |
| TexasTolls.TomballTollwayNeeds | services/texas_toll_service.py:110-116 | every pattern of tomball_tollway needs an 'o' |
| TexasTolls.DallasNorthTollwayNeeds | services/texas_toll_service.py:119-127 | every pattern of dallas_north_tollway needs a 'd' |
| TexasTolls.PgbtNeeds | services/texas_toll_service.py:128-134 | every pattern of pgbt needs a 'b' |
| TexasTolls.SamRayburnTollwayNeeds | services/texas_toll_service.py:135-141 | every pattern of sam_rayburn_tollway needs a 'y' or an 's' |
| TexasTolls.LbjExpressNeeds | services/texas_toll_service.py:142-150 | every pattern of lbj_express needs a 'j' or a '6' |
| TexasTolls.Ntt121Needs | services/texas_toll_service.py:151-157 | every pattern of ntt_121 needs a '2' |
| TexasTolls.ChisholmTrailNeeds | services/texas_toll_service.py:158-164 | every pattern of chisholm_trail needs an 'h' |
| TexasTolls.NorthTarrantExpressNeeds | services/texas_toll_service.py:165-173 | every pattern of north_tarrant_express needs an 'n' or an '8' |
| TexasTolls.Loop1604TollNeeds | services/texas_toll_service.py:176-182 | every pattern of loop_1604_toll needs an 'o' |
| TexasTolls.Sh130SouthNeeds | services/texas_toll_service.py:183-189 | every pattern of sh_130_south needs an 'o' |
| TexasTolls.HoustonEntriesNeedOtherLetters | services/texas_toll_service.py:72-116 | no Houston facility matches a name written without 'w', 'h', 'f', 'g', '9' and 'o' |
| TexasTolls.DallasEntriesNeedOtherLetters | services/texas_toll_service.py:118-164 | every Dallas-Fort Worth facility except sam_rayburn_tollway and north_tarrant_express misses a name written without 'd', 'b', 'j', '6', '2' and 'h' |
| TexasTolls.AllDallasEntriesNeedOtherLetters | services/texas_toll_service.py:118-173 | no Dallas-Fort Worth facility matches a name written without the ten characters their patterns need |
| TexasTolls.SamRayburnMissesInterstate | services/texas_toll_service.py:136 | sam_rayburn_tollway does not match "interstate 35" |
| TexasTolls.InterstateInHouston | services/texas_toll_service.py:72-116 | no Houston facility matches "interstate 35" or "i-35" |
| TexasTolls.InterstateContainsNte | services/texas_toll_service.py:166 | the pattern `nte` is found in "interstate 35" |
| TexasTolls.InterstateInDallas | services/texas_toll_service.py:118-173 | the Dallas-Fort Worth part of the table gives north_tarrant_express for "interstate 35" |
| TexasTolls.InterstateIsNorthTarrantExpress | services/texas_toll_service.py:317-336 | the Texas lookup gives north_tarrant_express for "interstate 35" |
| TexasTolls.ShortInterstateInDallas | services/texas_toll_service.py:118-173 | no Dallas-Fort Worth facility matches "i-35" |
| TexasTolls.ShortInterstateInSanAntonio | services/texas_toll_service.py:175-189 | no San Antonio facility matches "i-35" |
| TexasTolls.ShortInterstateIsFree | services/texas_toll_service.py:317-336 | the Texas lookup matches no facility for "i-35" |
| TexasTolls.Sh130SouthIsSh130Toll | services/texas_toll_service.py:317-336 | the Texas lookup gives sh130_toll for "sh 130 south" |
| TexasTolls.Sh130SouthExtendsSh130Toll | services/texas_toll_service.py:184 | each pattern of sh_130_south extends a pattern of sh130_toll |
| TexasTolls.TexasTableStartsWithAustin | services/texas_toll_service.py:23-70 | the Texas table starts with the six Austin facilities, sh130_toll among them and sh_130_south not |
| TexasTolls.Sh130SouthNeverReturned | services/texas_toll_service.py:331-334 | no road name makes the Texas lookup return sh_130_south |
| RoutingOptimizer.Annotate | services/routing_optimizer.py:36-49 | an unset toll counts as 0; the route is within budget exactly when its toll is at most the budget; the overage is 0 within budget and otherwise the excess in whole cents within half a cent; the other fields are copied |
| RoutingOptimizer.ArgMin | services/routing_optimizer.py:53-54 | `min` with a key picks a position of least key, the first such position when keys tie |
| RoutingOptimizer.InsertByEta | services/routing_optimizer.py:56 | insertion adds exactly the one route |
| RoutingOptimizer.InsertSorted | services/routing_optimizer.py:56 | insertion into a list sorted by ETA keeps it sorted |
| RoutingOptimizer.SortByEta | services/routing_optimizer.py:56 | `sorted` by ETA gives an ascending permutation of its input |
| RoutingOptimizer.WithinOnlyMembers | services/routing_optimizer.py:55 | the filter keeps exactly the routes within budget |
| RoutingOptimizer.NotAddedMembers | services/routing_optimizer.py:103 | the filter keeps exactly the routes whose id is not listed yet |
| RoutingOptimizer.Ranking | services/routing_optimizer.py:61-126 | defines the result of `optimize_routes` given the annotated routes, the cheapest, the fastest and those within budget; its guarantees are the lemmas of `RankingProperties` |
| RoutingOptimizer.Optimize | services/routing_optimizer.py:8-126 | defines `optimize_routes`; its guarantees, stated on the input routes, are the lemmas of `OptimizeProperties` |
| RoutingOptimizer.AnnotateRoutes | services/routing_optimizer.py:35-50 | the annotation loop computes the annotated routes |
| RoutingOptimizer.KeepWithin | services/routing_optimizer.py:55 | the comprehension computes the routes within budget, in input order |
| RoutingOptimizer.KeepNotAdded | services/routing_optimizer.py:103 | the comprehension computes the routes whose id is not listed, in input order |
| RoutingOptimizer.PlaceWithinBudget | services/routing_optimizer.py:87-100 | the step-3 loop computes step 3 of the ranking |
| RoutingOptimizer.PlaceRest | services/routing_optimizer.py:102-108 | the step-4 loop computes step 4 of the ranking |
| RoutingOptimizer.RankRoutes | services/routing_optimizer.py:61-126 | the ranking code from the recommendation on computes the ranking |
| RoutingOptimizer.OptimizeRoutes | services/routing_optimizer.py:8-126 | `optimize_routes` computes `Optimize`; no routes give no recommendation, no entries and the "no routes available" advisory |
| RankingProperties.ExceedsByExample | services/routing_optimizer.py:44-45 | a $9.80 toll against a $5.00 budget exceeds it by $4.80 |
| RankingProperties.SortedHead | services/routing_optimizer.py:53-56 | the head of the ETA-sorted list is the route `min` by ETA picks |
| RankingProperties.SortedMember | services/routing_optimizer.py:56 | sorting neither adds nor drops a route |
| RankingProperties.InsertStable | services/routing_optimizer.py:56 | insertion puts a route after the routes of equal ETA |
| RankingProperties.SortStable | services/routing_optimizer.py:56 | the sort is stable: routes of equal ETA keep their input order |
| RankingProperties.InAddedMembers | services/routing_optimizer.py:103 | the complementary filter keeps exactly the routes whose id is listed |
| RankingProperties.Partition | services/routing_optimizer.py:103 | listed and unlisted routes together make up the input |
| RankingProperties.LeadersBuilt | services/routing_optimizer.py:71-85 | steps 1 and 2 give a display whose entries are input routes with distinct, tracked ids and priorities 1 and 2 |
| RankingProperties.PlaceWithinTracks | services/routing_optimizer.py:90-99 | one turn of step 3 keeps the set of listed ids exact and the listed ids distinct |
| RankingProperties.PlaceWithinBuilt | services/routing_optimizer.py:89-100 | one turn of step 3 keeps the display well built: input routes, tracked distinct ids, consecutive priorities, sound reasons |
| RankingProperties.PlacedWithinBuilt | services/routing_optimizer.py:87-100 | step 3 keeps the display well built |
| RankingProperties.PlacedWithinExtends | services/routing_optimizer.py:87-100 | step 3 only appends, lists every id it goes through, and appends only routes it goes through, marked recommended or within budget |
| RankingProperties.PlacedWithinOrdered | services/routing_optimizer.py:89 | going through an ETA-sorted list, step 3 appends in ascending ETA |
| RankingProperties.PlacedExceedingShape | services/routing_optimizer.py:104-108 | step 4 appends each given route with its overage and the next priorities, and records no id |
| RankingProperties.Stages | services/routing_optimizer.py:52-126 | for routes, the result is the recommendation, steps 1-3 followed by step 4, and the advisories |
| RankingProperties.WithinSortedMembers | services/routing_optimizer.py:55-56 | the sorted routes within budget are exactly the routes within budget |
| RankingProperties.WithinSortedLeader | services/routing_optimizer.py:95 | no route within budget is faster than the head of the sorted list, so minutes behind are never negative |
| RankingProperties.StepThreeBuilt | services/routing_optimizer.py:67-100 | steps 1 to 3 leave a well built display |
| RankingProperties.StepThreeExtends | services/routing_optimizer.py:87-100 | step 3 keeps steps 1-2 in front, appends only recommended or within-budget entries, and lists every route within budget |
| RankingProperties.WithinListed | services/routing_optimizer.py:87-100 | after step 3 the id of every route within budget is listed |
| RankingProperties.StepThreeOrdered | services/routing_optimizer.py:89 | step 3 appends in ascending ETA |
| RankingProperties.NotAddedMember | services/routing_optimizer.py:103 | a route kept by the filter is an input route whose id is not listed |
| RankingProperties.UnlistedExceeds | services/routing_optimizer.py:103-104 | once every route within budget is listed, every unlisted route exceeds the budget |
| RankingProperties.StepFourRouteExceeds | services/routing_optimizer.py:103-104 | a route of step 4 is an input route over budget |
| RankingProperties.StepFourExceeds | services/routing_optimizer.py:102-108 | every route of step 4 is an input route over budget |
| RankingProperties.OptimizeRanked | services/routing_optimizer.py:52-124 | for routes, the ranking is steps 1-3 followed by the step-4 entries |
| RankingProperties.ListingFromRoutes | services/routing_optimizer.py:67-108 | a display of input routes followed by input routes over budget lists only input routes |
| RankingProperties.ListingListsEveryId | services/routing_optimizer.py:103-108 | when step 4 gets every route with an unlisted id, every input id is ranked |
| RankingProperties.ListingNumbered | services/routing_optimizer.py:97-108 | priorities stay consecutive through step 4 |
| RankingProperties.ListingReasons | services/routing_optimizer.py:71-108 | each entry's reason fits its position and route: cheapest only first, fastest only second, the rest by budget status |
| RankingProperties.ListingOrder | services/routing_optimizer.py:87-108 | entries marked as exceeding the budget come last, in ascending ETA, and entries marked as recommended or within budget come in ascending ETA |
| RankingProperties.DisplayRoutes | services/routing_optimizer.py:67-100 | with distinct ids, a well built display lists exactly the routes whose id it records, each once |
| RankingProperties.ListingPermutation | services/routing_optimizer.py:67-108 | listed and step-4 routes together are a permutation of the input |
| RankingProperties.StepFourCovers | services/routing_optimizer.py:103 | step 4 gets every route whose id is not listed |
| RankingProperties.RankedFromRoutes | services/routing_optimizer.py:67-108 | every ranked entry is an annotated input route |
| RankingProperties.RankedListsEveryId | services/routing_optimizer.py:67-108 | the id of every input route is ranked |
| RankingProperties.RankedNumbered | services/routing_optimizer.py:76-108 | priority 1 first, then consecutive priorities from 2 or 3 |
| RankingProperties.RankedReasons | services/routing_optimizer.py:71-108 | every entry's reason fits its position and its route |
| RankingProperties.RankedOrder | services/routing_optimizer.py:87-108 | entries marked as exceeding the budget come last in ETA order; entries marked as recommended or within budget come in ETA order |
| RankingProperties.RankedPermutation | services/routing_optimizer.py:67-108 | with distinct ids the ranking is a permutation of the annotated routes |
| RankingProperties.ListingStartsWith | services/routing_optimizer.py:67-108 | what steps 3 and 4 append leaves steps 1-2 in front |
| RankingProperties.RankedStartsWithLeaders | services/routing_optimizer.py:67-85 | the ranking starts with the entries of steps 1 and 2 |
| RankingProperties.WithinSortedHead | services/routing_optimizer.py:56-63 | the head of the sorted routes within budget is the first route of least ETA among them |
| RankingProperties.RecommendationChoice | services/routing_optimizer.py:61-65 | the recommendation is the first fastest route within budget, or the cheapest route when none is within budget |
| RankingProperties.AdvisoriesChoice | services/routing_optimizer.py:114-119 | the over-budget advisory appears exactly when no route is within budget |
| RankingProperties.RankedFirst | services/routing_optimizer.py:71-78 | the first entry is the cheapest route with priority 1, shown as toll-free exactly when its toll is under $0.50 |
| RankingProperties.LeadingEntries | services/routing_optimizer.py:71-85 | a listing that starts with steps 1-2 has the cheapest route first and, when the ids differ, the fastest second |
| RankingProperties.RankedSecond | services/routing_optimizer.py:80-85 | the fastest route is second with priority 2 when its id differs from the cheapest's; otherwise no entry is marked fastest |
| RankingProperties.RankedIdIndex | services/routing_optimizer.py:67-108 | gives the position where an input route's id is ranked |
| RankingProperties.PlacedWithinAllListed | services/routing_optimizer.py:89-90 | step 3 adds nothing when every id it goes through is already listed |
| RankingProperties.NotAddedNone | services/routing_optimizer.py:103 | step 4 has nothing left when every id is listed |
| RankingProperties.SharedIdRanking | services/routing_optimizer.py:81-103 | two routes within budget that share an id give one entry: the faster route is ranked nowhere |
| OptimizeProperties.CheapestIndex | services/routing_optimizer.py:53 | the route `min` by toll picks is the first input route of least toll, an unset toll counting as 0 |
| OptimizeProperties.FastestIndex | services/routing_optimizer.py:54 | the route `min` by ETA picks is the first input route of least ETA |
| OptimizeProperties.AffordableAgrees | services/routing_optimizer.py:44 | an annotated route is within budget exactly when its input toll is at most the budget |
| OptimizeProperties.CheapestFirst | services/routing_optimizer.py:71-78 | for routes, the first entry has priority 1, is the first route of least toll, and is shown as toll-free exactly when that toll is under $0.50 |
| OptimizeProperties.FastestSecond | services/routing_optimizer.py:80-85 | the first route of least ETA is second with priority 2 when its id differs from the first entry's; otherwise no entry is marked fastest |
| OptimizeProperties.PrioritiesCountUp | services/routing_optimizer.py:76-106 | priority 1 first, then 2 for a fastest entry or 3 otherwise, then up by one per entry |
| OptimizeProperties.ReasonsAgree | services/routing_optimizer.py:71-105 | cheapest reasons only first, fastest only second, the recommendation only on the recommended id within budget, within-budget reasons only within budget, overages only over budget and equal to the route's overage |
| OptimizeProperties.RankingOrder | services/routing_optimizer.py:87-108 | entries marked as exceeding the budget come last in ascending ETA, and entries marked as recommended or within budget come in ascending ETA |
| OptimizeProperties.RankedAreInputs | services/routing_optimizer.py:35-108 | every ranked entry is an annotated input route |
| OptimizeProperties.RankedIdOf | services/routing_optimizer.py:67-108 | gives the position where an input route's id is ranked |
| OptimizeProperties.EveryIdRanked | services/routing_optimizer.py:67-108 | the id of every input route is ranked |
| OptimizeProperties.DistinctIdsPermutation | services/routing_optimizer.py:67-108 | with distinct ids every annotated route is ranked exactly once |
| OptimizeProperties.RecommendsFastestWithinBudget | services/routing_optimizer.py:61-65 | the recommendation is the first fastest route whose toll is within budget, or the first cheapest route when no toll is |
| OptimizeProperties.AdvisoriesAgree | services/routing_optimizer.py:26-32 | no routes give the "no routes available" advisory and no recommendation; otherwise the over-budget advisory appears exactly when every toll exceeds the budget |
| OptimizeProperties.SharedIdDropsRoute | services/routing_optimizer.py:81-103 | two routes within budget sharing an id give a ranking of only the cheaper, slower route |
| OptimizeEndpoint.ValidateCoordinates | routes/optimize.py:22-39 | a coordinate is accepted exactly when it has both keys, both numbers and both in range (ends included), and is then returned unchanged |
| OptimizeEndpoint.ErrorPrecedence | routes/optimize.py:25-37 | a missing key is reported before a non-number, a non-number before a range error, and the latitude range before the longitude range |
| OptimizeEndpoint.BothOutOfRange | routes/optimize.py:33-37 | latitude 91 with longitude 181 gives the latitude error |
| OptimizeEndpoint.Merged | routes/optimize.py:97-105 | defines the candidate list after the merge loop: a toll-free route is appended when it is at least 1 km longer or shorter than every route already in the list; its guarantees are the `Merged…` lemmas |
| OptimizeEndpoint.MergeTollFree | routes/optimize.py:97-105 | the merge loop computes the merged candidate list |
| OptimizeEndpoint.MergedExtends | routes/optimize.py:97-105 | the candidates stay in front, unchanged, and at most one route per toll-free route is added |
| OptimizeEndpoint.MergedKeepsOrder | routes/optimize.py:97-105 | the appended routes are toll-free routes in their own order |
| OptimizeEndpoint.MergedSeparated | routes/optimize.py:98-104 | every appended route is at least 1 km longer or shorter than every route before it |
| OptimizeEndpoint.MergedCovers | routes/optimize.py:97-105 | every toll-free route ends up within 1 km of some merged route |
| OptimizeEndpoint.MergedEmpty | routes/optimize.py:97-105 | the merged list is empty exactly when both lists are |
| OptimizeEndpoint.MergeRepeatsIds | routes/optimize.py:97-105 | a toll-free route 2 km apart is merged in even when its id repeats a candidate's |
| OptimizeEndpoint.BudgetLookup | routes/optimize.py:120 | defines `preferences_dict.get("toll_budget_usd", 10.0)` over the dumped preferences of line 80; characterised by `BudgetChoice` |
| OptimizeEndpoint.BudgetChoice | routes/optimize.py:120 | the $10 default applies only when no preferences are sent; preferences without a budget give `None`; a sent budget is used as is |
| OptimizeEndpoint.HandlerConfig | routes/optimize.py:75-76 | defines the estimator the handler builds: the Texas table, dynamic pricing on, and the toll tag as sent, true when unset |
| OptimizeEndpoint.Handle | routes/optimize.py:96-121 | defines the intended outcome of the handler: merge, not-found on an empty list, estimate, look up the budget, optimize; characterised by `NotFoundExactlyWhenEmpty`, `ServerErrorExactlyWithoutBudget` and `OptimizedExactlyWithBudget` |
| OptimizeEndpoint.NotFoundExactlyWhenEmpty | routes/optimize.py:109-114 | not-found exactly when neither directions call gave a route |
| OptimizeEndpoint.ServerErrorExactlyWithoutBudget | routes/optimize.py:120-121 | with routes to rank, a server error exactly when preferences were sent without a budget |
| OptimizeEndpoint.EstimatedIdRanked | routes/optimize.py:117-121 | after toll estimation and optimization, the id of every candidate is ranked |
| OptimizeEndpoint.OptimizedRanksEveryCandidate | routes/optimize.py:96-121 | when the handler optimizes, the id of every merged candidate is ranked |
| OptimizeEndpoint.OptimizedExactlyWithBudget | routes/optimize.py:109-121 | the intended handler optimizes exactly when the merged list is not empty and the budget is not `None`, and then gives the optimizer's result for the estimated routes and the looked-up budget |
| OptimizeEndpoint.ResultMissesResponseFields | routes/optimize.py:42-47 | the keys of the optimizer's result lack `no_toll_option`, `budget_option` and `alternatives`, so `OptimizeResponse(**result)` rejects it |
| OptimizeEndpoint.HandleAsWritten | routes/optimize.py:96-136 | defines the handler as written: the intended outcome, except that a result that reaches `OptimizeResponse(**result)` ends in the 400 of the `ValueError` branch |
| OptimizeEndpoint.AsWrittenNeverOptimizes | routes/optimize.py:127-136 | as written the handler never returns the optimizer's result: it answers 400 exactly where the intended handler optimizes, and otherwise agrees with it |
| OptimizeEndpoint.AsWrittenRejectsOneRoute | routes/optimize.py:117-136 | one route and no preferences: the intended handler optimizes with the $10 default, the handler as written answers 400 |

## Findings

| source | as written | input that shows it | evidently intended | confidence | as-written member | corrected member |
|---|---|---|---|---|---|---|
| routes/optimize.py:127 | `OptimizeResponse(**result)` requires `no_toll_option`, `budget_option` and `alternatives` (lines 44-46). The optimizer's result has none of them, so pydantic raises a `ValidationError`, a `ValueError`, and lines 131-136 answer 400 | any request with a route and a budget, for example one route and no preferences (`OptimizeEndpoint.AsWrittenRejectsOneRoute`) | 200 with the optimizer's result, as tests/test_api_routes.py:50 expects | high, relying on pydantic rejecting missing required fields; not executed | OptimizeEndpoint.HandleAsWritten | OptimizeEndpoint.Handle |

## Left out

- Network I/O is not modelled: the directions client, the token check and the `/health` endpoint. The
  handler takes the two candidate lists as parameters; the toll-free list is `None` when fetching it
  failed.
- `main.py` and the application wiring are not part of this model.
- The clock is a parameter (`now`, microseconds since midnight) instead of `datetime.now()`.
- Floating point is not modelled: amounts are exact reals.
- Money.RoundToCents: the contract states only "whole cents, within half a cent, sign kept". The body
  rounds exact halves up, while Python rounds the binary value half to even: the model gives 0.13 for
  0.125, where `round(0.125, 2)` is 0.12.
- `.*` and `[-\s]?` are modelled exactly. `\s` is the whitespace class of Python's str patterns.
- Patterns.Lower: `lower()` is modelled on ASCII letters only, because Unicode case mapping has no
  counterpart here.
- `FREE_HIGHWAYS` is compiled but never consulted by any lookup, so it has no effect and is left out.
- The defaults `peak_multiplier` 1.5 and `congestion_sensitive` False are not modelled. Every dynamic
  facility in both tables sets both keys.
- The `description` and `region` fields of the tables are never read by the estimator and are left out.
- The reason strings are kept as the numbers they are formatted from (minutes, toll, overage); text
  formatting is left out.
- `_generate_explanation` is never called and is left out.
- The removal of `route_obj` from the response dictionaries is not modelled; the annotated records carry
  no such field.
- `RoutingOptimizer.Optimize` and its properties cover `optimize_routes` as written. Two routes sharing
  an id are not both ranked; this is shown by `OptimizeProperties.SharedIdDropsRoute`, not corrected.
- The handler's exception mapping is modelled only for the errors the modelled code raises. A `None`
  budget makes the optimizer's comparison fail, which gives 500. The response conversion's `ValueError`
  gives 400 (`HandleAsWritten`). The 503 and 504 of the directions client are left out with the network.
- OptimizeEndpoint.Handle: returns the optimizer's result where the handler as written answers 400,
  because the response model does not fit that result; see "## Findings". The response's own fields are
  not modelled.
- Timing and logging are not modelled.
- pydantic's coercion of request fields before the validator runs is not modelled. The validator sees a
  number or a non-number.
- `OptimizeEndpoint.Handle` takes the toll service configuration as a parameter. The handler builds it
  with `OptimizeEndpoint.HandlerConfig`: the Texas table, dynamic pricing on, and the toll tag as sent.
