/**
 * What the ranking built by `optimize_routes` guarantees, proved about the
 * function `Optimize` that `RoutingOptimizer.OptimizeRoutes` computes:
 * the cheapest route leads, the fastest follows, priorities count up,
 * the recommendation is the fastest route within budget, every route is
 * listed, and with distinct ids the ranking is a permutation of the input.
 */
module RankingProperties {
  import opened Wrappers
  import opened Routes
  import opened Money
  import opened RoutingOptimizer

  // ---------------------------------------------------------------- annotation

  /** A 9.80 toll against a 5.00 budget exceeds it by 4.80. */
  lemma ExceedsByExample()
    ensures var a := Annotate(RouteCandidate("1", 1500, 30000, Some(9.8), "", None), 5.0);
      a.status == Exceeds && a.exceedsBy == 4.8
  {
    assert (4.8 * 100.0 + 0.5).Floor == 480;
  }

  // ---------------------------------------------------------------- sorting

  lemma InsertHead(s: seq<Annotated>, x: Annotated)
    ensures InsertByEta(s, x)[0] == if s == [] || x.etaSeconds < s[0].etaSeconds then x else s[0]
  {
  }

  /** The first route of least ETA heads the sorted list. */
  lemma {:induction false} SortedHead(xs: seq<Annotated>)
    requires xs != []
    ensures SortByEta(xs) != [] && SortByEta(xs)[0] == xs[ArgMin(Etas(xs))]
    decreases |xs|
  {
    var init := xs[..|xs| - 1];
    if init == [] {
      InsertHead([], xs[0]);
    } else {
      SortedHead(init);
      SortSnocHead(xs);
      ArgMinSnoc(xs);
    }
  }

  lemma SortSnocHead(xs: seq<Annotated>)
    requires |xs| > 1
    ensures var n := |xs| - 1; var h := SortByEta(xs[..n])[0];
      SortByEta(xs)[0] == if xs[n].etaSeconds < h.etaSeconds then xs[n] else h
  {
    InsertHead(SortByEta(xs[..|xs| - 1]), xs[|xs| - 1]);
  }

  lemma ArgMinSnoc(xs: seq<Annotated>)
    requires |xs| > 1
    ensures var n := |xs| - 1; var m := ArgMin(Etas(xs[..n]));
      ArgMin(Etas(xs)) == if xs[n].etaSeconds < xs[m].etaSeconds then n else m
  {
    assert Etas(xs)[..|xs| - 1] == Etas(xs[..|xs| - 1]);
  }

  /** Sorting neither adds nor drops routes. */
  lemma SortedMember(xs: seq<Annotated>, x: Annotated)
    ensures x in SortByEta(xs) <==> x in xs
  {
    assert x in SortByEta(xs) <==> x in multiset(SortByEta(xs));
  }

  /** The routes of ETA `e`, in list order. */
  function OfEta(xs: seq<Annotated>, e: int): seq<Annotated>
    decreases |xs|
  {
    if xs == [] then []
    else (if xs[0].etaSeconds == e then [xs[0]] else []) + OfEta(xs[1..], e)
  }

  lemma {:induction false} OfEtaAppend(xs: seq<Annotated>, ys: seq<Annotated>, e: int)
    ensures OfEta(xs + ys, e) == OfEta(xs, e) + OfEta(ys, e)
    decreases |xs|
  {
    if xs != [] {
      var zs := xs + ys;
      assert zs != [] && zs[0] == xs[0] && zs[1..] == xs[1..] + ys;
      var h := if xs[0].etaSeconds == e then [xs[0]] else [];
      assert OfEta(zs, e) == h + OfEta(zs[1..], e);
      OfEtaAppend(xs[1..], ys, e);
      assert h + (OfEta(xs[1..], e) + OfEta(ys, e)) == (h + OfEta(xs[1..], e)) + OfEta(ys, e);
    } else {
      assert xs + ys == ys;
    }
  }

  lemma {:induction false} OfEtaAbove(xs: seq<Annotated>, e: int)
    requires AtLeast(xs, e + 1)
    ensures OfEta(xs, e) == []
    decreases |xs|
  {
    if xs != [] {
      OfEtaAbove(xs[1..], e);
    }
  }

  lemma {:induction false} InsertStable(xs: seq<Annotated>, x: Annotated, e: int)
    requires SortedByEta(xs)
    ensures OfEta(InsertByEta(xs, x), e) == OfEta(xs, e) + if x.etaSeconds == e then [x] else []
    decreases |xs|
  {
    var tail := if x.etaSeconds == e then [x] else [];
    if xs == [] || x.etaSeconds < xs[0].etaSeconds {
      InsertFront(xs, x, e);
    } else {
      var h := if xs[0].etaSeconds == e then [xs[0]] else [];
      var t := InsertByEta(xs[1..], x);
      assert InsertByEta(xs, x) == [xs[0]] + t;
      assert SortedByEta(xs[1..]);
      InsertStable(xs[1..], x, e);
      OfEtaCons(xs[0], t, e);
      assert OfEta(xs, e) == h + OfEta(xs[1..], e);
      assert OfEta(InsertByEta(xs, x), e) == h + (OfEta(xs[1..], e) + tail);
      ConcatAssoc(h, OfEta(xs[1..], e), tail);
    }
  }

  /** Inserting in front of later routes appends to the routes of equal ETA. */
  lemma InsertFront(xs: seq<Annotated>, x: Annotated, e: int)
    requires SortedByEta(xs) && (xs == [] || x.etaSeconds < xs[0].etaSeconds)
    ensures OfEta(InsertByEta(xs, x), e) == OfEta(xs, e) + if x.etaSeconds == e then [x] else []
  {
    assert InsertByEta(xs, x) == [x] + xs;
    OfEtaCons(x, xs, e);
    if x.etaSeconds == e && xs != [] {
      SortedAbove(xs, e);
      OfEtaAbove(xs, e);
    }
  }

  lemma ConcatAssoc(a: seq<Annotated>, b: seq<Annotated>, c: seq<Annotated>)
    ensures a + (b + c) == (a + b) + c
  {
  }

  lemma OfEtaCons(y: Annotated, t: seq<Annotated>, e: int)
    ensures OfEta([y] + t, e) == (if y.etaSeconds == e then [y] else []) + OfEta(t, e)
  {
    assert ([y] + t)[1..] == t;
  }

  lemma SortedAbove(xs: seq<Annotated>, e: int)
    requires SortedByEta(xs) && xs != [] && e < xs[0].etaSeconds
    ensures AtLeast(xs, e + 1)
  {
  }

  lemma OfEtaLast(xs: seq<Annotated>, e: int)
    requires xs != []
    ensures OfEta(xs, e) == OfEta(xs[..|xs| - 1], e) + if xs[|xs| - 1].etaSeconds == e then [xs[|xs| - 1]] else []
  {
    var init, last := xs[..|xs| - 1], xs[|xs| - 1];
    assert xs == init + [last];
    OfEtaAppend(init, [last], e);
    assert [last][1..] == [];
  }

  /** `sorted` is stable: routes of equal ETA keep their relative order. */
  lemma {:induction false} SortStable(xs: seq<Annotated>, e: int)
    ensures OfEta(SortByEta(xs), e) == OfEta(xs, e)
    decreases |xs|
  {
    if xs != [] {
      var init, last := xs[..|xs| - 1], xs[|xs| - 1];
      SortStable(init, e);
      InsertStable(SortByEta(init), last, e);
      OfEtaLast(xs, e);
    }
  }

  // ---------------------------------------------------------------- filters

  /** The routes whose id is in `added`, in input order. */
  function InAdded(rs: seq<Annotated>, added: set<string>): seq<Annotated>
    decreases |rs|
  {
    if rs == [] then []
    else InAdded(rs[..|rs| - 1], added) + if rs[|rs| - 1].routeId in added then [rs[|rs| - 1]] else []
  }

  lemma {:induction false} InAddedMembers(rs: seq<Annotated>, added: set<string>)
    ensures forall x :: x in InAdded(rs, added) <==> x in rs && x.routeId in added
    decreases |rs|
  {
    if rs != [] {
      var init := rs[..|rs| - 1];
      assert rs == init + [rs[|rs| - 1]];
      InAddedMembers(init, added);
    }
  }

  /** The listed and the unlisted routes together are the input. */
  lemma {:induction false} Partition(rs: seq<Annotated>, added: set<string>)
    ensures multiset(rs) == multiset(InAdded(rs, added)) + multiset(NotAdded(rs, added))
    decreases |rs|
  {
    if rs != [] {
      var init := rs[..|rs| - 1];
      assert rs == init + [rs[|rs| - 1]];
      Partition(init, added);
    }
  }

  predicate NoDuplicates<T(==)>(s: seq<T>) {
    forall i, j :: 0 <= i < j < |s| ==> s[i] != s[j]
  }

  lemma {:induction false} InAddedNoDuplicates(rs: seq<Annotated>, added: set<string>)
    requires NoDuplicates(rs)
    ensures NoDuplicates(InAdded(rs, added))
    decreases |rs|
  {
    if rs != [] {
      var init := rs[..|rs| - 1];
      assert rs == init + [rs[|rs| - 1]];
      InAddedNoDuplicates(init, added);
      InAddedMembers(init, added);
    }
  }

  /** In a list without repeats every member occurs once. */
  lemma {:induction false} OnceEach<T>(s: seq<T>, x: T)
    requires NoDuplicates(s)
    ensures multiset(s)[x] == if x in s then 1 else 0
    decreases |s|
  {
    if s != [] {
      var init := s[..|s| - 1];
      assert s == init + [s[|s| - 1]];
      OnceEach(init, x);
    }
  }

  /** Two lists without repeats and with the same members are permutations of each other. */
  lemma SameMembers<T>(s: seq<T>, t: seq<T>)
    requires NoDuplicates(s) && NoDuplicates(t)
    requires forall x :: x in s <==> x in t
    ensures multiset(s) == multiset(t)
  {
    forall x
      ensures multiset(s)[x] == multiset(t)[x]
    {
      OnceEach(s, x);
      OnceEach(t, x);
    }
  }

  // ---------------------------------------------------------------- the display under construction

  /** Every listed entry is one of the annotated routes. */
  predicate FromRoutes(d: Display, rs: seq<Annotated>) {
    forall k :: 0 <= k < |d.ranked| ==> d.ranked[k].route in rs
  }

  /** The set of listed ids holds exactly the ids of the listed entries. */
  predicate Tracks(d: Display) {
    (forall k :: 0 <= k < |d.ranked| ==> d.ranked[k].route.routeId in d.added) &&
    (forall id :: id in d.added ==> exists k :: 0 <= k < |d.ranked| && d.ranked[k].route.routeId == id)
  }

  /** No id is listed twice. */
  predicate DistinctEntries(d: Display) {
    forall i, j :: 0 <= i < j < |d.ranked| ==> d.ranked[i].route.routeId != d.ranked[j].route.routeId
  }

  /** The first entry has priority 1, the later ones count up by one from
      `offset + 1`, and `d.priority` is the next number. */
  predicate Numbered(d: Display, offset: nat) {
    |d.ranked| >= 1 && d.ranked[0].priority == 1 &&
    (forall k :: 1 <= k < |d.ranked| ==> d.ranked[k].priority == k + offset) &&
    d.priority == |d.ranked| + offset
  }

  /** Reasons of steps 1 to 3: a recommendation names `recommendedId` and a
      route within budget; a route listed as within budget is one, and is
      never ahead of the fastest within budget; no entry is marked as
      exceeding the budget. */
  predicate SoundReasons(d: Display, recommendedId: string) {
    forall k :: 0 <= k < |d.ranked| ==>
      (d.ranked[k].reason.Recommended? ==>
         d.ranked[k].route.routeId == recommendedId && d.ranked[k].route.status == Within) &&
      (d.ranked[k].reason.WithinBudget? ==>
         d.ranked[k].reason.minutesBehind >= 0.0 && d.ranked[k].route.status == Within) &&
      !d.ranked[k].reason.ExceedsBudget?
  }

  predicate Built(d: Display, rs: seq<Annotated>, offset: nat, recommendedId: string) {
    FromRoutes(d, rs) && Tracks(d) && DistinctEntries(d) && Numbered(d, offset) &&
    SoundReasons(d, recommendedId)
  }

  lemma LeadersBuilt(rs: seq<Annotated>, noToll: Annotated, fastest: Annotated, recommendedId: string)
    requires noToll in rs && fastest in rs
    ensures Built(Leaders(noToll, fastest), rs, if fastest.routeId != noToll.routeId then 1 else 2, recommendedId)
  {
    var d := Leaders(noToll, fastest);
    assert d.ranked[0].route == noToll;
    if fastest.routeId != noToll.routeId {
      assert d.ranked[1].route == fastest;
    }
  }

  /** One turn of step 3 keeps the set of listed ids exact and the ids distinct. */
  lemma PlaceWithinTracks(d: Display, r: Annotated, leaderEta: int, recommendedId: string)
    requires Tracks(d) && DistinctEntries(d)
    ensures var d' := PlaceWithin(d, r, leaderEta, recommendedId); Tracks(d') && DistinctEntries(d')
  {
    if r.routeId !in d.added {
      var d' := PlaceWithin(d, r, leaderEta, recommendedId);
      forall id | id in d'.added
        ensures exists k :: 0 <= k < |d'.ranked| && d'.ranked[k].route.routeId == id
      {
        if id in d.added {
          var k :| 0 <= k < |d.ranked| && d.ranked[k].route.routeId == id;
          assert d'.ranked[k] == d.ranked[k];
        } else {
          assert d'.ranked[|d.ranked|].route.routeId == id;
        }
      }
    }
  }

  /** One turn of step 3 keeps the display well built. */
  lemma PlaceWithinBuilt(d: Display, rs: seq<Annotated>, offset: nat, r: Annotated, leaderEta: int, recommendedId: string)
    requires Built(d, rs, offset, recommendedId)
    requires r in rs && r.status == Within && leaderEta <= r.etaSeconds
    ensures Built(PlaceWithin(d, r, leaderEta, recommendedId), rs, offset, recommendedId)
  {
    PlaceWithinTracks(d, r, leaderEta, recommendedId);
    if r.routeId !in d.added {
      var d' := PlaceWithin(d, r, leaderEta, recommendedId);
      var e := d'.ranked[|d.ranked|];
      assert d'.ranked == d.ranked + [e];
      assert FromRoutes(d', rs);
      assert Numbered(d', offset);
      assert SoundReasons(d', recommendedId);
    }
  }

  /** Step 3 keeps the display well built. */
  lemma {:induction false} PlacedWithinBuilt(d: Display, rs: seq<Annotated>, offset: nat, ws: seq<Annotated>,
                                             leaderEta: int, recommendedId: string)
    requires Built(d, rs, offset, recommendedId)
    requires forall w :: w in ws ==> w in rs && w.status == Within && leaderEta <= w.etaSeconds
    ensures Built(PlacedWithin(d, ws, leaderEta, recommendedId), rs, offset, recommendedId)
    decreases |ws|
  {
    if ws != [] {
      var init := ws[..|ws| - 1];
      PlacedWithinBuilt(d, rs, offset, init, leaderEta, recommendedId);
      PlaceWithinBuilt(PlacedWithin(d, init, leaderEta, recommendedId), rs, offset, ws[|ws| - 1], leaderEta, recommendedId);
    }
  }

  /** Step 3 only appends; each route it goes through ends up with its id
      listed, and what it appends comes from `ws` in the order of `ws`. */
  lemma {:induction false} PlacedWithinExtends(d: Display, ws: seq<Annotated>, leaderEta: int, recommendedId: string)
    ensures var r := PlacedWithin(d, ws, leaderEta, recommendedId);
      |d.ranked| <= |r.ranked| && r.ranked[..|d.ranked|] == d.ranked &&
      d.added <= r.added &&
      (forall w :: w in ws ==> w.routeId in r.added) &&
      (forall k :: |d.ranked| <= k < |r.ranked| ==> r.ranked[k].route in ws) &&
      (forall k :: |d.ranked| <= k < |r.ranked| ==>
         r.ranked[k].reason.Recommended? || r.ranked[k].reason.WithinBudget?)
    decreases |ws|
  {
    if ws != [] {
      var init := ws[..|ws| - 1];
      PlacedWithinExtends(d, init, leaderEta, recommendedId);
      var p := PlacedWithin(d, init, leaderEta, recommendedId);
      var r := PlaceWithin(p, ws[|ws| - 1], leaderEta, recommendedId);
      assert r.ranked[..|p.ranked|] == p.ranked;
      assert r.ranked[..|d.ranked|] == p.ranked[..|d.ranked|];
      assert forall w :: w in ws ==> w in init || w == ws[|ws| - 1];
    }
  }

  /** The entries from position `from` on are in ascending ETA. */
  predicate AscendingFrom(ranked: seq<RankedRoute>, from: nat) {
    forall i, j :: from <= i < j < |ranked| ==> ranked[i].route.etaSeconds <= ranked[j].route.etaSeconds
  }

  /** When `ws` is sorted, step 3 appends its entries in ascending ETA. */
  lemma {:induction false} PlacedWithinOrdered(d: Display, ws: seq<Annotated>, leaderEta: int, recommendedId: string)
    requires SortedByEta(ws)
    ensures AscendingFrom(PlacedWithin(d, ws, leaderEta, recommendedId).ranked, |d.ranked|)
    decreases |ws|
  {
    if ws != [] {
      var init := ws[..|ws| - 1];
      PlacedWithinOrdered(d, init, leaderEta, recommendedId);
      PlacedWithinExtends(d, init, leaderEta, recommendedId);
      var p := PlacedWithin(d, init, leaderEta, recommendedId);
      forall k | |d.ranked| <= k < |p.ranked|
        ensures p.ranked[k].route.etaSeconds <= ws[|ws| - 1].etaSeconds
      {
        var i :| 0 <= i < |init| && init[i] == p.ranked[k].route;
      }
    }
  }

  /** The entries step 4 appends for `xs`, numbered from `from`. */
  function ExceedingEntries(xs: seq<Annotated>, from: nat): seq<RankedRoute> {
    seq(|xs|, i requires 0 <= i < |xs| => RankedRoute(xs[i], ExceedsBudget(xs[i].exceedsBy), from + i))
  }

  /** Step 4, written out: the routes of `xs` in order, each with its
      overage and the next priorities; the listed ids are not touched. */
  lemma {:induction false} PlacedExceedingShape(d: Display, xs: seq<Annotated>)
    ensures PlacedExceeding(d, xs) == Display(d.ranked + ExceedingEntries(xs, d.priority), d.added, d.priority + |xs|)
    decreases |xs|
  {
    if xs != [] {
      var init := xs[..|xs| - 1];
      PlacedExceedingShape(d, init);
      assert ExceedingEntries(xs, d.priority) ==
        ExceedingEntries(init, d.priority) + [RankedRoute(xs[|xs| - 1], ExceedsBudget(xs[|xs| - 1].exceedsBy), d.priority + |init|)];
    }
  }

  /** The entries of steps 1 and 2: the cheapest route first and, when
      `offset` is 1, the fastest second. */
  predicate LeadersShape(lead: Display, offset: nat) {
    |lead.ranked| == (if offset == 1 then 2 else 1) &&
    (lead.ranked[0].reason.TollFree? || lead.ranked[0].reason.LowestToll?) &&
    (offset == 1 ==> lead.ranked[1].reason.Fastest?)
  }

  predicate IsWithinEntry(e: RankedRoute) {
    e.reason.Recommended? || e.reason.WithinBudget?
  }

  /** `d` keeps `lead` in front and appends only entries marked as the
      recommendation or as within budget. */
  predicate ExtendsLeaders(lead: Display, d: Display) {
    |lead.ranked| <= |d.ranked| && d.ranked[..|lead.ranked|] == lead.ranked &&
    forall k :: |lead.ranked| <= k < |d.ranked| ==> IsWithinEntry(d.ranked[k])
  }

  predicate AllExceed(xs: seq<Annotated>, rs: seq<Annotated>) {
    forall x :: x in xs ==> x in rs && x.status == Exceeds
  }

  // ---------------------------------------------------------------- the stages of Optimize

  /** The route `min(..., key=toll)` picks. */
  function Cheapest(rs: seq<Annotated>): Annotated
    requires rs != []
  {
    rs[ArgMin(Tolls(rs))]
  }

  /** The route `min(..., key=eta)` picks. */
  function Quickest(rs: seq<Annotated>): Annotated
    requires rs != []
  {
    rs[ArgMin(Etas(rs))]
  }

  function WithinSorted(rs: seq<Annotated>): seq<Annotated> {
    SortByEta(WithinOnly(rs))
  }

  function Recommendation(rs: seq<Annotated>): string
    requires rs != []
  {
    RecommendedId(Cheapest(rs), WithinSorted(rs))
  }

  /** Later entries are numbered from 2 when the fastest route is listed
      second, from 3 when it shares the cheapest route's id. */
  function Offset(rs: seq<Annotated>): nat
    requires rs != []
  {
    if Quickest(rs).routeId != Cheapest(rs).routeId then 1 else 2
  }

  function AfterLeaders(rs: seq<Annotated>): Display
    requires rs != []
  {
    Leaders(Cheapest(rs), Quickest(rs))
  }

  function AfterStepThree(rs: seq<Annotated>): Display
    requires rs != []
  {
    PlacedWithin(AfterLeaders(rs), WithinSorted(rs), LeaderEta(WithinSorted(rs)), Recommendation(rs))
  }

  function StepFourRoutes(rs: seq<Annotated>): seq<Annotated>
    requires rs != []
  {
    SortByEta(NotAdded(rs, AfterStepThree(rs).added))
  }

  lemma Stages(routes: seq<RouteCandidate>, budget: real)
    requires routes != []
    ensures var rs := AnnotateAll(routes, budget);
      rs != [] &&
      Optimize(routes, budget) ==
        OptimizationResult(budget, Some(Recommendation(rs)),
                           PlacedExceeding(AfterStepThree(rs), StepFourRoutes(rs)).ranked,
                           Advisories(WithinOnly(rs), budget))
  {
  }

  /** The sorted routes within budget are exactly the routes within budget. */
  lemma WithinSortedMembers(rs: seq<Annotated>)
    ensures forall w :: w in WithinSorted(rs) <==> w in rs && w.status == Within
  {
    var ws := WithinSorted(rs);
    WithinOnlyMembers(rs);
    forall w
      ensures w in ws <==> w in WithinOnly(rs)
    {
      assert w in ws <==> w in multiset(ws);
    }
  }

  /** No route within budget is faster than the first of the sorted list. */
  lemma WithinSortedLeader(rs: seq<Annotated>)
    ensures forall w :: w in WithinSorted(rs) ==> LeaderEta(WithinSorted(rs)) <= w.etaSeconds
  {
    var ws := WithinSorted(rs);
    forall w | w in ws
      ensures LeaderEta(ws) <= w.etaSeconds
    {
      var i :| 0 <= i < |ws| && ws[i] == w;
      assert SortedByEta(ws);
    }
  }

  /** Steps 1 to 3 leave a well built display. */
  lemma StepThreeBuilt(rs: seq<Annotated>)
    requires rs != []
    ensures Built(AfterStepThree(rs), rs, Offset(rs), Recommendation(rs))
  {
    var ws := WithinSorted(rs);
    WithinSortedMembers(rs);
    WithinSortedLeader(rs);
    LeadersBuilt(rs, Cheapest(rs), Quickest(rs), Recommendation(rs));
    PlacedWithinBuilt(AfterLeaders(rs), rs, Offset(rs), ws, LeaderEta(ws), Recommendation(rs));
  }

  /** Step 3 keeps the leaders in front, appends only entries marked as the
      recommendation or as within budget, and lists every route within budget. */
  lemma StepThreeExtends(rs: seq<Annotated>)
    requires rs != []
    ensures ExtendsLeaders(AfterLeaders(rs), AfterStepThree(rs))
    ensures ListsWithin(rs, AfterStepThree(rs).added)
  {
    var ws := WithinSorted(rs);
    WithinSortedMembers(rs);
    PlacedWithinExtends(AfterLeaders(rs), ws, LeaderEta(ws), Recommendation(rs));
  }

  /** The id of every route within budget is in `added`. */
  predicate ListsWithin(rs: seq<Annotated>, added: set<string>) {
    forall a :: a in rs && a.status == Within ==> a.routeId in added
  }

  /** After step 3 the id of every route within budget is listed. */
  lemma WithinListed(rs: seq<Annotated>)
    requires rs != []
    ensures ListsWithin(rs, AfterStepThree(rs).added)
  {
    StepThreeExtends(rs);
  }

  /** Step 3 appends in ascending ETA. */
  lemma StepThreeOrdered(rs: seq<Annotated>)
    requires rs != []
    ensures AscendingFrom(AfterStepThree(rs).ranked, |AfterLeaders(rs).ranked|)
  {
    var ws := WithinSorted(rs);
    PlacedWithinOrdered(AfterLeaders(rs), ws, LeaderEta(ws), Recommendation(rs));
  }

  /** A route kept by `NotAdded` is an input route whose id is not listed. */
  lemma NotAddedMember(rs: seq<Annotated>, added: set<string>, x: Annotated)
    requires x in NotAdded(rs, added)
    ensures x in rs && x.routeId !in added
  {
    NotAddedMembers(rs, added);
  }

  /** A route of step 4 is an input route that exceeds the budget. */
  lemma StepFourRouteExceeds(rs: seq<Annotated>, x: Annotated)
    requires rs != [] && x in StepFourRoutes(rs)
    ensures x in rs && x.status == Exceeds
  {
    WithinListed(rs);
    UnlistedExceeds(rs, AfterStepThree(rs).added, x);
  }

  /** When every route within budget is listed, a sorted unlisted route
      exceeds the budget. */
  lemma UnlistedExceeds(rs: seq<Annotated>, added: set<string>, x: Annotated)
    requires ListsWithin(rs, added) && x in SortByEta(NotAdded(rs, added))
    ensures x in rs && x.status == Exceeds
  {
    SortedMember(NotAdded(rs, added), x);
    NotAddedMember(rs, added, x);
  }

  /** Every route of step 4 exceeds the budget. */
  lemma StepFourExceeds(rs: seq<Annotated>)
    requires rs != []
    ensures AllExceed(StepFourRoutes(rs), rs)
  {
    forall x | x in StepFourRoutes(rs) {
      StepFourRouteExceeds(rs, x);
    }
  }

  // ---------------------------------------------------------------- the ranking

  /** The entries of a display followed by those step 4 appends for `xs`. */
  function Listing(d: Display, xs: seq<Annotated>): seq<RankedRoute> {
    d.ranked + ExceedingEntries(xs, d.priority)
  }

  /** The ranking: what steps 1 to 3 list, then the routes of step 4. */
  function Ranked(rs: seq<Annotated>): seq<RankedRoute>
    requires rs != []
  {
    Listing(AfterStepThree(rs), StepFourRoutes(rs))
  }

  lemma OptimizeRanked(routes: seq<RouteCandidate>, budget: real)
    requires routes != []
    ensures var rs := AnnotateAll(routes, budget);
      rs != [] && Optimize(routes, budget).ranked == Ranked(rs)
  {
    var rs := AnnotateAll(routes, budget);
    Stages(routes, budget);
    PlacedExceedingShape(AfterStepThree(rs), StepFourRoutes(rs));
  }

  // ---------------------------------------------------------------- properties of a listing

  predicate EntriesFrom(ranked: seq<RankedRoute>, rs: seq<Annotated>) {
    forall k :: 0 <= k < |ranked| ==> ranked[k].route in rs
  }

  lemma ListingFromRoutes(d: Display, xs: seq<Annotated>, rs: seq<Annotated>)
    requires FromRoutes(d, rs) && AllExceed(xs, rs)
    ensures EntriesFrom(Listing(d, xs), rs)
  {
    var l := Listing(d, xs);
    forall k | 0 <= k < |l|
      ensures l[k].route in rs
    {
      if k >= |d.ranked| {
        assert l[k].route == xs[k - |d.ranked|];
      }
    }
  }

  /** Every route whose id `added` lacks is in `xs`. */
  predicate CoversRest(rs: seq<Annotated>, added: set<string>, xs: seq<Annotated>) {
    forall a :: a in rs && a.routeId !in added ==> a in xs
  }

  predicate ListsEveryId(ranked: seq<RankedRoute>, rs: seq<Annotated>) {
    forall a :: a in rs ==> exists k :: 0 <= k < |ranked| && ranked[k].route.routeId == a.routeId
  }

  lemma ListingListsEveryId(d: Display, xs: seq<Annotated>, rs: seq<Annotated>)
    requires Tracks(d) && CoversRest(rs, d.added, xs)
    ensures ListsEveryId(Listing(d, xs), rs)
  {
    var l := Listing(d, xs);
    forall a | a in rs
      ensures exists k :: 0 <= k < |l| && l[k].route.routeId == a.routeId
    {
      if a.routeId in d.added {
        var k :| 0 <= k < |d.ranked| && d.ranked[k].route.routeId == a.routeId;
        assert l[k] == d.ranked[k];
      } else {
        var m :| 0 <= m < |xs| && xs[m] == a;
        assert l[|d.ranked| + m].route == a;
      }
    }
  }

  /** Priority 1 first, then priorities counting up by one from `offset + 1`. */
  predicate NumberedFrom(ranked: seq<RankedRoute>, offset: nat) {
    |ranked| >= 1 && ranked[0].priority == 1 &&
    forall k :: 1 <= k < |ranked| ==> ranked[k].priority == k + offset
  }

  lemma ListingNumbered(d: Display, xs: seq<Annotated>, offset: nat)
    requires Numbered(d, offset)
    ensures NumberedFrom(Listing(d, xs), offset)
  {
    var l := Listing(d, xs);
    assert l[0] == d.ranked[0];
    forall k | 1 <= k < |l|
      ensures l[k].priority == k + offset
    {
      if k < |d.ranked| {
        assert l[k] == d.ranked[k];
      }
    }
  }

  /** What the reason of the entry at position `k` says about its place and its route. */
  predicate ReasonPlaced(e: RankedRoute, k: int, offset: nat, recommendedId: string) {
    ((e.reason.TollFree? || e.reason.LowestToll?) <==> k == 0) &&
    (e.reason.Fastest? <==> k == 1 && offset == 1) &&
    (e.reason.Recommended? ==> e.route.routeId == recommendedId && e.route.status == Within) &&
    (e.reason.WithinBudget? ==> e.reason.minutesBehind >= 0.0 && e.route.status == Within) &&
    (e.reason.ExceedsBudget? ==> e.route.status == Exceeds && e.reason.overage == e.route.exceedsBy)
  }

  predicate ReasonsPlaced(ranked: seq<RankedRoute>, offset: nat, recommendedId: string) {
    forall k :: 0 <= k < |ranked| ==> ReasonPlaced(ranked[k], k, offset, recommendedId)
  }

  lemma ListingReasons(lead: Display, d: Display, xs: seq<Annotated>, rs: seq<Annotated>,
                       offset: nat, recommendedId: string)
    requires LeadersShape(lead, offset) && ExtendsLeaders(lead, d)
    requires SoundReasons(d, recommendedId) && AllExceed(xs, rs)
    ensures ReasonsPlaced(Listing(d, xs), offset, recommendedId)
  {
    var l := Listing(d, xs);
    forall k | 0 <= k < |l|
      ensures ReasonPlaced(l[k], k, offset, recommendedId)
    {
      if k < |lead.ranked| {
        assert l[k] == d.ranked[k] == lead.ranked[k];
      } else if k < |d.ranked| {
        assert l[k] == d.ranked[k];
      } else {
        assert l[k].route == xs[k - |d.ranked|];
      }
    }
  }

  /** Entries exceeding the budget come after all others, in ascending ETA. */
  predicate ExceedingLast(ranked: seq<RankedRoute>) {
    forall i, j :: 0 <= i < j < |ranked| && ranked[i].reason.ExceedsBudget? ==>
      ranked[j].reason.ExceedsBudget? && ranked[i].route.etaSeconds <= ranked[j].route.etaSeconds
  }

  /** Entries within budget come in ascending ETA. */
  predicate WithinAscending(ranked: seq<RankedRoute>) {
    forall i, j :: 0 <= i < j < |ranked| && IsWithinEntry(ranked[i]) && IsWithinEntry(ranked[j]) ==>
      ranked[i].route.etaSeconds <= ranked[j].route.etaSeconds
  }

  lemma ListingOrder(lead: Display, d: Display, xs: seq<Annotated>, offset: nat, recommendedId: string)
    requires LeadersShape(lead, offset) && ExtendsLeaders(lead, d) && SoundReasons(d, recommendedId)
    requires AscendingFrom(d.ranked, |lead.ranked|) && SortedByEta(xs)
    ensures ExceedingLast(Listing(d, xs)) && WithinAscending(Listing(d, xs))
  {
    var l := Listing(d, xs);
    assert forall k :: 0 <= k < |d.ranked| ==> l[k] == d.ranked[k];
    assert forall k :: 0 <= k < |lead.ranked| ==> d.ranked[k] == lead.ranked[k];
    assert forall k :: |d.ranked| <= k < |l| ==> l[k].route == xs[k - |d.ranked|] && l[k].reason.ExceedsBudget?;
  }

  function RoutesOf(ranked: seq<RankedRoute>): seq<Annotated> {
    seq(|ranked|, k requires 0 <= k < |ranked| => ranked[k].route)
  }

  predicate DistinctIds(rs: seq<Annotated>) {
    forall i, j :: 0 <= i < j < |rs| ==> rs[i].routeId != rs[j].routeId
  }

  /** With distinct ids, a well built display lists, as a multiset, exactly
      the routes whose id it holds. */
  lemma DisplayRoutes(d: Display, rs: seq<Annotated>, offset: nat, recommendedId: string)
    requires Built(d, rs, offset, recommendedId) && DistinctIds(rs)
    ensures multiset(RoutesOf(d.ranked)) == multiset(InAdded(rs, d.added))
  {
    var listed, kept := RoutesOf(d.ranked), InAdded(rs, d.added);
    InAddedMembers(rs, d.added);
    InAddedNoDuplicates(rs, d.added);
    forall x
      ensures x in listed <==> x in kept
    {
      if x in kept {
        var k :| 0 <= k < |d.ranked| && d.ranked[k].route.routeId == x.routeId;
        var i :| 0 <= i < |rs| && rs[i] == x;
        var j :| 0 <= j < |rs| && rs[j] == d.ranked[k].route;
        assert listed[k] == x;
      }
    }
    SameMembers(listed, kept);
  }

  /** Steps 1 to 3 and step 4 together list every route once. */
  lemma ListingPermutation(d: Display, xs: seq<Annotated>, rs: seq<Annotated>)
    requires multiset(RoutesOf(d.ranked)) == multiset(InAdded(rs, d.added))
    requires multiset(xs) == multiset(NotAdded(rs, d.added))
    ensures multiset(RoutesOf(Listing(d, xs))) == multiset(rs)
    ensures |Listing(d, xs)| == |rs|
  {
    var routes := RoutesOf(Listing(d, xs));
    assert routes == RoutesOf(d.ranked) + xs;
    Partition(rs, d.added);
    assert |routes| == |multiset(routes)|;
  }

  // ---------------------------------------------------------------- the ranking, stage by stage

  /** Steps 1 and 2 list the cheapest route and, when its id differs, the fastest. */
  lemma StageLeaders(rs: seq<Annotated>)
    requires rs != []
    ensures LeadersShape(AfterLeaders(rs), Offset(rs))
  {
  }

  /** Every route step 3 leaves unlisted is among the routes of step 4. */
  lemma StepFourCovers(rs: seq<Annotated>)
    requires rs != []
    ensures CoversRest(rs, AfterStepThree(rs).added, StepFourRoutes(rs))
  {
    var added := AfterStepThree(rs).added;
    NotAddedMembers(rs, added);
    forall a | a in rs && a.routeId !in added
      ensures a in StepFourRoutes(rs)
    {
      SortedMember(NotAdded(rs, added), a);
    }
  }

  lemma RankedFromRoutes(rs: seq<Annotated>)
    requires rs != []
    ensures EntriesFrom(Ranked(rs), rs)
  {
    StepThreeBuilt(rs);
    StepFourExceeds(rs);
    ListingFromRoutes(AfterStepThree(rs), StepFourRoutes(rs), rs);
  }

  lemma RankedListsEveryId(rs: seq<Annotated>)
    requires rs != []
    ensures ListsEveryId(Ranked(rs), rs)
  {
    StepThreeBuilt(rs);
    StepFourCovers(rs);
    ListingListsEveryId(AfterStepThree(rs), StepFourRoutes(rs), rs);
  }

  lemma RankedNumbered(rs: seq<Annotated>)
    requires rs != []
    ensures NumberedFrom(Ranked(rs), Offset(rs))
  {
    StepThreeBuilt(rs);
    ListingNumbered(AfterStepThree(rs), StepFourRoutes(rs), Offset(rs));
  }

  lemma RankedReasons(rs: seq<Annotated>)
    requires rs != []
    ensures ReasonsPlaced(Ranked(rs), Offset(rs), Recommendation(rs))
  {
    StageLeaders(rs);
    StepThreeBuilt(rs);
    StepThreeExtends(rs);
    StepFourExceeds(rs);
    ListingReasons(AfterLeaders(rs), AfterStepThree(rs), StepFourRoutes(rs), rs, Offset(rs), Recommendation(rs));
  }

  lemma RankedOrder(rs: seq<Annotated>)
    requires rs != []
    ensures ExceedingLast(Ranked(rs)) && WithinAscending(Ranked(rs))
  {
    StageLeaders(rs);
    StepThreeBuilt(rs);
    StepThreeExtends(rs);
    StepThreeOrdered(rs);
    ListingOrder(AfterLeaders(rs), AfterStepThree(rs), StepFourRoutes(rs), Offset(rs), Recommendation(rs));
  }

  lemma RankedPermutation(rs: seq<Annotated>)
    requires rs != [] && DistinctIds(rs)
    ensures multiset(RoutesOf(Ranked(rs))) == multiset(rs) && |Ranked(rs)| == |rs|
  {
    StepThreeBuilt(rs);
    DisplayRoutes(AfterStepThree(rs), rs, Offset(rs), Recommendation(rs));
    ListingPermutation(AfterStepThree(rs), StepFourRoutes(rs), rs);
  }

  lemma ListingStartsWith(lead: Display, d: Display, xs: seq<Annotated>)
    requires ExtendsLeaders(lead, d)
    ensures |lead.ranked| <= |Listing(d, xs)| && Listing(d, xs)[..|lead.ranked|] == lead.ranked
  {
    assert Listing(d, xs)[..|lead.ranked|] == d.ranked[..|lead.ranked|];
  }

  /** The ranking starts with the entries of steps 1 and 2. */
  lemma RankedStartsWithLeaders(rs: seq<Annotated>)
    requires rs != []
    ensures |AfterLeaders(rs).ranked| <= |Ranked(rs)|
    ensures Ranked(rs)[..|AfterLeaders(rs).ranked|] == AfterLeaders(rs).ranked
  {
    StepThreeExtends(rs);
    ListingStartsWith(AfterLeaders(rs), AfterStepThree(rs), StepFourRoutes(rs));
  }

  // ---------------------------------------------------------------- the recommendation

  /** The first route within budget of least ETA: the head of a stable sort
      by ETA of the routes within budget. */
  predicate FastestWithinAt(rs: seq<Annotated>, k: int) {
    0 <= k < |rs| && rs[k].status == Within &&
    (forall j :: 0 <= j < |rs| && rs[j].status == Within ==> rs[k].etaSeconds <= rs[j].etaSeconds) &&
    (forall j :: 0 <= j < k && rs[j].status == Within ==> rs[k].etaSeconds < rs[j].etaSeconds)
  }

  lemma WithinSortedSnoc(rs: seq<Annotated>)
    requires rs != []
    ensures WithinSorted(rs) ==
      if rs[|rs| - 1].status == Within then InsertByEta(WithinSorted(rs[..|rs| - 1]), rs[|rs| - 1])
      else WithinSorted(rs[..|rs| - 1])
  {
    var init, last := rs[..|rs| - 1], rs[|rs| - 1];
    var xs := WithinOnly(rs);
    if last.status == Within {
      assert xs == WithinOnly(init) + [last];
      assert xs[..|xs| - 1] == WithinOnly(init);
    } else {
      assert xs == WithinOnly(init);
    }
  }

  lemma FastestWithinKeep(rs: seq<Annotated>, k: int)
    requires rs != [] && FastestWithinAt(rs[..|rs| - 1], k)
    requires rs[|rs| - 1].status == Within ==> rs[k].etaSeconds <= rs[|rs| - 1].etaSeconds
    ensures FastestWithinAt(rs, k)
  {
    var init := rs[..|rs| - 1];
    assert forall j :: 0 <= j < |init| ==> rs[j] == init[j];
  }

  lemma FastestWithinLast(rs: seq<Annotated>)
    requires rs != [] && rs[|rs| - 1].status == Within
    requires forall j :: 0 <= j < |rs| - 1 && rs[j].status == Within ==> rs[|rs| - 1].etaSeconds < rs[j].etaSeconds
    ensures FastestWithinAt(rs, |rs| - 1)
  {
  }

  /** One step of `WithinSortedHead`: `s` stands for the sorted routes of
      all but the last route, `t` for those of all the routes. */
  lemma HeadStep(rs: seq<Annotated>, s: seq<Annotated>, t: seq<Annotated>, k0: int) returns (k: nat)
    requires rs != []
    requires t == if rs[|rs| - 1].status == Within then InsertByEta(s, rs[|rs| - 1]) else s
    requires t != []
    requires s == [] ==> forall j :: 0 <= j < |rs| - 1 ==> rs[j].status != Within
    requires s != [] ==> FastestWithinAt(rs[..|rs| - 1], k0) && s[0] == rs[k0]
    ensures FastestWithinAt(rs, k) && t[0] == rs[k]
  {
    var last := rs[|rs| - 1];
    if last.status == Within {
      InsertHead(s, last);
    }
    if last.status == Within && (s == [] || last.etaSeconds < rs[k0].etaSeconds) {
      FastestWithinLast(rs);
      k := |rs| - 1;
    } else {
      FastestWithinKeep(rs, k0);
      k := k0;
    }
  }

  /** The head of the ETA-sorted routes within budget is the first route of
      least ETA among them. */
  lemma {:induction false} WithinSortedHead(rs: seq<Annotated>) returns (k: nat)
    requires WithinSorted(rs) != []
    ensures FastestWithinAt(rs, k) && WithinSorted(rs)[0] == rs[k]
    decreases |rs|
  {
    var init := rs[..|rs| - 1];
    WithinSortedSnoc(rs);
    var s := WithinSorted(init);
    var k0 := 0;
    if s != [] {
      k0 := WithinSortedHead(init);
      assert rs[k0] == init[k0];
    } else {
      NoneWithinBefore(rs);
    }
    k := HeadStep(rs, s, WithinSorted(rs), k0);
  }

  lemma NoneWithinBefore(rs: seq<Annotated>)
    requires rs != [] && WithinSorted(rs[..|rs| - 1]) == []
    ensures forall j :: 0 <= j < |rs| - 1 ==> rs[j].status != Within
  {
    var init := rs[..|rs| - 1];
    forall j | 0 <= j < |init|
      ensures rs[j].status != Within
    {
      WithinSortedMembers(init);
      assert rs[j] == init[j] && init[j] !in WithinSorted(init);
    }
  }

  predicate SomeWithin(rs: seq<Annotated>) {
    exists a :: a in rs && a.status == Within
  }

  /** The recommendation is the first fastest route within budget, or the
      cheapest route when none is within budget. */
  lemma RecommendationChoice(rs: seq<Annotated>)
    requires rs != []
    ensures SomeWithin(rs) ==> exists k :: FastestWithinAt(rs, k) && Recommendation(rs) == rs[k].routeId
    ensures !SomeWithin(rs) ==> Recommendation(rs) == Cheapest(rs).routeId
  {
    WithinSortedMembers(rs);
    if WithinSorted(rs) != [] {
      var k := WithinSortedHead(rs);
    }
  }

  /** When no route is within budget the advisory says so, and only then. */
  lemma AdvisoriesChoice(rs: seq<Annotated>, budget: real)
    ensures Advisories(WithinOnly(rs), budget) == if SomeWithin(rs) then [] else [NoRoutesWithinBudget(budget)]
  {
    WithinOnlyMembers(rs);
    if SomeWithin(rs) {
      var a :| a in rs && a.status == Within;
      assert a in WithinOnly(rs);
    }
  }

  /** The first entry is the cheapest route. */
  lemma RankedFirst(rs: seq<Annotated>)
    requires rs != []
    ensures |Ranked(rs)| >= 1 && Ranked(rs)[0] == RankedRoute(Cheapest(rs), CheapestReason(Cheapest(rs)), 1)
    ensures Ranked(rs)[0].reason.TollFree? || Ranked(rs)[0].reason.LowestToll?
    ensures Ranked(rs)[0].reason.TollFree? <==> Cheapest(rs).toll < TollFreeThreshold
  {
    RankedStartsWithLeaders(rs);
    LeadingEntries(Ranked(rs), Cheapest(rs), Quickest(rs));
  }

  /** A listing that starts with the entries of `Leaders` has them at
      positions 0 and, when the ids differ, 1. */
  lemma LeadingEntries(ranked: seq<RankedRoute>, noToll: Annotated, fastest: Annotated)
    requires var lead := Leaders(noToll, fastest).ranked;
      |lead| <= |ranked| && ranked[..|lead|] == lead
    ensures |ranked| >= 1 && ranked[0] == RankedRoute(noToll, CheapestReason(noToll), 1)
    ensures ranked[0].reason.TollFree? || ranked[0].reason.LowestToll?
    ensures ranked[0].reason.TollFree? <==> noToll.toll < TollFreeThreshold
    ensures fastest.routeId != noToll.routeId ==>
      |ranked| >= 2 && ranked[1] == RankedRoute(fastest, Fastest(Minutes(fastest.etaSeconds), fastest.toll), 2)
  {
    var lead := Leaders(noToll, fastest).ranked;
    assert ranked[0] == lead[0];
    if fastest.routeId != noToll.routeId {
      assert ranked[1] == lead[1];
    }
  }

  /** The second entry is the fastest route when its id differs from the
      cheapest route's; otherwise no entry is marked as the fastest. */
  lemma RankedSecond(rs: seq<Annotated>)
    requires rs != []
    ensures Quickest(rs).routeId != Cheapest(rs).routeId ==>
      |Ranked(rs)| >= 2 &&
      Ranked(rs)[1] == RankedRoute(Quickest(rs), Fastest(Minutes(Quickest(rs).etaSeconds), Quickest(rs).toll), 2)
    ensures Quickest(rs).routeId == Cheapest(rs).routeId ==>
      forall i :: 0 <= i < |Ranked(rs)| ==> !Ranked(rs)[i].reason.Fastest?
  {
    if Quickest(rs).routeId != Cheapest(rs).routeId {
      RankedStartsWithLeaders(rs);
      LeadingEntries(Ranked(rs), Cheapest(rs), Quickest(rs));
    } else {
      RankedReasons(rs);
    }
  }

  /** Where the id of `rs[i]` is ranked. */
  lemma RankedIdIndex(rs: seq<Annotated>, i: int) returns (k: nat)
    requires 0 <= i < |rs|
    ensures k < |Ranked(rs)| && Ranked(rs)[k].route.routeId == rs[i].routeId
  {
    RankedListsEveryId(rs);
    assert rs[i] in rs;
    k :| 0 <= k < |Ranked(rs)| && Ranked(rs)[k].route.routeId == rs[i].routeId;
  }

  /** Step 3 adds nothing when every id it goes through is already listed. */
  lemma {:induction false} PlacedWithinAllListed(d: Display, ws: seq<Annotated>, leaderEta: int, recommendedId: string)
    requires forall w :: w in ws ==> w.routeId in d.added
    ensures PlacedWithin(d, ws, leaderEta, recommendedId) == d
    decreases |ws|
  {
    if ws != [] {
      var init := ws[..|ws| - 1];
      assert forall w :: w in init ==> w in ws;
      PlacedWithinAllListed(d, init, leaderEta, recommendedId);
    }
  }

  /** Step 4 has nothing left when every id is listed. */
  lemma {:induction false} NotAddedNone(rs: seq<Annotated>, added: set<string>)
    requires forall a :: a in rs ==> a.routeId in added
    ensures NotAdded(rs, added) == []
    decreases |rs|
  {
    if rs != [] {
      var init := rs[..|rs| - 1];
      assert forall a :: a in init ==> a in rs;
      assert rs[|rs| - 1] in rs;
      NotAddedNone(init, added);
    }
  }

  /** Two routes within budget sharing the id "mapbox_route_0": the faster one, listed
      second, is ranked nowhere, because its id was taken by the cheaper. */
  lemma SharedIdRanking(slow: Annotated, fast: Annotated)
    requires slow == Annotated("mapbox_route_0", 900, 10000, 0.0, Within, 0.0, "", None)
    requires fast == Annotated("mapbox_route_0", 600, 12000, 1.0, Within, 0.0, "", None)
    ensures Ranked([slow, fast]) == [RankedRoute(slow, TollFree(15.0), 1)]
  {
    var rs := [slow, fast];
    assert Cheapest(rs) == slow;
    assert Quickest(rs) == fast;
    var lead := AfterLeaders(rs);
    assert lead == Display([RankedRoute(slow, TollFree(15.0), 1)], {"mapbox_route_0"}, 3);
    WithinSortedMembers(rs);
    PlacedWithinAllListed(lead, WithinSorted(rs), LeaderEta(WithinSorted(rs)), Recommendation(rs));
    NotAddedNone(rs, {"mapbox_route_0"});
  }
}
