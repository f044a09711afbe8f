/**
 * The Austin facility table (`AustinTollService.TOLL_ROADS`) and what the
 * first-match lookup makes of the interstate names. The Texas-wide table
 * starts with the same six facilities (texas_tolls.dfy).
 */
module AustinTolls {
  import opened Wrappers
  import opened Routes
  import opened Patterns
  import opened TollPricing

  const Toll183Toll: Facility := Facility("183_toll", [
      [Literal("183"), Literal("toll")],
      [Literal("183"), Literal("express")],
      [Literal("us"), Literal("183"), Literal("toll")],
      [Literal("highway"), Literal("183"), Literal("toll")]
    ], 0.65, Dynamic(2.0, true))
  const Sh45Toll: Facility := Facility("sh45_toll", [
      [Literal("sh"), Literal("45")],
      [Literal("state"), Literal("highway"), Literal("45")],
      [Literal("45"), Literal("toll")],
      [Literal("highway"), Literal("45")]
    ], 0.47, Fixed)
  const MopacExpress: Facility := Facility("mopac_express", [
      [Literal("mopac"), Literal("express")],
      [Literal("loop"), Literal("1"), Literal("express")],
      [Joined("mo", "pac"), Literal("toll")],
      [Literal("1"), Literal("loop"), Literal("express")]
    ], 0.95, Dynamic(2.5, true))
  const Sh130Toll: Facility := Facility("sh130_toll", [
      [Literal("sh"), Literal("130")],
      [Literal("state"), Literal("highway"), Literal("130")],
      [Literal("130"), Literal("toll")],
      [Literal("highway"), Literal("130")]
    ], 0.17, Fixed)
  const Tx71Toll: Facility := Facility("tx71_toll", [
      [Literal("tx"), Literal("71"), Literal("toll")],
      [Literal("highway"), Literal("71"), Literal("toll")],
      [Literal("71"), Literal("express")]
    ], 0.50, Fixed)
  const ManorExpressway: Facility := Facility("manor_expressway", [
      [Literal("manor"), Literal("expressway")],
      [Literal("manor"), Literal("toll")],
      [Literal("us"), Literal("290"), Literal("toll")]
    ], 0.42, Fixed)

  /** The table in declaration order. */
  const AustinTable: Table := [Toll183Toll, Sh45Toll, MopacExpress, Sh130Toll, Tx71Toll, ManorExpressway]

  lemma AustinTableWellFormed()
    ensures |AustinTable| == 6
    ensures WellFormedTable(AustinTable)
  {
  }

  // Each facility lemma names a character that every one of the facility's
  // patterns spells, so the facility cannot match a name without it.

  lemma Toll183TollNeeds(letters: set<char>)
    requires '8' !in letters
    ensures AllPatternsLack(Toll183Toll.patterns, letters)
  {
  }

  lemma Sh45TollNeeds(letters: set<char>)
    requires '4' !in letters
    ensures AllPatternsLack(Sh45Toll.patterns, letters)
  {
  }

  lemma MopacExpressNeeds(letters: set<char>)
    requires 'p' !in letters
    ensures AllPatternsLack(MopacExpress.patterns, letters)
  {
  }

  lemma Sh130TollNeeds(letters: set<char>)
    requires '1' !in letters
    ensures AllPatternsLack(Sh130Toll.patterns, letters)
  {
  }

  lemma Tx71TollNeeds(letters: set<char>)
    requires '7' !in letters
    ensures AllPatternsLack(Tx71Toll.patterns, letters)
  {
  }

  lemma ManorExpresswayNeeds(letters: set<char>)
    requires 'o' !in letters
    ensures AllPatternsLack(ManorExpressway.patterns, letters)
  {
  }

  /** Every character of "interstate 35" and of "i-35". */
  const InterstateLetters: set<char> := {'i', 'n', 't', 'e', 'r', 's', 'a', ' ', '3', '5', '-'}

  /** No facility of the Austin table can be found in a name written
      without the six characters the facilities need. */
  lemma AustinEntriesNeedOtherLetters(letters: set<char>)
    requires '8' !in letters && '4' !in letters && 'p' !in letters
    requires '1' !in letters && '7' !in letters && 'o' !in letters
    ensures RangeLacks(AustinTable, letters, 0, 6)
  {
    Toll183TollNeeds(letters);
    Sh45TollNeeds(letters);
    MopacExpressNeeds(letters);
    Sh130TollNeeds(letters);
    Tx71TollNeeds(letters);
    ManorExpresswayNeeds(letters);
  }

  /** "interstate 35" and "i-35" are free roads for the Austin service: no
      facility matches them. */
  lemma InterstateIsNoAustinToll(name: string)
    requires name == "interstate 35" || name == "i-35"
    ensures IdentifyTollRoad(AustinTable, name) == None
  {
    var letters := InterstateLetters;
    assert DrawnFrom(name, letters);
    AustinEntriesNeedOtherLetters(letters);
    SkipRange(AustinTable, name, letters, 0, 6);
  }

  /** Every character of "sh 130 south". */
  const Sh130SouthLetters: set<char> := {'s', 'h', ' ', '1', '3', '0', 'o', 'u', 't'}

  /** `sh.*130`, the first pattern of sh130_toll, is found in "sh 130 south". */
  lemma Sh130SouthMatchesSh130Toll(name: string)
    requires name == "sh 130 south"
    ensures Search(Sh130Toll.patterns[0], name)
  {
    var p := Sh130Toll.patterns[0];
    assert ChunkMatch(p[1], name, 3, 6) && Follows(p[2..], name, 6);
    assert Skippable(name, 2, 3);
    assert ChunkMatch(p[0], name, 0, 2) && Follows(p[1..], name, 2);
  }

  lemma FirstAustinEntriesNeedOtherLetters(letters: set<char>)
    requires '8' !in letters && '4' !in letters && 'p' !in letters
    ensures RangeLacks(AustinTable, letters, 0, 3)
  {
    Toll183TollNeeds(letters);
    Sh45TollNeeds(letters);
    MopacExpressNeeds(letters);
  }

  /** "sh 130 south" matches sh130_toll and none of the three facilities
      before it. */
  lemma Sh130SouthInAustin(name: string)
    requires name == "sh 130 south"
    ensures IdentifyTollRoad(AustinTable, name) == Some(Sh130Toll)
  {
    var letters := Sh130SouthLetters;
    assert DrawnFrom(name, letters);
    FirstAustinEntriesNeedOtherLetters(letters);
    SkipRange(AustinTable, name, letters, 0, 3);
    Sh130SouthMatchesSh130Toll(name);
    HitAt(AustinTable, name, 3, Sh130Toll, 0);
  }

  /** A step on I-35, however capitalised, adds nothing to an Austin toll. */
  lemma InterstateSegmentsAreFree(cfg: ServiceConfig, route: RouteCandidate, now: TimeOfDay, seg: Segment)
    requires cfg.table == AustinTable
    requires Lower(seg.name) == "interstate 35" || Lower(seg.name) == "i-35"
    ensures SegmentToll(cfg, route, now, seg) == 0.0
  {
    InterstateIsNoAustinToll(Lower(seg.name));
  }
}
