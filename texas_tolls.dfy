/**
 * The Texas-wide facility table (`TexasTollService.TOLL_ROADS`): Austin,
 * Houston, Dallas-Fort Worth and San Antonio facilities, in declaration
 * order, and what the first-match lookup makes of a few road names.
 */
module TexasTolls {
  import opened Wrappers
  import opened Patterns
  import opened TollPricing
  import opened AustinTolls

  // Houston (HCTRA)
  const SamHoustonTollway: Facility := Facility("sam_houston_tollway", [
      [Literal("sam"), Literal("houston"), Literal("tollway")],
      [Literal("beltway"), Literal("8")],
      [Literal("belt"), Literal("way"), Literal("8")],
      [Literal("bw"), Literal("8")],
      [Literal("beltway 8")]
    ], 0.50, Dynamic(1.8, true))
  const HardyToll: Facility := Facility("hardy_toll", [
      [Literal("hardy"), Literal("toll")],
      [Literal("hardy"), Literal("road")],
      [Literal("sam"), Literal("houston"), Literal("parkway")]
    ], 0.55, Fixed)
  const WestparkTollway: Facility := Facility("westpark_tollway", [
      [Literal("westpark"), Literal("toll")],
      [Literal("west"), Literal("park"), Literal("toll")]
    ], 0.60, Fixed)
  const FortBendTollway: Facility := Facility("fort_bend_tollway", [
      [Literal("fort"), Literal("bend"), Literal("toll")],
      [Literal("fb"), Literal("toll")]
    ], 0.45, Fixed)
  const GrandParkway: Facility := Facility("grand_parkway", [
      [Literal("grand"), Literal("parkway")],
      [Literal("sh"), Literal("99")],
      [Literal("99"), Literal("toll")],
      [Literal("state"), Literal("highway"), Literal("99")]
    ], 0.40, Fixed)
  const TomballTollway: Facility := Facility("tomball_tollway", [
      [Literal("tomball"), Literal("toll")],
      [Literal("249"), Literal("toll")]
    ], 0.48, Fixed)
  // Dallas-Fort Worth (NTTA)
  const DallasNorthTollway: Facility := Facility("dallas_north_tollway", [
      [Literal("dallas"), Literal("north"), Literal("tollway")],
      [Literal("dnt")],
      [Literal("north"), Literal("tollway"), Literal("dallas")]
    ], 0.70, Dynamic(1.9, true))
  const Pgbt: Facility := Facility("pgbt", [
      [Literal("george"), Literal("bush"), Literal("turnpike")],
      [Literal("pgbt")],
      [Literal("bush"), Literal("tollway")],
      [Literal("president"), Literal("bush")]
    ], 0.65, Fixed)
  const SamRayburnTollway: Facility := Facility("sam_rayburn_tollway", [
      [Literal("sam"), Literal("rayburn"), Literal("toll")],
      [Literal("srt")],
      [Literal("rayburn"), Literal("toll")]
    ], 0.60, Fixed)
  const LbjExpress: Facility := Facility("lbj_express", [
      [Literal("lbj"), Literal("express")],
      [Literal("lbj"), Literal("toll")],
      [Literal("635"), Literal("express")],
      [Joined("i", "635"), Literal("express")]
    ], 0.85, Dynamic(2.2, true))
  const Ntt121: Facility := Facility("ntt_121", [
      [Literal("121"), Literal("toll")],
      [Literal("tollway"), Literal("121")],
      [Literal("highway"), Literal("121"), Literal("toll")]
    ], 0.55, Fixed)
  const ChisholmTrail: Facility := Facility("chisholm_trail", [
      [Literal("chisholm"), Literal("trail")],
      [Literal("chisholm"), Literal("parkway")]
    ], 0.58, Fixed)
  const NorthTarrantExpress: Facility := Facility("north_tarrant_express", [
      [Literal("north"), Literal("tarrant"), Literal("express")],
      [Literal("nte")],
      [Literal("820"), Literal("express")]
    ], 0.75, Dynamic(2.0, true))
  // San Antonio
  const Loop1604Toll: Facility := Facility("loop_1604_toll", [
      [Literal("1604"), Literal("toll")],
      [Literal("loop"), Literal("1604"), Literal("toll")]
    ], 0.48, Fixed)
  const Sh130South: Facility := Facility("sh_130_south", [
      [Literal("sh"), Literal("130"), Literal("south")],
      [Literal("130"), Literal("toll"), Literal("south")]
    ], 0.17, Fixed)

  const HoustonTable: Table := [
    SamHoustonTollway, HardyToll, WestparkTollway, FortBendTollway, GrandParkway, TomballTollway
  ]
  const DallasTable: Table := [
    DallasNorthTollway, Pgbt, SamRayburnTollway, LbjExpress, Ntt121, ChisholmTrail, NorthTarrantExpress
  ]
  const SanAntonioTable: Table := [Loop1604Toll, Sh130South]

  /** The table in declaration order: the Austin facilities, then Houston,
      Dallas-Fort Worth and San Antonio. */
  const TexasTable: Table := AustinTable + HoustonTable + DallasTable + SanAntonioTable

  lemma TexasTableWellFormed()
    ensures |TexasTable| == 21
    ensures WellFormedTable(TexasTable)
  {
  }

  // Each facility lemma names a character that every one of the facility's
  // patterns spells (the Austin ones are in austin_tolls.dfy).

  lemma SamHoustonTollwayNeeds(letters: set<char>)
    requires 'w' !in letters
    ensures AllPatternsLack(SamHoustonTollway.patterns, letters)
  {
  }

  lemma HardyTollNeeds(letters: set<char>)
    requires 'h' !in letters
    ensures AllPatternsLack(HardyToll.patterns, letters)
  {
  }

  lemma WestparkTollwayNeeds(letters: set<char>)
    requires 'w' !in letters
    ensures AllPatternsLack(WestparkTollway.patterns, letters)
  {
  }

  lemma FortBendTollwayNeeds(letters: set<char>)
    requires 'f' !in letters
    ensures AllPatternsLack(FortBendTollway.patterns, letters)
  {
  }

  lemma GrandParkwayNeeds(letters: set<char>)
    requires 'g' !in letters && '9' !in letters
    ensures AllPatternsLack(GrandParkway.patterns, letters)
  {
  }

  lemma TomballTollwayNeeds(letters: set<char>)
    requires 'o' !in letters
    ensures AllPatternsLack(TomballTollway.patterns, letters)
  {
  }

  lemma DallasNorthTollwayNeeds(letters: set<char>)
    requires 'd' !in letters
    ensures AllPatternsLack(DallasNorthTollway.patterns, letters)
  {
  }

  lemma PgbtNeeds(letters: set<char>)
    requires 'b' !in letters
    ensures AllPatternsLack(Pgbt.patterns, letters)
  {
  }

  lemma LbjExpressNeeds(letters: set<char>)
    requires 'j' !in letters && '6' !in letters
    ensures AllPatternsLack(LbjExpress.patterns, letters)
  {
  }

  lemma Ntt121Needs(letters: set<char>)
    requires '2' !in letters
    ensures AllPatternsLack(Ntt121.patterns, letters)
  {
  }

  lemma ChisholmTrailNeeds(letters: set<char>)
    requires 'h' !in letters
    ensures AllPatternsLack(ChisholmTrail.patterns, letters)
  {
  }

  lemma SamRayburnTollwayNeeds(letters: set<char>)
    requires 'y' !in letters && 's' !in letters
    ensures AllPatternsLack(SamRayburnTollway.patterns, letters)
  {
  }

  lemma NorthTarrantExpressNeeds(letters: set<char>)
    requires 'n' !in letters && '8' !in letters
    ensures AllPatternsLack(NorthTarrantExpress.patterns, letters)
  {
  }

  lemma Loop1604TollNeeds(letters: set<char>)
    requires 'o' !in letters
    ensures AllPatternsLack(Loop1604Toll.patterns, letters)
  {
  }

  lemma Sh130SouthNeeds(letters: set<char>)
    requires 'o' !in letters
    ensures AllPatternsLack(Sh130South.patterns, letters)
  {
  }

  lemma HoustonEntriesNeedOtherLetters(letters: set<char>)
    requires 'w' !in letters && 'h' !in letters && 'f' !in letters
    requires 'g' !in letters && '9' !in letters && 'o' !in letters
    ensures RangeLacks(HoustonTable, letters, 0, 6)
  {
    SamHoustonTollwayNeeds(letters);
    HardyTollNeeds(letters);
    WestparkTollwayNeeds(letters);
    FortBendTollwayNeeds(letters);
    GrandParkwayNeeds(letters);
    TomballTollwayNeeds(letters);
  }

  /** The Dallas-Fort Worth facilities around the Sam Rayburn Tollway, up to
      the North Tarrant Express. */
  lemma DallasEntriesNeedOtherLetters(letters: set<char>)
    requires 'd' !in letters && 'b' !in letters
    requires 'j' !in letters && '6' !in letters && '2' !in letters && 'h' !in letters
    ensures RangeLacks(DallasTable, letters, 0, 2)
    ensures RangeLacks(DallasTable, letters, 3, 6)
  {
    DallasNorthTollwayNeeds(letters);
    PgbtNeeds(letters);
    LbjExpressNeeds(letters);
    Ntt121Needs(letters);
    ChisholmTrailNeeds(letters);
  }

  /** "srt" is not a substring of "interstate 35", and the other two Sam
      Rayburn patterns spell a 'y'. */
  lemma SamRayburnMissesInterstate(name: string)
    requires name == "interstate 35"
    ensures !MatchesFacility(SamRayburnTollway, name)
  {
    var ps := SamRayburnTollway.patterns;
    var letters := InterstateLetters;
    assert DrawnFrom(name, letters);
    assert PatternLacks(ps[0], letters) && PatternLacks(ps[2], letters);
    LackingPatternNotFound(ps[0], name, letters);
    LackingPatternNotFound(ps[2], name, letters);
    forall i: nat
      ensures !StandsAt("srt", name, i)
    {
      if i + 3 <= |name| {
        if i == 5 {
          assert name[i + 1] != "srt"[1];
        } else {
          assert name[i] != "srt"[0];
        }
      }
    }
    LiteralSearch("srt", name);
    assert ps[1] == [Literal("srt")];
  }

  lemma InterstateInHouston(name: string)
    requires name == "interstate 35" || name == "i-35"
    ensures IdentifyTollRoad(HoustonTable, name) == None
  {
    var letters := InterstateLetters;
    assert DrawnFrom(name, letters);
    HoustonEntriesNeedOtherLetters(letters);
    SkipRange(HoustonTable, name, letters, 0, 6);
  }

  lemma InterstateContainsNte(name: string)
    requires name == "interstate 35"
    ensures Search(NorthTarrantExpress.patterns[1], name)
  {
    assert StandsAt("nte", name, 1);
    LiteralSearch("nte", name);
    assert NorthTarrantExpress.patterns[1] == [Literal("nte")];
  }

  /** "interstate 35" contains "nte", the second pattern of the North Tarrant
      Express; every Dallas-Fort Worth facility before it needs a character
      the name lacks, or (the Sam Rayburn Tollway) a substring it lacks. */
  lemma InterstateInDallas(name: string)
    requires name == "interstate 35"
    ensures IdentifyTollRoad(DallasTable, name) == Some(NorthTarrantExpress)
  {
    var letters := InterstateLetters;
    assert DrawnFrom(name, letters);
    DallasEntriesNeedOtherLetters(letters);
    SkipRange(DallasTable, name, letters, 0, 2);
    SamRayburnMissesInterstate(name);
    assert DallasTable[2] == SamRayburnTollway;
    SkipRange(DallasTable, name, letters, 3, 6);
    InterstateContainsNte(name);
    HitAt(DallasTable, name, 6, NorthTarrantExpress, 1);
  }

  /** The Texas lookup resolves "interstate 35", a free interstate, to the
      North Tarrant Express, because "nte" occurs inside "interstate". */
  lemma InterstateIsNorthTarrantExpress(name: string)
    requires name == "interstate 35"
    ensures IdentifyTollRoad(TexasTable, name) == Some(NorthTarrantExpress)
    ensures NorthTarrantExpress.id == "north_tarrant_express"
  {
    InterstateIsNoAustinToll(name);
    InterstateInHouston(name);
    InterstateInDallas(name);
    LookupInConcatenation(AustinTable, HoustonTable, name);
    LookupInConcatenation(AustinTable + HoustonTable, DallasTable, name);
    LookupInConcatenation(AustinTable + HoustonTable + DallasTable, SanAntonioTable, name);
  }

  /** Every character of "i-35". */
  const ShortInterstateLetters: set<char> := {'i', '-', '3', '5'}

  lemma AllDallasEntriesNeedOtherLetters(letters: set<char>)
    requires 'd' !in letters && 'b' !in letters && 'y' !in letters && 's' !in letters
    requires 'j' !in letters && '6' !in letters && '2' !in letters && 'h' !in letters
    requires 'n' !in letters && '8' !in letters
    ensures RangeLacks(DallasTable, letters, 0, 7)
  {
    DallasNorthTollwayNeeds(letters);
    PgbtNeeds(letters);
    SamRayburnTollwayNeeds(letters);
    LbjExpressNeeds(letters);
    Ntt121Needs(letters);
    ChisholmTrailNeeds(letters);
    NorthTarrantExpressNeeds(letters);
  }

  lemma ShortInterstateInDallas(name: string)
    requires name == "i-35"
    ensures IdentifyTollRoad(DallasTable, name) == None
  {
    var letters := ShortInterstateLetters;
    assert DrawnFrom(name, letters);
    AllDallasEntriesNeedOtherLetters(letters);
    SkipRange(DallasTable, name, letters, 0, 7);
  }

  lemma ShortInterstateInSanAntonio(name: string)
    requires name == "i-35"
    ensures IdentifyTollRoad(SanAntonioTable, name) == None
  {
    var letters := ShortInterstateLetters;
    assert DrawnFrom(name, letters);
    Loop1604TollNeeds(letters);
    Sh130SouthNeeds(letters);
    SkipRange(SanAntonioTable, name, letters, 0, 2);
  }

  /** "i-35" has no "nte" in it: no Texas facility matches it. */
  lemma ShortInterstateIsFree(name: string)
    requires name == "i-35"
    ensures IdentifyTollRoad(TexasTable, name) == None
  {
    InterstateIsNoAustinToll(name);
    InterstateInHouston(name);
    ShortInterstateInDallas(name);
    ShortInterstateInSanAntonio(name);
    LookupInConcatenation(AustinTable, HoustonTable, name);
    LookupInConcatenation(AustinTable + HoustonTable, DallasTable, name);
    LookupInConcatenation(AustinTable + HoustonTable + DallasTable, SanAntonioTable, name);
  }

  /** "sh 130 south" is claimed by the Austin entry sh130_toll, the fourth
      facility of the Texas table. */
  lemma Sh130SouthIsSh130Toll(name: string)
    requires name == "sh 130 south"
    ensures IdentifyTollRoad(TexasTable, name) == Some(Sh130Toll)
    ensures Sh130Toll.id == "sh130_toll"
  {
    Sh130SouthInAustin(name);
    LookupInConcatenation(AustinTable, HoustonTable, name);
    LookupInConcatenation(AustinTable + HoustonTable, DallasTable, name);
    LookupInConcatenation(AustinTable + HoustonTable + DallasTable, SanAntonioTable, name);
  }

  lemma Sh130SouthExtendsSh130Toll()
    ensures Extends(Sh130South, Sh130Toll)
  {
    forall q | q in Sh130South.patterns
      ensures exists p :: p in Sh130Toll.patterns && |p| <= |q| && q[..|p|] == p
    {
      var p := if q == Sh130South.patterns[0] then Sh130Toll.patterns[0] else Sh130Toll.patterns[2];
      assert p in Sh130Toll.patterns && |p| <= |q| && q[..|p|] == p;
    }
  }

  lemma TexasTableStartsWithAustin()
    ensures TexasTable == AustinTable + (HoustonTable + DallasTable + SanAntonioTable)
    ensures Sh130Toll in AustinTable && Sh130South !in AustinTable
  {
    assert AustinTable[3] == Sh130Toll;
  }

  /** Every pattern of sh_130_south extends a pattern of sh130_toll, which
      comes first: the Texas lookup never returns sh_130_south, whatever the
      name. */
  lemma Sh130SouthNeverReturned(name: string)
    ensures IdentifyTollRoad(TexasTable, name) != Some(Sh130South)
    ensures Sh130South.id == "sh_130_south"
  {
    Sh130SouthExtendsSh130Toll();
    TexasTableStartsWithAustin();
    Shadowed(AustinTable, HoustonTable + DallasTable + SanAntonioTable, name, Sh130Toll, Sh130South);
  }
}
