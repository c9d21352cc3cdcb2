/** The simple calculator end to end from the provider's tropical
    longitudes: the ayanamsa modulo establishes the range that scoring needs,
    so no further precondition is asked of the provider. */
module Calculators {
  import opened Bodies
  import opened Sidereal
  import opened Nakshatra
  import opened Scoring

  method SimpleMatchScore(table: seq<seq<int>>, names: seq<string>, tie: TieRule,
                          tropicalA: Body -> real, tropicalB: Body -> real)
    returns (result: MatchResult)
    requires ValidTable(table) && |names| == 27
    ensures result == Match(table, names, tie, SiderealChart(tropicalA), SiderealChart(tropicalB))
    ensures 22 <= result.score <= 88
    ensures var na, nb := NakshatraIndex(SiderealLongitude(tropicalA(Moon))), NakshatraIndex(SiderealLongitude(tropicalB(Moon)));
      0 <= na <= 26 && 0 <= nb <= 26 &&
      result.breakdown.core36 == table[na][nb] &&
      result.personANakshatra == names[na] && result.personBNakshatra == names[nb]
  {
    var positionsA := SiderealPositions(tropicalA);
    var positionsB := SiderealPositions(tropicalB);
    result := MatchScore(table, names, tie, positionsA, positionsB);
    ScoreNeverClamped(table, names, tie, positionsA, positionsB);
  }
}
