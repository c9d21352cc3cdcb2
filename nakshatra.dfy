/** `get_nakshatra_index`: the 27 equal lunar segments of the zodiac. */
module Nakshatra {

  const NakshatraCount: int := 27

  /** Width of one segment, 360/27 = 13.33... degrees. */
  const NakshatraSpan: real := 360.0 / 27.0

  /** Python's `int()` on a real: truncation toward zero. */
  function Truncate(x: real): (r: int)
    ensures x >= 0.0 ==> 0 <= r && r as real <= x < r as real + 1.0
    ensures x < 0.0 ==> r <= 0 && r as real - 1.0 < x <= r as real
  {
    if x >= 0.0 then x.Floor else -((-x).Floor)
  }

  /** Segment index of a moon longitude, capped at the last segment. */
  function NakshatraIndex(moonLongitude: real): (index: int)
    ensures index <= 26
  {
    var index := Truncate(moonLongitude / NakshatraSpan);
    if index < 26 then index else 26
  }

  /** The index names the segment holding the longitude, and is in [0, 26]. */
  lemma IndexLocatesSegment(lon: real)
    requires 0.0 <= lon < 360.0
    ensures 0 <= NakshatraIndex(lon) <= 26
    ensures NakshatraIndex(lon) as real * NakshatraSpan <= lon < (NakshatraIndex(lon) + 1) as real * NakshatraSpan
  {
  }

  /** On exact longitudes the cap never changes plain truncation: it only
      guards against rounding up to 27 in floating point. */
  lemma CapNeverBinds(lon: real)
    requires 0.0 <= lon < 360.0
    ensures NakshatraIndex(lon) == Truncate(lon / NakshatraSpan)
  {
  }

  /** A longitude belongs to segment k exactly when the index is k. */
  lemma IndexIffSegment(lon: real, k: int)
    requires 0.0 <= lon < 360.0 && 0 <= k <= 26
    ensures NakshatraIndex(lon) == k <==> k as real * NakshatraSpan <= lon < (k + 1) as real * NakshatraSpan
  {
  }

  /** A larger longitude never lies in an earlier segment. */
  lemma IndexMonotone(lon1: real, lon2: real)
    requires 0.0 <= lon1 <= lon2 < 360.0
    ensures NakshatraIndex(lon1) <= NakshatraIndex(lon2)
  {
  }

  /** The boundary values: 0 is in the first segment, 13.34 just past the
      first boundary, and everything from 26 spans up to 360 in the last. */
  lemma IndexBoundaries(lon: real)
    requires 26.0 * NakshatraSpan <= lon < 360.0
    ensures NakshatraIndex(0.0) == 0
    ensures NakshatraIndex(13.34) == 1
    ensures NakshatraIndex(lon) == 26
  {
  }
}
