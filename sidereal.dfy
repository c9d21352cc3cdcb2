/** The approximate sidereal conversion of the simple calculator: a fixed
    ayanamsa subtracted from each tropical longitude, reduced modulo 360. */
module Sidereal {
  import opened Bodies

  /** Approximate Lahiri ayanamsa, in degrees. */
  const Ayanamsa: real := 24.0

  /** Python's `x % 360` on exact reals: the remainder takes the sign of the
      divisor, so it is never negative. */
  function Mod360(x: real): (r: real)
    ensures 0.0 <= r < 360.0
  {
    x - 360.0 * (x / 360.0).Floor as real
  }

  /** Mod360 picks the one representative of x's class in [0, 360). */
  lemma Mod360Unique(x: real, r: real, k: int)
    requires 0.0 <= r < 360.0 && x == r + 360.0 * k as real
    ensures Mod360(x) == r
  {
    var q := (x / 360.0).Floor;
    assert x / 360.0 == r / 360.0 + k as real;
    assert k as real <= x / 360.0 < k as real + 1.0;
    assert q == k;
  }

  /** Sidereal longitude from a tropical one. */
  function SiderealLongitude(tropical: real): (lon: real)
    ensures 0.0 <= lon < 360.0
  {
    Mod360(tropical - Ayanamsa)
  }

  /** Within one turn above the ayanamsa the modulo leaves the difference as is. */
  lemma SiderealIsShift(tropical: real)
    requires Ayanamsa <= tropical < Ayanamsa + 360.0
    ensures SiderealLongitude(tropical) == tropical - Ayanamsa
  {
  }

  /** A full turn of the tropical longitude does not change the result. */
  lemma SiderealPeriodic(tropical: real, turns: int)
    ensures SiderealLongitude(tropical + 360.0 * turns as real) == SiderealLongitude(tropical)
  {
    var x := tropical - Ayanamsa;
    var k := (x / 360.0).Floor;
    Mod360Unique(x + 360.0 * turns as real, Mod360(x), k + turns);
  }

  /** The loop of `get_planetary_positions`: one sidereal longitude per body
      of the provider, stored under that body. */
  /** The chart the provider loop builds, as one value: every body at its
      sidereal longitude. */
  function SiderealChart(tropical: Body -> real): (positions: Positions)
    ensures ValidPositions(positions)
    ensures forall b: Body :: positions[b] == SiderealLongitude(tropical(b))
  {
    assert forall b: Body :: b in ProviderOrder by {
      forall b: Body ensures b in ProviderOrder {
        ProviderOrderCoversAllBodies(b);
      }
    }
    map b: Body | b in ProviderOrder :: SiderealLongitude(tropical(b))
  }

  method SiderealPositions(tropical: Body -> real) returns (positions: Positions)
    ensures positions == SiderealChart(tropical)
    ensures ValidPositions(positions)
    ensures forall b: Body :: positions[b] == SiderealLongitude(tropical(b))
  {
    positions := map[];
    var i := 0;
    while i < |ProviderOrder|
      invariant 0 <= i <= |ProviderOrder|
      invariant forall b :: b in positions <==> b in ProviderOrder[..i]
      invariant forall b :: b in positions ==> positions[b] == SiderealLongitude(tropical(b))
    {
      var body := ProviderOrder[i];
      positions := positions[body := SiderealLongitude(tropical(body))];
      i := i + 1;
    }
    assert ProviderOrder[..i] == ProviderOrder;
    forall b: Body ensures b in positions {
      ProviderOrderCoversAllBodies(b);
    }
  }
}
