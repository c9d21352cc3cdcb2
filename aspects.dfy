/** The aspect helpers: shortest angular separation, the orb test against a
    set of target angles, and the soft/hard windows they induce. */
module Aspects {

  /** "Easy" aspects: sextile and trine. */
  const SoftAngles: set<int> := {60, 120}
  /** "Stress" aspects: conjunction, square and opposition. */
  const HardAngles: set<int> := {0, 90, 180}
  /** Tolerance, in degrees, on either side of a target angle. */
  const Orb: int := 8

  function Abs(x: real): (y: real)
    ensures y >= 0.0 && (y == x || y == -x)
  {
    if x < 0.0 then -x else x
  }

  /** `calculate_aspect_angle`: the shorter way round between two longitudes. */
  function Separation(long1: real, long2: real): (r: real)
    ensures r <= 180.0
    ensures r <= Abs(long1 - long2)
    ensures r == Abs(long1 - long2) || r == 360.0 - Abs(long1 - long2)
  {
    var diff := Abs(long1 - long2);
    if diff <= 360.0 - diff then diff else 360.0 - diff
  }

  /** For longitudes in [0, 360) the separation lies in [0, 180], does not
      depend on the order of its arguments, and is 0 only for equal ones. */
  lemma SeparationBounds(long1: real, long2: real)
    requires 0.0 <= long1 < 360.0 && 0.0 <= long2 < 360.0
    ensures 0.0 <= Separation(long1, long2) <= 180.0
    ensures Separation(long1, long2) == Separation(long2, long1)
    ensures Separation(long1, long2) == 0.0 <==> long1 == long2
  {
  }

  /** The separation is the length of the shortest arc: no whole number of
      turns brings the two longitudes closer, and one of -1, 0, 1 turns
      attains it. */
  lemma SeparationIsShortestArc(long1: real, long2: real, turns: int)
    requires 0.0 <= long1 < 360.0 && 0.0 <= long2 < 360.0
    ensures Separation(long1, long2) <= Abs(long1 - long2 - 360.0 * turns as real)
    ensures Separation(long1, long2) == Abs(long1 - long2)
         || Separation(long1, long2) == Abs(long1 - long2 - 360.0)
         || Separation(long1, long2) == Abs(long1 - long2 + 360.0)
  {
  }

  /** The orb test as a property: some target lies within `orb` of the angle. */
  predicate WithinOrb(angle: real, targets: set<int>, orb: int)
    ensures WithinOrb(angle, targets, orb) ==> targets != {} && orb >= 0
  {
    exists t :: t in targets && Abs(angle - t as real) <= orb as real
  }

  /** `check_aspect`: visits the targets in whatever order the set yields
      them and stops at the first one within the orb. The choice of the next
      target is left open, so the result holds for every iteration order. */
  method CheckAspect(angle: real, targets: set<int>, orb: int := Orb) returns (hit: bool)
    ensures hit <==> exists t :: t in targets && Abs(angle - t as real) <= orb as real
  {
    var remaining := targets;
    while remaining != {}
      invariant remaining <= targets
      invariant forall t :: t in targets && t !in remaining ==> Abs(angle - t as real) > orb as real
      decreases remaining
    {
      EmptyWithoutElements(remaining);
      var target :| target in remaining;
      if Abs(angle - target as real) <= orb as real {
        return true;
      }
      remaining := remaining - {target};
    }
    return false;
  }

  /** A set with no elements is the empty set (lets a loop pick from a
      non-empty set). */
  lemma EmptyWithoutElements(s: set<int>)
    ensures (forall x :: x !in s) ==> s == {}
  {
    if forall x :: x !in s {
      assert forall x :: x in s <==> x in {};
    }
  }

  /** Within [0, 180] the soft test fires exactly on [52, 68] and [112, 128]. */
  lemma SoftWindows(angle: real)
    requires 0.0 <= angle <= 180.0
    ensures WithinOrb(angle, SoftAngles, Orb) <==> (52.0 <= angle <= 68.0 || 112.0 <= angle <= 128.0)
  {
  }

  /** Within [0, 180] the hard test fires exactly on [0, 8], [82, 98] and [172, 180]. */
  lemma HardWindows(angle: real)
    requires 0.0 <= angle <= 180.0
    ensures WithinOrb(angle, HardAngles, Orb) <==> (angle <= 8.0 || 82.0 <= angle <= 98.0 || 172.0 <= angle)
  {
  }

  /** No angle is within the orb of both a soft and a hard target. */
  lemma WindowsDisjoint(angle: real)
    ensures !(WithinOrb(angle, SoftAngles, Orb) && WithinOrb(angle, HardAngles, Orb))
  {
  }

  /** One body's contribution: +2 for a soft aspect, -2 for a hard one. */
  function PlanetBonus(angle: real): (r: int)
    ensures r == -2 || r == 0 || r == 2
  {
    WindowsDisjoint(angle);
    (if WithinOrb(angle, SoftAngles, Orb) then 2 else 0)
    + (if WithinOrb(angle, HardAngles, Orb) then -2 else 0)
  }

  /** Because the windows are disjoint, the bonus names which test fired. */
  lemma PlanetBonusMeaning(angle: real)
    ensures PlanetBonus(angle) in {-2, 0, 2}
    ensures PlanetBonus(angle) == 2 <==> WithinOrb(angle, SoftAngles, Orb)
    ensures PlanetBonus(angle) == -2 <==> WithinOrb(angle, HardAngles, Orb)
  {
  }
}
