/** The five bodies whose longitudes the position providers report, and the
    position sets both calculators pass around. */
module Bodies {

  datatype Body = Moon | Sun | Mars | Venus | Jupiter

  /** The order in which both providers fill their position dictionaries. */
  const ProviderOrder: seq<Body> := [Moon, Sun, Mars, Venus, Jupiter]

  /** The bodies the aspect loop visits, in its order; the Sun is left out. */
  const AspectBodies: seq<Body> := [Moon, Venus, Mars, Jupiter]

  /** Lower-case dictionary key under which a body is stored. */
  function Name(b: Body): string
  {
    match b
    case Moon => "moon"
    case Sun => "sun"
    case Mars => "mars"
    case Venus => "venus"
    case Jupiter => "jupiter"
  }

  /** Sidereal longitudes in degrees, one per body. */
  type Positions = map<Body, real>

  /** What a position provider guarantees: every body present, each
      longitude in [0, 360). */
  ghost predicate ValidPositions(p: Positions)
  {
    forall b: Body :: b in p && 0.0 <= p[b] < 360.0
  }

  lemma ProviderOrderCoversAllBodies(b: Body)
    ensures b in ProviderOrder
  {
  }
}
