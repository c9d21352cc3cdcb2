/** `match_score`: the classical table score, the per-planet aspect loop and
    their combination into a bounded, labelled result. Both calculators run
    this same code; they differ only in the provider of the positions. */
module Scoring {
  import opened Bodies
  import opened Nakshatra
  import opened Aspects

  // ---------------------------------------------------------------------
  // Static reference data (its contents are not part of this model)

  /** A 27 x 27 table of classical scores, each in [0, 36]. */
  ghost predicate ValidTable(table: seq<seq<int>>)
  {
    |table| == 27 &&
    forall i :: 0 <= i < 27 ==> |table[i]| == 27 && forall j :: 0 <= j < 27 ==> 0 <= table[i][j] <= 36
  }

  // ---------------------------------------------------------------------
  // core50

  /** How a product ending in exactly .5 is rounded. The two such table
      scores, 9 and 27, depend on the floating-point value of 50/36 and on
      Python's rounding of halves, so the model leaves the choice open. */
  datatype TieRule = HalfDown | HalfUp | HalfEven

  /** `round(core36 * (50/36))` on exact arithmetic: the integer nearest to
      core36 * 25/18, with halves resolved by `tie`. */
  function Core50(core36: int, tie: TieRule): (r: int)
    ensures -9 <= 18 * r - 25 * core36 <= 9
  {
    var q, rem := (core36 * 25) / 18, (core36 * 25) % 18;
    if 2 * rem < 18 then q
    else if 2 * rem > 18 then q + 1
    else match tie
      case HalfDown => q
      case HalfUp => q + 1
      case HalfEven => if q % 2 == 0 then q else q + 1
  }

  /** core50 is a nearest integer to core36 * 50/36 (in integers:
      |36 core50 - 50 core36| <= 18), and the nearest one outright except at
      the exact halves. */
  lemma Core50IsNearest(core36: int, tie: TieRule, m: int)
    ensures -9 <= 18 * Core50(core36, tie) - 25 * core36 <= 9
    ensures -9 < 18 * m - 25 * core36 < 9 ==> m == Core50(core36, tie)
  {
  }

  /** Within the table's range the halves fall only at 9 and 27. */
  lemma Core50TiesOnlyAt9And27(core36: int, tie1: TieRule, tie2: TieRule)
    requires 0 <= core36 <= 36 && core36 != 9 && core36 != 27
    ensures Core50(core36, tie1) == Core50(core36, tie2)
  {
  }

  /** core50 maps [0, 36] onto [0, 50] with 0 to 0 and 36 to 50. */
  lemma Core50Range(core36: int, tie: TieRule)
    requires 0 <= core36 <= 36
    ensures 0 <= Core50(core36, tie) <= 50
    ensures Core50(0, tie) == 0 && Core50(36, tie) == 50
  {
  }

  /** core50 is strictly increasing, whatever the tie rules: consecutive
      products are 25/18 > 1 apart. */
  lemma Core50StrictlyIncreasing(c1: int, c2: int, tie1: TieRule, tie2: TieRule)
    requires c1 < c2
    ensures Core50(c1, tie1) < Core50(c2, tie2)
  {
  }

  // ---------------------------------------------------------------------
  // Clamps and label

  /** `max(-20, min(20, bonus))`. */
  function ClampBonus(bonus: int): (r: int)
    ensures -20 <= r <= 20
    ensures -20 <= bonus <= 20 ==> r == bonus
    ensures bonus > 20 ==> r == 20
    ensures bonus < -20 ==> r == -20
  {
    if bonus < -20 then -20 else if bonus > 20 then 20 else bonus
  }

  /** `max(0, min(100, score))`. */
  function ClampScore(score: int): (r: int)
    ensures 0 <= r <= 100
    ensures 0 <= score <= 100 ==> r == score
    ensures score > 100 ==> r == 100
    ensures score < 0 ==> r == 0
  {
    if score < 0 then 0 else if score > 100 then 100 else score
  }

  datatype Label = GreatOdds | WorthTheEffort | ProceedWithCaution | ProbablyAMismatch

  function LabelText(band: Label): string
  {
    match band
    case GreatOdds => "Great odds"
    case WorthTheEffort => "Worth the effort"
    case ProceedWithCaution => "Proceed with caution"
    case ProbablyAMismatch => "Probably a mismatch"
  }

  /** Position of a label in the ranking, best first. */
  function Rank(band: Label): int
  {
    match band
    case ProbablyAMismatch => 0
    case ProceedWithCaution => 1
    case WorthTheEffort => 2
    case GreatOdds => 3
  }

  /** The four bands, each closed at its lower threshold. */
  function LabelFor(score: real): (band: Label)
    ensures band == GreatOdds <==> score >= 80.0
    ensures band == ProbablyAMismatch <==> score < 45.0
    ensures band == WorthTheEffort <==> 60.0 <= score < 80.0
  {
    if score >= 80.0 then GreatOdds
    else if score >= 60.0 then WorthTheEffort
    else if score >= 45.0 then ProceedWithCaution
    else ProbablyAMismatch
  }

  /** A higher score never gets a lower-ranked label. */
  lemma LabelMonotone(s1: real, s2: real)
    requires s1 <= s2
    ensures Rank(LabelFor(s1)) <= Rank(LabelFor(s2))
  {
  }

  /** The four labels are distinct texts, so the label text determines the band. */
  lemma LabelTextInjective(l1: Label, l2: Label)
    ensures LabelText(l1) == LabelText(l2) ==> l1 == l2
  {
  }

  /** The band boundaries are exact. */
  lemma LabelBoundaries()
    ensures LabelFor(80.0) == GreatOdds && LabelFor(79.9) == WorthTheEffort
    ensures LabelFor(60.0) == WorthTheEffort && LabelFor(59.9) == ProceedWithCaution
    ensures LabelFor(45.0) == ProceedWithCaution && LabelFor(44.9) == ProbablyAMismatch
  {
  }

  // ---------------------------------------------------------------------
  // The aspect details dictionary

  /** The suffix of an `aspect_details` key. */
  datatype Field = SoftFlag | HardFlag | AngleValue | BonusValue

  /** A key `<body>_<field>` of `aspect_details`. */
  datatype Key = Key(body: Body, field: Field)

  /** A value of `aspect_details`: `True`, an angle, or a bonus. */
  datatype Detail = Flag(isSet: bool) | Angle(degrees: real) | Bonus(points: int)

  function FieldName(f: Field): string
  {
    match f
    case SoftFlag => "soft"
    case HardFlag => "hard"
    case AngleValue => "angle"
    case BonusValue => "bonus"
  }

  /** The dictionary key as the source spells it, e.g. "moon_soft". */
  function KeyName(k: Key): string
  {
    Name(k.body) + "_" + FieldName(k.field)
  }

  /** Separation of one body's longitudes in the two charts. */
  function AspectAngle(pa: Positions, pb: Positions, b: Body): real
    requires ValidPositions(pa) && ValidPositions(pb)
  {
    Separation(pa[b], pb[b])
  }

  /** Whether the loop writes key k: the angle and bonus always, a flag only
      when its test fires. */
  predicate Reported(pa: Positions, pb: Positions, k: Key)
    requires ValidPositions(pa) && ValidPositions(pb)
  {
    match k.field
    case SoftFlag => WithinOrb(AspectAngle(pa, pb, k.body), SoftAngles, Orb)
    case HardFlag => WithinOrb(AspectAngle(pa, pb, k.body), HardAngles, Orb)
    case AngleValue => true
    case BonusValue => true
  }

  /** The value the loop stores under key k. */
  function Reading(pa: Positions, pb: Positions, k: Key): Detail
    requires ValidPositions(pa) && ValidPositions(pb)
  {
    match k.field
    case SoftFlag => Flag(true)
    case HardFlag => Flag(true)
    case AngleValue => Angle(AspectAngle(pa, pb, k.body))
    case BonusValue => Bonus(PlanetBonus(AspectAngle(pa, pb, k.body)))
  }

  /** The keys the loop may write for the given bodies. */
  function KeysOf(bodies: seq<Body>): set<Key>
  {
    set b, f | b in bodies && f in {SoftFlag, HardFlag, AngleValue, BonusValue} :: Key(b, f)
  }

  lemma KeysOfMembership(bodies: seq<Body>, k: Key)
    ensures k in KeysOf(bodies) <==> k.body in bodies
  {
    if k.body in bodies {
      assert k.field in {SoftFlag, HardFlag, AngleValue, BonusValue} by {
        match k.field
        case SoftFlag =>
        case HardFlag =>
        case AngleValue =>
        case BonusValue =>
      }
      assert k == Key(k.body, k.field);
    }
  }

  /** What `aspect_details` holds after visiting `bodies`: every reported
      key of those bodies, with its reading. */
  function ExpectedDetails(pa: Positions, pb: Positions, bodies: seq<Body>): map<Key, Detail>
    requires ValidPositions(pa) && ValidPositions(pb)
  {
    map k | k in KeysOf(bodies) && Reported(pa, pb, k) :: Reading(pa, pb, k)
  }

  /** The raw sum of the per-planet bonuses over `bodies`. */
  function SumBonus(pa: Positions, pb: Positions, bodies: seq<Body>): int
    requires ValidPositions(pa) && ValidPositions(pb)
  {
    if |bodies| == 0 then 0
    else SumBonus(pa, pb, bodies[..|bodies| - 1]) + PlanetBonus(AspectAngle(pa, pb, bodies[|bodies| - 1]))
  }

  /** Each planet adds -2, 0 or 2, so n planets stay within [-2n, 2n]. */
  lemma {:induction false} SumBonusBounds(pa: Positions, pb: Positions, bodies: seq<Body>)
    requires ValidPositions(pa) && ValidPositions(pb)
    ensures -2 * |bodies| <= SumBonus(pa, pb, bodies) <= 2 * |bodies|
  {
    if |bodies| > 0 {
      SumBonusBounds(pa, pb, bodies[..|bodies| - 1]);
      PlanetBonusMeaning(AspectAngle(pa, pb, bodies[|bodies| - 1]));
    }
  }

  /** The aspect loop and the bonus clamp: per planet, run both orb tests,
      record the flags that fire, the angle and the planet's bonus, and add
      the bonus to the running total. The clamp never binds: the total of
      four planets is within [-8, 8]. */
  method EvaluateAspects(pa: Positions, pb: Positions) returns (bonus: int, details: map<Key, Detail>)
    requires ValidPositions(pa) && ValidPositions(pb)
    ensures bonus == SumBonus(pa, pb, AspectBodies)
    ensures -8 <= bonus <= 8
    ensures details == ExpectedDetails(pa, pb, AspectBodies)
  {
    bonus := 0;
    details := map[];
    for i := 0 to |AspectBodies|
      invariant bonus == SumBonus(pa, pb, AspectBodies[..i])
      invariant details == ExpectedDetails(pa, pb, AspectBodies[..i])
    {
      var planet := AspectBodies[i];
      var angle := Separation(pa[planet], pb[planet]);
      var planetBonus;
      planetBonus, details := RecordPlanet(details, planet, angle);
      bonus := bonus + planetBonus;
      LoopStep(pa, pb, AspectBodies[..i], planet);
      assert AspectBodies[..i + 1] == AspectBodies[..i] + [planet];
    }
    assert AspectBodies[..|AspectBodies|] == AspectBodies;
    SumBonusBounds(pa, pb, AspectBodies);
    bonus := ClampBonus(bonus);
  }

  /** One pass of the loop body for one planet: both orb tests, the flags
      that fire, the angle and the planet's bonus. */
  method RecordPlanet(details: map<Key, Detail>, planet: Body, angle: real)
    returns (planetBonus: int, updated: map<Key, Detail>)
    ensures planetBonus == PlanetBonus(angle)
    ensures updated == WithPlanet(details, planet, angle)
  {
    updated := details;
    planetBonus := 0;
    var soft := CheckAspect(angle, SoftAngles);
    if soft {
      planetBonus := planetBonus + 2;
      updated := updated[Key(planet, SoftFlag) := Flag(true)];
    }
    var hard := CheckAspect(angle, HardAngles);
    if hard {
      planetBonus := planetBonus - 2;
      updated := updated[Key(planet, HardFlag) := Flag(true)];
    }
    updated := updated[Key(planet, AngleValue) := Angle(angle)];
    updated := updated[Key(planet, BonusValue) := Bonus(planetBonus)];
  }

  /** The entries one pass of the loop body writes for body b on top of d. */
  function WithPlanet(d: map<Key, Detail>, b: Body, angle: real): map<Key, Detail>
  {
    var d1 := if WithinOrb(angle, SoftAngles, Orb) then d[Key(b, SoftFlag) := Flag(true)] else d;
    var d2 := if WithinOrb(angle, HardAngles, Orb) then d1[Key(b, HardFlag) := Flag(true)] else d1;
    d2[Key(b, AngleValue) := Angle(angle)][Key(b, BonusValue) := Bonus(PlanetBonus(angle))]
  }

  /** One more body adds its bonus to the sum and its entries to the details. */
  lemma LoopStep(pa: Positions, pb: Positions, bodies: seq<Body>, b: Body)
    requires ValidPositions(pa) && ValidPositions(pb)
    requires b !in bodies
    ensures SumBonus(pa, pb, bodies + [b]) == SumBonus(pa, pb, bodies) + PlanetBonus(AspectAngle(pa, pb, b))
    ensures ExpectedDetails(pa, pb, bodies + [b]) == WithPlanet(ExpectedDetails(pa, pb, bodies), b, AspectAngle(pa, pb, b))
  {
    assert (bodies + [b])[..|bodies|] == bodies;
    ExpectedDetailsStep(pa, pb, bodies, b);
  }

  /** Visiting one more body adds exactly that body's reported keys. */
  lemma ExpectedDetailsStep(pa: Positions, pb: Positions, bodies: seq<Body>, b: Body)
    requires ValidPositions(pa) && ValidPositions(pb)
    requires b !in bodies
    ensures WithPlanet(ExpectedDetails(pa, pb, bodies), b, AspectAngle(pa, pb, b)) == ExpectedDetails(pa, pb, bodies + [b])
  {
    var before := ExpectedDetails(pa, pb, bodies);
    var after := WithPlanet(before, b, AspectAngle(pa, pb, b));
    var expected := ExpectedDetails(pa, pb, bodies + [b]);
    forall k: Key ensures (k in after <==> k in expected) && (k in after ==> after[k] == expected[k]) {
      KeysOfMembership(bodies, k);
      KeysOfMembership(bodies + [b], k);
    }
  }

  /** Distinct keys have distinct spellings, so a map over Key models the
      string-keyed dictionary faithfully. */
  lemma KeyNameInjective(k1: Key, k2: Key)
    ensures KeyName(k1) == KeyName(k2) ==> k1 == k2
  {
    if KeyName(k1) == KeyName(k2) {
      var s1, s2 := Name(k1.body), Name(k2.body);
      var n := KeyName(k1);
      assert n == s2 + "_" + FieldName(k2.field);
      assert n[|s1|] == '_' && n[|s2|] == '_';
      assert forall i :: 0 <= i < |s1| ==> n[i] == s1[i] != '_';
      assert forall i :: 0 <= i < |s2| ==> n[i] == s2[i] != '_';
      assert |s1| == |s2|;
      assert s1 == n[..|s1|] == s2;
      assert FieldName(k1.field) == n[|s1| + 1..] == FieldName(k2.field);
    }
  }

  // ---------------------------------------------------------------------
  // The assembled result

  datatype Breakdown = Breakdown(core36: int, core50: int, aspectBonus: int)

  datatype MatchResult = MatchResult(
    score: int,
    verdict: Label,
    breakdown: Breakdown,
    personANakshatra: string,
    personBNakshatra: string,
    aspects: map<Key, Detail>)

  /** What both persons' charts yield, stated declaratively. */
  function Match(table: seq<seq<int>>, names: seq<string>, tie: TieRule, pa: Positions, pb: Positions): (r: MatchResult)
    requires ValidTable(table) && |names| == 27
    requires ValidPositions(pa) && ValidPositions(pb)
    ensures 22 <= r.score <= 88
    ensures r.score == 30 + r.breakdown.core50 + r.breakdown.aspectBonus
    ensures 0 <= r.breakdown.core50 <= 50 && -8 <= r.breakdown.aspectBonus <= 8
    ensures r.verdict == LabelFor(r.score as real)
  {
    IndexLocatesSegment(pa[Moon]);
    IndexLocatesSegment(pb[Moon]);
    var na, nb := NakshatraIndex(pa[Moon]), NakshatraIndex(pb[Moon]);
    Core50Range(table[na][nb], tie);
    SumBonusBounds(pa, pb, AspectBodies);
    var core50 := Core50(table[na][nb], tie);
    var bonus := ClampBonus(SumBonus(pa, pb, AspectBodies));
    var score := ClampScore(30 + core50 + bonus);
    MatchResult(score, LabelFor(score as real), Breakdown(table[na][nb], core50, bonus),
                names[na], names[nb], ExpectedDetails(pa, pb, AspectBodies))
  }

  /** `match_score` from the two position sets onward. */
  method MatchScore(table: seq<seq<int>>, names: seq<string>, tie: TieRule, pa: Positions, pb: Positions)
    returns (result: MatchResult)
    requires ValidTable(table) && |names| == 27
    requires ValidPositions(pa) && ValidPositions(pb)
    ensures result == Match(table, names, tie, pa, pb)
    ensures 22 <= result.score <= 88
  {
    IndexLocatesSegment(pa[Moon]);
    IndexLocatesSegment(pb[Moon]);
    var nakshatraA := NakshatraIndex(pa[Moon]);
    var nakshatraB := NakshatraIndex(pb[Moon]);
    var core36 := table[nakshatraA][nakshatraB];
    var core50 := Core50(core36, tie);
    var bonus, details := EvaluateAspects(pa, pb);
    var score := 30 + core50 + bonus;
    score := ClampScore(score);
    var verdict := LabelFor(score as real);
    result := MatchResult(score, verdict, Breakdown(core36, core50, bonus),
                          names[nakshatraA], names[nakshatraB], details);
    ScoreNeverClamped(table, names, tie, pa, pb);
  }

  /** core36 is the table entry for the two moons' segments, the names are
      theirs, the bonus sum stays in [-8, 8] and the score in [22, 88], so
      neither clamp ever changes a value. */
  lemma ScoreNeverClamped(table: seq<seq<int>>, names: seq<string>, tie: TieRule, pa: Positions, pb: Positions)
    requires ValidTable(table) && |names| == 27
    requires ValidPositions(pa) && ValidPositions(pb)
    ensures var r := Match(table, names, tie, pa, pb);
      var na, nb := NakshatraIndex(pa[Moon]), NakshatraIndex(pb[Moon]);
      0 <= na <= 26 && 0 <= nb <= 26 &&
      r.breakdown.core36 == table[na][nb] &&
      r.personANakshatra == names[na] && r.personBNakshatra == names[nb] &&
      0 <= r.breakdown.core50 <= 50 &&
      r.breakdown.aspectBonus == SumBonus(pa, pb, AspectBodies) &&
      -8 <= r.breakdown.aspectBonus <= 8 &&
      r.score == 30 + r.breakdown.core50 + r.breakdown.aspectBonus &&
      22 <= r.score <= 88
  {
    IndexLocatesSegment(pa[Moon]);
    IndexLocatesSegment(pb[Moon]);
    var na, nb := NakshatraIndex(pa[Moon]), NakshatraIndex(pb[Moon]);
    Core50Range(table[na][nb], tie);
    SumBonusBounds(pa, pb, AspectBodies);
  }

  /** For each aspect body the angle and bonus are always reported, the
      angle lies in [0, 180], the bonus is 2 exactly when the soft flag is
      present and -2 exactly when the hard flag is; the Sun is never reported. */
  lemma DetailsConsistent(pa: Positions, pb: Positions, b: Body)
    requires ValidPositions(pa) && ValidPositions(pb)
    ensures var d := ExpectedDetails(pa, pb, AspectBodies);
      (b == Sun ==> forall f: Field :: Key(Sun, f) !in d) &&
      (b != Sun ==>
        Key(b, AngleValue) in d && Key(b, BonusValue) in d &&
        d[Key(b, AngleValue)] == Angle(Separation(pa[b], pb[b])) &&
        0.0 <= d[Key(b, AngleValue)].degrees <= 180.0 &&
        d[Key(b, BonusValue)].Bonus? &&
        d[Key(b, BonusValue)].points in {-2, 0, 2} &&
        (d[Key(b, BonusValue)].points == 2 <==> Key(b, SoftFlag) in d) &&
        (d[Key(b, BonusValue)].points == -2 <==> Key(b, HardFlag) in d))
  {
    forall f: Field {
      KeysOfMembership(AspectBodies, Key(b, f));
    }
    SeparationBounds(pa[b], pb[b]);
    PlanetBonusMeaning(Separation(pa[b], pb[b]));
  }

  /** The reported `aspect_bonus` is the sum of the four reported per-planet bonuses. */
  lemma AspectBonusIsSumOfDetails(table: seq<seq<int>>, names: seq<string>, tie: TieRule, pa: Positions, pb: Positions)
    requires ValidTable(table) && |names| == 27
    requires ValidPositions(pa) && ValidPositions(pb)
    ensures var r := Match(table, names, tie, pa, pb);
      forall b :: b in AspectBodies ==> Key(b, BonusValue) in r.aspects && r.aspects[Key(b, BonusValue)].Bonus?
    ensures var r := Match(table, names, tie, pa, pb);
      r.breakdown.aspectBonus
        == r.aspects[Key(Moon, BonusValue)].points + r.aspects[Key(Venus, BonusValue)].points
         + r.aspects[Key(Mars, BonusValue)].points + r.aspects[Key(Jupiter, BonusValue)].points
  {
    ScoreNeverClamped(table, names, tie, pa, pb);
    BonusEntry(pa, pb, Moon);
    BonusEntry(pa, pb, Venus);
    BonusEntry(pa, pb, Mars);
    BonusEntry(pa, pb, Jupiter);
    SumBonusOfAspectBodies(pa, pb);
  }

  lemma BonusEntry(pa: Positions, pb: Positions, b: Body)
    requires ValidPositions(pa) && ValidPositions(pb)
    requires b in AspectBodies
    ensures Key(b, BonusValue) in ExpectedDetails(pa, pb, AspectBodies)
    ensures ExpectedDetails(pa, pb, AspectBodies)[Key(b, BonusValue)] == Bonus(PlanetBonus(AspectAngle(pa, pb, b)))
  {
  }

  lemma SumBonusOfAspectBodies(pa: Positions, pb: Positions)
    requires ValidPositions(pa) && ValidPositions(pb)
    ensures SumBonus(pa, pb, AspectBodies)
         == PlanetBonus(AspectAngle(pa, pb, Moon)) + PlanetBonus(AspectAngle(pa, pb, Venus))
          + PlanetBonus(AspectAngle(pa, pb, Mars)) + PlanetBonus(AspectAngle(pa, pb, Jupiter))
  {
    var four := AspectBodies;
    assert four[..3] == [Moon, Venus, Mars];
    assert SumBonus(pa, pb, four) == SumBonus(pa, pb, [Moon, Venus, Mars]) + PlanetBonus(AspectAngle(pa, pb, Jupiter));
    assert [Moon, Venus, Mars][..2] == [Moon, Venus];
    assert SumBonus(pa, pb, [Moon, Venus, Mars]) == SumBonus(pa, pb, [Moon, Venus]) + PlanetBonus(AspectAngle(pa, pb, Mars));
    assert [Moon, Venus][..1] == [Moon];
    assert SumBonus(pa, pb, [Moon, Venus]) == SumBonus(pa, pb, [Moon]) + PlanetBonus(AspectAngle(pa, pb, Venus));
    assert [Moon][..0] == [];
    assert SumBonus(pa, pb, [Moon]) == PlanetBonus(AspectAngle(pa, pb, Moon));
  }

  /** Swapping the two persons leaves every angle, every bonus and the
      aspect bonus unchanged, swaps the two names and reads the table at the
      transposed cell; the score and breakdown survive the swap exactly when
      the table is symmetric at that pair. */
  lemma SwapPersons(table: seq<seq<int>>, names: seq<string>, tie: TieRule, pa: Positions, pb: Positions)
    requires ValidTable(table) && |names| == 27
    requires ValidPositions(pa) && ValidPositions(pb)
    ensures var r1, r2 := Match(table, names, tie, pa, pb), Match(table, names, tie, pb, pa);
      var na, nb := NakshatraIndex(pa[Moon]), NakshatraIndex(pb[Moon]);
      r2.aspects == r1.aspects &&
      r2.breakdown.aspectBonus == r1.breakdown.aspectBonus &&
      r2.personANakshatra == r1.personBNakshatra && r2.personBNakshatra == r1.personANakshatra &&
      r2.breakdown.core36 == table[nb][na] &&
      (r2.score == r1.score <==> table[na][nb] == table[nb][na]) &&
      (r2.breakdown == r1.breakdown <==> table[na][nb] == table[nb][na])
  {
    ScoreNeverClamped(table, names, tie, pa, pb);
    ScoreNeverClamped(table, names, tie, pb, pa);
    var na, nb := NakshatraIndex(pa[Moon]), NakshatraIndex(pb[Moon]);
    forall b: Body ensures AspectAngle(pa, pb, b) == AspectAngle(pb, pa, b) {
      SeparationBounds(pa[b], pb[b]);
    }
    SumBonusSwap(pa, pb, AspectBodies);
    var d1, d2 := ExpectedDetails(pa, pb, AspectBodies), ExpectedDetails(pb, pa, AspectBodies);
    forall k: Key ensures (k in d1 <==> k in d2) && (k in d1 ==> d1[k] == d2[k]) {
    }
    if table[na][nb] != table[nb][na] {
      if table[na][nb] < table[nb][na] {
        Core50StrictlyIncreasing(table[na][nb], table[nb][na], tie, tie);
      } else {
        Core50StrictlyIncreasing(table[nb][na], table[na][nb], tie, tie);
      }
    }
  }

  lemma {:induction false} SumBonusSwap(pa: Positions, pb: Positions, bodies: seq<Body>)
    requires ValidPositions(pa) && ValidPositions(pb)
    requires forall b: Body :: AspectAngle(pa, pb, b) == AspectAngle(pb, pa, b)
    ensures SumBonus(pa, pb, bodies) == SumBonus(pb, pa, bodies)
  {
    if |bodies| > 0 {
      SumBonusSwap(pa, pb, bodies[..|bodies| - 1]);
    }
  }
}
