# Sidereal compatibility scoring, modelled in Dafny

This project models the scoring core of the two Vedic compatibility
calculators (`VedicCalculator` and `VedicCalculatorSimple`). The two classes
are copies of one another except for the ephemeris that supplies planetary
longitudes, so their shared logic is modelled once:

- the UTC-offset arithmetic of `parse_input_time` (`±HH:MM` to signed seconds);
- the fixed-ayanamsa conversion `(tropical - 24) % 360` of the simple
  calculator, and its loop over the five bodies;
- the nakshatra classification of the moon's longitude (27 segments,
  capped at 26);
- the shortest angular separation and the orb test against the soft
  (60°, 120°) and hard (0°, 90°, 180°) aspect angles with an 8° orb;
- the per-planet loop of `match_score` over moon, venus, mars and jupiter,
  which accumulates the bonus and fills the `aspect_details` dictionary;
- the assembly of `core36`, `core50`, the clamped bonus, the clamped score
  and its label.

Longitudes are exact `real`s. The 27×27 classical table and the 27 names
are parameters: `ValidTable` asks for a 27×27 table with entries in
[0, 36], and the names are any 27 strings. Position sets are
`map<Body, real>`. The providers guarantee all five bodies and longitudes in
[0, 360) (`ValidPositions`). For the simple calculator the ayanamsa
modulo itself establishes this range (`Calculators.SimpleMatchScore`).

Modules, one per component: `Bodies` (bodies, position sets), `TimeOffset`,
`Sidereal`, `Nakshatra`, `Aspects`, `Scoring` (the body of `match_score`)
and `Calculators` (the simple calculator end to end).

Behaviours of the code worth noting:

- The docstring of `parse_input_time` (vedic_calculator.py:21) documents
  offsets as `±HH:MM`, but an offset without a leading `+` is not rejected.
  Any other first character, a digit included, gives a negative sign and is
  then dropped: `"05:30"` means −5 h 30 min
  (`TimeOffset.UnsignedOffsetIsNegative`).
- The soft and hard orb windows never overlap, so a planet never receives
  both +2 and −2 (`Aspects.WindowsDisjoint`).
- The score is never clamped. It always lies in [22, 88], and the bonus
  always lies in [−8, 8] (`Scoring.ScoreNeverClamped`).
- `core50` cannot be stated exactly for `core36` = 9 and 27, where
  `core36 · 50/36` is exactly a half. The tie is a `TieRule` parameter, and
  every property is proved for each rule. For all other table values the
  float error of `50/36` is far smaller than the 1/18 gap to a half. So exact
  nearest-integer rounding is what the code computes there.

## Model

| member | source | states |
|---|---|---|
| `TimeOffset.Split` | vedic_calculator.py:25 | `str.split(':')` yields at least one field, and no field contains ':'. |
| `TimeOffset.ParseOffset` | vedic_calculator_simple.py:24-26 | An offset fails with `EmptyOffset` exactly when it is empty (the source's IndexError). A successful parse has a rest that splits into exactly two fields. A leading `+` gives a non-negative value and any other first character a non-positive one. Its shape and value are stated by `ParseOffsetShape` and `ParseOffsetValue`. |
| `TimeOffset.ParseOffsetShape` | vedic_calculator.py:24-25 | Every offset that parses is its first character, a digit field, ':' and a second digit field: anything else raises in the source. |
| `TimeOffset.ParseOffsetValue` | vedic_calculator.py:24-26 | For every first character c and digit fields H and M, leading zeros included, the offset c H ':' M parses to sign·(int(H)·3600 + int(M)·60) seconds. The sign is +1 for '+' and −1 for any other c. With `ParseOffsetShape` this gives the value of every parse that succeeds. |
| `TimeOffset.PaddedOffsetEast` | vedic_calculator.py:21-26 | The documented example `"+05:30"`, with its leading zero, parses to 19800 seconds. |
| `TimeOffset.PaddedOffsetWest` | vedic_calculator.py:21-26 | `"-03:00"`, with a leading zero and zero minutes, parses to −10800 seconds. |
| `TimeOffset.JoinSplit` | vedic_calculator.py:25 | `split(':')` loses nothing: joining the fields with ':' restores the string, and no field contains ':'. |
| `TimeOffset.DecimalRoundTrip` | vedic_calculator.py:25 | Reading the decimal rendering of any natural number gives that number back. |
| `TimeOffset.ParseFormatRoundTrip` | vedic_calculator.py:24-26 | For every sign and natural numbers H and M, the offset rendered with their decimal forms without leading zeros parses back to ±(H·3600 + M·60) seconds. Padded forms are covered by `ParseOffsetValue`. |
| `TimeOffset.UnsignedOffsetIsNegative` | vedic_calculator_simple.py:24-26 | `"05:30"` parses to −(5·3600 + 30·60): a missing sign means negative, and the first digit is lost. |
| `Sidereal.Mod360` | vedic_calculator_simple.py:60 | Python's `% 360` on exact reals always lies in [0, 360). |
| `Sidereal.Mod360Unique` | vedic_calculator_simple.py:60 | `% 360` returns the unique value in [0, 360) that differs from the input by a whole number of turns. |
| `Sidereal.SiderealLongitude` | vedic_calculator_simple.py:59-61 | The sidereal longitude `(tropical − 24) % 360` lies in [0, 360). |
| `Sidereal.SiderealIsShift` | vedic_calculator_simple.py:14 | For 24 ≤ tropical < 384 the sidereal longitude is exactly tropical − 24. |
| `Sidereal.SiderealPeriodic` | vedic_calculator_simple.py:59-61 | Adding whole turns to the tropical longitude does not change the sidereal one. |
| `Sidereal.SiderealChart` | vedic_calculator_simple.py:45-63 | The position set of a chart: every body is present, at its sidereal longitude, which lies in [0, 360). |
| `Sidereal.SiderealPositions` | vedic_calculator_simple.py:45-63 | The loop over the five bodies stores each body's sidereal longitude under that body. The result equals `SiderealChart`: a complete position set with every value in [0, 360). |
| `Nakshatra.Truncate` | vedic_calculator.py:74 | Python's `int()` on a real truncates toward zero: for x ≥ 0 the result r is the natural number with r ≤ x < r + 1, and for x < 0 it is the non-positive integer with r − 1 < x ≤ r. |
| `Nakshatra.NakshatraIndex` | vedic_calculator.py:70-75 | The capped index never exceeds 26. |
| `Nakshatra.IndexLocatesSegment` | vedic_calculator.py:70-75 | For 0 ≤ lon < 360 the index i lies in [0, 26] and i·360/27 ≤ lon < (i+1)·360/27. |
| `Nakshatra.CapNeverBinds` | vedic_calculator_simple.py:65-70 | On exact longitudes in [0, 360) the cap at 26 leaves plain truncation unchanged. |
| `Nakshatra.IndexIffSegment` | vedic_calculator_simple.py:65-70 | For k in [0, 26], the index is k if and only if the longitude lies in segment k. |
| `Nakshatra.IndexMonotone` | vedic_calculator.py:73-75 | The index is non-decreasing in the longitude. |
| `Nakshatra.IndexBoundaries` | vedic_calculator.py:70-75 | 0 maps to 0, 13.34 maps to 1, and every longitude from 26·360/27 up to 360 maps to 26. |
| `Aspects.Separation` | vedic_calculator.py:77-80 | The separation is one of the two arcs, \|a − b\| or 360 − \|a − b\|. It is never longer than the direct arc and never exceeds 180. |
| `Aspects.SeparationBounds` | vedic_calculator.py:77-80 | For longitudes in [0, 360) the separation lies in [0, 180], is symmetric, and is 0 exactly when the longitudes are equal. |
| `Aspects.SeparationIsShortestArc` | vedic_calculator.py:77-80 | No whole number of turns gives a shorter distance than the separation, and −1, 0 or +1 turns attains it. |
| `Aspects.WithinOrb` | vedic_calculator.py:82-87 | The orb test can hold only for a non-empty set of targets and a non-negative orb. |
| `Aspects.CheckAspect` | vedic_calculator.py:82-87 | Returns true if and only if some target is within the orb of the angle. The order in which targets are visited is left open. |
| `Aspects.SoftWindows` | vedic_calculator.py:7-9 | On [0, 180] the soft test fires exactly on [52, 68] ∪ [112, 128]. |
| `Aspects.HardWindows` | vedic_calculator.py:7-9 | On [0, 180] the hard test fires exactly on [0, 8] ∪ [82, 98] ∪ [172, 180]. |
| `Aspects.WindowsDisjoint` | vedic_calculator.py:128-134 | No angle passes both the soft test and the hard test. |
| `Aspects.PlanetBonus` | vedic_calculator.py:128-134 | A planet's bonus is −2, 0 or 2: the two tests never both fire. |
| `Aspects.PlanetBonusMeaning` | vedic_calculator.py:128-134 | A planet's bonus is in {−2, 0, 2}. It is 2 exactly when the soft test fires and −2 exactly when the hard test fires. |
| `Scoring.Core50` | vedic_calculator.py:119 | `core50` is within 1/2 of core36·50/36, whatever the tie rule: \|18·core50 − 25·core36\| ≤ 9. |
| `Scoring.Core50IsNearest` | vedic_calculator.py:119 | `core50` is within 1/2 of core36·50/36. Any integer strictly closer than 1/2 equals `core50`. |
| `Scoring.Core50TiesOnlyAt9And27` | vedic_calculator.py:119 | For table values other than 9 and 27, the rounding of halves does not affect `core50`. |
| `Scoring.Core50Range` | vedic_calculator.py:118-119 | For core36 in [0, 36], `core50` is in [0, 50], with 0 ↦ 0 and 36 ↦ 50. |
| `Scoring.Core50StrictlyIncreasing` | vedic_calculator_simple.py:110 | `core50` is strictly increasing in core36, whatever the tie rules. |
| `Scoring.ClampBonus` | vedic_calculator.py:141 | The clamped bonus lies in [−20, 20]. A bonus already in range is unchanged, one above 20 becomes 20 and one below −20 becomes −20. |
| `Scoring.ClampScore` | vedic_calculator.py:145 | The clamped score lies in [0, 100]. A score already in range is unchanged, one above 100 becomes 100 and one below 0 becomes 0. |
| `Scoring.LabelFor` | vedic_calculator.py:148-155 | "Great odds" exactly from 80 up, "Worth the effort" exactly on [60, 80), "Probably a mismatch" exactly below 45, and so "Proceed with caution" on [45, 60). |
| `Scoring.LabelMonotone` | vedic_calculator_simple.py:139-146 | A higher score never gets a lower-ranked label. |
| `Scoring.LabelTextInjective` | vedic_calculator_simple.py:139-146 | The four label texts are pairwise distinct. |
| `Scoring.LabelBoundaries` | vedic_calculator.py:148-155 | 80 gives "Great odds" and 79.9 "Worth the effort". 60 gives "Worth the effort" and 59.9 "Proceed with caution". 45 gives "Proceed with caution" and 44.9 "Probably a mismatch". |
| `Scoring.KeyNameInjective` | vedic_calculator_simple.py:122-129 | Distinct (body, field) keys have distinct `<body>_<field>` spellings. |
| `Scoring.SumBonusBounds` | vedic_calculator.py:122-136 | The summed bonus over n planets lies in [−2n, 2n]. |
| `Scoring.RecordPlanet` | vedic_calculator.py:128-138 | One planet's pass sets its bonus to PlanetBonus(angle). The dictionary gains `_soft` only if the soft test fires and `_hard` only if the hard test fires. It always gains `_angle` and `_bonus`, and no other key changes. |
| `Scoring.EvaluateAspects` | vedic_calculator.py:121-141 | The loop's bonus is the unclamped sum of the four per-planet bonuses and lies in [−8, 8], so the ±20 clamp never binds. Its dictionary holds, for each of the four bodies, the angle and bonus plus exactly the flags whose tests fire. |
| `Scoring.Match` | vedic_calculator.py:114-173 | The result of `match_score` for two valid position sets: score = 30 + core50 + aspect bonus with core50 in [0, 50] and the bonus in [−8, 8], so the score is in [22, 88]; the label is the one for that score. |
| `Scoring.MatchScore` | vedic_calculator.py:114-173 | `match_score` from the two position sets onward equals the declarative `Match`. Its score lies in [22, 88]. |
| `Scoring.ScoreNeverClamped` | vedic_calculator.py:144-145 | core36 is `table[nak_a][nak_b]` with both indices in [0, 26], and the names are `names[nak_a]` and `names[nak_b]`. core50 is in [0, 50]. The bonus is the unclamped sum, in [−8, 8]. score = 30 + core50 + bonus, in [22, 88], so the 0/100 clamp is the identity. |
| `Scoring.DetailsConsistent` | vedic_calculator_simple.py:114-129 | `_angle` and `_bonus` are always written for the four bodies, and the angle is in [0, 180]. The bonus is 2 exactly when `_soft` is present and −2 exactly when `_hard` is. No `sun_*` key ever appears. |
| `Scoring.AspectBonusIsSumOfDetails` | vedic_calculator_simple.py:127-132 | `aspect_bonus` equals the sum of the four reported `<body>_bonus` values. |
| `Scoring.SumBonusOfAspectBodies` | vedic_calculator.py:125-136 | The raw bonus is the sum of moon, venus, mars and jupiter's bonuses. |
| `Scoring.SwapPersons` | vedic_calculator_simple.py:109-132 | Swapping the persons keeps every angle, every bonus and `aspect_bonus`, swaps the two names, and reads the table at `table[nak_b][nak_a]`. Score and breakdown are unchanged exactly when the table is symmetric at that pair. |
| `Calculators.SimpleMatchScore` | vedic_calculator_simple.py:101-110 | From tropical longitudes, the simple calculator's result is `Match` applied to the two sidereal charts. Its score lies in [22, 88], and core36 and the names come from the nakshatras of the sidereal moon longitudes. |

## Left out

- The ephemeris calls (`swe.set_sid_mode`, `swe.julday`, `swe.calc`, `ephem.Observer`, `compute`, `hlong`) are foreign libraries. Positions, and the simple calculator's tropical longitudes, are inputs.
- `datetime_to_julian` is left out for the same reason: it only feeds the ephemeris.
- `datetime.strptime`, `timezone(timedelta(...))` and `utctimetuple` are library date handling. Only the signed-seconds arithmetic is modelled. This includes the library's rejection of offsets of 24 hours or more.
- Python `int()` also accepts surrounding whitespace, underscores, a sign and non-ASCII digits in a field. `TimeOffset.ParseOffset` accepts only ASCII digit strings and reports the others as malformed.
- `round(angle, 1)` is not modelled. Details hold the exact angle.
- `round(score, 1)` needs no model: the score is an integer.
- Floating point in general is not modelled: longitudes are exact reals. Float `%` can return 360.0 for a tiny negative value, and the cap at 26 absorbs that case; both are outside this model.
- `Scoring.Core50IsNearest`: for core36 = 9 and 27 the value of `round` depends on the float value of `50/36` and on half-to-even rounding, so the rounding of halves is the parameter `TieRule`.
- The contents of the classical table and of the nakshatra names live in a module that is not part of this model. They are parameters.
- The insertion order of the `aspect_details` dictionary is not modelled: it is a map.
- The Flask routes, JSON transport and language-model call in app.py, and the print-based harness in test_app.py, are not modelled.
