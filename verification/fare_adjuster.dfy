/** The fare adjuster: one fixed chain of multipliers applied to a running fare,
    in the order amenities, departure-time bracket, seat position, seat type.
    Factors and products are exact rationals standing in for the source's
    binary floating-point multiplications, and the final rounding to two
    decimals is not applied. */
module FareAdjuster {
  import opened Wrappers
  import opened ClockTime

  /** Seat position as the adjuster reads its string argument. */
  datatype Position = Upper | Lower | UnknownPosition

  /** Seat type as the adjuster reads its string argument. */
  datatype SeatType = Single | DoubleVacant | DoubleOneFilled | UnknownType

  function ClassifyPosition(s: string): Position {
    if s == "upper" then Upper
    else if s == "lower" then Lower
    else UnknownPosition
  }

  function ClassifySeatType(s: string): SeatType {
    if s == "single" then Single
    else if s == "double_vacant" then DoubleVacant
    else if s == "double_one_filled" then DoubleOneFilled
    else UnknownType
  }

  /** An amenity tag and the factor its presence applies. */
  datatype AmenityRule = AmenityRule(tag: string, factor: real)

  /** The amenity tests, in the order the source applies them. */
  const AmenityRules: seq<AmenityRule> := [
    AmenityRule("WiFi", 1.02),
    AmenityRule("Washroom", 1.05),
    AmenityRule("Multi-axle", 1.02),
    AmenityRule("9600", 1.015)
  ]

  function BracketFactor(b: Bracket): real {
    match b
    case Evening => 1.05
    case Night => 1.06
    case LateNight => 0.98
    case NoBracket => 1.0
  }

  function PositionFactor(p: Position): real {
    match p
    case Upper => 0.995
    case Lower => 1.00
    case UnknownPosition => 1.0
  }

  function SeatTypeFactor(k: SeatType): real {
    match k
    case Single => 1.07
    case DoubleVacant => 1.0
    case DoubleOneFilled => 0.99
    case UnknownType => 1.0
  }

  /** A missing (None or NaN) base fare counts as 0. */
  function BaseOrZero(base: Option<real>): real {
    if base.Some? then base.value else 0.0
  }

  /** One amenity test: multiply when the tag is present, leave the value otherwise. */
  function AmenityStage(v: real, rule: AmenityRule, amenities: seq<string>): real {
    if rule.tag in amenities then v * rule.factor else v
  }

  /** The amenity stage as the source runs it: the tests from rule `i` on, each
      multiplying the running value when its tag is present; its contract is
      ApplyAmenitiesIsProduct. (`amenities` is named in the decreases clause of
      this function and of AmenityProduct so that the verifier does not unroll
      them over the literal rule table whole.) */
  function ApplyAmenities(v: real, amenities: seq<string>, rules: seq<AmenityRule>, i: nat): real
    requires i <= |rules|
    decreases |rules| - i, amenities
  {
    if i == |rules| then v
    else ApplyAmenities(AmenityStage(v, rules[i], amenities), amenities, rules, i + 1)
  }

  /** The factor one rule contributes for a given amenity list. */
  function RuleFactor(rule: AmenityRule, amenities: seq<string>): real {
    if rule.tag in amenities then rule.factor else 1.0
  }

  /** The product of the factors of the rules from `i` on whose tag is present. */
  function AmenityProduct(amenities: seq<string>, rules: seq<AmenityRule>, i: nat): real
    requires i <= |rules|
    decreases |rules| - i, amenities
  {
    if i == |rules| then 1.0
    else RuleFactor(rules[i], amenities) * AmenityProduct(amenities, rules, i + 1)
  }

  /** The factor of the three stages after the amenities. */
  function SeatStagesFactor(t: Minute, p: Position, k: SeatType): real {
    BracketFactor(BracketOf(t)) * PositionFactor(p) * SeatTypeFactor(k)
  }

  /** The product of every factor of the chain that applies to one seat: the
      amenity factor times `stages`, the factor of the later stages (always
      SeatStagesFactor of the seat's departure, position and seat type). */
  function FareFactor(amenities: seq<string>, stages: real): real {
    AmenityProduct(amenities, AmenityRules, 0) * stages
  }

  /** The stage chain on a running fare, once the departure time is known:
      amenities, then bracket, then position, then seat type, each multiplying
      the value the previous stage left. The result is the starting value times
      the product of every applicable factor. */
  function ApplyStages(fare: real, amenities: seq<string>, t: Minute, p: Position, k: SeatType): (r: real)
    ensures r == fare * FareFactor(amenities, SeatStagesFactor(t, p, k))
  {
    var afterAmenities := ApplyAmenities(fare, amenities, AmenityRules, 0);
    ApplyAmenitiesIsProduct(fare, amenities, AmenityRules, 0);
    var x, y, z := BracketFactor(BracketOf(t)), PositionFactor(p), SeatTypeFactor(k);
    ChainIsProduct(afterAmenities, fare, AmenityProduct(amenities, AmenityRules, 0), x, y, z);
    afterAmenities * x * y * z
  }

  /** Algebra step for the solver, modelling nothing of its own: multiplying a
      running value stage by stage equals multiplying the base by the product
      of the stages. */
  lemma ChainIsProduct(v: real, fare: real, a: real, x: real, y: real, z: real)
    requires v == fare * a
    ensures v * x * y * z == fare * (a * (x * y * z))
  {
  }

  /** The adjusted fare, before rounding. A missing base counts as 0; the
      departure time is the only input that can make it fail. (The source runs
      the amenity stage before reading the time; no other stage can fail, so
      reading it first changes nothing.) */
  function CalculateFare(base: Option<real>, amenities: seq<string>, departure: string,
                         position: string, seatType: string): (r: Result<real, TimeError>)
    ensures ParseTime(departure).Failure? ==> r == Failure(Unparsable(departure))
    ensures ParseTime(departure).Success? ==>
      r == Success(BaseOrZero(base) * FareFactor(amenities, SeatStagesFactor(ParseTime(departure).value, ClassifyPosition(position), ClassifySeatType(seatType))))
  {
    var parsed := ParseTime(departure);
    if parsed.Failure? then Failure(parsed.error)
    else Success(ApplyStages(BaseOrZero(base), amenities, parsed.value,
                             ClassifyPosition(position), ClassifySeatType(seatType)))
  }

  // ---------------------------------------------------------------------------
  // The amenity stage

  /** Running the amenity tests one after another multiplies the value by the
      product of the factors of the tags present. */
  lemma {:induction false} ApplyAmenitiesIsProduct(v: real, amenities: seq<string>, rules: seq<AmenityRule>, i: nat)
    requires i <= |rules|
    ensures ApplyAmenities(v, amenities, rules, i) == v * AmenityProduct(amenities, rules, i)
    decreases |rules| - i
  {
    if i < |rules| {
      var f := RuleFactor(rules[i], amenities);
      var rest := AmenityProduct(amenities, rules, i + 1);
      var v' := AmenityStage(v, rules[i], amenities);
      assert v' == v * f;
      ApplyAmenitiesIsProduct(v', amenities, rules, i + 1);
      assert (v * f) * rest == v * (f * rest);
    }
  }

  /** Only which tags are present matters: order and repetition in the amenity
      list do not change the amenity factor. */
  lemma {:induction false} AmenityProductByMembership(a1: seq<string>, a2: seq<string>, rules: seq<AmenityRule>, i: nat)
    requires i <= |rules|
    requires forall j :: i <= j < |rules| ==> (rules[j].tag in a1 <==> rules[j].tag in a2)
    ensures AmenityProduct(a1, rules, i) == AmenityProduct(a2, rules, i)
    decreases |rules| - i
  {
    if i < |rules| {
      AmenityProductByMembership(a1, a2, rules, i + 1);
    }
  }

  /** Amenity tests are independent: adding an absent tag multiplies the amenity
      factor by that tag's own factor, whatever else is present. */
  lemma {:induction false} AddAmenity(amenities: seq<string>, tag: string, rules: seq<AmenityRule>, i: nat)
    requires i <= |rules|
    requires tag !in amenities
    ensures AmenityProduct(amenities + [tag], rules, i)
         == AmenityProduct([tag], rules, i) * AmenityProduct(amenities, rules, i)
    decreases |rules| - i
  {
    if i < |rules| {
      var r := rules[i];
      var g := RuleFactor(r, [tag]);
      var h := RuleFactor(r, amenities);
      assert r.tag in amenities + [tag] <==> r.tag in amenities || r.tag == tag;
      assert RuleFactor(r, amenities + [tag]) == g * h;
      AddAmenity(amenities, tag, rules, i + 1);
      var p := AmenityProduct([tag], rules, i + 1);
      var q := AmenityProduct(amenities, rules, i + 1);
      assert (g * h) * (p * q) == (g * p) * (h * q);
    }
  }

  /** No two rules test the same tag. */
  predicate DistinctTags(rules: seq<AmenityRule>) {
    forall a, b :: 0 <= a < b < |rules| ==> rules[a].tag != rules[b].tag
  }

  /** With distinct tags, an amenity list holding just rule `k`'s tag picks out
      rule `k`'s factor and no other. */
  lemma {:induction false} SingleTagProduct(rules: seq<AmenityRule>, k: nat, i: nat)
    requires DistinctTags(rules)
    requires k < |rules| && i <= |rules|
    ensures AmenityProduct([rules[k].tag], rules, i) == if i <= k then rules[k].factor else 1.0
    decreases |rules| - i
  {
    if i < |rules| {
      SingleTagProduct(rules, k, i + 1);
      assert rules[i].tag in [rules[k].tag] <==> i == k;
    }
  }

  /** The product of every factor in a rule list from rule `i` on. */
  function AllFactors(rules: seq<AmenityRule>, i: nat): real
    requires i <= |rules|
    decreases |rules| - i
  {
    if i == |rules| then 1.0 else rules[i].factor * AllFactors(rules, i + 1)
  }

  /** With factors of at least 1, the amenity factor lies between 1 (no tag
      present) and the product of all factors (every tag present). */
  lemma {:induction false} AmenityProductBounds(amenities: seq<string>, rules: seq<AmenityRule>, i: nat)
    requires i <= |rules|
    requires forall j :: i <= j < |rules| ==> rules[j].factor >= 1.0
    ensures 1.0 <= AmenityProduct(amenities, rules, i) <= AllFactors(rules, i)
    decreases |rules| - i
  {
    if i < |rules| {
      AmenityProductBounds(amenities, rules, i + 1);
      var f := RuleFactor(rules[i], amenities);
      var p := AmenityProduct(amenities, rules, i + 1);
      var q := AllFactors(rules, i + 1);
      MulMonotone(1.0, f, 1.0, p);
      MulMonotone(f, rules[i].factor, p, q);
    }
  }

  lemma MulMonotone(a: real, b: real, c: real, d: real)
    requires 0.0 <= a <= b && 0.0 <= c <= d
    ensures a * c <= b * d
  {
    assert a * c <= b * c;
    assert b * c <= b * d;
  }

  // ---------------------------------------------------------------------------
  // Properties of the whole chain

  const MinFactor: real := 0.98 * 0.995 * 0.99
  const MaxFactor: real := 1.02 * 1.05 * 1.02 * 1.015 * 1.06 * 1.07

  /** Every seat's combined factor lies between the cheapest combination (late
      night, upper, one seat of a double already taken) and the dearest (every
      amenity, night, single). */
  lemma FareFactorBounds(amenities: seq<string>, t: Minute, position: Position, seatType: SeatType)
    ensures MinFactor <= FareFactor(amenities, SeatStagesFactor(t, position, seatType)) <= MaxFactor
  {
    AmenityProductBounds(amenities, AmenityRules, 0);
    assert AllFactors(AmenityRules, 0) == 1.02 * 1.05 * 1.02 * 1.015;
    SeatStagesBounds(t, position, seatType);
    var a := AmenityProduct(amenities, AmenityRules, 0);
    var s := SeatStagesFactor(t, position, seatType);
    MulMonotone(1.0, a, 0.98 * 0.995 * 0.99, s);
    MulMonotone(a, 1.02 * 1.05 * 1.02 * 1.015, s, 1.06 * 1.07);
  }

  /** The bracket, position and seat-type stages together scale a fare by
      between 0.98 * 0.995 * 0.99 and 1.06 * 1.07. */
  lemma SeatStagesBounds(t: Minute, position: Position, seatType: SeatType)
    ensures 0.98 * 0.995 * 0.99 <= SeatStagesFactor(t, position, seatType) <= 1.06 * 1.07
  {
    var b := BracketFactor(BracketOf(t));
    var p := PositionFactor(position);
    var k := SeatTypeFactor(seatType);
    MulMonotone(0.98, b, 0.995, p);
    MulMonotone(b, 1.06, p, 1.0);
    MulMonotone(0.98 * 0.995, b * p, 0.99, k);
    MulMonotone(b * p, 1.06, k, 1.07);
  }

  /** A non-negative base gives a fare within the chain's factor bounds of it;
      in particular the fare is never negative. */
  lemma FareWithinBounds(base: real, amenities: seq<string>, departure: string, position: string, seatType: string)
    requires base >= 0.0
    requires ParseTime(departure).Success?
    ensures var r := CalculateFare(Some(base), amenities, departure, position, seatType);
      r.Success? && MinFactor * base <= r.value <= MaxFactor * base && r.value >= 0.0
  {
    var t := ParseTime(departure).value;
    var f := FareFactor(amenities, SeatStagesFactor(t, ClassifyPosition(position), ClassifySeatType(seatType)));
    FareFactorBounds(amenities, t, ClassifyPosition(position), ClassifySeatType(seatType));
    FareIsStages(Some(base), amenities, departure, position, seatType);
    assert BaseOrZero(Some(base)) == base;
    var v := ApplyStages(base, amenities, t, ClassifyPosition(position), ClassifySeatType(seatType));
    assert v == base * f;
    ScaledWithin(base, f, v);
  }

  /** A non-negative base times a factor within the chain's bounds. */
  lemma ScaledWithin(base: real, f: real, v: real)
    requires base >= 0.0 && MinFactor <= f <= MaxFactor
    requires v == base * f
    ensures MinFactor * base <= v <= MaxFactor * base && v >= 0.0
  {
    MulMonotone(MinFactor, f, base, base);
    MulMonotone(f, MaxFactor, base, base);
    MulMonotone(0.0, MinFactor, 0.0, base);
  }

  /** A higher base never gives a lower fare. */
  lemma FareMonotoneInBase(b1: real, b2: real, amenities: seq<string>, departure: string,
                           position: string, seatType: string)
    requires b1 <= b2
    requires ParseTime(departure).Success?
    ensures CalculateFare(Some(b1), amenities, departure, position, seatType).value
         <= CalculateFare(Some(b2), amenities, departure, position, seatType).value
  {
    var t := ParseTime(departure).value;
    var f := FareFactor(amenities, SeatStagesFactor(t, ClassifyPosition(position), ClassifySeatType(seatType)));
    FareFactorBounds(amenities, t, ClassifyPosition(position), ClassifySeatType(seatType));
    assert b1 * f <= b2 * f;
  }

  /** A missing base yields a zero fare for every readable departure. */
  lemma MissingBaseIsZero(amenities: seq<string>, departure: string, position: string, seatType: string)
    requires ParseTime(departure).Success?
    ensures CalculateFare(None, amenities, departure, position, seatType) == Success(0.0)
  {
  }

  /** No recognised amenity, a departure before 18:00, a position other than
      "upper" and a seat type that is neither "single" nor "double_one_filled":
      the fare is the base itself. */
  lemma IdentityPath(base: Option<real>, amenities: seq<string>, departure: string, position: string, seatType: string)
    requires forall i :: 0 <= i < |AmenityRules| ==> AmenityRules[i].tag !in amenities
    requires ParseTime(departure).Success? && ParseTime(departure).value < EveningStart
    requires position != "upper"
    requires seatType != "single" && seatType != "double_one_filled"
    ensures CalculateFare(base, amenities, departure, position, seatType) == Success(BaseOrZero(base))
  {
    var stages := SeatStagesFactor(ParseTime(departure).value, ClassifyPosition(position), ClassifySeatType(seatType));
    AmenityProductByMembership(amenities, [], AmenityRules, 0);
    assert AmenityProduct([], AmenityRules, 0) == 1.0;
    assert stages == 1.0;
    assert FareFactor(amenities, stages) == 1.0;
  }

  /** Adding a recognised amenity that was absent multiplies the fare the
      stage chain computes by that amenity's factor alone, whatever the
      departure, position and seat type. */
  lemma AmenityStacks(fare: real, amenities: seq<string>, i: nat, t: Minute, p: Position, k: SeatType)
    requires i < |AmenityRules| && AmenityRules[i].tag !in amenities
    ensures ApplyStages(fare, amenities + [AmenityRules[i].tag], t, p, k)
         == AmenityRules[i].factor * ApplyStages(fare, amenities, t, p, k)
  {
    var rule := AmenityRules[i];
    FareFactorStacks(amenities, i, SeatStagesFactor(t, p, k));
    StagesScale(fare, amenities, amenities + [rule.tag], rule.factor, t, p, k);
  }

  /** AmenityStacks for the factor of the chain. */
  lemma FareFactorStacks(amenities: seq<string>, i: nat, stages: real)
    requires i < |AmenityRules| && AmenityRules[i].tag !in amenities
    ensures FareFactor(amenities + [AmenityRules[i].tag], stages) == AmenityRules[i].factor * FareFactor(amenities, stages)
  {
    AmenityFactorStacks(amenities, i);
    FactorScales(amenities, amenities + [AmenityRules[i].tag], AmenityRules[i].factor, stages);
  }

  /** ApplyStages is linear in the chain factor. */
  lemma StagesScale(b: real, a0: seq<string>, a1: seq<string>, f: real, t: Minute, p: Position, k: SeatType)
    requires FareFactor(a1, SeatStagesFactor(t, p, k)) == f * FareFactor(a0, SeatStagesFactor(t, p, k))
    ensures ApplyStages(b, a1, t, p, k) == f * ApplyStages(b, a0, t, p, k)
  {
    Rescale(ApplyStages(b, a0, t, p, k), ApplyStages(b, a1, t, p, k), b, f, FareFactor(a0, SeatStagesFactor(t, p, k)), FareFactor(a1, SeatStagesFactor(t, p, k)));
  }

  /** Scaling the amenity factor scales the whole chain factor alike. */
  lemma FactorScales(a0: seq<string>, a1: seq<string>, f: real, stages: real)
    requires AmenityProduct(a1, AmenityRules, 0) == f * AmenityProduct(a0, AmenityRules, 0)
    ensures FareFactor(a1, stages) == f * FareFactor(a0, stages)
  {
    var p0, p1 := AmenityProduct(a0, AmenityRules, 0), AmenityProduct(a1, AmenityRules, 0);
    assert FareFactor(a0, stages) == p0 * stages && FareFactor(a1, stages) == p1 * stages;
    Regroup(FareFactor(a0, stages), FareFactor(a1, stages), f, p0, p1, stages);
  }

  /** The amenity-factor half of AmenityStacks. */
  lemma AmenityFactorStacks(amenities: seq<string>, i: nat)
    requires i < |AmenityRules| && AmenityRules[i].tag !in amenities
    ensures AmenityProduct(amenities + [AmenityRules[i].tag], AmenityRules, 0)
         == AmenityRules[i].factor * AmenityProduct(amenities, AmenityRules, 0)
  {
    AddAmenity(amenities, AmenityRules[i].tag, AmenityRules, 0);
    assert DistinctTags(AmenityRules);
    SingleTagProduct(AmenityRules, i, 0);
  }

  /** Algebra step for the solver, modelling nothing of its own: a common
      right factor carries a ratio across. */
  lemma Regroup(v0: real, v1: real, f: real, a0: real, a1: real, rest: real)
    requires v0 == a0 * rest
    requires v1 == a1 * rest
    requires a1 == f * a0
    ensures v1 == f * v0
  {
  }

  /** Algebra step for the solver, modelling nothing of its own: a common
      left factor carries a ratio across. */
  lemma Rescale(v0: real, v1: real, b: real, f: real, f0: real, f1: real)
    requires v0 == b * f0
    requires v1 == b * f1
    requires f1 == f * f0
    ensures v1 == f * v0
  {
  }

  /** An upper berth is priced at exactly 0.995 of the lower berth with the
      same amenities, departure and seat type. */
  lemma UpperDiscount(fare: real, amenities: seq<string>, t: Minute, k: SeatType)
    ensures ApplyStages(fare, amenities, t, Upper, k) == 0.995 * ApplyStages(fare, amenities, t, Lower, k)
  {
    UpperStages(t, k);
    StagesFactorScales(amenities, SeatStagesFactor(t, Lower, k), SeatStagesFactor(t, Upper, k), 0.995);
    Rescale(ApplyStages(fare, amenities, t, Lower, k), ApplyStages(fare, amenities, t, Upper, k), fare, 0.995,
            FareFactor(amenities, SeatStagesFactor(t, Lower, k)), FareFactor(amenities, SeatStagesFactor(t, Upper, k)));
  }

  /** An upper single berth is priced at exactly 0.995 * 1.07 of a lower seat
      whose seat type carries no factor, with the same amenities and departure. */
  lemma BerthPremium(fare: real, amenities: seq<string>, t: Minute, k: SeatType)
    requires SeatTypeFactor(k) == 1.0
    ensures ApplyStages(fare, amenities, t, Upper, Single) == 0.995 * 1.07 * ApplyStages(fare, amenities, t, Lower, k)
  {
    assert SeatStagesFactor(t, Upper, Single) == 0.995 * 1.07 * SeatStagesFactor(t, Lower, k);
    StagesFactorScales(amenities, SeatStagesFactor(t, Lower, k), SeatStagesFactor(t, Upper, Single), 0.995 * 1.07);
    Rescale(ApplyStages(fare, amenities, t, Lower, k), ApplyStages(fare, amenities, t, Upper, Single), fare, 0.995 * 1.07,
            FareFactor(amenities, SeatStagesFactor(t, Lower, k)), FareFactor(amenities, SeatStagesFactor(t, Upper, Single)));
  }

  /** Scaling the later-stage factor scales the whole chain factor alike. */
  lemma StagesFactorScales(amenities: seq<string>, s0: real, s1: real, f: real)
    requires s1 == f * s0
    ensures FareFactor(amenities, s1) == f * FareFactor(amenities, s0)
  {
    ScaleRight(FareFactor(amenities, s0), FareFactor(amenities, s1), f,
               AmenityProduct(amenities, AmenityRules, 0), s0, s1);
  }

  lemma UpperStages(t: Minute, k: SeatType)
    ensures SeatStagesFactor(t, Upper, k) == 0.995 * SeatStagesFactor(t, Lower, k)
  {
  }

  /** Algebra step for the solver, modelling nothing of its own: a ratio of
      right factors carries over to the products. */
  lemma ScaleRight(v0: real, v1: real, f: real, x: real, y0: real, y1: real)
    requires v0 == x * y0
    requires v1 == x * y1
    requires y1 == f * y0
    ensures v1 == f * v0
  {
  }

  /** A fare whose departure parses is the stage chain run on the base. */
  lemma FareIsStages(base: Option<real>, amenities: seq<string>, departure: string, position: string, seatType: string)
    requires ParseTime(departure).Success?
    ensures CalculateFare(base, amenities, departure, position, seatType)
         == Success(ApplyStages(BaseOrZero(base), amenities, ParseTime(departure).value,
                                ClassifyPosition(position), ClassifySeatType(seatType)))
  {
  }

  /** The seat type "double" that the grid planner passes matches none of the
      seat-type tests, so it prices exactly like "double_vacant". */
  lemma DoubleIsDoubleVacant(base: Option<real>, amenities: seq<string>, departure: string, position: string)
    ensures CalculateFare(base, amenities, departure, position, "double")
         == CalculateFare(base, amenities, departure, position, "double_vacant")
  {
    assert ClassifySeatType("double") == UnknownType;
    assert ClassifySeatType("double_vacant") == DoubleVacant;
    if ParseTime(departure).Success? {
      var t, p := ParseTime(departure).value, ClassifyPosition(position);
      assert SeatStagesFactor(t, p, UnknownType) == SeatStagesFactor(t, p, DoubleVacant);
    }
  }

  /** Worked values at the bracket boundaries for a base of 100, a lower
      double_vacant seat and no amenities. */
  lemma BracketExamples()
    ensures CalculateFare(Some(100.0), [], "18:00", "lower", "double_vacant") == Success(105.0)
    ensures CalculateFare(Some(100.0), [], "20:00", "lower", "double_vacant") == Success(105.0)
    ensures CalculateFare(Some(100.0), [], "20:01", "lower", "double_vacant") == Success(106.0)
    ensures CalculateFare(Some(100.0), [], "23:00", "lower", "double_vacant") == Success(106.0)
  {
  }

  /** Worked values past the night bracket, in the 12-hour shape, and for an
      hour the 24-hour clock does not have. */
  lemma LateExamples()
    ensures CalculateFare(Some(100.0), [], "23:30", "lower", "double_vacant") == Success(98.0)
    ensures CalculateFare(Some(100.0), [], "09:30 PM", "lower", "double_vacant") == Success(106.0)
    ensures CalculateFare(Some(100.0), [], "24:00", "lower", "double_vacant") == Failure(Unparsable("24:00"))
  {
  }
}
