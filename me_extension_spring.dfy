// The extension spring of me_toolbox/springs/extension_spring.py. Unlike the
// older revisions it stores no body coils: they, the free length and all
// stresses are derived on demand from the active coils and the geometry.
// The shear-stress formula of the parent HelicalCompressionSpring is not
// part of this model; the body and hook shear stresses use the spring's
// calc_max_shear_stress formula (SpringFormulas.MaxShearStress).

module MeExtensionSprings {
  import opened Common
  import opened SpringFormulas
  import Helpers
  import ExtensionSprings
  import PushSprings

  // ---------------------------------------------------------------------
  // derived geometry
  // ---------------------------------------------------------------------

  /** body_coils: the active coils less the G/E offset. */
  function BodyCoils(activeCoils: real, shearModulus: real, elasticModulus: real): (b: real)
    requires elasticModulus != 0.0
    ensures b + shearModulus / elasticModulus == activeCoils
  {
    activeCoils - shearModulus / elasticModulus
  }

  /** free_length: two hooks of D - d each plus body_coils + 1 wire diameters. */
  function FreeLength(wireDiameter: real, springDiameter: real, activeCoils: real,
                      shearModulus: real, elasticModulus: real): real
    requires elasticModulus != 0.0
  {
    ExtensionSprings.ExtensionFreeLength(wireDiameter, springDiameter,
                                         BodyCoils(activeCoils, shearModulus, elasticModulus))
  }

  /**
   * The derived free length is the one the older revisions store after a
   * setter cascade, and it grows by one wire diameter per active coil.
   */
  lemma FreeLengthAgreesWithStored(wireDiameter: real, springDiameter: real, activeCoils: real,
                                   bodyCoils: real, shearModulus: real, elasticModulus: real)
    requires elasticModulus != 0.0
    requires activeCoils == bodyCoils + shearModulus / elasticModulus
    ensures FreeLength(wireDiameter, springDiameter, activeCoils, shearModulus, elasticModulus)
            == ExtensionSprings.ExtensionFreeLength(wireDiameter, springDiameter, bodyCoils)
    ensures FreeLength(wireDiameter, springDiameter, activeCoils + 1.0, shearModulus, elasticModulus)
            == FreeLength(wireDiameter, springDiameter, activeCoils, shearModulus, elasticModulus)
               + wireDiameter
  {
    var b := BodyCoils(activeCoils, shearModulus, elasticModulus);
    assert b == bodyCoils;
    assert BodyCoils(activeCoils + 1.0, shearModulus, elasticModulus) == b + 1.0;
    ExtensionSprings.FreeLengthPerCoil(wireDiameter, springDiameter, b);
  }

  /** The properties an extension spring inherits but refuses. */
  datatype Query =
    | BodyCoilsQuery
    | FreeLengthQuery
    | SolidLengthQuery
    | FsolidQuery
    | TotalCoilsQuery
    | BucklingQuery
    | SpringRateQuery

  /**
   * Reading a length property: body coils and free length are derived,
   * the compression-spring properties raise NotImplementedError.
   */
  function Property(q: Query, wireDiameter: real, springDiameter: real, activeCoils: real,
                    shearModulus: real, elasticModulus: real): (r: Result<real>)
    requires elasticModulus != 0.0
    ensures r.Ok? <==> q == BodyCoilsQuery || q == FreeLengthQuery
    ensures r.Err? ==> r.error == NotImplementedError
    ensures q == BodyCoilsQuery ==> r.value + shearModulus / elasticModulus == activeCoils
    ensures q == FreeLengthQuery ==>
              r.value == ExtensionSprings.ExtensionFreeLength(
                           wireDiameter, springDiameter,
                           activeCoils - shearModulus / elasticModulus)
  {
    match q
    case BodyCoilsQuery => Ok(BodyCoils(activeCoils, shearModulus, elasticModulus))
    case FreeLengthQuery => Ok(FreeLength(wireDiameter, springDiameter, activeCoils,
                                          shearModulus, elasticModulus))
    case _ => Err(NotImplementedError)
  }

  // ---------------------------------------------------------------------
  // check_design
  // ---------------------------------------------------------------------

  /** A concrete spring index outside [3, 16]. */
  predicate IndexOutOfRange(springIndex: Num)
  {
    springIndex.Concrete? && !(3.0 <= springIndex.v <= 16.0)
  }

  /**
   * check_design: an advisory verdict that never raises. `frequencies`
   * holds the natural and the working frequency when density and working
   * frequency are both known.
   */
  method CheckDesign(springIndex: Num, activeCoils: Num, frequencies: Option<(real, real)>)
    returns (good: bool)
    ensures good <==>
              !IndexOutOfRange(springIndex)
              && !(activeCoils.Concrete? && !(3.0 <= activeCoils.v <= 15.0))
              && !(frequencies.Some? && frequencies.value.0 <= 20.0 * frequencies.value.1)
  {
    good := true;
    if springIndex.Concrete? && !(3.0 <= springIndex.v <= 16.0) {
      good := false;
    }
    if activeCoils.Concrete? && !(3.0 <= activeCoils.v <= 15.0) {
      good := false;
    }
    if frequencies.Some? {
      var (natural, working) := frequencies.value;
      if natural <= 20.0 * working {
        good := false;
      }
    }
  }

  /**
   * The extension spring accepts indices up to 16, where the push spring
   * stops at 12: an index in (12, 16] is only flagged for push springs.
   */
  lemma IndexRangeWiderThanPushSpring(c: real)
    requires 12.0 < c <= 16.0
    ensures !IndexOutOfRange(Concrete(c))
    ensures forall setRemoved: bool :: PushSprings.IndexOutOfRange(Concrete(c), setRemoved)
  {
    forall setRemoved: bool
      ensures PushSprings.IndexOutOfRange(Concrete(c), setRemoved)
    {
      assert !(c <= 12.0);
    }
  }

  // ---------------------------------------------------------------------
  // hook strengths and factors
  // ---------------------------------------------------------------------

  /**
   * hook_normal_yield_strength / hook_shear_yield_strength: percent_to_decimal
   * of the percentage times Sut; a symbolic percentage fails the comparison
   * inside percent_to_decimal and falls back to the plain product.
   */
  function HookYieldStrength(yieldPercent: Num, sut: real): (r: Num)
    ensures r.Concrete? <==> yieldPercent.Concrete?
    ensures yieldPercent.Concrete? && yieldPercent.v >= 1.0 ==> r.v * 100.0 == yieldPercent.v * sut
    ensures yieldPercent.Concrete? && yieldPercent.v < 1.0 ==> r.v == yieldPercent.v * sut
  {
    match yieldPercent
    case Concrete(p) => Concrete(Helpers.PercentToDecimal(p) * sut)
    case Symbolic => Symbolic
  }

  /** 45 and 0.45 give the same hook strength, as they give the same body strength. */
  lemma HookYieldSpellings(p: real, sut: real)
    requires 1.0 <= p < 100.0
    ensures HookYieldStrength(Concrete(p), sut) == HookYieldStrength(Concrete(p / 100.0), sut)
    ensures HookYieldStrength(Concrete(p), sut).v == ShearYieldStrength(p, sut)
  {
    Helpers.PercentAndDecimalAgree(p);
  }

  /** hook_KA: the curvature correction at the hook's inner radius, C1 = 2 r1 / d. */
  function HookKA(hookR1: real, wireDiameter: real): (k: real)
    requires wireDiameter != 0.0
    requires 2.0 * hookR1 / wireDiameter != 0.0 && 2.0 * hookR1 / wireDiameter != 1.0
    ensures var c1 := 2.0 * hookR1 / wireDiameter;
            k * (4.0 * c1 * (c1 - 1.0)) == 4.0 * (c1 * c1) - c1 - 1.0
  {
    CurvatureFactor(2.0 * hookR1 / wireDiameter)
  }

  /** hook_KB: the torsion correction at the hook's bend radius, C2 = 2 r2 / d. */
  function HookKB(hookR2: real, wireDiameter: real): (k: real)
    requires wireDiameter != 0.0
    requires 2.0 * hookR2 / wireDiameter != 1.0
    ensures var c2 := 2.0 * hookR2 / wireDiameter;
            k * (4.0 * c2 - 4.0) == 4.0 * c2 - 1.0
  {
    var c2 := 2.0 * hookR2 / wireDiameter;
    (4.0 * c2 - 1.0) / (4.0 * c2 - 4.0)
  }

  /** A bend radius above the wire radius gives a hook index above 1. */
  lemma HookIndexAboveOne(radius: real, wireDiameter: real)
    requires wireDiameter > 0.0 && radius > wireDiameter / 2.0
    ensures 2.0 * radius / wireDiameter > 1.0
  {
    var c := 2.0 * radius / wireDiameter;
    assert c * wireDiameter == 2.0 * radius;
  }

  /** k * x == x + e with x, e > 0: the factor k exceeds 1. */
  lemma AmplifiedAboveOne(k: real, x: real, e: real)
    requires x > 0.0 && e > 0.0 && k * x == x + e
    ensures k > 1.0
  {
  }

  /** Both hook factors amplify the stress once the bend radius exceeds the wire radius. */
  lemma HookFactorsAboveOne(hookR1: real, hookR2: real, wireDiameter: real)
    requires wireDiameter > 0.0 && hookR1 > wireDiameter / 2.0 && hookR2 > wireDiameter / 2.0
    ensures HookKA(hookR1, wireDiameter) > 1.0
    ensures HookKB(hookR2, wireDiameter) > 1.0
  {
    HookIndexAboveOne(hookR1, wireDiameter);
    HookIndexAboveOne(hookR2, wireDiameter);
    CurvatureFactorAboveOne(2.0 * hookR1 / wireDiameter);
    var c2 := 2.0 * hookR2 / wireDiameter;
    var kb := HookKB(hookR2, wireDiameter);
    AmplifiedAboveOne(kb, 4.0 * c2 - 4.0, 3.0);
  }

  // ---------------------------------------------------------------------
  // stresses
  // ---------------------------------------------------------------------

  /** calc_normal_stress: bending at the hook, KA 16 D / (pi d^3), plus tension, 4 / (pi d^2), times F. */
  function NormalStress(force: real, hookKA: real, springDiameter: real, wireDiameter: real): real
    requires wireDiameter != 0.0
  {
    force * (hookKA * ((16.0 * springDiameter) / (Pi * (wireDiameter * wireDiameter * wireDiameter)))
             + 4.0 / (Pi * (wireDiameter * wireDiameter)))
  }

  /** The hook normal stress is linear in the force. */
  lemma NormalStressLinear(force: real, hookKA: real, springDiameter: real, wireDiameter: real,
                           s: real)
    requires wireDiameter != 0.0
    ensures NormalStress(s * force, hookKA, springDiameter, wireDiameter)
            == s * NormalStress(force, hookKA, springDiameter, wireDiameter)
  {
    var unit := hookKA * ((16.0 * springDiameter) / (Pi * (wireDiameter * wireDiameter * wireDiameter)))
                + 4.0 / (Pi * (wireDiameter * wireDiameter));
    assert (s * force) * unit == s * (force * unit);
  }

  /** The three static safety factors, as the dictionary returned. */
  datatype StaticSafety = StaticSafety(nBody: real, nHookNormal: real, nHookShear: real)

  /**
   * static_safety_factor: each yield strength over its maximum stress; a
   * zero stress raises ZeroDivisionError.
   */
  function StaticSafetyFactor(bodyShearYield: real, maxBodyShear: real,
                              hookNormalYield: real, maxHookNormal: real,
                              hookShearYield: real, maxHookShear: real): (r: Result<StaticSafety>)
    ensures r.Err? <==> maxBodyShear == 0.0 || maxHookNormal == 0.0 || maxHookShear == 0.0
    ensures r.Err? ==> r.error == ZeroDivisionError
    ensures r.Ok? ==>
              r.value.nBody * maxBodyShear == bodyShearYield
              && r.value.nHookNormal * maxHookNormal == hookNormalYield
              && r.value.nHookShear * maxHookShear == hookShearYield
  {
    if maxBodyShear == 0.0 || maxHookNormal == 0.0 || maxHookShear == 0.0 then Err(ZeroDivisionError)
    else Ok(StaticSafety(bodyShearYield / maxBodyShear, hookNormalYield / maxHookNormal,
                         hookShearYield / maxHookShear))
  }

  /** A factor of at least 1 in each place means no stress exceeds its yield strength. */
  lemma SafeMeansBelowYield(bodyShearYield: real, maxBodyShear: real,
                            hookNormalYield: real, maxHookNormal: real,
                            hookShearYield: real, maxHookShear: real)
    requires maxBodyShear > 0.0 && maxHookNormal > 0.0 && maxHookShear > 0.0
    ensures var r := StaticSafetyFactor(bodyShearYield, maxBodyShear, hookNormalYield, maxHookNormal,
                                        hookShearYield, maxHookShear);
            r.Ok? && (r.value.nBody >= 1.0 <==> maxBodyShear <= bodyShearYield)
            && (r.value.nHookNormal >= 1.0 <==> maxHookNormal <= hookNormalYield)
            && (r.value.nHookShear >= 1.0 <==> maxHookShear <= hookShearYield)
  {
    var r := StaticSafetyFactor(bodyShearYield, maxBodyShear, hookNormalYield, maxHookNormal,
                                hookShearYield, maxHookShear);
    RatioAtLeastOne(r.value.nBody, maxBodyShear, bodyShearYield);
    RatioAtLeastOne(r.value.nHookNormal, maxHookNormal, hookNormalYield);
    RatioAtLeastOne(r.value.nHookShear, maxHookShear, hookShearYield);
  }

  /** n * s == y with s > 0: n >= 1 exactly when s <= y. */
  lemma RatioAtLeastOne(n: real, s: real, y: real)
    requires s > 0.0 && n * s == y
    ensures n >= 1.0 <==> s <= y
  {
    if n >= 1.0 {
      assert n * s >= s;
    } else {
      assert n * s < s;
    }
  }

  // ---------------------------------------------------------------------
  // fatigue_analysis: mean and alternating stresses
  // ---------------------------------------------------------------------

  /** The load split: half the range and the midpoint. */
  function AltForce(maxForce: real, minForce: real): (a: real)
    ensures a >= 0.0 && 2.0 * a == (if maxForce >= minForce then maxForce - minForce else minForce - maxForce)
  {
    (if maxForce >= minForce then maxForce - minForce else minForce - maxForce) / 2.0
  }

  function MeanForce(maxForce: real, minForce: real): (m: real)
    ensures 2.0 * m == maxForce + minForce
  {
    (maxForce + minForce) / 2.0
  }

  /** The six stresses fed to the failure criterion. */
  datatype CycleStresses = CycleStresses(
    hookAltShear: real, hookMeanShear: real,
    hookAltNormal: real, hookMeanNormal: real,
    bodyAltShear: real, bodyMeanShear: real)

  /**
   * fatigue_analysis as written: the hook stresses at the alternating
   * force, the mean stresses scaled by mean/alt force (ZeroDivisionError
   * for a constant load), and the body alternating shear computed with the
   * hook factor KB.
   */
  function CycleStressesAsWritten(maxForce: real, minForce: real, hookKA: real, hookKB: real,
                                  springDiameter: real, wireDiameter: real): (r: Result<CycleStresses>)
    requires wireDiameter != 0.0
    ensures r.Err? <==> maxForce == minForce
    ensures r.Err? ==> r.error == ZeroDivisionError
    ensures r.Ok? ==>
              var alt := AltForce(maxForce, minForce);
              r.value.hookAltShear == MaxShearStress(hookKB, alt, springDiameter, wireDiameter)
              && r.value.hookAltNormal == NormalStress(alt, hookKA, springDiameter, wireDiameter)
              && r.value.bodyAltShear == MaxShearStress(hookKB, alt, springDiameter, wireDiameter)
    ensures r.Ok? ==>
              var alt := AltForce(maxForce, minForce);
              var mean := MeanForce(maxForce, minForce);
              alt * r.value.hookMeanShear == mean * r.value.hookAltShear
              && alt * r.value.hookMeanNormal == mean * r.value.hookAltNormal
              && r.value.bodyMeanShear == r.value.hookMeanShear
  {
    var alt := AltForce(maxForce, minForce);
    var mean := MeanForce(maxForce, minForce);
    if alt == 0.0 then Err(ZeroDivisionError)
    else
      var hookAltShear := MaxShearStress(hookKB, alt, springDiameter, wireDiameter);
      var hookAltNormal := NormalStress(alt, hookKA, springDiameter, wireDiameter);
      var bodyAltShear := MaxShearStress(hookKB, alt, springDiameter, wireDiameter);
      Ok(CycleStresses(hookAltShear, (mean / alt) * hookAltShear,
                       hookAltNormal, (mean / alt) * hookAltNormal,
                       bodyAltShear, (mean / alt) * hookAltShear))
  }

  /**
   * The body section with its own factor: the Wahl factor Kw that
   * max_body_shear_stress uses, for both the alternating and the mean part.
   */
  function CycleStressesCorrected(maxForce: real, minForce: real, hookKA: real, hookKB: real,
                                  bodyKw: real, springDiameter: real, wireDiameter: real)
    : (r: Result<CycleStresses>)
    requires wireDiameter != 0.0
    ensures r.Err? <==> maxForce == minForce
    ensures r.Err? ==> r.error == ZeroDivisionError
  {
    var alt := AltForce(maxForce, minForce);
    var mean := MeanForce(maxForce, minForce);
    if alt == 0.0 then Err(ZeroDivisionError)
    else
      var hookAltShear := MaxShearStress(hookKB, alt, springDiameter, wireDiameter);
      var hookAltNormal := NormalStress(alt, hookKA, springDiameter, wireDiameter);
      var bodyAltShear := MaxShearStress(bodyKw, alt, springDiameter, wireDiameter);
      Ok(CycleStresses(hookAltShear, (mean / alt) * hookAltShear,
                       hookAltNormal, (mean / alt) * hookAltNormal,
                       bodyAltShear, (mean / alt) * bodyAltShear))
  }

  /**
   * Scaling by mean/alt is exact because every stress is linear in the
   * force: each mean stress is the stress the mean force produces, and with
   * the correction the body stresses are the max_body_shear_stress formula
   * at the alternating and the mean force.
   */
  lemma {:induction false} CorrectedStressesAreLoadStresses(maxForce: real, minForce: real,
                                                            hookKA: real, hookKB: real, bodyKw: real,
                                                            springDiameter: real, wireDiameter: real)
    requires wireDiameter != 0.0 && maxForce != minForce
    ensures var r := CycleStressesCorrected(maxForce, minForce, hookKA, hookKB, bodyKw,
                                            springDiameter, wireDiameter);
            var alt := AltForce(maxForce, minForce);
            var mean := MeanForce(maxForce, minForce);
            r.Ok?
            && r.value.hookAltShear == MaxShearStress(hookKB, alt, springDiameter, wireDiameter)
            && r.value.hookAltNormal == NormalStress(alt, hookKA, springDiameter, wireDiameter)
            && r.value.hookMeanShear == MaxShearStress(hookKB, mean, springDiameter, wireDiameter)
            && r.value.hookMeanNormal == NormalStress(mean, hookKA, springDiameter, wireDiameter)
            && r.value.bodyAltShear == MaxShearStress(bodyKw, alt, springDiameter, wireDiameter)
            && r.value.bodyMeanShear == MaxShearStress(bodyKw, mean, springDiameter, wireDiameter)
  {
    var alt := AltForce(maxForce, minForce);
    var mean := MeanForce(maxForce, minForce);
    assert alt != 0.0;
    var s := mean / alt;
    assert s * alt == mean;
    MaxShearStressLinear(hookKB, alt, springDiameter, wireDiameter, s);
    MaxShearStressLinear(bodyKw, alt, springDiameter, wireDiameter, s);
    NormalStressLinear(alt, hookKA, springDiameter, wireDiameter, s);
  }

  /**
   * As written, the body alternating stress disagrees with the body's own
   * static formula whenever the hook factor differs from Kw: for d = 1,
   * D = 10, r2 = 2.5 and loads 200 / 100 the hook factor is 19/16 while
   * Kw(10) = 39/36 + 0.0615.
   */
  lemma BodyFactorMismatch()
    ensures var kb := HookKB(2.5, 1.0);
            var kw := FactorKw(10.0);
            var r := CycleStressesAsWritten(200.0, 100.0, 1.0, kb, 10.0, 1.0);
            kb != kw && r.Ok?
            && r.value.bodyAltShear != MaxShearStress(kw, AltForce(200.0, 100.0), 10.0, 1.0)
  {
    var kb := HookKB(2.5, 1.0);
    assert kb * 16.0 == 19.0;
    var kw := FactorKw(10.0);
    assert kw == 39.0 / 36.0 + 0.0615;
    assert AltForce(200.0, 100.0) == 50.0;
    var den := Pi * (1.0 * 1.0 * 1.0);
    assert den == Pi;
    assert MaxShearStress(kb, 50.0, 10.0, 1.0) == kb * 4000.0 / Pi;
    assert MaxShearStress(kw, 50.0, 10.0, 1.0) == kw * 4000.0 / Pi;
  }
}
