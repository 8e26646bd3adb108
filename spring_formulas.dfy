// The closed-form spring relations shared by every spring revision
// (me_toolbox/springs/spring.py, springs/spring.py, Springs/HelicalPushSpring.py):
// Castigliano stiffness and its inverse, stress factors, strengths, weight,
// end coils and solid length.

module SpringFormulas {
  import opened Common
  import Helpers

  // ---------------------------------------------------------------------
  // stiffness
  // ---------------------------------------------------------------------

  /** C = D / d. */
  function SpringIndex(wireDiameter: real, springDiameter: real): (c: real)
    requires wireDiameter != 0.0
    ensures c * wireDiameter == springDiameter
    ensures wireDiameter > 0.0 && springDiameter > 0.0 ==> c > 0.0
  {
    springDiameter / wireDiameter
  }

  /** A coil wider than its wire has an index above 1. */
  lemma IndexAboveOne(wireDiameter: real, springDiameter: real)
    requires 0.0 < wireDiameter < springDiameter
    ensures SpringIndex(wireDiameter, springDiameter) > 1.0
  {
    var c := SpringIndex(wireDiameter, springDiameter);
    if c <= 1.0 {
      assert c * wireDiameter <= wireDiameter;
    }
  }

  /**
   * The part of the Castigliano stiffness that does not depend on the coil
   * count: K * Na always equals this value.
   */
  function RateFactor(shearModulus: real, wireDiameter: real, springDiameter: real): real
    requires wireDiameter != 0.0 && springDiameter != 0.0
  {
    var c := SpringIndex(wireDiameter, springDiameter);
    (shearModulus * wireDiameter / (8.0 * c * c * c)) * (2.0 * c * c / (1.0 + 2.0 * c * c))
  }

  /** calc_spring_constant: K from the active coils. */
  function CalcSpringConstant(shearModulus: real, wireDiameter: real, springDiameter: real,
                              activeCoils: real): real
    requires wireDiameter != 0.0 && springDiameter != 0.0 && activeCoils != 0.0
  {
    var c := SpringIndex(wireDiameter, springDiameter);
    (shearModulus * wireDiameter / (8.0 * c * c * c * activeCoils)) * (2.0 * c * c / (1.0 + 2.0 * c * c))
  }

  /** calc_active_coils: the same expression with K in place of Na. */
  function CalcActiveCoils(shearModulus: real, wireDiameter: real, springDiameter: real,
                           springConstant: real): real
    requires wireDiameter != 0.0 && springDiameter != 0.0 && springConstant != 0.0
  {
    var c := SpringIndex(wireDiameter, springDiameter);
    (shearModulus * wireDiameter / (8.0 * c * c * c * springConstant)) * (2.0 * c * c / (1.0 + 2.0 * c * c))
  }

  lemma ScaledQuotient(a: real, b: real, n: real, f: real)
    requires b != 0.0 && n != 0.0
    ensures (a / (b * n)) * f == ((a / b) * f) / n
  {
    assert a / (b * n) == (a / b) / n;
  }

  /** The rate factor is positive for positive modulus and diameters. */
  lemma RateFactorPositive(shearModulus: real, wireDiameter: real, springDiameter: real)
    requires shearModulus > 0.0 && wireDiameter > 0.0 && springDiameter > 0.0
    ensures RateFactor(shearModulus, wireDiameter, springDiameter) > 0.0
  {
    var c := SpringIndex(wireDiameter, springDiameter);
    assert c > 0.0;
    assert c * c * c > 0.0;
    assert shearModulus * wireDiameter > 0.0;
    assert shearModulus * wireDiameter / (8.0 * c * c * c) > 0.0;
    assert 2.0 * c * c / (1.0 + 2.0 * c * c) > 0.0;
  }

  /** Spring rate times active coils is the fixed rate factor, whichever of the two is known. */
  lemma RateTimesCoils(shearModulus: real, wireDiameter: real, springDiameter: real, n: real)
    requires wireDiameter != 0.0 && springDiameter != 0.0 && n != 0.0
    ensures CalcSpringConstant(shearModulus, wireDiameter, springDiameter, n)
            == RateFactor(shearModulus, wireDiameter, springDiameter) / n
    ensures CalcActiveCoils(shearModulus, wireDiameter, springDiameter, n)
            == RateFactor(shearModulus, wireDiameter, springDiameter) / n
  {
    var c := SpringIndex(wireDiameter, springDiameter);
    assert c != 0.0;
    ScaledQuotient(shearModulus * wireDiameter, 8.0 * c * c * c, n, 2.0 * c * c / (1.0 + 2.0 * c * c));
  }

  /**
   * The two Castigliano formulas are exact inverses: computing K from Na and
   * then Na from K gives Na back, and the other way round.
   */
  lemma StiffnessInverse(shearModulus: real, wireDiameter: real, springDiameter: real, n: real)
    requires shearModulus > 0.0 && wireDiameter > 0.0 && springDiameter > 0.0 && n != 0.0
    ensures CalcSpringConstant(shearModulus, wireDiameter, springDiameter, n) != 0.0
    ensures CalcActiveCoils(shearModulus, wireDiameter, springDiameter, n) != 0.0
    ensures CalcActiveCoils(shearModulus, wireDiameter, springDiameter,
              CalcSpringConstant(shearModulus, wireDiameter, springDiameter, n)) == n
    ensures CalcSpringConstant(shearModulus, wireDiameter, springDiameter,
              CalcActiveCoils(shearModulus, wireDiameter, springDiameter, n)) == n
  {
    var r := RateFactor(shearModulus, wireDiameter, springDiameter);
    RateFactorPositive(shearModulus, wireDiameter, springDiameter);
    RateTimesCoils(shearModulus, wireDiameter, springDiameter, n);
    assert r / n != 0.0;
    RateTimesCoils(shearModulus, wireDiameter, springDiameter, r / n);
    assert r / (r / n) == n;
  }

  /** More active coils give a strictly softer spring. */
  lemma StiffnessDecreasesWithCoils(shearModulus: real, wireDiameter: real, springDiameter: real,
                                    n1: real, n2: real)
    requires shearModulus > 0.0 && wireDiameter > 0.0 && springDiameter > 0.0
    requires 0.0 < n1 < n2
    ensures CalcSpringConstant(shearModulus, wireDiameter, springDiameter, n1)
            > CalcSpringConstant(shearModulus, wireDiameter, springDiameter, n2) > 0.0
  {
    var r := RateFactor(shearModulus, wireDiameter, springDiameter);
    RateFactorPositive(shearModulus, wireDiameter, springDiameter);
    RateTimesCoils(shearModulus, wireDiameter, springDiameter, n1);
    RateTimesCoils(shearModulus, wireDiameter, springDiameter, n2);
    assert r / n1 > r / n2 by {
      assert r / n1 * n1 == r;
      assert r / n2 * n2 == r;
    }
  }

  /** calc_deflection: deflection of the push spring under a force. */
  function CalcDeflection(force: real, shearModulus: real, wireDiameter: real, springDiameter: real,
                          activeCoils: real): real
    requires shearModulus != 0.0 && wireDiameter != 0.0 && springDiameter != 0.0
  {
    var c := SpringIndex(wireDiameter, springDiameter);
    (8.0 * force * c * c * c * activeCoils / (shearModulus * wireDiameter))
      * ((1.0 + 2.0 * c * c) / (2.0 * c * c))
  }

  /** The deflection is Hooke's law with the Castigliano rate: K * deflection == force. */
  lemma DeflectionIsHooke(force: real, shearModulus: real, wireDiameter: real, springDiameter: real,
                          activeCoils: real)
    requires shearModulus > 0.0 && wireDiameter > 0.0 && springDiameter > 0.0 && activeCoils != 0.0
    ensures CalcSpringConstant(shearModulus, wireDiameter, springDiameter, activeCoils)
            * CalcDeflection(force, shearModulus, wireDiameter, springDiameter, activeCoils) == force
  {
    var c := SpringIndex(wireDiameter, springDiameter);
    var g, d, n := shearModulus, wireDiameter, activeCoils;
    assert c > 0.0;
    var v := 8.0 * c * c * c * n;
    var p := 2.0 * c * c;
    var q := 1.0 + 2.0 * c * c;
    assert v != 0.0 && p > 0.0 && q > 0.0;
    assert 8.0 * force * c * c * c * n == force * v;
    QuotientsCancel(g * d, v, p, q, force);
  }

  lemma QuotientsCancel(a: real, v: real, p: real, q: real, k: real)
    requires a != 0.0 && v != 0.0 && p != 0.0 && q != 0.0
    ensures ((a / v) * (p / q)) * ((k * v / a) * (q / p)) == k
  {
    QuotientCancel(a, v, k * v);
    QuotientCancel(p, q, q);
    assert ((a / v) * (p / q)) * ((k * v / a) * (q / p)) == ((a / v) * (k * v / a)) * ((p / q) * (q / p));
  }

  /** (u / v) * (w / u) == w / v. */
  lemma QuotientCancel(u: real, v: real, w: real)
    requires u != 0.0 && v != 0.0
    ensures (u / v) * (w / u) == w / v
  {
    assert (u / v) * (w / u) == (u * w) / (v * u);
  }

  /** a / p > b / q when a q > b p, for positive p and q. */
  lemma QuotientCompare(a: real, p: real, b: real, q: real)
    requires p > 0.0 && q > 0.0 && a * q > b * p
    ensures a / p > b / q
  {
    assert a / p == (a * q) / (p * q);
    assert b / q == (b * p) / (p * q);
  }

  // ---------------------------------------------------------------------
  // stress factors and stresses
  // ---------------------------------------------------------------------

  /** factor_Ks: static shear stress concentration factor. */
  function FactorKs(c: real): real
    requires c != 0.0
  {
    (2.0 * c + 1.0) / (2.0 * c)
  }

  /** factor_Kw: Wahl factor. */
  function FactorKw(c: real): real
    requires c != 0.0 && c != 1.0
  {
    (4.0 * c - 1.0) / (4.0 * c - 4.0) + 0.615 / c
  }

  /** factor_KB: Bergstrasser factor. */
  function FactorKB(c: real): real
    requires 4.0 * c - 3.0 != 0.0
  {
    (4.0 * c + 2.0) / (4.0 * c - 3.0)
  }

  /** The set-removed (static) factor is below the Wahl factor for every index above 1. */
  lemma StaticFactorBelowWahl(c: real)
    requires c > 1.0
    ensures 1.0 < FactorKs(c) < FactorKw(c)
  {
    assert FactorKs(c) == 1.0 + 1.0 / (2.0 * c);
    assert (4.0 * c - 1.0) / (4.0 * c - 4.0) == 1.0 + 3.0 / (4.0 * c - 4.0);
    QuotientCompare(3.0, 4.0 * c - 4.0, 1.0, 2.0 * c);
    assert 0.615 / c > 0.0;
  }

  /** The factor used for the body shear stress: Ks with the set removed, Kw otherwise. */
  function StressFactor(setRemoved: bool, c: real): real
    requires c != 0.0 && c != 1.0
  {
    if setRemoved then FactorKs(c) else FactorKw(c)
  }

  /**
   * The curvature correction for bending of a curved wire at index c:
   * (4c^2 - c - 1) / (4c(c - 1)). The torsion spring applies it at its own
   * index (factor_ki), the extension spring at its hook (hook_KA).
   */
  function CurvatureFactor(c: real): (k: real)
    requires c != 0.0 && c != 1.0
    ensures k * (4.0 * c * (c - 1.0)) == 4.0 * (c * c) - c - 1.0
  {
    (4.0 * (c * c) - c - 1.0) / (4.0 * c * (c - 1.0))
  }

  /** Above index 1 the curvature factor amplifies the nominal bending stress. */
  lemma CurvatureFactorAboveOne(c: real)
    requires c > 1.0
    ensures CurvatureFactor(c) > 1.0
  {
    var den := 4.0 * c * (c - 1.0);
    assert den > 0.0 by {
      assert c * (c - 1.0) > 0.0;
    }
    var k := CurvatureFactor(c);
    assert k * den == den + (3.0 * c - 1.0);
  }

  /** calc_max_shear_stress: k * 8 F D / (pi d^3). */
  function MaxShearStress(kFactor: real, force: real, springDiameter: real, wireDiameter: real): real
    requires wireDiameter != 0.0
  {
    kFactor * 8.0 * force * springDiameter / (Pi * (wireDiameter * wireDiameter * wireDiameter))
  }

  /** The shear stress scales linearly with the force and with the factor. */
  lemma MaxShearStressLinear(kFactor: real, force: real, springDiameter: real, wireDiameter: real,
                             s: real)
    requires wireDiameter != 0.0
    ensures MaxShearStress(kFactor, s * force, springDiameter, wireDiameter)
            == s * MaxShearStress(kFactor, force, springDiameter, wireDiameter)
    ensures MaxShearStress(s * kFactor, force, springDiameter, wireDiameter)
            == s * MaxShearStress(kFactor, force, springDiameter, wireDiameter)
  {
    var den := Pi * (wireDiameter * wireDiameter * wireDiameter);
    assert den != 0.0;
    var base := kFactor * 8.0 * force * springDiameter;
    assert (s * base) / den == s * (base / den);
  }

  /** With the set removed the same load gives a lower body stress. */
  lemma SetRemovedLowersStress(c: real, force: real, springDiameter: real, wireDiameter: real)
    requires c > 1.0 && force > 0.0 && springDiameter > 0.0 && wireDiameter > 0.0
    ensures MaxShearStress(StressFactor(true, c), force, springDiameter, wireDiameter)
            < MaxShearStress(StressFactor(false, c), force, springDiameter, wireDiameter)
  {
    StaticFactorBelowWahl(c);
    var den := Pi * (wireDiameter * wireDiameter * wireDiameter);
    var load := 8.0 * force * springDiameter;
    assert den > 0.0 && load > 0.0;
    assert FactorKs(c) * load < FactorKw(c) * load;
    assert FactorKs(c) * 8.0 * force * springDiameter == FactorKs(c) * load;
    assert FactorKw(c) * 8.0 * force * springDiameter == FactorKw(c) * load;
  }

  // ---------------------------------------------------------------------
  // strengths
  // ---------------------------------------------------------------------

  /** shear_ultimate_strength. */
  function ShearUltimateStrength(sut: real): real
  {
    0.67 * sut
  }

  /** shear_yield_strength of me_toolbox/springs/spring.py: the percent helper times Sut. */
  function ShearYieldStrength(yieldPercent: real, sut: real): real
  {
    Helpers.PercentToDecimal(yieldPercent) * sut
  }

  /** shear_yield_strength of springs/spring.py and springs/Spring.py: explicit range checks. */
  function CheckedShearYieldStrength(yieldPercent: real, sut: real): (r: Result<real>)
    ensures r.Err? <==> !(0.0 < yieldPercent <= 100.0)
    ensures r.Err? ==> r.error == ValueError
  {
    if 1.0 <= yieldPercent <= 100.0 then Ok(yieldPercent / 100.0 * sut)
    else if 0.0 < yieldPercent < 1.0 then Ok(yieldPercent * sut)
    else Err(ValueError)
  }

  /**
   * A percentage and its decimal spelling give the same shear yield
   * strength, and the shear ultimate strength is two thirds (0.67) of Sut.
   */
  lemma ShearStrengthSpellings(p: real, sut: real)
    requires 1.0 <= p < 100.0
    ensures ShearYieldStrength(p, sut) == ShearYieldStrength(p / 100.0, sut)
    ensures ShearYieldStrength(p, sut) == CheckedShearYieldStrength(p, sut).value
    ensures sut > 0.0 ==> ShearYieldStrength(p, sut) < sut
    ensures ShearUltimateStrength(sut) * 100.0 == 67.0 * sut
  {
    Helpers.PercentAndDecimalAgree(p);
  }

  /**
   * The checked revisions agree with the percent-helper revision wherever
   * they return, and refuse exactly the percentages outside (0, 100].
   */
  lemma CheckedAgreesWithHelper(p: real, sut: real)
    ensures CheckedShearYieldStrength(p, sut).Ok? ==>
              CheckedShearYieldStrength(p, sut).value == ShearYieldStrength(p, sut)
    ensures p <= 0.0 || p > 100.0 ==> CheckedShearYieldStrength(p, sut) == Err(ValueError)
  {
  }

  // ---------------------------------------------------------------------
  // weight
  // ---------------------------------------------------------------------

  /** weight: wire cross-section times coil circumference times coils times density. */
  function Weight(wireDiameter: real, springDiameter: real, activeCoils: real, density: real): real
  {
    var area := 0.25 * Pi * (wireDiameter * wireDiameter);
    var length := Pi * springDiameter;
    area * length * activeCoils * density
  }

  /** The closed form used by the oldest revision: 0.25 rho pi^2 d^2 D Na. */
  function ClosedFormWeight(wireDiameter: real, springDiameter: real, activeCoils: real,
                            density: real): real
  {
    0.25 * density * (Pi * Pi) * (wireDiameter * wireDiameter) * springDiameter * activeCoils
  }

  /** The two weight formulas compared in the scratch script are the same function. */
  lemma WeightFormulasAgree(wireDiameter: real, springDiameter: real, activeCoils: real, density: real)
    ensures Weight(wireDiameter, springDiameter, activeCoils, density)
            == ClosedFormWeight(wireDiameter, springDiameter, activeCoils, density)
  {
    var d2 := wireDiameter * wireDiameter;
    var a := 0.25 * Pi * d2;
    assert a * (Pi * springDiameter) * activeCoils * density
        == 0.25 * density * (Pi * Pi) * d2 * springDiameter * activeCoils;
  }

  // ---------------------------------------------------------------------
  // end coils and solid length
  // ---------------------------------------------------------------------

  /** ASCII lower-casing, for the end-type and anchor names. */
  function Lower(s: string): (r: string)
    ensures |r| == |s|
    ensures forall i :: 0 <= i < |s| ==> ('A' <= s[i] <= 'Z' ==> r[i] as int == s[i] as int + 32)
    ensures forall i :: 0 <= i < |s| ==> (!('A' <= s[i] <= 'Z') ==> r[i] == s[i])
  {
    seq(|s|, i requires 0 <= i < |s| => if 'A' <= s[i] <= 'Z' then (s[i] as int + 32) as char else s[i])
  }

  /** end_coils: options.get(end_type), None for an unknown end type. */
  function EndCoils(endType: string): Option<real>
  {
    if endType == "plain" then Some(0.0)
    else if endType == "plain and ground" then Some(1.0)
    else if endType == "squared or closed" then Some(2.0)
    else if endType == "squared and ground" then Some(2.0)
    else None
  }

  predicate KnownEndType(endType: string)
  {
    endType in {"plain", "plain and ground", "squared or closed", "squared and ground"}
  }

  /**
   * solid_length: d (Nt + 1) for plain and squared-or-closed ends, d Nt for
   * ground ends. The dict of candidates is built eagerly, so an unknown end
   * type fails in `None + Na` with a TypeError before the lookup.
   */
  function SolidLength(endType: string, wireDiameter: real, activeCoils: real): (r: Result<real>)
    ensures r.Err? <==> !KnownEndType(endType)
    ensures r.Err? ==> r.error == TypeError
  {
    match EndCoils(endType)
    case None => Err(TypeError)
    case Some(ne) =>
      var total := ne + activeCoils;
      if endType == "plain" || endType == "squared or closed" then Ok(wireDiameter * (total + 1.0))
      else Ok(wireDiameter * total)
  }

  /**
   * Solid length per end type, with Nt = end coils + Na: plain d(Na+1),
   * plain and ground d(Na+1), squared or closed d(Na+3), squared and
   * ground d(Na+2).
   */
  lemma SolidLengthByEndType(endType: string, wireDiameter: real, activeCoils: real)
    requires KnownEndType(endType)
    ensures EndCoils(endType).Some?
    ensures var extra := if endType == "plain" || endType == "plain and ground" then 1.0
                         else if endType == "squared or closed" then 3.0 else 2.0;
            SolidLength(endType, wireDiameter, activeCoils) == Ok(wireDiameter * (activeCoils + extra))
  {
  }

  /** Grinding the ends removes exactly one wire diameter from the stack. */
  lemma GroundEndsSaveOneWire(wireDiameter: real, activeCoils: real)
    ensures SolidLength("squared or closed", wireDiameter, activeCoils).value
            - SolidLength("squared and ground", wireDiameter, activeCoils).value == wireDiameter
  {
  }

  /** The free length estimated from Fsolid = (1 + zeta) F when none is given. */
  function EstimatedFreeLength(springConstant: real, zeta: real, force: real, solidLength: real): real
    requires springConstant != 0.0
  {
    (1.0 + zeta) * force / springConstant + solidLength
  }

  /**
   * With an estimated free length, the given-length branch of Fsolid,
   * K (L0 - Ls), equals the estimate (1 + zeta) F: both branches agree.
   */
  lemma FsolidBranchesAgree(springConstant: real, zeta: real, force: real, solidLength: real)
    requires springConstant != 0.0
    ensures springConstant * (EstimatedFreeLength(springConstant, zeta, force, solidLength) - solidLength)
            == (1.0 + zeta) * force
  {
  }
}
