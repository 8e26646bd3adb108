// The oldest push spring, Springs/HelicalPushSpring.py: the constructor
// stores its fields once and every derived quantity is recomputed on read,
// the active coils from the stored spring constant.

module OldPushSprings {
  import opened Common
  import opened SpringFormulas

  datatype OldPushSpring = OldPushSpring(
    force: real,
    wireDiameter: real,
    springDiameter: real,
    shearModulus: real,
    endType: string,
    springConstant: Option<real>,
    setRemoved: bool)
  {
    /** Positive diameters and modulus, and a non-zero rate when one is stored. */
    predicate Sound()
    {
      wireDiameter > 0.0 && springDiameter > 0.0 && shearModulus > 0.0
      && (springConstant.Some? ==> springConstant.value != 0.0)
    }
  }

  /**
   * The constructor: the end type is lower-cased and must be one of the
   * four known kinds, otherwise ValueError.
   */
  function Make(force: real, wireDiameter: real, springDiameter: real, shearModulus: real,
                endType: string, springConstant: Option<real>, setRemoved: bool)
    : (r: Result<OldPushSpring>)
    ensures r.Err? <==> !KnownEndType(Lower(endType))
    ensures r.Err? ==> r.error == ValueError
    ensures r.Ok? ==> r.value.endType == Lower(endType) && r.value.springConstant == springConstant
  {
    var s := OldPushSpring(force, wireDiameter, springDiameter, shearModulus,
                           Lower(endType), springConstant, setRemoved);
    if KnownEndType(s.endType) then Ok(s) else Err(ValueError)
  }

  /**
   * Na: recomputed from the spring constant on every read; a spring built
   * without one fails dividing by None (TypeError).
   */
  function ActiveCoils(s: OldPushSpring): (r: Result<real>)
    requires s.Sound()
    ensures r.Err? <==> s.springConstant.None?
    ensures r.Err? ==> r.error == TypeError
  {
    match s.springConstant
    case None => Err(TypeError)
    case Some(k) => Ok(CalcActiveCoils(s.shearModulus, s.wireDiameter, s.springDiameter, k))
  }

  /** CalcSpringConstant(Na) returns the stored spring constant. */
  lemma RateRoundTrip(s: OldPushSpring)
    requires s.Sound() && s.springConstant.Some?
    ensures ActiveCoils(s).Ok? && ActiveCoils(s).value != 0.0
    ensures CalcSpringConstant(s.shearModulus, s.wireDiameter, s.springDiameter, ActiveCoils(s).value)
            == s.springConstant.value
  {
    StiffnessInverse(s.shearModulus, s.wireDiameter, s.springDiameter, s.springConstant.value);
  }

  /** solid_length, through the recomputed coils. */
  function Solid(s: OldPushSpring): (r: Result<real>)
    requires s.Sound()
    ensures s.springConstant.None? ==> r == Err(TypeError)
    ensures s.springConstant.Some? ==> (r.Ok? <==> KnownEndType(s.endType))
  {
    match ActiveCoils(s)
    case Err(e) => Err(e)
    case Ok(na) => SolidLength(s.endType, s.wireDiameter, na)
  }

  /** The solid length of a constructed spring with a rate always exists, by end type. */
  lemma SolidOfConstructed(force: real, wireDiameter: real, springDiameter: real, shearModulus: real,
                           endType: string, k: real, setRemoved: bool)
    requires wireDiameter > 0.0 && springDiameter > 0.0 && shearModulus > 0.0 && k != 0.0
    requires Make(force, wireDiameter, springDiameter, shearModulus, endType, Some(k), setRemoved).Ok?
    ensures var s := Make(force, wireDiameter, springDiameter, shearModulus, endType, Some(k), setRemoved).value;
            Solid(s).Ok?
            && (s.endType == "plain" || s.endType == "plain and ground" ==>
                  Solid(s).value == wireDiameter * (ActiveCoils(s).value + 1.0))
            && (s.endType == "squared or closed" ==>
                  Solid(s).value == wireDiameter * (ActiveCoils(s).value + 3.0))
            && (s.endType == "squared and ground" ==>
                  Solid(s).value == wireDiameter * (ActiveCoils(s).value + 2.0))
  {
    var s := Make(force, wireDiameter, springDiameter, shearModulus, endType, Some(k), setRemoved).value;
    SolidLengthByEndType(s.endType, wireDiameter, ActiveCoils(s).value);
  }

  /** max_shear_stress: Ks with the set removed, Kw otherwise. */
  function ShearStress(s: OldPushSpring): real
    requires s.Sound() && s.springDiameter != s.wireDiameter
  {
    MaxShearStress(StressFactor(s.setRemoved, SpringIndex(s.wireDiameter, s.springDiameter)),
                   s.force, s.springDiameter, s.wireDiameter)
  }

  /** With the set removed the working stress is strictly lower, for any index above 1. */
  lemma ShearStressBySetRemoval(s: OldPushSpring)
    requires s.Sound() && s.springDiameter > s.wireDiameter && s.force > 0.0
    ensures ShearStress(s.(setRemoved := true)) < ShearStress(s.(setRemoved := false))
  {
    var c := SpringIndex(s.wireDiameter, s.springDiameter);
    IndexAboveOne(s.wireDiameter, s.springDiameter);
    SetRemovedLowersStress(c, s.force, s.springDiameter, s.wireDiameter);
  }

  /** weight: the closed form 0.25 rho pi^2 d^2 D Na. */
  function OldWeight(s: OldPushSpring, density: real): (r: Result<real>)
    requires s.Sound()
    ensures r.Err? <==> s.springConstant.None?
  {
    match ActiveCoils(s)
    case Err(e) => Err(e)
    case Ok(na) => Ok(ClosedFormWeight(s.wireDiameter, s.springDiameter, na, density))
  }

  /** The closed form agrees with the area-times-length weight of the newer revision. */
  lemma OldWeightAgrees(s: OldPushSpring, density: real)
    requires s.Sound() && s.springConstant.Some?
    ensures OldWeight(s, density).Ok?
    ensures OldWeight(s, density).value
            == Weight(s.wireDiameter, s.springDiameter, ActiveCoils(s).value, density)
  {
    WeightFormulasAgree(s.wireDiameter, s.springDiameter, ActiveCoils(s).value, density);
  }
}
