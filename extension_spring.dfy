// The extension spring as a mutable object, shared by springs/extension_spring.py
// and springs/ExtensionSpring.py (identical setter logic). Three linked
// quantities: the active coils, the body coils and the rate. Active and body
// coils differ by the fixed offset G/E; the rate follows the active coils by
// Castigliano's formula. The body coils may be absent (the attribute has not
// been created yet), which the getter reports as None and the deleter as an
// AttributeError.

module ExtensionSprings {
  import opened Common
  import opened SpringFormulas

  /** calc_free_length: two hook lengths plus the body. */
  function ExtensionFreeLength(wireDiameter: real, springDiameter: real, bodyCoils: real): real
  {
    2.0 * (springDiameter - wireDiameter) + (bodyCoils + 1.0) * wireDiameter
  }

  /** The free length grows by one wire diameter per extra body coil. */
  lemma FreeLengthPerCoil(wireDiameter: real, springDiameter: real, bodyCoils: real)
    ensures ExtensionFreeLength(wireDiameter, springDiameter, bodyCoils + 1.0)
            - ExtensionFreeLength(wireDiameter, springDiameter, bodyCoils) == wireDiameter
    ensures ExtensionFreeLength(wireDiameter, springDiameter, bodyCoils)
            == 2.0 * springDiameter + (bodyCoils - 1.0) * wireDiameter
  {
  }

  /** calc_deflection: (F - Fi) / K, the stretch beyond the initial tension. */
  function ExtensionDeflection(force: real, initialTension: real, springConstant: real): (x: real)
    requires springConstant != 0.0
    ensures springConstant * x + initialTension == force
  {
    (force - initialTension) / springConstant
  }

  /** Below the initial tension a positive-rate spring does not stretch. */
  lemma NoStretchBelowTension(force: real, initialTension: real, springConstant: real)
    requires springConstant > 0.0
    ensures ExtensionDeflection(force, initialTension, springConstant) <= 0.0 <==> force <= initialTension
  {
    var x := ExtensionDeflection(force, initialTension, springConstant);
    if x > 0.0 {
      assert springConstant * x > 0.0;
    }
    if x < 0.0 {
      assert springConstant * x < 0.0;
    }
  }

  /**
   * Sy of the extension spring (springs/extension_spring.py and
   * springs/ExtensionSpring.py): the bending yield percentage is a
   * percentage in [1, 100] and a fraction in (0, 1), the same rule as the
   * checked shear yield strength; anything else is a ValueError.
   */
  function BendingYieldStrength(bendingYieldPercent: real, sut: real): (r: Result<real>)
    ensures r.Err? <==> !(0.0 < bendingYieldPercent <= 100.0)
    ensures r.Err? ==> r.error == ValueError
    ensures r.Ok? && sut > 0.0 ==> 0.0 < r.value <= sut
  {
    var r := CheckedShearYieldStrength(bendingYieldPercent, sut);
    FractionOfStrength(if 1.0 <= bendingYieldPercent then bendingYieldPercent / 100.0 else bendingYieldPercent, sut);
    r
  }

  lemma FractionOfStrength(f: real, sut: real)
    ensures 0.0 < f <= 1.0 && sut > 0.0 ==> 0.0 < f * sut <= sut
  {
    if 0.0 < f <= 1.0 && sut > 0.0 {
      assert sut - f * sut == (1.0 - f) * sut;
    }
  }

  /**
   * A percentage from 1 up to 100 and its fraction give the same Sy; a
   * value of exactly 1 is read as one per cent, not as the whole of Sut.
   */
  lemma BendingYieldSpellings(p: real, sut: real)
    requires 1.0 <= p < 100.0
    ensures BendingYieldStrength(p, sut) == BendingYieldStrength(p / 100.0, sut)
    ensures BendingYieldStrength(1.0, sut) == Ok(sut / 100.0)
  {
  }

  class ExtensionSpring {
    var force: real
    var initialTension: real
    var wireDiameter: real
    var springDiameter: real
    var shearModulus: real
    var elasticModulus: real
    var activeCoils: real
    /** None while the `_body_coils` attribute does not exist. */
    var bodyCoils: Option<real>
    var springConstant: real
    var freeLength: real
    var constructing: bool

    ghost predicate Geometry()
      reads this
    {
      wireDiameter > 0.0 && springDiameter > 0.0 && shearModulus > 0.0 && elasticModulus > 0.0
    }

    /** G / E: how many more active than body coils an extension spring has. */
    function Offset(): real
      reads this
      requires elasticModulus != 0.0
    {
      shearModulus / elasticModulus
    }

    /** Body coils exist, are the active coils less G/E, and the rate matches the active coils. */
    ghost predicate Linked()
      reads this
    {
      Geometry() && bodyCoils.Some? && activeCoils == bodyCoils.value + Offset()
      && activeCoils != 0.0 && springConstant != 0.0
      && springConstant == CalcSpringConstant(shearModulus, wireDiameter, springDiameter, activeCoils)
    }

    /** The state of a constructed spring. */
    ghost predicate Valid()
      reads this
    {
      Linked() && !constructing
    }

    twostate predicate InputsUnchanged()
      reads this
    {
      force == old(force) && initialTension == old(initialTension)
      && wireDiameter == old(wireDiameter) && springDiameter == old(springDiameter)
      && shearModulus == old(shearModulus) && elasticModulus == old(elasticModulus)
      && constructing == old(constructing)
    }

    /** The free length every setter leaves behind: the formula at the current body coils. */
    ghost predicate FreeLengthEstimated()
      reads this
    {
      bodyCoils.Some? && freeLength == ExtensionFreeLength(wireDiameter, springDiameter, bodyCoils.value)
    }

    /** The base-class constructor: stores the fields while `constructing` is set. */
    constructor Init(force: real, initialTension: real, wireDiameter: real, springDiameter: real,
                     shearModulus: real, elasticModulus: real)
      ensures this.force == force && this.initialTension == initialTension
      ensures this.wireDiameter == wireDiameter && this.springDiameter == springDiameter
      ensures this.shearModulus == shearModulus && this.elasticModulus == elasticModulus
      ensures bodyCoils.None? && constructing
    {
      this.force := force;
      this.initialTension := initialTension;
      this.wireDiameter := wireDiameter;
      this.springDiameter := springDiameter;
      this.shearModulus := shearModulus;
      this.elasticModulus := elasticModulus;
      activeCoils := 0.0;
      bodyCoils := None;
      springConstant := 0.0;
      freeLength := 0.0;
      constructing := true;
    }

    /** The free_length setter: a given value is stored, otherwise the formula (needs body coils). */
    method SetFreeLength(value: Option<real>) returns (outcome: Outcome)
      modifies this
      ensures InputsUnchanged()
      ensures activeCoils == old(activeCoils) && bodyCoils == old(bodyCoils)
      ensures springConstant == old(springConstant)
      ensures value.Some? ==> outcome == Done && freeLength == value.value
      ensures value.None? && bodyCoils.Some? ==> outcome == Done && FreeLengthEstimated()
      ensures value.None? && bodyCoils.None? ==> outcome == Raised(TypeError) && freeLength == old(freeLength)
    {
      outcome := Done;
      if value.Some? {
        freeLength := value.value;
      } else if bodyCoils.None? {
        outcome := Raised(TypeError);
      } else {
        freeLength := ExtensionFreeLength(wireDiameter, springDiameter, bodyCoils.value);
      }
    }

    /**
     * The spring_constant setter. A given rate is stored, then the body
     * coils are deleted so that the active coils come from the rate, then
     * the body coils and the free length are recomputed. Deleting body
     * coils that were never created raises AttributeError.
     */
    method SetSpringConstant(value: Option<real>) returns (outcome: Outcome)
      requires Geometry()
      requires value.Some? ==> value.value != 0.0
      requires value.None? ==> activeCoils != 0.0
      modifies this
      decreases if value.Some? then 1 else 0
      ensures InputsUnchanged()
      ensures value.Some? && old(bodyCoils).None? ==>
                outcome == Raised(AttributeError) && springConstant == value.value
                && activeCoils == old(activeCoils) && bodyCoils.None?
      ensures value.Some? && old(bodyCoils).Some? ==>
                outcome == Done && Linked() && FreeLengthEstimated()
                && springConstant == value.value
                && activeCoils == CalcActiveCoils(shearModulus, wireDiameter, springDiameter, value.value)
                && bodyCoils == Some(activeCoils - Offset())
      ensures value.None? ==>
                outcome == Done && activeCoils == old(activeCoils) && bodyCoils == old(bodyCoils)
                && freeLength == old(freeLength)
                && springConstant == CalcSpringConstant(shearModulus, wireDiameter, springDiameter, activeCoils)
    {
      if value.Some? {
        springConstant := value.value;
        if bodyCoils.None? {
          outcome := Raised(AttributeError);
          return;
        }
        bodyCoils := None;
        outcome := SetActiveCoils(None);
        outcome := SetBodyCoils(None);
        StiffnessInverse(shearModulus, wireDiameter, springDiameter, springConstant);
        outcome := SetFreeLength(None);
      } else {
        springConstant := CalcSpringConstant(shearModulus, wireDiameter, springDiameter, activeCoils);
        outcome := Done;
      }
    }

    /**
     * The active_coils setter. Given coils are stored, then the rate, the
     * body coils and the free length follow; without a value the coils come
     * from the body coils when they exist and from the rate otherwise.
     */
    method SetActiveCoils(value: Option<real>) returns (outcome: Outcome)
      requires Geometry()
      requires value.Some? ==> value.value != 0.0
      requires value.None? && bodyCoils.None? ==> springConstant != 0.0
      modifies this
      decreases if value.Some? then 1 else 0
      ensures InputsUnchanged()
      ensures outcome == Done
      ensures value.Some? ==>
                activeCoils == value.value && Linked() && FreeLengthEstimated()
                && springConstant == CalcSpringConstant(shearModulus, wireDiameter, springDiameter, value.value)
      ensures value.None? ==>
                springConstant == old(springConstant) && bodyCoils == old(bodyCoils)
                && freeLength == old(freeLength)
                && (bodyCoils.Some? ==> activeCoils == bodyCoils.value + Offset())
                && (bodyCoils.None? ==>
                      activeCoils == CalcActiveCoils(shearModulus, wireDiameter, springDiameter, springConstant))
    {
      outcome := Done;
      if value.Some? {
        activeCoils := value.value;
        outcome := SetSpringConstant(None);
        StiffnessInverse(shearModulus, wireDiameter, springDiameter, activeCoils);
        outcome := SetBodyCoils(None);
        outcome := SetFreeLength(None);
      } else if bodyCoils.None? {
        activeCoils := CalcActiveCoils(shearModulus, wireDiameter, springDiameter, springConstant);
      } else {
        activeCoils := bodyCoils.value + Offset();
      }
    }

    /**
     * The body_coils setter. Given body coils are stored and the active
     * coils, the rate and the free length follow from them; without a value
     * they are the active coils less G/E.
     */
    method SetBodyCoils(value: Option<real>) returns (outcome: Outcome)
      requires Geometry()
      requires value.Some? ==> value.value + shearModulus / elasticModulus != 0.0
      modifies this
      decreases if value.Some? then 1 else 0
      ensures InputsUnchanged()
      ensures outcome == Done
      ensures value.Some? ==>
                bodyCoils == Some(value.value) && activeCoils == value.value + Offset()
                && Linked() && FreeLengthEstimated()
      ensures value.None? ==>
                bodyCoils == Some(old(activeCoils) - Offset()) && activeCoils == old(activeCoils)
                && springConstant == old(springConstant) && freeLength == old(freeLength)
    {
      outcome := Done;
      if value.Some? {
        bodyCoils := value;
        outcome := SetActiveCoils(None);
        outcome := SetSpringConstant(None);
        StiffnessInverse(shearModulus, wireDiameter, springDiameter, activeCoils);
        outcome := SetFreeLength(None);
      } else {
        bodyCoils := Some(activeCoils - Offset());
      }
    }

    /**
     * The wire_diameter setter. After construction the body coils stay,
     * the active coils become body + G/E, the rate follows the new diameter
     * and the free length is recomputed.
     */
    method SetWireDiameter(diameter: real) returns (outcome: Outcome)
      requires diameter > 0.0
      requires !constructing ==> Linked()
      modifies this
      ensures wireDiameter == diameter && outcome == Done
      ensures force == old(force) && initialTension == old(initialTension)
      ensures springDiameter == old(springDiameter) && shearModulus == old(shearModulus)
      ensures elasticModulus == old(elasticModulus) && constructing == old(constructing)
      ensures bodyCoils == old(bodyCoils)
      ensures old(constructing) ==>
                activeCoils == old(activeCoils) && springConstant == old(springConstant)
                && freeLength == old(freeLength)
      ensures !old(constructing) ==>
                activeCoils == old(activeCoils) && Linked() && FreeLengthEstimated()
    {
      wireDiameter := diameter;
      outcome := Done;
      if !constructing {
        outcome := SetActiveCoils(None);
        outcome := SetSpringConstant(None);
        StiffnessInverse(shearModulus, wireDiameter, springDiameter, activeCoils);
        outcome := SetFreeLength(None);
      }
    }

    /** The spring_diameter setter, with the same cascade as SetWireDiameter. */
    method SetSpringDiameter(diameter: real) returns (outcome: Outcome)
      requires diameter > 0.0
      requires !constructing ==> Linked()
      modifies this
      ensures springDiameter == diameter && outcome == Done
      ensures force == old(force) && initialTension == old(initialTension)
      ensures wireDiameter == old(wireDiameter) && shearModulus == old(shearModulus)
      ensures elasticModulus == old(elasticModulus) && constructing == old(constructing)
      ensures bodyCoils == old(bodyCoils)
      ensures old(constructing) ==>
                activeCoils == old(activeCoils) && springConstant == old(springConstant)
                && freeLength == old(freeLength)
      ensures !old(constructing) ==>
                activeCoils == old(activeCoils) && Linked() && FreeLengthEstimated()
    {
      springDiameter := diameter;
      outcome := Done;
      if !constructing {
        outcome := SetActiveCoils(None);
        outcome := SetSpringConstant(None);
        StiffnessInverse(shearModulus, wireDiameter, springDiameter, activeCoils);
        outcome := SetFreeLength(None);
      }
    }

    /**
     * _na_k_sorter over three quantities: exactly one of active coils, body
     * coils and rate may be given, and the other two follow from it.
     */
    method SortCoils(coils: Option<real>, body: Option<real>, rate: Option<real>)
      returns (outcome: Outcome)
      requires Geometry()
      requires coils.Some? ==> coils.value != 0.0
      requires body.Some? ==> body.value + shearModulus / elasticModulus != 0.0
      requires rate.Some? ==> rate.value != 0.0
      modifies this
      ensures InputsUnchanged()
      ensures coils.None? && body.None? && rate.None? ==> outcome == Raised(ValueError)
      ensures (coils.Some? && body.Some?) || (coils.Some? && rate.Some?) || (body.Some? && rate.Some?)
              ==> outcome == Raised(ValueError)
      ensures rate.Some? && coils.None? && body.None? && old(bodyCoils).None? ==>
                outcome == Raised(AttributeError)
      ensures coils.Some? && body.None? && rate.None? ==>
                outcome == Done && Linked() && FreeLengthEstimated() && activeCoils == coils.value
      ensures body.Some? && coils.None? && rate.None? ==>
                outcome == Done && Linked() && FreeLengthEstimated() && bodyCoils == body
      ensures rate.Some? && coils.None? && body.None? && old(bodyCoils).Some? ==>
                outcome == Done && Linked() && FreeLengthEstimated() && springConstant == rate.value
    {
      if coils.None? && rate.None? && body.None? {
        outcome := Raised(ValueError);
      } else if coils.None? && rate.Some? && body.None? {
        outcome := SetSpringConstant(rate);
        if outcome != Done {
          return;
        }
        outcome := SetActiveCoils(None);
        outcome := SetBodyCoils(None);
      } else if rate.None? && coils.Some? && body.None? {
        outcome := SetActiveCoils(coils);
        outcome := SetBodyCoils(None);
        outcome := SetSpringConstant(None);
      } else if rate.None? && coils.None? && body.Some? {
        outcome := SetBodyCoils(body);
        outcome := SetActiveCoils(None);
        outcome := SetSpringConstant(None);
      } else {
        outcome := Raised(ValueError);
      }
    }

    /**
     * The constructor: the sorter, then the free length. Built from the rate
     * alone it always fails, because the rate setter deletes body coils that
     * do not exist yet.
     */
    static method Build(force: real, initialTension: real, wireDiameter: real, springDiameter: real,
                        shearModulus: real, elasticModulus: real, coils: Option<real>,
                        body: Option<real>, rate: Option<real>, freeLength: Option<real>)
      returns (s: ExtensionSpring, outcome: Outcome)
      requires wireDiameter > 0.0 && springDiameter > 0.0 && shearModulus > 0.0 && elasticModulus > 0.0
      requires coils.Some? ==> coils.value != 0.0
      requires body.Some? ==> body.value + shearModulus / elasticModulus != 0.0
      requires rate.Some? ==> rate.value != 0.0
      ensures fresh(s)
      ensures rate.Some? ==> outcome != Done
      ensures rate.Some? && coils.None? && body.None? ==> outcome == Raised(AttributeError)
      ensures outcome == Done <==> (coils.Some? != body.Some?) && rate.None?
      ensures outcome == Done ==>
                s.Valid()
                && (coils.Some? ==> s.activeCoils == coils.value)
                && (body.Some? ==> s.bodyCoils == body)
                && (freeLength.Some? ==> s.freeLength == freeLength.value)
                && (freeLength.None? ==> s.FreeLengthEstimated())
    {
      s := new ExtensionSpring.Init(force, initialTension, wireDiameter, springDiameter,
                                    shearModulus, elasticModulus);
      outcome := s.SortCoils(coils, body, rate);
      if outcome != Done {
        return;
      }
      outcome := s.SetFreeLength(freeLength);
      s.constructing := false;
    }
  }
}
