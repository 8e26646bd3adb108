// The helical torsion spring of me_toolbox/springs/helical_torsion_spring.py.
// Like the extension spring it links active coils, body coils and the rate,
// but its offset between active and body coils is the legs' contribution
// (leg1 + leg2) / (3 pi D), which depends on the spring diameter, and its
// rate is the bending stiffness d^4 E / (10.8 D Na).

module TorsionSprings {
  import opened Common
  import opened SpringFormulas
  import Helpers

  /** d^4 E / (10.8 D): the rate of one active coil. */
  function CoilStiffness(wireDiameter: real, springDiameter: real, elasticModulus: real): real
    requires springDiameter != 0.0
  {
    (Fourth(wireDiameter) * elasticModulus) / (10.8 * springDiameter)
  }

  lemma CoilStiffnessPositive(wireDiameter: real, springDiameter: real, elasticModulus: real)
    requires wireDiameter > 0.0 && springDiameter > 0.0 && elasticModulus > 0.0
    ensures CoilStiffness(wireDiameter, springDiameter, elasticModulus) > 0.0
  {
    FourthPositive(wireDiameter);
    MulPositive(Fourth(wireDiameter), elasticModulus);
    DivPositive(Fourth(wireDiameter) * elasticModulus, 10.8 * springDiameter);
  }

  /** calc_spring_constant: d^4 E / (10.8 D Na). */
  function TorsionRate(wireDiameter: real, springDiameter: real, elasticModulus: real,
                       activeCoils: real): (k: real)
    requires springDiameter != 0.0 && activeCoils != 0.0
    ensures k * activeCoils == CoilStiffness(wireDiameter, springDiameter, elasticModulus)
  {
    (Fourth(wireDiameter) * elasticModulus)
      / (10.8 * springDiameter * activeCoils)
  }

  /**
   * calc_active_coils without body coils: the rate formula with K in place
   * of Na, since Na K is the one-coil stiffness either way.
   */
  function TorsionActiveCoils(wireDiameter: real, springDiameter: real, elasticModulus: real,
                              springConstant: real): (n: real)
    requires springDiameter != 0.0 && springConstant != 0.0
    ensures n * springConstant == CoilStiffness(wireDiameter, springDiameter, elasticModulus)
  {
    TorsionRate(wireDiameter, springDiameter, elasticModulus, springConstant)
  }

  /** The rate and the coil count are exact inverses for a positive geometry. */
  lemma {:induction false} TorsionStiffnessInverse(wireDiameter: real, springDiameter: real,
                                                   elasticModulus: real, x: real)
    requires wireDiameter > 0.0 && springDiameter > 0.0 && elasticModulus > 0.0 && x != 0.0
    ensures TorsionRate(wireDiameter, springDiameter, elasticModulus, x) != 0.0
    ensures TorsionActiveCoils(wireDiameter, springDiameter, elasticModulus, x) != 0.0
    ensures TorsionActiveCoils(wireDiameter, springDiameter, elasticModulus,
              TorsionRate(wireDiameter, springDiameter, elasticModulus, x)) == x
    ensures TorsionRate(wireDiameter, springDiameter, elasticModulus,
              TorsionActiveCoils(wireDiameter, springDiameter, elasticModulus, x)) == x
  {
    var s := CoilStiffness(wireDiameter, springDiameter, elasticModulus);
    CoilStiffnessPositive(wireDiameter, springDiameter, elasticModulus);
    var k := TorsionRate(wireDiameter, springDiameter, elasticModulus, x);
    assert k * x == s;
    assert k != 0.0;
    var n := TorsionActiveCoils(wireDiameter, springDiameter, elasticModulus, k);
    assert n * k == s;
    ProductCancel(n, x, k);
    var m := TorsionActiveCoils(wireDiameter, springDiameter, elasticModulus, x);
    assert m * x == s;
    assert m != 0.0;
    var k2 := TorsionRate(wireDiameter, springDiameter, elasticModulus, m);
    assert k2 * m == s;
    ProductCancel(k2, x, m);
  }

  /** a * c == b * c with c != 0 gives a == b. */
  lemma ProductCancel(a: real, b: real, c: real)
    requires c != 0.0 && a * c == b * c
    ensures a == b
  {
    assert (a - b) * c == 0.0;
  }

  lemma ScaleStrict(a: real, b: real, c: real)
    requires a < b && c > 0.0
    ensures c * a < c * b
  {
  }

  lemma ScaleWeak(a: real, b: real, c: real)
    requires a <= b && c > 0.0
    ensures a * c <= b * c
  {
  }

  /** The rate falls strictly as active coils are added. */
  lemma TorsionRateDecreases(wireDiameter: real, springDiameter: real, elasticModulus: real,
                             n1: real, n2: real)
    requires wireDiameter > 0.0 && springDiameter > 0.0 && elasticModulus > 0.0
    requires 0.0 < n1 < n2
    ensures TorsionRate(wireDiameter, springDiameter, elasticModulus, n2)
            < TorsionRate(wireDiameter, springDiameter, elasticModulus, n1)
  {
    var s := CoilStiffness(wireDiameter, springDiameter, elasticModulus);
    CoilStiffnessPositive(wireDiameter, springDiameter, elasticModulus);
    RateIsStiffnessOverCoils(wireDiameter, springDiameter, elasticModulus, n1);
    RateIsStiffnessOverCoils(wireDiameter, springDiameter, elasticModulus, n2);
    ScaleStrict(n1, n2, s);
    QuotientCompare(s, n1, s, n2);
  }

  lemma RateIsStiffnessOverCoils(wireDiameter: real, springDiameter: real, elasticModulus: real,
                                 n: real)
    requires springDiameter != 0.0 && n != 0.0
    ensures TorsionRate(wireDiameter, springDiameter, elasticModulus, n)
            == CoilStiffness(wireDiameter, springDiameter, elasticModulus) / n
  {
    var q := Fourth(wireDiameter) * elasticModulus;
    assert q / (10.8 * springDiameter * n) == (q / (10.8 * springDiameter)) / n;
  }

  /** (leg1 + leg2) / (3 pi D): the coils the two legs add to the body. */
  function LegCoils(leg1: real, leg2: real, springDiameter: real): real
    requires springDiameter != 0.0
  {
    (leg1 + leg2) / (3.0 * Pi * springDiameter)
  }

  /** The angular deflection of n coils under a moment: 10.8 M D / (d^4 E) * n. */
  function AngularDeflectionOf(moment: real, wireDiameter: real, springDiameter: real,
                               elasticModulus: real, coils: real): real
    requires wireDiameter > 0.0 && elasticModulus > 0.0
  {
    FourthPositive(wireDiameter);
    MulPositive(Fourth(wireDiameter), elasticModulus);
    ((10.8 * moment * springDiameter)
      / (Fourth(wireDiameter) * elasticModulus)) * coils
  }

  /** The bending stress at the inner fibre: Ki 32 M / (pi d^3), Ki the curvature factor at C. */
  function MaxStress(moment: real, wireDiameter: real, springDiameter: real): real
    requires wireDiameter != 0.0
    requires springDiameter / wireDiameter != 0.0 && springDiameter / wireDiameter != 1.0
  {
    CurvatureFactor(SpringIndex(wireDiameter, springDiameter)) * 32.0 * moment
      / (Pi * (wireDiameter * wireDiameter * wireDiameter))
  }

  /** The stress is linear in the moment, so the cycle splits exactly. */
  lemma MaxStressLinear(m1: real, m2: real, wireDiameter: real, springDiameter: real)
    requires wireDiameter != 0.0
    requires springDiameter / wireDiameter != 0.0 && springDiameter / wireDiameter != 1.0
    ensures MaxStress(m1 + m2, wireDiameter, springDiameter)
            == MaxStress(m1, wireDiameter, springDiameter) + MaxStress(m2, wireDiameter, springDiameter)
  {
    var k := CurvatureFactor(SpringIndex(wireDiameter, springDiameter));
    var den := Pi * (wireDiameter * wireDiameter * wireDiameter);
    assert k * 32.0 * (m1 + m2) == k * 32.0 * m1 + k * 32.0 * m2;
    assert (k * 32.0 * m1 + k * 32.0 * m2) / den == k * 32.0 * m1 / den + k * 32.0 * m2 / den;
  }

  /**
   * fatigue_analysis: the alternating and the mean stress are the stresses
   * at half the moment range and at the midpoint moment.
   */
  function CycleStresses(maxMoment: real, minMoment: real, wireDiameter: real,
                         springDiameter: real): (r: (real, real))
    requires wireDiameter != 0.0
    requires springDiameter / wireDiameter != 0.0 && springDiameter / wireDiameter != 1.0
    ensures var (alt, mean) := r;
            maxMoment >= minMoment ==>
              alt + mean == MaxStress(maxMoment, wireDiameter, springDiameter)
              && mean - alt == MaxStress(minMoment, wireDiameter, springDiameter)
  {
    var altMoment := (if maxMoment >= minMoment then maxMoment - minMoment else minMoment - maxMoment) / 2.0;
    var meanMoment := (maxMoment + minMoment) / 2.0;
    var alt := MaxStress(altMoment, wireDiameter, springDiameter);
    var mean := MaxStress(meanMoment, wireDiameter, springDiameter);
    MaxStressLinear(altMoment, meanMoment, wireDiameter, springDiameter);
    MaxStressLinear(minMoment, altMoment, wireDiameter, springDiameter);
    (alt, mean)
  }

  /** What clearance returns: a note when the pin is unknown, else the radial gap. */
  datatype Clearance = Note(message: string) | Gap(value: real)

  /**
   * The helix diameter of the loaded body: Nb D / (Nb + theta), theta the
   * body's angular deflection in turns.
   */
  function HelixDiameter(bodyCoils: real, springDiameter: real, bodyDeflection: real): real
    requires bodyCoils + bodyDeflection != 0.0
  {
    (bodyCoils * springDiameter) / (bodyCoils + bodyDeflection)
  }

  /** Winding the body up under a positive moment shrinks its helix diameter. */
  lemma HelixShrinksUnderLoad(bodyCoils: real, springDiameter: real, bodyDeflection: real)
    requires bodyCoils > 0.0 && springDiameter > 0.0 && bodyDeflection > 0.0
    ensures 0.0 < HelixDiameter(bodyCoils, springDiameter, bodyDeflection) < springDiameter
  {
    var h := HelixDiameter(bodyCoils, springDiameter, bodyDeflection);
    var t := bodyCoils + bodyDeflection;
    assert h * t == bodyCoils * springDiameter;
    assert bodyCoils * springDiameter < t * springDiameter;
    assert bodyCoils * springDiameter > 0.0;
    if h >= springDiameter {
      ScaleWeak(springDiameter, h, t);
    }
  }

  class HelicalTorsionSpring {
    var maxMoment: real
    var maxForce: Option<real>
    var wireDiameter: real
    var springDiameter: real
    var elasticModulus: real
    var leg1: real
    var leg2: real
    var yieldPercent: real
    var pinDiameter: Option<real>
    var activeCoils: real
    /** None while the `_body_coils` attribute does not exist. */
    var bodyCoils: Option<real>
    var springConstant: real
    var constructing: bool

    ghost predicate Geometry()
      reads this
    {
      wireDiameter > 0.0 && springDiameter > 0.0 && elasticModulus > 0.0
    }

    /** The legs' contribution at the current spring diameter. */
    function Offset(): real
      reads this
      requires springDiameter != 0.0
    {
      LegCoils(leg1, leg2, springDiameter)
    }

    /** Body coils exist and sit one offset below the active coils; the rate matches the active coils. */
    ghost predicate Linked()
      reads this
    {
      Geometry() && bodyCoils.Some? && activeCoils == bodyCoils.value + Offset()
      && activeCoils != 0.0 && springConstant != 0.0
      && springConstant == TorsionRate(wireDiameter, springDiameter, elasticModulus, activeCoils)
    }

    ghost predicate Valid()
      reads this
    {
      Linked() && !constructing
    }

    twostate predicate InputsUnchanged()
      reads this
    {
      maxMoment == old(maxMoment) && maxForce == old(maxForce)
      && wireDiameter == old(wireDiameter) && springDiameter == old(springDiameter)
      && elasticModulus == old(elasticModulus) && leg1 == old(leg1) && leg2 == old(leg2)
      && yieldPercent == old(yieldPercent) && pinDiameter == old(pinDiameter)
      && constructing == old(constructing)
    }

    /**
     * The constructor up to the sorter: the force is the moment over the
     * radius when a radius is given, and nothing cascades yet.
     */
    constructor Init(maxMoment: real, wireDiameter: real, springDiameter: real, leg1: real, leg2: real,
                     elasticModulus: real, yieldPercent: real, radius: Option<real>,
                     pinDiameter: Option<real>)
      requires radius != Some(0.0)
      ensures this.maxMoment == maxMoment && this.wireDiameter == wireDiameter
      ensures this.springDiameter == springDiameter && this.elasticModulus == elasticModulus
      ensures this.leg1 == leg1 && this.leg2 == leg2 && this.yieldPercent == yieldPercent
      ensures this.pinDiameter == pinDiameter
      ensures radius.None? ==> maxForce.None?
      ensures radius.Some? ==> maxForce.Some? && maxForce.value * radius.value == maxMoment
      ensures bodyCoils.None? && constructing
    {
      this.maxMoment := maxMoment;
      maxForce := if radius.Some? then Some(maxMoment / radius.value) else None;
      this.wireDiameter := wireDiameter;
      this.springDiameter := springDiameter;
      this.elasticModulus := elasticModulus;
      this.leg1 := leg1;
      this.leg2 := leg2;
      this.yieldPercent := yieldPercent;
      this.pinDiameter := pinDiameter;
      activeCoils := 0.0;
      bodyCoils := None;
      springConstant := 0.0;
      constructing := true;
    }

    /**
     * The spring_constant setter. A given rate is stored, the body coils
     * are deleted (AttributeError when they were never created) so that
     * the active coils come from the rate, and the body coils follow.
     */
    method SetSpringConstant(value: Option<real>) returns (outcome: Outcome)
      requires Geometry()
      requires value.Some? ==> value.value != 0.0
      requires value.None? ==> activeCoils != 0.0
      modifies this
      decreases if value.Some? then 1 else 0
      ensures InputsUnchanged()
      ensures value.Some? && old(bodyCoils).None? ==>
                outcome == Raised(AttributeError) && springConstant == value.value
                && activeCoils == old(activeCoils) && bodyCoils.None?
      ensures value.Some? && old(bodyCoils).Some? ==>
                outcome == Done && Linked() && springConstant == value.value
                && activeCoils == TorsionActiveCoils(wireDiameter, springDiameter, elasticModulus, value.value)
      ensures value.None? ==>
                outcome == Done && activeCoils == old(activeCoils) && bodyCoils == old(bodyCoils)
                && springConstant == TorsionRate(wireDiameter, springDiameter, elasticModulus, activeCoils)
    {
      if value.Some? {
        springConstant := value.value;
        if bodyCoils.None? {
          outcome := Raised(AttributeError);
          return;
        }
        bodyCoils := None;
        outcome := SetActiveCoils(None);
        outcome := SetBodyCoils(None);
        TorsionStiffnessInverse(wireDiameter, springDiameter, elasticModulus, springConstant);
      } else {
        springConstant := TorsionRate(wireDiameter, springDiameter, elasticModulus, activeCoils);
        outcome := Done;
      }
    }

    /**
     * The active_coils setter: given coils are stored and the rate and the
     * body coils follow; otherwise the coils are body + offset when body
     * coils exist and come from the rate when they do not.
     */
    method SetActiveCoils(value: Option<real>) returns (outcome: Outcome)
      requires Geometry()
      requires value.Some? ==> value.value != 0.0
      requires value.None? && bodyCoils.None? ==> springConstant != 0.0
      modifies this
      decreases if value.Some? then 1 else 0
      ensures InputsUnchanged()
      ensures outcome == Done
      ensures value.Some? ==> activeCoils == value.value && Linked()
      ensures value.None? ==>
                springConstant == old(springConstant) && bodyCoils == old(bodyCoils)
                && (bodyCoils.Some? ==> activeCoils == bodyCoils.value + Offset())
                && (bodyCoils.None? ==>
                      activeCoils == TorsionActiveCoils(wireDiameter, springDiameter, elasticModulus,
                                                        springConstant))
    {
      outcome := Done;
      if value.Some? {
        activeCoils := value.value;
        outcome := SetSpringConstant(None);
        TorsionStiffnessInverse(wireDiameter, springDiameter, elasticModulus, activeCoils);
        outcome := SetBodyCoils(None);
      } else if bodyCoils.None? {
        activeCoils := TorsionActiveCoils(wireDiameter, springDiameter, elasticModulus, springConstant);
      } else {
        activeCoils := bodyCoils.value + Offset();
      }
    }

    /**
     * The body_coils setter: given body coils are stored and the active
     * coils and the rate follow; otherwise they are the active coils less
     * the offset.
     */
    method SetBodyCoils(value: Option<real>) returns (outcome: Outcome)
      requires Geometry()
      requires value.Some? ==> value.value + LegCoils(leg1, leg2, springDiameter) != 0.0
      modifies this
      decreases if value.Some? then 1 else 0
      ensures InputsUnchanged()
      ensures outcome == Done
      ensures value.Some? ==>
                bodyCoils == value && activeCoils == value.value + Offset() && Linked()
      ensures value.None? ==>
                bodyCoils == Some(old(activeCoils) - Offset()) && activeCoils == old(activeCoils)
                && springConstant == old(springConstant)
    {
      outcome := Done;
      if value.Some? {
        bodyCoils := value;
        outcome := SetActiveCoils(None);
        outcome := SetSpringConstant(None);
        TorsionStiffnessInverse(wireDiameter, springDiameter, elasticModulus, activeCoils);
      } else {
        bodyCoils := Some(activeCoils - Offset());
      }
    }

    /**
     * The wire_diameter setter: after construction the body coils stay, so
     * the active coils stay too (the offset does not involve d), and the
     * rate follows the new diameter.
     */
    method SetWireDiameter(diameter: real) returns (outcome: Outcome)
      requires diameter > 0.0
      requires !constructing ==> Linked()
      modifies this
      ensures wireDiameter == diameter && outcome == Done
      ensures maxMoment == old(maxMoment) && maxForce == old(maxForce)
      ensures springDiameter == old(springDiameter) && elasticModulus == old(elasticModulus)
      ensures leg1 == old(leg1) && leg2 == old(leg2) && yieldPercent == old(yieldPercent)
      ensures pinDiameter == old(pinDiameter) && constructing == old(constructing)
      ensures bodyCoils == old(bodyCoils) && activeCoils == old(activeCoils)
      ensures old(constructing) ==> springConstant == old(springConstant)
      ensures !old(constructing) ==> Linked()
    {
      wireDiameter := diameter;
      outcome := Done;
      if !constructing {
        outcome := SetActiveCoils(None);
        outcome := SetSpringConstant(None);
        TorsionStiffnessInverse(wireDiameter, springDiameter, elasticModulus, activeCoils);
      }
    }

    /**
     * The spring_diameter setter: after construction the body coils stay,
     * the active coils become body + the offset at the new diameter, and
     * the rate follows them.
     */
    method SetSpringDiameter(diameter: real) returns (outcome: Outcome)
      requires diameter > 0.0
      requires !constructing ==> Linked() && bodyCoils.value + LegCoils(leg1, leg2, diameter) != 0.0
      modifies this
      ensures springDiameter == diameter && outcome == Done
      ensures maxMoment == old(maxMoment) && maxForce == old(maxForce)
      ensures wireDiameter == old(wireDiameter) && elasticModulus == old(elasticModulus)
      ensures leg1 == old(leg1) && leg2 == old(leg2) && yieldPercent == old(yieldPercent)
      ensures pinDiameter == old(pinDiameter) && constructing == old(constructing)
      ensures bodyCoils == old(bodyCoils)
      ensures old(constructing) ==>
                activeCoils == old(activeCoils) && springConstant == old(springConstant)
      ensures !old(constructing) ==>
                Linked() && activeCoils == bodyCoils.value + LegCoils(leg1, leg2, diameter)
    {
      springDiameter := diameter;
      outcome := Done;
      if !constructing {
        outcome := SetActiveCoils(None);
        outcome := SetSpringConstant(None);
        TorsionStiffnessInverse(wireDiameter, springDiameter, elasticModulus, activeCoils);
      }
    }

    /**
     * _na_k_sorter: exactly one of active coils, body coils and rate may be
     * given; the others follow from it.
     */
    method SortCoils(coils: Option<real>, body: Option<real>, rate: Option<real>)
      returns (outcome: Outcome)
      requires Geometry()
      requires coils.Some? ==> coils.value != 0.0
      requires body.Some? ==> body.value + LegCoils(leg1, leg2, springDiameter) != 0.0
      requires rate.Some? ==> rate.value != 0.0
      modifies this
      ensures InputsUnchanged()
      ensures coils.None? && body.None? && rate.None? ==> outcome == Raised(ValueError)
      ensures (coils.Some? && body.Some?) || (coils.Some? && rate.Some?) || (body.Some? && rate.Some?)
              ==> outcome == Raised(ValueError)
      ensures rate.Some? && coils.None? && body.None? && old(bodyCoils).None? ==>
                outcome == Raised(AttributeError)
      ensures coils.Some? && body.None? && rate.None? ==>
                outcome == Done && Linked() && activeCoils == coils.value
      ensures body.Some? && coils.None? && rate.None? ==>
                outcome == Done && Linked() && bodyCoils == body
      ensures rate.Some? && coils.None? && body.None? && old(bodyCoils).Some? ==>
                outcome == Done && Linked() && springConstant == rate.value
    {
      if coils.None? && rate.None? && body.None? {
        outcome := Raised(ValueError);
      } else if coils.None? && rate.Some? && body.None? {
        outcome := SetSpringConstant(rate);
        if outcome != Done {
          return;
        }
        outcome := SetActiveCoils(None);
        outcome := SetBodyCoils(None);
      } else if rate.None? && coils.Some? && body.None? {
        outcome := SetActiveCoils(coils);
        outcome := SetBodyCoils(None);
        outcome := SetSpringConstant(None);
      } else if rate.None? && coils.None? && body.Some? {
        outcome := SetBodyCoils(body);
        outcome := SetActiveCoils(None);
        outcome := SetSpringConstant(None);
      } else {
        outcome := Raised(ValueError);
      }
    }

    /**
     * The full constructor. Built from the rate alone it always fails,
     * because the rate setter deletes body coils that do not exist yet.
     */
    static method Build(maxMoment: real, wireDiameter: real, springDiameter: real, leg1: real,
                        leg2: real, elasticModulus: real, yieldPercent: real, coils: Option<real>,
                        body: Option<real>, rate: Option<real>, radius: Option<real>,
                        pinDiameter: Option<real>)
      returns (s: HelicalTorsionSpring, outcome: Outcome)
      requires wireDiameter > 0.0 && springDiameter > 0.0 && elasticModulus > 0.0
      requires radius != Some(0.0)
      requires coils.Some? ==> coils.value != 0.0
      requires body.Some? ==> body.value + LegCoils(leg1, leg2, springDiameter) != 0.0
      requires rate.Some? ==> rate.value != 0.0
      ensures fresh(s)
      ensures rate.Some? && coils.None? && body.None? ==> outcome == Raised(AttributeError)
      ensures outcome == Done <==> (coils.Some? != body.Some?) && rate.None?
      ensures outcome == Done ==>
                s.Valid()
                && (coils.Some? ==> s.activeCoils == coils.value)
                && (body.Some? ==> s.bodyCoils == body)
    {
      s := new HelicalTorsionSpring.Init(maxMoment, wireDiameter, springDiameter, leg1, leg2,
                                         elasticModulus, yieldPercent, radius, pinDiameter);
      outcome := s.SortCoils(coils, body, rate);
      if outcome == Done {
        s.constructing := false;
      }
    }

    /**
     * calc_angular_deflection: over the active coils for the total
     * deflection, over the body coils for the body alone (a TypeError when
     * body coils are absent).
     */
    function AngularDeflection(moment: real, total: bool): (r: Result<real>)
      reads this
      requires wireDiameter > 0.0 && elasticModulus > 0.0
      ensures r.Err? <==> !total && bodyCoils.None?
      ensures r.Err? ==> r.error == TypeError
      ensures total ==>
                r.value == AngularDeflectionOf(moment, wireDiameter, springDiameter, elasticModulus,
                                               activeCoils)
    {
      if total then
        Ok(AngularDeflectionOf(moment, wireDiameter, springDiameter, elasticModulus, activeCoils))
      else if bodyCoils.None? then Err(TypeError)
      else Ok(AngularDeflectionOf(moment, wireDiameter, springDiameter, elasticModulus, bodyCoils.value))
    }

    /**
     * The legs' share of the deflection: total minus body-only deflection is
     * 10.8 M D / (d^4 E) times the leg offset, and the total deflection
     * is the moment over the rate.
     */
    lemma DeflectionSplit(moment: real)
      requires Linked()
      ensures AngularDeflection(moment, true).Ok? && AngularDeflection(moment, false).Ok?
      ensures AngularDeflection(moment, true).value - AngularDeflection(moment, false).value
              == AngularDeflectionOf(moment, wireDiameter, springDiameter, elasticModulus, Offset())
      ensures AngularDeflection(moment, true).value * springConstant == moment
    {
      var u := (10.8 * moment * springDiameter)
               / (Fourth(wireDiameter) * elasticModulus);
      assert u * activeCoils - u * bodyCoils.value == u * Offset();
      var s := CoilStiffness(wireDiameter, springDiameter, elasticModulus);
      CoilStiffnessPositive(wireDiameter, springDiameter, elasticModulus);
      assert springConstant * activeCoils == s;
      var q := Fourth(wireDiameter) * elasticModulus;
      assert q != 0.0 by {
        assert s * (10.8 * springDiameter) == q;
      }
      UnitTimesStiffness(moment, springDiameter, q);
      assert u * s == moment;
      assert u * activeCoils * springConstant == u * s;
    }

    /** (10.8 M D / q) * (q / (10.8 D)) == M. */
    static lemma UnitTimesStiffness(moment: real, springDiameter: real, q: real)
      requires springDiameter != 0.0 && q != 0.0
      ensures ((10.8 * moment * springDiameter) / q) * (q / (10.8 * springDiameter)) == moment
    {
    }

    /**
     * clearance: a note when no pin diameter was given, else the loaded
     * helix diameter less the wire and the pin. The helix diameter needs the
     * body coils (TypeError without them).
     */
    function ClearanceOf(): (r: Result<Clearance>)
      reads this
      requires wireDiameter > 0.0 && elasticModulus > 0.0
      requires pinDiameter.Some? && bodyCoils.Some? ==>
                 bodyCoils.value + AngularDeflectionOf(maxMoment, wireDiameter, springDiameter,
                                                       elasticModulus, bodyCoils.value) != 0.0
      ensures pinDiameter.None? ==> r.Ok? && r.value.Note?
      ensures r.Err? <==> pinDiameter.Some? && bodyCoils.None?
      ensures r.Err? ==> r.error == TypeError
      ensures pinDiameter.Some? && bodyCoils.Some? ==>
                r.Ok? && r.value.Gap? && r.value.value + wireDiameter + pinDiameter.value
                  == HelixDiameter(bodyCoils.value, springDiameter,
                       AngularDeflectionOf(maxMoment, wireDiameter, springDiameter, elasticModulus,
                                           bodyCoils.value))
    {
      if pinDiameter.None? then Ok(Note("The pin diameter was not given"))
      else if bodyCoils.None? then Err(TypeError)
      else
        var theta := AngularDeflectionOf(maxMoment, wireDiameter, springDiameter, elasticModulus,
                                         bodyCoils.value);
        Ok(Gap(HelixDiameter(bodyCoils.value, springDiameter, theta) - wireDiameter - pinDiameter.value))
    }

    /** yield_strength: percent_to_decimal of the yield percentage times Sut. */
    function YieldStrength(sut: real): (sy: real)
      reads this
      ensures yieldPercent >= 1.0 ==> sy * 100.0 == yieldPercent * sut
      ensures yieldPercent < 1.0 ==> sy == yieldPercent * sut
    {
      Helpers.PercentToDecimal(yieldPercent) * sut
    }

    /** static_safety_factor: Sy over the maximum stress (ZeroDivisionError for a zero stress). */
    function StaticSafetyFactor(sut: real): (r: Result<real>)
      reads this
      requires wireDiameter != 0.0
      requires springDiameter / wireDiameter != 0.0 && springDiameter / wireDiameter != 1.0
      ensures r.Err? <==> MaxStress(maxMoment, wireDiameter, springDiameter) == 0.0
      ensures r.Err? ==> r.error == ZeroDivisionError
      ensures r.Ok? ==> r.value * MaxStress(maxMoment, wireDiameter, springDiameter) == YieldStrength(sut)
    {
      var stress := MaxStress(maxMoment, wireDiameter, springDiameter);
      if stress == 0.0 then Err(ZeroDivisionError) else Ok(YieldStrength(sut) / stress)
    }
  }
}
