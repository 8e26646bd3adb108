// The helical push (compression) spring as a mutable object: the coil
// count, the rate and the free length are linked fields whose setters
// cascade into each other. One class serves both revisions that share this
// setter logic, me_toolbox/springs/helical_push_spring.py and
// springs/HelicalPushSpring.py; they differ only in the order of the
// constructor's steps, which the two factory methods follow.

module PushSprings {
  import opened Common
  import opened SpringFormulas

  class PushSpring {
    var force: real
    var wireDiameter: real
    var springDiameter: real
    var shearModulus: real
    var zeta: real
    var setRemoved: bool
    var endType: string
    var activeCoils: real
    var springConstant: real
    var freeLength: real
    var freeLengthInputFlag: bool
    /** True while the constructor runs: the diameter setters then only store. */
    var constructing: bool

    /** The quantities every formula divides by are positive. */
    ghost predicate Geometry()
      reads this`wireDiameter, this`springDiameter, this`shearModulus
    {
      wireDiameter > 0.0 && springDiameter > 0.0 && shearModulus > 0.0
    }

    /** The coil count and the rate agree through Castigliano's formula. */
    ghost predicate Linked()
      reads this`wireDiameter, this`springDiameter, this`shearModulus, this`activeCoils, this`springConstant
    {
      Geometry() && activeCoils != 0.0 && springConstant != 0.0
      && springConstant == CalcSpringConstant(shearModulus, wireDiameter, springDiameter, activeCoils)
    }

    /** solid_length for the current end type, wire and coils. */
    function Solid(): Result<real>
      reads this`endType, this`wireDiameter, this`activeCoils
    {
      SolidLength(endType, wireDiameter, activeCoils)
    }

    /** An estimated free length is Fsolid / K + Ls with Fsolid = (1 + zeta) F. */
    ghost predicate EstimateHolds()
      reads this
    {
      springConstant != 0.0 && KnownEndType(endType)
      && (!freeLengthInputFlag ==>
            freeLength == EstimatedFreeLength(springConstant, zeta, force, Solid().value))
    }

    ghost predicate FreeLengthConsistent()
      reads this
    {
      Linked() && EstimateHolds()
    }

    /** The state of a constructed spring. */
    ghost predicate Valid()
      reads this
    {
      FreeLengthConsistent() && !constructing
    }

    /** Everything but the coil, rate and free-length fields is left alone. */
    twostate predicate InputsUnchanged()
      reads this
    {
      force == old(force) && wireDiameter == old(wireDiameter)
      && springDiameter == old(springDiameter) && shearModulus == old(shearModulus)
      && zeta == old(zeta) && setRemoved == old(setRemoved) && endType == old(endType)
      && constructing == old(constructing)
    }

    /** Fsolid: K (L0 - Ls) when the free length was given, (1 + zeta) F otherwise. */
    function Fsolid(): Result<real>
      reads this
    {
      if freeLengthInputFlag then
        match Solid()
        case Ok(ls) => Ok(springConstant * (freeLength - ls))
        case Err(e) => Err(e)
      else Ok((1.0 + zeta) * force)
    }

    /**
     * On a consistent spring the two branches of Fsolid agree: whichever
     * way the free length came about, Fsolid is K (L0 - Ls).
     */
    lemma FsolidIsCompressionForce()
      requires EstimateHolds()
      ensures Solid().Ok? && Fsolid().Ok?
      ensures Fsolid().value == springConstant * (freeLength - Solid().value)
      ensures !freeLengthInputFlag ==> Fsolid().value == (1.0 + zeta) * force
    {
      if !freeLengthInputFlag {
        FsolidBranchesAgree(springConstant, zeta, force, Solid().value);
      }
    }

    /** total_coils: end coils plus active coils, None for an unknown end type. */
    function TotalCoils(): (r: Option<real>)
      reads this
      ensures r.Some? <==> KnownEndType(endType)
      ensures r.Some? ==> r.value - activeCoils == EndCoils(endType).value
    {
      match EndCoils(endType)
      case None => None
      case Some(ne) => Some(ne + activeCoils)
    }

    /** max_shear_stress (calc_shear_stress in the older revision) at the working force. */
    function ShearStress(): real
      reads this
      requires wireDiameter > 0.0 && springDiameter > 0.0 && springDiameter != wireDiameter
    {
      MaxShearStress(StressFactor(setRemoved, SpringIndex(wireDiameter, springDiameter)),
                     force, springDiameter, wireDiameter)
    }

    /**
     * Storing the fields from the base-class constructor. `constructing` is
     * already set, so the diameter setters only store.
     */
    constructor Init(force: real, wireDiameter: real, springDiameter: real, shearModulus: real)
      ensures this.force == force && this.wireDiameter == wireDiameter
      ensures this.springDiameter == springDiameter && this.shearModulus == shearModulus
      ensures constructing
    {
      this.force := force;
      this.wireDiameter := wireDiameter;
      this.springDiameter := springDiameter;
      this.shearModulus := shearModulus;
      zeta := 0.15;
      setRemoved := false;
      endType := "";
      activeCoils := 0.0;
      springConstant := 0.0;
      freeLength := 0.0;
      freeLengthInputFlag := false;
      constructing := true;
    }

    /**
     * The free_length setter: the flag records whether a value was given;
     * without one the length is estimated from Fsolid = (1 + zeta) F, which
     * fails in the solid length when the end type is unknown.
     */
    method SetFreeLength(value: Option<real>) returns (outcome: Outcome)
      requires Linked()
      modifies this
      ensures InputsUnchanged()
      ensures activeCoils == old(activeCoils) && springConstant == old(springConstant)
      ensures freeLengthInputFlag == value.Some?
      ensures value.Some? ==> outcome == Done && freeLength == value.value
      ensures value.None? ==> (outcome == Done <==> KnownEndType(endType))
      ensures Linked()
      ensures outcome == Done && KnownEndType(endType) ==> EstimateHolds()
      ensures outcome != Done ==> outcome == Raised(TypeError) && freeLength == old(freeLength)
    {
      freeLengthInputFlag := value.Some?;
      if value.Some? {
        freeLength := value.value;
        outcome := Done;
      } else {
        var estimate := CalcFreeLength();
        match estimate
        case Err(e) =>
          outcome := Raised(e);
        case Ok(l) =>
          freeLength := l;
          outcome := Done;
      }
    }

    /**
     * calc_free_length: Fsolid / K + Ls. Without a given free length this is
     * the estimate; an unknown end type fails in the solid length.
     */
    method CalcFreeLength() returns (r: Result<real>)
      requires springConstant != 0.0
      ensures !freeLengthInputFlag ==> (r.Ok? <==> KnownEndType(endType))
      ensures !freeLengthInputFlag && r.Ok? ==> r.value == EstimatedFreeLength(springConstant, zeta, force, Solid().value)
      ensures freeLengthInputFlag ==> (r.Ok? <==> KnownEndType(endType))
      ensures freeLengthInputFlag && r.Ok? ==> r.value == freeLength
      ensures r.Err? ==> r == Err(TypeError)
    {
      var fs := Fsolid();
      if fs.Err? {
        return Err(fs.error);
      }
      match Solid()
      case Err(e) =>
        r := Err(e);
      case Ok(ls) =>
        r := Ok(fs.value / springConstant + ls);
    }

    /**
     * The spring_constant setter. A given rate is stored, the coils are
     * recomputed from it and the free length re-estimated; without a value
     * the rate is computed from the coils.
     */
    method SetSpringConstant(value: Option<real>) returns (outcome: Outcome)
      requires Geometry()
      requires value.Some? ==> value.value != 0.0
      requires value.None? ==> activeCoils != 0.0
      modifies this
      decreases if value.Some? then 1 else 0
      ensures InputsUnchanged()
      ensures Linked()
      ensures value.Some? ==>
                springConstant == value.value
                && activeCoils == CalcActiveCoils(shearModulus, wireDiameter, springDiameter, value.value)
                && !freeLengthInputFlag
                && (outcome == Done <==> KnownEndType(endType))
                && (outcome == Done ==> FreeLengthConsistent())
                && (outcome != Done ==> outcome == Raised(TypeError))
      ensures value.None? ==>
                outcome == Done && activeCoils == old(activeCoils)
                && freeLength == old(freeLength) && freeLengthInputFlag == old(freeLengthInputFlag)
    {
      if value.Some? {
        springConstant := value.value;
        outcome := SetActiveCoils(None);
        outcome := SetFreeLength(None);
      } else {
        springConstant := CalcSpringConstant(shearModulus, wireDiameter, springDiameter, activeCoils);
        StiffnessInverse(shearModulus, wireDiameter, springDiameter, activeCoils);
        outcome := Done;
      }
    }

    /**
     * The active_coils setter, the mirror image of SetSpringConstant: given
     * coils are stored, the rate recomputed and the free length re-estimated;
     * without a value the coils are computed from the rate.
     */
    method SetActiveCoils(value: Option<real>) returns (outcome: Outcome)
      requires Geometry()
      requires value.Some? ==> value.value != 0.0
      requires value.None? ==> springConstant != 0.0
      modifies this
      decreases if value.Some? then 1 else 0
      ensures InputsUnchanged()
      ensures Linked()
      ensures value.Some? ==>
                activeCoils == value.value
                && springConstant == CalcSpringConstant(shearModulus, wireDiameter, springDiameter, value.value)
                && !freeLengthInputFlag
                && (outcome == Done <==> KnownEndType(endType))
                && (outcome == Done ==> FreeLengthConsistent())
                && (outcome != Done ==> outcome == Raised(TypeError))
      ensures value.None? ==>
                outcome == Done && springConstant == old(springConstant)
                && activeCoils == CalcActiveCoils(shearModulus, wireDiameter, springDiameter, old(springConstant))
                && freeLength == old(freeLength) && freeLengthInputFlag == old(freeLengthInputFlag)
    {
      if value.Some? {
        activeCoils := value.value;
        outcome := SetSpringConstant(None);
        outcome := SetFreeLength(None);
      } else {
        activeCoils := CalcActiveCoils(shearModulus, wireDiameter, springDiameter, springConstant);
        StiffnessInverse(shearModulus, wireDiameter, springDiameter, springConstant);
        outcome := Done;
      }
    }

    /**
     * The wire_diameter setter. While constructing it only stores; after
     * construction the rate is kept, the coils are recomputed from it and
     * the free length re-estimated.
     */
    method SetWireDiameter(diameter: real) returns (outcome: Outcome)
      requires diameter > 0.0
      requires !constructing ==> Linked()
      modifies this
      ensures wireDiameter == diameter
      ensures force == old(force) && springDiameter == old(springDiameter)
      ensures shearModulus == old(shearModulus) && zeta == old(zeta)
      ensures setRemoved == old(setRemoved) && endType == old(endType)
      ensures constructing == old(constructing)
      ensures springConstant == old(springConstant)
      ensures old(constructing) ==>
                outcome == Done && activeCoils == old(activeCoils)
                && freeLength == old(freeLength) && freeLengthInputFlag == old(freeLengthInputFlag)
      ensures !old(constructing) ==>
                activeCoils == CalcActiveCoils(shearModulus, diameter, springDiameter, springConstant)
                && Linked() && !freeLengthInputFlag
                && (outcome == Done <==> KnownEndType(endType))
                && (outcome == Done ==> FreeLengthConsistent())
    {
      wireDiameter := diameter;
      outcome := Done;
      if !constructing {
        outcome := SetActiveCoils(None);
        outcome := SetFreeLength(None);
      }
    }

    /** The spring_diameter setter, with the same cascade as SetWireDiameter. */
    method SetSpringDiameter(diameter: real) returns (outcome: Outcome)
      requires diameter > 0.0
      requires !constructing ==> Linked()
      modifies this
      ensures springDiameter == diameter
      ensures force == old(force) && wireDiameter == old(wireDiameter)
      ensures shearModulus == old(shearModulus) && zeta == old(zeta)
      ensures setRemoved == old(setRemoved) && endType == old(endType)
      ensures constructing == old(constructing)
      ensures springConstant == old(springConstant)
      ensures old(constructing) ==>
                outcome == Done && activeCoils == old(activeCoils)
                && freeLength == old(freeLength) && freeLengthInputFlag == old(freeLengthInputFlag)
      ensures !old(constructing) ==>
                activeCoils == CalcActiveCoils(shearModulus, wireDiameter, diameter, springConstant)
                && Linked() && !freeLengthInputFlag
                && (outcome == Done <==> KnownEndType(endType))
                && (outcome == Done ==> FreeLengthConsistent())
    {
      springDiameter := diameter;
      outcome := Done;
      if !constructing {
        outcome := SetActiveCoils(None);
        outcome := SetFreeLength(None);
      }
    }

    /**
     * _na_k_sorter: exactly one of the coil count and the rate may be given;
     * the given one is stored first and the other computed from it.
     */
    method SortCoilsAndRate(coils: Option<real>, rate: Option<real>) returns (outcome: Outcome)
      requires Geometry()
      requires coils.Some? ==> coils.value != 0.0
      requires rate.Some? ==> rate.value != 0.0
      modifies this
      ensures InputsUnchanged()
      ensures coils.Some? == rate.Some? ==> outcome == Raised(ValueError)
      ensures coils.Some? != rate.Some? ==>
                Linked() && !freeLengthInputFlag
                && (outcome == Done <==> KnownEndType(endType))
                && (outcome != Done ==> outcome == Raised(TypeError))
      ensures outcome == Done ==> FreeLengthConsistent()
      ensures outcome == Done && coils.Some? ==> activeCoils == coils.value
      ensures outcome == Done && rate.Some? ==> springConstant == rate.value
    {
      if coils.None? && rate.None? {
        outcome := Raised(ValueError);
      } else if coils.None? {
        outcome := SetSpringConstant(rate);
        if outcome != Done {
          return;
        }
        var ignored := SetActiveCoils(None);
        StiffnessInverse(shearModulus, wireDiameter, springDiameter, springConstant);
      } else if rate.None? {
        outcome := SetActiveCoils(coils);
        if outcome != Done {
          return;
        }
        var ignored := SetSpringConstant(None);
      } else {
        outcome := Raised(ValueError);
      }
    }

    /**
     * The constructor of me_toolbox/springs/helical_push_spring.py: the end
     * type is lower-cased and checked first, then the sorter runs, then the
     * free length is set, then check_design runs. `buckling` and
     * `frequencies` are what the buckling property and the natural frequency
     * give check_design (see CheckDesign).
     */
    static method Build(force: real, wireDiameter: real, springDiameter: real, shearModulus: real,
                        endType: string, coils: Option<real>, rate: Option<real>,
                        freeLength: Option<real>, zeta: real, setRemoved: bool,
                        anchorsGiven: bool, elasticModulusGiven: bool, buckling: Option<bool>,
                        frequencies: Option<(real, real)>)
      returns (s: PushSpring, outcome: Outcome)
      requires wireDiameter > 0.0 && springDiameter > 0.0 && shearModulus > 0.0
      requires coils.Some? ==> coils.value != 0.0
      requires rate.Some? ==> rate.value != 0.0
      ensures fresh(s)
      ensures !KnownEndType(Lower(endType)) ==> outcome == Raised(ValueError)
      ensures coils.Some? == rate.Some? ==> outcome == Raised(ValueError)
      ensures (KnownEndType(Lower(endType)) && coils.Some? != rate.Some?
               && anchorsGiven && elasticModulusGiven && buckling.None?) ==> outcome == Raised(TypeError)
      ensures outcome == Done <==> KnownEndType(Lower(endType)) && coils.Some? != rate.Some?
                                   && !(anchorsGiven && elasticModulusGiven && buckling.None?)
      ensures outcome == Done ==>
                s.Valid() && s.endType == Lower(endType)
                && s.freeLengthInputFlag == freeLength.Some?
                && (freeLength.Some? ==> s.freeLength == freeLength.value)
                && (coils.Some? ==> s.activeCoils == coils.value)
                && (rate.Some? ==> s.springConstant == rate.value)
    {
      s := new PushSpring.Init(force, wireDiameter, springDiameter, shearModulus);
      s.setRemoved := setRemoved;
      s.zeta := zeta;
      s.endType := Lower(endType);
      if !KnownEndType(s.endType) {
        outcome := Raised(ValueError);
        return;
      }
      outcome := s.SortCoilsAndRate(coils, rate);
      if outcome != Done {
        return;
      }
      outcome := s.SetFreeLength(freeLength);
      outcome := s.RunCheckDesign(anchorsGiven, elasticModulusGiven, buckling, frequencies);
      if outcome != Done {
        return;
      }
      s.constructing := false;
    }

    /**
     * The constructor of springs/HelicalPushSpring.py: the sorter and the
     * free length run before the end-type check, so an unknown end type
     * already fails inside the solid length with a TypeError and the
     * ValueError branch is never reached.
     */
    static method BuildLegacy(force: real, wireDiameter: real, springDiameter: real,
                              shearModulus: real, endType: string, coils: Option<real>,
                              rate: Option<real>, freeLength: Option<real>, zeta: real,
                              setRemoved: bool, anchorsGiven: bool, elasticModulusGiven: bool,
                              buckling: Option<bool>, frequencies: Option<(real, real)>)
      returns (s: PushSpring, outcome: Outcome)
      requires wireDiameter > 0.0 && springDiameter > 0.0 && shearModulus > 0.0
      requires coils.Some? ==> coils.value != 0.0
      requires rate.Some? ==> rate.value != 0.0
      ensures fresh(s)
      ensures coils.Some? == rate.Some? ==> outcome == Raised(ValueError)
      ensures coils.Some? != rate.Some? && !KnownEndType(Lower(endType)) ==> outcome == Raised(TypeError)
      ensures (KnownEndType(Lower(endType)) && coils.Some? != rate.Some?
               && anchorsGiven && elasticModulusGiven && buckling.None?) ==> outcome == Raised(TypeError)
      ensures outcome == Done <==> KnownEndType(Lower(endType)) && coils.Some? != rate.Some?
                                   && !(anchorsGiven && elasticModulusGiven && buckling.None?)
      ensures outcome == Done ==>
                s.Valid() && s.endType == Lower(endType)
                && s.freeLengthInputFlag == freeLength.Some?
                && (freeLength.Some? ==> s.freeLength == freeLength.value)
                && (coils.Some? ==> s.activeCoils == coils.value)
                && (rate.Some? ==> s.springConstant == rate.value)
    {
      s := new PushSpring.Init(force, wireDiameter, springDiameter, shearModulus);
      s.setRemoved := setRemoved;
      s.zeta := zeta;
      s.endType := Lower(endType);
      outcome := s.SortCoilsAndRate(coils, rate);
      if outcome != Done {
        return;
      }
      outcome := s.SetFreeLength(freeLength);
      if !KnownEndType(s.endType) {
        outcome := Raised(ValueError);
        return;
      }
      outcome := s.RunCheckDesign(anchorsGiven, elasticModulusGiven, buckling, frequencies);
      if outcome != Done {
        return;
      }
      s.constructing := false;
    }

    /**
     * The constructor's call of check_design on the stored fields: its
     * verdict is only advice and is dropped; only its TypeError surfaces.
     */
    method RunCheckDesign(anchorsGiven: bool, elasticModulusGiven: bool, buckling: Option<bool>,
                          frequencies: Option<(real, real)>) returns (outcome: Outcome)
      requires wireDiameter > 0.0
      ensures outcome == Done <==> !(anchorsGiven && elasticModulusGiven && buckling.None?)
      ensures outcome != Done ==> outcome == Raised(TypeError)
    {
      var verdict := CheckDesign(Concrete(SpringIndex(wireDiameter, springDiameter)), Concrete(activeCoils),
                                 setRemoved, zeta, Concrete(freeLength), anchorsGiven, elasticModulusGiven,
                                 buckling, frequencies);
      outcome := if verdict.Err? then Raised(verdict.error) else Done;
    }
  }

  // ---------------------------------------------------------------------
  // check_design
  // ---------------------------------------------------------------------

  /** The spring index is out of range: [4, 12] with the set removed, [3, 12] otherwise. */
  predicate IndexOutOfRange(springIndex: Num, setRemoved: bool)
  {
    springIndex.Concrete?
    && (if setRemoved then !(4.0 <= springIndex.v <= 12.0) else !(3.0 <= springIndex.v <= 12.0))
  }

  /** A concrete active-coil count outside [3, 15]. */
  predicate CoilsOutOfRange(activeCoils: Num)
  {
    activeCoils.Concrete? && !(3.0 <= activeCoils.v <= 15.0)
  }

  /** The buckling property is consulted only for a float free length with anchors and E known. */
  predicate BucklingConsulted(freeLength: Num, anchorsGiven: bool, elasticModulusGiven: bool)
  {
    freeLength.Concrete? && anchorsGiven && elasticModulusGiven
  }

  /**
   * check_design: an advisory verdict. `buckling` is what the buckling
   * property returned (its flag, or None when the anchor name or the moduli
   * made it fail); `frequencies` holds the natural and the working frequency
   * when both density and working frequency are known.
   */
  method CheckDesign(springIndex: Num, activeCoils: Num, setRemoved: bool, zeta: real,
                     freeLength: Num, anchorsGiven: bool, elasticModulusGiven: bool,
                     buckling: Option<bool>, frequencies: Option<(real, real)>)
    returns (r: Result<bool>)
    ensures r.Err? <==> BucklingConsulted(freeLength, anchorsGiven, elasticModulusGiven) && buckling.None?
    ensures r.Err? ==> r.error == TypeError
    ensures r.Ok? ==>
              (r.value <==>
                 !IndexOutOfRange(springIndex, setRemoved) && !CoilsOutOfRange(activeCoils)
                 && zeta >= 0.15
                 && !(BucklingConsulted(freeLength, anchorsGiven, elasticModulusGiven) && buckling == Some(true))
                 && !(frequencies.Some? && frequencies.value.0 <= 20.0 * frequencies.value.1))
  {
    var good := true;
    if springIndex.Concrete? && !(4.0 <= springIndex.v <= 12.0) && setRemoved {
      good := false;
    } else if springIndex.Concrete? && !(3.0 <= springIndex.v <= 12.0) {
      good := false;
    }
    if activeCoils.Concrete? && !(3.0 <= activeCoils.v <= 15.0) {
      good := false;
    }
    if zeta < 0.15 {
      good := false;
    }
    if freeLength.Concrete? && anchorsGiven && elasticModulusGiven {
      if buckling.None? {
        return Err(TypeError);
      }
      if buckling.value {
        good := false;
      }
    }
    if frequencies.Some? {
      var (natural, working) := frequencies.value;
      if natural <= 20.0 * working {
        good := false;
      }
    }
    r := Ok(good);
  }

  /**
   * The range checks never raise: without a buckling test the verdict is
   * always a boolean, and each violated range alone makes it False.
   */
  lemma RangeChecksOnlyAdvise(springIndex: Num, activeCoils: Num, setRemoved: bool, zeta: real)
    ensures IndexOutOfRange(springIndex, setRemoved) <==>
              springIndex.Concrete? && (springIndex.v > 12.0 || springIndex.v < (if setRemoved then 4.0 else 3.0))
    ensures springIndex.Symbolic? ==> !IndexOutOfRange(springIndex, setRemoved)
    ensures activeCoils.Symbolic? ==> !CoilsOutOfRange(activeCoils)
  {
  }
}
