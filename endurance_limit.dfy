// The Marin-factor endurance limit of FatigueAnalysis/EnduranceLimit.py:
// the area of the 95% stress zone, the size and load factors, the
// unmodified endurance limit by material, and their product.

module EnduranceLimits {
  import opened Common
  import FatigueAnalyses
  import FailureCriteria

  /**
   * CalcA95: the given area, else 0.01046 d^2 for a round section, else
   * 0.05 w h for a rectangle. The rectangle guard tests
   * `(width and height) is not None`, so a zero width passes it whatever
   * the height, and a missing height then fails in the product.
   */
  function CalcA95(a95: Option<real>, diameter: Option<real>, width: Option<real>, height: Option<real>)
    : (r: Result<real>)
    ensures a95.Some? ==> r == Ok(a95.value)
    ensures a95.None? && diameter.Some? ==> r == Ok(0.01046 * (diameter.value * diameter.value))
    ensures a95.None? && diameter.None? ==>
              (r.Ok? <==> width.Some? && height.Some?)
              && (r.Ok? ==> r.value == 0.05 * width.value * height.value)
              && (r.Err? && width == Some(0.0) ==> r.error == TypeError)
              && (r.Err? && width != Some(0.0) ==> r.error == ValueError)
  {
    if a95.Some? then Ok(a95.value)
    else if diameter.Some? then Ok(0.01046 * (diameter.value * diameter.value))
    else
      // `width and height` is width when width is falsy (None or 0), height otherwise
      var guard := if width.None? || width.value == 0.0 then width else height;
      if guard.None? then Err(ValueError)
      else if height.None? then Err(TypeError)
      else Ok(0.05 * width.value * height.value)
  }

  /** A zero width with no height gets past the guard and fails with TypeError instead of ValueError. */
  lemma ZeroWidthSlipsPastGuard()
    ensures CalcA95(None, None, Some(0.0), None) == Err(TypeError)
    ensures CalcA95(None, None, Some(1.0), None) == Err(ValueError)
  {
  }

  /** The (a, b) coefficients of Ka per surface finish, None for an unknown finish. */
  function SurfaceCoefficients(finish: string): Option<(real, real)>
  {
    if finish == "ground" then Some((1.58, -0.085))
    else if finish == "machined" then Some((4.51, -0.265))
    else if finish == "cold-drawn" then Some((4.51, -0.265))
    else if finish == "hot-rolled" then Some((57.7, -0.718))
    else if finish == "as forged" then Some((272.0, -0.995))
    else None
  }

  /** Ka: a Sut^b with the finish's coefficients; an unknown finish is a KeyError. */
  function Ka(finish: string, sut: real, pow: (real, real) -> real): (r: Result<real>)
    ensures r.Ok? <==> finish in {"ground", "machined", "cold-drawn", "hot-rolled", "as forged"}
    ensures r.Err? ==> r.error == KeyError
    ensures r.Ok? ==> r.value == SurfaceCoefficients(finish).value.0 * pow(sut, SurfaceCoefficients(finish).value.1)
  {
    var row := SurfaceCoefficients(finish);
    if row.None? then Err(KeyError)
    else Ok(row.value.0 * pow(sut, row.value.1))
  }

  /** Machined and cold-drawn surfaces share one row, so they get the same Ka. */
  lemma MachinedLikeColdDrawn(sut: real, pow: (real, real) -> real)
    ensures Ka("machined", sut, pow) == Ka("cold-drawn", sut, pow)
    ensures Ka("machined", sut, pow).Ok?
  {
  }

  /**
   * The diameter Kb evaluates: the diameter of a rotating round part, the
   * equivalent diameter sqrt(A95 / 0.07658) otherwise (a negative area is
   * math.sqrt's ValueError).
   */
  function EffectiveDiameter(rotating: bool, diameter: Option<real>, a95: real, sqrt: real -> real)
    : (r: Result<real>)
    requires FailureCriteria.IsSquareRoot(sqrt)
    ensures rotating && diameter.Some? ==> r == Ok(diameter.value)
    ensures !(rotating && diameter.Some?) ==>
              (r.Ok? <==> a95 >= 0.0)
              && (r.Err? ==> r.error == ValueError)
              && (r.Ok? ==> r.value >= 0.0 && r.value * r.value == a95 / 0.07658)
  {
    if rotating && diameter.Some? then Ok(diameter.value)
    else if a95 / 0.07658 < 0.0 then Err(ValueError)
    else Ok(sqrt(a95 / 0.07658))
  }

  /**
   * Kb: 1 under axial loading (normal above 0.85 of bending), otherwise the
   * power law of the effective diameter on [2.79, 51] and (51, 254] mm, and
   * None outside those ranges.
   */
  function Kb(maxNormal: real, maxBending: real, rotating: bool, diameter: Option<real>, a95: real,
              sqrt: real -> real, pow: (real, real) -> real): (r: Result<Option<real>>)
    requires FailureCriteria.IsSquareRoot(sqrt)
    ensures maxNormal > 0.85 * maxBending ==> r == Ok(Some(1.0))
    ensures maxNormal <= 0.85 * maxBending ==>
              var de := EffectiveDiameter(rotating, diameter, a95, sqrt);
              (de.Err? ==> r == Err(de.error))
              && (de.Ok? ==> r.Ok?
                             && (r.value.None? <==> de.value < 2.79 || de.value > 254.0)
                             && (2.79 <= de.value <= 51.0 ==> r.value == Some(1.24 * pow(de.value, -0.107)))
                             && (51.0 < de.value <= 254.0 ==> r.value == Some(1.51 * pow(de.value, -0.157))))
  {
    if maxNormal > 0.85 * maxBending then Ok(Some(1.0))
    else
      var de := EffectiveDiameter(rotating, diameter, a95, sqrt);
      if de.Err? then Err(de.error)
      else if 2.79 <= de.value <= 51.0 then Ok(Some(1.24 * pow(de.value, -0.107)))
      else if 51.0 < de.value <= 254.0 then Ok(Some(1.51 * pow(de.value, -0.157)))
      else Ok(None)
  }

  /** Kc: the load factor by stress type; an unknown type is a KeyError. */
  function Kc(stressType: string): (r: Result<real>)
    ensures r.Ok? <==> stressType in {"bending", "axial", "torsion", "shear", "multiple"}
    ensures r.Err? ==> r.error == KeyError
    ensures r.Ok? ==> FatigueAnalyses.KnownKc(r.value)
    ensures r.Ok? && r.value == 0.59 <==> stressType == "torsion" || stressType == "shear"
  {
    if stressType == "bending" then Ok(1.0)
    else if stressType == "axial" then Ok(0.85)
    else if stressType == "torsion" then Ok(0.59)
    else if stressType == "shear" then Ok(0.59)
    else if stressType == "multiple" then Ok(1.0)
    else Err(KeyError)
  }

  /** Multiple loading is rated like bending, and 'multiple' is the only name that asks for the combination. */
  lemma MultipleRatedAsBending()
    ensures Kc("multiple") == Kc("bending") == Ok(1.0)
  {
  }

  /** Kf: the miscellaneous-effects factor, always 1. */
  const Kf: real := 1.0

  /** One row of the unmodified endurance table: below the divider a fraction of Sut, at or above it a cap. */
  datatype MaterialRow = MaterialRow(divider: real, fraction: real, cap: real)

  function MaterialTable(material: string): Option<MaterialRow>
  {
    if material == "steel" then Some(MaterialRow(1400.0, 0.5, 700.0))
    else if material == "iron" then Some(MaterialRow(400.0, 0.4, 160.0))
    else if material == "aluminium" then Some(MaterialRow(330.0, 0.4, 130.0))
    else if material == "copper alloy" then Some(MaterialRow(280.0, 0.4, 100.0))
    else None
  }

  /**
   * unmodified: ValueError when neither a material nor a value is given; a
   * given value wins; otherwise the material's fraction of Sut below its
   * divider and its cap at or above it; an unknown material is a KeyError.
   */
  function Unmodified(material: Option<string>, given: Option<real>, sut: real): (r: Result<real>)
    ensures material.None? && given.None? ==> r == Err(ValueError)
    ensures given.Some? ==> r == Ok(given.value)
    ensures given.None? && material.Some? ==>
              (r.Ok? <==> MaterialTable(material.value).Some?)
              && (r.Err? ==> r.error == KeyError)
              && (r.Ok? ==>
                    var row := MaterialTable(material.value).value;
                    r.value == (if sut < row.divider then row.fraction * sut else row.cap))
  {
    if material.None? && given.None? then Err(ValueError)
    else if given.Some? then Ok(given.value)
    else
      var row := MaterialTable(material.value);
      if row.None? then Err(KeyError)
      else if sut < row.value.divider then Ok(row.value.fraction * sut)
      else Ok(row.value.cap)
  }

  /** The table endurance limit never exceeds its fraction of Sut. */
  lemma UnmodifiedNeverAboveFraction(material: string, sut: real)
    requires MaterialTable(material).Some?
    ensures Unmodified(Some(material), None, sut).Ok?
    ensures Unmodified(Some(material), None, sut).value <= MaterialTable(material).value.fraction * sut
  {
    var row := MaterialTable(material).value;
    assert row.cap <= row.fraction * row.divider;
  }

  /**
   * The steel and iron rows are continuous at the divider; the aluminium
   * and copper-alloy caps lie below the fraction there, so the limit drops.
   */
  lemma DividerContinuity()
    ensures forall m :: m in {"steel", "iron"} ==>
              MaterialTable(m).value.cap == MaterialTable(m).value.fraction * MaterialTable(m).value.divider
    ensures forall m :: m in {"aluminium", "copper alloy"} ==>
              MaterialTable(m).value.cap < MaterialTable(m).value.fraction * MaterialTable(m).value.divider
  {
  }

  /**
   * modified: Ka Kb Kc Kd Ke Kf Se', evaluated left to right, so the first
   * factor that fails decides the error and a None Kb is a TypeError in
   * the product. Ka, Kd and Ke come in as values (a table power and two
   * interpolations).
   */
  function Modified(ka: Result<real>, kb: Result<Option<real>>, kc: Result<real>, kd: real, ke: real,
                    unmodified: Result<real>): (r: Result<real>)
    ensures ka.Err? ==> r == Err(ka.error)
    ensures ka.Ok? && kb.Err? ==> r == Err(kb.error)
    ensures ka.Ok? && kb == Ok(None) ==> r == Err(TypeError)
    ensures ka.Ok? && kb.Ok? && kb.value.Some? && kc.Err? ==> r == Err(kc.error)
    ensures r.Ok? <==> ka.Ok? && kb.Ok? && kb.value.Some? && kc.Ok? && unmodified.Ok?
    ensures r.Ok? ==>
              r.value == ka.value * kb.value.value * kc.value * kd * ke * Kf * unmodified.value
  {
    if ka.Err? then Err(ka.error)
    else if kb.Err? then Err(kb.error)
    else if kb.value.None? then Err(TypeError)
    else if kc.Err? then Err(kc.error)
    else if unmodified.Err? then Err(unmodified.error)
    else Ok(ka.value * kb.value.value * kc.value * kd * ke * Kf * unmodified.value)
  }

  /** Factors in (0, 1] can only lower the endurance limit. */
  lemma ModifiedAtMostUnmodified(ka: real, kb: real, kc: real, kd: real, ke: real, se: real)
    requires 0.0 < ka <= 1.0 && 0.0 < kb <= 1.0 && 0.0 < kc <= 1.0 && 0.0 < kd <= 1.0 && 0.0 < ke <= 1.0
    requires se > 0.0
    ensures var r := Modified(Ok(ka), Ok(Some(kb)), Ok(kc), kd, ke, Ok(se));
            r.Ok? && 0.0 < r.value <= se
  {
    ProductInUnit(ka, kb);
    ProductInUnit(ka * kb, kc);
    ProductInUnit(ka * kb * kc, kd);
    ProductInUnit(ka * kb * kc * kd, ke);
    ScaleBelow(ka * kb * kc * kd * ke * Kf, se);
  }

  lemma ScaleBelow(p: real, se: real)
    requires 0.0 < p <= 1.0 && se > 0.0
    ensures 0.0 < p * se <= se
  {
    MulPositive(p, se);
    assert se - p * se == (1.0 - p) * se;
    if p < 1.0 {
      MulPositive(1.0 - p, se);
    }
  }

  lemma ProductInUnit(a: real, b: real)
    requires 0.0 < a <= 1.0 && 0.0 < b <= 1.0
    ensures 0.0 < a * b <= 1.0
  {
    MulPositive(a, b);
    assert a * b <= a by {
      assert a - a * b == a * (1.0 - b);
      if b < 1.0 {
        MulPositive(a, 1.0 - b);
      }
    }
  }
}
