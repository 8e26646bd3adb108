// The fatigue analysis of FatigueAnalysis/FatigueAnalysis.py: notch factors,
// equivalent stresses, the failure criteria as the class states them, the
// low/high cycle classification and Miner's rule over the caller's stress
// groups.

module FatigueAnalyses {
  import opened Common
  import opened FailureCriteria

  /** CalcKf: the fatigue stress-concentration factor 1 + q (Kt - 1). */
  function CalcKf(q: real, kt: real): (kf: real)
    ensures kf - 1.0 == q * (kt - 1.0)
    ensures 0.0 <= q <= 1.0 && kt >= 1.0 ==> 1.0 <= kf <= kt
  {
    var excess := kt - 1.0;
    assert 0.0 <= q <= 1.0 && excess >= 0.0 ==> q * excess <= excess by {
      if 0.0 <= q <= 1.0 && excess >= 0.0 {
        assert excess - q * excess == (1.0 - q) * excess;
      }
    }
    1.0 + q * excess
  }

  /** A notch that is fully sensitive (q = 1) keeps the theoretical factor. */
  lemma FullSensitivityKeepsKt(kt: real)
    ensures CalcKf(1.0, kt) == kt
  {
  }

  /** Bending, normal and torsion components of a loading. */
  datatype Components = Components(bending: real, normal: real, torsion: real)

  /** The load factors the endurance limit can hand over: bending, axial, torsion. */
  predicate KnownKc(kc: real)
  {
    kc == 1.0 || kc == 0.85 || kc == 0.59
  }

  /**
   * The von Mises combination used for 'multiple' loading:
   * sqrt((b + n)^2 + 3 t^2).
   */
  function Combined(b: real, n: real, t: real, sqrt: real -> real): real
  {
    sqrt((b + n) * (b + n) + 3.0 * (t * t))
  }

  lemma CombinedIsVonMises(b: real, n: real, t: real, sqrt: real -> real)
    requires IsSquareRoot(sqrt)
    ensures var r := Combined(b, n, t, sqrt);
            r >= 0.0 && r * r == (b + n) * (b + n) + 3.0 * (t * t)
  {
    var squares := (b + n) * (b + n) + 3.0 * (t * t);
    assert squares >= 0.0 by {
      SquareSign(b + n);
      SquareSign(t);
      if b + n == 0.0 {
        assert (b + n) * (b + n) == 0.0;
      }
      if t == 0.0 {
        assert t * t == 0.0;
      }
    }
  }

  /** The notch-corrected component a single kind of loading selects by Kc; None for any other Kc. */
  function Selected(kc: real, f: Components, s: Components): (r: Option<real>)
    ensures r.Some? <==> KnownKc(kc)
  {
    if kc == 1.0 then Some(f.bending * s.bending)
    else if kc == 0.85 then Some(f.normal * s.normal)
    else if kc == 0.59 then Some(f.torsion * s.torsion)
    else None
  }

  /**
   * AlternatingEquivalentStress: the von Mises combination (with the axial
   * part divided by 0.85) for multiple loading under Kc = 1, the selected
   * notch-corrected component otherwise.
   */
  function AlternatingEquivalent(kc: real, multiple: bool, kf: Components, alt: Components,
                                 sqrt: real -> real): (r: Option<real>)
    requires IsSquareRoot(sqrt)
    ensures r.Some? <==> KnownKc(kc)
    ensures !(kc == 1.0 && multiple) ==> r == Selected(kc, kf, alt)
  {
    if kc == 1.0 && multiple then
      Some(Combined(kf.bending * alt.bending, kf.normal * (alt.normal / 0.85), kf.torsion * alt.torsion, sqrt))
    else Selected(kc, kf, alt)
  }

  /** Under multiple loading the alternating equivalent stress is the von Mises value of the corrected parts. */
  lemma MultipleAlternatingIsVonMises(kf: Components, alt: Components, sqrt: real -> real)
    requires IsSquareRoot(sqrt)
    ensures var r := AlternatingEquivalent(1.0, true, kf, alt, sqrt);
            var b := kf.bending * alt.bending + kf.normal * (alt.normal / 0.85);
            var t := kf.torsion * alt.torsion;
            r.Some? && r.value >= 0.0 && r.value * r.value == b * b + 3.0 * (t * t)
  {
    CombinedIsVonMises(kf.bending * alt.bending, kf.normal * (alt.normal / 0.85), kf.torsion * alt.torsion, sqrt);
  }

  /** The notch factors a mean stress sees: none for a ductile material. */
  function MeanFactors(ductile: bool, kf: Components): Components
  {
    if ductile then Components(1.0, 1.0, 1.0) else kf
  }

  /**
   * MeanEquivalentStress: as the alternating one, but with unit notch
   * factors for ductile materials and no 0.85 on the axial part.
   */
  function MeanEquivalent(kc: real, multiple: bool, ductile: bool, kf: Components, mean: Components,
                          sqrt: real -> real): (r: Option<real>)
    requires IsSquareRoot(sqrt)
    ensures r.Some? <==> KnownKc(kc)
    ensures !(kc == 1.0 && multiple) ==> r == Selected(kc, MeanFactors(ductile, kf), mean)
  {
    var f := MeanFactors(ductile, kf);
    if kc == 1.0 && multiple then
      Some(Combined(f.bending * mean.bending, f.normal * mean.normal, f.torsion * mean.torsion, sqrt))
    else Selected(kc, f, mean)
  }

  /** Under multiple loading the mean equivalent stress is the von Mises value, without the 0.85. */
  lemma MultipleMeanIsVonMises(ductile: bool, kf: Components, mean: Components, sqrt: real -> real)
    requires IsSquareRoot(sqrt)
    ensures var r := MeanEquivalent(1.0, true, ductile, kf, mean, sqrt);
            var f := MeanFactors(ductile, kf);
            var b := f.bending * mean.bending + f.normal * mean.normal;
            var t := f.torsion * mean.torsion;
            r.Some? && r.value >= 0.0 && r.value * r.value == b * b + 3.0 * (t * t)
  {
    var f := MeanFactors(ductile, kf);
    CombinedIsVonMises(f.bending * mean.bending, f.normal * mean.normal, f.torsion * mean.torsion, sqrt);
  }

  /** A ductile material's mean equivalent stress is the nominal stress of the selected kind. */
  lemma DuctileMeanIsNominal(kc: real, kf: Components, mean: Components, sqrt: real -> real)
    requires IsSquareRoot(sqrt) && KnownKc(kc)
    ensures MeanEquivalent(kc, false, true, kf, mean, sqrt)
            == Some(if kc == 1.0 then mean.bending else if kc == 0.85 then mean.normal else mean.torsion)
  {
  }

  /**
   * For a single kind of loading the two equivalent stresses are the same
   * rule: a brittle material's mean stress sees the same notch factor as
   * the alternating one.
   */
  lemma BrittleSingleLoadingAgrees(kc: real, kf: Components, s: Components, sqrt: real -> real)
    requires IsSquareRoot(sqrt)
    ensures AlternatingEquivalent(kc, false, kf, s, sqrt) == MeanEquivalent(kc, false, false, kf, s, sqrt)
  {
  }

  /**
   * The state a FatigueAnalysis holds once built: the modified endurance
   * limit, the load factor, the optional strengths and the two equivalent
   * stresses.
   */
  datatype Analysis = Analysis(se: real, kc: real, sut: Option<real>, sy: Option<real>, alt: real, mean: real)

  /** FatigueAnalysis.__init__: the equivalent stresses are computed once, from the inputs. */
  function NewAnalysis(se: real, kc: real, multiple: bool, ductile: bool, sut: Option<real>, sy: Option<real>,
                       kf: Components, alt: Components, mean: Components, sqrt: real -> real): (a: Analysis)
    requires IsSquareRoot(sqrt) && KnownKc(kc)
    ensures a.se == se && a.kc == kc && a.sut == sut && a.sy == sy
    ensures Some(a.alt) == AlternatingEquivalent(kc, multiple, kf, alt, sqrt)
    ensures Some(a.mean) == MeanEquivalent(kc, multiple, ductile, kf, mean, sqrt)
  {
    Analysis(se, kc, sut, sy,
             AlternatingEquivalent(kc, multiple, kf, alt, sqrt).value,
             MeanEquivalent(kc, multiple, ductile, kf, mean, sqrt).value)
  }

  /** Strengths are positive when given, and so is the endurance limit. */
  predicate Physical(a: Analysis)
  {
    a.se > 0.0 && (a.sut.Some? ==> a.sut.value > 0.0) && (a.sy.Some? ==> a.sy.value > 0.0)
  }

  /** Ssu: the ultimate strength in shear. */
  function Ssu(sut: real): (r: real)
    ensures sut > 0.0 ==> 0.0 < r < sut
  {
    0.67 * sut
  }

  /** Ssy: the distortion-energy yield strength in shear, Sy / sqrt(3). */
  function Ssy(sy: real): (r: real)
    ensures sy > 0.0 ==> 0.0 < r < sy
    ensures r * Sqrt3 == sy
  {
    sy / Sqrt3
  }

  /** The ultimate strength a criterion uses: ValueError when Sut is None, Ssu under torsion. */
  function Ultimate(a: Analysis): (r: Result<real>)
    requires Physical(a)
    ensures r.Ok? <==> a.sut.Some?
    ensures r.Err? ==> r.error == ValueError
    ensures r.Ok? ==> r.value > 0.0 && r.value <= a.sut.value
    ensures r.Ok? && a.kc != 0.59 ==> r.value == a.sut.value
  {
    if a.sut.None? then Err(ValueError)
    else if a.kc == 0.59 then Ok(Ssu(a.sut.value))
    else Ok(a.sut.value)
  }

  /** The yield strength a criterion uses: ValueError when Sy is None, Ssy under torsion. */
  function Yield(a: Analysis): (r: Result<real>)
    requires Physical(a)
    ensures r.Ok? <==> a.sy.Some?
    ensures r.Err? ==> r.error == ValueError
    ensures r.Ok? ==> r.value > 0.0 && r.value <= a.sy.value
    ensures r.Ok? && a.kc != 0.59 ==> r.value == a.sy.value
  {
    if a.sy.None? then Err(ValueError)
    else if a.kc == 0.59 then Ok(Ssy(a.sy.value))
    else Ok(a.sy.value)
  }

  /** modified_goodman: Goodman's line through Se and the (shear) ultimate strength. */
  function ModifiedGoodman(a: Analysis): (r: Result<real>)
    requires Physical(a)
    ensures a.sut.None? ==> r == Err(ValueError)
    ensures a.sut.Some? && a.mean < 0.0 ==> r == Err(GenericException)
    ensures r.Ok? ==>
              r.value * (a.alt / a.se) + r.value * (a.mean / Ultimate(a).value) == 1.0
  {
    var s := Ultimate(a);
    if s.Err? then Err(s.error) else LineCriterion(s.value, a.se, a.alt, a.mean)
  }

  /** soderberg: the same line through the (shear) yield strength. */
  function Soderberg(a: Analysis): (r: Result<real>)
    requires Physical(a)
    ensures a.sy.None? ==> r == Err(ValueError)
    ensures a.sy.Some? && a.mean < 0.0 ==> r == Err(GenericException)
    ensures r.Ok? ==>
              r.value * (a.alt / a.se) + r.value * (a.mean / Yield(a).value) == 1.0
  {
    var s := Yield(a);
    if s.Err? then Err(s.error) else LineCriterion(s.value, a.se, a.alt, a.mean)
  }

  /** Soderberg is never less safe than Goodman for loads in the first quadrant. */
  lemma SoderbergNoMoreThanModifiedGoodman(a: Analysis)
    requires Physical(a) && a.sut.Some? && a.sy.Some?
    requires a.sy.value <= a.sut.value && a.kc != 0.59
    requires a.alt >= 0.0 && a.mean >= 0.0 && a.alt + a.mean > 0.0
    ensures Soderberg(a).Ok? && ModifiedGoodman(a).Ok?
    ensures Soderberg(a).value <= ModifiedGoodman(a).value
  {
    SoderbergNoMoreThanGoodman(a.sy.value, a.sut.value, a.se, a.alt, a.mean);
  }

  /**
   * gerber as written: 1 / (alt/Se + (mean/S)^2), which squares the mean
   * ratio without scaling it by the factor first.
   */
  function GerberAsWritten(a: Analysis): (r: Result<real>)
    requires Physical(a)
    ensures a.sut.None? ==> r == Err(ValueError)
    ensures a.sut.Some? && a.mean < 0.0 ==> r == Err(GenericException)
    ensures r.Ok? ==>
              var m := a.mean / Ultimate(a).value;
              r.value * (a.alt / a.se) + r.value * (m * m) == 1.0
  {
    var s := Ultimate(a);
    if s.Err? then Err(s.error)
    else if a.mean < 0.0 then Err(GenericException)
    else
      var m := a.mean / s.value;
      var d := a.alt / a.se + m * m;
      if d == 0.0 then Err(ZeroDivisionError)
      else
        assert (1.0 / d) * (a.alt / a.se) + (1.0 / d) * (m * m) == (1.0 / d) * d;
        Ok(1.0 / d)
  }

  /**
   * The as-written Gerber factor does not lie on Gerber's parabola: for
   * alt = mean = 100, Se = 200 and Sut = 1000 it is 100/51, and scaling the
   * load by it gives n alt/Se + (n mean/Sut)^2 = 2650/2601, not 1.
   */
  lemma GerberAsWrittenOffParabola()
    ensures var a := Analysis(200.0, 1.0, Some(1000.0), None, 100.0, 100.0);
            var n := GerberAsWritten(a);
            n == Ok(100.0 / 51.0)
            && n.value * (100.0 / 200.0) + (n.value * (100.0 / 1000.0)) * (n.value * (100.0 / 1000.0))
               == 2650.0 / 2601.0
  {
    var a := Analysis(200.0, 1.0, Some(1000.0), None, 100.0, 100.0);
    assert Ultimate(a) == Ok(1000.0);
    assert GerberAsWritten(a) == Ok(1.0 / (0.5 + 0.01));
  }

  /** gerber, corrected: the factor that puts the scaled load on Gerber's parabola. */
  function Gerber(a: Analysis, sqrt: real -> real): (r: Result<real>)
    requires Physical(a) && IsSquareRoot(sqrt)
    ensures a.sut.None? ==> r == Err(ValueError)
    ensures a.sut.Some? && a.mean < 0.0 ==> r == Err(GenericException)
    ensures a.sut.Some? && a.mean >= 0.0 ==> (r.Ok? <==> a.mean > 0.0 && a.alt != 0.0)
    ensures a.sut.Some? && a.mean >= 0.0 && r.Err? ==> r.error == ZeroDivisionError
    ensures r.Ok? ==>
              var m := r.value * (a.mean / Ultimate(a).value);
              r.value * (a.alt / a.se) + m * m == 1.0
  {
    var s := Ultimate(a);
    if s.Err? then Err(s.error) else FailureCriteria.Gerber(s.value, a.se, a.alt, a.mean, sqrt)
  }

  /**
   * The closed form divides by the mean and by the alternating ratio, so a
   * purely static tensile load that the as-written formula rates (n = (S /
   * mean)^2) is a ZeroDivisionError once corrected.
   */
  lemma GerberFormsDifferOnStaticLoad(a: Analysis, sqrt: real -> real)
    requires Physical(a) && IsSquareRoot(sqrt) && a.sut.Some? && a.alt == 0.0 && a.mean > 0.0
    ensures Gerber(a, sqrt) == Err(ZeroDivisionError)
    ensures GerberAsWritten(a).Ok?
    ensures GerberAsWritten(a).value * ((a.mean / Ultimate(a).value) * (a.mean / Ultimate(a).value)) == 1.0
  {
    var m := a.mean / Ultimate(a).value;
    DivPositive(a.mean, Ultimate(a).value);
    MulPositive(m, m);
    assert 0.0 / a.se == 0.0;
  }

  /**
   * ASME_elliptic as written: 1 / ((alt/Se)^2 + (mean/Sut)^2), the square
   * of the elliptic factor, measured against the ultimate strength.
   */
  function AsmeAsWritten(a: Analysis): (r: Result<real>)
    requires Physical(a)
    ensures a.sut.None? ==> r == Err(ValueError)
    ensures a.sut.Some? && a.mean < 0.0 ==> r == Err(GenericException)
    ensures r.Ok? ==>
              var b := a.alt / a.se;
              var c := a.mean / Ultimate(a).value;
              r.value * (b * b + c * c) == 1.0
  {
    var s := Ultimate(a);
    if s.Err? then Err(s.error)
    else if a.mean < 0.0 then Err(GenericException)
    else
      var b := a.alt / a.se;
      var c := a.mean / s.value;
      var d := b * b + c * c;
      if d == 0.0 then Err(ZeroDivisionError) else Ok(1.0 / d)
  }

  /**
   * For a fully reversed load alt = 100 below Se = 200 the as-written value
   * is 4, while scaling the load by 4 gives (4 alt/Se)^2 = 4: the load that
   * reaches the ellipse is only twice the applied one.
   */
  lemma AsmeAsWrittenIsSquared()
    ensures var a := Analysis(200.0, 1.0, Some(1000.0), Some(500.0), 100.0, 0.0);
            AsmeAsWritten(a) == Ok(4.0)
            && (4.0 * (100.0 / 200.0)) * (4.0 * (100.0 / 200.0)) == 4.0
            && (2.0 * (100.0 / 200.0)) * (2.0 * (100.0 / 200.0)) == 1.0
  {
    var a := Analysis(200.0, 1.0, Some(1000.0), Some(500.0), 100.0, 0.0);
    assert Ultimate(a) == Ok(1000.0);
    assert (100.0 / 200.0) * (100.0 / 200.0) + (0.0 / 1000.0) * (0.0 / 1000.0) == 0.25;
  }

  /** ASME_elliptic, corrected: the factor that puts the scaled load on the ellipse through Se and Sy. */
  function Asme(a: Analysis, sqrt: real -> real): (r: Result<real>)
    requires Physical(a) && IsSquareRoot(sqrt)
    ensures a.sy.None? ==> r == Err(ValueError)
    ensures a.sy.Some? && a.mean < 0.0 ==> r == Err(GenericException)
    ensures r.Ok? ==>
              var b := r.value * (a.alt / a.se);
              var c := r.value * (a.mean / Yield(a).value);
              r.value >= 0.0 && b * b + c * c == 1.0
  {
    var s := Yield(a);
    if s.Err? then Err(s.error) else AsmeElliptic(s.value, a.se, a.alt, a.mean, sqrt)
  }

  /**
   * langer_static_yield as written: under torsion it divides 0.67 Sut (the
   * shear ultimate strength) by the stress, and so raises TypeError when
   * Sut is None even though Sy is given.
   */
  function LangerAsWritten(a: Analysis): (r: Result<real>)
    requires Physical(a)
    ensures a.sy.None? ==> r == Err(ValueError)
    ensures a.sy.Some? && a.kc == 0.59 && a.sut.None? ==> r == Err(TypeError)
    ensures a.sy.Some? && a.kc == 0.59 && a.sut.Some? ==> r == Langer(Ssu(a.sut.value), a.alt, a.mean)
    ensures a.sy.Some? && a.kc != 0.59 ==> r == Langer(a.sy.value, a.alt, a.mean)
  {
    if a.sy.None? then Err(ValueError)
    else if a.kc == 0.59 then
      if a.sut.None? then Err(TypeError) else Langer(0.67 * a.sut.value, a.alt, a.mean)
    else Langer(a.sy.value, a.alt, a.mean)
  }

  /** langer_static_yield, corrected: the (shear) yield strength over alt + |mean|. */
  function LangerStatic(a: Analysis): (r: Result<real>)
    requires Physical(a)
    ensures a.sy.None? ==> r == Err(ValueError)
    ensures a.sy.Some? ==> (r.Ok? <==> a.alt + Abs(a.mean) != 0.0)
    ensures r.Ok? ==> r.value * (a.alt + Abs(a.mean)) == Yield(a).value
  {
    var s := Yield(a);
    if s.Err? then Err(s.error) else Langer(s.value, a.alt, a.mean)
  }

  /**
   * Under torsion the as-written Langer factor uses the shear ultimate
   * strength: with Sut = 1000, Sy = 500 and alt = mean = 100 it reports
   * 3.35, more than twice the 1.44 the shear yield strength allows.
   */
  lemma LangerAsWrittenOverstatesShear()
    ensures var a := Analysis(200.0, 0.59, Some(1000.0), Some(500.0), 100.0, 100.0);
            LangerAsWritten(a) == Ok(3.35)
            && LangerStatic(a).Ok? && LangerStatic(a).value < 1.45
  {
    var a := Analysis(200.0, 0.59, Some(1000.0), Some(500.0), 100.0, 100.0);
    assert Langer(670.0, 100.0, 100.0) == Ok(670.0 / 200.0);
    var ssy := Ssy(500.0);
    assert ssy < 290.0 by {
      assert ssy * Sqrt3 == 500.0;
    }
    assert Yield(a) == Ok(ssy);
    assert LangerStatic(a).value * 200.0 == ssy;
  }

  /**
   * The dispatch of GetSafetyFactor, given the results of the four criteria
   * and of Langer's: above a zero mean stress all four are evaluated (the
   * first error propagates) and the lower-cased name picks one, an unknown
   * name being a ValueError; otherwise Se / alt. Langer's factor is read
   * last.
   */
  function Dispatch(a: Analysis, criterion: string, goodman: Result<real>, soderberg: Result<real>,
                    gerber: Result<real>, asme: Result<real>, langer: Result<real>): (r: Result<(real, real)>)
    ensures a.mean > 0.0 && goodman.Err? ==> r == Err(goodman.error)
    ensures a.mean > 0.0 && goodman.Ok? && soderberg.Err? ==> r == Err(soderberg.error)
    ensures a.mean > 0.0 && goodman.Ok? && soderberg.Ok? && gerber.Err? ==> r == Err(gerber.error)
    ensures a.mean > 0.0 && goodman.Ok? && soderberg.Ok? && gerber.Ok? && asme.Err? ==> r == Err(asme.error)
    ensures a.mean > 0.0 && Lower(criterion) !in CriterionNames ==> r.Err?
    ensures a.mean <= 0.0 && a.alt == 0.0 ==> r == Err(ZeroDivisionError)
    ensures r.Ok? ==> langer == Ok(r.value.1)
    ensures r.Ok? && a.mean <= 0.0 ==> a.alt != 0.0 && r.value.0 == a.se / a.alt
    ensures r.Ok? && a.mean > 0.0 && Lower(criterion) == "modified goodman" ==> goodman == Ok(r.value.0)
    ensures r.Ok? && a.mean > 0.0 && Lower(criterion) == "soderberg" ==> soderberg == Ok(r.value.0)
    ensures r.Ok? && a.mean > 0.0 && Lower(criterion) == "gerber" ==> gerber == Ok(r.value.0)
    ensures r.Ok? && a.mean > 0.0 && Lower(criterion) == "asme-elliptic" ==> asme == Ok(r.value.0)
  {
    var nF: Result<real> :=
      if a.mean > 0.0 then
        if goodman.Err? then goodman
        else if soderberg.Err? then soderberg
        else if gerber.Err? then gerber
        else if asme.Err? then asme
        else
          var key := Lower(criterion);
          if key == "modified goodman" then goodman
          else if key == "soderberg" then soderberg
          else if key == "gerber" then gerber
          else if key == "asme-elliptic" then asme
          else Err(ValueError)
      else if a.alt == 0.0 then Err(ZeroDivisionError)
      else Ok(a.se / a.alt);
    if nF.Err? then Err(nF.error)
    else if langer.Err? then Err(langer.error)
    else Ok((nF.value, langer.value))
  }

  /** Above a zero mean with a non-negative alternating stress, Goodman's factor exists once Sut is given. */
  lemma GoodmanDefined(a: Analysis)
    requires Physical(a)
    ensures a.mean > 0.0 && a.alt >= 0.0 && a.sut.Some? ==> ModifiedGoodman(a).Ok?
  {
    if a.mean > 0.0 && a.alt >= 0.0 && a.sut.Some? {
      var s := Ultimate(a).value;
      assert a.alt / a.se >= 0.0;
      DivPositive(a.mean, s);
    }
  }

  /**
   * GetSafetyFactor with the corrected Gerber, ASME-elliptic and Langer
   * factors: the dispatch the program intends.
   */
  function GetSafetyFactor(a: Analysis, criterion: string, sqrt: real -> real): (r: Result<(real, real)>)
    requires Physical(a) && IsSquareRoot(sqrt)
    ensures a.mean > 0.0 && Lower(criterion) !in CriterionNames ==> r.Err?
    ensures a.mean > 0.0 && a.alt >= 0.0 && (a.sut.None? || a.sy.None?) ==> r == Err(ValueError)
    ensures a.sy.None? ==> r.Err?
    ensures r.Ok? && a.mean <= 0.0 ==> a.alt != 0.0 && r.value.0 == a.se / a.alt
    ensures r.Ok? ==> LangerStatic(a) == Ok(r.value.1)
    ensures r.Ok? && a.mean > 0.0 && Lower(criterion) == "modified goodman" ==> ModifiedGoodman(a) == Ok(r.value.0)
    ensures r.Ok? && a.mean > 0.0 && Lower(criterion) == "soderberg" ==> Soderberg(a) == Ok(r.value.0)
    ensures r.Ok? && a.mean > 0.0 && Lower(criterion) == "gerber" ==> Gerber(a, sqrt) == Ok(r.value.0)
    ensures r.Ok? && a.mean > 0.0 && Lower(criterion) == "asme-elliptic" ==> Asme(a, sqrt) == Ok(r.value.0)
  {
    GoodmanDefined(a);
    Dispatch(a, criterion, ModifiedGoodman(a), Soderberg(a), Gerber(a, sqrt), Asme(a, sqrt), LangerStatic(a))
  }

  /**
   * GetSafetyFactor as written: the dispatch reads the gerber,
   * ASME_elliptic and langer_static_yield properties as the program
   * defines them.
   */
  function GetSafetyFactorAsWritten(a: Analysis, criterion: string): (r: Result<(real, real)>)
    requires Physical(a)
    ensures a.mean > 0.0 && Lower(criterion) !in CriterionNames ==> r.Err?
    ensures a.mean > 0.0 && a.alt >= 0.0 && (a.sut.None? || a.sy.None?) ==> r == Err(ValueError)
    ensures a.sy.None? ==> r.Err?
    ensures r.Ok? && a.mean <= 0.0 ==> a.alt != 0.0 && r.value.0 == a.se / a.alt
    ensures r.Ok? ==> LangerAsWritten(a) == Ok(r.value.1)
    ensures r.Ok? && a.mean > 0.0 && Lower(criterion) == "modified goodman" ==> ModifiedGoodman(a) == Ok(r.value.0)
    ensures r.Ok? && a.mean > 0.0 && Lower(criterion) == "soderberg" ==> Soderberg(a) == Ok(r.value.0)
    ensures r.Ok? && a.mean > 0.0 && Lower(criterion) == "gerber" ==> GerberAsWritten(a) == Ok(r.value.0)
    ensures r.Ok? && a.mean > 0.0 && Lower(criterion) == "asme-elliptic" ==> AsmeAsWritten(a) == Ok(r.value.0)
  {
    GoodmanDefined(a);
    Dispatch(a, criterion, ModifiedGoodman(a), Soderberg(a), GerberAsWritten(a), AsmeAsWritten(a),
             LangerAsWritten(a))
  }

  /**
   * Outside torsion the two selectors agree at or below a zero mean, and
   * above it for the two line criteria whenever both forms of Gerber and
   * ASME-elliptic are defined.
   */
  lemma SafetyFactorSelectorsAgree(a: Analysis, criterion: string, sqrt: real -> real)
    requires Physical(a) && IsSquareRoot(sqrt) && a.kc != 0.59
    requires a.mean <= 0.0
             || ((Lower(criterion) == "modified goodman" || Lower(criterion) == "soderberg")
                 && Gerber(a, sqrt).Ok? && GerberAsWritten(a).Ok? && Asme(a, sqrt).Ok? && AsmeAsWritten(a).Ok?)
    ensures GetSafetyFactor(a, criterion, sqrt) == GetSafetyFactorAsWritten(a, criterion)
  {
    assert LangerStatic(a) == LangerAsWritten(a);
  }

  /**
   * For alt = mean = 100, Se = 200, Sut = 1000 and Sy = 500 the program's
   * Gerber choice reports 100/51 with Langer's 2.5, a value the corrected
   * selector never reports.
   */
  lemma SelectorsDisagreeOnGerber(sqrt: real -> real)
    requires IsSquareRoot(sqrt)
    ensures var a := Analysis(200.0, 1.0, Some(1000.0), Some(500.0), 100.0, 100.0);
            GetSafetyFactorAsWritten(a, "gerber") == Ok((100.0 / 51.0, 2.5))
            && (GetSafetyFactor(a, "gerber", sqrt).Ok? ==> GetSafetyFactor(a, "gerber", sqrt).value.0 != 100.0 / 51.0)
  {
    var a := Analysis(200.0, 1.0, Some(1000.0), Some(500.0), 100.0, 100.0);
    var b := Analysis(200.0, 1.0, Some(1000.0), None, 100.0, 100.0);
    GerberAsWrittenOffParabola();
    assert GerberAsWritten(a) == GerberAsWritten(b);
    assert Ultimate(a) == Ok(1000.0) && Yield(a) == Ok(500.0);
    assert Lower("gerber") == "gerber";
    assert Soderberg(a).Ok?;
    assert AsmeAsWritten(a).Ok?;
    assert LangerAsWritten(a) == Ok(2.5);
  }

  // ---------------------------------------------------------------------
  // Life estimates

  /** The curve fit of the fatigue strength fraction f over 70 to 200 kpsi. */
  function StrengthFraction(x: real): real
  {
    -0.000000000000000256710686 * (x * x * x * x * x) + 0.00000000000135729780 * (x * x * x * x)
    - 0.00000000292474777 * (x * x * x) + 0.00000328990748 * (x * x)
    - 0.00204929617 * x + 1.38405394
  }

  /** CalcSm: the strength at 1000 cycles, 0.9 Sut below 482.633 MPa (70 kpsi), f(Sut) Sut above. */
  function CalcSm(sut: real): (sm: real)
    ensures sut < 482.633 ==> sm == 0.9 * sut
    ensures sut >= 482.633 ==> sm == StrengthFraction(sut) * sut
  {
    if sut < 482.633 then 0.9 * sut else StrengthFraction(sut) * sut
  }

  /** The fit meets the constant 0.9 at 70 kpsi to within 0.001: Sm has no jump there. */
  lemma SmContinuousAtSeventyKpsi()
    ensures 0.899 < StrengthFraction(482.633) < 0.9
  {
  }

  /**
   * The fully reversed stress with the same Goodman damage as (alt, mean):
   * alt / (1 - mean/Sut) for a non-negative mean, alt otherwise.
   */
  function Reversible(alt: real, mean: real, sut: real): (r: Result<real>)
    requires sut != 0.0
    ensures r.Err? <==> mean >= 0.0 && mean == sut
    ensures r.Err? ==> r.error == ZeroDivisionError
    ensures r.Ok? && mean >= 0.0 ==> r.value * (1.0 - mean / sut) == alt
    ensures r.Ok? && mean < 0.0 ==> r.value == alt
  {
    if mean >= 0.0 then
      var k := 1.0 - mean / sut;
      if k == 0.0 then
        assert mean == sut;
        Err(ZeroDivisionError)
      else
        assert mean != sut;
        Ok(alt / k)
    else Ok(alt)
  }

  lemma DivBelowOne(a: real, b: real)
    requires 0.0 <= a < b
    ensures 0.0 <= a / b < 1.0
  {
  }

  /** A tensile mean stress below Sut only raises the equivalent reversed stress. */
  lemma ReversibleAtLeastAlternating(alt: real, mean: real, sut: real)
    requires sut > 0.0 && 0.0 <= mean < sut && alt >= 0.0
    ensures Reversible(alt, mean, sut).Ok?
    ensures Reversible(alt, mean, sut).value >= alt
  {
    var k := 1.0 - mean / sut;
    assert 0.0 < k <= 1.0 by {
      DivBelowOne(mean, sut);
    }
    var r := Reversible(alt, mean, sut).value;
    assert r * k == alt;
    assert r >= 0.0 by {
      if r < 0.0 {
        MulPositive(-r, k);
        assert false;
      }
    }
    assert r - alt == r * (1.0 - k);
    assert r * (1.0 - k) >= 0.0 by {
      if r > 0.0 && k < 1.0 {
        MulPositive(r, 1.0 - k);
      }
    }
  }

  /** NumOfCycle's classification of the reversible stress. */
  datatype Life = LowCycle(reversible: real) | HighCycle(reversible: real) | InfiniteLife(reversible: real)

  /**
   * NumOfCycle: low-cycle fatigue strictly between Sm and Sy (only for
   * z = -3), high-cycle strictly between Se and Sm, infinite life below Se,
   * NotInRangeError otherwise. Sm is computed first, so a missing Sut is a
   * TypeError; Sy is only compared once the stress is above Sm.
   */
  function NumOfCycle(a: Analysis, z: real): (r: Result<Life>)
    requires Physical(a)
    ensures a.sut.None? ==> r == Err(TypeError)
    ensures r.Ok? ==> a.sut.Some? && Reversible(a.alt, a.mean, a.sut.value) == Ok(r.value.reversible)
    ensures r.Ok? && r.value.LowCycle? ==>
              z == -3.0 && a.sy.Some? && CalcSm(a.sut.value) < r.value.reversible < a.sy.value
    ensures r.Ok? && r.value.HighCycle? ==> a.se < r.value.reversible < CalcSm(a.sut.value)
    ensures r.Ok? && r.value.InfiniteLife? ==> r.value.reversible < a.se
  {
    if a.sut.None? then Err(TypeError)
    else
      var sut := a.sut.value;
      var sm := CalcSm(sut);
      var rev := Reversible(a.alt, a.mean, sut);
      if rev.Err? then Err(rev.error)
      else
        var s := rev.value;
        if sm < s && a.sy.None? then Err(TypeError)
        else if sm < s && s < a.sy.value then
          if z != -3.0 then Err(ValueError) else Ok(LowCycle(s))
        else if a.se < s < sm then Ok(HighCycle(s))
        else if s < a.se then Ok(InfiniteLife(s))
        else Err(NotInRangeError)
  }

  /** A reversible stress exactly at the endurance limit falls in no range. */
  lemma EnduranceLimitItselfNotInRange(a: Analysis, z: real)
    requires Physical(a) && a.sut.Some?
    requires Reversible(a.alt, a.mean, a.sut.value) == Ok(a.se)
    requires a.se <= CalcSm(a.sut.value)
    ensures NumOfCycle(a, z) == Err(NotInRangeError)
  {
  }

  /** What NumOfCycle returns: the life N with the fatigue strength a N^b, or sympy's oo below Se. */
  datatype Estimate = Cycles(n: real, strength: real) | Unlimited

  /** pow is x ** y on positive bases: positive, and raising to e then to 1/e gives x back. */
  ghost predicate IsPower(pow: (real, real) -> real)
  {
    (forall x, y :: x > 0.0 ==> pow(x, y) > 0.0)
    && (forall x, e, b :: x > 0.0 && e * b == 1.0 ==> pow(pow(x, e), b) == x)
  }

  /**
   * The last two lines of NumOfCycle: N = (S_rev / a) ** (1 / b) and the
   * strength a N ** b, a zero a or b being a ZeroDivisionError.
   */
  function Basquin(reversible: real, coefficient: real, exponent: real, pow: (real, real) -> real)
    : (r: Result<Estimate>)
    ensures r.Err? <==> coefficient == 0.0 || exponent == 0.0
    ensures r.Err? ==> r.error == ZeroDivisionError
    ensures r.Ok? ==> r.value.Cycles? && r.value.n == pow(reversible / coefficient, 1.0 / exponent)
  {
    if coefficient == 0.0 || exponent == 0.0 then Err(ZeroDivisionError)
    else
      var n := pow(reversible / coefficient, 1.0 / exponent);
      Ok(Cycles(n, coefficient * pow(n, exponent)))
  }

  /** On the Basquin line the strength at the computed life is the stress the life was computed for. */
  lemma BasquinReturnsStress(reversible: real, coefficient: real, exponent: real, pow: (real, real) -> real)
    requires IsPower(pow) && reversible > 0.0 && coefficient > 0.0 && exponent != 0.0
    ensures Basquin(reversible, coefficient, exponent, pow).Ok?
    ensures Basquin(reversible, coefficient, exponent, pow).value.n > 0.0
    ensures Basquin(reversible, coefficient, exponent, pow).value.strength == reversible
  {
    var q := reversible / coefficient;
    DivPositive(reversible, coefficient);
    var e := 1.0 / exponent;
    assert e * exponent == 1.0;
    assert pow(pow(q, e), exponent) == q;
    assert coefficient * q == reversible;
  }

  /**
   * NumOfCycle in full: the classification, then the Basquin constants of
   * the range (a = Sut, b = log10(Sut/Sm) / z for low-cycle fatigue; a = Sm
   * (Sm/Se) ** (-3/z), b = log10(Sm/Se) / z for high-cycle fatigue) and the
   * life they give. math.log10 of a non-positive number is a ValueError, z
   * = 0 a ZeroDivisionError.
   */
  function CyclesToFailure(a: Analysis, z: real, pow: (real, real) -> real, log10: real -> real)
    : (r: Result<Estimate>)
    requires Physical(a)
    ensures NumOfCycle(a, z).Err? ==> r == Err(NumOfCycle(a, z).error)
    ensures NumOfCycle(a, z).Ok? && NumOfCycle(a, z).value.InfiniteLife? ==> r == Ok(Unlimited)
    ensures NumOfCycle(a, z).Ok? && NumOfCycle(a, z).value.HighCycle? && z == 0.0 ==> r == Err(ZeroDivisionError)
    ensures r.Ok? && r.value.Cycles? ==> NumOfCycle(a, z).Ok? && !NumOfCycle(a, z).value.InfiniteLife?
  {
    var life := NumOfCycle(a, z);
    if life.Err? then Err(life.error)
    else LifeOf(life.value, a.sut.value, CalcSm(a.sut.value), a.se, z, pow, log10)
  }

  /** The life in a range NumOfCycle has classified, given Sut, Sm and Se. */
  function LifeOf(life: Life, sut: real, sm: real, se: real, z: real, pow: (real, real) -> real,
                  log10: real -> real): (r: Result<Estimate>)
    requires life.LowCycle? ==> z == -3.0
    ensures life.InfiniteLife? ==> r == Ok(Unlimited)
    ensures life.HighCycle? && (z == 0.0 || se == 0.0) ==> r == Err(ZeroDivisionError)
    ensures r.Ok? && r.value.Cycles? ==> !life.InfiniteLife?
    ensures r.Ok? && !life.InfiniteLife? ==> r.value.Cycles?
  {
    match life
    case InfiniteLife(_) => Ok(Unlimited)
    case LowCycle(s) =>
      if sm == 0.0 then Err(ZeroDivisionError)
      else if sut / sm <= 0.0 then Err(ValueError)
      else Basquin(s, sut, (1.0 / z) * log10(sut / sm), pow)
    case HighCycle(s) => HighCycleBasquin(s, sm, se, z, pow, log10)
  }

  /**
   * The high-cycle branch, shared by NumOfCycle and Miner: a = Sm (Sm/Se)
   * ** (-3/z) and b = log10(Sm/Se) / z on the Basquin line. Sm / Se and
   * -3 / z divide by zero for Se = 0 or z = 0; math.log10 of a
   * non-positive Sm / Se is a ValueError.
   */
  function HighCycleBasquin(s: real, sm: real, se: real, z: real, pow: (real, real) -> real,
                            log10: real -> real): (r: Result<Estimate>)
    ensures se == 0.0 || z == 0.0 ==> r == Err(ZeroDivisionError)
    ensures se != 0.0 && z != 0.0 && sm / se <= 0.0 ==> r == Err(ValueError)
    ensures se != 0.0 && z != 0.0 && sm / se > 0.0 ==>
              r == Basquin(s, sm * pow(sm / se, -3.0 / z), (1.0 / z) * log10(sm / se), pow)
    ensures r.Ok? ==> r.value.Cycles? && se != 0.0 && z != 0.0
                      && var a := sm * pow(sm / se, -3.0 / z);
                         var b := (1.0 / z) * log10(sm / se);
                         a != 0.0 && b != 0.0 && r.value.n == pow(s / a, 1.0 / b)
  {
    if se == 0.0 || z == 0.0 then Err(ZeroDivisionError)
    else if sm / se <= 0.0 then Err(ValueError)
    else Basquin(s, sm * pow(sm / se, -3.0 / z), (1.0 / z) * log10(sm / se), pow)
  }

  /**
   * Whenever NumOfCycle reports a finite life, the fatigue strength it
   * returns beside it is the reversible stress: the life is where the S-N
   * line reaches the applied stress.
   */
  lemma CyclesToFailureMeetsStress(a: Analysis, z: real, pow: (real, real) -> real, log10: real -> real)
    requires Physical(a) && IsPower(pow)
    requires CyclesToFailure(a, z, pow, log10).Ok? && CyclesToFailure(a, z, pow, log10).value.Cycles?
    ensures CyclesToFailure(a, z, pow, log10).value.n > 0.0
    ensures CyclesToFailure(a, z, pow, log10).value.strength == NumOfCycle(a, z).value.reversible
  {
    LifeOfMeetsStress(NumOfCycle(a, z).value, a.sut.value, CalcSm(a.sut.value), a.se, z, pow, log10);
  }

  lemma LifeOfMeetsStress(life: Life, sut: real, sm: real, se: real, z: real, pow: (real, real) -> real,
                          log10: real -> real)
    requires IsPower(pow) && sut > 0.0 && se > 0.0
    requires life.LowCycle? ==> z == -3.0 && sm < life.reversible
    requires life.HighCycle? ==> se < life.reversible < sm
    requires LifeOf(life, sut, sm, se, z, pow, log10).Ok? && LifeOf(life, sut, sm, se, z, pow, log10).value.Cycles?
    ensures LifeOf(life, sut, sm, se, z, pow, log10).value.n > 0.0
    ensures LifeOf(life, sut, sm, se, z, pow, log10).value.strength == life.reversible
  {
    if life.LowCycle? {
      LowCycleMeetsStress(life.reversible, sut, sm, z, pow, log10);
    } else {
      HighCycleMeetsStress(life.reversible, sm, se, z, pow, log10);
    }
  }

  lemma LowCycleMeetsStress(s: real, sut: real, sm: real, z: real, pow: (real, real) -> real, log10: real -> real)
    requires IsPower(pow) && z == -3.0 && sut > 0.0 && sm < s && sm != 0.0 && sut / sm > 0.0
    requires Basquin(s, sut, (1.0 / z) * log10(sut / sm), pow).Ok?
    ensures Basquin(s, sut, (1.0 / z) * log10(sut / sm), pow).value.n > 0.0
    ensures Basquin(s, sut, (1.0 / z) * log10(sut / sm), pow).value.strength == s
  {
    assert sm > 0.0;
    BasquinReturnsStress(s, sut, (1.0 / z) * log10(sut / sm), pow);
  }

  lemma HighCycleMeetsStress(s: real, sm: real, se: real, z: real, pow: (real, real) -> real, log10: real -> real)
    requires IsPower(pow) && se > 0.0 && se < s < sm && z != 0.0
    requires Basquin(s, sm * pow(sm / se, -3.0 / z), (1.0 / z) * log10(sm / se), pow).Ok?
    ensures Basquin(s, sm * pow(sm / se, -3.0 / z), (1.0 / z) * log10(sm / se), pow).value.n > 0.0
    ensures Basquin(s, sm * pow(sm / se, -3.0 / z), (1.0 / z) * log10(sm / se), pow).value.strength == s
  {
    DivPositive(sm, se);
    MulPositive(sm, pow(sm / se, -3.0 / z));
    BasquinReturnsStress(s, sm * pow(sm / se, -3.0 / z), (1.0 / z) * log10(sm / se), pow);
  }

  // ---------------------------------------------------------------------
  // Miner's rule

  /** An entry of a stress group: a number, or sympy's oo. */
  datatype Entry = Value(x: real) | Infinity

  /** A group as the caller gives it: repetitions and two stresses. */
  predicate WellFormedGroup(g: seq<Entry>)
  {
    |g| >= 3 && g[0].Value? && g[1].Value? && g[2].Value?
  }

  /** The (alternating, mean) stresses of a group: from max and min, or given directly. */
  function GroupStresses(g: seq<Entry>, altMean: bool): (s: (real, real))
    requires WellFormedGroup(g)
    ensures s.0 >= 0.0 || altMean
    ensures !altMean ==> s.1 + s.0 == (if g[1].x >= g[2].x then g[1].x else g[2].x)
    ensures !altMean ==> s.1 - s.0 == (if g[1].x >= g[2].x then g[2].x else g[1].x)
  {
    if altMean then (g[1].x, g[2].x)
    else ((if g[1].x >= g[2].x then g[1].x - g[2].x else g[2].x - g[1].x) / 2.0, (g[1].x + g[2].x) / 2.0)
  }

  /** What Miner takes besides the groups: Sut, Se, Sy, z, alt_mean, and x ** y and log10. */
  datatype MinerSetup = MinerSetup(sut: real, se: real, sy: Option<real>, z: real, altMean: bool,
                                   pow: (real, real) -> real, log10: real -> real)

  /**
   * The reversible stress of a group, as Miner computes it: alt / (1 -
   * mean/Sut) for a non-negative mean, a ZeroDivisionError for Sut = 0 or
   * a mean equal to Sut; alt for a negative mean.
   */
  function GroupReversible(g: seq<Entry>, altMean: bool, sut: real): (r: Result<real>)
    requires WellFormedGroup(g)
    ensures sut != 0.0 ==> r == Reversible(GroupStresses(g, altMean).0, GroupStresses(g, altMean).1, sut)
    ensures r.Err? <==> GroupStresses(g, altMean).1 >= 0.0 && (sut == 0.0 || GroupStresses(g, altMean).1 == sut)
    ensures r.Err? ==> r.error == ZeroDivisionError
    ensures r.Ok? && GroupStresses(g, altMean).1 < 0.0 ==> r.value == GroupStresses(g, altMean).0
  {
    var s := GroupStresses(g, altMean);
    if sut == 0.0 then (if s.1 >= 0.0 then Err(ZeroDivisionError) else Ok(s.0))
    else Reversible(s.0, s.1, sut)
  }

  /**
   * The high-cycle life Miner appends: N = (S_rev / a) ** (1 / b) with the
   * constants a and b of NumOfCycle's high-cycle range.
   */
  function HighCycleLife(rev: real, sm: real, se: real, z: real, pow: (real, real) -> real,
                         log10: real -> real): (r: Result<real>)
    ensures se == 0.0 || z == 0.0 ==> r == Err(ZeroDivisionError)
    ensures se != 0.0 && z != 0.0 && sm / se <= 0.0 ==> r == Err(ValueError)
    ensures r.Err? <==> HighCycleBasquin(rev, sm, se, z, pow, log10).Err?
    ensures r.Err? ==> r.error in {ZeroDivisionError, ValueError}
    ensures r.Ok? ==> HighCycleBasquin(rev, sm, se, z, pow, log10).Ok?
                      && HighCycleBasquin(rev, sm, se, z, pow, log10).value.n == r.value
  {
    var e := HighCycleBasquin(rev, sm, se, z, pow, log10);
    if e.Err? then Err(e.error)
    else
      Ok(e.value.n)
  }

  /**
   * On the S-N line through Sm and Se the life Miner appends is positive
   * and is where the line reaches the reversible stress: a N ** b = S_rev.
   */
  lemma HighCycleLifeMeetsStress(rev: real, sm: real, se: real, z: real, pow: (real, real) -> real,
                                 log10: real -> real)
    requires IsPower(pow) && se > 0.0 && se < rev < sm
    requires HighCycleLife(rev, sm, se, z, pow, log10).Ok?
    ensures HighCycleLife(rev, sm, se, z, pow, log10).value > 0.0
    ensures sm * pow(sm / se, -3.0 / z) * pow(HighCycleLife(rev, sm, se, z, pow, log10).value,
                                              (1.0 / z) * log10(sm / se)) == rev
  {
    HighCycleMeetsStress(rev, sm, se, z, pow, log10);
  }

  /**
   * The life Miner appends after the reversible stress: oo in the
   * low-cycle range (when Sy is given) and below Se, the high-cycle life
   * (or its error) between Se and Sm, and nothing otherwise.
   */
  function MinerLife(rev: real, sm: real, se: real, sy: Option<real>, z: real, pow: (real, real) -> real,
                     log10: real -> real): (r: Result<Option<Entry>>)
    ensures r.Err? ==> se < rev < sm && HighCycleLife(rev, sm, se, z, pow, log10).Err?
                       && r.error == HighCycleLife(rev, sm, se, z, pow, log10).error
    ensures r.Ok? && r.value.Some? && r.value.value.Value? ==>
              se < rev < sm && HighCycleLife(rev, sm, se, z, pow, log10).Ok?
              && r.value.value.x == HighCycleLife(rev, sm, se, z, pow, log10).value
  {
    if (sy.Some? && sm < rev < sy.value) || rev < se then Ok(Some(Infinity))
    else if se < rev < sm then
      var n := HighCycleLife(rev, sm, se, z, pow, log10);
      if n.Err? then Err(n.error) else Ok(Some(Value(n.value)))
    else Ok(None)
  }

  /** Miner gives a finite life exactly in the high-cycle range, and fails only there. */
  lemma MinerFiniteIffHighCycle(rev: real, sm: real, se: real, sy: Option<real>, z: real,
                                pow: (real, real) -> real, log10: real -> real)
    ensures var r := MinerLife(rev, sm, se, sy, z, pow, log10);
            (r.Ok? && r.value.Some? && r.value.value.Value?)
            <==> se < rev < sm && HighCycleLife(rev, sm, se, z, pow, log10).Ok?
    ensures se < rev < sm && (z == 0.0 || se == 0.0) ==> MinerLife(rev, sm, se, sy, z, pow, log10) == Err(ZeroDivisionError)
  {
    if se < rev < sm {
      var n := HighCycleLife(rev, sm, se, z, pow, log10);
      assert n.Ok? ==> MinerLife(rev, sm, se, sy, z, pow, log10) == Ok(Some(Value(n.value)));
    }
  }

  /**
   * Miner and NumOfCycle classify alike, except that Miner counts the
   * low-cycle range as infinite life; in the high-cycle range Miner's life
   * (or its error) is the one NumOfCycle computes.
   */
  lemma MinerAgreesWithNumOfCycle(a: Analysis, z: real, pow: (real, real) -> real, log10: real -> real)
    requires Physical(a)
    requires NumOfCycle(a, z).Ok?
    ensures var life := NumOfCycle(a, z).value;
            var entry := MinerLife(life.reversible, CalcSm(a.sut.value), a.se, a.sy, z, pow, log10);
            var n := CyclesToFailure(a, z, pow, log10);
            (life.HighCycle? && n.Ok? ==> n.value.Cycles? && entry == Ok(Some(Value(n.value.n))))
            && (life.HighCycle? && n.Err? ==> entry == Err(n.error))
            && (!life.HighCycle? ==> entry == Ok(Some(Infinity)))
  {
  }

  /** The life Miner appends to a group, or the error that stops it. */
  function GroupLife(g: seq<Entry>, p: MinerSetup): (r: Result<Option<Entry>>)
    requires WellFormedGroup(g)
    ensures GroupReversible(g, p.altMean, p.sut).Err? ==> r == Err(ZeroDivisionError)
  {
    var rev := GroupReversible(g, p.altMean, p.sut);
    if rev.Err? then Err(rev.error)
    else MinerLife(rev.value, CalcSm(p.sut), p.se, p.sy, p.z, p.pow, p.log10)
  }

  /**
   * The group as Miner leaves it: its reversible stress appended and, in
   * range, its life; when the reversible stress itself fails nothing has
   * been appended, and when the life fails only the stress has.
   */
  function Completed(g: seq<Entry>, p: MinerSetup): (c: seq<Entry>)
    requires WellFormedGroup(g)
    ensures GroupReversible(g, p.altMean, p.sut).Err? ==> c == g
    ensures GroupReversible(g, p.altMean, p.sut).Ok? ==>
              |g| < |c| <= |g| + 2 && c[..|g|] == g && c[|g|] == Value(GroupReversible(g, p.altMean, p.sut).value)
    ensures |c| == |g| + 2 <==> GroupLife(g, p).Ok? && GroupLife(g, p).value.Some?
    ensures |c| == |g| + 2 ==> c[|g| + 1] == GroupLife(g, p).value.value
  {
    var rev := GroupReversible(g, p.altMean, p.sut);
    if rev.Err? then g
    else
      var life := MinerLife(rev.value, CalcSm(p.sut), p.se, p.sy, p.z, p.pow, p.log10);
      g + [Value(rev.value)] + (if life.Ok? && life.value.Some? then [life.value.value] else [])
  }

  /** A group without a life gets its reversible stress as the divisor. */
  lemma OutOfRangeDividesByStress(g: seq<Entry>, p: MinerSetup)
    requires WellFormedGroup(g)
    requires GroupLife(g, p) == Ok(None)
    ensures var c := Completed(g, p);
            GroupReversible(g, p.altMean, p.sut).Ok? && c[|c| - 1] == Value(GroupReversible(g, p.altMean, p.sut).value)
  {
  }

  predicate AllWellFormed(gs: seq<seq<Entry>>)
  {
    forall i :: 0 <= i < |gs| ==> WellFormedGroup(gs[i])
  }

  /** The index of the first group whose reversible stress or life fails; |gs| when none does. */
  function FirstFailing(gs: seq<seq<Entry>>, p: MinerSetup): (k: nat)
    requires AllWellFormed(gs)
    ensures k <= |gs|
    ensures forall i :: 0 <= i < k ==> GroupLife(gs[i], p).Ok?
    ensures k < |gs| ==> GroupLife(gs[k], p).Err?
  {
    if gs == [] then 0
    else if GroupLife(gs[0], p).Err? then 0
    else 1 + FirstFailing(gs[1..], p)
  }
  /** The running sum: its value and whether a sympy term (n / oo) entered it. */
  datatype Total = Total(value: real, symbolic: bool)

  /** n / N for one group: zero (symbolically) for oo, ZeroDivisionError for 0. */
  function Damage(g: seq<Entry>): (r: Result<Total>)
    requires |g| >= 1 && g[0].Value?
    ensures r.Err? <==> g[|g| - 1] == Value(0.0)
    ensures g[|g| - 1] == Infinity ==> r == Ok(Total(0.0, true))
    ensures r.Ok? && g[|g| - 1].Value? ==> !r.value.symbolic && r.value.value * g[|g| - 1].x == g[0].x
  {
    match g[|g| - 1]
    case Infinity => Ok(Total(0.0, true))
    case Value(n) => if n == 0.0 then Err(ZeroDivisionError) else Ok(Total(g[0].x / n, false))
  }

  predicate Countable(gs: seq<seq<Entry>>)
  {
    forall i :: 0 <= i < |gs| ==> |gs[i]| >= 1 && gs[i][0].Value?
  }

  /** The damage sum over the groups in order; the first failing group's error. */
  function DamageSum(gs: seq<seq<Entry>>): (r: Result<Total>)
    requires Countable(gs)
    ensures r.Ok? ==> (r.value.symbolic <==> exists i :: 0 <= i < |gs| && gs[i][|gs[i]| - 1] == Infinity)
    ensures r.Err? <==> exists i :: 0 <= i < |gs| && gs[i][|gs[i]| - 1] == Value(0.0)
    ensures r.Err? ==> r.error == ZeroDivisionError
  {
    if gs == [] then Ok(Total(0.0, false))
    else
      var front := gs[..|gs| - 1];
      var last := gs[|gs| - 1];
      assert forall i :: 0 <= i < |front| ==> front[i] == gs[i];
      var before := DamageSum(front);
      if before.Err? then Err(before.error)
      else
        var term := Damage(last);
        if term.Err? then Err(term.error)
        else Ok(Total(before.value.value + term.value.value, before.value.symbolic || term.value.symbolic))
  }

  /** A group with infinite life adds no damage. */
  lemma {:induction false} InfiniteLifeAddsNoDamage(gs: seq<seq<Entry>>, g: seq<Entry>)
    requires Countable(gs) && |g| >= 1 && g[0].Value? && g[|g| - 1] == Infinity
    ensures Countable(gs + [g])
    ensures DamageSum(gs).Ok? ==> DamageSum(gs + [g]) == Ok(Total(DamageSum(gs).value.value, true))
  {
    assert (gs + [g])[..|gs|] == gs;
  }

  /**
   * float(1 / result): ZeroDivisionError when nothing was summed or the sum
   * is a float zero, TypeError when it is sympy's zero (1/0 is zoo there).
   */
  function MinerTotal(sum: Result<Total>): (r: Result<real>)
    ensures r.Ok? ==> sum.Ok? && r.value * sum.value.value == 1.0
    ensures sum.Ok? && sum.value.value == 0.0 ==> r == Err(if sum.value.symbolic then TypeError else ZeroDivisionError)
  {
    if sum.Err? then Err(sum.error)
    else if sum.value.value == 0.0 then Err(if sum.value.symbolic then TypeError else ZeroDivisionError)
    else Ok(1.0 / sum.value.value)
  }

  /**
   * Miner: appends each group's reversible stress and life to the
   * caller's group (in place), then returns the total life
   * 1 / sum(n_i / N_i). An error in one group stops the first loop there:
   * the groups before it are completed, the failing group keeps what was
   * appended to it, the groups after it are untouched.
   */
  method Miner(groups: array<seq<Entry>>, p: MinerSetup) returns (r: Result<real>)
    requires forall i :: 0 <= i < groups.Length ==> WellFormedGroup(groups[i])
    modifies groups
    ensures var k := FirstFailing(old(groups[..]), p);
            forall i :: 0 <= i < groups.Length ==>
              groups[i] == (if i <= k then Completed(old(groups[i]), p) else old(groups[i]))
    ensures var k := FirstFailing(old(groups[..]), p);
            k < groups.Length ==> r == Err(GroupLife(old(groups[k]), p).error)
    ensures FirstFailing(old(groups[..]), p) == groups.Length ==>
              Countable(groups[..]) && r == MinerTotal(DamageSum(groups[..]))
  {
    var failure := CompleteGroups(groups, p);
    if failure.Some? {
      return Err(failure.value);
    }
    var sum := SumDamage(groups[..]);
    r := MinerTotal(sum);
  }

  /** The first loop of Miner: each group gets its reversible stress and, in range, its life. */
  method CompleteGroups(groups: array<seq<Entry>>, p: MinerSetup) returns (failure: Option<Error>)
    requires forall i :: 0 <= i < groups.Length ==> WellFormedGroup(groups[i])
    modifies groups
    ensures var k := FirstFailing(old(groups[..]), p);
            forall i :: 0 <= i < groups.Length ==>
              groups[i] == (if i <= k then Completed(old(groups[i]), p) else old(groups[i]))
    ensures var k := FirstFailing(old(groups[..]), p);
            (failure.None? <==> k == groups.Length)
            && (k < groups.Length ==> failure == Some(GroupLife(old(groups[k]), p).error))
    ensures failure.None? ==> Countable(groups[..])
  {
    ghost var start := groups[..];
    for i := 0 to groups.Length
      invariant forall j :: 0 <= j < i ==> GroupLife(start[j], p).Ok? && groups[j] == Completed(start[j], p)
      invariant forall j :: i <= j < groups.Length ==> groups[j] == start[j]
    {
      var c, stop := AppendLife(groups[i], p);
      groups[i] := c;
      if stop.Some? {
        FailsHere(start, p, i);
        return stop;
      }
    }
    NoneFails(start, p);
    failure := None;
  }

  /**
   * One pass of Miner's first loop on one group: the reversible stress is
   * appended, then oo, the high-cycle life or nothing; an error stops the
   * pass and leaves what was appended so far.
   */
  method AppendLife(g: seq<Entry>, p: MinerSetup) returns (c: seq<Entry>, stop: Option<Error>)
    requires WellFormedGroup(g)
    ensures c == Completed(g, p)
    ensures stop.Some? <==> GroupLife(g, p).Err?
    ensures stop.Some? ==> stop.value == GroupLife(g, p).error
  {
    c := g;
    var rev := GroupReversible(g, p.altMean, p.sut);
    if rev.Err? {
      return c, Some(rev.error);
    }
    var sm := CalcSm(p.sut);
    var reversible := rev.value;
    c := c + [Value(reversible)];
    if (p.sy.Some? && sm < reversible < p.sy.value) || reversible < p.se {
      c := c + [Infinity];
    } else if p.se < reversible < sm {
      var n := HighCycleLife(reversible, sm, p.se, p.z, p.pow, p.log10);
      if n.Err? {
        return c, Some(n.error);
      }
      c := c + [Value(n.value)];
    }
    stop := None;
  }

  /** The first failing group is the first one whose life is an error. */
  lemma FailsHere(gs: seq<seq<Entry>>, p: MinerSetup, i: nat)
    requires AllWellFormed(gs) && i < |gs|
    requires forall j :: 0 <= j < i ==> GroupLife(gs[j], p).Ok?
    requires GroupLife(gs[i], p).Err?
    ensures FirstFailing(gs, p) == i
  {
  }

  lemma NoneFails(gs: seq<seq<Entry>>, p: MinerSetup)
    requires AllWellFormed(gs)
    requires forall j :: 0 <= j < |gs| ==> GroupLife(gs[j], p).Ok?
    ensures FirstFailing(gs, p) == |gs|
  {
  }

  /** The second loop of Miner: the damage sum, stopping at the first zero life. */
  method SumDamage(gs: seq<seq<Entry>>) returns (r: Result<Total>)
    requires Countable(gs)
    ensures r == DamageSum(gs)
  {
    var sum := Total(0.0, false);
    for i := 0 to |gs|
      invariant DamageSum(gs[..i]) == Ok(sum)
    {
      assert gs[..i + 1][..i] == gs[..i];
      var term := Damage(gs[i]);
      if term.Err? {
        assert DamageSum(gs).Err?;
        return Err(term.error);
      }
      sum := Total(sum.value + term.value.value, sum.symbolic || term.value.symbolic);
    }
    assert gs[..|gs|] == gs;
    r := Ok(sum);
  }
}
