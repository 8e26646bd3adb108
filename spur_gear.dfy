// The spur gear of gears/spur_gear.py: the AGMA 2001-D04 rating factors a
// gear computes from its own fields (KH, St, Sc), the cycle count of its
// life, the pair checks, and the width / teeth / modulus search of its
// optimisation, which changes the gear in place and restores it.

module SpurGears {
  import opened Common

  /** The Python class of a gear object, as `type(self)` sees it. */
  datatype GearKind = SpurKind | HelicalKind

  /** pitch_diameter: N m, in mm. */
  function PitchDiameter(teeth: int, modulus: real): real
  {
    teeth as real * modulus
  }

  /** pitch: the circular pitch pi m. */
  function Pitch(modulus: real): real
  {
    modulus * Pi
  }

  /** N circular pitches make up the pitch circle. */
  lemma PitchesFillCircle(teeth: int, modulus: real)
    ensures teeth as real * Pitch(modulus) == Pi * PitchDiameter(teeth, modulus)
  {
  }

  /** tangent_velocity: pi d rpm / 60000, in m/s. */
  function TangentVelocity(teeth: int, modulus: real, rpm: real): real
  {
    (Pi * PitchDiameter(teeth, modulus) * rpm) / 60000.0
  }

  /** Two gears whose diameters and speeds are inversely proportional share one pitch-line speed. */
  lemma MeshingGearsShareVelocity(teeth1: int, teeth2: int, modulus: real, rpm1: real, rpm2: real)
    requires PitchDiameter(teeth1, modulus) * rpm1 == PitchDiameter(teeth2, modulus) * rpm2
    ensures TangentVelocity(teeth1, modulus, rpm1) == TangentVelocity(teeth2, modulus, rpm2)
  {
    var d1, d2 := PitchDiameter(teeth1, modulus), PitchDiameter(teeth2, modulus);
    assert Pi * d1 * rpm1 == Pi * (d1 * rpm1);
    assert Pi * d2 * rpm2 == Pi * (d2 * rpm2);
  }

  /** calc_centers_distance: 0.5 m N (ratio + 1). */
  function CentersDistance(modulus: real, teeth: int, gearRatio: real): real
  {
    0.5 * modulus * teeth as real * (gearRatio + 1.0)
  }

  /**
   * With the mating gear's teeth at ratio times the pinion's, the centre
   * distance is the mean of the two pitch diameters.
   */
  lemma CentersIsMeanDiameter(modulus: real, teeth1: int, teeth2: int, gearRatio: real)
    requires teeth2 as real == gearRatio * teeth1 as real
    ensures CentersDistance(modulus, teeth1, gearRatio)
            == (PitchDiameter(teeth1, modulus) + PitchDiameter(teeth2, modulus)) / 2.0
  {
    var n1, n2 := teeth1 as real, teeth2 as real;
    calc {
      CentersDistance(modulus, teeth1, gearRatio);
      0.5 * modulus * n1 * (gearRatio + 1.0);
      0.5 * (modulus * (gearRatio * n1) + modulus * n1);
      { assert gearRatio * n1 == n2; }
      0.5 * (modulus * n2 + modulus * n1);
      (PitchDiameter(teeth1, modulus) + PitchDiameter(teeth2, modulus)) / 2.0;
    }
  }

  /** Volume of the gear blank: pi d^2 b / 4. */
  function Volume(modulus: real, teeth: int, width: real): real
  {
    0.25 * Pi * (PitchDiameter(teeth, modulus) * PitchDiameter(teeth, modulus)) * width
  }

  // ---------------------------------------------------------------------
  // KH, the load distribution factor

  /** The face-width to diameter ratio, clamped below at 0.05. */
  function FaceRatio(width: real, pitchDiameter: real): (r: real)
    requires pitchDiameter != 0.0
    ensures r >= 0.05 && r >= width / (10.0 * pitchDiameter)
    ensures r == 0.05 || r == width / (10.0 * pitchDiameter)
  {
    var ratio := width / (10.0 * pitchDiameter);
    if ratio < 0.05 then 0.05 else ratio
  }

  /** K_Hpf up to 25 mm of face width. */
  function LowBand(ratio: real): real
  {
    ratio - 0.025
  }

  /** K_Hpf between 25 and 432 mm. */
  function MidBand(ratio: real, width: real): real
  {
    ratio - 0.0375 + 0.000492 * width
  }

  /** K_Hpf between 432 and 1020 mm, with the metric linear coefficient 0.000815. */
  function HighBand(ratio: real, width: real): real
  {
    ratio - 0.1109 + 0.000815 * width - 0.000000353 * (width * width)
  }

  /** K_Hpf between 432 and 1020 mm as the source writes it, with 0.00815. */
  function HighBandAsWritten(ratio: real, width: real): real
  {
    ratio - 0.1109 + 0.00815 * width - 0.000000353 * (width * width)
  }

  /** The low and middle bands meet at 25 mm to within 0.001. */
  lemma LowAndMidBandsMeet(ratio: real)
    ensures -0.001 < MidBand(ratio, 25.0) - LowBand(ratio) < 0.001
  {
  }

  /** The middle and (corrected) high bands meet at 432 mm to within 0.001. */
  lemma MidAndHighBandsMeet(ratio: real)
    ensures -0.001 < HighBand(ratio, 432.0) - MidBand(ratio, 432.0) < 0.001
  {
  }

  /** As written, the high band starts more than 3 above where the middle band ends. */
  lemma HighBandAsWrittenJumps(ratio: real)
    ensures HighBandAsWritten(ratio, 432.0) - MidBand(ratio, 432.0) > 3.0
  {
  }

  /** K_Hpf: three width bands, and a ValueError above 1020 mm. */
  function PinionProportion(ratio: real, width: real): (r: Result<real>)
    ensures r.Err? <==> width > 1020.0
    ensures r.Err? ==> r.error == ValueError
    ensures width <= 25.0 ==> r == Ok(LowBand(ratio))
    ensures 25.0 < width <= 432.0 ==> r == Ok(MidBand(ratio, width))
    ensures 432.0 < width <= 1020.0 ==> r == Ok(HighBand(ratio, width))
  {
    if width <= 25.0 then Ok(LowBand(ratio))
    else if width <= 432.0 then Ok(MidBand(ratio, width))
    else if width <= 1020.0 then Ok(HighBand(ratio, width))
    else Err(ValueError)
  }

  /** The pinion proportion with the high-band coefficient the program carries. */
  function PinionProportionAsWritten(ratio: real, width: real): (r: Result<real>)
    ensures r.Err? <==> width > 1020.0
    ensures r.Err? ==> r.error == ValueError
    ensures width <= 25.0 ==> r == Ok(LowBand(ratio))
    ensures 25.0 < width <= 432.0 ==> r == Ok(MidBand(ratio, width))
    ensures 432.0 < width <= 1020.0 ==> r == Ok(HighBandAsWritten(ratio, width))
  {
    if width <= 25.0 then Ok(LowBand(ratio))
    else if width <= 432.0 then Ok(MidBand(ratio, width))
    else if width <= 1020.0 then Ok(HighBandAsWritten(ratio, width))
    else Err(ValueError)
  }

  /**
   * The two forms agree except on the high band, where the program's value
   * exceeds the corrected one by 0.007335 per millimetre of face width.
   */
  lemma PinionProportionFormsDiffer(ratio: real, width: real)
    ensures width <= 432.0 || width > 1020.0 ==> PinionProportionAsWritten(ratio, width) == PinionProportion(ratio, width)
    ensures 432.0 < width <= 1020.0 ==>
      PinionProportionAsWritten(ratio, width).value - PinionProportion(ratio, width).value == 0.007335 * width > 3.0
  {
  }

  lemma SquareBelow(w: real, bound: real)
    requires 0.0 <= w <= bound
    ensures w * w <= bound * w
  {
  }

  /** On a clamped ratio every band of K_Hpf is positive. */
  lemma PinionProportionPositive(ratio: real, width: real)
    requires ratio >= 0.05 && 0.0 <= width <= 1020.0
    ensures PinionProportion(ratio, width).Ok?
    ensures PinionProportion(ratio, width).value > 0.0
  {
    if width > 432.0 {
      SquareBelow(width, 1020.0);
      assert 0.000000353 * (width * width) <= 0.000000353 * (1020.0 * width);
    }
  }

  /** K_Hpm: 1.1 once the pinion sits 0.175 of the span off centre. */
  function PinionModifier(bearingSpan: real, pinionOffset: real): (k: real)
    requires bearingSpan != 0.0
    ensures k == 1.1 <==> pinionOffset / bearingSpan >= 0.175
    ensures k == 1.0 || k == 1.1
  {
    if pinionOffset / bearingSpan < 0.175 then 1.0 else 1.1
  }

  /** The [A, B, C] coefficients of K_Hma per enclosure type, None for an unknown key. */
  function EnclosureCoefficients(enclosure: string): Option<(real, real, real)>
  {
    if enclosure == "open gearing" then Some((0.247, 0.000657, -0.0000001186))
    else if enclosure == "commercial enclosed" then Some((0.127, 0.000622, -0.000000169))
    else if enclosure == "precision enclosed" then Some((0.0675, 0.000504, -0.000000144))
    else if enclosure == "extra precision enclosed" then Some((0.0380, 0.000402, -0.000000127))
    else None
  }

  predicate KnownEnclosure(enclosure: string)
  {
    enclosure in {"open gearing", "commercial enclosed", "precision enclosed", "extra precision enclosed"}
  }

  /** K_Hma = A + B b + C b^2; a KeyError for an enclosure the table lacks. */
  function MeshAlignment(enclosure: string, width: real): (r: Result<real>)
    ensures r.Ok? <==> KnownEnclosure(enclosure)
    ensures r.Err? ==> r.error == KeyError
  {
    match EnclosureCoefficients(enclosure)
    case None => Err(KeyError)
    case Some((a, b, c)) => Ok(a + width * b + c * (width * width))
  }

  /** Every enclosure's mesh alignment factor is positive across the rated widths. */
  lemma MeshAlignmentPositive(enclosure: string, width: real)
    requires KnownEnclosure(enclosure) && 0.0 <= width <= 1020.0
    ensures MeshAlignment(enclosure, width).Ok?
    ensures MeshAlignment(enclosure, width).value > 0.0
  {
    SquareBelow(width, 1020.0);
    var (a, b, c) := EnclosureCoefficients(enclosure).value;
    assert c < 0.0 && b + 1020.0 * c > 0.0 && a > 0.0;
    assert c * (width * width) >= c * (1020.0 * width);
  }

  /** K_Hmc or K_He: 0.8 when the correction applies, else 1. */
  function Correction(applies: bool): real
  {
    if applies then 0.8 else 1.0
  }

  /**
   * KH = 1 + K_Hmc (K_Hpf K_Hpm + K_Hma K_He). The width check comes
   * first, so an over-wide gear with an unknown enclosure is a ValueError.
   */
  function KH(crowned: bool, adjusted: bool, width: real, pitchDiameter: real,
              bearingSpan: real, pinionOffset: real, enclosure: string): (r: Result<real>)
    requires pitchDiameter != 0.0 && bearingSpan != 0.0
    ensures r.Err? <==> width > 1020.0 || !KnownEnclosure(enclosure)
    ensures width > 1020.0 ==> r == Err(ValueError)
    ensures width <= 1020.0 && !KnownEnclosure(enclosure) ==> r == Err(KeyError)
  {
    var pf := PinionProportion(FaceRatio(width, pitchDiameter), width);
    var ma := MeshAlignment(enclosure, width);
    if pf.Err? then Err(pf.error)
    else if ma.Err? then Err(ma.error)
    else
      var pm := PinionModifier(bearingSpan, pinionOffset);
      Ok(1.0 + Correction(crowned) * (pf.value * pm + ma.value * Correction(adjusted)))
  }

  /** Across the rated widths KH exceeds 1: every term it adds is positive. */
  lemma KHAboveOne(crowned: bool, adjusted: bool, width: real, pitchDiameter: real,
                   bearingSpan: real, pinionOffset: real, enclosure: string)
    requires pitchDiameter != 0.0 && bearingSpan != 0.0
    requires 0.0 <= width <= 1020.0 && KnownEnclosure(enclosure)
    ensures KH(crowned, adjusted, width, pitchDiameter, bearingSpan, pinionOffset, enclosure).Ok?
    ensures KH(crowned, adjusted, width, pitchDiameter, bearingSpan, pinionOffset, enclosure).value > 1.0
  {
    var ratio := FaceRatio(width, pitchDiameter);
    PinionProportionPositive(ratio, width);
    MeshAlignmentPositive(enclosure, width);
    var pf := PinionProportion(ratio, width).value;
    var pm := PinionModifier(bearingSpan, pinionOffset);
    var ma := MeshAlignment(enclosure, width).value;
    MulPositive(pf, pm);
    MulPositive(ma, Correction(adjusted));
    MulPositive(Correction(crowned), pf * pm + ma * Correction(adjusted));
  }

  /** Crowned teeth scale everything KH adds to 1 by 0.8. */
  lemma CrowningScalesExcess(adjusted: bool, width: real, pitchDiameter: real,
                             bearingSpan: real, pinionOffset: real, enclosure: string)
    requires pitchDiameter != 0.0 && bearingSpan != 0.0
    requires width <= 1020.0 && KnownEnclosure(enclosure)
    ensures KH(true, adjusted, width, pitchDiameter, bearingSpan, pinionOffset, enclosure).value - 1.0
            == 0.8 * (KH(false, adjusted, width, pitchDiameter, bearingSpan, pinionOffset, enclosure).value - 1.0)
  {
  }

  /**
   * Below a face ratio of 0.05 the clamp makes KH independent of the pitch
   * diameter.
   */
  lemma NarrowFaceIgnoresDiameter(crowned: bool, adjusted: bool, width: real, d1: real, d2: real,
                                  bearingSpan: real, pinionOffset: real, enclosure: string)
    requires d1 > 0.0 && d2 > 0.0 && bearingSpan != 0.0
    requires width < 0.5 * d1 && width < 0.5 * d2
    ensures KH(crowned, adjusted, width, d1, bearingSpan, pinionOffset, enclosure)
            == KH(crowned, adjusted, width, d2, bearingSpan, pinionOffset, enclosure)
  {
    NarrowRatioClamped(width, d1);
    NarrowRatioClamped(width, d2);
  }

  lemma NarrowRatioClamped(width: real, d: real)
    requires d > 0.0 && width < 0.5 * d
    ensures FaceRatio(width, d) == 0.05
  {
    assert width / (10.0 * d) < 0.05 by {
      assert 0.05 * (10.0 * d) == 0.5 * d;
    }
  }

  // ---------------------------------------------------------------------
  // St and Sc, the allowable stresses

  /** St: 0.533 H + 88.3 for grade 1, 0.703 H + 113 for grade 2, otherwise a ValueError. */
  function BendingStrength(grade: int, hardness: real): (r: Result<real>)
    ensures r.Ok? <==> grade == 1 || grade == 2
    ensures r.Err? ==> r.error == ValueError
  {
    if grade == 1 then Ok(0.533 * hardness + 88.3)
    else if grade == 2 then Ok(0.703 * hardness + 113.0)
    else Err(ValueError)
  }

  /** Sc: 200 + 2.22 H for grade 1, 237 + 2.41 H for grade 2, otherwise a ValueError. */
  function ContactStrength(grade: int, hardness: real): (r: Result<real>)
    ensures r.Ok? <==> grade == 1 || grade == 2
    ensures r.Err? ==> r.error == ValueError
  {
    if grade == 1 then Ok(200.0 + 2.22 * hardness)
    else if grade == 2 then Ok(237.0 + 2.41 * hardness)
    else Err(ValueError)
  }

  /** Both allowable stresses grow with hardness within a grade. */
  lemma StrengthsGrowWithHardness(grade: int, h1: real, h2: real)
    requires grade == 1 || grade == 2
    requires h1 < h2
    ensures BendingStrength(grade, h1).value < BendingStrength(grade, h2).value
    ensures ContactStrength(grade, h1).value < ContactStrength(grade, h2).value
  {
  }

  /** For any non-negative hardness grade 2 allows more than grade 1. */
  lemma GradeTwoAllowsMore(hardness: real)
    requires hardness >= 0.0
    ensures BendingStrength(2, hardness).value > BendingStrength(1, hardness).value
    ensures ContactStrength(2, hardness).value > ContactStrength(1, hardness).value
  {
  }

  // ---------------------------------------------------------------------
  // Cycles, compatibility, properties

  /** A `__dict__.get(key, 0)` on an attribute stored only when non-zero. */
  function StoredOrZero(field: Option<real>): real
  {
    if field.Some? then field.value else 0.0
  }

  /**
   * cycles_or_hours: None without a contact ratio; the cycles from the
   * hours (60 h rpm cr) or as given; both given must agree; neither given
   * is a ValueError.
   */
  function CyclesOrHours(contactRatio: Option<real>, numberOfCycles: Option<real>,
                         workHours: Option<real>, rpm: real): (r: Result<Option<real>>)
    ensures contactRatio.None? ==> r == Ok(None)
    ensures r.Err? ==> r.error == ValueError
    ensures contactRatio.Some? ==>
              var cycles, hours := StoredOrZero(numberOfCycles), StoredOrZero(workHours);
              var fromHours := 60.0 * hours * rpm * contactRatio.value;
              && (r.Err? <==> ((cycles == 0.0 && hours == 0.0)
                               || (cycles != 0.0 && hours != 0.0 && cycles != fromHours)))
              && (r.Ok? ==> r.value.Some?)
              && (r.Ok? && cycles != 0.0 ==> r.value.value == cycles)
              && (r.Ok? && hours != 0.0 ==> r.value.value == fromHours)
  {
    if contactRatio.None? then Ok(None)
    else
      var cycles := StoredOrZero(numberOfCycles);
      var hours := StoredOrZero(workHours);
      var fromHours := 60.0 * hours * rpm * contactRatio.value;
      if cycles == 0.0 && hours != 0.0 then Ok(Some(fromHours))
      else if cycles != 0.0 && hours == 0.0 then Ok(Some(cycles))
      else if cycles != 0.0 && hours != 0.0 then
        if cycles == fromHours then Ok(Some(cycles)) else Err(ValueError)
      else Err(ValueError)
  }

  /** A gear built by the constructor (at least one of the two given) always has a cycle count once meshed. */
  lemma ConstructedGearHasCycles(contactRatio: real, cycles: real, hours: real, rpm: real)
    requires cycles != 0.0 || hours != 0.0
    requires cycles != 0.0 && hours != 0.0 ==> cycles == 60.0 * hours * rpm * contactRatio
    ensures CyclesOrHours(Some(contactRatio), StoredIfNonZero(cycles), StoredIfNonZero(hours), rpm).Ok?
  {
  }

  /** The constructor's `if x != 0: self.x = x`. */
  function StoredIfNonZero(x: real): (f: Option<real>)
    ensures StoredOrZero(f) == x
    ensures f.Some? ==> f.value != 0.0
  {
    if x != 0.0 then Some(x) else None
  }

  /**
   * check_compatibility: a ValueError on a pressure-angle mismatch, then on
   * a modulus mismatch, then on a type mismatch.
   */
  function CheckCompatibility(pressureAngle1: real, modulus1: real, kind1: GearKind,
                              pressureAngle2: real, modulus2: real, kind2: GearKind): (r: Outcome)
    ensures r == Done <==> pressureAngle1 == pressureAngle2 && modulus1 == modulus2 && kind1 == kind2
    ensures r.Raised? ==> r.error == ValueError
  {
    if pressureAngle1 != pressureAngle2 then Raised(ValueError)
    else if modulus1 != modulus2 then Raised(ValueError)
    else if kind1 != kind2 then Raised(ValueError)
    else Done
  }

  /** Compatibility is symmetric. */
  lemma CompatibilitySymmetric(pressureAngle1: real, modulus1: real, kind1: GearKind,
                               pressureAngle2: real, modulus2: real, kind2: GearKind)
    ensures CheckCompatibility(pressureAngle1, modulus1, kind1, pressureAngle2, modulus2, kind2)
            == CheckCompatibility(pressureAngle2, modulus2, kind2, pressureAngle1, modulus1, kind1)
  {
  }

  /** The constructor arguments a properties dictionary may carry into a new gear. */
  const PropList: set<string> :=
    {"name", "modulus", "teeth_num", "rpm", "Qv", "width", "bearing_span", "pinion_offset",
     "enclosure", "hardness", "work_hours", "number_of_cycles", "pressure_angle", "grade",
     "crowned", "adjusted", "sensitive_use", "nitriding", "case_carb", "material"}

  /** format_properties: keep exactly the keys in the list, values unchanged. */
  function FormatProperties<V>(properties: map<string, V>): (r: map<string, V>)
    ensures r.Keys == properties.Keys * PropList
    ensures forall key :: key in r ==> r[key] == properties[key]
  {
    map key | key in properties && key in PropList :: properties[key]
  }

  /** The computed attributes never survive, and a second pass changes nothing. */
  lemma FormatPropertiesIdempotent<V>(properties: map<string, V>)
    ensures "contact_ratio" !in FormatProperties(properties)
    ensures "maximum_velocity" !in FormatProperties(properties)
    ensures FormatProperties(FormatProperties(properties)) == FormatProperties(properties)
  {
  }

  // ---------------------------------------------------------------------
  // The optimisation search

  /** The standard moduli, ascending, as the step to a smaller modulus indexes them. */
  const ModulusList: seq<real> :=
    [0.3, 0.4, 0.5, 0.8, 1.0, 1.25, 1.5, 2.0, 2.5, 3.0, 4.0, 5.0, 6.0, 8.0, 10.0, 12.0, 16.0, 20.0, 25.0]

  /** The same moduli sorted in reverse, the order the search tries them in. */
  const DescendingModuli: seq<real> :=
    [25.0, 20.0, 16.0, 12.0, 10.0, 8.0, 6.0, 5.0, 4.0, 3.0, 2.5, 2.0, 1.5, 1.25, 1.0, 0.8, 0.5, 0.4, 0.3]

  lemma DescendingIsReversed()
    ensures |DescendingModuli| == |ModulusList|
    ensures forall i :: 0 <= i < |ModulusList| ==> DescendingModuli[i] == ModulusList[|ModulusList| - 1 - i]
  {
  }

  lemma ModuliPositive()
    ensures forall i :: 0 <= i < |ModulusList| ==> ModulusList[i] >= 0.3
  {
  }

  /** list.index: the first position of x. */
  function IndexOf(s: seq<real>, x: real): (i: nat)
    requires x in s
    ensures i < |s| && s[i] == x
    ensures x !in s[..i]
  {
    if s[0] == x then 0
    else
      assert x in s[1..];
      var j := IndexOf(s[1..], x);
      assert s[..j + 1] == [s[0]] + s[1..][..j];
      j + 1
  }

  /** One viable design of the search: its modulus, teeth, width, centre distance, volume and alpha. */
  datatype Candidate = Candidate(modulus: real, teeth: int, width: real, centers: real,
                                 volume: real, alpha: real)

  /** What the search records: a width within [3 pi m, 5 pi m], alpha above 1, and the derived sizes. */
  predicate Viable(c: Candidate, gearRatio: real)
  {
    && c.modulus in ModulusList
    && 3.0 * Pi * c.modulus <= c.width <= 5.0 * Pi * c.modulus
    && c.width <= 1020.0
    && c.alpha > 1.0
    && c.centers == CentersDistance(c.modulus, c.teeth, gearRatio)
    && c.volume == Volume(c.modulus, c.teeth, c.width)
  }

  /**
   * `min([(key, index), ...])[1]`: the first position of a least key.
   */
  function ArgMin(keys: seq<real>): (i: nat)
    requires |keys| > 0
    ensures i < |keys|
    ensures forall j :: 0 <= j < |keys| ==> keys[i] <= keys[j]
    ensures forall j :: 0 <= j < i ==> keys[j] > keys[i]
  {
    if |keys| == 1 then 0
    else
      var prefix := keys[..|keys| - 1];
      var j := ArgMin(prefix);
      assert forall k :: 0 <= k < |prefix| ==> prefix[k] == keys[k];
      if keys[|keys| - 1] < keys[j] then |keys| - 1 else j
  }

  function Widths(results: seq<Candidate>): seq<real>
  {
    seq(|results|, i requires 0 <= i < |results| => results[i].width)
  }

  function Volumes(results: seq<Candidate>): seq<real>
  {
    seq(|results|, i requires 0 <= i < |results| => results[i].volume)
  }

  function Centers(results: seq<Candidate>): seq<real>
  {
    seq(|results|, i requires 0 <= i < |results| => results[i].centers)
  }

  /** The optimised result: one candidate, or the three of optimize_feature 'all'. */
  datatype Selection =
    | Best(best: Candidate)
    | AllThree(byWidth: Candidate, byVolume: Candidate, byCenter: Candidate)

  /**
   * The selection at the end of the search: the candidate of least width,
   * volume or centre distance (the first one on ties); a ValueError when no
   * candidate was recorded (min of an empty list) and a generic Exception
   * for an unknown feature.
   */
  function SelectOptimized(results: seq<Candidate>, feature: string): (r: Result<Selection>)
    ensures feature !in {"width", "volume", "center", "all"} ==> r == Err(GenericException)
    ensures feature in {"width", "volume", "center", "all"} ==> (r.Err? <==> results == [])
    ensures r.Err? && results == [] && feature in {"width", "volume", "center", "all"} ==> r.error == ValueError
    ensures r.Ok? && feature == "width" ==>
              r.value.Best? && r.value.best in results
              && forall j :: 0 <= j < |results| ==> r.value.best.width <= results[j].width
    ensures r.Ok? && feature == "volume" ==>
              r.value.Best? && r.value.best in results
              && forall j :: 0 <= j < |results| ==> r.value.best.volume <= results[j].volume
    ensures r.Ok? && feature == "center" ==>
              r.value.Best? && r.value.best in results
              && forall j :: 0 <= j < |results| ==> r.value.best.centers <= results[j].centers
    ensures r.Ok? && feature == "all" ==> r.value.AllThree?
  {
    if feature == "width" then
      if results == [] then Err(ValueError)
      else
        var keys := Widths(results);
        var i := ArgMin(keys);
        assert forall j :: 0 <= j < |results| ==> keys[j] == results[j].width;
        Ok(Best(results[i]))
    else if feature == "volume" then
      if results == [] then Err(ValueError)
      else
        var keys := Volumes(results);
        var i := ArgMin(keys);
        assert forall j :: 0 <= j < |results| ==> keys[j] == results[j].volume;
        Ok(Best(results[i]))
    else if feature == "center" then
      if results == [] then Err(ValueError)
      else
        var keys := Centers(results);
        var i := ArgMin(keys);
        assert forall j :: 0 <= j < |results| ==> keys[j] == results[j].centers;
        Ok(Best(results[i]))
    else if feature == "all" then
      if results == [] then Err(ValueError)
      else Ok(AllThree(results[ArgMin(Widths(results))], results[ArgMin(Volumes(results))],
                       results[ArgMin(Centers(results))]))
    else Err(GenericException)
  }

  /** 'all' holds exactly the three single-feature selections. */
  lemma AllAgreesWithSingles(results: seq<Candidate>)
    requires results != []
    ensures SelectOptimized(results, "all").value.byWidth == SelectOptimized(results, "width").value.best
    ensures SelectOptimized(results, "all").value.byVolume == SelectOptimized(results, "volume").value.best
    ensures SelectOptimized(results, "all").value.byCenter == SelectOptimized(results, "center").value.best
  {
  }

  /** How the inner fixed-point loop on the width ended. */
  datatype Convergence =
    | Converged(bending: real, contact: real, prior: real)
    | Diverged
    | KHFailed(error: Error)
    | Exhausted

  /** How the search ended: the selection and every viable result, an error, or nothing found. */
  datatype Search =
    | Found(selection: Selection, results: seq<Candidate>)
    | Failed(error: Error)
    | NoneFound
    | OutOfFuel

  /** The minimum face width a stress allows, at a modulus, a teeth count and a current width. */
  type WidthRule = (real, int, real) -> real

  class SpurGear {
    var name: string
    var modulus: real
    var teethNum: int
    var rpm: real
    var qv: int
    var width: real
    var bearingSpan: real
    var pinionOffset: real
    var enclosure: string
    var hardness: real
    var pressureAngle: real
    var grade: int
    var crowned: bool
    var adjusted: bool
    var sensitiveUse: bool
    var nitriding: bool
    var caseCarb: bool
    var material: string
    var contactRatio: Option<real>
    /** None while the attribute does not exist. */
    var workHours: Option<real>
    var numberOfCycles: Option<real>
    /** The Zw attribute a transmission writes; None until then. */
    var zw: Option<real>

    /** The constructor's assignments; a zero work_hours or number_of_cycles is not stored. */
    constructor Init(name: string, modulus: real, teethNum: int, rpm: real, qv: int, width: real,
                     bearingSpan: real, pinionOffset: real, enclosure: string, hardness: real,
                     pressureAngle: real, grade: int, workHours: real, numberOfCycles: real,
                     crowned: bool, adjusted: bool, sensitiveUse: bool, nitriding: bool,
                     caseCarb: bool, material: string)
      ensures this.name == name && this.modulus == modulus && this.teethNum == teethNum
      ensures this.rpm == rpm && this.qv == qv && this.width == width
      ensures this.bearingSpan == bearingSpan && this.pinionOffset == pinionOffset
      ensures this.enclosure == enclosure && this.hardness == hardness
      ensures this.pressureAngle == pressureAngle && this.grade == grade
      ensures this.crowned == crowned && this.adjusted == adjusted
      ensures this.sensitiveUse == sensitiveUse && this.nitriding == nitriding
      ensures this.caseCarb == caseCarb && this.material == material
      ensures contactRatio.None? && zw.None?
      ensures this.workHours == StoredIfNonZero(workHours)
      ensures this.numberOfCycles == StoredIfNonZero(numberOfCycles)
    {
      this.name := name;
      this.modulus := modulus;
      this.teethNum := teethNum;
      this.rpm := rpm;
      this.qv := qv;
      this.width := width;
      this.bearingSpan := bearingSpan;
      this.pinionOffset := pinionOffset;
      this.enclosure := enclosure;
      this.hardness := hardness;
      this.pressureAngle := pressureAngle;
      this.grade := grade;
      this.crowned := crowned;
      this.adjusted := adjusted;
      this.sensitiveUse := sensitiveUse;
      this.nitriding := nitriding;
      this.caseCarb := caseCarb;
      this.material := material;
      contactRatio := None;
      zw := None;
      this.workHours := StoredIfNonZero(workHours);
      this.numberOfCycles := StoredIfNonZero(numberOfCycles);
    }

    /** SpurGear(...): the object, or a ValueError when neither hours nor cycles are given. */
    static method Create(name: string, modulus: real, teethNum: int, rpm: real, qv: int, width: real,
                         bearingSpan: real, pinionOffset: real, enclosure: string, hardness: real,
                         pressureAngle: real, grade: int, workHours: real, numberOfCycles: real,
                         crowned: bool, adjusted: bool, sensitiveUse: bool, nitriding: bool,
                         caseCarb: bool, material: string)
      returns (g: SpurGear, outcome: Outcome)
      ensures fresh(g)
      ensures outcome == Raised(ValueError) <==> workHours == 0.0 && numberOfCycles == 0.0
      ensures outcome == Done || outcome == Raised(ValueError)
      ensures g.workHours == StoredIfNonZero(workHours)
      ensures g.numberOfCycles == StoredIfNonZero(numberOfCycles)
      ensures g.name == name && g.modulus == modulus && g.teethNum == teethNum && g.width == width
      ensures g.rpm == rpm && g.pressureAngle == pressureAngle
      ensures g.hardness == hardness && g.grade == grade
      ensures g.contactRatio.None? && g.zw.None?
    {
      g := new SpurGear.Init(name, modulus, teethNum, rpm, qv, width, bearingSpan, pinionOffset,
                             enclosure, hardness, pressureAngle, grade, workHours, numberOfCycles,
                             crowned, adjusted, sensitiveUse, nitriding, caseCarb, material);
      if workHours == 0.0 && numberOfCycles == 0.0 {
        outcome := Raised(ValueError);
      } else {
        outcome := Done;
      }
    }

    /** Attributes the constructor stores are never 0. */
    predicate HoursStored()
      reads this
    {
      (workHours.Some? ==> workHours.value != 0.0)
      && (numberOfCycles.Some? ==> numberOfCycles.value != 0.0)
    }

    /** The gear's KH at face width w. */
    function KHAt(w: real): Result<real>
      reads this
      requires teethNum > 0 && modulus > 0.0 && bearingSpan != 0.0
    {
      MulPositive(teethNum as real, modulus);
      KH(crowned, adjusted, w, PitchDiameter(teethNum, modulus), bearingSpan, pinionOffset, enclosure)
    }

    /**
     * The inner loop of the optimisation: the width becomes the larger of
     * the two minimum widths until KH changes by less than 1e-6, unless a
     * minimum width exceeds 1020 mm.
     */
    method ConvergeWidth(minBending: WidthRule, minContact: WidthRule, fuel: nat) returns (s: Convergence)
      requires teethNum > 0 && modulus > 0.0 && bearingSpan != 0.0
      modifies this`width
      ensures s.Converged? ==>
                && width == (if s.bending >= s.contact then s.bending else s.contact)
                && width <= 1020.0
                && s.bending == minBending(modulus, teethNum, s.prior)
                && s.contact == minContact(modulus, teethNum, s.prior)
                && KHAt(s.prior).Ok? && KHAt(width).Ok?
                && -0.000001 < KHAt(width).value - KHAt(s.prior).value < 0.000001
      ensures s.Diverged? ==>
                minBending(modulus, teethNum, width) > 1020.0
                || minContact(modulus, teethNum, width) > 1020.0
      ensures s.KHFailed? ==> KHAt(width).Err? && s.error == KHAt(width).error
    {
      var left := fuel;
      while true
        decreases left
      {
        if left == 0 {
          return Exhausted;
        }
        left := left - 1;
        var bending := minBending(modulus, teethNum, width);
        var contact := minContact(modulus, teethNum, width);
        var newWidth := if bending >= contact then bending else contact;
        if newWidth > 1020.0 {
          return Diverged;
        }
        var oldKH := KHAt(width);
        if oldKH.Err? {
          return KHFailed(oldKH.error);
        }
        var prior := width;
        width := newWidth;
        var newKH := KHAt(width);
        if -0.000001 < newKH.value - oldKH.value < 0.000001 {
          return Converged(bending, contact, prior);
        }
      }
    }

    /**
     * optimization: for each modulus from the largest, start at the least
     * teeth count for the pressure angle and converge the width; step to a
     * smaller modulus while b < 3 pi m, add a tooth while b > 5 pi m, record
     * the design and add a tooth while alpha > 1, and at the first alpha <= 1
     * restore modulus, teeth and width and return the selection.
     */
    method Optimize(gearRatio: real, minBending: WidthRule, minContact: WidthRule,
                    feature: string, fuel: nat) returns (r: Search)
      requires bearingSpan != 0.0
      modifies this`modulus, this`teethNum, this`width
      ensures pressureAngle != 20.0 && pressureAngle != 25.0 ==>
                r == Failed(ValueError) && modulus == old(modulus)
                && teethNum == old(teethNum) && width == old(width)
      ensures r.Found? ==>
                modulus == old(modulus) && teethNum == old(teethNum) && width == old(width)
      ensures r.Found? ==>
                (forall c :: c in r.results ==> Viable(c, gearRatio))
                && SelectOptimized(r.results, feature) == Ok(r.selection)
      ensures r.Failed? ==> r.error in {ValueError, KeyError, ZeroDivisionError, GenericException}
    {
      var initialTeeth: int;
      if pressureAngle == 20.0 {
        initialTeeth := 18;
      } else if pressureAngle == 25.0 {
        initialTeeth := 13;
      } else {
        return Failed(ValueError);
      }
      var originalTeeth, originalWidth, originalModulus := teethNum, width, modulus;
      ModuliPositive();
      DescendingIsReversed();
      var results: seq<Candidate> := [];
      var left := fuel;
      for i := 0 to |DescendingModuli|
        invariant forall c :: c in results ==> Viable(c, gearRatio)
      {
        modulus := DescendingModuli[i];
        teethNum := initialTeeth;
        width := 4.0 * Pi * gearRatio;
        var abandoned := false;
        while !abandoned
          invariant modulus in ModulusList
          invariant teethNum >= initialTeeth
          invariant forall c :: c in results ==> Viable(c, gearRatio)
          decreases left
        {
          if left == 0 {
            return OutOfFuel;
          }
          left := left - 1;
          var s := ConvergeWidth(minBending, minContact, left);
          match s
          case Exhausted =>
            return OutOfFuel;
          case KHFailed(e) =>
            return Failed(e);
          case Diverged =>
            abandoned := true;
          case Converged(bending, contact, _) =>
            if bending == 0.0 {
              return Failed(ZeroDivisionError);
            }
            var alpha := contact / bending;
            var centers := CentersDistance(modulus, teethNum, gearRatio);
            var volume := Volume(modulus, teethNum, width);
            if width < 3.0 * Pi * modulus {
              if modulus > 0.3 {
                var k := IndexOf(ModulusList, modulus);
                modulus := ModulusList[k - 1];
              } else {
                return Failed(ValueError);
              }
            } else if width > 5.0 * Pi * modulus {
              teethNum := teethNum + 1;
            } else if alpha > 1.0 {
              results := results + [Candidate(modulus, teethNum, width, centers, volume, alpha)];
              teethNum := teethNum + 1;
            } else {
              var selection := SelectOptimized(results, feature);
              if selection.Err? {
                return Failed(selection.error);
              }
              teethNum, width, modulus := originalTeeth, originalWidth, originalModulus;
              return Found(selection.value, results);
            }
        }
      }
      return NoneFound;
    }
  }
}
