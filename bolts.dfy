// Thread geometry and strength grades of the fastener package: the shared
// Bolt geometry (fasteners/bolt.py), the ISO metric bolt in its current
// (fasteners/metric_bolt.py), older (fasteners/old/metric_bolt.py) and
// bare (bolts/metric_bolt.py) revisions, and the Unified National bolt
// (fasteners/un_bolt.py) with its two-range SAE grades.

module Bolts {
  import opened Common
  import FailureCriteria

  /** The geometry every bolt has: nominal diameter d, pitch p, length L and modulus E. */
  datatype Bolt = Bolt(diameter: real, pitch: real, length: real, elasticModulus: real)

  /** The thread angle of both thread families, in degrees. */
  const ThreadAngle: real := 60.0

  /** Height of the fundamental triangle, H = p sqrt(3) / 2. */
  function Height(b: Bolt): (h: real)
    ensures b.pitch > 0.0 ==> h > 0.0
    ensures b.pitch == 0.0 ==> h == 0.0
  {
    b.pitch * Sqrt3 / 2.0
  }

  /** Root (minor) diameter d - 5H/4. */
  function RootDiam(b: Bolt): real
  {
    b.diameter - (5.0 / 4.0) * Height(b)
  }

  /** Mean diameter d - 5H/8. */
  function MeanDiam(b: Bolt): real
  {
    b.diameter - (5.0 / 8.0) * Height(b)
  }

  /** Pitch diameter d - 3H/8. */
  function PitchDiam(b: Bolt): real
  {
    b.diameter - (3.0 / 8.0) * Height(b)
  }

  /**
   * For a positive pitch the diameters nest root < mean < pitch < nominal,
   * and the mean diameter is the mean of the nominal and root diameters.
   */
  lemma DiametersOrdered(b: Bolt)
    requires b.pitch > 0.0
    ensures RootDiam(b) < MeanDiam(b) < PitchDiam(b) < b.diameter
    ensures MeanDiam(b) == (b.diameter + RootDiam(b)) / 2.0
  {
  }

  /** Head contact diameter 1.5 d, wider than the shank. */
  function HeadDiam(b: Bolt): (r: real)
    ensures b.diameter > 0.0 ==> r > b.diameter
    ensures r == 1.5 * b.diameter
  {
    1.5 * b.diameter
  }

  /**
   * Shank length L - L_T. A thread length of None (the metric gap) makes the
   * subtraction a TypeError.
   */
  function UnthreadedLength(b: Bolt, threadLength: Option<real>): (r: Result<real>)
    ensures r.Err? <==> threadLength.None?
    ensures r.Err? ==> r.error == TypeError
    ensures r.Ok? ==> r.value + threadLength.value == b.length
  {
    if threadLength.None? then Err(TypeError) else Ok(b.length - threadLength.value)
  }

  /** Area of the nominal diameter, pi d^2 / 4. */
  function NominalArea(d: real): (a: real)
    ensures d != 0.0 ==> a > 0.0
  {
    if d != 0.0 then
      SquarePositive(d);
      MulPositive(0.25 * Pi, Square(d));
      0.25 * Pi * Square(d)
    else 0.25 * Pi * Square(d)
  }

  /** A thicker bolt has a larger nominal area. */
  lemma NominalAreaGrows(d1: real, d2: real)
    requires 0.0 <= d1 < d2
    ensures NominalArea(d1) < NominalArea(d2)
  {
    SquaresOrdered(d1, d2);
    assert Square(d1) < Square(d2);
  }

  /**
   * proof_load = proof strength times stress area. A missing attribute (an
   * AttributeError from the strength, a stress area the class does not
   * define) becomes NotImplementedError; any other error of the strength
   * passes through.
   */
  function ProofLoad(proofStrength: Result<real>, stressArea: Option<real>): (r: Result<real>)
    ensures proofStrength.Err? && proofStrength.error != AttributeError ==> r == Err(proofStrength.error)
    ensures proofStrength == Err(AttributeError) ==> r == Err(NotImplementedError)
    ensures proofStrength.Ok? && stressArea.None? ==> r == Err(NotImplementedError)
    ensures r.Ok? <==> proofStrength.Ok? && stressArea.Some?
    ensures r.Ok? ==> r.value == proofStrength.value * stressArea.value
  {
    if proofStrength.Err? then
      if proofStrength.error == AttributeError then Err(NotImplementedError) else Err(proofStrength.error)
    else if stressArea.None? then Err(NotImplementedError)
    else Ok(proofStrength.value * stressArea.value)
  }

  // ---------------------------------------------------------------- thread areas

  /** Root-depth coefficients of the two thread families, and the pitch-diameter one. */
  const MetricRootDepth: real := 1.226869
  const UnRootDepth: real := 1.299038
  const PitchDepth: real := 0.649519

  /** Tensile stress area: pi dt^2 / 4 with dt the mean of the root and pitch diameters. */
  function StressArea(d: real, p: real, rootDepth: real): real
  {
    var dr := d - rootDepth * p;
    var dp := d - PitchDepth * p;
    var dt := 0.5 * (dr + dp);
    0.25 * Pi * Square(dt)
  }

  /** Minor area: pi dr^2 / 4. */
  function MinorArea(d: real, p: real, rootDepth: real): real
  {
    var dr := d - rootDepth * p;
    0.25 * Pi * Square(dr)
  }

  /**
   * For a positive pitch and a real root diameter the stress area exceeds
   * the minor area, in both thread families.
   */
  lemma StressAreaExceedsMinor(d: real, p: real, rootDepth: real)
    requires rootDepth == MetricRootDepth || rootDepth == UnRootDepth
    requires p > 0.0 && d - rootDepth * p >= 0.0
    ensures StressArea(d, p, rootDepth) > MinorArea(d, p, rootDepth)
  {
    var dr := d - rootDepth * p;
    var dt := 0.5 * (dr + (d - PitchDepth * p));
    assert dt - dr == 0.5 * (rootDepth - PitchDepth) * p;
    MulPositive(0.5 * (rootDepth - PitchDepth), p);
    SquaresOrdered(dr, dt);
    assert Square(dr) < Square(dt);
  }

  // ---------------------------------------------------------------- metric bolts

  /** One row of a grade table: diameter range, proof, tensile and yield strengths. */
  datatype Grade = Grade(low: real, high: real, proofStrength: real, tensileStrength: real, yieldStrength: real)

  /** ISO 898-1 property classes (MPa, mm). */
  function MetricGrades(name: string): Option<Grade>
  {
    if name == "4.6" then Some(Grade(5.0, 36.0, 225.0, 400.0, 240.0))
    else if name == "4.8" then Some(Grade(1.6, 16.0, 310.0, 420.0, 340.0))
    else if name == "5.8" then Some(Grade(5.0, 24.0, 380.0, 520.0, 420.0))
    else if name == "8.8" then Some(Grade(16.0, 36.0, 600.0, 830.0, 660.0))
    else if name == "9.8" then Some(Grade(1.6, 16.0, 650.0, 900.0, 720.0))
    else if name == "10.9" then Some(Grade(5.0, 36.0, 830.0, 1040.0, 940.0))
    else if name == "12.9" then Some(Grade(1.6, 36.0, 970.0, 1220.0, 1100.0))
    else None
  }

  /** Every metric class has a proper diameter range and proof < yield < tensile. */
  lemma MetricGradesOrdered(name: string)
    requires MetricGrades(name).Some?
    ensures var g := MetricGrades(name).value;
            g.low < g.high && g.proofStrength < g.yieldStrength < g.tensileStrength
  {
  }

  /** A metric bolt: its geometry, grade name and the yield strength the constructor settled on. */
  datatype MetricBolt = MetricBolt(bolt: Bolt, grade: string, yieldStrength: real, givenYield: bool)

  /**
   * The current constructor: Sy == 0 means "steel", taking the yield from
   * the grade table (an unknown grade is then a KeyError); any other Sy is
   * kept and marks the bolt as non-steel. With Sy given the grade is not
   * looked up, so an unknown grade is accepted.
   */
  function NewMetricBolt(d: real, p: real, length: real, grade: string, e: real, sy: real)
    : (r: Result<MetricBolt>)
    ensures r.Err? <==> sy == 0.0 && MetricGrades(grade).None?
    ensures r.Err? ==> r.error == KeyError
    ensures r.Ok? ==> r.value.bolt == Bolt(d, p, length, e) && r.value.grade == grade
    ensures r.Ok? ==> (r.value.givenYield <==> sy != 0.0)
    ensures r.Ok? && sy == 0.0 ==> r.value.yieldStrength == MetricGrades(grade).value.yieldStrength
    ensures r.Ok? && sy != 0.0 ==> r.value.yieldStrength == sy
  {
    if sy == 0.0 then
      var g := MetricGrades(grade);
      if g.None? then Err(KeyError) else Ok(MetricBolt(Bolt(d, p, length, e), grade, g.value.yieldStrength, false))
    else Ok(MetricBolt(Bolt(d, p, length, e), grade, sy, true))
  }

  /**
   * The older constructor: Sy is None for steel, so a given Sy of 0 is kept
   * as a yield strength of 0.
   */
  function NewOldMetricBolt(d: real, p: real, length: real, grade: string, e: real, sy: Option<real>)
    : (r: Result<MetricBolt>)
    ensures r.Err? <==> sy.None? && MetricGrades(grade).None?
    ensures r.Err? ==> r.error == KeyError
    ensures r.Ok? ==> r.value.bolt == Bolt(d, p, length, e) && r.value.grade == grade
    ensures r.Ok? ==> (r.value.givenYield <==> sy.Some?)
    ensures r.Ok? && sy.None? ==> r.value.yieldStrength == MetricGrades(grade).value.yieldStrength
    ensures r.Ok? && sy.Some? ==> r.value.yieldStrength == sy.value
  {
    if sy.None? then
      var g := MetricGrades(grade);
      if g.None? then Err(KeyError) else Ok(MetricBolt(Bolt(d, p, length, e), grade, g.value.yieldStrength, false))
    else Ok(MetricBolt(Bolt(d, p, length, e), grade, sy.value, true))
  }

  /**
   * The two constructors agree once "no Sy" is spelled 0 in the new one and
   * None in the old one; they differ only on an explicit Sy of 0.
   */
  lemma MetricConstructorsAgree(d: real, p: real, length: real, grade: string, e: real, sy: real)
    ensures NewMetricBolt(d, p, length, grade, e, sy)
            == NewOldMetricBolt(d, p, length, grade, e, if sy == 0.0 then None else Some(sy))
    ensures NewOldMetricBolt(d, p, length, grade, e, Some(0.0)) == Ok(MetricBolt(Bolt(d, p, length, e), grade, 0.0, true))
  {
  }

  /**
   * Metric thread length L_T: 2d + 6 for L <= 125 and d <= 48, 2d + 12 for
   * 125 < L <= 200, 2d + 25 above 200, and None (no branch taken) for a
   * short bolt thicker than 48 mm.
   */
  function MetricThreadLength(d: real, length: real): (r: Option<real>)
    ensures r.None? <==> length <= 125.0 && d > 48.0
    ensures r.Some? ==> r.value - 2.0 * d in {6.0, 12.0, 25.0}
  {
    if length <= 125.0 && d <= 48.0 then Some(2.0 * d + 6.0)
    else if 125.0 < length <= 200.0 then Some(2.0 * d + 12.0)
    else if length > 200.0 then Some(2.0 * d + 25.0)
    else None
  }

  /** A longer bolt of the same diameter never gets a shorter thread. */
  lemma MetricThreadLengthMonotone(d: real, l1: real, l2: real)
    requires l1 <= l2
    requires MetricThreadLength(d, l1).Some? && MetricThreadLength(d, l2).Some?
    ensures MetricThreadLength(d, l1).value <= MetricThreadLength(d, l2).value
  {
  }

  /** proof_strength: the table Sp for steel, 0.85 Sy for a given yield. */
  function MetricProofStrength(b: MetricBolt): (r: Result<real>)
    ensures b.givenYield ==> r == Ok(0.85 * b.yieldStrength)
    ensures !b.givenYield ==> (r.Ok? <==> MetricGrades(b.grade).Some?)
    ensures !b.givenYield && r.Ok? ==> r.value == MetricGrades(b.grade).value.proofStrength
    ensures r.Err? ==> r.error == KeyError
  {
    if b.givenYield then Ok(0.85 * b.yieldStrength)
    else
      var g := MetricGrades(b.grade);
      if g.None? then Err(KeyError) else Ok(g.value.proofStrength)
  }

  /** tensile_strength: the table Sut, a KeyError for an unknown grade. */
  function MetricTensileStrength(b: MetricBolt): (r: Result<real>)
    ensures r.Ok? <==> MetricGrades(b.grade).Some?
    ensures r.Ok? ==> r.value == MetricGrades(b.grade).value.tensileStrength
    ensures r.Err? ==> r.error == KeyError
  {
    var g := MetricGrades(b.grade);
    if g.None? then Err(KeyError) else Ok(g.value.tensileStrength)
  }

  /**
   * A steel bolt built by either constructor has a proof strength below its
   * yield strength, which is below its tensile strength.
   */
  lemma SteelProofBelowYieldAndTensile(d: real, p: real, length: real, grade: string, e: real)
    requires NewMetricBolt(d, p, length, grade, e, 0.0).Ok?
    ensures var b := NewMetricBolt(d, p, length, grade, e, 0.0).value;
            MetricProofStrength(b).Ok? && MetricTensileStrength(b).Ok?
            && MetricProofStrength(b).value < b.yieldStrength < MetricTensileStrength(b).value
  {
    MetricGradesOrdered(grade);
  }

  /** A positive given yield strength puts the proof strength below it. */
  lemma GivenYieldProofBelowYield(b: MetricBolt)
    requires b.givenYield && b.yieldStrength > 0.0
    ensures MetricProofStrength(b).value < b.yieldStrength
  {
  }

  // ---------------------------------------------------------------- Unified National bolts

  /** An SAE grade rated over one diameter range, or over two (small and large bolts). */
  datatype UnRating = OneRange(only: Grade) | TwoRanges(small: Grade, large: Grade)

  /** SAE J429 grades (kpsi, inches). */
  function UnGrades(name: string): Option<UnRating>
  {
    if name == "1" then Some(OneRange(Grade(0.25, 1.5, 33.0, 60.0, 36.0)))
    else if name == "2" then Some(TwoRanges(Grade(0.25, 0.75, 55.0, 74.0, 57.0), Grade(7.0 / 8.0, 1.5, 33.0, 60.0, 36.0)))
    else if name == "4" then Some(OneRange(Grade(0.25, 1.5, 65.0, 115.0, 100.0)))
    else if name == "5" then Some(TwoRanges(Grade(0.25, 1.0, 85.0, 120.0, 92.0), Grade(9.0 / 8.0, 1.5, 74.0, 105.0, 81.0)))
    else if name == "5.2" then Some(OneRange(Grade(0.25, 1.0, 85.0, 120.0, 92.0)))
    else if name == "7" then Some(OneRange(Grade(0.25, 1.5, 105.0, 133.0, 115.0)))
    else if name == "8" then Some(OneRange(Grade(0.25, 1.0, 120.0, 150.0, 130.0)))
    else None
  }

  /** A UN bolt: its geometry (pitch = 1 / tpi), threads per inch and grade name. */
  datatype UnBolt = UnBolt(bolt: Bolt, tpi: real, grade: string)

  /** The constructor passes 1 / tpi as the pitch; zero threads per inch is a ZeroDivisionError. */
  function NewUnBolt(d: real, tpi: real, length: real, grade: string, e: real): (r: Result<UnBolt>)
    ensures r.Err? <==> tpi == 0.0
    ensures r.Err? ==> r.error == ZeroDivisionError
    ensures r.Ok? ==> r.value.bolt.pitch * tpi == 1.0 && r.value.tpi == tpi && r.value.grade == grade
    ensures r.Ok? ==> r.value.bolt.diameter == d && r.value.bolt.length == length && r.value.bolt.elasticModulus == e
  {
    if tpi == 0.0 then Err(ZeroDivisionError) else Ok(UnBolt(Bolt(d, 1.0 / tpi, length, e), tpi, grade))
  }

  /** UN thread length: 2d + 1/4 up to 6 in, 2d + 1/2 beyond. */
  function UnThreadLength(d: real, length: real): (r: real)
    ensures length <= 6.0 ==> r - 2.0 * d == 0.25
    ensures length > 6.0 ==> r - 2.0 * d == 0.5
  {
    if length <= 6.0 then 2.0 * d + 0.25 else 2.0 * d + 0.5
  }

  /** A longer UN bolt never gets a shorter thread. */
  lemma UnThreadLengthMonotone(d: real, l1: real, l2: real)
    requires l1 <= l2
    ensures UnThreadLength(d, l1) <= UnThreadLength(d, l2)
  {
  }

  function InRange(g: Grade, d: real): bool
  {
    g.low < d < g.high
  }

  /**
   * The grade row a strength is read from: the single row, or the first of
   * the two ranges that holds d strictly (none is a ValueError); an unknown
   * grade is a KeyError.
   */
  function UnRow(b: UnBolt): (r: Result<Grade>)
    ensures UnGrades(b.grade).None? ==> r == Err(KeyError)
    ensures r.Err? && UnGrades(b.grade).Some? ==> r.error == ValueError
    ensures r.Ok? ==> UnGrades(b.grade).Some?
    ensures UnGrades(b.grade).Some? && UnGrades(b.grade).value.OneRange? ==> r == Ok(UnGrades(b.grade).value.only)
    ensures UnGrades(b.grade).Some? && UnGrades(b.grade).value.TwoRanges? ==>
              var t := UnGrades(b.grade).value;
              (r.Err? <==> !InRange(t.small, b.bolt.diameter) && !InRange(t.large, b.bolt.diameter))
              && (InRange(t.small, b.bolt.diameter) ==> r == Ok(t.small))
              && (!InRange(t.small, b.bolt.diameter) && InRange(t.large, b.bolt.diameter) ==> r == Ok(t.large))
  {
    var rating := UnGrades(b.grade);
    if rating.None? then Err(KeyError)
    else match rating.value
      case OneRange(g) => Ok(g)
      case TwoRanges(small, large) =>
        // the loop over the two ranges returns at the first that holds d
        if InRange(small, b.bolt.diameter) then Ok(small)
        else if InRange(large, b.bolt.diameter) then Ok(large)
        else Err(ValueError)
  }

  /** proof_strength: Sp of the row UnRow selects. */
  function UnProofStrength(b: UnBolt): (r: Result<real>)
    ensures UnGrades(b.grade).None? ==> r == Err(KeyError)
    ensures UnGrades(b.grade).Some? && UnGrades(b.grade).value.OneRange? ==>
              r == Ok(UnGrades(b.grade).value.only.proofStrength)
    ensures UnGrades(b.grade).Some? && UnGrades(b.grade).value.TwoRanges? ==>
              var t := UnGrades(b.grade).value;
              (r.Err? <==> !InRange(t.small, b.bolt.diameter) && !InRange(t.large, b.bolt.diameter))
              && (r.Err? ==> r.error == ValueError)
              && (InRange(t.small, b.bolt.diameter) ==> r == Ok(t.small.proofStrength))
              && (!InRange(t.small, b.bolt.diameter) && InRange(t.large, b.bolt.diameter) ==>
                    r == Ok(t.large.proofStrength))
  {
    var row := UnRow(b);
    if row.Err? then Err(row.error) else Ok(row.value.proofStrength)
  }

  /** tensile_strength as written: a two-range grade returns the row's Sp, not its Sut. */
  function UnTensileStrengthAsWritten(b: UnBolt): (r: Result<real>)
    ensures UnGrades(b.grade).Some? && UnGrades(b.grade).value.TwoRanges? ==> r == UnProofStrength(b)
    ensures UnGrades(b.grade).Some? && UnGrades(b.grade).value.OneRange? ==>
              r == Ok(UnGrades(b.grade).value.only.tensileStrength)
    ensures UnGrades(b.grade).None? ==> r == Err(KeyError)
  {
    var rating := UnGrades(b.grade);
    var row := UnRow(b);
    if row.Err? then Err(row.error)
    else if rating.value.TwoRanges? then Ok(row.value.proofStrength)
    else Ok(row.value.tensileStrength)
  }

  /** A grade-5 bolt of 1/2 in reports a tensile strength of 85 kpsi, its proof strength, instead of 120. */
  lemma UnTensileAsWrittenReturnsProof()
    ensures var b := UnBolt(Bolt(0.5, 1.0 / 13.0, 3.0, 30.0), 13.0, "5");
            UnTensileStrengthAsWritten(b) == Ok(85.0) && UnTensileStrength(b) == Ok(120.0)
  {
  }

  /** tensile_strength, corrected: Sut of the row UnRow selects. */
  function UnTensileStrength(b: UnBolt): (r: Result<real>)
    ensures UnGrades(b.grade).None? ==> r == Err(KeyError)
    ensures r.Err? <==> UnProofStrength(b).Err?
    ensures r.Err? ==> r.error == UnProofStrength(b).error
    ensures UnGrades(b.grade).Some? && UnGrades(b.grade).value.OneRange? ==>
              r == Ok(UnGrades(b.grade).value.only.tensileStrength)
    ensures UnGrades(b.grade).Some? && UnGrades(b.grade).value.TwoRanges? ==>
              var t := UnGrades(b.grade).value;
              (InRange(t.small, b.bolt.diameter) ==> r == Ok(t.small.tensileStrength))
              && (!InRange(t.small, b.bolt.diameter) && InRange(t.large, b.bolt.diameter) ==>
                    r == Ok(t.large.tensileStrength))
  {
    var row := UnRow(b);
    if row.Err? then Err(row.error) else Ok(row.value.tensileStrength)
  }

  /** Wherever a UN bolt is rated, its corrected tensile strength exceeds its proof strength. */
  lemma UnProofBelowTensile(b: UnBolt)
    requires UnProofStrength(b).Ok?
    ensures UnProofStrength(b).value < UnTensileStrength(b).value
  {
  }

  /**
   * A diameter on a range boundary, or in the gap between the two ranges,
   * is refused with ValueError: grade 5 at 1 in, grade 2 at 13/16 in.
   */
  lemma UnBoundaryRejected(tpi: real, length: real, e: real)
    ensures UnProofStrength(UnBolt(Bolt(1.0, 1.0 / 8.0, length, e), tpi, "5")) == Err(ValueError)
    ensures UnProofStrength(UnBolt(Bolt(0.8125, 1.0 / 10.0, length, e), tpi, "2")) == Err(ValueError)
    ensures UnProofStrength(UnBolt(Bolt(0.25, 1.0 / 20.0, length, e), tpi, "1")) == Ok(33.0)
  {
  }
}
