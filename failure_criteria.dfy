// The fatigue failure criteria of me_toolbox/fatigue/failure_criteria.py and
// of its earlier revision fatigue/failure_criteria.py (the same formulas,
// without the None handling): safety factors from the alternating and mean
// equivalent stresses, as in Shigley's Mechanical Engineering Design.

module FailureCriteria {
  import opened Common

  /** A square-root function, supplied by the caller (sympy's sqrt). */
  ghost predicate IsSquareRoot(sqrt: real -> real)
  {
    forall x :: x >= 0.0 ==> sqrt(x) >= 0.0 && sqrt(x) * sqrt(x) == x
  }

  function Abs(x: real): real
  {
    if x < 0.0 then -x else x
  }

  /**
   * modified_goodman (with the ultimate strength) and soderberg (with the
   * yield strength): 1 / (alt/Se + mean/S). A negative mean stress is a
   * generic Exception, a zero denominator a ZeroDivisionError.
   */
  function LineCriterion(strength: real, endurance: real, alt: real, mean: real): (r: Result<real>)
    requires strength != 0.0 && endurance != 0.0
    ensures mean < 0.0 ==> r == Err(GenericException)
    ensures r.Ok? <==> mean >= 0.0 && alt / endurance + mean / strength != 0.0
    ensures r.Err? && mean >= 0.0 ==> r.error == ZeroDivisionError
    ensures r.Ok? ==> r.value * (alt / endurance) + r.value * (mean / strength) == 1.0
  {
    if mean < 0.0 then Err(GenericException)
    else
      var d := alt / endurance + mean / strength;
      if d == 0.0 then Err(ZeroDivisionError)
      else
        var n := 1.0 / d;
        assert n * (alt / endurance) + n * (mean / strength) == n * d;
        Ok(n)
  }

  lemma ReciprocalAntitone(x: real, y: real)
    requires 0.0 < x <= y
    ensures 1.0 / y <= 1.0 / x
  {
  }

  lemma DivideMonotone(mean: real, small: real, large: real)
    requires mean >= 0.0 && 0.0 < small <= large
    ensures mean / large <= mean / small
  {
    ReciprocalAntitone(small, large);
    assert mean / large == mean * (1.0 / large);
    assert mean / small == mean * (1.0 / small);
  }

  /** Soderberg's line lies inside Goodman's: a weaker strength never gives a larger factor. */
  lemma SoderbergNoMoreThanGoodman(yieldStrength: real, ultimate: real, endurance: real,
                                   alt: real, mean: real)
    requires 0.0 < yieldStrength <= ultimate && endurance > 0.0
    requires alt >= 0.0 && mean >= 0.0 && alt + mean > 0.0
    ensures LineCriterion(yieldStrength, endurance, alt, mean).Ok?
    ensures LineCriterion(ultimate, endurance, alt, mean).Ok?
    ensures LineCriterion(yieldStrength, endurance, alt, mean).value
            <= LineCriterion(ultimate, endurance, alt, mean).value
  {
    DivideMonotone(mean, yieldStrength, ultimate);
    var b := alt / endurance;
    var du := b + mean / ultimate;
    var dy := b + mean / yieldStrength;
    assert b >= 0.0;
    assert du > 0.0 by {
      if alt > 0.0 {
        DivPositive(alt, endurance);
      } else {
        DivPositive(mean, ultimate);
      }
    }
    assert du <= dy;
    ReciprocalAntitone(du, dy);
  }

  /**
   * langer_static_yield: Sy / (alt + mean) in the first quadrant, Sy / (alt
   * - mean) otherwise; a zero denominator is a ZeroDivisionError.
   */
  function Langer(yieldStrength: real, alt: real, mean: real): (r: Result<real>)
    ensures r.Ok? <==> alt + Abs(mean) != 0.0
    ensures r.Err? ==> r.error == ZeroDivisionError
    ensures r.Ok? ==> r.value * (alt + Abs(mean)) == yieldStrength
  {
    var d := if mean > 0.0 then alt + mean else alt - mean;
    if d == 0.0 then Err(ZeroDivisionError) else Ok(yieldStrength / d)
  }

  /** Langer only sees the size of the mean stress, not its sign. */
  lemma LangerIgnoresMeanSign(yieldStrength: real, alt: real, mean: real)
    ensures Langer(yieldStrength, alt, mean) == Langer(yieldStrength, alt, -mean)
  {
  }

  /**
   * gerber: with alpha = Su/mean and beta = alt/Se,
   * 0.5 alpha^2 beta (-1 + sqrt(1 + 4 alpha^-2 beta^-2)). A negative mean
   * is a generic Exception; a zero mean or alternating stress a
   * ZeroDivisionError.
   */
  function Gerber(ultimate: real, endurance: real, alt: real, mean: real, sqrt: real -> real)
    : (r: Result<real>)
    requires ultimate != 0.0 && endurance != 0.0
    requires IsSquareRoot(sqrt)
    ensures mean < 0.0 ==> r == Err(GenericException)
    ensures r.Ok? <==> mean > 0.0 && alt != 0.0
    ensures r.Err? && mean >= 0.0 ==> r.error == ZeroDivisionError
    ensures r.Ok? ==>
              r.value * (alt / endurance) + (r.value * (mean / ultimate)) * (r.value * (mean / ultimate)) == 1.0
  {
    if mean < 0.0 then Err(GenericException)
    else if mean == 0.0 then Err(ZeroDivisionError)
    else
      var alpha := ultimate / mean;
      var beta := alt / endurance;
      if beta == 0.0 then Err(ZeroDivisionError)
      else
        var inner := 1.0 + 4.0 * (1.0 / (alpha * alpha)) * (1.0 / (beta * beta));
        GerberRoot(alpha, beta, inner, sqrt);
        var n := 0.5 * (alpha * alpha) * beta * (-1.0 + sqrt(inner));
        GerberSolves(alpha, beta, sqrt(inner), n);
        assert mean / ultimate == 1.0 / alpha;
        Ok(n)
  }

  lemma GerberRoot(alpha: real, beta: real, inner: real, sqrt: real -> real)
    requires alpha != 0.0 && beta != 0.0 && IsSquareRoot(sqrt)
    requires inner == 1.0 + 4.0 * (1.0 / (alpha * alpha)) * (1.0 / (beta * beta))
    ensures sqrt(inner) * sqrt(inner) == 1.0 + 4.0 / ((alpha * alpha) * (beta * beta))
  {
    var a2, b2 := alpha * alpha, beta * beta;
    assert a2 > 0.0 && b2 > 0.0;
    assert (1.0 / a2) * (1.0 / b2) == 1.0 / (a2 * b2);
    assert inner >= 0.0;
  }

  /** n = 0.5 a^2 b (s - 1) with s^2 = 1 + 4/(a^2 b^2) solves n b + (n/a)^2 = 1. */
  lemma GerberSolves(alpha: real, beta: real, s: real, n: real)
    requires alpha != 0.0 && beta != 0.0
    requires s * s == 1.0 + 4.0 / ((alpha * alpha) * (beta * beta))
    requires n == 0.5 * (alpha * alpha) * beta * (-1.0 + s)
    ensures n * beta + (n * (1.0 / alpha)) * (n * (1.0 / alpha)) == 1.0
  {
    var k := (alpha * alpha) * (beta * beta);
    assert k != 0.0 by {
      MulPositive(alpha * alpha, beta * beta);
    }
    var t := s - 1.0;
    assert n * (1.0 / alpha) == 0.5 * alpha * beta * t;
    calc {
      n * beta + (n * (1.0 / alpha)) * (n * (1.0 / alpha));
      0.5 * (alpha * alpha) * beta * t * beta + (0.5 * alpha * beta * t) * (0.5 * alpha * beta * t);
      0.25 * k * (2.0 * t + t * t);
      { assert 2.0 * t + t * t == s * s - 1.0; }
      0.25 * k * (s * s - 1.0);
      0.25 * k * (4.0 / k);
      1.0;
    }
  }

  /**
   * asme_elliptic: sqrt(1 / ((alt/Se)^2 + (mean/Sy)^2)). A negative mean is
   * a generic Exception, a zero denominator a ZeroDivisionError.
   */
  function AsmeElliptic(yieldStrength: real, endurance: real, alt: real, mean: real,
                        sqrt: real -> real): (r: Result<real>)
    requires yieldStrength != 0.0 && endurance != 0.0
    requires IsSquareRoot(sqrt)
    ensures mean < 0.0 ==> r == Err(GenericException)
    ensures r.Ok? <==> mean >= 0.0 && (alt != 0.0 || mean != 0.0)
    ensures r.Err? && mean >= 0.0 ==> r.error == ZeroDivisionError
    ensures r.Ok? ==>
              r.value >= 0.0
              && (r.value * (alt / endurance)) * (r.value * (alt / endurance))
                 + (r.value * (mean / yieldStrength)) * (r.value * (mean / yieldStrength)) == 1.0
  {
    if mean < 0.0 then Err(GenericException)
    else if alt == 0.0 && mean == 0.0 then
      // the denominator (alt/Se)^2 + (mean/Sy)^2 vanishes exactly here
      Err(ZeroDivisionError)
    else
      var b := alt / endurance;
      var c := mean / yieldStrength;
      var q := b * b + c * c;
      assert q > 0.0 by {
        assert b != 0.0 || c != 0.0;
        SumOfSquaresPositive(b, c);
      }
      var n := sqrt(1.0 / q);
      EllipseSolves(b, c, q, n);
      Ok(n)
  }

  lemma SquareSign(x: real)
    ensures x != 0.0 ==> x * x > 0.0
  {
    if x < 0.0 {
      MulPositive(-x, -x);
      assert (-x) * (-x) == x * x;
    } else if x > 0.0 {
      MulPositive(x, x);
    }
  }

  lemma SumOfSquaresPositive(b: real, c: real)
    requires b != 0.0 || c != 0.0
    ensures b * b + c * c > 0.0
  {
    SquareSign(b);
    SquareSign(c);
    if b == 0.0 {
      assert b * b == 0.0;
    }
    if c == 0.0 {
      assert c * c == 0.0;
    }
  }

  lemma EllipseSolves(b: real, c: real, q: real, n: real)
    requires q == b * b + c * c && q > 0.0
    requires n * n == 1.0 / q
    ensures (n * b) * (n * b) + (n * c) * (n * c) == 1.0
  {
    calc {
      (n * b) * (n * b) + (n * c) * (n * c);
      (n * n) * (b * b + c * c);
      (1.0 / q) * q;
      1.0;
    }
  }

  // ---------------------------------------------------------------------
  // get_safety_factor of the later revision

  function LowerChar(c: char): char
  {
    if 'A' <= c <= 'Z' then (c as int + 32) as char else c
  }

  /** str.lower() on the ASCII letters. */
  function Lower(s: string): (t: string)
    ensures |t| == |s|
    ensures forall i :: 0 <= i < |s| ==> t[i] == LowerChar(s[i])
  {
    if s == [] then [] else [LowerChar(s[0])] + Lower(s[1..])
  }

  lemma {:induction false} LowerIdempotent(s: string)
    ensures Lower(Lower(s)) == Lower(s)
  {
    if s != [] {
      LowerIdempotent(s[1..]);
      assert Lower(s)[1..] == Lower(s[1..]);
    }
  }

  /** The criteria a caller may name, lower-cased. */
  const CriterionNames: set<string> := {"modified goodman", "soderberg", "gerber", "asme-elliptic"}

  /** The three formulas of the criteria, so that one strength-optional wrapper serves them. */
  datatype Formula = Line | GerberParabola | AsmeEllipse

  function Evaluate(formula: Formula, strength: real, endurance: real, alt: real, mean: real,
                    sqrt: real -> real): Result<real>
    requires strength != 0.0 && endurance != 0.0 && IsSquareRoot(sqrt)
  {
    match formula
    case Line => LineCriterion(strength, endurance, alt, mean)
    case GerberParabola => Gerber(strength, endurance, alt, mean, sqrt)
    case AsmeEllipse => AsmeElliptic(strength, endurance, alt, mean, sqrt)
  }

  /**
   * The later revision's criteria: a negative mean stress raises before the
   * strength is looked at, and a missing strength gives None.
   */
  function Optional(formula: Formula, strength: Option<real>, endurance: real, alt: real, mean: real,
                    sqrt: real -> real): (r: Result<Option<real>>)
    requires endurance != 0.0 && IsSquareRoot(sqrt)
    requires strength.Some? ==> strength.value != 0.0
    ensures mean < 0.0 ==> r == Err(GenericException)
    ensures mean >= 0.0 && strength.None? ==> r == Ok(None)
    ensures mean >= 0.0 && strength.Some? ==>
              var v := Evaluate(formula, strength.value, endurance, alt, mean, sqrt);
              (r.Ok? <==> v.Ok?) && (r.Ok? ==> r.value == Some(v.value))
  {
    if mean < 0.0 then Err(GenericException)
    else if strength.None? then Ok(None)
    else
      var v := Evaluate(formula, strength.value, endurance, alt, mean, sqrt);
      if v.Err? then Err(v.error) else Ok(Some(v.value))
  }

  /**
   * get_safety_factor: above a zero mean stress the named criterion (all
   * four are evaluated first) and a ValueError for an unknown name; at or
   * below it Se/alt. The second result is always Langer's, None without a
   * yield strength.
   */
  function GetSafetyFactor(yieldStrength: Option<real>, ultimate: Option<real>, endurance: real,
                           alt: real, mean: real, criterion: string, sqrt: real -> real)
    : (r: Result<(Option<real>, Option<real>)>)
    requires endurance != 0.0 && IsSquareRoot(sqrt)
    requires yieldStrength.Some? ==> yieldStrength.value != 0.0
    requires ultimate.Some? ==> ultimate.value != 0.0
    ensures mean > 0.0 && Lower(criterion) !in CriterionNames ==> r.Err?
    ensures mean <= 0.0 && alt != 0.0 && r.Ok? ==> r.value.0 == Some(endurance / alt)
    ensures r.Ok? && yieldStrength.None? ==> r.value.1 == None
    ensures r.Ok? && yieldStrength.Some? ==>
              Langer(yieldStrength.value, alt, mean).Ok?
              && r.value.1 == Some(Langer(yieldStrength.value, alt, mean).value)
    ensures r.Ok? && mean > 0.0 && Lower(criterion) == "modified goodman" ==>
              Optional(Line, ultimate, endurance, alt, mean, sqrt) == Ok(r.value.0)
    ensures r.Ok? && mean > 0.0 && Lower(criterion) == "soderberg" ==>
              Optional(Line, yieldStrength, endurance, alt, mean, sqrt) == Ok(r.value.0)
    ensures r.Ok? && mean > 0.0 && Lower(criterion) == "gerber" ==>
              Optional(GerberParabola, ultimate, endurance, alt, mean, sqrt) == Ok(r.value.0)
    ensures r.Ok? && mean > 0.0 && Lower(criterion) == "asme-elliptic" ==>
              Optional(AsmeEllipse, yieldStrength, endurance, alt, mean, sqrt) == Ok(r.value.0)
  {
    var nF: Result<Option<real>> :=
      if mean > 0.0 then
        var goodman := Optional(Line, ultimate, endurance, alt, mean, sqrt);
        var soderberg := Optional(Line, yieldStrength, endurance, alt, mean, sqrt);
        var gerber := Optional(GerberParabola, ultimate, endurance, alt, mean, sqrt);
        var asme := Optional(AsmeEllipse, yieldStrength, endurance, alt, mean, sqrt);
        if goodman.Err? then goodman
        else if soderberg.Err? then soderberg
        else if gerber.Err? then gerber
        else if asme.Err? then asme
        else
          var key := Lower(criterion);
          if key == "modified goodman" then goodman
          else if key == "soderberg" then soderberg
          else if key == "gerber" then gerber
          else if key == "asme-elliptic" then asme
          else Err(ValueError)
      else if alt == 0.0 then Err(ZeroDivisionError)
      else Ok(Some(endurance / alt));
    if nF.Err? then Err(nF.error)
    else if yieldStrength.None? then Ok((nF.value, None))
    else
      var nl := Langer(yieldStrength.value, alt, mean);
      if nl.Err? then Err(nl.error) else Ok((nF.value, Some(nl.value)))
  }
}
