// Shared vocabulary of the model: Python's optional values, the exceptions
// the toolbox raises, the float-or-symbolic distinction and the constants.

module Common {

  datatype Option<T> = None | Some(value: T)

  /** The Python exceptions the toolbox raises, by class. */
  datatype Error =
    | ValueError
    | KeyError
    | TypeError
    | AttributeError
    | NotImplementedError
    | GearTypeError
    | NotInRangeError
    | GenericException
    | ZeroDivisionError
    | IndexError

  datatype Result<T> = Ok(value: T) | Err(error: Error)
  {
    predicate IsFailure() { Err? }
  }

  /** Outcome of a state-changing call that returns nothing. */
  datatype Outcome = Done | Raised(error: Error)

  /**
   * A quantity that is either a Python float or something else (a sympy
   * symbol or expression, or an int): the `isinstance(x, float)` guards of
   * the design checks only look at the first kind.
   */
  datatype Num = Concrete(v: real) | Symbolic

  /** math.pi and sqrt(3) as the double literals Python uses. */
  const Pi: real := 3.141592653589793
  const Sqrt3: real := 1.7320508075688772

  /** Sum of a sequence of reals, left to right. */
  function Sum(s: seq<real>): real
  {
    if s == [] then 0.0 else Sum(s[..|s| - 1]) + s[|s| - 1]
  }

  /** Python's built-in min over a non-empty list. */
  function Min(s: seq<real>): (m: real)
    requires |s| > 0
    ensures m in s
    ensures forall i :: 0 <= i < |s| ==> m <= s[i]
  {
    if |s| == 1 then s[0]
    else
      var rest := Min(s[1..]);
      assert forall i :: 1 <= i < |s| ==> s[i] == s[1..][i - 1];
      if s[0] <= rest then s[0] else rest
  }

  /** d ** 4. */
  function Fourth(x: real): real
  {
    x * x * x * x
  }

  lemma FourthPositive(x: real)
    requires x > 0.0
    ensures Fourth(x) > 0.0
  {
    calc {
      Fourth(x);
      x * x * x * x;
    >
      0.0;
    }
  }

  /** x ** 2. */
  function Square(x: real): real
  {
    x * x
  }

  lemma SquarePositive(x: real)
    requires x != 0.0
    ensures Square(x) > 0.0
  {
    var y := if x > 0.0 then x else -x;
    MulPositive(y, y);
    calc {
      Square(x);
      x * x;
      y * y;
    >
      0.0;
    }
  }

  lemma MulPositive(a: real, b: real)
    requires a > 0.0 && b > 0.0
    ensures a * b > 0.0
  {
  }

  /** Squaring is strictly increasing on the non-negative reals. */
  lemma SquaresOrdered(x: real, y: real)
    requires 0.0 <= x < y
    ensures x * x < y * y
  {
    MulPositive(y - x, y + x);
    assert (y - x) * (y + x) == y * y - x * x;
  }

  lemma DivPositive(a: real, b: real)
    requires a > 0.0 && b > 0.0
    ensures a / b > 0.0
  {
  }
}
