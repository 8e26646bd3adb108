// Input and unit helpers of me_toolbox/tools/helpers.py: keyword parsing
// against a field table, unit conversions and percent normalisation.

module Helpers {
  import opened Common

  // ---------------------------------------------------------------------
  // percent_to_decimal
  // ---------------------------------------------------------------------

  /** A value of 1 or more is read as a percentage, anything below as a decimal fraction. */
  function PercentToDecimal(x: real): (r: real)
    ensures x >= 1.0 ==> r * 100.0 == x
    ensures x < 1.0 ==> r == x
  {
    if x >= 1.0 then x / 100.0 else x
  }

  /** The percentage and decimal spellings of one fraction below 1 agree. */
  lemma PercentAndDecimalAgree(p: real)
    requires 1.0 <= p < 100.0
    ensures PercentToDecimal(p) == PercentToDecimal(p / 100.0)
    ensures PercentToDecimal(p) < 1.0
  {
  }

  /** Normalising twice changes nothing as long as the input is below 100 percent. */
  lemma PercentToDecimalIdempotent(x: real)
    requires x < 100.0
    ensures PercentToDecimal(PercentToDecimal(x)) == PercentToDecimal(x)
  {
  }

  /** The list/tuple branch: builds a new list element by element. */
  method PercentToDecimalList(values: seq<real>) returns (dec: seq<real>)
    ensures |dec| == |values|
    ensures forall i :: 0 <= i < |values| ==>
              (values[i] >= 1.0 ==> dec[i] * 100.0 == values[i]) &&
              (values[i] < 1.0 ==> dec[i] == values[i])
  {
    dec := [];
    var k := 0;
    while k < |values|
      invariant 0 <= k <= |values|
      invariant |dec| == k
      invariant forall i :: 0 <= i < k ==> dec[i] == PercentToDecimal(values[i])
    {
      var v := values[k];
      if v >= 1.0 {
        dec := dec + [v / 100.0];
      } else {
        dec := dec + [v];
      }
      k := k + 1;
    }
  }

  // ---------------------------------------------------------------------
  // unit conversions
  // ---------------------------------------------------------------------

  /**
   * What a conversion helper can be handed: a Python float, a list of
   * numbers, or anything else (an int, a tuple, None, ...).
   */
  datatype Value = FloatValue(x: real) | ListValue(xs: seq<real>) | OtherValue

  /** Applies a scaling to a float or, elementwise, to a list; rejects the rest. */
  function Convert(v: Value, f: real -> real): (r: Result<Value>)
    ensures r.Err? <==> v.OtherValue?
    ensures r.Err? ==> r.error == ValueError
    ensures v.FloatValue? ==> r == Ok(FloatValue(f(v.x)))
    ensures v.ListValue? ==>
              r.Ok? && r.value.ListValue? && |r.value.xs| == |v.xs| &&
              forall i :: 0 <= i < |v.xs| ==> r.value.xs[i] == f(v.xs[i])
  {
    match v
    case FloatValue(x) => Ok(FloatValue(f(x)))
    case ListValue(xs) => Ok(ListValue(seq(|xs|, i requires 0 <= i < |xs| => f(xs[i]))))
    case OtherValue => Err(ValueError)
  }

  function LbsPerInToNewtonsPerMm(v: Value): Result<Value>
  {
    Convert(v, x => x * 0.175)
  }

  function NewtonsPerMmToLbsPerIn(v: Value): Result<Value>
  {
    Convert(v, x => x * 5.71)
  }

  function InchToMillimetre(v: Value): Result<Value>
  {
    Convert(v, x => x * 25.4)
  }

  function MillimetreToInch(v: Value): Result<Value>
  {
    Convert(v, x => x / 25.4)
  }

  /** Anything that is neither a float nor a list is refused by every conversion. */
  lemma ConversionsRejectOthers(v: Value)
    requires v.OtherValue?
    ensures LbsPerInToNewtonsPerMm(v) == Err(ValueError)
    ensures NewtonsPerMmToLbsPerIn(v) == Err(ValueError)
    ensures InchToMillimetre(v) == Err(ValueError)
    ensures MillimetreToInch(v) == Err(ValueError)
  {
  }

  /** Converting inches to millimetres and back returns the input exactly. */
  lemma InchMillimetreRoundTrip(v: Value)
    requires !v.OtherValue?
    ensures InchToMillimetre(v).Ok?
    ensures MillimetreToInch(InchToMillimetre(v).value) == Ok(v)
  {
    var mm := InchToMillimetre(v).value;
    match v
    case FloatValue(x) =>
    case ListValue(xs) =>
      var back := MillimetreToInch(mm).value;
      assert back.xs == xs by {
        forall i | 0 <= i < |xs| ensures back.xs[i] == xs[i] {
          assert mm.xs[i] == xs[i] * 25.4;
        }
      }
  }

  /**
   * The two spring-rate conversions are not inverse: their product is
   * 0.175 * 5.71 = 0.99925, so a round trip shrinks every non-zero rate.
   */
  lemma SpringRateRoundTripShrinks(x: real)
    ensures LbsPerInToNewtonsPerMm(FloatValue(x)).Ok?
    ensures NewtonsPerMmToLbsPerIn(LbsPerInToNewtonsPerMm(FloatValue(x)).value)
            == Ok(FloatValue(0.99925 * x))
    ensures x != 0.0 ==>
              NewtonsPerMmToLbsPerIn(LbsPerInToNewtonsPerMm(FloatValue(x)).value) != Ok(FloatValue(x))
  {
  }

  // ---------------------------------------------------------------------
  // parse_input
  // ---------------------------------------------------------------------

  /** A keyword value or a field default; the empty text is the "no default" placeholder. */
  datatype Arg = Text(s: string) | Number(x: real) | Flag(b: bool)

  const Placeholder: Arg := Text("")

  /** The TypeErrors parse_input raises, distinguished as its messages are. */
  datatype ParseError =
    | UnexpectedKeyword(key: string)
    | MissingOne(name: string)
    | MissingMany(count: nat, names: seq<string>)

  /** Key lists of a Python dict: no key occurs twice. */
  predicate DistinctKeys(kvs: seq<(string, Arg)>)
  {
    forall i, j :: 0 <= i < j < |kvs| ==> kvs[i].0 != kvs[j].0
  }

  predicate HasKey(kvs: seq<(string, Arg)>, k: string)
  {
    exists i :: 0 <= i < |kvs| && kvs[i].0 == k
  }

  /** Index of the first keyword whose key is not a field. */
  function FirstUnknown(fields: seq<(string, Arg)>, kwargs: seq<(string, Arg)>): (r: Option<nat>)
    ensures r.Some? ==> r.value < |kwargs| && !HasKey(fields, kwargs[r.value].0)
    ensures r.Some? ==> forall i :: 0 <= i < r.value ==> HasKey(fields, kwargs[i].0)
    ensures r.None? ==> forall i :: 0 <= i < |kwargs| ==> HasKey(fields, kwargs[i].0)
  {
    if kwargs == [] then None
    else if !HasKey(fields, kwargs[0].0) then Some(0)
    else
      match FirstUnknown(fields, kwargs[1..])
      case None => None
      case Some(j) => Some(j + 1)
  }

  /** Setting attributes one after the other (later assignments win). */
  function SetAll(attrs: map<string, Arg>, kvs: seq<(string, Arg)>): map<string, Arg>
    decreases |kvs|
  {
    if kvs == [] then attrs
    else SetAll(attrs[kvs[0].0 := kvs[0].1], kvs[1..])
  }

  /** Fields not given as keywords whose default is a real value, in field order. */
  function Defaults(fields: seq<(string, Arg)>, kwargs: seq<(string, Arg)>): seq<(string, Arg)>
  {
    if fields == [] then []
    else
      var rest := Defaults(fields[1..], kwargs);
      if !HasKey(kwargs, fields[0].0) && fields[0].1 != Placeholder then [fields[0]] + rest else rest
  }

  /** Names of the fields neither given nor defaulted, in field order. */
  function Missing(fields: seq<(string, Arg)>, kwargs: seq<(string, Arg)>): seq<string>
  {
    if fields == [] then []
    else
      var rest := Missing(fields[1..], kwargs);
      if !HasKey(kwargs, fields[0].0) && fields[0].1 == Placeholder then [fields[0].0] + rest else rest
  }

  /** What parse_input raises, if anything. */
  function ParseVerdict(fields: seq<(string, Arg)>, kwargs: seq<(string, Arg)>): Option<ParseError>
  {
    match FirstUnknown(fields, kwargs)
    case Some(i) => Some(UnexpectedKeyword(kwargs[i].0))
    case None =>
      var missing := Missing(fields, kwargs);
      if |missing| == 1 then Some(MissingOne(missing[0]))
      else if |missing| > 1 then Some(MissingMany(|missing|, missing))
      else None
  }

  /** The attributes of the object once parse_input has returned or raised. */
  function ParsedAttributes(attrs: map<string, Arg>, fields: seq<(string, Arg)>,
                            kwargs: seq<(string, Arg)>): map<string, Arg>
  {
    match FirstUnknown(fields, kwargs)
    case Some(i) => SetAll(attrs, kwargs[..i])
    case None => SetAll(SetAll(attrs, kwargs), Defaults(fields, kwargs))
  }

  /** The object whose attributes parse_input sets with setattr. */
  class Instance {
    var attributes: map<string, Arg>

    constructor ()
      ensures attributes == map[]
    {
      attributes := map[];
    }
  }

  method ParseInput(obj: Instance, fields: seq<(string, Arg)>, kwargs: seq<(string, Arg)>)
    returns (raised: Option<ParseError>)
    requires DistinctKeys(fields) && DistinctKeys(kwargs)
    modifies obj
    ensures raised == ParseVerdict(fields, kwargs)
    ensures obj.attributes == ParsedAttributes(old(obj.attributes), fields, kwargs)
  {
    ghost var start := obj.attributes;
    var k := 0;
    while k < |kwargs|
      invariant 0 <= k <= |kwargs|
      invariant forall i :: 0 <= i < k ==> HasKey(fields, kwargs[i].0)
      invariant obj.attributes == SetAll(start, kwargs[..k])
    {
      var key := kwargs[k].0;
      var known := Contains(fields, key);
      if !known {
        FirstUnknownAt(fields, kwargs, k);
        raised := Some(UnexpectedKeyword(key));
        return;
      }
      SetAllSnoc(start, kwargs[..k], kwargs[k]);
      assert kwargs[..k + 1] == kwargs[..k] + [kwargs[k]];
      obj.attributes := obj.attributes[key := kwargs[k].1];
      k := k + 1;
    }
    assert kwargs[..k] == kwargs;
    FirstUnknownNone(fields, kwargs);
    ghost var given := obj.attributes;

    var errors: seq<string> := [];
    ghost var defaultsSoFar: seq<(string, Arg)> := [];
    var j := 0;
    while j < |fields|
      invariant 0 <= j <= |fields|
      invariant errors == Missing(fields[..j], kwargs)
      invariant defaultsSoFar == Defaults(fields[..j], kwargs)
      invariant obj.attributes == SetAll(given, defaultsSoFar)
    {
      var name := fields[j].0;
      var given_ := Contains(kwargs, name);
      MissingSnoc(fields[..j], fields[j], kwargs);
      DefaultsSnoc(fields[..j], fields[j], kwargs);
      assert fields[..j + 1] == fields[..j] + [fields[j]];
      if !given_ {
        if fields[j].1 != Placeholder {
          SetAllSnoc(given, defaultsSoFar, fields[j]);
          obj.attributes := obj.attributes[name := fields[j].1];
          defaultsSoFar := defaultsSoFar + [fields[j]];
        } else {
          errors := errors + [name];
        }
      }
      j := j + 1;
    }
    assert fields[..j] == fields;
    if |errors| == 1 {
      raised := Some(MissingOne(errors[0]));
    } else if |errors| > 1 {
      raised := Some(MissingMany(|errors|, errors));
    } else {
      raised := None;
    }
  }

  /** `key in d` for a dictionary given as its items: a scan of the keys. */
  method Contains(kvs: seq<(string, Arg)>, key: string) returns (found: bool)
    ensures found <==> HasKey(kvs, key)
  {
    found := false;
    var i := 0;
    while i < |kvs|
      invariant 0 <= i <= |kvs|
      invariant found <==> exists m :: 0 <= m < i && kvs[m].0 == key
    {
      if kvs[i].0 == key { found := true; }
      i := i + 1;
    }
  }

  lemma {:induction false} SetAllSnoc(m: map<string, Arg>, kvs: seq<(string, Arg)>, kv: (string, Arg))
    ensures SetAll(m, kvs + [kv]) == SetAll(m, kvs)[kv.0 := kv.1]
    decreases |kvs|
  {
    if kvs == [] {
      assert [kv][1..] == [];
    } else {
      assert (kvs + [kv])[1..] == kvs[1..] + [kv];
      SetAllSnoc(m[kvs[0].0 := kvs[0].1], kvs[1..], kv);
    }
  }

  lemma {:induction false} MissingSnoc(fs: seq<(string, Arg)>, f: (string, Arg), kwargs: seq<(string, Arg)>)
    ensures Missing(fs + [f], kwargs) ==
            Missing(fs, kwargs) + (if !HasKey(kwargs, f.0) && f.1 == Placeholder then [f.0] else [])
    decreases |fs|
  {
    if fs == [] {
      assert ([] + [f])[1..] == [];
    } else {
      assert (fs + [f])[1..] == fs[1..] + [f];
      MissingSnoc(fs[1..], f, kwargs);
    }
  }

  lemma {:induction false} DefaultsSnoc(fs: seq<(string, Arg)>, f: (string, Arg), kwargs: seq<(string, Arg)>)
    ensures Defaults(fs + [f], kwargs) ==
            Defaults(fs, kwargs) + (if !HasKey(kwargs, f.0) && f.1 != Placeholder then [f] else [])
    decreases |fs|
  {
    if fs == [] {
      assert ([] + [f])[1..] == [];
    } else {
      assert (fs + [f])[1..] == fs[1..] + [f];
      DefaultsSnoc(fs[1..], f, kwargs);
    }
  }

  lemma {:induction false} FirstUnknownAt(fields: seq<(string, Arg)>, kwargs: seq<(string, Arg)>, k: nat)
    requires k < |kwargs|
    requires forall i :: 0 <= i < k ==> HasKey(fields, kwargs[i].0)
    requires !HasKey(fields, kwargs[k].0)
    ensures FirstUnknown(fields, kwargs) == Some(k)
    decreases k
  {
    if k > 0 {
      FirstUnknownAt(fields, kwargs[1..], k - 1);
    }
  }

  lemma {:induction false} FirstUnknownNone(fields: seq<(string, Arg)>, kwargs: seq<(string, Arg)>)
    requires forall i :: 0 <= i < |kwargs| ==> HasKey(fields, kwargs[i].0)
    ensures FirstUnknown(fields, kwargs) == None
    decreases |kwargs|
  {
    if kwargs != [] {
      FirstUnknownNone(fields, kwargs[1..]);
    }
  }

  /** Setting keys adds exactly those keys, and the last value given for a key wins. */
  lemma {:induction false} SetAllKeys(m: map<string, Arg>, kvs: seq<(string, Arg)>, k: string)
    ensures k in SetAll(m, kvs) <==> k in m || HasKey(kvs, k)
    ensures !HasKey(kvs, k) && k in m ==> SetAll(m, kvs)[k] == m[k]
    decreases |kvs|
  {
    if kvs != [] {
      SetAllKeys(m[kvs[0].0 := kvs[0].1], kvs[1..], k);
      if HasKey(kvs[1..], k) {
        var i :| 0 <= i < |kvs[1..]| && kvs[1..][i].0 == k;
        assert kvs[i + 1].0 == k;
      }
      if HasKey(kvs, k) && kvs[0].0 != k {
        var i :| 0 <= i < |kvs| && kvs[i].0 == k;
        assert kvs[1..][i - 1].0 == k;
      }
    }
  }

  /** A given keyword keeps its value when its key appears nowhere later in the list. */
  lemma {:induction false} SetAllLastWins(m: map<string, Arg>, kvs: seq<(string, Arg)>, i: nat)
    requires i < |kvs| && DistinctKeys(kvs)
    ensures kvs[i].0 in SetAll(m, kvs) && SetAll(m, kvs)[kvs[i].0] == kvs[i].1
    decreases |kvs|
  {
    if i == 0 {
      var m' := m[kvs[0].0 := kvs[0].1];
      forall j | 0 <= j < |kvs[1..]|
        ensures kvs[1..][j].0 != kvs[0].0
      {
        assert kvs[1..][j] == kvs[j + 1];
      }
      SetAllKeys(m', kvs[1..], kvs[0].0);
    } else {
      assert kvs[1..][i - 1] == kvs[i];
      SetAllLastWins(m[kvs[0].0 := kvs[0].1], kvs[1..], i - 1);
    }
  }

  lemma {:induction false} DefaultsNotGiven(fields: seq<(string, Arg)>, kwargs: seq<(string, Arg)>, k: string)
    requires HasKey(kwargs, k)
    ensures !HasKey(Defaults(fields, kwargs), k)
    decreases |fields|
  {
    if fields != [] {
      DefaultsNotGiven(fields[1..], kwargs, k);
    }
  }

  /**
   * When parse_input returns normally, every field is an attribute of the
   * object, and every keyword given keeps the value the caller passed.
   */
  lemma {:induction false} ParsedCoversFieldsAndKeywords(attrs: map<string, Arg>,
                                                          fields: seq<(string, Arg)>,
                                                          kwargs: seq<(string, Arg)>)
    requires DistinctKeys(kwargs)
    requires ParseVerdict(fields, kwargs).None?
    ensures forall i :: 0 <= i < |fields| ==> fields[i].0 in ParsedAttributes(attrs, fields, kwargs)
    ensures forall i :: 0 <= i < |kwargs| ==>
              ParsedAttributes(attrs, fields, kwargs)[kwargs[i].0] == kwargs[i].1
  {
    var given := SetAll(attrs, kwargs);
    var result := SetAll(given, Defaults(fields, kwargs));
    assert FirstUnknown(fields, kwargs).None?;
    assert Missing(fields, kwargs) == [];
    forall i | 0 <= i < |fields| ensures fields[i].0 in result {
      MissingEmptyMeansCovered(fields, kwargs, i);
      SetAllKeys(attrs, kwargs, fields[i].0);
      SetAllKeys(given, Defaults(fields, kwargs), fields[i].0);
    }
    forall i | 0 <= i < |kwargs| ensures result[kwargs[i].0] == kwargs[i].1 {
      SetAllLastWins(attrs, kwargs, i);
      assert HasKey(kwargs, kwargs[i].0);
      DefaultsNotGiven(fields, kwargs, kwargs[i].0);
      SetAllKeys(given, Defaults(fields, kwargs), kwargs[i].0);
    }
  }

  lemma {:induction false} MissingEmptyMeansCovered(fields: seq<(string, Arg)>, kwargs: seq<(string, Arg)>, i: nat)
    requires i < |fields| && Missing(fields, kwargs) == []
    ensures HasKey(kwargs, fields[i].0) || HasKey(Defaults(fields, kwargs), fields[i].0)
    decreases |fields|
  {
    var rest := Defaults(fields[1..], kwargs);
    if i == 0 {
      if !HasKey(kwargs, fields[0].0) {
        assert Defaults(fields, kwargs)[0] == fields[0];
      }
    } else {
      MissingEmptyMeansCovered(fields[1..], kwargs, i - 1);
      assert fields[1..][i - 1] == fields[i];
      if HasKey(rest, fields[i].0) {
        var j :| 0 <= j < |rest| && rest[j].0 == fields[i].0;
        if !HasKey(kwargs, fields[0].0) && fields[0].1 != Placeholder {
          assert Defaults(fields, kwargs)[j + 1] == rest[j];
        }
      }
    }
  }
}

// tools/helpers.py: the older one-line scalings.
module LegacyHelpers {

  function PoundForceToNewtons(x: real): real { x * 4.448 }

  function NewtonsToPoundForce(x: real): real { x / 4.448 }

  function InchToMillimetre(x: real): real { x * 25.4 }

  function MillimetreToInch(x: real): real { x / 25.4 }

  /** Pound-force and newtons convert into each other exactly, in both directions. */
  lemma ForceRoundTrips(x: real)
    ensures NewtonsToPoundForce(PoundForceToNewtons(x)) == x
    ensures PoundForceToNewtons(NewtonsToPoundForce(x)) == x
  {
  }

  /** Inches to millimetres and back is the identity. */
  lemma LengthRoundTrip(x: real)
    ensures MillimetreToInch(InchToMillimetre(x)) == x
  {
  }

  /** Every conversion is a scaling by a positive constant: it keeps order and sign. */
  lemma ConversionsMonotone(x: real, y: real)
    requires x < y
    ensures PoundForceToNewtons(x) < PoundForceToNewtons(y)
    ensures NewtonsToPoundForce(x) < NewtonsToPoundForce(y)
    ensures InchToMillimetre(x) < InchToMillimetre(y)
    ensures MillimetreToInch(x) < MillimetreToInch(y)
    ensures (PoundForceToNewtons(x) > 0.0 <==> x > 0.0) && (MillimetreToInch(x) > 0.0 <==> x > 0.0)
  {
  }
}
