// The bolted joint of fasteners/threaded_fastener.py: the threaded part of
// the grip, the bolt's stiffness as a shank and a thread in series, the
// members' stiffness from the double-frustum pressure cone (whose layer
// splitting and cone diameters are computed step by step), and the joint
// constant C; with the older bolts/threaded_fastener.py beside it.

module ThreadedFasteners {
  import opened Common

  /** One clamped member: its thickness and elastic modulus. */
  datatype Layer = Layer(thickness: real, modulus: real)

  /** What a threaded fastener reads from its bolt (a metric or a UN bolt). */
  datatype BoltData = BoltData(diameter: real, nominalArea: real, stressArea: real,
                               elasticModulus: real, unthreadedLength: real)

  datatype ThreadedFastener = ThreadedFastener(bolt: BoltData, gripLength: real, layers: seq<Layer>)

  /** griped_threads: the threaded length inside the grip, which must be positive. */
  function GripedThreads(gripLength: real, unthreadedLength: real): (r: Result<real>)
    ensures r.Err? <==> gripLength <= unthreadedLength
    ensures r.Err? ==> r.error == ValueError
    ensures r.Ok? ==> r.value > 0.0 && r.value + unthreadedLength == gripLength
  {
    var lt := gripLength - unthreadedLength;
    if lt <= 0.0 then Err(ValueError) else Ok(lt)
  }

  /** The constructor evaluates griped_threads, so a shank longer than the grip refuses construction. */
  function NewThreadedFastener(bolt: BoltData, gripLength: real, layers: seq<Layer>)
    : (r: Result<ThreadedFastener>)
    ensures r.Err? <==> GripedThreads(gripLength, bolt.unthreadedLength).Err?
    ensures r.Err? ==> r.error == ValueError
    ensures r.Ok? ==> r.value.bolt == bolt && r.value.gripLength == gripLength && r.value.layers == layers
  {
    var lt := GripedThreads(gripLength, bolt.unthreadedLength);
    if lt.Err? then Err(lt.error) else Ok(ThreadedFastener(bolt, gripLength, layers))
  }

  /**
   * The constructor as written: before griped_threads it prints a note
   * built from len(bolt), and no bolt class defines a length, so every call
   * stops there with a TypeError.
   */
  function NewThreadedFastenerAsWritten(bolt: BoltData, gripLength: real, layers: seq<Layer>)
    : (r: Result<ThreadedFastener>)
    ensures r.Err? && r.error == TypeError
  {
    Err(TypeError)
  }

  /** As written even a joint whose shank ends inside the grip is refused, which the intended constructor builds. */
  lemma ConstructorAsWrittenRefusesSoundJoint(bolt: BoltData, gripLength: real, layers: seq<Layer>)
    requires gripLength > bolt.unthreadedLength
    ensures NewThreadedFastenerAsWritten(bolt, gripLength, layers) == Err(TypeError)
    ensures NewThreadedFastener(bolt, gripLength, layers) == Ok(ThreadedFastener(bolt, gripLength, layers))
  {
  }

  /**
   * threaded_plate: the grip is the clamped thickness h plus half the
   * engaged plate thread, never more than half a diameter.
   */
  function ThreadedPlateGrip(plateThickness: real, diameter: real, h: real): (grip: real)
    ensures grip - h <= 0.5 * plateThickness && grip - h <= 0.5 * diameter
    ensures grip - h == 0.5 * plateThickness || grip - h == 0.5 * diameter
  {
    if plateThickness < diameter then h + 0.5 * plateThickness else h + 0.5 * diameter
  }

  /** Ad lt + At ld: the denominator of the bolt stiffness. */
  function Denominator(ad: real, at: real, lt: real, ld: real): real
  {
    ad * lt + at * ld
  }

  /** bolt_stiffness: Ad At E / (Ad lt + At ld) with lt = grip - ld. */
  function BoltStiffness(b: BoltData, gripLength: real): (r: Result<real>)
    ensures var den := Denominator(b.nominalArea, b.stressArea, gripLength - b.unthreadedLength, b.unthreadedLength);
            (r.Err? <==> den == 0.0) && (r.Err? ==> r.error == ZeroDivisionError)
            && (r.Ok? ==> r.value == (b.nominalArea * b.stressArea * b.elasticModulus) / den)
  {
    var lt := gripLength - b.unthreadedLength;
    var den := Denominator(b.nominalArea, b.stressArea, lt, b.unthreadedLength);
    if den == 0.0 then Err(ZeroDivisionError)
    else Ok((b.nominalArea * b.stressArea * b.elasticModulus) / den)
  }

  /**
   * The bolt is the shank (area Ad, length ld) and the gripped thread (area
   * At, length lt) as springs in series: 1/kb = lt/(At E) + ld/(Ad E).
   */
  lemma BoltStiffnessInSeries(b: BoltData, gripLength: real)
    requires b.nominalArea > 0.0 && b.stressArea > 0.0 && b.elasticModulus > 0.0
    requires gripLength > b.unthreadedLength >= 0.0
    ensures BoltStiffness(b, gripLength).Ok? && BoltStiffness(b, gripLength).value > 0.0
    ensures 1.0 / BoltStiffness(b, gripLength).value
            == (gripLength - b.unthreadedLength) / (b.stressArea * b.elasticModulus)
               + b.unthreadedLength / (b.nominalArea * b.elasticModulus)
  {
    SeriesReciprocal(b.nominalArea, b.stressArea, b.elasticModulus, gripLength - b.unthreadedLength,
                     b.unthreadedLength);
  }

  /** Ad At E / (Ad lt + At ld) is positive and its reciprocal is lt/(At E) + ld/(Ad E). */
  lemma SeriesReciprocal(ad: real, at: real, e: real, lt: real, ld: real)
    requires ad > 0.0 && at > 0.0 && e > 0.0 && lt > 0.0 && ld >= 0.0
    ensures Denominator(ad, at, lt, ld) > 0.0
    ensures (ad * at * e) / Denominator(ad, at, lt, ld) > 0.0
    ensures 1.0 / ((ad * at * e) / Denominator(ad, at, lt, ld)) == lt / (at * e) + ld / (ad * e)
  {
    var den := Denominator(ad, at, lt, ld);
    DenominatorPositive(ad, at, lt, ld);
    MulPositive(ad, at);
    MulPositive(ad * at, e);
    DivPositive(ad * at * e, den);
    RecipOfQuotient(ad * at * e, den);
    MulPositive(at, e);
    MulPositive(ad, e);
    DivDistributes(ad * lt, at * ld, ad * at * e);
    assert ad * at * e == ad * (at * e) && ad * at * e == at * (ad * e);
    Cancel(ad, lt, at * e);
    Cancel(at, ld, ad * e);
  }

  lemma DenominatorPositive(ad: real, at: real, lt: real, ld: real)
    requires ad > 0.0 && at > 0.0 && lt > 0.0 && ld >= 0.0
    ensures Denominator(ad, at, lt, ld) > 0.0
  {
    MulPositive(ad, lt);
    if ld > 0.0 {
      MulPositive(at, ld);
    }
  }

  lemma RecipOfQuotient(n: real, den: real)
    requires n != 0.0 && den != 0.0
    ensures 1.0 / (n / den) == den / n
  {
  }

  lemma DivDistributes(x: real, y: real, n: real)
    requires n != 0.0
    ensures (x + y) / n == x / n + y / n
  {
  }

  lemma Cancel(a: real, x: real, c: real)
    requires a != 0.0 && c != 0.0
    ensures (a * x) / (a * c) == x / c
  {
  }

  /** fastener_stiffness: the joint constant C = kb / (km + kb). */
  function FastenerStiffness(kb: real, km: real): (r: Result<real>)
    ensures r.Err? <==> km + kb == 0.0
    ensures r.Err? ==> r.error == ZeroDivisionError
    ensures r.Ok? ==> r.value * (km + kb) == kb
  {
    if km + kb == 0.0 then Err(ZeroDivisionError) else Ok(kb / (km + kb))
  }

  /** For a stiff bolt and stiff members the bolt takes a fraction C strictly between 0 and 1 of the load. */
  lemma FastenerStiffnessIsFraction(kb: real, km: real)
    requires kb > 0.0 && km > 0.0
    ensures FastenerStiffness(kb, km).Ok?
    ensures 0.0 < FastenerStiffness(kb, km).value < 1.0
    ensures FastenerStiffness(kb, km).value * (km + kb) == kb
  {
    DivPositive(kb, km + kb);
  }

  // ------------------------------------------------------------- the pressure cone

  /** The thicknesses and the moduli of a stack of layers, copied into lists of their own. */
  function Thicknesses(layers: seq<Layer>): (r: seq<real>)
    ensures |r| == |layers| && forall i :: 0 <= i < |layers| ==> r[i] == layers[i].thickness
  {
    seq(|layers|, i requires 0 <= i < |layers| => layers[i].thickness)
  }

  function Moduli(layers: seq<Layer>): (r: seq<real>)
    ensures |r| == |layers| && forall i :: 0 <= i < |layers| ==> r[i] == layers[i].modulus
  {
    seq(|layers|, i requires 0 <= i < |layers| => layers[i].modulus)
  }

  /** Running total of the first k thicknesses. */
  function Prefix(th: seq<real>, k: nat): real
    requires k <= |th|
  {
    Sum(th[..k])
  }

  /** Running total through layer j. */
  function Through(th: seq<real>, j: nat): real
    requires j < |th|
  {
    Prefix(th, j + 1)
  }

  lemma {:induction false} PrefixStep(th: seq<real>, k: nat)
    requires k < |th|
    ensures Prefix(th, k + 1) == Prefix(th, k) + th[k]
  {
    assert th[..k + 1][..k] == th[..k];
  }

  lemma {:induction false} SumAppend(a: seq<real>, b: seq<real>)
    ensures Sum(a + b) == Sum(a) + Sum(b)
    decreases |b|
  {
    if b == [] {
      assert a + b == a;
    } else {
      var c := b[..|b| - 1];
      assert (a + b)[..|a + b| - 1] == a + c;
      SumAppend(a, c);
    }
  }

  lemma SumPair(x: real, y: real)
    ensures Sum([x, y]) == x + y
  {
    calc {
      Sum([x, y]);
      { assert [x, y][..1] == [x]; }
      Sum([x]) + y;
      { assert [x][..0] == []; }
      Sum([]) + x + y;
    }
  }

  lemma SumSplice(pre: seq<real>, mid: seq<real>, post: seq<real>)
    ensures Sum(pre + mid + post) == Sum(pre) + Sum(mid) + Sum(post)
  {
    SumAppend(pre + mid, post);
    SumAppend(pre, mid);
  }

  /** The scan from index i on: the first layer whose running total reaches half the grip, else 0. */
  function MiddleFrom(th: seq<real>, half: real, i: nat): (m: nat)
    requires i <= |th|
    ensures th != [] ==> m < |th|
    decreases |th| - i
  {
    if i == |th| then 0
    else if Through(th, i) >= half then i
    else MiddleFrom(th, half, i + 1)
  }

  /** The middle layer: the first whose running total reaches half the grip (0 if none does). */
  function MiddleIndex(th: seq<real>, half: real): (m: nat)
    ensures th != [] ==> m < |th|
  {
    MiddleFrom(th, half, 0)
  }

  lemma {:induction false} MiddleFromFacts(th: seq<real>, half: real, i: nat)
    requires i <= |th|
    requires forall j :: 0 <= j < i ==> Through(th, j) < half
    ensures var m := MiddleFrom(th, half, i);
            ((exists j :: i <= j < |th| && Through(th, j) >= half) ==>
               m < |th| && Through(th, m) >= half && forall j :: 0 <= j < m ==> Through(th, j) < half)
            && ((forall j :: i <= j < |th| ==> Through(th, j) < half) ==> m == 0)
    decreases |th| - i
  {
    if i < |th| && Through(th, i) < half {
      MiddleFromFacts(th, half, i + 1);
    }
  }

  /**
   * When some running total reaches half the grip, the middle index is the
   * first such layer; otherwise it stays 0.
   */
  lemma MiddleIndexIsFirstReaching(th: seq<real>, half: real)
    ensures (exists j :: 0 <= j < |th| && Through(th, j) >= half) ==>
              var m := MiddleIndex(th, half);
              m < |th| && Through(th, m) >= half && forall j :: 0 <= j < m ==> Through(th, j) < half
    ensures (forall j :: 0 <= j < |th| ==> Through(th, j) < half) ==> MiddleIndex(th, half) == 0
  {
    MiddleFromFacts(th, half, 0);
  }

  /**
   * The layers after the split: unless the running total through the middle
   * layer is exactly half the grip, that layer is cut in two at half the
   * grip, the lower piece keeping the same modulus.
   */
  function Split(th: seq<real>, es: seq<real>, m: nat, half: real): (r: (seq<real>, seq<real>))
    requires |th| == |es| && m < |th|
    ensures |r.0| == |r.1|
  {
    var before := Prefix(th, m);
    var including := Prefix(th, m + 1);
    if including - half != 0.0 then
      (th[..m] + [half - before, including - half] + th[m + 1..], es[..m + 1] + [es[m]] + es[m + 1..])
    else (th, es)
  }

  /** Splitting keeps the total thickness. */
  lemma SplitKeepsTotal(th: seq<real>, es: seq<real>, m: nat, half: real)
    requires |th| == |es| && m < |th|
    ensures Sum(Split(th, es, m, half).0) == Sum(th)
  {
    var before := Prefix(th, m);
    var including := Prefix(th, m + 1);
    if including - half != 0.0 {
      PrefixStep(th, m);
      CutKeepsSum(th, m, half - before, including - half, Split(th, es, m, half).0);
    } else {
      assert Split(th, es, m, half).0 == th;
    }
  }

  /** Cutting one layer into two pieces that add up to it keeps the total. */
  lemma CutKeepsSum(s: seq<real>, m: nat, a: real, b: real, cut: seq<real>)
    requires m < |s| && a + b == s[m] && cut == s[..m] + [a, b] + s[m + 1..]
    ensures Sum(cut) == Sum(s)
  {
    assert s == s[..m] + [s[m]] + s[m + 1..];
    PieceReplacedByTwo(s[..m], s[m], a, b, s[m + 1..]);
  }

  lemma PieceReplacedByTwo(pre: seq<real>, x: real, a: real, b: real, post: seq<real>)
    requires a + b == x
    ensures Sum(pre + [a, b] + post) == Sum(pre + [x] + post)
  {
    SumPair(a, b);
    SumSplice(pre, [a, b], post);
    SumSplice(pre, [x], post);
    assert Sum([x]) == x by {
      assert [x][..0] == [];
    }
  }

  /**
   * A split adds exactly one layer, after the middle one and with its
   * modulus, and leaves the layers above and below untouched; otherwise the
   * stack is unchanged.
   */
  lemma SplitShape(th: seq<real>, es: seq<real>, m: nat, half: real)
    requires |th| == |es| && m < |th|
    ensures var (th2, es2) := Split(th, es, m, half);
            (Prefix(th, m + 1) != half ==>
               |th2| == |th| + 1 && es2[m] == es2[m + 1] == es[m]
               && th2[..m] == th[..m] && th2[m + 2..] == th[m + 1..])
            && (Prefix(th, m + 1) == half ==> th2 == th && es2 == es)
  {
  }

  /**
   * When a layer reaches half the grip, the split puts a layer boundary
   * exactly at the centre plane: the first m + 1 layers then total half the
   * grip, and the two cut pieces are positive for a positive grip.
   */
  lemma SplitAtCentrePlane(th: seq<real>, es: seq<real>, half: real)
    requires |th| == |es| && half > 0.0
    requires exists j :: 0 <= j < |th| && Through(th, j) >= half
    ensures var m := MiddleIndex(th, half);
            var th2 := Split(th, es, m, half).0;
            m + 1 <= |th2| && Prefix(th2, m + 1) == half
            && (Prefix(th, m + 1) != half ==> th2[m] > 0.0 && th2[m + 1] > 0.0)
  {
    MiddleIndexIsFirstReaching(th, half);
    var m := MiddleIndex(th, half);
    if m > 0 {
      assert Through(th, m - 1) < half;
    } else {
      assert th[..0] == [];
    }
    CutAtHalf(th, es, m, half);
  }

  /** Cutting a layer that crosses half the grip leaves the layers down to the cut totalling half the grip. */
  lemma CutAtHalf(th: seq<real>, es: seq<real>, m: nat, half: real)
    requires |th| == |es| && m < |th|
    requires Prefix(th, m) < half <= Prefix(th, m + 1)
    ensures var th2 := Split(th, es, m, half).0;
            m + 1 <= |th2| && Prefix(th2, m + 1) == half
            && (Prefix(th, m + 1) != half ==> th2[m] > 0.0 && th2[m + 1] > 0.0)
  {
    var before := Prefix(th, m);
    var including := Prefix(th, m + 1);
    if including != half {
      var th2 := Split(th, es, m, half).0;
      assert th2[..m + 1] == th[..m] + [half - before];
      SumAppend(th[..m], [half - before]);
      assert [half - before][..0] == [];
    }
  }

  /** One step of the cone: widening by 2 t tan(alpha) down to the middle layer, narrowing after it. */
  function Step(i: nat, m: nat, t: real, tanAlpha: real): real
  {
    if i <= m then 2.0 * t * tanAlpha else -(2.0 * t * tanAlpha)
  }

  /** Signed thicknesses: positive down to the middle layer, negative after it. */
  function Signed(th: seq<real>, m: nat): (r: seq<real>)
    ensures |r| == |th|
  {
    seq(|th|, i requires 0 <= i < |th| => if i <= m then th[i] else -th[i])
  }

  /**
   * The diameter of every layer face from the head down: the head diameter
   * plus 2 tan(alpha) times the signed depth above the face.
   */
  function Cone(start: real, th: seq<real>, m: nat, tanAlpha: real): (r: seq<real>)
    ensures |r| == |th| + 1 && r[0] == start
  {
    var s := Signed(th, m);
    assert s[..0] == [];
    seq(|th| + 1, i requires 0 <= i <= |th| => start + 2.0 * tanAlpha * Sum(s[..i]))
  }

  /** Consecutive faces differ by one Step: the recurrence the source's loop follows. */
  lemma ConeStep(start: real, th: seq<real>, m: nat, tanAlpha: real, i: nat)
    requires i < |th|
    ensures Cone(start, th, m, tanAlpha)[i + 1] == Cone(start, th, m, tanAlpha)[i] + Step(i, m, th[i], tanAlpha)
  {
    var s := Signed(th, m);
    PrefixStep(s, i);
    assert Sum(s[..i + 1]) == Sum(s[..i]) + s[i];
  }

  /** The diameters after diam.pop(m + 1): one per layer, the face at the centre plane listed once. */
  function Diameters(start: real, th: seq<real>, m: nat, tanAlpha: real): (r: seq<real>)
    requires m < |th|
    ensures |r| == |th|
  {
    var c := Cone(start, th, m, tanAlpha);
    c[..m + 1] + c[m + 2..]
  }

  lemma {:induction false} SumNegate(s: seq<real>, t: seq<real>)
    requires |s| == |t| && forall i :: 0 <= i < |s| ==> t[i] == -s[i]
    ensures Sum(t) == -Sum(s)
    decreases |s|
  {
    if s != [] {
      SumNegate(s[..|s| - 1], t[..|t| - 1]);
    }
  }

  /** The signed depth of the last face: down to the middle layer minus up from the nut. */
  lemma SignedTotal(th: seq<real>, m: nat)
    requires m < |th|
    ensures Sum(Signed(th, m)) == 2.0 * Prefix(th, m + 1) - Sum(th)
  {
    SumCut(Signed(th, m), m + 1);
    SumCut(th, m + 1);
    SignedHead(th, m);
    SignedTail(th, m);
  }

  lemma SignedHead(th: seq<real>, m: nat)
    requires m < |th|
    ensures Sum(Signed(th, m)[..m + 1]) == Prefix(th, m + 1)
  {
    assert Signed(th, m)[..m + 1] == th[..m + 1];
  }

  lemma SignedTail(th: seq<real>, m: nat)
    requires m < |th|
    ensures Sum(Signed(th, m)[m + 1..]) == -Sum(th[m + 1..])
  {
    var s := Signed(th, m);
    var lower, raised := th[m + 1..], s[m + 1..];
    forall i | 0 <= i < |lower|
      ensures raised[i] == -lower[i]
    {
      assert raised[i] == s[m + 1 + i] && lower[i] == th[m + 1 + i];
    }
    SumNegate(lower, raised);
  }

  lemma SumCut(x: seq<real>, k: nat)
    requires k <= |x|
    ensures Sum(x) == Sum(x[..k]) + Sum(x[k..])
  {
    assert x == x[..k] + x[k..];
    SumAppend(x[..k], x[k..]);
  }

  /**
   * When the layers after the middle one are as thick as those down to it,
   * the lower cone closes again: the last layer's diameter is the head
   * diameter it started from.
   */
  lemma ConeClosesAtNut(start: real, th: seq<real>, m: nat, tanAlpha: real)
    requires m + 1 < |th| && 2.0 * Prefix(th, m + 1) == Sum(th)
    ensures Diameters(start, th, m, tanAlpha)[|th| - 1] == start
  {
    SignedTotal(th, m);
    LastFace(start, th, m, tanAlpha, Sum(Signed(th, m)));
  }

  /** The last diameter listed is the head diameter moved by the signed depth of the stack. */
  lemma LastFace(start: real, th: seq<real>, m: nat, tanAlpha: real, depth: real)
    requires m + 1 < |th| && depth == Sum(Signed(th, m))
    ensures Diameters(start, th, m, tanAlpha)[|th| - 1] == start + 2.0 * tanAlpha * depth
    ensures depth == 0.0 ==> Diameters(start, th, m, tanAlpha)[|th| - 1] == start
  {
    LastDiameter(start, th, m, tanAlpha);
    ConeBottom(start, th, m, tanAlpha);
  }

  /** After the pop, the last diameter listed is the bottom face of the cone. */
  lemma LastDiameter(start: real, th: seq<real>, m: nat, tanAlpha: real)
    requires m + 1 < |th|
    ensures Diameters(start, th, m, tanAlpha)[|th| - 1] == Cone(start, th, m, tanAlpha)[|th|]
  {
  }

  /** The bottom face of the cone: the head diameter plus 2 tan(alpha) times the signed total. */
  lemma ConeBottom(start: real, th: seq<real>, m: nat, tanAlpha: real)
    ensures Cone(start, th, m, tanAlpha)[|th|] == start + 2.0 * tanAlpha * Sum(Signed(th, m))
  {
    var s := Signed(th, m);
    assert s[..|th|] == s;
  }

  /** The frustum stiffness of one layer (Shigley eq. 8-20); log is math.log. */
  function LayerStiffness(d: real, big: real, t: real, e: real, log: real -> real): (r: Result<real>)
    ensures (1.155 * t + big + d) * (big - d) == 0.0 ==> r == Err(ZeroDivisionError)
    ensures var den := (1.155 * t + big + d) * (big - d);
            den != 0.0 ==>
              var ratio := ((1.155 * t + big - d) * (big + d)) / den;
              (ratio <= 0.0 ==> r == Err(ValueError))
              && (ratio > 0.0 && log(ratio) == 0.0 ==> r == Err(ZeroDivisionError))
              && (ratio > 0.0 && log(ratio) != 0.0 ==> r.Ok? && r.value * log(ratio) == 0.5774 * Pi * e * d)
  {
    var den := (1.155 * t + big + d) * (big - d);
    if den == 0.0 then Err(ZeroDivisionError)
    else
      var ratio := ((1.155 * t + big - d) * (big + d)) / den;
      if ratio <= 0.0 then Err(ValueError)
      else
        var ln := log(ratio);
        if ln == 0.0 then Err(ZeroDivisionError)
        else Ok((0.5774 * Pi * e * d) / ln)
  }

  /**
   * A frustum wider than the bolt, of positive thickness and modulus, has a
   * logarithm argument above 1 and so a positive stiffness.
   */
  lemma LayerStiffnessPositive(d: real, big: real, t: real, e: real, log: real -> real)
    requires 0.0 < d < big && t > 0.0 && e > 0.0
    requires forall x :: x > 1.0 ==> log(x) > 0.0
    ensures LayerStiffness(d, big, t, e, log).Ok? && LayerStiffness(d, big, t, e, log).value > 0.0
  {
    var den := (1.155 * t + big + d) * (big - d);
    var num := (1.155 * t + big - d) * (big + d);
    FrustumExcess(t, big, d);
    MulPositive(1.155 * t + big + d, big - d);
    DivPositive(num - den, den);
    QuotientAboveOne(num, den);
    var ln := log(num / den);
    assert ln > 0.0;
    DivPositive(0.5774 * Pi * e * d, ln);
  }

  lemma FrustumExcess(t: real, big: real, d: real)
    ensures (1.155 * t + big - d) * (big + d) - (1.155 * t + big + d) * (big - d) == 2.31 * t * d
  {
  }

  lemma QuotientAboveOne(a: real, b: real)
    requires 0.0 < b < a
    ensures a / b > 1.0
  {
    DivPositive(a - b, b);
    assert a / b == (a - b) / b + b / b;
  }

  /** The stiffnesses of the first n layers; the first layer that fails decides the error. */
  function Stiffnesses(d: real, diam: seq<real>, th: seq<real>, es: seq<real>, log: real -> real, n: nat)
    : (r: Result<seq<real>>)
    requires n <= |diam| == |th| == |es|
    ensures r.Ok? ==> |r.value| == n
    decreases n
  {
    if n == 0 then Ok([])
    else
      var prev := Stiffnesses(d, diam, th, es, log, n - 1);
      if prev.Err? then prev
      else
        var k := LayerStiffness(d, diam[n - 1], th[n - 1], es[n - 1], log);
        if k.Err? then Err(k.error) else Ok(prev.value + [k.value])
  }

  /**
   * The list holds each layer's stiffness in order when every layer has
   * one; otherwise the error is that of the first layer without one.
   */
  lemma {:induction false} StiffnessesPerLayer(d: real, diam: seq<real>, th: seq<real>, es: seq<real>,
                                               log: real -> real, n: nat)
    requires n <= |diam| == |th| == |es|
    ensures var r := Stiffnesses(d, diam, th, es, log, n);
            (r.Ok? <==> forall i :: 0 <= i < n ==> LayerStiffness(d, diam[i], th[i], es[i], log).Ok?)
            && (r.Ok? ==> forall i :: 0 <= i < n ==> LayerStiffness(d, diam[i], th[i], es[i], log) == Ok(r.value[i]))
            && (r.Err? ==> exists i :: 0 <= i < n && LayerStiffness(d, diam[i], th[i], es[i], log) == Err(r.error)
                                       && forall j :: 0 <= j < i ==> LayerStiffness(d, diam[j], th[j], es[j], log).Ok?)
    decreases n
  {
    if n > 0 {
      StiffnessesPerLayer(d, diam, th, es, log, n - 1);
    }
  }

  /**
   * Sum of 1 / k over the first n stiffnesses (numpy's elementwise 1 / array).
   * A zero stiffness, where numpy's reciprocal is inf, is an error here;
   * SeriesStiffness settles that case before summing.
   */
  function ReciprocalSum(ks: seq<real>, n: nat): (r: Result<real>)
    requires n <= |ks|
    ensures r.Err? <==> exists i :: 0 <= i < n && ks[i] == 0.0
    decreases n
  {
    if n == 0 then Ok(0.0)
    else
      var prev := ReciprocalSum(ks, n - 1);
      if prev.Err? then prev
      else if ks[n - 1] == 0.0 then Err(ZeroDivisionError)
      else Ok(prev.value + 1.0 / ks[n - 1])
  }

  /**
   * km = 1 / sum(1 / k_i). In numpy a zero k_i makes its reciprocal and the
   * sum inf, and 1 / inf is 0: such a stack has km = 0.
   */
  function SeriesStiffness(ks: seq<real>): (r: Result<real>)
    ensures 0.0 in ks ==> r == Ok(0.0)
    ensures 0.0 !in ks ==> ReciprocalSum(ks, |ks|).Ok?
    ensures 0.0 !in ks ==> (r.Err? <==> ReciprocalSum(ks, |ks|).value == 0.0)
    ensures r.Ok? && 0.0 !in ks ==> r.value * ReciprocalSum(ks, |ks|).value == 1.0
  {
    if 0.0 in ks then Ok(0.0)
    else
    var inv := ReciprocalSum(ks, |ks|);
    if inv.Err? then inv
    else if inv.value == 0.0 then Err(ZeroDivisionError)
    else Ok(1.0 / inv.value)
  }

  lemma {:induction false} ReciprocalSumBounds(ks: seq<real>, n: nat, i: nat)
    requires n <= |ks| && i < n
    requires forall j :: 0 <= j < |ks| ==> ks[j] > 0.0
    ensures ReciprocalSum(ks, n).Ok? && ReciprocalSum(ks, n).value >= 1.0 / ks[i]
    decreases n
  {
    DivPositive(1.0, ks[n - 1]);
    if i < n - 1 {
      ReciprocalSumBounds(ks, n - 1, i);
    } else if n - 1 > 0 {
      ReciprocalSumBounds(ks, n - 1, 0);
      DivPositive(1.0, ks[0]);
    }
  }

  /** Members in series are softer than each one of them: 0 < km <= k_i. */
  lemma SeriesBelowEach(ks: seq<real>, i: nat)
    requires i < |ks| && forall j :: 0 <= j < |ks| ==> ks[j] > 0.0
    ensures SeriesStiffness(ks).Ok?
    ensures 0.0 < SeriesStiffness(ks).value <= ks[i]
  {
    ReciprocalSumBounds(ks, |ks|, i);
    var s := ReciprocalSum(ks, |ks|).value;
    DivPositive(1.0, ks[i]);
    DivPositive(1.0, s);
    ReciprocalAntitone(1.0 / ks[i], s);
  }

  lemma ReciprocalAntitone(a: real, b: real)
    requires 0.0 < a <= b
    ensures 1.0 / b <= 1.0 / a
  {
  }

  /** The layers after the split, for a grip and a non-empty stack. */
  function SplitLayers(layers: seq<Layer>, gripLength: real): (r: (seq<real>, seq<real>, nat))
    requires layers != []
    ensures r.2 < |r.0| == |r.1|
  {
    var th := Thicknesses(layers);
    var half := 0.5 * gripLength;
    var m := MiddleIndex(th, half);
    var sp := Split(th, Moduli(layers), m, half);
    (sp.0, sp.1, m)
  }

  /**
   * calc_substrate_stiffness, as the composition of its steps: an empty
   * stack is an IndexError (the split or the pop indexes past the end).
   */
  function SubstrateStiffness(diameter: real, gripLength: real, layers: seq<Layer>, tanAlpha: real,
                              log: real -> real): (r: Result<real>)
    ensures layers == [] ==> r == Err(IndexError)
  {
    if layers == [] then Err(IndexError)
    else
      var split := SplitLayers(layers, gripLength);
      LayersInSeries(diameter, Diameters(1.5 * diameter, split.0, split.2, tanAlpha), split.0, split.1, log)
  }

  /** The layer stiffnesses in order, then km; the first failing layer decides the error. */
  function LayersInSeries(d: real, diam: seq<real>, th: seq<real>, es: seq<real>, log: real -> real)
    : (r: Result<real>)
    requires |diam| == |th| == |es|
  {
    var ks := Stiffnesses(d, diam, th, es, log, |th|);
    if ks.Err? then Err(ks.error) else SeriesStiffness(ks.value)
  }

  /**
   * Members whose frustums are wider than the bolt, with positive
   * thicknesses and moduli, have a defined stiffness km, and together they
   * are softer than each one of their layers: 0 < km <= k_i.
   */
  lemma SubstrateBelowEachLayer(diameter: real, gripLength: real, layers: seq<Layer>, tanAlpha: real,
                                log: real -> real, i: nat)
    requires layers != [] && diameter > 0.0
    requires forall x :: x > 1.0 ==> log(x) > 0.0
    requires var (th, es, m) := SplitLayers(layers, gripLength);
             var diam := Diameters(1.5 * diameter, th, m, tanAlpha);
             i < |th| && forall j :: 0 <= j < |th| ==> th[j] > 0.0 && es[j] > 0.0 && diam[j] > diameter
    ensures SubstrateStiffness(diameter, gripLength, layers, tanAlpha, log).Ok?
    ensures var (th, es, m) := SplitLayers(layers, gripLength);
            var diam := Diameters(1.5 * diameter, th, m, tanAlpha);
            var k := LayerStiffness(diameter, diam[i], th[i], es[i], log);
            k.Ok? && 0.0 < SubstrateStiffness(diameter, gripLength, layers, tanAlpha, log).value <= k.value
  {
    var (th, es, m) := SplitLayers(layers, gripLength);
    var diam := Diameters(1.5 * diameter, th, m, tanAlpha);
    forall j | 0 <= j < |th|
      ensures LayerStiffness(diameter, diam[j], th[j], es[j], log).Ok?
      ensures LayerStiffness(diameter, diam[j], th[j], es[j], log).value > 0.0
    {
      LayerStiffnessPositive(diameter, diam[j], th[j], es[j], log);
    }
    StiffnessesPerLayer(diameter, diam, th, es, log, |th|);
    var ks := Stiffnesses(diameter, diam, th, es, log, |th|).value;
    assert forall j :: 0 <= j < |ks| ==> ks[j] > 0.0;
    SeriesBelowEach(ks, i);
  }

  /**
   * When the layers exactly fill a positive grip, the split keeps the total
   * and puts a boundary at the centre plane with layers on both sides.
   */
  lemma SplitLayersAtCentre(layers: seq<Layer>, gripLength: real)
    requires layers != [] && gripLength > 0.0 && Sum(Thicknesses(layers)) == gripLength
    ensures var split := SplitLayers(layers, gripLength);
            split.2 + 1 < |split.0| && Sum(split.0) == gripLength && Prefix(split.0, split.2 + 1) == 0.5 * gripLength
  {
    SplitFilledGrip(Thicknesses(layers), Moduli(layers), 0.5 * gripLength);
  }

  /** The same on the thickness list: a stack totalling twice half the grip is split at the centre plane. */
  lemma SplitFilledGrip(th0: seq<real>, es0: seq<real>, half: real)
    requires |th0| == |es0| && th0 != [] && half > 0.0 && Sum(th0) == 2.0 * half
    ensures var m := MiddleIndex(th0, half);
            var th := Split(th0, es0, m, half).0;
            m + 1 < |th| && Sum(th) == 2.0 * half && Prefix(th, m + 1) == half
  {
    ReachesHalf(th0, half);
    SplitAtCentrePlane(th0, es0, half);
    var m := MiddleIndex(th0, half);
    SplitKeepsTotal(th0, es0, m, half);
    SplitShape(th0, es0, m, half);
    assert th0[..|th0|] == th0;
  }

  lemma ReachesHalf(th: seq<real>, half: real)
    requires th != [] && half > 0.0 && Sum(th) == 2.0 * half
    ensures exists j :: 0 <= j < |th| && Through(th, j) >= half
  {
    assert th[..|th|] == th;
    assert Through(th, |th| - 1) >= half;
  }

  /**
   * When the layers exactly fill a positive grip, the cone under the centre
   * plane closes back to the head diameter 1.5 d at the nut: the two
   * frusta are mirror images.
   */
  lemma PressureConeSymmetric(diameter: real, gripLength: real, layers: seq<Layer>, tanAlpha: real)
    requires layers != [] && gripLength > 0.0 && Sum(Thicknesses(layers)) == gripLength
    ensures var split := SplitLayers(layers, gripLength);
            Diameters(1.5 * diameter, split.0, split.2, tanAlpha)[|split.0| - 1] == 1.5 * diameter
  {
    SplitLayersAtCentre(layers, gripLength);
    var split := SplitLayers(layers, gripLength);
    ConeClosesAtNut(1.5 * diameter, split.0, split.2, tanAlpha);
  }

  // The stacks of the source's unit tests (thickness in mm, modulus in MPa).

  /** Running totals 2, 5, 8: the third layer is cut at 6.5 into 1.5 and 1.5. */
  lemma SplitCutsThirdLayer()
    ensures var layers := [Layer(2.0, 200000.0), Layer(3.0, 70000.0), Layer(3.0, 200000.0),
                           Layer(2.0, 200000.0), Layer(3.0, 200000.0)];
            SplitLayers(layers, 13.0)
            == ([2.0, 3.0, 1.5, 1.5, 2.0, 3.0], [200000.0, 70000.0, 200000.0, 200000.0, 200000.0, 200000.0], 2)
  {
    var layers := [Layer(2.0, 200000.0), Layer(3.0, 70000.0), Layer(3.0, 200000.0),
                   Layer(2.0, 200000.0), Layer(3.0, 200000.0)];
    var th := Thicknesses(layers);
    assert th == [2.0, 3.0, 3.0, 2.0, 3.0];
    RunningTotals(th);
    assert Prefix(th, 1) == 2.0 && Prefix(th, 2) == 5.0 && Prefix(th, 3) == 8.0;
    assert MiddleFrom(th, 6.5, 2) == 2;
    assert MiddleFrom(th, 6.5, 0) == 2;
    var es := Moduli(layers);
    assert es == [200000.0, 70000.0, 200000.0, 200000.0, 200000.0];
    assert th[..2] == [2.0, 3.0] && th[3..] == [2.0, 3.0];
    assert es[..3] == [200000.0, 70000.0, 200000.0] && es[3..] == [200000.0, 200000.0];
    assert Split(th, es, 2, 6.5) == (th[..2] + [1.5, 1.5] + th[3..], es[..3] + [es[2]] + es[3..]);
    assert MiddleIndex(th, 6.5) == 2;
    assert Split(th, es, 2, 6.5).0 == [2.0, 3.0, 1.5, 1.5, 2.0, 3.0];
    assert Split(th, es, 2, 6.5).1 == [200000.0, 70000.0, 200000.0, 200000.0, 200000.0, 200000.0];
    assert SplitLayers(layers, 13.0).2 == 2;
    assert SplitLayers(layers, 13.0) == (Split(th, es, 2, 6.5).0, Split(th, es, 2, 6.5).1, 2);
  }

  /** The first layer already passes half the grip of 8: it is cut into 4 and 1. */
  lemma SplitCutsFirstLayer()
    ensures var layers := [Layer(5.0, 200000.0), Layer(1.0, 70000.0), Layer(2.0, 200000.0)];
            SplitLayers(layers, 8.0) == ([4.0, 1.0, 1.0, 2.0], [200000.0, 200000.0, 70000.0, 200000.0], 0)
  {
    var layers := [Layer(5.0, 200000.0), Layer(1.0, 70000.0), Layer(2.0, 200000.0)];
    var th := Thicknesses(layers);
    assert th == [5.0, 1.0, 2.0];
    RunningTotals(th);
    assert Prefix(th, 1) == 5.0;
    assert MiddleFrom(th, 4.0, 0) == 0;
    var es := Moduli(layers);
    assert es == [200000.0, 70000.0, 200000.0];
    assert th[..0] == [] && th[1..] == [1.0, 2.0];
    assert es[..1] == [200000.0] && es[1..] == [70000.0, 200000.0];
    assert Prefix(th, 0) == 0.0;
    assert Split(th, es, 0, 4.0) == (th[..0] + [4.0, 1.0] + th[1..], es[..1] + [es[0]] + es[1..]);
    assert MiddleIndex(th, 4.0) == 0;
    assert Split(th, es, 0, 4.0).0 == [4.0, 1.0, 1.0, 2.0];
    assert Split(th, es, 0, 4.0).1 == [200000.0, 200000.0, 70000.0, 200000.0];
    assert SplitLayers(layers, 8.0) == (Split(th, es, 0, 4.0).0, Split(th, es, 0, 4.0).1, 0);
  }

  /** Running totals 2, 5 meet half the grip of 10 exactly: nothing is cut. */
  lemma SplitLeavesBoundaryStack()
    ensures var layers := [Layer(2.0, 200000.0), Layer(3.0, 70000.0), Layer(3.0, 200000.0), Layer(2.0, 200000.0)];
            SplitLayers(layers, 10.0) == ([2.0, 3.0, 3.0, 2.0], [200000.0, 70000.0, 200000.0, 200000.0], 1)
  {
    var layers := [Layer(2.0, 200000.0), Layer(3.0, 70000.0), Layer(3.0, 200000.0), Layer(2.0, 200000.0)];
    var th := Thicknesses(layers);
    assert th == [2.0, 3.0, 3.0, 2.0];
    RunningTotals(th);
    assert Prefix(th, 1) == 2.0 && Prefix(th, 2) == 5.0;
    assert MiddleFrom(th, 5.0, 1) == 1;
    assert MiddleFrom(th, 5.0, 0) == 1;
    assert Moduli(layers) == [200000.0, 70000.0, 200000.0, 200000.0];
  }

  /** A symmetric stack 2, 4, 2 is cut through its middle layer into 2 and 2. */
  lemma SplitCutsSymmetricStack()
    ensures var layers := [Layer(2.0, 200000.0), Layer(4.0, 70000.0), Layer(2.0, 200000.0)];
            SplitLayers(layers, 8.0) == ([2.0, 2.0, 2.0, 2.0], [200000.0, 70000.0, 70000.0, 200000.0], 1)
  {
    var layers := [Layer(2.0, 200000.0), Layer(4.0, 70000.0), Layer(2.0, 200000.0)];
    var th := Thicknesses(layers);
    assert th == [2.0, 4.0, 2.0];
    RunningTotals(th);
    assert Prefix(th, 1) == 2.0 && Prefix(th, 2) == 6.0;
    assert MiddleFrom(th, 4.0, 1) == 1;
    assert MiddleFrom(th, 4.0, 0) == 1;
    var es := Moduli(layers);
    assert es == [200000.0, 70000.0, 200000.0];
    assert th[..1] == [2.0] && th[2..] == [2.0];
    assert es[..2] == [200000.0, 70000.0] && es[2..] == [200000.0];
    assert Split(th, es, 1, 4.0) == (th[..1] + [2.0, 2.0] + th[2..], es[..2] + [es[1]] + es[2..]);
    assert MiddleIndex(th, 4.0) == 1;
    assert Split(th, es, 1, 4.0).0 == [2.0, 2.0, 2.0, 2.0];
    assert Split(th, es, 1, 4.0).1 == [200000.0, 70000.0, 70000.0, 200000.0];
    assert SplitLayers(layers, 8.0) == (Split(th, es, 1, 4.0).0, Split(th, es, 1, 4.0).1, 1);
  }

  lemma RunningTotals(th: seq<real>)
    ensures forall k :: 0 <= k < |th| ==> Prefix(th, k + 1) == Prefix(th, k) + th[k]
  {
    forall k | 0 <= k < |th|
      ensures Prefix(th, k + 1) == Prefix(th, k) + th[k]
    {
      PrefixStep(th, k);
    }
    assert th[..0] == [];
    assert Prefix(th, 0) == 0.0;
  }

  /**
   * The cone of the unsplit stack 2, 3, 3, 2 under an M10 head: 15, then
   * 15 + 4 tan(alpha) for the second layer and again for the third, and 15
   * at the nut.
   */
  lemma BoundaryStackDiameters(tanAlpha: real)
    ensures Diameters(15.0, [2.0, 3.0, 3.0, 2.0], 1, tanAlpha)
            == [15.0, 15.0 + 4.0 * tanAlpha, 15.0 + 4.0 * tanAlpha, 15.0]
  {
    var th := [2.0, 3.0, 3.0, 2.0];
    var c := Cone(15.0, th, 1, tanAlpha);
    ConeStep(15.0, th, 1, tanAlpha, 0);
    ConeStep(15.0, th, 1, tanAlpha, 1);
    ConeStep(15.0, th, 1, tanAlpha, 2);
    ConeStep(15.0, th, 1, tanAlpha, 3);
    assert c == [15.0, 15.0 + 4.0 * tanAlpha, 15.0 + 10.0 * tanAlpha, 15.0 + 4.0 * tanAlpha, 15.0];
  }

  /** The middle-layer search, with the source's nested running-total loops. */
  method FindMiddle(th: seq<real>, half: real) returns (m: nat)
    ensures m == MiddleIndex(th, half)
  {
    m := 0;
    var index := 0;
    while index < |th|
      invariant 0 <= index <= |th|
      invariant MiddleFrom(th, half, index) == MiddleIndex(th, half)
    {
      var tot := 0.0;
      var k := 0;
      while k < index + 1
        invariant 0 <= k <= index + 1
        invariant tot == Prefix(th, k)
      {
        PrefixStep(th, k);
        tot := tot + th[k];
        k := k + 1;
      }
      if tot >= half {
        m := index;
        return;
      }
      index := index + 1;
    }
  }

  /** The in-place split: the middle thickness is overwritten and the remainder inserted after it. */
  method SplitMiddle(th: seq<real>, es: seq<real>, m: nat, half: real) returns (th2: seq<real>, es2: seq<real>)
    requires |th| == |es| && m < |th|
    ensures (th2, es2) == Split(th, es, m, half)
  {
    th2, es2 := th, es;
    var before := Sum(th2[..m]);
    var including := Sum(th2[..m + 1]);
    if including - half != 0.0 {
      th2 := th2[m := half - before];
      th2 := th2[..m + 1] + [including - half] + th2[m + 1..];
      es2 := es2[..m + 1] + [es2[m]] + es2[m + 1..];
      assert th2 == th[..m] + [half - before, including - half] + th[m + 1..];
    }
  }

  /** The cone diameters, grown and shrunk layer by layer, then diam.pop(m + 1). */
  method ConeDiameters(start: real, th: seq<real>, m: nat, tanAlpha: real) returns (diam: seq<real>)
    requires m < |th|
    ensures diam == Diameters(start, th, m, tanAlpha)
  {
    diam := [start];
    var index := 0;
    while index < |th|
      invariant 0 <= index <= |th|
      invariant diam == Cone(start, th, m, tanAlpha)[..index + 1]
    {
      ConeStep(start, th, m, tanAlpha, index);
      diam := diam + [diam[index] + Step(index, m, th[index], tanAlpha)];
      index := index + 1;
    }
    assert diam == Cone(start, th, m, tanAlpha);
    diam := diam[..m + 1] + diam[m + 2..];
  }

  /** km: the layer stiffnesses in order, then the reciprocal of the sum of their reciprocals. */
  method SeriesOfLayers(d: real, diam: seq<real>, th: seq<real>, es: seq<real>, log: real -> real)
    returns (r: Result<real>)
    requires |diam| == |th| == |es|
    ensures r == LayersInSeries(d, diam, th, es, log)
  {
    var stiffness: seq<real> := [];
    var j := 0;
    while j < |th|
      invariant 0 <= j <= |th|
      invariant Stiffnesses(d, diam, th, es, log, j) == Ok(stiffness)
    {
      var k := LayerStiffness(d, diam[j], th[j], es[j], log);
      if k.Err? {
        StiffnessesKeepError(d, diam, th, es, log, j + 1, |th|);
        return Err(k.error);
      }
      stiffness := stiffness + [k.value];
      j := j + 1;
    }
    var inv := 0.0;
    var n := 0;
    while n < |stiffness|
      invariant 0 <= n <= |stiffness|
      invariant ReciprocalSum(stiffness, n) == Ok(inv)
    {
      if stiffness[n] == 0.0 {
        return Ok(0.0);
      }
      inv := inv + 1.0 / stiffness[n];
      n := n + 1;
    }
    if inv == 0.0 {
      return Err(ZeroDivisionError);
    }
    r := Ok(1.0 / inv);
  }

  lemma {:induction false} StiffnessesKeepError(d: real, diam: seq<real>, th: seq<real>, es: seq<real>,
                                                log: real -> real, i: nat, n: nat)
    requires i <= n <= |diam| == |th| == |es|
    requires Stiffnesses(d, diam, th, es, log, i).Err?
    ensures Stiffnesses(d, diam, th, es, log, n) == Stiffnesses(d, diam, th, es, log, i)
    decreases n - i
  {
    if i < n {
      StiffnessesKeepError(d, diam, th, es, log, i, n - 1);
    }
  }

  /**
   * calc_substrate_stiffness: copies the thicknesses and moduli (the
   * caller's layers are values and are not changed), finds and splits the
   * middle layer, builds the cone diameters and sums the reciprocal layer
   * stiffnesses.
   */
  method CalcSubstrateStiffness(diameter: real, gripLength: real, layers: seq<Layer>, tanAlpha: real,
                                log: real -> real) returns (r: Result<real>)
    ensures r == SubstrateStiffness(diameter, gripLength, layers, tanAlpha, log)
  {
    if layers == [] {
      return Err(IndexError);
    }
    var thicknesses, moduli, middle := SplitAtCentre(layers, gripLength);
    var diam := ConeDiameters(1.5 * diameter, thicknesses, middle, tanAlpha);
    r := SeriesOfLayers(diameter, diam, thicknesses, moduli, log);
    SubstrateOfSplit(diameter, gripLength, layers, tanAlpha, log, thicknesses, moduli, middle, diam, r);
  }

  lemma SubstrateOfSplit(diameter: real, gripLength: real, layers: seq<Layer>, tanAlpha: real,
                         log: real -> real, th: seq<real>, es: seq<real>, m: nat, diam: seq<real>,
                         r: Result<real>)
    requires layers != [] && (th, es, m) == SplitLayers(layers, gripLength)
    requires diam == Diameters(1.5 * diameter, th, m, tanAlpha) && |diam| == |th| == |es|
    requires r == LayersInSeries(diameter, diam, th, es, log)
    ensures r == SubstrateStiffness(diameter, gripLength, layers, tanAlpha, log)
  {
  }

  /** The copied thickness and modulus lists with the middle layer split at the centre plane. */
  method SplitAtCentre(layers: seq<Layer>, gripLength: real) returns (th: seq<real>, es: seq<real>, m: nat)
    requires layers != []
    ensures (th, es, m) == SplitLayers(layers, gripLength)
  {
    th := Thicknesses(layers);
    es := Moduli(layers);
    var half := 0.5 * gripLength;
    m := FindMiddle(th, half);
    th, es := SplitMiddle(th, es, m, half);
  }

  // ------------------------------------------------------------- the joint constant

  /**
   * fastener_stiffness of a fastener: kb / (km + kb). The bolt stiffness is
   * evaluated first, so its error wins over the members'.
   */
  function JointConstant(f: ThreadedFastener, tanAlpha: real, log: real -> real): (r: Result<real>)
    ensures var kb := BoltStiffness(f.bolt, f.gripLength);
            var km := SubstrateStiffness(f.bolt.diameter, f.gripLength, f.layers, tanAlpha, log);
            (kb.Err? ==> r == Err(kb.error))
            && (kb.Ok? && km.Err? ==> r == Err(km.error))
            && (kb.Ok? && km.Ok? ==> r == FastenerStiffness(kb.value, km.value))
  {
    InSeries(BoltStiffness(f.bolt, f.gripLength),
             SubstrateStiffness(f.bolt.diameter, f.gripLength, f.layers, tanAlpha, log))
  }

  /** The bolt's result first, then the members', then kb / (km + kb). */
  function InSeries(kb: Result<real>, km: Result<real>): (r: Result<real>)
    ensures kb.Err? ==> r == Err(kb.error)
    ensures kb.Ok? && km.Err? ==> r == Err(km.error)
    ensures kb.Ok? && km.Ok? ==> r == FastenerStiffness(kb.value, km.value)
  {
    if kb.Err? then Err(kb.error)
    else if km.Err? then Err(km.error)
    else FastenerStiffness(kb.value, km.value)
  }

  /**
   * For a physical bolt whose shank ends inside the grip and members of
   * positive stiffness, the bolt carries a fraction C strictly between 0
   * and 1 of the external load.
   */
  lemma JointConstantIsFraction(f: ThreadedFastener, tanAlpha: real, log: real -> real)
    requires f.bolt.nominalArea > 0.0 && f.bolt.stressArea > 0.0 && f.bolt.elasticModulus > 0.0
    requires f.gripLength > f.bolt.unthreadedLength >= 0.0
    requires var km := SubstrateStiffness(f.bolt.diameter, f.gripLength, f.layers, tanAlpha, log);
             km.Ok? && km.value > 0.0
    ensures JointConstant(f, tanAlpha, log).Ok?
    ensures 0.0 < JointConstant(f, tanAlpha, log).value < 1.0
  {
    BoltStiffnessInSeries(f.bolt, f.gripLength);
    var kb := BoltStiffness(f.bolt, f.gripLength).value;
    var km := SubstrateStiffness(f.bolt.diameter, f.gripLength, f.layers, tanAlpha, log).value;
    FastenerStiffnessIsFraction(kb, km);
  }

  /** A fastener with no layers fails on the members once the bolt stiffness is defined. */
  lemma NoLayersIsIndexError(f: ThreadedFastener, tanAlpha: real, log: real -> real)
    requires f.layers == [] && BoltStiffness(f.bolt, f.gripLength).Ok?
    ensures JointConstant(f, tanAlpha, log) == Err(IndexError)
  {
  }

  // ------------------------------------------------------------- bolts/threaded_fastener.py

  /** grip_threads of the older revision: grip - ld, with no sign check. */
  function LegacyGripThreads(gripLength: real, unthreadedLength: real): real
  {
    gripLength - unthreadedLength
  }

  /** Where the newer griped_threads refuses a shank at least as long as the grip, the older one returns a length <= 0. */
  lemma LegacyGripThreadsUnchecked(gripLength: real, unthreadedLength: real)
    ensures GripedThreads(gripLength, unthreadedLength).Err? <==> LegacyGripThreads(gripLength, unthreadedLength) <= 0.0
    ensures GripedThreads(gripLength, unthreadedLength).Ok? ==>
              GripedThreads(gripLength, unthreadedLength).value == LegacyGripThreads(gripLength, unthreadedLength)
  {
  }

  /**
   * fastener_stiffness of the older revision, as written: Ad At E / (Ad l +
   * At ld) with the whole grip l as the thread length.
   */
  function LegacyFastenerStiffness(b: BoltData, gripLength: real): (r: Result<real>)
    ensures var den := Denominator(b.nominalArea, b.stressArea, gripLength, b.unthreadedLength);
            (r.Err? <==> den == 0.0) && (r.Err? ==> r.error == ZeroDivisionError)
            && (r.Ok? ==> r.value * den == b.nominalArea * b.stressArea * b.elasticModulus)
  {
    var den := Denominator(b.nominalArea, b.stressArea, gripLength, b.unthreadedLength);
    if den == 0.0 then Err(ZeroDivisionError)
    else Ok((b.nominalArea * b.stressArea * b.elasticModulus) / den)
  }

  /** The older formula is the newer one for a grip longer by the shank: the shank is counted twice. */
  lemma LegacyCountsShankTwice(b: BoltData, gripLength: real)
    ensures LegacyFastenerStiffness(b, gripLength) == BoltStiffness(b, gripLength + b.unthreadedLength)
  {
    assert (gripLength + b.unthreadedLength) - b.unthreadedLength == gripLength;
  }

  /** For positive areas and modulus the older stiffness is positive and falls as the grip grows. */
  lemma LegacyStiffnessFallsWithGrip(b: BoltData, g1: real, g2: real)
    requires b.nominalArea > 0.0 && b.stressArea > 0.0 && b.elasticModulus > 0.0 && b.unthreadedLength >= 0.0
    requires 0.0 < g1 < g2
    ensures LegacyFastenerStiffness(b, g1).Ok? && LegacyFastenerStiffness(b, g2).Ok?
    ensures 0.0 < LegacyFastenerStiffness(b, g2).value < LegacyFastenerStiffness(b, g1).value
  {
    var ad, at, ld := b.nominalArea, b.stressArea, b.unthreadedLength;
    DenominatorPositive(ad, at, g1, ld);
    DenominatorPositive(ad, at, g2, ld);
    DenominatorGrows(ad, at, g1, g2, ld);
    MulPositive(ad, at);
    MulPositive(ad * at, b.elasticModulus);
    QuotientAntitone(ad * at * b.elasticModulus, Denominator(ad, at, g1, ld), Denominator(ad, at, g2, ld));
  }

  /**
   * With a shank (ld > 0) ending inside the grip, the older formula gives a
   * softer bolt than the newer one, which takes lt = grip - ld.
   */
  lemma LegacyBelowBoltStiffness(b: BoltData, gripLength: real)
    requires b.nominalArea > 0.0 && b.stressArea > 0.0 && b.elasticModulus > 0.0
    requires gripLength > b.unthreadedLength > 0.0
    ensures LegacyFastenerStiffness(b, gripLength).Ok? && BoltStiffness(b, gripLength).Ok?
    ensures LegacyFastenerStiffness(b, gripLength).value < BoltStiffness(b, gripLength).value
  {
    var ad, at, ld := b.nominalArea, b.stressArea, b.unthreadedLength;
    DenominatorPositive(ad, at, gripLength - ld, ld);
    DenominatorGrows(ad, at, gripLength - ld, gripLength, ld);
    MulPositive(ad, at);
    MulPositive(ad * at, b.elasticModulus);
    QuotientAntitone(ad * at * b.elasticModulus, Denominator(ad, at, gripLength - ld, ld),
                     Denominator(ad, at, gripLength, ld));
  }

  /** A bolt whose shank and thread lengths are all thread (ld = 0) gets the same stiffness from both formulas. */
  lemma LegacyAgreesWithoutShank(b: BoltData, gripLength: real)
    requires b.unthreadedLength == 0.0
    ensures LegacyFastenerStiffness(b, gripLength) == BoltStiffness(b, gripLength)
  {
    LegacyCountsShankTwice(b, gripLength);
  }

  lemma DenominatorGrows(ad: real, at: real, l1: real, l2: real, ld: real)
    requires ad > 0.0 && l1 < l2
    ensures Denominator(ad, at, l1, ld) < Denominator(ad, at, l2, ld)
  {
    MulPositive(ad, l2 - l1);
    assert ad * l2 - ad * l1 == ad * (l2 - l1);
  }

  lemma QuotientAntitone(n: real, d1: real, d2: real)
    requires n > 0.0 && 0.0 < d1 < d2
    ensures 0.0 < n / d2 < n / d1
  {
    DivPositive(n, d2);
    var q1, q2 := n / d1, n / d2;
    assert q1 * d1 == n && q2 * d2 == n;
    if q2 >= q1 {
      MulPositive(q1, d2 - d1);
      assert false;
    }
  }
}
