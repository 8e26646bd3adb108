// The load distribution of fasteners/bolt_pattern.py: shear by bolt area,
// tension by joint stiffness, the centre of rotation and the neutral point
// as weighted means accumulated in loops, the torque shear about the
// centre, the bolt loads and the three safety factors.

module BoltPatterns {
  import opened Common
  import FailureCriteria

  // ------------------------------------------------------------- vectors

  /** A numpy 3-vector [x, y, z]. */
  datatype Vec = Vec(x: real, y: real, z: real)

  function Sub(a: Vec, b: Vec): Vec
  {
    Vec(a.x - b.x, a.y - b.y, a.z - b.z)
  }

  function Cross(a: Vec, b: Vec): Vec
  {
    Vec(a.y * b.z - a.z * b.y, a.z * b.x - a.x * b.z, a.x * b.y - a.y * b.x)
  }

  function Dot(a: Vec, b: Vec): real
  {
    a.x * b.x + a.y * b.y + a.z * b.z
  }

  /** (c * a) / total: the part of c that a carries out of total. */
  function Share(c: real, a: real, total: real): real
    requires total != 0.0
  {
    (c * a) / total
  }

  /** (v * k) / d, component by component, as numpy evaluates it. */
  function ScaleDiv(v: Vec, k: real, d: real): Vec
    requires d != 0.0
  {
    Vec(Share(v.x, k, d), Share(v.y, k, d), Share(v.z, k, d))
  }

  function Xs(vs: seq<Vec>): (r: seq<real>)
    ensures |r| == |vs| && forall i :: 0 <= i < |vs| ==> r[i] == vs[i].x
  {
    seq(|vs|, i requires 0 <= i < |vs| => vs[i].x)
  }

  function Ys(vs: seq<Vec>): (r: seq<real>)
    ensures |r| == |vs| && forall i :: 0 <= i < |vs| ==> r[i] == vs[i].y
  {
    seq(|vs|, i requires 0 <= i < |vs| => vs[i].y)
  }

  function Zs(vs: seq<Vec>): (r: seq<real>)
    ensures |r| == |vs| && forall i :: 0 <= i < |vs| ==> r[i] == vs[i].z
  {
    seq(|vs|, i requires 0 <= i < |vs| => vs[i].z)
  }

  /** The resultant of a list of forces. */
  function Resultant(vs: seq<Vec>): Vec
  {
    Vec(Sum(Xs(vs)), Sum(Ys(vs)), Sum(Zs(vs)))
  }

  // ------------------------------------------------------------- sums of shares

  /** (c * s_i) / total for each entry: the share of c that s_i carries. */
  function Shares(s: seq<real>, c: real, total: real): (r: seq<real>)
    requires total != 0.0
    ensures |r| == |s| && forall i :: 0 <= i < |s| ==> r[i] == Share(c, s[i], total)
  {
    seq(|s|, i requires 0 <= i < |s| => Share(c, s[i], total))
  }

  lemma SumShares(s: seq<real>, c: real, total: real)
    requires total != 0.0
    ensures Sum(Shares(s, c, total)) == (c * Sum(s)) / total
  {
    var k := c / total;
    var shares := Shares(s, c, total);
    forall i | 0 <= i < |s|
      ensures shares[i] == s[i] * k
    {
      ShareAsScale(c, s[i], total);
    }
    SumScaled(s, shares, k);
    ShareAsScale(c, Sum(s), total);
  }

  /** (c * a) / total is a scaled by c / total. */
  lemma ShareAsScale(c: real, a: real, total: real)
    requires total != 0.0
    ensures Share(c, a, total) == a * (c / total)
  {
  }

  /** Scaling every entry by k scales the sum by k. */
  lemma {:induction false} SumScaled(s: seq<real>, r: seq<real>, k: real)
    requires |r| == |s| && forall i :: 0 <= i < |s| ==> r[i] == s[i] * k
    ensures Sum(r) == Sum(s) * k
    decreases |s|
  {
    if s != [] {
      var n := |s| - 1;
      SumScaled(s[..n], r[..n], k);
      assert Sum(r) == Sum(r[..n]) + r[n];
      assert Sum(s) == Sum(s[..n]) + s[n];
      DistributeOverSum(Sum(s[..n]), s[n], k);
    }
  }

  lemma DistributeOverSum(a: real, b: real, k: real)
    ensures (a + b) * k == a * k + b * k
  {
  }

  /** Shares of c in proportion to s add up to c. */
  lemma SharesAddUp(s: seq<real>, c: real)
    requires Sum(s) != 0.0
    ensures Sum(Shares(s, c, Sum(s))) == c
  {
    var total := Sum(s);
    SumShares(s, c, total);
    ProductOverFactor(c, total);
  }

  lemma ProductOverFactor(c: real, t: real)
    requires t != 0.0
    ensures (c * t) / t == c
  {
  }

  lemma {:induction false} SumStep(s: seq<real>, i: nat)
    requires i < |s|
    ensures Sum(s[..i + 1]) == Sum(s[..i]) + s[i]
  {
    assert s[..i + 1][..i] == s[..i];
  }

  lemma {:induction false} SumPositive(s: seq<real>)
    requires s != [] && forall i :: 0 <= i < |s| ==> s[i] > 0.0
    ensures Sum(s) > 0.0
    decreases |s|
  {
    if |s| > 1 {
      SumPositive(s[..|s| - 1]);
    }
  }

  // ------------------------------------------------------------- the pattern

  /**
   * What the pattern reads from each fastener: the bolt's nominal and
   * stress areas, its preload, the joint constant C, the bolt and member
   * stiffnesses, the bolt's proof load and proof strength.
   */
  datatype PatternFastener = PatternFastener(nominalArea: real, stressArea: real, preload: real,
                                             jointConstant: real, boltStiffness: real,
                                             memberStiffness: real, proofLoad: real,
                                             proofStrength: real)

  /** The fasteners, one location each, the external force, where it acts and where the shear is felt. */
  datatype BoltPattern = BoltPattern(fasteners: seq<PatternFastener>, locations: seq<Vec>,
                                     force: Vec, forceLocation: Vec, shearLocation: string)

  /** The constructor lists the fasteners' preloads. */
  function Preloads(fs: seq<PatternFastener>): (r: seq<real>)
    ensures |r| == |fs| && forall i :: 0 <= i < |fs| ==> r[i] == fs[i].preload
  {
    seq(|fs|, i requires 0 <= i < |fs| => fs[i].preload)
  }

  /** fasteners_stiffness: the joint constants C. */
  function JointConstants(fs: seq<PatternFastener>): (r: seq<real>)
    ensures |r| == |fs| && forall i :: 0 <= i < |fs| ==> r[i] == fs[i].jointConstant
  {
    seq(|fs|, i requires 0 <= i < |fs| => fs[i].jointConstant)
  }

  /** total_stiffness: km + kb of each joint. */
  function TotalStiffness(fs: seq<PatternFastener>): (r: seq<real>)
    ensures |r| == |fs|
    ensures forall i :: 0 <= i < |fs| ==> r[i] == fs[i].memberStiffness + fs[i].boltStiffness
  {
    seq(|fs|, i requires 0 <= i < |fs| => fs[i].memberStiffness + fs[i].boltStiffness)
  }

  /** Stiff members and bolts give every joint a positive total stiffness. */
  lemma TotalStiffnessPositive(fs: seq<PatternFastener>)
    requires forall i :: 0 <= i < |fs| ==> fs[i].memberStiffness > 0.0 && fs[i].boltStiffness > 0.0
    ensures fs != [] ==> Sum(TotalStiffness(fs)) > 0.0
  {
    if fs != [] {
      SumPositive(TotalStiffness(fs));
    }
  }

  /**
   * bolt_shear_area: the nominal areas when the shear is in the shank, the
   * stress areas when it is in the thread, and ValueError otherwise.
   */
  function BoltShearArea(fs: seq<PatternFastener>, shearLocation: string): (r: Result<seq<real>>)
    ensures r.Err? <==> shearLocation != "shank" && shearLocation != "thread"
    ensures r.Err? ==> r.error == ValueError
    ensures r.Ok? ==> |r.value| == |fs|
    ensures shearLocation == "shank" ==> forall i :: 0 <= i < |fs| ==> r.value[i] == fs[i].nominalArea
    ensures shearLocation == "thread" ==> forall i :: 0 <= i < |fs| ==> r.value[i] == fs[i].stressArea
  {
    if shearLocation == "shank" then Ok(seq(|fs|, i requires 0 <= i < |fs| => fs[i].nominalArea))
    else if shearLocation == "thread" then Ok(seq(|fs|, i requires 0 <= i < |fs| => fs[i].stressArea))
    else Err(ValueError)
  }

  /**
   * direct_shear_force: each bolt carries the in-plane external force in
   * proportion to its shear area (the z component is zeroed first).
   */
  function DirectShearForce(force: Vec, areas: seq<real>): (r: seq<Vec>)
    requires areas != [] ==> Sum(areas) != 0.0
    ensures |r| == |areas|
    ensures forall i :: 0 <= i < |r| ==> r[i].z == 0.0
  {
    if areas == [] then []
    else
      var planar := Vec(force.x, force.y, 0.0);
      seq(|areas|, i requires 0 <= i < |areas| => ScaleDiv(planar, areas[i], Sum(areas)))
  }

  /** The direct shear shares add up to the in-plane part of the external force. */
  lemma DirectShearSumsToForce(force: Vec, areas: seq<real>)
    requires areas != [] && Sum(areas) != 0.0
    ensures Resultant(DirectShearForce(force, areas)) == Vec(force.x, force.y, 0.0)
  {
    DirectShearComponents(force, areas);
    SharesAddUp(areas, force.x);
    SharesAddUp(areas, force.y);
    SharesAddUp(areas, 0.0);
  }

  lemma DirectShearComponents(force: Vec, areas: seq<real>)
    requires areas != [] && Sum(areas) != 0.0
    ensures var r := DirectShearForce(force, areas);
            Xs(r) == Shares(areas, force.x, Sum(areas)) && Ys(r) == Shares(areas, force.y, Sum(areas))
            && Zs(r) == Shares(areas, 0.0, Sum(areas))
  {
    var r := DirectShearForce(force, areas);
    var total := Sum(areas);
    forall i | 0 <= i < |r|
      ensures Xs(r)[i] == Shares(areas, force.x, total)[i]
      ensures Ys(r)[i] == Shares(areas, force.y, total)[i]
      ensures Zs(r)[i] == Shares(areas, 0.0, total)[i]
    {
      assert r[i] == ScaleDiv(Vec(force.x, force.y, 0.0), areas[i], total);
    }
  }

  /** A bolt with a larger shear area takes the larger share of a positive pattern. */
  lemma LargerAreaLargerShare(force: Vec, areas: seq<real>, i: nat, j: nat)
    requires i < |areas| && j < |areas| && Sum(areas) > 0.0 && areas[i] <= areas[j] && force.x >= 0.0
    ensures DirectShearForce(force, areas)[i].x <= DirectShearForce(force, areas)[j].x
  {
    var total := Sum(areas);
    assert DirectShearForce(force, areas)[i].x == Share(force.x, areas[i], total);
    assert DirectShearForce(force, areas)[j].x == Share(force.x, areas[j], total);
    ShareMonotone(force.x, areas[i], areas[j], total);
  }

  lemma ShareMonotone(c: real, a: real, b: real, total: real)
    requires c >= 0.0 && a <= b && total > 0.0
    ensures Share(c, a, total) <= Share(c, b, total)
  {
    assert c * a <= c * b by {
      if c > 0.0 && a < b {
        MulPositive(c, b - a);
      }
    }
    DivMonotone(c * a, c * b, total);
  }

  lemma DivMonotone(a: real, b: real, d: real)
    requires a <= b && d > 0.0
    ensures a / d <= b / d
  {
    if a < b {
      DivPositive(b - a, d);
      assert b / d - a / d == (b - a) / d;
    }
  }

  // ------------------------------------------------------------- weighted means

  /** w_i v_i for each pair. */
  function Products(w: seq<real>, v: seq<real>): (r: seq<real>)
    requires |w| == |v|
    ensures |r| == |w| && forall i :: 0 <= i < |w| ==> r[i] == w[i] * v[i]
  {
    seq(|w|, i requires 0 <= i < |w| => w[i] * v[i])
  }

  /**
   * The weighted mean sum(w_i v_i) / sum(w) of one coordinate; no pairs give
   * 0, and a zero total weight over some pairs is a ZeroDivisionError.
   */
  function WeightedMean(w: seq<real>, v: seq<real>): (r: Result<real>)
    requires |w| == |v|
    ensures r.Err? <==> w != [] && Sum(w) == 0.0
    ensures r.Err? ==> r.error == ZeroDivisionError
    ensures w == [] ==> r == Ok(0.0)
  {
    if w == [] then Ok(0.0)
    else if Sum(w) == 0.0 then Err(ZeroDivisionError)
    else Ok(Sum(Products(w, v)) / Sum(w))
  }

  /**
   * One coordinate of center_of_rotation or neutral_point: the loop adds
   * (w_i v_i) / sum(w) pair by pair, dividing at the first pair.
   */
  method AccumulateMean(w: seq<real>, v: seq<real>) returns (r: Result<real>)
    requires |w| == |v|
    ensures r == WeightedMean(w, v)
  {
    var p := Products(w, v);
    var g := 0.0;
    for i := 0 to |w|
      invariant i == 0 ==> g == 0.0
      invariant i > 0 ==> Sum(w) != 0.0 && g == Sum(p[..i]) / Sum(w)
    {
      var total := Sum(w);
      if total == 0.0 {
        return Err(ZeroDivisionError);
      }
      SumStep(p, i);
      assert p[..0] == [];
      g := g + (w[i] * v[i]) / total;
    }
    assert p[..|w|] == p;
    r := Ok(g);
  }

  /**
   * With positive weights the mean lies between the least and the greatest
   * value: the centre of rotation and the neutral point lie within the
   * span of the bolts.
   */
  lemma MeanWithin(w: seq<real>, v: seq<real>, lo: real, hi: real)
    requires |w| == |v| && w != []
    requires forall i :: 0 <= i < |w| ==> w[i] > 0.0 && lo <= v[i] <= hi
    ensures WeightedMean(w, v).Ok? && lo <= WeightedMean(w, v).value <= hi
  {
    SumPositive(w);
    ProductsBetween(w, v, lo, hi);
    MeanBetween(WeightedMean(w, v), Sum(Products(w, v)), Sum(w), lo, hi);
  }

  lemma MeanBetween(r: Result<real>, m: real, s: real, lo: real, hi: real)
    requires s > 0.0 && lo * s <= m <= hi * s && r == Ok(m / s)
    ensures r.Ok? && lo <= r.value <= hi
  {
    QuotientBetween(m, s, lo, hi);
  }

  lemma ProductsBetween(w: seq<real>, v: seq<real>, lo: real, hi: real)
    requires |w| == |v|
    requires forall i :: 0 <= i < |w| ==> w[i] > 0.0 && lo <= v[i] <= hi
    ensures lo * Sum(w) <= Sum(Products(w, v)) <= hi * Sum(w)
  {
    ProductsAbove(w, v, lo);
    ProductsBelow(w, v, hi);
  }

  lemma {:induction false} ProductsAbove(w: seq<real>, v: seq<real>, lo: real)
    requires |w| == |v|
    requires forall i :: 0 <= i < |w| ==> w[i] > 0.0 && lo <= v[i]
    ensures lo * Sum(w) <= Sum(Products(w, v))
    decreases |w|
  {
    if w == [] {
      ProductsEmpty(w, v, lo);
    } else {
      var n := |w| - 1;
      ProductsAbove(w[..n], v[..n], lo);
      ProductsAboveStep(w, v, lo);
    }
  }

  lemma ProductsAboveStep(w: seq<real>, v: seq<real>, lo: real)
    requires |w| == |v| && w != []
    requires w[|w| - 1] > 0.0 && lo <= v[|w| - 1]
    requires lo * Sum(w[..|w| - 1]) <= Sum(Products(w[..|w| - 1], v[..|w| - 1]))
    ensures lo * Sum(w) <= Sum(Products(w, v))
  {
    var n := |w| - 1;
    ScaleAbove(w[n], v[n], lo);
    SumProductsStep(w, v);
    CombineBounds(lo, lo, Sum(w), Sum(w[..n]), w[n]);
    AddBounds(lo * Sum(w), lo * Sum(w[..n]), lo * w[n], Sum(Products(w[..n], v[..n])), w[n] * v[n],
              Sum(Products(w, v)));
  }

  lemma {:induction false} ProductsBelow(w: seq<real>, v: seq<real>, hi: real)
    requires |w| == |v|
    requires forall i :: 0 <= i < |w| ==> w[i] > 0.0 && v[i] <= hi
    ensures Sum(Products(w, v)) <= hi * Sum(w)
    decreases |w|
  {
    if w == [] {
      ProductsEmpty(w, v, hi);
    } else {
      var n := |w| - 1;
      ProductsBelow(w[..n], v[..n], hi);
      ScaleBelow(w[n], v[n], hi);
      SumProductsStep(w, v);
      CombineBounds(hi, hi, Sum(w), Sum(w[..n]), w[n]);
      AddBounds(Sum(Products(w, v)), Sum(Products(w[..n], v[..n])), w[n] * v[n], hi * Sum(w[..n]), hi * w[n],
                hi * Sum(w));
    }
  }

  lemma SumProductsStep(w: seq<real>, v: seq<real>)
    requires |w| == |v| && w != []
    ensures var n := |w| - 1;
            Sum(Products(w, v)) == Sum(Products(w[..n], v[..n])) + w[n] * v[n]
  {
    var n := |w| - 1;
    forall k | 0 <= k < n
      ensures Products(w, v)[k] == Products(w[..n], v[..n])[k]
    {
    }
    assert Products(w, v)[..n] == Products(w[..n], v[..n]);
  }

  lemma ProductsEmpty(w: seq<real>, v: seq<real>, c: real)
    requires w == [] && v == []
    ensures c * Sum(w) == 0.0 && Sum(Products(w, v)) == 0.0
  {
    assert Products(w, v) == [];
    MulCongruent(c, Sum(w), 0.0);
  }

  lemma MulCongruent(c: real, s: real, t: real)
    requires s == t
    ensures c * s == c * t
  {
  }

  /** c s = c sf + c a when s = sf + a. */
  lemma CombineBounds(c: real, c2: real, s: real, sf: real, a: real)
    requires s == sf + a && c == c2
    ensures c * s == c2 * sf + c2 * a
  {
  }

  /** x = y + z, y <= u, z <= v and t = u + v give x <= t. */
  lemma AddBounds(x: real, y: real, z: real, u: real, v: real, t: real)
    requires x == y + z && y <= u && z <= v && t == u + v
    ensures x <= t
  {
  }

  lemma ScaleAbove(a: real, x: real, lo: real)
    requires a > 0.0 && lo <= x
    ensures lo * a <= a * x
  {
    if lo < x {
      MulPositive(a, x - lo);
    }
  }

  lemma ScaleBelow(a: real, x: real, hi: real)
    requires a > 0.0 && x <= hi
    ensures a * x <= hi * a
  {
    if x < hi {
      MulPositive(a, hi - x);
    }
  }

  lemma QuotientBetween(m: real, s: real, lo: real, hi: real)
    requires s > 0.0 && lo * s <= m <= hi * s
    ensures lo <= m / s <= hi
  {
    DivMonotone(lo * s, m, s);
    DivMonotone(m, hi * s, s);
  }

  /** Bolts that all sit at one coordinate put the mean there. */
  lemma MeanOfCoincident(w: seq<real>, v: seq<real>, c: real)
    requires |w| == |v| && w != []
    requires forall i :: 0 <= i < |w| ==> w[i] > 0.0 && v[i] == c
    ensures WeightedMean(w, v) == Ok(c)
  {
    MeanWithin(w, v, c, c);
  }

  /** The weighted centre of a set of locations, coordinate by coordinate. */
  function Center(w: seq<real>, locations: seq<Vec>): (r: Result<Vec>)
    requires |w| == |locations|
    ensures r.Err? <==> w != [] && Sum(w) == 0.0
    ensures r.Err? ==> r.error == ZeroDivisionError
    ensures r.Ok? ==> r.value == Vec(WeightedMean(w, Xs(locations)).value, WeightedMean(w, Ys(locations)).value,
                                     WeightedMean(w, Zs(locations)).value)
  {
    var gx := WeightedMean(w, Xs(locations));
    if gx.Err? then Err(gx.error)
    else Ok(Vec(gx.value, WeightedMean(w, Ys(locations)).value, WeightedMean(w, Zs(locations)).value))
  }

  /** The three loops of center_of_rotation and neutral_point. */
  method Centroid(w: seq<real>, locations: seq<Vec>) returns (r: Result<Vec>)
    requires |w| == |locations|
    ensures r == Center(w, locations)
  {
    var gx := AccumulateMean(w, Xs(locations));
    if gx.Err? {
      return Err(gx.error);
    }
    var gy := AccumulateMean(w, Ys(locations));
    var gz := AccumulateMean(w, Zs(locations));
    r := Ok(Vec(gx.value, gy.value, gz.value));
  }

  predicate WellFormed(p: BoltPattern)
  {
    |p.fasteners| == |p.locations|
  }

  /** center_of_rotation (G): the shear-area-weighted mean of the bolt locations. */
  function RotationCenter(p: BoltPattern): (r: Result<Vec>)
    requires WellFormed(p)
    ensures var areas := BoltShearArea(p.fasteners, p.shearLocation);
            (areas.Err? ==> r == Err(areas.error))
            && (areas.Ok? ==> r == Center(areas.value, p.locations))
  {
    var areas := BoltShearArea(p.fasteners, p.shearLocation);
    if areas.Err? then Err(areas.error) else Center(areas.value, p.locations)
  }

  method CenterOfRotation(p: BoltPattern) returns (r: Result<Vec>)
    requires WellFormed(p)
    ensures r == RotationCenter(p)
  {
    var areas := BoltShearArea(p.fasteners, p.shearLocation);
    if areas.Err? {
      return Err(areas.error);
    }
    r := Centroid(areas.value, p.locations);
  }

  /** neutral_point (H): the stiffness-weighted mean of the bolt locations. */
  method NeutralPoint(p: BoltPattern) returns (r: Result<Vec>)
    requires WellFormed(p)
    ensures r == Center(TotalStiffness(p.fasteners), p.locations)
  {
    r := Centroid(TotalStiffness(p.fasteners), p.locations);
  }

  /** Identical stiff joints put the neutral point at the mean location: H is G when every bolt is alike. */
  lemma NeutralPointOfCoincidentBolts(p: BoltPattern, c: Vec)
    requires WellFormed(p) && p.fasteners != []
    requires forall i :: 0 <= i < |p.fasteners| ==>
               p.fasteners[i].memberStiffness > 0.0 && p.fasteners[i].boltStiffness > 0.0 && p.locations[i] == c
    ensures Center(TotalStiffness(p.fasteners), p.locations) == Ok(c)
  {
    var w := TotalStiffness(p.fasteners);
    MeanOfCoincident(w, Xs(p.locations), c.x);
    MeanOfCoincident(w, Ys(p.locations), c.y);
    MeanOfCoincident(w, Zs(p.locations), c.z);
  }

  // ------------------------------------------------------------- direct normal load

  /**
   * direct_normal_load: each joint takes the axial force F_z in proportion
   * to its total stiffness, as a vector along z.
   */
  function DirectNormalLoad(fz: real, ks: seq<real>): (r: Result<seq<Vec>>)
    ensures r.Err? <==> ks != [] && Sum(ks) == 0.0
    ensures r.Err? ==> r.error == ZeroDivisionError
    ensures r.Ok? ==> |r.value| == |ks| && forall i :: 0 <= i < |ks| ==> r.value[i].x == 0.0 && r.value[i].y == 0.0
  {
    if ks == [] then Ok([])
    else if Sum(ks) == 0.0 then Err(ZeroDivisionError)
    else Ok(seq(|ks|, i requires 0 <= i < |ks| => Vec(0.0, 0.0, Share(fz, ks[i], Sum(ks)))))
  }

  /** The axial shares add up to F_z, and equal stiffnesses take equal shares. */
  lemma DirectNormalSumsToForce(fz: real, ks: seq<real>)
    requires ks != [] && Sum(ks) != 0.0
    ensures Resultant(DirectNormalLoad(fz, ks).value) == Vec(0.0, 0.0, fz)
  {
    var r := DirectNormalLoad(fz, ks).value;
    var total := Sum(ks);
    forall i | 0 <= i < |r|
      ensures Xs(r)[i] == Shares(ks, 0.0, total)[i] && Ys(r)[i] == Shares(ks, 0.0, total)[i]
      ensures Zs(r)[i] == Shares(ks, fz, total)[i]
    {
    }
    assert Xs(r) == Shares(ks, 0.0, total) && Ys(r) == Shares(ks, 0.0, total);
    assert Zs(r) == Shares(ks, fz, total);
    SharesAddUp(ks, 0.0);
    SharesAddUp(ks, fz);
  }

  // ------------------------------------------------------------- torque shear

  /**
   * The torque of the external force about the centre of rotation G with
   * its x and y components zeroed: only twisting in the joint plane shears
   * the bolts.
   */
  function TorqueAboutCenter(force: Vec, forceLocation: Vec, g: Vec): (t: Vec)
    ensures t.x == 0.0 && t.y == 0.0
  {
    var full := Cross(Sub(forceLocation, g), force);
    Vec(0.0, 0.0, full.z)
  }

  /** The twisting torque ignores the axial force and the heights of the force and of G. */
  lemma TorqueIgnoresAxialParts(force: Vec, forceLocation: Vec, g: Vec, fz: real, lz: real, gz: real)
    ensures TorqueAboutCenter(Vec(force.x, force.y, fz), Vec(forceLocation.x, forceLocation.y, lz), Vec(g.x, g.y, gz))
            == TorqueAboutCenter(force, forceLocation, g)
  {
  }

  /** A force whose line of action passes through G twists nothing; reversing the force reverses the torque. */
  lemma TorqueThroughCenter(force: Vec, g: Vec, k: real, z: real)
    ensures TorqueAboutCenter(force, Vec(g.x + k * force.x, g.y + k * force.y, z), g) == Vec(0.0, 0.0, 0.0)
  {
    var lever := Sub(Vec(g.x + k * force.x, g.y + k * force.y, z), g);
    assert lever.x == k * force.x && lever.y == k * force.y;
    assert lever.x * force.y - lever.y * force.x == 0.0;
  }

  /** rGi: each bolt's offset from G. */
  function Offsets(locations: seq<Vec>, g: Vec): (r: seq<Vec>)
    ensures |r| == |locations| && forall i :: 0 <= i < |locations| ==> r[i] == Sub(locations[i], g)
  {
    seq(|locations|, i requires 0 <= i < |locations| => Sub(locations[i], g))
  }

  /** A_i |r_i|^2 for each bolt. */
  function PolarTerms(areas: seq<real>, rs: seq<Vec>): (r: seq<real>)
    requires |areas| == |rs|
    ensures |r| == |areas| && forall i :: 0 <= i < |areas| ==> r[i] == areas[i] * Dot(rs[i], rs[i])
  {
    seq(|areas|, i requires 0 <= i < |areas| => areas[i] * Dot(rs[i], rs[i]))
  }

  /** The loop of torque_shear_force that accumulates b = sum(A_i |r_i|^2). */
  method PolarMoment(areas: seq<real>, rs: seq<Vec>) returns (b: real)
    requires |areas| == |rs|
    ensures b == Sum(PolarTerms(areas, rs))
  {
    var terms := PolarTerms(areas, rs);
    b := 0.0;
    for i := 0 to |areas|
      invariant b == Sum(terms[..i])
    {
      SumStep(terms, i);
      b := b + areas[i] * Dot(rs[i], rs[i]);
    }
    assert terms[..|areas|] == terms;
  }

  /** With positive areas, b is positive as soon as one bolt lies off G. */
  lemma PolarMomentPositive(areas: seq<real>, rs: seq<Vec>, k: nat)
    requires |areas| == |rs| && k < |rs| && rs[k] != Vec(0.0, 0.0, 0.0)
    requires forall i :: 0 <= i < |areas| ==> areas[i] > 0.0
    ensures Sum(PolarTerms(areas, rs)) > 0.0
  {
    var terms := PolarTerms(areas, rs);
    forall i | 0 <= i < |terms|
      ensures terms[i] >= 0.0
    {
      DotSelfNonNegative(rs[i]);
      if Dot(rs[i], rs[i]) > 0.0 {
        MulPositive(areas[i], Dot(rs[i], rs[i]));
      }
    }
    DotSelfPositive(rs[k]);
    MulPositive(areas[k], Dot(rs[k], rs[k]));
    SumPositiveSome(terms, k);
  }

  lemma DotSelfNonNegative(r: Vec)
    ensures Dot(r, r) >= 0.0
  {
    SquareNonNegative(r.x);
    SquareNonNegative(r.y);
    SquareNonNegative(r.z);
    assert Dot(r, r) == Square(r.x) + Square(r.y) + Square(r.z);
  }

  lemma DotSelfPositive(r: Vec)
    requires r != Vec(0.0, 0.0, 0.0)
    ensures Dot(r, r) > 0.0
  {
    SquareNonNegative(r.x);
    SquareNonNegative(r.y);
    SquareNonNegative(r.z);
    if r.x != 0.0 {
      SquarePositive(r.x);
    } else if r.y != 0.0 {
      SquarePositive(r.y);
    } else {
      SquarePositive(r.z);
    }
    assert Dot(r, r) == Square(r.x) + Square(r.y) + Square(r.z);
  }

  lemma SquareNonNegative(x: real)
    ensures Square(x) >= 0.0
  {
    if x != 0.0 {
      SquarePositive(x);
    }
  }

  lemma {:induction false} SumPositiveSome(s: seq<real>, k: nat)
    requires k < |s| && s[k] > 0.0 && forall i :: 0 <= i < |s| ==> s[i] >= 0.0
    ensures Sum(s) > 0.0
    decreases |s|
  {
    var n := |s| - 1;
    if k < n {
      SumPositiveSome(s[..n], k);
    } else {
      SumNonNegative(s[..n]);
    }
  }

  lemma {:induction false} SumNonNegative(s: seq<real>)
    requires forall i :: 0 <= i < |s| ==> s[i] >= 0.0
    ensures Sum(s) >= 0.0
    decreases |s|
  {
    if s != [] {
      SumNonNegative(s[..|s| - 1]);
    }
  }

  /** (T x r_i) A_i / b for each bolt: the shear that resists the torque. */
  function TorqueShares(t: Vec, areas: seq<real>, rs: seq<Vec>, b: real): (r: seq<Vec>)
    requires |areas| == |rs| && (areas != [] ==> b != 0.0)
    ensures |r| == |areas|
  {
    if areas == [] then []
    else seq(|areas|, i requires 0 <= i < |areas| => ScaleDiv(Cross(t, rs[i]), areas[i], b))
  }

  /** Each torque share lies in the joint plane, perpendicular to the bolt's offset from G. */
  lemma TorqueSharePerpendicular(t: Vec, areas: seq<real>, rs: seq<Vec>, b: real, i: nat)
    requires |areas| == |rs| && b != 0.0 && i < |areas| && t.x == 0.0 && t.y == 0.0
    ensures TorqueShares(t, areas, rs, b)[i].z == 0.0
    ensures Dot(TorqueShares(t, areas, rs, b)[i], rs[i]) == 0.0
  {
    var f := TorqueShares(t, areas, rs, b)[i];
    var r := rs[i];
    var k := Share(t.z, areas[i], b);
    TorqueShareComponents(t, areas[i], r, b);
    assert f == ScaleDiv(Cross(t, r), areas[i], b);
    assert Dot(f, r) == (-r.y * k) * r.x + (r.x * k) * r.y;
  }

  /** With T along z, (T x r) A / b is (-r_y k, r_x k, 0) for k = T_z A / b. */
  lemma TorqueShareComponents(t: Vec, a: real, r: Vec, b: real)
    requires b != 0.0 && t.x == 0.0 && t.y == 0.0
    ensures var f := ScaleDiv(Cross(t, r), a, b);
            f.x == -r.y * Share(t.z, a, b) && f.y == r.x * Share(t.z, a, b) && f.z == 0.0
  {
    var c := Cross(t, r);
    assert c.x == t.z * -r.y && c.y == t.z * r.x && c.z == 0.0;
    ShareFactor(t.z, -r.y, a, b);
    ShareFactor(t.z, r.x, a, b);
  }

  lemma ShareFactor(c: real, u: real, a: real, b: real)
    requires b != 0.0
    ensures Share(c * u, a, b) == u * Share(c, a, b)
  {
  }

  lemma ShareScale(c: real, a: real, d: real, b: real)
    requires b != 0.0
    ensures Share(c, a * d, b) == d * Share(c, a, b)
  {
  }

  /** The moment of each bolt's torque share about G: r_i x F_i along z. */
  function ResistingMoments(t: Vec, areas: seq<real>, rs: seq<Vec>, b: real): (r: seq<real>)
    requires |areas| == |rs| && (areas != [] ==> b != 0.0)
    ensures |r| == |areas|
  {
    var fs := TorqueShares(t, areas, rs, b);
    seq(|areas|, i requires 0 <= i < |areas| => Cross(rs[i], fs[i]).z)
  }

  /**
   * For bolts in the plane of G (no offset along z), the torque shares
   * together resist exactly the twisting torque: sum(r_i x F_i) = T_z.
   */
  lemma TorqueSharesBalance(t: Vec, areas: seq<real>, rs: seq<Vec>)
    requires |areas| == |rs| && areas != [] && Sum(PolarTerms(areas, rs)) != 0.0
    requires t.x == 0.0 && t.y == 0.0 && forall i :: 0 <= i < |rs| ==> rs[i].z == 0.0
    ensures Sum(ResistingMoments(t, areas, rs, Sum(PolarTerms(areas, rs)))) == t.z
  {
    var b := Sum(PolarTerms(areas, rs));
    var ms := ResistingMoments(t, areas, rs, b);
    forall i | 0 <= i < |ms|
      ensures ms[i] == Shares(PolarTerms(areas, rs), t.z, b)[i]
    {
      ResistingMomentAt(t, areas, rs, b, i);
    }
    assert ms == Shares(PolarTerms(areas, rs), t.z, b);
    SharesAddUp(PolarTerms(areas, rs), t.z);
  }

  lemma ResistingMomentAt(t: Vec, areas: seq<real>, rs: seq<Vec>, b: real, i: nat)
    requires |areas| == |rs| && i < |rs| && b != 0.0 && t.x == 0.0 && t.y == 0.0 && rs[i].z == 0.0
    ensures ResistingMoments(t, areas, rs, b)[i] == Share(t.z, PolarTerms(areas, rs)[i], b)
  {
    ResistingMoment(t, areas[i], rs[i], b);
    assert TorqueShares(t, areas, rs, b)[i] == ScaleDiv(Cross(t, rs[i]), areas[i], b);
  }

  lemma ResistingMoment(t: Vec, a: real, r: Vec, b: real)
    requires b != 0.0 && t.x == 0.0 && t.y == 0.0 && r.z == 0.0
    ensures Cross(r, ScaleDiv(Cross(t, r), a, b)).z == Share(t.z, a * Dot(r, r), b)
  {
    var k := Share(t.z, a, b);
    TorqueShareComponents(t, a, r, b);
    var f := ScaleDiv(Cross(t, r), a, b);
    assert Cross(r, f).z == r.x * (r.x * k) - r.y * (-r.y * k);
    assert Dot(r, r) == r.x * r.x + r.y * r.y;
    ShareScale(t.z, a, Dot(r, r), b);
  }

  /** torque_shear_force is defined: b is not zero when there are bolts (numpy would give inf or nan). */
  predicate TorqueDefined(p: BoltPattern)
    requires WellFormed(p)
  {
    var g := RotationCenter(p);
    g.Ok? && p.fasteners != [] ==>
      Sum(PolarTerms(BoltShearArea(p.fasteners, p.shearLocation).value, Offsets(p.locations, g.value))) != 0.0
  }

  /** torque_shear_force: G, the twisting torque about it, b, then each bolt's share. */
  function TorqueShearOf(p: BoltPattern): (r: Result<seq<Vec>>)
    requires WellFormed(p) && TorqueDefined(p)
    ensures r.Err? <==> RotationCenter(p).Err?
    ensures r.Ok? ==> |r.value| == |p.fasteners|
  {
    var g := RotationCenter(p);
    if g.Err? then Err(g.error)
    else
      var areas := BoltShearArea(p.fasteners, p.shearLocation).value;
      var rs := Offsets(p.locations, g.value);
      Ok(TorqueShares(TorqueAboutCenter(p.force, p.forceLocation, g.value), areas, rs, Sum(PolarTerms(areas, rs))))
  }

  method TorqueShearForce(p: BoltPattern) returns (r: Result<seq<Vec>>)
    requires WellFormed(p) && TorqueDefined(p)
    ensures r == TorqueShearOf(p)
  {
    var g := CenterOfRotation(p);
    if g.Err? {
      return Err(g.error);
    }
    var t := TorqueAboutCenter(p.force, p.forceLocation, g.value);
    var rs := Offsets(p.locations, g.value);
    var areas := BoltShearArea(p.fasteners, p.shearLocation).value;
    var b := PolarMoment(areas, rs);
    r := Ok(TorqueShares(t, areas, rs, b));
  }

  /** v_i - c for each value. */
  function Shifted(v: seq<real>, c: real): (r: seq<real>)
    ensures |r| == |v| && forall i :: 0 <= i < |v| ==> r[i] == v[i] - c
  {
    seq(|v|, i requires 0 <= i < |v| => v[i] - c)
  }

  /** sum(w_i (v_i - c)) = sum(w_i v_i) - c sum(w). */
  lemma {:induction false} ProductsShift(w: seq<real>, v: seq<real>, c: real)
    requires |w| == |v|
    ensures Sum(Products(w, Shifted(v, c))) == Sum(Products(w, v)) - c * Sum(w)
    decreases |w|
  {
    if w == [] {
      ProductsEmpty(w, v, c);
      assert Products(w, Shifted(v, c)) == [];
    } else {
      var n := |w| - 1;
      assert Shifted(v, c)[..n] == Shifted(v[..n], c);
      ProductsShift(w[..n], v[..n], c);
      ProductsShiftStep(w, v, c);
    }
  }

  lemma ProductsShiftStep(w: seq<real>, v: seq<real>, c: real)
    requires |w| == |v| && w != []
    requires var n := |w| - 1;
             Sum(Products(w[..n], Shifted(v[..n], c))) == Sum(Products(w[..n], v[..n])) - c * Sum(w[..n])
    ensures Sum(Products(w, Shifted(v, c))) == Sum(Products(w, v)) - c * Sum(w)
  {
    var n := |w| - 1;
    SumProductsStep(w, v);
    SumProductsStep(w, Shifted(v, c));
    assert Shifted(v, c)[..n] == Shifted(v[..n], c);
    CombineBounds(c, c, Sum(w), Sum(w[..n]), w[n]);
    assert w[n] * (v[n] - c) == w[n] * v[n] - c * w[n];
  }

  /** The weighted offsets from the weighted mean cancel: sum(w_i (v_i - mean)) = 0. */
  lemma {:induction false} FirstMomentAboutMean(w: seq<real>, v: seq<real>, m: real)
    requires |w| == |v| && m * Sum(w) == Sum(Products(w, v))
    ensures Sum(Products(w, Shifted(v, m))) == 0.0
  {
    ProductsShift(w, v, m);
  }

  /** The mean times the total weight is the first moment. */
  lemma MeanTimesTotal(w: seq<real>, v: seq<real>)
    requires |w| == |v| && w != [] && Sum(w) != 0.0
    ensures WeightedMean(w, v).value * Sum(w) == Sum(Products(w, v))
  {
    QuotientTimes(Sum(Products(w, v)), Sum(w));
  }

  lemma QuotientTimes(m: real, s: real)
    requires s != 0.0
    ensures (m / s) * s == m
  {
  }

  /** The offsets of the locations from their weighted center have no first moment. */
  lemma {:induction false} MomentAboutMean(w: seq<real>, v: seq<real>)
    requires |w| == |v| && w != [] && Sum(w) != 0.0
    ensures Sum(Products(w, Shifted(v, WeightedMean(w, v).value))) == 0.0
  {
    MeanTimesTotal(w, v);
    FirstMomentAboutMean(w, v, WeightedMean(w, v).value);
  }

  /** About the area centroid G, sum(A_i x_i) and sum(A_i y_i) of the offsets vanish. */
  lemma {:induction false} OffsetsAboutCenter(areas: seq<real>, locations: seq<Vec>)
    requires |areas| == |locations| && areas != [] && Sum(areas) != 0.0
    ensures var rs := Offsets(locations, Center(areas, locations).value);
            Sum(Products(areas, Xs(rs))) == 0.0 && Sum(Products(areas, Ys(rs))) == 0.0
  {
    var g := Center(areas, locations).value;
    var rs := Offsets(locations, g);
    assert Xs(rs) == Shifted(Xs(locations), g.x);
    assert Ys(rs) == Shifted(Ys(locations), g.y);
    MomentAboutMean(areas, Xs(locations));
    MomentAboutMean(areas, Ys(locations));
  }

  lemma {:induction false} TorqueSharesX(t: Vec, areas: seq<real>, rs: seq<Vec>, b: real)
    requires |areas| == |rs| && areas != [] && b != 0.0 && t.x == 0.0 && t.y == 0.0
    ensures Xs(TorqueShares(t, areas, rs, b)) == Shares(Products(areas, Ys(rs)), -t.z, b)
  {
    var fs := TorqueShares(t, areas, rs, b);
    forall i | 0 <= i < |fs|
      ensures Xs(fs)[i] == Shares(Products(areas, Ys(rs)), -t.z, b)[i]
    {
      TorqueShareComponents(t, areas[i], rs[i], b);
      ShareScale(-t.z, areas[i], rs[i].y, b);
      ShareFactor(t.z, -1.0, areas[i], b);
    }
  }

  lemma {:induction false} TorqueSharesY(t: Vec, areas: seq<real>, rs: seq<Vec>, b: real)
    requires |areas| == |rs| && areas != [] && b != 0.0 && t.x == 0.0 && t.y == 0.0
    ensures Ys(TorqueShares(t, areas, rs, b)) == Shares(Products(areas, Xs(rs)), t.z, b)
  {
    var fs := TorqueShares(t, areas, rs, b);
    forall i | 0 <= i < |fs|
      ensures Ys(fs)[i] == Shares(Products(areas, Xs(rs)), t.z, b)[i]
    {
      TorqueShareComponents(t, areas[i], rs[i], b);
      ShareScale(t.z, areas[i], rs[i].x, b);
    }
  }

  lemma {:induction false} TorqueSharesZ(t: Vec, areas: seq<real>, rs: seq<Vec>, b: real)
    requires |areas| == |rs| && areas != [] && b != 0.0 && t.x == 0.0 && t.y == 0.0
    ensures Zs(TorqueShares(t, areas, rs, b)) == Shares(areas, 0.0, b)
  {
    var fs := TorqueShares(t, areas, rs, b);
    forall i | 0 <= i < |fs|
      ensures Zs(fs)[i] == Shares(areas, 0.0, b)[i]
    {
      TorqueShareComponents(t, areas[i], rs[i], b);
    }
  }

  /**
   * When the offsets have no first moment (as about G), the torque shares
   * add no net force: they only twist.
   */
  lemma {:induction false} TorqueSharesNoNetForce(t: Vec, areas: seq<real>, rs: seq<Vec>, b: real)
    requires |areas| == |rs| && areas != [] && b != 0.0 && t.x == 0.0 && t.y == 0.0
    requires Sum(Products(areas, Xs(rs))) == 0.0 && Sum(Products(areas, Ys(rs))) == 0.0
    ensures Resultant(TorqueShares(t, areas, rs, b)) == Vec(0.0, 0.0, 0.0)
  {
    TorqueSharesX(t, areas, rs, b);
    TorqueSharesY(t, areas, rs, b);
    TorqueSharesZ(t, areas, rs, b);
    SumShares(Products(areas, Ys(rs)), -t.z, b);
    SumShares(Products(areas, Xs(rs)), t.z, b);
    SumShares(areas, 0.0, b);
  }

  /** total_shear_force: the direct and the torque share of each bolt, paired as zip pairs them. */
  function TotalShearForce(direct: seq<Vec>, torque: seq<Vec>): (r: seq<Vec>)
    ensures |r| == Shorter(|direct|, |torque|)
    ensures forall i :: 0 <= i < |r| ==> r[i] == Vec(direct[i].x + torque[i].x, direct[i].y + torque[i].y,
                                                   direct[i].z + torque[i].z)
  {
    var n := Shorter(|direct|, |torque|);
    seq(n, i requires 0 <= i < n => Vec(direct[i].x + torque[i].x, direct[i].y + torque[i].y,
                                        direct[i].z + torque[i].z))
  }

  lemma {:induction false} SumPairwise(a: seq<real>, b: seq<real>, c: seq<real>)
    requires |a| == |b| == |c| && forall i :: 0 <= i < |c| ==> c[i] == a[i] + b[i]
    ensures Sum(c) == Sum(a) + Sum(b)
    decreases |c|
  {
    if c != [] {
      var n := |c| - 1;
      SumPairwise(a[..n], b[..n], c[..n]);
    }
  }

  /**
   * The total shear forces of the bolts add up to the in-plane external
   * force: the direct shares carry it and the torque shares cancel.
   */
  lemma {:induction false} TotalShearSumsToForce(p: BoltPattern)
    requires WellFormed(p) && TorqueDefined(p) && p.fasteners != [] && RotationCenter(p).Ok?
    ensures var areas := BoltShearArea(p.fasteners, p.shearLocation).value;
            Resultant(TotalShearForce(DirectShearForce(p.force, areas), TorqueShearOf(p).value))
            == Vec(p.force.x, p.force.y, 0.0)
  {
    var areas := BoltShearArea(p.fasteners, p.shearLocation).value;
    var g := RotationCenter(p).value;
    var t := TorqueAboutCenter(p.force, p.forceLocation, g);
    var direct := DirectShearForce(p.force, areas);
    var torque := TorqueShearOf(p).value;
    var total := TotalShearForce(direct, torque);
    DirectShearSumsToForce(p.force, areas);
    var rs := Offsets(p.locations, g);
    OffsetsAboutCenter(areas, p.locations);
    TorqueSharesNoNetForce(t, areas, rs, Sum(PolarTerms(areas, rs)));
    SumPairwise(Xs(direct), Xs(torque), Xs(total));
    SumPairwise(Ys(direct), Ys(torque), Ys(total));
    SumPairwise(Zs(direct), Zs(torque), Zs(total));
  }

  // ------------------------------------------------------------- stresses

  /** The length of what zip yields from two lists. */
  function Shorter(a: nat, b: nat): (n: nat)
    ensures n <= a && n <= b && (n == a || n == b)
  {
    if a <= b then a else b
  }

  /** norm(v), with the square root a parameter. */
  function Norm(v: Vec, sqrt: real -> real): (n: real)
    requires FailureCriteria.IsSquareRoot(sqrt)
    ensures n >= 0.0 && n * n == Dot(v, v)
  {
    DotSelfNonNegative(v);
    sqrt(Dot(v, v))
  }

  /** shear_stress: |F_i| / A_i for each pair zip forms (numpy would give inf for a zero area). */
  function ShearStress(forces: seq<Vec>, areas: seq<real>, sqrt: real -> real): (r: seq<real>)
    requires FailureCriteria.IsSquareRoot(sqrt)
    requires forall i :: 0 <= i < |areas| ==> areas[i] != 0.0
    ensures |r| == Shorter(|forces|, |areas|)
    ensures forall i :: 0 <= i < |r| ==> r[i] * areas[i] == Norm(forces[i], sqrt)
  {
    var n := Shorter(|forces|, |areas|);
    seq(n, i requires 0 <= i < n => Norm(forces[i], sqrt) / areas[i])
  }

  /** Over positive areas no shear stress is negative. */
  lemma ShearStressNonNegative(forces: seq<Vec>, areas: seq<real>, sqrt: real -> real, i: nat)
    requires FailureCriteria.IsSquareRoot(sqrt)
    requires forall k :: 0 <= k < |areas| ==> areas[k] > 0.0
    requires i < |forces| && i < |areas|
    ensures ShearStress(forces, areas, sqrt)[i] >= 0.0
  {
    var tau := ShearStress(forces, areas, sqrt)[i];
    var a := areas[i];
    assert tau * a >= 0.0;
    if tau < 0.0 {
      MulPositive(-tau, a);
    }
  }

  /** normal_stress: F_b / A_t of each bolt (numpy would give inf for a zero stress area). */
  function NormalStress(boltLoads: seq<real>, stressAreas: seq<real>): (r: seq<real>)
    requires |boltLoads| == |stressAreas| && forall i :: 0 <= i < |stressAreas| ==> stressAreas[i] != 0.0
    ensures |r| == |boltLoads|
    ensures forall i :: 0 <= i < |r| ==> r[i] * stressAreas[i] == boltLoads[i]
  {
    seq(|boltLoads|, i requires 0 <= i < |boltLoads| => boltLoads[i] / stressAreas[i])
  }

  /** The von Mises stress of one bolt: sqrt(sigma^2 + 3 tau^2). */
  function EquivalentStress(sigma: real, tau: real, sqrt: real -> real): (r: real)
    requires FailureCriteria.IsSquareRoot(sqrt)
    ensures r >= 0.0 && r * r == Square(sigma) + 3.0 * Square(tau)
  {
    SquareNonNegative(sigma);
    SquareNonNegative(tau);
    sqrt(Square(sigma) + 3.0 * Square(tau))
  }

  /** equivalent_stresses: the von Mises stress of each (normal, shear) pair zip forms. */
  function EquivalentStresses(normal: seq<real>, shear: seq<real>, sqrt: real -> real): (r: seq<real>)
    requires FailureCriteria.IsSquareRoot(sqrt)
    ensures |r| == Shorter(|normal|, |shear|)
    ensures forall i :: 0 <= i < |r| ==> r[i] == EquivalentStress(normal[i], shear[i], sqrt)
  {
    var n := Shorter(|normal|, |shear|);
    seq(n, i requires 0 <= i < n => EquivalentStress(normal[i], shear[i], sqrt))
  }

  /** The equivalent stress is never below the magnitude of the normal stress alone. */
  lemma EquivalentAtLeastNormal(sigma: real, tau: real, sqrt: real -> real)
    requires FailureCriteria.IsSquareRoot(sqrt)
    ensures EquivalentStress(sigma, tau, sqrt) >= sigma && EquivalentStress(sigma, tau, sqrt) >= -sigma
  {
    var r := EquivalentStress(sigma, tau, sqrt);
    var a := if sigma >= 0.0 then sigma else -sigma;
    SquareNonNegative(tau);
    assert Square(a) == Square(sigma) == a * a;
    assert r * r >= a * a;
    if r < a {
      SquaresOrdered(r, a);
    }
  }

  // ------------------------------------------------------------- axial loads

  /** fastener_load: |P_direct,z + P_bending,z| of each pair zip forms. */
  function FastenerLoad(direct: seq<Vec>, bending: seq<Vec>): (r: seq<real>)
    ensures |r| == Shorter(|direct|, |bending|)
    ensures forall i :: 0 <= i < |r| ==>
              r[i] >= 0.0 && (r[i] == direct[i].z + bending[i].z || r[i] == -(direct[i].z + bending[i].z))
  {
    var n := Shorter(|direct|, |bending|);
    seq(n, i requires 0 <= i < n =>
          if direct[i].z + bending[i].z >= 0.0 then direct[i].z + bending[i].z else -(direct[i].z + bending[i].z))
  }

  /**
   * Without a bending contribution, a non-negative axial force is carried
   * whole by the joints: their loads add up to F_z.
   */
  lemma AxialLoadShared(fz: real, ks: seq<real>, bending: seq<Vec>)
    requires fz >= 0.0 && ks != [] && forall i :: 0 <= i < |ks| ==> ks[i] > 0.0
    requires |bending| == |ks| && forall i :: 0 <= i < |bending| ==> bending[i].z == 0.0
    ensures DirectNormalLoad(fz, ks).Ok?
    ensures Sum(FastenerLoad(DirectNormalLoad(fz, ks).value, bending)) == fz
  {
    SumPositive(ks);
    var direct := DirectNormalLoad(fz, ks).value;
    var loads := FastenerLoad(direct, bending);
    forall i | 0 <= i < |loads|
      ensures loads[i] == Shares(ks, fz, Sum(ks))[i]
    {
      ShareNonNegative(fz, ks[i], Sum(ks));
    }
    assert loads == Shares(ks, fz, Sum(ks));
    SharesAddUp(ks, fz);
  }

  lemma ShareNonNegative(c: real, a: real, total: real)
    requires c >= 0.0 && a > 0.0 && total > 0.0
    ensures Share(c, a, total) >= 0.0
  {
    if c > 0.0 {
      MulPositive(c, a);
      DivPositive(c * a, total);
    }
  }

  /** bolt_load: F_i + P C of each joint (numpy adds arrays of one length). */
  function BoltLoad(preloads: seq<real>, loads: seq<real>, cs: seq<real>): (r: seq<real>)
    requires |preloads| == |loads| == |cs|
    ensures |r| == |preloads|
    ensures forall i :: 0 <= i < |r| ==> r[i] - preloads[i] == loads[i] * cs[i]
  {
    seq(|preloads|, i requires 0 <= i < |preloads| => preloads[i] + loads[i] * cs[i])
  }

  /** With 0 <= C <= 1 and P >= 0 the bolt carries at least its preload and at most preload plus P. */
  lemma BoltLoadBetween(preloads: seq<real>, loads: seq<real>, cs: seq<real>, i: nat)
    requires |preloads| == |loads| == |cs| && i < |cs|
    requires 0.0 <= cs[i] <= 1.0 && loads[i] >= 0.0
    ensures preloads[i] <= BoltLoad(preloads, loads, cs)[i] <= preloads[i] + loads[i]
  {
    var p := loads[i];
    var c := cs[i];
    var share := BoltLoad(preloads, loads, cs)[i] - preloads[i];
    assert share == p * c;
    if p > 0.0 && c > 0.0 {
      MulPositive(p, c);
    }
    if p > 0.0 && c < 1.0 {
      MulPositive(p, 1.0 - c);
      assert p * (1.0 - c) == p - p * c;
    }
    assert 0.0 <= share <= p;
  }

  /**
   * The bolt loads of a pattern: the direct normal load with a given
   * bending normal load, each fastener's preload and joint constant.
   */
  function BoltLoadsOf(p: BoltPattern, bending: seq<Vec>): (r: Result<seq<real>>)
    requires |bending| == |p.fasteners|
    ensures r.Err? <==> p.fasteners != [] && Sum(TotalStiffness(p.fasteners)) == 0.0
    ensures r.Err? ==> r.error == ZeroDivisionError
    ensures r.Ok? ==> |r.value| == |p.fasteners|
  {
    var direct := DirectNormalLoad(p.force.z, TotalStiffness(p.fasteners));
    if direct.Err? then Err(direct.error)
    else Ok(BoltLoad(Preloads(p.fasteners), FastenerLoad(direct.value, bending), JointConstants(p.fasteners)))
  }

  /** A joint whose constant C lies in [0, 1] never loses bolt tension to the external load. */
  lemma BoltsKeepPreload(p: BoltPattern, bending: seq<Vec>, i: nat)
    requires |bending| == |p.fasteners| && BoltLoadsOf(p, bending).Ok? && i < |p.fasteners|
    requires 0.0 <= p.fasteners[i].jointConstant <= 1.0
    ensures BoltLoadsOf(p, bending).value[i] >= p.fasteners[i].preload
  {
    var direct := DirectNormalLoad(p.force.z, TotalStiffness(p.fasteners)).value;
    BoltLoadBetween(Preloads(p.fasteners), FastenerLoad(direct, bending), JointConstants(p.fasteners), i);
  }

  // ------------------------------------------------------------- safety factors

  /** n d = m with d > 0: n is at least 1 exactly when d does not exceed m. */
  lemma RatioAtLeastOne(n: real, d: real, m: real)
    requires d > 0.0 && n * d == m
    ensures n >= 1.0 <==> d <= m
  {
    if n >= 1.0 && n > 1.0 {
      MulPositive(n - 1.0, d);
    }
    if n < 1.0 {
      MulPositive(1.0 - n, d);
    }
  }

  /** load_safety_factor per fastener: (S_p - F_i) / (F_b - F_i) (numpy would give inf or nan at F_b = F_i). */
  function LoadSafetyFactors(proofLoads: seq<real>, preloads: seq<real>, boltLoads: seq<real>): (r: seq<real>)
    requires |proofLoads| == |preloads| == |boltLoads|
    requires forall i :: 0 <= i < |boltLoads| ==> boltLoads[i] != preloads[i]
    ensures |r| == |boltLoads|
    ensures forall i :: 0 <= i < |r| ==> preloads[i] + r[i] * (boltLoads[i] - preloads[i]) == proofLoads[i]
  {
    seq(|boltLoads|, i requires 0 <= i < |boltLoads| =>
          (proofLoads[i] - preloads[i]) / (boltLoads[i] - preloads[i]))
  }

  /** A loaded bolt is safe (n_L >= 1) exactly when its load stays within the proof load. */
  lemma LoadSafeIffWithinProof(proofLoads: seq<real>, preloads: seq<real>, boltLoads: seq<real>, i: nat)
    requires |proofLoads| == |preloads| == |boltLoads| && i < |boltLoads|
    requires forall k :: 0 <= k < |boltLoads| ==> boltLoads[k] > preloads[k]
    ensures LoadSafetyFactors(proofLoads, preloads, boltLoads)[i] >= 1.0 <==> boltLoads[i] <= proofLoads[i]
  {
    RatioAtLeastOne(LoadSafetyFactors(proofLoads, preloads, boltLoads)[i], boltLoads[i] - preloads[i],
                    proofLoads[i] - preloads[i]);
  }

  /** separation_safety_factor per fastener: F_i / ((1 - C) P) (numpy would give inf or nan at a zero divisor). */
  function SeparationSafetyFactors(preloads: seq<real>, cs: seq<real>, loads: seq<real>): (r: seq<real>)
    requires |preloads| == |cs| == |loads|
    requires forall i :: 0 <= i < |loads| ==> (1.0 - cs[i]) * loads[i] != 0.0
    ensures |r| == |loads|
    ensures forall i :: 0 <= i < |r| ==> r[i] * ((1.0 - cs[i]) * loads[i]) == preloads[i]
  {
    seq(|loads|, i requires 0 <= i < |loads| => preloads[i] / ((1.0 - cs[i]) * loads[i]))
  }

  /** The joint stays closed (n_0 >= 1) exactly when the members' share of P does not exceed the preload. */
  lemma SeparationSafeIffPreloadHolds(preloads: seq<real>, cs: seq<real>, loads: seq<real>, i: nat)
    requires |preloads| == |cs| == |loads| && i < |loads|
    requires forall k :: 0 <= k < |loads| ==> cs[k] < 1.0 && loads[k] > 0.0
    ensures SeparationSafetyFactors(preloads, cs, loads)[i] >= 1.0 <==> (1.0 - cs[i]) * loads[i] <= preloads[i]
  {
    forall k | 0 <= k < |loads|
      ensures (1.0 - cs[k]) * loads[k] > 0.0
    {
      MulPositive(1.0 - cs[k], loads[k]);
    }
    RatioAtLeastOne(SeparationSafetyFactors(preloads, cs, loads)[i], (1.0 - cs[i]) * loads[i], preloads[i]);
  }

  /** proof_safety_factor per pair zip forms: S_p / sigma_eq (numpy would give inf at a zero stress). */
  function ProofSafetyFactors(proofStrengths: seq<real>, equivalent: seq<real>): (r: seq<real>)
    requires forall i :: 0 <= i < |equivalent| ==> equivalent[i] != 0.0
    ensures |r| == Shorter(|proofStrengths|, |equivalent|)
    ensures forall i :: 0 <= i < |r| ==> r[i] * equivalent[i] == proofStrengths[i]
  {
    var n := Shorter(|proofStrengths|, |equivalent|);
    seq(n, i requires 0 <= i < n => proofStrengths[i] / equivalent[i])
  }

  /** A stressed bolt passes (n_p >= 1) exactly when its equivalent stress is within the proof strength. */
  lemma ProofSafeIffWithinStrength(proofStrengths: seq<real>, equivalent: seq<real>, i: nat)
    requires forall k :: 0 <= k < |equivalent| ==> equivalent[k] > 0.0
    requires i < |proofStrengths| && i < |equivalent|
    ensures ProofSafetyFactors(proofStrengths, equivalent)[i] >= 1.0 <==> equivalent[i] <= proofStrengths[i]
  {
    RatioAtLeastOne(ProofSafetyFactors(proofStrengths, equivalent)[i], equivalent[i], proofStrengths[i]);
  }

  /** What a safety-factor method returns: the lowest factor, or one per fastener. */
  datatype SafetyReport = Lowest(factor: real) | PerFastener(factors: seq<real>)

  /**
   * `min(n) if minimal_value else n`: the lowest factor, which is one of
   * them and below all of them, or the whole list; min of no factors is a
   * ValueError.
   */
  function Report(factors: seq<real>, minimalValue: bool): (r: Result<SafetyReport>)
    ensures r.Err? <==> minimalValue && factors == []
    ensures r.Err? ==> r.error == ValueError
    ensures !minimalValue ==> r == Ok(PerFastener(factors))
    ensures minimalValue && r.Ok? ==>
              r.value.Lowest? && r.value.factor in factors
              && forall i :: 0 <= i < |factors| ==> r.value.factor <= factors[i]
  {
    if !minimalValue then Ok(PerFastener(factors))
    else if factors == [] then Err(ValueError)
    else Ok(Lowest(Min(factors)))
  }
}
