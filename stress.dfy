// The elementary stress formulas of FatigueAnalysis/Stress.py. Divisions
// by zero are Python's ZeroDivisionError.

module Stresses {
  import opened Common

  /** UniformStress: F / A. */
  function UniformStress(force: real, area: real): (r: Result<real>)
    ensures r.Err? <==> area == 0.0
    ensures r.Err? ==> r.error == ZeroDivisionError
    ensures r.Ok? ==> r.value * area == force
  {
    if area == 0.0 then Err(ZeroDivisionError) else Ok(force / area)
  }

  /** Doubling the force over the same area doubles the stress. */
  lemma UniformStressLinear(force: real, area: real)
    requires area != 0.0
    ensures UniformStress(2.0 * force, area).value == 2.0 * UniformStress(force, area).value
  {
  }

  /** A bending stress about one axis, or the pair of a principal-axis system. */
  datatype Bending = Single(sigma: real) | Pair(aboutY: real, aboutZ: real)

  /**
   * BendingStress: (My / Iy) z, and with Mz given also -(Mz / Iz) y; a
   * missing Iz or y beside a given Mz is a TypeError.
   */
  function BendingStress(my: real, iy: real, z: real, mz: Option<real>, iz: Option<real>, y: Option<real>)
    : (r: Result<Bending>)
    ensures iy == 0.0 ==> r == Err(ZeroDivisionError)
    ensures iy != 0.0 && mz.None? ==> r.Ok? && r.value.Single? && r.value.sigma * iy == my * z
    ensures iy != 0.0 && mz.Some? && (iz.None? || (iz.value != 0.0 && y.None?)) ==> r == Err(TypeError)
    ensures iy != 0.0 && mz.Some? && iz.Some? && iz.value == 0.0 ==> r == Err(ZeroDivisionError)
    ensures r.Ok? && r.value.Pair? ==>
              mz.Some? && iz.Some? && y.Some?
              && r.value.aboutY * iy == my * z && r.value.aboutZ * iz.value == -(mz.value * y.value)
  {
    if iy == 0.0 then Err(ZeroDivisionError)
    else
      var first := (my / iy) * z;
      assert first * iy == my * z;
      if mz.None? then Ok(Single(first))
      else if iz.None? then Err(TypeError)
      else if iz.value == 0.0 then Err(ZeroDivisionError)
      else if y.None? then Err(TypeError)
      else
        var second := -(mz.value / iz.value) * y.value;
        assert second * iz.value == -(mz.value * y.value);
        Ok(Pair(first, second))
  }

  /** Fibres on opposite sides of the neutral axis carry opposite bending stresses. */
  lemma BendingAntisymmetric(my: real, iy: real, z: real)
    requires iy != 0.0
    ensures BendingStress(my, iy, -z, None, None, None).value.sigma
            == -BendingStress(my, iy, z, None, None, None).value.sigma
  {
  }

  /** ShearBendingStress: V Q / (I b). */
  function ShearBendingStress(v: real, q: real, i: real, b: real): (r: Result<real>)
    ensures r.Err? <==> i * b == 0.0
    ensures r.Err? ==> r.error == ZeroDivisionError
    ensures r.Ok? ==> r.value * (i * b) == v * q
  {
    if i * b == 0.0 then Err(ZeroDivisionError) else Ok((v * q) / (i * b))
  }

  /** TorsionStress: T r / J. */
  function TorsionStress(t: real, r: real, j: real): (s: Result<real>)
    ensures s.Err? <==> j == 0.0
    ensures s.Err? ==> s.error == ZeroDivisionError
    ensures s.Ok? ==> s.value * j == t * r
  {
    if j == 0.0 then Err(ZeroDivisionError) else Ok((t * r) / j)
  }

  /** Under a positive torque the shear stress grows outward: it peaks at the surface. */
  lemma TorsionGrowsWithRadius(t: real, r1: real, r2: real, j: real)
    requires t > 0.0 && j > 0.0 && r1 <= r2
    ensures TorsionStress(t, r1, j).value <= TorsionStress(t, r2, j).value
  {
    var a := TorsionStress(t, r1, j).value;
    var b := TorsionStress(t, r2, j).value;
    assert (b - a) * j == t * (r2 - r1);
    if b < a {
      MulPositive(a - b, j);
      if r2 > r1 {
        MulPositive(t, r2 - r1);
      }
      assert false;
    }
  }

  /**
   * MaxShearStress as written: 4V/(3A) for 'circle', 3V/(2A) only for
   * ' rectangle' with a leading space; anything else is a ValueError.
   */
  function MaxShearStressAsWritten(v: real, area: real, shape: string): (r: Result<real>)
    requires area != 0.0
    ensures shape == "circle" ==> r.Ok? && r.value * (3.0 * area) == 4.0 * v
    ensures shape == " rectangle" ==> r.Ok? && r.value * (2.0 * area) == 3.0 * v
    ensures shape != "circle" && shape != " rectangle" ==> r == Err(ValueError)
  {
    if shape == "circle" then Ok((4.0 * v) / (3.0 * area))
    else if shape == " rectangle" then Ok((3.0 * v) / (2.0 * area))
    else Err(ValueError)
  }

  /** As written, the documented shape name 'rectangle' is refused. */
  lemma RectangleRefusedAsWritten(v: real, area: real)
    requires area != 0.0
    ensures MaxShearStressAsWritten(v, area, "rectangle") == Err(ValueError)
  {
  }

  /**
   * MaxShearStress, corrected: the peak transverse shear of a solid circle
   * (4/3 of the mean V/A) or a rectangle (3/2 of it).
   */
  function MaxShearStress(v: real, area: real, shape: string): (r: Result<real>)
    requires area != 0.0
    ensures r.Ok? <==> shape in {"circle", "rectangle"}
    ensures r.Err? ==> r.error == ValueError
    ensures shape == "circle" ==> r.Ok? && r.value * (3.0 * area) == 4.0 * v
    ensures shape == "rectangle" ==> r.Ok? && r.value * (2.0 * area) == 3.0 * v
  {
    if shape == "circle" then Ok((4.0 * v) / (3.0 * area))
    else if shape == "rectangle" then Ok((3.0 * v) / (2.0 * area))
    else Err(ValueError)
  }

  /** The peak shear of either section is above the mean shear V / A for a positive load. */
  lemma MaxShearAboveMean(v: real, area: real, shape: string)
    requires v > 0.0 && area > 0.0 && shape in {"circle", "rectangle"}
    ensures MaxShearStress(v, area, shape).value > UniformStress(v, area).value
  {
    var mean := v / area;
    DivPositive(v, area);
    if shape == "circle" {
      assert MaxShearStress(v, area, shape).value == (4.0 / 3.0) * mean;
    } else {
      assert MaxShearStress(v, area, shape).value == 1.5 * mean;
    }
  }
}
