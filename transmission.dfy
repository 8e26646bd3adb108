// The gear pair of Gears/Transmission.py: the AGMA 2001-D04 factors that
// belong to the pair rather than to one gear (Ko, Y_theta, Zw), the minimal
// hardness, and the set-up that derives or checks the second gear and hands
// both gears one contact ratio.

module Transmissions {
  import opened Common
  import opened SpurGears

  /**
   * The type check of the constructor: a given second gear of another
   * class is a GearTypeError.
   */
  function TypeCheck(kind1: GearKind, kind2: Option<GearKind>): (r: Outcome)
    ensures r.Raised? <==> kind2.Some? && kind2.value != kind1
    ensures r.Raised? ==> r.error == GearTypeError
  {
    if kind2.Some? && kind2.value != kind1 then Raised(GearTypeError) else Done
  }

  // ---------------------------------------------------------------------
  // Ytheta, the temperature factor

  /** Ytheta: (273 + T) / 344 above 71 degrees, else 1. */
  function Ytheta(oilTemp: real): real
  {
    if oilTemp > 71.0 then (273.0 + oilTemp) / 344.0 else 1.0
  }

  /** The factor never drops below 1, meets 1 at 71 degrees and grows above it. */
  lemma YthetaShape(t1: real, t2: real)
    requires t1 <= t2
    ensures Ytheta(t1) >= 1.0
    ensures Ytheta(t1) <= Ytheta(t2)
    ensures (273.0 + 71.0) / 344.0 == Ytheta(71.0)
  {
  }

  // ---------------------------------------------------------------------
  // Ko, the overload factor

  /** The row of the overload table per driving machine, and None for an unknown one. */
  function KoRow(drivingMachine: string): Option<(real, real, real)>
  {
    if drivingMachine == "uniform" then Some((1.0, 1.25, 1.75))
    else if drivingMachine == "light shock" then Some((1.25, 1.5, 2.0))
    else if drivingMachine == "medium shock" then Some((1.5, 1.75, 2.25))
    else None
  }

  /** The overload table as the source writes it: 15 for medium shock driving a uniform load. */
  function KoRowAsWritten(drivingMachine: string): Option<(real, real, real)>
  {
    if drivingMachine == "uniform" then Some((1.0, 1.25, 1.75))
    else if drivingMachine == "light shock" then Some((1.25, 1.5, 2.0))
    else if drivingMachine == "medium shock" then Some((15.0, 1.75, 2.25))
    else None
  }

  /** The column of the overload table per driven machine. */
  function DrivenColumn(drivenMachine: string): Option<nat>
  {
    if drivenMachine == "uniform" then Some(0)
    else if drivenMachine == "moderate shock" then Some(1)
    else if drivenMachine == "heavy shock" then Some(2)
    else None
  }

  /** How severe a driving machine's shocks are, 0 to 2. */
  function DrivingSeverity(drivingMachine: string): nat
  {
    if drivingMachine == "uniform" then 0 else if drivingMachine == "light shock" then 1 else 2
  }

  function Pick(row: (real, real, real), column: nat): real
  {
    if column == 0 then row.0 else if column == 1 then row.1 else row.2
  }

  /** Ko: the table entry; a ValueError for an unknown driving, then driven, machine. */
  function Ko(drivingMachine: string, drivenMachine: string): (r: Result<real>)
    ensures r.Err? <==> KoRow(drivingMachine).None? || DrivenColumn(drivenMachine).None?
    ensures r.Err? ==> r.error == ValueError
    ensures r.Ok? ==> 1.0 <= r.value <= 2.25
  {
    match KoRow(drivingMachine)
    case None => Err(ValueError)
    case Some(row) =>
      match DrivenColumn(drivenMachine)
      case None => Err(ValueError)
      case Some(column) => Ok(Pick(row, column))
  }

  /** Ko as written, with the 15 entry. */
  function KoAsWritten(drivingMachine: string, drivenMachine: string): (r: Result<real>)
    ensures r.Err? <==> KoRowAsWritten(drivingMachine).None? || DrivenColumn(drivenMachine).None?
    ensures r.Err? ==> r.error == ValueError
  {
    match KoRowAsWritten(drivingMachine)
    case None => Err(ValueError)
    case Some(row) =>
      match DrivenColumn(drivenMachine)
      case None => Err(ValueError)
      case Some(column) => Ok(Pick(row, column))
  }

  /** A stored hour or cycle count read back as a number and stored again is unchanged. */
  lemma StoredRoundTrip(field: Option<real>)
    requires field.Some? ==> field.value != 0.0
    ensures StoredIfNonZero(StoredOrZero(field)) == field
  {
  }

  /** Dividing by a non-zero ratio and multiplying back restores the value. */
  lemma DivThenMul(a: real, r: real)
    requires r != 0.0
    ensures (a / r) * r == a
  {
  }

  /** The two tables differ in the one entry only. */
  lemma KoTablesDifferOnce(drivingMachine: string, drivenMachine: string)
    ensures KoAsWritten(drivingMachine, drivenMachine) != Ko(drivingMachine, drivenMachine)
            <==> drivingMachine == "medium shock" && drivenMachine == "uniform"
  {
  }

  /** A rougher driver or a rougher load never lowers the overload factor. */
  lemma KoMonotone(driving1: string, driven1: string, driving2: string, driven2: string)
    requires Ko(driving1, driven1).Ok? && Ko(driving2, driven2).Ok?
    requires DrivingSeverity(driving1) <= DrivingSeverity(driving2)
    requires DrivenColumn(driven1).value <= DrivenColumn(driven2).value
    ensures Ko(driving1, driven1).value <= Ko(driving2, driven2).value
  {
  }

  /** As written, a medium-shock driver with a uniform load outweighs a heavy-shock load. */
  lemma KoAsWrittenBreaksOrder()
    ensures KoAsWritten("medium shock", "uniform").Ok? && KoAsWritten("medium shock", "heavy shock").Ok?
    ensures KoAsWritten("medium shock", "uniform").value > KoAsWritten("medium shock", "heavy shock").value
    ensures KoAsWritten("medium shock", "uniform").value > 2.25
  {
  }

  // ---------------------------------------------------------------------
  // Zw, the hardness ratio factor

  /** A of _Zw: 0 below a hardness ratio of 1.2, linear up to 1.7, 0.00698 above. */
  function HardnessRatioSlope(ratio: real): (a: real)
    ensures 0.0 <= a <= 0.00698
  {
    if 1.2 <= ratio < 1.7 then 0.00898 * ratio - 0.00829
    else if ratio >= 1.7 then 0.00698
    else 0.0
  }

  /** A harder pinion never lowers A. */
  lemma HardnessRatioSlopeMonotone(r1: real, r2: real)
    requires r1 <= r2
    ensures HardnessRatioSlope(r1) <= HardnessRatioSlope(r2)
  {
  }

  /**
   * _Zw: 1 + A (ratio - 1) from the pinion's and gear's hardness, each
   * standing in for the other when absent. No gear at all is an
   * AttributeError, a gear of hardness 0 a ZeroDivisionError.
   */
  function Zw(pinionHardness: Option<real>, gearHardness: Option<real>, gearRatio: real): (r: Result<real>)
    ensures r.Err? <==> (pinionHardness.None? && gearHardness.None?)
                        || (gearHardness.Some? && gearHardness.value == 0.0)
                        || (gearHardness.None? && pinionHardness.value == 0.0)
    ensures pinionHardness.None? && gearHardness.None? ==> r == Err(AttributeError)
  {
    if pinionHardness.None? && gearHardness.None? then Err(AttributeError)
    else
      var hbp := if pinionHardness.Some? then pinionHardness.value else gearHardness.value;
      var hbg := if gearHardness.Some? then gearHardness.value else pinionHardness.value;
      if hbg == 0.0 then Err(ZeroDivisionError)
      else Ok(1.0 + HardnessRatioSlope(hbp / hbg) * (gearRatio - 1.0))
  }

  /** Equal hardness, or one gear missing, gives Zw = 1; a step-down ratio gives at least 1. */
  lemma ZwBounds(pinionHardness: Option<real>, gearHardness: Option<real>, gearRatio: real)
    requires Zw(pinionHardness, gearHardness, gearRatio).Ok?
    ensures pinionHardness.None? || gearHardness.None? || pinionHardness == gearHardness
            ==> Zw(pinionHardness, gearHardness, gearRatio).value == 1.0
    ensures gearRatio >= 1.0 ==> Zw(pinionHardness, gearHardness, gearRatio).value >= 1.0
  {
    var hbp := if pinionHardness.Some? then pinionHardness.value else gearHardness.value;
    var hbg := if gearHardness.Some? then gearHardness.value else pinionHardness.value;
    var a := HardnessRatioSlope(hbp / hbg);
    if gearRatio >= 1.0 {
      assert a * (gearRatio - 1.0) >= 0.0;
    }
  }

  // ---------------------------------------------------------------------
  // MinimalHardness

  /** The grade whose coefficients MinimalHardness uses: 1, or 2 for anything else. */
  function GradeUsed(grade: int): int
  {
    if grade == 1 then 1 else 2
  }

  /** St solved for the hardness. */
  function HardnessForBending(grade: int, st: real): real
  {
    if grade == 1 then (st - 88.3) / 0.533 else (st - 113.0) / 0.703
  }

  /** Sc solved for the hardness. */
  function HardnessForContact(grade: int, sc: real): real
  {
    if grade == 1 then (sc - 200.0) / 2.22 else (sc - 237.0) / 2.41
  }

  /** The inversions undo St and Sc, and St and Sc undo them. */
  lemma HardnessInvertsStrength(grade: int, s: real, h: real)
    ensures BendingStrength(GradeUsed(grade), HardnessForBending(grade, s)).value == s
    ensures ContactStrength(GradeUsed(grade), HardnessForContact(grade, s)).value == s
    ensures HardnessForBending(grade, BendingStrength(GradeUsed(grade), h).value) == h
    ensures HardnessForContact(grade, ContactStrength(GradeUsed(grade), h).value) == h
  {
  }

  /** The bending strength the gear needs: Ytheta Yz SF sigma / YN. */
  function RequiredBending(ytheta: real, yz: real, sf: real, bendingStress: real, yn: real): real
    requires yn != 0.0
  {
    (ytheta * yz * sf * bendingStress) / yn
  }

  /** The contact strength the gear needs: Ytheta Yz SH sigma / (ZN Zw). */
  function RequiredContact(ytheta: real, yz: real, sh: real, contactStress: real, zn: real, zw: real): real
    requires zn * zw != 0.0
  {
    (ytheta * yz * sh * contactStress) / (zn * zw)
  }

  /**
   * MinimalHardness with the contact requirement taken from the contact
   * stress: the larger of the two hardness values.
   */
  function MinimalHardness(oilTemp: real, yz: real, sf: real, sh: real, bendingStress: real,
                           contactStress: real, yn: real, zn: real, zw: real, grade: int): (h: real)
    requires yn != 0.0 && zn * zw != 0.0
    ensures BendingStrength(GradeUsed(grade), h).value
            >= RequiredBending(Ytheta(oilTemp), yz, sf, bendingStress, yn)
    ensures ContactStrength(GradeUsed(grade), h).value
            >= RequiredContact(Ytheta(oilTemp), yz, sh, contactStress, zn, zw)
    ensures h == HardnessForBending(grade, RequiredBending(Ytheta(oilTemp), yz, sf, bendingStress, yn))
            || h == HardnessForContact(grade, RequiredContact(Ytheta(oilTemp), yz, sh, contactStress, zn, zw))
  {
    var st := RequiredBending(Ytheta(oilTemp), yz, sf, bendingStress, yn);
    var sc := RequiredContact(Ytheta(oilTemp), yz, sh, contactStress, zn, zw);
    var hbt := HardnessForBending(grade, st);
    var hbc := HardnessForContact(grade, sc);
    HardnessInvertsStrength(grade, st, hbt);
    HardnessInvertsStrength(grade, sc, hbc);
    if hbt >= hbc then hbt else hbc
  }

  /** No softer gear meets both requirements. */
  lemma MinimalHardnessIsLeast(oilTemp: real, yz: real, sf: real, sh: real, bendingStress: real,
                               contactStress: real, yn: real, zn: real, zw: real, grade: int, h: real)
    requires yn != 0.0 && zn * zw != 0.0
    requires BendingStrength(GradeUsed(grade), h).value
             >= RequiredBending(Ytheta(oilTemp), yz, sf, bendingStress, yn)
    requires ContactStrength(GradeUsed(grade), h).value
             >= RequiredContact(Ytheta(oilTemp), yz, sh, contactStress, zn, zw)
    ensures h >= MinimalHardness(oilTemp, yz, sf, sh, bendingStress, contactStress, yn, zn, zw, grade)
  {
    var st := RequiredBending(Ytheta(oilTemp), yz, sf, bendingStress, yn);
    var sc := RequiredContact(Ytheta(oilTemp), yz, sh, contactStress, zn, zw);
    HardnessInvertsStrength(grade, st, h);
    HardnessInvertsStrength(grade, sc, h);
  }

  /** MinimalHardness as written: the contact part is fed the bending stress. */
  function MinimalHardnessAsWritten(oilTemp: real, yz: real, sf: real, sh: real, bendingStress: real,
                                    contactStress: real, yn: real, zn: real, zw: real, grade: int): (h: real)
    requires yn != 0.0 && zn * zw != 0.0
    ensures h == MinimalHardness(oilTemp, yz, sf, sh, bendingStress, bendingStress, yn, zn, zw, grade)
  {
    var hbt := HardnessForBending(grade, RequiredBending(Ytheta(oilTemp), yz, sf, bendingStress, yn));
    var hbc := HardnessForContact(grade, RequiredContact(Ytheta(oilTemp), yz, sh, bendingStress, zn, zw));
    if hbt >= hbc then hbt else hbc
  }

  /**
   * With a bending stress of 100 and a contact stress of 1000 (all other
   * factors 1, grade 1) the hardness as written falls short of the
   * contact requirement.
   */
  lemma MinimalHardnessAsWrittenMissesContact()
    ensures ContactStrength(1, MinimalHardnessAsWritten(0.0, 1.0, 1.0, 1.0, 100.0, 1000.0, 1.0, 1.0, 1.0, 1)).value
            < RequiredContact(Ytheta(0.0), 1.0, 1.0, 1000.0, 1.0, 1.0)
  {
  }

  // ---------------------------------------------------------------------
  // Gear pair set-up

  /** Python 3 round(): to the nearest integer, ties to the even one. */
  function RoundHalfEven(x: real): (n: int)
    ensures -0.5 <= n as real - x <= 0.5
    ensures x == x.Floor as real ==> n == x.Floor
    ensures (n as real - x == 0.5 || n as real - x == -0.5) ==> n % 2 == 0
  {
    var f := x.Floor;
    var frac := x - f as real;
    if frac < 0.5 then f
    else if frac > 0.5 then f + 1
    else if f % 2 == 0 then f
    else f + 1
  }

  /** The gear-pair objects and the operating conditions. */
  class Transmission {
    var drivingMachine: string
    var drivenMachine: string
    var oilTemp: real
    var reliability: real
    var power: real
    var sf: real
    var sh: real
    var gearRatio: real
    var gear1: SpurGear
    var gear2: SpurGear

    constructor Init(drivingMachine: string, drivenMachine: string, oilTemp: real, reliability: real,
                     power: real, sf: real, sh: real, gearRatio: real, gear1: SpurGear, gear2: SpurGear)
      ensures this.drivingMachine == drivingMachine && this.drivenMachine == drivenMachine
      ensures this.oilTemp == oilTemp && this.reliability == reliability && this.power == power
      ensures this.sf == sf && this.sh == sh && this.gearRatio == gearRatio
      ensures this.gear1 == gear1 && this.gear2 == gear2
    {
      this.drivingMachine := drivingMachine;
      this.drivenMachine := drivenMachine;
      this.oilTemp := oilTemp;
      this.reliability := reliability;
      this.power := power;
      this.sf := sf;
      this.sh := sh;
      this.gearRatio := gearRatio;
      this.gear1 := gear1;
      this.gear2 := gear2;
    }

    /**
     * _Gear2Checkup: without a second gear, derive one from the first
     * (teeth round(N1 ratio), speed rpm / ratio, the other constructor
     * arguments copied); with a second gear and no ratio, take it; with
     * both, take it when N2 / N1 is the ratio. Anything else is a
     * GearTypeError.
     */
    static method Gear2Checkup(gear1: SpurGear, gear2: SpurGear?, gearRatio: real)
      returns (g: SpurGear?, outcome: Outcome)
      requires gear1.HoursStored()
      requires gear2 != null && gearRatio != 0.0 ==> gear1.teethNum != 0
      ensures outcome == Done <==> g != null
      ensures gear2 == null && gearRatio == 0.0 ==> outcome == Raised(GearTypeError)
      ensures gear2 != null && gearRatio == 0.0 ==> outcome == Done && g == gear2
      ensures gear2 != null && gearRatio != 0.0 ==>
                (outcome == Done <==> gear2.teethNum as real / gear1.teethNum as real == gearRatio)
                && (outcome == Done ==> g == gear2)
                && (outcome.Raised? ==> outcome.error == GearTypeError)
      ensures gear2 == null && gearRatio != 0.0 ==>
                (outcome == Done <==> gear1.workHours.Some? || gear1.numberOfCycles.Some?)
                && (outcome.Raised? ==> outcome.error == ValueError)
      ensures gear2 == null && gearRatio != 0.0 && g != null ==>
                fresh(g) && g.name == "spur_gear"
                && g.teethNum == RoundHalfEven(gear1.teethNum as real * gearRatio)
                && g.rpm * gearRatio == gear1.rpm
      ensures gear2 == null && gearRatio != 0.0 && g != null ==>
                g.modulus == gear1.modulus && g.width == gear1.width
                && g.pressureAngle == gear1.pressureAngle
                && g.hardness == gear1.hardness && g.grade == gear1.grade
      ensures gear2 == null && gearRatio != 0.0 && g != null ==>
                g.workHours == gear1.workHours && g.numberOfCycles == gear1.numberOfCycles
                && g.contactRatio.None?
    {
      if gear2 == null && gearRatio != 0.0 {
        assert StoredOrZero(gear1.workHours) == 0.0 <==> gear1.workHours.None?;
        assert StoredOrZero(gear1.numberOfCycles) == 0.0 <==> gear1.numberOfCycles.None?;
        StoredRoundTrip(gear1.workHours);
        StoredRoundTrip(gear1.numberOfCycles);
        DivThenMul(gear1.rpm, gearRatio);
        var teeth := RoundHalfEven(gear1.teethNum as real * gearRatio);
        var created;
        created, outcome := SpurGear.Create(
          "spur_gear", gear1.modulus, teeth,
          gear1.rpm / gearRatio, gear1.qv, gear1.width, gear1.bearingSpan, gear1.pinionOffset,
          gear1.enclosure, gear1.hardness, gear1.pressureAngle, gear1.grade,
          StoredOrZero(gear1.workHours), StoredOrZero(gear1.numberOfCycles),
          gear1.crowned, gear1.adjusted, gear1.sensitiveUse, gear1.nitriding, gear1.caseCarb,
          gear1.material);
        g := if outcome == Done then created else null;
        assert g != null ==> g.teethNum == teeth && g.rpm == gear1.rpm / gearRatio;
      } else if gear2 != null && gearRatio == 0.0 {
        g, outcome := gear2, Done;
      } else if gear2 != null && gearRatio != 0.0 {
        if gear2.teethNum as real / gear1.teethNum as real == gearRatio {
          g, outcome := gear2, Done;
        } else {
          g, outcome := null, Raised(GearTypeError);
        }
      } else {
        g, outcome := null, Raised(GearTypeError);
      }
    }

    /** _ContactRatio: both gears get the one contact ratio of the pair. */
    method AssignContactRatio(contactRatio: real)
      modifies gear1`contactRatio, gear2`contactRatio
      ensures gear1.contactRatio == Some(contactRatio) && gear2.contactRatio == Some(contactRatio)
    {
      gear1.contactRatio := Some(contactRatio);
      gear2.contactRatio := Some(contactRatio);
    }

    /**
     * Transmission(...): settle the second gear, check the pair's
     * compatibility, store the conditions, give both gears the contact
     * ratio (computed by the pair's geometry, here a parameter) and their
     * Zw (1 for the pinion).
     */
    static method Build(drivingMachine: string, drivenMachine: string, oilTemp: real,
                        reliability: real, power: real, sf: real, gear1: SpurGear, gear2: SpurGear?,
                        gearRatio: real, sh: real, contactRatio: real)
      returns (t: Transmission?, outcome: Outcome)
      requires gear1.HoursStored()
      requires gear2 != null && gearRatio != 0.0 ==> gear1.teethNum != 0
      modifies gear1, gear2
      ensures outcome == Done <==> t != null
      ensures gear2 == null && gearRatio == 0.0 ==> outcome == Raised(GearTypeError)
      ensures t != null ==>
                fresh(t) && t.gear1 == gear1 && (gear2 != null ==> t.gear2 == gear2)
                && t.gearRatio == gearRatio
                && t.drivingMachine == drivingMachine && t.drivenMachine == drivenMachine
                && CheckCompatibility(gear1.pressureAngle, gear1.modulus, SpurKind,
                                      t.gear2.pressureAngle, t.gear2.modulus, SpurKind) == Done
                && gear1.contactRatio == Some(contactRatio)
                && t.gear2.contactRatio == Some(contactRatio)
                && gear1.zw == Some(1.0)
                && Zw(Some(gear1.hardness), Some(t.gear2.hardness), gearRatio).Ok?
                && t.gear2.zw == Some(Zw(Some(gear1.hardness), Some(t.gear2.hardness), gearRatio).value)
    {
      var second, checkup := Gear2Checkup(gear1, gear2, gearRatio);
      if checkup.Raised? {
        return null, checkup;
      }
      var compatible := CheckCompatibility(gear1.pressureAngle, gear1.modulus, SpurKind,
                                           second.pressureAngle, second.modulus, SpurKind);
      if compatible.Raised? {
        return null, compatible;
      }
      t := new Transmission.Init(drivingMachine, drivenMachine, oilTemp, reliability, power, sf, sh,
                                 gearRatio, gear1, second);
      t.AssignContactRatio(contactRatio);
      gear1.zw := Some(1.0);
      var zw := Zw(Some(gear1.hardness), Some(second.hardness), gearRatio);
      if zw.Err? {
        return null, Raised(zw.error);
      }
      second.zw := Some(zw.value);
      outcome := Done;
    }
  }
}
