/**
 * The class Simulation::Sensors: the simulator's readings, held in six
 * public `float[3]` fields, and the table `sptrs_` that maps each slot of
 * the robot's sensor vector to one of those readings or to the
 * placeholder `na_`.
 */
module Simulation {
  import opened SensorTable
  import opened ByteClear

  /** A fresh `float[3]` field holding `v`. */
  method NewField(v: Vec3) returns (a: array<Float>)
    ensures fresh(a) && a[..] == v
  {
    a := new Float[3](j requires 0 <= j < 3 => v[j]);
  }

  /** The first `n` slots of a table under construction hold what Table gives. */
  ghost predicate FilledTo(t: array<Src>, n: nat)
    reads t
  {
    t.Length == NumberOfSensors && n <= t.Length && forall k :: 0 <= k < n ==> t[k] == Table(k)
  }

  /** `sptrs_[i++] = ...` for slots 0 to 7: the robot's older accelerometer and gyroscope
      channels, GyrRef and the two angles, none of which the simulator has. */
  method AssignUnmatchedInertial(t: array<Src>, i0: nat) returns (i: nat)
    requires i0 == 0 && FilledTo(t, i0)
    modifies t
    ensures i == 8 && FilledTo(t, i)
  {
    i := i0;
    t[i] := Na; i := i + 1;                 // -> older AccX
    t[i] := Na; i := i + 1;                 // -> older AccY
    t[i] := Na; i := i + 1;                 // -> older AccZ
    t[i] := Na; i := i + 1;                 // -> older GyrX
    t[i] := Na; i := i + 1;                 // -> older GyrY
    t[i] := Na; i := i + 1;                 // -> GyrRef
    t[i] := Na; i := i + 1;                 // -> AngleX
    t[i] := Na; i := i + 1;                 // -> AngleY
  }

  /** `sptrs_[i++] = ...` for slots 8 to 13: the gyroscope, then the accelerometer,
      component by component. */
  method AssignInertial(t: array<Src>, i0: nat) returns (i: nat)
    requires i0 == 8 && FilledTo(t, i0)
    modifies t
    ensures i == 14 && FilledTo(t, i)
  {
    i := i0;
    t[i] := At(Gyr, 0); i := i + 1;         // -> GyroscopeX
    t[i] := At(Gyr, 1); i := i + 1;         // -> GyroscopeY
    t[i] := At(Gyr, 2); i := i + 1;         // -> GyroscopeZ
    t[i] := At(Acc, 0); i := i + 1;         // -> AccelerometerX
    t[i] := At(Acc, 1); i := i + 1;         // -> AccelerometerY
    t[i] := At(Acc, 2); i := i + 1;         // -> AccelerometerZ
  }

  /** `sptrs_[i++] = ...` for slots 14 to 19: the left foot's one force value to all four
      corner channels, then its force position X and Y. */
  method AssignLeftFoot(t: array<Src>, i0: nat) returns (i: nat)
    requires i0 == 14 && FilledTo(t, i0)
    modifies t
    ensures i == 20 && FilledTo(t, i)
  {
    i := i0;
    t[i] := At(LFVal, 2); i := i + 1;       // -> LFFrontLeft
    t[i] := At(LFVal, 2); i := i + 1;       // -> LFFrontRight
    t[i] := At(LFVal, 2); i := i + 1;       // -> LFRearLeft
    t[i] := At(LFVal, 2); i := i + 1;       // -> LFRearRight
    t[i] := At(LFPos, 0); i := i + 1;       // -> LFCenterOfPressureX
    t[i] := At(LFPos, 1); i := i + 1;       // -> LFCenterOfPressureY
  }

  /** `sptrs_[i++] = ...` for slots 20 to 25: the right foot, in the same pattern as the left. */
  method AssignRightFoot(t: array<Src>, i0: nat) returns (i: nat)
    requires i0 == 20 && FilledTo(t, i0)
    modifies t
    ensures i == 26 && FilledTo(t, i)
  {
    i := i0;
    t[i] := At(RFVal, 2); i := i + 1;       // -> RFFrontLeft
    t[i] := At(RFVal, 2); i := i + 1;       // -> RFFrontRight
    t[i] := At(RFVal, 2); i := i + 1;       // -> RFRearLeft
    t[i] := At(RFVal, 2); i := i + 1;       // -> RFRearRight
    t[i] := At(RFPos, 0); i := i + 1;       // -> RFCenterOfPressureX
    t[i] := At(RFPos, 1); i := i + 1;       // -> RFCenterOfPressureY
  }

  /** `sptrs_[i++] = ...` for slots 26 to 36: bumpers, chest button, head touch, battery
      and sonar, none of which the simulator has. */
  method AssignUnmatchedDevices(t: array<Src>, i0: nat) returns (i: nat)
    requires i0 == 26 && FilledTo(t, i0)
    modifies t
    ensures i == 37 && FilledTo(t, i)
  {
    i := i0;
    t[i] := Na; i := i + 1;                 // -> LFootBumperLeft
    t[i] := Na; i := i + 1;                 // -> LFootBumperRight
    t[i] := Na; i := i + 1;                 // -> RFootBumperLeft
    t[i] := Na; i := i + 1;                 // -> RFootBumperRight
    t[i] := Na; i := i + 1;                 // -> ChestBoardButton
    t[i] := Na; i := i + 1;                 // -> HeadTouchFront
    t[i] := Na; i := i + 1;                 // -> HeadTouchRear
    t[i] := Na; i := i + 1;                 // -> HeadTouchMiddle
    t[i] := Na; i := i + 1;                 // -> BatteryCharge
    t[i] := Na; i := i + 1;                 // -> BatteryCurrent
    t[i] := Na; i := i + 1;                 // -> US
  }

  class Sensors {
    var gyr: array<Float>
    var acc: array<Float>
    var lfpos: array<Float>
    var lfval: array<Float>
    var rfpos: array<Float>
    var rfval: array<Float>

    /** The table `sptrs_`: slot k of the sensor vector reads sptrs[k]. */
    var sptrs: array<Src>

    /** The placeholder `na_`. The constructor never sets it in C++, so its
        value is whatever the memory held, passed in here. */
    var na: Float

    /** The array behind each simulator field. */
    function Buffer(fld: Field): array<Float>
      reads this
    {
      match fld
      case Gyr => gyr
      case Acc => acc
      case LFPos => lfpos
      case LFVal => lfval
      case RFPos => rfpos
      case RFVal => rfval
    }

    /** Six distinct three-element fields, and the table fixed as Table gives it. */
    ghost predicate Valid()
      reads this, sptrs
    {
      && gyr.Length == 3 && acc.Length == 3 && lfpos.Length == 3
      && lfval.Length == 3 && rfpos.Length == 3 && rfval.Length == 3
      && gyr != acc && gyr != lfpos && gyr != lfval && gyr != rfpos && gyr != rfval
      && acc != lfpos && acc != lfval && acc != rfpos && acc != rfval
      && lfpos != lfval && lfpos != rfpos && lfpos != rfval
      && lfval != rfpos && lfval != rfval
      && rfpos != rfval
      && sptrs.Length == NumberOfSensors
      && forall k :: 0 <= k < NumberOfSensors ==> sptrs[k] == Table(k)
    }

    /** The objects that make up this one. */
    ghost function Repr(): set<object>
      reads this
    {
      {this, gyr, acc, lfpos, lfval, rfpos, rfval, sptrs}
    }

    /** The readings the six fields hold now. */
    ghost function Current(): Frame
      reads this, sptrs, gyr, acc, lfpos, lfval, rfpos, rfval
      requires Valid()
    {
      Frame(gyr[..], acc[..], lfpos[..], lfval[..], rfpos[..], rfval[..])
    }

    /** Builds the table slot by slot with a running counter. `init` is what
        the fields' memory held before construction and `placeholder` what
        `na_` holds. The gyroscope and accelerometer fields are cleared as
        the code is written, three bytes each, so only the low bytes of
        their first component become zero. */
    constructor (init: Frame, placeholder: Float)
      ensures Valid()
      ensures fresh(gyr) && fresh(acc) && fresh(lfpos) && fresh(lfval) && fresh(rfpos) && fresh(rfval)
      ensures fresh(sptrs)
      ensures Current() == init.(gyr := ClearVec3AsWritten(init.gyr), acc := ClearVec3AsWritten(init.acc))
      ensures na == placeholder
    {
      var g := NewField(ClearVec3AsWritten(init.gyr));
      var a := NewField(ClearVec3AsWritten(init.acc));
      var lp := NewField(init.lfpos);
      var lv := NewField(init.lfval);
      var rp := NewField(init.rfpos);
      var rv := NewField(init.rfval);
      gyr, acc, lfpos, lfval, rfpos, rfval := g, a, lp, lv, rp, rv;
      na := placeholder;

      var t := new Src[NumberOfSensors];
      var i := 0;
      i := AssignUnmatchedInertial(t, i);
      i := AssignInertial(t, i);
      i := AssignLeftFoot(t, i);
      i := AssignRightFoot(t, i);
      i := AssignUnmatchedDevices(t, i);
      assert i == NumberOfSensors;
      sptrs := t;
    }

    /** Writes the sensor vector into `out`, reading each slot through the
        table in turn. Reports failure, writing nothing, when there is no
        destination of the vector's length. The fields are left as they were. */
    method ToSensorValues(out: array?<Float>) returns (ok: bool)
      requires Valid()
      requires out == null || out !in Repr()
      modifies out
      ensures Valid() && Current() == old(Current()) && na == old(na)
      ensures ok <==> out != null && out.Length == NumberOfSensors
      ensures ok ==> out[..] == Translate(Current(), na)
      ensures !ok && out != null ==> out[..] == old(out[..])
    {
      if out == null || out.Length != NumberOfSensors {
        return false;
      }
      var k := 0;
      while k < NumberOfSensors
        invariant 0 <= k <= NumberOfSensors
        invariant out[..k] == Translate(Current(), na)[..k]
      {
        var v := match sptrs[k]
          case Na => na
          case At(fld, i) => Buffer(fld)[i];
        out[k] := v;
        k := k + 1;
      }
      return true;
    }

    /** The store `fld[i] = v` that refreshes one reading of a field. */
    method Store(fld: Field, i: Index, v: Float)
      requires Valid()
      modifies Buffer(fld)
      ensures Valid() && na == old(na)
      ensures Current() == old(Current()).With(fld, i, v)
    {
      Buffer(fld)[i] := v;
    }
  }
}
