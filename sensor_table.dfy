/**
 * The channel map of Simulation::Sensors: which reading of the simulator
 * feeds which channel of the robot's sensor vector.
 *
 * The simulator reports six three-component fields per frame (gyroscope,
 * accelerometer, and the force value and force position of each foot).
 * The robot software expects a fixed-order vector of NumberOfSensors
 * channels. Each channel either reads one component of one field or the
 * shared placeholder `na_`.
 */
module SensorTable {

  /** A reading as the bit pattern of an IEEE-754 single-precision float.
      Readings are only ever copied, never computed with, so the model
      does not interpret them. */
  type Float = bv32

  /** A component index into one of the `float[3]` fields. */
  type Index = i: nat | i < 3

  /** The contents of one `float[3]` field. */
  type Vec3 = s: seq<Float> | |s| == 3 witness [0, 0, 0]

  /** The six simulator fields `gyr`, `acc`, `lfpos`, `lfval`, `rfpos`, `rfval`. */
  datatype Field = Gyr | Acc | LFPos | LFVal | RFPos | RFVal

  /** What one slot of the table `sptrs_` points at: the placeholder `na_`,
      or one component of one simulator field. */
  datatype Src = Na | At(field: Field, index: Index)

  /** The readings held by the six simulator fields at one moment. */
  datatype Frame = Frame(gyr: Vec3, acc: Vec3, lfpos: Vec3, lfval: Vec3, rfpos: Vec3, rfval: Vec3)
  {
    function Get(fld: Field): Vec3
    {
      match fld
      case Gyr => gyr
      case Acc => acc
      case LFPos => lfpos
      case LFVal => lfval
      case RFPos => rfpos
      case RFVal => rfval
    }

    /** The frame after the single store `fld[i] = v`. */
    function With(fld: Field, i: Index, v: Float): (g: Frame)
      ensures g.Get(fld)[i] == v
      ensures forall other: Field, j: Index :: other != fld || j != i ==> g.Get(other)[j] == Get(other)[j]
    {
      match fld
      case Gyr => this.(gyr := gyr[i := v])
      case Acc => this.(acc := acc[i := v])
      case LFPos => this.(lfpos := lfpos[i := v])
      case LFVal => this.(lfval := lfval[i := v])
      case RFPos => this.(rfpos := rfpos[i := v])
      case RFVal => this.(rfval := rfval[i := v])
    }
  }

  /** The length of the robot's sensor vector: the number of slots the
      constructor fills and asserts to be ::Sensors::NUMBER_OF_SENSORS. */
  const NumberOfSensors: nat := 37

  /** The robot's sensor channels, named after the comments beside each
      slot. The first five are the robot's older inertial channels. */
  datatype Channel =
    | AccX | AccY | AccZ | GyrX | GyrY | GyrRef | AngleX | AngleY
    | GyroscopeX | GyroscopeY | GyroscopeZ
    | AccelerometerX | AccelerometerY | AccelerometerZ
    | LFFrontLeft | LFFrontRight | LFRearLeft | LFRearRight
    | LFCenterOfPressureX | LFCenterOfPressureY
    | RFFrontLeft | RFFrontRight | RFRearLeft | RFRearRight
    | RFCenterOfPressureX | RFCenterOfPressureY
    | LFootBumperLeft | LFootBumperRight | RFootBumperLeft | RFootBumperRight
    | ChestBoardButton | HeadTouchFront | HeadTouchRear | HeadTouchMiddle
    | BatteryCharge | BatteryCurrent | US

  /** The channel at each position of the robot's sensor vector, looked up
      group by group as the constructor groups its assignments. */
  function ChannelAt(k: nat): (c: Channel)
    requires k < NumberOfSensors
    ensures Ordinal(c) == k
  {
    if k < 14 then InertialChannelAt(k)
    else if k < 26 then FootChannelAt(k)
    else DeviceChannelAt(k)
  }

  /** The older inertial channels, the angles, the gyroscope and the accelerometer. */
  function InertialChannelAt(k: nat): (c: Channel)
    requires k < 14
    ensures Ordinal(c) == k
  {
    match k
    case 0 => AccX
    case 1 => AccY
    case 2 => AccZ
    case 3 => GyrX
    case 4 => GyrY
    case 5 => GyrRef
    case 6 => AngleX
    case 7 => AngleY
    case 8 => GyroscopeX
    case 9 => GyroscopeY
    case 10 => GyroscopeZ
    case 11 => AccelerometerX
    case 12 => AccelerometerY
    case _ => AccelerometerZ
  }

  /** The force sensors and centres of pressure of the left, then the right foot. */
  function FootChannelAt(k: nat): (c: Channel)
    requires 14 <= k < 26
    ensures Ordinal(c) == k
  {
    match k
    case 14 => LFFrontLeft
    case 15 => LFFrontRight
    case 16 => LFRearLeft
    case 17 => LFRearRight
    case 18 => LFCenterOfPressureX
    case 19 => LFCenterOfPressureY
    case 20 => RFFrontLeft
    case 21 => RFFrontRight
    case 22 => RFRearLeft
    case 23 => RFRearRight
    case 24 => RFCenterOfPressureX
    case _ => RFCenterOfPressureY
  }

  /** Bumpers, chest button, head touch, battery and sonar. */
  function DeviceChannelAt(k: nat): (c: Channel)
    requires 26 <= k < NumberOfSensors
    ensures Ordinal(c) == k
  {
    match k
    case 26 => LFootBumperLeft
    case 27 => LFootBumperRight
    case 28 => RFootBumperLeft
    case 29 => RFootBumperRight
    case 30 => ChestBoardButton
    case 31 => HeadTouchFront
    case 32 => HeadTouchRear
    case 33 => HeadTouchMiddle
    case 34 => BatteryCharge
    case 35 => BatteryCurrent
    case _ => US
  }

  /** The position of a channel in the sensor vector. */
  function Ordinal(c: Channel): (k: nat)
    ensures k < NumberOfSensors
  {
    match c
    case AccX => 0                 case AccY => 1
    case AccZ => 2                 case GyrX => 3
    case GyrY => 4                 case GyrRef => 5
    case AngleX => 6               case AngleY => 7
    case GyroscopeX => 8           case GyroscopeY => 9
    case GyroscopeZ => 10          case AccelerometerX => 11
    case AccelerometerY => 12      case AccelerometerZ => 13
    case LFFrontLeft => 14         case LFFrontRight => 15
    case LFRearLeft => 16          case LFRearRight => 17
    case LFCenterOfPressureX => 18 case LFCenterOfPressureY => 19
    case RFFrontLeft => 20         case RFFrontRight => 21
    case RFRearLeft => 22          case RFRearRight => 23
    case RFCenterOfPressureX => 24 case RFCenterOfPressureY => 25
    case LFootBumperLeft => 26     case LFootBumperRight => 27
    case RFootBumperLeft => 28     case RFootBumperRight => 29
    case ChestBoardButton => 30    case HeadTouchFront => 31
    case HeadTouchRear => 32       case HeadTouchMiddle => 33
    case BatteryCharge => 34       case BatteryCurrent => 35
    case US => 36
  }

  /** Positions and channels correspond one to one: every slot of the
      sensor vector belongs to exactly one channel and every channel has
      exactly one slot. */
  lemma ChannelsAreOrdered()
    ensures forall k :: 0 <= k < NumberOfSensors ==> Ordinal(ChannelAt(k)) == k
    ensures forall c: Channel :: ChannelAt(Ordinal(c)) == c
  {
    forall k | 0 <= k < NumberOfSensors
      ensures Ordinal(ChannelAt(k)) == k
    {
    }
    forall c: Channel
      ensures ChannelAt(Ordinal(c)) == c
    {
    }
  }

  /** The mapping table, slot by slot, grouped as the constructor groups
      its assignments. No slot points at a foot's first two force values
      or at a foot's third position component. */
  function Table(k: nat): (s: Src)
    requires k < NumberOfSensors
    ensures s.At? && s.field in {LFVal, RFVal} ==> s.index == 2
    ensures s.At? && s.field in {LFPos, RFPos} ==> s.index < 2
  {
    if k < 8 then Na                        // older inertial channels, GyrRef, angles
    else if k < 11 then At(Gyr, k - 8)      // gyroscope X, Y, Z
    else if k < 14 then At(Acc, k - 11)     // accelerometer X, Y, Z
    else if k < 18 then At(LFVal, 2)        // left foot, four corners
    else if k < 20 then At(LFPos, k - 18)   // left foot, centre of pressure X, Y
    else if k < 24 then At(RFVal, 2)        // right foot, four corners
    else if k < 26 then At(RFPos, k - 24)   // right foot, centre of pressure X, Y
    else Na                                 // bumpers, buttons, head touch, battery, US
  }

  /** The value a slot reads from the fields and the placeholder. */
  function Read(f: Frame, na: Float, s: Src): Float
  {
    match s
    case Na => na
    case At(fld, i) => f.Get(fld)[i]
  }

  /** The sensor vector: every slot read through the table, in order. */
  function Translate(f: Frame, na: Float): (out: seq<Float>)
    ensures |out| == NumberOfSensors
  {
    seq(NumberOfSensors, k requires 0 <= k < NumberOfSensors => Read(f, na, Table(k)))
  }

  /** The slots fed by one source: the table inverted, written by source. */
  function Slots(s: Src): set<nat>
  {
    match s
    case Na => {0, 1, 2, 3, 4, 5, 6, 7, 26, 27, 28, 29, 30, 31, 32, 33, 34, 35, 36}
    case At(Gyr, i) => {8 + i}
    case At(Acc, i) => {11 + i}
    case At(LFVal, i) => if i == 2 then {14, 15, 16, 17} else {}
    case At(LFPos, i) => if i < 2 then {18 + i} else {}
    case At(RFVal, i) => if i == 2 then {20, 21, 22, 23} else {}
    case At(RFPos, i) => if i < 2 then {24 + i} else {}
  }

  /** Slots is exactly the inverse of Table: slot k is in Slots(s) if and
      only if it is a slot of the vector and the table points it at s. */
  lemma SlotsInvertTable(s: Src)
    ensures Slots(s) == set k: nat | k < NumberOfSensors && Table(k) == s
  {
  }

  /** Each slot of the table is in the slot set of what it points at. */
  lemma SlotOfTable(k: nat)
    requires k < NumberOfSensors
    ensures k in Slots(Table(k))
    ensures forall s: Src :: k in Slots(s) ==> s == Table(k)
  {
    SlotsInvertTable(Table(k));
    forall s: Src | k in Slots(s)
      ensures s == Table(k)
    {
      SlotsInvertTable(s);
    }
  }

  /** The layout of the whole sensor vector: eight placeholders, the
      gyroscope and accelerometer passed through unchanged, each foot's
      force value broadcast to its four corners followed by its centre of
      pressure, and eleven placeholders. */
  lemma TranslateLayout(f: Frame, na: Float)
    ensures Translate(f, na) ==
      seq(8, _ => na) + f.gyr + f.acc
      + [f.lfval[2], f.lfval[2], f.lfval[2], f.lfval[2], f.lfpos[0], f.lfpos[1]]
      + [f.rfval[2], f.rfval[2], f.rfval[2], f.rfval[2], f.rfpos[0], f.rfpos[1]]
      + seq(11, _ => na)
  {
  }

  /** A slot reads the placeholder for every input exactly when the table
      marks it as having no simulator equivalent, and those are the slots
      before the gyroscope and after the right foot. */
  lemma PlaceholderSlots(k: nat)
    requires k < NumberOfSensors
    ensures Table(k) == Na <==> k < 8 || 26 <= k
    ensures Table(k) == Na <==> forall f: Frame, na: Float :: Translate(f, na)[k] == na
  {
    if Table(k) != Na {
      var ones: Vec3 := [1, 1, 1];
      var f := Frame(ones, ones, ones, ones, ones, ones);
      assert Translate(f, 0)[k] == 1;
    }
  }

  /** The four corner channels of each foot always agree with each other
      and with that foot's single force reading. */
  lemma FootCornersAgree(f: Frame, na: Float)
    ensures var out := Translate(f, na);
      && out[Ordinal(LFFrontLeft)] == f.lfval[2] && out[Ordinal(LFFrontRight)] == f.lfval[2]
      && out[Ordinal(LFRearLeft)] == f.lfval[2] && out[Ordinal(LFRearRight)] == f.lfval[2]
      && out[Ordinal(RFFrontLeft)] == f.rfval[2] && out[Ordinal(RFFrontRight)] == f.rfval[2]
      && out[Ordinal(RFRearLeft)] == f.rfval[2] && out[Ordinal(RFRearRight)] == f.rfval[2]
  {
    assert Ordinal(LFFrontLeft) == 14 && Ordinal(LFFrontRight) == 15;
    assert Ordinal(LFRearLeft) == 16 && Ordinal(LFRearRight) == 17;
    assert Ordinal(RFFrontLeft) == 20 && Ordinal(RFFrontRight) == 21;
    assert Ordinal(RFRearLeft) == 22 && Ordinal(RFRearRight) == 23;
  }

  /** Storing one reading changes exactly the slots that the table points
      at that reading, to the stored value, and leaves every other slot as
      it was. */
  lemma StoreChangesItsSlots(f: Frame, na: Float, fld: Field, i: Index, v: Float)
    ensures forall k :: 0 <= k < NumberOfSensors ==>
      Translate(f.With(fld, i, v), na)[k] == if k in Slots(At(fld, i)) then v else Translate(f, na)[k]
  {
  }

  /** Exactly six components feed no slot: the first two components of
      each foot's force value and the third of each foot's position. */
  lemma UnusedComponents(fld: Field, i: Index)
    ensures Slots(At(fld, i)) == {} <==>
      (fld in {LFVal, RFVal} && i < 2) || (fld in {LFPos, RFPos} && i == 2)
  {
  }

  /** A store into a component that feeds no slot leaves the whole sensor
      vector unchanged. */
  lemma UnusedStoreIsInvisible(f: Frame, na: Float, fld: Field, i: Index, v: Float)
    requires Slots(At(fld, i)) == {}
    ensures Translate(f.With(fld, i, v), na) == Translate(f, na)
  {
  }
}
