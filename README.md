# Simulator-to-robot sensor channel map

A Dafny model of `Simulation::Sensors` from the rUNSWift robot code. This class
holds the readings that the physics simulator reports: the gyroscope, the
accelerometer, and each foot's force value and force position. All six are
`float[3]` fields. The class also holds a table, `sptrs_`, with one slot per
channel of the robot's sensor vector. Each slot points at one component of
one field, or at a shared placeholder `na_` when the simulator has no
equivalent. The constructor fills the table with a running counter and then
asserts that it filled exactly `NUMBER_OF_SENSORS` slots. `toSensorValues`
is declared to write the robot-ordered vector; its body is not shown, and the
model reads every slot through the table.

The model has three modules:

- `SensorTable` (sensor_table.dfy) holds the values: readings as `Float` (the
  bit pattern of a single-precision float), the six fields as `Field`, and a
  slot's target as `Src` (`Na`, or `At(field, index)` in place of a pointer).
  `Frame` holds the six fields' contents, and `Channel` with `ChannelAt` and
  `Ordinal` names the robot's channels by position. `Table(k)` is the
  slot-by-slot table and `Slots(s)` is the same table inverted and written by
  source. `Translate` is the sensor vector that a frame and a placeholder
  produce. The lemmas state the
  layout, the broadcasts, the placeholder slots, and which reading feeds which
  slots.
- `ByteClear` (byte_clear.dfy) gives the byte-level effect of `memset` on a
  `float[3]` field. `ClearVec3AsWritten` is the constructor's 3-byte clearing
  of `gyr` and `acc`, which the class uses; `ClearVec3` is the whole-field
  clear the code evidently intends (see "## Findings").
- `Simulation` (sensors.dfy) has the class `Sensors`. Its fields are the six
  field arrays, the table array `sptrs` and the placeholder `na`. The
  constructor fills `sptrs` in order with a counter. `ToSensorValues` copies
  each slot's reading into a destination array in a loop. `Store` is a
  single write into one of the public fields. `Valid()` keeps the table equal
  to `Table` for the object's lifetime.

## Model

| member | source | states |
|---|---|---|
| `Simulation.Sensors.constructor` | robot/simulation/Sensors.hpp:122-175 | fills slot k of the table with `Table(k)` for every k below NUMBER_OF_SENSORS; the counter ends at exactly NUMBER_OF_SENSORS (the final assert holds); `gyr` and `acc` hold what the 3-byte memset as written leaves (`ClearVec3AsWritten`: only the low three bytes of component 0 are zeroed); the other fields keep what their memory held; `na_` keeps its uninitialised value |
| `Simulation.AssignUnmatchedInertial` | robot/simulation/Sensors.hpp:132-139 | slots 0 to 7 point at the placeholder; the counter advances from 0 to 8 |
| `Simulation.AssignInertial` | robot/simulation/Sensors.hpp:141-146 | slots 8 to 13 point at `gyr[0..2]` then `acc[0..2]`; the counter advances from 8 to 14 |
| `Simulation.AssignLeftFoot` | robot/simulation/Sensors.hpp:148-153 | slots 14 to 17 point at `lfval[2]` and slots 18 and 19 at `lfpos[0]` and `lfpos[1]`; the counter advances from 14 to 20 |
| `Simulation.AssignRightFoot` | robot/simulation/Sensors.hpp:155-160 | slots 20 to 23 point at `rfval[2]` and slots 24 and 25 at `rfpos[0]` and `rfpos[1]`; the counter advances from 20 to 26 |
| `Simulation.AssignUnmatchedDevices` | robot/simulation/Sensors.hpp:162-172 | slots 26 to 36 point at the placeholder; the counter advances from 26 to 37 |
| `Simulation.Sensors.ToSensorValues` | robot/simulation/Sensors.hpp:177-184 | on success the destination holds exactly `Translate` of the current readings and placeholder, in robot order; it succeeds exactly when there is a destination of NUMBER_OF_SENSORS entries, and otherwise writes nothing; the readings, the placeholder and the table are left as they were, so repeating the call gives the same vector |
| `Simulation.Sensors.Store` | robot/simulation/Sensors.hpp:53-91 | a write into one component of a public field changes that component only; the table and the placeholder stay fixed |
| `SensorTable.Table` | robot/simulation/Sensors.hpp:130-172 | slot k of `sptrs_` as the constructor sets it; no slot points at `lfval[0..1]`, `rfval[0..1]`, `lfpos[2]` or `rfpos[2]` |
| `SensorTable.ChannelAt` | robot/simulation/Sensors.hpp:132-172 | names the channel each slot feeds, after the comments beside the assignments; the channel's position is k |
| `SensorTable.Translate` | robot/simulation/Sensors.hpp:184-188 | the sensor vector always has exactly NUMBER_OF_SENSORS entries |
| `SensorTable.TranslateLayout` | robot/simulation/Sensors.hpp:130-172 | the whole vector is 8 placeholders, the gyroscope and accelerometer passed through unconverted, each foot's `val[2]` four times followed by `pos[0]` and `pos[1]`, then 11 placeholders |
| `SensorTable.PlaceholderSlots` | robot/simulation/Sensors.hpp:132-172 | a slot points at the placeholder exactly when it lies below 8 or at 26 and above, and exactly when its output equals the placeholder for every input |
| `SensorTable.FootCornersAgree` | robot/simulation/Sensors.hpp:148-160 | the four corner channels of each foot, named as channels, equal each other and that foot's `val[2]` |
| `SensorTable.SlotsInvertTable` | robot/simulation/Sensors.hpp:130-172 | the per-source slot sets are exactly the inverse image of the table: slot k is fed by s if and only if the table points slot k at s |
| `SensorTable.SlotOfTable` | robot/simulation/Sensors.hpp:130-172 | every slot is fed by exactly one source |
| `SensorTable.StoreChangesItsSlots` | robot/simulation/Sensors.hpp:130-172 | writing one component changes exactly the slots mapped to it, to the written value, and no other slot |
| `SensorTable.UnusedComponents` | robot/simulation/Sensors.hpp:88-91 | a component feeds no slot if and only if it is `lfval[0]`, `lfval[1]`, `rfval[0]`, `rfval[1]`, `lfpos[2]` or `rfpos[2]` |
| `SensorTable.UnusedStoreIsInvisible` | robot/simulation/Sensors.hpp:88-91 | writing a component that feeds no slot leaves the whole sensor vector unchanged |
| `SensorTable.Ordinal` | robot/simulation/Sensors.hpp:131-172 | every named channel has a position below NUMBER_OF_SENSORS |
| `SensorTable.ChannelsAreOrdered` | robot/simulation/Sensors.hpp:130-174 | positions 0 to NUMBER_OF_SENSORS-1 and channels correspond one to one (`ChannelAt` and `Ordinal` are inverse), so each output slot belongs to exactly one channel and no channel is filled twice |
| `ByteClear.Memset` | robot/simulation/Sensors.hpp:124-125 | zeroing `count` bytes zeroes every float lying wholly inside them and leaves every float wholly after them unchanged |
| `ByteClear.ClearVec3AsWritten` | robot/simulation/Sensors.hpp:124-125 | the constructor's 3-byte memset zeroes the low three bytes of component 0 and keeps its top byte and all of components 1 and 2 |
| `ByteClear.AsWrittenMissesIntent` | robot/simulation/Sensors.hpp:124-125 | the 3-byte memset gives the intended all-zero field exactly when the bytes it misses were already zero |
| `ByteClear.AsWrittenLeavesTwos` | robot/simulation/Sensors.hpp:124 | a `gyr` field holding 2.0f in every component still holds 2.0f everywhere after that memset |
| `ByteClear.ClearVec3` | robot/simulation/Sensors.hpp:124-125 | clearing `sizeof(float[3])` bytes leaves all three components zero |

## Left out

- Unit and sign conversion of gyroscope and accelerometer readings: the source
  documents the two conventions only in comments (lines 31-77, partly marked
  "probably"). The shown code applies no conversion, and the body of
  `toSensorValues` is not shown; the model passes the readings through
  unconverted, as `TranslateLayout` states.
- Placeholder value: `na_` is never initialised, so the constructor takes its
  value as the parameter `placeholder`. The model never assumes it is zero: a
  zero placeholder would need an initialisation that the code does not have.
- Memory before construction: the fields are not initialised in C++. The
  constructor's `init` parameter stands for whatever they held.
- The body of `toSensorValues` and the `SensorValues` type are not part of this
  model. The translator reads each slot's target in order and writes a plain
  array. Returning false for a missing destination or one of the wrong length
  is the model's choice, since the C++ success condition is not known.
- Simulation.Sensors.ToSensorValues: also requires that the destination is not
  one of the object's own arrays. In C++ the destination's type guarantees
  this.
- NUMBER_OF_SENSORS is defined in a header that is not part of this model. It
  is fixed at 37, the number of assignments that the constructor's assert
  equates with it. With any other value, the slot writes or the final assert
  would not verify.
- Pointers: a slot is a tag (`Src`) rather than an address, and a tag always
  resolves against the object's own fields and placeholder. For an object
  that has never been copied or assigned, this gives what dereferencing the
  pointer would give.
- Copying: the class declares no copy constructor or copy assignment, so a
  copy (`PerceptorInfo` holds a `Sensors` by value) gets the original's
  pointers, reads the original's fields and `na_`, and dangles once the
  original is destroyed. The model has no copy operation and does not
  capture this aliasing.
- The slot writes are split into five helpers, one per group of the
  constructor's assignments. The counter is passed through them, so the
  slots are still written one at a time, in order.
- Byte order: `ByteClear` assumes little-endian floats (as on the robot and on
  x86).
- Simulated angle and sonar readings (made by other classes), joint perceptors,
  and the GUI and drawing code elsewhere in the repository.

## Findings

| source | as written | input that shows it | evidently intended | confidence | as-written member | corrected member |
|---|---|---|---|---|---|---|
| robot/simulation/Sensors.hpp:124-125 | `memset((void*)&gyr, 0, 3)` (and the same for `acc`) clears 3 bytes: the low 24 bits of component 0 | a field holding 2.0f (bit pattern 0x4000_0000) in each component before construction still holds 2.0f in each component after it | clear the whole field, `sizeof(gyr)` = 12 bytes, so all three components read 0 | high; not executed | `ByteClear.AsWrittenLeavesTwos` | `ByteClear.ClearVec3` |
