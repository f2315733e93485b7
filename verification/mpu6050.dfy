/**
 * The MPU-6050 register decoding of `mpu6050sensor.py` and `legacy/mpu6050sensor.py`:
 * the two's-complement `read_word`, the raw slot layout `getData` fills, the legacy
 * 14-byte burst read, and the legacy initialisation writes.
 *
 * The I2C bus at the sensor's address is the function `bus`, from register to byte.
 * Slots hold the raw signed words; the scale factors and the temperature formula
 * applied to them are floating point and are not part of this model.
 */
module Mpu6050 {
  import opened Wrappers

  newtype byte = x: int | 0 <= x < 256

  const ADDRESS: int := 0x68

  const ACCEL_XOUT_H: int := 0x3b
  const ACCEL_YOUT_H: int := 0x3d
  const ACCEL_ZOUT_H: int := 0x3f
  const TEMP_OUT_H: int := 0x41
  const GYRO_XOUT_H: int := 0x43
  const GYRO_YOUT_H: int := 0x45
  const GYRO_ZOUT_H: int := 0x47

  const REGISTER_GYRO_CONFIG: int := 0x1b
  const REGISTER_ACCEL_CONFIG: int := 0x1c
  const REGISTER_PWR_MGMT_1: int := 0x6b
  const REGISTER_SIGNAL_PATH_RESET: int := 0x68

  /** Full-scale selectors ±250, ±500, ±1000, ±2000 °/s. */
  const GYRO_CONFIGS: seq<int> := [0x00, 0x08, 0x10, 0x18]
  /** Full-scale selectors ±2, ±4, ±8, ±16 g. */
  const ACCEL_CONFIGS: seq<int> := [0x00, 0x08, 0x10, 0x18]

  const WORD_MIN: int := -32768
  const WORD_MAX: int := 32767

  /** `read_word`'s arithmetic: `(high << 8) + low`, then `-((65535 - value) + 1)` from 0x8000 up. */
  function ReadWord(high: byte, low: byte): (r: int)
    ensures WORD_MIN <= r <= WORD_MAX
    ensures r < 0 <==> high >= 0x80
    ensures r % 0x1_0000 == high as int * 256 + low as int
  {
    var value := high as int * 256 + low as int;
    if value >= 0x8000 then -((65535 - value) + 1) else value
  }

  /** `read_word(reg)`: high byte at `reg`, low byte at `reg + 1`. */
  function ReadWordAt(bus: int -> byte, reg: int): int {
    ReadWord(bus(reg), bus(reg + 1))
  }

  /** Splitting a signed 16-bit word into its high and low bytes. */
  function Encode(w: int): (hl: (byte, byte))
    requires WORD_MIN <= w <= WORD_MAX
    ensures hl.0 >= 0x80 <==> w < 0
    ensures hl.0 as int * 256 + hl.1 as int == (if w < 0 then w + 0x1_0000 else w)
  {
    var u := w % 0x1_0000;
    ((u / 256) as byte, (u % 256) as byte)
  }

  /** The raw words the real-sensor `getData` puts in slots `offset + 0 .. offset + 6`: gyro x, y, z, accel x, y, z, temperature. */
  function Slots(bus: int -> byte): (s: seq<int>)
    ensures |s| == 7
    ensures forall k :: 0 <= k < 7 ==> WORD_MIN <= s[k] <= WORD_MAX
  {
    [ ReadWordAt(bus, GYRO_XOUT_H), ReadWordAt(bus, GYRO_YOUT_H), ReadWordAt(bus, GYRO_ZOUT_H),
      ReadWordAt(bus, ACCEL_XOUT_H), ReadWordAt(bus, ACCEL_YOUT_H), ReadWordAt(bus, ACCEL_ZOUT_H),
      ReadWordAt(bus, TEMP_OUT_H) ]
  }

  /** `data[offset + k] = slots[k]` for k = 0..6, the rest of `data` untouched. */
  function Fill(data: seq<int>, offset: nat, slots: seq<int>): (r: seq<int>)
    requires |slots| == 7 && offset + 7 <= |data|
    ensures |r| == |data|
    ensures forall k :: 0 <= k < 7 ==> r[offset + k] == slots[k]
    ensures forall i :: 0 <= i < |data| && !(offset <= i < offset + 7) ==> r[i] == data[i]
  {
    data[..offset] + slots + data[offset + 7..]
  }

  /** `struct.unpack('>h', …)` of two bytes: a big-endian two's-complement short. */
  function Int16BE(high: byte, low: byte): (r: int)
    ensures WORD_MIN <= r <= WORD_MAX
  {
    (if high >= 0x80 then high as int - 256 else high as int) * 256 + low as int
  }

  /** `struct.unpack(">hhhhhhh", bytes(buffer))`: seven shorts, or `struct.error` unless there are exactly 14 bytes. */
  function Unpack(buffer: seq<byte>): (r: Option<seq<int>>)
    ensures r.Some? <==> |buffer| == 14
    ensures r.Some? ==> |r.value| == 7
  {
    if |buffer| != 14 then None
    else Some(seq(7, k requires 0 <= k < 7 => Int16BE(buffer[2 * k], buffer[2 * k + 1])))
  }

  /** The legacy `getData`: the burst comes as accel x, y, z, temp, gyro x, y, z and is stored gyro first. */
  function LegacySlots(buffer: seq<byte>): (r: Option<seq<int>>)
    ensures r.Some? <==> |buffer| == 14
    ensures r.Some? ==> |r.value| == 7
    ensures r.Some? ==> forall k :: 0 <= k < 7 ==> WORD_MIN <= r.value[k] <= WORD_MAX
    ensures r.Some? ==>
      && r.value[0] == Int16BE(buffer[8], buffer[9])
      && r.value[3] == Int16BE(buffer[0], buffer[1])
      && r.value[6] == Int16BE(buffer[6], buffer[7])
  {
    match Unpack(buffer)
      case None => None
      case Some(w) => Some([w[4], w[5], w[6], w[0], w[1], w[2], w[3]])
  }

  /** `read_i2c_block_data(0x68, 0x3B, 14)`: the 14 registers from ACCEL_XOUT_H on. */
  function Burst(bus: int -> byte): (b: seq<byte>)
    ensures |b| == 14
  {
    seq(14, k => bus(ACCEL_XOUT_H + k))
  }

  /** The non-legacy `init`: wake the device. */
  const INIT_WRITES: seq<(int, int)> := [(REGISTER_PWR_MGMT_1, 0)]

  /** The legacy `init`: device reset, signal-path reset, wake, then ±250 °/s and ±2 g. */
  const LEGACY_INIT_WRITES: seq<(int, int)> := [
    (REGISTER_PWR_MGMT_1, 0x80),
    (REGISTER_SIGNAL_PATH_RESET, 0x07),
    (REGISTER_PWR_MGMT_1, 0x00),
    (REGISTER_GYRO_CONFIG, GYRO_CONFIGS[0]),
    (REGISTER_ACCEL_CONFIG, ACCEL_CONFIGS[0])
  ]

  /** The outcome of the legacy `init`: the register writes made, and whether the sensor still counts as present. */
  datatype Init = Init(writes: seq<(int, int)>, present: bool)

  /**
   * The legacy `init`. Without the bus library nothing happens. Otherwise `succeeding`
   * counts the bus operations (opening the bus, each write, then the read-back of the
   * three configured registers) that complete before one raises; an exception marks
   * the sensor absent.
   */
  function LegacyInit(loaded: bool, succeeding: nat): (r: Init)
    ensures r.present ==> r.writes == LEGACY_INIT_WRITES
    ensures !loaded ==> r == Init([], false)
    ensures r.writes <= LEGACY_INIT_WRITES
    ensures loaded ==> (r.present <==> succeeding > |LEGACY_INIT_WRITES| + READ_BACKS)
  {
    if !loaded then Init([], false)
    else if succeeding == 0 then Init([], false)
    else if succeeding - 1 < |LEGACY_INIT_WRITES| then Init(LEGACY_INIT_WRITES[..succeeding - 1], false)
    else Init(LEGACY_INIT_WRITES, succeeding - 1 - |LEGACY_INIT_WRITES| >= READ_BACKS)
  }

  /** The registers `init` reads back and reports once its writes are done. */
  const READ_BACKS: nat := 3

  // ---------------------------------------------------------------------------
  // Lemmas

  /** The decode is injective: different byte pairs never give the same word. */
  lemma ReadWordInjective(h1: byte, l1: byte, h2: byte, l2: byte)
    requires ReadWord(h1, l1) == ReadWord(h2, l2)
    ensures h1 == h2 && l1 == l2
  {
    assert h1 as int * 256 + l1 as int == h2 as int * 256 + l2 as int;
  }

  /** `Encode` inverts `ReadWord` in both directions. */
  lemma EncodeReadWord(high: byte, low: byte)
    ensures Encode(ReadWord(high, low)) == (high, low)
  {
  }

  lemma ReadWordEncode(w: int)
    requires WORD_MIN <= w <= WORD_MAX
    ensures ReadWord(Encode(w).0, Encode(w).1) == w
  {
  }

  /** `read_word` agrees with the big-endian short of `struct.unpack`. */
  lemma ReadWordIsInt16BE(high: byte, low: byte)
    ensures ReadWord(high, low) == Int16BE(high, low)
  {
  }

  /** Values below 0x8000 are returned as read; from 0x8000 on, 65536 is subtracted. */
  lemma ReadWordTwosComplement(high: byte, low: byte)
    ensures var value := high as int * 256 + low as int;
      ReadWord(high, low) == if value >= 0x8000 then value - 0x1_0000 else value
  {
  }

  /**
   * The legacy burst decode and the non-legacy register-by-register reads fill the
   * same slots with the same words when the burst holds the bus's registers.
   */
  lemma LegacySlotsMatch(bus: int -> byte)
    ensures LegacySlots(Burst(bus)) == Some(Slots(bus))
  {
    var b := Burst(bus);
    var w := Unpack(b).value;
    forall k | 0 <= k < 7
      ensures w[k] == ReadWordAt(bus, ACCEL_XOUT_H + 2 * k)
    {
      ReadWordIsInt16BE(b[2 * k], b[2 * k + 1]);
    }
  }

  /** The gyro and accelerometer configuration codes are the selector k shifted left by three. */
  lemma ConfigCodes()
    ensures forall k :: 0 <= k < 4 ==> GYRO_CONFIGS[k] == k * 8 && ACCEL_CONFIGS[k] == k * 8
  {
  }

  /** A completed legacy `init` writes the five registers in order; the non-legacy one only wakes the device. */
  lemma LegacyInitSequence(succeeding: nat)
    requires succeeding > |LEGACY_INIT_WRITES| + READ_BACKS
    ensures LegacyInit(true, succeeding) == Init(LEGACY_INIT_WRITES, true)
    ensures LEGACY_INIT_WRITES[0] == (0x6b, 0x80) && LEGACY_INIT_WRITES[1] == (0x68, 0x07)
    ensures LEGACY_INIT_WRITES[2] == (0x6b, 0) && LEGACY_INIT_WRITES[3] == (0x1b, 0) && LEGACY_INIT_WRITES[4] == (0x1c, 0)
    ensures INIT_WRITES == [(0x6b, 0)]
  {
  }
}
