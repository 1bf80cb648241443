/**
 * The integer part of the supply voltage and current sampler: decoding the
 * 16-bit words a power monitor returns over SMBus into millivolts and
 * microamperes. The bus access itself is a parameter: its status and the
 * word it filled in.
 */
module Svcur {
  /** Millivolts per step of the 12-bit voltage reading. */
  const LsbVoltage: int := 14
  /** Nanovolts across the shunt per step of the 12-bit current reading. */
  const LsbCurrent: int := 26880
  /** Shunt resistance in milliohms. */
  const Shunt: int := 5

  /** The most a 12-bit reading can be. */
  const Max12: int := 0xFFF

  /**
   * `to12bit`: the word arrives low byte first, so the bytes are swapped
   * back and the 4 unused low bits dropped. The result's upper 8 bits are
   * the word's low byte and its lower 4 bits the high nibble of the word.
   */
  function To12Bit(val: int): (r: int)
    requires 0 <= val <= 0xFFFF
    ensures 0 <= r <= Max12
    ensures r == (val % 0x100) * 0x10 + val / 0x1000
  {
    (val / 0x100 + (val % 0x100) * 0x100) / 0x10
  }

  /** The byte-level reading of To12Bit: bytes hi, lo become the 12 bits lo, hi >> 4. */
  lemma To12BitBytes(hi: int, lo: int)
    requires 0 <= hi < 0x100 && 0 <= lo < 0x100
    ensures To12Bit(hi * 0x100 + lo) == lo * 0x10 + hi / 0x10
  {
    var v := hi * 0x100 + lo;
    assert v / 0x100 == hi && v % 0x100 == lo;
    assert v / 0x1000 == hi / 0x10;
  }

  /**
   * `i2c_smbus_read_word_data`: a negative status from the bus access is
   * passed through; otherwise the word, masked to 16 bits.
   */
  function ReadWordData(status: int, word: int): (r: int)
    ensures r < 0 <==> status < 0
    ensures status < 0 ==> r == status
    ensures status >= 0 ==> 0 <= r <= 0xFFFF && (r - word) % 0x10000 == 0
  {
    if status < 0 then status else word % 0x10000
  }

  /** `mV = LSB_V * to12bit(res)`. */
  function VoltageMillivolts(res: int): (mv: int)
    requires 0 <= res <= 0xFFFF
    ensures mv % LsbVoltage == 0 && mv / LsbVoltage == To12Bit(res)
    ensures 0 <= mv <= LsbVoltage * Max12
  {
    LsbVoltage * To12Bit(res)
  }

  /**
   * `uA = to12bit(res) * LSB_A / R`: the division by the shunt is exact,
   * because 26880 nV / 5 mOhm is 5376 uA per step.
   */
  function CurrentMicroamps(res: int): (ua: int)
    requires 0 <= res <= 0xFFFF
    ensures ua == To12Bit(res) * 5376
    ensures 0 <= ua <= 5376 * Max12
  {
    To12Bit(res) * LsbCurrent / Shunt
  }

  /** One integer sample of a regulator: millivolts and microamperes. */
  datatype Sample = Sample(millivolts: int, microamps: int)

  datatype Option<T> = None | Some(value: T)

  /** What one SMBus word read brought back: the access status and the data word. */
  datatype WordTransfer = WordTransfer(status: int, word: int)

  /**
   * The integer part of `process`, given the status of each bus call in
   * order: selecting the device, selecting the voltage register, reading
   * it, selecting the current register, reading it. Any negative status
   * ends the program, which is None here. The voltage comes from the
   * word read at register 0x2 and the current from the word at register 0x0.
   */
  function Process(device: int, voltageSelect: int, voltage: WordTransfer,
                   currentSelect: int, current: WordTransfer): (s: Option<Sample>)
    ensures s.None? <==> device < 0 || voltageSelect < 0 || voltage.status < 0 ||
                         currentSelect < 0 || current.status < 0
    ensures s.Some? ==> s.value.millivolts % LsbVoltage == 0 && 0 <= s.value.millivolts <= 57330
    ensures s.Some? ==> s.value.microamps % 5376 == 0 && 0 <= s.value.microamps <= 22014720
    ensures s.Some? ==> s.value == Sample(LsbVoltage * To12Bit(voltage.word % 0x10000),
                                          5376 * To12Bit(current.word % 0x10000))
  {
    if device < 0 || voltageSelect < 0 then None
    else
      var voltageRaw := ReadWordData(voltage.status, voltage.word);
      if voltageRaw < 0 || currentSelect < 0 then None
      else
        var currentRaw := ReadWordData(current.status, current.word);
        if currentRaw < 0 then None
        else Some(Sample(VoltageMillivolts(voltageRaw), CurrentMicroamps(currentRaw)))
  }
}
