/**
 * The ADS1x15 ADC driver: a single-shot conversion writes a configuration
 * word to the config register, waits for the conversion and reads the
 * conversion register back. The same code serves the ADS1115 build
 * (`EXT_ADC == 1`) and the ADS1015 build (`EXT_ADC == 2`); the builds differ
 * in their register constants and in the final shift of `regRead`.
 */
module Ads1x15 {
  import opened Marlin

  datatype Build = Ads1115 | Ads1015

  /**
   * The register constants of one build. `muxSingle[c]` selects channel `c`
   * single-ended; `muxDiff` holds the pairs (0,1), (0,3), (1,3), (2,3) in
   * that order.
   */
  datatype Registers = Registers(
    build: Build,
    address: byte,
    conversionReg: byte,
    configReg: byte,
    conversionDelay: nat,
    osSingle: word,
    modeSingle: word,
    dataRate: word,
    compMode: word,
    compPol: word,
    compLatch: word,
    compQue: word,
    pga6144: word,
    muxSingle: seq<word>,
    muxDiff: seq<word>)

  /** The input-multiplexer field of the config register, bits 14..12. */
  const MuxField: word := 0x7000

  /**
   * A register map is well formed when there are four single-ended and
   * four differential multiplexer settings, each lying in the multiplexer
   * field and all eight different, while the other flags stay out of it.
   */
  predicate WellFormed(r: Registers) {
    && |r.muxSingle| == 4 && |r.muxDiff| == 4
    && (forall i :: 0 <= i < 4 ==> r.muxSingle[i] & !MuxField == 0)
    && (forall i :: 0 <= i < 4 ==> r.muxDiff[i] & !MuxField == 0)
    && (forall i, j :: 0 <= i < j < 4 ==> r.muxSingle[i] != r.muxSingle[j])
    && (forall i, j :: 0 <= i < j < 4 ==> r.muxDiff[i] != r.muxDiff[j])
    && (forall i, j :: 0 <= i < 4 && 0 <= j < 4 ==> r.muxSingle[i] != r.muxDiff[j])
    && (BaseConfig(r) | r.osSingle) & MuxField == 0
  }

  /** The ADS1015 register map (12-bit build). */
  const Ads1015Registers := Registers(
    Ads1015,
    0x48,        // I2C address
    0x00,        // conversion register
    0x01,        // config register
    8,           // conversion delay in ms
    0x8000,      // OS: start a single conversion
    0x0100,      // single-shot mode
    0x0080,      // 1600 samples per second
    0x0000,      // traditional comparator
    0x0000,      // comparator active low
    0x0000,      // non-latching comparator
    0x0003,      // comparator disabled
    0x0000,      // PGA gain 2/3 (+-6.144 V)
    [0x4000, 0x5000, 0x6000, 0x7000],
    [0x0000, 0x1000, 0x2000, 0x3000])

  /** The flags every conversion sets before the channel is chosen. */
  function BaseConfig(r: Registers): word {
    r.modeSingle | r.dataRate | r.compMode | r.compPol | r.compLatch | r.compQue | r.pga6144
  }

  /** A conversion's config word: the base flags, the multiplexer setting, and OS. */
  function ConfigWord(r: Registers, mux: word): word {
    BaseConfig(r) | mux | r.osSingle
  }

  /**
   * The config word of readADC_SingleEnded, or None for a channel above 3,
   * for which the function returns 0 before touching the bus.
   */
  function SingleEndedConfig(r: Registers, channel: byte): (c: Option<word>)
    requires |r.muxSingle| == 4
    ensures c.Some? <==> channel <= 3
    ensures c.Some? ==> c.value & r.muxSingle[channel] == r.muxSingle[channel]
  {
    if channel > 3 then None
    else Some(ConfigWord(r, r.muxSingle[channel]))
  }

  /** Index into `muxDiff` of an accepted channel pair. */
  function DiffIndex(first: byte, second: byte): (k: Option<nat>)
    ensures k.Some? ==> k.value < 4
    ensures k.Some? <==> (first, second) in {(0, 1), (0, 3), (1, 3), (2, 3)}
  {
    if first == 0 && second == 1 then Some(0)
    else if first == 0 && second == 3 then Some(1)
    else if first == 1 && second == 3 then Some(2)
    else if first == 2 && second == 3 then Some(3)
    else None
  }

  /**
   * The config word of readADC_Differential, or None for a pair other than
   * (0,1), (0,3), (1,3), (2,3), for which the function returns 0.
   */
  function DifferentialConfig(r: Registers, first: byte, second: byte): (c: Option<word>)
    requires |r.muxDiff| == 4
    ensures c.Some? <==> DiffIndex(first, second).Some?
  {
    match DiffIndex(first, second)
    case None => None
    case Some(k) => Some(ConfigWord(r, r.muxDiff[k]))
  }

  /** The multiplexer setting a config word carries. */
  function Mux(config: word): word {
    config & MuxField
  }

  /** regWrite: the register pointer, then the value high byte first. */
  function RegWriteBytes(reg: byte, value: word): (p: seq<byte>)
    ensures |p| == 3 && p[0] == reg
    ensures ((p[1] as word) << 8) | (p[2] as word) == value
  {
    [reg, (value >> 8) as byte, (value & 0xFF) as byte]
  }

  /** The sign bit of a 16-bit `int`. */
  const SignBit: word := 0x8000

  /**
   * `x >> 4` on an AVR `int` (16 bits) holding the bit pattern `x`: avr-gcc
   * shifts arithmetically, so the low twelve bits are the top twelve bits of
   * `x` and the four vacated top bits copy its sign bit.
   */
  function ShiftRight4Signed(x: word): (r: word)
    ensures r & 0x0FFF == x >> 4
    ensures x & SignBit == 0 ==> r & 0xF000 == 0
    ensures x & SignBit != 0 ==> r & 0xF000 == 0xF000
  {
    if x & SignBit == 0 then x >> 4 else (x >> 4) | 0xF000
  }

  /**
   * regRead: the two bytes received, high byte first. On the ATmega2560
   * `Wire.read()` returns a 16-bit `int`, so `(hi << 8) | lo` is an `int`
   * that is negative when `hi` has its top bit set. The ADS1115 build
   * stores its bit pattern unchanged. The ADS1015 build shifts it right by
   * 4 as a signed value: the 12-bit conversion result, sign-extended to 16
   * bits.
   */
  function RegReadValue(build: Build, hi: byte, lo: byte): (v: word)
    ensures build == Ads1115 ==> v == ((hi as word) << 8) | (lo as word)
    ensures build == Ads1015 ==> v & 0x0FFF == ((hi as word) << 4) | ((lo as word) >> 4)
    ensures build == Ads1015 && hi < 0x80 ==> v < 2048
    ensures build == Ads1015 && hi >= 0x80 ==> v >= 0xF800
  {
    var raw := ((hi as word) << 8) | (lo as word);
    if build == Ads1115 then raw else ShiftRight4Signed(raw)
  }

  /** The value of a 16-bit word read as a two's-complement `int`. */
  function Signed16(w: word): int {
    if w & SignBit == 0 then w as int else w as int - 0x10000
  }

  /**
   * Read as the signed `int` the source computes, the ADS1015 result is the
   * 12-bit conversion code: full scale 2047, the most negative code -2048,
   * and one step below zero -1.
   */
  lemma Ads1015SignedReadings()
    ensures Signed16(RegReadValue(Ads1015, 0x7F, 0xF0)) == 2047
    ensures Signed16(RegReadValue(Ads1015, 0x80, 0x00)) == -2048
    ensures Signed16(RegReadValue(Ads1015, 0xFF, 0xF0)) == -1
    ensures Signed16(RegReadValue(Ads1015, 0x00, 0x10)) == 1
  {
  }

  /** The bus traffic of regWrite. */
  function RegWriteTraffic(address: byte, reg: byte, value: word): seq<Effect> {
    [I2cWrite(address, RegWriteBytes(reg, value))]
  }

  /** The bus traffic of regRead: select the register, then ask for two bytes. */
  function RegReadTraffic(address: byte, reg: byte): seq<Effect> {
    [I2cWrite(address, [reg]), I2cRequest(address, 2)]
  }

  /** The traffic of one conversion started with config word `config`. */
  function ConversionTraffic(r: Registers, config: word): seq<Effect> {
    RegWriteTraffic(r.address, r.configReg, config)
      + [Delay(r.conversionDelay)]
      + RegReadTraffic(r.address, r.conversionReg)
  }

  /** The ADS1015 register map is well formed. */
  lemma Ads1015WellFormed()
    ensures WellFormed(Ads1015Registers)
  {
    var r := Ads1015Registers;
    assert BaseConfig(r) | r.osSingle == 0x8183;
  }

  /**
   * In the ADS1015 build the single-ended config word for channel c is
   * OS | MUX(4 + c) | single-shot | 1600 SPS | comparator disabled.
   */
  lemma Ads1015SingleEndedWord(channel: byte)
    requires channel <= 3
    ensures SingleEndedConfig(Ads1015Registers, channel)
         == Some(0x8000 | (0x4000 + 0x1000 * (channel as word)) | 0x0100 | 0x0080 | 0x0003)
  {
  }

  /** A well-formed config word carries exactly the multiplexer setting it selects. */
  lemma MuxOfConfig(r: Registers, mux: word)
    requires WellFormed(r)
    requires mux & !MuxField == 0
    ensures Mux(ConfigWord(r, mux)) == mux
  {
    assert (BaseConfig(r) | r.osSingle) & MuxField == 0;
  }

  /** Distinct accepted channels give distinct single-ended config words. */
  lemma SingleEndedWordsDistinct(r: Registers, c1: byte, c2: byte)
    requires WellFormed(r)
    requires c1 <= 3 && c2 <= 3 && c1 != c2
    ensures SingleEndedConfig(r, c1).value != SingleEndedConfig(r, c2).value
  {
    MuxOfConfig(r, r.muxSingle[c1]);
    MuxOfConfig(r, r.muxSingle[c2]);
  }

  /** Distinct accepted pairs give distinct differential config words. */
  lemma DifferentialWordsDistinct(r: Registers, f1: byte, s1: byte, f2: byte, s2: byte)
    requires WellFormed(r)
    requires DiffIndex(f1, s1).Some? && DiffIndex(f2, s2).Some? && (f1, s1) != (f2, s2)
    ensures DifferentialConfig(r, f1, s1).value != DifferentialConfig(r, f2, s2).value
  {
    var k1, k2 := DiffIndex(f1, s1).value, DiffIndex(f2, s2).value;
    MuxOfConfig(r, r.muxDiff[k1]);
    MuxOfConfig(r, r.muxDiff[k2]);
  }

  /** A single-ended read and a differential read never share a config word. */
  lemma SingleEndedNotDifferential(r: Registers, c: byte, f: byte, s: byte)
    requires WellFormed(r)
    requires c <= 3 && DiffIndex(f, s).Some?
    ensures SingleEndedConfig(r, c).value != DifferentialConfig(r, f, s).value
  {
    MuxOfConfig(r, r.muxSingle[c]);
    MuxOfConfig(r, r.muxDiff[DiffIndex(f, s).value]);
  }

  /** regWrite puts its bytes on the bus. */
  method RegWrite(m: Machine, address: byte, reg: byte, value: word)
    modifies m`effects
    ensures m.effects == old(m.effects) + RegWriteTraffic(address, reg, value)
  {
    m.effects := m.effects + [I2cWrite(address, [reg, (value >> 8) as byte, (value & 0xFF) as byte])];
  }

  /** regRead: `hi` and `lo` are the two bytes the device answers with. */
  method RegRead(m: Machine, build: Build, address: byte, reg: byte, hi: byte, lo: byte) returns (v: word)
    modifies m`effects
    ensures m.effects == old(m.effects) + RegReadTraffic(address, reg)
    ensures v == RegReadValue(build, hi, lo)
  {
    m.effects := m.effects + [I2cWrite(address, [reg])];
    m.effects := m.effects + [I2cRequest(address, 2)];
    var raw := ((hi as word) << 8) | (lo as word);
    if build == Ads1015 {
      raw := ShiftRight4Signed(raw);
    }
    v := raw;
  }

  /** The global `ADC_val` and the register map of the configured build. */
  class Adc {
    const regs: Registers
    var value: word

    constructor (regs: Registers)
      ensures this.regs == regs && value == 0
    {
      this.regs := regs;
      value := 0;
    }

    /**
     * readADC_SingleEnded: a channel above 3 returns 0 with no traffic and
     * leaves `ADC_val` alone; otherwise one conversion runs and its result
     * is both stored and returned. `hi`, `lo` are the device's answer.
     */
    method ReadSingleEnded(m: Machine, channel: byte, hi: byte, lo: byte) returns (result: word)
      requires |regs.muxSingle| == 4
      modifies this`value, m`effects
      ensures channel > 3 ==> result == 0 && value == old(value) && m.effects == old(m.effects)
      ensures channel <= 3 ==>
        && result == value == RegReadValue(regs.build, hi, lo)
        && m.effects == old(m.effects) + ConversionTraffic(regs, SingleEndedConfig(regs, channel).value)
    {
      if channel > 3 {
        return 0;
      }
      var config := ConfigWord(regs, regs.muxSingle[channel]);
      RegWrite(m, regs.address, regs.configReg, config);
      m.effects := m.effects + [Delay(regs.conversionDelay)];
      value := RegRead(m, regs.build, regs.address, regs.conversionReg, hi, lo);
      result := value;
    }

    /**
     * readADC_Differential: a pair other than (0,1), (0,3), (1,3), (2,3)
     * returns 0 with no traffic; otherwise as for a single-ended read.
     */
    method ReadDifferential(m: Machine, first: byte, second: byte, hi: byte, lo: byte) returns (result: word)
      requires |regs.muxDiff| == 4
      modifies this`value, m`effects
      ensures DiffIndex(first, second).None? ==> result == 0 && value == old(value) && m.effects == old(m.effects)
      ensures DiffIndex(first, second).Some? ==>
        && result == value == RegReadValue(regs.build, hi, lo)
        && m.effects == old(m.effects) + ConversionTraffic(regs, DifferentialConfig(regs, first, second).value)
    {
      var mux: word;
      if first == 0 && second == 1 {
        mux := regs.muxDiff[0];
      } else if first == 0 && second == 3 {
        mux := regs.muxDiff[1];
      } else if first == 1 && second == 3 {
        mux := regs.muxDiff[2];
      } else if first == 2 && second == 3 {
        mux := regs.muxDiff[3];
      } else {
        return 0;
      }
      var config := ConfigWord(regs, mux);
      RegWrite(m, regs.address, regs.configReg, config);
      m.effects := m.effects + [Delay(regs.conversionDelay)];
      value := RegRead(m, regs.build, regs.address, regs.conversionReg, hi, lo);
      result := value;
    }
  }
}
