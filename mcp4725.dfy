/**
 * The MCP4725 12-bit DAC driver: each write is one I2C transmission of a
 * command byte followed by the 12-bit value split over two bytes, the
 * upper eight bits first and the lower four bits in the high nibble of
 * the third byte.
 */
module Mcp4725 {
  import opened Marlin

  /** The DAC's bus address (A2 = A1 = A0 = 0). */
  const I2cAddress: byte := 0x60
  /** Read/write bit of the address byte. */
  const ReadBit: byte := 0x01
  /** Power-down mode bits. */
  const NormalMode: byte := 0x00
  /** Write-command types. */
  const WriteDacOnly: byte := 0x40
  const WriteDacEeprom: byte := 0x60

  /**
   * The two data bytes of a write: `data_val >> 4` cut to eight bits and
   * `(data_val & 0x0F) << 4`. Only the low twelve bits of `data` survive,
   * and the low nibble of the second byte is always zero.
   */
  function DataBytes(data: word): (r: (byte, byte))
    ensures r.1 & 0x0F == 0
    ensures DecodeData(r.0, r.1) == data & 0x0FFF
  {
    (((data >> 4) & 0xFF) as byte, ((data & 0x0F) << 4) as byte)
  }

  /** The 12-bit value the DAC latches from the two data bytes. */
  function DecodeData(a: byte, b: byte): (v: word)
    ensures v < 4096
  {
    ((a as word) << 4) | ((b as word) >> 4)
  }

  /** DAC_write: the bytes sent to the DAC register only. */
  function WritePacket(data: word): (p: seq<byte>)
    ensures |p| == 3 && p[0] == 0x40
    ensures p[2] & 0x0F == 0
    ensures DecodeData(p[1], p[2]) == data & 0x0FFF
  {
    var (a, b) := DataBytes(data);
    [WriteDacOnly | NormalMode, a, b]
  }

  /** DAC_write_EEPROM: the same data bytes after the EEPROM-write command. */
  function WriteEepromPacket(data: word): (p: seq<byte>)
    ensures |p| == 3 && p[0] == 0x60
    ensures p[1..] == WritePacket(data)[1..]
  {
    var (a, b) := DataBytes(data);
    [WriteDacEeprom | NormalMode, a, b]
  }

  /** DAC_write as the transmission it puts on the bus. */
  function DacWrite(address: byte, data: word): (e: Effect)
    ensures e.I2cWrite? && e.address == address && |e.data| == 3 && e.data[0] == 0x40
  {
    I2cWrite(address, WritePacket(data))
  }

  /** DAC_write_EEPROM as the transmission it puts on the bus. */
  function DacWriteEeprom(address: byte, data: word): (e: Effect)
    ensures e.I2cWrite? && e.address == address && |e.data| == 3 && e.data[0] == 0x60
  {
    I2cWrite(address, WriteEepromPacket(data))
  }

  /**
   * DAC_read is unfinished in the source: it computes the read address and
   * discards it, so it puts nothing on the bus and yields no value.
   */
  function DacRead(address: byte): (traffic: seq<Effect>)
    ensures traffic == []
  {
    // DAC_read's own `address_modified`, computed and never used.
    var readAddress := address | ReadBit;
    []
  }

  /** A value below 4096 comes back unchanged from its two data bytes. */
  lemma TwelveBitRoundTrip(data: word)
    requires data < 4096
    ensures DecodeData(WritePacket(data)[1], WritePacket(data)[2]) == data
  {
  }

  /**
   * A value of 4096 or more loses its upper bits in the `uint8_t` cut: the
   * DAC receives `data mod 4096`.
   */
  lemma UpperBitsLost(data: word)
    ensures DecodeData(WritePacket(data)[1], WritePacket(data)[2]) == data % 4096
  {
  }
}
