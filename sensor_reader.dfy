/**
 * raspberrypi_code/sensors/sensor_reader.py: reading one channel of the
 * MCP3008 analogue-to-digital converter over SPI, and driving the three
 * select pins of the multiplexer in front of it. The SPI transfer and the
 * GPIO pins are hardware, so the converter's reply is a parameter.
 */
module SensorReader {

  /** The three bytes `spi.xfer2` returns for a three-byte command. */
  datatype Reply = Reply(b0: bv8, b1: bv8, b2: bv8)

  /** BCM numbers of the select pins, least significant bit first. */
  const MuxSelectPins: seq<int> := [17, 27, 22]

  /** Shifting a nibble four places multiplies it by 16 without overflow. */
  lemma ShiftIsTimes16(x: bv8)
    requires x < 16
    ensures (x << 4) as int == x as int * 16
  {
  }

  /**
   * The read command `[1, (8 + channel) << 4, 0]` for channel 0..7: the start
   * bit, then the single-ended bit with the channel in the high nibble, then
   * padding for the reply.
   */
  function Command(channel: int): (f: seq<bv8>)
    requires 0 <= channel <= 7
    ensures |f| == 3 && f[0] == 1 && f[2] == 0
    ensures 128 <= f[1] as int <= 240 && f[1] as int % 16 == 0
    ensures f[1] as int == (8 + channel) * 16
  {
    var selector := (8 + channel) as bv8;
    ShiftIsTimes16(selector);
    [1, selector << 4, 0]
  }

  /** The channel the MCP3008 reads for a command's second byte: bits 4..6, when bit 7 (single-ended) is set. */
  function CommandChannel(b: bv8): (channel: int)
    ensures b as int >= 128 <==> 0 <= channel <= 7
  {
    b as int / 16 - 8
  }

  /** The converter is asked for exactly the channel requested. */
  lemma CommandRoundTrip(channel: int)
    requires 0 <= channel <= 7
    ensures CommandChannel(Command(channel)[1]) == channel
  {
  }

  /** The 10-bit sample: the low two bits of the second reply byte above the whole third byte. */
  function Decode(reply: Reply): (value: int)
    ensures 0 <= value <= 1023
  {
    ((((reply.b1 & 3) as bv16) << 8) | reply.b2 as bv16) as int
  }

  /** The shift and the or of the decoding add the two parts, which cannot overlap. */
  lemma ShiftOrIsSum(high: bv8, low: bv8)
    ensures (((high & 3) as bv16) << 8) | low as bv16 == ((high & 3) as bv16) * 256 + low as bv16
    ensures (high & 3) as bv16 < 4
  {
  }

  /** Masking with 3 keeps the value modulo 4. */
  lemma MaskIsModulo(x: bv8)
    ensures ((x & 3) as bv16) as int == x as int % 4
  {
  }

  /** A 16-bit sum that cannot overflow converts to the integer sum. */
  lemma SumConverts(h: bv16, l: bv8)
    requires h < 4
    ensures (h * 256 + l as bv16) as int == h as int * 256 + l as int
  {
  }

  /** Decode as arithmetic: the low two bits of the second byte times 256, plus the third byte. */
  lemma DecodeArithmetic(reply: Reply)
    ensures Decode(reply) == (reply.b1 as int % 4) * 256 + reply.b2 as int
  {
    var high := (reply.b1 & 3) as bv16;
    ShiftOrIsSum(reply.b1, reply.b2);
    assert Decode(reply) == (high * 256 + reply.b2 as bv16) as int;
    SumConverts(high, reply.b2);
    MaskIsModulo(reply.b1);
  }

  /**
   * The bit operations mean what the comment beside them says: the third
   * byte is the low eight bits, bits 0 and 1 of the second byte are bits 8
   * and 9, and the first byte and the other bits of the second are ignored.
   */
  lemma DecodeBits(reply: Reply, other: Reply)
    ensures Decode(reply) % 256 == reply.b2 as int
    ensures Decode(reply) / 256 == reply.b1 as int % 4
    ensures other.b1 as int % 4 == reply.b1 as int % 4 && other.b2 == reply.b2 ==> Decode(other) == Decode(reply)
  {
    DecodeArithmetic(reply);
    DecodeArithmetic(other);
  }

  /**
   * read_adc: a channel outside 0..7 gives -1 without touching the bus;
   * otherwise the command for that channel is sent and the reply decoded,
   * which lies in 0..1023.
   */
  function ReadAdc(channel: int, xfer: seq<bv8> -> Reply): (value: int)
    ensures channel < 0 || channel > 7 <==> value == -1
    ensures 0 <= channel <= 7 ==> 0 <= value <= 1023 && value == Decode(xfer(Command(channel)))
  {
    if channel < 0 || channel > 7 then -1
    else Decode(xfer(Command(channel)))
  }

  /** set_mux_channel's levels `(channel >> i) & 1` for i = 0, 1, 2, with Python's floor shift. */
  function MuxBits(channel: int): (bits: seq<int>)
    ensures |bits| == |MuxSelectPins|
  {
    seq(3, i requires 0 <= i < 3 => (channel / Pow2(i)) % 2)
  }

  function Pow2(i: nat): (p: nat)
    ensures p >= 1
  {
    if i == 0 then 1 else 2 * Pow2(i - 1)
  }

  /** Each pin is driven low or high, and together they spell the channel modulo 8 in binary. */
  lemma MuxBitsSpellChannel(channel: int)
    ensures forall i :: 0 <= i < 3 ==> MuxBits(channel)[i] == 0 || MuxBits(channel)[i] == 1
    ensures MuxBits(channel)[0] + 2 * MuxBits(channel)[1] + 4 * MuxBits(channel)[2] == channel % 8
    ensures 0 <= channel <= 7 ==>
              MuxBits(channel)[0] + 2 * MuxBits(channel)[1] + 4 * MuxBits(channel)[2] == channel
  {
    var b := MuxBits(channel);
    assert Pow2(1) == 2 && Pow2(2) == 4;
    var q := channel / 8;
    var r := channel % 8;
    assert channel == 8 * q + r;
    assert channel / 2 == 4 * q + r / 2;
    assert channel / 4 == 2 * q + r / 4;
    assert b[0] == r % 2 && b[1] == (r / 2) % 2 && b[2] == r / 4;
  }

  /** Different channels 0..7 select different multiplexer inputs. */
  lemma MuxBitsInjective(m: int, n: int)
    requires 0 <= m <= 7 && 0 <= n <= 7 && MuxBits(m) == MuxBits(n)
    ensures m == n
  {
    MuxBitsSpellChannel(m);
    MuxBitsSpellChannel(n);
  }
}
