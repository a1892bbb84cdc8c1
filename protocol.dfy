/**
 * firmware/src/protocol.rs: decoding packets from the serial port.
 *
 * A packet is a tag byte followed by its fields: 0x01 then cpu, ram high,
 * ram low (Metrics); 0x02 then battery, led (Status). Any other tag yields no
 * packet after consuming just the tag. The port is a `Usart` object holding
 * what the link delivers and a read position; each `read()` consumes one
 * item. Blocking until a byte arrives is not modelled: a read requires that
 * the item is there, and the reads after the tag, whose errors the source
 * unwraps, require a byte.
 */
module Protocol {
  import opened Wrappers
  import opened Common

  /** The outcome of one `serial.read()` once it no longer returns WouldBlock. */
  datatype Rx = Byte(value: bv8) | Fault

  class Usart {
    /** Everything the serial link delivers, in order. */
    const rx: seq<Rx>
    /** How many of those the firmware has read so far. */
    var pos: nat

    ghost predicate Valid()
      reads this
    {
      pos <= |rx|
    }

    /** What is still to be read. */
    function Pending(): seq<Rx>
      reads this
      requires Valid()
    {
      rx[pos..]
    }

    constructor (rx: seq<Rx>)
      ensures Valid() && this.rx == rx && pos == 0
    {
      this.rx := rx;
      pos := 0;
    }

    method Read() returns (r: Rx)
      requires Valid() && pos < |rx|
      modifies this`pos
      ensures Valid()
      ensures r == rx[old(pos)] && pos == old(pos) + 1
    {
      r := rx[pos];
      pos := pos + 1;
    }
  }

  /** A big-endian `u16` from its two bytes: `(high << 8) | low`. */
  function BigEndianU16(high: bv8, low: bv8): bv16
  {
    ((high as bv16) << 8) | (low as bv16)
  }

  lemma Bv16Value(x: bv16)
    ensures x as int == (x >> 8) as int * 256 + (x & 0xFF) as int
  {
  }

  lemma WidenValue(b: bv8)
    ensures (b as bv16) as int == b as int
  {
  }

  /** The shift-and-or is the arithmetic `high * 256 + low`. */
  lemma BigEndianValue(high: bv8, low: bv8)
    ensures BigEndianU16(high, low) as int == high as int * 256 + low as int
  {
    var x := BigEndianU16(high, low);
    assert x >> 8 == high as bv16;
    assert x & 0xFF == low as bv16;
    Bv16Value(x);
    WidenValue(high);
    WidenValue(low);
  }

  /** Both bytes can be read back from the value. */
  lemma BigEndianSplit(high: bv8, low: bv8)
    ensures (BigEndianU16(high, low) >> 8) as bv8 == high
    ensures (BigEndianU16(high, low) & 0xFF) as bv8 == low
  {
  }

  /** Different byte pairs give different values. */
  lemma BigEndianInjective(high: bv8, low: bv8, high': bv8, low': bv8)
    ensures BigEndianU16(high, low) == BigEndianU16(high', low') <==> high == high' && low == low'
  {
    BigEndianSplit(high, low);
    BigEndianSplit(high', low');
  }

  /** `deserialize_u16`: two blocking reads, high byte first. */
  method DeserializeU16(serial: Usart) returns (v: bv16)
    requires serial.Valid() && serial.pos + 2 <= |serial.rx|
    requires serial.rx[serial.pos].Byte? && serial.rx[serial.pos + 1].Byte?
    modifies serial`pos
    ensures serial.Valid() && serial.pos == old(serial.pos) + 2
    ensures v == BigEndianU16(serial.rx[old(serial.pos)].value, serial.rx[old(serial.pos) + 1].value)
  {
    var high := serial.Read();
    var low := serial.Read();
    var h, l := high.value, low.value;
    v := BigEndianU16(h, l);
  }

  /**
   * The input holds a tag, and, after a known tag, the field bytes that the
   * blocking reads wait for (a read error there would panic in `unwrap`).
   */
  predicate Complete(s: seq<Rx>)
  {
    && |s| >= 1
    && (s[0] == Byte(PACKET_METRICS) ==> |s| >= 4 && s[1].Byte? && s[2].Byte? && s[3].Byte?)
    && (s[0] == Byte(PACKET_STATUS) ==> |s| >= 3 && s[1].Byte? && s[2].Byte?)
  }

  /** The packet read, if any, and how many items of the input it used. */
  datatype Decoded = Decoded(packet: Option<Packet>, consumed: nat)

  /** `read_packet_bytes` as a function of the pending input. */
  function Decode(s: seq<Rx>): (d: Decoded)
    requires Complete(s)
    ensures 1 <= d.consumed <= |s|
  {
    match s[0]
    case Fault => Decoded(None, 1)
    case Byte(tag) =>
      if tag == PACKET_METRICS then
        Decoded(Some(MetricsPacket(Metrics(s[1].value, BigEndianU16(s[2].value, s[3].value)))), 4)
      else if tag == PACKET_STATUS then
        Decoded(Some(StatusPacket(Status(s[1].value, s[2].value != 0))), 3)
      else
        Decoded(None, 1)
  }

  /** Tag 0x01: cpu is the next byte, ram the two after it, big-endian; four bytes used. */
  lemma DecodeMetrics(s: seq<Rx>)
    requires Complete(s) && s[0] == Byte(PACKET_METRICS)
    ensures Decode(s).consumed == 4
    ensures Decode(s).packet.Some? && Decode(s).packet.value.MetricsPacket?
    ensures Decode(s).packet.value.metrics.cpu == s[1].value
    ensures Decode(s).packet.value.metrics.ram as int == s[2].value as int * 256 + s[3].value as int
  {
    BigEndianValue(s[2].value, s[3].value);
  }

  /** Tag 0x02: battery is the next byte, and the LED is on for every non-zero byte after it; three bytes used. */
  lemma DecodeStatus(s: seq<Rx>)
    requires Complete(s) && s[0] == Byte(PACKET_STATUS)
    ensures Decode(s).consumed == 3
    ensures Decode(s).packet == Some(StatusPacket(Status(s[1].value, s[2].value != 0)))
  {
  }

  /** A read error on the tag, or an unknown tag, gives no packet and uses only that one item. */
  lemma DecodeNoPacket(s: seq<Rx>)
    requires Complete(s)
    ensures Decode(s).packet == None <==> s[0] != Byte(PACKET_METRICS) && s[0] != Byte(PACKET_STATUS)
    ensures Decode(s).packet == None ==> Decode(s).consumed == 1
  {
  }

  /** The first item alone decides the variant and the number of items used. */
  lemma DecodeDeterminedByTag(s: seq<Rx>, t: seq<Rx>)
    requires Complete(s) && Complete(t) && s[0] == t[0]
    ensures Decode(s).consumed == Decode(t).consumed
    ensures Decode(s).packet.None? == Decode(t).packet.None?
    ensures Decode(s).packet.Some? ==> Decode(s).packet.value.MetricsPacket? == Decode(t).packet.value.MetricsPacket?
  {
  }

  /**
   * The byte layout the decoder expects, written as an encoder; the
   * firmware has none (the host program sends text).
   */
  function Encode(p: Packet): (bytes: seq<bv8>)
    ensures |bytes| == if p.MetricsPacket? then 4 else 3
    ensures bytes[0] == if p.MetricsPacket? then PACKET_METRICS else PACKET_STATUS
  {
    match p
    case MetricsPacket(m) => [PACKET_METRICS, m.cpu, (m.ram >> 8) as bv8, (m.ram & 0xFF) as bv8]
    case StatusPacket(st) => [PACKET_STATUS, st.battery, if st.ledOn then 1 else 0]
  }

  /** Bytes as the serial port delivers them, without read errors. */
  function Delivered(bytes: seq<bv8>): (s: seq<Rx>)
    ensures |s| == |bytes|
    ensures forall i :: 0 <= i < |bytes| ==> s[i] == Byte(bytes[i])
  {
    seq(|bytes|, i requires 0 <= i < |bytes| => Byte(bytes[i]))
  }

  lemma SplitJoin(x: bv16)
    ensures BigEndianU16((x >> 8) as bv8, (x & 0xFF) as bv8) == x
  {
  }

  /** Decoding an encoded packet gives it back, uses exactly its bytes, and leaves what follows unread. */
  lemma DecodeEncode(p: Packet, rest: seq<Rx>)
    ensures Complete(Delivered(Encode(p)) + rest)
    ensures Decode(Delivered(Encode(p)) + rest) == Decoded(Some(p), |Encode(p)|)
  {
    var s := Delivered(Encode(p)) + rest;
    assert s[0] == Byte(Encode(p)[0]);
    match p
    case MetricsPacket(m) =>
      SplitJoin(m.ram);
    case StatusPacket(st) =>
  }

  /** Conversely, a decoded packet re-encodes to the bytes read, when the LED byte was 0 or 1. */
  lemma EncodeDecode(s: seq<Rx>)
    requires Complete(s) && Decode(s).packet.Some?
    requires s[0] == Byte(PACKET_STATUS) ==> s[2].value <= 1
    ensures Delivered(Encode(Decode(s).packet.value)) == s[..Decode(s).consumed]
  {
    var d := Decode(s);
    if s[0] == Byte(PACKET_METRICS) {
      BigEndianSplit(s[2].value, s[3].value);
    }
  }

  /** `read_packet_bytes`: the tag read, then the variant's field reads. */
  method ReadPacketBytes(serial: Usart) returns (p: Option<Packet>)
    requires serial.Valid() && Complete(serial.Pending())
    modifies serial`pos
    ensures serial.Valid()
    ensures p == Decode(old(serial.Pending())).packet
    ensures serial.pos == old(serial.pos) + Decode(old(serial.Pending())).consumed
  {
    ghost var s := serial.Pending();
    var packetType := serial.Read();
    if packetType.Fault? {
      return None;
    }
    match packetType.value
    case 0x01 =>
      var cpu := serial.Read();
      var ram := DeserializeU16(serial);
      p := Some(MetricsPacket(Metrics(cpu.value, ram)));
    case 0x02 =>
      var battery := serial.Read();
      var led := serial.Read();
      p := Some(StatusPacket(Status(battery.value, led.value != 0)));
    case _ =>
      p := None;
  }
}
