/**
 * firmware/src/main.rs: the firmware entry point. It draws a splash screen,
 * then loops forever: decode one packet from the serial port with its own
 * inlined copy of the decoder, and, for a metrics packet, compose the
 * "CPU: n" and "RAM: n" lines in a 32-byte `heapless::String` and draw them.
 *
 * The endless loop is modelled by one iteration, `LoopStep`. The diagnostic
 * lines the firmware echoes on the serial port are not modelled.
 */
module Firmware {
  import opened Wrappers
  import opened Common
  import opened Text
  import opened Hd44780
  import Protocol
  import Display

  /** Capacity of the `heapless::String<32>` the loop composes lines in. */
  const BUFFER_CAPACITY := 32

  /** "_____SYSTEM_____" */
  const SPLASH_TITLE: seq<bv8> := [0x5F, 0x5F, 0x5F, 0x5F, 0x5F, 0x53, 0x59, 0x53, 0x54, 0x45, 0x4D, 0x5F, 0x5F, 0x5F, 0x5F, 0x5F]
  /** "< S D M" */
  const SPLASH_MENU: seq<bv8> := [0x3C, 0x20, 0x53, 0x20, 0x44, 0x20, 0x4D]
  /** "CPU: " */
  const CPU_LABEL: seq<bv8> := [0x43, 0x50, 0x55, 0x3A, 0x20]
  /** "RAM: " */
  const RAM_LABEL: seq<bv8> := [0x52, 0x41, 0x4D, 0x3A, 0x20]

  /**
   * The inlined `read_packet_bytes` of main.rs: it reads the RAM word's two
   * bytes itself rather than through `deserialize_u16`, joining them with its
   * own shift-and-OR, and agrees with the
   * decoder of protocol.rs on every input.
   */
  method ReadPacketBytes(serial: Protocol.Usart) returns (p: Option<Packet>)
    requires serial.Valid() && Protocol.Complete(serial.Pending())
    modifies serial`pos
    ensures serial.Valid()
    ensures p == Protocol.Decode(old(serial.Pending())).packet
    ensures serial.pos == old(serial.pos) + Protocol.Decode(old(serial.Pending())).consumed
  {
    ghost var s := serial.Pending();
    var packetType := serial.Read();
    assert packetType == s[0];
    if packetType.Fault? {
      return None;
    }
    match packetType.value
    case 0x01 =>
      var cpu := serial.Read();
      var ramHigh := serial.Read();
      var ramLow := serial.Read();
      assert cpu == s[1] && ramHigh == s[2] && ramLow == s[3];
      var ram: bv16 := ((ramHigh.value as bv16) << 8) | (ramLow.value as bv16);
      p := Some(MetricsPacket(Metrics(cpu.value, ram)));
    case 0x02 =>
      var battery := serial.Read();
      var led := serial.Read();
      assert battery == s[1] && led == s[2];
      p := Some(StatusPacket(Status(battery.value, led.value != 0)));
    case _ =>
      p := None;
  }

  /** The first line drawn for a metrics packet. */
  function CpuLine(m: Metrics): seq<bv8>
  {
    CPU_LABEL + Decimal(m.cpu as int)
  }

  /** The second line drawn for a metrics packet. */
  function RamLine(m: Metrics): seq<bv8>
  {
    RAM_LABEL + Decimal(m.ram as int)
  }

  /**
   * Every `push_str(..).unwrap()` of the loop succeeds: "CPU: " and at most
   * three digits, "RAM: " and at most five, both within the 32-byte buffer
   * and even within one 16-column row of the display.
   */
  lemma LinesFit(m: Metrics)
    ensures |CpuLine(m)| <= 8 && |RamLine(m)| <= 10
  {
    DecimalWidthOfIntegers(m.cpu as int);
    DecimalWidthOfIntegers(m.ram as int);
  }

  /** Each line is its label followed by digits that read back as the metric. */
  lemma LinesReadBack(m: Metrics)
    ensures CpuLine(m)[..|CPU_LABEL|] == CPU_LABEL && RamLine(m)[..|RAM_LABEL|] == RAM_LABEL
    ensures forall i :: |CPU_LABEL| <= i < |CpuLine(m)| ==> IsDigit(CpuLine(m)[i])
    ensures forall i :: |RAM_LABEL| <= i < |RamLine(m)| ==> IsDigit(RamLine(m)[i])
    ensures Value(CpuLine(m)[|CPU_LABEL|..]) == m.cpu as int
    ensures Value(RamLine(m)[|RAM_LABEL|..]) == m.ram as int
  {
    var cpu, ram := Decimal(m.cpu as int), Decimal(m.ram as int);
    assert CpuLine(m)[|CPU_LABEL|..] == cpu;
    assert RamLine(m)[|RAM_LABEL|..] == ram;
    assert forall i :: |CPU_LABEL| <= i < |CpuLine(m)| ==> CpuLine(m)[i] == cpu[i - |CPU_LABEL|];
    assert forall i :: |RAM_LABEL| <= i < |RamLine(m)| ==> RamLine(m)[i] == ram[i - |RAM_LABEL|];
    ValueOfDecimal(m.cpu as int);
    ValueOfDecimal(m.ram as int);
  }

  /** What one decoded packet puts on the I2C bus. */
  function PacketTrace(p: Packet): seq<I2cWrite>
  {
    match p
    case MetricsPacket(m) => ScreenTrace(CpuLine(m), RamLine(m))
    case StatusPacket(_) => CursorTrace(0, 1) + TextTrace([])
  }

  /** The buffer's contents after a packet has been handled. */
  function BufferAfter(p: Packet): seq<bv8>
  {
    match p
    case MetricsPacket(m) => RamLine(m)
    case StatusPacket(_) => []
  }

  /**
   * A metrics packet clears the display and shows the CPU line on the first
   * row and the RAM line on the second.
   */
  lemma MetricsScreen(m: Metrics)
    ensures |PacketTrace(MetricsPacket(m))| % 4 == 0
    ensures Receive(PacketTrace(MetricsPacket(m)))
         == [Transfer(false, CMD_CLEAR_DISPLAY), Transfer(false, 0x80)] + AsData(CpuLine(m))
          + [Transfer(false, 0xC0)] + AsData(RamLine(m))
  {
    ReceiveScreen(CpuLine(m), RamLine(m));
  }

  /**
   * A status packet draws nothing: the firmware empties the buffer, reads the
   * battery level without using it, and only moves the cursor to the second row.
   */
  lemma StatusScreen(s: Status)
    ensures |PacketTrace(StatusPacket(s))| == 4
    ensures Receive(PacketTrace(StatusPacket(s))) == [Transfer(false, 0xC0)]
  {
    assert TextTrace([]) == [];
    assert PacketTrace(StatusPacket(s)) == CursorTrace(0, 1);
    ReceiveByte(CursorCommand(0, 1), false);
    SecondRowHome();
  }

  /**
   * `buffer.clear()` followed by two `push_str(..).unwrap()`: the unwraps
   * cannot fail when prefix and digits fit the buffer together.
   */
  method ComposeLine(prefix: seq<bv8>, digits: seq<bv8>) returns (buffer: seq<bv8>)
    requires |prefix| + |digits| <= BUFFER_CAPACITY
    ensures buffer == prefix + digits
  {
    buffer := [];
    assert buffer + prefix == prefix;
    buffer := PushStr(buffer, BUFFER_CAPACITY, prefix).value;
    buffer := PushStr(buffer, BUFFER_CAPACITY, digits).value;
  }

  /** The `Packet::Metrics` arm: compose and draw the CPU line, then the RAM line. */
  method ShowMetrics(i2c: I2cBus, m: Metrics) returns (buffer: seq<bv8>)
    modifies i2c
    ensures i2c.trace == old(i2c.trace) + ScreenTrace(CpuLine(m), RamLine(m))
    ensures buffer == RamLine(m) && |buffer| <= BUFFER_CAPACITY
  {
    ghost var before := i2c.trace;
    LinesFit(m);
    var cpuStr := Decimal(m.cpu as int);
    var line := ComposeLine(CPU_LABEL, cpuStr);
    Display.Command(i2c, 0x01);
    Display.SetCursor(i2c, 0, 0);
    Display.WriteStr(i2c, line);
    ghost var first := ClearTrace() + CursorTrace(0, 0) + TextTrace(line);
    assert i2c.trace == before + first;
    var ramStr := Decimal(m.ram as int);
    buffer := ComposeLine(RAM_LABEL, ramStr);
    Display.SetCursor(i2c, 0, 1);
    AppendAssoc(before, first, CursorTrace(0, 1));
    Display.WriteStr(i2c, buffer);
    AppendAssoc(before, first + CursorTrace(0, 1), TextTrace(buffer));
  }

  /**
   * The `Packet::Status` arm: empty the buffer, read the battery level without
   * using it, move to the second row and write the (empty) buffer.
   */
  method ShowStatus(i2c: I2cBus, s: Status) returns (buffer: seq<bv8>)
    modifies i2c
    ensures i2c.trace == old(i2c.trace) + CursorTrace(0, 1) + TextTrace([])
    ensures buffer == []
  {
    buffer := [];
    var battery := s.battery;
    Display.SetCursor(i2c, 0, 1);
    Display.WriteStr(i2c, buffer);
  }

  /** The body of the `if let Some(pkt)` of the main loop. */
  method ShowPacket(i2c: I2cBus, pkt: Packet) returns (buffer: seq<bv8>)
    modifies i2c
    ensures i2c.trace == old(i2c.trace) + PacketTrace(pkt)
    ensures buffer == BufferAfter(pkt) && |buffer| <= BUFFER_CAPACITY
  {
    match pkt
    case MetricsPacket(m) =>
      buffer := ShowMetrics(i2c, m);
    case StatusPacket(s) =>
      buffer := ShowStatus(i2c, s);
  }

  /** What one pass of the main loop puts on the bus, given what was decoded. */
  function LoopTrace(p: Option<Packet>): seq<I2cWrite>
  {
    match p
    case None => []
    case Some(pkt) => PacketTrace(pkt)
  }

  /**
   * One pass of the endless loop: decode a packet and, if there is one, show
   * it. `buffer` is the `heapless::String<32>` that lives across passes.
   */
  method LoopStep(serial: Protocol.Usart, i2c: I2cBus, buffer: seq<bv8>) returns (buffer': seq<bv8>)
    requires serial.Valid() && Protocol.Complete(serial.Pending())
    modifies serial`pos, i2c
    ensures serial.Valid()
    ensures serial.pos == old(serial.pos) + Protocol.Decode(old(serial.Pending())).consumed
    ensures i2c.trace == old(i2c.trace) + LoopTrace(Protocol.Decode(old(serial.Pending())).packet)
    ensures buffer' == match Protocol.Decode(old(serial.Pending())).packet
                       case None => buffer
                       case Some(pkt) => BufferAfter(pkt)
  {
    var packet := ReadPacketBytes(serial);
    buffer' := buffer;
    if packet.Some? {
      buffer' := ShowPacket(i2c, packet.value);
    }
  }

  /**
   * A metrics packet sent by the host as its wire bytes ends up on the display
   * as its two lines, whose digits read back as the CPU load and RAM figures
   * the host sent.
   */
  lemma MetricsDelivered(m: Metrics, rest: seq<Protocol.Rx>)
    ensures Protocol.Complete(Protocol.Delivered(Protocol.Encode(MetricsPacket(m))) + rest)
    ensures Protocol.Decode(Protocol.Delivered(Protocol.Encode(MetricsPacket(m))) + rest).packet
         == Some(MetricsPacket(m))
    ensures Receive(LoopTrace(Some(MetricsPacket(m))))
         == [Transfer(false, CMD_CLEAR_DISPLAY), Transfer(false, 0x80)] + AsData(CpuLine(m))
          + [Transfer(false, 0xC0)] + AsData(RamLine(m))
    ensures Value(CpuLine(m)[|CPU_LABEL|..]) == m.cpu as int
    ensures Value(RamLine(m)[|RAM_LABEL|..]) == m.ram as int
  {
    Protocol.DecodeEncode(MetricsPacket(m), rest);
    MetricsScreen(m);
    LinesReadBack(m);
  }

  /** The writes of the splash screen, after the controller's initialisation. */
  function SplashTrace(): seq<I2cWrite>
  {
    InitTrace() + TextTrace(SPLASH_TITLE) + CommandTrace(0xC0) + TextTrace(SPLASH_MENU)
  }

  /** The splash screen: initialise, the title on the first row, the menu on the second. */
  method Boot(i2c: I2cBus)
    modifies i2c
    ensures i2c.trace == old(i2c.trace) + SplashTrace()
  {
    ghost var before := i2c.trace;
    Display.Init(i2c);
    Display.WriteStr(i2c, SPLASH_TITLE);
    AppendAssoc(before, InitTrace(), TextTrace(SPLASH_TITLE));
    Display.Command(i2c, 0xC0);
    AppendAssoc(before, InitTrace() + TextTrace(SPLASH_TITLE), CommandTrace(0xC0));
    Display.WriteStr(i2c, SPLASH_MENU);
    AppendAssoc(before, InitTrace() + TextTrace(SPLASH_TITLE) + CommandTrace(0xC0), TextTrace(SPLASH_MENU));
  }

  /** Title, then a jump to the start of the second row, then a second line. */
  lemma ReceiveTwoRows(title: seq<bv8>, menu: seq<bv8>)
    ensures |TextTrace(title) + CommandTrace(0xC0) + TextTrace(menu)| % 4 == 0
    ensures Receive(TextTrace(title) + CommandTrace(0xC0) + TextTrace(menu))
         == AsData(title) + [Transfer(false, 0xC0)] + AsData(menu)
  {
    ReceiveText(title);
    ReceiveText(menu);
    ReceiveByte(0xC0, false);
    ReceiveAppend(TextTrace(title), CommandTrace(0xC0));
    ReceiveAppend(TextTrace(title) + CommandTrace(0xC0), TextTrace(menu));
  }

  /**
   * After initialisation the splash screen sends the title, exactly one row of
   * sixteen characters, then moves to the second row (0xC0 is the cursor
   * command for column 0, row 1) and sends the menu.
   */
  lemma SplashScreen()
    ensures |SPLASH_TITLE| == 16 && CommandTrace(0xC0) == CursorTrace(0, 1)
    ensures Receive(SplashTrace()[|InitTrace()|..])
         == AsData(SPLASH_TITLE) + [Transfer(false, 0xC0)] + AsData(SPLASH_MENU)
  {
    SecondRowHome();
    var rest := TextTrace(SPLASH_TITLE) + CommandTrace(0xC0) + TextTrace(SPLASH_MENU);
    AppendAssoc(InitTrace() + TextTrace(SPLASH_TITLE), CommandTrace(0xC0), TextTrace(SPLASH_MENU));
    AppendAssoc(InitTrace(), TextTrace(SPLASH_TITLE), CommandTrace(0xC0) + TextTrace(SPLASH_MENU));
    AppendAssoc(TextTrace(SPLASH_TITLE), CommandTrace(0xC0), TextTrace(SPLASH_MENU));
    assert SplashTrace() == InitTrace() + rest;
    assert SplashTrace()[|InitTrace()|..] == rest;
    ReceiveTwoRows(SPLASH_TITLE, SPLASH_MENU);
  }
}
