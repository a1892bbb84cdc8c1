/**
 * The byte layout shared by firmware/src/render.rs and firmware/src/display.rs:
 * an HD44780 character LCD in 4-bit mode behind a PCF8574 I2C port expander.
 * D7..D4 of the LCD sit on P7..P4 of the expander, the control lines on P3..P0.
 *
 * Every I2C transaction of the firmware writes one byte to the expander, so the
 * bus is modelled as an append-only trace of (address, byte) writes; delays are
 * not part of the model. The functions here are the specification of what each
 * driver routine puts on the bus; `Receive` is the partner that says what the
 * LCD controller latches from such a trace.
 */
module Hd44780 {

  /** Register Select on P0: 0 = command, 1 = data. */
  const RS_BIT: bv8 := 0x01
  /** Read/Write on P1: never set, the firmware only writes. */
  const RW_BIT: bv8 := 0x02
  /** Enable strobe on P2. */
  const EN_BIT: bv8 := 0x04
  /** Backlight on P3. */
  const BL_BIT: bv8 := 0x08
  /** I2C address of the expander. */
  const LCD_ADDRESS: bv8 := 0x27

  /** HD44780 instructions the firmware issues. */
  const CMD_CLEAR_DISPLAY: bv8 := 0x01
  const CMD_ENTRY_MODE: bv8 := 0x06
  const CMD_DISPLAY_ON: bv8 := 0x0C
  const CMD_FUNCTION_SET: bv8 := 0x28
  const CMD_SET_DDRAM: bv8 := 0x80
  /** DDRAM offset of the second display row. */
  const ROW_1_OFFSET: bv8 := 0x40

  /** One I2C write of one byte. */
  datatype I2cWrite = I2cWrite(address: bv8, data: bv8)

  /** The I2C peripheral: everything written to it, in order. */
  class I2cBus {
    ghost var trace: seq<I2cWrite>

    constructor ()
      ensures trace == []
    {
      trace := [];
    }

    /** `i2c.write(address, &[data])`; its result is ignored by every caller. */
    method Write(address: bv8, data: bv8)
      modifies this
      ensures trace == old(trace) + [I2cWrite(address, data)]
    {
      trace := trace + [I2cWrite(address, data)];
    }
  }

  /** The expander byte that presents a nibble on D7..D4 together with RS and the backlight. */
  function NibbleFrame(nibble: bv8, rs: bool): bv8
  {
    var data := (nibble & 0x0F) << 4;
    var data := if rs then data | RS_BIT else data;
    data | BL_BIT
  }

  /** The frame carries the low four bits of the nibble on D7..D4, RS = `rs`, the backlight, and neither EN nor RW. */
  lemma NibbleFrameBits(nibble: bv8, rs: bool)
    ensures NibbleFrame(nibble, rs) & EN_BIT == 0 && NibbleFrame(nibble, rs) & RW_BIT == 0
    ensures NibbleFrame(nibble, rs) & BL_BIT == BL_BIT
    ensures (NibbleFrame(nibble, rs) & RS_BIT == RS_BIT) == rs
    ensures NibbleFrame(nibble, rs) >> 4 == nibble & 0x0F
  {
  }

  /** An enable pulse: the byte with EN raised, then with EN dropped. */
  function Pulse(data: bv8): (t: seq<I2cWrite>)
    ensures |t| == 2
  {
    [I2cWrite(LCD_ADDRESS, data | EN_BIT), I2cWrite(LCD_ADDRESS, data & !EN_BIT)]
  }

  /** Both writes of a pulse go to the expander; EN is high in the first only, and all other bits are the data's. */
  lemma PulseShape(data: bv8)
    ensures Pulse(data)[0].address == LCD_ADDRESS && Pulse(data)[1].address == LCD_ADDRESS
    ensures Pulse(data)[0].data & EN_BIT == EN_BIT && Pulse(data)[1].data & EN_BIT == 0
    ensures Pulse(data)[0].data & !EN_BIT == data & !EN_BIT && Pulse(data)[1].data == data & !EN_BIT
  {
  }

  function NibbleTrace(nibble: bv8, rs: bool): (t: seq<I2cWrite>)
  {
    Pulse(NibbleFrame(nibble, rs))
  }

  /** A whole byte: high nibble first, then low nibble. */
  function ByteTrace(b: bv8, rs: bool): (t: seq<I2cWrite>)
    ensures |t| == 4
  {
    NibbleTrace(b >> 4, rs) + NibbleTrace(b & 0x0F, rs)
  }

  /**
   * All four writes of a byte go to the expander, carry RS = `rs` and the
   * backlight, never RW, and EN is high exactly in the first write of each pulse.
   */
  lemma ByteTraceShape(b: bv8, rs: bool)
    ensures forall k :: 0 <= k < 4 ==>
      && ByteTrace(b, rs)[k].address == LCD_ADDRESS
      && (ByteTrace(b, rs)[k].data & RS_BIT == RS_BIT) == rs
      && ByteTrace(b, rs)[k].data & BL_BIT == BL_BIT
      && ByteTrace(b, rs)[k].data & RW_BIT == 0
      && (ByteTrace(b, rs)[k].data & EN_BIT == EN_BIT) == (k % 2 == 0)
  {
  }

  /** An instruction goes out with RS clear, a character with RS set. */
  function CommandTrace(cmd: bv8): seq<I2cWrite>
  {
    ByteTrace(cmd, false)
  }

  function CharTrace(c: bv8): seq<I2cWrite>
  {
    ByteTrace(c, true)
  }

  /** A string, byte by byte in order: four writes per byte. */
  function TextTrace(s: seq<bv8>): (t: seq<I2cWrite>)
    ensures |t| == 4 * |s|
    decreases |s|
  {
    if s == [] then [] else TextTrace(s[..|s| - 1]) + CharTrace(s[|s| - 1])
  }

  /** Every write of a string goes to the expander with RS (data) and the backlight set. */
  lemma {:induction false} TextTraceIsData(s: seq<bv8>)
    ensures forall k :: 0 <= k < |TextTrace(s)| ==>
      && TextTrace(s)[k].address == LCD_ADDRESS
      && TextTrace(s)[k].data & RS_BIT == RS_BIT
      && TextTrace(s)[k].data & BL_BIT == BL_BIT
    decreases |s|
  {
    if s != [] {
      var s', c := s[..|s| - 1], s[|s| - 1];
      TextTraceIsData(s');
      ByteTraceShape(c, true);
      var t := TextTrace(s);
      assert t == TextTrace(s') + CharTrace(c);
      forall k | 0 <= k < |t|
        ensures t[k].address == LCD_ADDRESS && t[k].data & RS_BIT == RS_BIT && t[k].data & BL_BIT == BL_BIT
      {
        if k >= |TextTrace(s')| {
          assert t[k] == CharTrace(c)[k - |TextTrace(s')|];
        }
      }
    }
  }

  function ClearTrace(): seq<I2cWrite>
  {
    CommandTrace(CMD_CLEAR_DISPLAY)
  }

  /**
   * The "set DDRAM address" instruction for (col, row): the address is `col`,
   * plus 0x40 when `row` is 1 (every other row is treated as row 0). The u8
   * addition `col + 0x40` must not overflow.
   */
  function CursorCommand(col: bv8, row: bv8): bv8
    requires row == 1 ==> col <= 0xBF
  {
    var address := if row == 1 then col + ROW_1_OFFSET else col;
    CMD_SET_DDRAM | address
  }

  /**
   * On a 16-column display (col <= 15) the instruction addresses 0x80..0x8F
   * for row 0 and 0xC0..0xCF for row 1, with the column in the low nibble.
   */
  lemma CursorCommandRange(col: bv8, row: bv8)
    requires col <= 15
    ensures row != 1 ==> 0x80 <= CursorCommand(col, row) <= 0x8F
    ensures row == 1 ==> 0xC0 <= CursorCommand(col, row) <= 0xCF
    ensures CursorCommand(col, row) & 0x0F == col
  {
  }

  function CursorTrace(col: bv8, row: bv8): seq<I2cWrite>
    requires row == 1 ==> col <= 0xBF
  {
    CommandTrace(CursorCommand(col, row))
  }

  /**
   * Power-on initialisation: three 0x3 nibbles and one 0x2 nibble (switch to
   * 4-bit mode), then function set, display on, entry mode, clear, home.
   */
  function InitTrace(): (t: seq<I2cWrite>)
    ensures |t| == 4 * 2 + 5 * 4
  {
    NibbleTrace(0x03, false) + NibbleTrace(0x03, false) + NibbleTrace(0x03, false) + NibbleTrace(0x02, false)
    + CommandTrace(CMD_FUNCTION_SET) + CommandTrace(CMD_DISPLAY_ON) + CommandTrace(CMD_ENTRY_MODE)
    + CommandTrace(CMD_CLEAR_DISPLAY) + CommandTrace(CMD_SET_DDRAM)
  }

  lemma {:induction false} TextTraceAppend(s: seq<bv8>, u: seq<bv8>)
    ensures TextTrace(s + u) == TextTrace(s) + TextTrace(u)
    decreases |u|
  {
    if u == [] {
      assert s + u == s;
    } else {
      var u' := u[..|u| - 1];
      assert (s + u)[..|s + u| - 1] == s + u';
      assert (s + u)[|s + u| - 1] == u[|u| - 1];
      TextTraceAppend(s, u');
    }
  }

  /** Byte `i` of the string occupies writes 4i .. 4i+3 of its trace. */
  lemma {:induction false} TextTraceAt(s: seq<bv8>, i: nat)
    requires i < |s|
    ensures TextTrace(s)[4 * i .. 4 * i + 4] == CharTrace(s[i])
    decreases |s|
  {
    if i < |s| - 1 {
      TextTraceAt(s[..|s| - 1], i);
    }
  }

  // ----- What the LCD controller sees -----

  /** A byte received by the controller, as instruction (rs false) or data (rs true). */
  datatype Transfer = Transfer(rs: bool, value: bv8)

  /** The controller latches D7..D4 and RS when EN falls, i.e. in the second write of each pulse. */
  function Latch(w: seq<I2cWrite>): Transfer
    requires |w| == 4
  {
    Transfer(w[1].data & RS_BIT == RS_BIT, (w[1].data & 0xF0) | (w[3].data >> 4))
  }

  /** The bytes a trace of whole 4-bit transfers delivers to the controller, in order. */
  function Receive(t: seq<I2cWrite>): (r: seq<Transfer>)
    requires |t| % 4 == 0
    ensures |r| == |t| / 4
    decreases |t|
  {
    if t == [] then [] else Receive(t[..|t| - 4]) + [Latch(t[|t| - 4..])]
  }

  /** Nibble splitting loses nothing: the controller reassembles the byte and its RS. */
  lemma LatchByte(b: bv8, rs: bool)
    ensures Latch(ByteTrace(b, rs)) == Transfer(rs, b)
  {
    var t := ByteTrace(b, rs);
    assert t[1].data == NibbleFrame(b >> 4, rs) & !EN_BIT;
    assert t[3].data == NibbleFrame(b & 0x0F, rs) & !EN_BIT;
  }

  lemma {:induction false} ReceiveAppend(t: seq<I2cWrite>, u: seq<I2cWrite>)
    requires |t| % 4 == 0 && |u| % 4 == 0
    ensures Receive(t + u) == Receive(t) + Receive(u)
    decreases |u|
  {
    if u == [] {
      assert t + u == t;
    } else {
      var u' := u[..|u| - 4];
      assert (t + u)[..|t + u| - 4] == t + u';
      assert (t + u)[|t + u| - 4..] == u[|u| - 4..];
      ReceiveAppend(t, u');
    }
  }

  lemma ReceiveByte(b: bv8, rs: bool)
    ensures Receive(ByteTrace(b, rs)) == [Transfer(rs, b)]
  {
    var t := ByteTrace(b, rs);
    assert t[..0] == [];
    assert t[0..] == t;
    LatchByte(b, rs);
  }

  /** A string as the controller should receive it: each byte, in order, as data. */
  function AsData(s: seq<bv8>): (r: seq<Transfer>)
    ensures |r| == |s|
    ensures forall i :: 0 <= i < |s| ==> r[i] == Transfer(true, s[i])
  {
    seq(|s|, i requires 0 <= i < |s| => Transfer(true, s[i]))
  }

  /** Writing a string delivers exactly its bytes, in order, as data. */
  lemma {:induction false} ReceiveText(s: seq<bv8>)
    ensures Receive(TextTrace(s)) == AsData(s)
    decreases |s|
  {
    if s != [] {
      var s', c := s[..|s| - 1], s[|s| - 1];
      assert TextTrace(s) == TextTrace(s') + CharTrace(c);
      ReceiveText(s');
      ReceiveChar(TextTrace(s'), c);
      AsDataSnoc(s);
    }
  }

  /** Appending one character's writes delivers that character as data. */
  lemma ReceiveChar(t: seq<I2cWrite>, c: bv8)
    requires |t| % 4 == 0
    ensures |t + CharTrace(c)| % 4 == 0
    ensures Receive(t + CharTrace(c)) == Receive(t) + [Transfer(true, c)]
  {
    ReceiveAppend(t, CharTrace(c));
    ReceiveByte(c, true);
  }

  lemma AsDataSnoc(s: seq<bv8>)
    requires s != []
    ensures AsData(s) == AsData(s[..|s| - 1]) + [Transfer(true, s[|s| - 1])]
  {
  }

  lemma AppendAssoc<T>(a: seq<T>, b: seq<T>, c: seq<T>)
    ensures a + b + c == a + (b + c)
  {
  }

  /** Clear, home, then a text: the controller receives the two instructions, then the text as data. */
  lemma ReceiveFirstLine(text: seq<bv8>)
    ensures |ClearTrace() + CursorTrace(0, 0) + TextTrace(text)| % 4 == 0
    ensures Receive(ClearTrace() + CursorTrace(0, 0) + TextTrace(text))
         == [Transfer(false, CMD_CLEAR_DISPLAY), Transfer(false, 0x80)] + AsData(text)
  {
    var a, b, c := ClearTrace(), CursorTrace(0, 0), TextTrace(text);
    ReceiveByte(CMD_CLEAR_DISPLAY, false);
    ReceiveByte(CursorCommand(0, 0), false);
    ReceiveText(text);
    ReceiveAppend(a, b);
    ReceiveAppend(a + b, c);
  }

  /**
   * A full two-line screen: clear, home, first line, start of row 1, second
   * line. This is what render.rs shows for a due frame and what main.rs shows
   * for a Metrics packet.
   */
  function ScreenTrace(line1: seq<bv8>, line2: seq<bv8>): seq<I2cWrite>
  {
    ClearTrace() + CursorTrace(0, 0) + TextTrace(line1) + CursorTrace(0, 1) + TextTrace(line2)
  }

  /** What the controller receives for a screen: the clear and cursor instructions around the two lines' data. */
  lemma ReceiveScreen(line1: seq<bv8>, line2: seq<bv8>)
    ensures |ScreenTrace(line1, line2)| % 4 == 0
    ensures Receive(ScreenTrace(line1, line2))
         == [Transfer(false, CMD_CLEAR_DISPLAY), Transfer(false, 0x80)] + AsData(line1)
          + [Transfer(false, 0xC0)] + AsData(line2)
  {
    var a, b, c, d, e := ClearTrace(), CursorTrace(0, 0), TextTrace(line1), CursorTrace(0, 1), TextTrace(line2);
    ReceiveByte(CMD_CLEAR_DISPLAY, false);
    ReceiveByte(CursorCommand(0, 0), false);
    ReceiveByte(CursorCommand(0, 1), false);
    ReceiveText(line1);
    ReceiveText(line2);
    ReceiveAppend(a, b);
    assert Receive(a + b) == [Transfer(false, CMD_CLEAR_DISPLAY), Transfer(false, 0x80)];
    ReceiveAppend(a + b, c);
    ReceiveAppend(a + b + c, d);
    ReceiveAppend(a + b + c + d, e);
  }

  /** The nibbles the controller latches, one per enable pulse. */
  function Nibbles(t: seq<I2cWrite>): (r: seq<bv8>)
    requires |t| % 2 == 0
    ensures |r| == |t| / 2
    decreases |t|
  {
    if t == [] then [] else Nibbles(t[..|t| - 2]) + [t[|t| - 1].data >> 4]
  }

  lemma {:induction false} NibblesAppend(t: seq<I2cWrite>, u: seq<I2cWrite>)
    requires |t| % 2 == 0 && |u| % 2 == 0
    ensures Nibbles(t + u) == Nibbles(t) + Nibbles(u)
    decreases |u|
  {
    if u == [] {
      assert t + u == t;
    } else {
      var u' := u[..|u| - 2];
      assert (t + u)[..|t + u| - 2] == t + u';
      assert (t + u)[|t + u| - 1] == u[|u| - 1];
      NibblesAppend(t, u');
    }
  }

  lemma NibblesOfNibble(n: bv8, rs: bool)
    ensures Nibbles(NibbleTrace(n, rs)) == [n & 0x0F]
  {
    assert NibbleTrace(n, rs)[..0] == [];
  }

  lemma NibblesOfByte(b: bv8, rs: bool)
    ensures Nibbles(ByteTrace(b, rs)) == [b >> 4, b & 0x0F]
  {
    NibblesAppend(NibbleTrace(b >> 4, rs), NibbleTrace(b & 0x0F, rs));
    NibblesOfNibble(b >> 4, rs);
    NibblesOfNibble(b & 0x0F, rs);
  }

  /** The initialisation sequence as the controller sees it, nibble by nibble. */
  lemma InitNibbles()
    ensures Nibbles(InitTrace()) == [0x3, 0x3, 0x3, 0x2, 0x2, 0x8, 0x0, 0xC, 0x0, 0x6, 0x0, 0x1, 0x8, 0x0]
  {
    var n3 := NibbleTrace(0x03, false);
    var n2 := NibbleTrace(0x02, false);
    var c1, c2, c3, c4, c5 := CommandTrace(CMD_FUNCTION_SET), CommandTrace(CMD_DISPLAY_ON),
      CommandTrace(CMD_ENTRY_MODE), CommandTrace(CMD_CLEAR_DISPLAY), CommandTrace(CMD_SET_DDRAM);
    NibblesOfNibble(0x03, false);
    NibblesOfNibble(0x02, false);
    NibblesOfByte(CMD_FUNCTION_SET, false);
    NibblesOfByte(CMD_DISPLAY_ON, false);
    NibblesOfByte(CMD_ENTRY_MODE, false);
    NibblesOfByte(CMD_CLEAR_DISPLAY, false);
    NibblesOfByte(CMD_SET_DDRAM, false);
    NibblesAppend(n3, n3);
    NibblesAppend(n3 + n3, n3);
    NibblesAppend(n3 + n3 + n3, n2);
    NibblesAppend(n3 + n3 + n3 + n2, c1);
    NibblesAppend(n3 + n3 + n3 + n2 + c1, c2);
    NibblesAppend(n3 + n3 + n3 + n2 + c1 + c2, c3);
    NibblesAppend(n3 + n3 + n3 + n2 + c1 + c2 + c3, c4);
    NibblesAppend(n3 + n3 + n3 + n2 + c1 + c2 + c3 + c4, c5);
  }

  /** The splash screen's literal 0xC0 is the cursor instruction for column 0 of row 1. */
  lemma SecondRowHome()
    ensures CursorCommand(0, 1) == 0xC0
  {
  }
}
