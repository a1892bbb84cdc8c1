/**
 * firmware/src/render.rs: the `Display` object. It owns the I2C handle, the
 * tick of the last rendered frame and two 16-byte line buffers. Its driver
 * methods put on the bus exactly what the Hd44780 module specifies (the same
 * traces the free functions of display.rs are proved to produce). `Update`
 * reads the global tick counter of system.rs, passed in as `clock`, and hands
 * that tick to `ShouldUpdate`, which gates the frame on it.
 */
module Render {
  import opened Hd44780
  import opened Text
  import System

  /** Capacity of each `heapless::String<16>` line buffer. */
  const LINE_CAPACITY := 16
  /** The gating interval `update` asks `should_update` for. */
  const FRAME_INTERVAL: bv32 := 100

  /** A frame is due when the ticks elapsed since the last one, counted modulo 2^32, reach the interval. */
  predicate Due(currentTicks: bv32, lastFrame: bv32, interval: bv32)
  {
    currentTicks - lastFrame >= interval
  }

  /** Gating depends only on the elapsed ticks: shifting both readings, across the wrap too, changes nothing. */
  lemma DueShiftInvariant(currentTicks: bv32, lastFrame: bv32, interval: bv32, shift: bv32)
    ensures Due(currentTicks + shift, lastFrame + shift, interval) == Due(currentTicks, lastFrame, interval)
  {
  }

  /**
   * A frame is due exactly when at least `interval` ticks have elapsed since
   * the last one, counted modulo 2^32: at most one frame per interval, and the
   * wrap of the tick counter does not disturb the gating.
   */
  lemma DueIffElapsed(t0: bv32, e: bv32, interval: bv32)
    ensures Due(t0 + e, t0, interval) <==> e >= interval
  {
  }

  /** The notice `update` shows when no frame is due: "Error: Timeout" in ASCII. */
  const TIMEOUT_TEXT: seq<bv8> := [0x45, 0x72, 0x72, 0x6F, 0x72, 0x3A, 0x20, 0x54, 0x69, 0x6D, 0x65, 0x6F, 0x75, 0x74]

  /** The screen `update` draws: the two buffered lines when a frame is due, a timeout notice otherwise. */
  function FrameTrace(due: bool, line1: seq<bv8>, line2: seq<bv8>): seq<I2cWrite>
  {
    if due then ScreenTrace(line1, line2)
    else ClearTrace() + CursorTrace(0, 0) + TextTrace(TIMEOUT_TEXT)
  }

  /** What the controller receives from `update`: it always starts with a clear, then the cursor home. */
  lemma ReceiveFrame(due: bool, line1: seq<bv8>, line2: seq<bv8>)
    ensures |FrameTrace(due, line1, line2)| % 4 == 0
    ensures Receive(FrameTrace(due, line1, line2))
         == [Transfer(false, CMD_CLEAR_DISPLAY), Transfer(false, 0x80)]
          + if due then AsData(line1) + [Transfer(false, 0xC0)] + AsData(line2)
            else AsData(TIMEOUT_TEXT)
  {
    if due {
      ReceiveScreen(line1, line2);
    } else {
      ReceiveFirstLine(TIMEOUT_TEXT);
    }
  }

  class Display {
    const i2c: I2cBus
    var lastFrame: bv32
    var bufferLine1: seq<bv8>
    var bufferLine2: seq<bv8>

    /** The line buffers never exceed their capacity. */
    ghost predicate Valid()
      reads this
    {
      |bufferLine1| <= LINE_CAPACITY && |bufferLine2| <= LINE_CAPACITY
    }

    /** `build`: empty buffers, no frame yet, and the controller initialised. */
    constructor Build(i2c: I2cBus)
      modifies i2c
      ensures Valid() && this.i2c == i2c
      ensures lastFrame == 0 && bufferLine1 == [] && bufferLine2 == []
      ensures i2c.trace == old(i2c.trace) + InitTrace()
    {
      this.i2c := i2c;
      lastFrame := 0;
      bufferLine1 := [];
      bufferLine2 := [];
      new;
      Init();
    }

    method Init()
      modifies i2c
      ensures i2c.trace == old(i2c.trace) + InitTrace()
    {
      SendNibble(0x03, false);
      SendNibble(0x03, false);
      SendNibble(0x03, false);
      SendNibble(0x02, false);
      Command(CMD_FUNCTION_SET);
      Command(CMD_DISPLAY_ON);
      Command(CMD_ENTRY_MODE);
      Command(CMD_CLEAR_DISPLAY);
      Command(CMD_SET_DDRAM);
    }

    method PulseEn(data: bv8)
      modifies i2c
      ensures i2c.trace == old(i2c.trace) + Pulse(data)
    {
      i2c.Write(LCD_ADDRESS, data | EN_BIT);
      i2c.Write(LCD_ADDRESS, data & !EN_BIT);
    }

    method SendNibble(nibble: bv8, rs: bool)
      modifies i2c
      ensures i2c.trace == old(i2c.trace) + NibbleTrace(nibble, rs)
    {
      var data := (nibble & 0x0F) << 4;
      if rs {
        data := data | RS_BIT;
      }
      data := data | BL_BIT;
      PulseEn(data);
    }

    method SendByte(b: bv8, rs: bool)
      modifies i2c
      ensures i2c.trace == old(i2c.trace) + ByteTrace(b, rs)
    {
      SendNibble(b >> 4, rs);
      SendNibble(b & 0x0F, rs);
    }

    method Command(cmd: bv8)
      modifies i2c
      ensures i2c.trace == old(i2c.trace) + CommandTrace(cmd)
    {
      SendByte(cmd, false);
    }

    method WriteChar(c: bv8)
      modifies i2c
      ensures i2c.trace == old(i2c.trace) + CharTrace(c)
    {
      SendByte(c, true);
    }

    method WriteStr(s: seq<bv8>)
      modifies i2c
      ensures i2c.trace == old(i2c.trace) + TextTrace(s)
    {
      for i := 0 to |s|
        invariant i2c.trace == old(i2c.trace) + TextTrace(s[..i])
      {
        assert s[..i + 1][..i] == s[..i];
        WriteChar(s[i]);
      }
      assert s[..|s|] == s;
    }

    method Clear()
      modifies i2c
      ensures i2c.trace == old(i2c.trace) + ClearTrace()
    {
      Command(CMD_CLEAR_DISPLAY);
    }

    method SetFirstLine()
      modifies i2c
      ensures i2c.trace == old(i2c.trace) + CursorTrace(0, 0)
    {
      SetCursor(0, 0);
    }

    method SetSecondLine()
      modifies i2c
      ensures i2c.trace == old(i2c.trace) + CursorTrace(0, 1)
    {
      SetCursor(0, 1);
    }

    method SetCursor(col: bv8, row: bv8)
      requires row == 1 ==> col <= 0xBF
      modifies i2c
      ensures i2c.trace == old(i2c.trace) + CursorTrace(col, row)
    {
      var address := col;
      if row == 1 {
        address := address + ROW_1_OFFSET;
      }
      Command(CMD_SET_DDRAM | address);
    }

    /** `should_update`: given the tick just read from the counter, report whether a frame is due and, only if so, remember that tick. */
    method ShouldUpdate(intervalMs: bv32, currentTicks: bv32) returns (due: bool)
      modifies this`lastFrame
      ensures due == Due(currentTicks, old(lastFrame), intervalMs)
      ensures lastFrame == if due then currentTicks else old(lastFrame)
    {
      if currentTicks - lastFrame >= intervalMs {
        lastFrame := currentTicks;
        due := true;
      } else {
        due := false;
      }
    }

    /** `update`: clear the screen, then draw the buffered lines if a frame is due, else the timeout notice. */
    method Update(clock: System.TickCounter)
      requires Valid()
      modifies i2c, this`lastFrame
      ensures Valid()
      ensures lastFrame == if Due(clock.ticks, old(lastFrame), FRAME_INTERVAL) then clock.ticks else old(lastFrame)
      ensures i2c.trace == old(i2c.trace)
        + FrameTrace(Due(clock.ticks, old(lastFrame), FRAME_INTERVAL), bufferLine1, bufferLine2)
    {
      ghost var before := i2c.trace;
      Clear();
      var now := clock.GetTicks();
      var due := ShouldUpdate(FRAME_INTERVAL, now);
      ghost var home := ClearTrace() + CursorTrace(0, 0);
      if due {
        SetFirstLine();
        assert i2c.trace == before + home;
        var firstLine := bufferLine1;
        WriteStr(firstLine);
        assert i2c.trace == before + (home + TextTrace(firstLine));
        SetSecondLine();
        assert i2c.trace == before + (home + TextTrace(firstLine) + CursorTrace(0, 1));
        var secondLine := bufferLine2;
        WriteStr(secondLine);
        assert i2c.trace == before + (home + TextTrace(firstLine) + CursorTrace(0, 1) + TextTrace(secondLine));
      } else {
        SetFirstLine();
        assert i2c.trace == before + home;
        WriteStr(TIMEOUT_TEXT);
        AppendAssoc(before, home, TextTrace(TIMEOUT_TEXT));
      }
    }

    /** `write_buffer_first_line`: replace the first line; the `unwrap` demands that the text fit. */
    method WriteBufferFirstLine(text: seq<bv8>)
      requires Valid() && |text| <= LINE_CAPACITY
      modifies this`bufferLine1
      ensures Valid() && bufferLine1 == text && bufferLine2 == old(bufferLine2)
    {
      bufferLine1 := [];
      var pushed := PushStr(bufferLine1, LINE_CAPACITY, text);
      bufferLine1 := pushed.value;
    }

    /** `write_buffer_second_line`: replace the second line; the `unwrap` demands that the text fit. */
    method WriteBufferSecondLine(text: seq<bv8>)
      requires Valid() && |text| <= LINE_CAPACITY
      modifies this`bufferLine2
      ensures Valid() && bufferLine2 == text && bufferLine1 == old(bufferLine1)
    {
      bufferLine2 := [];
      var pushed := PushStr(bufferLine2, LINE_CAPACITY, text);
      bufferLine2 := pushed.value;
    }
  }
}
