/**
 * firmware/src/display.rs: the LCD driver as free functions over a shared I2C
 * handle. Each routine is proved to append exactly the trace that the
 * Hd44780 module specifies; the delay calls between writes are not modelled.
 */
module Display {
  import opened Hd44780

  method PulseEn(i2c: I2cBus, data: bv8)
    modifies i2c
    ensures i2c.trace == old(i2c.trace) + Pulse(data)
  {
    i2c.Write(LCD_ADDRESS, data | EN_BIT);
    i2c.Write(LCD_ADDRESS, data & !EN_BIT);
  }

  method SendNibble(i2c: I2cBus, nibble: bv8, rs: bool)
    modifies i2c
    ensures i2c.trace == old(i2c.trace) + NibbleTrace(nibble, rs)
  {
    var data := (nibble & 0x0F) << 4;
    if rs {
      data := data | RS_BIT;
    }
    data := data | BL_BIT;
    PulseEn(i2c, data);
  }

  method SendByte(i2c: I2cBus, b: bv8, rs: bool)
    modifies i2c
    ensures i2c.trace == old(i2c.trace) + ByteTrace(b, rs)
  {
    SendNibble(i2c, b >> 4, rs);
    SendNibble(i2c, b & 0x0F, rs);
  }

  method Command(i2c: I2cBus, cmd: bv8)
    modifies i2c
    ensures i2c.trace == old(i2c.trace) + CommandTrace(cmd)
  {
    SendByte(i2c, cmd, false);
  }

  method WriteChar(i2c: I2cBus, c: bv8)
    modifies i2c
    ensures i2c.trace == old(i2c.trace) + CharTrace(c)
  {
    SendByte(i2c, c, true);
  }

  method WriteStr(i2c: I2cBus, s: seq<bv8>)
    modifies i2c
    ensures i2c.trace == old(i2c.trace) + TextTrace(s)
  {
    for i := 0 to |s|
      invariant i2c.trace == old(i2c.trace) + TextTrace(s[..i])
    {
      assert s[..i + 1][..i] == s[..i];
      WriteChar(i2c, s[i]);
    }
    assert s[..|s|] == s;
  }

  method Clear(i2c: I2cBus)
    modifies i2c
    ensures i2c.trace == old(i2c.trace) + ClearTrace()
  {
    Command(i2c, CMD_CLEAR_DISPLAY);
  }

  method Init(i2c: I2cBus)
    modifies i2c
    ensures i2c.trace == old(i2c.trace) + InitTrace()
  {
    SendNibble(i2c, 0x03, false);
    SendNibble(i2c, 0x03, false);
    SendNibble(i2c, 0x03, false);
    SendNibble(i2c, 0x02, false);
    Command(i2c, CMD_FUNCTION_SET);
    Command(i2c, CMD_DISPLAY_ON);
    Command(i2c, CMD_ENTRY_MODE);
    Command(i2c, CMD_CLEAR_DISPLAY);
    Command(i2c, CMD_SET_DDRAM);
  }

  method SetCursor(i2c: I2cBus, col: bv8, row: bv8)
    requires row == 1 ==> col <= 0xBF
    modifies i2c
    ensures i2c.trace == old(i2c.trace) + CursorTrace(col, row)
  {
    var address := col;
    if row == 1 {
      address := address + ROW_1_OFFSET;
    }
    Command(i2c, CMD_SET_DDRAM | address);
  }
}
