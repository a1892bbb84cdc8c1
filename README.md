# arduino-system-monitor: a Dafny model of the firmware core

The firmware runs on an ATmega328P. It receives binary packets from a host
over the serial port and shows them on a 16x2 HD44780 character LCD. The LCD
sits behind a PCF8574 I2C port expander and is driven in 4-bit mode. This
project models that firmware and proves properties of the model:

- **`Protocol`** (`firmware/src/protocol.rs`) covers `deserialize_u16` and
  `read_packet_bytes`.
  - The serial port is a class `Usart` over a finite sequence of receive
    results (`Byte(b)` or `Fault`) with a read position.
  - The decoder method is proved equal to a pure `Decode` function. `Decode`
    is proved field by field against the wire layout.
  - `Decode` is proved to round-trip with `Encode`, a reference encoder built
    from the same layout. The firmware contains no encoder of its own.
- **`Firmware`** (`firmware/src/main.rs`) covers four things:
  - the decoder copy that main.rs inlines, proved to agree with `Protocol.Decode` on every input;
  - the splash screen;
  - one pass of the main loop, with its 32-byte line buffer;
  - the CPU/RAM lines, proved to fit the buffer, to start with their label,
    and to read back as the figures the host sent.
- **`Hd44780`** holds the byte layout the two LCD drivers share.
  - Each driver routine is specified by the exact sequence of I2C writes it
    must produce: `Pulse`, `NibbleTrace`, `ByteTrace`, `TextTrace`,
    `CursorTrace` and `InitTrace`.
  - `Receive` is the partner of those sequences. It gives the (RS, byte)
    transfers the LCD controller latches from a sequence of writes, and is
    proved to reassemble every byte the drivers split into nibbles.
- **`Display`** (`firmware/src/display.rs`) holds the free-function driver.
- **`Render`** (`firmware/src/render.rs`) models the `Display` object.
  - It has the same driver, plus the frame gating on a wrapping `u32` tick
    difference and the two 16-byte line buffers.
  - Every driver method appends exactly its specified trace to the bus.
- **`Common`**, **`System`** and **`Joystick`** cover `common/src/lib.rs`,
  `firmware/src/system.rs` and `firmware/src/joystick.rs`.
  - These are the device, menu and joystick records with their setters.
  - `System` also has the timer-interrupt tick counter.
- **`Text`** holds the decimal rendering that main.rs gets from `itoa`,
  written as a specification, and the fallible `heapless::String::push_str`.

## Representation

- **Integer widths.** `u8`, `u16` and `u32` are `bv8`, `bv16` and `bv32`.
  - The tick difference `wrapping_sub` is native `bv32` subtraction.
  - `TICKS += 1` is modelled as wrapping at 2^32.
- **Text.** Every string is its UTF-8 byte sequence `seq<bv8>`.
  - The literal strings are written out as their ASCII bytes.
- **I2C bus.** The bus is an object with an append-only ghost `trace` of
  `(address, byte)` writes.
  - Delays are dropped.
  - The result of each `i2c.write` is ignored, as in the source.
- **Serial reads.** A read that `nb::block!` would stall on, and the
  `unwrap` of every read after the tag, become preconditions.
  - They demand a `Byte` at that position (`Protocol.Complete`).
  - A `Fault` at the tag position is the read error the source turns into `None`.
- **Inputs from outside.** The global tick counter is an object
  (`System.TickCounter`) handed to `Render.Display.Update`.
  - `Update` reads it once with `GetTicks` and passes that tick to
    `ShouldUpdate` as `currentTicks`.
  - The source reads it inside `should_update`; nothing between the two
    points touches the counter, so the tick is the same.
- **Bounded strings.** `heapless::String::push_str` is `Text.PushStr`.
  - It yields the buffer followed by the text when the sum fits the
    capacity, and `None` (the source's `Err`) otherwise.
  - Every `unwrap` of it becomes an obligation that the text fits.

## Where the documentation and the code differ

The model follows the code in each case:

- The design describes a non-blocking tag read. The code blocks on it with
  `nb::block!`, and only a read error yields `None`.
- A status packet's LED byte is described as 0 or 1. The code treats every
  non-zero byte as "on" (`Protocol.DecodeStatus`).
- The design mentions a bounded queue of drawing commands drained in LIFO
  order, shapes such as circles, and menu transitions. No source file has any
  of them, so none is modelled.
- The design says a frame that is not due causes no bus traffic. The code's
  `update` clears the screen first and, when no frame is due, writes
  "Error: Timeout" at row 0 (render.rs:157-176; `Render.FrameTrace`).
- A status packet does not display the battery level. main.rs reads it,
  empties the buffer and writes that empty buffer at row 1
  (`Firmware.StatusScreen`).

## Model

| member | source | states |
|---|---|---|
| Protocol.Usart.Read | firmware/src/protocol.rs:13 | one blocking `serial.read()` returns the next receive result and advances the stream by exactly one |
| Protocol.DeserializeU16 | firmware/src/protocol.rs:12-17 | consumes exactly two bytes and returns the big-endian word they form |
| Protocol.BigEndianValue | firmware/src/protocol.rs:16 | shifting the high byte left by 8 and OR-ing in the low byte gives `high*256 + low` |
| Protocol.BigEndianSplit | firmware/src/protocol.rs:16 | the high and low byte can be recovered from the word |
| Protocol.BigEndianInjective | firmware/src/protocol.rs:12-17 | two byte pairs give the same word if and only if they are equal |
| Protocol.SplitJoin | firmware/src/protocol.rs:16 | every `u16` is the word of its own high and low byte |
| Protocol.Decode | firmware/src/protocol.rs:19-48 | on a complete input the decoder consumes at least one and at most all available items |
| Protocol.DecodeMetrics | firmware/src/protocol.rs:34-38 | tag 0x01 yields Metrics with `cpu = b1`, `ram = b2*256 + b3`, and consumes exactly 4 bytes |
| Protocol.DecodeStatus | firmware/src/protocol.rs:40-44 | tag 0x02 yields Status with `battery = b1`, `led_on = (b2 != 0)`, and consumes exactly 3 bytes |
| Protocol.DecodeNoPacket | firmware/src/protocol.rs:23-47 | the result is `None` exactly when the tag read fails or the tag is neither 0x01 nor 0x02, and then exactly one item is consumed |
| Protocol.DecodeDeterminedByTag | firmware/src/protocol.rs:33-47 | the first item alone decides the variant, whether there is a packet, and how many bytes are consumed |
| Protocol.Encode | firmware/src/protocol.rs:33-44 | the wire form of a packet is 4 bytes for Metrics and 3 for Status, headed by its tag |
| Protocol.DecodeEncode | firmware/src/protocol.rs:33-47 | decoding the wire form of any packet, whatever follows it, gives back that packet and consumes exactly its bytes |
| Protocol.EncodeDecode | firmware/src/protocol.rs:33-47 | for every decoded packet whose LED byte is 0 or 1, encoding it gives back exactly the bytes consumed |
| Protocol.ReadPacketBytes | firmware/src/protocol.rs:19-48 | the result is `Decode` of the pending input, and the stream advances by exactly the bytes `Decode` consumes |
| Common.ArduinoSystem.Init | common/src/lib.rs:26-31 | a new record is Initializing, on the Booting page |
| Common.ArduinoSystem.SetState | common/src/lib.rs:33-35 | sets the state to the argument and leaves the menu page unchanged |
| Common.ArduinoSystem.SetMenuPage | common/src/lib.rs:37-39 | sets the menu page to the argument and leaves the state unchanged |
| Hd44780.I2cBus.Write | firmware/src/display.rs:17 | one `i2c.write` appends exactly one (address, byte) write to the bus trace |
| Hd44780.NibbleFrameBits | firmware/src/display.rs:33-41 | the expander byte of a nibble has EN and RW clear, BL set, RS set if and only if `rs`, and the nibble on P7..P4 |
| Hd44780.PulseShape | firmware/src/display.rs:15-23 | an enable pulse is two writes to 0x27: the byte with EN set, then with EN clear, the other bits unchanged |
| Hd44780.ByteTraceShape | firmware/src/display.rs:48-51 | a byte is four writes to 0x27 with RS = rs, BL set, RW clear, and EN set exactly on the 1st and 3rd |
| Hd44780.LatchByte | firmware/src/display.rs:48-51 | the controller reassembles from the high and the low nibble pulse exactly the byte sent, with its RS |
| Hd44780.ReceiveByte | firmware/src/display.rs:48-51 | the writes of one byte deliver exactly one transfer, that byte with its RS |
| Hd44780.ReceiveAppend | firmware/src/display.rs:61-65 | what the controller receives from two write sequences in a row is what it receives from each, in order |
| Hd44780.TextTraceIsData | firmware/src/display.rs:61-65 | every write of a string goes to 0x27 with RS and BL set |
| Hd44780.TextTraceAppend | firmware/src/display.rs:61-65 | writing a concatenation is writing its parts one after the other |
| Hd44780.TextTraceAt | firmware/src/display.rs:61-65 | the writes of character `i` sit at positions `4i..4i+4`, in string order |
| Hd44780.ReceiveText | firmware/src/display.rs:61-65 | writing a string delivers its bytes as data, each once and in order |
| Hd44780.ReceiveChar | firmware/src/display.rs:57-59 | appending one character's writes delivers that character as data after what came before |
| Hd44780.CursorCommandRange | firmware/src/display.rs:108-121 | for `col <= 15` the cursor command lies in 0x80..0x8F on row 0 and 0xC0..0xCF on row 1, with `col` in the low nibble |
| Hd44780.InitTrace | firmware/src/display.rs:72-105 | the initialisation is 4 nibble pulses and 5 commands, 28 writes |
| Hd44780.InitNibbles | firmware/src/display.rs:72-105 | initialisation latches the nibbles 3,3,3,2 then the commands 0x28, 0x0C, 0x06, 0x01, 0x80, high nibble first |
| Hd44780.ReceiveFirstLine | firmware/src/render.rs:157-176 | clear, home, then a text deliver the two instructions and then the text as data |
| Hd44780.ReceiveScreen | firmware/src/render.rs:160-171 | a two-line screen delivers clear, 0x80, line 1 as data, 0xC0, line 2 as data |
| Hd44780.SecondRowHome | firmware/src/main.rs:69 | the splash's command 0xC0 is the command `set_cursor(0, 1)` produces |
| Display.PulseEn | firmware/src/display.rs:15-23 | appends exactly the enable pulse of `data` to the bus trace |
| Display.SendNibble | firmware/src/display.rs:26-45 | appends exactly the pulse of the nibble's expander byte, the same one render.rs produces |
| Display.SendByte | firmware/src/display.rs:48-51 | appends the high nibble's pulse, then the low nibble's |
| Display.Command | firmware/src/display.rs:53-55 | appends the byte's writes with RS clear |
| Display.WriteChar | firmware/src/display.rs:57-59 | appends the byte's writes with RS set |
| Display.WriteStr | firmware/src/display.rs:61-65 | appends the writes of every byte of the string, in order |
| Display.Clear | firmware/src/display.rs:67-70 | appends exactly the command 0x01 |
| Display.Init | firmware/src/display.rs:72-105 | appends exactly the initialisation sequence |
| Display.SetCursor | firmware/src/display.rs:108-121 | appends the command 0x80 OR `col`, or 0x80 OR `col + 0x40` on row 1 |
| Render.DueShiftInvariant | firmware/src/render.rs:149 | whether a frame is due (tick difference, wrapping at 2^32, at least the interval) depends only on the elapsed ticks, across the wrap too |
| Render.DueIffElapsed | firmware/src/render.rs:147-155 | a frame is due exactly when at least the interval has elapsed since the last one, counted modulo 2^32: at most one frame per interval, and the counter's wrap does not disturb the gating |
| Render.ReceiveFrame | firmware/src/render.rs:157-176 | `update` always delivers clear and home first, then the two buffered lines if due, else "Error: Timeout" |
| Render.Display.Build | firmware/src/render.rs:22-32 | empty buffers, `last_frame = 0`, and the initialisation sequence sent |
| Render.Display.Init | firmware/src/render.rs:34-66 | appends exactly the initialisation sequence |
| Render.Display.PulseEn | firmware/src/render.rs:70-78 | appends exactly the enable pulse of `data` |
| Render.Display.SendNibble | firmware/src/render.rs:81-95 | appends exactly the pulse of the nibble's expander byte |
| Render.Display.SendByte | firmware/src/render.rs:98-101 | appends the high nibble's pulse, then the low nibble's |
| Render.Display.Command | firmware/src/render.rs:103-105 | appends the byte's writes with RS clear |
| Render.Display.WriteChar | firmware/src/render.rs:107-109 | appends the byte's writes with RS set |
| Render.Display.WriteStr | firmware/src/render.rs:111-115 | appends the writes of every byte of the string, in order |
| Render.Display.Clear | firmware/src/render.rs:117-120 | appends exactly the command 0x01 |
| Render.Display.SetFirstLine | firmware/src/render.rs:122-124 | appends the cursor command for column 0, row 0 |
| Render.Display.SetSecondLine | firmware/src/render.rs:126-128 | appends the cursor command for column 0, row 1 |
| Render.Display.SetCursor | firmware/src/render.rs:131-145 | appends the command 0x80 OR `col`, or 0x80 OR `col + 0x40` on row 1 |
| Render.Display.ShouldUpdate | firmware/src/render.rs:147-155 | returns whether a frame is due at the tick read from the counter; `last_frame` becomes that tick exactly when it is |
| Render.Display.Update | firmware/src/render.rs:157-176 | reads the tick counter, clears, then writes both buffers at rows 0 and 1 if a frame is due at that tick, else "Error: Timeout" at row 0; `last_frame` becomes that tick exactly when due; buffers unchanged |
| Render.Display.WriteBufferFirstLine | firmware/src/render.rs:178-181 | line 1 becomes the text, line 2 is unchanged, both within capacity |
| Render.Display.WriteBufferSecondLine | firmware/src/render.rs:183-186 | line 2 becomes the text, line 1 is unchanged, both within capacity |
| System.EnumerationsComplete | firmware/src/system.rs:15-30 | `Menu` has exactly six distinct pages and `State` exactly three distinct values |
| System.System.Init | firmware/src/system.rs:39-45 | Initializing, Booting, and a fresh joystick at (0, 0), released |
| System.System.SetState | firmware/src/system.rs:47-49 | only the state changes |
| System.System.SetMenuPage | firmware/src/system.rs:51-53 | only the menu page changes; state and joystick untouched |
| System.TicksPerSecond | firmware/src/system.rs:58-60 | 16 MHz / 64 / (249 + 1) gives 1000 ticks per second |
| System.TickCounter.OnCompareMatch | firmware/src/system.rs:8-13 | each compare-match interrupt advances the counter by one, wrapping at 2^32 |
| System.TickCounter.constructor | firmware/src/system.rs:6 | the counter starts at 0 |
| System.TickCounter.GetTicks | firmware/src/system.rs:66-68 | reports the counter's current value, the tick `Render.Display.Update` gates its frame on |
| Joystick.RangesWellFormed | firmware/src/joystick.rs:1-4 | each declared range is non-empty, and a `u16` sample can lie outside it |
| Joystick.Joystick.Init | firmware/src/joystick.rs:13-19 | x = 0, y = 0, released, within range |
| Joystick.Joystick.Update | firmware/src/joystick.rs:21-25 | the fields become the sample, verbatim and unclamped, whatever they were |
| Text.Decimal | firmware/src/main.rs:87-89 | the decimal form is at least one digit, with no leading zero |
| Text.ValueOfDecimal | firmware/src/main.rs:87-89 | the decimal form reads back as the number |
| Text.DecimalWidthOfIntegers | firmware/src/main.rs:87-97 | a `u8` takes at most 3 digits and a `u16` at most 5 |
| Firmware.ReadPacketBytes | firmware/src/main.rs:20-53 | the inlined decoder, which reads the two RAM bytes itself and joins them with its own shift-and-OR, which is `high*256 + low` (`Protocol.BigEndianValue`), agrees with `Protocol.Decode`: same result, same number of bytes consumed |
| Firmware.ComposeLine | firmware/src/main.rs:98-100 | clearing and then pushing a label and digits that fit leaves the buffer equal to label then digits, without panicking |
| Firmware.LinesFit | firmware/src/main.rs:73-100 | "CPU: " plus digits takes at most 8 bytes and "RAM: " plus digits at most 10, so every `unwrap` succeeds |
| Firmware.LinesReadBack | firmware/src/main.rs:85-100 | each line is its label followed by digits that read back as `cpu` and `ram` |
| Firmware.MetricsScreen | firmware/src/main.rs:92-103 | a metrics packet delivers clear, home, the CPU line, 0xC0, the RAM line, in that order |
| Firmware.StatusScreen | firmware/src/main.rs:105-114 | a status packet delivers only the cursor command for row 1, with no data |
| Firmware.ShowMetrics | firmware/src/main.rs:80-104 | draws the metrics screen and leaves the RAM line in the buffer |
| Firmware.ShowStatus | firmware/src/main.rs:105-114 | writes the emptied buffer at row 1 and leaves the buffer empty |
| Firmware.ShowPacket | firmware/src/main.rs:79-115 | draws the packet's screen and leaves the buffer within its 32 bytes |
| Firmware.LoopStep | firmware/src/main.rs:75-117 | one pass decodes exactly as `Protocol.Decode`, draws what was decoded and draws nothing when there is no packet |
| Firmware.MetricsDelivered | firmware/src/main.rs:76-104 | a metrics packet sent as its wire bytes is decoded and shown as two lines reading back as the host's CPU and RAM figures |
| Firmware.Boot | firmware/src/main.rs:66-70 | the splash sends the initialisation, the title, 0xC0 and the menu |
| Firmware.ReceiveTwoRows | firmware/src/main.rs:68-70 | a title, 0xC0 and a second line deliver the title as data, the instruction 0xC0, then the second line |
| Firmware.SplashScreen | firmware/src/main.rs:68-70 | the title fills exactly one 16-column row; the controller receives the title, the move to row 1, then the menu |

## Left out

- Delays (`delay_ms`/`delay_us`): timing is not modelled; only the order and contents of the I2C writes are.
- The I2C and serial hardware: the bus and the port are plain objects; a failed `i2c.write` is ignored by the source and not modelled.
- Blocking reads: a read that would stall is excluded by precondition (`Protocol.Complete`); liveness is not modelled.
- The `uwriteln!` serial echo in main.rs's loop and `panic_halt`: output to the host is not modelled.
- The interrupt concurrency of `static mut TICKS`: the counter is a sequential object; `Render.Display.Update` reads it with `GetTicks` and passes the tick to `ShouldUpdate` as `currentTicks`.
- System.TickCounter.OnCompareMatch: `TICKS += 1` wraps at 2^32 as in a release build; a debug build would panic on overflow instead.
- `init_clock`'s register writes: only the resulting tick rate is modelled (`System.TicksPerSecond`).
- `Peripherals::take`, pin and bus construction in main.rs: hardware set-up with no logic.
- main.rs's endless `loop`: modelled as one pass, `Firmware.LoopStep`, since a non-terminating method cannot be stated here.
- The `itoa` crate's internals: `Text.Decimal` is a specification of its output, not its algorithm.
- Hd44780.CursorCommand: `address += 0x40` overflows a `u8` for `col > 0xBF` on row 1 and panics in a debug build; the model requires `col <= 0xBF` there instead.
- Idempotence of the setters and "last sample wins" for `Joystick::update`: these follow from the setters' contracts, which fix each new field to its argument whatever the old value was; no separate lemma states them.
- driver/src/main.rs: host-side code that sends text with floating-point formatting, not the binary packets the firmware decodes.
