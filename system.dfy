/**
 * firmware/src/system.rs: the device record (state, menu page, joystick)
 * with its setters, and the millisecond tick counter advanced by the timer
 * interrupt. The counter is modelled as a sequential object: the interrupt
 * handler is a method, and nothing models its preemption of the main loop.
 */
module System {
  import Joystick

  datatype State = Initializing | Running | Error

  datatype Menu = Booting | Home | System | Data | Monitor | JoystickTest

  /** Every menu page, each once. */
  const MENU_PAGES: seq<Menu> := [Booting, Home, System, Data, Monitor, JoystickTest]

  /** Every state, each once. */
  const STATES: seq<State> := [Initializing, Running, Error]

  /** The enumerations have exactly six pages and three states. */
  lemma EnumerationsComplete(m: Menu, s: State)
    ensures m in MENU_PAGES && |MENU_PAGES| == 6
    ensures forall i, j :: 0 <= i < j < |MENU_PAGES| ==> MENU_PAGES[i] != MENU_PAGES[j]
    ensures s in STATES && |STATES| == 3
    ensures forall i, j :: 0 <= i < j < |STATES| ==> STATES[i] != STATES[j]
  {
  }

  class System {
    var state: State
    var menuPage: Menu
    const joystick: Joystick.Joystick

    /** `init`: initialising, on the boot page, with a fresh joystick at rest. */
    constructor Init()
      ensures state == Initializing && menuPage == Booting
      ensures fresh(joystick)
      ensures joystick.x == 0 && joystick.y == 0 && !joystick.pressed
    {
      state := Initializing;
      menuPage := Booting;
      joystick := new Joystick.Joystick.Init();
    }

    method SetState(state: State)
      modifies this
      ensures this.state == state
      ensures menuPage == old(menuPage) && unchanged(joystick)
    {
      this.state := state;
    }

    method SetMenuPage(menuPage: Menu)
      modifies this
      ensures this.menuPage == menuPage
      ensures state == old(state) && unchanged(joystick)
    {
      this.menuPage := menuPage;
    }
  }

  /** Timer 0 set-up: CTC mode, 16 MHz clock, prescaler 64, compare value 249. */
  const CPU_FREQUENCY_HZ := 16_000_000
  const TIMER0_PRESCALER := 64
  const TIMER0_COMPARE := 249

  /** The compare-match interrupt fires once per millisecond. */
  function TicksPerSecond(): (rate: nat)
    ensures rate == 1000
  {
    CPU_FREQUENCY_HZ / TIMER0_PRESCALER / (TIMER0_COMPARE + 1)
  }

  /** The global `TICKS` counter. */
  class TickCounter {
    var ticks: bv32

    constructor ()
      ensures ticks == 0
    {
      ticks := 0;
    }

    /** `TIMER0_COMPA`: one more tick, wrapping at 2^32. */
    method OnCompareMatch()
      modifies this
      ensures ticks == old(ticks) + 1
    {
      ticks := ticks + 1;
    }

    /** `get_ticks`: the count of compare-match interrupts so far, modulo 2^32. */
    function GetTicks(): (t: bv32)
      reads this
      ensures t == ticks
    {
      ticks
    }
  }
}
