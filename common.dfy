/**
 * common/src/lib.rs: the types shared by the firmware and the host driver,
 * the packet tags, and the device/menu record with its two setters.
 */
module Common {

  datatype ArduinoState = Initializing | Running | Error

  datatype ArduinoMenu = Booting | Home | System | Data | Monitor | JoystickTest

  /** The device state and the active menu page, overwritten in place by the setters. */
  class ArduinoSystem {
    var state: ArduinoState
    var menuPage: ArduinoMenu

    constructor Init()
      ensures state == Initializing && menuPage == Booting
    {
      state := Initializing;
      menuPage := Booting;
    }

    method SetState(state: ArduinoState)
      modifies this
      ensures this.state == state
      ensures menuPage == old(menuPage)
    {
      this.state := state;
    }

    method SetMenuPage(menuPage: ArduinoMenu)
      modifies this
      ensures this.menuPage == menuPage
      ensures state == old(state)
    {
      this.menuPage := menuPage;
    }
  }

  /** CPU load (a `u8`) and RAM figure (a `u16`) reported by the host. */
  datatype Metrics = Metrics(cpu: bv8, ram: bv16)

  datatype Status = Status(battery: bv8, ledOn: bool)

  datatype Packet = MetricsPacket(metrics: Metrics) | StatusPacket(status: Status)

  /** Wire tags selecting the packet variant. */
  const PACKET_METRICS: bv8 := 0x01
  const PACKET_STATUS: bv8 := 0x02
}
