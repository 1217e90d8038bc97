/**
 * The board configuration and the existence gating of a board view: which
 * pins have a digital or analog accessor and which UART channels exist.
 *
 * A view is valid only while its board runs; the lifecycle itself is not
 * modelled, only the flag it yields.
 */
module BoardView {
  import opened Common

  /** Capabilities of one side (digital or analog) of a pin. */
  datatype Driver = Driver(readable: bool, writable: bool)

  /** The drivers configured for one pin; an absent driver means no such capability. */
  datatype GpioDrivers = GpioDrivers(pinId: nat, digital: Option<Driver>, analog: Option<Driver>)

  /** One UART channel's settings; only the number of channels matters for existence. */
  datatype UartChannelConfig = UartChannelConfig(rxBufferLength: nat, txBufferLength: nat)

  /** What the host asks the board to instantiate. */
  datatype BoardConfig = BoardConfig(
    pins: seq<nat>,
    gpioDrivers: seq<GpioDrivers>,
    uartChannels: seq<UartChannelConfig>)

  /** A handle on a board's state: `valid` is true exactly while the board runs. */
  datatype View = View(valid: bool, config: BoardConfig)

  /** The configuration invariants the board checks when it is configured. */
  ghost predicate WellFormed(c: BoardConfig) {
    && (forall i, j :: 0 <= i < j < |c.pins| ==> c.pins[i] != c.pins[j])
    && (forall i, j :: 0 <= i < j < |c.gpioDrivers| ==> c.gpioDrivers[i].pinId != c.gpioDrivers[j].pinId)
    && (forall d :: d in c.gpioDrivers ==> d.pinId in c.pins)
  }

  /** A driver that can be read or written. */
  predicate Usable(d: Option<Driver>) {
    d.Some? && (d.value.readable || d.value.writable)
  }

  /** The index of the first driver entry for `pin`, if there is one. */
  function FindDriver(drivers: seq<GpioDrivers>, pin: nat): (r: Option<nat>)
    ensures r.Some? ==> r.value < |drivers| && drivers[r.value].pinId == pin
    ensures r.Some? ==> forall j :: 0 <= j < r.value ==> drivers[j].pinId != pin
    ensures r.None? ==> forall d :: d in drivers ==> d.pinId != pin
  {
    if drivers == [] then None
    else if drivers[0].pinId == pin then Some(0)
    else match FindDriver(drivers[1..], pin)
      case None => None
      case Some(k) => Some(k + 1)
  }

  /** pins[pin] refers to a configured pin of a running board. */
  predicate PinExists(v: View, pin: nat) {
    v.valid && pin in v.config.pins
  }

  /** pins[pin].digital().exists() */
  predicate DigitalExists(v: View, pin: nat)
    ensures DigitalExists(v, pin) ==> v.valid && pin in v.config.pins
    ensures DigitalExists(v, pin) ==>
      exists d :: d in v.config.gpioDrivers && d.pinId == pin && Usable(d.digital)
  {
    && PinExists(v, pin)
    && match FindDriver(v.config.gpioDrivers, pin)
       case None => false
       case Some(k) => Usable(v.config.gpioDrivers[k].digital)
  }

  /** pins[pin].analog().exists() */
  predicate AnalogExists(v: View, pin: nat)
    ensures AnalogExists(v, pin) ==> v.valid && pin in v.config.pins
    ensures AnalogExists(v, pin) ==>
      exists d :: d in v.config.gpioDrivers && d.pinId == pin && Usable(d.analog)
  {
    && PinExists(v, pin)
    && match FindDriver(v.config.gpioDrivers, pin)
       case None => false
       case Some(k) => Usable(v.config.gpioDrivers[k].analog)
  }

  /** uart_channels[i].exists(): a channel exists iff the view is valid and i is below the configured count. */
  predicate UartExists(v: View, i: nat) {
    v.valid && i < |v.config.uartChannels|
  }

  /** uart_channels[i].rx().exists(): the host-to-sketch stream exists with its channel. */
  predicate UartRxExists(v: View, i: nat) {
    UartExists(v, i)
  }

  /** uart_channels[i].tx().exists(): the sketch-to-host stream exists with its channel. */
  predicate UartTxExists(v: View, i: nat) {
    UartExists(v, i)
  }

  /** The indices 0 to n-1. */
  function Indices(n: nat): (s: set<nat>)
    ensures forall i: nat :: i in s <==> i < n
    ensures |s| == n
  {
    if n == 0 then {} else Indices(n - 1) + {n - 1}
  }

  /**
   * On a running board the existing channels are exactly the indices 0 to
   * count-1 (a set of count elements, by Indices), with no gaps.
   */
  lemma UartChannelsAreConfiguredPrefix(v: View, i: nat, j: nat)
    requires v.valid
    ensures forall k: nat :: UartExists(v, k) <==> k in Indices(|v.config.uartChannels|)
    ensures j <= i && UartExists(v, i) ==> UartExists(v, j)
  {
  }

  /**
   * For a well-formed configuration, a digital accessor exists exactly when
   * the view is valid and the pin was configured with a readable or writable
   * digital driver.
   */
  lemma DigitalExistsIff(v: View, pin: nat)
    requires WellFormed(v.config)
    ensures DigitalExists(v, pin) <==>
      v.valid && exists d :: d in v.config.gpioDrivers && d.pinId == pin && Usable(d.digital)
  {
  }

  /** The analog counterpart of DigitalExistsIff. */
  lemma AnalogExistsIff(v: View, pin: nat)
    requires WellFormed(v.config)
    ensures AnalogExists(v, pin) <==>
      v.valid && exists d :: d in v.config.gpioDrivers && d.pinId == pin && Usable(d.analog)
  {
  }

  /** A view of a board that is not running reports that nothing exists. */
  lemma InvalidViewHasNothing(v: View, pin: nat, i: nat)
    requires !v.valid
    ensures !PinExists(v, pin) && !DigitalExists(v, pin) && !AnalogExists(v, pin)
    ensures !UartExists(v, i) && !UartRxExists(v, i) && !UartTxExists(v, i)
  {
  }

  /** A pin that was not configured has no accessor, whatever the lifecycle state. */
  lemma UnconfiguredPinHasNothing(v: View, pin: nat)
    requires pin !in v.config.pins
    ensures !PinExists(v, pin) && !DigitalExists(v, pin) && !AnalogExists(v, pin)
  {
  }

  /** A channel index at or past the configured count does not exist, nor do its streams. */
  lemma UartIndexBeyondCount(v: View, i: nat)
    requires i >= |v.config.uartChannels|
    ensures !UartExists(v, i) && !UartRxExists(v, i) && !UartTxExists(v, i)
  {
  }

  /** The configuration of the GPIO test: pins 0 and 2, each with both drivers. */
  function GpioTestConfig(): (c: BoardConfig) {
    BoardConfig(
      [0, 2],
      [ GpioDrivers(0, Some(Driver(true, false)), Some(Driver(true, false))),
        GpioDrivers(2, Some(Driver(false, true)), Some(Driver(false, true))) ],
      [])
  }

  /** Running with the GPIO test configuration: pins 0 and 2 have digital accessors, pin 1 none. */
  lemma GpioTestExistence()
    ensures WellFormed(GpioTestConfig())
    ensures DigitalExists(View(true, GpioTestConfig()), 0)
    ensures !DigitalExists(View(true, GpioTestConfig()), 1)
    ensures DigitalExists(View(true, GpioTestConfig()), 2)
  {
  }

  /** Running with one UART channel: channel 0 and its streams exist, channel 1 and its streams do not. */
  lemma UartTestExistence(ch: UartChannelConfig)
    ensures var v := View(true, BoardConfig([], [], [ch]));
      && UartExists(v, 0) && UartRxExists(v, 0) && UartTxExists(v, 0)
      && !UartExists(v, 1) && !UartRxExists(v, 1) && !UartTxExists(v, 1)
  {
  }
}
