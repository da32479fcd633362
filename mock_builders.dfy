/** The builders that create a mock device: each `Init` allocates the shared
    device and options once and hands out the intercept-wrapped device handle
    together with the control handle, both referring to the same device. */
module MockBuilders {
  import opened Common
  import opened SpiLog
  import opened PinLog
  import opened SpiMock
  import opened PinMock
  import opened SpiIntercept
  import opened PinIntercept

  /** The configuration collected before a mock SPI device is created. */
  datatype SpiMockBuilder = SpiMockBuilder(
    name: string, opts: SpiOpts, byteDelay: Option<nat>, generator: Option<Generator>)
  {
    /** Do not print events. */
    function WithoutLog(): SpiMockBuilder
    {
      this.(opts := opts.(log := false))
    }

    /** Print events and the Tx/Rx bytes after each transfer. */
    function WithByteLog(): SpiMockBuilder
    {
      this.(opts := opts.(log := true, bytes := true))
    }

    /** `with_generator` and `with_boxed_generator` alike. */
    function WithGenerator(generator: Generator): SpiMockBuilder
    {
      this.(generator := Some(generator))
    }

    function WithByteDelay(byteDelay: nat): SpiMockBuilder
    {
      this.(byteDelay := Some(byteDelay))
    }

    /** Creates the device with this configuration, the device handle wrapped in
        a logging intercept, and the control handle; the device, the intercept and
        the control handle share one device and one options cell. */
    method Init() returns (spi: Spi, control: SpiControl)
      ensures fresh(spi) && fresh(spi.spi) && fresh(spi.spi.dev) && fresh(spi.opts) && fresh(control)
      ensures control.spi == spi.spi.dev && spi.spi.dev.opts == spi.opts
      ensures spi.name == name && spi.opts.value == opts && spi.events == []
      ensures spi.spi.dev.State() == SpiState(generator, byteDelay, None, 0)
      ensures spi.spi.dev.transfers == []
    {
      var shared := new Shared(opts);
      var dev := new MockSpiDevice(shared);
      control := new SpiControl(dev);
      var handle := new MockSpi(dev);
      spi := new Spi(name, handle, shared);
      if byteDelay.Some? {
        control.SetByteDelay(byteDelay.value);
      }
      if generator.Some? {
        control.SetGenerator(generator.value);
      }
    }
  }

  /** `mock(name)`: logging on (options from `SpiOpts::new()`), no delay, no generator. */
  function NewSpiMockBuilder(name: string): SpiMockBuilder
  {
    SpiMockBuilder(name, NewSpiOpts(), None, None)
  }

  /** A new SPI mock builder logs events but no bytes and has no delay and no
      generator; `WithByteLog` turns both flags on, `WithoutLog` turns events off,
      and each other option sets its own field, each touching nothing else. */
  lemma SpiBuilderOptions(name: string, b: SpiMockBuilder, g: Generator, d: nat)
    ensures NewSpiMockBuilder(name).name == name
    ensures NewSpiMockBuilder(name).opts == SpiOpts(log := true, bytes := false)
    ensures NewSpiMockBuilder(name).generator == None && NewSpiMockBuilder(name).byteDelay == None
    ensures b.WithByteLog() == b.(opts := SpiOpts(log := true, bytes := true))
    ensures b.WithoutLog() == b.(opts := b.opts.(log := false))
    ensures b.WithGenerator(g) == b.(generator := Some(g))
    ensures b.WithByteDelay(d) == b.(byteDelay := Some(d))
  {
  }

  /** The configuration collected before a mock output pin is created. */
  datatype PinMockBuilder = PinMockBuilder(name: string, opts: PinOpts, delay: Option<nat>)
  {
    /** Do not print events. */
    function WithoutLog(): PinMockBuilder
    {
      this.(opts := opts.(log := false))
    }

    function WithDelay(delay: nat): PinMockBuilder
    {
      this.(delay := Some(delay))
    }

    /** Creates the pin device (high, no armed error), the device handle wrapped
        in a logging intercept, and the control handle, all sharing one device and
        one options cell. */
    method Init() returns (pin: Pin, control: PinControl)
      ensures fresh(pin) && fresh(pin.pin) && fresh(pin.pin.dev) && fresh(pin.opts) && fresh(control)
      ensures control.pin == pin.pin.dev && pin.pin.dev.opts == pin.opts
      ensures pin.name == name && pin.opts.value == opts && pin.events == []
      ensures pin.pin.dev.State() == PinState(true, delay, None)
      ensures pin.pin.dev.calls == []
    {
      var shared := new Shared(opts);
      var dev := new MockPinDevice(shared);
      control := new PinControl(dev);
      var handle := new MockPin(dev);
      pin := new Pin(name, handle, shared);
      if delay.Some? {
        control.SetDelay(delay.value);
      }
    }
  }

  /** `Mock::pin(name)`: logging on (options from `PinOpts::new()`), no delay. */
  function NewPinMockBuilder(name: string): PinMockBuilder
  {
    PinMockBuilder(name, NewPinOpts(), None)
  }

  /** A new pin mock builder logs events and has no delay; `WithoutLog` and
      `WithDelay` each set their own field only. */
  lemma PinBuilderOptions(name: string, b: PinMockBuilder, d: nat)
    ensures NewPinMockBuilder(name) == PinMockBuilder(name, PinOpts(log := true), None)
    ensures b.WithoutLog() == b.(opts := PinOpts(log := false))
    ensures b.WithDelay(d) == b.(delay := Some(d))
  {
  }
}
