/** The demonstration program of the repository, end to end: a logging mock SPI
    device that echoes, a mock chip-select pin, a transport idling high, and an
    SPI error armed to fire once 33 bytes have gone through. */
module Scenario {
  import opened Common
  import opened SpiMock
  import opened PinMock
  import opened MockBuilders
  import opened ChipSelectTransport

  /** The 32 bytes of the first transfer. */
  const FirstFrame: seq<Byte> := [
    1, 2, 3, 4, 1, 2, 3, 4, 8, 8, 8, 8, 9, 9, 9, 9, 23, 34, 45, 56, 56, 67, 67, 78, 78, 89, 89,
    90, 5, 1, 2, 3]

  /** The three transfers over the mock states: the pin starts idle and unarmed,
      the engine echoes with `Transfer` armed behind 33 bytes. */
  lemma DemoRuns(pin: PinState, spi: SpiState)
    requires pin == PinState(true, None, None)
    requires spi == SpiState(Some(Echo), None, Some(SpiError.Transfer), 33)
    ensures var r1 := MockRun(IdleHigh, ReportsDeselect, pin, spi, FirstFrame);
      r1.result == Ok(()) && r1.buffer == FirstFrame && r1.pin == pin &&
      r1.spi == spi.(errorAfterBytes := 1)
    ensures var r2 := MockRun(IdleHigh, ReportsDeselect, pin, spi.(errorAfterBytes := 1), [1]);
      r2.result == Ok(()) && r2.pin == pin && r2.spi == spi.(errorAfterBytes := 0)
    ensures var r3 := MockRun(IdleHigh, ReportsDeselect, pin, spi.(errorAfterBytes := 0), [2]);
      r3.result == Err(Error.Transfer) && r3.pin.value && r3.spi.error == None
  {
    DeferredErrorScenario(FirstFrame, []);
  }

  /** One transfer of frame through t from a fresh buffer, returning the status
      and the received bytes. */
  method TransferFrame(t: Transport, frame: seq<Byte>) returns (status: Result<(), Error>, rx: seq<Byte>)
    modifies t, t.cs, t.cs.pin.dev, t.spi, t.spi.spi.dev
    ensures var run := MockRun(t.polarity, t.policy, old(t.cs.pin.dev.State()), old(t.spi.spi.dev.State()), frame);
      t.cs.pin.dev.State() == run.pin && t.spi.spi.dev.State() == run.spi &&
      status == run.result && rx == run.buffer
  {
    var words := new Byte[|frame|](i requires 0 <= i < |frame| => frame[i]);
    assert words[..] == frame;
    var r := t.Transfer(words);
    status := Status(r);
    rx := words[..];
  }

  /** Runs the three transfers. The 32-byte frame is echoed and brings the
      deferral counter to 1; the one-byte frame `[1]` gets through and brings it to
      0; the next one-byte frame fails with `Transfer`, and the transport still
      deselects, leaving the line high and the SPI error disarmed. */
  method DeferredErrorDemo() returns (first: Result<(), Error>, second: Result<(), Error>, third: Result<(), Error>,
                                      echoed: seq<Byte>, line: bool, armed: Option<SpiError>)
    ensures first == Ok(()) && echoed == FirstFrame
    ensures second == Ok(())
    ensures third == Err(Error.Transfer)
    ensures line == true && armed == None
  {
    var spi, sctrl := NewSpiMockBuilder("SPI").WithByteLog().WithGenerator(Echo).Init();
    var pin, pctrl := NewPinMockBuilder("CS").Init();
    var transport := new Transport(spi, pin, IdleHigh, ReportsDeselect);
    sctrl.SetError(SpiError.Transfer);
    sctrl.SetErrorDeferBytes(33);

    ghost var s0 := spi.spi.dev.State();
    ghost var p0 := pin.pin.dev.State();
    assert s0 == SpiState(Some(Echo), None, Some(SpiError.Transfer), 33);
    assert p0 == PinState(true, None, None);
    DemoRuns(p0, s0);

    first, echoed := TransferFrame(transport, FirstFrame);
    var rx;
    second, rx := TransferFrame(transport, [1]);
    third, rx := TransferFrame(transport, [2]);

    line := pctrl.GetValue();
    armed := sctrl.spi.error;
  }
}
