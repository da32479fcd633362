/** The chip-select transport: an SPI device and an output pin used as chip
    select. A transfer drives the pin to its active level, exchanges the bytes,
    and drives the pin back to its idle level, mapping every device error onto
    the transport's own error. `transport/cs.rs` and `transport/hal/cs.rs` hold
    the same logic under different trait names and are modelled once. The
    protocol is first given as a pure function over any pin and any SPI engine,
    then run by a class over the logging mock devices. */
module ChipSelectTransport {
  import opened Common
  import SpiMock
  import PinMock
  import SpiIntercept
  import PinIntercept
  import SpiLog
  import PinLog

  /** The transport's errors; every pin and SPI error is collapsed to one of these. */
  datatype Error = Transfer | ChipSelect | ChipDeselect | ClockSpeed

  /** The level the chip-select line rests at while the chip is not selected. */
  datatype Polarity = IdleLow | IdleHigh

  /** The level the pin is driven to when the chip is deselected. */
  function IdleLevel(p: Polarity): (high: bool)
    ensures high <==> p == IdleHigh
  {
    match p
    case IdleHigh => true
    case IdleLow => false
  }

  /** The level the pin is driven to when the chip is selected. */
  function SelectLevel(p: Polarity): (high: bool)
    ensures high == !IdleLevel(p)
  {
    match p
    case IdleHigh => false
    case IdleLow => true
  }

  /** Selecting and deselecting drive opposite levels: low then high when the
      line idles high, high then low when it idles low. */
  lemma PolarityLevels(p: Polarity)
    ensures SelectLevel(p) != IdleLevel(p)
    ensures p == IdleHigh <==> !SelectLevel(p) && IdleLevel(p)
    ensures p == IdleLow <==> SelectLevel(p) && !IdleLevel(p)
  {
  }

  /** Which error the exchange-or-deselect step reports when the exchange fails
      and the deselect that follows fails too. The helper deciding this is not
      part of this model, so the outcome of that double fault is a parameter. */
  datatype DoubleFault = ReportsTransfer | ReportsDeselect

  /** The error of a failed exchange: `Transfer` once the chip was deselected;
      on a double fault, whichever the policy names. */
  function ExchangeFailure(policy: DoubleFault, deselected: bool): (e: Error)
    ensures e == Transfer || e == ChipDeselect
    ensures deselected ==> e == Transfer
    ensures e == ChipDeselect <==> !deselected && policy == ReportsDeselect
  {
    if deselected then Transfer
    else match policy
      case ReportsTransfer => Transfer
      case ReportsDeselect => ChipDeselect
  }

  /** One call made on the underlying devices. */
  datatype Call = Drive(level: bool) | Exchange(tx: seq<Byte>)

  /** The outcome of one transfer: the pin's and the SPI engine's new states,
      the buffer, the calls made on the devices and the result. */
  datatype Run<P, S> = Run(pin: P, spi: S, buffer: seq<Byte>, calls: seq<Call>, result: Result<(), Error>)

  /** `transfer` for any pin and SPI engine, given as state-passing functions:
      `drive(p, level)` returns the pin's new state and status, and
      `exchange(s, tx)` the engine's new state, the buffer and the status.
      Select; on failure stop with `ChipSelect`. Otherwise exchange; on failure
      deselect and report the exchange failure. Otherwise deselect, reporting
      `ChipDeselect` if that fails. */
  function Protocol<P, S, PE, SE>(
    polarity: Polarity, policy: DoubleFault,
    drive: (P, bool) -> (P, Result<(), PE>),
    exchange: (S, seq<Byte>) -> (S, seq<Byte>, Result<(), SE>),
    pin: P, spi: S, tx: seq<Byte>): (run: Run<P, S>)
    ensures |run.calls| == 1 || |run.calls| == 3
    ensures run.calls[0] == Drive(SelectLevel(polarity))
    ensures run.result == Err(ChipSelect) <==> drive(pin, SelectLevel(polarity)).1.Err?
    ensures run.result.Ok? ==> run.calls == [Drive(SelectLevel(polarity)), Exchange(tx), Drive(IdleLevel(polarity))]
    ensures run.result != Err(ClockSpeed)
  {
    var sel := SelectLevel(polarity);
    var idle := IdleLevel(polarity);
    var selected := drive(pin, sel);
    if selected.1.Err? then
      Run(selected.0, spi, tx, [Drive(sel)], Err(ChipSelect))
    else
      var exchanged := exchange(spi, tx);
      var deselected := drive(selected.0, idle);
      var calls := [Drive(sel), Exchange(tx), Drive(idle)];
      if exchanged.2.Err? then
        Run(deselected.0, exchanged.0, exchanged.1, calls, Err(ExchangeFailure(policy, deselected.1.Ok?)))
      else if deselected.1.Err? then
        Run(deselected.0, exchanged.0, exchanged.1, calls, Err(ChipDeselect))
      else
        Run(deselected.0, exchanged.0, exchanged.1, calls, Ok(()))
  }

  /** A failed select, whatever the pin's error, stops the transfer with
      `ChipSelect` before the SPI device is touched: the buffer and the engine are
      unchanged and the pin was driven once. */
  lemma SelectFailureShortCircuits<P, S, PE, SE>(
    polarity: Polarity, policy: DoubleFault,
    drive: (P, bool) -> (P, Result<(), PE>),
    exchange: (S, seq<Byte>) -> (S, seq<Byte>, Result<(), SE>),
    pin: P, spi: S, tx: seq<Byte>)
    requires drive(pin, SelectLevel(polarity)).1.Err?
    ensures var run := Protocol(polarity, policy, drive, exchange, pin, spi, tx);
      run.result == Err(ChipSelect) && run.buffer == tx && run.spi == spi &&
      run.pin == drive(pin, SelectLevel(polarity)).0 &&
      run.calls == [Drive(SelectLevel(polarity))]
  {
  }

  /** Once the select succeeds, the exchange is bracketed: select, exchange,
      deselect, in this order and once each, and the buffer and the engine are
      whatever the exchange left. The transfer succeeds exactly when all three
      calls succeed. */
  lemma SelectedTransferIsBracketed<P, S, PE, SE>(
    polarity: Polarity, policy: DoubleFault,
    drive: (P, bool) -> (P, Result<(), PE>),
    exchange: (S, seq<Byte>) -> (S, seq<Byte>, Result<(), SE>),
    pin: P, spi: S, tx: seq<Byte>)
    requires drive(pin, SelectLevel(polarity)).1.Ok?
    ensures var run := Protocol(polarity, policy, drive, exchange, pin, spi, tx);
      var selected := drive(pin, SelectLevel(polarity));
      var exchanged := exchange(spi, tx);
      var deselected := drive(selected.0, IdleLevel(polarity));
      run.calls == [Drive(SelectLevel(polarity)), Exchange(tx), Drive(IdleLevel(polarity))] &&
      run.buffer == exchanged.1 && run.spi == exchanged.0 && run.pin == deselected.0 &&
      (run.result.Ok? <==> exchanged.2.Ok? && deselected.1.Ok?)
  {
  }

  /** A transfer succeeds exactly when select, exchange and deselect all succeed. */
  lemma SuccessNeedsAllThree<P, S, PE, SE>(
    polarity: Polarity, policy: DoubleFault,
    drive: (P, bool) -> (P, Result<(), PE>),
    exchange: (S, seq<Byte>) -> (S, seq<Byte>, Result<(), SE>),
    pin: P, spi: S, tx: seq<Byte>)
    ensures var run := Protocol(polarity, policy, drive, exchange, pin, spi, tx);
      var selected := drive(pin, SelectLevel(polarity));
      run.result.Ok? <==>
        selected.1.Ok? && exchange(spi, tx).2.Ok? && drive(selected.0, IdleLevel(polarity)).1.Ok?
  {
    if drive(pin, SelectLevel(polarity)).1.Ok? {
      SelectedTransferIsBracketed(polarity, policy, drive, exchange, pin, spi, tx);
    }
  }

  /** A failed exchange is always reported as an error and the chip is still
      deselected; when that deselect works the error is `Transfer`, and on a
      double fault it is `Transfer` or `ChipDeselect`. `ChipSelect` and
      `ClockSpeed` never come out of a selected transfer. */
  lemma ExchangeFailureDeselects<P, S, PE, SE>(
    polarity: Polarity, policy: DoubleFault,
    drive: (P, bool) -> (P, Result<(), PE>),
    exchange: (S, seq<Byte>) -> (S, seq<Byte>, Result<(), SE>),
    pin: P, spi: S, tx: seq<Byte>)
    requires drive(pin, SelectLevel(polarity)).1.Ok?
    requires exchange(spi, tx).2.Err?
    ensures var run := Protocol(polarity, policy, drive, exchange, pin, spi, tx);
      var deselected := drive(drive(pin, SelectLevel(polarity)).0, IdleLevel(polarity));
      run.result.Err? && Drive(IdleLevel(polarity)) in run.calls &&
      (deselected.1.Ok? ==> run.result == Err(Transfer)) &&
      (run.result.error == Transfer || run.result.error == ChipDeselect)
  {
    assert Protocol(polarity, policy, drive, exchange, pin, spi, tx).calls[2] == Drive(IdleLevel(polarity));
  }

  /** A failed deselect after a good exchange reports `ChipDeselect`; the buffer
      already holds the received bytes. */
  lemma DeselectFailureAfterExchange<P, S, PE, SE>(
    polarity: Polarity, policy: DoubleFault,
    drive: (P, bool) -> (P, Result<(), PE>),
    exchange: (S, seq<Byte>) -> (S, seq<Byte>, Result<(), SE>),
    pin: P, spi: S, tx: seq<Byte>)
    requires drive(pin, SelectLevel(polarity)).1.Ok?
    requires exchange(spi, tx).2.Ok?
    requires drive(drive(pin, SelectLevel(polarity)).0, IdleLevel(polarity)).1.Err?
    ensures var run := Protocol(polarity, policy, drive, exchange, pin, spi, tx);
      run.result == Err(ChipDeselect) && run.buffer == exchange(spi, tx).1
  {
  }

  // ---------------------------------------------------------------------------
  // The protocol over the mock engines


  /** A transfer of the transport over the mock pin and the mock SPI engine. */
  function MockRun(polarity: Polarity, policy: DoubleFault, pin: PinMock.PinState, spi: SpiMock.SpiState, tx: seq<Byte>): Run<PinMock.PinState, SpiMock.SpiState>
  {
    Protocol(polarity, policy, PinMock.MockDrive, SpiMock.MockTransfer, pin, spi, tx)
  }

  /** With nothing armed on either mock, a transfer succeeds, returns the
      engine's response byte by byte and leaves the chip-select line idle. */
  lemma MockTransferSucceeds(polarity: Polarity, policy: DoubleFault, pin: PinMock.PinState, spi: SpiMock.SpiState, tx: seq<Byte>)
    requires pin.error == None
    requires !SpiMock.FaultsWithin(spi, |tx|)
    ensures var run := MockRun(polarity, policy, pin, spi, tx);
      run.result == Ok(()) && run.pin.value == IdleLevel(polarity) && run.pin.error == None &&
      |run.buffer| == |tx| &&
      (forall i :: 0 <= i < |tx| ==> run.buffer[i] == SpiMock.ResponseByte(SpiMock.Response(spi, tx), i))
  {
    SpiMock.TransferContract(spi, tx);
  }

  /** A pin armed against the select level makes the transfer fail with
      `ChipSelect`, disarms the pin, leaves the line where it was and leaves the
      SPI engine, including its deferral counter, untouched. */
  lemma MockSelectFails(polarity: Polarity, policy: DoubleFault, pin: PinMock.PinState, spi: SpiMock.SpiState, tx: seq<Byte>)
    requires pin.error == Some(PinMock.Guard(SelectLevel(polarity)))
    ensures var run := MockRun(polarity, policy, pin, spi, tx);
      run.result == Err(ChipSelect) && run.spi == spi && run.buffer == tx &&
      run.pin == pin.(error := None)
  {
  }

  /** A pin armed against the idle level lets the exchange happen and then fails
      the deselect: the transfer reports `ChipDeselect`, the buffer holds the
      response, and the line stays at the select level. */
  lemma MockDeselectFails(polarity: Polarity, policy: DoubleFault, pin: PinMock.PinState, spi: SpiMock.SpiState, tx: seq<Byte>)
    requires pin.error == Some(PinMock.Guard(IdleLevel(polarity)))
    requires !SpiMock.FaultsWithin(spi, |tx|)
    ensures var run := MockRun(polarity, policy, pin, spi, tx);
      run.result == Err(ChipDeselect) && run.buffer == SpiMock.Transferred(spi, tx).buffer &&
      run.pin.value == SelectLevel(polarity) && run.pin.error == None
  {
    SpiMock.TransferContract(spi, tx);
  }

  /** An SPI fault within the transfer, with the pin unarmed, reports `Transfer`
      and still returns the line to idle. */
  lemma MockExchangeFails(polarity: Polarity, policy: DoubleFault, pin: PinMock.PinState, spi: SpiMock.SpiState, tx: seq<Byte>)
    requires pin.error == None
    requires SpiMock.FaultsWithin(spi, |tx|)
    ensures var run := MockRun(polarity, policy, pin, spi, tx);
      run.result == Err(Transfer) && run.pin.value == IdleLevel(polarity) && run.spi.error == None
  {
    SpiMock.TransferContract(spi, tx);
  }

  /** Construction drives a fresh mock pin (high, unarmed) to the idle level: it
      stays high under `IdleHigh` and goes low under `IdleLow`; an unarmed pin
      always ends at the idle level. */
  lemma ConstructionIdlesFreshPin(polarity: Polarity, pin: PinMock.PinState)
    requires pin.error == None
    ensures PinMock.LevelDriven(pin, IdleLevel(polarity)).result.Ok?
    ensures PinMock.LevelDriven(pin, IdleLevel(polarity)).state == pin.(value := IdleLevel(polarity))
    ensures pin.value && polarity == IdleLow ==> !PinMock.LevelDriven(pin, IdleLevel(polarity)).state.value
  {
  }

  // ---------------------------------------------------------------------------
  // The transport object

  /** The levels the pin was driven to, in order, among a run's calls. */
  function DriveLevels(calls: seq<Call>): seq<bool>
    decreases |calls|
  {
    if calls == [] then []
    else (if calls[0].Drive? then [calls[0].level] else []) + DriveLevels(calls[1..])
  }

  /** The byte strings sent to the SPI device, in order, among a run's calls. */
  function Exchanges(calls: seq<Call>): seq<seq<Byte>>
    decreases |calls|
  {
    if calls == [] then []
    else (if calls[0].Exchange? then [calls[0].tx] else []) + Exchanges(calls[1..])
  }

  /** A mock run in closed form, step by step: the select drive alone when
      selecting fails, otherwise select, exchange, deselect, with the result
      Protocol prescribes. */
  lemma MockRunSteps(polarity: Polarity, policy: DoubleFault, pin: PinMock.PinState, spi: SpiMock.SpiState, tx: seq<Byte>)
    ensures var run := MockRun(polarity, policy, pin, spi, tx);
      var sel, idle := SelectLevel(polarity), IdleLevel(polarity);
      var selected := PinMock.LevelDriven(pin, sel);
      var exchanged := SpiMock.Transferred(spi, tx);
      var deselected := PinMock.LevelDriven(selected.state, idle);
      if selected.result.Err? then
        run.pin == selected.state && run.spi == spi && run.buffer == tx &&
        run.calls == [Drive(sel)] && run.result == Err(ChipSelect)
      else
        run.pin == deselected.state && run.spi == exchanged.state && run.buffer == exchanged.buffer &&
        run.calls == [Drive(sel), Exchange(tx), Drive(idle)] &&
        run.result == (if exchanged.result.Err? then Err(ExchangeFailure(policy, deselected.result.Ok?))
                       else if deselected.result.Err? then Err(ChipDeselect)
                       else Ok(()))
  {
  }

  /** The drives and the exchanges of the two call lists a run can have. */
  lemma BracketLogs(sel: bool, tx: seq<Byte>, idle: bool)
    ensures DriveLevels([Drive(sel)]) == [sel] && Exchanges([Drive(sel)]) == []
    ensures DriveLevels([Drive(sel), Exchange(tx), Drive(idle)]) == [sel, idle]
    ensures Exchanges([Drive(sel), Exchange(tx), Drive(idle)]) == [tx]
  {
    var bracket := [Drive(sel), Exchange(tx), Drive(idle)];
    assert bracket[1..] == [Exchange(tx), Drive(idle)] && bracket[1..][1..] == [Drive(idle)];
    assert DriveLevels([Drive(idle)]) == [idle] && Exchanges([Drive(idle)]) == [];
  }

  /** What a mock run leaves in the devices' logs: the select level alone when
      selecting fails, otherwise the select and the idle level and the one
      exchange; intercepts with options o and so log the traces of those drives
      and of that exchange. */
  lemma MockRunLogs(polarity: Polarity, policy: DoubleFault, pin: PinMock.PinState, spi: SpiMock.SpiState, tx: seq<Byte>,
                    o: PinLog.PinOpts, so: SpiLog.SpiOpts)
    ensures var run := MockRun(polarity, policy, pin, spi, tx);
      var sel, idle := SelectLevel(polarity), IdleLevel(polarity);
      var selected := PinMock.LevelDriven(pin, sel);
      if selected.result.Err? then
        DriveLevels(run.calls) == [sel] && Exchanges(run.calls) == [] &&
        PinIntercept.DriveTrace(o, pin, DriveLevels(run.calls)) == PinIntercept.DriveTrace(o, pin, [sel]) &&
        SpiIntercept.ExchangeTrace(so, spi, Exchanges(run.calls)) == []
      else
        var exchanged := SpiMock.Transferred(spi, tx);
        DriveLevels(run.calls) == [sel, idle] && Exchanges(run.calls) == [tx] &&
        PinIntercept.DriveTrace(o, pin, DriveLevels(run.calls)) ==
          PinIntercept.DriveTrace(o, pin, [sel]) + PinIntercept.DriveTrace(o, selected.state, [idle]) &&
        SpiIntercept.ExchangeTrace(so, spi, Exchanges(run.calls)) ==
          SpiLog.TransferEvents(so, tx, exchanged.buffer, exchanged.result.Err?)
  {
    assert [tx][1..] == [];
    MockRunSteps(polarity, policy, pin, spi, tx);
    BracketLogs(SelectLevel(polarity), tx, IdleLevel(polarity));
    PinIntercept.DriveTracePair(o, pin, SelectLevel(polarity), IdleLevel(polarity));
  }

  /** `Transport<SPI, CS>` over the logging mock SPI device and the logging mock
      pin. calls records every call made on the two devices. */
  class Transport {
    const spi: SpiIntercept.Spi
    const cs: PinIntercept.Pin
    const polarity: Polarity
    const policy: DoubleFault
    ghost var calls: seq<Call>

    /** Takes the devices and drives the line to idle once, ignoring the outcome. */
    constructor (spi: SpiIntercept.Spi, cs: PinIntercept.Pin, polarity: Polarity, policy: DoubleFault)
      modifies cs, cs.pin.dev
      ensures this.spi == spi && this.cs == cs && this.polarity == polarity && this.policy == policy
      ensures cs.pin.dev.State() == PinMock.LevelDriven(old(cs.pin.dev.State()), IdleLevel(polarity)).state
      ensures cs.pin.dev.calls == old(cs.pin.dev.calls) + [IdleLevel(polarity)]
      ensures cs.events == old(cs.events) + PinIntercept.DriveTrace(cs.opts.value, old(cs.pin.dev.State()), [IdleLevel(polarity)])
      ensures calls == [Drive(IdleLevel(polarity))]
    {
      this.spi := spi;
      this.cs := cs;
      this.polarity := polarity;
      this.policy := policy;
      calls := [];
      new;
      var ignored := Deselect();
    }

    /** The transport always drives a chip-select line. */
    function IsChipSelect(): (b: bool)
      ensures b
    {
      true
    }

    /** Drives the line to the select level; any pin error becomes `ChipSelect`. */
    method Select() returns (r: Result<(), Error>)
      modifies this, cs, cs.pin.dev
      ensures var step := PinMock.LevelDriven(old(cs.pin.dev.State()), SelectLevel(polarity));
        cs.pin.dev.State() == step.state && r == (if step.result.Ok? then Ok(()) else Err(ChipSelect))
      ensures cs.pin.dev.calls == old(cs.pin.dev.calls) + [SelectLevel(polarity)]
      ensures cs.events == old(cs.events) + PinIntercept.DriveTrace(cs.opts.value, old(cs.pin.dev.State()), [SelectLevel(polarity)])
      ensures calls == old(calls) + [Drive(SelectLevel(polarity))]
    {
      var res;
      match polarity {
        case IdleHigh => res := cs.SetLow();
        case IdleLow => res := cs.SetHigh();
      }
      r := if res.Ok? then Ok(()) else Err(ChipSelect);
      calls := calls + [Drive(SelectLevel(polarity))];
    }

    /** Drives the line to the idle level; any pin error becomes `ChipDeselect`. */
    method Deselect() returns (r: Result<(), Error>)
      modifies this, cs, cs.pin.dev
      ensures var step := PinMock.LevelDriven(old(cs.pin.dev.State()), IdleLevel(polarity));
        cs.pin.dev.State() == step.state && r == (if step.result.Ok? then Ok(()) else Err(ChipDeselect))
      ensures cs.pin.dev.calls == old(cs.pin.dev.calls) + [IdleLevel(polarity)]
      ensures cs.events == old(cs.events) + PinIntercept.DriveTrace(cs.opts.value, old(cs.pin.dev.State()), [IdleLevel(polarity)])
      ensures calls == old(calls) + [Drive(IdleLevel(polarity))]
    {
      var res;
      match polarity {
        case IdleHigh => res := cs.SetHigh();
        case IdleLow => res := cs.SetLow();
      }
      r := if res.Ok? then Ok(()) else Err(ChipDeselect);
      calls := calls + [Drive(IdleLevel(polarity))];
    }

    /** `exchange_bytes` (`raw_transfer` in the HAL copy): one transfer of the SPI
        device; any SPI error becomes `Transfer`. */
    method ExchangeBytes(words: array<Byte>) returns (r: Result<array<Byte>, Error>)
      modifies this, spi, spi.spi.dev, words
      ensures var step := SpiMock.Transferred(old(spi.spi.dev.State()), old(words[..]));
        words[..] == step.buffer && spi.spi.dev.State() == step.state &&
        Status(r) == (if step.result.Ok? then Ok(()) else Err(Error.Transfer)) &&
        spi.events == old(spi.events) + SpiLog.TransferEvents(spi.opts.value, old(words[..]), words[..], step.result.Err?)
      ensures r.Ok? ==> r.value == words
      ensures spi.spi.dev.transfers == old(spi.spi.dev.transfers) + [old(words[..])]
      ensures calls == old(calls) + [Exchange(old(words[..]))]
    {
      ghost var tx := words[..];
      var res := spi.Transfer(words);
      r := if res.Ok? then Ok(res.value) else Err(Error.Transfer);
      calls := calls + [Exchange(tx)];
    }

    /** Exchanges the bytes; when that fails, deselects the chip before reporting
        the failure as ExchangeFailure prescribes. */
    method ExchangeBytesOrDeselect(words: array<Byte>) returns (r: Result<array<Byte>, Error>)
      modifies this, cs, cs.pin.dev, spi, spi.spi.dev, words
      ensures var step := SpiMock.Transferred(old(spi.spi.dev.State()), old(words[..]));
        var deselected := PinMock.LevelDriven(old(cs.pin.dev.State()), IdleLevel(polarity));
        words[..] == step.buffer && spi.spi.dev.State() == step.state &&
        spi.spi.dev.transfers == old(spi.spi.dev.transfers) + [old(words[..])] &&
        spi.events == old(spi.events) + SpiLog.TransferEvents(spi.opts.value, old(words[..]), words[..], step.result.Err?) &&
        (step.result.Ok? ==>
          r == Ok(words) && cs.pin.dev.State() == old(cs.pin.dev.State()) &&
          cs.pin.dev.calls == old(cs.pin.dev.calls) && cs.events == old(cs.events) &&
          calls == old(calls) + [Exchange(old(words[..]))]) &&
        (step.result.Err? ==>
          r == Err(ExchangeFailure(policy, deselected.result.Ok?)) && cs.pin.dev.State() == deselected.state &&
          cs.pin.dev.calls == old(cs.pin.dev.calls) + [IdleLevel(polarity)] &&
          cs.events == old(cs.events) + PinIntercept.DriveTrace(cs.opts.value, old(cs.pin.dev.State()), [IdleLevel(polarity)]) &&
          calls == old(calls) + [Exchange(old(words[..])), Drive(IdleLevel(polarity))])
    {
      r := ExchangeBytes(words);
      if r.Err? {
        var d := Deselect();
        r := Err(ExchangeFailure(policy, d.Ok?));
      }
    }

    /** The part of `transfer` after a successful select: exchange-or-deselect,
        then deselect once the exchange succeeded. Either way the pin is driven
        to idle exactly once after the exchange. */
    method ExchangeThenDeselect(words: array<Byte>) returns (r: Result<array<Byte>, Error>)
      modifies this, cs, cs.pin.dev, spi, spi.spi.dev, words
      ensures var exchanged := SpiMock.Transferred(old(spi.spi.dev.State()), old(words[..]));
        var deselected := PinMock.LevelDriven(old(cs.pin.dev.State()), IdleLevel(polarity));
        words[..] == exchanged.buffer && spi.spi.dev.State() == exchanged.state &&
        spi.spi.dev.transfers == old(spi.spi.dev.transfers) + [old(words[..])] &&
        spi.events == old(spi.events) + SpiLog.TransferEvents(spi.opts.value, old(words[..]), words[..], exchanged.result.Err?) &&
        cs.pin.dev.State() == deselected.state &&
        cs.pin.dev.calls == old(cs.pin.dev.calls) + [IdleLevel(polarity)] &&
        cs.events == old(cs.events) + PinIntercept.DriveTrace(cs.opts.value, old(cs.pin.dev.State()), [IdleLevel(polarity)]) &&
        calls == old(calls) + [Exchange(old(words[..])), Drive(IdleLevel(polarity))] &&
        Status(r) == (if exchanged.result.Err? then Err(ExchangeFailure(policy, deselected.result.Ok?))
                      else if deselected.result.Err? then Err(ChipDeselect)
                      else Ok(()))
      ensures r.Ok? ==> r.value == words
    {
      r := ExchangeBytesOrDeselect(words);
      if r.Ok? {
        var deselected := Deselect();
        if deselected.Err? {
          r := Err(deselected.error);
        }
      }
    }

    /** `transfer`: select, exchange-or-deselect, deselect, as Protocol prescribes
        over the two mock devices. The pin sees exactly the drives of the run and
        the SPI device exactly its exchange, each logged by its intercept. */
    method Transfer(words: array<Byte>) returns (r: Result<array<Byte>, Error>)
      modifies this, cs, cs.pin.dev, spi, spi.spi.dev, words
      ensures var run := MockRun(polarity, policy, old(cs.pin.dev.State()), old(spi.spi.dev.State()), old(words[..]));
        cs.pin.dev.State() == run.pin && spi.spi.dev.State() == run.spi && words[..] == run.buffer &&
        Status(r) == run.result && calls == old(calls) + run.calls
      ensures var run := MockRun(polarity, policy, old(cs.pin.dev.State()), old(spi.spi.dev.State()), old(words[..]));
        cs.pin.dev.calls == old(cs.pin.dev.calls) + DriveLevels(run.calls) &&
        spi.spi.dev.transfers == old(spi.spi.dev.transfers) + Exchanges(run.calls) &&
        cs.events == old(cs.events) + PinIntercept.DriveTrace(cs.opts.value, old(cs.pin.dev.State()), DriveLevels(run.calls)) &&
        spi.events == old(spi.events) + SpiIntercept.ExchangeTrace(spi.opts.value, old(spi.spi.dev.State()), Exchanges(run.calls))
      ensures r.Ok? ==> r.value == words
    {
      ghost var p0, s0, tx := cs.pin.dev.State(), spi.spi.dev.State(), words[..];
      ghost var run := MockRun(polarity, policy, p0, s0, tx);
      MockRunSteps(polarity, policy, p0, s0, tx);
      MockRunLogs(polarity, policy, p0, s0, tx, cs.opts.value, spi.opts.value);
      var selected := Select();
      if selected.Err? {
        return Err(selected.error);
      }
      r := ExchangeThenDeselect(words);
    }
  }
}
