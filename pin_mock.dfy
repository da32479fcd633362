/** The mock output pin engine: a simulated digital output line holding a
    boolean level, which can be armed with a one-shot error scoped to one drive
    direction, plus the device handle and the control handle that share it. The
    two copies of this engine in the source (`dev/output/mock.rs` and
    `dev/output_pin/mock.rs`) behave identically and are modelled once. */
module PinMock {
  import opened Common
  import opened PinLog

  /** The errors the mock pin can be armed with, one per drive direction. */
  datatype PinError = SetHigh | SetLow

  /** The fields of a mock pin device that decide the outcome of a call. The
      delay is kept but never consulted. */
  datatype PinState = PinState(value: bool, delay: Option<nat>, error: Option<PinError>)

  datatype PinStep = PinStep(state: PinState, result: Result<(), PinError>)

  /** `set_value_unless(value, unless)` in closed form: an armed error equal to
      `unless` is returned and disarmed, leaving the level alone; otherwise the
      level becomes value and any other armed error stays armed. */
  function Driven(s: PinState, value: bool, unless: PinError): (t: PinStep)
    ensures t.result.Err? <==> s.error == Some(unless)
    ensures t.result.Err? ==> t.result.error == unless && t.state.value == s.value && t.state.error == None
    ensures t.result.Ok? ==> t.state.value == value && t.state.error == s.error
    ensures t.state.delay == s.delay
  {
    if s.error == Some(unless) then PinStep(s.(error := None), Err(unless))
    else PinStep(s.(value := value), Ok(()))
  }

  /** The error that guards driving the pin to level: `set_high` passes
      `SetHigh` with true and `set_low` passes `SetLow` with false. */
  function Guard(level: bool): PinError
  {
    if level then SetHigh else SetLow
  }

  /** `set_high()` (level true) or `set_low()` (level false): `Driven` with the
      guard of the level's own direction, so it fails exactly when that error is
      armed, and a success leaves the armed error (which is then of the other
      direction, or none) as it was. */
  function LevelDriven(s: PinState, level: bool): (t: PinStep)
    ensures t.result.Err? <==> s.error == Some(Guard(level))
    ensures t.result.Ok? ==> t.state.value == level
  {
    Driven(s, level, Guard(level))
  }

  /** One drive of the mock pin as a state-passing function, the form in
      which decorators and the transport take an inner pin. */
  function MockDrive(s: PinState, level: bool): (PinState, Result<(), PinError>)
  {
    var step := LevelDriven(s, level);
    (step.state, step.result)
  }

  /** The delay only sleeps: a drive with any other delay has the same result
      and leaves the same state, apart from the delay. */
  lemma DelayIrrelevant(s: PinState, level: bool, d: Option<nat>)
    ensures var t := LevelDriven(s, level);
      LevelDriven(s.(delay := d), level) == t.(state := t.state.(delay := d))
  {
  }

  /** One-shot: right after a drive fails, the same drive succeeds. */
  lemma OneShot(s: PinState, level: bool)
    requires LevelDriven(s, level).result.Err?
    ensures LevelDriven(LevelDriven(s, level).state, level) == PinStep(s.(value := level, error := None), Ok(()))
  {
  }

  // ---------------------------------------------------------------------------
  // Sequences of calls

  datatype PinRun = PinRun(state: PinState, results: seq<Result<(), PinError>>)

  /** Drives the pin to each level of levels in turn, starting in state s. */
  function DrivenAll(s: PinState, levels: seq<bool>): (r: PinRun)
    ensures |r.results| == |levels|
    decreases |levels|
  {
    if levels == [] then PinRun(s, [])
    else
      var step := LevelDriven(s, levels[0]);
      var rest := DrivenAll(step.state, levels[1..]);
      PinRun(rest.state, [step.result] + rest.results)
  }

  /** An armed error is scoped to its direction: calls of the other direction
      all succeed, never trigger it and never consume it. */
  lemma {:induction false} OtherDirectionNeverConsumes(s: PinState, armed: bool, levels: seq<bool>)
    requires s.error == Some(Guard(armed))
    requires forall j :: 0 <= j < |levels| ==> levels[j] != armed
    ensures forall j :: 0 <= j < |levels| ==> DrivenAll(s, levels).results[j] == Ok(())
    ensures DrivenAll(s, levels).state.error == Some(Guard(armed))
    decreases |levels|
  {
    if levels != [] {
      OtherDirectionNeverConsumes(LevelDriven(s, levels[0]).state, armed, levels[1..]);
    }
  }

  /** The level after any sequence of calls is the level of the last call that
      succeeded. */
  lemma {:induction false} LevelIsLastSuccess(s: PinState, levels: seq<bool>)
    ensures var run := DrivenAll(s, levels);
      forall j :: 0 <= j < |levels| && run.results[j].Ok? &&
                  (forall i :: j < i < |levels| ==> run.results[i].Err?)
               ==> run.state.value == levels[j]
    decreases |levels|
  {
    if levels != [] {
      var step := LevelDriven(s, levels[0]);
      var rest := DrivenAll(step.state, levels[1..]);
      var run := DrivenAll(s, levels);
      LevelIsLastSuccess(step.state, levels[1..]);
      if step.result.Ok? {
        LevelUnchangedWithoutSuccess(step.state, levels[1..]);
      }
      assert forall i :: 0 <= i < |levels| - 1 ==> rest.results[i] == run.results[i + 1];
      forall j | 0 <= j < |levels| && run.results[j].Ok? &&
          (forall i :: j < i < |levels| ==> run.results[i].Err?)
        ensures run.state.value == levels[j]
      {
        if j > 0 {
          assert rest.results[j - 1].Ok?;
        }
      }
    }
  }

  /** When no call of a sequence succeeds, the level stays the initial one. */
  lemma {:induction false} LevelUnchangedWithoutSuccess(s: PinState, levels: seq<bool>)
    ensures var run := DrivenAll(s, levels);
      (forall j :: 0 <= j < |levels| ==> run.results[j].Err?) ==> run.state.value == s.value
    decreases |levels|
  {
    if levels != [] {
      var step := LevelDriven(s, levels[0]);
      var rest := DrivenAll(step.state, levels[1..]);
      var run := DrivenAll(s, levels);
      LevelUnchangedWithoutSuccess(step.state, levels[1..]);
      if forall j :: 0 <= j < |levels| ==> run.results[j].Err? {
        assert run.results[0].Err?;
        assert forall i :: 0 <= i < |levels| - 1 ==> rest.results[i] == run.results[i + 1];
      }
    }
  }

  /** The direction-scoped scenario: with `SetHigh` armed, `set_low` succeeds
      and lowers the pin; the following `set_high` fails with `SetHigh` and
      disarms; a further `set_high` succeeds. */
  lemma DirectionScopedScenario(s: PinState)
    requires s.error == Some(SetHigh)
    ensures var low := LevelDriven(s, false);
      var high1 := LevelDriven(low.state, true);
      var high2 := LevelDriven(high1.state, true);
      low.result == Ok(()) && low.state.value == false &&
      high1.result == Err(SetHigh) && high1.state.value == false && high1.state.error == None &&
      high2.result == Ok(()) && high2.state.value == true
  {
  }

  // ---------------------------------------------------------------------------
  // The shared device and its two handles

  /** The state shared by a `MockPin` and a `PinControl`. */
  class MockPinDevice {
    const opts: Shared<PinOpts>
    var value: bool
    var delay: Option<nat>
    var error: Option<PinError>
    /** The level requested by every call of `SetValueUnless`, in call order. */
    ghost var calls: seq<bool>

    function State(): PinState
      reads this
    {
      PinState(value, delay, error)
    }

    /** A new pin is high, with no delay and no armed error. */
    constructor (opts: Shared<PinOpts>)
      ensures this.opts == opts
      ensures State() == PinState(true, None, None) && calls == []
    {
      this.opts := opts;
      value, delay, error := true, None, None;
      calls := [];
    }

    method SetValueUnless(value: bool, unless: PinError) returns (r: Result<(), PinError>)
      modifies this
      ensures var step := Driven(old(State()), value, unless);
        State() == step.state && r == step.result
      ensures calls == old(calls) + [value]
    {
      calls := calls + [value];
      // The optional delay sleeps here; it changes nothing observable.
      if error.Some? && error.value == unless {
        var e := error.value;
        error := None;
        r := Err(e);
      } else {
        this.value := value;
        r := Ok(());
      }
    }
  }

  /** dev has just been driven once to level as LevelDriven prescribes, returning r. */
  twostate predicate Drives(dev: MockPinDevice, level: bool, new r: Result<(), PinError>)
    reads dev
  {
    var step := LevelDriven(old(dev.State()), level);
    dev.State() == step.state && r == step.result && dev.calls == old(dev.calls) + [level]
  }

  /** The device handle: `OutputPin` for the shared device. */
  class MockPin {
    const dev: MockPinDevice

    constructor (dev: MockPinDevice)
      ensures this.dev == dev
    {
      this.dev := dev;
    }

    method SetHigh() returns (r: Result<(), PinError>)
      modifies dev
      ensures Drives(dev, true, r)
    {
      r := dev.SetValueUnless(true, PinError.SetHigh);
    }

    method SetLow() returns (r: Result<(), PinError>)
      modifies dev
      ensures Drives(dev, false, r)
    {
      r := dev.SetValueUnless(false, PinError.SetLow);
    }
  }

  /** The control handle: setters and a getter on the shared device that
      bypass the pin operations. Each setter changes only its own field. */
  class PinControl {
    const pin: MockPinDevice

    constructor (pin: MockPinDevice)
      ensures this.pin == pin
    {
      this.pin := pin;
    }

    method SetLog(log: bool)
      modifies pin.opts
      ensures pin.opts.value == old(pin.opts.value).(log := log)
    {
      pin.opts.value := pin.opts.value.(log := log);
    }

    method SetDelay(duration: nat)
      modifies pin
      ensures pin.State() == old(pin.State()).(delay := Some(duration))
      ensures pin.calls == old(pin.calls)
    {
      pin.delay := Some(duration);
    }

    method ClearDelay()
      modifies pin
      ensures pin.State() == old(pin.State()).(delay := None)
      ensures pin.calls == old(pin.calls)
    {
      pin.delay := None;
    }

    method SetError(error: PinError)
      modifies pin
      ensures pin.State() == old(pin.State()).(error := Some(error))
      ensures pin.calls == old(pin.calls)
    {
      pin.error := Some(error);
    }

    method ClearError()
      modifies pin
      ensures pin.State() == old(pin.State()).(error := None)
      ensures pin.calls == old(pin.calls)
    {
      pin.error := None;
    }

    /** The level currently held by the shared device. */
    method GetValue() returns (v: bool)
      ensures v == pin.value
    {
      v := pin.value;
    }
  }
}
