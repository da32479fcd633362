/** The logging intercept for output pins: a decorator around the mock pin
    handle that logs each operation according to a shared option and otherwise
    forwards it unchanged. The two copies in the source
    (`dev/output/intercept.rs` and `dev/output_pin/intercept.rs`) are identical
    and are modelled once. */
module PinIntercept {
  import opened Common
  import opened PinLog
  import opened PinMock

  class Pin {
    const name: string
    const pin: MockPin
    const opts: Shared<PinOpts>
    /** What has been written to standard output, as events. */
    ghost var events: seq<PinEvent>

    constructor (name: string, pin: MockPin, opts: Shared<PinOpts>)
      ensures this.name == name && this.pin == pin && this.opts == opts
      ensures events == []
    {
      this.name, this.pin, this.opts := name, pin, opts;
      events := [];
    }

    method SetLog(log: bool)
      modifies opts
      ensures opts.value == old(opts.value).(log := log)
    {
      opts.value := opts.value.(log := log);
    }

    /** Forwards to the inner pin exactly once and returns its result
        unchanged; the log flag, read after the call, decides only the event. */
    method SetHigh() returns (r: Result<(), PinError>)
      modifies this, pin.dev
      ensures Drives(pin.dev, true, r)
      ensures opts.value == old(opts.value)
      ensures events == old(events) + DriveEvents(opts.value, true, r.Err?)
    {
      var result := pin.SetHigh();
      if opts.value.log {
        events := events + [if result.Ok? then WentHigh else NotSetHigh];
      }
      r := result;
    }

    /** Forwards to the inner pin exactly once and returns its result
        unchanged in both branches; the log flag, read before the call, decides
        only the event. */
    method SetLow() returns (r: Result<(), PinError>)
      modifies this, pin.dev
      ensures Drives(pin.dev, false, r)
      ensures opts.value == old(opts.value)
      ensures events == old(events) + DriveEvents(opts.value, false, r.Err?)
    {
      if opts.value.log {
        r := pin.SetLow();
        events := events + [if r.Ok? then WentLow else NotSetLow];
      } else {
        r := pin.SetLow();
      }
    }
  }

  /** The events an intercept with options o logs while the pin, starting in
      state s, is driven to each of levels in turn. */
  function DriveTrace(o: PinOpts, s: PinState, levels: seq<bool>): (ev: seq<PinEvent>)
    ensures |ev| == (if o.log then |levels| else 0)
    decreases |levels|
  {
    if levels == [] then []
    else
      var step := LevelDriven(s, levels[0]);
      DriveEvents(o, levels[0], step.result.Err?) + DriveTrace(o, step.state, levels[1..])
  }

  /** Driving to a then b logs what driving to a logs, then what driving the
      resulting state to b logs. */
  lemma DriveTracePair(o: PinOpts, s: PinState, a: bool, b: bool)
    ensures DriveTrace(o, s, [a, b]) == DriveTrace(o, s, [a]) + DriveTrace(o, LevelDriven(s, a).state, [b])
  {
    assert [a, b][1..] == [b];
  }

  /** What one drive through an intercept yields: the inner pin's new state,
      the outcome it produced, and the events logged. */
  datatype Intercepted<P, E> = Intercepted(state: P, result: Result<(), E>, events: seq<PinEvent>)

  /** `Pin<P>::set_high` (level true) and `set_low` (level false) over any inner
      pin, given as a state-passing function from the pin state and the level to
      the new state and the outcome. The intercept calls it once, passes its
      state and outcome through unchanged, and the log flag decides only the
      event. The flag is read after the call in `set_high` and before it in
      `set_low`; nothing between the two reads changes it. */
  function InterceptDrive<P, E>(o: PinOpts, inner: (P, bool) -> (P, Result<(), E>), p: P, level: bool): (t: Intercepted<P, E>)
    ensures (t.state, t.result) == inner(p, level)
    ensures t.events == DriveEvents(o, level, t.result.Err?)
    ensures |t.events| == (if o.log then 1 else 0)
  {
    var (p1, res) := inner(p, level);
    if !o.log then Intercepted(p1, res, [])
    else if level then Intercepted(p1, res, [if res.Ok? then WentHigh else NotSetHigh])
    else Intercepted(p1, res, [if res.Ok? then WentLow else NotSetLow])
  }

  /** Instantiated with the mock pin, the generic intercept yields what
      `Pin.SetHigh` and `Pin.SetLow` promise; over a sequence of levels its
      events are `DriveTrace`. */
  lemma MockIntercepted(o: PinOpts, s: PinState, level: bool)
    ensures var t := InterceptDrive(o, MockDrive, s, level);
      t.state == LevelDriven(s, level).state && t.result == LevelDriven(s, level).result &&
      DriveTrace(o, s, [level]) == t.events
  {
    assert [level][1..] == [];
  }

  /** The configuration of a pin intercept around a pin of the caller's. */
  datatype InterceptBuilder = InterceptBuilder(name: string, opts: PinOpts)
  {
    /** Do not print events. */
    function WithoutLog(): InterceptBuilder
    {
      this.(opts := opts.(log := false))
    }

    /** Wraps pin in an intercept with its own, fresh options cell. */
    method Init(pin: MockPin) returns (p: Pin)
      ensures fresh(p) && fresh(p.opts)
      ensures p.name == name && p.pin == pin && p.opts.value == opts && p.events == []
    {
      var shared := new Shared(opts);
      p := new Pin(name, pin, shared);
    }
  }

  /** `Intercept::pin(name)`: options from `PinOpts::new()`. */
  function NewInterceptBuilder(name: string): InterceptBuilder
  {
    InterceptBuilder(name, NewPinOpts())
  }

  /** A new pin intercept builder logs events; `WithoutLog` turns that off. */
  lemma InterceptBuilderOptions(name: string, b: InterceptBuilder)
    ensures NewInterceptBuilder(name) == InterceptBuilder(name, PinOpts(log := true))
    ensures b.WithoutLog() == b.(opts := PinOpts(log := false))
  {
  }
}
