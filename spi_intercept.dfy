/** The logging intercept for SPI: a decorator around the mock SPI device
    handle that logs each transfer according to shared options and otherwise
    forwards it unchanged. */
module SpiIntercept {
  import opened Common
  import opened SpiLog
  import opened SpiMock

  class Spi {
    const name: string
    const spi: MockSpi
    const opts: Shared<SpiOpts>
    /** What has been written to standard output, as events. */
    ghost var events: seq<SpiEvent>

    constructor (name: string, spi: MockSpi, opts: Shared<SpiOpts>)
      ensures this.name == name && this.spi == spi && this.opts == opts
      ensures events == []
    {
      this.name, this.spi, this.opts := name, spi, opts;
      events := [];
    }

    method SetLog(log: bool)
      modifies opts
      ensures opts.value == old(opts.value).(log := log)
    {
      opts.value := opts.value.(log := log);
    }

    method SetLogBytes(bytes: bool)
      modifies opts
      ensures opts.value == old(opts.value).(bytes := bytes)
    {
      opts.value := opts.value.(bytes := bytes);
    }

    /** Forwards to the inner device exactly once, on the caller's buffer, and
        returns its result unchanged whatever the options say; the options are read
        once, before the inner call, and decide only the events emitted. */
    method Transfer(words: array<Byte>) returns (r: Result<array<Byte>, SpiError>)
      modifies this, spi.dev, words
      ensures Transfers(spi.dev, words, r)
      ensures opts.value == old(opts.value)
      ensures events == old(events) + TransferEvents(old(opts.value), old(words[..]), words[..], r.Err?)
    {
      var opts := this.opts.value;
      if opts.log {
        events := events + [TransferStarted(words.Length)];
        ghost var tx := words[..];
        var result := spi.Transfer(words);
        if result.Ok? {
          if opts.bytes {
            events := events + [BytesDumped(SummaryRows(tx, words[..]))];
          }
          events := events + [TransferCompleted];
        } else {
          events := events + [TransferFailed];
        }
        r := result;
      } else {
        r := spi.Transfer(words);
      }
    }
  }

  /** The events an intercept with options o logs while the engine, starting in
      state s, transfers each of txs in turn. */
  function ExchangeTrace(o: SpiOpts, s: SpiState, txs: seq<seq<Byte>>): (ev: seq<SpiEvent>)
    ensures ev == [] <==> !o.log || txs == []
    decreases |txs|
  {
    if txs == [] then []
    else
      var step := Transferred(s, txs[0]);
      TransferEvents(o, txs[0], step.buffer, step.result.Err?) + ExchangeTrace(o, step.state, txs[1..])
  }

  /** What one transfer through an intercept yields: the inner device's new
      state, the buffer and the outcome it produced, and the events logged. */
  datatype Intercepted<S, E> = Intercepted(state: S, buffer: seq<Byte>, result: Result<(), E>, events: seq<SpiEvent>)

  /** `Spi<S>::transfer` over any inner device, given as a state-passing
      function from the device state and the bytes sent to the new state, the
      bytes received and the outcome. The intercept calls it once, whatever the
      options, passes its state, buffer and outcome through unchanged, and the
      options decide only the events. */
  function InterceptTransfer<S, E>(o: SpiOpts, inner: (S, seq<Byte>) -> (S, seq<Byte>, Result<(), E>), s: S, tx: seq<Byte>): (t: Intercepted<S, E>)
    ensures (t.state, t.buffer, t.result) == inner(s, tx)
    ensures t.events == TransferEvents(o, tx, t.buffer, t.result.Err?)
    ensures !o.log ==> t.events == []
  {
    if o.log then
      var (s1, rx, res) := inner(s, tx);
      var started := [TransferStarted(|tx|)];
      if res.Ok? then
        Intercepted(s1, rx, res, started + (if o.bytes then [BytesDumped(SummaryRows(tx, rx))] else []) + [TransferCompleted])
      else
        Intercepted(s1, rx, res, started + [TransferFailed])
    else
      var (s1, rx, res) := inner(s, tx);
      Intercepted(s1, rx, res, [])
  }

  /** Instantiated with the mock engine, the generic intercept yields what
      `Spi.Transfer` promises: the engine's step and `TransferEvents` of it. */
  lemma MockIntercepted(o: SpiOpts, s: SpiState, tx: seq<Byte>)
    ensures var t := InterceptTransfer(o, MockTransfer, s, tx);
      var step := Transferred(s, tx);
      t.state == step.state && t.buffer == step.buffer && t.result == step.result &&
      t.events == TransferEvents(o, tx, step.buffer, step.result.Err?)
  {
  }

  /** The configuration of an SPI intercept around a device of the caller's. */
  datatype InterceptBuilder = InterceptBuilder(name: string, opts: SpiOpts)
  {
    /** Do not print events. */
    function WithoutLog(): InterceptBuilder
    {
      this.(opts := opts.(log := false))
    }

    /** Print events and the Tx/Rx bytes after each transfer. */
    function WithByteLog(): InterceptBuilder
    {
      this.(opts := opts.(log := true, bytes := true))
    }

    /** Wraps spi in an intercept with its own, fresh options cell. */
    method Init(spi: MockSpi) returns (s: Spi)
      ensures fresh(s) && fresh(s.opts)
      ensures s.name == name && s.spi == spi && s.opts.value == opts && s.events == []
    {
      var shared := new Shared(opts);
      s := new Spi(name, spi, shared);
    }
  }

  /** `Intercept::spi(name)`: options from `SpiOpts::new()`. */
  function NewInterceptBuilder(name: string): InterceptBuilder
  {
    InterceptBuilder(name, NewSpiOpts())
  }

  /** A new intercept builder logs events but no bytes; `WithByteLog` sets both
      flags and `WithoutLog` clears only the event flag. */
  lemma InterceptBuilderOptions(name: string, b: InterceptBuilder)
    ensures NewInterceptBuilder(name) == InterceptBuilder(name, SpiOpts(log := true, bytes := false))
    ensures b.WithByteLog() == b.(opts := SpiOpts(log := true, bytes := true))
    ensures b.WithoutLog() == b.(opts := b.opts.(log := false))
  {
  }
}
