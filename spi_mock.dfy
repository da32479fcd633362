/** The mock SPI engine: a simulated byte-exchange device whose response comes
    from a programmable generator and which can be armed with a one-shot error
    deferred by a byte count, plus the device handle and the control handle that
    share it. */
module SpiMock {
  import opened Common
  import opened SpiLog

  /** The errors the mock SPI device can be armed with. */
  datatype SpiError = Transfer

  /** Computes the Rx bytes from the outgoing bytes. */
  type Generator = seq<Byte> -> seq<Byte>

  /** The generator `|x| x.to_vec()`: answers every transfer with its own Tx bytes. */
  function Echo(tx: seq<Byte>): seq<Byte>
  {
    tx
  }

  /** The fields of a mock SPI device that decide the outcome of a transfer. The
      delay is kept but never consulted. */
  datatype SpiState = SpiState(
    generator: Option<Generator>,
    byteDelay: Option<nat>,
    error: Option<SpiError>,
    errorAfterBytes: nat)

  /** `usize::saturating_sub`. */
  function SaturatingSub(a: nat, b: nat): nat
  {
    if a >= b then a - b else 0
  }

  /** The Rx bytes for a transfer: the generator applied to the outgoing bytes
      as they were before any byte is overwritten, or nothing without a generator. */
  function Response(s: SpiState, tx: seq<Byte>): seq<Byte>
  {
    match s.generator
    case Some(g) => g(tx)
    case None => []
  }

  /** `*rx.get(i).unwrap_or(&0x00)`. */
  function ResponseByte(rx: seq<Byte>, i: nat): Byte
  {
    if i < |rx| then rx[i] else 0x00
  }

  /** An armed error fires in an n-byte transfer exactly when the deferral
      counter names one of its byte indices. */
  predicate FaultsWithin(s: SpiState, n: nat)
  {
    s.error.Some? && s.errorAfterBytes < n
  }

  /** The buffer, device state and result after one transfer. */
  datatype SpiStep = SpiStep(buffer: seq<Byte>, state: SpiState, result: Result<(), SpiError>)

  /** One transfer of tx on a device in state s, in closed form: when the armed
      error fires at index k, bytes before k hold the response, bytes from k on
      keep their outgoing value, and the error is disarmed with the counter reset;
      otherwise every byte holds the response and the counter counts down by the
      transfer length, never below zero. */
  function Transferred(s: SpiState, tx: seq<Byte>): (t: SpiStep)
    ensures |t.buffer| == |tx|
    ensures t.state.generator == s.generator && t.state.byteDelay == s.byteDelay
    ensures t.result.Err? <==> FaultsWithin(s, |tx|)
  {
    var rx := Response(s, tx);
    if FaultsWithin(s, |tx|) then
      var k := s.errorAfterBytes;
      SpiStep(seq(|tx|, i requires 0 <= i < |tx| => if i < k then ResponseByte(rx, i) else tx[i]),
              s.(error := None, errorAfterBytes := 0),
              Err(s.error.value))
    else
      SpiStep(seq(|tx|, i requires 0 <= i < |tx| => ResponseByte(rx, i)),
              s.(errorAfterBytes := SaturatingSub(s.errorAfterBytes, |tx|)),
              Ok(()))
  }

  /** One transfer of the mock engine as a state-passing function, the form in
      which decorators and the transport take an inner device. */
  function MockTransfer(s: SpiState, tx: seq<Byte>): (SpiState, seq<Byte>, Result<(), SpiError>)
  {
    var step := Transferred(s, tx);
    (step.state, step.buffer, step.result)
  }

  /** The contract of one transfer, case by case: it fails if and only if an
      error is armed and the counter k is below the length n; then it returns the
      armed error, rewrites only bytes [0, k), disarms the error and resets the
      counter; otherwise it rewrites every byte, keeps the armed error and lowers
      the counter to max(0, counter - n). */
  lemma TransferContract(s: SpiState, tx: seq<Byte>)
    ensures var step := Transferred(s, tx);
      step.result.Err? <==> s.error.Some? && s.errorAfterBytes < |tx|
    ensures var step := Transferred(s, tx); var k := s.errorAfterBytes;
      step.result.Err? ==>
        step.result.error == s.error.value &&
        (forall i :: 0 <= i < k ==> step.buffer[i] == ResponseByte(Response(s, tx), i)) &&
        (forall i :: k <= i < |tx| ==> step.buffer[i] == tx[i]) &&
        step.state.error == None && step.state.errorAfterBytes == 0
    ensures var step := Transferred(s, tx);
      step.result.Ok? ==>
        (forall i :: 0 <= i < |tx| ==> step.buffer[i] == ResponseByte(Response(s, tx), i)) &&
        step.state.error == s.error &&
        step.state.errorAfterBytes == if s.errorAfterBytes >= |tx| then s.errorAfterBytes - |tx| else 0
  {
  }

  /** The per-byte delay only sleeps: a transfer with any other delay returns the
      same buffer and result and leaves the same state, apart from the delay. */
  lemma ByteDelayIrrelevant(s: SpiState, tx: seq<Byte>, d: Option<nat>)
    ensures var t := Transferred(s, tx);
      Transferred(s.(byteDelay := d), tx) == t.(state := t.state.(byteDelay := d))
  {
  }

  /** Without a generator, a failing transfer zero-fills the bytes before the
      fault and leaves the rest as sent; a succeeding one zero-fills everything. */
  lemma NoGeneratorZeroFills(s: SpiState, tx: seq<Byte>)
    requires s.generator == None
    ensures var step := Transferred(s, tx);
      !FaultsWithin(s, |tx|) ==> step.buffer == seq(|tx|, _ => 0x00)
    ensures var step := Transferred(s, tx); var k := s.errorAfterBytes;
      FaultsWithin(s, |tx|) ==> step.buffer == seq(k, _ => 0x00) + tx[k..]
  {
    var step := Transferred(s, tx);
    if FaultsWithin(s, |tx|) {
      var k := s.errorAfterBytes;
      assert step.buffer == seq(k, _ => 0x00) + tx[k..];
    } else {
      assert step.buffer == seq(|tx|, _ => 0x00);
    }
  }

  /** A zero-length transfer always succeeds and changes nothing. */
  lemma EmptyTransferIsNoOp(s: SpiState)
    ensures Transferred(s, []) == SpiStep([], s, Ok(()))
  {
  }

  /** One-shot: once the armed error has fired, no later transfer fails unless
      an error is armed again. */
  lemma FiresOnce(s: SpiState, tx: seq<Byte>, next: seq<Byte>)
    requires Transferred(s, tx).result.Err?
    ensures Transferred(Transferred(s, tx).state, next).result == Ok(())
    ensures Transferred(Transferred(s, tx).state, next).state.error == None
  {
  }

  // ---------------------------------------------------------------------------
  // Deferral across several transfers

  /** The total number of bytes of a series of transfers. */
  function Total(txs: seq<seq<Byte>>): nat
  {
    if txs == [] then 0 else |txs[0]| + Total(txs[1..])
  }

  datatype Replay = Replay(state: SpiState, results: seq<Result<(), SpiError>>)

  /** Performs the transfers txs one after the other, starting in state s. */
  function Replayed(s: SpiState, txs: seq<seq<Byte>>): (r: Replay)
    ensures |r.results| == |txs|
    decreases |txs|
  {
    if txs == [] then Replay(s, [])
    else
      var step := Transferred(s, txs[0]);
      var rest := Replayed(step.state, txs[1..]);
      Replay(rest.state, [step.result] + rest.results)
  }

  /** While the byte count of a series of transfers stays within the deferral
      counter, every transfer succeeds, the armed error stays armed and the
      counter is reduced by exactly the number of bytes sent. */
  lemma {:induction false} DeferralCountsDown(s: SpiState, txs: seq<seq<Byte>>)
    requires Total(txs) <= s.errorAfterBytes
    ensures forall j :: 0 <= j < |txs| ==> Replayed(s, txs).results[j] == Ok(())
    ensures Replayed(s, txs).state == s.(errorAfterBytes := s.errorAfterBytes - Total(txs))
    decreases |txs|
  {
    if txs != [] {
      var step := Transferred(s, txs[0]);
      assert step.state == s.(errorAfterBytes := s.errorAfterBytes - |txs[0]|);
      DeferralCountsDown(step.state, txs[1..]);
    }
  }

  /** An error armed with counter c fires at cumulative byte index c, counted
      across calls: after transfers of Total(txs) <= c bytes, all of which succeed,
      a transfer that reaches byte c fails at its local index c - Total(txs). */
  lemma ArmedErrorFiresAtThreshold(s: SpiState, txs: seq<seq<Byte>>, tx: seq<Byte>)
    requires s.error.Some?
    requires Total(txs) <= s.errorAfterBytes < Total(txs) + |tx|
    ensures forall j :: 0 <= j < |txs| ==> Replayed(s, txs).results[j] == Ok(())
    ensures var step := Transferred(Replayed(s, txs).state, tx);
      step.result == Err(s.error.value) &&
      Replayed(s, txs).state.errorAfterBytes == s.errorAfterBytes - Total(txs) &&
      step.buffer[s.errorAfterBytes - Total(txs)..] == tx[s.errorAfterBytes - Total(txs)..]
  {
    DeferralCountsDown(s, txs);
  }

  /** The scenario of the `test` binary, on the device alone: echo generator,
      `Transfer` armed and deferred by 33 bytes. A 32-byte transfer echoes its
      input and leaves the counter at 1; a 1-byte transfer succeeds and leaves it
      at 0; the next 1-byte transfer fails at index 0 and disarms; any further
      transfer succeeds. */
  lemma DeferredErrorScenario(x: seq<Byte>, later: seq<Byte>)
    requires |x| == 32
    ensures var s0 := SpiState(Some(Echo), None, Some(Transfer), 33);
      var t1 := Transferred(s0, x);
      var t2 := Transferred(t1.state, [1]);
      var t3 := Transferred(t2.state, [2]);
      var t4 := Transferred(t3.state, later);
      t1.result == Ok(()) && t1.buffer == x && t1.state.errorAfterBytes == 1 &&
      t2.result == Ok(()) && t2.buffer == [1] && t2.state.errorAfterBytes == 0 &&
      t3.result == Err(Transfer) && t3.buffer == [2] && t3.state.error == None &&
      t4.result == Ok(())
  {
    var s0 := SpiState(Some(Echo), None, Some(Transfer), 33);
    var t1 := Transferred(s0, x);
    assert t1.buffer == x;
  }

  // ---------------------------------------------------------------------------
  // The shared device and its two handles

  /** The state shared by a `MockSpi` and an `SpiControl`. */
  class MockSpiDevice {
    const opts: Shared<SpiOpts>
    var generator: Option<Generator>
    var byteDelay: Option<nat>
    var error: Option<SpiError>
    var errorAfterBytes: nat
    /** Every buffer presented to `Transfer`, as sent, in call order. */
    ghost var transfers: seq<seq<Byte>>

    function State(): SpiState
      reads this
    {
      SpiState(generator, byteDelay, error, errorAfterBytes)
    }

    /** A new device has no generator, no delay, no armed error and counter 0. */
    constructor (opts: Shared<SpiOpts>)
      ensures this.opts == opts
      ensures State() == SpiState(None, None, None, 0) && transfers == []
    {
      this.opts := opts;
      generator, byteDelay, error, errorAfterBytes := None, None, None, 0;
      transfers := [];
    }

    /** Rewrites words in place from the generator's response, firing the armed
        error when the counter equals the index about to be written. */
    method Transfer(words: array<Byte>) returns (r: Result<array<Byte>, SpiError>)
      modifies this, words
      ensures Transfers(this, words, r)
    {
      transfers := transfers + [words[..]];
      ghost var s0 := State();
      ghost var tx := words[..];
      var rx := match generator case Some(g) => g(words[..]) case None => [];
      assert rx == Response(s0, tx);
      var i := 0;
      while i < words.Length
        invariant 0 <= i <= words.Length
        invariant State() == s0 && transfers == old(transfers) + [tx]
        invariant error.Some? ==> i <= errorAfterBytes
        invariant forall j :: 0 <= j < i ==> words[j] == ResponseByte(rx, j)
        invariant forall j :: i <= j < words.Length ==> words[j] == tx[j]
      {
        if error.Some? && errorAfterBytes == i {
          errorAfterBytes := 0;
          var e := error.value;
          error := None;
          assert words[..] == Transferred(s0, tx).buffer;
          return Err(e);
        }
        words[i] := ResponseByte(rx, i);
        // The optional per-byte sleep happens here; it changes nothing observable.
        i := i + 1;
      }
      errorAfterBytes := SaturatingSub(errorAfterBytes, words.Length);
      assert words[..] == Transferred(s0, tx).buffer;
      return Ok(words);
    }
  }

  /** dev has just performed one transfer of words as Transferred prescribes,
      returning r: the same buffer on success, the armed error on failure. */
  twostate predicate Transfers(dev: MockSpiDevice, words: array<Byte>, new r: Result<array<Byte>, SpiError>)
    reads dev, words
  {
    var step := Transferred(old(dev.State()), old(words[..]));
    words[..] == step.buffer && dev.State() == step.state && Status(r) == step.result &&
    (r.Ok? ==> r.value == words) &&
    dev.transfers == old(dev.transfers) + [old(words[..])]
  }

  /** The device handle: `Transfer<u8>` for the shared device. */
  class MockSpi {
    const dev: MockSpiDevice

    constructor (dev: MockSpiDevice)
      ensures this.dev == dev
    {
      this.dev := dev;
    }

    /** Exactly the shared device's transfer, so any change made through the
        control handle is seen by the next transfer. */
    method Transfer(words: array<Byte>) returns (r: Result<array<Byte>, SpiError>)
      modifies dev, words
      ensures Transfers(dev, words, r)
    {
      r := dev.Transfer(words);
    }
  }

  /** The control handle: setters on the shared device that bypass the transfer
      path. Each changes only its own field. */
  class SpiControl {
    const spi: MockSpiDevice

    constructor (spi: MockSpiDevice)
      ensures this.spi == spi
    {
      this.spi := spi;
    }

    method SetLog(log: bool)
      modifies spi.opts
      ensures spi.opts.value == old(spi.opts.value).(log := log)
    {
      spi.opts.value := spi.opts.value.(log := log);
    }

    method SetLogBytes(bytes: bool)
      modifies spi.opts
      ensures spi.opts.value == old(spi.opts.value).(bytes := bytes)
    {
      spi.opts.value := spi.opts.value.(bytes := bytes);
    }

    /** `set_generator` and `set_boxed_generator` alike. */
    method SetGenerator(generator: Generator)
      modifies spi
      ensures spi.State() == old(spi.State()).(generator := Some(generator))
      ensures spi.transfers == old(spi.transfers)
    {
      spi.generator := Some(generator);
    }

    method ClearGenerator()
      modifies spi
      ensures spi.State() == old(spi.State()).(generator := None)
      ensures spi.transfers == old(spi.transfers)
    {
      spi.generator := None;
    }

    method SetByteDelay(duration: nat)
      modifies spi
      ensures spi.State() == old(spi.State()).(byteDelay := Some(duration))
      ensures spi.transfers == old(spi.transfers)
    {
      spi.byteDelay := Some(duration);
    }

    method ClearByteDelay()
      modifies spi
      ensures spi.State() == old(spi.State()).(byteDelay := None)
      ensures spi.transfers == old(spi.transfers)
    {
      spi.byteDelay := None;
    }

    /** Arms error; it fires at the next byte index equal to the counter. */
    method SetError(error: SpiError)
      modifies spi
      ensures spi.State() == old(spi.State()).(error := Some(error))
      ensures spi.transfers == old(spi.transfers)
    {
      spi.error := Some(error);
    }

    /** Sets the counter only; arms nothing. */
    method SetErrorDeferBytes(defer: nat)
      modifies spi
      ensures spi.State() == old(spi.State()).(errorAfterBytes := defer)
      ensures spi.transfers == old(spi.transfers)
    {
      spi.errorAfterBytes := defer;
    }

    /** Disarms the error; the counter is left as it is. */
    method ClearError()
      modifies spi
      ensures spi.State() == old(spi.State()).(error := None)
      ensures spi.transfers == old(spi.transfers)
    {
      spi.error := None;
    }
  }
}
