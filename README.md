# rpio-utils: chip-select transport, mock peripherals and logging intercepts

This project models three parts of `rpio-utils`, a Rust crate for talking to SPI
peripherals from a Raspberry Pi or an RP2040, and proves properties of them:

- **The chip-select transport.** It owns an SPI device, an output pin used as
  chip select, and a polarity. A `transfer` does three things:
  - drives the pin to the select level for the polarity (low when the line
    idles high, high when it idles low);
  - exchanges the bytes;
  - drives the pin back to the idle level.

  Pin failures become `ChipSelect` or `ChipDeselect`, and SPI failures become
  `Transfer`. Construction drives the line to idle once, ignoring the outcome.
- **The mock SPI device and the mock output pin.** Each has two handles onto
  one shared device:
  - a device handle implements the device operation;
  - a control handle sets the device's fields directly.

  The SPI device rewrites the caller's buffer in place from a generator's
  response. It can be armed with a one-shot error, deferred by a byte counter
  that counts down across transfers. The pin holds a level and can be armed with
  a one-shot error for one drive direction.
- **The logging intercepts.** These decorators forward each call once and
  return the inner result unchanged. What they print is decided by shared
  options. The SPI intercept can also print a hex dump of the Tx and Rx bytes,
  sixteen per row.

Layout, one module per file:
- `common.dfy` holds bytes, options and results. It also holds `Shared<T>`,
  the one cell behind `Rc<RefCell<T>>`.
- `spi_log.dfy` and `pin_log.dfy` hold the intercept options, the pure
  formatting (`printable_bytes`, the rows of `print_summary`) and the log events.
- `spi_mock.dfy` and `pin_mock.dfy` hold the engines.
- `spi_intercept.dfy` and `pin_intercept.dfy` hold the decorators.
- `mock_builders.dfy` holds the builders whose `init` wires a device, its
  intercept and its control handle together.
- `transport.dfy` holds the transport.
- `scenario.dfy` holds the crate's demonstration binary.

The options live apart from the intercept classes. In the source only the
mock modules import their intercepts (`dev/spi/mock.rs:1`,
`dev/output/mock.rs:1`). In the model the intercept classes also wrap the mock
handles, so keeping the options in the same module would make the two modules
import each other.

Each engine is specified by a closed-form function of its state and input:
- `SpiMock.Transferred` gives one SPI transfer;
- `PinMock.LevelDriven` gives one drive of the pin;
- `ChipSelectTransport.Protocol` gives one transport transfer, over any pin
  and any SPI engine.

The classes' methods are proved to update their fields exactly as those
functions say. The lemmas prove what the source promises about the functions.

The source has duplicate copies, each modelled once:
- `dev/output/{mock,intercept}.rs` and `dev/output_pin/{mock,intercept}.rs`
  implement the same pin behind the same `embedded_hal::digital::v2::OutputPin`
  trait, which the `output_pin/` copy renames on import to `HalOutputPin`
  (`output_pin/mock.rs:5`, `output_pin/intercept.rs:1`). The rows
  below cite the `output/` copy. The copies differ in these ways:
  - The `PinControl` setters of `output/mock.rs:86-113` take `&self` and
    return `&Self`, so they chain. Those of `output_pin/mock.rs:78-96` take
    `&mut self` and return `()`. The model's setters return nothing, and each
    changes the same field in both copies.
  - `output_pin/mock.rs:1-5` imports `PinError` from a separate `error`
    module, which is not part of this model. `output/mock.rs:33-38` declares it
    in place with the variants `SetHigh` and `SetLow`. The model uses those
    two, the only ones the `output_pin/` code names.
  - The `output_pin/` copy makes its constructors `pub`, and its builder is
    declared with the `mock =>` form of the `builder!` macro.
  - The bodies of `set_value_unless`, `set_high`, `set_low`, `get_value` and
    both intercepts are the same statement for statement.
- `transport/cs.rs` and `transport/hal/cs.rs` share `new`, `transfer`,
  `select`, `deselect` and the exchange. They differ in these ways:
  - the trait names (`ChipSelect` in `cs.rs:41`, `SpiDev` in `hal/cs.rs:31`);
  - `exchange_bytes` versus `raw_transfer`;
  - `is_chip_select`, which only `hal/cs.rs:32-34` has;
  - the empty `ByteTransport` impl, which only `cs.rs:39` has, and the empty
    `ChipSelect` impl, which only `hal/cs.rs:57` has;
  - the `ClockSpeed` impl for the `rppal` device, which only `cs.rs:63-68`
    has. It is left out, as the Left out section says.

Three points the model settles from the code alone:
- The error type has four variants (`transport/error.rs:2-7`): `Transfer`,
  `ChipSelect`, `ChipDeselect` and `ClockSpeed`. There is no `NotImplemented`.
- When an exchange fails and the clean-up deselect fails too, which error is
  reported is decided by the `*_or_deselect` helper in `transport/common`.
  That helper is not part of this model, and its trait method is only declared
  (`transport/traits.rs:8`). The `DoubleFault` parameter of the transport stands
  for that choice. Every property proved holds under either choice.
- `bin/test.rs:20-22` chains `set_error(...).set_error_defer_bytes(33)`, but the
  `SpiControl` setters in `dev/spi/mock.rs:148-156` return nothing, so the
  chain does not type-check. The scenario makes the two calls one after the other.

## Model

| member | source | states |
|---|---|---|
| `SpiLog.OptionDefaults` | src/dev/spi/intercept.rs:57-71 | `SpiOpts::new()` logs events and not bytes; the derived default logs neither |
| `SpiLog.HexPair` | src/dev/spi/intercept.rs:90 | each byte is printed as exactly two characters |
| `SpiLog.HexPairReadsBack` | src/dev/spi/intercept.rs:90 | each byte is printed as two hexadecimal digits, high nibble first, that read back as the byte |
| `SpiLog.PrintableBytes` | src/dev/spi/intercept.rs:87-93 | the printed text of n bytes has length 3n-1, or 0 for no bytes |
| `SpiLog.PrintableBytesLayout` | src/dev/spi/intercept.rs:87-93 | byte i occupies columns 3i and 3i+1, and a single space follows every byte but the last |
| `SpiLog.PrintableBytesInjective` | src/dev/spi/intercept.rs:87-93 | different byte strings never print the same text |
| `SpiLog.Chunks` | src/dev/spi/intercept.rs:96 | `chunks(16)` yields ceil(n/16) consecutive slices of at most 16 bytes that together make up the input |
| `SpiLog.SummaryRowAt` | src/dev/spi/intercept.rs:95-101 | row c runs from 16c to min(16c+16, \|tx\|); it prints exactly those Tx bytes and the Rx bytes at the same offsets |
| `SpiLog.SummaryRowsTile` | src/dev/spi/intercept.rs:95-101 | there are as many rows as chunks of the shorter side; rows are contiguous; when Rx is at least as long as Tx they cover all of Tx |
| `SpiLog.SummaryRows` | src/dev/spi/intercept.rs:95-101 | one row per pair of zipped Tx and Rx chunks, so as many as the smaller chunk count; row c starts at offset 16c |
| `SpiLog.TransferEvents` | src/dev/spi/intercept.rs:31-54 | nothing is logged without the log flag; otherwise the first event is the start with the length and the last is completion or failure; there are three events, the byte dump of Tx against Rx second, when the byte flag is set and the transfer succeeded, and two otherwise |
| `PinLog.PinOptionDefaults` | src/dev/output/intercept.rs:52-62 | `PinOpts::new()` logs and the derived default does not (same in `output_pin/intercept.rs:53-63`) |
| `PinLog.DriveEvents` | src/dev/output/intercept.rs:25-49 | exactly one event when logging and none otherwise; its direction is the level driven, and it reports a failure exactly when the drive failed |
| `SpiMock.TransferContract` | src/dev/spi/mock.rs:75-97 | a transfer fails exactly when an error is armed and the counter k is below the length. On failure it returns that error, rewrites only bytes before k from the response, keeps the rest as sent, disarms and resets the counter. On success every byte is the response byte or 0x00 past its end, the armed error stays, and the counter drops by the length, saturating at 0 |
| `SpiMock.Transferred` | src/dev/spi/mock.rs:75-97 | the buffer keeps the length of what was sent; the generator and the delay never change; the transfer fails exactly when the armed error fires within its length (`FaultsWithin`) |
| `SpiMock.ByteDelayIrrelevant` | src/dev/spi/mock.rs:89-91 | the per-byte delay changes neither the buffer, nor the result, nor any other field |
| `SpiMock.NoGeneratorZeroFills` | src/dev/spi/mock.rs:76-87 | without a generator the rewritten bytes are all 0x00 |
| `SpiMock.EmptyTransferIsNoOp` | src/dev/spi/mock.rs:81-96 | a zero-length transfer succeeds and changes no state, even with an error armed at counter 0 |
| `SpiMock.FiresOnce` | src/dev/spi/mock.rs:82-85 | after the armed error fires, the next transfer succeeds |
| `SpiMock.DeferralCountsDown` | src/dev/spi/mock.rs:81-94 | while the bytes sent stay within the counter, every transfer succeeds, the error stays armed, and the counter falls by exactly the bytes sent |
| `SpiMock.ArmedErrorFiresAtThreshold` | src/dev/spi/mock.rs:81-94 | an error deferred by c bytes fires at cumulative byte c, counted across calls, at local index c minus the bytes already sent; the bytes from there on are left as sent |
| `SpiMock.DeferredErrorScenario` | src/bin/test.rs:6-26 | echo generator, error deferred by 33: 32 bytes echo and leave 1; `[1]` succeeds and leaves 0; `[2]` fails with `Transfer` and disarms; the next transfer succeeds |
| `SpiMock.MockSpiDevice.constructor` | src/dev/spi/mock.rs:61-69 | a new device has no generator, no delay, no armed error, and counter 0 |
| `SpiMock.MockSpiDevice.Transfer` | src/dev/spi/mock.rs:75-97 | the byte loop rewrites the caller's array and updates the fields exactly as `Transferred` prescribes, and returns the same array on success |
| `SpiMock.MockSpi.constructor` | src/dev/spi/mock.rs:32-34 | the device handle refers to the shared device |
| `SpiMock.MockSpi.Transfer` | src/dev/spi/mock.rs:39-41 | the handle is exactly the shared device's transfer, so control-handle changes are seen by the next transfer |
| `SpiMock.SpiControl.constructor` | src/dev/spi/mock.rs:107-109 | the control handle refers to the shared device |
| `SpiMock.SpiControl.SetLog` | src/dev/spi/mock.rs:112-114 | sets only the shared log flag |
| `SpiMock.SpiControl.SetLogBytes` | src/dev/spi/mock.rs:117-119 | sets only the shared byte-dump flag |
| `SpiMock.SpiControl.SetGenerator` | src/dev/spi/mock.rs:122-129 | installs the generator and changes no other field (`set_generator` and `set_boxed_generator`) |
| `SpiMock.SpiControl.ClearGenerator` | src/dev/spi/mock.rs:132-134 | removes the generator only |
| `SpiMock.SpiControl.SetByteDelay` | src/dev/spi/mock.rs:137-139 | sets the delay only |
| `SpiMock.SpiControl.ClearByteDelay` | src/dev/spi/mock.rs:142-144 | clears the delay only |
| `SpiMock.SpiControl.SetError` | src/dev/spi/mock.rs:148-150 | arms the error only; the counter is untouched |
| `SpiMock.SpiControl.SetErrorDeferBytes` | src/dev/spi/mock.rs:154-156 | sets the counter only; arms nothing |
| `SpiMock.SpiControl.ClearError` | src/dev/spi/mock.rs:159-161 | disarms the error without touching the counter |
| `PinMock.DelayIrrelevant` | src/dev/output/mock.rs:59-71 | the delay only sleeps: a drive with any other delay has the same result and leaves the same level and armed error (same in `output_pin/mock.rs:53-65`) |
| `PinMock.Driven` | src/dev/output/mock.rs:59-71 | fails exactly when the armed error equals `unless`; a failure returns it, keeps the level and disarms; a success sets the level and keeps the armed error; the delay is untouched |
| `PinMock.LevelDriven` | src/dev/output/mock.rs:20-30 | a drive fails exactly when the guard of its own direction is armed, and a success leaves the pin at the requested level; the effects of failure and success are those `Driven` states, with that guard |
| `PinMock.OneShot` | src/dev/output/mock.rs:65 | right after a drive fails, the same drive succeeds |
| `PinMock.OtherDirectionNeverConsumes` | src/dev/output_pin/mock.rs:58-63 | an error armed for one direction is neither triggered nor consumed by any number of drives in the other direction |
| `PinMock.LevelIsLastSuccess` | src/dev/output/mock.rs:59-71 | after any sequence of drives the level is that of the last successful drive; this is what `get_value` reports |
| `PinMock.LevelUnchangedWithoutSuccess` | src/dev/output/mock.rs:59-71 | when no drive of a sequence succeeds, the level is the initial one |
| `PinMock.DirectionScopedScenario` | src/dev/output/mock.rs:64-69 | with `SetHigh` armed: `set_low` succeeds, the next `set_high` fails and disarms, and a further `set_high` succeeds |
| `PinMock.MockPinDevice.constructor` | src/dev/output/mock.rs:50-57 | a new pin is high, with no delay and no armed error (same in `output_pin/mock.rs:44-51`) |
| `PinMock.MockPinDevice.SetValueUnless` | src/dev/output/mock.rs:59-71 | updates the level and the armed error as `Driven` prescribes and returns its result |
| `PinMock.MockPin.constructor` | src/dev/output/mock.rs:12-14 | the device handle refers to the shared device |
| `PinMock.MockPin.SetHigh` | src/dev/output/mock.rs:20-24 | drives to true, guarded by `SetHigh` |
| `PinMock.MockPin.SetLow` | src/dev/output/mock.rs:26-30 | drives to false, guarded by `SetLow` |
| `PinMock.PinControl.constructor` | src/dev/output/mock.rs:81-83 | the control handle refers to the shared device |
| `PinMock.PinControl.SetLog` | src/dev/output/mock.rs:86-89 | sets only the shared log flag |
| `PinMock.PinControl.SetDelay` | src/dev/output/mock.rs:92-95 | sets the delay only |
| `PinMock.PinControl.ClearDelay` | src/dev/output/mock.rs:98-101 | clears the delay only |
| `PinMock.PinControl.SetError` | src/dev/output/mock.rs:104-107 | arms the error only |
| `PinMock.PinControl.ClearError` | src/dev/output/mock.rs:110-113 | disarms the error only |
| `PinMock.PinControl.GetValue` | src/dev/output/mock.rs:116-118 | returns the shared device's current level |
| `SpiIntercept.Spi.constructor` | src/dev/spi/intercept.rs:13-15 | keeps the name, the inner device and the shared options; nothing has been logged |
| `SpiIntercept.Spi.SetLog` | src/dev/spi/intercept.rs:18-20 | sets only the shared log flag |
| `SpiIntercept.Spi.SetLogBytes` | src/dev/spi/intercept.rs:23-25 | sets only the shared byte-dump flag |
| `SpiIntercept.Spi.Transfer` | src/dev/spi/intercept.rs:31-54 | forwards once to the inner device on the caller's buffer and returns its result unchanged, logging on or off; it reads the options once and leaves them unchanged; it logs a start event, then either the byte dump of Tx against the returned buffer (if enabled) and a completion event, or a failure event |
| `SpiIntercept.InterceptTransfer` | src/dev/spi/intercept.rs:28-54 | for any inner device, given as a state-passing function: its new state, buffer and outcome pass through unchanged, and the events are `TransferEvents` of them, none when logging is off |
| `SpiIntercept.MockIntercepted` | src/dev/spi/intercept.rs:28-54 | over the mock engine the generic decorator yields the engine's step and its `TransferEvents`, which is what `Spi.Transfer` promises |
| `SpiIntercept.InterceptBuilder.Init` | src/dev/spi/intercept.rs:82-84 | wraps the caller's device with a fresh options cell holding the builder's options |
| `SpiIntercept.InterceptBuilderOptions` | src/dev/spi/intercept.rs:64-80 | a new intercept builder logs events and not bytes; `with_byte_log` sets both flags; `without_log` clears only the event flag |
| `PinIntercept.Pin.constructor` | src/dev/output/intercept.rs:12-14 | keeps the name, the inner pin and the shared options; nothing has been logged |
| `PinIntercept.Pin.SetLog` | src/dev/output/intercept.rs:17-19 | sets only the shared log flag |
| `PinIntercept.Pin.SetHigh` | src/dev/output/intercept.rs:25-35 | forwards once and returns the inner result unchanged, logging one event only when the flag is set (same in `output_pin/intercept.rs:26-36`) |
| `PinIntercept.Pin.SetLow` | src/dev/output/intercept.rs:37-49 | forwards once in either branch and returns the inner result unchanged; the options are not modified (same in `output_pin/intercept.rs:38-50`) |
| `PinIntercept.InterceptDrive` | src/dev/output/intercept.rs:22-50 | for any inner pin, given as a state-passing function: its new state and outcome pass through unchanged, and the events are `DriveEvents`, one when logging and none otherwise |
| `PinIntercept.MockIntercepted` | src/dev/output/intercept.rs:22-50 | over the mock pin the generic decorator yields `LevelDriven` and the one-drive `DriveTrace` |
| `PinIntercept.DriveTrace` | src/dev/output/intercept.rs:25-49 | over a sequence of drives the intercept logs one event per drive when logging, none otherwise |
| `SpiIntercept.ExchangeTrace` | src/dev/spi/intercept.rs:31-54 | over a sequence of transfers of the mock engine the intercept logs nothing exactly when logging is off or there is no transfer |
| `PinIntercept.InterceptBuilder.Init` | src/dev/output/intercept.rs:67-69 | wraps the caller's pin with a fresh options cell holding the builder's options |
| `PinIntercept.InterceptBuilderOptions` | src/dev/output/intercept.rs:58-62 | a new pin intercept builder logs; `without_log` turns that off |
| `MockBuilders.SpiBuilderOptions` | src/dev/spi/mock.rs:164-193 | a new SPI mock builder logs events and not bytes, with no delay and no generator; each `with_*` sets its own field and nothing else |
| `MockBuilders.SpiMockBuilder.Init` | src/dev/spi/mock.rs:196-211 | the intercept, the device and the control handle share one fresh device and one options cell; the device starts with the builder's generator and delay, nothing armed, counter 0 |
| `MockBuilders.PinBuilderOptions` | src/dev/output/mock.rs:121-130 | a new pin mock builder logs and has no delay; `with_delay` and `without_log` set their own field only |
| `MockBuilders.PinMockBuilder.Init` | src/dev/output/mock.rs:133-144 | the intercept, the pin and the control handle share one fresh high, unarmed pin with the builder's delay |
| `ChipSelectTransport.PolarityLevels` | src/transport/cs.rs:42-56 | select and deselect drive opposite levels: low then high under `IdleHigh`, high then low under `IdleLow` |
| `ChipSelectTransport.IdleLevel` | src/transport/cs.rs:50-56 | the idle level is high exactly under `IdleHigh` |
| `ChipSelectTransport.SelectLevel` | src/transport/cs.rs:42-48 | the select level is the opposite of the idle level |
| `ChipSelectTransport.ExchangeFailure` | src/transport/cs.rs:34 | a failed exchange reports `Transfer` or `ChipDeselect`: always `Transfer` when the deselect worked, and `ChipDeselect` only on a double fault under `ReportsDeselect` |
| `ChipSelectTransport.Protocol` | src/transport/cs.rs:32-36 | for any pin and SPI device: one call or three, the first always the select drive; `ChipSelect` exactly when the select fails; success only after select, exchange and deselect in this order; never `ClockSpeed` |
| `ChipSelectTransport.SelectFailureShortCircuits` | src/transport/cs.rs:33-34 | a failed select gives `ChipSelect` whatever the pin's error; the SPI device is never called and the buffer is as sent; the pin was driven once |
| `ChipSelectTransport.SelectedTransferIsBracketed` | src/transport/cs.rs:32-36 | after a good select the devices see select, exchange, deselect, in this order; the buffer is what the exchange returned; success exactly when exchange and deselect both succeed |
| `ChipSelectTransport.SuccessNeedsAllThree` | src/transport/cs.rs:33-35 | a transfer succeeds if and only if select, exchange and deselect all succeed |
| `ChipSelectTransport.ExchangeFailureDeselects` | src/transport/cs.rs:34 | a failed exchange is always an error and is followed by a deselect; it reports `Transfer` when the deselect works, and `Transfer` or `ChipDeselect` on a double fault |
| `ChipSelectTransport.DeselectFailureAfterExchange` | src/transport/cs.rs:35 | a failed final deselect after a good exchange gives `ChipDeselect`, with the buffer already overwritten |
| `ChipSelectTransport.MockTransferSucceeds` | src/transport/cs.rs:32-36 | over unarmed mocks a transfer succeeds, returns the engine's response byte by byte and leaves the line idle |
| `ChipSelectTransport.MockSelectFails` | src/transport/cs.rs:42-48 | a pin armed against the select level gives `ChipSelect` and leaves the SPI engine, its deferral counter included, and the buffer untouched |
| `ChipSelectTransport.MockDeselectFails` | src/transport/cs.rs:50-56 | a pin armed against the idle level gives `ChipDeselect` after a full exchange; the line stays selected |
| `ChipSelectTransport.MockExchangeFails` | src/transport/cs.rs:58-60 | an SPI fault with an unarmed pin gives `Transfer` and still returns the line to idle |
| `ChipSelectTransport.ConstructionIdlesFreshPin` | src/transport/cs.rs:21-26 | construction leaves an unarmed pin at the idle level, so a fresh pin goes low under `IdleLow` |
| `ChipSelectTransport.MockRunSteps` | src/transport/cs.rs:32-36 | a mock transfer step by step: a failed select leaves the engine and the buffer alone; otherwise the engine transfers once, the pin is deselected once, and the result is the first failure of the three |
| `ChipSelectTransport.MockRunLogs` | src/transport/cs.rs:32-36 | the drives of a mock transfer are the select level alone or the select then the idle level; its exchanges are none or the one sent; the pin intercept logs the drives one by one, and the SPI intercept nothing or the events of that one transfer |
| `ChipSelectTransport.Transport.constructor` | src/transport/hal/cs.rs:13-18 | always builds the transport and drives the line to idle exactly once, ignoring the result; the pin logs that one drive and its intercept logs its event (same in `cs.rs:21-26`) |
| `ChipSelectTransport.Transport.IsChipSelect` | src/transport/hal/cs.rs:32-34 | always true |
| `ChipSelectTransport.Transport.Select` | src/transport/cs.rs:42-48 | drives the select level for the polarity once; any pin error becomes `ChipSelect`; the pin's call log and the intercept's events grow by that one drive |
| `ChipSelectTransport.Transport.Deselect` | src/transport/hal/cs.rs:44-50 | drives the idle level for the polarity once; any pin error becomes `ChipDeselect`; the pin's call log and the intercept's events grow by that one drive (same in `cs.rs:50-56`) |
| `ChipSelectTransport.Transport.ExchangeBytes` | src/transport/cs.rs:58-60 | one SPI transfer of the caller's buffer, logged by the device and the intercept; any SPI error becomes `Transfer` (`raw_transfer` in `hal/cs.rs:52-54`) |
| `ChipSelectTransport.Transport.ExchangeBytesOrDeselect` | src/transport/traits.rs:8 | exchanges; on failure it deselects and reports `Transfer`, or on a double fault what the policy names |
| `ChipSelectTransport.Transport.ExchangeThenDeselect` | src/transport/cs.rs:34-35 | after a good select: exactly one exchange and then exactly one deselect, whether or not the exchange failed; the result is the exchange failure, else the deselect failure, else success |
| `ChipSelectTransport.Transport.Transfer` | src/transport/cs.rs:32-36 | the pin's and the engine's new states, the buffer, the result and the call order are exactly those of `MockRun`; the pin device logs exactly the run's drives and the SPI device exactly its exchange, and each intercept logs the events of those calls (same in `hal/cs.rs:24-28`) |
| `Scenario.DemoRuns` | src/bin/test.rs:6-26 | the transport over the demo's mocks: the 32-byte frame and `[1]` succeed with the counter going 33, 1, 0; `[2]` fails with `Transfer` and the line ends high |
| `Scenario.TransferFrame` | src/bin/test.rs:24-26 | one transport transfer of a literal frame, as `MockRun` prescribes |
| `Scenario.DeferredErrorDemo` | src/bin/test.rs:5-27 | the demo end to end: builders, transport, error armed with a 33-byte deferral, then three transfers giving Ok with the frame echoed, Ok, and `Transfer` |

## Left out

- Sleeps: `thread::sleep` for byte and pin delays is left out. The delay is kept as an inert field. It is proved not to affect any outcome, for the pin (`PinMock.DelayIrrelevant`) and for the SPI device (`SpiMock.ByteDelayIrrelevant`).
- Printed text: the text written by `println!` in the intercepts is left out. The model keeps only an abstract event trace, plus the exact hex text of `printable_bytes` and the row ranges of the byte dump.
- Error messages: the `Display` strings of `transport/error.rs` are not modelled.
- Platform drivers: `transport/rppal`, `transport/rp2040` and `set_clock_speed` are not part of this model. They wrap external hardware crates (`rppal`, `rp2040-hal`). The `ClockSpeed` variant exists but nothing produces it.
- Auto transports: `transport/auto.rs` and `transport/hal/auto.rs` are not part of this model. They are one-line forwarders to the SPI device.
- Transport builders: `transport/builder.rs` and the `build.rs` files are left out, except for the default polarity, `IdleHigh`, which the scenario uses. The `Mock`/`Intercept` entry points of `dev/builder.rs` are the `New*Builder` functions. The derived `Default` of the builders is not modelled.
- Generic devices: the `Transport` class is built on the logging mock devices only, as the demo uses it. Its protocol is proved for any pin and SPI engine through `Protocol`.
- `SpiIntercept.Spi.Transfer`: the class wraps the mock SPI handle only, where `Spi<S: Transfer<u8>>` wraps any device. The generic decorator is `SpiIntercept.InterceptTransfer`, a function over any state-passing inner transfer. Its contract proves it transparent: it returns the inner outcome unchanged and logs `TransferEvents`.
- `PinIntercept.Pin.SetHigh`: the class wraps the mock pin handle only, where `Pin<P: OutputPin>` wraps any pin. The generic decorator is `PinIntercept.InterceptDrive`, proved transparent in the same way and logging `DriveEvents`.
- `PinIntercept.Pin.SetLow`: the same as `SetHigh`; `PinIntercept.InterceptDrive` with level false is the generic form.
- `ChipSelectTransport.Transport.ExchangeBytesOrDeselect`: the helper's body, in `transport/common`, is not part of this model. After an exchange fails with a working deselect, the model reports `Transfer`. On a double fault it reports what the `DoubleFault` parameter names, so no claim is made about which error surfaces there.
- Integer width: the deferral counter is a `nat`, not a `usize`. Saturating subtraction is modelled; counts at the top of `usize` are not.
- Borrow panics: a nested `borrow_mut` of the same `RefCell` panics at run time. No call path in the core does this, and the model does not represent it.
- Generators: they are pure functions of the outgoing bytes. A closure with side effects is not modelled.
- Source buffer after a fault: the mock returns `Err` without handing the buffer back. In the model the caller's array simply keeps its partially rewritten contents.
