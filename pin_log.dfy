/** The logging option of the output pin intercept and the events it logs. */
module PinLog {

  /** Whether the intercept prints an event for every pin operation. Copied by
      value; shared through a `Shared<PinOpts>`. */
  datatype PinOpts = PinOpts(log: bool)

  /** `PinOpts::new()`. */
  function NewPinOpts(): PinOpts
  {
    PinOpts(log := true)
  }

  /** The derived `Default` of `PinOpts`. */
  function DefaultPinOpts(): PinOpts
  {
    PinOpts(log := false)
  }

  lemma PinOptionDefaults()
    ensures NewPinOpts().log && !DefaultPinOpts().log
  {
  }

  /** What the intercept prints for one operation, without the text of the line. */
  datatype PinEvent = WentHigh | NotSetHigh | WentLow | NotSetLow

  /** The events one intercepted drive to level emits under options `o`:
      nothing when logging is off, otherwise one event saying whether the pin
      went to that level. */
  function DriveEvents(o: PinOpts, level: bool, failed: bool): (ev: seq<PinEvent>)
    ensures |ev| == (if o.log then 1 else 0)
    ensures o.log ==> ((ev[0].WentHigh? || ev[0].NotSetHigh?) <==> level)
    ensures o.log ==> ((ev[0].NotSetHigh? || ev[0].NotSetLow?) <==> failed)
  {
    if !o.log then []
    else if level then [if failed then NotSetHigh else WentHigh]
    else [if failed then NotSetLow else WentLow]
  }
}
