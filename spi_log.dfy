/** The logging options of the SPI intercept and the pure formatting behind
    its byte dump: `printable_bytes` and the row ranges of `print_summary`. */
module SpiLog {
  import opened Common

  /** Whether events are logged at all, and whether Tx/Rx bytes are dumped after
      a successful transfer. Copied by value; shared through a `Shared<SpiOpts>`. */
  datatype SpiOpts = SpiOpts(log: bool, bytes: bool)

  /** `SpiOpts::new()`. */
  function NewSpiOpts(): SpiOpts
  {
    SpiOpts(log := true, bytes := false)
  }

  /** The derived `Default` of `SpiOpts`. */
  function DefaultSpiOpts(): SpiOpts
  {
    SpiOpts(log := false, bytes := false)
  }

  lemma OptionDefaults()
    ensures NewSpiOpts().log && !NewSpiOpts().bytes
    ensures !DefaultSpiOpts().log && !DefaultSpiOpts().bytes
  {
  }

  // ---------------------------------------------------------------------------
  // printable_bytes

  const HexDigits: string := "0123456789abcdef"

  /** `format!("{:02x}", b)`: two lower-case hexadecimal digits, high nibble first. */
  function HexPair(b: Byte): (s: string)
    ensures |s| == 2
  {
    [HexDigits[b as int / 16], HexDigits[b as int % 16]]
  }

  /** The value of a lower-case hexadecimal digit, or -1 for any other character;
      an independent reading of the text HexPair writes. */
  function HexValue(c: char): int
  {
    if '0' <= c <= '9' then c as int - '0' as int
    else if 'a' <= c <= 'f' then c as int - 'a' as int + 10
    else -1
  }

  lemma HexDigitValue(d: int)
    requires 0 <= d < 16
    ensures HexValue(HexDigits[d]) == d
  {
  }

  /** The two characters of HexPair(b) are hexadecimal digits that read back as b. */
  lemma HexPairReadsBack(b: Byte)
    ensures |HexPair(b)| == 2
    ensures 0 <= HexValue(HexPair(b)[0]) < 16 && 0 <= HexValue(HexPair(b)[1]) < 16
    ensures HexValue(HexPair(b)[0]) * 16 + HexValue(HexPair(b)[1]) == b as int
  {
    HexDigitValue(b as int / 16);
    HexDigitValue(b as int % 16);
  }

  /** Each byte as two hex digits, joined by single spaces. */
  function PrintableBytes(bytes: seq<Byte>): (s: string)
    ensures |s| == if |bytes| == 0 then 0 else 3 * |bytes| - 1
  {
    if |bytes| == 0 then ""
    else if |bytes| == 1 then HexPair(bytes[0])
    else HexPair(bytes[0]) + " " + PrintableBytes(bytes[1..])
  }

  /** Byte i of the input is printed at columns 3i and 3i+1, and a single space
      separates it from the next byte. */
  lemma {:induction false} PrintableBytesLayout(bytes: seq<Byte>, i: nat)
    requires i < |bytes|
    ensures 3 * i + 2 <= |PrintableBytes(bytes)|
    ensures PrintableBytes(bytes)[3 * i..3 * i + 2] == HexPair(bytes[i])
    ensures i + 1 < |bytes| ==> PrintableBytes(bytes)[3 * i + 2] == ' '
  {
    if i > 0 {
      PrintableBytesLayout(bytes[1..], i - 1);
      var p := HexPair(bytes[0]) + " ";
      var t := PrintableBytes(bytes[1..]);
      assert PrintableBytes(bytes) == p + t;
      SliceAfterPrefix(p, t, 3 * i, 3 * i + 2);
    }
  }

  /** A slice of p + t that starts past p is a slice of t. */
  lemma SliceAfterPrefix(p: string, t: string, k: nat, m: nat)
    requires |p| <= k <= m <= |p| + |t|
    ensures (p + t)[k..m] == t[k - |p|..m - |p|]
    ensures k < |p| + |t| ==> (p + t)[k] == t[k - |p|]
  {
  }

  /** Different byte strings print differently. */
  lemma PrintableBytesInjective(a: seq<Byte>, b: seq<Byte>)
    requires PrintableBytes(a) == PrintableBytes(b)
    ensures a == b
  {
    assert |a| == |b|;
    forall i | 0 <= i < |a|
      ensures a[i] == b[i]
    {
      PrintableBytesLayout(a, i);
      PrintableBytesLayout(b, i);
      HexPairReadsBack(a[i]);
      HexPairReadsBack(b[i]);
    }
  }

  // ---------------------------------------------------------------------------
  // print_summary

  const ChunkSize: nat := 16

  /** `bytes.chunks(16)`: consecutive pieces of 16 bytes, the last one shorter. */
  function Chunks(bytes: seq<Byte>): (cs: seq<seq<Byte>>)
    ensures |cs| == (|bytes| + ChunkSize - 1) / ChunkSize
    ensures forall c :: 0 <= c < |cs| ==>
      c * ChunkSize < |bytes| &&
      cs[c] == bytes[c * ChunkSize..Min(c * ChunkSize + ChunkSize, |bytes|)]
    decreases |bytes|
  {
    if |bytes| == 0 then []
    else if |bytes| <= ChunkSize then [bytes]
    else
      var rest := Chunks(bytes[ChunkSize..]);
      ChunksShift(bytes, rest);
      [bytes[..ChunkSize]] + rest
  }

  /** The chunks of the bytes after the first 16, moved one chunk along, are the
      later chunks of the whole. */
  lemma ChunksShift(bytes: seq<Byte>, rest: seq<seq<Byte>>)
    requires |bytes| > ChunkSize
    requires |rest| == (|bytes| - ChunkSize + ChunkSize - 1) / ChunkSize
    requires forall c :: 0 <= c < |rest| ==>
      c * ChunkSize < |bytes| - ChunkSize &&
      rest[c] == bytes[ChunkSize..][c * ChunkSize..Min(c * ChunkSize + ChunkSize, |bytes| - ChunkSize)]
    ensures |[bytes[..ChunkSize]] + rest| == (|bytes| + ChunkSize - 1) / ChunkSize
    ensures forall c :: 0 <= c < |rest| + 1 ==>
      c * ChunkSize < |bytes| &&
      ([bytes[..ChunkSize]] + rest)[c] == bytes[c * ChunkSize..Min(c * ChunkSize + ChunkSize, |bytes|)]
  {
    var cs := [bytes[..ChunkSize]] + rest;
    forall c | 1 <= c < |rest| + 1
      ensures c * ChunkSize < |bytes| && cs[c] == bytes[c * ChunkSize..Min(c * ChunkSize + ChunkSize, |bytes|)]
    {
      var d := c - 1;
      assert cs[c] == rest[d];
      assert c * ChunkSize == ChunkSize + d * ChunkSize;
      assert Min(c * ChunkSize + ChunkSize, |bytes|) == ChunkSize + Min(d * ChunkSize + ChunkSize, |bytes| - ChunkSize);
    }
  }

  /** One printed row pair of the byte dump: the `first-last` range label and the
      hex text of the Tx chunk and of the Rx chunk. */
  datatype SummaryRow = SummaryRow(first: nat, last: nat, tx: string, rx: string)

  /** The rows `print_summary(tx, rx)` prints: the 16-byte chunks of tx and rx
      zipped (so the shorter side decides the number of rows) and enumerated; the
      range of row c runs from 16c to 16c plus the length of the Tx chunk, capped at 16. */
  function SummaryRows(tx: seq<Byte>, rx: seq<Byte>): (rows: seq<SummaryRow>)
    ensures |rows| == Min(|Chunks(tx)|, |Chunks(rx)|)
    ensures forall c :: 0 <= c < |rows| ==> rows[c].first == c * ChunkSize
  {
    var tc, rc := Chunks(tx), Chunks(rx);
    seq(Min(|tc|, |rc|), c requires 0 <= c < Min(|tc|, |rc|) =>
      SummaryRow(c * ChunkSize, c * ChunkSize + Min(ChunkSize, |tc[c]|),
                 PrintableBytes(tc[c]), PrintableBytes(rc[c])))
  }

  /** Row c of the byte dump covers the Tx bytes [16c, min(16c + 16, |tx|)) and
      prints exactly those and the Rx bytes of the same offsets. */
  lemma SummaryRowAt(tx: seq<Byte>, rx: seq<Byte>, c: nat)
    requires c < |SummaryRows(tx, rx)|
    ensures var row := SummaryRows(tx, rx)[c];
      row.first == 16 * c &&
      row.last == Min(16 * c + 16, |tx|) &&
      row.first < row.last &&
      row.tx == PrintableBytes(tx[row.first..row.last]) &&
      row.rx == PrintableBytes(rx[16 * c..Min(16 * c + 16, |rx|)])
  {
    var tc, rc := Chunks(tx), Chunks(rx);
    assert SummaryRows(tx, rx)[c] ==
      SummaryRow(c * ChunkSize, c * ChunkSize + Min(ChunkSize, |tc[c]|), PrintableBytes(tc[c]), PrintableBytes(rc[c]));
    assert |tc[c]| == Min(16 * c + 16, |tx|) - 16 * c;
  }

  /** The number of rows is the number of 16-byte chunks of the shorter side;
      consecutive rows are contiguous, and when Rx is at least as long as Tx the
      rows cover all of Tx, from offset 0 to |tx|. */
  lemma SummaryRowsTile(tx: seq<Byte>, rx: seq<Byte>)
    ensures var rows := SummaryRows(tx, rx);
      |rows| == Min((|tx| + 15) / 16, (|rx| + 15) / 16) &&
      (forall c :: 0 <= c < |rows| - 1 ==> rows[c].last == rows[c + 1].first) &&
      (|tx| <= |rx| && |rows| > 0 ==> rows[0].first == 0 && rows[|rows| - 1].last == |tx|)
  {
    var rows := SummaryRows(tx, rx);
    forall c | 0 <= c < |rows| - 1
      ensures rows[c].last == rows[c + 1].first
    {
      SummaryRowAt(tx, rx, c);
      SummaryRowAt(tx, rx, c + 1);
    }
    if |tx| <= |rx| && |rows| > 0 {
      SummaryRowAt(tx, rx, 0);
      SummaryRowAt(tx, rx, |rows| - 1);
      assert |rows| == (|tx| + 15) / 16;
    }
  }

  // ---------------------------------------------------------------------------
  // Log events of the intercept

  /** What the intercept writes to standard output, one event per `println!`
      group, without the text of the lines. */
  datatype SpiEvent =
    | TransferStarted(bytes: nat)
    | BytesDumped(rows: seq<SummaryRow>)
    | TransferCompleted
    | TransferFailed

  /** The events one intercepted transfer emits under options `o`, given the
      outgoing copy tx, the buffer rx after the inner transfer and whether it failed:
      nothing when logging is off; otherwise a start event, then either the optional
      byte dump and a completion event, or a failure event. */
  function TransferEvents(o: SpiOpts, tx: seq<Byte>, rx: seq<Byte>, failed: bool): (ev: seq<SpiEvent>)
    ensures ev == [] <==> !o.log
    ensures o.log ==> ev[0] == TransferStarted(|tx|) && ev[|ev| - 1] == (if failed then TransferFailed else TransferCompleted)
    ensures |ev| == if !o.log then 0 else if o.bytes && !failed then 3 else 2
    ensures o.log && o.bytes && !failed ==> ev[1] == BytesDumped(SummaryRows(tx, rx))
  {
    if !o.log then []
    else if failed then [TransferStarted(|tx|), TransferFailed]
    else if o.bytes then
      [TransferStarted(|tx|), BytesDumped(SummaryRows(tx, rx)), TransferCompleted]
    else [TransferStarted(|tx|), TransferCompleted]
  }
}
