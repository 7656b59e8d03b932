/** The strict RTP parser of the audio path (crates/sigil-host/src/audio.rs;
    sections 5.1 and 5.3.1 of RFC 3550). */
module RtpPacket {
  import opened Prelude
  import BigEndian

  const PAYLOAD_TYPE: byte := 111
  const MAX_PAYLOAD: nat := 512
  const HEADER: nat := 12

  datatype RtpError =
    | ShortHeader
    | WrongVersion
    | WrongPayloadType
    | WrongSsrc
    | TruncatedCsrcs
    | TruncatedExtensionHeader
    | TruncatedExtension
    | ZeroPadding
    | InvalidPadding
    | EmptyPayload
    | LongPayload

  datatype Packet = Packet(sequence: u16, timestamp: u32, payload: Bytes)

  predicate HasPadding(first: byte) {
    first / 32 % 2 == 1
  }

  predicate HasExtension(first: byte) {
    first / 16 % 2 == 1
  }

  /** Where the payload begins, behind the contributing sources and the extension. */
  function PayloadStart(datagram: Bytes): Result<nat, RtpError>
    requires |datagram| >= HEADER
  {
    var start := HEADER + datagram[0] % 16 * 4;
    if start > |datagram| then Err(TruncatedCsrcs)
    else if !HasExtension(datagram[0]) then Ok(start)
    else if start + 4 > |datagram| then Err(TruncatedExtensionHeader)
    else
      var end := start + 4 + BigEndian.Read(datagram[start + 2..start + 4]) * 4;
      if end > |datagram| then Err(TruncatedExtension) else Ok(end)
  }

  function PayloadOf(datagram: Bytes, start: nat): Result<Bytes, RtpError>
    requires |datagram| >= HEADER && start <= |datagram|
  {
    var padding := if HasPadding(datagram[0]) then datagram[|datagram|-1] else 0;
    if HasPadding(datagram[0]) && padding == 0 then Err(ZeroPadding)
    else if padding > |datagram| - start then Err(InvalidPadding)
    else
      var payload := datagram[start..|datagram| - padding];
      if payload == [] then Err(EmptyPayload)
      else if |payload| > MAX_PAYLOAD then Err(LongPayload)
      else Ok(payload)
  }

  function ParseRtpOpus(datagram: Bytes, ssrc: u32): Result<Packet, RtpError> {
    if |datagram| < HEADER then Err(ShortHeader)
    else if datagram[0] / 64 != 2 then Err(WrongVersion)
    else if datagram[1] % 128 != PAYLOAD_TYPE then Err(WrongPayloadType)
    else if BigEndian.Read(datagram[8..12]) != ssrc then Err(WrongSsrc)
    else
      match PayloadStart(datagram)
      case Err(e) => Err(e)
      case Ok(start) =>
        match PayloadOf(datagram, start)
        case Err(e) => Err(e)
        case Ok(payload) =>
          SmallReads(datagram);
          Ok(Packet(BigEndian.Read(datagram[2..4]), BigEndian.Read(datagram[4..8]), payload))
  }

  lemma SmallReads(datagram: Bytes)
    requires |datagram| >= HEADER
    ensures BigEndian.Read(datagram[2..4]) <= U16_MAX && BigEndian.Read(datagram[4..8]) <= U32_MAX
  {
    BigEndian.Widths();
    BigEndian.WriteRead(datagram[2..4]);
    BigEndian.WriteRead(datagram[4..8]);
  }

  // --------------------------------------------------------------- datagrams

  /** A header extension: a profile number and whole 32-bit words. */
  datatype Extension = Extension(profile: u16, words: Bytes) {
    predicate WellFormed() {
      |words| % 4 == 0 && |words| / 4 <= U16_MAX
    }
  }

  /** An RTP datagram of the audio stream, part by part: `csrcs` holds four bytes a
      source, `padding` the filler before the final count byte. */
  datatype Datagram = Datagram(
    marker: bool,
    sequence: u16,
    timestamp: u32,
    ssrc: u32,
    csrcs: Bytes,
    extension: Option<Extension>,
    payload: Bytes,
    padding: Option<Bytes>)
  {
    predicate WellFormed() {
      && |csrcs| % 4 == 0 && |csrcs| / 4 < 16
      && (extension.Some? ==> extension.value.WellFormed())
      && 1 <= |payload| <= 512
      && (padding.Some? ==> |padding.value| < 255)
    }
  }

  function FirstByte(padded: bool, extended: bool, sources: nat): byte
    requires sources < 16
  {
    128 + (if padded then 32 else 0) + (if extended then 16 else 0) + sources
  }

  function SecondByte(marker: bool): byte {
    if marker then 239 else 111
  }

  function Header(d: Datagram): (b: Bytes)
    requires d.WellFormed()
    ensures |b| == HEADER
  {
    [FirstByte(d.padding.Some?, d.extension.Some?, |d.csrcs| / 4), SecondByte(d.marker)]
    + BigEndian.Write(2, d.sequence) + BigEndian.Write(4, d.timestamp) + BigEndian.Write(4, d.ssrc)
  }

  function ExtensionBytes(e: Option<Extension>): Bytes {
    match e
    case None => []
    case Some(x) => BigEndian.Write(2, x.profile) + BigEndian.Write(2, |x.words| / 4) + x.words
  }

  function PaddingBytes(p: Option<Bytes>): Bytes
    requires p.Some? ==> |p.value| < 255
  {
    match p
    case None => []
    case Some(filler) => filler + [|filler| + 1]
  }

  function Encode(d: Datagram): Bytes
    requires d.WellFormed()
  {
    Header(d) + (d.csrcs + (ExtensionBytes(d.extension) + (d.payload + PaddingBytes(d.padding))))
  }

  // ------------------------------------------------- building, then parsing

  lemma HeaderFields(d: Datagram, datagram: Bytes)
    requires d.WellFormed() && |datagram| >= HEADER && datagram[..HEADER] == Header(d)
    ensures datagram[0] == FirstByte(d.padding.Some?, d.extension.Some?, |d.csrcs| / 4)
    ensures datagram[1] == SecondByte(d.marker)
    ensures BigEndian.Read(datagram[2..4]) == d.sequence && BigEndian.Read(datagram[4..8]) == d.timestamp
    ensures BigEndian.Read(datagram[8..12]) == d.ssrc
  {
    hide BigEndian.Read, BigEndian.Write;
    BigEndian.Widths();
    BigEndian.ReadWrite(2, d.sequence);
    BigEndian.ReadWrite(4, d.timestamp);
    BigEndian.ReadWrite(4, d.ssrc);
    var h := datagram[..HEADER];
    assert h[0] == datagram[0] && h[1] == datagram[1];
    assert datagram[2..4] == h[2..4] == BigEndian.Write(2, d.sequence);
    assert datagram[4..8] == h[4..8] == BigEndian.Write(4, d.timestamp);
    assert datagram[8..12] == h[8..12] == BigEndian.Write(4, d.ssrc);
  }

  lemma FirstByteBits(padded: bool, extended: bool, sources: nat)
    requires sources < 16
    ensures var b := FirstByte(padded, extended, sources);
            b / 64 == 2 && (HasPadding(b) <==> padded) && (HasExtension(b) <==> extended) && b % 16 == sources
  {
  }

  lemma ExtensionStarts(datagram: Bytes, start: nat, e: Extension)
    requires e.WellFormed() && start + 4 + |e.words| <= |datagram|
    requires datagram[start..start + 4 + |e.words|] == ExtensionBytes(Some(e))
    ensures BigEndian.Read(datagram[start + 2..start + 4]) * 4 == |e.words|
  {
    hide BigEndian.Read, BigEndian.Write;
    BigEndian.Widths();
    BigEndian.ReadWrite(2, |e.words| / 4);
    var b := datagram[start..start + 4 + |e.words|];
    assert b[2] == datagram[start + 2] && b[3] == datagram[start + 3];
    assert datagram[start + 2..start + 4] == b[2..4];
    assert ExtensionBytes(Some(e))[2..4] == BigEndian.Write(2, |e.words| / 4);
  }

  lemma ExtensionLength(e: Option<Extension>)
    ensures |ExtensionBytes(e)| == if e.None? then 0 else 4 + |e.value.words|
  {
  }

  lemma PayloadStartOf(d: Datagram, datagram: Bytes)
    requires d.WellFormed() && |datagram| >= HEADER
    requires datagram[0] == FirstByte(d.padding.Some?, d.extension.Some?, |d.csrcs| / 4)
    requires var start := HEADER + |d.csrcs|;
             var end := start + |ExtensionBytes(d.extension)|;
             end <= |datagram| && datagram[start..end] == ExtensionBytes(d.extension)
    ensures PayloadStart(datagram) == Ok(HEADER + |d.csrcs| + |ExtensionBytes(d.extension)|)
  {
    hide ExtensionBytes, FirstByte, HasExtension, BigEndian.Read;
    FirstByteBits(d.padding.Some?, d.extension.Some?, |d.csrcs| / 4);
    ExtensionLength(d.extension);
    if d.extension.Some? { ExtensionStarts(datagram, HEADER + |d.csrcs|, d.extension.value); }
  }

  lemma PayloadOfRest(d: Datagram, datagram: Bytes, start: nat)
    requires d.WellFormed() && HEADER <= start <= |datagram|
    requires datagram[0] == FirstByte(d.padding.Some?, d.extension.Some?, |d.csrcs| / 4)
    requires datagram[start..] == d.payload + PaddingBytes(d.padding)
    ensures PayloadOf(datagram, start) == Ok(d.payload)
  {
    hide FirstByte, HasPadding;
    FirstByteBits(d.padding.Some?, d.extension.Some?, |d.csrcs| / 4);
    SliceSplits(datagram, start, d.payload, PaddingBytes(d.padding));
    if d.padding.Some? {
      var tail := PaddingBytes(d.padding);
      assert datagram[|datagram|-1] == datagram[start + |d.payload|..][|tail|-1] == tail[|tail|-1];
    }
  }

  /** Whatever sources, extension and padding surround it, a well-formed datagram
      gives back its sequence, its timestamp and its payload. */
  lemma ParseInvertsEncode(d: Datagram)
    requires d.WellFormed()
    ensures ParseRtpOpus(Encode(d), d.ssrc) == Ok(Packet(d.sequence, d.timestamp, d.payload))
  {
    hide Header, FirstByte, ExtensionBytes, PaddingBytes, PayloadStart, PayloadOf, BigEndian.Read;
    var datagram := Encode(d);
    var ext, last := ExtensionBytes(d.extension), d.payload + PaddingBytes(d.padding);
    assert datagram[0..] == datagram;
    SliceSplits(datagram, 0, Header(d), d.csrcs + (ext + last));
    SliceSplits(datagram, HEADER, d.csrcs, ext + last);
    SliceSplits(datagram, HEADER + |d.csrcs|, ext, last);
    assert datagram[..HEADER] == datagram[0..HEADER];
    HeaderFields(d, datagram);
    FirstByteBits(d.padding.Some?, d.extension.Some?, |d.csrcs| / 4);
    PayloadStartOf(d, datagram);
    PayloadOfRest(d, datagram, HEADER + |d.csrcs| + |ext|);
  }

  // ------------------------------------------------- parsing, then building

  function ExtensionIn(datagram: Bytes): Option<Extension>
    requires |datagram| >= HEADER && PayloadStart(datagram).Ok?
  {
    var start := HEADER + datagram[0] % 16 * 4;
    if !HasExtension(datagram[0]) then None
    else
      BigEndian.Widths();
      BigEndian.WriteRead(datagram[start..start + 2]);
      Some(Extension(BigEndian.Read(datagram[start..start + 2]), datagram[start + 4..PayloadStart(datagram).value]))
  }

  /** The parts of an accepted datagram. */
  function Parts(datagram: Bytes, ssrc: u32): Datagram
    requires ParseRtpOpus(datagram, ssrc).Ok?
  {
    var p := ParseRtpOpus(datagram, ssrc).value;
    var start := PayloadStart(datagram).value;
    Datagram(
      datagram[1] >= 128, p.sequence, p.timestamp, ssrc,
      datagram[HEADER..HEADER + datagram[0] % 16 * 4],
      ExtensionIn(datagram),
      p.payload,
      if HasPadding(datagram[0]) then Some(datagram[start + |p.payload|..|datagram|-1]) else None)
  }

  lemma ExtensionRebuilds(datagram: Bytes)
    requires |datagram| >= HEADER && PayloadStart(datagram).Ok?
    ensures var start := HEADER + datagram[0] % 16 * 4;
            var e := ExtensionIn(datagram);
            && start <= PayloadStart(datagram).value <= |datagram|
            && (e.Some? <==> HasExtension(datagram[0])) && (e.Some? ==> e.value.WellFormed())
            && ExtensionBytes(e) == datagram[start..PayloadStart(datagram).value]
  {
    hide HasExtension, BigEndian.Read, BigEndian.Write;
    var start := HEADER + datagram[0] % 16 * 4;
    var end := PayloadStart(datagram).value;
    if HasExtension(datagram[0]) {
      BigEndian.Widths();
      BigEndian.WriteRead(datagram[start..start + 2]);
      BigEndian.WriteRead(datagram[start + 2..start + 4]);
      assert datagram[start..end] == datagram[start..start + 2] + datagram[start + 2..start + 4]
             + datagram[start + 4..end];
    } else {
      assert datagram[start..end] == [];
    }
  }

  lemma FirstByteRebuilds(b: byte)
    requires b / 64 == 2
    ensures FirstByte(HasPadding(b), HasExtension(b), b % 16) == b
  {
    assert b == 128 + b / 32 % 2 * 32 + b / 16 % 2 * 16 + b % 16;
  }

  lemma HeaderRebuilds(datagram: Bytes, d: Datagram)
    requires |datagram| >= HEADER && datagram[0] / 64 == 2 && datagram[1] % 128 == PAYLOAD_TYPE && d.WellFormed()
    requires d.padding.Some? == HasPadding(datagram[0]) && d.extension.Some? == HasExtension(datagram[0])
    requires |d.csrcs| == datagram[0] % 16 * 4 && d.marker == (datagram[1] >= 128)
    requires BigEndian.Read(datagram[2..4]) == d.sequence && BigEndian.Read(datagram[4..8]) == d.timestamp
    requires BigEndian.Read(datagram[8..12]) == d.ssrc
    ensures Header(d) == datagram[..HEADER]
  {
    hide BigEndian.Read, BigEndian.Write, HasPadding, HasExtension, FirstByte;
    BigEndian.WriteRead(datagram[2..4]);
    BigEndian.WriteRead(datagram[4..8]);
    BigEndian.WriteRead(datagram[8..12]);
    FirstByteRebuilds(datagram[0]);
    assert datagram[..HEADER] == [datagram[0], datagram[1]] + datagram[2..4] + datagram[4..8] + datagram[8..12];
  }

  lemma PayloadRebuilds(datagram: Bytes, start: nat)
    requires HEADER <= start <= |datagram| && PayloadOf(datagram, start).Ok?
    ensures var payload := PayloadOf(datagram, start).value;
            && 1 <= |payload| <= MAX_PAYLOAD && start + |payload| <= |datagram|
            && (HasPadding(datagram[0]) ==> start + |payload| < |datagram|)
            && (var padding := if HasPadding(datagram[0])
                               then Some(datagram[start + |payload|..|datagram|-1]) else None;
                && (padding.Some? ==> |padding.value| < 255)
                && datagram[start..] == payload + PaddingBytes(padding))
  {
    hide HasPadding;
    var payload := PayloadOf(datagram, start).value;
    if HasPadding(datagram[0]) {
      assert datagram[start + |payload|..] == datagram[start + |payload|..|datagram|-1] + [datagram[|datagram|-1]];
    }
    assert datagram[start..] == payload + datagram[start + |payload|..];
  }

  /** Every accepted datagram is the encoding of its parts, byte for byte. */
  lemma EncodeInvertsParse(datagram: Bytes, ssrc: u32)
    requires ParseRtpOpus(datagram, ssrc).Ok?
    ensures Parts(datagram, ssrc).WellFormed() && Encode(Parts(datagram, ssrc)) == datagram
  {
    hide PayloadStart, PayloadOf, HasPadding, HasExtension, ExtensionIn, BigEndian.Read, Header, ExtensionBytes,
      PaddingBytes;
    var d := Parts(datagram, ssrc);
    var sources, start := HEADER + datagram[0] % 16 * 4, PayloadStart(datagram).value;
    ExtensionRebuilds(datagram);
    PayloadRebuilds(datagram, start);
    HeaderRebuilds(datagram, d);
    assert datagram ==
           datagram[..HEADER] + (datagram[HEADER..sources] + (datagram[sources..start] + datagram[start..]));
  }

  /** The parser accepts exactly the encodings of well-formed datagrams of the stream. */
  lemma AcceptedIffEncoded(datagram: Bytes, ssrc: u32)
    ensures ParseRtpOpus(datagram, ssrc).Ok? <==>
            exists d: Datagram :: d.WellFormed() && d.ssrc == ssrc && Encode(d) == datagram
  {
    hide ParseRtpOpus, Encode;
    if ParseRtpOpus(datagram, ssrc).Ok? {
      EncodeInvertsParse(datagram, ssrc);
      PartsKeepSsrc(datagram, ssrc);
    }
    forall d: Datagram | d.WellFormed() && d.ssrc == ssrc && Encode(d) == datagram
      ensures ParseRtpOpus(datagram, ssrc).Ok?
    {
      ParseInvertsEncode(d);
    }
  }

  lemma PartsKeepSsrc(datagram: Bytes, ssrc: u32)
    requires ParseRtpOpus(datagram, ssrc).Ok?
    ensures Parts(datagram, ssrc).ssrc == ssrc
  {
  }

  // ---------------------------------------------------------------- rejections

  function Word(d: Bytes, at: nat): nat
    requires at + 2 <= |d|
  {
    var high: nat, low: nat := d[at], d[at + 1];
    high * 256 + low
  }

  /** The first thing wrong with a datagram, byte by byte. */
  function Flaw(d: Bytes, ssrc: u32): Option<RtpError> {
    if |d| < 12 then Some(ShortHeader)
    else if !(128 <= d[0] < 192) then Some(WrongVersion)
    else if d[1] != 111 && d[1] != 239 then Some(WrongPayloadType)
    else if Word(d, 8) * 65_536 + Word(d, 10) != ssrc then Some(WrongSsrc)
    else
      var sources := 12 + d[0] % 16 * 4;
      var padding, room := if d[0] / 32 % 2 == 1 then d[|d|-1] else 0, |d| - ExtensionEnd(d);
      if |d| < sources then Some(TruncatedCsrcs)
      else if d[0] / 16 % 2 == 1 && |d| < sources + 4 then Some(TruncatedExtensionHeader)
      else if room < 0 then Some(TruncatedExtension)
      else if d[0] / 32 % 2 == 1 && d[|d|-1] == 0 then Some(ZeroPadding)
      else if padding > room then Some(InvalidPadding)
      else if padding == room then Some(EmptyPayload)
      else if room - padding > 512 then Some(LongPayload)
      else None
  }

  /** Where the header ends, extension included. */
  function ExtensionEnd(d: Bytes): nat
    requires |d| >= 12
  {
    var sources := 12 + d[0] % 16 * 4;
    if d[0] / 16 % 2 == 0 || |d| < sources + 4 then sources
    else sources + 4 + Word(d, sources + 2) * 4
  }

  lemma ReadOfTwo(d: Bytes, at: nat)
    requires at + 2 <= |d|
    ensures BigEndian.Read(d[at..at + 2]) == Word(d, at)
  {
    ReadLast(d, at, at);
    ReadLast(d, at, at + 1);
    assert d[at..at] == [];
  }

  lemma ReadOfFour(d: Bytes, at: nat)
    requires at + 4 <= |d|
    ensures BigEndian.Read(d[at..at + 4]) == Word(d, at) * 65_536 + Word(d, at + 2)
  {
    hide BigEndian.Read;
    ReadOfTwo(d, at);
    ReadLast(d, at, at + 2);
    ReadLast(d, at, at + 3);
  }

  lemma ReadLast(d: Bytes, at: nat, end: nat)
    requires at <= end < |d|
    ensures BigEndian.Read(d[at..end + 1]) == BigEndian.Read(d[at..end]) * 256 + d[end]
  {
    assert d[at..end + 1][..end - at] == d[at..end];
  }

  /** A datagram is rejected exactly when something is wrong with it, for the first thing
      that is. */
  lemma RejectionIsTheFlaw(datagram: Bytes, ssrc: u32)
    ensures match Flaw(datagram, ssrc)
            case None => ParseRtpOpus(datagram, ssrc).Ok?
            case Some(flaw) => ParseRtpOpus(datagram, ssrc) == Err(flaw)
  {
    hide BigEndian.Read;
    if |datagram| >= 12 {
      ReadOfFour(datagram, 8);
      var sources := 12 + datagram[0] % 16 * 4;
      if sources + 4 <= |datagram| { ReadOfTwo(datagram, sources + 2); }
    }
  }
}
