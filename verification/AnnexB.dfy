/** H.264 Annex B byte streams to length-prefixed units (portal/codecs.js;
    sections B.1 and 7.4.1 of ITU-T H.264). */
module AnnexB {
  import opened Prelude
  import BigEndian
  import Buffers

  // ------------------------------------------------------------ start codes

  predicate LongCodeAt(data: Bytes, i: nat) {
    i + 3 < |data| && data[i] == 0 && data[i+1] == 0 && data[i+2] == 0 && data[i+3] == 1
  }

  predicate ShortCodeAt(data: Bytes, i: nat) {
    i + 2 < |data| && data[i] == 0 && data[i+1] == 0 && data[i+2] == 1
  }

  predicate CodeAt(data: Bytes, i: nat) {
    LongCodeAt(data, i) || ShortCodeAt(data, i)
  }

  /** The next start code at or after `j`, or the end. */
  function NextCode(data: Bytes, j: nat): (k: nat)
    ensures j <= k && k <= Max(j, |data|)
    ensures k < |data| ==> CodeAt(data, k)
    ensures forall i :: j <= i < k ==> !CodeAt(data, i)
    decreases |data| - j
  {
    if j >= |data| || CodeAt(data, j) then j else NextCode(data, j + 1)
  }

  /** A unit with the length of the start code before it. */
  datatype Unit = Unit(long: bool, nal: Bytes)

  function CodeLength(data: Bytes, i: nat): nat {
    if LongCodeAt(data, i) then 4 else 3
  }

  /** What the scan finds from `i`, a start code or the end. */
  function UnitsFrom(data: Bytes, i: nat): seq<Unit>
    requires i >= |data| || CodeAt(data, i)
    decreases |data| - i
  {
    if i >= |data| then []
    else
      var start := i + CodeLength(data, i);
      var end := NextCode(data, start + 1);
      [Unit(LongCodeAt(data, i), data[start..Min(end, |data|)])] + UnitsFrom(data, end)
  }

  function Nals(us: seq<Unit>): seq<Bytes>
    decreases |us|
  {
    if us == [] then [] else [us[0].nal] + Nals(us[1..])
  }

  function StartCode(long: bool): Bytes {
    if long then [0, 0, 0, 1] else [0, 0, 1]
  }

  lemma CodeIsStartCode(data: Bytes, i: nat)
    requires CodeAt(data, i)
    ensures i + CodeLength(data, i) <= |data|
    ensures data[i..i + CodeLength(data, i)] == StartCode(LongCodeAt(data, i))
  {
  }

  lemma UnitsFromStep(data: Bytes, i: nat)
    requires i < |data| && CodeAt(data, i)
    ensures var start := i + CodeLength(data, i);
            var end := NextCode(data, start + 1);
            UnitsFrom(data, i) == [Unit(LongCodeAt(data, i), data[start..Min(end, |data|)])] + UnitsFrom(data, end)
  {
  }

  lemma EndHasNoUnits(data: Bytes, at: nat)
    requires at >= |data|
    ensures UnitsFrom(data, at) == []
  {
  }

  /** The units whose start code lies at or after `i`. */
  function NalsFrom(data: Bytes, i: nat): seq<Bytes> {
    Nals(UnitsFrom(data, NextCode(data, i)))
  }

  function Parsed(data: Bytes): seq<Bytes> {
    NalsFrom(data, 0)
  }

  lemma NalsFromStep(data: Bytes, i: nat)
    ensures i >= |data| ==> NalsFrom(data, i) == []
    ensures i < |data| && !CodeAt(data, i) ==> NalsFrom(data, i) == NalsFrom(data, i + 1)
    ensures i < |data| && CodeAt(data, i) ==>
              var start := i + CodeLength(data, i);
              var end := NextCode(data, start + 1);
              NalsFrom(data, i) == [data[start..Min(end, |data|)]] + NalsFrom(data, end)
  {
    hide UnitsFrom, Nals, CodeAt, LongCodeAt;
    if i >= |data| {
      EndHasNoUnits(data, i);
      NoNals();
    } else if CodeAt(data, i) {
      var start := i + CodeLength(data, i);
      var end := NextCode(data, start + 1);
      CodeIsStartCode(data, i);
      assert NextCode(data, end) == end;
      UnitsFromStep(data, i);
      NalsStep(Unit(LongCodeAt(data, i), data[start..Min(end, |data|)]), UnitsFrom(data, end));
    }
  }

  lemma NoNals()
    ensures Nals([]) == []
  {
  }

  lemma NalsStep(u: Unit, us: seq<Unit>)
    ensures Nals([u] + us) == [u.nal] + Nals(us)
  {
    assert ([u] + us)[1..] == us;
  }

  /** The parser as written: an outer scan for start codes, an inner one for the end
      of each unit. `subarray` clamps its end to the data. */
  method ParseAnnexBNals(data: Bytes) returns (nals: seq<Bytes>)
    ensures nals == Parsed(data)
  {
    hide NalsFrom, UnitsFrom, Nals;
    nals := [];
    var i := 0;
    while i < |data|
      invariant nals + NalsFrom(data, i) == NalsFrom(data, 0)
      decreases |data| - i
    {
      NalsFromStep(data, i);
      var scl := 0;
      if i + 3 < |data| && data[i] == 0 && data[i+1] == 0 && data[i+2] == 0 && data[i+3] == 1 {
        scl := 4;
      } else if i + 2 < |data| && data[i] == 0 && data[i+1] == 0 && data[i+2] == 1 {
        scl := 3;
      } else {
        i := i + 1;
        continue;
      }
      var nalStart := i + scl;
      var j := nalStart + 1;
      while j < |data|
        invariant nalStart < j && NextCode(data, j) == NextCode(data, nalStart + 1)
      {
        if j + 3 < |data| && data[j] == 0 && data[j+1] == 0 && data[j+2] == 0 && data[j+3] == 1 { break; }
        if j + 2 < |data| && data[j] == 0 && data[j+1] == 0 && data[j+2] == 1 { break; }
        j := j + 1;
      }
      nals := nals + [data[nalStart..Min(j, |data|)]];
      i := j;
    }
    NalsFromStep(data, i);
  }

  // ------------------------------------------------------------ round trips

  function Stream(us: seq<Unit>): Bytes
    decreases |us|
  {
    if us == [] then [] else StartCode(us[0].long) + us[0].nal + Stream(us[1..])
  }

  /** A unit as the standard allows it: not empty, no start code prefix inside, and
      not ending in a zero byte. */
  predicate WellFormedNal(nal: Bytes) {
    nal != [] && nal[|nal|-1] != 0 && forall i :: 0 <= i < |nal| ==> !ShortCodeAt(nal, i)
  }

  /** Where the start code, the unit and the rest of a non-empty stream lie. */
  lemma StreamLayout(data: Bytes, at: nat, us: seq<Unit>)
    requires us != [] && at <= |data| && data[at..] == Stream(us)
    ensures var start := at + |StartCode(us[0].long)|;
            var end := start + |us[0].nal|;
            && end <= |data| && data[at..start] == StartCode(us[0].long)
            && data[start..end] == us[0].nal && data[end..] == Stream(us[1..])
  {
    hide StartCode;
    var code := StartCode(us[0].long);
    SliceSplits(data, at, code + us[0].nal, Stream(us[1..]));
    var front := data[..at + |code| + |us[0].nal|];
    assert front[at..] == code + us[0].nal;
    SliceSplits(front, at, code, us[0].nal);
  }

  lemma StreamBeginsWithCode(data: Bytes, at: nat, us: seq<Unit>)
    requires at <= |data| && data[at..] == Stream(us)
    ensures us == [] ==> at == |data|
    ensures us != [] ==> at < |data| && CodeAt(data, at) && LongCodeAt(data, at) == us[0].long
  {
    if us != [] {
      StreamLayout(data, at, us);
      var code := StartCode(us[0].long);
      forall m | 0 <= m < |code| ensures data[at + m] == code[m] { assert data[at..at + |code|][m] == code[m]; }
    }
  }

  /** Inside a well-formed unit that is followed by a start code or the end, no start
      code begins, not even one that would straddle its end. */
  lemma NoCodeInside(data: Bytes, start: nat, nal: Bytes, i: nat)
    requires WellFormedNal(nal) && start + |nal| <= |data| && data[start..start + |nal|] == nal
    requires start <= i < start + |nal|
    ensures !CodeAt(data, i)
  {
    var k := i - start;
    forall m | 0 <= m < |nal| ensures data[start + m] == nal[m] { assert data[start..start + |nal|][m] == nal[m]; }
    assert data[start + |nal| - 1] == nal[|nal|-1];
    assert !ShortCodeAt(nal, k) && !ShortCodeAt(nal, k + 1);
  }

  lemma {:induction false} NextCodeSkips(data: Bytes, j: nat, k: nat)
    requires j <= k <= |data| && (k == |data| || CodeAt(data, k))
    requires forall i :: j <= i < k ==> !CodeAt(data, i)
    ensures NextCode(data, j) == k
    decreases k - j
  {
    if j < k { NextCodeSkips(data, j + 1, k); }
  }

  lemma {:induction false} StreamParses(data: Bytes, at: nat, us: seq<Unit>)
    requires at <= |data| && data[at..] == Stream(us) && forall u <- us :: WellFormedNal(u.nal)
    ensures (at >= |data| || CodeAt(data, at)) && UnitsFrom(data, at) == us
    decreases |us|
  {
    hide Stream, CodeAt, LongCodeAt, NextCode, UnitsFrom;
    StreamBeginsWithCode(data, at, us);
    if us == [] {
      EndHasNoUnits(data, at);
    } else {
      StreamLayout(data, at, us);
      var start := at + |StartCode(us[0].long)|;
      var end := start + |us[0].nal|;
      StreamParses(data, end, us[1..]);
      forall i | start + 1 <= i < end ensures !CodeAt(data, i) { NoCodeInside(data, start, us[0].nal, i); }
      NextCodeSkips(data, start + 1, end);
      UnitsFromStep(data, at);
      assert [us[0]] + us[1..] == us;
    }
  }

  /** Any mix of three- and four-byte start codes before well-formed units parses
      back to exactly those units. */
  lemma ParseInvertsStream(us: seq<Unit>)
    requires forall u <- us :: WellFormedNal(u.nal)
    ensures Parsed(Stream(us)) == Nals(us)
  {
    hide CodeAt, NextCode, UnitsFrom, Nals;
    var data := Stream(us);
    assert data[0..] == data;
    StreamParses(data, 0, us);
    StreamBeginsWithCode(data, 0, us);
    NextCodeSkips(data, 0, 0);
  }

  predicate AllButLastFull(us: seq<Unit>) {
    forall k :: 0 <= k < |us| - 1 ==> us[k].nal != []
  }

  lemma AllButLastFullStep(u: Unit, us: seq<Unit>)
    requires AllButLastFull(us) && (us != [] ==> u.nal != [])
    ensures AllButLastFull([u] + us)
  {
    forall k | 0 <= k < |us| ensures ([u] + us)[k].nal != [] {
      if k > 0 { assert ([u] + us)[k] == us[k-1]; }
    }
  }

  lemma StreamStep(u: Unit, us: seq<Unit>)
    ensures Stream([u] + us) == StartCode(u.long) + u.nal + Stream(us)
  {
    assert ([u] + us)[1..] == us;
  }

  lemma SliceJoins<T>(data: seq<T>, i: nat, j: nat, k: nat)
    requires i <= j <= k <= |data|
    ensures data[i..] == data[i..j] + data[j..k] + data[k..]
  {
  }

  lemma {:induction false} UnitsRebuild(data: Bytes, i: nat)
    requires i >= |data| || CodeAt(data, i)
    ensures Stream(UnitsFrom(data, i)) == data[Min(i, |data|)..]
    ensures AllButLastFull(UnitsFrom(data, i))
    decreases |data| - i
  {
    hide Stream, CodeAt, LongCodeAt, UnitsFrom, NextCode, StartCode, AllButLastFull;
    if i >= |data| {
      EndHasNoUnits(data, i);
      EmptyStream();
    } else {
      var start := i + CodeLength(data, i);
      var end := NextCode(data, start + 1);
      CodeIsStartCode(data, i);
      UnitsFromStep(data, i);
      var u, us := Unit(LongCodeAt(data, i), data[start..Min(end, |data|)]), UnitsFrom(data, end);
      UnitsRebuild(data, end);
      StreamStep(u, us);
      SliceJoins(data, i, start, Min(end, |data|));
      if end >= |data| { EndHasNoUnits(data, end); }
      AllButLastFullStep(u, us);
    }
  }

  lemma EmptyStream()
    ensures Stream([]) == [] && AllButLastFull([])
  {
  }

  /** Conversely, for any bytes at all: what precedes the first start code holds
      none, and the rest is exactly the stream of the parsed units with the start
      codes found, so nothing is dropped or invented; only the last can be empty. */
  lemma ParseLosesNothing(data: Bytes)
    ensures var first := NextCode(data, 0);
            var us := UnitsFrom(data, first);
            && first <= |data| && (forall i :: 0 <= i < first ==> !CodeAt(data, i))
            && data == data[..first] + Stream(us)
            && Parsed(data) == Nals(us)
            && AllButLastFull(us)
  {
    hide UnitsFrom, Stream, CodeAt, Nals, AllButLastFull;
    UnitsRebuild(data, NextCode(data, 0));
  }

  // ---------------------------------------------------------- length prefixes

  /** `setUint32` writes the length modulo 2^32. */
  function Prefix(nal: Bytes): Bytes {
    BigEndian.Write(4, |nal| % (U32_MAX + 1))
  }

  function LengthPrefixed(nals: seq<Bytes>): Bytes
    decreases |nals|
  {
    if nals == [] then [] else LengthPrefixed(nals[..|nals|-1]) + Prefix(nals[|nals|-1]) + nals[|nals|-1]
  }

  lemma LengthPrefixedStep(nals: seq<Bytes>, k: nat)
    requires k < |nals|
    ensures LengthPrefixed(nals[..k+1]) == LengthPrefixed(nals[..k]) + Prefix(nals[k]) + nals[k]
    ensures |LengthPrefixed(nals[..k+1])| == |LengthPrefixed(nals[..k])| + 4 + |nals[k]|
  {
    assert nals[..k+1][..k] == nals[..k];
  }

  lemma {:induction false} LengthPrefixedGrows(nals: seq<Bytes>, k: nat)
    requires k <= |nals|
    ensures |LengthPrefixed(nals[..k])| <= |LengthPrefixed(nals)|
    decreases |nals| - k
  {
    if k < |nals| {
      LengthPrefixedStep(nals, k);
      LengthPrefixedGrows(nals, k + 1);
    } else {
      assert nals[..k] == nals;
    }
  }

  method NalsToLengthPrefixed(nals: seq<Bytes>) returns (result: array<byte>)
    ensures fresh(result) && result[..] == LengthPrefixed(nals)
  {
    hide LengthPrefixed, Prefix;
    var total := 0;
    NothingPrefixed(nals);
    for k := 0 to |nals|
      invariant total == |LengthPrefixed(nals[..k])|
    {
      total := total + 4 + |nals[k]|;
      LengthPrefixedStep(nals, k);
    }
    assert nals[..|nals|] == nals;
    result := new byte[total](_ => 0);
    var off := 0;
    for k := 0 to |nals|
      invariant off == |LengthPrefixed(nals[..k])| <= result.Length == |LengthPrefixed(nals)|
      invariant result[..off] == LengthPrefixed(nals[..k])
    {
      LengthPrefixedStep(nals, k);
      LengthPrefixedGrows(nals, k + 1);
      ghost var filled := result[..off];
      Buffers.CopyInto(result, off, Prefix(nals[k]));
      assert result[..off + 4] == filled + Prefix(nals[k]);
      Buffers.CopyInto(result, off + 4, nals[k]);
      off := off + 4 + |nals[k]|;
    }
    assert result[..] == result[..off];
  }

  lemma NothingPrefixed(nals: seq<Bytes>)
    ensures LengthPrefixed(nals[..0]) == []
  {
  }

  /** Reading units back by their four-byte lengths. */
  function ReadBack(data: Bytes): Option<seq<Bytes>>
    decreases |data|
  {
    if data == [] then Some([])
    else if |data| < 4 then None
    else
      var n := BigEndian.Read(data[..4]);
      if 4 + n > |data| then None
      else
        match ReadBack(data[4 + n..])
        case None => None
        case Some(rest) => Some([data[4..4 + n]] + rest)
  }

  lemma {:induction false} PrefixedFront(nals: seq<Bytes>)
    requires nals != []
    ensures LengthPrefixed(nals) == Prefix(nals[0]) + nals[0] + LengthPrefixed(nals[1..])
    decreases |nals|
  {
    hide LengthPrefixed, Prefix;
    var n := |nals| - 1;
    assert nals[..n+1] == nals;
    LengthPrefixedStep(nals, n);
    if n == 0 {
      NothingPrefixed(nals);
      assert nals[1..] == nals[..0];
    } else {
      PrefixedFront(nals[..n]);
      var tail := nals[1..];
      assert tail[..n-1] == nals[..n][1..] && tail[..n] == tail;
      LengthPrefixedStep(tail, n - 1);
      Reassociate(Prefix(nals[0]) + nals[0], LengthPrefixed(tail[..n-1]), Prefix(nals[n]), nals[n]);
    }
  }

  lemma Reassociate<T>(a: seq<T>, b: seq<T>, c: seq<T>, d: seq<T>)
    ensures ((a + b) + c) + d == a + ((b + c) + d)
  {
  }

  lemma ReadBackStep(nal: Bytes, rest: Bytes)
    requires |nal| <= U32_MAX
    ensures ReadBack(Prefix(nal) + nal + rest) ==
            match ReadBack(rest) case None => None case Some(nals) => Some([nal] + nals)
  {
    hide BigEndian.Read, BigEndian.Write;
    var data := Prefix(nal) + nal + rest;
    BigEndian.Widths();
    BigEndian.ReadWrite(4, |nal|);
    assert |nal| % (U32_MAX + 1) == |nal|;
    SliceSplits(data, 0, Prefix(nal), nal + rest);
    assert data[0..] == data == Prefix(nal) + (nal + rest);
    SliceSplits(data, 4, nal, rest);
  }

  lemma ReadBackFirstLength(nal: Bytes, rest: Bytes)
    ensures var units := ReadBack(Prefix(nal) + nal + rest);
            units.Some? ==> units.value != [] && |units.value[0]| == |nal| % (U32_MAX + 1)
  {
    hide BigEndian.Read, BigEndian.Write;
    var data := Prefix(nal) + nal + rest;
    BigEndian.Widths();
    BigEndian.ReadWrite(4, |nal| % (U32_MAX + 1));
    assert data == Prefix(nal) + (nal + rest);
    assert data[..4] == Prefix(nal);
  }

  /** The lengths read back the units exactly when each fits thirty-two bits. */
  lemma {:induction false} ReadBackInvertsIff(nals: seq<Bytes>)
    ensures ReadBack(LengthPrefixed(nals)) == Some(nals) <==> forall nal <- nals :: |nal| <= U32_MAX
    decreases |nals|
  {
    hide Prefix;
    if nals != [] {
      PrefixedFront(nals);
      assert [nals[0]] + nals[1..] == nals;
      if |nals[0]| <= U32_MAX {
        ReadBackInvertsIff(nals[1..]);
        ReadBackStep(nals[0], LengthPrefixed(nals[1..]));
      } else {
        ReadBackFirstLength(nals[0], LengthPrefixed(nals[1..]));
      }
    }
  }

  /** End to end: the length-prefixed form of a parsed stream reads back as its units. */
  lemma StreamSurvivesConversion(us: seq<Unit>)
    requires forall u <- us :: WellFormedNal(u.nal) && |u.nal| <= U32_MAX
    ensures ReadBack(LengthPrefixed(Parsed(Stream(us)))) == Some(Nals(us))
  {
    ParseInvertsStream(us);
    NalsAreUnits(us);
    ReadBackInvertsIff(Nals(us));
  }

  lemma {:induction false} NalsAreUnits(us: seq<Unit>)
    ensures |Nals(us)| == |us| && forall k :: 0 <= k < |us| ==> Nals(us)[k] == us[k].nal
    decreases |us|
  {
    if us != [] { NalsAreUnits(us[1..]); }
  }
}
