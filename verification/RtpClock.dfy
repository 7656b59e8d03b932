/** The audio presentation clock: 32-bit RTP timestamps unwrapped onto the session
    clock (crates/sigil-host/src/audio.rs and clock.rs; section 5.1 of RFC 3550). */
module RtpClock {
  import opened Division
  import opened Prelude

  const SAMPLE_RATE: u32 := 48_000
  /** Ten seconds of samples. */
  const WINDOW: nat := 480_000
  const MICROS: nat := 1_000_000
  const WRAP: nat := 0x1_0000_0000

  datatype ClockError = BeyondWindow

  function SaturatingMul(a: u64, b: u64): u64 {
    if 0 <= a * b <= U64_MAX then a * b else U64_MAX
  }

  function Quotient(n: u64, divisor: u32): u64
    requires divisor > 0
  {
    DivBound(n, divisor);
    n / divisor
  }

  /** `anchored_timestamp_micros`, for any tick rate; the result fits a signed word. */
  function AnchoredMicros(anchor: u64, ticks: u64, perSecond: u32): (micros: int)
    ensures 0 <= micros <= I64_MAX
  {
    var elapsed: u64 := if perSecond == 0 then U64_MAX else Quotient(SaturatingMul(ticks, MICROS), perSecond);
    Min(SaturatingAdd(anchor, elapsed), I64_MAX)
  }

  function WrappingSub(a: u32, b: u32): u32 {
    if a >= b then a - b else a - b + WRAP
  }

  datatype ClockState = ClockState(previous: Option<u32>, elapsed: u64, anchor: Option<u64>)

  const START: ClockState := ClockState(None, 0, None)

  /** The state behind an accepted timestamp. */
  function Next(c: ClockState, timestamp: u32, observed: u64): Result<ClockState, ClockError> {
    var anchor := if c.anchor.Some? then c.anchor.value else observed;
    if c.previous.None? then Ok(ClockState(Some(timestamp), c.elapsed, Some(anchor)))
    else
      var delta := WrappingSub(timestamp, c.previous.value);
      if delta > WINDOW then Err(BeyondWindow)
      else Ok(ClockState(Some(timestamp), SaturatingAdd(c.elapsed, delta), Some(anchor)))
  }

  function Pts(c: ClockState): int
    requires c.anchor.Some?
  {
    AnchoredMicros(c.anchor.value, c.elapsed, SAMPLE_RATE)
  }

  /** What a clock in state `c` answers. */
  function Answer(c: ClockState, timestamp: u32, observed: u64): Result<int, ClockError> {
    match Next(c, timestamp, observed)
    case Err(e) => Err(e)
    case Ok(n) => Ok(Pts(n))
  }

  /** A rejected timestamp leaves the clock as it was. */
  function Step(c: ClockState, timestamp: u32, observed: u64): ClockState {
    match Next(c, timestamp, observed)
    case Err(_) => c
    case Ok(n) => n
  }

  class Clock {
    var previous: Option<u32>
    var elapsedSamples: u64
    var anchorMicros: Option<u64>

    function State(): ClockState
      reads this
    {
      ClockState(previous, elapsedSamples, anchorMicros)
    }

    constructor ()
      ensures State() == START
    {
      previous, elapsedSamples, anchorMicros := None, 0, None;
    }

    method PtsUs(timestamp: u32, observed: u64) returns (pts: Result<int, ClockError>)
      modifies this
      ensures State() == Step(old(State()), timestamp, observed)
      ensures pts == Answer(old(State()), timestamp, observed)
    {
      if previous.Some? {
        var delta := WrappingSub(timestamp, previous.value);
        if delta > WINDOW { return Err(BeyondWindow); }
        elapsedSamples := SaturatingAdd(elapsedSamples, delta);
      }
      previous := Some(timestamp);
      if anchorMicros.None? { anchorMicros := Some(observed); }
      pts := Ok(AnchoredMicros(anchorMicros.value, elapsedSamples, SAMPLE_RATE));
    }
  }

  // -------------------------------------------------------------------- runs

  datatype Input = Input(timestamp: u32, observed: u64)

  /** The clock behind the first `n` inputs, accepted or not. */
  function After(inputs: seq<Input>, n: nat): ClockState
    requires n <= |inputs|
    decreases n
  {
    if n == 0 then START else Step(After(inputs, n - 1), inputs[n-1].timestamp, inputs[n-1].observed)
  }

  function AnswerAt(inputs: seq<Input>, n: nat): Result<int, ClockError>
    requires n < |inputs|
  {
    Answer(After(inputs, n), inputs[n].timestamp, inputs[n].observed)
  }

  lemma LaterIsNotEarlier(anchor: u64, t0: u64, t1: u64)
    requires t0 <= t1
    ensures AnchoredMicros(anchor, t0, SAMPLE_RATE) <= AnchoredMicros(anchor, t1, SAMPLE_RATE)
  {
    MulMonotone(t0, t1, MICROS);
    DivBound(SaturatingMul(t0, MICROS), SAMPLE_RATE);
    DivBound(SaturatingMul(t1, MICROS), SAMPLE_RATE);
    DivMonotone(SaturatingMul(t0, MICROS), SaturatingMul(t1, MICROS), SAMPLE_RATE);
  }

  lemma {:induction false} ElapsedOnlyGrows(inputs: seq<Input>, i: nat, j: nat)
    requires i <= j <= |inputs| && After(inputs, i).anchor.Some?
    ensures After(inputs, j).anchor == After(inputs, i).anchor
    ensures After(inputs, i).elapsed <= After(inputs, j).elapsed
    decreases j
  {
    if i < j { ElapsedOnlyGrows(inputs, i, j - 1); }
  }

  /** Over any inputs at all, wrapped, repeated or rejected, the times answered never
      run backwards, and a rejected timestamp answers nothing and changes nothing. */
  lemma NeverRunsBackwards(inputs: seq<Input>, i: nat, j: nat)
    requires i < j < |inputs|
    ensures AnswerAt(inputs, i).Ok? && AnswerAt(inputs, j).Ok? ==>
              AnswerAt(inputs, i).value <= AnswerAt(inputs, j).value
    ensures AnswerAt(inputs, i).Err? ==> After(inputs, i + 1) == After(inputs, i)
  {
    hide AnchoredMicros;
    if AnswerAt(inputs, i).Ok? && AnswerAt(inputs, j).Ok? {
      ElapsedOnlyGrows(inputs, i + 1, j + 1);
      LaterIsNotEarlier(After(inputs, i + 1).anchor.value, After(inputs, i + 1).elapsed, After(inputs, j + 1).elapsed);
    }
  }

  // ------------------------------------------------------- the unbounded clock

  /** True sample positions, each within the window of the one before. */
  predicate Steady(samples: seq<nat>) {
    forall k :: 0 <= k < |samples| - 1 ==> Close(samples[k], samples[k+1])
  }

  predicate Close(a: nat, b: nat) {
    a <= b <= a + 480_000
  }

  /** The inputs are those positions, modulo 2^32. */
  predicate Wrapped(inputs: seq<Input>, samples: seq<nat>) {
    |inputs| == |samples| && forall k :: 0 <= k < |samples| ==> inputs[k].timestamp == samples[k] % 0x1_0000_0000
  }

  lemma WrappingSubIsTheStep(a: nat, b: nat)
    requires Close(a, b)
    ensures WrappingSub(b % WRAP, a % WRAP) == b - a
  {
    assert a == a / WRAP * WRAP + a % WRAP && b == b / WRAP * WRAP + b % WRAP;
    assert 0 <= b / WRAP - a / WRAP <= 1;
  }

  lemma {:induction false} TracksPositions(inputs: seq<Input>, samples: seq<nat>, n: nat)
    requires Steady(samples) && Wrapped(inputs, samples) && 0 < n <= |inputs|
    ensures samples[0] <= samples[n-1]
    ensures After(inputs, n) ==
            ClockState(Some(samples[n-1] % WRAP), Min(samples[n-1] - samples[0], U64_MAX), Some(inputs[0].observed))
    ensures forall k :: 0 <= k < n ==> AnswerAt(inputs, k).Ok?
    decreases n
  {
    hide AnchoredMicros, WrappingSub;
    if n == 1 {
      assert After(inputs, 0) == START;
    } else {
      TracksPositions(inputs, samples, n - 1);
      assert Close(samples[n-2], samples[(n-2)+1]);
      WrappingSubIsTheStep(samples[n-2], samples[n-1]);
    }
  }

  /** The time of a position on an unbounded clock, in a signed 64-bit word. */
  function Ideal(anchor: nat, samples: nat): int {
    Min(anchor + samples * 1_000_000 / 48_000, I64_MAX)
  }

  /** The largest sample count whose microseconds fit 64 bits. */
  const EXACT: nat := U64_MAX / MICROS
  /** What the elapsed time sticks at beyond it. */
  const STUCK: nat := U64_MAX / SAMPLE_RATE

  lemma AnchoredIsIdealIff(anchor: u64, samples: nat)
    ensures AnchoredMicros(anchor, Min(samples, U64_MAX), SAMPLE_RATE) == Ideal(anchor, samples)
            <==> samples <= EXACT || anchor + STUCK >= I64_MAX
  {
    if samples <= EXACT {
      DivBound(samples * MICROS, SAMPLE_RATE);
    } else {
      MulMonotone(EXACT + 1, samples, MICROS);
      MulMonotone(EXACT + 1, Min(samples, U64_MAX), MICROS);
      DivMonotone((EXACT + 1) * MICROS, samples * MICROS, SAMPLE_RATE);
    }
  }

  /** Positions that step by at most ten seconds, fed modulo 2^32, are all accepted,
      and the answer is the first observation plus the exact floor of the total, with
      no rounding carried from packet to packet, exactly as long as the total stays
      within EXACT or both clocks have reached the largest signed word. */
  lemma RefinesUnboundedClock(inputs: seq<Input>, samples: seq<nat>, n: nat)
    requires Steady(samples) && Wrapped(inputs, samples) && n < |inputs|
    ensures samples[0] <= samples[n] && AnswerAt(inputs, n).Ok?
    ensures AnswerAt(inputs, n).value == Ideal(inputs[0].observed, samples[n] - samples[0])
            <==> samples[n] - samples[0] <= EXACT || inputs[0].observed + STUCK >= I64_MAX
  {
    hide AnchoredMicros, Steady, Ideal;
    TracksPositions(inputs, samples, n + 1);
    AnchoredIsIdealIff(inputs[0].observed, samples[n] - samples[0]);
  }

  /** The positions that a run of accepted timestamps stands for. */
  function Unwrap(inputs: seq<Input>): (samples: seq<nat>)
    ensures |samples| == |inputs|
    decreases |inputs|
  {
    var n := |inputs| - 1;
    if inputs == [] then []
    else if n == 0 then [inputs[0].timestamp]
    else
      var front := Unwrap(inputs[..n]);
      front + [front[n-1] + WrappingSub(inputs[n].timestamp, inputs[n-1].timestamp)]
  }

  predicate AllAccepted(inputs: seq<Input>) {
    forall k :: 0 <= k < |inputs| ==> AnswerAt(inputs, k).Ok?
  }

  lemma {:induction false} AfterPrefix(inputs: seq<Input>, m: nat, n: nat)
    requires n <= m <= |inputs|
    ensures After(inputs[..m], n) == After(inputs, n)
    decreases n
  {
    if n > 0 { AfterPrefix(inputs, m, n - 1); }
  }

  lemma AcceptedPrefix(inputs: seq<Input>, m: nat)
    requires m <= |inputs| && AllAccepted(inputs)
    ensures AllAccepted(inputs[..m])
  {
    forall k | 0 <= k < m ensures AnswerAt(inputs[..m], k).Ok? {
      AfterPrefix(inputs, m, k);
      assert AnswerAt(inputs, k).Ok?;
    }
  }

  lemma WrappingSubAdds(a: nat, b: u32)
    ensures (a + WrappingSub(b, a % WRAP)) % WRAP == b
  {
    assert a == a / WRAP * WRAP + a % WRAP;
    var sum := a + WrappingSub(b, a % WRAP);
    assert sum == (if b >= a % WRAP then a / WRAP else a / WRAP + 1) * WRAP + b;
  }

  lemma {:induction false} UnwrapIsSteady(inputs: seq<Input>)
    requires AllAccepted(inputs)
    ensures Steady(Unwrap(inputs)) && Wrapped(inputs, Unwrap(inputs))
    decreases |inputs|
  {
    hide WrappingSub, AnchoredMicros;
    var n := |inputs| - 1;
    if n > 0 {
      AcceptedPrefix(inputs, n);
      var front := Unwrap(inputs[..n]);
      UnwrapIsSteady(inputs[..n]);
      WrappingSubAdds(front[n-1], inputs[n].timestamp);
      assert inputs[..n][n-1] == inputs[n-1];
      TracksPositions(inputs[..n], front, n);
      AfterPrefix(inputs, n, n);
      assert AnswerAt(inputs, n).Ok?;
      assert Close(front[n-1], Unwrap(inputs)[n]);
      forall k | 0 <= k < n ensures Close(Unwrap(inputs)[k], Unwrap(inputs)[k+1]) {
        assert k < n - 1 ==> Close(front[k], front[k+1]);
      }
    }
  }

  /** A run is accepted as a whole exactly when its timestamps are the remainders of
      positions that step by at most the window: unwrapping is not guesswork. */
  lemma AcceptedIffSteady(inputs: seq<Input>)
    ensures AllAccepted(inputs) <==> exists samples :: Steady(samples) && Wrapped(inputs, samples)
  {
    hide AnchoredMicros, WrappingSub, Steady, Wrapped, AnswerAt;
    if AllAccepted(inputs) { UnwrapIsSteady(inputs); }
    forall samples | Steady(samples) && Wrapped(inputs, samples) ensures AllAccepted(inputs) {
      WrappedLength(inputs, samples);
      if inputs != [] { TracksPositions(inputs, samples, |inputs|); }
    }
  }

  lemma WrappedLength(inputs: seq<Input>, samples: seq<nat>)
    requires Wrapped(inputs, samples)
    ensures |inputs| == |samples|
  {
  }
}
