/** The audio receive loop: strict parsing, the presentation clock, a bounded queue
    that drops when full, and discontinuity marks (crates/sigil-host/src/audio.rs). */
module AudioReceiver {
  import opened Prelude
  import RtpClock
  import RtpPacket

  const DATAGRAM_CAPACITY: nat := 2_048

  /** What the queue answers to `try_send`. */
  datatype Offer = Sent | Full | Closed

  datatype Arrival = Arrival(loopback: bool, datagram: Bytes, observed: u64, offer: Offer)

  datatype EncodedPacket = EncodedPacket(sequence: u64, captured: u64, pts: int, discontinuity: bool, payload: Bytes)

  datatype End =
    | Waiting
    | ReceiverClosed
    | NotLoopback
    | BadDatagram(error: RtpPacket.RtpError)
    | BadTimestamp

  /** One arrival that reached the queue, delivered or dropped. */
  datatype Fate = Fate(packet: EncodedPacket, rtp: u16, delivered: bool)

  /** The loop's variables, what became of each arrival so far, and how it ended. */
  datatype Progress = Progress(
    sequence: u64,
    previous: Option<u16>,
    clock: RtpClock.ClockState,
    pending: bool,
    fates: seq<Fate>,
    end: End)

  function Parsed(a: Arrival, ssrc: u32): Result<RtpPacket.Packet, RtpPacket.RtpError> {
    RtpPacket.ParseRtpOpus(a.datagram[..Min(|a.datagram|, DATAGRAM_CAPACITY)], ssrc)
  }

  predicate Jumps(previous: Option<u16>, sequence: u16) {
    previous.Some? && (previous.value + 1) % 0x1_0000 != sequence
  }

  function Handle(p: Progress, a: Arrival, ssrc: u32): Progress {
    if !a.loopback then p.(end := NotLoopback)
    else
      match Parsed(a, ssrc)
      case Err(e) => p.(end := BadDatagram(e))
      case Ok(packet) =>
        match RtpClock.Next(p.clock, packet.timestamp, a.observed)
        case Err(_) => p.(end := BadTimestamp)
        case Ok(clock) =>
          if a.offer.Closed? then p.(end := ReceiverClosed)
          else
            var encoded := EncodedPacket(p.sequence, a.observed, RtpClock.Pts(clock),
                                         p.pending || Jumps(p.previous, packet.sequence), packet.payload);
            Progress(SaturatingAdd(p.sequence, 1), Some(packet.sequence), clock, a.offer.Full?,
                     p.fates + [Fate(encoded, packet.sequence, a.offer.Sent?)], Waiting)
  }

  const BEGIN: Progress := Progress(0, None, RtpClock.START, false, [], Waiting)

  /** The loop after the first `n` arrivals; nothing is read once it has ended. */
  function Through(ssrc: u32, arrivals: seq<Arrival>, n: nat): Progress
    requires n <= |arrivals|
    decreases n
  {
    if n == 0 then BEGIN
    else
      var p := Through(ssrc, arrivals, n - 1);
      if p.end != Waiting then p else Handle(p, arrivals[n-1], ssrc)
  }

  /** The packets the receiving side gets. */
  function Delivered(fates: seq<Fate>): seq<EncodedPacket>
    decreases |fates|
  {
    var n := |fates| - 1;
    if fates == [] then []
    else Delivered(fates[..n]) + if fates[n].delivered then [fates[n].packet] else []
  }

  lemma {:induction false} EndsForGood(ssrc: u32, arrivals: seq<Arrival>, n: nat, m: nat)
    requires n <= m <= |arrivals| && Through(ssrc, arrivals, n).end != Waiting
    ensures Through(ssrc, arrivals, m) == Through(ssrc, arrivals, n)
    decreases m
  {
    if n < m { EndsForGood(ssrc, arrivals, n, m - 1); }
  }

  lemma NothingArrived(ssrc: u32, arrivals: seq<Arrival>)
    ensures Through(ssrc, arrivals, 0) == BEGIN && Delivered([]) == []
  {
  }

  lemma OneMoreArrived(ssrc: u32, arrivals: seq<Arrival>, n: nat)
    requires 0 < n <= |arrivals|
    ensures var p := Through(ssrc, arrivals, n - 1);
            Through(ssrc, arrivals, n) == if p.end != Waiting then p else Handle(p, arrivals[n-1], ssrc)
  {
    hide Handle;
  }

  lemma DeliveredSnoc(fates: seq<Fate>, f: Fate)
    ensures Delivered(fates + [f]) == Delivered(fates) + if f.delivered then [f.packet] else []
  {
    assert (fates + [f])[..|fates|] == fates;
  }

  /** The loop as written, fed by a socket that yields `arrivals` and then nothing:
      the packets that went into the queue, and how the loop ended. */
  method ReceiveRtp(ssrc: u32, arrivals: seq<Arrival>) returns (sent: seq<EncodedPacket>, end: End)
    ensures sent == Delivered(Through(ssrc, arrivals, |arrivals|).fates)
    ensures end == Through(ssrc, arrivals, |arrivals|).end
  {
    hide RtpClock.Next, RtpClock.AnchoredMicros, RtpPacket.ParseRtpOpus, Delivered, Through, SaturatingAdd, Jumps;
    var sequence: u64 := 0;
    var previous: Option<u16> := None;
    var clock := new RtpClock.Clock();
    var pending := false;
    sent := [];
    ghost var p := BEGIN;
    NothingArrived(ssrc, arrivals);
    for i := 0 to |arrivals|
      invariant p == Through(ssrc, arrivals, i) && p.end == Waiting
      invariant sent == Delivered(p.fates)
      invariant p == Progress(sequence, previous, clock.State(), pending, p.fates, Waiting)
    {
      var a := arrivals[i];
      ghost var next := Handle(p, a, ssrc);
      OneMoreArrived(ssrc, arrivals, i + 1);
      if next.end != Waiting { EndsForGood(ssrc, arrivals, i + 1, |arrivals|); }
      if !a.loopback { return sent, NotLoopback; }
      var parsed := Parsed(a, ssrc);
      if parsed.Err? { return sent, BadDatagram(parsed.error); }
      var packet := parsed.value;
      var jumps := Jumps(previous, packet.sequence);
      previous := Some(packet.sequence);
      var pts := clock.PtsUs(packet.timestamp, a.observed);
      if pts.Err? { return sent, BadTimestamp; }
      var encoded := EncodedPacket(sequence, a.observed, pts.value, pending || jumps, packet.payload);
      sequence := SaturatingAdd(sequence, 1);
      match a.offer {
        case Sent => sent, pending := sent + [encoded], false;
        case Full => pending := true;
        case Closed => return sent, ReceiverClosed;
      }
      DeliveredSnoc(p.fates, Fate(encoded, packet.sequence, a.offer.Sent?));
      p := next;
    }
    end := Waiting;
  }

  // ----------------------------------------------------------------- history

  /** The fate at `k` says no more and no less than the history before it. */
  predicate FateExact(fates: seq<Fate>, k: nat)
    requires k < |fates|
  {
    && fates[k].packet.sequence == Min(k, U64_MAX)
    && (fates[k].packet.discontinuity <==>
          k > 0 && (!fates[k-1].delivered || fates[k].rtp != (fates[k-1].rtp + 1) % 0x1_0000))
  }

  predicate LoopAgrees(p: Progress) {
    var n := |p.fates|;
    && p.sequence == Min(n, U64_MAX)
    && (if n == 0 then p.previous.None? && !p.pending
        else p.previous == Some(p.fates[n-1].rtp) && p.pending == !p.fates[n-1].delivered)
  }

  lemma HandleKeepsHistory(p: Progress, a: Arrival, ssrc: u32)
    requires LoopAgrees(p) && (forall k :: 0 <= k < |p.fates| ==> FateExact(p.fates, k))
    ensures var q := Handle(p, a, ssrc);
            LoopAgrees(q) && forall k :: 0 <= k < |q.fates| ==> FateExact(q.fates, k)
  {
    hide RtpClock.Next, RtpClock.Pts, RtpPacket.ParseRtpOpus;
    var q := Handle(p, a, ssrc);
    forall k | 0 <= k < |q.fates| ensures FateExact(q.fates, k) {
      if k < |p.fates| { assert FateExact(p.fates, k); }
    }
  }

  lemma {:induction false} HistoryIsExact(ssrc: u32, arrivals: seq<Arrival>, n: nat)
    requires n <= |arrivals|
    ensures var p := Through(ssrc, arrivals, n);
            LoopAgrees(p) && forall k :: 0 <= k < |p.fates| ==> FateExact(p.fates, k)
    decreases n
  {
    hide Handle, FateExact;
    if n > 0 {
      HistoryIsExact(ssrc, arrivals, n - 1);
      var p := Through(ssrc, arrivals, n - 1);
      if p.end == Waiting { HandleKeepsHistory(p, arrivals[n-1], ssrc); }
    }
  }

  // -------------------------------------------------------- delivered packets

  /** Which arrivals were delivered, in order. */
  function Places(fates: seq<Fate>): (places: seq<nat>)
    ensures |places| == |Delivered(fates)|
    ensures forall i :: 0 <= i < |places| ==> places[i] < |fates|
    decreases |fates|
  {
    var n := |fates| - 1;
    if fates == [] then [] else Places(fates[..n]) + if fates[n].delivered then [n] else []
  }

  predicate NoneDelivered(fates: seq<Fate>, a: nat, b: nat) {
    forall k :: a <= k < b && k < |fates| ==> !fates[k].delivered
  }

  /** Where the first `i` delivered packets leave off. */
  function Resume(fates: seq<Fate>, i: nat): nat
    requires i <= |Places(fates)|
  {
    if i == 0 then 0 else Places(fates)[i-1] + 1
  }

  lemma PlacesSnoc(fates: seq<Fate>, f: Fate)
    ensures Places(fates + [f]) == Places(fates) + if f.delivered then [|fates|] else []
  {
    hide Delivered;
    assert (fates + [f])[..|fates|] == fates;
  }

  lemma NoPlaces()
    ensures Places([]) == [] && Delivered([]) == []
  {
  }

  lemma {:induction false} PlacesAreDeliveries(fates: seq<Fate>, i: nat)
    requires i <= |Places(fates)|
    ensures i < |Places(fates)| ==>
              var b := Places(fates)[i];
              && Resume(fates, i) <= b && NoneDelivered(fates, Resume(fates, i), b)
              && fates[b].delivered && fates[b].packet == Delivered(fates)[i]
    ensures i == |Places(fates)| ==> NoneDelivered(fates, Resume(fates, i), |fates|)
    decreases |fates|
  {
    hide Places, Delivered;
    NoPlaces();
    if fates != [] {
      var n := |fates| - 1;
      var front, last := fates[..n], fates[n];
      assert fates == front + [last];
      PlacesSnoc(front, last);
      DeliveredSnoc(front, last);
      var k := Min(i, |Places(front)|);
      PlacesAreDeliveries(front, k);
      SameNoneDelivered(front, last, Resume(front, k));
    }
  }

  lemma SameNoneDelivered(front: seq<Fate>, last: Fate, a: nat)
    ensures forall b: nat :: b <= |front| ==> NoneDelivered(front + [last], a, b) == NoneDelivered(front, a, b)
    ensures !last.delivered ==> NoneDelivered(front + [last], a, |front| + 1) == NoneDelivered(front, a, |front|)
  {
    var fates := front + [last];
    assert forall k :: 0 <= k < |front| ==> fates[k] == front[k];
  }

  /** Over every history of arrivals and queue states: between two consecutive
      delivered packets the second is unmarked exactly when nothing was dropped
      between them and its RTP number succeeds the first's, and their sequence
      numbers count the drops exactly until the counter saturates. */
  lemma MarksAndGapsAreExact(ssrc: u32, arrivals: seq<Arrival>, i: nat)
    requires i + 1 < |Delivered(Through(ssrc, arrivals, |arrivals|).fates)|
    ensures var fates := Through(ssrc, arrivals, |arrivals|).fates;
            var first, second := Delivered(fates)[i], Delivered(fates)[i+1];
            var a, b := Places(fates)[i], Places(fates)[i+1];
            && a < b && NoneDelivered(fates, a + 1, b)
            && fates[a] == Fate(first, fates[a].rtp, true) && fates[b] == Fate(second, fates[b].rtp, true)
            && (!second.discontinuity <==> b == a + 1 && fates[b].rtp == (fates[a].rtp + 1) % 0x1_0000)
            && (second.sequence - first.sequence - 1 == b - a - 1 <==> b <= U64_MAX)
  {
    hide Delivered, Through, Places;
    var fates := Through(ssrc, arrivals, |arrivals|).fates;
    HistoryIsExact(ssrc, arrivals, |arrivals|);
    PlacesAreDeliveries(fates, i);
    PlacesAreDeliveries(fates, i + 1);
    assert FateExact(fates, Places(fates)[i]) && FateExact(fates, Places(fates)[i+1]);
  }

  /** The first delivered packet is marked exactly when an arrival was dropped before it. */
  lemma FirstMarkIsExact(ssrc: u32, arrivals: seq<Arrival>)
    requires Delivered(Through(ssrc, arrivals, |arrivals|).fates) != []
    ensures var fates := Through(ssrc, arrivals, |arrivals|).fates;
            Delivered(fates)[0].discontinuity <==> exists k :: 0 <= k < Places(fates)[0] && !fates[k].delivered
  {
    hide Delivered, Through, Places;
    var fates := Through(ssrc, arrivals, |arrivals|).fates;
    HistoryIsExact(ssrc, arrivals, |arrivals|);
    PlacesAreDeliveries(fates, 0);
    assert FateExact(fates, Places(fates)[0]);
    if Places(fates)[0] > 0 { assert !fates[0].delivered; }
  }

  // ------------------------------------------------------------ the clock's run

  function InputOf(ssrc: u32, a: Arrival): RtpClock.Input {
    match Parsed(a, ssrc)
    case Err(_) => RtpClock.Input(0, a.observed)
    case Ok(packet) => RtpClock.Input(packet.timestamp, a.observed)
  }

  function Inputs(ssrc: u32, arrivals: seq<Arrival>): (inputs: seq<RtpClock.Input>)
    ensures |inputs| == |arrivals|
    ensures forall k :: 0 <= k < |arrivals| ==> inputs[k] == InputOf(ssrc, arrivals[k])
    decreases |arrivals|
  {
    if arrivals == [] then [] else [InputOf(ssrc, arrivals[0])] + Inputs(ssrc, arrivals[1..])
  }

  /** The fate of an arrival carries that arrival's payload, observation, the clock's own
      answer and the queue's. */
  predicate FateCarries(ssrc: u32, arrivals: seq<Arrival>, fates: seq<Fate>, k: nat)
    requires k < |fates| <= |arrivals|
  {
    && Parsed(arrivals[k], ssrc).Ok?
    && (var packet := Parsed(arrivals[k], ssrc).value;
        && fates[k].rtp == packet.sequence && fates[k].packet.payload == packet.payload
        && fates[k].packet.captured == arrivals[k].observed)
    && (fates[k].delivered <==> arrivals[k].offer.Sent?) && (!fates[k].delivered <==> arrivals[k].offer.Full?)
    && RtpClock.AnswerAt(Inputs(ssrc, arrivals), k) == Ok(fates[k].packet.pts)
  }

  lemma HandleCarries(ssrc: u32, arrivals: seq<Arrival>, p: Progress)
    requires |p.fates| < |arrivals| && p.clock == RtpClock.After(Inputs(ssrc, arrivals), |p.fates|)
    ensures var q := Handle(p, arrivals[|p.fates|], ssrc);
            && p.fates <= q.fates && |q.fates| <= |p.fates| + 1
            && (q.end == Waiting ==>
                  && |q.fates| == |p.fates| + 1 && FateCarries(ssrc, arrivals, q.fates, |p.fates|)
                  && q.clock == RtpClock.After(Inputs(ssrc, arrivals), |q.fates|))
            && (q.end != Waiting ==> q.fates == p.fates)
  {
    hide RtpClock.Next, RtpClock.Pts, RtpPacket.ParseRtpOpus, Inputs;
  }

  lemma {:induction false} FatesCarryArrivals(ssrc: u32, arrivals: seq<Arrival>, n: nat)
    requires n <= |arrivals|
    ensures var p := Through(ssrc, arrivals, n);
            && |p.fates| <= n && (p.end == Waiting ==> |p.fates| == n)
            && (p.end == Waiting ==> p.clock == RtpClock.After(Inputs(ssrc, arrivals), n))
            && forall k :: 0 <= k < |p.fates| ==> FateCarries(ssrc, arrivals, p.fates, k)
    decreases n
  {
    hide RtpClock.After, Handle, Inputs, FateCarries;
    if n > 0 {
      FatesCarryArrivals(ssrc, arrivals, n - 1);
      var p, q := Through(ssrc, arrivals, n - 1), Through(ssrc, arrivals, n);
      if p.end == Waiting {
        HandleCarries(ssrc, arrivals, p);
        forall k | 0 <= k < |q.fates| ensures FateCarries(ssrc, arrivals, q.fates, k) {
          if k < |p.fates| { CarriesSame(ssrc, arrivals, p.fates, q.fates, k); }
        }
      }
    } else {
      ClockBegins(Inputs(ssrc, arrivals));
    }
  }

  lemma ClockBegins(inputs: seq<RtpClock.Input>)
    ensures RtpClock.After(inputs, 0) == RtpClock.START
  {
  }

  lemma CarriesSame(ssrc: u32, arrivals: seq<Arrival>, before: seq<Fate>, after: seq<Fate>, k: nat)
    requires k < |before| <= |after| <= |arrivals| && before <= after && FateCarries(ssrc, arrivals, before, k)
    ensures FateCarries(ssrc, arrivals, after, k)
  {
  }

  /** What is wrong with the arrival that ends the loop. */
  predicate Offends(ssrc: u32, arrivals: seq<Arrival>, k: nat, end: End)
    requires k < |arrivals|
  {
    match end
    case Waiting => false
    case NotLoopback => !arrivals[k].loopback
    case BadDatagram(e) => arrivals[k].loopback && Parsed(arrivals[k], ssrc) == Err(e)
    case BadTimestamp =>
      arrivals[k].loopback && Parsed(arrivals[k], ssrc).Ok? && RtpClock.AnswerAt(Inputs(ssrc, arrivals), k).Err?
    case ReceiverClosed =>
      && arrivals[k].loopback && Parsed(arrivals[k], ssrc).Ok? && RtpClock.AnswerAt(Inputs(ssrc, arrivals), k).Ok?
      && arrivals[k].offer.Closed?
  }

  lemma HandleOffends(ssrc: u32, arrivals: seq<Arrival>, p: Progress)
    requires |p.fates| < |arrivals| && p.clock == RtpClock.After(Inputs(ssrc, arrivals), |p.fates|)
    requires p.end == Waiting
    ensures var q := Handle(p, arrivals[|p.fates|], ssrc);
            q.end != Waiting ==> Offends(ssrc, arrivals, |p.fates|, q.end)
  {
    hide RtpClock.Next, RtpClock.Pts, RtpPacket.ParseRtpOpus, Inputs;
  }

  /** The loop ends at the first arrival that offends, for the reason that it does;
      everything before it was queued or dropped, nothing after it is looked at. */
  lemma {:induction false} EndsAtFirstOffence(ssrc: u32, arrivals: seq<Arrival>, n: nat)
    requires n <= |arrivals|
    ensures var p := Through(ssrc, arrivals, n);
            if p.end == Waiting then |p.fates| == n
            else |p.fates| < n && Offends(ssrc, arrivals, |p.fates|, p.end)
    decreases n
  {
    hide Handle, Inputs, Offends;
    FatesCarryArrivals(ssrc, arrivals, n);
    if n > 0 {
      EndsAtFirstOffence(ssrc, arrivals, n - 1);
      FatesCarryArrivals(ssrc, arrivals, n - 1);
      var p := Through(ssrc, arrivals, n - 1);
      if p.end == Waiting {
        HandleOffends(ssrc, arrivals, p);
        HandleCarries(ssrc, arrivals, p);
      }
    }
  }

  /** Of a datagram longer than the buffer the first 2048 bytes are heard. */
  lemma HeardIsCut(a: Arrival, ssrc: u32)
    ensures Parsed(a, ssrc) ==
            RtpPacket.ParseRtpOpus(if |a.datagram| <= 2_048 then a.datagram else a.datagram[..2_048], ssrc)
  {
    if |a.datagram| <= 2_048 { assert a.datagram[..|a.datagram|] == a.datagram; }
  }

  /** The packet that arrival `k` becomes if the queue takes it. */
  predicate Carries(ssrc: u32, arrivals: seq<Arrival>, k: nat, packet: EncodedPacket)
    requires k < |arrivals|
  {
    && Parsed(arrivals[k], ssrc).Ok? && packet.payload == Parsed(arrivals[k], ssrc).value.payload
    && packet.captured == arrivals[k].observed && RtpClock.AnswerAt(Inputs(ssrc, arrivals), k) == Ok(packet.pts)
    && packet.sequence == Min(k, U64_MAX)
  }

  /** What is sent is exactly what the queue took, in order: the `i`th packet sent is the
      arrival at the `i`th place with the answer `Sent`, and before, between and behind
      these places the queue was full. */
  lemma SentIsWhatTheQueueTook(ssrc: u32, arrivals: seq<Arrival>, i: nat)
    requires i <= |Delivered(Through(ssrc, arrivals, |arrivals|).fates)|
    ensures var fates := Through(ssrc, arrivals, |arrivals|).fates;
            var sent, places := Delivered(fates), Places(fates);
            && |fates| <= |arrivals|
            && (i < |sent| ==>
                  && Resume(fates, i) <= places[i] && arrivals[places[i]].offer.Sent?
                  && Carries(ssrc, arrivals, places[i], sent[i])
                  && forall k :: Resume(fates, i) <= k < places[i] ==> arrivals[k].offer.Full?)
            && (i == |sent| ==> forall k :: Resume(fates, i) <= k < |fates| ==> arrivals[k].offer.Full?)
  {
    hide Delivered, Through, Places, Inputs, Parsed;
    var fates := Through(ssrc, arrivals, |arrivals|).fates;
    FatesCarryArrivals(ssrc, arrivals, |arrivals|);
    HistoryIsExact(ssrc, arrivals, |arrivals|);
    PlacesAreDeliveries(fates, i);
    forall k | 0 <= k < |fates| ensures fates[k].delivered <==> arrivals[k].offer.Sent? {
      assert FateCarries(ssrc, arrivals, fates, k);
    }
    forall k | 0 <= k < |fates| ensures !fates[k].delivered <==> arrivals[k].offer.Full? {
      assert FateCarries(ssrc, arrivals, fates, k);
    }
    if i < |Places(fates)| {
      assert FateExact(fates, Places(fates)[i]) && FateCarries(ssrc, arrivals, fates, Places(fates)[i]);
    }
  }

  /** Marks by the queue's answers: of two packets sent one after the other the second is
      unmarked exactly when no arrival came between them that the queue refused and its
      RTP number succeeds the first's; the first packet sent is marked exactly when the
      queue refused one before it. */
  lemma MarksFollowTheQueue(ssrc: u32, arrivals: seq<Arrival>, i: nat)
    requires i < |Delivered(Through(ssrc, arrivals, |arrivals|).fates)|
    ensures var fates := Through(ssrc, arrivals, |arrivals|).fates;
            var sent, places := Delivered(fates), Places(fates);
            var b := places[i];
            && |fates| <= |arrivals| && Parsed(arrivals[b], ssrc).Ok?
            && (i == 0 ==>
                  (sent[0].discontinuity <==> exists k :: 0 <= k < b && arrivals[k].offer.Full?))
            && (i > 0 ==>
                  var a := places[i-1];
                  && a < b && Parsed(arrivals[a], ssrc).Ok?
                  && (!sent[i].discontinuity <==>
                        && (forall k :: a < k < b ==> !arrivals[k].offer.Full?)
                        && Parsed(arrivals[b], ssrc).value.sequence ==
                             (Parsed(arrivals[a], ssrc).value.sequence + 1) % 0x1_0000))
  {
    hide Delivered, Through, Places, Inputs, Parsed;
    var fates := Through(ssrc, arrivals, |arrivals|).fates;
    FatesCarryArrivals(ssrc, arrivals, |arrivals|);
    SentIsWhatTheQueueTook(ssrc, arrivals, i);
    PlacesAreDeliveries(fates, i);
    assert FateCarries(ssrc, arrivals, fates, Places(fates)[i]);
    if i == 0 {
      FirstMarkIsExact(ssrc, arrivals);
      forall k | 0 <= k < |fates| ensures !fates[k].delivered <==> arrivals[k].offer.Full? {
        assert FateCarries(ssrc, arrivals, fates, k);
      }
    } else {
      MarksAndGapsAreExact(ssrc, arrivals, i - 1);
      assert FateCarries(ssrc, arrivals, fates, Places(fates)[i-1]);
      var a, b := Places(fates)[i-1], Places(fates)[i];
      if b > a + 1 { assert arrivals[a+1].offer.Full?; }
    }
  }

  /** Presentation times never run backwards along what is delivered. */
  lemma DeliveredInTimeOrder(ssrc: u32, arrivals: seq<Arrival>, i: nat)
    requires i + 1 < |Delivered(Through(ssrc, arrivals, |arrivals|).fates)|
    ensures var sent := Delivered(Through(ssrc, arrivals, |arrivals|).fates); sent[i].pts <= sent[i+1].pts
  {
    hide Delivered, Through, Places, RtpClock.AnswerAt, Inputs, RtpPacket.ParseRtpOpus, NoneDelivered;
    var fates := Through(ssrc, arrivals, |arrivals|).fates;
    FatesCarryArrivals(ssrc, arrivals, |arrivals|);
    PlacesAreDeliveries(fates, i);
    PlacesAreDeliveries(fates, i + 1);
    var a, b := Places(fates)[i], Places(fates)[i+1];
    assert FateCarries(ssrc, arrivals, fates, a) && FateCarries(ssrc, arrivals, fates, b);
    RtpClock.NeverRunsBackwards(Inputs(ssrc, arrivals), a, b);
  }
}
