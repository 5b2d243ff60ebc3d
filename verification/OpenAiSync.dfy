/** The batching thread of the OpenAI backend: accumulate samples, flush when
    there are enough, keep a millisecond clock of the stream. */
module OpenAiSync {
  import opened Prelude
  import opened Text
  import W = Wav

  const SAMPLE_RATE: nat := 16000
  const MIN_SAMPLES: nat := SAMPLE_RATE / 10
  const MAX_SAMPLES: nat := SAMPLE_RATE * 5

  datatype Received = Packet(data: Pcm) | Timeout

  /** What a request comes back with. */
  datatype Outcome = Failed | Transcribed(text: string)

  /** One turn of the loop: what was received, whether five seconds have passed
      since the last request, and the outcome of a request made in this turn. */
  datatype Turn = Turn(received: Received, elapsed: bool, outcome: Outcome)

  datatype Batcher = Batcher(buffer: Pcm, clock: nat, chunks: seq<Pcm>, outcomes: seq<Outcome>, segments: seq<Segment>)

  function DurationMs(samples: nat): nat {
    samples * 1000 / SAMPLE_RATE
  }

  predicate ShouldFlush(samples: nat, elapsed: bool) {
    samples > MAX_SAMPLES || (samples >= MIN_SAMPLES && elapsed)
  }

  /** The segment a chunk contributes: none if the request fails or the text is blank. */
  function Contribution(chunk: Pcm, start: nat, outcome: Outcome): seq<Segment> {
    if chunk == [] || outcome.Failed? || Blank(outcome.text) then []
    else [Segment(start, start + DurationMs(|chunk|), outcome.text)]
  }

  function TakeTurn(b: Batcher, t: Turn): Batcher {
    var buffer := if t.received.Packet? then b.buffer + t.received.data else b.buffer;
    if !ShouldFlush(|buffer|, t.elapsed) then b.(buffer := buffer)
    else Batcher([], b.clock + DurationMs(|buffer|), b.chunks + [buffer], b.outcomes + [t.outcome],
                 b.segments + Contribution(buffer, b.clock, t.outcome))
  }

  function RunTurns(ts: seq<Turn>): Batcher {
    if ts == [] then Batcher([], 0, [], [], []) else TakeTurn(RunTurns(ts[..|ts| - 1]), ts[|ts| - 1])
  }

  /** A request for one chunk: what the service is posted, and the segment sent on. */
  method TranscribeChunk(chunk: Pcm, start: nat, outcome: Outcome) returns (body: seq<byte>, segment: Option<Segment>)
    ensures chunk != [] ==> body == W.Wav(chunk, 16000, 1)
    ensures (if segment.Some? then [segment.value] else []) == Contribution(chunk, start, outcome)
    ensures segment == if chunk != [] && outcome.Transcribed? && !Blank(outcome.text)
                       then Some(Segment(start, start + |chunk| / 16, outcome.text)) else None
  {
    if chunk == [] {
      return [], None;
    }
    DurationIsSixteenth(|chunk|);
    var duration := |chunk| * 1000 / SAMPLE_RATE;
    body := W.CreateWav(chunk, SAMPLE_RATE, 1);
    match outcome {
      case Failed => segment := None;
      case Transcribed(text) =>
        TrimsAwayIffBlank(text);
        segment := if Trim(text) != "" then Some(Segment(start, start + duration, text)) else None;
    }
  }

  /** The loop, from its start until the sending side disconnects after `ts`. */
  method WorkerLoop(ts: seq<Turn>) returns (b: Batcher)
    ensures b == RunTurns(ts)
  {
    var buffer: Pcm := [];
    var streamTimeMs: nat := 0;
    var chunks, outcomes, segments := [], [], [];
    for i := 0 to |ts|
      invariant RunTurns(ts[..i]) == Batcher(buffer, streamTimeMs, chunks, outcomes, segments)
    {
      assert ts[..i + 1][..i] == ts[..i];
      ghost var before := RunTurns(ts[..i]);
      assert RunTurns(ts[..i + 1]) == TakeTurn(before, ts[i]);
      match ts[i].received {
        case Packet(data) => buffer := buffer + data;
        case Timeout =>
      }
      if |buffer| > MAX_SAMPLES || (|buffer| >= MIN_SAMPLES && ts[i].elapsed) {
        var chunk := buffer;
        buffer := [];
        var start := streamTimeMs;
        streamTimeMs := streamTimeMs + |chunk| * 1000 / SAMPLE_RATE;
        var _, segment := TranscribeChunk(chunk, start, ts[i].outcome);
        chunks, outcomes := chunks + [chunk], outcomes + [ts[i].outcome];
        var emitted := if segment.Some? then [segment.value] else [];
        segments := segments + emitted;
      }
    }
    assert ts[..|ts|] == ts;
    b := Batcher(buffer, streamTimeMs, chunks, outcomes, segments);
  }

  // ------------------------------------------------- conservation and bounds

  function SamplesIn(ts: seq<Turn>): Pcm {
    if ts == [] then []
    else SamplesIn(ts[..|ts| - 1]) + (if ts[|ts| - 1].received.Packet? then ts[|ts| - 1].received.data else [])
  }

  /** Flushed chunks followed by the buffer are the samples received, in order. */
  lemma {:induction false} NothingLostOrInvented(ts: seq<Turn>)
    ensures Flatten(RunTurns(ts).chunks) + RunTurns(ts).buffer == SamplesIn(ts)
    decreases |ts|
  {
    if ts != [] {
      var b, t := RunTurns(ts[..|ts| - 1]), ts[|ts| - 1];
      NothingLostOrInvented(ts[..|ts| - 1]);
      var buffer := if t.received.Packet? then b.buffer + t.received.data else b.buffer;
      assert Flatten(b.chunks) + buffer == SamplesIn(ts);
      if ShouldFlush(|buffer|, t.elapsed) {
        FlattenSnoc(b.chunks, buffer);
      }
    }
  }

  predicate PacketsWithin(ts: seq<Turn>, limit: nat) {
    forall i :: 0 <= i < |ts| && ts[i].received.Packet? ==> |ts[i].received.data| <= limit
  }

  /** Every chunk has at least a tenth of a second; the buffer never keeps more
      than five seconds, which is all that a disconnect can lose; a chunk exceeds
      five by no more than a packet; and a turn that comes five seconds after the
      last request leaves less than a tenth of a second waiting. */
  lemma {:induction false} ChunkBounds(ts: seq<Turn>, limit: nat)
    requires PacketsWithin(ts, limit)
    ensures var b := RunTurns(ts);
      && |b.buffer| <= MAX_SAMPLES
      && (ts != [] && ts[|ts| - 1].elapsed ==> |b.buffer| < MIN_SAMPLES)
      && forall i :: 0 <= i < |b.chunks| ==> MIN_SAMPLES <= |b.chunks[i]| <= MAX_SAMPLES + limit
    decreases |ts|
  {
    if ts != [] {
      ChunkBounds(ts[..|ts| - 1], limit);
    }
  }

  // ------------------------------------------------------------ the clock

  function Elapsed(chunks: seq<Pcm>): nat {
    if chunks == [] then 0 else Elapsed(chunks[..|chunks| - 1]) + DurationMs(|chunks[|chunks| - 1]|)
  }

  lemma DurationIsSixteenth(samples: nat)
    ensures DurationMs(samples) == samples / 16
    ensures 16 * DurationMs(samples) <= samples <= 16 * DurationMs(samples) + 15
  {
  }

  lemma ElapsedSnoc(chunks: seq<Pcm>, chunk: Pcm)
    ensures Elapsed(chunks + [chunk]) == Elapsed(chunks) + DurationMs(|chunk|)
  {
    assert (chunks + [chunk])[..|chunks|] == chunks;
  }

  /** The segments a list of chunks and outcomes gives: each starts where the
      durations of all earlier chunks end, whatever became of those chunks. */
  function Timeline(chunks: seq<Pcm>, outcomes: seq<Outcome>): seq<Segment>
    requires |chunks| == |outcomes|
  {
    if chunks == [] then []
    else
      var n := |chunks| - 1;
      Timeline(chunks[..n], outcomes[..n]) + Contribution(chunks[n], Elapsed(chunks[..n]), outcomes[n])
  }

  lemma {:induction false} ClockIsElapsed(ts: seq<Turn>)
    ensures var b := RunTurns(ts);
      && |b.chunks| == |b.outcomes|
      && b.clock == Elapsed(b.chunks)
      && b.segments == Timeline(b.chunks, b.outcomes)
    decreases |ts|
  {
    if ts != [] {
      var b, b' := RunTurns(ts[..|ts| - 1]), RunTurns(ts);
      ClockIsElapsed(ts[..|ts| - 1]);
      if b'.chunks != b.chunks {
        ElapsedSnoc(b.chunks, b'.chunks[|b.chunks|]);
        assert b'.chunks[..|b.chunks|] == b.chunks && b'.outcomes[..|b.chunks|] == b.outcomes;
      }
    }
  }

  /** The clock falls behind the samples by less than a millisecond per flush. */
  lemma {:induction false} ClockDrift(chunks: seq<Pcm>)
    ensures 16 * Elapsed(chunks) <= |Flatten(chunks)| <= 16 * Elapsed(chunks) + 15 * |chunks|
    decreases |chunks|
  {
    if chunks != [] {
      ClockDrift(chunks[..|chunks| - 1]);
      DurationIsSixteenth(|chunks[|chunks| - 1]|);
    }
  }

  lemma {:induction false} ClockTracksSamples(ts: seq<Turn>)
    ensures var b := RunTurns(ts);
      16 * b.clock <= |Flatten(b.chunks)| <= 16 * b.clock + 15 * |b.chunks|
  {
    ClockIsElapsed(ts);
    ClockDrift(RunTurns(ts).chunks);
  }

  // ---------------------------------------------------------- the segments

  predicate InOrder(segments: seq<Segment>) {
    forall i, j :: 0 <= i < j < |segments| ==> segments[i].endMs <= segments[j].startMs
  }

  predicate Within(segments: seq<Segment>, end: nat) {
    forall i :: 0 <= i < |segments| ==> segments[i].startMs + 100 <= segments[i].endMs <= end
  }

  lemma AppendInOrder(segments: seq<Segment>, s: Segment, end: nat)
    requires InOrder(segments) && Within(segments, end) && end == s.startMs && s.startMs + 100 <= s.endMs
    ensures InOrder(segments + [s]) && Within(segments + [s], s.endMs)
  {
    var all := segments + [s];
    forall i, j | 0 <= i < j < |all| ensures all[i].endMs <= all[j].startMs {
      assert all[i] == segments[i];
    }
  }

  /** Segments lie inside the elapsed stream, each at least 100 ms long, in order
      and disjoint, if every chunk has the minimum length. */
  lemma {:induction false} TimelineIsOrdered(chunks: seq<Pcm>, outcomes: seq<Outcome>)
    requires |chunks| == |outcomes|
    requires forall i :: 0 <= i < |chunks| ==> |chunks[i]| >= MIN_SAMPLES
    ensures InOrder(Timeline(chunks, outcomes)) && Within(Timeline(chunks, outcomes), Elapsed(chunks))
    decreases |chunks|
  {
    if chunks != [] {
      var n := |chunks| - 1;
      TimelineIsOrdered(chunks[..n], outcomes[..n]);
      DurationIsSixteenth(|chunks[n]|);
      var before, now := Timeline(chunks[..n], outcomes[..n]), Elapsed(chunks[..n]);
      var contribution := Contribution(chunks[n], now, outcomes[n]);
      if contribution == [] {
        assert before + contribution == before;
      } else {
        AppendInOrder(before, contribution[0], now);
        assert before + contribution == before + [contribution[0]];
      }
    }
  }

  /** Segment s is the interval of chunk c, with that chunk's text. */
  predicate FromChunk(chunks: seq<Pcm>, outcomes: seq<Outcome>, c: nat, s: Segment)
    requires |chunks| == |outcomes| && c < |chunks|
  {
    && s.startMs == Elapsed(chunks[..c]) && s.endMs == Elapsed(chunks[..c]) + DurationMs(|chunks[c]|)
    && outcomes[c] == Transcribed(s.text) && !Blank(s.text)
  }

  lemma {:induction false} TimelineSource(chunks: seq<Pcm>, outcomes: seq<Outcome>, i: nat)
    requires |chunks| == |outcomes| && i < |Timeline(chunks, outcomes)|
    ensures exists c: nat :: c < |chunks| && FromChunk(chunks, outcomes, c, Timeline(chunks, outcomes)[i])
    decreases |chunks|
  {
    var n := |chunks| - 1;
    var before, all := Timeline(chunks[..n], outcomes[..n]), Timeline(chunks, outcomes);
    var contribution := Contribution(chunks[n], Elapsed(chunks[..n]), outcomes[n]);
    assert all == before + contribution;
    if i < |before| {
      TimelineSource(chunks[..n], outcomes[..n], i);
      var c: nat :| c < n && FromChunk(chunks[..n], outcomes[..n], c, before[i]);
      assert chunks[..n][..c] == chunks[..c];
      assert FromChunk(chunks, outcomes, c, all[i]);
    } else {
      assert all[i] == contribution[0];
      assert FromChunk(chunks, outcomes, n, contribution[0]);
    }
  }

  predicate HasSource(chunks: seq<Pcm>, outcomes: seq<Outcome>, s: Segment)
    requires |chunks| == |outcomes|
  {
    exists c: nat :: c < |chunks| && FromChunk(chunks, outcomes, c, s)
  }

  /** For every run: emitted segments are ordered and disjoint, at least 100 ms
      long, and each is the interval and text of one chunk, failed and blank chunks counted. */
  lemma SegmentsAreOrdered(ts: seq<Turn>)
    ensures var b := RunTurns(ts);
      && |b.chunks| == |b.outcomes|
      && InOrder(b.segments) && Within(b.segments, b.clock)
      && (forall i :: 0 <= i < |b.segments| ==> HasSource(b.chunks, b.outcomes, b.segments[i]))
  {
    var b := RunTurns(ts);
    ClockIsElapsed(ts);
    ChunkBounds(ts, LargestPacket(ts));
    TimelineIsOrdered(b.chunks, b.outcomes);
    forall i | 0 <= i < |b.segments| ensures HasSource(b.chunks, b.outcomes, b.segments[i]) {
      TimelineSource(b.chunks, b.outcomes, i);
    }
  }

  // ------------------------------------- every transcript, and when to flush

  /** The outcome of chunk c calls for a segment. */
  predicate HasText(outcomes: seq<Outcome>, c: nat)
    requires c < |outcomes|
  {
    outcomes[c].Transcribed? && !Blank(outcomes[c].text)
  }

  predicate Ascending(at: seq<nat>) {
    forall i, j :: 0 <= i < j < |at| ==> at[i] < at[j]
  }

  /** `at` names the chunk behind each segment, in order, and names exactly the
      chunks whose request came back with text that is not blank. */
  predicate Matches(b: Batcher, at: seq<nat>) {
    && |b.chunks| == |b.outcomes| && |at| == |b.segments| && Ascending(at)
    && (forall i: nat :: i < |at| ==> at[i] < |b.chunks| && FromChunk(b.chunks, b.outcomes, at[i], b.segments[i]))
    && (forall c: nat :: c < |b.chunks| ==> (c in at <==> HasText(b.outcomes, c)))
  }

  lemma QuietTurnMatches(b: Batcher, at: seq<nat>, chunk: Pcm, clock: nat, outcome: Outcome)
    requires Matches(b, at) && !(outcome.Transcribed? && !Blank(outcome.text))
    ensures Matches(Batcher([], clock, b.chunks + [chunk], b.outcomes + [outcome], b.segments), at)
  {
    forall i: nat | i < |at| ensures FromChunk(b.chunks + [chunk], b.outcomes + [outcome], at[i], b.segments[i]) {
      assert FromChunk(b.chunks, b.outcomes, at[i], b.segments[i]);
      assert (b.chunks + [chunk])[..at[i]] == b.chunks[..at[i]];
    }
    forall c: nat | c < |b.chunks| ensures c in at <==> HasText(b.outcomes + [outcome], c) {
      assert c in at <==> HasText(b.outcomes, c);
    }
  }

  lemma SpokenTurnMatches(b: Batcher, at: seq<nat>, chunk: Pcm, outcome: Outcome)
    requires Matches(b, at) && b.clock == Elapsed(b.chunks) && outcome.Transcribed? && !Blank(outcome.text)
    ensures var s := Segment(b.clock, b.clock + DurationMs(|chunk|), outcome.text);
      Matches(Batcher([], s.endMs, b.chunks + [chunk], b.outcomes + [outcome], b.segments + [s]), at + [|b.chunks|])
  {
    var s := Segment(b.clock, b.clock + DurationMs(|chunk|), outcome.text);
    var n, chunks, outcomes, all := |b.chunks|, b.chunks + [chunk], b.outcomes + [outcome], at + [|b.chunks|];
    forall i: nat | i < |all| ensures all[i] <= n && FromChunk(chunks, outcomes, all[i], (b.segments + [s])[i]) {
      if i < |at| {
        assert FromChunk(b.chunks, b.outcomes, at[i], b.segments[i]);
        assert chunks[..at[i]] == b.chunks[..at[i]];
      } else {
        assert chunks[..n] == b.chunks;
      }
    }
    forall c: nat | c < |chunks| ensures c in all <==> HasText(outcomes, c) {
      if c < n {
        assert c in at <==> HasText(b.outcomes, c);
      } else {
        assert all[|at|] == n;
      }
    }
  }

  /** For every run: the segments are, one each and in chunk order, those of the chunks
      whose request came back with text that is not blank, and there are no others. */
  lemma {:induction false} EveryTranscriptOnce(ts: seq<Turn>) returns (at: seq<nat>)
    ensures Matches(RunTurns(ts), at)
    decreases |ts|
  {
    if ts == [] {
      at := [];
    } else {
      var b, t := RunTurns(ts[..|ts| - 1]), ts[|ts| - 1];
      at := EveryTranscriptOnce(ts[..|ts| - 1]);
      ClockIsElapsed(ts[..|ts| - 1]);
      ChunkBounds(ts[..|ts| - 1], LargestPacket(ts[..|ts| - 1]));
      var buffer := if t.received.Packet? then b.buffer + t.received.data else b.buffer;
      if ShouldFlush(|buffer|, t.elapsed) {
        if t.outcome.Transcribed? && !Blank(t.outcome.text) {
          SpokenTurnMatches(b, at, buffer, t.outcome);
          at := at + [|b.chunks|];
        } else {
          QuietTurnMatches(b, at, buffer, b.clock + DurationMs(|buffer|), t.outcome);
          assert b.segments + [] == b.segments;
        }
      }
    }
  }

  /** A turn takes in what it received and makes everything that waits into one chunk,
      with its own request's outcome, exactly if more than five seconds wait, or at
      least a tenth of a second does and five seconds have passed; otherwise it waits. */
  lemma FlushesIff(ts: seq<Turn>)
    requires ts != []
    ensures var before, after, t := RunTurns(ts[..|ts| - 1]), RunTurns(ts), ts[|ts| - 1];
      var waiting := before.buffer + if t.received.Packet? then t.received.data else [];
      if |waiting| > 80000 || (|waiting| >= 1600 && t.elapsed)
      then after.buffer == [] && after.chunks == before.chunks + [waiting]
           && after.outcomes == before.outcomes + [t.outcome] && after.clock == before.clock + |waiting| / 16
      else after == before.(buffer := waiting)
  {
    var before, t := RunTurns(ts[..|ts| - 1]), ts[|ts| - 1];
    var waiting := before.buffer + if t.received.Packet? then t.received.data else [];
    assert before.buffer + [] == before.buffer;
    DurationIsSixteenth(|waiting|);
  }

  function LargestPacket(ts: seq<Turn>): (limit: nat)
    ensures PacketsWithin(ts, limit)
  {
    if ts == [] then 0
    else
      var rest, t := LargestPacket(ts[..|ts| - 1]), ts[|ts| - 1];
      if t.received.Packet? && |t.received.data| > rest then |t.received.data| else rest
  }

  /** The chunk bound discharges the container's size condition: whatever packets
      below 2^30 samples arrive, every request body reads back as its chunk. */
  lemma {:induction false} RequestsAreReadable(ts: seq<Turn>, i: nat)
    requires PacketsWithin(ts, 0x4000_0000) && i < |RunTurns(ts).chunks|
    ensures var chunk := RunTurns(ts).chunks[i];
      W.Read(W.Wav(chunk, 16000, 1)) == Some((chunk, 16000, 1))
  {
    ChunkBounds(ts, 0x4000_0000);
    var chunk := RunTurns(ts).chunks[i];
    assert W.RatesFit(SAMPLE_RATE, 1);
    assert W.SizesFit(|chunk|);
    W.ReadInvertsWav(chunk, SAMPLE_RATE, 1);
  }
}
