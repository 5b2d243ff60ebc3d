/** Audio decoding: an Opus step (a library, here any deterministic function)
    followed by a resampler that re-chunks samples for an FFT step (likewise). */
module Decoder {
  import opened Prelude

  /** One resampling step on a chunk: the next state, and the output unless it failed. */
  datatype Fft<!F> = Fft(initial: F, step: (F, seq<real>) -> (F, Option<seq<real>>))

  /** Opus decoding of one packet to 48 kHz samples. */
  datatype Opus<!O> = Opus(initial: O, step: (O, seq<byte>) -> (O, Option<Pcm>))

  datatype Resampler<F> = Resampler(fft: F, buffer: seq<real>)

  function FromSample(s: i16): real {
    s as real / 32768.0
  }

  /** Clamp to [-1, 1], scale, truncate toward zero. */
  function ToSample(x: real): i16 {
    var clamped := if x < -1.0 then -1.0 else if x > 1.0 then 1.0 else x;
    var scaled := clamped * 32767.0;
    if scaled >= 0.0 then scaled.Floor else -(-scaled).Floor
  }

  /** There and back, a sample loses one step of loudness: full scale is 32768 on
      the way in but 32767 on the way out, and the fraction is cut. Silence stays. */
  lemma ScaleRoundTrip(s: i16)
    ensures ToSample(FromSample(s)) == if s > 0 then s - 1 else if s < 0 then s + 1 else 0
  {
    var x := s as real;
    assert FromSample(s) * 32767.0 == x - x / 32768.0;
  }

  /** Conversion never overflows the symmetric range and never inverts loudness. */
  lemma ToSampleIsMonotone(x: real, y: real)
    requires x <= y
    ensures -32767 <= ToSample(x) <= ToSample(y) <= 32767
  {
  }

  function FromPcm(pcm: Pcm): (r: seq<real>) {
    seq(|pcm|, i requires 0 <= i < |pcm| => FromSample(pcm[i]))
  }

  function ToPcm(xs: seq<real>): (r: Pcm) {
    seq(|xs|, i requires 0 <= i < |xs| => ToSample(xs[i]))
  }

  function Prepend<F>(out: Pcm, rest: (Resampler<F>, Option<Pcm>)): (Resampler<F>, Option<Pcm>) {
    (rest.0, if rest.1.None? then None else Some(out + rest.1.value))
  }

  /** The chunk loop: feed whole chunks until too little is left or a step fails.
      A failing step has already taken its chunk out of the buffer. */
  function Drain<F>(fft: Fft<F>, size: nat, r: Resampler<F>): (Resampler<F>, Option<Pcm>)
    requires size > 0
    decreases |r.buffer|
  {
    if |r.buffer| < size then (r, Some([]))
    else
      var (f, out) := fft.step(r.fft, r.buffer[..size]);
      var r' := Resampler(f, r.buffer[size..]);
      if out.None? then (r', None) else Prepend(ToPcm(out.value), Drain(fft, size, r'))
  }

  function Resample<F>(fft: Fft<F>, size: nat, r: Resampler<F>, input: Pcm): (Resampler<F>, Option<Pcm>)
    requires size > 0
  {
    Drain(fft, size, r.(buffer := r.buffer + FromPcm(input)))
  }

  /** The chunk a flush submits. */
  function FlushChunk<F>(size: nat, r: Resampler<F>): seq<real> {
    r.buffer + seq(if |r.buffer| < size then size - |r.buffer| else 0, i => 0.0)
  }

  function Flush<F>(fft: Fft<F>, size: nat, r: Resampler<F>): (Resampler<F>, Option<Pcm>) {
    if r.buffer == [] then (r, Some([]))
    else
      var (f, out) := fft.step(r.fft, FlushChunk(size, r));
      (Resampler(f, []), if out.None? then None else Some(ToPcm(out.value)))
  }

  class AudioResampler<F(!new)> {
    const engine: Fft<F>
    const chunkSize: nat
    var fft: F
    var inputBuffer: seq<real>

    ghost predicate Valid() {
      chunkSize > 0
    }

    ghost function State(): Resampler<F>
      reads this
    {
      Resampler(fft, inputBuffer)
    }

    constructor WithChunkSize(engine: Fft<F>, chunkSize: nat)
      requires chunkSize > 0
      ensures Valid() && this.engine == engine && this.chunkSize == chunkSize
      ensures State() == Resampler(engine.initial, [])
    {
      this.engine, this.chunkSize := engine, chunkSize;
      fft, inputBuffer := engine.initial, [];
    }

    method ResampleInput(input: Pcm) returns (output: Option<Pcm>)
      requires Valid()
      modifies this
      ensures (State(), output) == Resample(engine, chunkSize, old(State()), input)
    {
      for i := 0 to |input|
        invariant fft == old(fft)
        invariant inputBuffer == old(inputBuffer) + FromPcm(input[..i])
      {
        inputBuffer := inputBuffer + [FromSample(input[i])];
        assert FromPcm(input[..i + 1]) == FromPcm(input[..i]) + [FromSample(input[i])];
      }
      assert input[..|input|] == input;
      ghost var start := State();
      var done: Pcm := [];
      ghost var all := Drain(engine, chunkSize, start);
      assert all.1.Some? ==> [] + all.1.value == all.1.value;
      while |inputBuffer| >= chunkSize
        invariant Drain(engine, chunkSize, start) == Prepend(done, Drain(engine, chunkSize, State()))
        decreases |inputBuffer|
      {
        ghost var before := State();
        var chunk := inputBuffer[..chunkSize];
        inputBuffer := inputBuffer[chunkSize..];
        var (f, out) := engine.step(fft, chunk);
        fft := f;
        assert State() == Resampler(f, before.buffer[chunkSize..]);
        if out.None? {
          return None;
        }
        ghost var rest := Drain(engine, chunkSize, State());
        assert Drain(engine, chunkSize, before) == Prepend(ToPcm(out.value), rest);
        assert rest.1.Some? ==> done + (ToPcm(out.value) + rest.1.value) == done + ToPcm(out.value) + rest.1.value;
        done := done + ToPcm(out.value);
      }
      assert done + [] == done;
      output := Some(done);
    }

    method FlushInput() returns (output: Option<Pcm>)
      requires Valid()
      modifies this
      ensures (State(), output) == Flush(engine, chunkSize, old(State()))
    {
      if inputBuffer == [] {
        return Some([]);
      }
      while |inputBuffer| < chunkSize
        invariant fft == old(fft)
        invariant old(|inputBuffer|) <= |inputBuffer|
        invariant |inputBuffer| <= chunkSize || |inputBuffer| == old(|inputBuffer|)
        invariant inputBuffer == old(inputBuffer) + seq(|inputBuffer| - old(|inputBuffer|), i => 0.0)
        decreases chunkSize - |inputBuffer|
      {
        inputBuffer := inputBuffer + [0.0];
      }
      assert inputBuffer == FlushChunk(chunkSize, old(State()));
      var (f, out) := engine.step(fft, inputBuffer);
      fft, inputBuffer := f, [];
      output := if out.None? then None else Some(ToPcm(out.value));
    }

    method Reset()
      modifies this
      ensures State() == Resampler(engine.initial, [])
    {
      inputBuffer := [];
      fft := engine.initial;
    }
  }

  // ------------------------------------------------------ split independence

  /** More input behind the buffer changes nothing about the chunks before it. */
  lemma {:induction false} DrainMore<F>(fft: Fft<F>, size: nat, r: Resampler<F>, more: seq<real>)
    requires size > 0
    ensures var (r1, o1) := Drain(fft, size, r);
      var r2 := r1.(buffer := r1.buffer + more);
      Drain(fft, size, r.(buffer := r.buffer + more)) ==
        if o1.None? then (r2, None) else Prepend(o1.value, Drain(fft, size, r2))
    decreases |r.buffer|
  {
    var whole := r.(buffer := r.buffer + more);
    if |r.buffer| < size {
      var d := Drain(fft, size, whole);
      assert d.1.Some? ==> [] + d.1.value == d.1.value;
    } else {
      assert whole.buffer[..size] == r.buffer[..size];
      assert whole.buffer[size..] == r.buffer[size..] + more;
      var (f, out) := fft.step(r.fft, r.buffer[..size]);
      if out.Some? {
        var r' := Resampler(f, r.buffer[size..]);
        DrainMore(fft, size, r', more);
        var (r1, o1) := Drain(fft, size, r');
        if o1.Some? {
          var d := Drain(fft, size, r1.(buffer := r1.buffer + more));
          if d.1.Some? {
            var first := ToPcm(out.value);
            assert first + (o1.value + d.1.value) == first + o1.value + d.1.value;
          }
        }
      }
    }
  }

  lemma FromPcmConcat(a: Pcm, b: Pcm)
    ensures FromPcm(a + b) == FromPcm(a) + FromPcm(b)
  {
  }

  /** Resampling a and then b is resampling a ++ b: same output, same final state.
      If a already fails, so does a ++ b, at the same chunk, with b left behind it. */
  lemma SplitIndependence<F>(fft: Fft<F>, size: nat, r: Resampler<F>, a: Pcm, b: Pcm)
    requires size > 0
    ensures var (r1, o1) := Resample(fft, size, r, a);
      Resample(fft, size, r, a + b) ==
        if o1.None? then (r1.(buffer := r1.buffer + FromPcm(b)), None)
        else Prepend(o1.value, Resample(fft, size, r1, b))
  {
    FromPcmConcat(a, b);
    var ra := r.(buffer := r.buffer + FromPcm(a));
    assert ra.buffer + FromPcm(b) == r.buffer + FromPcm(a + b);
    DrainMore(fft, size, ra, FromPcm(b));
  }

  /** Any number of calls, one after another; nothing once one has failed. */
  function ResampleAll<F>(fft: Fft<F>, size: nat, r: Resampler<F>, inputs: seq<Pcm>): (Resampler<F>, Option<Pcm>)
    requires size > 0
  {
    if inputs == [] then (r, Some([]))
    else
      var (r1, o1) := ResampleAll(fft, size, r, inputs[..|inputs| - 1]);
      if o1.None? then (r1, None) else Prepend(o1.value, Resample(fft, size, r1, inputs[|inputs| - 1]))
  }

  /** However a stream is cut into calls, the result is that of one call on the whole. */
  lemma {:induction false} CutsDoNotMatter<F>(fft: Fft<F>, size: nat, r: Resampler<F>, inputs: seq<Pcm>)
    requires size > 0 && |r.buffer| < size
    ensures var (r1, o1) := ResampleAll(fft, size, r, inputs);
      o1.Some? ==> Resample(fft, size, r, Flatten(inputs)) == (r1, o1)
    ensures ResampleAll(fft, size, r, inputs).1.None? ==> Resample(fft, size, r, Flatten(inputs)).1.None?
    decreases |inputs|
  {
    if inputs == [] {
      assert r.buffer + FromPcm([]) == r.buffer;
    } else {
      var init, last := inputs[..|inputs| - 1], inputs[|inputs| - 1];
      CutsDoNotMatter(fft, size, r, init);
      SplitIndependence(fft, size, r, Flatten(init), last);
    }
  }

  // ------------------------------------------------------------- chunk counts

  /** The whole chunks at the front of a buffer. */
  function Chunks(buffer: seq<real>, size: nat): (cs: seq<seq<real>>)
    requires size > 0
    ensures forall i :: 0 <= i < |cs| ==> |cs[i]| == size
    decreases |buffer|
  {
    if |buffer| < size then [] else [buffer[..size]] + Chunks(buffer[size..], size)
  }

  function Feed<F>(fft: Fft<F>, f: F, chunks: seq<seq<real>>): F {
    if chunks == [] then f else Feed(fft, fft.step(f, chunks[0]).0, chunks[1..])
  }

  lemma {:induction false} ChunkCount(buffer: seq<real>, size: nat)
    requires size > 0
    ensures |Chunks(buffer, size)| == |buffer| / size
    decreases |buffer|
  {
    if |buffer| < size {
      DivUnique(|buffer|, size, 0, |buffer|);
    } else {
      ChunkCount(buffer[size..], size);
      DivStep(|buffer|, size);
    }
  }

  /** Unless a step fails, exactly floor(N / size) chunks are fed, in order, and
      the N mod size samples after them stay. */
  lemma {:induction false} DrainCount<F>(fft: Fft<F>, size: nat, r: Resampler<F>)
    requires size > 0 && Drain(fft, size, r).1.Some?
    ensures var r' := Drain(fft, size, r).0;
      && |Chunks(r.buffer, size)| == |r.buffer| / size
      && r'.fft == Feed(fft, r.fft, Chunks(r.buffer, size))
      && |r'.buffer| == |r.buffer| % size
      && r'.buffer == r.buffer[|r.buffer| - |r'.buffer|..]
    decreases |r.buffer|
  {
    ChunkCount(r.buffer, size);
    if |r.buffer| < size {
      DivUnique(|r.buffer|, size, 0, |r.buffer|);
    } else {
      var (f, out) := fft.step(r.fft, r.buffer[..size]);
      var next := Resampler(f, r.buffer[size..]);
      DrainCount(fft, size, next);
      DivStep(|r.buffer|, size);
      var chunks := Chunks(r.buffer, size);
      assert chunks[0] == r.buffer[..size] && chunks[1..] == Chunks(next.buffer, size);
    }
  }

  // ------------------------------------------------------- the engine's steps

  /** The outcome of step i if the chunks before it are fed first. */
  function StepOutcome<F>(fft: Fft<F>, f: F, chunks: seq<seq<real>>, i: nat): Option<seq<real>>
    requires i < |chunks|
  {
    fft.step(Feed(fft, f, chunks[..i]), chunks[i]).1
  }

  /** Chunk j of the buffer is the first whose step fails. */
  predicate FailsAt<F>(fft: Fft<F>, size: nat, r: Resampler<F>, j: nat)
    requires size > 0
  {
    var chunks := Chunks(r.buffer, size);
    && j < |chunks|
    && StepOutcome(fft, r.fft, chunks, j).None?
    && forall i: nat :: i < j ==> StepOutcome(fft, r.fft, chunks, i).Some?
  }

  /** The first failure as seen from behind a first chunk that succeeded. */
  lemma FailsLater<F>(fft: Fft<F>, size: nat, r: Resampler<F>, j: nat)
    requires size > 0 && |r.buffer| >= size && fft.step(r.fft, r.buffer[..size]).1.Some?
    requires FailsAt(fft, size, Resampler(fft.step(r.fft, r.buffer[..size]).0, r.buffer[size..]), j)
    ensures FailsAt(fft, size, r, j + 1)
  {
    var next := Resampler(fft.step(r.fft, r.buffer[..size]).0, r.buffer[size..]);
    var chunks, later := Chunks(r.buffer, size), Chunks(next.buffer, size);
    forall i: nat | i < |later|
      ensures StepOutcome(fft, r.fft, chunks, i + 1) == StepOutcome(fft, next.fft, later, i)
    {
      assert chunks[..i + 1][1..] == later[..i] && chunks[..i + 1][0] == r.buffer[..size];
    }
    forall i: nat | i < j + 1 ensures StepOutcome(fft, r.fft, chunks, i).Some? {
      assert i > 0 ==> StepOutcome(fft, r.fft, chunks, (i - 1) + 1) == StepOutcome(fft, next.fft, later, i - 1);
      assert chunks[0] == r.buffer[..size] && chunks[..0] == [];
    }
  }

  /** Feeding submits some chunks from the front and leaves what is behind them: all
      there are if no step fails, or those up to and including the first that does. */
  lemma {:induction false} DrainSubmits<F>(fft: Fft<F>, size: nat, r: Resampler<F>) returns (taken: seq<seq<real>>)
    requires size > 0
    ensures taken <= Chunks(r.buffer, size)
    ensures var (after, out) := Drain(fft, size, r);
      && after.fft == Feed(fft, r.fft, taken)
      && r.buffer == Flatten(taken) + after.buffer
      && if out.Some? then |after.buffer| < size else taken != [] && FailsAt(fft, size, r, |taken| - 1)
    decreases |r.buffer|
  {
    if |r.buffer| < size {
      taken := [];
    } else {
      var first := r.buffer[..size];
      var (f, out) := fft.step(r.fft, first);
      var next, chunks := Resampler(f, r.buffer[size..]), Chunks(r.buffer, size);
      assert chunks[..0] == [] && Flatten([first]) == first;
      if out.None? {
        taken := [first];
      } else {
        var rest := DrainSubmits(fft, size, next);
        taken := [first] + rest;
        FlattenBehind([first], rest, Drain(fft, size, next).0.buffer);
        assert taken[1..] == rest && r.buffer == first + next.buffer;
        if Drain(fft, size, r).1.None? {
          FailsLater(fft, size, r, |rest| - 1);
        }
      }
    }
  }

  lemma {:induction false} FailureShows<F>(fft: Fft<F>, size: nat, r: Resampler<F>, j: nat)
    requires size > 0 && FailsAt(fft, size, r, j)
    ensures Drain(fft, size, r).1.None?
    decreases j
  {
    var (f, out) := fft.step(r.fft, r.buffer[..size]);
    var next, chunks := Resampler(f, r.buffer[size..]), Chunks(r.buffer, size);
    assert chunks[..0] == [] && StepOutcome(fft, r.fft, chunks, 0) == out;
    if j > 0 {
      var later := Chunks(next.buffer, size);
      forall i: nat | i < |later|
        ensures StepOutcome(fft, next.fft, later, i) == StepOutcome(fft, r.fft, chunks, i + 1)
      {
        assert chunks[..i + 1][1..] == later[..i] && chunks[..i + 1][0] == r.buffer[..size];
      }
      FailureShows(fft, size, next, j - 1);
    }
  }

  lemma FirstFailureIsUnique<F>(fft: Fft<F>, size: nat, r: Resampler<F>, i: nat, j: nat)
    requires size > 0 && FailsAt(fft, size, r, i) && FailsAt(fft, size, r, j)
    ensures i == j
  {
  }

  // ----------------------------------------------------------- what comes out

  /** Sample by sample: full scale in is 32768; out it is 32767, cut toward zero, with
      everything beyond full scale held there. */
  lemma SamplesOneByOne(pcm: Pcm, xs: seq<real>)
    ensures |FromPcm(pcm)| == |pcm| && |ToPcm(xs)| == |xs|
    ensures forall i :: 0 <= i < |pcm| ==> FromPcm(pcm)[i] == pcm[i] as real / 32768.0
    ensures forall i :: 0 <= i < |xs| ==>
      var x, y := xs[i], ToPcm(xs)[i] as real;
      && (x >= 1.0 ==> y == 32767.0) && (x <= -1.0 ==> y == -32767.0)
      && (0.0 <= x < 1.0 ==> y <= x * 32767.0 < y + 1.0) && (-1.0 < x < 0.0 ==> y - 1.0 < x * 32767.0 <= y)
  {
  }

  /** The engine succeeds on each of these chunks, fed one after another. */
  predicate AllSucceed<F>(fft: Fft<F>, f: F, chunks: seq<seq<real>>) {
    forall i: nat :: i < |chunks| ==> StepOutcome(fft, f, chunks, i).Some?
  }

  /** What it makes of each of them, as samples. */
  function Outputs<F>(fft: Fft<F>, f: F, chunks: seq<seq<real>>): (outs: seq<Pcm>)
    requires AllSucceed(fft, f, chunks)
    ensures |outs| == |chunks|
  {
    seq(|chunks|, i requires 0 <= i < |chunks| =>
      assert StepOutcome(fft, f, chunks, i).Some?; ToPcm(StepOutcome(fft, f, chunks, i).value))
  }

  lemma OutcomeLater<F>(fft: Fft<F>, f: F, chunks: seq<seq<real>>, i: nat)
    requires chunks != [] && i + 1 < |chunks|
    ensures StepOutcome(fft, f, chunks, i + 1) == StepOutcome(fft, fft.step(f, chunks[0]).0, chunks[1..], i)
  {
    assert chunks[..i + 1][1..] == chunks[1..][..i] && chunks[..i + 1][0] == chunks[0];
  }

  lemma AllSucceedCons<F>(fft: Fft<F>, f: F, chunks: seq<seq<real>>)
    requires chunks != []
    ensures AllSucceed(fft, f, chunks) <==>
      fft.step(f, chunks[0]).1.Some? && AllSucceed(fft, fft.step(f, chunks[0]).0, chunks[1..])
  {
    var f', later := fft.step(f, chunks[0]).0, chunks[1..];
    assert chunks[..0] == [] && StepOutcome(fft, f, chunks, 0) == fft.step(f, chunks[0]).1;
    forall i: nat | i < |later| ensures StepOutcome(fft, f, chunks, i + 1) == StepOutcome(fft, f', later, i) {
      OutcomeLater(fft, f, chunks, i);
    }
    if AllSucceed(fft, f, chunks) {
      forall i: nat | i < |later| ensures StepOutcome(fft, f', later, i).Some? {
        assert StepOutcome(fft, f, chunks, i + 1).Some?;
      }
    }
    if fft.step(f, chunks[0]).1.Some? && AllSucceed(fft, f', later) {
      forall i: nat | i < |chunks| ensures StepOutcome(fft, f, chunks, i).Some? {
        if i > 0 { assert StepOutcome(fft, f', later, i - 1).Some?; }
      }
    }
  }

  lemma OutputsCons<F>(fft: Fft<F>, f: F, chunks: seq<seq<real>>)
    requires chunks != [] && AllSucceed(fft, f, chunks)
    ensures fft.step(f, chunks[0]).1.Some? && AllSucceed(fft, fft.step(f, chunks[0]).0, chunks[1..])
    ensures Outputs(fft, f, chunks) ==
      [ToPcm(fft.step(f, chunks[0]).1.value)] + Outputs(fft, fft.step(f, chunks[0]).0, chunks[1..])
  {
    AllSucceedCons(fft, f, chunks);
    var f', later := fft.step(f, chunks[0]).0, chunks[1..];
    assert chunks[..0] == [];
    forall i: nat | i < |later| ensures Outputs(fft, f, chunks)[i + 1] == Outputs(fft, f', later)[i] {
      OutcomeLater(fft, f, chunks, i);
    }
  }

  /** Feeding succeeds exactly if every whole chunk does, and then gives, in order,
      every sample the engine made of every chunk. */
  lemma {:induction false} DrainOutputs<F>(fft: Fft<F>, size: nat, r: Resampler<F>)
    requires size > 0
    ensures Drain(fft, size, r).1.Some? <==> AllSucceed(fft, r.fft, Chunks(r.buffer, size))
    ensures Drain(fft, size, r).1.Some? ==>
      Drain(fft, size, r).1.value == Flatten(Outputs(fft, r.fft, Chunks(r.buffer, size)))
    decreases |r.buffer|
  {
    if |r.buffer| >= size {
      var chunks := Chunks(r.buffer, size);
      var (f, out) := fft.step(r.fft, r.buffer[..size]);
      var next := Resampler(f, r.buffer[size..]);
      assert chunks[0] == r.buffer[..size] && chunks[1..] == Chunks(next.buffer, size);
      AllSucceedCons(fft, r.fft, chunks);
      if out.Some? {
        DrainOutputs(fft, size, next);
        if Drain(fft, size, next).1.Some? {
          OutputsCons(fft, r.fft, chunks);
          FlattenConcat([ToPcm(out.value)], Outputs(fft, f, chunks[1..]));
          assert Flatten([ToPcm(out.value)]) == ToPcm(out.value);
        }
      }
    }
  }

  /** One call: it succeeds exactly if the engine accepts every whole chunk of what was
      waiting and what came in; it then returns all the engine made of them, converted,
      in order; the engine has moved past them, and the rest waits. */
  lemma {:induction false} ResampleOutputs<F>(fft: Fft<F>, size: nat, r: Resampler<F>, input: Pcm)
    requires size > 0
    ensures var (after, out) := Resample(fft, size, r, input);
      var all := r.buffer + FromPcm(input);
      var chunks := Chunks(all, size);
      && (out.Some? <==> AllSucceed(fft, r.fft, chunks))
      && (out.Some? ==>
            && out.value == Flatten(Outputs(fft, r.fft, chunks))
            && after.fft == Feed(fft, r.fft, chunks)
            && |chunks| == |all| / size && after.buffer == all[|all| - |all| % size..])
  {
    var whole := r.(buffer := r.buffer + FromPcm(input));
    DrainOutputs(fft, size, whole);
    if Drain(fft, size, whole).1.Some? {
      DrainCount(fft, size, whole);
    }
  }

  /** Silence in samples. */
  function Silence(n: nat): (pcm: Pcm)
    ensures |pcm| == n && FromPcm(pcm) == seq(n, i => 0.0)
  {
    seq(n, i => 0)
  }

  /** A flush is a call with just enough silence to fill the chunk that is waiting. */
  lemma {:induction false} FlushIsSilence<F>(fft: Fft<F>, size: nat, r: Resampler<F>)
    requires 0 < |r.buffer| <= size
    ensures Flush(fft, size, r) == Resample(fft, size, r, Silence(size - |r.buffer|))
  {
    var pad := Silence(size - |r.buffer|);
    var whole := r.buffer + FromPcm(pad);
    assert whole == FlushChunk(size, r) && whole[..size] == whole && whole[size..] == [];
    var (f, out) := fft.step(r.fft, whole);
    assert r.(buffer := r.buffer + FromPcm(pad)) == Resampler(r.fft, whole);
    assert Drain(fft, size, Resampler(f, [])) == (Resampler(f, []), Some([]));
    if out.Some? {
      assert ToPcm(out.value) + [] == ToPcm(out.value);
    }
  }

  // ------------------------------------------------- calls in spite of failures

  /** Any number of calls, each made whether or not the ones before it failed. */
  function Calls<F>(fft: Fft<F>, size: nat, r: Resampler<F>, inputs: seq<Pcm>): (Resampler<F>, seq<Option<Pcm>>)
    requires size > 0
  {
    if inputs == [] then (r, [])
    else
      var (r1, results) := Calls(fft, size, r, inputs[..|inputs| - 1]);
      var (r2, result) := Resample(fft, size, r1, inputs[|inputs| - 1]);
      (r2, results + [result])
  }

  lemma {:induction false} ChunksBehind(front: seq<seq<real>>, rest: seq<real>, size: nat)
    requires size > 0 && forall i :: 0 <= i < |front| ==> |front[i]| == size
    ensures Chunks(Flatten(front) + rest, size) == front + Chunks(rest, size)
    decreases |front|
  {
    if front == [] {
      assert Flatten(front) + rest == rest;
    } else {
      var first, later := front[0], front[1..];
      assert front == [first] + later && Flatten([first]) == first;
      FlattenConcat([first], later);
      ChunksBehind(later, rest, size);
      var buffer := Flatten(front) + rest;
      assert buffer[..size] == first && buffer[size..] == Flatten(later) + rest;
    }
  }

  lemma {:induction false} FeedConcat<F>(fft: Fft<F>, f: F, a: seq<seq<real>>, b: seq<seq<real>>)
    ensures Feed(fft, f, a + b) == Feed(fft, Feed(fft, f, a), b)
    decreases |a|
  {
    if a == [] {
      assert a + b == b;
    } else {
      assert (a + b)[1..] == a[1..] + b;
      FeedConcat(fft, fft.step(f, a[0]).0, a[1..], b);
    }
  }

  /** Whatever calls fail, the stream is never disturbed: the chunks submitted so far
      are the first chunks of everything received, each once and in order, and the
      buffer is exactly what is behind them. */
  lemma {:induction false} CallsSubmitInOrder<F>(fft: Fft<F>, size: nat, inputs: seq<Pcm>)
      returns (submitted: seq<seq<real>>)
    requires size > 0
    ensures var all, after := FromPcm(Flatten(inputs)), Calls(fft, size, Resampler(fft.initial, []), inputs).0;
      && submitted <= Chunks(all, size)
      && after.fft == Feed(fft, fft.initial, submitted)
      && all == Flatten(submitted) + after.buffer
    decreases |inputs|
  {
    if inputs == [] {
      submitted := [];
    } else {
      var init, last := inputs[..|inputs| - 1], inputs[|inputs| - 1];
      var front := CallsSubmitInOrder(fft, size, init);
      var before := Calls(fft, size, Resampler(fft.initial, []), init).0;
      FromPcmConcat(Flatten(init), last);
      submitted := OneMoreCall(fft, size, before.(buffer := before.buffer + FromPcm(last)), front);
      assert FromPcm(Flatten(inputs)) == Flatten(front) + (before.buffer + FromPcm(last));
    }
  }

  lemma PrefixBehind<T>(front: seq<T>, a: seq<T>, b: seq<T>)
    requires a <= b
    ensures front + a <= front + b
  {
    assert front + b == (front + a) + b[|a|..];
  }

  /** One call behind some submitted chunks. */
  lemma OneMoreCall<F>(fft: Fft<F>, size: nat, r: Resampler<F>, front: seq<seq<real>>)
      returns (submitted: seq<seq<real>>)
    requires size > 0 && r.fft == Feed(fft, fft.initial, front)
    requires forall i :: 0 <= i < |front| ==> |front[i]| == size
    ensures submitted <= Chunks(Flatten(front) + r.buffer, size)
    ensures var after := Drain(fft, size, r).0;
      && after.fft == Feed(fft, fft.initial, submitted)
      && Flatten(front) + r.buffer == Flatten(submitted) + after.buffer
  {
    var taken := DrainSubmits(fft, size, r);
    submitted := front + taken;
    FeedConcat(fft, fft.initial, front, taken);
    FlattenBehind(front, taken, Drain(fft, size, r).0.buffer);
    ChunksBehind(front, r.buffer, size);
    PrefixBehind(front, taken, Chunks(r.buffer, size));
  }

  /** Whenever the last call succeeded, whatever happened before it, flush submits
      one full chunk or nothing. */
  lemma FlushAfterSuccess<F>(fft: Fft<F>, size: nat, inputs: seq<Pcm>)
    requires size > 0 && inputs != []
    requires var results := Calls(fft, size, Resampler(fft.initial, []), inputs).1; results[|results| - 1].Some?
    ensures var r := Calls(fft, size, Resampler(fft.initial, []), inputs).0;
      && |r.buffer| == |Flatten(inputs)| % size
      && (r.buffer != [] ==> |FlushChunk(size, r)| == size && r.buffer <= FlushChunk(size, r))
  {
    var submitted := CallsSubmitInOrder(fft, size, inputs);
    var before := Calls(fft, size, Resampler(fft.initial, []), inputs[..|inputs| - 1]).0;
    var r := Calls(fft, size, Resampler(fft.initial, []), inputs).0;
    var _ := DrainSubmits(fft, size, before.(buffer := before.buffer + FromPcm(inputs[|inputs| - 1])));
    FlattenLength(submitted, size);
    DivUnique(|Flatten(inputs)|, size, |submitted|, |r.buffer|);
  }

  /** A call that fails at chunk j leaves what is behind that chunk. */
  lemma FailureLeaves<F>(fft: Fft<F>, size: nat, r: Resampler<F>, j: nat)
    requires size > 0 && FailsAt(fft, size, r, j)
    ensures Drain(fft, size, r).1.None?
    ensures |r.buffer| == (j + 1) * size + |Drain(fft, size, r).0.buffer|
  {
    FailureShows(fft, size, r, j);
    var taken := DrainSubmits(fft, size, r);
    FirstFailureIsUnique(fft, size, r, j, |taken| - 1);
    FlattenLength(taken, size);
  }

  /** Some chunk j is the first to fail and has more than one chunk's worth behind it. */
  ghost predicate FailsEarly<F>(fft: Fft<F>, size: nat, r: Resampler<F>)
    requires size > 0
  {
    exists j: nat :: FailsAt(fft, size, r, j) && |r.buffer| > (j + 1) * size + size
  }

  lemma {:induction false} LeftoverIsOversizedIff<F>(fft: Fft<F>, size: nat, r: Resampler<F>)
    requires size > 0
    ensures |Drain(fft, size, r).0.buffer| > size <==> FailsEarly(fft, size, r)
  {
    if j: nat :| FailsAt(fft, size, r, j) {
      FailureLeaves(fft, size, r, j);
      forall i: nat | FailsAt(fft, size, r, i) ensures i == j {
        FirstFailureIsUnique(fft, size, r, i, j);
      }
    } else {
      var taken := DrainSubmits(fft, size, r);
      assert Drain(fft, size, r).1.Some?;
    }
  }

  /** A flush submits an oversized chunk exactly after a call that failed with more
      than one further chunk's worth behind the failing chunk. */
  lemma FlushIsOversizedIff<F>(fft: Fft<F>, size: nat, r: Resampler<F>, inputs: seq<Pcm>)
    requires size > 0 && inputs != []
    ensures var before := Calls(fft, size, r, inputs[..|inputs| - 1]).0;
      var whole := before.(buffer := before.buffer + FromPcm(inputs[|inputs| - 1]));
      var after := Calls(fft, size, r, inputs).0;
      |FlushChunk(size, after)| > size <==> FailsEarly(fft, size, whole)
  {
    var before := Calls(fft, size, r, inputs[..|inputs| - 1]).0;
    var whole := before.(buffer := before.buffer + FromPcm(inputs[|inputs| - 1]));
    assert Calls(fft, size, r, inputs).0 == Drain(fft, size, whole).0;
    LeftoverIsOversizedIff(fft, size, whole);
  }

  /** So it happens whatever the size and the engine: once the engine fails on a
      chunk, the next flush submits in one piece all that came after it in that call. */
  lemma FlushAfterFailureCanBeOversized<F>(fft: Fft<F>, size: nat, chunk: Pcm, more: Pcm)
    requires 0 < size == |chunk| <= |more| && fft.step(fft.initial, FromPcm(chunk)).1.None?
    ensures FlushChunk(size, Resample(fft, size, Resampler(fft.initial, []), chunk + more).0) == FromPcm(more)
  {
    FromPcmConcat(chunk, more);
    var buffer := FromPcm(chunk + more);
    assert [] + buffer == buffer && buffer[..size] == FromPcm(chunk) && buffer[size..] == FromPcm(more);
  }

  // ------------------------------------------------------------ the decoder

  /** A stateful packet decoder, as the worker and the sessions see it. */
  datatype Codec<!S> = Codec(initial: S, step: (S, seq<byte>) -> (S, Option<Pcm>))

  /** Decoding that fails leaves the decoder as it was. */
  ghost predicate FailureIsNeutral<S(!new)>(codec: Codec<S>) {
    forall s, packet :: codec.step(s, packet).1.None? ==> codec.step(s, packet).0 == s
  }

  /** Whether a packet decodes is a matter of the packet alone. */
  ghost predicate SuccessIsStateless<S(!new)>(codec: Codec<S>) {
    forall s, t, packet :: codec.step(s, packet).1.None? <==> codec.step(t, packet).1.None?
  }

  datatype DecoderState<O, F> = DecoderState(opus: O, resampler: Resampler<F>)

  const CHUNK_SIZE: nat := 960

  /** Longest Opus frame: 120 ms at 48 kHz. */
  const FRAME_SIZE: nat := 5760

  function Decode<O, F>(opus: Opus<O>, fft: Fft<F>, s: DecoderState<O, F>, packet: seq<byte>)
    : (DecoderState<O, F>, Option<Pcm>)
  {
    var (o, pcm) := opus.step(s.opus, packet);
    if pcm.None? then (s.(opus := o), None)
    else
      var (r, out) := Resample(fft, CHUNK_SIZE, s.resampler, pcm.value);
      (DecoderState(o, r), out)
  }

  function AudioCodec<O, F>(opus: Opus<O>, fft: Fft<F>): Codec<DecoderState<O, F>> {
    Codec(DecoderState(opus.initial, Resampler(fft.initial, [])), (s, packet) => Decode(opus, fft, s, packet))
  }

  ghost predicate FitsFrame<O(!new)>(opus: Opus<O>) {
    forall o, packet :: opus.step(o, packet).1.Some? ==> |opus.step(o, packet).1.value| <= FRAME_SIZE
  }

  /** `decodeBuffer` is reused for every packet; only the samples just decoded
      reach the resampler. */
  class AudioDecoder<O(!new), F(!new)> {
    const library: Opus<O>
    var opus: O
    const resampler: AudioResampler<F>
    const decodeBuffer: array<i16>

    ghost predicate Valid()
      reads this, resampler
    {
      resampler.Valid() && resampler.chunkSize == CHUNK_SIZE && decodeBuffer.Length == FRAME_SIZE
    }

    ghost function State(): DecoderState<O, F>
      reads this, resampler
    {
      DecoderState(opus, resampler.State())
    }

    constructor (library: Opus<O>, engine: Fft<F>)
      ensures Valid() && this.library == library && resampler.engine == engine
      ensures State() == AudioCodec(library, engine).initial
      ensures fresh(resampler) && fresh(decodeBuffer)
    {
      this.library, opus := library, library.initial;
      resampler := new AudioResampler.WithChunkSize(engine, CHUNK_SIZE);
      decodeBuffer := new i16[FRAME_SIZE](_ => 0);
    }

    method DecodePacket(packet: seq<byte>) returns (output: Option<Pcm>)
      requires Valid() && FitsFrame(library)
      modifies this, resampler, decodeBuffer
      ensures Valid()
      ensures (State(), output) == AudioCodec(library, resampler.engine).step(old(State()), packet)
    {
      var (o, pcm) := library.step(opus, packet);
      opus := o;
      if pcm.None? {
        return None;
      }
      var samples := |pcm.value|;
      assert samples <= FRAME_SIZE;
      for i := 0 to samples
        invariant decodeBuffer[..i] == pcm.value[..i]
        invariant State() == old(State()).(opus := o)
      {
        decodeBuffer[i] := pcm.value[i];
      }
      assert decodeBuffer[..samples] == pcm.value;
      output := resampler.ResampleInput(decodeBuffer[..samples]);
    }
  }

  /** An engine that never fails on a chunk of its own size; of any other chunk nothing is said. */
  ghost predicate AcceptsChunks<F(!new)>(fft: Fft<F>, size: nat) {
    forall f, chunk :: |chunk| == size ==> fft.step(f, chunk).1.Some?
  }

  lemma {:induction false} DrainSucceeds<F(!new)>(fft: Fft<F>, size: nat, r: Resampler<F>)
    requires size > 0 && AcceptsChunks(fft, size)
    ensures Drain(fft, size, r).1.Some?
    decreases |r.buffer|
  {
    if |r.buffer| >= size {
      DrainSucceeds(fft, size, Resampler(fft.step(r.fft, r.buffer[..size]).0, r.buffer[size..]));
    }
  }

  /** If the FFT step never fails on a full chunk, a failing decode is harmless as soon as a
      failing Opus step is. */
  lemma DecoderFailureIsNeutral<O(!new), F(!new)>(opus: Opus<O>, fft: Fft<F>)
    requires AcceptsChunks(fft, CHUNK_SIZE)
    requires forall o, packet :: opus.step(o, packet).1.None? ==> opus.step(o, packet).0 == o
    ensures FailureIsNeutral(AudioCodec(opus, fft))
  {
    var codec := AudioCodec(opus, fft);
    forall s, packet | codec.step(s, packet).1.None? ensures codec.step(s, packet).0 == s {
      var (o, pcm) := opus.step(s.opus, packet);
      if pcm.Some? {
        DrainSucceeds(fft, CHUNK_SIZE, s.resampler.(buffer := s.resampler.buffer + FromPcm(pcm.value)));
      }
    }
  }

  /** Under the same premise whether a packet decodes is up to the Opus step, so it
      depends on the packet alone as soon as it does there. */
  lemma DecoderSuccessIsStateless<O(!new), F(!new)>(opus: Opus<O>, fft: Fft<F>)
    requires AcceptsChunks(fft, CHUNK_SIZE)
    requires forall o, q, packet :: opus.step(o, packet).1.None? <==> opus.step(q, packet).1.None?
    ensures SuccessIsStateless(AudioCodec(opus, fft))
  {
    var codec := AudioCodec(opus, fft);
    forall s, packet ensures codec.step(s, packet).1.None? <==> opus.step(s.opus, packet).1.None? {
      var (o, pcm) := opus.step(s.opus, packet);
      if pcm.Some? {
        DrainSucceeds(fft, CHUNK_SIZE, s.resampler.(buffer := s.resampler.buffer + FromPcm(pcm.value)));
      }
    }
  }

  /** One packet: if Opus refuses it the resampler is not touched and nothing comes out;
      otherwise the resampler is fed exactly the decoded frame, in chunks of 960, and
      what comes out is what the engine makes of the whole chunks. */
  lemma {:induction false} DecodesFrame<O, F>(opus: Opus<O>, fft: Fft<F>, s: DecoderState<O, F>, packet: seq<byte>)
    ensures var (o, frame) := opus.step(s.opus, packet);
      var (s', out) := AudioCodec(opus, fft).step(s, packet);
      && s'.opus == o
      && (frame.None? ==> s'.resampler == s.resampler && out.None?)
      && (frame.Some? ==>
            var all := s.resampler.buffer + FromPcm(frame.value);
            && (out.Some? <==> AllSucceed(fft, s.resampler.fft, Chunks(all, 960)))
            && (out.Some? ==>
                  && out.value == Flatten(Outputs(fft, s.resampler.fft, Chunks(all, 960)))
                  && s'.resampler.fft == Feed(fft, s.resampler.fft, Chunks(all, 960))
                  && s'.resampler.buffer == all[|all| - |all| % 960..]))
  {
    var frame := opus.step(s.opus, packet).1;
    if frame.Some? {
      ResampleOutputs(fft, CHUNK_SIZE, s.resampler, frame.value);
    }
  }
}
