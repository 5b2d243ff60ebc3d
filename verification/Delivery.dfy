/** What the backend of a live stream is sent: isolation between streams, the
    exact delivery law, what a duplicate start does to it, and audio that comes too late. */
module Delivery {
  import opened Prelude
  import opened Decoder
  import opened RtpAudioExtractor
  import opened Commands
  import opened Manager
  import opened Worker

  /** One stream on its own: the worker's decoder, the session's decoder, and what was sent. */
  datatype Ears<S> = Ears(worker: Option<S>, session: S, sent: seq<Pcm>)

  function Listen<S>(codec: Codec<S>, ears: Ears<S>, e: Event, k: Key): Ears<S> {
    if Starts(e.cmd, k) then
      if e.env.decoderOk then ears.(worker := Some(codec.initial)) else ears
    else if Speaks(e.cmd, k) then
      var (d, heard) := codec.step(if ears.worker.Some? then ears.worker.value else codec.initial, e.cmd.packet.opus);
      if heard.None? then ears.(worker := Some(d))
      else
        var (s, pcm) := codec.step(ears.session, e.cmd.packet.opus);
        Ears(Some(d), s, if pcm.Some? && e.env.sendOk then ears.sent + [pcm.value] else ears.sent)
    else ears
  }

  function ListenAll<S>(codec: Codec<S>, ears: Ears<S>, es: seq<Event>, k: Key): Ears<S> {
    if es == [] then ears else Listen(codec, ListenAll(codec, ears, es[..|es| - 1], k), es[|es| - 1], k)
  }

  function EarsAt<S>(w: WorkerState<S>, k: Key): Ears<S>
    requires k in w.manager.sessions
  {
    Ears(if k in w.decoders then Some(w.decoders[k]) else None,
         w.manager.sessions[k].decoder, w.manager.sessions[k].backend.sent)
  }

  lemma ListenStep<S>(codec: Codec<S>, default: BackendConfig, w: WorkerState<S>, e: Event, k: Key)
    requires w.running && Step(codec, default, w, e).running && k in w.manager.sessions && !Stops(e.cmd, k)
    ensures k in Step(codec, default, w, e).manager.sessions
    ensures EarsAt(Step(codec, default, w, e), k) == Listen(codec, EarsAt(w, k), e, k)
  {
    match e.cmd
    case StartSession(j, _) =>
    case Audio(p) =>
      if p.key == k {
        var (d, pcm) := codec.step(DecoderFor(codec, w.decoders, k), p.opus);
        var before, after := EarsAt(w, k), EarsAt(Step(codec, default, w, e), k);
        assert after.worker == Some(d);
        if pcm.Some? {
          var (s, out) := codec.step(before.session, p.opus);
          assert after.session == s;
          assert after.sent == if out.Some? && e.env.sendOk then before.sent + [out.value] else before.sent;
        }
      }
    case _ =>
  }

  /** Streams do not disturb each other: what a live stream's decoders and backend
      went through since its start depends on that stream's own commands alone. */
  lemma {:induction false} DeliveryIsIsolated<S>(codec: Codec<S>, default: BackendConfig,
                                                es: seq<Event>, b: nat, k: Key)
    requires Run(codec, default, es).running
    requires StartsAt(codec, default, es, b, k) && NoStopAfter(es, b, k)
    ensures k in Run(codec, default, es).manager.sessions && k in Run(codec, default, es[..b + 1]).manager.sessions
    ensures var started := EarsAt(Run(codec, default, es[..b + 1]), k);
      && started.session == codec.initial && started.sent == []
      && EarsAt(Run(codec, default, es), k) == ListenAll(codec, started, es[b + 1..], k)
    decreases |es|
  {
    SessionIsStable(codec, default, es, b, k);
    assert es[..b + 1][..b] == es[..b];
    var n := |es| - 1;
    if b == n {
      assert es[..b + 1] == es;
    } else {
      var init := es[..n];
      assert init[..b] == es[..b] && init[..b + 1] == es[..b + 1];
      assert NoStopAfter(init, b, k) by {
        forall i | b < i < |init| ensures !Stops(init[i].cmd, k) { assert !Stops(es[i].cmd, k); }
      }
      DeliveryIsIsolated(codec, default, init, b, k);
      assert !Stops(es[n].cmd, k);
      ListenStep(codec, default, Run(codec, default, init), es[n], k);
      var heard := es[b + 1..];
      assert |heard| == n - b;
      assert heard[n - b - 1] == es[n];
      assert heard[..n - b - 1] == init[b + 1..];
    }
  }

  /** A lone decoder run over the stream's audio commands: its state, and the
      outputs that are both decoded and sent. */
  function Played<S>(codec: Codec<S>, es: seq<Event>, k: Key): (S, seq<Pcm>) {
    if es == [] then (codec.initial, [])
    else
      var (s, out), e := Played(codec, es[..|es| - 1], k), es[|es| - 1];
      if Speaks(e.cmd, k) then
        var (s', pcm) := codec.step(s, e.cmd.packet.opus);
        (s', if pcm.Some? && e.env.sendOk then out + [pcm.value] else out)
      else (s, out)
  }

  lemma {:induction false} ListeningIsPlaying<S(!new)>(codec: Codec<S>, ears: Ears<S>, es: seq<Event>, k: Key)
    requires FailureIsNeutral(codec) && SuccessIsStateless(codec)
    requires ears.session == codec.initial && ears.sent == []
    ensures var heard := ListenAll(codec, ears, es, k); (heard.session, heard.sent) == Played(codec, es, k)
    decreases |es|
  {
    if es != [] {
      var init, e := es[..|es| - 1], es[|es| - 1];
      ListeningIsPlaying(codec, ears, init, k);
      if Speaks(e.cmd, k) {
        var before := ListenAll(codec, ears, init, k);
        var d := if before.worker.Some? then before.worker.value else codec.initial;
        assert codec.step(d, e.cmd.packet.opus).1.None? <==> codec.step(before.session, e.cmd.packet.opus).1.None?;
      }
    }
  }

  /** The exact delivery law: what the backend of a live stream was sent is the
      output of one fresh decoder over that stream's audio since its start, in
      order, but for refused sends; duplicate starts, failed decoder creations and
      leftover worker decoders make no difference. */
  lemma DeliveryIsExact<S(!new)>(codec: Codec<S>, default: BackendConfig, es: seq<Event>, b: nat, k: Key)
    requires Run(codec, default, es).running && FailureIsNeutral(codec) && SuccessIsStateless(codec)
    requires StartsAt(codec, default, es, b, k) && NoStopAfter(es, b, k)
    ensures k in Run(codec, default, es).manager.sessions
    ensures var live := Run(codec, default, es).manager.sessions[k];
      (live.decoder, live.backend.sent) == Played(codec, es[b + 1..], k)
  {
    DeliveryIsIsolated(codec, default, es, b, k);
    ListeningIsPlaying(codec, EarsAt(Run(codec, default, es[..b + 1]), k), es[b + 1..], k);
  }

  // ---------------------------------------------- what a duplicate start costs

  /** The octets of a stream's audio commands. */
  function Payloads(es: seq<Event>, k: Key): seq<seq<byte>> {
    if es == [] then []
    else
      var rest, e := Payloads(es[..|es| - 1], k), es[|es| - 1];
      if Speaks(e.cmd, k) then rest + [e.cmd.packet.opus] else rest
  }

  /** Those of them that came after the last start of the stream. */
  function Recent(es: seq<Event>, k: Key): seq<seq<byte>> {
    if es == [] then []
    else
      var rest, e := Recent(es[..|es| - 1], k), es[|es| - 1];
      if Speaks(e.cmd, k) then rest + [e.cmd.packet.opus]
      else if Starts(e.cmd, k) && e.env.decoderOk then [] else rest
  }

  /** A fresh decoder's state after some packets. */
  function After<S>(codec: Codec<S>, ps: seq<seq<byte>>): S {
    if ps == [] then codec.initial else codec.step(After(codec, ps[..|ps| - 1]), ps[|ps| - 1]).0
  }

  lemma AfterSnoc<S>(codec: Codec<S>, ps: seq<seq<byte>>, p: seq<byte>)
    ensures After(codec, ps + [p]) == codec.step(After(codec, ps), p).0
  {
    assert (ps + [p])[..|ps|] == ps;
  }

  /** A decoder that was restarted after j packets refuses p; one that heard them all decodes it. */
  predicate Refuses<S>(codec: Codec<S>, ps: seq<seq<byte>>, j: nat, p: seq<byte>) {
    j <= |ps| && codec.step(After(codec, ps[j..]), p).1.None? && codec.step(After(codec, ps), p).1.Some?
  }

  ghost predicate NoRefusalWithin<S>(codec: Codec<S>, n: nat) {
    forall ps: seq<seq<byte>>, j: nat, p: seq<byte> :: |ps| < n ==> !Refuses(codec, ps, j, p)
  }

  /** As long as nothing is refused, the worker's decoder is one restarted at the
      last start, the session's is one that heard everything, and all is delivered. */
  lemma {:induction false} ListenTracks<S(!new)>(codec: Codec<S>, es: seq<Event>, k: Key)
    requires FailureIsNeutral(codec) && NoRefusalWithin(codec, |Payloads(es, k)|)
    ensures var ps, recent := Payloads(es, k), Recent(es, k);
      && |recent| <= |ps| && recent == ps[|ps| - |recent|..]
      && Played(codec, es, k).0 == After(codec, ps)
      && ListenAll(codec, Ears(Some(codec.initial), codec.initial, []), es, k)
         == Ears(Some(After(codec, recent)), After(codec, ps), Played(codec, es, k).1)
    decreases |es|
  {
    if es != [] {
      var init, e := es[..|es| - 1], es[|es| - 1];
      ListenTracks(codec, init, k);
      if Speaks(e.cmd, k) {
        var ps, recent, p := Payloads(init, k), Recent(init, k), e.cmd.packet.opus;
        AfterSnoc(codec, ps, p);
        AfterSnoc(codec, recent, p);
        assert !Refuses(codec, ps, |ps| - |recent|, p);
      }
    }
  }

  /** A live stream whose backend has not been sent what a fresh decoder gives. */
  predicate LosesAudio<S>(codec: Codec<S>, default: BackendConfig, es: seq<Event>, b: nat, k: Key) {
    && Run(codec, default, es).running
    && StartsAt(codec, default, es, b, k) && NoStopAfter(es, b, k) && es[b].env.decoderOk
    && k in Run(codec, default, es).manager.sessions
    && Run(codec, default, es).manager.sessions[k].backend.sent != Played(codec, es[b + 1..], k).1
  }

  lemma LossNeedsRefusal<S(!new)>(codec: Codec<S>, default: BackendConfig, es: seq<Event>, b: nat, k: Key)
    requires FailureIsNeutral(codec) && LosesAudio(codec, default, es, b, k)
    ensures !NoRefusalWithin(codec, |Payloads(es[b + 1..], k)|)
    ensures exists i :: b < i < |es| && Starts(es[i].cmd, k)
  {
    DeliveryIsIsolated(codec, default, es, b, k);
    var rest := es[b + 1..];
    assert es[..b + 1][..b] == es[..b] && es[..b + 1][b] == es[b];
    assert EarsAt(Run(codec, default, es[..b + 1]), k).worker == Some(codec.initial);
    if NoRefusalWithin(codec, |Payloads(rest, k)|) {
      ListenTracks(codec, rest, k);
    }
    if forall i :: b < i < |es| ==> !Starts(es[i].cmd, k) {
      forall i | 0 <= i < |rest| ensures !Starts(rest[i].cmd, k) { assert rest[i] == es[b + 1 + i]; }
      WithoutRestarts(codec, rest, k);
    }
  }

  /** Without duplicate starts the two decoders never part. */
  lemma {:induction false} WithoutRestarts<S(!new)>(codec: Codec<S>, es: seq<Event>, k: Key)
    requires FailureIsNeutral(codec) && forall i :: 0 <= i < |es| ==> !Starts(es[i].cmd, k)
    ensures var (s, out) := Played(codec, es, k);
      ListenAll(codec, Ears(Some(codec.initial), codec.initial, []), es, k) == Ears(Some(s), s, out)
    decreases |es|
  {
    if es != [] {
      assert !Starts(es[|es| - 1].cmd, k);
      WithoutRestarts(codec, es[..|es| - 1], k);
    }
  }

  // The history that turns a refusal into a loss: a start, the packets with a
  // duplicate start after the first j of them, and then the refused packet.

  const FAIR := Env(StartEnv(true, true), true, true)

  const DEFAULT := OpenAi("", None, None)

  function Begin(k: Key): Event {
    Event(StartSession(k, None), FAIR)
  }

  function Say(k: Key, p: seq<byte>): Event {
    Event(Audio(AudioPacket(k, p, 0, 0)), FAIR)
  }

  function Scenario(k: Key, ps: seq<seq<byte>>, j: nat): seq<Event> {
    var said := if ps == [] then [] else Scenario(k, ps[..|ps| - 1], j) + [Say(k, ps[|ps| - 1])];
    if |ps| == j then said + [Begin(k)] else said
  }

  predicate Calm(es: seq<Event>) {
    forall i :: 0 <= i < |es| ==> es[i].env == FAIR && !es[i].cmd.Shutdown? && !es[i].cmd.StopSession?
  }

  lemma {:induction false} ScenarioIsCalm(k: Key, ps: seq<seq<byte>>, j: nat)
    ensures Calm(Scenario(k, ps, j))
    decreases |ps|
  {
    if ps != [] {
      ScenarioIsCalm(k, ps[..|ps| - 1], j);
    }
  }

  lemma SaySnoc(k: Key, es: seq<Event>, p: seq<byte>)
    ensures Payloads(es + [Say(k, p)], k) == Payloads(es, k) + [p]
    ensures Recent(es + [Say(k, p)], k) == Recent(es, k) + [p]
  {
    assert (es + [Say(k, p)])[..|es|] == es;
  }

  lemma BeginSnoc(k: Key, es: seq<Event>)
    ensures Payloads(es + [Begin(k)], k) == Payloads(es, k)
    ensures Recent(es + [Begin(k)], k) == []
  {
    assert (es + [Begin(k)])[..|es|] == es;
  }

  lemma {:induction false} ScenarioIs(k: Key, ps: seq<seq<byte>>, j: nat)
    ensures Payloads(Scenario(k, ps, j), k) == ps
    ensures Recent(Scenario(k, ps, j), k) == if j <= |ps| then ps[j..] else ps
    decreases |ps|
  {
    var said: seq<Event> := [];
    if ps != [] {
      var init, p := ps[..|ps| - 1], ps[|ps| - 1];
      ScenarioIs(k, init, j);
      SaySnoc(k, Scenario(k, init, j), p);
      said := Scenario(k, init, j) + [Say(k, p)];
      assert init + [p] == ps;
      assert j < |ps| ==> init[j..] + [p] == ps[j..];
    }
    if |ps| == j {
      BeginSnoc(k, said);
      assert ps[j..] == [];
    }
  }

  lemma {:induction false} LeastRefusal<S(!new)>(codec: Codec<S>, ps: seq<seq<byte>>, j: nat, p: seq<byte>)
      returns (qs: seq<seq<byte>>, i: nat, q: seq<byte>)
    requires Refuses(codec, ps, j, p)
    ensures Refuses(codec, qs, i, q) && NoRefusalWithin(codec, |qs|)
    decreases |ps|
  {
    if NoRefusalWithin(codec, |ps|) {
      qs, i, q := ps, j, p;
    } else {
      var rs: seq<seq<byte>>, l: nat, r: seq<byte> :| |rs| < |ps| && Refuses(codec, rs, l, r);
      qs, i, q := LeastRefusal(codec, rs, l, r);
    }
  }

  /** A stream started by the first of some calm commands stays live, with a fresh decoder at first. */
  lemma CalmStart<S>(codec: Codec<S>, k: Key, rest: seq<Event>)
    requires Calm(rest)
    ensures var es := [Begin(k)] + rest;
      && Run(codec, DEFAULT, es).running && StartsAt(codec, DEFAULT, es, 0, k) && NoStopAfter(es, 0, k)
      && k in Run(codec, DEFAULT, es).manager.sessions
      && EarsAt(Run(codec, DEFAULT, es), k)
         == ListenAll(codec, Ears(Some(codec.initial), codec.initial, []), rest, k)
  {
    var es := [Begin(k)] + rest;
    forall i | 0 <= i < |es| ensures es[i].env == FAIR && !es[i].cmd.Shutdown? && !es[i].cmd.StopSession? {
      assert i > 0 ==> es[i] == rest[i - 1];
    }
    EndsIff(codec, DEFAULT, es);
    assert es[..0] == [] && es[1..] == rest && es[..1] == [Begin(k)] && [Begin(k)][..0] == [];
    assert StartsAt(codec, DEFAULT, es, 0, k);
    DeliveryIsIsolated(codec, DEFAULT, es, 0, k);
    assert EarsAt(Run(codec, DEFAULT, es[..1]), k).worker == Some(codec.initial);
  }

  lemma RefusalLosesAudio<S(!new)>(codec: Codec<S>, k: Key, ps: seq<seq<byte>>, j: nat, p: seq<byte>)
    requires FailureIsNeutral(codec) && Refuses(codec, ps, j, p) && NoRefusalWithin(codec, |ps|)
    ensures LosesAudio(codec, DEFAULT, [Begin(k)] + (Scenario(k, ps, j) + [Say(k, p)]), 0, k)
  {
    var rest := Scenario(k, ps, j);
    var tail := rest + [Say(k, p)];
    ScenarioIsCalm(k, ps, j);
    ScenarioIs(k, ps, j);
    CalmStart(codec, k, tail);
    ListenTracks(codec, rest, k);
    assert tail[..|tail| - 1] == rest && ([Begin(k)] + tail)[1..] == tail;
    assert |Played(codec, tail, k).1| == |Played(codec, rest, k).1| + 1;
  }

  /** A duplicate start loses audio of some live stream in some history exactly if
      the codec has a packet that a decoder refuses when it was restarted and decodes
      when it heard everything. Where failed decodes are harmless, nothing else loses any. */
  lemma {:induction false} DuplicateStartLosesAudioIff<S(!new)>(codec: Codec<S>)
    requires FailureIsNeutral(codec)
    ensures (exists ps, j: nat, p :: Refuses(codec, ps, j, p)) <==>
            (exists default, es: seq<Event>, b: nat, k :: LosesAudio(codec, default, es, b, k))
    ensures forall default, es: seq<Event>, b: nat, k :: LosesAudio(codec, default, es, b, k) ==>
      exists i :: b < i < |es| && Starts(es[i].cmd, k)
  {
    forall default, es: seq<Event>, b: nat, k | LosesAudio(codec, default, es, b, k)
      ensures exists ps, j: nat, p :: Refuses(codec, ps, j, p)
      ensures exists i :: b < i < |es| && Starts(es[i].cmd, k)
    {
      LossNeedsRefusal(codec, default, es, b, k);
    }
    if ps, j: nat, p :| Refuses(codec, ps, j, p) {
      var qs, i, q := LeastRefusal(codec, ps, j, p);
      RefusalLosesAudio(codec, (1, 1), qs, i, q);
    }
  }

  // ---------------------------------------------------------------- late audio

  predicate NoRestart(es: seq<Event>, k: Key) {
    forall i :: 0 <= i < |es| ==> !Starts(es[i].cmd, k)
  }

  /** The same commands without the stream's audio. */
  function WithoutAudio(es: seq<Event>, k: Key): seq<Event> {
    if es == [] then []
    else
      var rest, e := WithoutAudio(es[..|es| - 1], k), es[|es| - 1];
      if Speaks(e.cmd, k) then rest else rest + [e]
  }

  /** The same but for the worker's decoder of one stream. */
  ghost predicate AgreeBut<S>(v: WorkerState<S>, w: WorkerState<S>, k: Key) {
    && v.manager == w.manager && v.running == w.running
    && forall j :: j != k ==>
         && (j in v.decoders <==> j in w.decoders)
         && (j in v.decoders && j in w.decoders ==> v.decoders[j] == w.decoders[j])
  }

  lemma HearingKeepsAgreement<S>(codec: Codec<S>, v: WorkerState<S>, w: WorkerState<S>,
                                 p: AudioPacket, env: Env, k: Key)
    requires AgreeBut(v, w, k) && k !in v.manager.sessions && Hears(codec, v, p, env).running
    ensures k !in Hears(codec, v, p, env).manager.sessions
    ensures AgreeBut(Hears(codec, v, p, env), if p.key == k then w else Hears(codec, w, p, env), k)
  {
    if p.key != k {
      assert DecoderFor(codec, v.decoders, p.key) == DecoderFor(codec, w.decoders, p.key);
    }
  }

  lemma StepKeepsAgreement<S>(codec: Codec<S>, default: BackendConfig, v: WorkerState<S>, w: WorkerState<S>,
                              e: Event, k: Key)
    requires AgreeBut(v, w, k) && k !in v.manager.sessions && !Starts(e.cmd, k)
    requires v.running && Step(codec, default, v, e).running
    ensures k !in Step(codec, default, v, e).manager.sessions
    ensures AgreeBut(Step(codec, default, v, e), if Speaks(e.cmd, k) then w else Step(codec, default, w, e), k)
  {
    match e.cmd
    case Audio(p) => HearingKeepsAgreement(codec, v, w, p, e.env, k);
    case _ =>
  }

  /** Audio of a stream that is not live, for as long as it is not started, changes
      nothing but the worker's decoder for that very stream: every session, every
      backend and every other decoder are as if it had never been sent. */
  lemma {:induction false} LateAudioIsDropped<S>(codec: Codec<S>, default: BackendConfig,
                                                w: WorkerState<S>, es: seq<Event>, k: Key)
    requires k !in w.manager.sessions && NoRestart(es, k) && RunFrom(codec, default, w, es).running
    ensures k !in RunFrom(codec, default, w, es).manager.sessions
    ensures AgreeBut(RunFrom(codec, default, w, es), RunFrom(codec, default, w, WithoutAudio(es, k)), k)
    decreases |es|
  {
    if es != [] {
      var init, e := es[..|es| - 1], es[|es| - 1];
      LateAudioIsDropped(codec, default, w, init, k);
      var quiet := WithoutAudio(init, k);
      assert !Starts(e.cmd, k);
      StepKeepsAgreement(codec, default, RunFrom(codec, default, w, init), RunFrom(codec, default, w, quiet), e, k);
      assert (quiet + [e])[..|quiet|] == quiet;
    }
  }

  /** So it is after a stop: with or without the stream's further audio the run is the same. */
  lemma {:induction false} StoppedStreamIsSilent<S>(codec: Codec<S>, default: BackendConfig,
                                                   es: seq<Event>, b: nat, k: Key)
    requires b < |es| && Stops(es[b].cmd, k) && NoRestart(es[b + 1..], k)
    requires Run(codec, default, es).running
    ensures k !in Run(codec, default, es).manager.sessions
    ensures AgreeBut(Run(codec, default, es), Run(codec, default, es[..b + 1] + WithoutAudio(es[b + 1..], k)), k)
  {
    var before, late := es[..b + 1], es[b + 1..];
    assert before[..b] == es[..b] && before[b] == es[b] && es == before + late;
    RunFromConcat(codec, default, Idle(), before, late);
    RunFromConcat(codec, default, Idle(), before, WithoutAudio(late, k));
    RunningBefore(codec, default, before, late);
    LateAudioIsDropped(codec, default, Run(codec, default, before), late, k);
  }
}
