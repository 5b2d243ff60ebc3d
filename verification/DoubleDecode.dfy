/** The worker decodes every packet, discards the samples and lets the session
    decode it again: when the two decoders agree, and what a single decode would change. */
module DoubleDecode {
  import opened Prelude
  import opened Decoder
  import opened RtpAudioExtractor
  import opened Commands
  import opened Manager
  import opened Worker

  /** Every live session's decoder and the worker's decoder for it are in the same state. */
  ghost predicate Synced<S>(w: WorkerState<S>) {
    forall k :: k in w.manager.sessions ==> k in w.decoders && w.decoders[k] == w.manager.sessions[k].decoder
  }

  /** What a step must avoid: restarting a live stream that has already moved on,
      starting one without a fresh worker decoder, and a failed decode that
      leaves the worker's decoder changed. */
  ghost predicate KeepsSync<S>(codec: Codec<S>, default: BackendConfig, w: WorkerState<S>, e: Event) {
    match e.cmd
    case StartSession(k, config) =>
      if k in w.manager.sessions then e.env.decoderOk ==> w.manager.sessions[k].decoder == codec.initial
      else CanConnect(Effective(default, config), e.env.start) ==>
        e.env.decoderOk || (k in w.decoders && w.decoders[k] == codec.initial)
    case Audio(p) =>
      p.key in w.manager.sessions && codec.step(w.manager.sessions[p.key].decoder, p.opus).1.None? ==>
        codec.step(w.manager.sessions[p.key].decoder, p.opus).0 == w.manager.sessions[p.key].decoder
    case _ => true
  }

  /** From a synced state, a step keeps the decoders in step exactly under that condition. */
  lemma SyncKeptIff<S>(codec: Codec<S>, default: BackendConfig, w: WorkerState<S>, e: Event)
    requires w.running && Synced(w)
    ensures Synced(Step(codec, default, w, e)) <==> KeepsSync(codec, default, w, e)
  {
  }

  /** No start ever hits a live stream. */
  ghost predicate NoDuplicateStarts<S>(codec: Codec<S>, default: BackendConfig, es: seq<Event>) {
    forall i :: 0 <= i < |es| && es[i].cmd.StartSession? ==>
      es[i].cmd.key !in Run(codec, default, es[..i]).manager.sessions
  }

  ghost predicate SyncedThroughout<S>(codec: Codec<S>, default: BackendConfig, es: seq<Event>) {
    forall i: nat :: i <= |es| ==> Synced(Run(codec, default, es[..i]))
  }

  /** Command i of a history, if it is still handled, keeps the decoders in step. */
  ghost predicate KeepsSyncAt<S>(codec: Codec<S>, default: BackendConfig, es: seq<Event>, i: nat)
    requires i < |es|
  {
    var w := Run(codec, default, es[..i]); w.running ==> KeepsSync(codec, default, w, es[i])
  }

  ghost predicate EachKeepsSync<S>(codec: Codec<S>, default: BackendConfig, es: seq<Event>) {
    forall i: nat :: i < |es| ==> KeepsSyncAt(codec, default, es, i)
  }

  lemma SyncedThroughoutSnoc<S>(codec: Codec<S>, default: BackendConfig, es: seq<Event>, e: Event)
    ensures SyncedThroughout(codec, default, es + [e]) <==>
      SyncedThroughout(codec, default, es) && Synced(Run(codec, default, es + [e]))
  {
    var all := es + [e];
    assert all[..|all|] == all;
    assert forall i: nat :: i <= |es| ==> all[..i] == es[..i];
  }

  lemma EachKeepsSyncSnoc<S>(codec: Codec<S>, default: BackendConfig, es: seq<Event>, e: Event)
    ensures EachKeepsSync(codec, default, es + [e]) <==>
      EachKeepsSync(codec, default, es) && KeepsSyncAt(codec, default, es + [e], |es|)
  {
    var all := es + [e];
    forall i: nat | i < |es| ensures KeepsSyncAt(codec, default, all, i) <==> KeepsSyncAt(codec, default, es, i) {
      assert all[..i] == es[..i] && all[i] == es[i];
    }
  }

  /** Over any history worker and session decoders are in the same state at every
      moment exactly if no handled command breaks the condition. */
  lemma {:induction false} SyncedThroughoutIff<S>(codec: Codec<S>, default: BackendConfig, es: seq<Event>)
    ensures SyncedThroughout(codec, default, es) <==> EachKeepsSync(codec, default, es)
    decreases |es|
  {
    if es != [] {
      var init, e := es[..|es| - 1], es[|es| - 1];
      assert es == init + [e];
      SyncedThroughoutIff(codec, default, init);
      SyncedThroughoutSnoc(codec, default, init, e);
      EachKeepsSyncSnoc(codec, default, init, e);
      var w := Run(codec, default, init);
      assert init[..|init|] == init;
      if w.running && Synced(w) {
        SyncKeptIff(codec, default, w, e);
      }
    }
  }

  /** Three plain conditions under which every command keeps the decoders in step. */
  lemma {:induction false} DecodersAgree<S(!new)>(codec: Codec<S>, default: BackendConfig, es: seq<Event>)
    requires FailureIsNeutral(codec) && AllDecodersOk(es) && NoDuplicateStarts(codec, default, es)
    ensures EachKeepsSync(codec, default, es)
    ensures Synced(Run(codec, default, es))
  {
    forall i: nat | i < |es| ensures KeepsSyncAt(codec, default, es, i) {
      assert es[i].env.decoderOk;
    }
    SyncedThroughoutIff(codec, default, es);
    assert es[..|es|] == es;
  }

  /** A worker that decodes once: sessions keep no decoder and are handed the samples
      the worker decoded. */
  datatype LeanState<S> = LeanState(
    decoders: map<Key, S>, backends: map<Key, Backend>, nextIndex: nat, created: nat, running: bool)

  function View<S>(w: WorkerState<S>): LeanState<S> {
    LeanState(w.decoders, map k | k in w.manager.sessions :: w.manager.sessions[k].backend,
              w.manager.nextIndex, w.manager.created, w.running)
  }

  function LeanHears<S>(codec: Codec<S>, l: LeanState<S>, p: AudioPacket, env: Env): LeanState<S> {
    if p.key !in l.decoders && !env.decoderOk then l.(running := false)
    else
      var (d, pcm) := codec.step(DecoderFor(codec, l.decoders, p.key), p.opus);
      var l' := l.(decoders := l.decoders[p.key := d]);
      if pcm.None? || !env.sendOk || p.key !in l.backends then l'
      else
        var backend := l.backends[p.key];
        l'.(backends := l.backends[p.key := backend.(sent := backend.sent + [pcm.value])])
  }

  function LeanStarts<S>(codec: Codec<S>, default: BackendConfig, l: LeanState<S>,
                         k: Key, override: Option<BackendConfig>, env: Env): LeanState<S> {
    var l' := l.(decoders := if env.decoderOk then l.decoders[k := codec.initial] else l.decoders);
    if k in l.backends then l'
    else
      var config := Effective(default, override);
      var l'' := l'.(nextIndex := NextIndex(default, l.nextIndex));
      if !CanConnect(config, env.start) then l''
      else l''.(backends := l.backends[k := Backend(l.created, Target(config, l.nextIndex), [], [])],
                created := l.created + 1)
  }

  function LeanStep<S>(codec: Codec<S>, default: BackendConfig, l: LeanState<S>, e: Event): LeanState<S> {
    if !l.running then l
    else match e.cmd
      case StartSession(k, config) => LeanStarts(codec, default, l, k, config, e.env)
      case StopSession(k) => l.(backends := l.backends - {k}, decoders := l.decoders - {k})
      case Audio(p) => LeanHears(codec, l, p, e.env)
      case Shutdown => l.(running := false)
  }

  function LeanRun<S>(codec: Codec<S>, default: BackendConfig, es: seq<Event>): LeanState<S> {
    if es == [] then LeanState(map[], map[], 0, 0, true)
    else LeanStep(codec, default, LeanRun(codec, default, es[..|es| - 1]), es[|es| - 1])
  }

  lemma LeanHearsRefines<S>(codec: Codec<S>, w: WorkerState<S>, p: AudioPacket, env: Env)
    requires Synced(w)
    ensures View(Hears(codec, w, p, env)) == LeanHears(codec, View(w), p, env)
  {
    if p.key in w.manager.sessions {
      assert p.key in w.decoders;
      assert View(Hears(codec, w, p, env)).backends == LeanHears(codec, View(w), p, env).backends;
    }
  }

  lemma LeanStartRefines<S>(codec: Codec<S>, default: BackendConfig, w: WorkerState<S>, e: Event)
    requires w.running && e.cmd.StartSession?
    ensures View(Step(codec, default, w, e)) == LeanStep(codec, default, View(w), e)
  {
    var k, w', l' := e.cmd.key, Step(codec, default, w, e), LeanStep(codec, default, View(w), e);
    assert View(w').backends == l'.backends;
  }

  /** One step of the real worker, from a synced state, looks like one lean step. */
  lemma {:induction false} LeanStepRefines<S>(codec: Codec<S>, default: BackendConfig, w: WorkerState<S>, e: Event)
    requires Synced(w)
    ensures View(Step(codec, default, w, e)) == LeanStep(codec, default, View(w), e)
  {
    if w.running {
      match e.cmd
      case StartSession(_, _) => LeanStartRefines(codec, default, w, e);
      case StopSession(_) =>
        assert View(Step(codec, default, w, e)).backends == LeanStep(codec, default, View(w), e).backends;
      case Audio(p) => LeanHearsRefines(codec, w, p, e.env);
      case Shutdown =>
    }
  }

  /** The second decode can go: over every history in which the decoders stay in
      step, every backend is sent exactly what the lean worker would send it. */
  lemma {:induction false} SecondDecodeIsRedundant<S>(codec: Codec<S>, default: BackendConfig, es: seq<Event>)
    requires EachKeepsSync(codec, default, es)
    ensures View(Run(codec, default, es)) == LeanRun(codec, default, es)
    decreases |es|
  {
    if es != [] {
      var init, e := es[..|es| - 1], es[|es| - 1];
      assert es == init + [e];
      EachKeepsSyncSnoc(codec, default, init, e);
      SecondDecodeIsRedundant(codec, default, init);
      SyncedThroughoutIff(codec, default, init);
      assert init[..|init|] == init;
      LeanStepRefines(codec, default, Run(codec, default, init), e);
    }
  }
}
