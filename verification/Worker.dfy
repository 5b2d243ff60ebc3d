/** The transcription worker: it consumes the FIFO, keeps its own decoder per
    stream and drives the manager, which decodes every packet a second time. */
module Worker {
  import opened Prelude
  import opened Decoder
  import opened RtpAudioExtractor
  import opened Commands
  import opened Manager

  /** What the world does while one command is handled. */
  datatype Env = Env(start: StartEnv, decoderOk: bool, sendOk: bool)

  datatype Event = Event(cmd: Command, env: Env)

  datatype WorkerState<S> = WorkerState(decoders: map<Key, S>, manager: ManagerState<S>, running: bool)

  function Idle<S>(): WorkerState<S> {
    WorkerState(map[], NoSessions(), true)
  }

  /** A stream's decoder, created on first use. */
  function DecoderFor<S>(codec: Codec<S>, decoders: map<Key, S>, k: Key): S {
    if k in decoders then decoders[k] else codec.initial
  }

  /** `process_audio_packet`; a decoder that cannot be created panics the thread. */
  function Hears<S>(codec: Codec<S>, w: WorkerState<S>, p: AudioPacket, env: Env): WorkerState<S> {
    if p.key !in w.decoders && !env.decoderOk then w.(running := false)
    else
      var (d, pcm) := codec.step(DecoderFor(codec, w.decoders, p.key), p.opus);
      w.(decoders := w.decoders[p.key := d],
         manager := if pcm.None? then w.manager else AfterAudio(codec, w.manager, p.key, p.opus, env.sendOk).0)
  }

  function Step<S>(codec: Codec<S>, default: BackendConfig, w: WorkerState<S>, e: Event): WorkerState<S> {
    if !w.running then w
    else match e.cmd
      case StartSession(k, config) =>
        w.(manager := AfterStart(codec, default, w.manager, k, config, e.env.start).0,
           decoders := if e.env.decoderOk then w.decoders[k := codec.initial] else w.decoders)
      case StopSession(k) => w.(manager := AfterStop(w.manager, k), decoders := w.decoders - {k})
      case Audio(p) => Hears(codec, w, p, e.env)
      case Shutdown => w.(running := false)
  }

  function RunFrom<S>(codec: Codec<S>, default: BackendConfig, w: WorkerState<S>, es: seq<Event>): WorkerState<S> {
    if es == [] then w
    else Step(codec, default, RunFrom(codec, default, w, es[..|es| - 1]), es[|es| - 1])
  }

  function Run<S>(codec: Codec<S>, default: BackendConfig, es: seq<Event>): WorkerState<S> {
    RunFrom(codec, default, Idle(), es)
  }

  lemma {:induction false} RunFromConcat<S>(codec: Codec<S>, default: BackendConfig,
                                           w: WorkerState<S>, a: seq<Event>, b: seq<Event>)
    ensures RunFrom(codec, default, w, a + b) == RunFrom(codec, default, RunFrom(codec, default, w, a), b)
    decreases |b|
  {
    if b == [] {
      assert a + b == a;
    } else {
      assert (a + b)[..|a + b| - 1] == a + b[..|b| - 1];
      RunFromConcat(codec, default, w, a, b[..|b| - 1]);
    }
  }

  /** A worker that is running was running earlier. */
  lemma {:induction false} RunningBefore<S>(codec: Codec<S>, default: BackendConfig, a: seq<Event>, b: seq<Event>)
    requires Run(codec, default, a + b).running
    ensures Run(codec, default, a).running
    decreases |b|
  {
    if b == [] {
      assert a + b == a;
    } else {
      assert (a + b)[..|a + b| - 1] == a + b[..|b| - 1];
      RunningBefore(codec, default, a, b[..|b| - 1]);
    }
  }

  lemma {:induction false} StoppedStays<S>(codec: Codec<S>, default: BackendConfig,
                                          w: WorkerState<S>, es: seq<Event>, n: nat)
    requires n <= |es| && !RunFrom(codec, default, w, es[..n]).running
    ensures RunFrom(codec, default, w, es) == RunFrom(codec, default, w, es[..n])
    decreases |es|
  {
    if n == |es| {
      assert es[..n] == es;
    } else {
      assert es[..|es| - 1][..n] == es[..n];
      StoppedStays(codec, default, w, es[..|es| - 1], n);
    }
  }

  class TranscriptionWorker<S(!new)> {
    const manager: TranscriptionManager<S>
    var decoders: map<Key, S>
    var running: bool

    ghost predicate Valid()
      reads manager
    {
      manager.Valid()
    }

    ghost function State(): WorkerState<S>
      reads this, manager, manager.sessions.Values
    {
      WorkerState(decoders, manager.State(), running)
    }

    constructor (manager: TranscriptionManager<S>)
      requires manager.Valid()
      ensures Valid() && this.manager == manager
      ensures State() == WorkerState(map[], manager.State(), true)
    {
      this.manager := manager;
      decoders, running := map[], true;
    }

    method ProcessAudioPacket(p: AudioPacket, env: Env)
      requires Valid() && running
      modifies this, manager.sessions.Values
      ensures Valid() && manager.sessions == old(manager.sessions)
      ensures State() == Hears(manager.codec, old(State()), p, env)
    {
      if p.key !in decoders {
        if !env.decoderOk {
          running := false;
          return;
        }
        decoders := decoders[p.key := manager.codec.initial];
      }
      var (d, pcm) := manager.codec.step(decoders[p.key], p.opus);
      decoders := decoders[p.key := d];
      if pcm.Some? {
        var _ := manager.ProcessAudio(p.key, p.opus, env.sendOk);
      }
    }

    method Handle(e: Event)
      requires Valid() && running
      modifies this, manager, manager.sessions.Values
      ensures Valid() && fresh(manager.sessions.Values - old(manager.sessions.Values))
      ensures State() == Step(manager.codec, manager.config, old(State()), e)
    {
      match e.cmd {
        case StartSession(k, config) =>
          var _ := manager.StartSession(k, config, e.env.start);
          if e.env.decoderOk {
            decoders := decoders[k := manager.codec.initial];
          }
        case StopSession(k) =>
          manager.StopSession(k);
          decoders := decoders - {k};
        case Audio(p) =>
          ProcessAudioPacket(p, e.env);
        case Shutdown =>
          running := false;
      }
    }

    /** Runs until the channel closes, a shutdown arrives or the thread panics. */
    method RunLoop(rx: seq<Event>)
      requires Valid() && running
      modifies this, manager, manager.sessions.Values
      ensures Valid()
      ensures State() == RunFrom(manager.codec, manager.config, old(State()), rx)
    {
      var i := 0;
      while i < |rx| && running
        invariant i <= |rx|
        invariant Valid() && fresh(manager.sessions.Values - old(manager.sessions.Values))
        invariant State() == RunFrom(manager.codec, manager.config, old(State()), rx[..i])
        decreases |rx| - i
      {
        Handle(rx[i]);
        assert rx[..i + 1][..i] == rx[..i];
        i := i + 1;
      }
      assert rx[..|rx|] == rx;
      if !running {
        StoppedStays(manager.codec, manager.config, old(State()), rx, i);
      }
    }
  }

  // -------------------------------------------------------- session stability

  /** Event b starts stream k: it was not live, its session's decoder can be created, and
      the backend in effect is OpenAI or a server of a list that accepts the connection. */
  predicate StartsAt<S>(codec: Codec<S>, default: BackendConfig, es: seq<Event>, b: nat, k: Key) {
    && b < |es| && Starts(es[b].cmd, k)
    && var w, env := Run(codec, default, es[..b]), es[b].env.start;
       var config := if es[b].cmd.config.Some? then es[b].cmd.config.value else default;
       && w.running && k !in w.manager.sessions && env.decoderOk
       && (config.OpenAi? || (config.SimulStreaming? && config.addresses != [] && env.connectOk))
  }

  predicate NoStopAfter(es: seq<Event>, b: nat, k: Key) {
    forall i :: b < i < |es| ==> !Stops(es[i].cmd, k)
  }

  predicate AllDecodersOk(es: seq<Event>) {
    forall i :: 0 <= i < |es| ==> es[i].env.decoderOk
  }

  // ------------------------------------------------------ what ends the worker

  predicate Equips(e: Event, k: Key) {
    (Starts(e.cmd, k) && e.env.decoderOk) || Speaks(e.cmd, k)
  }

  /** Before event n the worker has got a decoder for stream k, from a start or from
      audio, and has not dropped it since. */
  predicate Equipped(es: seq<Event>, n: nat, k: Key)
    requires n <= |es|
  {
    exists i: nat :: i < n && Equips(es[i], k) && forall j :: i < j < n ==> !Stops(es[j].cmd, k)
  }

  /** Event n ends the worker: a shutdown, or audio for which it has no decoder and can make none. */
  predicate Ends(es: seq<Event>, n: nat)
    requires n < |es|
  {
    var e := es[n];
    e.cmd.Shutdown? || (e.cmd.Audio? && !e.env.decoderOk && !Equipped(es, n, e.cmd.packet.key))
  }

  lemma EquippedSnoc(es: seq<Event>, e: Event, n: nat, k: Key)
    requires n <= |es|
    ensures Equipped(es + [e], n, k) <==> Equipped(es, n, k)
  {
    var all := es + [e];
    if i: nat :| i < n && Equips(es[i], k) && forall j :: i < j < n ==> !Stops(es[j].cmd, k) {
      assert all[i] == es[i];
    }
    if i: nat :| i < n && Equips(all[i], k) && forall j :: i < j < n ==> !Stops(all[j].cmd, k) {
      forall j | i < j < n ensures !Stops(es[j].cmd, k) { assert all[j] == es[j]; }
    }
  }

  /** One event and a stream's decoder. */
  lemma EquippedStep(es: seq<Event>, e: Event, k: Key)
    ensures Equipped(es + [e], |es| + 1, k) <==> Equips(e, k) || (Equipped(es, |es|, k) && !Stops(e.cmd, k))
  {
    var all, n := es + [e], |es|;
    if Equips(e, k) {
      assert all[n] == e;
    } else {
      if i: nat :| i < n && Equips(es[i], k) && forall j :: i < j < n ==> !Stops(es[j].cmd, k) {
        assert all[i] == es[i] && all[n] == e;
      }
      if i: nat :| i < n + 1 && Equips(all[i], k) && forall j :: i < j < n + 1 ==> !Stops(all[j].cmd, k) {
        assert all[n] == e;
        forall j | i < j < n ensures !Stops(es[j].cmd, k) { assert all[j] == es[j]; }
      }
    }
  }

  /** While the worker runs, it has exactly the decoders its command history says. */
  lemma {:induction false} DecoderIff<S>(codec: Codec<S>, default: BackendConfig, es: seq<Event>, k: Key)
    requires Run(codec, default, es).running
    ensures k in Run(codec, default, es).decoders <==> Equipped(es, |es|, k)
    decreases |es|
  {
    if es != [] {
      var init, e := es[..|es| - 1], es[|es| - 1];
      assert es == init + [e];
      DecoderIff(codec, default, init, k);
      EquippedStep(init, e, k);
    }
  }

  /** Read off the command history alone: the worker has ended exactly if a shutdown
      arrived, or audio came when no decoder for its stream was at hand or could be made. */
  lemma {:induction false} EndsIff<S>(codec: Codec<S>, default: BackendConfig, es: seq<Event>)
    ensures !Run(codec, default, es).running <==> exists n: nat :: n < |es| && Ends(es, n)
    decreases |es|
  {
    if es != [] {
      var init, e := es[..|es| - 1], es[|es| - 1];
      assert es == init + [e];
      EndsIff(codec, default, init);
      forall n: nat | n < |init| ensures Ends(es, n) <==> Ends(init, n) {
        if init[n].cmd.Audio? {
          EquippedSnoc(init, e, n, init[n].cmd.packet.key);
        }
      }
      if Run(codec, default, init).running && e.cmd.Audio? {
        DecoderIff(codec, default, init, e.cmd.packet.key);
        EquippedSnoc(init, e, |init|, e.cmd.packet.key);
      }
      if n: nat :| n < |init| && Ends(init, n) {
        assert Ends(es, n);
      }
      assert !Step(codec, default, Run(codec, default, init), e).running <==>
        !Run(codec, default, init).running || Ends(es, |init|);
    }
  }

  /** A stream is live exactly when some start of it succeeded and no stop followed. */
  lemma {:induction false} LiveIffStarted<S>(codec: Codec<S>, default: BackendConfig, es: seq<Event>, k: Key)
    requires Run(codec, default, es).running
    ensures k in Run(codec, default, es).manager.sessions <==>
      exists b: nat :: StartsAt(codec, default, es, b, k) && NoStopAfter(es, b, k)
    decreases |es|
  {
    if es != [] {
      var n := |es| - 1;
      var init := es[..n];
      LiveIffStarted(codec, default, init, k);
      if k in Run(codec, default, es).manager.sessions {
        if k in Run(codec, default, init).manager.sessions {
          var b: nat :| StartsAt(codec, default, init, b, k) && NoStopAfter(init, b, k);
          assert init[..b] == es[..b];
          assert StartsAt(codec, default, es, b, k);
          assert !Stops(es[n].cmd, k);
          assert NoStopAfter(es, b, k);
        } else {
          assert StartsAt(codec, default, es, n, k) && NoStopAfter(es, n, k);
        }
      }
      forall b: nat | StartsAt(codec, default, es, b, k) && NoStopAfter(es, b, k)
        ensures k in Run(codec, default, es).manager.sessions
      {
        if b < n {
          assert init[..b] == es[..b];
          assert StartsAt(codec, default, init, b, k);
          assert NoStopAfter(init, b, k) by {
            forall i | b < i < |init| ensures !Stops(init[i].cmd, k) { assert !Stops(es[i].cmd, k); }
          }
          assert !Stops(es[n].cmd, k);
        }
      }
    }
  }

  /** From a successful start to the next stop the stream keeps the very same
      connection, whatever duplicate starts, failed starts and audio come in
      between, and never lacks a worker decoder if decoders can be created. */
  lemma {:induction false} SessionIsStable<S>(codec: Codec<S>, default: BackendConfig, es: seq<Event>, b: nat, k: Key)
    requires Run(codec, default, es).running
    requires StartsAt(codec, default, es, b, k) && NoStopAfter(es, b, k)
    ensures var w, before := Run(codec, default, es), Run(codec, default, es[..b]);
      && k in w.manager.sessions
      && w.manager.sessions[k].backend.id == before.manager.created
      && w.manager.sessions[k].backend.target == Target(Effective(default, es[b].cmd.config), before.manager.nextIndex)
      && (AllDecodersOk(es) ==> k in w.decoders)
    decreases |es|
  {
    var n := |es| - 1;
    var init := es[..n];
    if b < n {
      assert init[..b] == es[..b];
      assert NoStopAfter(init, b, k) by {
        forall i | b < i < |init| ensures !Stops(init[i].cmd, k) { assert !Stops(es[i].cmd, k); }
      }
      assert !Stops(es[n].cmd, k);
      SessionIsStable(codec, default, init, b, k);
    }
  }

  /** Decoders are created one per live stream and more: late audio re-creates them. */
  lemma {:induction false} DecodersCoverSessions<S>(codec: Codec<S>, default: BackendConfig, es: seq<Event>)
    requires AllDecodersOk(es)
    ensures var w := Run(codec, default, es); w.manager.sessions.Keys <= w.decoders.Keys
    decreases |es|
  {
    if es != [] {
      DecodersCoverSessions(codec, default, es[..|es| - 1]);
    }
  }
}
