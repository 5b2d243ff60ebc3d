/** The control protocol and the worker together: what the FIFO guarantees turns
    into guarantees about decoders and backends. */
module EndToEnd {
  import opened Prelude
  import opened Decoder
  import opened RtpAudioExtractor
  import opened Commands
  import opened Manager
  import opened Worker
  import opened Delivery
  import P = SignalingProtocol

  function CommandsOf(es: seq<Event>): (cs: seq<Command>)
    ensures |cs| == |es|
  {
    seq(|es|, i requires 0 <= i < |es| => es[i].cmd)
  }

  /** The worker has handled the first |es| commands of the FIFO. */
  predicate Consumes(es: seq<Event>, log: seq<Command>) {
    |es| <= |log| && forall i :: 0 <= i < |es| ==> es[i].cmd == log[i]
  }

  /** One fresh decoder over a list of packets: its state, and the outputs whose
      send was not refused. */
  function PlayPackets<S>(codec: Codec<S>, packets: seq<AudioPacket>, sendsOk: seq<bool>): (S, seq<Pcm>)
    requires |packets| == |sendsOk|
  {
    if packets == [] then (codec.initial, [])
    else
      var n := |packets| - 1;
      var (s, out) := PlayPackets(codec, packets[..n], sendsOk[..n]);
      var (s', pcm) := codec.step(s, packets[n].opus);
      (s', if pcm.Some? && sendsOk[n] then out + [pcm.value] else out)
  }

  lemma PlayPacketsSnoc<S>(codec: Codec<S>, packets: seq<AudioPacket>, sendsOk: seq<bool>, p: AudioPacket, ok: bool)
    requires |packets| == |sendsOk|
    ensures var (s, out) := PlayPackets(codec, packets, sendsOk);
      var (s', pcm) := codec.step(s, p.opus);
      PlayPackets(codec, packets + [p], sendsOk + [ok]) == (s', if pcm.Some? && ok then out + [pcm.value] else out)
  {
    assert (packets + [p])[..|packets|] == packets && (sendsOk + [ok])[..|sendsOk|] == sendsOk;
  }

  /** For each audio command of a stream, whether a send would then succeed. */
  function Sends(es: seq<Event>, k: Key): seq<bool> {
    if es == [] then []
    else
      var rest, e := Sends(es[..|es| - 1], k), es[|es| - 1];
      if Speaks(e.cmd, k) then rest + [e.env.sendOk] else rest
  }

  /** The audio of a stream among the commands of a list of events. */
  function Heard(es: seq<Event>, k: Key): seq<AudioPacket> {
    OfKey(AudioIn(CommandsOf(es)), k)
  }

  lemma HeardSnoc(es: seq<Event>, e: Event, k: Key)
    ensures Heard(es + [e], k) == Heard(es, k) + (if Speaks(e.cmd, k) then [e.cmd.packet] else [])
  {
    assert CommandsOf(es + [e]) == CommandsOf(es) + [e.cmd];
    AudioInSnoc(CommandsOf(es), e.cmd);
    if e.cmd.Audio? {
      OfKeySnoc(AudioIn(CommandsOf(es)), e.cmd.packet, k);
    }
  }

  lemma {:induction false} PlayedIsPlayPackets<S>(codec: Codec<S>, es: seq<Event>, k: Key)
    ensures |Heard(es, k)| == |Sends(es, k)|
    ensures Played(codec, es, k) == PlayPackets(codec, Heard(es, k), Sends(es, k))
    decreases |es|
  {
    if es != [] {
      var init, e := es[..|es| - 1], es[|es| - 1];
      assert es == init + [e];
      PlayedIsPlayPackets(codec, init, k);
      HeardSnoc(init, e, k);
      if Speaks(e.cmd, k) {
        PlayPacketsSnoc(codec, Heard(init, k), Sends(init, k), e.cmd.packet, e.env.sendOk);
      } else {
        assert Heard(init, k) + [] == Heard(init, k);
      }
    }
  }

  /** In every reachable state, and however far the worker has got, it holds
      decoders only for streams whose start it has already handled. */
  lemma {:induction false} NoStrayDecoders<S>(codec: Codec<S>, default: BackendConfig,
                                             log: seq<Command>, es: seq<Event>)
    requires P.StartsFirst(log) && Consumes(es, log)
    ensures Run(codec, default, es).decoders.Keys <= StartedKeys(log[..|es|])
    decreases |es|
  {
    if es != [] {
      var n := |es| - 1;
      NoStrayDecoders(codec, default, log, es[..n]);
      assert log[..n + 1] == log[..n] + [log[n]];
      StartedKeysSnoc(log[..n], log[n]);
      if log[n].Audio? {
        assert P.StartPrecedes(log, n);
        var j :| 0 <= j < n && Starts(log[j], log[n].packet.key);
        assert log[..n][j] == log[j];
        StartedKeysIff(log[..n], log[n].packet.key);
      }
    }
  }

  lemma ReachableWorkersHaveNoStrayDecoders<S>(states: seq<P.System>, n: nat, codec: Codec<S>,
                                               default: BackendConfig, es: seq<Event>)
    requires P.IsBehaviour(states) && n < |states| && Consumes(es, states[n].log)
    ensures forall k :: k in Run(codec, default, es).decoders ==>
      exists i :: 0 <= i < |es| && Starts(es[i].cmd, k)
  {
    P.BehaviourInv(states, n);
    var log := states[n].log;
    NoStrayDecoders(codec, default, log, es);
    forall k | k in Run(codec, default, es).decoders
      ensures exists i :: 0 <= i < |es| && Starts(es[i].cmd, k)
    {
      StartedKeysIff(log[..|es|], k);
      var i :| 0 <= i < |es| && Starts(log[..|es|][i], k);
      assert Starts(es[i].cmd, k);
    }
  }

  /** In every interleaving, audio can end the worker only by a stream whose every
      start so far either left it without a decoder or was followed by a stop: late
      audio of a stopped stream, or a stream whose worker decoder failed at its start. */
  lemma {:induction false} OnlySuchAudioEndsTheWorker(states: seq<P.System>, n: nat, es: seq<Event>, i: nat)
    requires P.IsBehaviour(states) && n < |states| && Consumes(es, states[n].log)
    requires i < |es| && Ends(es, i) && es[i].cmd.Audio?
    ensures var k := es[i].cmd.packet.key;
      && (exists j :: 0 <= j < i && Starts(es[j].cmd, k))
      && (forall j :: 0 <= j < i && Starts(es[j].cmd, k) ==>
            !es[j].env.decoderOk || exists m :: j < m < i && Stops(es[m].cmd, k))
  {
    P.StartBeforeAudio(states, n, i);
    var log, k := states[n].log, es[i].cmd.packet.key;
    var j :| 0 <= j < i && Starts(log[j], k);
    assert Starts(es[j].cmd, k);
    forall j | 0 <= j < i && Starts(es[j].cmd, k)
      ensures !es[j].env.decoderOk || exists m :: j < m < i && Stops(es[m].cmd, k)
    {
      assert es[j].env.decoderOk ==> Equips(es[j], k);
    }
  }

  lemma LogWindow(log: seq<Command>, k: Key, a: nat, b: nat)
    requires a <= b <= |log|
    ensures var lo, hi := |OfKey(AudioIn(log[..a]), k)|, |OfKey(AudioIn(log[..b]), k)|;
      && lo <= hi <= |OfKey(AudioIn(log), k)|
      && OfKey(AudioIn(log[a..b]), k) == OfKey(AudioIn(log), k)[lo..hi]
  {
    var x, y, z := log[..a], log[a..b], log[b..];
    assert log[..b] == x + y && log == log[..b] + z;
    AudioInConcat(x, y);
    AudioInConcat(log[..b], z);
    OfKeyConcat(AudioIn(x), AudioIn(y), k);
    OfKeyConcat(AudioIn(log[..b]), AudioIn(z), k);
  }

  /** A stream's audio on the FIFO is the stream's audio at its home port. */
  lemma {:induction false} StreamIsPortStream(states: seq<P.System>, n: nat, k: Key)
    requires P.IsBehaviour(states) && n < |states| && states[n].ports != []
    ensures var s := states[n];
      && P.Home(s, k.0) in s.forwarded
      && OfKey(AudioIn(s.log), k) == OfKey(s.forwarded[P.Home(s, k.0)], k)
  {
    P.SessionAffinity(states, n, k.0);
    OfKeyOfSession(AudioIn(states[n].log), k);
    OfKeyOfSession(states[n].forwarded[P.Home(states[n], k.0)], k);
  }

  /** What the worker heard of a stream between two points is a contiguous run of
      what the stream's home port forwarded. */
  lemma {:induction false} HeardIsPortRun(states: seq<P.System>, n: nat, es: seq<Event>, b: nat, k: Key)
    requires P.IsBehaviour(states) && n < |states| && states[n].ports != []
    requires Consumes(es, states[n].log) && b < |es|
    ensures P.Home(states[n], k.0) in states[n].forwarded
    ensures var log := states[n].log;
      var lo, hi := |OfKey(AudioIn(log[..b + 1]), k)|, |OfKey(AudioIn(log[..|es|]), k)|;
      var packets := OfKey(states[n].forwarded[P.Home(states[n], k.0)], k);
      lo <= hi <= |packets| && Heard(es[b + 1..], k) == packets[lo..hi]
  {
    assert CommandsOf(es[b + 1..]) == states[n].log[b + 1..|es|];
    StreamIsPortStream(states, n, k);
    LogWindow(states[n].log, k, b + 1, |es|);
  }

  /** From microphone to backend: in every interleaving of calls, media workers and
      the transcription worker, with any duplicate starts, failed creations and
      refused sends, the backend of a live stream has been sent exactly the
      decoding of a contiguous run of the packets that the stream's home port
      forwarded, namely those after its start, less what was refused. */
  lemma {:induction false} BackendHearsItsPort<S(!new)>(states: seq<P.System>, n: nat,
                                     codec: Codec<S>, default: BackendConfig,
                                     es: seq<Event>, b: nat, k: Key)
    requires P.IsBehaviour(states) && n < |states| && states[n].ports != []
    requires Consumes(es, states[n].log)
    requires Run(codec, default, es).running && FailureIsNeutral(codec) && SuccessIsStateless(codec)
    requires StartsAt(codec, default, es, b, k) && NoStopAfter(es, b, k)
    ensures k in Run(codec, default, es).manager.sessions
    ensures P.Home(states[n], k.0) in states[n].forwarded
    ensures var log := states[n].log;
      var lo, hi := |OfKey(AudioIn(log[..b + 1]), k)|, |OfKey(AudioIn(log[..|es|]), k)|;
      var packets, sendsOk := OfKey(states[n].forwarded[P.Home(states[n], k.0)], k), Sends(es[b + 1..], k);
      && lo <= hi <= |packets| && |sendsOk| == hi - lo
      && Run(codec, default, es).manager.sessions[k].backend.sent == PlayPackets(codec, packets[lo..hi], sendsOk).1
  {
    DeliveryIsExact(codec, default, es, b, k);
    PlayedIsPlayPackets(codec, es[b + 1..], k);
    HeardIsPortRun(states, n, es, b, k);
  }

  /** After a stop the home port may go on forwarding, but until the stream is
      started again every session and every backend is as if it had not. */
  lemma {:induction false} LateAudioReachesNoBackend<S>(states: seq<P.System>, n: nat,
                                           codec: Codec<S>, default: BackendConfig,
                                           es: seq<Event>, b: nat, k: Key)
    requires P.IsBehaviour(states) && n < |states| && states[n].ports != []
    requires Consumes(es, states[n].log) && Run(codec, default, es).running
    requires b < |es| && Stops(es[b].cmd, k) && NoRestart(es[b + 1..], k)
    ensures P.Home(states[n], k.0) in states[n].forwarded
    ensures var log := states[n].log;
      var lo, hi := |OfKey(AudioIn(log[..b + 1]), k)|, |OfKey(AudioIn(log[..|es|]), k)|;
      var packets := OfKey(states[n].forwarded[P.Home(states[n], k.0)], k);
      lo <= hi <= |packets| && Heard(es[b + 1..], k) == packets[lo..hi]
    ensures Heard(WithoutAudio(es[b + 1..], k), k) == []
    ensures k !in Run(codec, default, es).manager.sessions
    ensures Run(codec, default, es).manager ==
      Run(codec, default, es[..b + 1] + WithoutAudio(es[b + 1..], k)).manager
  {
    HeardIsPortRun(states, n, es, b, k);
    SilencedIsUnheard(es[b + 1..], k);
    StoppedStreamIsSilent(codec, default, es, b, k);
  }

  lemma {:induction false} SilencedIsUnheard(es: seq<Event>, k: Key)
    ensures Heard(WithoutAudio(es, k), k) == []
    decreases |es|
  {
    if es != [] {
      SilencedIsUnheard(es[..|es| - 1], k);
      if !Speaks(es[|es| - 1].cmd, k) {
        HeardSnoc(WithoutAudio(es[..|es| - 1], k), es[|es| - 1], k);
      }
    }
  }
}
