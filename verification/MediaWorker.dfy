/** The media worker's side of the protocol: handling one signalling message and
    draining the decrypted audio, and how both map onto protocol steps. */
module MediaWorker {
  import opened Prelude
  import opened RtpAudioExtractor
  import opened Commands
  import P = SignalingProtocol

  datatype Signal =
    | Offer(key: Key)
    | Leave(key: Key)
    | RegisterSsrc(ssrc: nat, key: Key)
    | EnableTranscription(key: Key)
    | DisableTranscription(key: Key)
    | NotARequest(key: Key)

  datatype Reply =
    | Answer(key: Key)
    | Rejected(key: Key)
    | Done(key: Key)
    | InvalidRequest(key: Key)

  /** A decrypted audio packet as the gateway reports it. */
  datatype AudioInfo = AudioInfo(ssrc: nat, payload: seq<byte>, timestamp: nat)

  function TableAfter(t: Table, m: Signal): Table {
    match m
    case RegisterSsrc(ssrc, k) => Register(t, ssrc, k)
    case EnableTranscription(k) => Enable(t, k)
    case DisableTranscription(k) => Disable(t, k)
    case _ => t
  }

  function ReplyTo(m: Signal, accepted: bool): Option<Reply> {
    match m
    case Offer(k) => Some(if accepted then Answer(k) else Rejected(k))
    case Leave(k) => Some(Done(k))
    case NotARequest(k) => Some(InvalidRequest(k))
    case _ => None
  }

  /** What a message means for whom audio is forwarded: a registration settles one SSRC,
      an enable every SSRC not yet known, and nothing else changes any owner. */
  lemma SignalsAndOwners(t: Table, m: Signal, ssrc: nat)
    ensures var owner, owner' := LoopLookup(t, ssrc).1, LoopLookup(TableAfter(t, m), ssrc).1;
      owner' == if m.RegisterSsrc? && m.ssrc == ssrc then m.key
                else if m.EnableTranscription? && ssrc !in t.ssrcMap then m.key
                else owner
  {
  }

  /** Who is answered and how: offers, leaves and non-requests, once each and under
      their own stream; an answer proper is for an accepted offer alone. */
  lemma RepliesIff(m: Signal, accepted: bool)
    ensures var reply := ReplyTo(m, accepted);
      && (reply.Some? <==> m.Offer? || m.Leave? || m.NotARequest?)
      && (reply.Some? ==>
            && reply.value.key == m.key
            && (reply.value.Answer? <==> m.Offer? && accepted) && (reply.value.Rejected? <==> m.Offer? && !accepted)
            && (reply.value.Done? <==> m.Leave?) && (reply.value.InvalidRequest? <==> m.NotARequest?))
  {
  }

  /** The audio loop: each packet is looked up in the table the previous one left. */
  function ForwardAll(t: Table, infos: seq<AudioInfo>): (Table, seq<AudioPacket>) {
    if infos == [] then (t, [])
    else
      var (t1, sent) := ForwardAll(t, infos[..|infos| - 1]);
      var info := infos[|infos| - 1];
      var (t2, k) := LoopLookup(t1, info.ssrc);
      (t2, if k.0 != 0 then sent + [AudioPacket(k, info.payload, info.timestamp, info.ssrc)] else sent)
  }

  class MediaPort {
    const extractor: Extractor
    const transcription: bool

    constructor (transcription: bool)
      ensures this.transcription == transcription
      ensures fresh(extractor) && extractor.State() == EMPTY_TABLE
    {
      extractor := new Extractor();
      this.transcription := transcription;
    }

    /** The table is updated first; a reply that finds its receiver gone is lost and
        makes the call fail. */
    method HandleSignal(m: Signal, accepted: bool, receiverAlive: bool) returns (reply: Option<Reply>, ok: bool)
      modifies extractor
      ensures extractor.State() == TableAfter(old(extractor.State()), m)
      ensures reply == if receiverAlive then ReplyTo(m, accepted) else None
      ensures ok <==> receiverAlive || m.RegisterSsrc? || m.EnableTranscription? || m.DisableTranscription?
    {
      match m {
        case Offer(k) => reply, ok := SendBack(if accepted then Answer(k) else Rejected(k), receiverAlive);
        case Leave(k) => reply, ok := SendBack(Done(k), receiverAlive);
        case RegisterSsrc(ssrc, k) => extractor.RegisterSsrc(ssrc, k); reply, ok := None, true;
        case EnableTranscription(k) => extractor.EnableFor(k); reply, ok := None, true;
        case DisableTranscription(k) => extractor.DisableFor(k); reply, ok := None, true;
        case NotARequest(k) => reply, ok := SendBack(InvalidRequest(k), receiverAlive);
      }
    }

    method SendBack(r: Reply, receiverAlive: bool) returns (reply: Option<Reply>, ok: bool)
      ensures ok == receiverAlive && reply == if receiverAlive then Some(r) else None
    {
      reply, ok := if receiverAlive then Some(r) else None, receiverAlive;
    }

    /** Forwards everything received, in order. */
    method DrainAudio(infos: seq<AudioInfo>) returns (sent: seq<AudioPacket>)
      modifies extractor
      ensures transcription ==> (extractor.State(), sent) == ForwardAll(old(extractor.State()), infos)
      ensures !transcription ==> extractor.State() == old(extractor.State()) && sent == []
    {
      sent := [];
      if !transcription {
        return;
      }
      for i := 0 to |infos|
        invariant (extractor.State(), sent) == ForwardAll(old(extractor.State()), infos[..i])
      {
        var info := infos[i];
        assert infos[..i + 1][..i] == infos[..i];
        var k: Key;
        if info.ssrc in extractor.ssrcMap {
          k := extractor.ssrcMap[info.ssrc];
        } else if extractor.defaultSession.Some? {
          k := extractor.defaultSession.value;
          extractor.ssrcMap := extractor.ssrcMap[info.ssrc := k];
        } else {
          k := (0, 0);
        }
        if k.0 != 0 {
          sent := sent + [AudioPacket(k, info.payload, info.timestamp, info.ssrc)];
        }
      }
      assert infos[..|infos|] == infos;
    }

    /** One turn of the run loop. If handling fails, the rest of the turn is skipped:
        the table has changed, but the waiting audio stays where it is. */
    method Turn(m: Option<Signal>, accepted: bool, receiverAlive: bool, waiting: seq<AudioInfo>)
      returns (reply: Option<Reply>, sent: seq<AudioPacket>, left: seq<AudioInfo>)
      modifies extractor
      ensures reply == if m.Some? && receiverAlive then ReplyTo(m.value, accepted) else None
      ensures var skipped := m.Some? && ReplyTo(m.value, accepted).Some? && !receiverAlive;
        var t := if m.Some? then TableAfter(old(extractor.State()), m.value) else old(extractor.State());
        if skipped || !transcription then extractor.State() == t && sent == [] && left == waiting
        else (extractor.State(), sent) == ForwardAll(t, waiting) && left == []
    {
      reply, sent, left := None, [], waiting;
      if m.Some? {
        var ok: bool;
        reply, ok := HandleSignal(m.value, accepted, receiverAlive);
        if !ok {
          return;
        }
      }
      if transcription {
        sent := DrainAudio(waiting);
        left := [];
      }
    }
  }

  // ------------------------------------------------------- protocol refinement

  function AsSignal(m: P.Message): Signal {
    match m
    case OfferMessage(k, _) => Offer(k)
    case LeaveMessage(k) => Leave(k)
    case EnableMessage(k) => EnableTranscription(k)
    case DisableMessage(k) => DisableTranscription(k)
  }

  /** Handling a message does to the table, and replies to an offer, what the
      protocol step says; a call that waits is always answered. */
  lemma HandlingRefinesProcess(s: P.System, p: nat, accepted: bool)
    requires P.Enabled(s, P.Process(p, accepted))
    ensures var m, s' := s.queues[p][0], P.Apply(s, P.Process(p, accepted));
      && p in s'.tables && s'.tables[p] == TableAfter(s.tables[p], AsSignal(m))
      && (m.OfferMessage? ==>
            m.caller in s'.replies && (ReplyTo(AsSignal(m), accepted) == Some(Answer(m.key)) <==> s'.replies[m.caller]))
      && (!m.OfferMessage? ==> s'.replies == s.replies)
  {
    P.ProcessStep(s, p, accepted);
  }

  function AudioCommands(sent: seq<AudioPacket>): seq<Command> {
    seq(|sent|, i requires 0 <= i < |sent| => Audio(sent[i]))
  }

  /** One protocol step per received packet. */
  function ForwardSteps(s: P.System, p: nat, infos: seq<AudioInfo>): (s': P.System)
    requires s.transcription && p in s.tables && p in s.forwarded
    ensures s'.transcription && s'.open == s.open && p in s'.tables && p in s'.forwarded
  {
    if infos == [] then s
    else
      var info := infos[|infos| - 1];
      P.Apply(ForwardSteps(s, p, infos[..|infos| - 1]), P.Forward(p, info.ssrc, info.payload, info.timestamp))
  }

  /** Draining a batch is that many forward steps: same final table, and the
      batch's packets reach the FIFO in order, at its end. */
  lemma {:induction false} DrainRefinesForwards(s: P.System, p: nat, infos: seq<AudioInfo>)
    requires s.transcription && s.open && p in s.tables && p in s.forwarded
    ensures var s', (t, sent) := ForwardSteps(s, p, infos), ForwardAll(s.tables[p], infos);
      && s'.tables[p] == t
      && s'.log == s.log + AudioCommands(sent)
      && s'.forwarded[p] == s.forwarded[p] + sent
    decreases |infos|
  {
    if infos != [] {
      var init, info := infos[..|infos| - 1], infos[|infos| - 1];
      DrainRefinesForwards(s, p, init);
      var s1 := ForwardSteps(s, p, init);
      P.ForwardStep(s1, p, info.ssrc, info.payload, info.timestamp);
      var (_, sent) := ForwardAll(s.tables[p], init);
      var (_, k) := LoopLookup(s1.tables[p], info.ssrc);
      if k.0 != 0 {
        var packet := AudioPacket(k, info.payload, info.timestamp, info.ssrc);
        assert AudioCommands(sent + [packet]) == AudioCommands(sent) + [Audio(packet)];
      }
    }
  }
}
