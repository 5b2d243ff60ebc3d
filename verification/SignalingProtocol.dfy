/** The control protocol as a step system: gRPC calls push onto one unbounded
    FIFO and onto bounded per-port queues; each media worker owns an SSRC table
    and turns received audio into FIFO commands. Every atomic send, receive and
    lookup is one step, and steps interleave freely. */
module SignalingProtocol {
  import opened Prelude
  import opened RtpAudioExtractor
  import opened Commands
  import opened PortChoice

  /** `sync_channel(1)` */
  const QUEUE_CAPACITY := 1

  datatype Message =
    | OfferMessage(key: Key, caller: nat)
    | LeaveMessage(key: Key)
    | EnableMessage(key: Key)
    | DisableMessage(key: Key)

  /** Where a gRPC call stands: the send or receive it performs next. */
  datatype Call =
    | Offering(key: Key, enable: bool)
    | AwaitingAnswer(key: Key, enable: bool)
    | Starting(key: Key, config: Option<BackendConfig>)
    | Enabling(key: Key)
    | Leaving(key: Key)
    | SendingLeave(key: Key)
    | Disabling(key: Key)
    | SendingDisable(key: Key)
    | Finished

  /** Everything ever sent on the FIFO is in `log`; `forwarded` records what each
      media worker put there. `open` is false once the transcription worker is gone. */
  datatype System = System(
    ports: seq<nat>,
    transcription: bool,
    calls: map<nat, Call>,
    queues: map<nat, seq<Message>>,
    tables: map<nat, Table>,
    replies: map<nat, bool>,
    log: seq<Command>,
    open: bool,
    forwarded: map<nat, seq<AudioPacket>>)

  predicate Initial(s: System) {
    && (forall i, j :: 0 <= i < j < |s.ports| ==> s.ports[i] != s.ports[j])
    && s.calls == map[] && s.replies == map[] && s.log == [] && s.open
    && s.queues == (map p | p in s.ports :: [])
    && s.tables == (map p | p in s.ports :: EMPTY_TABLE)
    && s.forwarded == (map p | p in s.ports :: [])
  }

  datatype Action =
    | Arrive(id: nat, call: Call)
    | Advance(id: nat, listing: seq<nat>)
    | Abandon(id: nat)
    | Process(port: nat, answered: bool)
    | Forward(port: nat, ssrc: nat, payload: seq<byte>, timestamp: nat)
    | CloseWorker

  predicate Entry(call: Call, transcription: bool) {
    || call.Offering? || call.Leaving?
    || (transcription && (call.Starting? || call.Disabling?))
  }

  /** Whether the next step of a call would push onto a port queue. */
  predicate UsesPort(call: Call) {
    call.Offering? || call.Enabling? || call.SendingLeave? || call.SendingDisable?
  }

  predicate HasRoom(s: System, port: nat) {
    port in s.queues && |s.queues[port]| < QUEUE_CAPACITY
  }

  /** `listing` is the order in which the hash map happens to list the ports. */
  predicate Enabled(s: System, a: Action) {
    match a
    case Arrive(id, call) => id !in s.calls && Entry(call, s.transcription)
    case Abandon(id) => id in s.calls
    case CloseWorker => true
    case Process(p, _) => p in s.queues && p in s.tables && s.queues[p] != []
    case Forward(p, _, _, _) => s.transcription && p in s.tables && p in s.forwarded
    case Advance(id, listing) =>
      && id in s.calls && s.calls[id] != Finished
      && multiset(listing) == multiset(s.ports)
      && (s.calls[id].AwaitingAnswer? ==> id in s.replies)
      && (UsesPort(s.calls[id]) && listing != [] ==> HasRoom(s, Pick(listing, s.calls[id].key.0)))
  }

  function Push(s: System, port: nat, m: Message): System
    requires port in s.queues
  {
    s.(queues := s.queues[port := s.queues[port] + [m]])
  }

  function Goto(s: System, id: nat, call: Call): System {
    s.(calls := s.calls[id := call])
  }

  /** The message a call is about to push, and where it goes afterwards. */
  function PortMessage(call: Call, id: nat): Message
    requires UsesPort(call)
  {
    match call
    case Offering(k, _) => OfferMessage(k, id)
    case Enabling(k) => EnableMessage(k)
    case SendingLeave(k) => LeaveMessage(k)
    case SendingDisable(k) => DisableMessage(k)
  }

  function AfterPush(call: Call): Call {
    if call.Offering? then AwaitingAnswer(call.key, call.enable) else Finished
  }

  /** What a call's step puts on the FIFO; nothing once the worker is gone. */
  function FifoCommands(s: System, call: Call): seq<Command> {
    if !s.transcription || !s.open then []
    else match call
      case Starting(k, config) => [StartSession(k, config)]
      case Leaving(k) => [StopSession(k)]
      case Disabling(k) => [StopSession(k)]
      case _ => []
  }

  /** Where a call that touches no queue goes. */
  function AfterOther(s: System, call: Call): Call {
    match call
    case AwaitingAnswer(k, enable) => if enable then Starting(k, None) else Finished
    case Starting(k, _) => if s.transcription && s.open then Enabling(k) else Finished
    case Leaving(k) => SendingLeave(k)
    case Disabling(k) => SendingDisable(k)
    case _ => Finished
  }

  /** A call step that touches no queue: the FIFO may gain a start or stop. */
  function Settled(s: System, id: nat): System
    requires id in s.calls
  {
    var call := s.calls[id];
    s.(calls := s.calls[id := AfterOther(s, call)],
       replies := if call.AwaitingAnswer? then s.replies - {id} else s.replies,
       log := s.log + FifoCommands(s, call))
  }

  /** One step of a gRPC call: a push, or a receive or send that touches no queue. */
  function AdvanceCall(s: System, id: nat, listing: seq<nat>): System
    requires Enabled(s, Advance(id, listing))
  {
    var call := s.calls[id];
    if UsesPort(call) && listing != [] then
      Goto(Push(s, Pick(listing, call.key.0), PortMessage(call, id)), id, AfterPush(call))
    else Settled(s, id)
  }

  /** A media worker takes one signalling message. */
  function ProcessMessage(s: System, p: nat, answered: bool): System
    requires Enabled(s, Process(p, answered))
  {
    var m, s' := s.queues[p][0], s.(queues := s.queues[p := s.queues[p][1..]]);
    match m
    case OfferMessage(_, caller) => s'.(replies := s'.replies[caller := answered])
    case LeaveMessage(_) => s'
    case EnableMessage(k) => s'.(tables := s'.tables[p := Enable(s'.tables[p], k)])
    case DisableMessage(k) => s'.(tables := s'.tables[p := Disable(s'.tables[p], k)])
  }

  /** A media worker looks up one decrypted audio packet and forwards it. */
  function ForwardAudio(s: System, p: nat, ssrc: nat, payload: seq<byte>, timestamp: nat): System
    requires Enabled(s, Forward(p, ssrc, payload, timestamp))
  {
    var (t, k) := LoopLookup(s.tables[p], ssrc);
    var s' := s.(tables := s.tables[p := t]);
    var packet := AudioPacket(k, payload, timestamp, ssrc);
    if k.0 == 0 || !s.open then s'
    else s'.(log := s.log + [Audio(packet)], forwarded := s.forwarded[p := s.forwarded[p] + [packet]])
  }

  function Apply(s: System, a: Action): System
    requires Enabled(s, a)
  {
    match a
    case Arrive(id, call) => Goto(s, id, call)
    case Advance(id, listing) => AdvanceCall(s, id, listing)
    case Abandon(id) => Goto(s, id, Finished)
    case Process(p, answered) => ProcessMessage(s, p, answered)
    case Forward(p, ssrc, payload, timestamp) => ForwardAudio(s, p, ssrc, payload, timestamp)
    case CloseWorker => s.(open := false)
  }

  ghost predicate Next(s: System, s': System) {
    exists a :: Enabled(s, a) && s' == Apply(s, a)
  }

  ghost predicate IsBehaviour(states: seq<System>) {
    && states != []
    && Initial(states[0])
    && forall i :: 0 <= i < |states| - 1 ==> Next(states[i], states[i + 1])
  }

  // ------------------------------------------------------------- invariants

  /** The port every request of a session is sent to. */
  function Home(s: System, session: nat): nat
    requires s.ports != []
  {
    Pick(s.ports, session)
  }

  predicate Shape(s: System) {
    && s.queues.Keys == s.tables.Keys == s.forwarded.Keys == (set p | p in s.ports)
    && (forall p :: p in s.queues ==> |s.queues[p]| <= QUEUE_CAPACITY)
    && (!s.transcription ==> s.log == [])
  }

  /** A key may sit in port p's table or queue only if p is its home and its start is on the FIFO. */
  predicate Granted(ports: seq<nat>, started: set<Key>, p: nat, k: Key) {
    ports != [] && Pick(ports, k.0) == p && k in started
  }

  predicate TableGranted(ports: seq<nat>, started: set<Key>, p: nat, t: Table) {
    && Consistent(t)
    && (t.defaultSession.Some? ==> Granted(ports, started, p, t.defaultSession.value))
    && (forall ssrc :: ssrc in t.ssrcMap ==> Granted(ports, started, p, t.ssrcMap[ssrc]))
  }

  predicate CallsGranted(started: set<Key>, calls: map<nat, Call>) {
    forall id :: id in calls && calls[id].Enabling? ==> calls[id].key in started
  }

  predicate QueueGranted(ports: seq<nat>, started: set<Key>, p: nat, q: seq<Message>) {
    forall i :: 0 <= i < |q| && q[i].EnableMessage? ==> Granted(ports, started, p, q[i].key)
  }

  predicate Promises(s: System) {
    var started := StartedKeys(s.log);
    && CallsGranted(started, s.calls)
    && (forall p :: p in s.queues ==> QueueGranted(s.ports, started, p, s.queues[p]))
    && (forall p :: p in s.tables ==> TableGranted(s.ports, started, p, s.tables[p]))
  }

  /** The audio command at position i has its start earlier in the log. */
  predicate StartPrecedes(log: seq<Command>, i: nat)
    requires i < |log|
  {
    log[i].Audio? ==>
      log[i].packet.key.0 != 0 && exists j :: 0 <= j < i && Starts(log[j], log[i].packet.key)
  }

  predicate StartsFirst(log: seq<Command>) {
    forall i :: 0 <= i < |log| ==> StartPrecedes(log, i)
  }

  /** A session's audio on the FIFO is what its home port forwarded, in that order. */
  predicate OneVoiceFor(s: System, session: nat)
    requires s.ports != []
  {
    var home := Home(s, session);
    home in s.forwarded && OfSession(AudioIn(s.log), session) == OfSession(s.forwarded[home], session)
  }

  ghost predicate OneVoice(s: System) {
    && (s.ports == [] ==> AudioIn(s.log) == [])
    && (s.ports != [] ==> forall session :: OneVoiceFor(s, session))
  }

  predicate PendingOffer(s: System, id: nat, p: nat) {
    p in s.queues && s.queues[p] != [] && s.queues[p][0].OfferMessage? && s.queues[p][0].caller == id
  }

  /** Every call that waits for an answer either has it or has its offer queued. */
  predicate Answerable(s: System) {
    forall id :: id in s.calls && s.calls[id].AwaitingAnswer? ==>
      id in s.replies || exists p :: p in s.queues && PendingOffer(s, id, p)
  }

  ghost predicate Inv(s: System) {
    Shape(s) && Promises(s) && StartsFirst(s.log) && OneVoice(s) && Answerable(s)
  }

  lemma InitialInv(s: System)
    requires Initial(s)
    ensures Inv(s)
  {
  }

  // What one step leaves alone, and the little it changes.

  function Pushed(s: System, id: nat, p: nat): System
    requires id in s.calls && UsesPort(s.calls[id]) && p in s.queues
  {
    s.(queues := s.queues[p := s.queues[p] + [PortMessage(s.calls[id], id)]],
       calls := s.calls[id := AfterPush(s.calls[id])])
  }

  /** A push goes to the session's home port, which had room, and moves nothing else. */
  lemma PushStep(s: System, id: nat, listing: seq<nat>)
    requires Enabled(s, Advance(id, listing)) && UsesPort(s.calls[id]) && listing != []
    ensures s.ports != []
    ensures var p := Home(s, s.calls[id].key.0);
      && p in s.queues && |s.queues[p]| < QUEUE_CAPACITY
      && Apply(s, Advance(id, listing)) == Pushed(s, id, p)
  {
    PickIgnoresOrder(listing, s.ports, s.calls[id].key.0);
  }

  lemma OtherStep(s: System, id: nat, listing: seq<nat>)
    requires Enabled(s, Advance(id, listing)) && (UsesPort(s.calls[id]) ==> listing == [])
    ensures Apply(s, Advance(id, listing)) == Settled(s, id)
  {
  }

  /** Forwarding: the looked-up table replaces the old one, and a known session's
      packet goes to the FIFO and to the record of what this port forwarded. */
  lemma ForwardStep(s: System, p: nat, ssrc: nat, payload: seq<byte>, timestamp: nat)
    requires Enabled(s, Forward(p, ssrc, payload, timestamp))
    ensures var s' := Apply(s, Forward(p, ssrc, payload, timestamp));
      var (t, k) := LoopLookup(s.tables[p], ssrc);
      var packet := AudioPacket(k, payload, timestamp, ssrc);
      && s' == s.(tables := s.tables[p := t], log := s'.log, forwarded := s'.forwarded)
      && if k.0 == 0 || !s.open then s'.log == s.log && s'.forwarded == s.forwarded
         else s'.log == s.log + [Audio(packet)] && s'.forwarded == s.forwarded[p := s.forwarded[p] + [packet]]
  {
  }

  lemma ProcessStep(s: System, p: nat, answered: bool)
    requires Enabled(s, Process(p, answered))
    ensures var m, s' := s.queues[p][0], Apply(s, Process(p, answered));
      && s' == s.(queues := s.queues[p := s.queues[p][1..]], replies := s'.replies, tables := s'.tables)
      && s'.replies == (if m.OfferMessage? then s.replies[m.caller := answered] else s.replies)
      && p in s'.tables
      && s'.tables == s.tables[p := s'.tables[p]]
      && s'.tables[p] == (match m
                          case EnableMessage(k) => Enable(s.tables[p], k)
                          case DisableMessage(k) => Disable(s.tables[p], k)
                          case _ => s.tables[p])
  {
  }

  lemma PushKeepsShape(s: System, id: nat, p: nat)
    requires Shape(s) && id in s.calls && UsesPort(s.calls[id])
    requires p in s.queues && |s.queues[p]| < QUEUE_CAPACITY
    ensures Shape(Pushed(s, id, p))
  {
  }

  lemma ProcessKeepsShape(s: System, p: nat, answered: bool)
    requires Shape(s) && Enabled(s, Process(p, answered))
    ensures Shape(Apply(s, Process(p, answered)))
  {
    ProcessStep(s, p, answered);
    var s' := Apply(s, Process(p, answered));
    assert s'.queues.Keys == s.queues.Keys && s'.tables.Keys == s.tables.Keys;
  }

  lemma ForwardKeepsShape(s: System, p: nat, ssrc: nat, payload: seq<byte>, timestamp: nat)
    requires Shape(s) && Enabled(s, Forward(p, ssrc, payload, timestamp))
    ensures Shape(Apply(s, Forward(p, ssrc, payload, timestamp)))
  {
    ForwardStep(s, p, ssrc, payload, timestamp);
    var s' := Apply(s, Forward(p, ssrc, payload, timestamp));
    assert s'.forwarded.Keys == s.forwarded.Keys && s'.tables.Keys == s.tables.Keys;
  }

  lemma StepKeepsShape(s: System, a: Action)
    requires Shape(s) && Enabled(s, a)
    ensures Shape(Apply(s, a))
  {
    match a
    case Advance(id, listing) =>
      if UsesPort(s.calls[id]) && listing != [] {
        PushStep(s, id, listing);
        PushKeepsShape(s, id, Home(s, s.calls[id].key.0));
      } else {
        OtherStep(s, id, listing);
      }
    case Process(p, answered) => ProcessKeepsShape(s, p, answered);
    case Forward(p, ssrc, payload, timestamp) => ForwardKeepsShape(s, p, ssrc, payload, timestamp);
    case _ =>
  }

  lemma SettledLog(s: System, id: nat)
    requires id in s.calls
    ensures Settled(s, id).log == s.log || exists c :: Settled(s, id).log == s.log + [c] && !c.Audio?
  {
    var cs := FifoCommands(s, s.calls[id]);
    if cs == [] {
      assert s.log + [] == s.log;
    } else {
      assert cs == [cs[0]];
      assert Settled(s, id).log == s.log + [cs[0]] && !cs[0].Audio?;
    }
  }

  lemma AdvanceLog(s: System, id: nat, listing: seq<nat>)
    requires Enabled(s, Advance(id, listing))
    ensures var s' := Apply(s, Advance(id, listing));
      && s'.ports == s.ports && s'.transcription == s.transcription
      && (s'.log == s.log || exists c :: s'.log == s.log + [c] && !c.Audio?)
  {
    if UsesPort(s.calls[id]) && listing != [] {
      PushStep(s, id, listing);
    } else {
      OtherStep(s, id, listing);
      SettledLog(s, id);
    }
  }

  /** The port list never changes and the FIFO's history grows by one command at most. */
  lemma StepLog(s: System, a: Action)
    requires Enabled(s, a)
    ensures Apply(s, a).ports == s.ports && Apply(s, a).transcription == s.transcription
    ensures Apply(s, a).log == s.log || exists c :: Apply(s, a).log == s.log + [c] && (c.Audio? ==> a.Forward?)
  {
    match a
    case Advance(id, listing) => AdvanceLog(s, id, listing);
    case Process(p, answered) => ProcessStep(s, p, answered);
    case Forward(p, ssrc, payload, timestamp) => ForwardStep(s, p, ssrc, payload, timestamp);
    case _ =>
  }

  lemma StepGrowsLog(s: System, a: Action)
    requires Enabled(s, a)
    ensures Apply(s, a).ports == s.ports && Apply(s, a).transcription == s.transcription
    ensures Apply(s, a).log == s.log || exists c :: Apply(s, a).log == s.log + [c] && (c.Audio? ==> a.Forward?)
    ensures StartedKeys(s.log) <= StartedKeys(Apply(s, a).log)
  {
    StepLog(s, a);
    if Apply(s, a).log != s.log {
      var c :| Apply(s, a).log == s.log + [c];
      StartedKeysSnoc(s.log, c);
    }
  }

  lemma TablesGrow(s: System, started: set<Key>, p: nat)
    requires Promises(s) && StartedKeys(s.log) <= started && p in s.tables
    ensures TableGranted(s.ports, started, p, s.tables[p])
  {
    assert TableGranted(s.ports, StartedKeys(s.log), p, s.tables[p]);
  }

  lemma QueuesGrow(s: System, started: set<Key>, p: nat)
    requires Promises(s) && StartedKeys(s.log) <= started && p in s.queues
    ensures QueueGranted(s.ports, started, p, s.queues[p])
  {
    assert QueueGranted(s.ports, StartedKeys(s.log), p, s.queues[p]);
  }

  lemma QueueTakes(ports: seq<nat>, started: set<Key>, p: nat, q: seq<Message>, m: Message)
    requires QueueGranted(ports, started, p, q)
    requires m.EnableMessage? ==> Granted(ports, started, p, m.key)
    ensures QueueGranted(ports, started, p, q + [m])
  {
  }

  lemma PushKeepsPromises(s: System, id: nat, p: nat)
    requires Promises(s) && id in s.calls && UsesPort(s.calls[id]) && p in s.queues
    requires s.ports != [] && p == Home(s, s.calls[id].key.0)
    ensures Promises(Pushed(s, id, p))
  {
    var s', started := Pushed(s, id, p), StartedKeys(s.log);
    forall q | q in s'.queues ensures QueueGranted(s.ports, started, q, s'.queues[q]) {
      assert QueueGranted(s.ports, started, q, s.queues[q]);
      if q == p {
        QueueTakes(s.ports, started, p, s.queues[p], PortMessage(s.calls[id], id));
      }
    }
    forall q | q in s'.tables ensures TableGranted(s.ports, started, q, s'.tables[q]) {
      assert TableGranted(s.ports, started, q, s.tables[q]);
    }
    forall other | other in s'.calls && s'.calls[other].Enabling? ensures s'.calls[other].key in started {
      assert other != id;
    }
  }

  lemma OtherKeepsPromises(s: System, id: nat, listing: seq<nat>)
    requires Promises(s) && Enabled(s, Advance(id, listing)) && (UsesPort(s.calls[id]) ==> listing == [])
    ensures Promises(Apply(s, Advance(id, listing)))
  {
    OtherStep(s, id, listing);
    StepGrowsLog(s, Advance(id, listing));
    var s' := Apply(s, Advance(id, listing));
    var started := StartedKeys(s'.log);
    if s'.calls[id].Enabling? {
      StartedKeysSnoc(s.log, StartSession(s.calls[id].key, s.calls[id].config));
    }
    forall q | q in s'.queues ensures QueueGranted(s.ports, started, q, s'.queues[q]) { QueuesGrow(s, started, q); }
    forall q | q in s'.tables ensures TableGranted(s.ports, started, q, s'.tables[q]) { TablesGrow(s, started, q); }
  }

  lemma ProcessKeepsPromises(s: System, p: nat, answered: bool)
    requires Promises(s) && Enabled(s, Process(p, answered))
    ensures Promises(Apply(s, Process(p, answered)))
  {
    ProcessStep(s, p, answered);
    var s', started := Apply(s, Process(p, answered)), StartedKeys(s.log);
    forall q | q in s'.queues ensures QueueGranted(s.ports, started, q, s'.queues[q]) {
      assert QueueGranted(s.ports, started, q, s.queues[q]);
      if q == p {
        assert forall i :: 0 <= i < |s'.queues[p]| ==> s'.queues[p][i] == s.queues[p][i + 1];
      }
    }
    forall q | q in s'.tables ensures TableGranted(s.ports, started, q, s'.tables[q]) {
      assert TableGranted(s.ports, started, q, s.tables[q]);
      assert QueueGranted(s.ports, started, p, s.queues[p]);
      assert s.queues[p][0].EnableMessage? ==> Granted(s.ports, started, p, s.queues[p][0].key);
    }
  }

  lemma ForwardKeepsPromises(s: System, p: nat, ssrc: nat, payload: seq<byte>, timestamp: nat)
    requires Promises(s) && Enabled(s, Forward(p, ssrc, payload, timestamp))
    ensures Promises(Apply(s, Forward(p, ssrc, payload, timestamp)))
  {
    ForwardStep(s, p, ssrc, payload, timestamp);
    StepGrowsLog(s, Forward(p, ssrc, payload, timestamp));
    var s' := Apply(s, Forward(p, ssrc, payload, timestamp));
    var started := StartedKeys(s'.log);
    forall q | q in s'.queues ensures QueueGranted(s.ports, started, q, s'.queues[q]) { QueuesGrow(s, started, q); }
    forall q | q in s'.tables ensures TableGranted(s.ports, started, q, s'.tables[q]) { TablesGrow(s, started, q); }
  }

  lemma {:induction false} StepKeepsPromises(s: System, a: Action)
    requires Promises(s) && Enabled(s, a)
    ensures Promises(Apply(s, a))
  {
    match a
    case Advance(id, listing) =>
      if UsesPort(s.calls[id]) && listing != [] {
        PushStep(s, id, listing);
        PushKeepsPromises(s, id, Home(s, s.calls[id].key.0));
      } else {
        OtherKeepsPromises(s, id, listing);
      }
    case Process(p, answered) => ProcessKeepsPromises(s, p, answered);
    case Forward(p, ssrc, payload, timestamp) => ForwardKeepsPromises(s, p, ssrc, payload, timestamp);
    case _ =>
      assert Apply(s, a).tables == s.tables && Apply(s, a).queues == s.queues && Apply(s, a).log == s.log;
  }

  lemma AppendStartsFirst(log: seq<Command>, c: Command)
    requires StartsFirst(log)
    requires c.Audio? ==> c.packet.key.0 != 0 && c.packet.key in StartedKeys(log)
    ensures StartsFirst(log + [c])
  {
    var log' := log + [c];
    forall i | 0 <= i < |log'| ensures StartPrecedes(log', i) {
      if i < |log| {
        assert StartPrecedes(log, i);
        if log[i].Audio? {
          var j :| 0 <= j < i && Starts(log[j], log[i].packet.key);
          assert log'[j] == log[j];
        }
      } else if c.Audio? {
        StartedKeysIff(log, c.packet.key);
        var j :| 0 <= j < |log| && Starts(log[j], c.packet.key);
        assert log'[j] == log[j];
      }
    }
  }

  /** The owner found by a lookup was granted. */
  lemma LookupGranted(s: System, p: nat, ssrc: nat)
    requires Promises(s) && p in s.tables && LoopLookup(s.tables[p], ssrc).1.0 != 0
    ensures Granted(s.ports, StartedKeys(s.log), p, LoopLookup(s.tables[p], ssrc).1)
  {
    assert TableGranted(s.ports, StartedKeys(s.log), p, s.tables[p]);
  }

  lemma StepKeepsStartsFirst(s: System, a: Action)
    requires Promises(s) && StartsFirst(s.log) && Enabled(s, a)
    ensures StartsFirst(Apply(s, a).log)
  {
    StepGrowsLog(s, a);
    if Apply(s, a).log != s.log {
      var c :| Apply(s, a).log == s.log + [c] && (c.Audio? ==> a.Forward?);
      if a.Forward? {
        ForwardStep(s, a.port, a.ssrc, a.payload, a.timestamp);
        assert c == Apply(s, a).log[|s.log|];
        LookupGranted(s, a.port, a.ssrc);
      }
      AppendStartsFirst(s.log, c);
    }
  }

  lemma ForwardKeepsOneVoice(s: System, p: nat, ssrc: nat, payload: seq<byte>, timestamp: nat, session: nat)
    requires Promises(s) && Enabled(s, Forward(p, ssrc, payload, timestamp)) && s.ports != []
    requires OneVoiceFor(s, session)
    ensures OneVoiceFor(Apply(s, Forward(p, ssrc, payload, timestamp)), session)
  {
    ForwardStep(s, p, ssrc, payload, timestamp);
    var k := LoopLookup(s.tables[p], ssrc).1;
    if k.0 != 0 && s.open {
      LookupGranted(s, p, ssrc);
      var packet := AudioPacket(k, payload, timestamp, ssrc);
      AudioInSnoc(s.log, Audio(packet));
      OfSessionSnoc(AudioIn(s.log), packet, session);
      OfSessionSnoc(s.forwarded[p], packet, session);
    }
  }

  /** A step that is not a forward changes no audio anywhere. */
  lemma OtherStepsAreSilent(s: System, a: Action)
    requires Enabled(s, a) && !a.Forward?
    ensures AudioIn(Apply(s, a).log) == AudioIn(s.log) && Apply(s, a).forwarded == s.forwarded
  {
    StepGrowsLog(s, a);
    if Apply(s, a).log != s.log {
      var c :| Apply(s, a).log == s.log + [c] && (c.Audio? ==> a.Forward?);
      AudioInSnoc(s.log, c);
    }
    match a
    case Advance(id, listing) =>
      if UsesPort(s.calls[id]) && listing != [] {
        PushStep(s, id, listing);
      } else {
        OtherStep(s, id, listing);
      }
    case Process(p, answered) => ProcessStep(s, p, answered);
    case _ =>
  }

  /** As long as no audio moves and the ports stay, every session keeps its voice. */
  lemma SilenceKeepsOneVoice(s: System, s': System)
    requires OneVoice(s) && s'.ports == s.ports
    requires AudioIn(s'.log) == AudioIn(s.log) && s'.forwarded == s.forwarded
    ensures OneVoice(s')
  {
    if s.ports != [] {
      forall session ensures OneVoiceFor(s', session) {
        assert OneVoiceFor(s, session);
      }
    }
  }

  lemma StepKeepsOneVoice(s: System, a: Action)
    requires Shape(s) && Promises(s) && OneVoice(s) && Enabled(s, a)
    ensures OneVoice(Apply(s, a))
  {
    StepGrowsLog(s, a);
    if !a.Forward? {
      OtherStepsAreSilent(s, a);
      SilenceKeepsOneVoice(s, Apply(s, a));
    } else if s.ports != [] {
      forall session ensures OneVoiceFor(Apply(s, a), session) {
        ForwardKeepsOneVoice(s, a.port, a.ssrc, a.payload, a.timestamp, session);
      }
    }
  }

  lemma PushKeepsAnswerable(s: System, pushing: nat, p: nat)
    requires Answerable(s) && pushing in s.calls && UsesPort(s.calls[pushing])
    requires p in s.queues && s.queues[p] == []
    ensures Answerable(Pushed(s, pushing, p))
  {
    var s' := Pushed(s, pushing, p);
    forall id | id in s'.calls && s'.calls[id].AwaitingAnswer?
      ensures id in s'.replies || exists q :: q in s'.queues && PendingOffer(s', id, q)
    {
      if id == pushing {
        assert s'.queues[p] == [PortMessage(s.calls[id], id)];
        assert PendingOffer(s', id, p);
      } else if id !in s.replies {
        var q :| q in s.queues && PendingOffer(s, id, q);
        assert q != p;
        assert PendingOffer(s', id, q);
      }
    }
  }

  lemma ProcessKeepsAnswerable(s: System, p: nat, answered: bool)
    requires Answerable(s) && Enabled(s, Process(p, answered))
    ensures Answerable(Apply(s, Process(p, answered)))
  {
    ProcessStep(s, p, answered);
    var s' := Apply(s, Process(p, answered));
    forall id | id in s'.calls && s'.calls[id].AwaitingAnswer?
      ensures id in s'.replies || exists q :: q in s'.queues && PendingOffer(s', id, q)
    {
      if id !in s.replies {
        var q :| q in s.queues && PendingOffer(s, id, q);
        if q != p { assert PendingOffer(s', id, q); }
      }
    }
  }

  /** Queues as before, and nobody starts waiting or loses a reply. */
  lemma QuietKeepsAnswerable(s: System, s': System)
    requires Answerable(s) && s'.queues == s.queues
    requires forall id :: id in s'.calls && s'.calls[id].AwaitingAnswer? ==>
      id in s.calls && s.calls[id].AwaitingAnswer? && (id in s.replies ==> id in s'.replies)
    ensures Answerable(s')
  {
    forall id | id in s'.calls && s'.calls[id].AwaitingAnswer?
      ensures id in s'.replies || exists q :: q in s'.queues && PendingOffer(s', id, q)
    {
      if id !in s.replies {
        var q :| q in s.queues && PendingOffer(s, id, q);
        assert PendingOffer(s', id, q);
      }
    }
  }

  lemma SettledKeepsAnswerable(s: System, id: nat)
    requires Answerable(s) && id in s.calls
    ensures Answerable(Settled(s, id))
  {
    QuietKeepsAnswerable(s, Settled(s, id));
  }

  lemma AdvanceKeepsAnswerable(s: System, id: nat, listing: seq<nat>)
    requires Answerable(s) && Enabled(s, Advance(id, listing))
    ensures Answerable(Apply(s, Advance(id, listing)))
  {
    if UsesPort(s.calls[id]) && listing != [] {
      PushStep(s, id, listing);
      PushKeepsAnswerable(s, id, Home(s, s.calls[id].key.0));
    } else {
      OtherStep(s, id, listing);
      SettledKeepsAnswerable(s, id);
    }
  }

  lemma ForwardKeepsAnswerable(s: System, p: nat, ssrc: nat, payload: seq<byte>, timestamp: nat)
    requires Answerable(s) && Enabled(s, Forward(p, ssrc, payload, timestamp))
    ensures Answerable(Apply(s, Forward(p, ssrc, payload, timestamp)))
  {
    ForwardStep(s, p, ssrc, payload, timestamp);
    QuietKeepsAnswerable(s, Apply(s, Forward(p, ssrc, payload, timestamp)));
  }

  lemma StepKeepsAnswerable(s: System, a: Action)
    requires Answerable(s) && Enabled(s, a)
    ensures Answerable(Apply(s, a))
  {
    match a
    case Advance(id, listing) => AdvanceKeepsAnswerable(s, id, listing);
    case Process(p, answered) => ProcessKeepsAnswerable(s, p, answered);
    case Forward(p, ssrc, payload, timestamp) => ForwardKeepsAnswerable(s, p, ssrc, payload, timestamp);
    case _ => QuietKeepsAnswerable(s, Apply(s, a));
  }

  lemma StepKeepsInv(s: System, a: Action)
    requires Inv(s) && Enabled(s, a)
    ensures Inv(Apply(s, a))
  {
    StepKeepsShape(s, a);
    StepKeepsPromises(s, a);
    StepKeepsStartsFirst(s, a);
    StepKeepsOneVoice(s, a);
    StepKeepsAnswerable(s, a);
  }

  lemma {:induction false} BehaviourInv(states: seq<System>, n: nat)
    requires IsBehaviour(states) && n < |states|
    ensures Inv(states[n])
    ensures states[n].ports == states[0].ports
  {
    if n == 0 {
      InitialInv(states[0]);
    } else {
      BehaviourInv(states, n - 1);
      assert Next(states[n - 1], states[n - 1 + 1]);
      var a :| Enabled(states[n - 1], a) && states[n] == Apply(states[n - 1], a);
      StepKeepsInv(states[n - 1], a);
      StepGrowsLog(states[n - 1], a);
    }
  }

  // ----------------------------------------------------------- main results

  /** In every interleaving each audio command has a non-zero session and an
      earlier start of the same stream on the FIFO. */
  lemma StartBeforeAudio(states: seq<System>, n: nat, i: nat)
    requires IsBehaviour(states) && n < |states| && i < |states[n].log| && states[n].log[i].Audio?
    ensures var k := states[n].log[i].packet.key;
      k.0 != 0 && exists j :: 0 <= j < i && Starts(states[n].log[j], k)
  {
    BehaviourInv(states, n);
    assert StartPrecedes(states[n].log, i);
  }

  /** In every interleaving, whatever order the hash map lists the ports in, a
      port's table only names sessions of that port, and the audio of a session
      enters the FIFO exactly in the order its one media worker forwarded it. */
  lemma {:induction false} SessionAffinity(states: seq<System>, n: nat, session: nat)
    requires IsBehaviour(states) && n < |states|
    ensures var s := states[n];
      && (s.ports == [] ==> AudioIn(s.log) == [])
      && (s.ports != [] ==>
            && Home(s, session) in s.forwarded
            && OfSession(AudioIn(s.log), session) == OfSession(s.forwarded[Home(s, session)], session))
      && (forall p, ssrc :: p in s.tables && ssrc in s.tables[p].ssrcMap ==>
            s.ports != [] && Home(s, s.tables[p].ssrcMap[ssrc].0) == p)
      && (forall p :: p in s.tables && s.tables[p].defaultSession.Some? ==>
            s.ports != [] && Home(s, s.tables[p].defaultSession.value.0) == p)
  {
    BehaviourInv(states, n);
    var s := states[n];
    assert s.ports != [] ==> OneVoiceFor(s, session);
    forall p | p in s.tables ensures TableGranted(s.ports, StartedKeys(s.log), p, s.tables[p]) { }
  }
}
