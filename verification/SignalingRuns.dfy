/** Runs of the control protocol: every call can be brought to its end, and a
    stream's audio goes on after the stream is disabled. */
module SignalingRuns {
  import opened Prelude
  import R = RtpAudioExtractor
  import opened Commands
  import opened PortChoice
  import opened SignalingProtocol

  // ------------------------------------------------- every call can be finished

  /** A step of the call itself, or of a media worker that takes a message. */
  predicate Helps(a: Action, id: nat) {
    (a.Advance? && a.id == id) || a.Process?
  }

  ghost predicate HelpfulStep(s: System, s': System, id: nat) {
    exists a :: Helps(a, id) && Enabled(s, a) && s' == Apply(s, a)
  }

  ghost predicate IsContinuation(s: System, states: seq<System>, id: nat) {
    && states != [] && states[0] == s
    && forall i :: 0 <= i < |states| - 1 ==> HelpfulStep(states[i], states[i + 1], id)
  }

  /** How many of its own steps a call has before it at most. */
  function StepsLeft(call: Call): nat {
    match call
    case Offering(_, _) => 5
    case AwaitingAnswer(_, _) => 4
    case Starting(_, _) => 3
    case Enabling(_) => 1
    case Leaving(_) => 2
    case SendingLeave(_) => 1
    case Disabling(_) => 2
    case SendingDisable(_) => 1
    case Finished => 0
  }

  /** How many messages media workers take at most before the call can step. */
  function Obstacles(s: System, id: nat): nat
    requires id in s.calls
  {
    var call := s.calls[id];
    if call.AwaitingAnswer? then if id in s.replies then 0 else 1
    else if UsesPort(call) && s.ports != [] && Home(s, call.key.0) in s.queues then |s.queues[Home(s, call.key.0)]|
    else 0
  }

  lemma PushIsProgress(call: Call)
    requires UsesPort(call)
    ensures StepsLeft(AfterPush(call)) < StepsLeft(call)
  {
  }

  lemma OtherIsProgress(s: System, call: Call)
    requires call != Finished
    ensures StepsLeft(AfterOther(s, call)) < StepsLeft(call)
  {
  }

  lemma CanStep(s: System, id: nat)
    requires Shape(s) && id in s.calls && s.calls[id] != Finished && Obstacles(s, id) == 0
    ensures Enabled(s, Advance(id, s.ports))
  {
    if UsesPort(s.calls[id]) && s.ports != [] {
      assert HasRoom(s, Home(s, s.calls[id].key.0));
    }
  }

  /** A call that is not held up makes a step of its own. */
  lemma CallSteps(s: System, id: nat)
    requires Enabled(s, Advance(id, s.ports))
    ensures var s' := Apply(s, Advance(id, s.ports)); id in s'.calls && StepsLeft(s'.calls[id]) < StepsLeft(s.calls[id])
  {
    if UsesPort(s.calls[id]) && s.ports != [] {
      PushStep(s, id, s.ports);
      PushIsProgress(s.calls[id]);
    } else {
      OtherStep(s, id, s.ports);
      OtherIsProgress(s, s.calls[id]);
    }
  }

  /** The port whose worker helps a call that is held up. */
  predicate Blocks(s: System, id: nat, p: nat)
    requires id in s.calls
  {
    if s.calls[id].AwaitingAnswer? then id !in s.replies && PendingOffer(s, id, p)
    else UsesPort(s.calls[id]) && s.ports != [] && p == Home(s, s.calls[id].key.0) && p in s.queues && s.queues[p] != []
  }

  lemma SomePortBlocks(s: System, id: nat) returns (p: nat)
    requires Shape(s) && Answerable(s) && id in s.calls && Obstacles(s, id) > 0
    ensures Blocks(s, id, p) && Enabled(s, Process(p, true))
  {
    if s.calls[id].AwaitingAnswer? {
      p :| p in s.queues && PendingOffer(s, id, p);
    } else {
      p := Home(s, s.calls[id].key.0);
    }
  }

  /** One that is held up is helped by a media worker. */
  lemma WorkerSteps(s: System, id: nat, p: nat)
    requires id in s.calls && Blocks(s, id, p) && Enabled(s, Process(p, true))
    ensures var s' := Apply(s, Process(p, true));
      id in s'.calls && s'.calls[id] == s.calls[id] && Obstacles(s', id) < Obstacles(s, id)
  {
    ProcessStep(s, p, true);
  }

  lemma {:induction false} Finish(s: System, id: nat) returns (states: seq<System>)
    requires Inv(s) && id in s.calls
    ensures IsContinuation(s, states, id)
    ensures var last := states[|states| - 1]; id in last.calls && last.calls[id] == Finished
    decreases StepsLeft(s.calls[id]), Obstacles(s, id)
  {
    if s.calls[id] == Finished {
      states := [s];
    } else {
      var a: Action;
      if Obstacles(s, id) == 0 {
        CanStep(s, id);
        CallSteps(s, id);
        a := Advance(id, s.ports);
      } else {
        var p := SomePortBlocks(s, id);
        WorkerSteps(s, id, p);
        a := Process(p, true);
      }
      var s' := Apply(s, a);
      StepKeepsInv(s, a);
      assert HelpfulStep(s, s', id);
      var rest := Finish(s', id);
      PrependStep(s, rest, id);
      states := [s] + rest;
    }
  }

  lemma PrependStep(s: System, rest: seq<System>, id: nat)
    requires rest != [] && HelpfulStep(s, rest[0], id) && IsContinuation(rest[0], rest, id)
    ensures IsContinuation(s, [s] + rest, id)
  {
    var states := [s] + rest;
    forall i | 0 <= i < |states| - 1 ensures HelpfulStep(states[i], states[i + 1], id) {
      assert i > 0 ==> HelpfulStep(rest[i - 1], rest[i - 1 + 1], id);
    }
  }

  /** In every reachable state every call can be brought to its end by its own steps
      and media workers taking messages, without any other call moving and without
      giving up: full queues and offers awaiting an answer never wedge the service. */
  lemma NoWedge(states: seq<System>, n: nat, id: nat) returns (more: seq<System>)
    requires IsBehaviour(states) && n < |states| && id in states[n].calls
    ensures IsContinuation(states[n], more, id)
    ensures var last := more[|more| - 1]; id in last.calls && last.calls[id] == Finished
  {
    BehaviourInv(states, n);
    more := Finish(states[n], id);
  }

  // --------------------------------------------------- audio survives a disable

  lemma Extend(states: seq<System>, a: Action) returns (longer: seq<System>)
    requires IsBehaviour(states) && Enabled(states[|states| - 1], a)
    ensures IsBehaviour(longer) && states <= longer
    ensures longer[|longer| - 1] == Apply(states[|states| - 1], a)
  {
    longer := states + [Apply(states[|states| - 1], a)];
    forall i | 0 <= i < |longer| - 1 ensures Next(longer[i], longer[i + 1]) {
      if i < |states| - 1 {
        assert Next(states[i], states[i + 1]);
      } else {
        assert Enabled(longer[i], a);
      }
    }
  }

  /** The service is up and nothing is pending at port p. */
  predicate Quiet(s: System, p: nat) {
    && s.transcription && s.open && s.ports != []
    && p in s.queues && p in s.tables && p in s.forwarded && s.queues[p] == []
  }

  /** An enable or a disable call arrives and puts its command on the FIFO. */
  lemma Announce(states: seq<System>, id: nat, call: Call, next: Call, c: Command) returns (longer: seq<System>)
    requires IsBehaviour(states)
    requires var s := states[|states| - 1];
      && s.transcription && s.open && id !in s.calls
      && (call.Starting? || call.Disabling?) && next == AfterOther(s, call) && FifoCommands(s, call) == [c]
    ensures IsBehaviour(longer) && states <= longer
    ensures var s := states[|states| - 1]; longer[|longer| - 1] == s.(calls := s.calls[id := next], log := s.log + [c])
  {
    var s := states[|states| - 1];
    longer := Extend(states, Arrive(id, call));
    OtherStep(longer[|longer| - 1], id, s.ports);
    longer := Extend(longer, Advance(id, s.ports));
    assert s.calls[id := call][id := next] == s.calls[id := next];
  }

  function MessageEffect(m: Message, t: R.Table): R.Table {
    match m
    case EnableMessage(k) => R.Enable(t, k)
    case DisableMessage(k) => R.Disable(t, k)
    case _ => t
  }

  /** The call has ended and its message has been taken. */
  function Notified(s: System, id: nat, p: nat): System
    requires id in s.calls && UsesPort(s.calls[id]) && p in s.tables
  {
    s.(calls := s.calls[id := Finished],
       tables := s.tables[p := MessageEffect(PortMessage(s.calls[id], id), s.tables[p])])
  }

  lemma TakenAtOnce(s: System, id: nat, p: nat)
    requires id in s.calls && (s.calls[id].Enabling? || s.calls[id].SendingDisable?)
    requires p in s.queues && p in s.tables && s.queues[p] == []
    ensures Enabled(Pushed(s, id, p), Process(p, true))
    ensures Apply(Pushed(s, id, p), Process(p, true)) == Notified(s, id, p)
  {
    var pushed := Pushed(s, id, p);
    assert pushed.queues[p] == [PortMessage(s.calls[id], id)];
    assert pushed.queues[p][1..] == [];
    assert pushed.queues[p := []] == s.queues;
    ProcessStep(pushed, p, true);
  }

  /** Then it puts its message on the idle home port's queue, where it is taken at once. */
  lemma Notify(states: seq<System>, id: nat, p: nat) returns (longer: seq<System>)
    requires IsBehaviour(states)
    requires var s := states[|states| - 1];
      && id in s.calls && (s.calls[id].Enabling? || s.calls[id].SendingDisable?)
      && Quiet(s, p) && Home(s, s.calls[id].key.0) == p
    ensures IsBehaviour(longer) && states <= longer
    ensures longer[|longer| - 1] == Notified(states[|states| - 1], id, p)
  {
    var s := states[|states| - 1];
    assert HasRoom(s, p);
    PushStep(s, id, s.ports);
    longer := Extend(states, Advance(id, s.ports));
    TakenAtOnce(s, id, p);
    longer := Extend(longer, Process(p, true));
  }

  /** After an enable or a disable call that ran to its end. */
  function Served(s: System, id: nat, p: nat, c: Command, m: Message): System
    requires p in s.tables
  {
    s.(calls := s.calls[id := Finished], log := s.log + [c], tables := s.tables[p := MessageEffect(m, s.tables[p])])
  }

  lemma NotifiedIsServed(s: System, id: nat, p: nat, next: Call, c: Command)
    requires p in s.tables && UsesPort(next)
    ensures Notified(s.(calls := s.calls[id := next], log := s.log + [c]), id, p)
      == Served(s, id, p, c, PortMessage(next, id))
  {
    assert s.calls[id := next][id := Finished] == s.calls[id := Finished];
  }

  lemma ServeCall(states: seq<System>, id: nat, p: nat, call: Call, next: Call, c: Command, m: Message)
      returns (longer: seq<System>)
    requires IsBehaviour(states)
    requires var s := states[|states| - 1];
      && id !in s.calls && (call.Starting? || call.Disabling?)
      && Quiet(s, p) && Home(s, call.key.0) == p
      && next == AfterOther(s, call) && FifoCommands(s, call) == [c] && m == PortMessage(next, id)
    ensures IsBehaviour(longer) && states <= longer
    ensures longer[|longer| - 1] == Served(states[|states| - 1], id, p, c, m)
  {
    longer := Announce(states, id, call, next, c);
    NotifiedIsServed(states[|states| - 1], id, p, next, c);
    longer := Notify(longer, id, p);
  }

  lemma DisabledStillForwards(s: System, p: nat, k: Key, t: R.Table, ssrc: nat, payload: seq<byte>, timestamp: nat)
    requires Quiet(s, p) && k.0 != 0 && ssrc !in t.ssrcMap && s.tables[p] == R.Disable(R.Enable(t, k), k)
    ensures Enabled(s, Forward(p, ssrc, payload, timestamp))
    ensures var s' := Apply(s, Forward(p, ssrc, payload, timestamp));
      && s'.log == s.log + [Audio(R.AudioPacket(k, payload, timestamp, ssrc))]
      && s'.queues == s.queues && s'.calls == s.calls
  {
    R.DisableDoesNotStopAudio(R.Enable(t, k), k, ssrc);
    ForwardStep(s, p, ssrc, payload, timestamp);
  }

  /** A stream enabled and then disabled, as state. */
  function Disabled(s: System, p: nat, k: Key, enable: nat, disable: nat): System
    requires p in s.tables
  {
    Served(Served(s, enable, p, StartSession(k, None), EnableMessage(k)), disable, p, StopSession(k), DisableMessage(k))
  }

  lemma EnableThenDisable(states: seq<System>, p: nat, k: Key, enable: nat, disable: nat) returns (longer: seq<System>)
    requires IsBehaviour(states)
    requires var s := states[|states| - 1];
      && Quiet(s, p) && Home(s, k.0) == p
      && enable !in s.calls && disable !in s.calls && enable != disable
    ensures IsBehaviour(longer) && states <= longer
    ensures longer[|longer| - 1] == Disabled(states[|states| - 1], p, k, enable, disable)
  {
    longer := ServeCall(states, enable, p, Starting(k, None), Enabling(k), StartSession(k, None), EnableMessage(k));
    longer := ServeCall(longer, disable, p, Disabling(k), SendingDisable(k), StopSession(k), DisableMessage(k));
  }

  /** Every run of a service that is up can go on so: a stream is enabled, then
      disabled, both to the end, and an SSRC its port has not seen before is still
      forwarded for it, behind the stop. */
  lemma DisableCannotSilence(states: seq<System>, p: nat, k: Key, enable: nat, disable: nat,
                             ssrc: nat, payload: seq<byte>, timestamp: nat)
      returns (longer: seq<System>)
    requires IsBehaviour(states) && k.0 != 0
    requires var s := states[|states| - 1];
      && Quiet(s, p) && Home(s, k.0) == p && ssrc !in s.tables[p].ssrcMap
      && enable !in s.calls && disable !in s.calls && enable != disable
    ensures IsBehaviour(longer) && states <= longer
    ensures var s, s' := states[|states| - 1], longer[|longer| - 1];
      && s'.log == s.log + [StartSession(k, None)] + [StopSession(k)]
                         + [Audio(R.AudioPacket(k, payload, timestamp, ssrc))]
      && s'.queues == s.queues && s'.calls == s.calls[enable := Finished][disable := Finished]
  {
    var s := states[|states| - 1];
    longer := EnableThenDisable(states, p, k, enable, disable);
    DisabledStillForwards(Disabled(s, p, k, enable, disable), p, k, s.tables[p], ssrc, payload, timestamp);
    longer := Extend(longer, Forward(p, ssrc, payload, timestamp));
  }

  lemma InitialIsQuiet(s: System, session: nat)
    requires Initial(s) && s.transcription && s.ports != []
    ensures Quiet(s, Home(s, session)) && s.tables[Home(s, session)] == R.EMPTY_TABLE
  {
  }

  /** Disabling a stream does not stop its audio: from every initial state with a
      port there is a run in which nothing but one enable and one disable ever
      happens, both end, and the stream's audio follows its own stop on the FIFO. */
  lemma AudioSurvivesDisable(start: System, k: Key, ssrc: nat, payload: seq<byte>, timestamp: nat)
      returns (states: seq<System>)
    requires Initial(start) && start.transcription && start.ports != [] && k.0 != 0
    ensures IsBehaviour(states) && states[0] == start
    ensures var s := states[|states| - 1];
      && s.log == [StartSession(k, None)] + [StopSession(k)] + [Audio(R.AudioPacket(k, payload, timestamp, ssrc))]
      && s.queues == start.queues && s.calls == map[0 := Finished, 1 := Finished]
  {
    InitialIsQuiet(start, k.0);
    states := DisableCannotSilence([start], Home(start, k.0), k, 0, 1, ssrc, payload, timestamp);
  }
}
