/** Behaviours with their actions: what each kind of call has put where, step by step,
    by the time it ends, and whose audio each port forwards. */
module SignalingTraces {
  import opened Prelude
  import R = RtpAudioExtractor
  import opened Commands
  import opened SignalingProtocol

  predicate StepBy(s: System, a: Action, s': System) {
    Enabled(s, a) && s' == Apply(s, a)
  }

  predicate StepAt(states: seq<System>, actions: seq<Action>, i: nat)
    requires i < |actions| < |states|
  {
    StepBy(states[i], actions[i], states[i + 1])
  }

  /** A behaviour together with the action behind each step. */
  predicate IsTrace(states: seq<System>, actions: seq<Action>) {
    && |states| == |actions| + 1 && Initial(states[0])
    && forall i: nat :: i < |actions| ==> StepAt(states, actions, i)
  }

  lemma TraceSnoc(states: seq<System>, actions: seq<Action>, a: Action, s': System)
    requires IsTrace(states, actions) && StepBy(states[|actions|], a, s')
    ensures IsTrace(states + [s'], actions + [a])
  {
    forall i: nat | i < |actions| ensures StepAt(states + [s'], actions + [a], i) { assert StepAt(states, actions, i); }
    assert StepAt(states + [s'], actions + [a], |actions|);
  }

  /** Every behaviour is one, and the other way round. */
  lemma {:induction false} BehaviourIsTrace(states: seq<System>) returns (actions: seq<Action>)
    requires IsBehaviour(states)
    ensures IsTrace(states, actions)
    decreases |states|
  {
    actions := [];
    var n := |states| - 1;
    if n > 0 {
      var init := states[..n];
      forall i | 0 <= i < |init| - 1 ensures Next(init[i], init[i + 1]) { assert Next(states[i], states[i + 1]); }
      actions := BehaviourIsTrace(init);
      assert Next(states[n - 1], states[n - 1 + 1]);
      var a :| Enabled(states[n - 1], a) && states[n] == Apply(states[n - 1], a);
      assert StepBy(states[n - 1], a, states[n]);
      TraceSnoc(init, actions, a, states[n]);
      assert states == init + [states[n]];
      actions := actions + [a];
    }
  }

  lemma {:induction false} TraceIsBehaviour(states: seq<System>, actions: seq<Action>)
    requires IsTrace(states, actions)
    ensures IsBehaviour(states)
  {
    forall i | 0 <= i < |states| - 1 ensures Next(states[i], states[i + 1]) {
      assert StepAt(states, actions, i);
    }
  }

  // --------------------------------------------------- what a call puts where

  /** What one step of a call does outside the call. */
  datatype Effect =
    | Fifo(command: Command)
    | Post(message: Message)
    | HearAnswer
    | Nothing

  function ToFifo(transcription: bool, c: Command): Effect {
    if transcription then Fifo(c) else Nothing
  }

  function ToPort(havePorts: bool, m: Message): Effect {
    if havePorts then Post(m) else Nothing
  }

  function StartScript(k: Key, config: Option<BackendConfig>, transcription: bool, havePorts: bool): seq<Effect> {
    if transcription then [Fifo(StartSession(k, config)), ToPort(havePorts, EnableMessage(k))] else [Nothing]
  }

  /** What is left for a call to do, in order. An offer posts itself, hears its answer
      and, only if it asked for transcription, goes on like an enable; a leave and a
      disable first stop the session; without ports nothing can be posted, and
      without transcription nothing reaches the FIFO. */
  function Script(call: Call, id: nat, transcription: bool, havePorts: bool): seq<Effect> {
    match call
    case Offering(k, enable) =>
      if !havePorts then [Nothing]
      else [Post(OfferMessage(k, id)), HearAnswer]
           + if enable then StartScript(k, None, transcription, havePorts) else []
    case AwaitingAnswer(k, enable) =>
      [HearAnswer] + if enable then StartScript(k, None, transcription, havePorts) else []
    case Starting(k, config) => StartScript(k, config, transcription, havePorts)
    case Enabling(k) => [ToPort(havePorts, EnableMessage(k))]
    case Leaving(k) => [ToFifo(transcription, StopSession(k)), ToPort(havePorts, LeaveMessage(k))]
    case SendingLeave(k) => [ToPort(havePorts, LeaveMessage(k))]
    case Disabling(k) => [ToFifo(transcription, StopSession(k)), ToPort(havePorts, DisableMessage(k))]
    case SendingDisable(k) => [ToPort(havePorts, DisableMessage(k))]
    case Finished => []
  }

  /** Commands reach the worker: transcription is on and the worker is still there. */
  predicate Up(s: System) { s.transcription && s.open }

  /** The step puts exactly one thing at the end of the FIFO or of the home port's
      queue, which had room for it, or takes an answer that is there, and touches
      neither otherwise. */
  predicate Does(s: System, s': System, id: nat, session: nat, e: Effect) {
    match e
    case Fifo(c) => s'.log == s.log + [c] && s'.queues == s.queues
    case Post(m) =>
      && s.ports != []
      && var p := Home(s, session);
         p in s.queues && s.queues[p] == [] && s'.queues == s.queues[p := [m]] && s'.log == s.log
    case HearAnswer => id in s.replies && s'.log == s.log && s'.queues == s.queues
    case Nothing => s'.log == s.log && s'.queues == s.queues
  }

  predicate IsOwnStep(a: Action, id: nat) { a.Advance? && a.id == id }

  lemma NoPortsNoListing(s: System, listing: seq<nat>)
    requires multiset(listing) == multiset(s.ports)
    ensures listing == [] <==> s.ports == []
  {
    assert |listing| == |multiset(listing)| && |s.ports| == |multiset(s.ports)|;
  }

  lemma PushIsScripted(s: System, id: nat, p: nat)
    requires id in s.calls && UsesPort(s.calls[id]) && s.ports != [] && p == Home(s, s.calls[id].key.0)
    requires p in s.queues && s.queues[p] == []
    ensures var s', script := Pushed(s, id, p), Script(s.calls[id], id, Up(s), true);
      script != [] && Does(s, s', id, s.calls[id].key.0, script[0])
  {
    assert [] + [PortMessage(s.calls[id], id)] == [PortMessage(s.calls[id], id)];
  }

  lemma PushLeavesScript(call: Call, id: nat, transcription: bool)
    requires UsesPort(call)
    ensures var script := Script(call, id, transcription, true);
      script != [] && Script(AfterPush(call), id, transcription, true) == script[1..]
    ensures AfterPush(call) == Finished || AfterPush(call).key == call.key
  {
  }

  lemma OtherIsScripted(s: System, id: nat)
    requires id in s.calls && s.calls[id] != Finished && (UsesPort(s.calls[id]) ==> s.ports == [])
    requires s.calls[id].AwaitingAnswer? ==> id in s.replies
    ensures var s', script := Settled(s, id), Script(s.calls[id], id, Up(s), s.ports != []);
      script != [] && Does(s, s', id, s.calls[id].key.0, script[0])
  {
    assert s.log + [] == s.log;
  }

  lemma OtherLeavesScript(s: System, call: Call, id: nat)
    requires call != Finished && (UsesPort(call) ==> s.ports == [])
    ensures var script := Script(call, id, Up(s), s.ports != []);
      script != [] && Script(AfterOther(s, call), id, Up(s), s.ports != []) == script[1..]
    ensures AfterOther(s, call) == Finished || AfterOther(s, call).key == call.key
  {
  }

  /** One step of a call, whether the worker is there or gone, is the first effect left,
      and leaves the rest. */
  lemma StepFollowsScript(s: System, id: nat, listing: seq<nat>)
    requires Enabled(s, Advance(id, listing))
    ensures var s' := Apply(s, Advance(id, listing));
      var script := Script(s.calls[id], id, Up(s), s.ports != []);
      && script != [] && Does(s, s', id, s.calls[id].key.0, script[0])
      && id in s'.calls && (s'.calls[id] == Finished || s'.calls[id].key == s.calls[id].key)
      && Script(s'.calls[id], id, Up(s), s.ports != []) == script[1..]
  {
    NoPortsNoListing(s, listing);
    if UsesPort(s.calls[id]) && listing != [] {
      PushStep(s, id, listing);
      PushIsScripted(s, id, Home(s, s.calls[id].key.0));
      PushLeavesScript(s.calls[id], id, Up(s));
    } else {
      OtherStep(s, id, listing);
      OtherIsScripted(s, id);
      OtherLeavesScript(s, s.calls[id], id);
    }
  }

  lemma AdvanceMovesOne(s: System, id: nat, listing: seq<nat>)
    requires Enabled(s, Advance(id, listing))
    ensures var calls := Apply(s, Advance(id, listing)).calls; id in calls && calls == s.calls[id := calls[id]]
  {
    if UsesPort(s.calls[id]) && listing != [] {
      PushStep(s, id, listing);
    } else {
      OtherStep(s, id, listing);
    }
  }

  /** The call an action is about, if any. */
  function CallOf(a: Action): Option<nat> {
    match a
    case Arrive(id, _) => Some(id)
    case Advance(id, _) => Some(id)
    case Abandon(id) => Some(id)
    case _ => None
  }

  lemma StepMovesOne(s: System, a: Action)
    requires Enabled(s, a)
    ensures var calls := Apply(s, a).calls;
      if CallOf(a).None? then calls == s.calls
      else CallOf(a).value in calls && calls == s.calls[CallOf(a).value := calls[CallOf(a).value]]
  {
    match a
    case Advance(id, listing) => AdvanceMovesOne(s, id, listing);
    case Process(p, answered) => ProcessStep(s, p, answered);
    case Forward(p, ssrc, payload, timestamp) => ForwardStep(s, p, ssrc, payload, timestamp);
    case _ =>
  }

  /** Nothing but its own closing shuts the FIFO, nothing opens it again, and the ports stay. */
  lemma StepKeepsSetup(s: System, a: Action)
    requires Enabled(s, a)
    ensures Apply(s, a).open <==> s.open && a != CloseWorker
    ensures Apply(s, a).ports == s.ports && Apply(s, a).transcription == s.transcription
  {
    match a
    case Advance(id, listing) =>
      if UsesPort(s.calls[id]) && listing != [] {
        PushStep(s, id, listing);
      } else {
        OtherStep(s, id, listing);
      }
    case Process(p, answered) => ProcessStep(s, p, answered);
    case Forward(p, ssrc, payload, timestamp) => ForwardStep(s, p, ssrc, payload, timestamp);
    case _ =>
  }

  /** The positions of a call's own steps among the first n actions. */
  function OwnSteps(actions: seq<Action>, n: nat, id: nat): seq<nat>
    requires n <= |actions|
  {
    if n == 0 then [] else OwnSteps(actions, n - 1, id) + if IsOwnStep(actions[n - 1], id) then [n - 1] else []
  }

  lemma {:induction false} NoStepsBeforeArrival(states: seq<System>, actions: seq<Action>, n: nat, id: nat)
    requires IsTrace(states, actions) && n <= |actions| && id !in states[n].calls
    ensures OwnSteps(actions, n, id) == []
  {
    if n > 0 {
      assert StepAt(states, actions, n - 1);
      StepMovesOne(states[n - 1], actions[n - 1]);
      NoStepsBeforeArrival(states, actions, n - 1, id);
    }
  }

  /** The steps a call has made are the first effects of its script, one each and in order. */
  predicate Follows(states: seq<System>, steps: seq<nat>, script: seq<Effect>, id: nat, session: nat) {
    && |steps| <= |script|
    && forall i: nat :: i < |steps| ==> DoesAt(states, steps[i], id, session, script[i])
  }

  predicate DoesAt(states: seq<System>, i: nat, id: nat, session: nat, e: Effect) {
    i + 1 < |states| && Does(states[i], states[i + 1], id, session, e)
  }

  /** The call has this left to do. */
  predicate HasLeft(s: System, id: nat, session: nat, left: seq<Effect>) {
    && id in s.calls && (s.calls[id] == Finished || s.calls[id].key.0 == session)
    && Script(s.calls[id], id, s.transcription, s.ports != []) == left
  }

  lemma OwnStepLeaves(s: System, id: nat, session: nat, left: seq<Effect>, listing: seq<nat>)
    requires s.open && HasLeft(s, id, session, left) && Enabled(s, Advance(id, listing))
    ensures var s' := Apply(s, Advance(id, listing));
      left != [] && Does(s, s', id, session, left[0]) && HasLeft(s', id, session, left[1..])
  {
    StepFollowsScript(s, id, listing);
    StepKeepsSetup(s, Advance(id, listing));
  }

  lemma OtherStepLeaves(s: System, id: nat, session: nat, left: seq<Effect>, a: Action)
    requires HasLeft(s, id, session, left) && Enabled(s, a) && !IsOwnStep(a, id) && a != Abandon(id)
    ensures HasLeft(Apply(s, a), id, session, left)
  {
    StepMovesOne(s, a);
    StepKeepsSetup(s, a);
  }

  lemma ArrivalStartsScript(s: System, id: nat, call: Call, s': System)
    requires StepBy(s, Arrive(id, call), s')
    ensures call != Finished && id !in s.calls
    ensures HasLeft(s', id, call.key.0, Script(call, id, s.transcription, s.ports != []))
  {
  }

  lemma SetupStays(s: System, a: Action, s': System)
    requires StepBy(s, a, s')
    ensures s'.ports == s.ports && s'.transcription == s.transcription && (s'.open ==> s.open)
  {
    StepKeepsSetup(s, a);
  }

  /** After n actions the call is where its script says after its steps so far. */
  predicate OnScript(states: seq<System>, n: nat, steps: seq<nat>, script: seq<Effect>, id: nat, session: nat)
    requires n < |states|
  {
    Follows(states, steps, script, id, session) && HasLeft(states[n], id, session, script[|steps|..])
  }

  lemma FinishedIff(call: Call, id: nat, transcription: bool, havePorts: bool)
    ensures call == Finished <==> Script(call, id, transcription, havePorts) == []
  {
  }

  /** Carried on by one more action of anybody. */
  lemma OneMoreAction(states: seq<System>, n: nat, steps: seq<nat>, script: seq<Effect>, id: nat, session: nat,
                      a: Action)
    requires n + 1 < |states| && OnScript(states, n, steps, script, id, session)
    requires states[n].open && StepBy(states[n], a, states[n + 1]) && a != Abandon(id)
    ensures OnScript(states, n + 1, steps + if IsOwnStep(a, id) then [n] else [], script, id, session)
  {
    if IsOwnStep(a, id) {
      OwnStepLeaves(states[n], id, session, script[|steps|..], a.listing);
      assert DoesAt(states, n, id, session, script[|steps|]);
      assert script[|steps|..][1..] == script[|steps| + 1..];
    } else {
      OtherStepLeaves(states[n], id, session, script[|steps|..], a);
      assert steps + [] == steps;
    }
  }

  lemma {:induction false} StaysOnScript(states: seq<System>, actions: seq<Action>, n: nat, a: nat,
                                         id: nat, call: Call, script: seq<Effect>)
    requires IsTrace(states, actions) && a < n <= |actions| && states[n].open
    requires actions[a] == Arrive(id, call) && forall i :: a <= i < n ==> actions[i] != Abandon(id)
    requires script == Script(call, id, states[n].transcription, states[n].ports != [])
    ensures call != Finished
    ensures OnScript(states, n, OwnSteps(actions, n, id), script, id, call.key.0)
    decreases n
  {
    var m := n - 1;
    assert StepAt(states, actions, m);
    SetupStays(states[m], actions[m], states[n]);
    if a == m {
      ArrivalStartsScript(states[m], id, call, states[n]);
      NoStepsBeforeArrival(states, actions, m, id);
      assert script[0..] == script;
    } else {
      StaysOnScript(states, actions, m, a, id, call, script);
      OneMoreAction(states, m, OwnSteps(actions, m, id), script, id, call.key.0, actions[m]);
    }
  }

  /** What each kind of call has put where. As long as the transcription worker is there
      and the call is not abandoned, its own steps do what its script says, one effect
      each and in order, and nothing else; it has finished exactly if it has done all:
      a leave one stop and then its message, a disable likewise, an enable one start
      with its override and then its message, an offer its message first and, exactly
      if it asked for transcription, after its answer one start and an enable message. */
  lemma {:induction false} CallFollowsScript(states: seq<System>, actions: seq<Action>, n: nat, a: nat,
                                             id: nat, call: Call)
    requires IsTrace(states, actions) && a < n <= |actions| && states[n].open
    requires actions[a] == Arrive(id, call) && forall i :: a <= i < n ==> actions[i] != Abandon(id)
    ensures var s, steps := states[n], OwnSteps(actions, n, id);
      var script := Script(call, id, s.transcription, s.ports != []);
      && call != Finished && Follows(states, steps, script, id, call.key.0)
      && id in s.calls && (s.calls[id] == Finished <==> |steps| == |script|)
  {
    var s := states[n];
    StaysOnScript(states, actions, n, a, id, call, Script(call, id, s.transcription, s.ports != []));
    FinishedIff(s.calls[id], id, s.transcription, s.ports != []);
  }

  predicate Sends(states: seq<System>, i: nat, c: Command) {
    i + 1 < |states| && states[i + 1].log == states[i].log + [c] && states[i + 1].queues == states[i].queues
  }

  predicate Posts(states: seq<System>, i: nat, session: nat, m: Message) {
    && i + 1 < |states| && states[i].ports != []
    && var p := Home(states[i], session);
       && p in states[i].queues && states[i].queues[p] == []
       && states[i + 1].queues == states[i].queues[p := [m]] && states[i + 1].log == states[i].log
  }

  /** A call of the given kind arrived at a, was never given up, and has finished, in a
      service with transcription and ports. */
  predicate Ended(states: seq<System>, actions: seq<Action>, n: nat, a: nat, id: nat, call: Call) {
    && IsTrace(states, actions) && a < n <= |actions|
    && actions[a] == Arrive(id, call) && (forall i :: a <= i < n ==> actions[i] != Abandon(id))
    && states[n].open && states[n].transcription && states[n].ports != []
    && id in states[n].calls && states[n].calls[id] == Finished
  }

  lemma LastOf(states: seq<System>, steps: seq<nat>, script: seq<Effect>, id: nat, session: nat, i: nat)
    requires Follows(states, steps, script, id, session) && i < |steps|
    ensures script[i].Fifo? ==> Sends(states, steps[i], script[i].command)
    ensures script[i].Post? ==> Posts(states, steps[i], session, script[i].message)
    ensures script[i].HearAnswer? ==> steps[i] < |states| && id in states[steps[i]].replies
  {
    assert DoesAt(states, steps[i], id, session, script[i]);
  }

  lemma EndedFollows(states: seq<System>, actions: seq<Action>, n: nat, a: nat, id: nat, call: Call)
    requires Ended(states, actions, n, a, id, call)
    ensures call != Finished
    ensures var steps, script := OwnSteps(actions, n, id), Script(call, id, true, true);
      |steps| == |script| && Follows(states, steps, script, id, call.key.0)
  {
    CallFollowsScript(states, actions, n, a, id, call);
  }

  lemma CommandThenMessage(states: seq<System>, steps: seq<nat>, id: nat, session: nat, c: Command, m: Message)
    requires |steps| == 2 && Follows(states, steps, [Fifo(c), Post(m)], id, session)
    ensures Sends(states, steps[0], c) && Posts(states, steps[1], session, m)
  {
    LastOf(states, steps, [Fifo(c), Post(m)], id, session, 0);
    LastOf(states, steps, [Fifo(c), Post(m)], id, session, 1);
  }

  /** Leaving stops the stream's session once, and then tells the home port. */
  lemma LeaveStops(states: seq<System>, actions: seq<Action>, n: nat, a: nat, id: nat, k: Key)
    requires Ended(states, actions, n, a, id, Leaving(k))
    ensures var steps := OwnSteps(actions, n, id);
      |steps| == 2 && Sends(states, steps[0], StopSession(k)) && Posts(states, steps[1], k.0, LeaveMessage(k))
  {
    EndedFollows(states, actions, n, a, id, Leaving(k));
    CommandThenMessage(states, OwnSteps(actions, n, id), id, k.0, StopSession(k), LeaveMessage(k));
  }

  lemma DisableStops(states: seq<System>, actions: seq<Action>, n: nat, a: nat, id: nat, k: Key)
    requires Ended(states, actions, n, a, id, Disabling(k))
    ensures var steps := OwnSteps(actions, n, id);
      |steps| == 2 && Sends(states, steps[0], StopSession(k)) && Posts(states, steps[1], k.0, DisableMessage(k))
  {
    EndedFollows(states, actions, n, a, id, Disabling(k));
    CommandThenMessage(states, OwnSteps(actions, n, id), id, k.0, StopSession(k), DisableMessage(k));
  }

  lemma EnableStarts(states: seq<System>, actions: seq<Action>, n: nat, a: nat, id: nat, k: Key,
                     config: Option<BackendConfig>)
    requires Ended(states, actions, n, a, id, Starting(k, config))
    ensures var steps := OwnSteps(actions, n, id);
      |steps| == 2 && Sends(states, steps[0], StartSession(k, config)) && Posts(states, steps[1], k.0, EnableMessage(k))
  {
    EndedFollows(states, actions, n, a, id, Starting(k, config));
    CommandThenMessage(states, OwnSteps(actions, n, id), id, k.0, StartSession(k, config), EnableMessage(k));
  }

  /** An offer is posted and answered first; it starts and enables exactly if asked to. */
  lemma OfferStartsIffAsked(states: seq<System>, actions: seq<Action>, n: nat, a: nat, id: nat, k: Key, enable: bool)
    requires Ended(states, actions, n, a, id, Offering(k, enable))
    ensures var steps := OwnSteps(actions, n, id);
      && |steps| == (if enable then 4 else 2)
      && Posts(states, steps[0], k.0, OfferMessage(k, id))
      && steps[1] < |states| && id in states[steps[1]].replies
      && (enable ==> Sends(states, steps[2], StartSession(k, None)) && Posts(states, steps[3], k.0, EnableMessage(k)))
  {
    EndedFollows(states, actions, n, a, id, Offering(k, enable));
    var steps, script := OwnSteps(actions, n, id), Script(Offering(k, enable), id, true, true);
    LastOf(states, steps, script, id, k.0, 0);
    LastOf(states, steps, script, id, k.0, 1);
    if enable {
      LastOf(states, steps, script, id, k.0, 2);
      LastOf(states, steps, script, id, k.0, 3);
    }
  }

  /** Once the worker is gone nothing reaches the FIFO any more. */
  lemma {:induction false} ClosedForGood(states: seq<System>, actions: seq<Action>, m: nat, n: nat)
    requires IsTrace(states, actions) && m <= n <= |actions| && !states[m].open
    ensures !states[n].open && states[n].log == states[m].log
    decreases n
  {
    if m < n {
      ClosedForGood(states, actions, m, n - 1);
      assert StepAt(states, actions, n - 1);
      ClosedStep(states[n - 1], actions[n - 1]);
    }
  }

  lemma ClosedStep(s: System, a: Action)
    requires Enabled(s, a) && !s.open
    ensures !Apply(s, a).open && Apply(s, a).log == s.log
  {
    StepKeepsSetup(s, a);
    match a
    case Advance(id, listing) => StepFollowsScript(s, id, listing);
    case Process(p, answered) => ProcessStep(s, p, answered);
    case Forward(p, ssrc, payload, timestamp) => ForwardStep(s, p, ssrc, payload, timestamp);
    case _ =>
  }

  // ------------------------------------------------------------------ answers

  /** Action i takes the offer of this call from its port's queue. */
  predicate AnswersOffer(s: System, a: Action, id: nat) {
    && a.Process? && a.port in s.queues && s.queues[a.port] != []
    && s.queues[a.port][0].OfferMessage? && s.queues[a.port][0].caller == id
  }

  lemma AdvanceAnswersNobody(s: System, other: nat, listing: seq<nat>)
    requires Enabled(s, Advance(other, listing))
    ensures Apply(s, Advance(other, listing)).replies.Keys <= s.replies.Keys
  {
    if UsesPort(s.calls[other]) && listing != [] {
      PushStep(s, other, listing);
    } else {
      OtherStep(s, other, listing);
    }
  }

  lemma StepReplies(s: System, a: Action, s': System, id: nat)
    requires StepBy(s, a, s')
    ensures id in s'.replies ==> id in s.replies || AnswersOffer(s, a, id)
  {
    match a
    case Advance(other, listing) => AdvanceAnswersNobody(s, other, listing);
    case Process(p, answered) => ProcessStep(s, p, answered);
    case Forward(p, ssrc, payload, timestamp) => ForwardStep(s, p, ssrc, payload, timestamp);
    case _ =>
  }

  /** An answer is there only after a media worker has taken the call's offer. */
  lemma {:induction false} AnswersAreReal(states: seq<System>, actions: seq<Action>, n: nat, id: nat)
    requires IsTrace(states, actions) && n <= |actions| && id in states[n].replies
    ensures exists i: nat :: i < n && AnswersOffer(states[i], actions[i], id)
  {
    if n > 0 {
      var m := n - 1;
      assert StepAt(states, actions, m);
      StepReplies(states[m], actions[m], states[n], id);
      if id in states[m].replies {
        AnswersAreReal(states, actions, m, id);
      }
    }
  }

  // ------------------------------------------------------- whose audio it is

  /** What an action does to port p's table. */
  function TableOps(s: System, a: Action, p: nat): seq<R.Op> {
    match a
    case Process(q, _) =>
      if q != p || q !in s.queues || s.queues[q] == [] then []
      else (match s.queues[q][0]
            case EnableMessage(k) => [R.OpEnable(k)]
            case DisableMessage(k) => [R.OpDisable(k)]
            case _ => [])
    case Forward(q, ssrc, _, _) => if q == p then [R.OpForward(ssrc)] else []
    case _ => []
  }

  /** The history of port p's table: messages taken and packets looked up. */
  function PortHistory(states: seq<System>, actions: seq<Action>, n: nat, p: nat): seq<R.Op>
    requires n <= |actions| < |states|
  {
    if n == 0 then [] else PortHistory(states, actions, n - 1, p) + TableOps(states[n - 1], actions[n - 1], p)
  }

  predicate ReassignsNone(ops: seq<R.Op>, ssrc: nat) {
    forall i :: 0 <= i < |ops| ==> !R.Reassigns(ops[i], ssrc)
  }

  lemma ReassignsNoneConcat(a: seq<R.Op>, b: seq<R.Op>, ssrc: nat)
    requires ReassignsNone(a, ssrc) && ReassignsNone(b, ssrc)
    ensures ReassignsNone(a + b, ssrc)
  {
  }

  lemma {:induction false} HistoryReassignsNothing(states: seq<System>, actions: seq<Action>, n: nat, p: nat, ssrc: nat)
    requires n <= |actions| < |states|
    ensures ReassignsNone(PortHistory(states, actions, n, p), ssrc)
  {
    if n > 0 {
      var before, more := PortHistory(states, actions, n - 1, p), TableOps(states[n - 1], actions[n - 1], p);
      HistoryReassignsNothing(states, actions, n - 1, p, ssrc);
      ReassignsNoneConcat(before, more, ssrc);
    }
  }

  lemma ApplyAllSnoc(t: R.Table, ops: seq<R.Op>, more: seq<R.Op>)
    requires |more| <= 1
    ensures R.ApplyAll(t, ops + more) == if more == [] then R.ApplyAll(t, ops) else R.Apply(R.ApplyAll(t, ops), more[0])
  {
    if more == [] {
      assert ops + more == ops;
    } else {
      assert (ops + more)[..|ops|] == ops;
    }
  }

  lemma AdvanceLeavesTables(s: System, id: nat, listing: seq<nat>)
    requires Enabled(s, Advance(id, listing))
    ensures Apply(s, Advance(id, listing)).tables == s.tables
  {
    if UsesPort(s.calls[id]) && listing != [] {
      PushStep(s, id, listing);
    } else {
      OtherStep(s, id, listing);
    }
  }

  lemma ProcessTable(s: System, q: nat, answered: bool, p: nat)
    requires Enabled(s, Process(q, answered)) && p in s.tables
    ensures var s', ops := Apply(s, Process(q, answered)), TableOps(s, Process(q, answered), p);
      p in s'.tables && |ops| <= 1 && s'.tables[p] == if ops == [] then s.tables[p] else R.Apply(s.tables[p], ops[0])
  {
    ProcessStep(s, q, answered);
  }

  lemma StepTable(s: System, a: Action, s': System, p: nat)
    requires StepBy(s, a, s') && p in s.tables
    ensures var ops := TableOps(s, a, p);
      p in s'.tables && |ops| <= 1 && s'.tables[p] == if ops == [] then s.tables[p] else R.Apply(s.tables[p], ops[0])
  {
    match a
    case Advance(id, listing) => AdvanceLeavesTables(s, id, listing);
    case Process(q, answered) => ProcessTable(s, q, answered, p);
    case Forward(q, ssrc, payload, timestamp) => ForwardStep(s, q, ssrc, payload, timestamp);
    case _ =>
  }

  lemma {:induction false} TableIsHistory(states: seq<System>, actions: seq<Action>, n: nat, p: nat)
    requires IsTrace(states, actions) && n <= |actions| && p in states[0].ports
    ensures p in states[n].tables
    ensures states[n].tables[p] == R.ApplyAll(R.EMPTY_TABLE, PortHistory(states, actions, n, p))
  {
    if n > 0 {
      var m := n - 1;
      TableIsHistory(states, actions, m, p);
      assert StepAt(states, actions, m);
      StepTable(states[m], actions[m], states[n], p);
      ApplyAllSnoc(R.EMPTY_TABLE, PortHistory(states, actions, m, p), TableOps(states[m], actions[m], p));
    }
  }

  lemma LookupOwner(t: R.Table, ssrc: nat)
    ensures var (t', k) := R.LoopLookup(t, ssrc);
      t' == R.Apply(t, R.OpForward(ssrc)) && k == if ssrc in t'.ssrcMap then t'.ssrcMap[ssrc] else (0, 0)
  {
  }

  /** One forward, in terms of the table it leaves. */
  lemma ForwardLogs(s: System, p: nat, ssrc: nat, payload: seq<byte>, timestamp: nat, s': System)
    requires s.open && StepBy(s, Forward(p, ssrc, payload, timestamp), s')
    ensures p in s'.tables
    ensures var owners := s'.tables[p].ssrcMap;
      s'.log == s.log + if ssrc in owners && owners[ssrc].0 != 0
                        then [Audio(R.AudioPacket(owners[ssrc], payload, timestamp, ssrc))] else []
  {
    ForwardStep(s, p, ssrc, payload, timestamp);
    LookupOwner(s.tables[p], ssrc);
    assert s.log + [] == s.log;
  }

  /** The port's owner for an SSRC, as its history has it. */
  lemma KnownOwner(states: seq<System>, actions: seq<Action>, n: nat, p: nat, ssrc: nat, i: nat)
    requires IsTrace(states, actions) && n <= |actions| && p in states[0].ports
    requires R.LearnsAt(PortHistory(states, actions, n, p), i, ssrc)
    ensures p in states[n].tables && ssrc in states[n].tables[p].ssrcMap
    ensures R.LastEnabled(PortHistory(states, actions, n, p)[..i]) == Some(states[n].tables[p].ssrcMap[ssrc])
  {
    TableIsHistory(states, actions, n, p);
    HistoryReassignsNothing(states, actions, n, p, ssrc);
    R.OwnerIsLastEnabled(PortHistory(states, actions, n, p), ssrc);
  }

  lemma UnknownOwner(states: seq<System>, actions: seq<Action>, n: nat, p: nat, ssrc: nat)
    requires IsTrace(states, actions) && n <= |actions| && p in states[0].ports
    requires var ops := PortHistory(states, actions, n, p); forall i: nat :: i < |ops| ==> !R.Answered(ops, i, ssrc)
    ensures p in states[n].tables && ssrc !in states[n].tables[p].ssrcMap
  {
    TableIsHistory(states, actions, n, p);
    HistoryReassignsNothing(states, actions, n, p, ssrc);
    R.OwnerIsLastEnabled(PortHistory(states, actions, n, p), ssrc);
  }

  function ForwardedFor(owners: map<nat, Key>, ssrc: nat, payload: seq<byte>, timestamp: nat): seq<Command> {
    if ssrc in owners && owners[ssrc].0 != 0 then [Audio(R.AudioPacket(owners[ssrc], payload, timestamp, ssrc))] else []
  }

  lemma TraceForwards(states: seq<System>, actions: seq<Action>, n: nat,
                      p: nat, ssrc: nat, payload: seq<byte>, timestamp: nat)
    requires IsTrace(states, actions) && n < |actions| && states[n].open
    requires actions[n] == Forward(p, ssrc, payload, timestamp)
    ensures p in states[n + 1].tables
    ensures states[n + 1].log ==
      states[n].log + ForwardedFor(states[n + 1].tables[p].ssrcMap, ssrc, payload, timestamp)
  {
    assert StepAt(states, actions, n);
    ForwardLogs(states[n], p, ssrc, payload, timestamp, states[n + 1]);
  }

  /** Whose audio a port forwards, read off its history alone: a packet of an SSRC goes
      to the FIFO, unchanged, for the stream that was enabled last at the port when the
      SSRC was first looked up with any stream enabled... */
  lemma {:induction false} ForwardedAsEnabled(states: seq<System>, actions: seq<Action>, n: nat,
                                              p: nat, ssrc: nat, payload: seq<byte>, timestamp: nat, i: nat)
    requires IsTrace(states, actions) && n < |actions| && p in states[0].ports && states[n].open
    requires actions[n] == Forward(p, ssrc, payload, timestamp)
    requires R.LearnsAt(PortHistory(states, actions, n + 1, p), i, ssrc)
    ensures var k := R.LastEnabled(PortHistory(states, actions, n + 1, p)[..i]).value;
      states[n + 1].log == states[n].log + if k.0 != 0 then [Audio(R.AudioPacket(k, payload, timestamp, ssrc))] else []
  {
    KnownOwner(states, actions, n + 1, p, ssrc, i);
    TraceForwards(states, actions, n, p, ssrc, payload, timestamp);
  }

  /** ... and not at all if there was no such lookup, this one included. */
  lemma {:induction false} UnownedIsNotForwarded(states: seq<System>, actions: seq<Action>, n: nat,
                                                 p: nat, ssrc: nat, payload: seq<byte>, timestamp: nat)
    requires IsTrace(states, actions) && n < |actions| && p in states[0].ports && states[n].open
    requires actions[n] == Forward(p, ssrc, payload, timestamp)
    requires var ops := PortHistory(states, actions, n + 1, p);
      forall i: nat :: i < |ops| ==> !R.Answered(ops, i, ssrc)
    ensures states[n + 1].log == states[n].log
  {
    UnknownOwner(states, actions, n + 1, p, ssrc);
    TraceForwards(states, actions, n, p, ssrc, payload, timestamp);
  }
}
