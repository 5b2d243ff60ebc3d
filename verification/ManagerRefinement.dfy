/** The manager seen through its locks and the manager seen one request at a time: as
    long as no stream is started by two threads at once they are the same. */
module ManagerRefinement {
  import opened Prelude
  import opened Decoder
  import opened Commands
  import opened Manager
  import L = ManagerLocks

  const CONFIG := OpenAi("", None, None)

  function StartRequest(k: Key, opens: bool): Request {
    Start(k, Some(CONFIG), StartEnv(opens, true))
  }

  /** The request that a thread's step completes, if any: a start at its insertion or
      where it finds it is not to insert, a stop at its removal, audio at its lookup,
      a poll when it has visited everybody. */
  function Completes(s: L.State, t: nat, c: L.Choice): seq<Request>
    requires L.Enabled(s, t, false)
  {
    match s.threads[t]
    case Checking(k) => if k in s.sessions then [StartRequest(k, c.opens)] else []
    case Opening(k) => if c.opens then [] else [StartRequest(k, false)]
    case Writing(op) =>
      (match op
       case StartOp(k) => [StartRequest(k, true)]
       case StopOp(k) => [Stop(k)]
       case _ => [])
    case Looking(k) => [Hear(k, [], true)]
    case Polling(todo) => if todo == [] then [Poll] else []
    case _ => []
  }

  /** The same streams are live, each with the same session object. */
  predicate SameMap<S>(m: ManagerState<S>, s: L.State) {
    && m.created == s.created && m.sessions.Keys == s.sessions.Keys
    && forall k :: k in s.sessions ==> m.sessions[k].backend.id == s.sessions[k]
  }

  function ServeOne<S>(codec: Codec<S>, default: BackendConfig, m: ManagerState<S>, rs: seq<Request>): ManagerState<S>
    requires |rs| <= 1
  {
    if rs == [] then m else Serve(codec, default, m, rs[0])
  }

  /** Requests that leave the map alone: no insertion and no removal. */
  lemma QuietRequests<S>(codec: Codec<S>, default: BackendConfig, m: ManagerState<S>, s: L.State, rs: seq<Request>)
    requires SameMap(m, s) && |rs| <= 1
    requires rs != [] ==> match rs[0]
                          case Start(k, override, env) =>
                            k in s.sessions || (override == Some(CONFIG) && !env.decoderOk)
                          case Hear(_, _, _) => true
                          case Poll => true
                          case _ => false
    ensures SameMap(ServeOne(codec, default, m, rs), s)
  {
  }

  /** All moves but the two at the end of a write. */
  lemma QuietMoves(s: L.State, t: nat, c: L.Choice)
    requires L.Enabled(s, t, false) && (s.threads[t].Writing? ==> !s.threads[t].op.StartOp? && !s.threads[t].op.StopOp?)
    ensures L.Move(s, t, c).sessions == s.sessions && L.Move(s, t, c).created == s.created
  {
  }

  lemma InsertionIsServed<S>(codec: Codec<S>, default: BackendConfig, m: ManagerState<S>, s: L.State, k: Key)
    requires SameMap(m, s) && k !in s.sessions
    ensures SameMap(Serve(codec, default, m, StartRequest(k, true)),
                    s.(sessions := s.sessions[k := s.created], created := s.created + 1))
  {
  }

  /** SameMap looks at nothing but the map and the numbering. */
  lemma SameMapOnly<S>(m: ManagerState<S>, s: L.State, s': L.State)
    requires SameMap(m, s) && s'.sessions == s.sessions && s'.created == s.created
    ensures SameMap(m, s')
  {
  }

  lemma MoveIsServed<S>(codec: Codec<S>, default: BackendConfig, m: ManagerState<S>,
                        s: L.State, t: nat, c: L.Choice)
    requires SameMap(m, s) && L.Enabled(s, t, false)
    requires s.threads[t].Writing? && s.threads[t].op.StartOp? ==> s.threads[t].op.key !in s.sessions
    ensures SameMap(ServeOne(codec, default, m, Completes(s, t, c)), L.Move(s, t, c))
  {
    var s', rs := L.Move(s, t, c), Completes(s, t, c);
    if s.threads[t].Writing? && s.threads[t].op.StartOp? {
      InsertionIsServed(codec, default, m, s, s.threads[t].op.key);
    } else if s.threads[t].Writing? && s.threads[t].op.StopOp? {
      assert rs == [Stop(s.threads[t].op.key)];
    } else {
      QuietMoves(s, t, c);
      QuietRequests(codec, default, m, s, rs);
      SameMapOnly(ServeOne(codec, default, m, rs), s, s');
    }
  }

  /** The requests that one step of the run completes. */
  ghost predicate StepCompletes(s: L.State, s': L.State, rs: seq<Request>) {
    || (exists t, c :: L.Enabled(s, t, false) && s' == L.Move(s, t, c) && rs == Completes(s, t, c))
    || (exists t, op :: L.CanBegin(s, t) && s' == L.Begin(s, t, op) && rs == [])
  }

  /** What has been completed up to each of the first states of a run: nothing at
      first, and after each step what that step completes, at the end. */
  ghost predicate Linearises(states: seq<L.State>, served: seq<seq<Request>>) {
    && 0 < |served| <= |states| && served[0] == []
    && forall i :: 0 <= i < |served| - 1 ==>
         && served[i] <= served[i + 1]
         && StepCompletes(states[i], states[i + 1], served[i + 1][|served[i]|..])
  }

  lemma ServeAllSnoc<S>(codec: Codec<S>, default: BackendConfig, rs: seq<Request>, more: seq<Request>)
    requires |more| <= 1
    ensures ServeAll(codec, default, rs + more) == ServeOne(codec, default, ServeAll(codec, default, rs), more)
  {
    if more == [] {
      assert rs + more == rs;
    } else {
      assert (rs + more)[..|rs|] == rs;
    }
  }

  lemma NextIsServed<S>(codec: Codec<S>, default: BackendConfig, m: ManagerState<S>, s: L.State, s': L.State)
      returns (rs: seq<Request>)
    requires SameMap(m, s) && L.Next(s, s') && forall k :: L.CommittedAbsent(s, k)
    ensures |rs| <= 1 && StepCompletes(s, s', rs) && SameMap(ServeOne(codec, default, m, rs), s')
  {
    if t, c :| L.Enabled(s, t, false) && s' == L.Move(s, t, c) {
      rs := Completes(s, t, c);
      if s.threads[t].Writing? && s.threads[t].op.StartOp? {
        var k := s.threads[t].op.key;
        assert L.CommittedAbsent(s, k) && L.Committed(s.threads[t]) == Some(k);
      }
      MoveIsServed(codec, default, m, s, t, c);
    } else {
      rs := [];
    }
  }

  lemma LineariseStep(states: seq<L.State>, served: seq<seq<Request>>, rs: seq<Request>)
    requires Linearises(states, served) && |served| < |states|
    requires StepCompletes(states[|served| - 1], states[|served|], rs)
    ensures Linearises(states, served + [served[|served| - 1] + rs])
  {
    var longer := served + [served[|served| - 1] + rs];
    forall i | 0 <= i < |longer| - 1
      ensures longer[i] <= longer[i + 1] && StepCompletes(states[i], states[i + 1], longer[i + 1][|longer[i]|..])
    {
      if i < |served| - 1 {
        assert StepCompletes(states[i], states[i + 1], served[i + 1][|served[i]|..]);
      } else {
        assert longer[i + 1][|longer[i]|..] == rs;
      }
    }
  }

  ghost predicate SameMaps<S>(codec: Codec<S>, default: BackendConfig,
                              states: seq<L.State>, served: seq<seq<Request>>) {
    |served| <= |states| &&
    forall i :: 0 <= i < |served| ==> SameMap(ServeAll(codec, default, served[i]), states[i])
  }

  lemma {:induction false} ServedUpTo<S>(codec: Codec<S>, default: BackendConfig, states: seq<L.State>, n: nat)
      returns (served: seq<seq<Request>>)
    requires L.IsRun(states) && n < |states|
    requires forall i, k :: 0 <= i < |states| ==> L.OneStarter(states[i], k)
    ensures |served| == n + 1 && Linearises(states, served) && SameMaps(codec, default, states, served)
  {
    if n == 0 {
      served := [[]];
    } else {
      served := ServedUpTo(codec, default, states, n - 1);
      var last, before := states[n - 1], served[n - 1];
      forall k ensures L.CommittedAbsent(last, k) {
        L.AbsentThroughout(states, n - 1, k);
      }
      assert L.Next(states[n - 1], states[n - 1 + 1]);
      var rs := NextIsServed(codec, default, ServeAll(codec, default, before), last, states[n]);
      ServeAllSnoc(codec, default, before, rs);
      LineariseStep(states, served, rs);
      served := served + [before + rs];
    }
  }

  /** Atomicity: if no stream is ever started by two threads at once, every
      interleaving of any number of threads goes, step for step, through the session
      maps of serving whole requests one after another, in the order in which they
      take effect. */
  lemma RunsAreServed<S>(codec: Codec<S>, default: BackendConfig, states: seq<L.State>)
      returns (served: seq<seq<Request>>)
    requires L.IsRun(states)
    requires forall i, k :: 0 <= i < |states| ==> L.OneStarter(states[i], k)
    ensures |served| == |states| && Linearises(states, served) && SameMaps(codec, default, states, served)
  {
    served := ServedUpTo(codec, default, states, |states| - 1);
  }

  /** Every thread but one only polls. */
  predicate OnlyPollsBut(s: L.State, worker: nat) {
    forall t :: t in s.threads && t != worker ==>
      match s.threads[t]
      case WantRead(op) => op.PollOp?
      case Polling(_) => true
      case Draining(_) => true
      case Idle => true
      case _ => false
  }

  /** That is how the service uses the manager: one worker thread starts, stops and
      feeds sessions, and others poll; so the worker may treat its calls as atomic. */
  lemma OneWorkerIsAtomic<S>(codec: Codec<S>, default: BackendConfig, states: seq<L.State>, worker: nat)
      returns (served: seq<seq<Request>>)
    requires L.IsRun(states)
    requires forall i :: 0 <= i < |states| ==> OnlyPollsBut(states[i], worker)
    ensures |served| == |states| && Linearises(states, served) && SameMaps(codec, default, states, served)
  {
    forall i, k | 0 <= i < |states| ensures L.OneStarter(states[i], k) {
      assert OnlyPollsBut(states[i], worker);
    }
    served := RunsAreServed(codec, default, states);
  }
}
