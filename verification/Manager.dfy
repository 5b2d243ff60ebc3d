/** Transcription sessions: one decoder and one backend per stream, and the
    round-robin choice of a server. Outside events (a decoder that cannot be
    created, a refused connection, a failed send) are explicit arguments. */
module Manager {
  import opened Prelude
  import opened Decoder
  import opened Commands

  /** A connected backend: which connection it is, to which address, what it was
      sent, and the results waiting to be polled. */
  datatype Backend = Backend(id: nat, target: Option<string>, sent: seq<Pcm>, results: seq<Segment>)

  datatype Live<S> = Live(decoder: S, backend: Backend)

  datatype ManagerState<S> = ManagerState(sessions: map<Key, Live<S>>, nextIndex: nat, created: nat)

  function NoSessions<S>(): ManagerState<S> {
    ManagerState(map[], 0, 0)
  }

  /** What the world does to one start. */
  datatype StartEnv = StartEnv(decoderOk: bool, connectOk: bool)

  function Effective(default: BackendConfig, override: Option<BackendConfig>): BackendConfig {
    match override case Some(c) => c case None => default
  }

  /** The index moves with the default list, whatever configuration is used. */
  function NextIndex(default: BackendConfig, index: nat): nat {
    if default.SimulStreaming? && default.addresses != [] then (index + 1) % |default.addresses| else index
  }

  predicate CanConnect(config: BackendConfig, env: StartEnv) {
    && env.decoderOk
    && match config
       case NoBackend => false
       case SimulStreaming(addresses) => addresses != [] && env.connectOk
       case OpenAi(_, _, _) => true
  }

  function Target(config: BackendConfig, index: nat): Option<string> {
    if config.SimulStreaming? && config.addresses != [] then Some(config.addresses[index % |config.addresses|])
    else None
  }

  function AfterStart<S>(codec: Codec<S>, default: BackendConfig, m: ManagerState<S>,
                         k: Key, override: Option<BackendConfig>, env: StartEnv): (ManagerState<S>, bool) {
    if k in m.sessions then (m, true)
    else
      var config := Effective(default, override);
      var m' := m.(nextIndex := NextIndex(default, m.nextIndex));
      if !CanConnect(config, env) then (m', false)
      else
        var live := Live(codec.initial, Backend(m.created, Target(config, m.nextIndex), [], []));
        (m'.(sessions := m.sessions[k := live], created := m.created + 1), true)
  }

  function AfterStop<S>(m: ManagerState<S>, k: Key): ManagerState<S> {
    m.(sessions := m.sessions - {k})
  }

  /** A session decodes and then sends; a failed send loses the samples but not the decoder's progress. */
  function SessionAudio<S>(codec: Codec<S>, live: Live<S>, payload: seq<byte>, sendOk: bool): (Live<S>, bool) {
    var (d, pcm) := codec.step(live.decoder, payload);
    if pcm.None? || !sendOk then (live.(decoder := d), false)
    else (Live(d, live.backend.(sent := live.backend.sent + [pcm.value])), true)
  }

  function AfterAudio<S>(codec: Codec<S>, m: ManagerState<S>, k: Key, payload: seq<byte>, sendOk: bool)
    : (ManagerState<S>, bool)
  {
    if k !in m.sessions then (m, true)
    else
      var (live, ok) := SessionAudio(codec, m.sessions[k], payload, sendOk);
      (m.(sessions := m.sessions[k := live]), ok)
  }

  function Drained<S>(live: Live<S>): Live<S> {
    live.(backend := live.backend.(results := []))
  }

  function AfterPoll<S>(m: ManagerState<S>): ManagerState<S> {
    m.(sessions := map k | k in m.sessions :: Drained(m.sessions[k]))
  }

  function QueuedFor<S>(m: ManagerState<S>, k: Key): seq<Segment> {
    if k in m.sessions then m.sessions[k].backend.results else []
  }

  /** A backend of a live session puts a segment into the session's result channel. */
  function AfterProduce<S>(m: ManagerState<S>, k: Key, segment: Segment): ManagerState<S> {
    if k !in m.sessions then m
    else
      var live := m.sessions[k];
      m.(sessions := m.sessions[k := live.(backend := live.backend.(results := live.backend.results + [segment]))])
  }

  /** The segments of one stream in a list of poll results, in order. */
  function OfStream(results: seq<(Key, Segment)>, k: Key): seq<Segment> {
    if results == [] then []
    else
      var rest, last := OfStream(results[..|results| - 1], k), results[|results| - 1];
      if last.0 == k then rest + [last.1] else rest
  }

  lemma OfStreamSnoc(results: seq<(Key, Segment)>, last: (Key, Segment), k: Key)
    ensures OfStream(results + [last], k) == OfStream(results, k) + (if last.0 == k then [last.1] else [])
  {
    assert (results + [last])[..|results|] == results;
  }

  // ---------------------------------------------------------------- objects

  class TranscriptionSession<S(!new)> {
    const key: Key
    var decoder: S
    var backend: Backend

    ghost function State(): Live<S>
      reads this
    {
      Live(decoder, backend)
    }

    constructor (key: Key, codec: Codec<S>, backend: Backend)
      ensures this.key == key && State() == Live(codec.initial, backend)
    {
      this.key, this.decoder, this.backend := key, codec.initial, backend;
    }

    method ProcessAudio(codec: Codec<S>, payload: seq<byte>, sendOk: bool) returns (ok: bool)
      modifies this
      ensures (State(), ok) == SessionAudio(codec, old(State()), payload, sendOk)
    {
      var (d, pcm) := codec.step(decoder, payload);
      decoder := d;
      if pcm.None? || !sendOk {
        return false;
      }
      backend := backend.(sent := backend.sent + [pcm.value]);
      ok := true;
    }

    /** The backend's end of the result channel. */
    method Deposit(segment: Segment)
      modifies this`backend
      ensures backend == old(backend).(results := old(backend.results) + [segment])
    {
      backend := backend.(results := backend.results + [segment]);
    }

    method TryRecv() returns (segment: Option<Segment>)
      modifies this`backend
      ensures old(backend.results) == [] ==> segment.None? && backend == old(backend)
      ensures old(backend.results) != [] ==>
        && segment == Some(old(backend.results)[0])
        && backend == old(backend).(results := old(backend.results)[1..])
    {
      if backend.results == [] {
        return None;
      }
      segment := Some(backend.results[0]);
      backend := backend.(results := backend.results[1..]);
    }
  }

  class TranscriptionManager<S(!new)> {
    const codec: Codec<S>
    const config: BackendConfig
    var sessions: map<Key, TranscriptionSession<S>>
    var nextServerIndex: nat
    /** Numbers the connections, so that a backend's identity is visible in its value. */
    var created: nat

    /** Each stream has its own session object. */
    ghost predicate Valid()
      reads this
    {
      forall k :: k in sessions ==> sessions[k].key == k
    }

    ghost function State(): ManagerState<S>
      reads this, sessions.Values
    {
      ManagerState(map k | k in sessions :: sessions[k].State(), nextServerIndex, created)
    }

    constructor (codec: Codec<S>, config: BackendConfig)
      ensures Valid() && this.codec == codec && this.config == config
      ensures State() == NoSessions() && fresh(sessions.Values)
    {
      this.codec, this.config := codec, config;
      sessions, nextServerIndex, created := map[], 0, 0;
    }

    /** `TranscriptionSession::new`: null stands for the error result. */
    method OpenSession(k: Key, chosen: BackendConfig, serverIndex: nat, env: StartEnv)
      returns (session: TranscriptionSession?<S>)
      ensures session != null <==>
        env.decoderOk && (chosen.OpenAi? || (chosen.SimulStreaming? && chosen.addresses != [] && env.connectOk))
      ensures session != null ==>
        && fresh(session) && session.key == k
        && session.State() == Live(codec.initial, Backend(created, Target(chosen, serverIndex), [], []))
    {
      if !env.decoderOk {
        return null;
      }
      var target: Option<string> := None;
      match chosen {
        case NoBackend => return null;
        case SimulStreaming(addresses) =>
          if addresses == [] {
            return null;
          }
          target := Some(addresses[serverIndex % |addresses|]);
          if !env.connectOk {
            return null;
          }
        case OpenAi(_, _, _) =>
      }
      session := new TranscriptionSession(k, codec, Backend(created, target, [], []));
    }

    method StartSession(k: Key, override: Option<BackendConfig>, env: StartEnv) returns (ok: bool)
      requires Valid()
      modifies this
      ensures Valid() && fresh(sessions.Values - old(sessions.Values))
      ensures (State(), ok) == AfterStart(codec, config, old(State()), k, override, env)
      ensures k in State().sessions <==> ok
      ensures var chosen := if override.Some? then override.value else config;
        var opens := chosen.OpenAi? || (chosen.SimulStreaming? && chosen.addresses != [] && env.connectOk);
        ok <==> k in old(State()).sessions || (env.decoderOk && opens)
    {
      if k in sessions {
        return true;
      }
      var chosen := match override case Some(c) => c case None => config;
      var serverIndex := nextServerIndex;
      var session := OpenSession(k, chosen, serverIndex, env);
      if config.SimulStreaming? && config.addresses != [] {
        nextServerIndex := (nextServerIndex + 1) % |config.addresses|;
      }
      assert State().sessions == old(State()).sessions;
      if session == null {
        return false;
      }
      Adopt(k, session);
      ok := true;
    }

    method Adopt(k: Key, session: TranscriptionSession<S>)
      requires Valid() && session.key == k && session !in sessions.Values
      modifies this`sessions, this`created
      ensures Valid() && sessions.Values <= old(sessions.Values) + {session}
      ensures State() == old(State()).(sessions := old(State()).sessions[k := session.State()],
                                       created := old(created) + 1)
    {
      sessions := sessions[k := session];
      created := created + 1;
      assert State().sessions == old(State()).sessions[k := session.State()];
    }

    method StopSession(k: Key)
      requires Valid()
      modifies this
      ensures Valid() && sessions.Values <= old(sessions.Values)
      ensures State() == AfterStop(old(State()), k)
    {
      sessions := sessions - {k};
    }

    method ProcessAudio(k: Key, payload: seq<byte>, sendOk: bool) returns (ok: bool)
      requires Valid()
      modifies sessions.Values
      ensures Valid()
      ensures (State(), ok) == AfterAudio(codec, old(State()), k, payload, sendOk)
    {
      if k !in sessions {
        return true;
      }
      assert sessions[k] in sessions.Values;
      ok := sessions[k].ProcessAudio(codec, payload, sendOk);
      assert forall j :: j in sessions && j != k ==> sessions[j] != sessions[k];
      assert State().sessions == old(State()).sessions[k := sessions[k].State()];
    }

    /** Empties one session's queue onto the end of the results. */
    method DrainSession(k: Key, session: TranscriptionSession<S>, results: seq<(Key, Segment)>)
      returns (more: seq<(Key, Segment)>)
      modifies session
      ensures session.State() == Drained(old(session.State()))
      ensures OfStream(more, k) == OfStream(results, k) + old(session.backend.results)
      ensures forall j :: j != k ==> OfStream(more, j) == OfStream(results, j)
    {
      more := results;
      ghost var taken: seq<Segment> := [];
      var segment := session.TryRecv();
      while segment.Some?
        invariant session.decoder == old(session.decoder)
        invariant session.backend == old(session.backend).(results := session.backend.results)
        invariant old(session.backend.results) ==
          taken + (if segment.Some? then [segment.value] else []) + session.backend.results
        invariant segment.None? ==> session.backend.results == []
        invariant OfStream(more, k) == OfStream(results, k) + taken
        invariant forall j :: j != k ==> OfStream(more, j) == OfStream(results, j)
        decreases |session.backend.results| + (if segment.Some? then 1 else 0)
      {
        forall j ensures OfStream(more + [(k, segment.value)], j)
            == OfStream(more, j) + (if j == k then [segment.value] else [])
        {
          OfStreamSnoc(more, (k, segment.value), j);
        }
        more := more + [(k, segment.value)];
        taken := taken + [segment.value];
        segment := session.TryRecv();
      }
    }

    /** Polling, part-way: the streams in `todo` are still as they were in `before`. */
    ghost predicate Polled(before: ManagerState<S>, todo: set<Key>, results: seq<(Key, Segment)>)
      reads this, sessions.Values
    {
      && sessions.Keys == before.sessions.Keys && todo <= sessions.Keys
      && (forall k :: k in sessions ==>
            sessions[k].State() == if k in todo then before.sessions[k] else Drained(before.sessions[k]))
      && (forall k :: OfStream(results, k) == (if k in todo then [] else QueuedFor(before, k)))
    }

    method PollOne(k: Key, ghost before: ManagerState<S>, ghost todo: set<Key>, results: seq<(Key, Segment)>)
      returns (more: seq<(Key, Segment)>)
      requires Valid() && k in todo && Polled(before, todo, results)
      modifies sessions.Values
      ensures Polled(before, todo - {k}, more)
    {
      assert sessions[k] in sessions.Values;
      assert forall j :: j in sessions && j != k ==> sessions[j] != sessions[k];
      more := DrainSession(k, sessions[k], results);
      assert [] + before.sessions[k].backend.results == before.sessions[k].backend.results;
    }

    /** Visits the sessions in any order. Each queued segment comes out once, under
        its own stream, in its backend's order; nothing else is touched. */
    method PollResults() returns (results: seq<(Key, Segment)>)
      requires Valid()
      modifies sessions.Values
      ensures Valid()
      ensures State() == AfterPoll(old(State()))
      ensures forall k :: OfStream(results, k) == QueuedFor(old(State()), k)
    {
      results := [];
      var todo := sessions.Keys;
      ghost var before := State();
      while todo != {}
        invariant Polled(before, todo, results)
        decreases todo
      {
        var k :| k in todo;
        results := PollOne(k, before, todo, results);
        todo := todo - {k};
      }
      assert State().sessions == AfterPoll(before).sessions;
    }
  }

  // ------------------------------------------------------------- round robin

  datatype Request =
    | Start(key: Key, override: Option<BackendConfig>, env: StartEnv)
    | Stop(key: Key)
    | Hear(key: Key, payload: seq<byte>, sendOk: bool)
    | Poll
    | Produce(key: Key, segment: Segment)

  function Serve<S>(codec: Codec<S>, default: BackendConfig, m: ManagerState<S>, r: Request): ManagerState<S> {
    match r
    case Start(k, override, env) => AfterStart(codec, default, m, k, override, env).0
    case Stop(k) => AfterStop(m, k)
    case Hear(k, payload, sendOk) => AfterAudio(codec, m, k, payload, sendOk).0
    case Poll => AfterPoll(m)
    case Produce(k, segment) => AfterProduce(m, k, segment)
  }

  function ServeAll<S>(codec: Codec<S>, default: BackendConfig, rs: seq<Request>): ManagerState<S> {
    if rs == [] then NoSessions() else Serve(codec, default, ServeAll(codec, default, rs[..|rs| - 1]), rs[|rs| - 1])
  }

  /** The server index handed to each non-duplicate start attempt, in order. */
  function Issued<S>(codec: Codec<S>, default: BackendConfig, rs: seq<Request>): seq<nat> {
    if rs == [] then []
    else
      var init, r := rs[..|rs| - 1], rs[|rs| - 1];
      var m := ServeAll(codec, default, init);
      Issued(codec, default, init) + (if r.Start? && r.key !in m.sessions then [m.nextIndex] else [])
  }

  /** When a start succeeds: after any history, a start of a stream that is not live makes
      it live, and is reported as a success, exactly if its decoder can be created and the
      configuration in effect is OpenAI, or a list of servers that is not empty and whose
      connection is accepted. Otherwise the sessions stay as they were; no start touches
      another stream's session, and a start of a live stream succeeds without doing anything. */
  lemma StartSucceedsIff<S>(codec: Codec<S>, default: BackendConfig, rs: seq<Request>,
                            k: Key, override: Option<BackendConfig>, env: StartEnv)
    ensures var before, after := ServeAll(codec, default, rs), ServeAll(codec, default, rs + [Start(k, override, env)]);
      var ok := AfterStart(codec, default, before, k, override, env).1;
      var config := if override.Some? then override.value else default;
      if k in before.sessions then after == before && ok
      else
        && (ok <==> k in after.sessions)
        && (ok <==>
              env.decoderOk && (config.OpenAi? || (config.SimulStreaming? && config.addresses != [] && env.connectOk)))
        && (!ok ==> after.sessions == before.sessions)
        && (ok ==> after.sessions == before.sessions[k := after.sessions[k]])
  {
    assert (rs + [Start(k, override, env)])[..|rs|] == rs;
  }

  /** What audio is reported as: for a live stream a success exactly if its backend was
      sent one more piece, for any other always. */
  lemma AudioReport<S>(codec: Codec<S>, m: ManagerState<S>, k: Key, payload: seq<byte>, sendOk: bool)
    ensures var (m', ok) := AfterAudio(codec, m, k, payload, sendOk);
      && m'.sessions.Keys == m.sessions.Keys && (k !in m.sessions ==> ok && m' == m)
      && (k in m.sessions ==>
            var sent, sent' := m.sessions[k].backend.sent, m'.sessions[k].backend.sent;
            if ok then |sent'| == |sent| + 1 && sent <= sent' else sent' == sent)
  {
  }

  /** A history without its polls and its results. */
  function AudioOnly(rs: seq<Request>): seq<Request> {
    if rs == [] then []
    else
      var rest, r := AudioOnly(rs[..|rs| - 1]), rs[|rs| - 1];
      if r.Poll? || r.Produce? then rest else rest + [r]
  }

  ghost predicate SameSession<S>(a: Live<S>, b: Live<S>) {
    && a.decoder == b.decoder && a.backend.id == b.backend.id && a.backend.target == b.backend.target
    && a.backend.sent == b.backend.sent
  }

  /** The same but for the results that wait to be polled. */
  ghost predicate SameButResults<S>(m: ManagerState<S>, n: ManagerState<S>) {
    && m.nextIndex == n.nextIndex && m.created == n.created && m.sessions.Keys == n.sessions.Keys
    && forall k :: k in m.sessions ==> SameSession(m.sessions[k], n.sessions[k])
  }

  lemma QuietRequest<S>(codec: Codec<S>, default: BackendConfig, m: ManagerState<S>, n: ManagerState<S>, r: Request)
    requires SameButResults(m, n) && (r.Poll? || r.Produce?)
    ensures SameButResults(Serve(codec, default, m, r), n)
  {
  }

  lemma SameRequest<S>(codec: Codec<S>, default: BackendConfig, m: ManagerState<S>, n: ManagerState<S>, r: Request)
    requires SameButResults(m, n) && !r.Poll? && !r.Produce?
    ensures SameButResults(Serve(codec, default, m, r), Serve(codec, default, n, r))
  {
    match r
    case Hear(k, payload, sendOk) =>
      if k in m.sessions {
        assert SameSession(m.sessions[k], n.sessions[k]);
      }
    case _ =>
  }

  /** Results are one thing and audio another: polling and producing, however often,
      change no decoder, no connection and nothing that any backend is sent. */
  lemma {:induction false} PollsTouchOnlyResults<S>(codec: Codec<S>, default: BackendConfig, rs: seq<Request>)
    ensures SameButResults(ServeAll(codec, default, rs), ServeAll(codec, default, AudioOnly(rs)))
    decreases |rs|
  {
    if rs != [] {
      var init, r := rs[..|rs| - 1], rs[|rs| - 1];
      PollsTouchOnlyResults(codec, default, init);
      var m, n := ServeAll(codec, default, init), ServeAll(codec, default, AudioOnly(init));
      if r.Poll? || r.Produce? {
        QuietRequest(codec, default, m, n, r);
      } else {
        SameRequest(codec, default, m, n, r);
        assert (AudioOnly(init) + [r])[..|AudioOnly(init)|] == AudioOnly(init);
      }
    }
  }

  lemma {:induction false} Successor(k: nat, n: nat)
    requires n > 0
    ensures k % n + 1 < n ==> (k + 1) / n == k / n && (k + 1) % n == k % n + 1
    ensures k % n + 1 == n ==> (k + 1) / n == k / n + 1 && (k + 1) % n == 0
    ensures k % n < n
  {
    var q, r := k / n, k % n;
    assert k == n * q + r;
    if r + 1 < n {
      DivUnique(k + 1, n, q, r + 1);
    } else {
      assert (q + 1) * n == n * q + n;
      DivUnique(k + 1, n, q + 1, 0);
    }
  }

  lemma {:induction false} ModSuccessor(k: nat, n: nat)
    requires n > 0
    ensures (k % n + 1) % n == (k + 1) % n
  {
    Successor(k, n);
    if k % n + 1 < n {
      DivUnique(k % n + 1, n, 0, k % n + 1);
    } else {
      DivUnique(n, n, 1, 0);
    }
  }

  /** The k-th attempt gets index k mod n, whether or not it has an override and
      whether or not it then fails. */
  lemma {:induction false} RoundRobin<S>(codec: Codec<S>, addresses: seq<string>, rs: seq<Request>)
    requires addresses != []
    ensures var default := SimulStreaming(addresses);
      var issued := Issued(codec, default, rs);
      && (forall i :: 0 <= i < |issued| ==> issued[i] == i % |addresses|)
      && ServeAll(codec, default, rs).nextIndex == |issued| % |addresses|
    decreases |rs|
  {
    if rs == [] {
      DivUnique(0, |addresses|, 0, 0);
    } else {
      RoundRobin(codec, addresses, rs[..|rs| - 1]);
      ModSuccessor(|Issued(codec, SimulStreaming(addresses), rs[..|rs| - 1])|, |addresses|);
    }
  }

  /** So the address a new session connects to is fixed by how many attempts came
      before it, taken within its own configuration's list; it starts with a fresh
      decoder and nothing sent. */
  lemma {:induction false} RoundRobinTarget<S>(codec: Codec<S>, addresses: seq<string>,
                                              rs: seq<Request>, start: Request)
    requires addresses != [] && start.Start?
    requires start.key !in ServeAll(codec, SimulStreaming(addresses), rs).sessions
    requires start.override.Some? ==> start.override.value.SimulStreaming? && start.override.value.addresses != []
    requires start.env == StartEnv(true, true)
    ensures var default := SimulStreaming(addresses);
      var list := if start.override.Some? then start.override.value.addresses else addresses;
      var turn := |Issued(codec, default, rs)| % |addresses|;
      var m := ServeAll(codec, default, rs + [start]);
      && start.key in m.sessions
      && m.sessions[start.key].backend.target == Some(list[turn % |list|])
      && m.sessions[start.key].backend.sent == [] && m.sessions[start.key].decoder == codec.initial
  {
    assert (rs + [start])[..|rs|] == rs;
    RoundRobin(codec, addresses, rs);
  }

  /** With any other default, every attempt gets index 0. */
  lemma {:induction false} NoRotationWithoutDefaultList<S>(codec: Codec<S>, default: BackendConfig, rs: seq<Request>)
    requires default.SimulStreaming? ==> default.addresses == []
    ensures ServeAll(codec, default, rs).nextIndex == 0
    ensures forall i :: 0 <= i < |Issued(codec, default, rs)| ==> Issued(codec, default, rs)[i] == 0
    decreases |rs|
  {
    if rs != [] {
      NoRotationWithoutDefaultList(codec, default, rs[..|rs| - 1]);
    }
  }

  /** So an override's list is never balanced: after any history each new session
      of an overriding list connects to its first server. */
  lemma {:induction false} FirstServerWithoutDefaultList<S>(codec: Codec<S>, default: BackendConfig,
                                                           rs: seq<Request>, start: Request)
    requires default.SimulStreaming? ==> default.addresses == []
    requires start.Start? && start.key !in ServeAll(codec, default, rs).sessions && start.env == StartEnv(true, true)
    requires Effective(default, start.override).SimulStreaming? && Effective(default, start.override).addresses != []
    ensures var m := ServeAll(codec, default, rs + [start]);
      && start.key in m.sessions
      && m.sessions[start.key].backend.target == Some(Effective(default, start.override).addresses[0])
  {
    assert (rs + [start])[..|rs|] == rs;
    NoRotationWithoutDefaultList(codec, default, rs);
    DivUnique(0, |Effective(default, start.override).addresses|, 0, 0);
  }

  function Count(s: seq<nat>, v: nat): nat {
    if s == [] then 0 else Count(s[..|s| - 1], v) + (if s[|s| - 1] == v then 1 else 0)
  }

  /** How often v occurs among 0 % n, 1 % n, ..., (m - 1) % n. */
  function Share(m: nat, n: nat, v: nat): nat
    requires n > 0
  {
    m / n + (if v < m % n then 1 else 0)
  }

  lemma {:induction false} ShareSuccessor(m: nat, n: nat, v: nat)
    requires n > 0 && v < n
    ensures Share(m + 1, n, v) == Share(m, n, v) + (if m % n == v then 1 else 0)
  {
    Successor(m, n);
  }

  lemma {:induction false} CountOfResidues(s: seq<nat>, n: nat, v: nat)
    requires n > 0 && v < n && (forall i :: 0 <= i < |s| ==> s[i] == i % n)
    ensures Count(s, v) == Share(|s|, n, v)
    decreases |s|
  {
    if s == [] {
      DivUnique(0, n, 0, 0);
    } else {
      CountOfResidues(s[..|s| - 1], n, v);
      ShareSuccessor(|s| - 1, n, v);
    }
  }

  /** After any history the servers' shares differ by at most one. */
  lemma RoundRobinBalance<S>(codec: Codec<S>, addresses: seq<string>, rs: seq<Request>, v: nat, w: nat)
    requires v < |addresses| && w < |addresses|
    ensures var issued := Issued(codec, SimulStreaming(addresses), rs);
      Count(issued, v) <= Count(issued, w) + 1
  {
    RoundRobin(codec, addresses, rs);
    var issued := Issued(codec, SimulStreaming(addresses), rs);
    CountOfResidues(issued, |addresses|, v);
    CountOfResidues(issued, |addresses|, w);
  }
}
