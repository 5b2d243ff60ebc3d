/** The manager's locking: a reader-writer lock on the session map, a mutex on the
    server index and one mutex per session object. Each acquisition and each
    release is one step; any number of threads run any number of operations. */
module ManagerLocks {
  import opened Prelude

  datatype Op = StartOp(key: Key) | StopOp(key: Key) | AudioOp(key: Key) | PollOp

  /** Where a thread stands. Sessions are named by the number of their object. */
  datatype Pc =
    | WantRead(op: Op)
    | Checking(key: Key)
    | WantIndex(key: Key)
    | HoldIndex(key: Key)
    | Opening(key: Key)
    | WantWrite(op: Op)
    | Writing(op: Op)
    | Looking(key: Key)
    | WantMutex(session: nat)
    | HoldMutex(session: nat)
    | Polling(todo: seq<nat>)
    | Draining(todo: seq<nat>)
    | Idle

  datatype State = State(
    threads: map<nat, Pc>,
    sessions: map<Key, nat>,
    created: nat,
    readers: set<nat>,
    writer: Option<nat>,
    index: Option<nat>,
    owners: map<nat, nat>)

  /** What a step needs to be told: whether a session opens, and in which order a
      poll visits the sessions. */
  datatype Choice = Choice(opens: bool, listing: seq<nat>)

  function Entry(op: Op): Pc {
    if op.StopOp? then WantWrite(op) else WantRead(op)
  }

  predicate HoldsRead(pc: Pc) {
    pc.Checking? || pc.Looking? || pc.Polling? || pc.Draining?
  }

  function MutexHeld(pc: Pc): Option<nat> {
    match pc
    case HoldMutex(m) => Some(m)
    case Draining(todo) => if todo == [] then None else Some(todo[0])
    case _ => None
  }

  predicate NoWriterWaits(s: State) {
    forall t :: t in s.threads ==> !s.threads[t].WantWrite?
  }

  /** Thread t can take its next step. Under the strict policy a waiting writer
      keeps new readers out. */
  predicate Enabled(s: State, t: nat, strict: bool) {
    && t in s.threads
    && match s.threads[t]
       case WantRead(_) => s.writer.None? && (strict ==> NoWriterWaits(s))
       case WantWrite(_) => s.writer.None? && s.readers == {}
       case WantIndex(_) => s.index.None?
       case WantMutex(m) => m !in s.owners
       case Polling(todo) => todo != [] ==> todo[0] !in s.owners
       case Idle => false
       case _ => true
  }

  function Goto(s: State, t: nat, pc: Pc): State {
    s.(threads := s.threads[t := pc])
  }

  function AfterRead(op: Op, c: Choice): Pc {
    match op
    case StartOp(k) => Checking(k)
    case AudioOp(k) => Looking(k)
    case _ => Polling(c.listing)
  }

  function Move(s: State, t: nat, c: Choice): State
    requires Enabled(s, t, false)
  {
    match s.threads[t]
    case WantRead(op) => Goto(s.(readers := s.readers + {t}), t, AfterRead(op, c))
    case Checking(k) =>
      Goto(s.(readers := s.readers - {t}), t, if k in s.sessions then Idle else WantIndex(k))
    case WantIndex(k) => Goto(s.(index := Some(t)), t, HoldIndex(k))
    case HoldIndex(k) => Goto(s.(index := None), t, Opening(k))
    case Opening(k) => Goto(s, t, if c.opens then WantWrite(StartOp(k)) else Idle)
    case WantWrite(op) => Goto(s.(writer := Some(t)), t, Writing(op))
    case Writing(op) =>
      Goto(match op
           case StartOp(k) => s.(writer := None, sessions := s.sessions[k := s.created], created := s.created + 1)
           case StopOp(k) => s.(writer := None, sessions := s.sessions - {k})
           case _ => s.(writer := None), t, Idle)
    case Looking(k) =>
      Goto(s.(readers := s.readers - {t}), t, if k in s.sessions then WantMutex(s.sessions[k]) else Idle)
    case WantMutex(m) => Goto(s.(owners := s.owners[m := t]), t, HoldMutex(m))
    case HoldMutex(m) => Goto(s.(owners := s.owners - {m}), t, Idle)
    case Polling(todo) =>
      if todo == [] then Goto(s.(readers := s.readers - {t}), t, Idle)
      else Goto(s.(owners := s.owners[todo[0] := t]), t, Draining(todo))
    case Draining(todo) =>
      if todo == [] then Goto(s, t, Polling([])) else Goto(s.(owners := s.owners - {todo[0]}), t, Polling(todo[1..]))
    case Idle => s
  }

  /** A thread that is not busy may begin any operation. */
  predicate CanBegin(s: State, t: nat) {
    t in s.threads ==> s.threads[t].Idle?
  }

  function Begin(s: State, t: nat, op: Op): State {
    Goto(s, t, Entry(op))
  }

  /** Any admission policy between fair and reader-preferring is allowed in a run. */
  ghost predicate Next(s: State, s': State) {
    || (exists t, c :: Enabled(s, t, false) && s' == Move(s, t, c))
    || (exists t, op :: CanBegin(s, t) && s' == Begin(s, t, op))
  }

  const START := State(map[], map[], 0, {}, None, None, map[])

  ghost predicate IsRun(states: seq<State>) {
    && states != [] && states[0] == START
    && forall i :: 0 <= i < |states| - 1 ==> Next(states[i], states[i + 1])
  }

  /** Locks are held exactly by the threads whose position says so, and the map
      lock is never held for writing together with anyone else. */
  predicate ReadersRight(s: State) {
    && (forall t :: t in s.readers ==> t in s.threads)
    && (forall t :: t in s.threads ==> (t in s.readers <==> HoldsRead(s.threads[t])))
  }

  predicate WriterRight(s: State) {
    && (s.writer.Some? ==> s.writer.value in s.threads && s.threads[s.writer.value].Writing? && s.readers == {})
    && (forall t :: t in s.threads && s.threads[t].Writing? ==> s.writer == Some(t))
  }

  predicate IndexRight(s: State) {
    && (s.index.Some? ==> s.index.value in s.threads && s.threads[s.index.value].HoldIndex?)
    && (forall t :: t in s.threads && s.threads[t].HoldIndex? ==> s.index == Some(t))
  }

  predicate OwnersRight(s: State) {
    && (forall m :: m in s.owners ==> s.owners[m] in s.threads && MutexHeld(s.threads[s.owners[m]]) == Some(m))
    && (forall t :: t in s.threads && MutexHeld(s.threads[t]).Some? ==>
          MutexHeld(s.threads[t]).value in s.owners && s.owners[MutexHeld(s.threads[t]).value] == t)
  }

  predicate Inv(s: State) {
    ReadersRight(s) && WriterRight(s) && IndexRight(s) && OwnersRight(s)
  }

  lemma MoveKeepsReaders(s: State, t: nat, c: Choice)
    requires ReadersRight(s) && Enabled(s, t, false)
    ensures ReadersRight(Move(s, t, c))
  {
  }

  lemma MoveKeepsWriter(s: State, t: nat, c: Choice)
    requires ReadersRight(s) && WriterRight(s) && Enabled(s, t, false)
    ensures WriterRight(Move(s, t, c))
  {
  }

  lemma MoveKeepsIndex(s: State, t: nat, c: Choice)
    requires IndexRight(s) && Enabled(s, t, false)
    ensures IndexRight(Move(s, t, c))
  {
  }

  lemma TakeKeepsOwners(s: State, t: nat, m: nat, pc: Pc)
    requires OwnersRight(s) && t in s.threads && m !in s.owners
    requires MutexHeld(s.threads[t]).None? && MutexHeld(pc) == Some(m)
    ensures OwnersRight(Goto(s.(owners := s.owners[m := t]), t, pc))
  {
  }

  lemma DropKeepsOwners(s: State, t: nat, m: nat, pc: Pc)
    requires OwnersRight(s) && t in s.threads
    requires MutexHeld(s.threads[t]) == Some(m) && MutexHeld(pc).None?
    ensures OwnersRight(Goto(s.(owners := s.owners - {m}), t, pc))
  {
    var s' := Goto(s.(owners := s.owners - {m}), t, pc);
    forall u | u in s'.threads && MutexHeld(s'.threads[u]).Some?
      ensures MutexHeld(s'.threads[u]).value in s'.owners && s'.owners[MutexHeld(s'.threads[u]).value] == u
    {
      assert u != t && MutexHeld(s.threads[u]).Some?;
      assert s.owners[m] == t;
    }
  }

  lemma OtherKeepsOwners(s: State, s': State, t: nat)
    requires OwnersRight(s) && t in s.threads && MutexHeld(s.threads[t]).None?
    requires t in s'.threads && MutexHeld(s'.threads[t]).None?
    requires s'.owners == s.owners && s'.threads == s.threads[t := s'.threads[t]]
    ensures OwnersRight(s')
  {
  }

  lemma MoveKeepsOwners(s: State, t: nat, c: Choice)
    requires OwnersRight(s) && Enabled(s, t, false)
    ensures OwnersRight(Move(s, t, c))
  {
    match s.threads[t]
    case WantMutex(m) => TakeKeepsOwners(s, t, m, HoldMutex(m));
    case HoldMutex(m) => DropKeepsOwners(s, t, m, Idle);
    case Polling(todo) =>
      if todo == [] {
        OtherKeepsOwners(s, Move(s, t, c), t);
      } else {
        TakeKeepsOwners(s, t, todo[0], Draining(todo));
      }
    case Draining(todo) =>
      if todo == [] {
        OtherKeepsOwners(s, Move(s, t, c), t);
      } else {
        DropKeepsOwners(s, t, todo[0], Polling(todo[1..]));
      }
    case _ => OtherKeepsOwners(s, Move(s, t, c), t);
  }

  lemma {:induction false} NextKeepsInv(s: State, s': State)
    requires Inv(s) && Next(s, s')
    ensures Inv(s')
  {
    if t, c :| Enabled(s, t, false) && s' == Move(s, t, c) {
      MoveKeepsReaders(s, t, c);
      MoveKeepsWriter(s, t, c);
      MoveKeepsIndex(s, t, c);
      MoveKeepsOwners(s, t, c);
    }
  }

  lemma {:induction false} RunInv(states: seq<State>, n: nat)
    requires IsRun(states) && n < |states|
    ensures Inv(states[n])
  {
    if n > 0 {
      RunInv(states, n - 1);
      assert Next(states[n - 1], states[n - 1 + 1]);
      NextKeepsInv(states[n - 1], states[n]);
    }
  }

  // ------------------------------------------------------- deadlock freedom

  /** Positions from which a step is always possible. */
  predicate Free(pc: Pc) {
    || pc.Checking? || pc.HoldIndex? || pc.Opening? || pc.Writing? || pc.Looking?
    || pc.HoldMutex? || pc.Draining? || pc == Polling([])
  }

  lemma SomeoneCanMove(s: State, t: nat)
    requires Inv(s) && t in s.threads && !s.threads[t].Idle?
    ensures exists u :: Enabled(s, u, true)
  {
    if u :| u in s.threads && Free(s.threads[u]) {
      assert Enabled(s, u, true);
    } else {
      assert s.writer.None? && s.index.None?;
      assert forall m :: m !in s.owners;
      if u :| u in s.threads && (s.threads[u].Polling? || s.threads[u].WantIndex? || s.threads[u].WantMutex?) {
        assert Enabled(s, u, true);
      } else {
        assert s.readers == {};
        if u :| u in s.threads && s.threads[u].WantWrite? {
          assert Enabled(s, u, true);
        } else {
          assert Enabled(s, t, true);
        }
      }
    }
  }

  /** No deadlock: in every reachable state with an unfinished operation some
      thread can step, even if waiting writers keep new readers out. */
  lemma DeadlockFree(states: seq<State>, n: nat, t: nat)
    requires IsRun(states) && n < |states|
    requires t in states[n].threads && !states[n].threads[t].Idle?
    ensures exists u :: Enabled(states[n], u, true)
  {
    RunInv(states, n);
    SomeoneCanMove(states[n], t);
  }

  /** The lock order behind it: whoever owns a session's mutex or the index is
      never waiting for the session map. */
  lemma LockOrder(states: seq<State>, n: nat, t: nat)
    requires IsRun(states) && n < |states| && t in states[n].threads
    requires states[n].index == Some(t) || exists m :: m in states[n].owners && states[n].owners[m] == t
    ensures !states[n].threads[t].WantRead? && !states[n].threads[t].WantWrite?
  {
    RunInv(states, n);
  }

  // ---------------------------------------------------- one starter or several

  /** The stream a thread is starting, once it has seen that it was not live. */
  function Committed(pc: Pc): Option<Key> {
    match pc
    case WantIndex(k) => Some(k)
    case HoldIndex(k) => Some(k)
    case Opening(k) => Some(k)
    case WantWrite(StartOp(k)) => Some(k)
    case Writing(StartOp(k)) => Some(k)
    case _ => None
  }

  function StartingKey(pc: Pc): Option<Key> {
    match pc
    case WantRead(StartOp(k)) => Some(k)
    case Checking(k) => Some(k)
    case _ => Committed(pc)
  }

  /** No two threads start stream k at the same time. */
  predicate OneStarter(s: State, k: Key) {
    forall t, u :: t in s.threads && u in s.threads && t != u ==>
      StartingKey(s.threads[t]) != Some(k) || StartingKey(s.threads[u]) != Some(k)
  }

  predicate CommittedAbsent(s: State, k: Key) {
    forall t :: t in s.threads && Committed(s.threads[t]) == Some(k) ==> k !in s.sessions
  }

  /** What a move does to the session map: only a writer changes it, at its own key. */
  lemma MoveChangesSessions(s: State, t: nat, c: Choice)
    requires Enabled(s, t, false)
    ensures var s', pc := Move(s, t, c), s.threads[t];
      && t in s'.threads && s'.threads == s.threads[t := s'.threads[t]]
      && s'.sessions == (if pc.Writing? && pc.op.StartOp? then s.sessions[pc.op.key := s.created]
                         else if pc.Writing? && pc.op.StopOp? then s.sessions - {pc.op.key}
                         else s.sessions)
      && (Committed(s'.threads[t]).Some? && Committed(pc) != Committed(s'.threads[t]) ==>
            pc.Checking? && Committed(s'.threads[t]) == Some(pc.key) && pc.key !in s.sessions)
      && (pc.Writing? ==> s'.threads[t].Idle?)
  {
  }

  lemma MoveKeepsAbsent(s: State, t: nat, c: Choice, k: Key)
    requires CommittedAbsent(s, k) && OneStarter(s, k) && Enabled(s, t, false)
    ensures CommittedAbsent(Move(s, t, c), k)
    ensures k in s.sessions && k in Move(s, t, c).sessions ==> Move(s, t, c).sessions[k] == s.sessions[k]
  {
    MoveChangesSessions(s, t, c);
    var s', pc := Move(s, t, c), s.threads[t];
    if pc.Writing? && pc.op.StartOp? {
      assert Committed(pc) == Some(pc.op.key);
    }
    forall u | u in s'.threads && Committed(s'.threads[u]) == Some(k) ensures k !in s'.sessions {
      if u != t {
        assert s'.threads[u] == s.threads[u] && StartingKey(s.threads[u]) == Some(k);
        assert StartingKey(s.threads[t]) != Some(k);
      }
    }
  }

  lemma NextKeepsAbsent(s: State, s': State, k: Key)
    requires CommittedAbsent(s, k) && OneStarter(s, k) && Next(s, s')
    ensures CommittedAbsent(s', k)
    ensures k in s.sessions && k in s'.sessions ==> s'.sessions[k] == s.sessions[k]
  {
    if t, c :| Enabled(s, t, false) && s' == Move(s, t, c) {
      MoveKeepsAbsent(s, t, c, k);
    }
  }

  lemma {:induction false} AbsentThroughout(states: seq<State>, n: nat, k: Key)
    requires IsRun(states) && n < |states|
    requires forall i :: 0 <= i < n ==> OneStarter(states[i], k)
    ensures CommittedAbsent(states[n], k)
  {
    if n > 0 {
      AbsentThroughout(states, n - 1, k);
      assert Next(states[n - 1], states[n - 1 + 1]);
      NextKeepsAbsent(states[n - 1], states[n], k);
    }
  }

  /** As long as no two threads start this stream at once, whatever happens to other
      streams, its live session object is never replaced: between any two states of a
      run in which the stream stays live, it is the same object. */
  lemma {:induction false} OneStarterIsStable(states: seq<State>, m: nat, n: nat, k: Key)
    requires IsRun(states) && m <= n < |states|
    requires forall i :: 0 <= i < n ==> OneStarter(states[i], k)
    requires forall i :: m <= i <= n ==> k in states[i].sessions
    ensures states[n].sessions[k] == states[m].sessions[k]
    decreases n
  {
    if m < n {
      AbsentThroughout(states, n - 1, k);
      OneStarterIsStable(states, m, n - 1, k);
      assert Next(states[n - 1], states[n - 1 + 1]);
      NextKeepsAbsent(states[n - 1], states[n], k);
    }
  }

  // ------------------------------------------------------- two starters at once

  /** A run extended by one step is a run. */
  lemma Extend(states: seq<State>, s': State)
    requires IsRun(states) && Next(states[|states| - 1], s')
    ensures IsRun(states + [s'])
  {
    var all := states + [s'];
    forall i | 0 <= i < |all| - 1 ensures Next(all[i], all[i + 1]) {
      if i < |states| - 1 {
        assert Next(states[i], states[i + 1]);
      }
    }
  }

  lemma Extended(states: seq<State>, t: nat, c: Choice) returns (longer: seq<State>)
    requires IsRun(states) && Enabled(states[|states| - 1], t, false)
    ensures IsRun(longer) && states <= longer && |longer| == |states| + 1
    ensures longer[|longer| - 1] == Move(states[|states| - 1], t, c)
  {
    var s' := Move(states[|states| - 1], t, c);
    Extend(states, s');
    longer := states + [s'];
  }

  /** No writer, the same sessions, and whoever was committed to a start still is. */
  predicate Settles(s: State, s': State) {
    && s'.writer.None? && s'.sessions == s.sessions && s'.created == s.created
    && forall t :: t in s.threads && Committed(s.threads[t]).Some? ==>
         t in s'.threads && Committed(s'.threads[t]) == Committed(s.threads[t])
  }

  lemma OwnerReleases(s: State, m: nat)
    requires Inv(s) && s.writer.None? && m in s.owners
    ensures var t := s.owners[m];
      && Enabled(s, t, false)
      && var s' := Move(s, t, Choice(true, []));
         Settles(s, s') && s'.owners == s.owners - {m} && s'.readers == s.readers && s'.index == s.index
  {
  }

  lemma ReleaseOneOwner(states: seq<State>, m: nat) returns (longer: seq<State>)
    requires IsRun(states)
    requires var s := states[|states| - 1]; s.writer.None? && m in s.owners
    ensures IsRun(longer) && states <= longer
    ensures var s, s' := states[|states| - 1], longer[|longer| - 1]; Settles(s, s') && s'.owners == s.owners - {m}
  {
    RunInv(states, |states| - 1);
    OwnerReleases(states[|states| - 1], m);
    longer := Extended(states, states[|states| - 1].owners[m], Choice(true, []));
  }

  lemma {:induction false} ReleaseOwners(states: seq<State>) returns (longer: seq<State>)
    requires IsRun(states) && states[|states| - 1].writer.None?
    ensures IsRun(longer) && states <= longer
    ensures var s, s' := states[|states| - 1], longer[|longer| - 1]; Settles(s, s') && s'.owners == map[]
    decreases states[|states| - 1].owners.Keys
  {
    var s := states[|states| - 1];
    if s.owners == map[] {
      longer := states;
    } else {
      var m :| m in s.owners;
      longer := ReleaseOneOwner(states, m);
      longer := ReleaseOwners(longer);
    }
  }

  /** How far a reader is from releasing the map. */
  function ReaderSteps(pc: Pc): nat {
    match pc
    case Polling(todo) => 2 * |todo|
    case Draining(todo) => if todo == [] then 1 else 2 * |todo| - 1
    case _ => 0
  }

  lemma SoleOwner(s: State, t: nat)
    requires OwnersRight(s) && t in s.threads && (forall m :: m in s.owners ==> s.owners[m] == t)
    ensures s.owners == if MutexHeld(s.threads[t]).None? then map[] else map[MutexHeld(s.threads[t]).value := t]
  {
  }

  /** A reader's step while nobody else holds a session's mutex. */
  lemma ReaderAdvances(s: State, t: nat)
    requires Inv(s) && s.writer.None? && t in s.readers && (forall m :: m in s.owners ==> s.owners[m] == t)
    ensures Enabled(s, t, false)
    ensures var s' := Move(s, t, Choice(true, []));
      && Settles(s, s') && s'.index == s.index
      && (forall m :: m in s'.owners ==> s'.owners[m] == t)
      && t in s'.threads
      && (s'.readers == s.readers - {t} ||
            (s'.readers == s.readers && ReaderSteps(s'.threads[t]) < ReaderSteps(s.threads[t])))
      && (s'.readers == s.readers - {t} ==> s'.owners == s.owners == map[])
  {
    SoleOwner(s, t);
  }

  lemma {:induction false} FinishReader(states: seq<State>, t: nat) returns (longer: seq<State>)
    requires IsRun(states)
    requires var s := states[|states| - 1];
      s.writer.None? && t in s.readers && forall m :: m in s.owners ==> s.owners[m] == t
    ensures IsRun(longer) && states <= longer
    ensures var s, s' := states[|states| - 1], longer[|longer| - 1];
      Settles(s, s') && s'.owners == map[] && s'.readers == s.readers - {t} && s'.index == s.index
    decreases var s := states[|states| - 1]; if t in s.threads then ReaderSteps(s.threads[t]) else 0
  {
    var s := states[|states| - 1];
    RunInv(states, |states| - 1);
    ReaderAdvances(s, t);
    longer := Extended(states, t, Choice(true, []));
    if longer[|longer| - 1].readers == s.readers {
      longer := FinishReader(longer, t);
    }
  }

  lemma {:induction false} ReleaseReaders(states: seq<State>) returns (longer: seq<State>)
    requires IsRun(states)
    requires var s := states[|states| - 1]; s.writer.None? && s.owners == map[]
    ensures IsRun(longer) && states <= longer
    ensures var s, s' := states[|states| - 1], longer[|longer| - 1]; Settles(s, s') && s'.readers == {}
    decreases |states[|states| - 1].readers|
  {
    var s := states[|states| - 1];
    if s.readers == {} {
      longer := states;
    } else {
      var t :| t in s.readers;
      longer := FinishReader(states, t);
      assert |s.readers - {t}| < |s.readers|;
      longer := ReleaseReaders(longer);
    }
  }

  /** A writer may enter at once, and the index is free. */
  predicate Ready(s: State) {
    s.writer.None? && s.readers == {} && s.index.None?
  }

  lemma ReleaseIndex(states: seq<State>) returns (longer: seq<State>)
    requires IsRun(states)
    requires var s := states[|states| - 1]; s.writer.None? && s.readers == {}
    ensures IsRun(longer) && states <= longer
    ensures var s, s' := states[|states| - 1], longer[|longer| - 1]; Settles(s, s') && Ready(s')
  {
    var s := states[|states| - 1];
    RunInv(states, |states| - 1);
    longer := states;
    if s.index.Some? {
      longer := Extended(states, s.index.value, Choice(true, []));
    }
  }

  /** Without a writer, everyone else can let go of everything while no session changes. */
  lemma ReleaseAll(states: seq<State>) returns (longer: seq<State>)
    requires IsRun(states) && states[|states| - 1].writer.None?
    ensures IsRun(longer) && states <= longer
    ensures Settles(states[|states| - 1], longer[|longer| - 1]) && Ready(longer[|longer| - 1])
  {
    longer := ReleaseOwners(states);
    longer := ReleaseReaders(longer);
    longer := ReleaseIndex(longer);
  }

  /** A committed start that holds nothing opens its session... */
  lemma RunToWrite(states: seq<State>, t: nat, k: Key) returns (longer: seq<State>)
    requires IsRun(states)
    requires var s := states[|states| - 1];
      Ready(s) && t in s.threads && (s.threads[t] == WantIndex(k) || s.threads[t] == Opening(k))
    ensures IsRun(longer) && states <= longer
    ensures longer[|longer| - 1] == Goto(states[|states| - 1], t, WantWrite(StartOp(k)))
  {
    var s, yes := states[|states| - 1], Choice(true, []);
    longer := states;
    if s.threads[t].WantIndex? {
      longer := Extended(longer, t, yes);
      assert longer[|longer| - 1] == Goto(s.(index := Some(t)), t, HoldIndex(k));
      longer := Extended(longer, t, yes);
      assert longer[|longer| - 1] == Goto(s, t, Opening(k));
    }
    longer := Extended(longer, t, yes);
  }

  function Inserted(s: State, t: nat, k: Key): State {
    s.(threads := s.threads[t := Idle], sessions := s.sessions[k := s.created], created := s.created + 1)
  }

  /** ... and inserts it. */
  lemma RunFromWrite(states: seq<State>, t: nat, k: Key) returns (longer: seq<State>)
    requires IsRun(states)
    requires var s := states[|states| - 1]; Ready(s) && t in s.threads && s.threads[t] == WantWrite(StartOp(k))
    ensures IsRun(longer) && states <= longer && |longer| > |states|
    ensures longer[|longer| - 2].sessions == states[|states| - 1].sessions
    ensures longer[|longer| - 1] == Inserted(states[|states| - 1], t, k)
  {
    var s := states[|states| - 1];
    longer := Extended(states, t, Choice(true, []));
    longer := Extended(longer, t, Choice(true, []));
    assert s.threads[t := Writing(StartOp(k))][t := Idle] == s.threads[t := Idle];
  }

  /** A committed start runs to its insertion, which is the last step. */
  lemma {:induction false} RunToInsertion(states: seq<State>, t: nat, k: Key) returns (longer: seq<State>)
    requires IsRun(states)
    requires var s := states[|states| - 1]; Ready(s) && t in s.threads && Committed(s.threads[t]) == Some(k)
    ensures IsRun(longer) && states <= longer && |longer| > |states|
    ensures longer[|longer| - 2].sessions == states[|states| - 1].sessions
    ensures longer[|longer| - 1] == Inserted(states[|states| - 1], t, k)
  {
    var s := states[|states| - 1];
    RunInv(states, |states| - 1);
    longer := states;
    if !s.threads[t].WantWrite? {
      longer := RunToWrite(longer, t, k);
      assert s.threads[t := WantWrite(StartOp(k))][t := Idle] == s.threads[t := Idle];
    }
    longer := RunFromWrite(longer, t, k);
  }

  /** The writer, if there is one, leaves: either a third party, or one of two
      committed starters, whose session is then in the map. */
  lemma ReleaseWriter(states: seq<State>, t: nat, u: nat, k: Key) returns (longer: seq<State>, x: nat, first: bool)
    requires IsRun(states) && t != u
    requires var s := states[|states| - 1];
      && t in s.threads && Committed(s.threads[t]) == Some(k)
      && u in s.threads && Committed(s.threads[u]) == Some(k)
    ensures IsRun(longer) && states <= longer && (x == t || x == u)
    ensures var s' := longer[|longer| - 1];
      && s'.writer.None? && x in s'.threads && Committed(s'.threads[x]) == Some(k)
      && if first then k in s'.sessions && s'.sessions[k] < s'.created
         else var y := if x == t then u else t; y in s'.threads && Committed(s'.threads[y]) == Some(k)
  {
    var s := states[|states| - 1];
    RunInv(states, |states| - 1);
    longer, x, first := states, t, false;
    if s.writer.Some? {
      longer := Extended(states, s.writer.value, Choice(true, []));
      x := if s.writer.value == t then u else t;
      first := s.writer.value == t || s.writer.value == u;
    }
  }

  /** The check and the insertion are not atomic: from every reachable state in which
      two threads have both passed the check for a stream there is a continuation
      whose last step replaces that stream's live session by another one. */
  lemma TwoCommittedCanReplace(states: seq<State>, t: nat, u: nat, k: Key) returns (longer: seq<State>)
    requires IsRun(states) && t != u
    requires var s := states[|states| - 1];
      && t in s.threads && Committed(s.threads[t]) == Some(k)
      && u in s.threads && Committed(s.threads[u]) == Some(k)
    ensures IsRun(longer) && states <= longer && |longer| > |states|
    ensures var before, after := longer[|longer| - 2], longer[|longer| - 1];
      k in before.sessions && k in after.sessions && before.sessions[k] != after.sessions[k]
  {
    var x: nat, first: bool;
    longer, x, first := ReleaseWriter(states, t, u, k);
    longer := ReleaseAll(longer);
    if !first {
      longer := RunToInsertion(longer, if x == t then u else t, k);
    }
    longer := RunToInsertion(longer, x, k);
  }

  /** Such states are reached: two starts of the same stream are enough. */
  lemma TwoStartersCanReplace(k: Key) returns (states: seq<State>)
    ensures IsRun(states) && |states| >= 2
    ensures var before, after := states[|states| - 2], states[|states| - 1];
      k in before.sessions && k in after.sessions && before.sessions[k] != after.sessions[k]
  {
    var s1 := Begin(START, 1, StartOp(k));
    var s2 := Begin(s1, 2, StartOp(k));
    assert CanBegin(START, 1) && CanBegin(s1, 2);
    Extend([START], s1);
    Extend([START] + [s1], s2);
    states := Extended([START] + [s1] + [s2], 1, Choice(true, []));
    states := Extended(states, 1, Choice(true, []));
    states := Extended(states, 2, Choice(true, []));
    states := Extended(states, 2, Choice(true, []));
    states := TwoCommittedCanReplace(states, 1, 2, k);
  }
}
