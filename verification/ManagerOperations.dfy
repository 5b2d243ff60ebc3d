/** Runs of the manager's threads with the step behind each state: every operation takes
    effect once and as itself, and every session it is given is locked once, in order. */
module ManagerOperations {
  import opened Prelude
  import opened ManagerLocks
  import M = Manager
  import Ref = ManagerRefinement

  /** Who did what: a thread begins an operation or moves on. */
  datatype Step = Begins(thread: nat, op: Op) | Moves(thread: nat, choice: Choice)

  predicate StepBy(s: State, a: Step, s': State) {
    match a
    case Begins(t, op) => CanBegin(s, t) && s' == Begin(s, t, op)
    case Moves(t, c) => Enabled(s, t, false) && s' == Move(s, t, c)
  }

  predicate StepAt(states: seq<State>, steps: seq<Step>, i: nat)
    requires i < |steps| < |states|
  {
    StepBy(states[i], steps[i], states[i + 1])
  }

  predicate IsTrace(states: seq<State>, steps: seq<Step>) {
    && |states| == |steps| + 1 && states[0] == START
    && forall i: nat :: i < |steps| ==> StepAt(states, steps, i)
  }

  lemma {:induction false} RunIsTrace(states: seq<State>) returns (steps: seq<Step>)
    requires IsRun(states)
    ensures IsTrace(states, steps)
    decreases |states|
  {
    steps := [];
    var n := |states| - 1;
    if n > 0 {
      var init := states[..n];
      forall i | 0 <= i < |init| - 1 ensures Next(init[i], init[i + 1]) { assert Next(states[i], states[i + 1]); }
      steps := RunIsTrace(init);
      assert Next(states[n - 1], states[n - 1 + 1]);
      var a := StepBehind(states[n - 1], states[n]);
      forall i: nat | i <= |steps| ensures StepAt(states, steps + [a], i) {
        if i < |steps| { assert StepAt(init, steps, i); }
      }
      steps := steps + [a];
    }
  }

  lemma StepBehind(s: State, s': State) returns (a: Step)
    requires Next(s, s')
    ensures StepBy(s, a, s')
  {
    if t, c :| Enabled(s, t, false) && s' == Move(s, t, c) {
      a := Moves(t, c);
    } else {
      var t, op :| CanBegin(s, t) && s' == Begin(s, t, op);
      a := Begins(t, op);
    }
  }

  function PcOf(s: State, t: nat): Pc {
    if t in s.threads then s.threads[t] else Idle
  }

  /** Positions that an operation can bring a thread to: only starts and stops write. */
  predicate Sensible(pc: Pc) {
    && (pc.WantRead? ==> !pc.op.StopOp?)
    && (pc.WantWrite? || pc.Writing? ==> pc.op.StartOp? || pc.op.StopOp?)
    && (pc.Draining? ==> pc.todo != [])
  }

  lemma MoveKeepsSensible(s: State, t: nat, c: Choice)
    requires Enabled(s, t, false) && Sensible(s.threads[t])
    ensures t in Move(s, t, c).threads && Sensible(Move(s, t, c).threads[t])
  {
  }

  /** A step moves its own thread alone. */
  lemma OthersStay(s: State, a: Step, s': State, t: nat)
    requires StepBy(s, a, s') && a.thread != t
    ensures PcOf(s', t) == PcOf(s, t)
  {
    if a.Moves? {
      MoveChangesSessions(s, a.thread, a.choice);
    }
  }

  lemma StepKeepsSensible(s: State, a: Step, s': State, t: nat)
    requires StepBy(s, a, s') && Sensible(PcOf(s, t))
    ensures Sensible(PcOf(s', t))
  {
    if a.thread != t {
      OthersStay(s, a, s', t);
    } else if a.Moves? {
      MoveKeepsSensible(s, t, a.choice);
    }
  }

  lemma {:induction false} AlwaysSensible(states: seq<State>, steps: seq<Step>, n: nat, t: nat)
    requires IsTrace(states, steps) && n <= |steps|
    ensures Sensible(PcOf(states[n], t))
  {
    if n > 0 {
      AlwaysSensible(states, steps, n - 1, t);
      assert StepAt(states, steps, n - 1);
      StepKeepsSensible(states[n - 1], steps[n - 1], states[n], t);
    }
  }

  // ------------------------------------------------------- effect, exactly once

  /** The operation a request is. */
  function OpOf(r: M.Request): Op {
    match r
    case Start(k, _, _) => StartOp(k)
    case Stop(k) => StopOp(k)
    case Hear(k, _, _) => AudioOp(k)
    case _ => PollOp
  }

  /** The operation under way at a position that has not taken effect yet. */
  function Outstanding(pc: Pc): seq<Op> {
    match pc
    case WantRead(op) => [op]
    case Checking(k) => [StartOp(k)]
    case WantIndex(k) => [StartOp(k)]
    case HoldIndex(k) => [StartOp(k)]
    case Opening(k) => [StartOp(k)]
    case WantWrite(op) => [op]
    case Writing(op) => [op]
    case Looking(k) => [AudioOp(k)]
    case Polling(_) => [PollOp]
    case Draining(_) => [PollOp]
    case _ => []
  }

  /** What thread t begins, and what it completes, in one step. */
  function Begun(a: Step, t: nat): seq<Op> {
    if a.Begins? && a.thread == t then [a.op] else []
  }

  function Done(s: State, a: Step, t: nat): seq<Op> {
    if a.Moves? && a.thread == t && Enabled(s, t, false) && Ref.Completes(s, t, a.choice) != []
    then [OpOf(Ref.Completes(s, t, a.choice)[0])] else []
  }

  /** Positions at which a move may complete something. */
  predicate MayComplete(pc: Pc) {
    pc.Checking? || pc.Opening? || pc.Writing? || pc.Looking? || pc.Polling?
  }

  predicate EitherSettles(s: State, t: nat, c: Choice, rs: seq<M.Request>)
    requires Enabled(s, t, false)
  {
    var s' := Move(s, t, c);
    && t in s'.threads
    && if rs == [] then Outstanding(s'.threads[t]) == Outstanding(s.threads[t])
       else Outstanding(s.threads[t]) == [OpOf(rs[0])] && Outstanding(s'.threads[t]) == []
  }

  lemma CompletingMoveSettles(s: State, t: nat, c: Choice)
    requires Enabled(s, t, false) && Sensible(s.threads[t]) && MayComplete(s.threads[t])
    ensures EitherSettles(s, t, c, Ref.Completes(s, t, c))
  {
  }

  lemma OtherMoveSettles(s: State, t: nat, c: Choice)
    requires Enabled(s, t, false) && Sensible(s.threads[t]) && !MayComplete(s.threads[t])
    ensures EitherSettles(s, t, c, Ref.Completes(s, t, c))
  {
  }

  /** A move either leaves what is outstanding or completes it. */
  lemma MoveSettles(s: State, t: nat, c: Choice)
    requires Enabled(s, t, false) && Sensible(s.threads[t])
    ensures EitherSettles(s, t, c, Ref.Completes(s, t, c))
  {
    if MayComplete(s.threads[t]) {
      CompletingMoveSettles(s, t, c);
    } else {
      OtherMoveSettles(s, t, c);
    }
  }

  lemma StepSettles(s: State, a: Step, s': State, t: nat)
    requires StepBy(s, a, s') && Sensible(PcOf(s, t))
    ensures Done(s, a, t) + Outstanding(PcOf(s', t)) == Outstanding(PcOf(s, t)) + Begun(a, t)
  {
    if a.thread != t {
      OthersStay(s, a, s', t);
    } else if a.Moves? {
      MoveSettles(s, t, a.choice);
    } else {
      assert Outstanding(PcOf(s', t)) == [a.op];
    }
  }

  function AllBegun(steps: seq<Step>, n: nat, t: nat): seq<Op>
    requires n <= |steps|
  {
    if n == 0 then [] else AllBegun(steps, n - 1, t) + Begun(steps[n - 1], t)
  }

  function AllDone(states: seq<State>, steps: seq<Step>, n: nat, t: nat): seq<Op>
    requires n <= |steps| < |states|
  {
    if n == 0 then [] else AllDone(states, steps, n - 1, t) + Done(states[n - 1], steps[n - 1], t)
  }

  /** Every operation a thread begins takes effect exactly once, as itself and in order;
      only the one under way may still have to. */
  lemma {:induction false} EveryOperationOnce(states: seq<State>, steps: seq<Step>, n: nat, t: nat)
    requires IsTrace(states, steps) && n <= |steps|
    ensures AllDone(states, steps, n, t) + Outstanding(PcOf(states[n], t)) == AllBegun(steps, n, t)
  {
    if n > 0 {
      var m := n - 1;
      EveryOperationOnce(states, steps, m, t);
      AlwaysSensible(states, steps, m, t);
      assert StepAt(states, steps, m);
      StepSettles(states[m], steps[m], states[n], t);
      Regroup(AllDone(states, steps, m, t), Done(states[m], steps[m], t), Outstanding(PcOf(states[n], t)),
              Outstanding(PcOf(states[m], t)), Begun(steps[m], t));
    }
  }

  lemma Regroup<T>(before: seq<T>, now: seq<T>, left: seq<T>, left0: seq<T>, more: seq<T>)
    requires now + left == left0 + more
    ensures (before + now) + left == (before + left0) + more
  {
    assert (before + now) + left == before + (now + left);
    assert (before + left0) + more == before + (left0 + more);
  }

  // ---------------------------------------------------- sessions, each in its turn

  /** The sessions a position still has to lock. */
  function ToLock(pc: Pc): seq<nat> {
    match pc
    case WantMutex(m) => [m]
    case Polling(todo) => todo
    case Draining(todo) => if todo == [] then [] else todo[1..]
    case _ => []
  }

  /** The sessions a step gives its thread to visit: what a poll lists, or what audio
      finds in the map under its stream. */
  function Given(s: State, a: Step, t: nat): seq<nat> {
    if !a.Moves? || a.thread != t then []
    else
      match PcOf(s, t)
      case WantRead(op) => if op.PollOp? then a.choice.listing else []
      case Looking(k) => if k in s.sessions then [s.sessions[k]] else []
      case _ => []
  }

  /** The session whose mutex a step takes for its thread. */
  function Locks(s: State, a: Step, t: nat): seq<nat> {
    if !a.Moves? || a.thread != t then []
    else
      match PcOf(s, t)
      case WantMutex(m) => [m]
      case Polling(todo) => if todo == [] then [] else [todo[0]]
      case _ => []
  }

  /** And it really does: the mutex was free and is the thread's; no other step takes one. */
  lemma LocksAreTaken(s: State, a: Step, s': State, t: nat)
    requires StepBy(s, a, s')
    ensures Locks(s, a, t) != [] ==> Locks(s, a, t)[0] !in s.owners && s'.owners == s.owners[Locks(s, a, t)[0] := t]
    ensures Locks(s, a, t) == [] ==>
      forall m :: m in s'.owners && s'.owners[m] == t ==> m in s.owners && s.owners[m] == t
  {
  }

  /** Positions on the way to a session's mutex. */
  predicate NearMutex(pc: Pc) {
    pc.Looking? || pc.WantMutex? || pc.Polling? || pc.Draining? || pc.WantRead?
  }

  lemma MoveNearMutex(s: State, t: nat, c: Choice)
    requires Enabled(s, t, false) && Sensible(s.threads[t]) && NearMutex(s.threads[t])
    ensures var a, s' := Moves(t, c), Move(s, t, c);
      t in s'.threads && Locks(s, a, t) + ToLock(s'.threads[t]) == ToLock(s.threads[t]) + Given(s, a, t)
  {
  }

  lemma MoveFarFromMutex(s: State, t: nat, c: Choice)
    requires Enabled(s, t, false) && Sensible(s.threads[t]) && !NearMutex(s.threads[t])
    ensures var a, s' := Moves(t, c), Move(s, t, c);
      && t in s'.threads && ToLock(s'.threads[t]) == ToLock(s.threads[t]) == []
      && Locks(s, a, t) == Given(s, a, t) == []
  {
  }

  lemma StepLocks(s: State, a: Step, s': State, t: nat)
    requires StepBy(s, a, s') && Sensible(PcOf(s, t))
    ensures Locks(s, a, t) + ToLock(PcOf(s', t)) == ToLock(PcOf(s, t)) + Given(s, a, t)
  {
    if a.thread != t {
      OthersStay(s, a, s', t);
    } else if a.Moves? {
      if NearMutex(s.threads[t]) {
        MoveNearMutex(s, t, a.choice);
      } else {
        MoveFarFromMutex(s, t, a.choice);
      }
    }
  }

  function AllGiven(states: seq<State>, steps: seq<Step>, n: nat, t: nat): seq<nat>
    requires n <= |steps| < |states|
  {
    if n == 0 then [] else AllGiven(states, steps, n - 1, t) + Given(states[n - 1], steps[n - 1], t)
  }

  function AllLocked(states: seq<State>, steps: seq<Step>, n: nat, t: nat): seq<nat>
    requires n <= |steps| < |states|
  {
    if n == 0 then [] else AllLocked(states, steps, n - 1, t) + Locks(states[n - 1], steps[n - 1], t)
  }

  /** A thread locks every session it is given, once each and in order, and no other:
      a poll all it lists, audio the one it found. */
  lemma {:induction false} EverySessionOnce(states: seq<State>, steps: seq<Step>, n: nat, t: nat)
    requires IsTrace(states, steps) && n <= |steps|
    ensures AllLocked(states, steps, n, t) + ToLock(PcOf(states[n], t)) == AllGiven(states, steps, n, t)
  {
    if n > 0 {
      var m := n - 1;
      EverySessionOnce(states, steps, m, t);
      AlwaysSensible(states, steps, m, t);
      assert StepAt(states, steps, m);
      StepLocks(states[m], steps[m], states[n], t);
      Regroup(AllLocked(states, steps, m, t), Locks(states[m], steps[m], t), ToLock(PcOf(states[n], t)),
              ToLock(PcOf(states[m], t)), Given(states[m], steps[m], t));
    }
  }
}
