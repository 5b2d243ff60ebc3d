/** Every schedule of the manager's threads comes to an end: no operation is held up
    for ever, whoever is let in first. */
module ManagerSchedules {
  import opened Prelude
  import opened ManagerLocks

  // How much a thread has left to do once it has been let in.

  function StepsLeft(pc: Pc): nat {
    match pc
    case WantRead(_) => 0
    case Checking(_) => 6
    case WantIndex(_) => 5
    case HoldIndex(_) => 4
    case Opening(_) => 3
    case WantWrite(_) => 2
    case Writing(_) => 1
    case Looking(_) => 3
    case WantMutex(_) => 2
    case HoldMutex(_) => 1
    case Polling(todo) => 2 * |todo| + 1
    case Draining(todo) => if todo == [] then 2 else 2 * |todo|
    case Idle => 0
  }

  /** Threads below n that still have to be let in, and the work of all the others. How
      long a poll takes is only settled when it is let in, so the first comes first. */
  function Outside(threads: map<nat, Pc>, n: nat): nat {
    if n == 0 then 0
    else Outside(threads, n - 1) + if n - 1 in threads && threads[n - 1].WantRead? then 1 else 0
  }

  function Work(threads: map<nat, Pc>, n: nat): nat {
    if n == 0 then 0
    else Work(threads, n - 1) + if n - 1 in threads then StepsLeft(threads[n - 1]) else 0
  }

  lemma {:induction false} OneThreadChanges(threads: map<nat, Pc>, t: nat, pc: Pc, n: nat)
    requires t in threads
    ensures Outside(threads[t := pc], n) == Outside(threads, n)
      - (if t < n && threads[t].WantRead? then 1 else 0) + (if t < n && pc.WantRead? then 1 else 0)
    ensures Work(threads[t := pc], n) ==
      Work(threads, n) - (if t < n then StepsLeft(threads[t]) else 0) + (if t < n then StepsLeft(pc) else 0)
    decreases n
  {
    if n > 0 {
      OneThreadChanges(threads, t, pc, n - 1);
    }
  }

  lemma MoveShortens(s: State, t: nat, c: Choice)
    requires Enabled(s, t, false)
    ensures var s' := Move(s, t, c);
      && t in s'.threads && !s'.threads[t].WantRead?
      && (s.threads[t].WantRead? || StepsLeft(s'.threads[t]) < StepsLeft(s.threads[t]))
  {
  }

  predicate Below(threads: map<nat, Pc>, n: nat) {
    forall t :: t in threads ==> t < n
  }

  /** Every step of every thread is progress. */
  lemma MoveIsProgress(s: State, t: nat, c: Choice, n: nat)
    requires Enabled(s, t, false) && Below(s.threads, n)
    ensures var s' := Move(s, t, c);
      && Below(s'.threads, n)
      && Outside(s'.threads, n) <= Outside(s.threads, n)
      && (Outside(s'.threads, n) < Outside(s.threads, n) || Work(s'.threads, n) < Work(s.threads, n))
  {
    MoveShortens(s, t, c);
    MoveChangesSessions(s, t, c);
    OneThreadChanges(s.threads, t, Move(s, t, c).threads[t], n);
  }

  lemma {:induction false} SomeBound(keys: set<nat>) returns (n: nat)
    ensures forall t :: t in keys ==> t < n
    decreases keys
  {
    if keys == {} {
      n := 0;
    } else {
      var t :| t in keys;
      var rest := SomeBound(keys - {t});
      n := if t < rest then rest else t + 1;
      forall u | u in keys ensures u < n {
        assert u != t ==> u in keys - {t};
      }
    }
  }

  ghost predicate CanMove(s: State, strict: bool) {
    exists t :: Enabled(s, t, strict)
  }

  /** A scheduler sees the whole past and lets some thread step if any can, under the
      given policy; the world decides what opens and how polls list the sessions. */
  ghost predicate IsScheduler(schedule: seq<State> -> nat, strict: bool) {
    forall states: seq<State> :: states != [] && CanMove(states[|states| - 1], strict) ==>
      Enabled(states[|states| - 1], schedule(states), strict)
  }

  /** From position m on the run is the scheduler's, and nobody begins anything new. */
  ghost predicate Follows(states: seq<State>, m: nat, schedule: seq<State> -> nat, world: seq<State> -> Choice,
                          strict: bool)
  {
    forall i :: m <= i < |states| && i > 0 ==>
      var past := states[..i];
      Enabled(past[i - 1], schedule(past), strict) && states[i] == Move(past[i - 1], schedule(past), world(past))
  }

  predicate AllIdle(s: State) {
    forall t :: t in s.threads ==> s.threads[t].Idle?
  }

  lemma FollowsSnoc(states: seq<State>, m: nat, schedule: seq<State> -> nat, world: seq<State> -> Choice,
                    strict: bool, s': State)
    requires states != [] && Follows(states, m, schedule, world, strict)
    requires var s := states[|states| - 1];
      Enabled(s, schedule(states), strict) && s' == Move(s, schedule(states), world(states))
    ensures Follows(states + [s'], m, schedule, world, strict)
  {
    var all := states + [s'];
    forall i | m <= i < |all| && i > 0
      ensures var past := all[..i];
        Enabled(past[i - 1], schedule(past), strict) && all[i] == Move(past[i - 1], schedule(past), world(past))
    {
      if i < |states| {
        assert all[..i] == states[..i];
      } else {
        assert all[..i] == states;
      }
    }
  }

  lemma SchedulerMoves(states: seq<State>, t: nat, schedule: seq<State> -> nat, strict: bool)
    requires IsRun(states) && IsScheduler(schedule, strict)
    requires var s := states[|states| - 1]; t in s.threads && !s.threads[t].Idle?
    ensures Enabled(states[|states| - 1], schedule(states), strict)
  {
    var s := states[|states| - 1];
    RunInv(states, |states| - 1);
    SomeoneCanMove(s, t);
    var u :| Enabled(s, u, true);
    assert Enabled(s, u, strict);
    assert CanMove(s, strict);
  }

  /** The scheduler's next step while some thread t is busy: it is progress. */
  lemma OneStepOn(states: seq<State>, m: nat, n: nat, t: nat, schedule: seq<State> -> nat, world: seq<State> -> Choice,
                  strict: bool)
      returns (longer: seq<State>)
    requires IsRun(states) && Below(states[|states| - 1].threads, n)
    requires IsScheduler(schedule, strict) && Follows(states, m, schedule, world, strict)
    requires var s := states[|states| - 1]; t in s.threads && !s.threads[t].Idle?
    ensures IsRun(longer) && states <= longer && Follows(longer, m, schedule, world, strict)
    ensures var threads, threads' := states[|states| - 1].threads, longer[|longer| - 1].threads;
      && Below(threads', n)
      && Outside(threads', n) <= Outside(threads, n)
      && (Outside(threads', n) < Outside(threads, n) || Work(threads', n) < Work(threads, n))
  {
    var u, c := schedule(states), world(states);
    SchedulerMoves(states, t, schedule, strict);
    longer := Extended(states, u, c);
    FollowsSnoc(states, m, schedule, world, strict, longer[|longer| - 1]);
    assert longer == states + [longer[|longer| - 1]];
    MoveIsProgress(states[|states| - 1], u, c, n);
  }

  lemma {:induction false} RunOn(states: seq<State>, m: nat, n: nat, schedule: seq<State> -> nat,
                                 world: seq<State> -> Choice, strict: bool)
      returns (longer: seq<State>)
    requires IsRun(states) && Below(states[|states| - 1].threads, n)
    requires IsScheduler(schedule, strict) && Follows(states, m, schedule, world, strict)
    ensures IsRun(longer) && states <= longer && Follows(longer, m, schedule, world, strict)
    ensures AllIdle(longer[|longer| - 1])
    decreases Outside(states[|states| - 1].threads, n), Work(states[|states| - 1].threads, n)
  {
    var s := states[|states| - 1];
    if t :| t in s.threads && !s.threads[t].Idle? {
      longer := OneStepOn(states, m, n, t, schedule, world, strict);
      longer := RunOn(longer, m, n, schedule, world, strict);
    } else {
      longer := states;
    }
  }

  /** Nobody waits for ever: from every reachable state, whoever is scheduled next and
      whatever sessions open, every operation that has begun comes to its end, under a
      policy that lets readers in at any time and under one in which waiting writers
      keep new readers out. */
  lemma EveryScheduleFinishes(states: seq<State>, schedule: seq<State> -> nat, world: seq<State> -> Choice,
                              strict: bool)
      returns (longer: seq<State>)
    requires IsRun(states) && IsScheduler(schedule, strict)
    ensures IsRun(longer) && states <= longer && Follows(longer, |states|, schedule, world, strict)
    ensures AllIdle(longer[|longer| - 1])
  {
    var n := SomeBound(states[|states| - 1].threads.Keys);
    longer := RunOn(states, |states|, n, schedule, world, strict);
  }
}
