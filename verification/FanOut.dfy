/** Distribution of transcription results to subscribers: bounded channels that
    drop what does not fit. */
module FanOut {
  import opened Prelude
  import opened Manager

  type Update = (Key, Segment)

  const CHANNEL_CAPACITY: nat := 100

  /** One subscriber: what waits in its channel, what it has taken, whether it is
      gone, how much had been distributed when it registered, and how many
      updates were refused to it. */
  datatype Channel = Channel(queue: seq<Update>, taken: seq<Update>, closed: bool, since: nat, missed: nat)

  function Accepted(c: Channel): seq<Update> {
    c.taken + c.queue
  }

  function TrySend(c: Channel, u: Update): Channel {
    if c.closed || |c.queue| >= CHANNEL_CAPACITY then c.(missed := c.missed + 1)
    else c.(queue := c.queue + [u])
  }

  function TrySendAll(cs: seq<Channel>, u: Update): (r: seq<Channel>)
    ensures |r| == |cs|
  {
    seq(|cs|, i requires 0 <= i < |cs| => TrySend(cs[i], u))
  }

  /** Subscribers per session, and everything distributed so far. */
  datatype Board = Board(subscribers: map<nat, seq<Channel>>, history: seq<Update>)

  function Subscribe(b: Board, session: nat): Board {
    var existing := if session in b.subscribers then b.subscribers[session] else [];
    b.(subscribers := b.subscribers[session := existing + [Channel([], [], false, |b.history|, 0)]])
  }

  function Publish(b: Board, u: Update): Board {
    var session := u.0.0;
    Board(if session in b.subscribers
          then b.subscribers[session := TrySendAll(b.subscribers[session], u)] else b.subscribers,
          b.history + [u])
  }

  function PublishAll(b: Board, us: seq<Update>): Board {
    if us == [] then b else Publish(PublishAll(b, us[..|us| - 1]), us[|us| - 1])
  }

  class Distributor<S(!new)> {
    var subscribers: map<nat, seq<Channel>>
    /** Instrumentation only: the running record of distributed updates. */
    var history: seq<Update>

    ghost function State(): Board
      reads this
    {
      Board(subscribers, history)
    }

    constructor ()
      ensures State() == Board(map[], [])
    {
      subscribers, history := map[], [];
    }

    method SubscribeTo(session: nat)
      modifies this
      ensures State() == Subscribe(old(State()), session)
    {
      if session !in subscribers {
        subscribers := subscribers[session := []];
      }
      subscribers := subscribers[session := subscribers[session] + [Channel([], [], false, |history|, 0)]];
    }

    method DistributeOne(u: Update)
      modifies this
      ensures State() == Publish(old(State()), u)
    {
      var session := u.0.0;
      history := history + [u];
      if session in subscribers {
        var senders := subscribers[session];
        for i := 0 to |senders|
          invariant session in subscribers && subscribers == old(subscribers)[session := subscribers[session]]
          invariant history == old(history) + [u]
          invariant |subscribers[session]| == |senders|
          invariant forall j :: 0 <= j < |senders| ==>
            subscribers[session][j] == if j < i then TrySend(senders[j], u) else senders[j]
        {
          subscribers := subscribers[session := subscribers[session][i := TrySend(subscribers[session][i], u)]];
        }
        assert subscribers[session] == TrySendAll(senders, u);
      }
    }

    method Distribute(results: seq<Update>)
      modifies this
      ensures State() == PublishAll(old(State()), results)
    {
      for i := 0 to |results|
        invariant State() == PublishAll(old(State()), results[..i])
      {
        assert results[..i + 1][..i] == results[..i];
        DistributeOne(results[i]);
      }
      assert results[..|results|] == results;
    }

    /** One tick of the polling task: every segment queued in any backend is
        distributed exactly once, per stream in the backend's order. */
    method PollAndDistribute(manager: TranscriptionManager<S>) returns (ghost results: seq<Update>)
      requires manager.Valid()
      modifies this, manager.sessions.Values
      ensures manager.Valid()
      ensures manager.State() == AfterPoll(old(manager.State()))
      ensures State() == PublishAll(old(State()), results)
      ensures forall k :: OfStream(results, k) == QueuedFor(old(manager.State()), k)
    {
      var polled := manager.PollResults();
      results := polled;
      Distribute(polled);
    }
  }

  // ---------------------------------------------------------- any history

  datatype Action =
    | Register(session: nat)
    | Deliver(update: Update)
    | Take(session: nat, index: nat)
    | Leave(session: nat, index: nat)

  function ChangeChannel(b: Board, session: nat, index: nat, c: Channel): Board
    requires session in b.subscribers && index < |b.subscribers[session]|
  {
    b.(subscribers := b.subscribers[session := b.subscribers[session][index := c]])
  }

  function Act(b: Board, a: Action): Board {
    match a
    case Register(session) => Subscribe(b, session)
    case Deliver(u) => Publish(b, u)
    case Take(session, i) =>
      if session !in b.subscribers || i >= |b.subscribers[session]| || b.subscribers[session][i].queue == [] then b
      else
        var c := b.subscribers[session][i];
        ChangeChannel(b, session, i, c.(queue := c.queue[1..], taken := c.taken + [c.queue[0]]))
    case Leave(session, i) =>
      if session !in b.subscribers || i >= |b.subscribers[session]| then b
      else ChangeChannel(b, session, i, b.subscribers[session][i].(closed := true))
  }

  function Run(actions: seq<Action>): Board {
    if actions == [] then Board(map[], []) else Act(Run(actions[..|actions| - 1]), actions[|actions| - 1])
  }

  function Deliveries(us: seq<Update>): (actions: seq<Action>)
    ensures |actions| == |us|
  {
    seq(|us|, i requires 0 <= i < |us| => Deliver(us[i]))
  }

  /** Distributing a batch of results, after any history, is delivering them one after
      another: each goes on record, once and in order. */
  lemma {:induction false} BatchIsDeliveries(actions: seq<Action>, us: seq<Update>)
    ensures PublishAll(Run(actions), us) == Run(actions + Deliveries(us))
    ensures PublishAll(Run(actions), us).history == Run(actions).history + us
    decreases |us|
  {
    if us == [] {
      assert actions + Deliveries(us) == actions;
    } else {
      var init, last := us[..|us| - 1], us[|us| - 1];
      BatchIsDeliveries(actions, init);
      assert actions + Deliveries(us) == (actions + Deliveries(init)) + [Deliver(last)];
      assert (actions + Deliveries(us))[..|actions| + |init|] == actions + Deliveries(init);
      assert us == init + [last];
    }
  }

  /** The updates of one session, in order. */
  function ForSession(us: seq<Update>, session: nat): seq<Update> {
    if us == [] then []
    else
      var rest, last := ForSession(us[..|us| - 1], session), us[|us| - 1];
      if last.0.0 == session then rest + [last] else rest
  }

  predicate Subsequence(a: seq<Update>, b: seq<Update>)
    decreases |b|
  {
    if a == [] then true
    else if b == [] then false
    else
      || (a[|a| - 1] == b[|b| - 1] && Subsequence(a[..|a| - 1], b[..|b| - 1]))
      || Subsequence(a, b[..|b| - 1])
  }

  lemma SubsequenceSkip(a: seq<Update>, b: seq<Update>, u: Update)
    requires Subsequence(a, b)
    ensures Subsequence(a, b + [u])
  {
    assert (b + [u])[..|b|] == b;
  }

  lemma SubsequenceTake(a: seq<Update>, b: seq<Update>, u: Update)
    requires Subsequence(a, b)
    ensures Subsequence(a + [u], b + [u])
  {
    assert (b + [u])[..|b|] == b && (a + [u])[..|a|] == a;
  }

  lemma {:induction false} SubsequenceElement(a: seq<Update>, b: seq<Update>, u: Update)
    requires Subsequence(a, b) && u in a
    ensures u in b
    decreases |b|
  {
    if a[|a| - 1] == b[|b| - 1] && Subsequence(a[..|a| - 1], b[..|b| - 1]) {
      if u != a[|a| - 1] {
        SubsequenceElement(a[..|a| - 1], b[..|b| - 1], u);
      }
    } else {
      SubsequenceElement(a, b[..|b| - 1], u);
    }
  }

  lemma {:induction false} SubsequenceLength(a: seq<Update>, b: seq<Update>)
    requires Subsequence(a, b)
    ensures |a| <= |b|
    ensures |a| == |b| ==> a == b
    decreases |b|
  {
    if a != [] {
      if a[|a| - 1] == b[|b| - 1] && Subsequence(a[..|a| - 1], b[..|b| - 1]) {
        SubsequenceLength(a[..|a| - 1], b[..|b| - 1]);
        assert a == a[..|a| - 1] + [a[|a| - 1]] && b == b[..|b| - 1] + [b[|b| - 1]];
      } else {
        SubsequenceLength(a, b[..|b| - 1]);
      }
    }
  }

  lemma {:induction false} ForSessionOnly(us: seq<Update>, session: nat, u: Update)
    requires u in ForSession(us, session)
    ensures u.0.0 == session
    decreases |us|
  {
    var last := us[|us| - 1];
    if u != last || last.0.0 != session {
      ForSessionOnly(us[..|us| - 1], session, u);
    }
  }

  /** What a subscriber is owed: its session's updates since it registered. */
  function Owed(history: seq<Update>, session: nat, c: Channel): seq<Update>
    requires c.since <= |history|
  {
    ForSession(history[c.since..], session)
  }

  predicate ChannelOk(history: seq<Update>, session: nat, c: Channel) {
    && c.since <= |history|
    && |c.queue| <= CHANNEL_CAPACITY
    && Subsequence(Accepted(c), Owed(history, session, c))
    && |Accepted(c)| + c.missed == |Owed(history, session, c)|
  }

  predicate BoardOk(b: Board) {
    forall session, i :: session in b.subscribers && 0 <= i < |b.subscribers[session]| ==>
      ChannelOk(b.history, session, b.subscribers[session][i])
  }

  lemma OwedSnoc(history: seq<Update>, session: nat, c: Channel, u: Update)
    requires c.since <= |history|
    ensures Owed(history + [u], session, c) == Owed(history, session, c) + (if u.0.0 == session then [u] else [])
  {
    var owed := history[c.since..];
    assert (history + [u])[c.since..] == owed + [u];
    assert (owed + [u])[..|owed|] == owed;
  }

  /** An update that is refused is owed but not accepted, and counted as missed. */
  lemma RefusalKeepsChannel(history: seq<Update>, session: nat, c: Channel, u: Update)
    requires ChannelOk(history, session, c) && u.0.0 == session
    requires c.closed || |c.queue| >= CHANNEL_CAPACITY
    ensures ChannelOk(history + [u], session, TrySend(c, u))
  {
    OwedSnoc(history, session, c, u);
    SubsequenceSkip(Accepted(c), Owed(history, session, c), u);
  }

  /** An update that fits joins what was accepted and what is owed. */
  lemma AcceptanceKeepsChannel(history: seq<Update>, session: nat, c: Channel, u: Update)
    requires ChannelOk(history, session, c) && u.0.0 == session
    requires !c.closed && |c.queue| < CHANNEL_CAPACITY
    ensures ChannelOk(history + [u], session, TrySend(c, u))
  {
    OwedSnoc(history, session, c, u);
    SubsequenceTake(Accepted(c), Owed(history, session, c), u);
    assert Accepted(TrySend(c, u)) == Accepted(c) + [u];
  }

  /** An update of another session is not owed. */
  lemma OtherKeepsChannel(history: seq<Update>, session: nat, c: Channel, u: Update)
    requires ChannelOk(history, session, c) && u.0.0 != session
    ensures ChannelOk(history + [u], session, c)
  {
    OwedSnoc(history, session, c, u);
    assert Owed(history, session, c) + [] == Owed(history, session, c);
  }

  lemma SendKeepsChannel(history: seq<Update>, session: nat, c: Channel, u: Update)
    requires ChannelOk(history, session, c)
    ensures ChannelOk(history + [u], session, if u.0.0 == session then TrySend(c, u) else c)
  {
    if u.0.0 != session {
      OtherKeepsChannel(history, session, c, u);
    } else if c.closed || |c.queue| >= CHANNEL_CAPACITY {
      RefusalKeepsChannel(history, session, c, u);
    } else {
      AcceptanceKeepsChannel(history, session, c, u);
    }
  }

  lemma PublishKeepsBoard(b: Board, u: Update)
    requires BoardOk(b)
    ensures BoardOk(Publish(b, u))
  {
    var b' := Publish(b, u);
    forall session, i | session in b'.subscribers && 0 <= i < |b'.subscribers[session]|
      ensures ChannelOk(b'.history, session, b'.subscribers[session][i])
    {
      assert ChannelOk(b.history, session, b.subscribers[session][i]);
      SendKeepsChannel(b.history, session, b.subscribers[session][i], u);
    }
  }

  /** Changing a channel without touching what it accepted. */
  lemma ChangeKeepsBoard(b: Board, session: nat, index: nat, c: Channel)
    requires BoardOk(b) && session in b.subscribers && index < |b.subscribers[session]|
    requires var old' := b.subscribers[session][index];
      Accepted(c) == Accepted(old') && |c.queue| <= |old'.queue| && c.since == old'.since && c.missed == old'.missed
    ensures BoardOk(ChangeChannel(b, session, index, c))
  {
    assert ChannelOk(b.history, session, b.subscribers[session][index]);
  }

  lemma SubscribeKeepsBoard(b: Board, session: nat)
    requires BoardOk(b)
    ensures BoardOk(Subscribe(b, session))
  {
  }

  lemma ActKeepsBoard(b: Board, a: Action)
    requires BoardOk(b)
    ensures BoardOk(Act(b, a))
  {
    match a
    case Register(session) => SubscribeKeepsBoard(b, session);
    case Deliver(u) => PublishKeepsBoard(b, u);
    case Take(session, i) =>
      if session in b.subscribers && i < |b.subscribers[session]| && b.subscribers[session][i].queue != [] {
        var c := b.subscribers[session][i];
        var c' := c.(queue := c.queue[1..], taken := c.taken + [c.queue[0]]);
        assert Accepted(c') == Accepted(c);
        ChangeKeepsBoard(b, session, i, c');
      }
    case Leave(session, i) =>
      if session in b.subscribers && i < |b.subscribers[session]| {
        ChangeKeepsBoard(b, session, i, b.subscribers[session][i].(closed := true));
      }
  }

  lemma {:induction false} RunKeepsBoard(actions: seq<Action>)
    ensures BoardOk(Run(actions))
    decreases |actions|
  {
    if actions != [] {
      RunKeepsBoard(actions[..|actions| - 1]);
      ActKeepsBoard(Run(actions[..|actions| - 1]), actions[|actions| - 1]);
    }
  }

  // ------------------------------------------------ when an update is refused

  predicate Present(b: Board, session: nat, i: nat) {
    session in b.subscribers && i < |b.subscribers[session]|
  }

  /** What one action does to one channel: an update of its session joins its queue
      unless the channel is closed or holds a hundred already; taking moves the
      oldest; leaving closes; nothing else touches it. */
  lemma ChannelStep(b: Board, a: Action, session: nat, i: nat)
    requires Present(b, session, i)
    ensures Present(Act(b, a), session, i)
    ensures var c, c' := b.subscribers[session][i], Act(b, a).subscribers[session][i];
      c' == if a.Deliver? && a.update.0.0 == session then
              if c.closed || |c.queue| >= 100 then c.(missed := c.missed + 1)
              else c.(queue := c.queue + [a.update])
            else if a == Take(session, i) && c.queue != [] then
              c.(queue := c.queue[1..], taken := c.taken + [c.queue[0]])
            else if a == Leave(session, i) then c.(closed := true)
            else c
  {
  }

  /** Registering appends one empty open channel and keeps all earlier ones. */
  lemma RegisterKeepsOthers(b: Board, session: nat)
    ensures var before := if session in b.subscribers then b.subscribers[session] else [];
      var after := Act(b, Register(session));
      && session in after.subscribers
      && after.subscribers[session] == before + [Channel([], [], false, |b.history|, 0)]
      && after.history == b.history
      && (forall other :: other != session ==>
            (other in after.subscribers <==> other in b.subscribers)
            && (other in b.subscribers ==> after.subscribers[other] == b.subscribers[other]))
  {
  }

  /** Delivery n of a history found the channel closed or with a hundred updates waiting. */
  predicate RefusedAt(actions: seq<Action>, session: nat, i: nat, n: nat) {
    && n < |actions| && actions[n].Deliver? && actions[n].update.0.0 == session
    && var b := Run(actions[..n]);
       Present(b, session, i)
       && (b.subscribers[session][i].closed || |b.subscribers[session][i].queue| >= 100)
  }

  /** The channel's subscriber has gone at action n. */
  predicate LeftAt(actions: seq<Action>, session: nat, i: nat, n: nat) {
    n < |actions| && actions[n] == Leave(session, i) && Present(Run(actions[..n]), session, i)
  }

  function Refusals(actions: seq<Action>, session: nat, i: nat): nat {
    if actions == [] then 0
    else
      var n := |actions| - 1;
      Refusals(actions[..n], session, i) + if RefusedAt(actions, session, i, n) then 1 else 0
  }

  lemma {:induction false} NoRefusalsIff(actions: seq<Action>, session: nat, i: nat)
    ensures Refusals(actions, session, i) == 0 <==> forall n: nat :: !RefusedAt(actions, session, i, n)
    decreases |actions|
  {
    if actions != [] {
      var m := |actions| - 1;
      NoRefusalsIff(actions[..m], session, i);
      forall n: nat | n < m ensures RefusedAt(actions, session, i, n) <==> RefusedAt(actions[..m], session, i, n) {
        assert actions[..m][..n] == actions[..n];
      }
      if n: nat :| RefusedAt(actions[..m], session, i, n) {
        assert RefusedAt(actions, session, i, n);
      }
    }
  }

  /** Before its registration a channel is not there. */
  lemma AppearsEmpty(b: Board, a: Action, session: nat, i: nat)
    requires !Present(b, session, i) && Present(Act(b, a), session, i)
    ensures Act(b, a).subscribers[session][i] == Channel([], [], false, |b.history|, 0)
  {
  }

  lemma {:induction false} NoRefusalsBefore(actions: seq<Action>, session: nat, i: nat)
    requires !Present(Run(actions), session, i)
    ensures Refusals(actions, session, i) == 0 && forall n: nat :: !LeftAt(actions, session, i, n)
    decreases |actions|
  {
    if actions != [] {
      var m := |actions| - 1;
      if Present(Run(actions[..m]), session, i) {
        ChannelStep(Run(actions[..m]), actions[m], session, i);
      }
      NoRefusalsBefore(actions[..m], session, i);
      forall n: nat | n < m ensures !LeftAt(actions, session, i, n) {
        assert actions[..m][..n] == actions[..n];
        assert !LeftAt(actions[..m], session, i, n);
      }
    }
  }

  /** A channel has missed exactly the updates that were refused, and is closed exactly
      if its subscriber has left. */
  lemma {:induction false} MissedAreRefused(actions: seq<Action>, session: nat, i: nat)
    requires Present(Run(actions), session, i)
    ensures var c := Run(actions).subscribers[session][i];
      && c.missed == Refusals(actions, session, i)
      && (c.closed <==> exists n: nat :: LeftAt(actions, session, i, n))
    decreases |actions|
  {
    var m := |actions| - 1;
    var init, a := actions[..m], actions[m];
    forall n: nat | n < m ensures LeftAt(actions, session, i, n) <==> LeftAt(init, session, i, n) {
      assert init[..n] == actions[..n];
    }
    if Present(Run(init), session, i) {
      MissedAreRefused(init, session, i);
      ChannelStep(Run(init), a, session, i);
      if a == Leave(session, i) {
        assert LeftAt(actions, session, i, m);
      }
      if n: nat :| LeftAt(init, session, i, n) {
        assert LeftAt(actions, session, i, n);
      }
    } else {
      NoRefusalsBefore(init, session, i);
      AppearsEmpty(Run(init), a, session, i);
    }
  }

  /** For every history: a subscriber's stream is a subsequence of its own
      session's updates since it registered, never another session's, and is all of
      them exactly when no update of its session ever came while its subscriber had
      left or a hundred were waiting. */
  lemma FanOutIsFaithful(actions: seq<Action>, session: nat, i: nat)
    requires session in Run(actions).subscribers && i < |Run(actions).subscribers[session]|
    ensures var b := Run(actions);
      var c := b.subscribers[session][i];
      && c.since <= |b.history|
      && Subsequence(Accepted(c), Owed(b.history, session, c))
      && (forall u :: u in Accepted(c) ==> u.0.0 == session && u in b.history[c.since..])
      && (Accepted(c) == Owed(b.history, session, c) <==> c.missed == 0)
      && (Accepted(c) == Owed(b.history, session, c) <==> forall n: nat :: !RefusedAt(actions, session, i, n))
      && |Accepted(c)| + Refusals(actions, session, i) == |Owed(b.history, session, c)|
  {
    MissedAreRefused(actions, session, i);
    NoRefusalsIff(actions, session, i);
    RunKeepsBoard(actions);
    var b := Run(actions);
    var c := b.subscribers[session][i];
    assert ChannelOk(b.history, session, c);
    SubsequenceLength(Accepted(c), Owed(b.history, session, c));
    forall u | u in Accepted(c) ensures u.0.0 == session && u in b.history[c.since..] {
      SubsequenceElement(Accepted(c), Owed(b.history, session, c), u);
      ForSessionOnly(b.history[c.since..], session, u);
      ForSessionFrom(b.history[c.since..], session, u);
    }
  }

  lemma {:induction false} ForSessionFrom(us: seq<Update>, session: nat, u: Update)
    requires u in ForSession(us, session)
    ensures u in us
    decreases |us|
  {
    if u != us[|us| - 1] {
      ForSessionFrom(us[..|us| - 1], session, u);
    }
  }
}
