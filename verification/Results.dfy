/** Results over whole histories: what becomes of every segment a backend produces. */
module Results {
  import opened Prelude
  import opened Decoder
  import opened Commands
  import opened Manager
  import F = FanOut

  predicate StopsStream(r: Request, k: Key) { r.Stop? && r.key == k }

  /** Request i puts a segment into the channel of live stream k. */
  predicate Produces<S>(codec: Codec<S>, default: BackendConfig, rs: seq<Request>, i: nat, k: Key) {
    i < |rs| && rs[i].Produce? && rs[i].key == k && k in ServeAll(codec, default, rs[..i]).sessions
  }

  /** Nothing between i and j polls or stops the stream. */
  predicate Undisturbed(rs: seq<Request>, i: nat, j: nat, k: Key)
    requires j <= |rs|
  {
    forall m :: i < m < j ==> !rs[m].Poll? && !StopsStream(rs[m], k)
  }

  /** The first thing to happen to what was produced at i is a poll... */
  predicate PolledAt(rs: seq<Request>, i: nat, j: nat, k: Key) {
    i < j < |rs| && rs[j].Poll? && Undisturbed(rs, i, j, k)
  }

  /** ... or a stop of its stream. */
  predicate StoppedAt(rs: seq<Request>, i: nat, j: nat, k: Key) {
    i < j < |rs| && StopsStream(rs[j], k) && Undisturbed(rs, i, j, k)
  }

  /** Everything the polls returned for a stream, in order. */
  function Polled<S>(codec: Codec<S>, default: BackendConfig, rs: seq<Request>, k: Key): seq<Segment> {
    if rs == [] then []
    else
      var init := rs[..|rs| - 1];
      Polled(codec, default, init, k)
      + if rs[|rs| - 1].Poll? then QueuedFor(ServeAll(codec, default, init), k) else []
  }

  /** The requests whose segments are waiting, and those whose segments were polled. */
  function Waiting<S>(codec: Codec<S>, default: BackendConfig, rs: seq<Request>, k: Key): seq<nat> {
    if rs == [] then []
    else
      var n := |rs| - 1;
      if rs[n].Poll? || StopsStream(rs[n], k) then []
      else Waiting(codec, default, rs[..n], k) + if Produces(codec, default, rs, n, k) then [n] else []
  }

  function Handed<S>(codec: Codec<S>, default: BackendConfig, rs: seq<Request>, k: Key): seq<nat> {
    if rs == [] then []
    else
      var n := |rs| - 1;
      Handed(codec, default, rs[..n], k) + if rs[n].Poll? then Waiting(codec, default, rs[..n], k) else []
  }

  predicate StrictlyAscending(s: seq<nat>) {
    forall i, j :: 0 <= i < j < |s| ==> s[i] < s[j]
  }

  predicate AreProducers(rs: seq<Request>, at: seq<nat>) {
    forall i :: 0 <= i < |at| ==> at[i] < |rs| && rs[at[i]].Produce?
  }

  function SegmentsAt(rs: seq<Request>, at: seq<nat>): (segments: seq<Segment>)
    requires AreProducers(rs, at)
    ensures |segments| == |at|
  {
    seq(|at|, i requires 0 <= i < |at| => rs[at[i]].segment)
  }

  lemma SegmentsLater(rs: seq<Request>, r: Request, at: seq<nat>)
    requires AreProducers(rs, at)
    ensures AreProducers(rs + [r], at) && SegmentsAt(rs + [r], at) == SegmentsAt(rs, at)
  {
  }

  lemma SegmentsConcat(rs: seq<Request>, a: seq<nat>, b: seq<nat>)
    requires AreProducers(rs, a) && AreProducers(rs, b)
    ensures AreProducers(rs, a + b) && SegmentsAt(rs, a + b) == SegmentsAt(rs, a) + SegmentsAt(rs, b)
  {
  }

  /** One request and the queue of one stream. */
  lemma ServeQueue<S>(codec: Codec<S>, default: BackendConfig, m: ManagerState<S>, r: Request, k: Key)
    ensures QueuedFor(Serve(codec, default, m, r), k) ==
      if r.Poll? || StopsStream(r, k) then []
      else if r.Produce? && r.key == k && k in m.sessions then QueuedFor(m, k) + [r.segment]
      else QueuedFor(m, k)
  {
  }

  lemma {:induction false} WaitingIsQueue<S>(codec: Codec<S>, default: BackendConfig, rs: seq<Request>, k: Key)
    ensures AreProducers(rs, Waiting(codec, default, rs, k))
    ensures SegmentsAt(rs, Waiting(codec, default, rs, k)) == QueuedFor(ServeAll(codec, default, rs), k)
    decreases |rs|
  {
    if rs != [] {
      var n := |rs| - 1;
      var init, waiting := rs[..n], Waiting(codec, default, rs[..n], k);
      assert rs == init + [rs[n]];
      WaitingIsQueue(codec, default, init, k);
      ServeQueue(codec, default, ServeAll(codec, default, init), rs[n], k);
      SegmentsLater(init, rs[n], waiting);
      if Produces(codec, default, rs, n, k) {
        SegmentsConcat(rs, waiting, [n]);
      } else {
        assert waiting + [] == waiting;
      }
    }
  }

  lemma {:induction false} HandedIsPolled<S>(codec: Codec<S>, default: BackendConfig, rs: seq<Request>, k: Key)
    ensures AreProducers(rs, Handed(codec, default, rs, k))
    ensures SegmentsAt(rs, Handed(codec, default, rs, k)) == Polled(codec, default, rs, k)
    decreases |rs|
  {
    if rs != [] {
      var n := |rs| - 1;
      var init := rs[..n];
      var handed, waiting := Handed(codec, default, init, k), Waiting(codec, default, init, k);
      assert rs == init + [rs[n]];
      HandedIsPolled(codec, default, init, k);
      WaitingIsQueue(codec, default, init, k);
      SegmentsLater(init, rs[n], handed);
      SegmentsLater(init, rs[n], waiting);
      if rs[n].Poll? {
        SegmentsConcat(rs, handed, waiting);
      } else {
        assert handed + [] == handed;
      }
    }
  }

  predicate AscendingBelow(s: seq<nat>, n: nat) {
    StrictlyAscending(s) && forall i :: 0 <= i < |s| ==> s[i] < n
  }

  lemma AscendingSnoc(a: seq<nat>, b: seq<nat>, n: nat)
    requires AscendingBelow(a + b, n)
    ensures AscendingBelow(a + (b + [n]), n + 1)
  {
    assert a + (b + [n]) == (a + b) + [n];
  }

  lemma AscendingPrefix(a: seq<nat>, b: seq<nat>, n: nat)
    requires AscendingBelow(a + b, n)
    ensures AscendingBelow(a + [], n + 1)
  {
    forall i | 0 <= i < |a| ensures a[i] == (a + b)[i] {
    }
  }

  lemma {:induction false} NothingTwice<S>(codec: Codec<S>, default: BackendConfig, rs: seq<Request>, k: Key)
    ensures AscendingBelow(Handed(codec, default, rs, k) + Waiting(codec, default, rs, k), |rs|)
    decreases |rs|
  {
    if rs != [] {
      var n := |rs| - 1;
      NothingTwice(codec, default, rs[..n], k);
      var handed, waiting := Handed(codec, default, rs[..n], k), Waiting(codec, default, rs[..n], k);
      if rs[n].Poll? {
        assert (handed + waiting) + [] == handed + waiting;
      } else if StopsStream(rs[n], k) {
        AscendingPrefix(handed, waiting, n);
        assert handed + [] == handed;
      } else if Produces(codec, default, rs, n, k) {
        AscendingSnoc(handed, waiting, n);
        assert handed + [] == handed;
      } else {
        assert handed + [] == handed && waiting + [] == waiting;
      }
    }
  }

  lemma UndisturbedSnoc(rs: seq<Request>, r: Request, i: nat, j: nat, k: Key)
    requires j <= |rs|
    ensures Undisturbed(rs + [r], i, j, k) <==> Undisturbed(rs, i, j, k)
  {
    if Undisturbed(rs + [r], i, j, k) {
      assert forall m :: i < m < j ==> (rs + [r])[m] == rs[m];
    }
  }

  /** Waiting are those produced with neither a poll nor a stop of the stream since. */
  lemma {:induction false} WaitingIff<S>(codec: Codec<S>, default: BackendConfig, rs: seq<Request>, i: nat, k: Key)
    ensures i in Waiting(codec, default, rs, k) <==>
      Produces(codec, default, rs, i, k) && Undisturbed(rs, i, |rs|, k)
    decreases |rs|
  {
    if rs != [] {
      var n := |rs| - 1;
      var init := rs[..n];
      WaitingIff(codec, default, init, i, k);
      UndisturbedSnoc(init, rs[n], i, n, k);
      assert rs == init + [rs[n]];
      if i < n {
        assert init[..i] == rs[..i] && init[i] == rs[i];
      }
    }
  }

  /** Polled are those for which a poll came before any stop of the stream. */
  lemma {:induction false} HandedIff<S>(codec: Codec<S>, default: BackendConfig, rs: seq<Request>, i: nat, k: Key)
    ensures i in Handed(codec, default, rs, k) <==>
      Produces(codec, default, rs, i, k) && exists j: nat :: PolledAt(rs, i, j, k)
    decreases |rs|
  {
    if rs != [] {
      var n := |rs| - 1;
      var init := rs[..n];
      assert rs == init + [rs[n]];
      HandedIff(codec, default, init, i, k);
      WaitingIff(codec, default, init, i, k);
      if i < n {
        assert init[..i] == rs[..i] && init[i] == rs[i];
      }
      forall j: nat | j <= n ensures Undisturbed(rs, i, j, k) <==> Undisturbed(init, i, j, k) {
        UndisturbedSnoc(init, rs[n], i, j, k);
      }
      forall j: nat | j < n ensures PolledAt(rs, i, j, k) <==> PolledAt(init, i, j, k) {
      }
      assert PolledAt(rs, i, n, k) <==> i < n && rs[n].Poll? && Undisturbed(init, i, n, k);
    }
  }

  /** What happens first is either nothing, a poll or a stop. */
  lemma {:induction false} FirstDisturbance(rs: seq<Request>, i: nat, n: nat, k: Key)
    requires i < n <= |rs|
    ensures Undisturbed(rs, i, n, k) || exists j: nat :: j < n && (PolledAt(rs, i, j, k) || StoppedAt(rs, i, j, k))
    decreases n
  {
    if i + 1 < n {
      FirstDisturbance(rs, i, n - 1, k);
      if Undisturbed(rs, i, n - 1, k) && !Undisturbed(rs, i, n, k) {
        assert PolledAt(rs, i, n - 1, k) || StoppedAt(rs, i, n - 1, k);
      }
    }
  }

  lemma StopExcludesPoll(rs: seq<Request>, i: nat, j: nat, k: Key)
    requires StoppedAt(rs, i, j, k)
    ensures !exists l: nat :: PolledAt(rs, i, l, k)
  {
  }

  /** What one or several polls returned, in order of the polls and within a poll in any
      order of the streams. */
  ghost predicate Returned<S>(codec: Codec<S>, default: BackendConfig, rs: seq<Request>, us: seq<F.Update>) {
    if rs == [] then us == []
    else
      var init := rs[..|rs| - 1];
      if !rs[|rs| - 1].Poll? then Returned(codec, default, init, us)
      else
        exists n: nat :: n <= |us| && Returned(codec, default, init, us[..n])
          && forall k :: OfStream(us[n..], k) == QueuedFor(ServeAll(codec, default, init), k)
  }

  lemma {:induction false} OfStreamConcat(a: seq<F.Update>, b: seq<F.Update>, k: Key)
    ensures OfStream(a + b, k) == OfStream(a, k) + OfStream(b, k)
    decreases |b|
  {
    if b == [] {
      assert a + b == a;
    } else {
      var init, last := b[..|b| - 1], b[|b| - 1];
      assert a + b == (a + init) + [last] && b == init + [last];
      OfStreamConcat(a, init, k);
      OfStreamSnoc(a + init, last, k);
      OfStreamSnoc(init, last, k);
    }
  }

  lemma {:induction false} ReturnedIsPolled<S>(codec: Codec<S>, default: BackendConfig,
                                              rs: seq<Request>, us: seq<F.Update>, k: Key)
    requires Returned(codec, default, rs, us)
    ensures OfStream(us, k) == Polled(codec, default, rs, k)
    decreases |rs|
  {
    if rs != [] {
      var init := rs[..|rs| - 1];
      if rs[|rs| - 1].Poll? {
        var n: nat :| n <= |us| && Returned(codec, default, init, us[..n])
          && forall k :: OfStream(us[n..], k) == QueuedFor(ServeAll(codec, default, init), k);
        ReturnedIsPolled(codec, default, init, us[..n], k);
        OfStreamConcat(us[..n], us[n..], k);
        assert us == us[..n] + us[n..];
      } else {
        ReturnedIsPolled(codec, default, init, us, k);
      }
    }
  }

  /** The updates handed to the distributor, whatever subscribers do in between. */
  function Delivered(actions: seq<F.Action>): seq<F.Update> {
    if actions == [] then []
    else
      var last := actions[|actions| - 1];
      Delivered(actions[..|actions| - 1]) + if last.Deliver? then [last.update] else []
  }

  lemma {:induction false} HistoryIsDelivered(actions: seq<F.Action>)
    ensures F.Run(actions).history == Delivered(actions)
    decreases |actions|
  {
    if actions != [] {
      HistoryIsDelivered(actions[..|actions| - 1]);
    }
  }

  /** From backend to distributor: over every history of starts, stops, audio, polls
      and results, and whatever subscribers do, the segments distributed for a stream
      are the produced ones that a poll found before a stop of the stream did, each
      once and in order; a stop that comes first loses what was waiting, and all
      else is still waiting. */
  lemma {:induction false} EveryResultOnce<S>(codec: Codec<S>, default: BackendConfig, rs: seq<Request>,
                                             us: seq<F.Update>, actions: seq<F.Action>, k: Key)
    requires Returned(codec, default, rs, us) && Delivered(actions) == us
    ensures var handed, waiting := Handed(codec, default, rs, k), Waiting(codec, default, rs, k);
      && StrictlyAscending(handed + waiting)
      && AreProducers(rs, handed) && OfStream(F.Run(actions).history, k) == SegmentsAt(rs, handed)
      && AreProducers(rs, waiting) && QueuedFor(ServeAll(codec, default, rs), k) == SegmentsAt(rs, waiting)
    ensures forall i: nat :: Produces(codec, default, rs, i, k) ==>
      && (i in Handed(codec, default, rs, k) <==> exists j: nat :: PolledAt(rs, i, j, k))
      && (i !in Handed(codec, default, rs, k) && i !in Waiting(codec, default, rs, k) <==>
            exists j: nat :: StoppedAt(rs, i, j, k))
  {
    HistoryIsDelivered(actions);
    ReturnedIsPolled(codec, default, rs, us, k);
    HandedIsPolled(codec, default, rs, k);
    WaitingIsQueue(codec, default, rs, k);
    NothingTwice(codec, default, rs, k);
    forall i: nat | Produces(codec, default, rs, i, k)
      ensures i in Handed(codec, default, rs, k) <==> exists j: nat :: PolledAt(rs, i, j, k)
      ensures i !in Handed(codec, default, rs, k) && i !in Waiting(codec, default, rs, k) <==>
        exists j: nat :: StoppedAt(rs, i, j, k)
    {
      HandedIff(codec, default, rs, i, k);
      WaitingIff(codec, default, rs, i, k);
      FirstDisturbance(rs, i, |rs|, k);
      if j: nat :| StoppedAt(rs, i, j, k) {
        assert !Undisturbed(rs, i, |rs|, k);
        StopExcludesPoll(rs, i, j, k);
      }
    }
  }
}
