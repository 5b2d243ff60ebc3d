/** The asynchronous OpenAI backend: flushed chunks become tasks that finish in
    any order while more audio arrives. */
module OpenAiAsync {
  import opened Prelude
  import opened Text
  import opened OpenAiSync

  /** A spawned request: its samples and the stream interval given to it. */
  datatype Task = Task(chunk: Pcm, startMs: nat, durationMs: nat)

  datatype AsyncState = AsyncState(buffer: Pcm, clock: nat, tasks: seq<Task>)

  function AfterFlush(a: AsyncState): AsyncState {
    if a.buffer == [] then a
    else
      var duration := DurationMs(|a.buffer|);
      AsyncState([], a.clock + duration, a.tasks + [Task(a.buffer, a.clock, duration)])
  }

  function AfterSend(a: AsyncState, data: Pcm): AsyncState {
    var a' := a.(buffer := a.buffer + data);
    if |a'.buffer| > MAX_SAMPLES then AfterFlush(a') else a'
  }

  class OpenAiBackend {
    var audioBuffer: Pcm
    var streamTimeMs: nat
    var tasks: seq<Task>

    ghost function State(): AsyncState
      reads this
    {
      AsyncState(audioBuffer, streamTimeMs, tasks)
    }

    constructor ()
      ensures State() == AsyncState([], 0, [])
    {
      audioBuffer, streamTimeMs, tasks := [], 0, [];
    }

    method Flush()
      modifies this
      ensures State() == AfterFlush(old(State()))
    {
      if audioBuffer == [] {
        return;
      }
      var audio := audioBuffer;
      audioBuffer := [];
      var duration := |audio| * 1000 / SAMPLE_RATE;
      var start := streamTimeMs;
      streamTimeMs := streamTimeMs + duration;
      tasks := tasks + [Task(audio, start, duration)];
    }

    method SendAudio(data: Pcm)
      modifies this
      ensures State() == AfterSend(old(State()), data)
    {
      audioBuffer := audioBuffer + data;
      if |audioBuffer| > SAMPLE_RATE * 5 {
        Flush();
      }
    }
  }

  // ----------------------------------------------------- runs in any order

  /** Audio is sent, or some spawned task that has not finished yet finishes. */
  datatype Action = Send(data: Pcm) | Finish(task: nat, outcome: Outcome)

  /** `sources` names the task behind each delivered segment. */
  datatype World = World(backend: AsyncState, finished: set<nat>, delivered: seq<Segment>, sources: seq<nat>)

  function Act(w: World, a: Action): World {
    match a
    case Send(data) => w.(backend := AfterSend(w.backend, data))
    case Finish(i, outcome) =>
      if i >= |w.backend.tasks| || i in w.finished then w
      else
        var task := w.backend.tasks[i];
        var w' := w.(finished := w.finished + {i});
        if outcome.Failed? || Blank(outcome.text) then w'
        else w'.(delivered := w.delivered + [Segment(task.startMs, task.startMs + task.durationMs, outcome.text)],
                 sources := w.sources + [i])
  }

  function RunAll(actions: seq<Action>): World {
    if actions == [] then World(AsyncState([], 0, []), {}, [], [])
    else Act(RunAll(actions[..|actions| - 1]), actions[|actions| - 1])
  }

  function SentIn(actions: seq<Action>): Pcm {
    if actions == [] then []
    else SentIn(actions[..|actions| - 1]) + (if actions[|actions| - 1].Send? then actions[|actions| - 1].data else [])
  }

  function Chunks(tasks: seq<Task>): (chunks: seq<Pcm>)
    ensures |chunks| == |tasks|
  {
    seq(|tasks|, i requires 0 <= i < |tasks| => tasks[i].chunk)
  }

  function End(task: Task): nat {
    task.startMs + task.durationMs
  }

  /** The intervals follow one another from 0 to `end` without gap or overlap. */
  predicate Tile(tasks: seq<Task>, end: nat) {
    && (forall i :: 0 <= i < |tasks| ==> tasks[i].startMs == if i == 0 then 0 else End(tasks[i - 1]))
    && end == (if tasks == [] then 0 else End(tasks[|tasks| - 1]))
    && (forall i :: 0 <= i < |tasks| ==> tasks[i].durationMs == DurationMs(|tasks[i].chunk|))
  }

  predicate LongChunks(tasks: seq<Task>) {
    forall i :: 0 <= i < |tasks| ==> |tasks[i].chunk| > MAX_SAMPLES && tasks[i].durationMs >= 5000
  }

  lemma AppendTask(tasks: seq<Task>, clock: nat, chunk: Pcm)
    requires Tile(tasks, clock) && LongChunks(tasks) && |chunk| > MAX_SAMPLES
    ensures var task := Task(chunk, clock, DurationMs(|chunk|));
      Tile(tasks + [task], End(task)) && LongChunks(tasks + [task])
  {
    DurationIsSixteenth(|chunk|);
  }

  lemma AppendChunk(tasks: seq<Task>, task: Task)
    ensures Flatten(Chunks(tasks + [task])) == Flatten(Chunks(tasks)) + task.chunk
  {
    assert Chunks(tasks + [task]) == Chunks(tasks) + [task.chunk];
    FlattenSnoc(Chunks(tasks), task.chunk);
  }

  lemma SendKeeps(a: AsyncState, data: Pcm)
    requires Tile(a.tasks, a.clock) && LongChunks(a.tasks) && |a.buffer| <= MAX_SAMPLES
    ensures var a' := AfterSend(a, data);
      && Tile(a'.tasks, a'.clock) && LongChunks(a'.tasks) && |a'.buffer| <= MAX_SAMPLES
      && Flatten(Chunks(a'.tasks)) + a'.buffer == Flatten(Chunks(a.tasks)) + a.buffer + data
      && a.tasks <= a'.tasks
  {
    var a', buffer := AfterSend(a, data), a.buffer + data;
    if |buffer| > MAX_SAMPLES {
      var task := Task(buffer, a.clock, DurationMs(|buffer|));
      assert a' == AsyncState([], End(task), a.tasks + [task]);
      AppendTask(a.tasks, a.clock, buffer);
      AppendChunk(a.tasks, task);
    }
  }

  /** Every flushed chunk followed by the buffer gives back all samples sent; the
      chunks' intervals tile the stream from 0 to the clock; at most five seconds wait. */
  lemma {:induction false} FlushesTileTheStream(actions: seq<Action>)
    ensures var a := RunAll(actions).backend;
      && Flatten(Chunks(a.tasks)) + a.buffer == SentIn(actions)
      && Tile(a.tasks, a.clock) && LongChunks(a.tasks) && |a.buffer| <= MAX_SAMPLES
    decreases |actions|
  {
    if actions == [] {
      assert Chunks(RunAll(actions).backend.tasks) == [];
    } else {
      var init, last := actions[..|actions| - 1], actions[|actions| - 1];
      FlushesTileTheStream(init);
      if last.Send? {
        SendKeeps(RunAll(init).backend, last.data);
      }
    }
  }

  /** The segment delivered for a task covers exactly that task's interval. */
  predicate Covers(s: Segment, task: Task) {
    s.startMs == task.startMs && s.endMs == End(task)
  }

  ghost predicate Sourced(w: World) {
    && |w.sources| == |w.delivered|
    && (forall i :: 0 <= i < |w.sources| ==>
          && w.sources[i] in w.finished && w.sources[i] < |w.backend.tasks|
          && Covers(w.delivered[i], w.backend.tasks[w.sources[i]]))
    && (forall i, j :: 0 <= i < j < |w.sources| ==> w.sources[i] != w.sources[j])
  }

  lemma ActKeepsSourced(w: World, a: Action)
    requires Sourced(w) && Tile(w.backend.tasks, w.backend.clock) && LongChunks(w.backend.tasks)
    requires |w.backend.buffer| <= MAX_SAMPLES
    ensures Sourced(Act(w, a))
  {
    if a.Send? {
      SendKeeps(w.backend, a.data);
    }
  }

  lemma {:induction false} DeliveriesAreSourced(actions: seq<Action>)
    ensures Sourced(RunAll(actions))
    decreases |actions|
  {
    if actions != [] {
      var init := actions[..|actions| - 1];
      DeliveriesAreSourced(init);
      FlushesTileTheStream(init);
      ActKeepsSourced(RunAll(init), actions[|actions| - 1]);
    }
  }

  lemma {:induction false} TileIsOrdered(tasks: seq<Task>, end: nat, i: nat, j: nat)
    requires Tile(tasks, end) && i < j < |tasks|
    ensures End(tasks[i]) <= tasks[j].startMs
    decreases j
  {
    if i < j - 1 {
      TileIsOrdered(tasks, end, i, j - 1);
    }
  }

  /** Whatever order the tasks finish in, each delivers at most one segment, and
      any two delivered segments cover disjoint, non-empty intervals. */
  lemma DeliveriesAreDisjoint(actions: seq<Action>, i: nat, j: nat)
    requires i < j < |RunAll(actions).delivered|
    ensures var d := RunAll(actions).delivered;
      && (d[i].endMs <= d[j].startMs || d[j].endMs <= d[i].startMs)
      && d[i].startMs < d[i].endMs && d[j].startMs < d[j].endMs
  {
    DeliveriesAreSourced(actions);
    FlushesTileTheStream(actions);
    var w := RunAll(actions);
    var a, b := w.sources[i], w.sources[j];
    if a < b {
      TileIsOrdered(w.backend.tasks, w.backend.clock, a, b);
    } else {
      TileIsOrdered(w.backend.tasks, w.backend.clock, b, a);
    }
  }

  // ------------------------------------- every transcript, and when to flush

  /** Sending makes everything that waits into one task, exactly if more than five
      seconds wait. */
  lemma SpawnsIff(a: AsyncState, data: Pcm)
    ensures var a', waiting := AfterSend(a, data), a.buffer + data;
      if |waiting| > 80000
      then a' == AsyncState([], a.clock + |waiting| / 16, a.tasks + [Task(waiting, a.clock, |waiting| / 16)])
      else a' == a.(buffer := waiting)
  {
    DurationIsSixteenth(|a.buffer + data|);
  }

  /** Action n is the first to finish task i. */
  predicate FinishesAt(actions: seq<Action>, n: nat, i: nat) {
    && n < |actions| && actions[n].Finish? && actions[n].task == i
    && i < |RunAll(actions[..n]).backend.tasks|
    && forall m: nat :: m < n && actions[m].Finish? && actions[m].task == i ==>
         i >= |RunAll(actions[..m]).backend.tasks|
  }

  lemma EarlierFinish(init: seq<Action>, a: Action, n: nat, i: nat)
    requires n < |init|
    ensures FinishesAt(init + [a], n, i) <==> FinishesAt(init, n, i)
  {
    var all := init + [a];
    assert all[..n] == init[..n] && forall m: nat :: m < n ==> all[m] == init[m] && all[..m] == init[..m];
  }

  lemma {:induction false} FirstFinish(actions: seq<Action>, m: nat, i: nat)
    requires m < |actions| && actions[m].Finish? && actions[m].task == i && i < |RunAll(actions[..m]).backend.tasks|
    ensures exists n: nat :: FinishesAt(actions, n, i)
    decreases m
  {
    if l: nat :| l < m && actions[l].Finish? && actions[l].task == i && i < |RunAll(actions[..l]).backend.tasks| {
      FirstFinish(actions, l, i);
    } else {
      assert FinishesAt(actions, m, i);
    }
  }

  /** The last action finishes a task first exactly if the task is there and not finished. */
  lemma {:induction false} LastFinish(init: seq<Action>, a: Action, i: nat)
    requires i in RunAll(init).finished <==> exists n: nat :: FinishesAt(init, n, i)
    ensures FinishesAt(init + [a], |init|, i) <==>
      a.Finish? && a.task == i && i < |RunAll(init).backend.tasks| && i !in RunAll(init).finished
  {
    var all := init + [a];
    assert all[..|init|] == init && forall m: nat :: m < |init| ==> all[m] == init[m] && all[..m] == init[..m];
    if n: nat :| FinishesAt(init, n, i) {
      assert all[n] == init[n];
    }
    if m: nat :| m < |init| && init[m].Finish? && init[m].task == i && i < |RunAll(init[..m]).backend.tasks| {
      FirstFinish(init, m, i);
    }
  }

  lemma {:induction false} FinishedIff(actions: seq<Action>, i: nat)
    ensures i in RunAll(actions).finished <==> exists n: nat :: FinishesAt(actions, n, i)
    decreases |actions|
  {
    if actions != [] {
      var init, a := actions[..|actions| - 1], actions[|actions| - 1];
      assert actions == init + [a];
      FinishedIff(init, i);
      forall n: nat | n < |init| ensures FinishesAt(actions, n, i) <==> FinishesAt(init, n, i) {
        EarlierFinish(init, a, n, i);
      }
      LastFinish(init, a, i);
      if n: nat :| FinishesAt(init, n, i) {
        assert FinishesAt(actions, n, i);
      }
    }
  }

  /** Task i delivered a segment with this text. */
  ghost predicate Delivered(w: World, i: nat, text: string) {
    |w.sources| == |w.delivered| &&
    exists j: nat :: j < |w.sources| && w.sources[j] == i && w.delivered[j].text == text
  }

  lemma DeliveredStep(w: World, a: Action, i: nat, text: string)
    requires Sourced(w) && |Act(w, a).sources| == |Act(w, a).delivered|
    ensures Delivered(Act(w, a), i, text) <==>
      || Delivered(w, i, text)
      || (a.Finish? && a.task == i && i < |w.backend.tasks| && i !in w.finished
          && a.outcome == Transcribed(text) && !Blank(text))
  {
    var w' := Act(w, a);
    if j: nat :| j < |w.sources| && w.sources[j] == i && w.delivered[j].text == text {
      assert w'.sources[j] == i && w'.delivered[j].text == text;
    }
    if j: nat :| j < |w'.sources| && w'.sources[j] == i && w'.delivered[j].text == text {
      if j < |w.sources| {
        assert w.sources[j] == i && w.delivered[j].text == text;
      }
    }
    if |w'.sources| > |w.sources| {
      assert w'.sources[|w.sources|] == a.task;
    }
  }

  /** Whatever order the tasks finish in: a task delivers a segment with some text exactly
      if the first request to come back for it came back with that text, not blank. */
  lemma {:induction false} EveryTranscriptDelivered(actions: seq<Action>, i: nat, text: string)
    ensures Delivered(RunAll(actions), i, text) <==>
      exists n: nat :: FinishesAt(actions, n, i) && actions[n].outcome == Transcribed(text) && !Blank(text)
    decreases |actions|
  {
    if actions != [] {
      var init, a := actions[..|actions| - 1], actions[|actions| - 1];
      assert actions == init + [a];
      EveryTranscriptDelivered(init, i, text);
      DeliveriesAreSourced(init);
      DeliveriesAreSourced(actions);
      DeliveredStep(RunAll(init), a, i, text);
      FinishedIff(init, i);
      LastFinish(init, a, i);
      forall n: nat | n < |init| ensures FinishesAt(actions, n, i) <==> FinishesAt(init, n, i) {
        EarlierFinish(init, a, n, i);
      }
      if n: nat :| FinishesAt(init, n, i) && init[n].outcome == Transcribed(text) && !Blank(text) {
        assert FinishesAt(actions, n, i) && actions[n] == init[n];
      }
      if n: nat :| FinishesAt(actions, n, i) && actions[n].outcome == Transcribed(text) && !Blank(text) {
        assert n < |init| ==> FinishesAt(init, n, i) && actions[n] == init[n];
      }
    }
  }
}
