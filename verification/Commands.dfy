/** What travels on the transcription worker's FIFO. */
module Commands {
  import opened Prelude
  import opened RtpAudioExtractor

  datatype BackendConfig =
    | NoBackend
    | SimulStreaming(addresses: seq<string>)
    | OpenAi(apiKey: string, baseUrl: Option<string>, model: Option<string>)

  datatype Command =
    | StartSession(key: Key, config: Option<BackendConfig>)
    | StopSession(key: Key)
    | Audio(packet: AudioPacket)
    | Shutdown

  predicate Starts(c: Command, k: Key) { c.StartSession? && c.key == k }

  predicate Stops(c: Command, k: Key) { c.StopSession? && c.key == k }

  predicate Speaks(c: Command, k: Key) { c.Audio? && c.packet.key == k }

  /** The keys started so far. */
  function StartedKeys(log: seq<Command>): set<Key> {
    if log == [] then {}
    else
      var keys, last := StartedKeys(log[..|log| - 1]), log[|log| - 1];
      if last.StartSession? then keys + {last.key} else keys
  }

  lemma {:induction false} StartedKeysIff(log: seq<Command>, k: Key)
    ensures k in StartedKeys(log) <==> exists i :: 0 <= i < |log| && Starts(log[i], k)
    decreases |log|
  {
    if log != [] {
      var init, last := log[..|log| - 1], log[|log| - 1];
      StartedKeysIff(init, k);
      assert forall i :: 0 <= i < |init| ==> log[i] == init[i];
      assert log[|log| - 1] == last;
      if Starts(last, k) { assert Starts(log[|log| - 1], k); }
    }
  }

  lemma StartedKeysSnoc(log: seq<Command>, c: Command)
    ensures StartedKeys(log + [c]) == StartedKeys(log) + (if c.StartSession? then {c.key} else {})
  {
    assert (log + [c])[..|log|] == log;
  }

  /** The packets of one session among `packets`, in order. */
  function OfSession(packets: seq<AudioPacket>, session: nat): seq<AudioPacket> {
    if packets == [] then []
    else
      var rest, last := OfSession(packets[..|packets| - 1], session), packets[|packets| - 1];
      if last.key.0 == session then rest + [last] else rest
  }

  /** The packets of one stream among `packets`, in order. */
  function OfKey(packets: seq<AudioPacket>, k: Key): seq<AudioPacket> {
    if packets == [] then []
    else
      var rest, last := OfKey(packets[..|packets| - 1], k), packets[|packets| - 1];
      if last.key == k then rest + [last] else rest
  }

  /** All audio in a command log, in order. */
  function AudioIn(log: seq<Command>): seq<AudioPacket> {
    if log == [] then []
    else
      var rest, last := AudioIn(log[..|log| - 1]), log[|log| - 1];
      if last.Audio? then rest + [last.packet] else rest
  }

  lemma AudioInSnoc(log: seq<Command>, c: Command)
    ensures AudioIn(log + [c]) == AudioIn(log) + (if c.Audio? then [c.packet] else [])
  {
    assert (log + [c])[..|log|] == log;
  }

  lemma OfSessionSnoc(packets: seq<AudioPacket>, p: AudioPacket, session: nat)
    ensures OfSession(packets + [p], session) == OfSession(packets, session) + (if p.key.0 == session then [p] else [])
  {
    assert (packets + [p])[..|packets|] == packets;
  }

  lemma OfKeySnoc(packets: seq<AudioPacket>, p: AudioPacket, k: Key)
    ensures OfKey(packets + [p], k) == OfKey(packets, k) + (if p.key == k then [p] else [])
  {
    assert (packets + [p])[..|packets|] == packets;
  }

  /** Choosing a stream first by session and then by endpoint. */
  lemma {:induction false} OfKeyOfSession(packets: seq<AudioPacket>, k: Key)
    ensures OfKey(OfSession(packets, k.0), k) == OfKey(packets, k)
    decreases |packets|
  {
    if packets != [] {
      var init, last := packets[..|packets| - 1], packets[|packets| - 1];
      OfKeyOfSession(init, k);
      if last.key.0 == k.0 {
        OfKeySnoc(OfSession(init, k.0), last, k);
      }
    }
  }

  lemma {:induction false} OfKeyConcat(a: seq<AudioPacket>, b: seq<AudioPacket>, k: Key)
    ensures OfKey(a + b, k) == OfKey(a, k) + OfKey(b, k)
    decreases |b|
  {
    if b == [] {
      assert a + b == a;
    } else {
      var init, last := b[..|b| - 1], b[|b| - 1];
      assert a + b == (a + init) + [last] && b == init + [last];
      OfKeySnoc(a + init, last, k);
      OfKeySnoc(init, last, k);
      OfKeyConcat(a, init, k);
    }
  }

  lemma {:induction false} AudioInConcat(a: seq<Command>, b: seq<Command>)
    ensures AudioIn(a + b) == AudioIn(a) + AudioIn(b)
    decreases |b|
  {
    if b == [] {
      assert a + b == a;
    } else {
      var init, last := b[..|b| - 1], b[|b| - 1];
      assert a + b == (a + init) + [last] && b == init + [last];
      AudioInSnoc(a + init, last);
      AudioInSnoc(init, last);
      AudioInConcat(a, init);
    }
  }
}
