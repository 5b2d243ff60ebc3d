/** The per-port table that attributes an RTP stream (an SSRC) to a session and
    endpoint, and the packet parser that uses it. */
module RtpAudioExtractor {
  import opened Prelude
  import Rtp = RtpPacket

  datatype AudioPacket = AudioPacket(key: Key, opus: seq<byte>, timestamp: nat, ssrc: nat)

  /** What the extractor remembers. */
  datatype Table = Table(
    ssrcMap: map<nat, Key>,
    defaultSession: Option<Key>,
    autoLearn: bool,
    enabled: map<Key, bool>)

  const EMPTY_TABLE := Table(map[], None, false, map[])

  const AUDIO_PAYLOAD_TYPES: seq<nat> := [111, 109]

  function Learning(k: Key): Table {
    Table(map[], Some(k), true, map[])
  }

  function SetAutoLearn(t: Table, k: Key): Table {
    t.(defaultSession := Some(k), autoLearn := true)
  }

  function Enable(t: Table, k: Key): Table {
    t.(defaultSession := Some(k), autoLearn := true, enabled := t.enabled[k := true])
  }

  function Disable(t: Table, k: Key): Table {
    t.(enabled := t.enabled - {k})
  }

  function Register(t: Table, ssrc: nat, k: Key): Table {
    t.(ssrcMap := t.ssrcMap[ssrc := k])
  }

  function Unregister(t: Table, ssrc: nat): Table {
    t.(ssrcMap := t.ssrcMap - {ssrc})
  }

  /** The lookup inside `extract_audio`: learn only while auto-learn is on. */
  function ParserLookup(t: Table, ssrc: nat): (Table, Option<Key>) {
    if ssrc in t.ssrcMap then (t, Some(t.ssrcMap[ssrc]))
    else if t.autoLearn && t.defaultSession.Some? then
      (Register(t, ssrc, t.defaultSession.value), t.defaultSession)
    else (t, None)
  }

  /** The lookup written out again in the media run loop: no auto-learn test,
      and (0, 0) where nothing is known. */
  function LoopLookup(t: Table, ssrc: nat): (Table, Key) {
    if ssrc in t.ssrcMap then (t, t.ssrcMap[ssrc])
    else if t.defaultSession.Some? then
      (Register(t, ssrc, t.defaultSession.value), t.defaultSession.value)
    else (t, (0, 0))
  }

  predicate LooksLikeAudio(d: seq<byte>) {
    |d| >= 12 && Rtp.Version(d) == 2 && Rtp.PayloadType(d) in AUDIO_PAYLOAD_TYPES
  }

  /** `extract_audio` as a function: the SSRC is learned even when the packet
      then turns out to carry no payload. */
  function Extract(t: Table, d: seq<byte>): (Table, Option<AudioPacket>) {
    if !LooksLikeAudio(d) then (t, None)
    else
      var (t', owner) := ParserLookup(t, Rtp.Ssrc(d));
      var payload := Rtp.Payload(d);
      if owner.None? || payload.None? then (t', None)
      else (t', Some(AudioPacket(owner.value, payload.value, Rtp.Timestamp(d), Rtp.Ssrc(d))))
  }

  /** The extractor itself. */
  class Extractor {
    var ssrcMap: map<nat, Key>
    var defaultSession: Option<Key>
    var autoLearn: bool
    var transcriptionSessions: map<Key, bool>
    const audioPayloadTypes: seq<nat>

    ghost predicate Valid() {
      audioPayloadTypes == AUDIO_PAYLOAD_TYPES
    }

    ghost function State(): Table
      reads this
    {
      Table(ssrcMap, defaultSession, autoLearn, transcriptionSessions)
    }

    constructor ()
      ensures Valid() && State() == EMPTY_TABLE
    {
      ssrcMap, defaultSession, autoLearn, transcriptionSessions := map[], None, false, map[];
      audioPayloadTypes := AUDIO_PAYLOAD_TYPES;
    }

    constructor WithAutoLearn(k: Key)
      ensures Valid() && State() == Learning(k)
    {
      ssrcMap, defaultSession, autoLearn, transcriptionSessions := map[], Some(k), true, map[];
      audioPayloadTypes := AUDIO_PAYLOAD_TYPES;
    }

    method SetAutoLearnFor(k: Key)
      modifies this
      ensures State() == SetAutoLearn(old(State()), k)
    {
      defaultSession := Some(k);
      autoLearn := true;
    }

    method EnableFor(k: Key)
      modifies this
      ensures State() == Enable(old(State()), k)
    {
      transcriptionSessions := transcriptionSessions[k := true];
      defaultSession := Some(k);
      autoLearn := true;
    }

    method DisableFor(k: Key)
      modifies this
      ensures State() == Disable(old(State()), k)
    {
      transcriptionSessions := transcriptionSessions - {k};
    }

    method RegisterSsrc(ssrc: nat, k: Key)
      modifies this
      ensures State() == Register(old(State()), ssrc, k)
    {
      ssrcMap := ssrcMap[ssrc := k];
    }

    method UnregisterSsrc(ssrc: nat)
      modifies this
      ensures State() == Unregister(old(State()), ssrc)
    {
      ssrcMap := ssrcMap - {ssrc};
    }

    /** The known owner of an SSRC, or the default while learning. */
    method FindOwner(ssrc: nat) returns (owner: Option<Key>)
      modifies this
      ensures (State(), owner) == ParserLookup(old(State()), ssrc)
    {
      if ssrc in ssrcMap {
        return Some(ssrcMap[ssrc]);
      }
      if !autoLearn || defaultSession.None? {
        return None;
      }
      owner := defaultSession;
      ssrcMap := ssrcMap[ssrc := defaultSession.value];
    }

    /** Skips the CSRC list and the extension and cuts the padding. */
    static method FindPayload(d: seq<byte>) returns (payload: Option<seq<byte>>)
      requires |d| >= 12
      ensures payload == Rtp.Payload(d)
    {
      var padding, extension, csrcCount := d[0] / 32 % 2, d[0] / 16 % 2, d[0] % 16;
      var offset := 12 + csrcCount * 4;
      if extension == 1 && |d| > offset + 4 {
        var words := ReadBe16(d[offset + 2], d[offset + 3]);
        offset := offset + 4 + words * 4;
      }
      assert offset == Rtp.PayloadStart(d);
      if offset >= |d| {
        return None;
      }
      var payloadEnd := |d|;
      if padding == 1 {
        var count := d[|d| - 1];
        payloadEnd := if count <= |d| then |d| - count else 0;
      }
      assert payloadEnd == Rtp.PayloadEnd(d);
      if offset >= payloadEnd {
        return None;
      }
      payload := Some(d[offset..payloadEnd]);
    }

    /** A whole fixed header, the right version and a payload type that carries audio. */
    method HasAudioHeader(d: seq<byte>) returns (ok: bool)
      requires Valid()
      ensures ok <==> LooksLikeAudio(d)
    {
      if |d| < 12 {
        return false;
      }
      if d[0] / 64 % 4 != 2 {
        return false;
      }
      ok := d[1] % 128 in audioPayloadTypes;
    }

    method ExtractAudio(d: seq<byte>) returns (audio: Option<AudioPacket>)
      requires Valid()
      modifies this
      ensures (State(), audio) == Extract(old(State()), d)
    {
      var ok := HasAudioHeader(d);
      if !ok {
        return None;
      }
      var timestamp, ssrc := Rtp.Timestamp(d), Rtp.Ssrc(d);
      var owner := FindOwner(ssrc);
      if owner.None? {
        return None;
      }
      var payload := FindPayload(d);
      if payload.None? {
        return None;
      }
      audio := Some(AudioPacket(owner.value, payload.value, timestamp, ssrc));
    }
  }

  // ------------------------------------------------------------- round trip

  /** The stream an SSRC belongs to or is about to be given to. */
  function OwnerOf(t: Table, ssrc: nat): Option<Key> {
    if ssrc in t.ssrcMap then Some(t.ssrcMap[ssrc]) else if t.autoLearn then t.defaultSession else None
  }

  /** A legal audio packet of a stream that is known or can be learned comes back with
      its payload, timestamp and SSRC, and leaves its owner in the table and the rest
      of it alone, exactly unless it is a bare empty extension. */
  lemma {:induction false} ExtractInvertsSerialize(t: Table, p: Rtp.Packet)
    requires Rtp.WellFormed(p) && (p.payloadType == 111 || p.payloadType == 109) && OwnerOf(t, p.ssrc).Some?
    ensures var owner := OwnerOf(t, p.ssrc).value;
      Extract(t, Rtp.Serialize(p)) ==
        (t.(ssrcMap := t.ssrcMap[p.ssrc := owner]),
         if p.payload == [] then None else Some(AudioPacket(owner, p.payload, p.timestamp, p.ssrc)))
      <==> !Rtp.BareEmptyExtension(p)
  {
    Rtp.SerializeHeader(p);
    Rtp.PayloadInvertsSerialize(p);
    if p.ssrc in t.ssrcMap {
      assert t.ssrcMap[p.ssrc := t.ssrcMap[p.ssrc]] == t.ssrcMap;
    }
  }

  /** For arbitrary octets, when audio is handed on and what: exactly if there is a whole
      fixed header of version 2 and payload type 111 or 109, the SSRC has an owner, and
      some payload is left; then it is that payload, a slice past the fixed header. */
  lemma {:induction false} ExtractsIff(t: Table, d: seq<byte>)
    ensures var (t', audio) := Extract(t, d);
      var audible := |d| >= 12 && d[0] / 64 == 2 && (d[1] % 128 == 111 || d[1] % 128 == 109);
      && (audio.Some? <==> audible && OwnerOf(t, Rtp.Ssrc(d)).Some? && Rtp.Payload(d).Some?)
      && (audio.Some? ==>
            && audio.value.key == OwnerOf(t, Rtp.Ssrc(d)).value && audio.value.opus == Rtp.Payload(d).value
            && audio.value.timestamp == Rtp.Timestamp(d) && audio.value.ssrc == Rtp.Ssrc(d)
            && audio.value.opus != []
            && (exists i, j :: 12 <= i < j <= |d| && audio.value.opus == d[i..j]))
      && t' == (if audible && OwnerOf(t, Rtp.Ssrc(d)).Some?
                then t.(ssrcMap := t.ssrcMap[Rtp.Ssrc(d) := OwnerOf(t, Rtp.Ssrc(d)).value]) else t)
  {
    if |d| >= 12 {
      Rtp.PayloadIsSlice(d);
      if Rtp.Ssrc(d) in t.ssrcMap {
        assert t.ssrcMap[Rtp.Ssrc(d) := t.ssrcMap[Rtp.Ssrc(d)]] == t.ssrcMap;
      }
    }
  }

  /** For arbitrary octets: any audio handed on is a non-empty slice past the
      fixed header, of an accepted payload type, owned by what the table now says. */
  lemma ExtractIsFaithful(t: Table, d: seq<byte>)
    ensures var (t', audio) := Extract(t, d);
      audio.Some? ==>
        && |d| >= 12 && d[0] / 64 == 2 && (d[1] % 128 == 111 || d[1] % 128 == 109)
        && audio.value.opus != []
        && (exists i, j :: 12 <= i < j <= |d| && audio.value.opus == d[i..j])
        && audio.value.ssrc in t'.ssrcMap && t'.ssrcMap[audio.value.ssrc] == audio.value.key
  {
    ExtractsIff(t, d);
  }

  // --------------------------------------------------- histories of the table

  datatype Op =
    | OpSetAutoLearn(key: Key)
    | OpEnable(key: Key)
    | OpDisable(key: Key)
    | OpRegister(ssrc: nat, key: Key)
    | OpUnregister(ssrc: nat)
    | OpExtract(octets: seq<byte>)
    | OpForward(ssrc: nat)

  function Apply(t: Table, op: Op): Table {
    match op
    case OpSetAutoLearn(k) => SetAutoLearn(t, k)
    case OpEnable(k) => Enable(t, k)
    case OpDisable(k) => Disable(t, k)
    case OpRegister(ssrc, k) => Register(t, ssrc, k)
    case OpUnregister(ssrc) => Unregister(t, ssrc)
    case OpExtract(d) => Extract(t, d).0
    case OpForward(ssrc) => LoopLookup(t, ssrc).0
  }

  function ApplyAll(t: Table, ops: seq<Op>): Table {
    if ops == [] then t else Apply(ApplyAll(t, ops[..|ops| - 1]), ops[|ops| - 1])
  }

  predicate Consistent(t: Table) {
    t.autoLearn <==> t.defaultSession.Some?
  }

  ghost predicate Initial(t: Table) {
    t == EMPTY_TABLE || (exists k :: t == Learning(k))
  }

  lemma {:induction false} AutoLearnMeansDefault(start: Table, ops: seq<Op>)
    requires Initial(start)
    ensures Consistent(ApplyAll(start, ops))
    decreases |ops|
  {
    if ops != [] {
      AutoLearnMeansDefault(start, ops[..|ops| - 1]);
    }
  }

  /** The two lookups give the same table and owner, up to the (0, 0) sentinel,
      exactly when auto-learn is on wherever a default would be used. */
  lemma LookupsAgreeIff(t: Table, ssrc: nat)
    ensures
      (&& LoopLookup(t, ssrc).0 == ParserLookup(t, ssrc).0
       && LoopLookup(t, ssrc).1 == (match ParserLookup(t, ssrc).1 case Some(k) => k case None => (0, 0)))
      <==> (ssrc in t.ssrcMap || t.defaultSession.None? || t.autoLearn)
  {
    if ssrc !in t.ssrcMap && t.defaultSession.Some? && !t.autoLearn {
      assert ssrc in LoopLookup(t, ssrc).0.ssrcMap;
    }
  }

  /** So they agree in every state the extractor can reach. */
  lemma LookupsAgree(start: Table, ops: seq<Op>, ssrc: nat)
    requires Initial(start)
    ensures var t := ApplyAll(start, ops);
      && LoopLookup(t, ssrc).0 == ParserLookup(t, ssrc).0
      && LoopLookup(t, ssrc).1 == (match ParserLookup(t, ssrc).1 case Some(k) => k case None => (0, 0))
  {
    AutoLearnMeansDefault(start, ops);
    LookupsAgreeIff(ApplyAll(start, ops), ssrc);
  }

  predicate Reassigns(op: Op, ssrc: nat) {
    (op.OpRegister? || op.OpUnregister?) && op.ssrc == ssrc
  }

  /** Once an SSRC has an owner, no enable, disable or packet changes it. */
  lemma {:induction false} OwnersAreSticky(t: Table, ops: seq<Op>, ssrc: nat)
    requires ssrc in t.ssrcMap
    requires forall i :: 0 <= i < |ops| ==> !Reassigns(ops[i], ssrc)
    ensures ssrc in ApplyAll(t, ops).ssrcMap
    ensures ApplyAll(t, ops).ssrcMap[ssrc] == t.ssrcMap[ssrc]
    decreases |ops|
  {
    if ops != [] {
      OwnersAreSticky(t, ops[..|ops| - 1], ssrc);
      assert !Reassigns(ops[|ops| - 1], ssrc);
    }
  }

  /** The keys an operation brings into the table. */
  function Introduces(op: Op): set<Key> {
    match op
    case OpSetAutoLearn(k) => {k}
    case OpEnable(k) => {k}
    case OpRegister(_, k) => {k}
    case _ => {}
  }

  /** Every default and every owner in the table was named by some earlier operation. */
  lemma {:induction false} OwnersWereIntroduced(ops: seq<Op>, k: Key)
    requires var t := ApplyAll(EMPTY_TABLE, ops); t.defaultSession == Some(k) || k in t.ssrcMap.Values
    ensures exists i :: 0 <= i < |ops| && k in Introduces(ops[i])
    decreases |ops|
  {
    var init, op := ops[..|ops| - 1], ops[|ops| - 1];
    var t := ApplyAll(EMPTY_TABLE, init);
    if k in Introduces(op) {
    } else {
      assert t.defaultSession == Some(k) || k in t.ssrcMap.Values;
      OwnersWereIntroduced(init, k);
      var i :| 0 <= i < |init| && k in Introduces(init[i]);
      assert ops[i] == init[i];
    }
  }

  /** An operation that asks who owns an SSRC. */
  predicate LooksUp(op: Op, ssrc: nat) {
    || (op.OpForward? && op.ssrc == ssrc)
    || (op.OpExtract? && LooksLikeAudio(op.octets) && Rtp.Ssrc(op.octets) == ssrc)
  }

  /** The stream enabled most recently on this port, whoever it was. */
  function LastEnabled(ops: seq<Op>): Option<Key> {
    if ops == [] then None
    else
      match ops[|ops| - 1]
      case OpEnable(k) => Some(k)
      case OpSetAutoLearn(k) => Some(k)
      case _ => LastEnabled(ops[..|ops| - 1])
  }

  /** Operation i looks the SSRC up when some stream has been enabled. */
  predicate Answered(ops: seq<Op>, i: nat, ssrc: nat)
    requires i < |ops|
  {
    LooksUp(ops[i], ssrc) && LastEnabled(ops[..i]).Some?
  }

  /** Operation i is the first such. */
  predicate LearnsAt(ops: seq<Op>, i: nat, ssrc: nat) {
    && i < |ops| && Answered(ops, i, ssrc)
    && forall j: nat :: j < i ==> !Answered(ops, j, ssrc)
  }

  lemma {:induction false} DefaultIsLastEnabled(ops: seq<Op>)
    ensures ApplyAll(EMPTY_TABLE, ops).defaultSession == LastEnabled(ops)
    ensures ApplyAll(EMPTY_TABLE, ops).autoLearn <==> LastEnabled(ops).Some?
    decreases |ops|
  {
    if ops != [] {
      DefaultIsLastEnabled(ops[..|ops| - 1]);
    }
  }

  /** What one operation does to the owner of an SSRC that it does not reassign. */
  lemma OwnerAfter(t: Table, op: Op, ssrc: nat)
    requires Consistent(t) && !Reassigns(op, ssrc)
    ensures var t' := Apply(t, op);
      && (ssrc in t'.ssrcMap <==> ssrc in t.ssrcMap || (LooksUp(op, ssrc) && t.defaultSession.Some?))
      && (ssrc in t'.ssrcMap ==>
            t'.ssrcMap[ssrc] == if ssrc in t.ssrcMap then t.ssrcMap[ssrc] else t.defaultSession.value)
  {
  }

  lemma AnsweredSnoc(ops: seq<Op>, op: Op, i: nat, ssrc: nat)
    requires i <= |ops|
    ensures Answered(ops + [op], i, ssrc) <==>
      if i < |ops| then Answered(ops, i, ssrc) else LooksUp(op, ssrc) && LastEnabled(ops).Some?
  {
    assert (ops + [op])[..i] == ops[..i];
    assert ops[..|ops|] == ops;
  }

  /** Who owns an SSRC, over any history in which nobody registers or unregisters it
      explicitly, as the service never does: an owner is known exactly if it was
      looked up while some stream was enabled, and it is the stream enabled last
      before the first such lookup, whoever really sends it. */
  lemma {:induction false} OwnerIsLastEnabled(ops: seq<Op>, ssrc: nat)
    requires forall i :: 0 <= i < |ops| ==> !Reassigns(ops[i], ssrc)
    ensures var t := ApplyAll(EMPTY_TABLE, ops);
      && (ssrc in t.ssrcMap <==> exists i: nat :: i < |ops| && Answered(ops, i, ssrc))
      && (forall i: nat :: LearnsAt(ops, i, ssrc) ==>
            ssrc in t.ssrcMap && LastEnabled(ops[..i]) == Some(t.ssrcMap[ssrc]))
    decreases |ops|
  {
    if ops != [] {
      var init, op := ops[..|ops| - 1], ops[|ops| - 1];
      assert ops == init + [op] && !Reassigns(op, ssrc);
      OwnerIsLastEnabled(init, ssrc);
      DefaultIsLastEnabled(init);
      OwnerAfter(ApplyAll(EMPTY_TABLE, init), op, ssrc);
      forall i: nat | i < |init| ensures Answered(ops, i, ssrc) <==> Answered(init, i, ssrc) {
        AnsweredSnoc(init, op, i, ssrc);
      }
      AnsweredSnoc(init, op, |init|, ssrc);
      if i: nat :| i < |init| && Answered(init, i, ssrc) {
        assert Answered(ops, i, ssrc);
      }
      forall i: nat | LearnsAt(ops, i, ssrc)
        ensures ssrc in ApplyAll(EMPTY_TABLE, ops).ssrcMap
        ensures LastEnabled(ops[..i]) == Some(ApplyAll(EMPTY_TABLE, ops).ssrcMap[ssrc])
      {
        assert ops[..i] == init[..i];
        assert init[..|init|] == init;
        if i < |init| {
          assert LearnsAt(init, i, ssrc);
        }
      }
    }
  }

  /** Operation i enabled the stream and nothing has disabled it since. */
  predicate EnabledAt(ops: seq<Op>, i: nat, k: Key) {
    i < |ops| && ops[i] == OpEnable(k) && forall j :: i < j < |ops| ==> ops[j] != OpDisable(k)
  }

  lemma EnabledAtSnoc(ops: seq<Op>, op: Op, i: nat, k: Key)
    ensures EnabledAt(ops + [op], i, k) <==>
      if i < |ops| then EnabledAt(ops, i, k) && op != OpDisable(k) else i == |ops| && op == OpEnable(k)
  {
    var all := ops + [op];
    if EnabledAt(all, i, k) && i < |ops| {
      assert all[|ops|] == op;
      forall j | i < j < |ops| ensures ops[j] != OpDisable(k) { assert all[j] == ops[j]; }
    }
  }

  /** A stream carries the enabled mark exactly if it was enabled and not disabled since. */
  lemma {:induction false} MarkedIff(ops: seq<Op>, k: Key)
    ensures k in ApplyAll(EMPTY_TABLE, ops).enabled <==> exists i: nat :: EnabledAt(ops, i, k)
    decreases |ops|
  {
    if ops != [] {
      var init, op := ops[..|ops| - 1], ops[|ops| - 1];
      assert ops == init + [op];
      MarkedIff(init, k);
      EnabledAtSnoc(init, op, |init|, k);
      forall i: nat ensures EnabledAt(ops, i, k) <==>
        if i < |init| then EnabledAt(init, i, k) && op != OpDisable(k) else i == |init| && op == OpEnable(k)
      {
        EnabledAtSnoc(init, op, i, k);
      }
      if i: nat :| EnabledAt(init, i, k) {
        assert EnabledAt(ops, i, k) <==> op != OpDisable(k);
      }
    }
  }

  /** Disabling a session leaves both lookups exactly as they were: it does not
      stop that session's audio from being forwarded. */
  lemma DisableDoesNotStopAudio(t: Table, k: Key, ssrc: nat)
    ensures LoopLookup(Disable(t, k), ssrc).1 == LoopLookup(t, ssrc).1
    ensures ParserLookup(Disable(t, k), ssrc).1 == ParserLookup(t, ssrc).1
    ensures LoopLookup(Disable(t, k), ssrc).0 == Disable(LoopLookup(t, ssrc).0, k)
  {
  }
}
