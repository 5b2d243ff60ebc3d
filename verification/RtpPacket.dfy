/** RTP packets as RFC 3550 lays them out (section 5.1 and 5.3.1), next to the
    arithmetic the server uses to find the payload inside one. */
module RtpPacket {
  import opened Prelude

  /** A header extension: a profile word and a whole number of 32-bit words. */
  datatype Extension = Extension(profile: nat, words: seq<byte>)

  /** One packet. `csrcs` is the CSRC list as octets, four per identifier;
      `padding` is empty or ends with its own length. */
  datatype Packet = Packet(
    marker: bool,
    payloadType: nat,
    sequence: nat,
    timestamp: nat,
    ssrc: nat,
    csrcs: seq<byte>,
    extension: Option<Extension>,
    payload: seq<byte>,
    padding: seq<byte>)

  predicate WellFormed(p: Packet) {
    && p.payloadType < 128
    && p.sequence < TWO16
    && p.timestamp < TWO32
    && p.ssrc < TWO32
    && |p.csrcs| % 4 == 0 && |p.csrcs| / 4 <= 15
    && (p.extension.Some? ==>
          && p.extension.value.profile < TWO16
          && |p.extension.value.words| % 4 == 0
          && |p.extension.value.words| / 4 < TWO16)
    && (p.padding != [] ==> |p.padding| < 256 && p.padding[|p.padding| - 1] == |p.padding|)
  }

  function FixedHeader(p: Packet): (h: seq<byte>)
    requires WellFormed(p)
    ensures |h| == 12
  {
    var pad := if p.padding != [] then 1 else 0;
    var ext := if p.extension.Some? then 1 else 0;
    var mark := if p.marker then 1 else 0;
    [128 + pad * 32 + ext * 16 + |p.csrcs| / 4, mark * 128 + p.payloadType]
    + Be16(p.sequence) + Be32(p.timestamp) + Be32(p.ssrc)
  }

  function ExtensionOctets(e: Option<Extension>): (bs: seq<byte>)
    requires e.Some? ==> e.value.profile < TWO16 && |e.value.words| / 4 < TWO16
  {
    if e.None? then []
    else Be16(e.value.profile) + Be16(|e.value.words| / 4) + e.value.words
  }

  function Serialize(p: Packet): (d: seq<byte>)
    requires WellFormed(p)
  {
    FixedHeader(p) + p.csrcs + ExtensionOctets(p.extension) + p.payload + p.padding
  }

  // ---------------------------------------------------------------- parsing

  function Version(d: seq<byte>): nat requires |d| >= 12 { d[0] / 64 }
  predicate HasPadding(d: seq<byte>) requires |d| >= 12 { d[0] / 32 % 2 == 1 }
  predicate HasExtension(d: seq<byte>) requires |d| >= 12 { d[0] / 16 % 2 == 1 }
  function PayloadType(d: seq<byte>): nat requires |d| >= 12 { d[1] % 128 }
  function Timestamp(d: seq<byte>): nat requires |d| >= 12 { ReadBe32(d[4], d[5], d[6], d[7]) }
  function Ssrc(d: seq<byte>): nat requires |d| >= 12 { ReadBe32(d[8], d[9], d[10], d[11]) }

  /** First octet after the CSRC list. */
  function AfterCsrcs(d: seq<byte>): nat requires |d| >= 12 { 12 + d[0] % 16 * 4 }

  /** Where the server starts reading audio. An extension is only skipped when
      more than its own four-octet header is left. */
  function PayloadStart(d: seq<byte>): nat
    requires |d| >= 12
  {
    var base := AfterCsrcs(d);
    if HasExtension(d) && |d| > base + 4 then base + 4 + ReadBe16(d[base + 2], d[base + 3]) * 4
    else base
  }

  /** Where it stops: the last octet counts the padding, saturating at 0. */
  function PayloadEnd(d: seq<byte>): nat
    requires |d| >= 12
  {
    if !HasPadding(d) then |d|
    else if d[|d| - 1] <= |d| then |d| - d[|d| - 1] else 0
  }

  function Payload(d: seq<byte>): Option<seq<byte>>
    requires |d| >= 12
  {
    var start, end := PayloadStart(d), PayloadEnd(d);
    if start >= |d| || start >= end then None else Some(d[start..end])
  }

  /** What a receiver following the RFC would hand on: no audio in an empty packet. */
  function Audio(p: Packet): Option<seq<byte>> {
    if p.payload == [] then None else Some(p.payload)
  }

  /** The one shape the server misreads: nothing but an empty extension after
      the CSRC list. Its four extension octets are taken for audio. */
  predicate BareEmptyExtension(p: Packet) {
    p.extension.Some? && p.extension.value.words == [] && p.payload == [] && p.padding == []
  }

  lemma FlagOctet(pad: nat, ext: nat, count: nat)
    requires pad <= 1 && ext <= 1 && count <= 15
    ensures var b := 128 + pad * 32 + ext * 16 + count;
      b < 256 && b / 64 == 2 && b / 32 % 2 == pad && b / 16 % 2 == ext && b % 16 == count
  {
  }

  lemma FlagOctetUnique(b: byte)
    requires b / 64 == 2
    ensures b == 128 + b / 32 % 2 * 32 + b / 16 % 2 * 16 + b % 16
  {
  }

  lemma FixedHeaderFields(p: Packet)
    requires WellFormed(p)
    ensures var h := FixedHeader(p);
      && Version(h) == 2
      && (HasPadding(h) <==> p.padding != [])
      && (HasExtension(h) <==> p.extension.Some?)
      && AfterCsrcs(h) == 12 + |p.csrcs|
      && PayloadType(h) == p.payloadType
  {
    var h := FixedHeader(p);
    FlagOctet(if p.padding != [] then 1 else 0, if p.extension.Some? then 1 else 0, |p.csrcs| / 4);
    assert h[1] == (if p.marker then 128 else 0) + p.payloadType;
  }

  lemma FixedHeaderWords(p: Packet)
    requires WellFormed(p)
    ensures var h := FixedHeader(p); Timestamp(h) == p.timestamp && Ssrc(h) == p.ssrc
  {
    var h := FixedHeader(p);
    Be32RoundTrip(p.timestamp);
    Be32RoundTrip(p.ssrc);
    var t, s := Be32(p.timestamp), Be32(p.ssrc);
    assert h[4..8] == t && h[8..12] == s;
    assert h[4] == t[0] && h[5] == t[1] && h[6] == t[2] && h[7] == t[3];
    assert h[8] == s[0] && h[9] == s[1] && h[10] == s[2] && h[11] == s[3];
  }

  lemma SerializeHeader(p: Packet)
    requires WellFormed(p)
    ensures var d := Serialize(p);
      && |d| == 12 + |p.csrcs| + |ExtensionOctets(p.extension)| + |p.payload| + |p.padding|
      && Version(d) == 2
      && (HasPadding(d) <==> p.padding != [])
      && (HasExtension(d) <==> p.extension.Some?)
      && PayloadType(d) == p.payloadType
      && Timestamp(d) == p.timestamp
      && Ssrc(d) == p.ssrc
      && AfterCsrcs(d) == 12 + |p.csrcs|
  {
    FixedHeaderFields(p);
    FixedHeaderWords(p);
    var d, h := Serialize(p), FixedHeader(p);
    assert forall i :: 0 <= i < 12 ==> d[i] == h[i];
  }

  /** The octets after the CSRC list, piece by piece. */
  lemma SerializePieces(p: Packet)
    requires WellFormed(p)
    ensures var d, base, e := Serialize(p), 12 + |p.csrcs|, ExtensionOctets(p.extension);
      && |d| == base + |e| + |p.payload| + |p.padding|
      && d[base..base + |e|] == e
      && d[base + |e|..base + |e| + |p.payload|] == p.payload
      && d[base + |e| + |p.payload|..] == p.padding
  {
  }

  lemma SerializeStart(p: Packet)
    requires WellFormed(p)
    ensures var d := Serialize(p);
      && PayloadEnd(d) == |d| - |p.padding|
      && (!BareEmptyExtension(p) ==>
            PayloadStart(d) == 12 + |p.csrcs| + |ExtensionOctets(p.extension)|)
      && (BareEmptyExtension(p) ==> PayloadStart(d) == 12 + |p.csrcs| && |d| == 16 + |p.csrcs|)
  {
    SerializeHeader(p);
    SerializePieces(p);
    var d, base, e := Serialize(p), 12 + |p.csrcs|, ExtensionOctets(p.extension);
    if p.padding != [] {
      assert d[|d| - 1] == d[base + |e| + |p.payload|..][|p.padding| - 1];
    }
    if p.extension.Some? {
      assert d[base + 2] == d[base..base + |e|][2] && d[base + 3] == d[base..base + |e|][3];
      var words := |p.extension.value.words| / 4;
      assert ReadBe16(e[2], e[3]) == words;
    }
  }

  /** Parsing inverts serialising, for every packet the RFC allows, except the
      one shape above; there it never does. */
  lemma PayloadInvertsSerialize(p: Packet)
    requires WellFormed(p)
    ensures Payload(Serialize(p)) == Audio(p) <==> !BareEmptyExtension(p)
  {
    SerializeHeader(p);
    SerializePieces(p);
    SerializeStart(p);
    if BareEmptyExtension(p) {
      assert Payload(Serialize(p)).Some?;
    }
  }

  /** Whatever the octets are, an accepted payload is a non-empty slice that
      begins after the fixed header. */
  lemma PayloadIsSlice(d: seq<byte>)
    requires |d| >= 12
    ensures Payload(d).Some? ==>
      12 <= PayloadStart(d) < PayloadEnd(d) <= |d| && Payload(d).value == d[PayloadStart(d)..PayloadEnd(d)]
  {
  }

  /** The checks a caller would need for an accepted slice to be the payload of a legal packet. */
  predicate LegalFraming(d: seq<byte>)
    requires |d| >= 12
  {
    && (HasExtension(d) ==> |d| > AfterCsrcs(d) + 4)
    && (HasPadding(d) ==> d[|d| - 1] > 0)
  }

  /** Reads a packet back from octets whose framing is legal. */
  function Reconstruct(d: seq<byte>): Packet
    requires |d| >= 12 && Payload(d).Some? && LegalFraming(d)
  {
    var base, start, end := AfterCsrcs(d), PayloadStart(d), PayloadEnd(d);
    Packet(d[1] >= 128, PayloadType(d), ReadBe16(d[2], d[3]), Timestamp(d), Ssrc(d),
           d[12..base],
           if HasExtension(d) then Some(Extension(ReadBe16(d[base], d[base + 1]), d[base + 4..start])) else None,
           d[start..end],
           d[end..])
  }

  lemma FourTimes(n: nat)
    ensures n * 4 % 4 == 0 && n * 4 / 4 == n
  {
  }

  lemma ReconstructWellFormed(d: seq<byte>)
    requires |d| >= 12 && Version(d) == 2 && Payload(d).Some? && LegalFraming(d)
    ensures WellFormed(Reconstruct(d))
    ensures Reconstruct(d).padding != [] <==> HasPadding(d)
    ensures |Reconstruct(d).csrcs| / 4 == d[0] % 16
  {
    var p, base := Reconstruct(d), AfterCsrcs(d);
    assert |p.csrcs| == d[0] % 16 * 4;
    FourTimes(d[0] % 16);
    if HasPadding(d) {
      assert p.padding[|p.padding| - 1] == d[|d| - 1];
    }
    if HasExtension(d) {
      var count := ReadBe16(d[base + 2], d[base + 3]);
      assert |p.extension.value.words| == count * 4;
      FourTimes(count);
    }
  }

  /** The twelve fixed octets, from the fields read out of them. */
  lemma HeaderOctets(d: seq<byte>, p: Packet)
    requires |d| >= 12 && Version(d) == 2 && WellFormed(p)
    requires p.padding != [] <==> HasPadding(d)
    requires p.extension.Some? <==> HasExtension(d)
    requires |p.csrcs| / 4 == d[0] % 16
    requires p.marker == (d[1] >= 128) && p.payloadType == PayloadType(d) && p.sequence == ReadBe16(d[2], d[3])
    requires p.timestamp == Timestamp(d) && p.ssrc == Ssrc(d)
    ensures FixedHeader(p) == d[..12]
  {
    FlagOctetUnique(d[0]);
    Be16Unique(d[2], d[3]);
    Be32Unique(d[4], d[5], d[6], d[7]);
    Be32Unique(d[8], d[9], d[10], d[11]);
    var h := FixedHeader(p);
    assert h[0] == d[0];
    assert h[1] == d[1];
    assert h == [d[0], d[1]] + [d[2], d[3]] + [d[4], d[5], d[6], d[7]] + [d[8], d[9], d[10], d[11]];
  }

  lemma ExtensionSlice(d: seq<byte>, base: nat, count: nat)
    requires base + 4 + count * 4 <= |d| && count == ReadBe16(d[base + 2], d[base + 3])
    ensures ReadBe16(d[base], d[base + 1]) < TWO16 && |d[base + 4..base + 4 + count * 4]| / 4 == count < TWO16
    ensures ExtensionOctets(Some(Extension(ReadBe16(d[base], d[base + 1]), d[base + 4..base + 4 + count * 4])))
      == d[base..base + 4 + count * 4]
  {
    Be16Unique(d[base], d[base + 1]);
    Be16Unique(d[base + 2], d[base + 3]);
    var end := base + 4 + count * 4;
    assert d[base..end] == [d[base], d[base + 1]] + [d[base + 2], d[base + 3]] + d[base + 4..end];
  }

  lemma ReconstructExtension(d: seq<byte>)
    requires |d| >= 12 && Version(d) == 2 && Payload(d).Some? && LegalFraming(d)
    ensures WellFormed(Reconstruct(d))
    ensures ExtensionOctets(Reconstruct(d).extension) == d[AfterCsrcs(d)..PayloadStart(d)]
  {
    ReconstructWellFormed(d);
    if HasExtension(d) {
      var base := AfterCsrcs(d);
      ExtensionSlice(d, base, ReadBe16(d[base + 2], d[base + 3]));
    }
  }

  lemma SplitInFive(d: seq<byte>, a: nat, b: nat, c: nat, e: nat)
    requires a <= b <= c <= e <= |d|
    ensures d[..a] + d[a..b] + d[b..c] + d[c..e] + d[e..] == d
  {
  }

  lemma SerializeReconstructs(d: seq<byte>)
    requires |d| >= 12 && Version(d) == 2 && Payload(d).Some? && LegalFraming(d)
    ensures WellFormed(Reconstruct(d))
    ensures Serialize(Reconstruct(d)) == d
  {
    ReconstructWellFormed(d);
    HeaderOctets(d, Reconstruct(d));
    ReconstructExtension(d);
    SplitInFive(d, 12, AfterCsrcs(d), PayloadStart(d), PayloadEnd(d));
  }

  lemma SerializedIsLegallyFramed(p: Packet)
    requires WellFormed(p) && p.payload != []
    ensures |Serialize(p)| >= 12 && LegalFraming(Serialize(p))
  {
    SerializeHeader(p);
    SerializePieces(p);
    var d := Serialize(p);
    if p.padding != [] {
      assert d[|d| - 1] == d[|d| - |p.padding|..][|p.padding| - 1];
    }
  }

  /** Exactly the accepted octet strings with legal framing are packets whose
      payload is the slice the server forwards. */
  lemma AcceptedIffSerialized(d: seq<byte>)
    requires |d| >= 12 && Version(d) == 2 && Payload(d).Some?
    ensures (exists p :: WellFormed(p) && Serialize(p) == d && Payload(d) == Some(p.payload)) <==> LegalFraming(d)
  {
    if LegalFraming(d) {
      SerializeReconstructs(d);
    }
    forall p | WellFormed(p) && Serialize(p) == d && Payload(d) == Some(p.payload)
      ensures LegalFraming(d)
    {
      SerializedIsLegallyFramed(p);
    }
  }
}
