/** Samples as little-endian octets (S16_LE), the format of both the WAV body and
    the TCP audio stream. */
module PcmBytes {
  import opened Prelude

  /** Two's complement, low octet first. */
  function SampleOctets(s: i16): (bs: seq<byte>)
    ensures |bs| == 2
  {
    Le16(if s < 0 then s + TWO16 else s)
  }

  function ReadSample(low: byte, high: byte): i16 {
    var n := ReadLe16(low, high);
    if n >= 0x8000 then n - TWO16 else n
  }

  function Encode(pcm: Pcm): (bs: seq<byte>)
    ensures |bs| == 2 * |pcm|
  {
    if pcm == [] then [] else Encode(pcm[..|pcm| - 1]) + SampleOctets(pcm[|pcm| - 1])
  }

  /** Whole samples; an odd last octet would be ignored. */
  function Decode(bs: seq<byte>): (pcm: Pcm)
    ensures |pcm| == |bs| / 2
  {
    seq(|bs| / 2, i requires 0 <= i < |bs| / 2 => ReadSample(bs[2 * i], bs[2 * i + 1]))
  }

  lemma SampleRoundTrip(s: i16)
    ensures var bs := SampleOctets(s); ReadSample(bs[0], bs[1]) == s
  {
  }

  lemma EncodeSnoc(pcm: Pcm, s: i16)
    ensures Encode(pcm + [s]) == Encode(pcm) + SampleOctets(s)
  {
    assert (pcm + [s])[..|pcm|] == pcm;
  }

  lemma {:induction false} EncodeConcat(a: Pcm, b: Pcm)
    ensures Encode(a + b) == Encode(a) + Encode(b)
    decreases |b|
  {
    if b == [] {
      assert a + b == a;
    } else {
      var init, last := b[..|b| - 1], b[|b| - 1];
      assert a + b == (a + init) + [last];
      EncodeSnoc(a + init, last);
      EncodeConcat(a, init);
    }
  }

  lemma DecodeSnoc(bs: seq<byte>, low: byte, high: byte)
    requires |bs| % 2 == 0
    ensures Decode(bs + [low, high]) == Decode(bs) + [ReadSample(low, high)]
  {
  }

  lemma {:induction false} DecodeInvertsEncode(pcm: Pcm)
    ensures Decode(Encode(pcm)) == pcm
    decreases |pcm|
  {
    if pcm != [] {
      var init, last := pcm[..|pcm| - 1], pcm[|pcm| - 1];
      DecodeInvertsEncode(init);
      SampleRoundTrip(last);
      var bs := SampleOctets(last);
      assert bs == [bs[0], bs[1]];
      DecodeSnoc(Encode(init), bs[0], bs[1]);
      assert pcm == init + [last];
    }
  }

  /** Octet by octet: sample i is at 2i, low octet first, in two's complement. */
  lemma {:induction false} LowOctetFirst(pcm: Pcm, i: nat)
    requires i < |pcm|
    ensures var bs := Encode(pcm);
      bs[2 * i] as int + 256 * bs[2 * i + 1] as int == if pcm[i] < 0 then pcm[i] as int + 65536 else pcm[i] as int
    decreases |pcm|
  {
    var init := pcm[..|pcm| - 1];
    if i < |init| {
      LowOctetFirst(init, i);
    }
  }
}
