/** The WAV container built for each transcription request. */
module Wav {
  import opened Prelude
  import opened PcmBytes

  const RIFF: seq<byte> := [0x52, 0x49, 0x46, 0x46]
  const WAVE: seq<byte> := [0x57, 0x41, 0x56, 0x45]
  const FMT: seq<byte> := [0x66, 0x6D, 0x74, 0x20]
  const DATA: seq<byte> := [0x64, 0x61, 0x74, 0x61]

  /** The 44 octets before the samples. Lengths and rates wrap to their field's
      width, as unsigned arithmetic does in a release build. */
  function Header(samples: nat, rate: nat, channels: nat): (h: seq<byte>)
    requires rate < TWO32 && channels < TWO16
    ensures |h| == 44
  {
    var dataLength := samples * 2 % TWO32;
    RIFF + Le32((36 + dataLength) % TWO32) + WAVE
    + FMT + Le32(16) + Le16(1) + Le16(channels) + Le32(rate)
    + Le32(rate * 2 % TWO32 * channels % TWO32) + Le16(2 * channels % TWO16) + Le16(16)
    + DATA + Le32(dataLength)
  }

  function Wav(pcm: Pcm, rate: nat, channels: nat): seq<byte>
    requires rate < TWO32 && channels < TWO16
  {
    Header(|pcm|, rate, channels) + Encode(pcm)
  }

  method CreateWav(pcm: Pcm, rate: nat, channels: nat) returns (bytes: seq<byte>)
    requires rate < TWO32 && channels < TWO16
    ensures bytes == Wav(pcm, rate, channels)
  {
    var dataLength := |pcm| * 2 % TWO32;
    var totalLength := (36 + dataLength) % TWO32;
    bytes := RIFF + Le32(totalLength) + WAVE;
    bytes := bytes + FMT + Le32(16) + Le16(1) + Le16(channels) + Le32(rate);
    bytes := bytes + Le32(rate * 2 % TWO32 * channels % TWO32) + Le16(2 * channels % TWO16) + Le16(16);
    bytes := bytes + DATA + Le32(dataLength);
    assert bytes == Header(|pcm|, rate, channels);
    for i := 0 to |pcm|
      invariant bytes == Header(|pcm|, rate, channels) + Encode(pcm[..i])
    {
      assert pcm[..i + 1] == pcm[..i] + [pcm[i]];
      EncodeSnoc(pcm[..i], pcm[i]);
      bytes := bytes + SampleOctets(pcm[i]);
    }
    assert pcm[..|pcm|] == pcm;
  }

  // ------------------------------------------------------- an exacting reader

  function Le16At(b: seq<byte>, i: nat): nat requires i + 2 <= |b| { ReadLe16(b[i], b[i + 1]) }
  function Le32At(b: seq<byte>, i: nat): nat requires i + 4 <= |b| { ReadLe32(b[i], b[i + 1], b[i + 2], b[i + 3]) }

  predicate TagsOk(b: seq<byte>)
    requires |b| >= 44
  {
    && b[0..4] == RIFF && b[8..12] == WAVE && b[12..16] == FMT && b[36..40] == DATA
    && Le32At(b, 16) == 16 && Le16At(b, 20) == 1 && Le16At(b, 34) == 16
  }

  predicate SizesOk(b: seq<byte>)
    requires |b| >= 44
  {
    Le32At(b, 4) == |b| - 8 && Le32At(b, 40) == |b| - 44
  }

  predicate RatesOk(b: seq<byte>)
    requires |b| >= 44
  {
    && Le32At(b, 28) == Le32At(b, 24) * 2 * Le16At(b, 22)
    && Le16At(b, 32) == 2 * Le16At(b, 22)
  }

  /** A reader that accepts only 16-bit PCM whose every length and rate field is true. */
  function Read(b: seq<byte>): Option<(Pcm, nat, nat)> {
    if |b| >= 44 && TagsOk(b) && SizesOk(b) && RatesOk(b)
    then Some((Decode(b[44..]), Le32At(b, 24), Le16At(b, 22))) else None
  }

  predicate SizesFit(samples: nat) {
    36 + 2 * samples < TWO32
  }

  predicate RatesFit(rate: nat, channels: nat) {
    rate * 2 * channels < TWO32 && 2 * channels < TWO16
  }

  lemma Le32AtPiece(b: seq<byte>, i: nat, n: nat)
    requires n < TWO32 && i + 4 <= |b| && b[i..i + 4] == Le32(n)
    ensures Le32At(b, i) == n
  {
    Le32RoundTrip(n);
    var piece := b[i..i + 4];
    assert b[i] == piece[0] && b[i + 1] == piece[1] && b[i + 2] == piece[2] && b[i + 3] == piece[3];
  }

  lemma Le16AtPiece(b: seq<byte>, i: nat, n: nat)
    requires n < TWO16 && i + 2 <= |b| && b[i..i + 2] == Le16(n)
    ensures Le16At(b, i) == n
  {
    var piece := b[i..i + 2];
    assert b[i] == piece[0] && b[i + 1] == piece[1];
  }

  /** Each header field sits where the reader looks for it. */
  lemma HeaderLayout(samples: nat, rate: nat, channels: nat)
    requires rate < TWO32 && channels < TWO16
    ensures var h := Header(samples, rate, channels);
      && h[0..4] == RIFF && h[4..8] == Le32((36 + samples * 2 % TWO32) % TWO32) && h[8..12] == WAVE
      && h[12..16] == FMT && h[16..20] == Le32(16) && h[20..22] == Le16(1)
      && h[22..24] == Le16(channels) && h[24..28] == Le32(rate)
      && h[28..32] == Le32(rate * 2 % TWO32 * channels % TWO32)
      && h[32..34] == Le16(2 * channels % TWO16) && h[34..36] == Le16(16)
      && h[36..40] == DATA && h[40..44] == Le32(samples * 2 % TWO32)
  {
  }

  lemma HeaderFields(b: seq<byte>, samples: nat, rate: nat, channels: nat)
    requires rate < TWO32 && channels < TWO16 && |b| >= 44 && b[..44] == Header(samples, rate, channels)
    ensures b[0..4] == RIFF && b[8..12] == WAVE && b[12..16] == FMT && b[36..40] == DATA
    ensures Le32At(b, 4) == (36 + samples * 2 % TWO32) % TWO32
    ensures Le32At(b, 16) == 16 && Le16At(b, 20) == 1 && Le16At(b, 34) == 16
    ensures Le16At(b, 22) == channels && Le32At(b, 24) == rate
    ensures Le32At(b, 28) == rate * 2 % TWO32 * channels % TWO32 && Le16At(b, 32) == 2 * channels % TWO16
    ensures Le32At(b, 40) == samples * 2 % TWO32
  {
    HeaderLayout(samples, rate, channels);
    var h := Header(samples, rate, channels);
    assert forall i, j :: 0 <= i <= j <= 44 ==> b[i..j] == h[i..j];
    Le32AtPiece(b, 4, (36 + samples * 2 % TWO32) % TWO32);
    Le32AtPiece(b, 16, 16);
    Le16AtPiece(b, 20, 1);
    Le16AtPiece(b, 22, channels);
    Le32AtPiece(b, 24, rate);
    Le32AtPiece(b, 28, rate * 2 % TWO32 * channels % TWO32);
    Le16AtPiece(b, 32, 2 * channels % TWO16);
    Le16AtPiece(b, 34, 16);
    Le32AtPiece(b, 40, samples * 2 % TWO32);
  }

  lemma ProductFits(rate: nat, channels: nat)
    requires rate < TWO32 && channels < TWO16 && rate * 2 * channels < TWO32
    ensures rate * 2 % TWO32 * channels % TWO32 == rate * 2 * channels
  {
    if channels == 0 {
      assert rate * 2 % TWO32 * channels == 0;
    } else {
      assert rate * 2 <= rate * 2 * channels;
      assert rate * 2 % TWO32 == rate * 2;
    }
  }

  lemma RateArithmetic(rate: nat, channels: nat)
    requires rate < TWO32 && channels < TWO16
    ensures
      rate * 2 % TWO32 * channels % TWO32 == rate * 2 * channels && 2 * channels % TWO16 == 2 * channels
      <==> RatesFit(rate, channels)
  {
    if rate * 2 * channels < TWO32 {
      ProductFits(rate, channels);
    }
  }

  /** The rate fields are true exactly when the true products fit. */
  lemma RatesOkIff(b: seq<byte>, rate: nat, channels: nat)
    requires rate < TWO32 && channels < TWO16 && |b| >= 44
    requires Le16At(b, 22) == channels && Le32At(b, 24) == rate
    requires Le32At(b, 28) == rate * 2 % TWO32 * channels % TWO32 && Le16At(b, 32) == 2 * channels % TWO16
    ensures RatesOk(b) <==> RatesFit(rate, channels)
  {
    RateArithmetic(rate, channels);
  }

  lemma SizeArithmetic(samples: nat)
    ensures (36 + samples * 2 % TWO32) % TWO32 == 36 + samples * 2 && samples * 2 % TWO32 == samples * 2
      <==> SizesFit(samples)
  {
    var length := samples * 2;
    if 36 + length < TWO32 {
      assert length % TWO32 == length;
    }
  }

  lemma SizesOkIff(b: seq<byte>, samples: nat)
    requires |b| == 44 + 2 * samples
    requires Le32At(b, 4) == (36 + samples * 2 % TWO32) % TWO32 && Le32At(b, 40) == samples * 2 % TWO32
    ensures SizesOk(b) <==> SizesFit(samples)
  {
    SizeArithmetic(samples);
    var total, data := Le32At(b, 4), Le32At(b, 40);
    assert SizesOk(b) <==> total == 36 + samples * 2 && data == samples * 2;
  }

  /** Reading back gives the samples, rate and channel count exactly when every
      size and rate field is wide enough; otherwise the container is rejected. */
  lemma {:induction false} ReadInvertsWav(pcm: Pcm, rate: nat, channels: nat)
    requires rate < TWO32 && channels < TWO16
    ensures var read := Read(Wav(pcm, rate, channels));
      && (read == Some((pcm, rate, channels)) <==> SizesFit(|pcm|) && RatesFit(rate, channels))
      && (read == None <==> !(SizesFit(|pcm|) && RatesFit(rate, channels)))
  {
    var b := Wav(pcm, rate, channels);
    assert b[..44] == Header(|pcm|, rate, channels) && b[44..] == Encode(pcm);
    HeaderFields(b, |pcm|, rate, channels);
    SizesOkIff(b, |pcm|);
    RatesOkIff(b, rate, channels);
    assert TagsOk(b);
    DecodeInvertsEncode(pcm);
  }
}
