/** Vocabulary shared by every module: optional values, the identifiers the
    server uses, and the octet strings it reads and writes. */
module Prelude {
  datatype Option<+T> = None | Some(value: T)

  /** A transcription stream is named by (session_id, endpoint_id). */
  type Key = (nat, nat)

  type byte = b: int | 0 <= b < 256

  /** Signed 16-bit samples. */
  type i16 = s: int | -0x8000 <= s < 0x8000

  type Pcm = seq<i16>

  /** One transcription result, times in milliseconds of stream time. */
  datatype Segment = Segment(startMs: nat, endMs: nat, text: string)

  const TWO16: nat := 0x1_0000
  const TWO32: nat := 0x1_0000_0000

  function Be16(n: nat): (bs: seq<byte>)
    requires n < TWO16
    ensures |bs| == 2
  {
    [n / 256, n % 256]
  }

  function Be32(n: nat): (bs: seq<byte>)
    requires n < TWO32
    ensures |bs| == 4
  {
    [n / 0x100_0000, n / 0x1_0000 % 256, n / 256 % 256, n % 256]
  }

  function ReadBe16(a: byte, b: byte): nat {
    a * 256 + b
  }

  function ReadBe32(a: byte, b: byte, c: byte, d: byte): nat {
    a * 0x100_0000 + b * 0x1_0000 + c * 256 + d
  }

  function Le16(n: nat): (bs: seq<byte>)
    requires n < TWO16
    ensures |bs| == 2
  {
    [n % 256, n / 256]
  }

  function Le32(n: nat): (bs: seq<byte>)
    requires n < TWO32
    ensures |bs| == 4
  {
    [n % 256, n / 256 % 256, n / 0x1_0000 % 256, n / 0x100_0000]
  }

  function ReadLe16(a: byte, b: byte): nat {
    a + b * 256
  }

  function ReadLe32(a: byte, b: byte, c: byte, d: byte): nat {
    a + b * 256 + c * 0x1_0000 + d * 0x100_0000
  }

  lemma Be32RoundTrip(n: nat)
    requires n < TWO32
    ensures var bs := Be32(n); ReadBe32(bs[0], bs[1], bs[2], bs[3]) == n
  {
    var low := n % 0x1_0000;
    assert n / 256 % 256 == low / 256;
    assert n % 256 == low % 256;
  }

  lemma Be16Unique(a: byte, b: byte)
    ensures ReadBe16(a, b) < TWO16
    ensures Be16(ReadBe16(a, b)) == [a, b]
  {
  }

  lemma Be32Unique(a: byte, b: byte, c: byte, d: byte)
    ensures ReadBe32(a, b, c, d) < TWO32
    ensures Be32(ReadBe32(a, b, c, d)) == [a, b, c, d]
  {
    var n := ReadBe32(a, b, c, d);
    var n1 := (a * 256 + b) * 256 + c;
    var n2 := a * 256 + b;
    assert n == n1 * 256 + d && n1 == n2 * 256 + c;
    assert n / 256 == n1 && n % 256 == d;
    assert n / 0x1_0000 == n2;
    assert n / 0x100_0000 == a;
  }

  lemma Le32RoundTrip(n: nat)
    requires n < TWO32
    ensures var bs := Le32(n); ReadLe32(bs[0], bs[1], bs[2], bs[3]) == n
  {
    Be32RoundTrip(n);
  }

  /** All pieces in order; peeled from the end, because every run in this
      project grows at the end. */
  function Flatten<T>(pieces: seq<seq<T>>): (all: seq<T>)
    ensures pieces == [] ==> all == []
  {
    if pieces == [] then [] else Flatten(pieces[..|pieces| - 1]) + pieces[|pieces| - 1]
  }

  lemma FlattenSnoc<T>(pieces: seq<seq<T>>, last: seq<T>)
    ensures Flatten(pieces + [last]) == Flatten(pieces) + last
  {
    assert (pieces + [last])[..|pieces|] == pieces;
  }

  lemma {:induction false} FlattenConcat<T>(a: seq<seq<T>>, b: seq<seq<T>>)
    ensures Flatten(a + b) == Flatten(a) + Flatten(b)
    decreases |b|
  {
    if b == [] {
      assert a + b == a;
    } else {
      var init, last := b[..|b| - 1], b[|b| - 1];
      assert a + b == (a + init) + [last];
      assert b == init + [last];
      FlattenSnoc(a + init, last);
      FlattenSnoc(init, last);
      FlattenConcat(a, init);
    }
  }

  lemma FlattenBehind<T>(front: seq<seq<T>>, taken: seq<seq<T>>, rest: seq<T>)
    ensures Flatten(front) + (Flatten(taken) + rest) == Flatten(front + taken) + rest
  {
    FlattenConcat(front, taken);
  }

  lemma {:induction false} FlattenLength<T>(pieces: seq<seq<T>>, size: nat)
    requires forall i :: 0 <= i < |pieces| ==> |pieces[i]| == size
    ensures |Flatten(pieces)| == |pieces| * size
    decreases |pieces|
  {
    if pieces != [] {
      FlattenLength(pieces[..|pieces| - 1], size);
      assert (|pieces| - 1) * size + size == |pieces| * size;
    }
  }

  lemma MulGap(d: nat, lo: nat, hi: nat)
    requires lo < hi
    ensures lo * d + d <= hi * d
  {
    var gap := hi - lo - 1;
    assert hi * d == (lo + 1 + gap) * d == lo * d + d + gap * d;
    assert gap * d >= 0;
  }

  /** Quotient and remainder are determined by the division equation. */
  lemma DivUnique(n: nat, d: nat, q: nat, r: nat)
    requires d > 0 && r < d && n == q * d + r
    ensures n / d == q && n % d == r
  {
    var q', r' := n / d, n % d;
    assert n == d * q' + r';
    if q' > q { MulGap(d, q, q'); }
    if q > q' { MulGap(d, q', q); }
  }

  lemma DivStep(n: nat, size: nat)
    requires size > 0 && n >= size
    ensures n / size == (n - size) / size + 1 && n % size == (n - size) % size
  {
    var q := (n - size) / size;
    assert n - size == size * q + (n - size) % size;
    assert n == (q + 1) * size + (n - size) % size;
    DivUnique(n, size, q + 1, (n - size) % size);
  }
}
