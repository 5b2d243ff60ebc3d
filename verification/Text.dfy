/** Whitespace and trimming, as Rust's `str::trim` defines them. */
module Text {
  /** The characters with the Unicode White_Space property. */
  predicate IsWhitespace(c: char) {
    var n := c as int;
    || 9 <= n <= 13 || n == 32 || n == 0x85 || n == 0xA0 || n == 0x1680
    || 0x2000 <= n <= 0x200A || n == 0x2028 || n == 0x2029 || n == 0x202F || n == 0x205F || n == 0x3000
  }

  function TrimStart(s: string): (t: string)
    ensures t == [] || !IsWhitespace(t[0])
    ensures |t| <= |s| && t == s[|s| - |t|..]
  {
    if s != [] && IsWhitespace(s[0]) then TrimStart(s[1..]) else s
  }

  function TrimEnd(s: string): (t: string)
    ensures t == [] || !IsWhitespace(t[|t| - 1])
    ensures t <= s
  {
    if s != [] && IsWhitespace(s[|s| - 1]) then TrimEnd(s[..|s| - 1]) else s
  }

  function Trim(s: string): string {
    TrimEnd(TrimStart(s))
  }

  predicate Blank(s: string) {
    forall i :: 0 <= i < |s| ==> IsWhitespace(s[i])
  }

  lemma {:induction false} TrimEndOfAppended(a: string, b: string)
    ensures TrimEnd(b) != "" ==> TrimEnd(a + b) == a + TrimEnd(b)
    ensures TrimEnd(b) == "" ==> TrimEnd(a + b) == TrimEnd(a)
    decreases |b|
  {
    if b == "" {
      assert a + b == a;
    } else if IsWhitespace(b[|b| - 1]) {
      assert (a + b)[..|a + b| - 1] == a + b[..|b| - 1];
      TrimEndOfAppended(a, b[..|b| - 1]);
    }
  }

  /** `text.trim().is_empty()`: trimming leaves nothing exactly when there was
      nothing but whitespace. */
  lemma {:induction false} TrimsAwayIffBlank(s: string)
    ensures Trim(s) == "" <==> Blank(s)
    decreases |s|
  {
    if s != "" {
      if IsWhitespace(s[0]) {
        TrimsAwayIffBlank(s[1..]);
        assert s == [s[0]] + s[1..];
        assert forall i :: 0 <= i < |s[1..]| ==> s[1..][i] == s[i + 1];
      } else {
        assert TrimStart(s) == s;
        assert [s[0]] + s[1..] == s;
        TrimEndOfAppended([s[0]], s[1..]);
      }
    }
  }

  lemma BlankSnoc(s: string, c: char)
    requires Blank(s) && IsWhitespace(c)
    ensures Blank(s + [c])
  {
  }

  lemma {:induction false} TrimStartCuts(s: string)
    ensures Blank(s[..|s| - |TrimStart(s)|])
    decreases |s|
  {
    if s != "" && IsWhitespace(s[0]) {
      TrimStartCuts(s[1..]);
      var n := |s| - |TrimStart(s)|;
      forall i | 0 <= i < n ensures IsWhitespace(s[..n][i]) {
        if i > 0 { assert s[..n][i] == s[1..][..n - 1][i - 1]; }
      }
    }
  }

  lemma SplitAt(s: string, n: nat)
    requires n <= |s|
    ensures s == s[..n] + s[n..]
  {
  }

  lemma {:induction false} TrimEndCuts(s: string) returns (back: string)
    ensures s == TrimEnd(s) + back && Blank(back)
    decreases |s|
  {
    if s != "" && IsWhitespace(s[|s| - 1]) {
      var rest := TrimEndCuts(s[..|s| - 1]);
      back := rest + [s[|s| - 1]];
      BlankSnoc(rest, s[|s| - 1]);
      assert s == s[..|s| - 1] + [s[|s| - 1]];
    } else {
      back := "";
    }
  }

  /** Trimming cuts off nothing but whitespace, at both ends... */
  lemma TrimCuts(s: string) returns (front: string, back: string)
    ensures s == front + (Trim(s) + back) && Blank(front) && Blank(back)
  {
    TrimStartCuts(s);
    var n := |s| - |TrimStart(s)|;
    SplitAt(s, n);
    front := s[..n];
    back := TrimEndCuts(TrimStart(s));
  }

  /** ... and all of it. */
  lemma TrimIsTight(s: string)
    requires Trim(s) != ""
    ensures !IsWhitespace(Trim(s)[0]) && !IsWhitespace(Trim(s)[|Trim(s)| - 1])
  {
    assert Trim(s)[0] == TrimStart(s)[0];
  }
}
