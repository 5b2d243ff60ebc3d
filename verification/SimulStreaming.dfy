/** The SimulStreaming TCP client: samples out as S16_LE octets, results in as
    lines "start_ms end_ms text". */
module SimulStreaming {
  import opened Prelude
  import opened Text
  import opened PcmBytes

  // --------------------------------------------------------------- audio out

  class Client {
    var wire: seq<byte>

    constructor ()
      ensures wire == []
    {
      wire := [];
    }

    method SendAudio(pcm: Pcm)
      modifies this
      ensures wire == old(wire) + Encode(pcm)
    {
      var bytes: seq<byte> := [];
      for i := 0 to |pcm|
        invariant bytes == Encode(pcm[..i]) && wire == old(wire)
      {
        assert pcm[..i + 1] == pcm[..i] + [pcm[i]];
        EncodeSnoc(pcm[..i], pcm[i]);
        bytes := bytes + SampleOctets(pcm[i]);
      }
      assert pcm[..|pcm|] == pcm;
      wire := wire + bytes;
    }
  }

  /** What a sequence of `SendAudio` calls leaves on a new client's wire. */
  function Wire(calls: seq<Pcm>): seq<byte> {
    if calls == [] then [] else Wire(calls[..|calls| - 1]) + Encode(calls[|calls| - 1])
  }

  /** However the samples are split over calls, the octets decode to the samples in order. */
  lemma {:induction false} WireDecodes(calls: seq<Pcm>)
    ensures Wire(calls) == Encode(Flatten(calls))
    ensures Decode(Wire(calls)) == Flatten(calls)
    decreases |calls|
  {
    if calls != [] {
      WireDecodes(calls[..|calls| - 1]);
      EncodeConcat(Flatten(calls[..|calls| - 1]), calls[|calls| - 1]);
    }
    DecodeInvertsEncode(Flatten(calls));
  }

  // -------------------------------------------------------------- result lines

  /** Position of the first c, or the length. */
  function Find(s: string, c: char): (i: nat)
    ensures i <= |s|
    ensures forall j :: 0 <= j < i ==> s[j] != c
    ensures i < |s| ==> s[i] == c
  {
    if s == "" || s[0] == c then 0 else 1 + Find(s[1..], c)
  }

  lemma FindIsFirst(s: string, c: char, i: nat)
    requires i < |s| && s[i] == c && (forall j :: 0 <= j < i ==> s[j] != c)
    ensures Find(s, c) == i
  {
  }

  /** `parse::<f64>() as u64`: the clients take any number reader. */
  type NumberReader = string -> Option<nat>

  /** `splitn(3, ' ')` with all three parts present and both numbers readable. */
  function ParseLine(read: NumberReader, line: string): Option<Segment> {
    var i := Find(line, ' ');
    if i == |line| then None
    else
      var rest := line[i + 1..];
      var j := Find(rest, ' ');
      if j == |rest| then None
      else
        var start, end := read(line[..i]), read(rest[..j]);
        if start.None? || end.None? then None else Some(Segment(start.value, end.value, rest[j + 1..]))
  }

  function ParseLineAsync(read: NumberReader, line: string): Option<Segment> {
    var trimmed := Trim(line);
    if trimmed == "" then None else ParseLine(read, trimmed)
  }

  const TWO53: nat := 0x20_0000_0000_0000

  function Decimal(n: nat): (s: string)
    ensures s != "" && forall i :: 0 <= i < |s| ==> '0' <= s[i] <= '9'
  {
    if n < 10 then [DigitOf(n)] else Decimal(n / 10) + [DigitOf(n % 10)]
  }

  function DigitOf(d: nat): char
    requires d < 10
  {
    '0' + d as char
  }

  /** What is asked of a number reader: every whole number a double holds exactly. */
  ghost predicate ReadsDecimals(read: NumberReader) {
    forall n: nat :: n < TWO53 ==> read(Decimal(n)) == Some(n)
  }

  function DecimalValue(s: string): Option<nat> {
    if s == "" then None
    else
      var d := s[|s| - 1] as int - '0' as int;
      if !(0 <= d < 10) then None
      else if |s| == 1 then Some(d)
      else match DecimalValue(s[..|s| - 1])
        case None => None
        case Some(n) => Some(10 * n + d)
  }

  lemma {:induction false} DecimalRoundTrip(n: nat)
    ensures DecimalValue(Decimal(n)) == Some(n)
    decreases n
  {
    if n >= 10 {
      DecimalRoundTrip(n / 10);
      assert Decimal(n)[..|Decimal(n)| - 1] == Decimal(n / 10);
    }
  }

  /** There is such a reader. */
  lemma SomeReaderReadsDecimals()
    ensures ReadsDecimals(s => DecimalValue(s))
  {
    forall n: nat ensures DecimalValue(Decimal(n)) == Some(n) {
      DecimalRoundTrip(n);
    }
  }

  predicate ExactTimes(s: Segment) {
    s.startMs < TWO53 && s.endMs < TWO53
  }

  function Times(s: Segment): string {
    Decimal(s.startMs) + " " + Decimal(s.endMs) + " "
  }

  /** A result line as the server prints it. */
  function Print(s: Segment): string {
    Times(s) + s.text
  }

  lemma SplitsAt(a: string, b: string, c: char)
    requires forall i :: 0 <= i < |a| ==> a[i] != c
    ensures Find(a + [c] + b, c) == |a|
    ensures (a + [c] + b)[..|a|] == a && (a + [c] + b)[|a| + 1..] == b
  {
    FindIsFirst(a + [c] + b, c, |a|);
  }

  lemma ParseSplits(read: NumberReader, a: string, b: string, text: string)
    requires (forall i :: 0 <= i < |a| ==> a[i] != ' ') && (forall i :: 0 <= i < |b| ==> b[i] != ' ')
    ensures ParseLine(read, a + " " + (b + " " + text)) ==
      if read(a).None? || read(b).None? then None else Some(Segment(read(a).value, read(b).value, text))
  {
    SplitsAt(a, b + " " + text, ' ');
    SplitsAt(b, text, ' ');
  }

  /** Whatever the text, its inner and leading spaces included, a printed segment parses back. */
  lemma ParseInvertsPrint(read: NumberReader, s: Segment)
    requires ReadsDecimals(read) && ExactTimes(s)
    ensures ParseLine(read, Print(s)) == Some(s)
  {
    var start, end := Decimal(s.startMs), Decimal(s.endMs);
    assert Print(s) == start + " " + (end + " " + s.text);
    ParseSplits(read, start, end, s.text);
  }

  predicate NoSpace(s: string) {
    forall i :: 0 <= i < |s| ==> s[i] != ' '
  }

  /** The line is two words that read as these times, each with a space behind it, and then the text. */
  predicate Spells(read: NumberReader, line: string, a: string, b: string, s: Segment) {
    && NoSpace(a) && NoSpace(b) && line == a + " " + (b + " " + s.text)
    && read(a) == Some(s.startMs) && read(b) == Some(s.endMs)
  }

  lemma SpelledParses(read: NumberReader, line: string, a: string, b: string, s: Segment)
    requires Spells(read, line, a, b, s)
    ensures ParseLine(read, line) == Some(s)
  {
    ParseSplits(read, a, b, s.text);
  }

  lemma SplitAtFirst(s: string, c: char)
    requires Find(s, c) < |s|
    ensures s == s[..Find(s, c)] + [c] + s[Find(s, c) + 1..]
  {
  }

  lemma ParsedSpells(read: NumberReader, line: string, s: Segment) returns (a: string, b: string)
    requires ParseLine(read, line) == Some(s)
    ensures Spells(read, line, a, b, s)
  {
    var i := Find(line, ' ');
    var rest := line[i + 1..];
    SplitAtFirst(line, ' ');
    SplitAtFirst(rest, ' ');
    a, b := line[..i], rest[..Find(rest, ' ')];
  }

  /** Which lines parse, and as what, for any line and any number reader. */
  lemma {:induction false} ParsesIff(read: NumberReader, line: string, s: Segment)
    ensures ParseLine(read, line) == Some(s) <==> exists a, b :: Spells(read, line, a, b, s)
  {
    if a, b :| Spells(read, line, a, b, s) {
      SpelledParses(read, line, a, b, s);
    }
    if ParseLine(read, line) == Some(s) {
      var a, b := ParsedSpells(read, line, s);
    }
  }

  lemma {:induction false} NoSpaceNoSegment(read: NumberReader, a: string, b: string)
    requires (forall i :: 0 <= i < |a| ==> a[i] != ' ') && (forall i :: 0 <= i < |b| ==> b[i] != ' ')
    ensures ParseLine(read, a + " " + b) == None
  {
    SplitsAt(a, b, ' ');
  }

  lemma AsyncIsSyncTrimmed(read: NumberReader, line: string)
    ensures ParseLineAsync(read, line) == ParseLine(read, Trim(line))
  {
  }

  lemma TimesStartPlain(s: Segment, more: string)
    ensures TrimStart(Times(s) + more) == Times(s) + more
  {
    var line := Times(s) + more;
    assert line[0] == Decimal(s.startMs)[0];
  }

  lemma TimesTrimsEnd(s: Segment)
    ensures TrimEnd(Times(s)) == Decimal(s.startMs) + " " + Decimal(s.endMs)
  {
    var times, last := Decimal(s.startMs) + " " + Decimal(s.endMs), Decimal(s.endMs);
    assert Times(s) == times + " ";
    assert Times(s)[..|times|] == times;
    assert times[|times| - 1] == last[|last| - 1];
    assert !IsWhitespace(times[|times| - 1]);
  }

  lemma TrimOfPrinted(s: Segment, eol: string)
    requires Blank(eol)
    ensures Trim(Print(s) + eol) ==
      if Blank(s.text) then Decimal(s.startMs) + " " + Decimal(s.endMs) else Times(s) + TrimEnd(s.text)
  {
    assert Print(s) + eol == Times(s) + (s.text + eol);
    TimesStartPlain(s, s.text + eol);
    BlankTrimsEnd(eol);
    TrimEndOfAppended(Print(s), eol);
    BlankTrimsEnd(s.text);
    TrimEndOfAppended(Times(s), s.text);
    TimesTrimsEnd(s);
  }

  lemma {:induction false} BlankTrimsEnd(s: string)
    ensures TrimEnd(s) == "" <==> Blank(s)
    decreases |s|
  {
    if s != "" && IsWhitespace(s[|s| - 1]) {
      BlankTrimsEnd(s[..|s| - 1]);
      assert forall i :: 0 <= i < |s| - 1 ==> s[..|s| - 1][i] == s[i];
    }
  }

  /** The asynchronous client loses segments whose text is blank and cuts trailing
      whitespace from the others; so it agrees with the synchronous one exactly on
      texts that are not blank and end in no whitespace. */
  lemma {:induction false} AsyncParseOfPrinted(read: NumberReader, s: Segment, eol: string)
    requires ReadsDecimals(read) && ExactTimes(s) && Blank(eol)
    ensures ParseLineAsync(read, Print(s) + eol) ==
      if Blank(s.text) then None else Some(s.(text := TrimEnd(s.text)))
    ensures ParseLineAsync(read, Print(s) + eol) == ParseLine(read, Print(s)) <==>
      !Blank(s.text) && TrimEnd(s.text) == s.text
  {
    TrimOfPrinted(s, eol);
    ParseInvertsPrint(read, s);
    if Blank(s.text) {
      NoSpaceNoSegment(read, Decimal(s.startMs), Decimal(s.endMs));
    } else {
      var cut := s.(text := TrimEnd(s.text));
      assert Print(cut) == Times(s) + TrimEnd(s.text);
      ParseInvertsPrint(read, cut);
    }
  }

  // ------------------------------------------------------------ whole streams

  function StripCr(s: string): string {
    if s != "" && s[|s| - 1] == '\r' then s[..|s| - 1] else s
  }

  /** `BufRead::lines`: a line break may be preceded by a carriage return. */
  function Lines(s: string): seq<string>
    decreases |s|
  {
    if s == "" then []
    else
      var i := Find(s, '\n');
      if i == |s| then [s] else [StripCr(s[..i])] + Lines(s[i + 1..])
  }

  /** `read_line`, repeated: each line keeps its break. */
  function RawLines(s: string): seq<string>
    decreases |s|
  {
    if s == "" then []
    else
      var i := Find(s, '\n');
      if i == |s| then [s] else [s[..i + 1]] + RawLines(s[i + 1..])
  }

  function AsSeq(s: Option<Segment>): seq<Segment> {
    if s.None? then [] else [s.value]
  }

  /** What the synchronous reader does with one line: empty lines are skipped. */
  function Entry(read: NumberReader, line: string): Option<Segment> {
    if line == "" then None else ParseLine(read, line)
  }

  function Collect(parse: string -> Option<Segment>, lines: seq<string>): seq<Segment> {
    if lines == [] then [] else AsSeq(parse(lines[0])) + Collect(parse, lines[1..])
  }

  function SyncParser(read: NumberReader): string -> Option<Segment> {
    line => Entry(read, line)
  }

  function AsyncParser(read: NumberReader): string -> Option<Segment> {
    line => ParseLineAsync(read, line)
  }

  /** A line that does not parse costs nothing but itself. */
  lemma {:induction false} CollectConcat(parse: string -> Option<Segment>, a: seq<string>, b: seq<string>)
    ensures Collect(parse, a + b) == Collect(parse, a) + Collect(parse, b)
    decreases |a|
  {
    if a == [] {
      assert a + b == b;
    } else {
      assert (a + b)[1..] == a[1..] + b;
      CollectConcat(parse, a[1..], b);
    }
  }

  /** Each line on its own: what it spells, or nothing; empty lines are no exception. */
  lemma CollectOne(read: NumberReader, line: string)
    ensures Collect(SyncParser(read), [line]) == AsSeq(ParseLine(read, line))
    ensures Collect(AsyncParser(read), [line]) == AsSeq(ParseLine(read, Trim(line)))
  {
    assert [line][1..] == [];
    assert AsSeq(ParseLine(read, line)) + [] == AsSeq(ParseLine(read, line));
    assert AsSeq(ParseLine(read, Trim(line))) + [] == AsSeq(ParseLine(read, Trim(line)));
  }

  /** Splitting a stream into lines loses and invents no character... */
  lemma {:induction false} RawLinesJoin(s: string)
    ensures Flatten(RawLines(s)) == s
    decreases |s|
  {
    if s != "" {
      var i := Find(s, '\n');
      if i == |s| {
        assert Flatten([s]) == s;
      } else {
        var first, rest := s[..i + 1], s[i + 1..];
        RawLinesJoin(rest);
        FlattenConcat([first], RawLines(rest));
        assert Flatten([first]) == first && first + rest == s;
      }
    }
  }

  /** A line without its break. */
  function Unbroken(line: string): string {
    if line != "" && line[|line| - 1] == '\n' then StripCr(line[..|line| - 1]) else line
  }

  lemma UnbrokenLine(s: string, i: nat)
    requires i < |s| && s[i] == '\n'
    ensures Unbroken(s[..i + 1]) == StripCr(s[..i])
  {
    assert s[..i + 1][..i] == s[..i];
  }

  function UnbrokenAll(lines: seq<string>): seq<string> {
    if lines == [] then [] else [Unbroken(lines[0])] + UnbrokenAll(lines[1..])
  }

  lemma UnbrokenCons(line: string, lines: seq<string>)
    ensures UnbrokenAll([line] + lines) == [Unbroken(line)] + UnbrokenAll(lines)
  {
    assert ([line] + lines)[1..] == lines;
  }

  /** ... and the two ways of splitting differ in the line breaks alone. */
  lemma {:induction false} LinesAreUnbroken(s: string)
    ensures Lines(s) == UnbrokenAll(RawLines(s))
    decreases |s|
  {
    if s != "" {
      var i := Find(s, '\n');
      if i < |s| {
        LinesAreUnbroken(s[i + 1..]);
        UnbrokenLine(s, i);
        UnbrokenCons(s[..i + 1], RawLines(s[i + 1..]));
      } else {
        UnbrokenCons(s, []);
        assert [s] + [] == [s] && Unbroken(s) == s;
      }
    }
  }

  lemma CollectNext(parse: string -> Option<Segment>, lines: seq<string>, i: nat, sent: seq<Segment>)
    requires i < |lines|
    ensures sent + Collect(parse, lines[i..]) == sent + AsSeq(parse(lines[i])) + Collect(parse, lines[i + 1..])
  {
    assert lines[i..][1..] == lines[i + 1..];
  }

  /** The reader thread: skip empty lines, send what parses, warn about the rest. */
  method ReadResults(read: NumberReader, lines: seq<string>) returns (sent: seq<Segment>)
    ensures sent == Collect(SyncParser(read), lines)
  {
    sent := [];
    ghost var parse := SyncParser(read);
    var i := 0;
    while i < |lines|
      invariant i <= |lines|
      invariant sent + Collect(parse, lines[i..]) == Collect(parse, lines)
      decreases |lines| - i
    {
      var line := lines[i];
      CollectNext(parse, lines, i, sent);
      i := i + 1;
      if line == "" {
        assert parse(line) == None && sent + [] == sent;
        continue;
      }
      var parsed := ParseLine(read, line);
      assert parse(line) == parsed;
      if parsed.Some? {
        sent := sent + [parsed.value];
      } else {
        assert sent + [] == sent;
      }
    }
  }

  method ReadResultsAsync(read: NumberReader, lines: seq<string>) returns (sent: seq<Segment>)
    ensures sent == Collect(AsyncParser(read), lines)
  {
    sent := [];
    ghost var parse := AsyncParser(read);
    for i := 0 to |lines|
      invariant sent + Collect(parse, lines[i..]) == Collect(parse, lines)
    {
      CollectNext(parse, lines, i, sent);
      var parsed := ParseLineAsync(read, lines[i]);
      assert parse(lines[i]) == parsed;
      if parsed.Some? {
        sent := sent + [parsed.value];
      } else {
        assert sent + [] == sent;
      }
    }
  }

  function Transmit(segments: seq<Segment>): string {
    if segments == [] then "" else Print(segments[0]) + "\n" + Transmit(segments[1..])
  }

  predicate OneLine(s: Segment) {
    ExactTimes(s) && forall i :: 0 <= i < |s.text| ==> s.text[i] != '\n'
  }

  lemma PrintedIsOneLine(s: Segment)
    requires OneLine(s)
    ensures forall i :: 0 <= i < |Print(s)| ==> Print(s)[i] != '\n'
    ensures StripCr(Print(s)) == Print(s.(text := StripCr(s.text))) && StripCr(Print(s)) != ""
  {
    if s.text == "" {
      assert Print(s)[|Print(s)| - 1] == ' ';
    }
  }

  function Stripped(segments: seq<Segment>): (r: seq<Segment>)
    ensures |r| == |segments|
  {
    seq(|segments|, i requires 0 <= i < |segments| => segments[i].(text := StripCr(segments[i].text)))
  }

  lemma LinesOfTransmission(s: Segment, tail: string)
    requires OneLine(s)
    ensures Lines(Print(s) + "\n" + tail) == [Print(s.(text := StripCr(s.text)))] + Lines(tail)
    ensures RawLines(Print(s) + "\n" + tail) == [Print(s) + "\n"] + RawLines(tail)
  {
    PrintedIsOneLine(s);
    SplitsAt(Print(s), tail, '\n');
    var all, raw := Print(s) + "\n" + tail, Print(s) + "\n";
    assert all[..|raw|] == raw;
  }

  lemma CollectCons(parse: string -> Option<Segment>, line: string, lines: seq<string>)
    ensures Collect(parse, [line] + lines) == AsSeq(parse(line)) + Collect(parse, lines)
  {
    assert ([line] + lines)[1..] == lines;
  }

  lemma StrippedCons(segments: seq<Segment>)
    requires segments != []
    ensures Stripped(segments) == [segments[0].(text := StripCr(segments[0].text))] + Stripped(segments[1..])
  {
  }

  /** What the server prints line by line is what the reader delivers, in order,
      but for a carriage return at the very end of a text. */
  lemma {:induction false} StreamRoundTrip(read: NumberReader, segments: seq<Segment>)
    requires ReadsDecimals(read) && (forall i :: 0 <= i < |segments| ==> OneLine(segments[i]))
    ensures Collect(SyncParser(read), Lines(Transmit(segments))) == Stripped(segments)
    decreases |segments|
  {
    if segments != [] {
      var s, tail := segments[0], Transmit(segments[1..]);
      var stripped := s.(text := StripCr(s.text));
      LinesOfTransmission(s, tail);
      CollectCons(SyncParser(read), Print(stripped), Lines(tail));
      ParseInvertsPrint(read, stripped);
      assert Print(stripped) != "";
      StreamRoundTrip(read, segments[1..]);
      StrippedCons(segments);
    }
  }

  function Trimmed(segments: seq<Segment>): seq<Segment> {
    if segments == [] then []
    else
      var s := segments[0];
      (if Blank(s.text) then [] else [s.(text := TrimEnd(s.text))]) + Trimmed(segments[1..])
  }

  /** The asynchronous reader on the same stream: blank texts vanish, the others
      lose their trailing whitespace. */
  lemma {:induction false} AsyncStream(read: NumberReader, segments: seq<Segment>)
    requires ReadsDecimals(read) && (forall i :: 0 <= i < |segments| ==> OneLine(segments[i]))
    ensures Collect(AsyncParser(read), RawLines(Transmit(segments))) == Trimmed(segments)
    decreases |segments|
  {
    if segments != [] {
      var s, tail := segments[0], Transmit(segments[1..]);
      LinesOfTransmission(s, tail);
      CollectCons(AsyncParser(read), Print(s) + "\n", RawLines(tail));
      AsyncParseOfPrinted(read, s, "\n");
      AsyncStream(read, segments[1..]);
    }
  }
}
