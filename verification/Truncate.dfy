/** Shortening of tool output to a number of bytes and lines. */
module Truncate {
  import opened ByteText
  import opened Utf8

  const DEFAULT_MAX_BYTES: nat := 50 * 1024
  const DEFAULT_MAX_LINES: nat := 2000

  datatype Limits = Limits(maxBytes: int, maxLines: int)

  function Normalized(l: Limits): (r: Limits)
    ensures r.maxBytes > 0 && r.maxLines > 0
  {
    Limits(if l.maxBytes <= 0 then DEFAULT_MAX_BYTES else l.maxBytes, if l.maxLines <= 0 then DEFAULT_MAX_LINES else l.maxLines)
  }

  datatype Output = Output(content: Bytes, truncated: bool, totalBytes: nat, outputBytes: nat, totalLines: nat, outputLines: nat)

  function Newlines(s: Bytes): nat {
    if s == [] then 0 else Newlines(s[..|s| - 1]) + (if s[|s| - 1] == NEWLINE then 1 else 0)
  }

  // Lines of text; what follows the last newline counts when it is not empty.
  function CountLines(s: Bytes): nat {
    Newlines(s) + (if s != [] && s[|s| - 1] != NEWLINE then 1 else 0)
  }

  lemma {:induction false} NewlinesConcat(a: Bytes, b: Bytes)
    ensures Newlines(a + b) == Newlines(a) + Newlines(b)
    decreases |b|
  {
    if b == [] {
      assert a + b == a;
    } else {
      var n := |b| - 1;
      NewlinesConcat(a, b[..n]);
      assert (a + b)[..|a + b| - 1] == a + b[..n];
    }
  }

  /** How lines count: none in no text, one for each newline, and one for what
      follows the last newline. */
  lemma LinesAre(line: Bytes, rest: Bytes)
    requires NEWLINE !in line
    ensures CountLines([]) == 0 && CountLines(line) == (if line == [] then 0 else 1)
    ensures CountLines(line + [NEWLINE] + rest) == 1 + CountLines(rest)
  {
    OneLineIff(line);
    NoNewline(line);
    var front := line + [NEWLINE];
    assert front[..|line|] == line;
    NewlinesConcat(front, rest);
    assert rest == [] ==> front + rest == front;
  }

  /** A limit that is not positive means the default: 51200 bytes, 2000 lines. */
  lemma DefaultsAre(l: Limits)
    ensures Normalized(l).maxBytes == (if l.maxBytes > 0 then l.maxBytes else 51200)
    ensures Normalized(l).maxLines == (if l.maxLines > 0 then l.maxLines else 2000)
  {
  }

  // Complete lines before some text add their number.
  lemma LinesConcat(a: Bytes, b: Bytes, all: Bytes)
    requires all == a + b && a != [] && a[|a| - 1] == NEWLINE
    ensures CountLines(all) == Newlines(a) + CountLines(b)
    ensures Newlines(a) > 0
  {
    NewlinesConcat(a, b);
  }

  // Cutting text never adds lines.
  lemma PrefixLines(s: Bytes, p: nat)
    requires p <= |s|
    ensures CountLines(s[..p]) <= CountLines(s)
  {
    assert s == s[..p] + s[p..];
    NewlinesConcat(s[..p], s[p..]);
    if p < |s| {
      SomeLine(s[p..]);
    }
  }

  lemma SuffixLines(s: Bytes, p: nat)
    requires p <= |s|
    ensures CountLines(s[p..]) <= CountLines(s)
  {
    assert s == s[..p] + s[p..];
    NewlinesConcat(s[..p], s[p..]);
  }

  lemma SomeLine(s: Bytes)
    requires s != []
    ensures CountLines(s) >= 1
  {
  }

  lemma {:induction false} NoNewline(s: Bytes)
    requires OneLine(s)
    ensures Newlines(s) == 0
  {
    if s != [] {
      OneLinePrefix(s, |s| - 1);
      NoNewline(s[..|s| - 1]);
      OneLineIff(s);
    }
  }

  // The position after the first n newlines.
  ghost predicate AfterLines(s: Bytes, n: nat, p: nat) {
    && p <= |s|
    && Newlines(s[..p]) == n
    && (p > 0 ==> s[p - 1] == NEWLINE)
  }

  lemma NextLine(s: Bytes, n: nat, p: nat, relative: nat)
    requires AfterLines(s, n, p) && relative == LineEnd(s[p..]) < |s| - p
    ensures AfterLines(s, n + 1, p + relative + 1)
  {
    var rest := s[p..];
    LineEndIsFirst(rest);
    var line := rest[..relative];
    NoNewline(line);
    assert s[..p + relative + 1] == s[..p] + (line + [NEWLINE]);
    NewlinesConcat(s[..p], line + [NEWLINE]);
    NewlinesConcat(line, [NEWLINE]);
    assert [NEWLINE][..0] == [];
  }

  // Without a further newline there is at most one more line.
  lemma LastLine(s: Bytes, n: nat, p: nat)
    requires AfterLines(s, n, p) && LineEnd(s[p..]) == |s| - p
    ensures CountLines(s) <= n + 1
    ensures Newlines(s) == n
  {
    NoNewline(s[p..]);
    assert s == s[..p] + s[p..];
    NewlinesConcat(s[..p], s[p..]);
  }

  // Skips n lines; the text has more than n lines.
  method SkipLines(s: Bytes, n: nat) returns (p: nat)
    requires n < CountLines(s)
    ensures AfterLines(s, n, p) && p < |s|
    ensures n > 0 ==> p > 0
  {
    p := 0;
    assert s[..0] == [];
    var i := 0;
    while i < n
      invariant i <= n && AfterLines(s, i, p) && p < |s|
      invariant i > 0 ==> p > 0
    {
      var relative := LineEnd(s[p..]);
      if relative == |s| - p {
        LastLine(s, i, p);
        assert false;
        return;
      }
      NextLine(s, i, p, relative);
      p := p + relative + 1;
      i := i + 1;
      LinesLeft(s, i, p);
    }
  }

  lemma LinesLeft(s: Bytes, n: nat, p: nat)
    requires AfterLines(s, n, p) && n < CountLines(s)
    ensures p < |s|
    ensures p > 0 ==> CountLines(s[p..]) == CountLines(s) - n
  {
    assert s[..|s|] == s;
    if p > 0 {
      assert s == s[..p] + s[p..];
      LinesConcat(s[..p], s[p..], s);
    }
  }

  /** The end of the first maxLines lines. */
  method HeadLineEnd(s: Bytes, maxLines: nat) returns (end: nat)
    requires maxLines > 0
    ensures end <= |s| && CountLines(s[..end]) <= maxLines
    ensures end < |s| ==> end > 0 && s[end - 1] == NEWLINE
    ensures forall e: nat | end < e <= |s| :: CountLines(s[..e]) > maxLines
  {
    if CountLines(s) <= maxLines {
      assert s[..|s|] == s;
      return |s|;
    }
    end := SkipLines(s, maxLines);
    forall e: nat | end < e <= |s|
      ensures CountLines(s[..e]) > maxLines
    {
      LinesConcat(s[..end], s[end..e], s[..e]);
      SomeLine(s[end..e]);
    }
  }

  /** The start of the last maxLines lines. */
  method TailLineStart(s: Bytes, maxLines: nat) returns (start: nat)
    requires maxLines > 0
    ensures start <= |s| && CountLines(s[start..]) <= maxLines
    ensures start > 0 ==> s[start - 1] == NEWLINE
    ensures forall p: nat | p < start :: CountLines(s[p..]) > maxLines
  {
    if CountLines(s) <= maxLines {
      assert s[0..] == s;
      return 0;
    }
    var drop := CountLines(s) - maxLines;
    start := SkipLines(s, drop);
    LinesLeft(s, drop, start);
    forall p: nat | p < start
      ensures CountLines(s[p..]) > maxLines
    {
      LinesConcat(s[p..start], s[start..], s[p..]);
    }
  }

  /** The longest well-formed prefix that fits. */
  method SafeHeadByteEnd(s: Bytes, maxBytes: nat) returns (end: nat)
    requires ValidText(s)
    ensures end <= |s| && end <= maxBytes && ValidText(s[..end])
    ensures forall e: nat | end < e <= maxBytes && e <= |s| :: !ValidText(s[..e])
    ensures maxBytes < |s| ==> maxBytes <= end + 3
    ensures |s| <= maxBytes ==> end == |s|
  {
    if |s| <= maxBytes {
      assert s[..|s|] == s;
      return |s|;
    }
    end := maxBytes;
    while end > 0 && !ValidText(s[..end])
      invariant end <= maxBytes
      invariant forall e: nat | end < e <= maxBytes :: !ValidText(s[..e])
    {
      end := end - 1;
    }
    ghost var q := BoundaryBefore(s, maxBytes);
    PrefixValidIff(s, q);
  }

  /** The longest well-formed suffix that fits. */
  method SafeTailByteStart(s: Bytes, maxBytes: nat) returns (start: nat)
    requires ValidText(s)
    ensures start <= |s| && |s| - start <= maxBytes && ValidText(s[start..])
    ensures forall p: nat | p < start && |s| - p <= maxBytes :: !ValidText(s[p..])
    ensures maxBytes < |s| ==> maxBytes <= |s| - start + 3
    ensures |s| <= maxBytes ==> start == 0
  {
    if |s| <= maxBytes {
      assert s[0..] == s;
      return 0;
    }
    start := |s| - maxBytes;
    ghost var q := BoundaryAfter(s, start);
    while start < |s| && IsTail(s[start])
      invariant |s| - maxBytes <= start <= q
      invariant forall p: nat | |s| - maxBytes <= p < start :: !Boundary(s, p)
    {
      start := start + 1;
    }
    PrefixValidIff(s, start);
    forall p: nat | p < start && |s| - p <= maxBytes
      ensures !ValidText(s[p..])
    {
      PrefixValidIff(s, p);
    }
  }

  // Both ends of a line are boundaries.
  lemma LineBoundary(s: Bytes, p: nat)
    requires ValidText(s) && p <= |s| && (0 < p < |s| ==> s[p - 1] == NEWLINE)
    ensures ValidText(s[..p]) && ValidText(s[p..])
  {
    PrefixValidIff(s, p);
    if 0 < p < |s| {
      AfterAscii(s, p);
    } else if p == 0 {
      assert s[..0] == [];
      assert s[0..] == s;
    } else {
      assert s[p..] == [];
      assert s[..p] == s;
    }
  }

  // After a one-byte character there is a boundary.
  lemma {:induction false} AfterAscii(s: Bytes, p: nat)
    requires ValidText(s) && 0 < p < |s| && s[p - 1] <= 0x7F
    ensures Boundary(s, p)
    decreases |s|
  {
    var n := CharLength(s);
    CharShape(s);
    assert n <= p;
    if p == n {
      CharShape(s[n..]);
      assert s[p] == s[n..][0];
    } else {
      AfterAscii(s[n..], p - n);
      assert s[p] == s[n..][p - n] && s[p - 1] == s[n..][p - n - 1];
    }
  }

  ghost predicate Fits(s: Bytes, l: Limits) {
    |s| <= l.maxBytes && CountLines(s) <= l.maxLines
  }

  // What the result says about itself.
  ghost predicate Reports(o: Output, s: Bytes, l: Limits) {
    && o.truncated == !Fits(s, l)
    && o.totalBytes == |s| && o.totalLines == CountLines(s)
    && o.outputBytes == |o.content| && o.outputLines == CountLines(o.content)
  }

  // The longest well-formed prefix within both limits.
  ghost predicate LongestPrefix(s: Bytes, end: nat, l: Limits) {
    var longest := end <= |s| && ValidText(s[..end]) && Fits(s[..end], l)
    && forall e: nat | end < e <= |s| && ValidText(s[..e]) :: !Fits(s[..e], l);
    longest
  }

  ghost predicate LongestSuffix(s: Bytes, start: nat, l: Limits) {
    var longest := start <= |s| && ValidText(s[start..]) && Fits(s[start..], l)
    && forall p: nat | p < start && ValidText(s[p..]) :: !Fits(s[p..], l);
    longest
  }

  function Report(s: Bytes, content: Bytes, truncated: bool): Output {
    Output(content, truncated, |s|, |content|, CountLines(s), CountLines(content))
  }

  lemma WholeText(s: Bytes, l: Limits)
    requires ValidText(s) && Fits(s, l)
    ensures s[..|s|] == s && LongestPrefix(s, |s|, l)
    ensures s[0..] == s && LongestSuffix(s, 0, l)
  {
    assert s[..|s|] == s && s[0..] == s;
  }

  /** Keeps the beginning: the longest well-formed prefix within both limits. */
  method TruncateHead(s: Bytes, limits: Limits) returns (o: Output)
    requires ValidText(s)
    ensures Reports(o, s, Normalized(limits))
    ensures |o.content| <= |s| && o.content == s[..|o.content|] && LongestPrefix(s, |o.content|, Normalized(limits))
  {
    var l := Normalized(limits);
    if |s| <= l.maxBytes && CountLines(s) <= l.maxLines {
      WholeText(s, l);
      return Report(s, s, false);
    }
    var byBytes := SafeHeadByteEnd(s, l.maxBytes);
    var byLines := HeadLineEnd(s, l.maxLines);
    var end := if byBytes < byLines then byBytes else byLines;
    HeadIsLongest(s, l, byBytes, byLines, end);
    o := Report(s, s[..end], true);
  }

  lemma HeadIsLongest(s: Bytes, l: Limits, byBytes: nat, byLines: nat, end: nat)
    requires ValidText(s) && l.maxBytes > 0 && l.maxLines > 0
    requires byBytes <= |s| && byBytes <= l.maxBytes && ValidText(s[..byBytes])
    requires forall e: nat | byBytes < e <= l.maxBytes && e <= |s| :: !ValidText(s[..e])
    requires byLines <= |s| && CountLines(s[..byLines]) <= l.maxLines && (byLines < |s| ==> byLines > 0 && s[byLines - 1] == NEWLINE)
    requires forall e: nat | byLines < e <= |s| :: CountLines(s[..e]) > l.maxLines
    requires end == if byBytes < byLines then byBytes else byLines
    ensures LongestPrefix(s, end, l)
  {
    LineBoundary(s, byLines);
    PrefixFits(s, end, byLines);
  }

  /** Keeps the end: the longest well-formed suffix within both limits. */
  method TruncateTail(s: Bytes, limits: Limits) returns (o: Output)
    requires ValidText(s)
    ensures Reports(o, s, Normalized(limits))
    ensures |o.content| <= |s| && o.content == s[|s| - |o.content|..]
    ensures LongestSuffix(s, |s| - |o.content|, Normalized(limits))
  {
    var l := Normalized(limits);
    if |s| <= l.maxBytes && CountLines(s) <= l.maxLines {
      WholeText(s, l);
      return Report(s, s, false);
    }
    var byBytes := SafeTailByteStart(s, l.maxBytes);
    var byLines := TailLineStart(s, l.maxLines);
    var start := if byBytes > byLines then byBytes else byLines;
    TailIsLongest(s, l, byBytes, byLines, start);
    o := Report(s, s[start..], true);
    SuffixReported(s, l, start, o);
  }

  lemma SuffixReported(s: Bytes, l: Limits, start: nat, o: Output)
    requires LongestSuffix(s, start, l) && !Fits(s, l) && o == Report(s, s[start..], true)
    ensures Reports(o, s, l) && |o.content| <= |s| && o.content == s[|s| - |o.content|..]
    ensures LongestSuffix(s, |s| - |o.content|, l)
  {
  }

  lemma TailIsLongest(s: Bytes, l: Limits, byBytes: nat, byLines: nat, start: nat)
    requires ValidText(s) && l.maxBytes > 0 && l.maxLines > 0
    requires byBytes <= |s| && |s| - byBytes <= l.maxBytes && ValidText(s[byBytes..])
    requires forall p: nat | p < byBytes && |s| - p <= l.maxBytes :: !ValidText(s[p..])
    requires byLines <= |s| && CountLines(s[byLines..]) <= l.maxLines && (byLines > 0 ==> s[byLines - 1] == NEWLINE)
    requires forall p: nat | p < byLines :: CountLines(s[p..]) > l.maxLines
    requires start == if byBytes > byLines then byBytes else byLines
    ensures LongestSuffix(s, start, l)
  {
    LineBoundary(s, byLines);
    SuffixFits(s, byLines, start);
  }

  lemma SuffixFits(s: Bytes, p: nat, q: nat)
    requires p <= q <= |s|
    ensures CountLines(s[q..]) <= CountLines(s[p..])
  {
    SuffixLines(s[p..], q - p);
    assert s[p..][q - p..] == s[q..];
  }

  lemma PrefixFits(s: Bytes, p: nat, q: nat)
    requires p <= q <= |s|
    ensures CountLines(s[..p]) <= CountLines(s[..q])
  {
    PrefixLines(s[..q], p);
    assert s[..q][..p] == s[..p];
  }
}
