/** Editing a file by exact replacements: every edit is matched against the
    original text, and all of them are applied together. */
module Edit {
  import opened Messages
  import opened ByteText

  datatype Replacement = Replacement(oldText: Bytes, newText: Bytes)

  // A planned change of the text between two positions.
  datatype Span = Span(start: nat, end: nat, newText: Bytes)

  datatype EditError = NotFound(index: nat) | NotUnique(index: nat) | Overlap

  const CR: Byte := 13
  const LF: Byte := 10
  const BOM: Bytes := [0xEF, 0xBB, 0xBF]

  // ---------------------------------------------------------------------------
  // Line endings and byte order mark.

  predicate StartsCRLF(s: Bytes) {
    |s| >= 2 && s[0] == CR && s[1] == LF
  }

  predicate ContainsCRLF(s: Bytes) {
    exists i :: 0 <= i < |s| - 1 && s[i] == CR && s[i + 1] == LF
  }

  function NormalizeLF(s: Bytes): Bytes {
    if s == [] then []
    else if StartsCRLF(s) then [LF] + NormalizeLF(s[2..])
    else [s[0]] + NormalizeLF(s[1..])
  }

  function ToCRLF(s: Bytes): Bytes {
    if s == [] then [] else (if s[0] == LF then [CR, LF] else [s[0]]) + ToCRLF(s[1..])
  }

  function Restore(s: Bytes, crlf: bool): Bytes {
    if crlf then ToCRLF(s) else s
  }

  // Every line feed stands behind a carriage return.
  predicate NoBareLF(s: Bytes) {
    forall i | 0 <= i < |s| && s[i] == LF :: i > 0 && s[i - 1] == CR
  }

  predicate Uniform(s: Bytes) {
    !ContainsCRLF(s) || NoBareLF(s)
  }

  lemma {:induction false} NothingToNormalize(s: Bytes)
    requires !ContainsCRLF(s)
    ensures NormalizeLF(s) == s
  {
    if s != [] {
      assert !StartsCRLF(s);
      forall i | 0 <= i < |s[1..]| - 1
        ensures !(s[1..][i] == CR && s[1..][i + 1] == LF)
      {
        assert s[1..][i] == s[i + 1] && s[1..][i + 1] == s[i + 2];
      }
      NothingToNormalize(s[1..]);
    }
  }

  lemma NoBareSkipPair(s: Bytes)
    requires StartsCRLF(s)
    ensures NoBareLF(s) <==> NoBareLF(s[2..])
  {
    var rest := s[2..];
    assert forall i | 0 <= i < |rest| :: rest[i] == s[i + 2];
    if NoBareLF(s) {
      forall i | 0 <= i < |rest| && rest[i] == LF
        ensures i > 0 && rest[i - 1] == CR
      {
        assert s[i + 2] == LF;
      }
    }
    if NoBareLF(rest) {
      forall i | 0 <= i < |s| && s[i] == LF
        ensures i > 0 && s[i - 1] == CR
      {
        assert i >= 2 ==> rest[i - 2] == LF;
      }
    }
  }

  lemma NoBareSkipOne(s: Bytes)
    requires s != [] && !StartsCRLF(s) && s[0] != LF
    ensures NoBareLF(s) <==> NoBareLF(s[1..])
  {
    var rest := s[1..];
    assert forall i | 0 <= i < |rest| :: rest[i] == s[i + 1];
    if NoBareLF(s) {
      forall i | 0 <= i < |rest| && rest[i] == LF
        ensures i > 0 && rest[i - 1] == CR
      {
        assert s[i + 1] == LF;
      }
    }
    if NoBareLF(rest) {
      forall i | 0 <= i < |s| && s[i] == LF
        ensures i > 0 && s[i - 1] == CR
      {
        assert i >= 1 ==> rest[i - 1] == LF;
      }
    }
  }

  lemma {:induction false} CRLFRoundTrip(s: Bytes)
    ensures ToCRLF(NormalizeLF(s)) == s <==> NoBareLF(s)
    decreases |s|
  {
    if s == [] {
    } else if StartsCRLF(s) {
      CRLFRoundTrip(s[2..]);
      NoBareSkipPair(s);
      assert ([LF] + NormalizeLF(s[2..]))[1..] == NormalizeLF(s[2..]);
      assert s == [CR, LF] + s[2..];
    } else {
      var rest := NormalizeLF(s[1..]);
      assert ([s[0]] + rest)[1..] == rest;
      if s[0] == LF {
        assert ToCRLF(NormalizeLF(s))[0] == CR;
      } else {
        CRLFRoundTrip(s[1..]);
        NoBareSkipOne(s);
        assert s == [s[0]] + s[1..];
        assert ([s[0]] + ToCRLF(rest))[1..] == ToCRLF(rest);
      }
    }
  }

  /** Normalizing the line endings and restoring them gives the text back exactly
      when its line endings are uniform. */
  lemma RoundTripIff(s: Bytes)
    ensures Restore(NormalizeLF(s), ContainsCRLF(s)) == s <==> Uniform(s)
  {
    if ContainsCRLF(s) {
      CRLFRoundTrip(s);
    } else {
      NothingToNormalize(s);
    }
  }

  lemma {:induction false} CRLFConcat(a: Bytes, b: Bytes)
    ensures ToCRLF(a + b) == ToCRLF(a) + ToCRLF(b)
    decreases |a|
  {
    if a == [] {
      assert a + b == b;
    } else {
      assert (a + b)[1..] == a[1..] + b;
      CRLFConcat(a[1..], b);
    }
  }

  lemma RestoreConcat(a: Bytes, b: Bytes, crlf: bool)
    ensures Restore(a + b, crlf) == Restore(a, crlf) + Restore(b, crlf)
  {
    CRLFConcat(a, b);
  }

  function SplitBOM(s: Bytes): (r: (Bytes, Bytes))
    ensures r.0 + r.1 == s && (r.0 == [0xEF, 0xBB, 0xBF] || r.0 == [])
    ensures r.0 == [] <==> !([0xEF, 0xBB, 0xBF] <= s)
  {
    if BOM <= s then (BOM, s[|BOM|..]) else ([], s)
  }

  // ---------------------------------------------------------------------------
  // Planning.

  predicate Occurs(s: Bytes, t: Bytes, i: nat) {
    i + |t| <= |s| && s[i..i + |t|] == t
  }

  // The leftmost occurrence at or after i, or |s| + 1.
  function IndexFrom(s: Bytes, t: Bytes, i: nat): (k: nat)
    ensures k <= |s| ==> i <= k && Occurs(s, t, k)
    ensures forall j: nat | i <= j < k && j <= |s| :: !Occurs(s, t, j)
    decreases |s| + 1 - i
  {
    if i > |s| then |s| + 1 else if Occurs(s, t, i) then i else IndexFrom(s, t, i + 1)
  }

  // Occurrences that do not overlap, counted from the left.
  function CountFrom(s: Bytes, t: Bytes, i: nat): nat
    requires t != []
    decreases |s| + 1 - i
  {
    var k := IndexFrom(s, t, i);
    if i > |s| || k > |s| then 0 else 1 + CountFrom(s, t, k + |t|)
  }

  lemma CountUnfolds(s: Bytes, t: Bytes, i: nat, k: nat)
    requires t != [] && k == IndexFrom(s, t, i)
    ensures CountFrom(s, t, i) == if k > |s| then 0 else 1 + CountFrom(s, t, k + |t|)
  {
  }

  lemma CountsSome(s: Bytes, t: Bytes, i: nat)
    requires t != []
    ensures CountFrom(s, t, i) > 0 <==> IndexFrom(s, t, i) <= |s|
  {
    CountUnfolds(s, t, i, IndexFrom(s, t, i));
  }

  lemma FoundFrom(s: Bytes, t: Bytes, i: nat, j: nat)
    requires i <= j && Occurs(s, t, j)
    ensures IndexFrom(s, t, i) <= j
  {
  }

  // Two occurrences, the second behind the leftmost.
  lemma CountedTwice(s: Bytes, t: Bytes, i: nat, j: nat)
    requires t != [] && i + |t| <= j && Occurs(s, t, i) && Occurs(s, t, j)
    ensures CountFrom(s, t, 0) > 1
  {
    var k := IndexFrom(s, t, 0);
    FoundFrom(s, t, 0, i);
    FoundFrom(s, t, k + |t|, j);
    CountUnfolds(s, t, 0, k);
    CountsSome(s, t, k + |t|);
  }

  lemma TwoOccurrences(s: Bytes, t: Bytes) returns (i: nat, j: nat)
    requires t != [] && CountFrom(s, t, 0) > 1
    ensures i + |t| <= j && Occurs(s, t, i) && Occurs(s, t, j)
  {
    i := IndexFrom(s, t, 0);
    CountUnfolds(s, t, 0, i);
    j := IndexFrom(s, t, i + |t|);
    CountsSome(s, t, i + |t|);
  }

  /** Counting tells apart no occurrence, one, and two that do not overlap. An
      occurrence that overlaps the leftmost one is not counted. */
  lemma CountMeans(s: Bytes, t: Bytes)
    requires t != []
    ensures CountFrom(s, t, 0) == 0 <==> forall i: nat | i <= |s| :: !Occurs(s, t, i)
    ensures CountFrom(s, t, 0) > 1 <==> exists i: nat, j: nat :: i + |t| <= j && Occurs(s, t, i) && Occurs(s, t, j)
  {
    CountsSome(s, t, 0);
    if CountFrom(s, t, 0) > 1 {
      var i, j := TwoOccurrences(s, t);
    }
    if i: nat, j: nat :| i + |t| <= j && Occurs(s, t, i) && Occurs(s, t, j) {
      CountedTwice(s, t, i, j);
    }
  }

  /** Two occurrences that overlap count as one; two that do not, as two. */
  lemma OverlapCountsOnce(t: Bytes, three: Bytes, four: Bytes)
    requires t == [97, 97] && three == [97, 97, 97] && four == [97, 97, 97, 97]
    ensures Occurs(three, t, 0) && Occurs(three, t, 1) && CountFrom(three, t, 0) == 1
    ensures Occurs(four, t, 0) && Occurs(four, t, 1) && CountFrom(four, t, 0) > 1
  {
    assert three[0..2] == t && three[1..3] == t;
    assert four[0..2] == t && four[1..3] == t && four[2..4] == t;
    CountMeans(three, t);
    CountMeans(four, t);
    assert Occurs(four, t, 2);
  }

  // The span of an edit, if its text is found once.
  function SpanOf(s: Bytes, e: Replacement): Option<Span> {
    var t := NormalizeLF(e.oldText);
    if t == [] || CountFrom(s, t, 0) != 1 then None
    else Some(Span(IndexFrom(s, t, 0), IndexFrom(s, t, 0) + |t|, NormalizeLF(e.newText)))
  }

  // Spans of nonempty text, one behind the other.
  predicate InOrder(spans: seq<Span>, size: nat) {
    var inOrder :=
      && (forall i | 0 <= i < |spans| :: spans[i].start < spans[i].end <= size)
      && (forall i, j | 0 <= i < j < |spans| :: spans[i].end <= spans[j].start);
    inOrder
  }

  lemma {:induction false} NormalizeNonempty(s: Bytes)
    requires s != []
    ensures NormalizeLF(s) != []
  {
  }

  function Planned(s: Bytes, e: Replacement): Span {
    var span := SpanOf(s, e);
    if span.Some? then span.value else Span(0, 0, [])
  }

  function SpansOf(s: Bytes, edits: seq<Replacement>): seq<Span> {
    if edits == [] then [] else SpansOf(s, edits[..|edits| - 1]) + [Planned(s, edits[|edits| - 1])]
  }

  ghost predicate AllFound(s: Bytes, edits: seq<Replacement>) {
    forall e | e in edits :: SpanOf(s, e).Some?
  }

  // The plan of some edits: their spans, in the order of the text.
  ghost predicate IsPlan(s: Bytes, edits: seq<Replacement>, spans: seq<Span>) {
    AllFound(s, edits) && InOrder(spans, |s|) && multiset(spans) == multiset(SpansOf(s, edits))
  }

  // A span says what one edit asks for: its old text stands there, and its new text
  // replaces it.
  ghost predicate Says(s: Bytes, x: Span, e: Replacement) {
    && x.start <= x.end <= |s| && s[x.start..x.end] == NormalizeLF(e.oldText)
    && x.newText == NormalizeLF(e.newText)
  }

  lemma SpanSays(s: Bytes, e: Replacement)
    requires SpanOf(s, e).Some?
    ensures Says(s, SpanOf(s, e).value, e)
  {
    var t := NormalizeLF(e.oldText);
    CountUnfolds(s, t, 0, IndexFrom(s, t, 0));
    assert Occurs(s, t, IndexFrom(s, t, 0));
  }

  lemma {:induction false} SpansSay(s: Bytes, edits: seq<Replacement>)
    requires AllFound(s, edits)
    ensures |SpansOf(s, edits)| == |edits| && forall i | 0 <= i < |edits| :: Says(s, SpansOf(s, edits)[i], edits[i])
  {
    if edits != [] {
      var n := |edits| - 1;
      SpansSay(s, edits[..n]);
      SpanSays(s, edits[n]);
    }
  }

  lemma SameMembers(p: seq<Span>, q: seq<Span>)
    requires multiset(p) == multiset(q)
    ensures |p| == |q| && (forall i | 0 <= i < |q| :: q[i] in p)
    ensures forall x | x in p :: exists i :: 0 <= i < |q| && q[i] == x
  {
    assert |p| == |multiset(p)| == |multiset(q)| == |q|;
    forall i | 0 <= i < |q|
      ensures q[i] in p
    {
      assert q[i] in multiset(q);
    }
    forall x | x in p
      ensures exists i :: 0 <= i < |q| && q[i] == x
    {
      assert x in multiset(p);
      assert x in q;
    }
  }

  /** A plan has one span for every edit, and each edit has a span that says what it
      asks for. */
  lemma PlanSays(s: Bytes, edits: seq<Replacement>, p: seq<Span>)
    requires IsPlan(s, edits, p)
    ensures |p| == |edits|
    ensures forall i | 0 <= i < |edits| :: exists x :: x in p && Says(s, x, edits[i])
    ensures forall x | x in p :: exists i :: 0 <= i < |edits| && Says(s, x, edits[i])
  {
    SpansSay(s, edits);
    SameMembers(p, SpansOf(s, edits));
    forall i | 0 <= i < |edits|
      ensures exists x :: x in p && Says(s, x, edits[i])
    {
      assert SpansOf(s, edits)[i] in p;
    }
    forall x | x in p
      ensures exists i :: 0 <= i < |edits| && Says(s, x, edits[i])
    {
      var i :| 0 <= i < |edits| && SpansOf(s, edits)[i] == x;
    }
  }

  predicate SortedByStart(spans: seq<Span>) {
    forall i, j | 0 <= i < j < |spans| :: spans[i].start <= spans[j].start
  }

  lemma LastOfSorted(p: seq<Span>, q: seq<Span>, size: nat)
    requires InOrder(p, size) && SortedByStart(q) && multiset(p) == multiset(q) && p != []
    ensures |p| == |q| && q[|q| - 1] == p[|p| - 1]
  {
    assert |multiset(p)| == |multiset(q)|;
    var m := |p| - 1;
    assert p[m] in multiset(q) && q[m] in multiset(p);
    var i :| 0 <= i < |p| && p[i] == q[m];
    var j :| 0 <= j < |q| && q[j] == p[m];
    assert q[j].start <= q[m].start;
    assert p[m].start <= p[i].start;
    assert i == m;
  }

  lemma MultisetInit<T>(a: seq<T>, n: nat, x: T)
    requires |a| == n + 1 && a[n] == x
    ensures multiset(a[..n]) == multiset(a) - multiset{x}
    ensures a == a[..n] + [x]
  {
    assert a == a[..n] + [a[n]];
  }

  lemma InitsOfSorted(p: seq<Span>, q: seq<Span>, size: nat, m: nat)
    requires InOrder(p, size) && SortedByStart(q) && multiset(p) == multiset(q)
    requires |p| == |q| == m + 1 && p[m] == q[m]
    ensures InOrder(p[..m], size) && SortedByStart(q[..m]) && multiset(p[..m]) == multiset(q[..m])
  {
    MultisetInit(p, m, p[m]);
    MultisetInit(q, m, p[m]);
    InOrderShorter(p, size, m);
    SortedShorter(q, m);
  }

  lemma InOrderShorter(p: seq<Span>, size: nat, m: nat)
    requires InOrder(p, size) && m <= |p|
    ensures InOrder(p[..m], size)
  {
  }

  lemma SortedShorter(q: seq<Span>, m: nat)
    requires SortedByStart(q) && m <= |q|
    ensures SortedByStart(q[..m])
  {
  }

  /** Spans one behind the other have only one sorted arrangement. */
  lemma {:induction false} SortedIsUnique(p: seq<Span>, q: seq<Span>, size: nat)
    requires InOrder(p, size) && SortedByStart(q) && multiset(p) == multiset(q)
    ensures p == q
    decreases |p|
  {
    assert |multiset(p)| == |multiset(q)|;
    if p != [] {
      var m := |p| - 1;
      LastOfSorted(p, q, size);
      InitsOfSorted(p, q, size, m);
      SortedIsUnique(p[..m], q[..m], size);
      SameInits(p, q, m);
    }
  }

  lemma SameInits<T>(p: seq<T>, q: seq<T>, m: nat)
    requires |p| == |q| == m + 1 && p[..m] == q[..m] && p[m] == q[m]
    ensures p == q
  {
    assert p == p[..m] + [p[m]] && q == q[..m] + [q[m]];
  }

  lemma {:induction false} SpansConcat(s: Bytes, a: seq<Replacement>, b: seq<Replacement>)
    ensures SpansOf(s, a + b) == SpansOf(s, a) + SpansOf(s, b)
    decreases |b|
  {
    if b == [] {
      assert a + b == a;
    } else {
      var n := |b| - 1;
      SpansConcat(s, a, b[..n]);
      assert (a + b)[..|a + b| - 1] == a + b[..n];
      LastAside(SpansOf(s, a), SpansOf(s, b[..n]), Planned(s, b[n]));
    }
  }

  lemma LastAside(a: seq<Span>, b: seq<Span>, x: Span)
    ensures a + b + [x] == a + (b + [x])
  {
  }

  lemma SpansOfOne(s: Bytes, e: Replacement)
    ensures SpansOf(s, [e]) == [Planned(s, e)]
  {
    assert [e][..0] == [];
  }

  lemma SpansWithout(s: Bytes, a: seq<Replacement>, e: Replacement, b: seq<Replacement>, all: seq<Replacement>)
    requires all == a + [e] + b
    ensures multiset(SpansOf(s, all)) == multiset(SpansOf(s, a + b)) + multiset{Planned(s, e)}
    ensures multiset(a + b) == multiset(all) - multiset{e}
  {
    SpansConcat(s, a + [e], b);
    SpansConcat(s, a, [e]);
    SpansOfOne(s, e);
    SpansConcat(s, a, b);
  }

  lemma {:induction false} PermutedSpans(s: Bytes, edits: seq<Replacement>, other: seq<Replacement>)
    requires multiset(edits) == multiset(other)
    ensures multiset(SpansOf(s, edits)) == multiset(SpansOf(s, other))
    decreases |edits|
  {
    assert |multiset(edits)| == |multiset(other)|;
    if edits != [] {
      var n := |edits| - 1;
      var e := edits[n];
      assert e in multiset(other);
      var k :| 0 <= k < |other| && other[k] == e;
      var a, b := other[..k], other[k + 1..];
      SpansWithout(s, a, e, b, other);
      MultisetInit(edits, n, e);
      PermutedSpans(s, edits[..n], a + b);
    }
  }

  /** The plan does not depend on the order of the edit list. */
  lemma OrderDoesNotMatter(s: Bytes, edits: seq<Replacement>, other: seq<Replacement>, p: seq<Span>, q: seq<Span>)
    requires multiset(edits) == multiset(other)
    ensures IsPlan(s, edits, p) <==> IsPlan(s, other, p)
    ensures IsPlan(s, edits, p) && IsPlan(s, other, q) ==> p == q
  {
    PermutedSpans(s, edits, other);
    forall e
      ensures e in edits <==> e in other
    {
      assert e in edits <==> e in multiset(edits);
      assert e in other <==> e in multiset(other);
    }
    if IsPlan(s, edits, p) && IsPlan(s, other, q) {
      SortedIsUnique(p, q, |s|);
    }
  }

  // Puts a span behind every span that starts no later.
  method Insert(spans: seq<Span>, x: Span) returns (out: seq<Span>)
    requires SortedByStart(spans)
    ensures SortedByStart(out) && multiset(out) == multiset(spans) + multiset{x}
  {
    var k := |spans|;
    while k > 0 && spans[k - 1].start > x.start
      invariant 0 <= k <= |spans|
      invariant forall i | k <= i < |spans| :: spans[i].start > x.start
    {
      k := k - 1;
    }
    InsertedIsSorted(spans, k, x);
    InsertedElements(spans, k, x);
    out := spans[..k] + [x] + spans[k..];
  }

  predicate Ahead(a: seq<Span>, b: seq<Span>) {
    forall i, j | 0 <= i < |a| && 0 <= j < |b| :: a[i].start <= b[j].start
  }

  lemma ConcatSorted(a: seq<Span>, b: seq<Span>)
    requires SortedByStart(a) && SortedByStart(b) && Ahead(a, b)
    ensures SortedByStart(a + b)
  {
    var all := a + b;
    forall i, j | 0 <= i < j < |all|
      ensures all[i].start <= all[j].start
    {
      if j < |a| {
        assert all[i] == a[i] && all[j] == a[j];
      } else if i < |a| {
        assert all[i] == a[i] && all[j] == b[j - |a|];
      } else {
        assert all[i] == b[i - |a|] && all[j] == b[j - |a|];
      }
    }
  }

  lemma AheadConcat(a: seq<Span>, b: seq<Span>, c: seq<Span>)
    requires Ahead(a, c) && Ahead(b, c)
    ensures Ahead(a + b, c)
  {
  }

  // Where a sorted list is cut.
  lemma CutSorted(spans: seq<Span>, k: nat, x: Span)
    requires SortedByStart(spans) && k <= |spans|
    requires forall i | k <= i < |spans| :: spans[i].start > x.start
    requires k > 0 ==> spans[k - 1].start <= x.start
    ensures SortedByStart(spans[..k]) && SortedByStart(spans[k..])
    ensures Ahead(spans[..k], [x]) && Ahead([x], spans[k..]) && Ahead(spans[..k], spans[k..])
  {
  }

  lemma InsertedIsSorted(spans: seq<Span>, k: nat, x: Span)
    requires SortedByStart(spans) && k <= |spans|
    requires forall i | k <= i < |spans| :: spans[i].start > x.start
    requires k > 0 ==> spans[k - 1].start <= x.start
    ensures SortedByStart(spans[..k] + [x] + spans[k..])
  {
    var a, b := spans[..k], spans[k..];
    CutSorted(spans, k, x);
    ConcatSorted(a, [x]);
    AheadConcat(a, [x], b);
    ConcatSorted(a + [x], b);
  }

  lemma InsertedElements(spans: seq<Span>, k: nat, x: Span)
    requires k <= |spans|
    ensures multiset(spans[..k] + [x] + spans[k..]) == multiset(spans) + multiset{x}
  {
    assert spans == spans[..k] + spans[k..];
  }

  method SortSpans(spans: seq<Span>) returns (out: seq<Span>)
    ensures SortedByStart(out) && multiset(out) == multiset(spans)
  {
    out := [];
    for i := 0 to |spans|
      invariant SortedByStart(out) && multiset(out) == multiset(spans[..i])
    {
      assert spans[..i + 1] == spans[..i] + [spans[i]];
      out := Insert(out, spans[i]);
    }
    assert spans[..|spans|] == spans;
  }

  // The first i edits are found, at these spans.
  ghost predicate FoundUpTo(s: Bytes, edits: seq<Replacement>, i: nat, spans: seq<Span>)
    requires i <= |edits|
  {
    var found := AllFound(s, edits[..i]) && spans == SpansOf(s, edits[..i]);
    found
  }

  lemma FoundNext(s: Bytes, edits: seq<Replacement>, i: nat, spans: seq<Span>)
    requires i < |edits| && FoundUpTo(s, edits, i, spans)
    ensures SpanOf(s, edits[i]).Some? ==> FoundUpTo(s, edits, i + 1, spans + [SpanOf(s, edits[i]).value])
    ensures SpanOf(s, edits[i]).None? ==> !AllFound(s, edits)
  {
    assert edits[i] in edits;
    assert edits[..i + 1] == edits[..i] + [edits[i]];
  }

  // The first edit that is not found once is named.
  predicate BlamesEdit(s: Bytes, edits: seq<Replacement>, error: EditError) {
    match error
    case NotFound(i) => i < |edits| && NormalizeLF(edits[i].oldText) != [] && CountFrom(s, NormalizeLF(edits[i].oldText), 0) == 0
    case NotUnique(i) => i < |edits| && NormalizeLF(edits[i].oldText) != [] && CountFrom(s, NormalizeLF(edits[i].oldText), 0) > 1
    case Overlap => false
  }

  ghost predicate BlamesFirst(s: Bytes, edits: seq<Replacement>, error: EditError) {
    && BlamesEdit(s, edits, error)
    && !error.Overlap? && error.index <= |edits| && AllFound(s, edits[..error.index])
  }

  // Finds every edit in the original text.
  method FindSpans(s: Bytes, edits: seq<Replacement>) returns (r: Result<seq<Span>, EditError>)
    requires forall e | e in edits :: e.oldText != []
    ensures r.Success? <==> AllFound(s, edits)
    ensures r.Success? ==> r.value == SpansOf(s, edits)
    ensures r.Failure? ==> BlamesFirst(s, edits, r.error)
  {
    var spans: seq<Span> := [];
    for i := 0 to |edits|
      invariant FoundUpTo(s, edits, i, spans)
    {
      FoundNext(s, edits, i, spans);
      var t := NormalizeLF(edits[i].oldText);
      NormalizeNonempty(edits[i].oldText);
      var count := CountFrom(s, t, 0);
      if count != 1 {
        return Failure(if count == 0 then NotFound(i) else NotUnique(i));
      }
      var start := IndexFrom(s, t, 0);
      spans := spans + [Span(start, start + |t|, NormalizeLF(edits[i].newText))];
    }
    assert edits[..|edits|] == edits;
    r := Success(spans);
  }

  lemma {:induction false} SpansInside(s: Bytes, edits: seq<Replacement>)
    requires AllFound(s, edits)
    ensures forall x | x in SpansOf(s, edits) :: x.start < x.end <= |s|
  {
    if edits != [] {
      var n := |edits| - 1;
      assert edits[n] in edits;
      forall e | e in edits[..n]
        ensures e in edits
      {
      }
      SpansInside(s, edits[..n]);
    }
  }

  /** Plans all edits on the original text, or none. It succeeds exactly when
      every old text is found once and the spans can be laid out one behind the
      other. */
  method PlanEdits(s: Bytes, edits: seq<Replacement>) returns (r: Result<seq<Span>, EditError>)
    requires forall e | e in edits :: e.oldText != []
    ensures r.Success? ==> IsPlan(s, edits, r.value)
    ensures r.Failure? ==> forall p :: !IsPlan(s, edits, p)
    ensures r.Failure? ==> if r.error.Overlap? then AllFound(s, edits) else BlamesFirst(s, edits, r.error)
  {
    var found := FindSpans(s, edits);
    if found.Failure? {
      return Failure(found.error);
    }
    var spans := SortSpans(found.value);
    SpansInside(s, edits);
    AllInside(spans, found.value, |s|);
    var i := 1;
    while i < |spans|
      invariant 1 <= i
      invariant i <= |spans| || |spans| == 0
      invariant forall k | 0 < k < i && k < |spans| :: spans[k - 1].end <= spans[k].start
    {
      if spans[i].start < spans[i - 1].end {
        forall p
          ensures !IsPlan(s, edits, p)
        {
          if IsPlan(s, edits, p) {
            SortedIsUnique(p, spans, |s|);
          }
        }
        return Failure(Overlap);
      }
      i := i + 1;
    }
    AdjacentIsInOrder(spans, |s|);
    r := Success(spans);
  }

  lemma AllInside(spans: seq<Span>, found: seq<Span>, size: nat)
    requires multiset(spans) == multiset(found) && forall x | x in found :: x.start < x.end <= size
    ensures forall i | 0 <= i < |spans| :: spans[i].start < spans[i].end <= size
  {
    forall i | 0 <= i < |spans|
      ensures spans[i].start < spans[i].end <= size
    {
      assert spans[i] in multiset(found);
    }
  }

  lemma {:induction false} AdjacentIsInOrder(spans: seq<Span>, size: nat)
    requires forall i | 0 <= i < |spans| :: spans[i].start < spans[i].end <= size
    requires forall k | 0 < k < |spans| :: spans[k - 1].end <= spans[k].start
    ensures InOrder(spans, size)
    decreases |spans|
  {
    if spans != [] {
      var n := |spans| - 1;
      AdjacentIsInOrder(spans[..n], size);
      forall i | 0 <= i < n
        ensures spans[i].end <= spans[n].start
      {
        if i < n - 1 {
          assert spans[..n][i].end <= spans[..n][n - 1].start;
        }
      }
      forall i, j | 0 <= i < j < |spans|
        ensures spans[i].end <= spans[j].start
      {
        if j < n {
          assert spans[..n][i].end <= spans[..n][j].start;
        }
      }
    }
  }

  // ---------------------------------------------------------------------------
  // Applying.

  function Splice(s: Bytes, x: Span): Bytes
    requires x.start <= x.end <= |s|
  {
    s[..x.start] + x.newText + s[x.end..]
  }

  function LastEnd(spans: seq<Span>): nat {
    if spans == [] then 0 else spans[|spans| - 1].end
  }

  lemma InOrderInit(spans: seq<Span>, size: nat)
    requires InOrder(spans, size) && spans != []
    ensures InOrder(spans[..|spans| - 1], size)
    ensures InOrder(spans[..|spans| - 1], spans[|spans| - 1].start)
    ensures LastEnd(spans[..|spans| - 1]) <= spans[|spans| - 1].start < spans[|spans| - 1].end <= size
  {
  }

  /** The spans applied one at a time, from the last to the first, so that no
      position shifts before it is used. */
  function SpliceAll(s: Bytes, spans: seq<Span>): Bytes
    requires InOrder(spans, |s|)
    decreases |spans|
  {
    if spans == [] then s
    else
      var x := spans[|spans| - 1];
      InOrderInit(spans, |s|);
      SpliceAll(Splice(s, x), spans[..|spans| - 1])
  }

  // The text up to the end of the last span, with every span replaced.
  function Built(s: Bytes, spans: seq<Span>): Bytes
    requires InOrder(spans, |s|)
    decreases |spans|
  {
    if spans == [] then []
    else
      var x := spans[|spans| - 1];
      InOrderInit(spans, |s|);
      Built(s, spans[..|spans| - 1]) + s[LastEnd(spans[..|spans| - 1])..x.start] + x.newText
  }

  // What is built depends only on the text before the end of the last span.
  lemma {:induction false} BuiltAgrees(s: Bytes, t: Bytes, spans: seq<Span>, n: nat)
    requires n <= |s| && n <= |t| && s[..n] == t[..n] && InOrder(spans, n)
    requires InOrder(spans, |s|) && InOrder(spans, |t|)
    ensures Built(s, spans) == Built(t, spans)
    decreases |spans|
  {
    if spans != [] {
      var x := spans[|spans| - 1];
      var init := spans[..|spans| - 1];
      InOrderInit(spans, |s|);
      BuiltAgrees(s, t, init, n);
      assert s[LastEnd(init)..x.start] == s[..n][LastEnd(init)..x.start];
      assert t[LastEnd(init)..x.start] == t[..n][LastEnd(init)..x.start];
    }
  }

  lemma {:induction false} SpliceAllIsBuilt(s: Bytes, spans: seq<Span>)
    requires InOrder(spans, |s|)
    ensures LastEnd(spans) <= |s| && SpliceAll(s, spans) == Built(s, spans) + s[LastEnd(spans)..]
    decreases |spans|
  {
    if spans == [] {
      assert s[0..] == s;
    } else {
      var x := spans[|spans| - 1];
      var init := spans[..|spans| - 1];
      InOrderInit(spans, |s|);
      var t := Splice(s, x);
      SpliceAllIsBuilt(t, init);
      BuiltAgrees(s, t, init, x.start);
      SplicedRest(s, x, LastEnd(init));
      BuiltStep(s, spans, |spans| - 1, LastEnd(init), x.start);
      Regroup(Built(s, init), s[LastEnd(init)..x.start], x.newText, s[x.end..]);
    }
  }

  lemma SplicedRest(s: Bytes, x: Span, from: nat)
    requires from <= x.start <= x.end <= |s|
    ensures Splice(s, x)[from..] == s[from..x.start] + x.newText + s[x.end..]
  {
  }

  lemma Regroup(a: Bytes, b: Bytes, c: Bytes, d: Bytes)
    ensures a + (b + c + d) == a + b + c + d
  {
  }

  /** One pass over the text gives the same as splicing span by span. */
  method ApplyPlannedEdits(s: Bytes, spans: seq<Span>) returns (out: Bytes)
    requires InOrder(spans, |s|)
    ensures out == SpliceAll(s, spans)
  {
    out := [];
    var last := 0;
    for i := 0 to |spans|
      invariant last == LastEnd(spans[..i]) <= |s|
      invariant InOrder(spans[..i], |s|) && out == Built(s, spans[..i])
    {
      assert spans[..i + 1][..i] == spans[..i];
      InOrderShorter(spans, |s|, i + 1);
      BuiltStep(s, spans[..i + 1], i, last, spans[i].start);
      out := out + s[last..spans[i].start] + spans[i].newText;
      last := spans[i].end;
    }
    assert spans[..|spans|] == spans;
    SpliceAllIsBuilt(s, spans);
    out := out + s[last..];
  }

  // ---------------------------------------------------------------------------
  // The edited file.

  // A span of normalized text, in the text with its own line endings.
  function Located(s: Bytes, x: Span, crlf: bool): Span
    requires x.start <= x.end <= |s|
  {
    Span(|Restore(s[..x.start], crlf)|, |Restore(s[..x.end], crlf)|, Restore(x.newText, crlf))
  }

  function LocatedAll(s: Bytes, spans: seq<Span>, crlf: bool): (r: seq<Span>)
    requires forall i | 0 <= i < |spans| :: spans[i].start <= spans[i].end <= |s|
    ensures |r| == |spans| && forall i | 0 <= i < |r| :: r[i] == Located(s, spans[i], crlf)
  {
    seq(|spans|, i requires 0 <= i < |spans| => Located(s, spans[i], crlf))
  }

  lemma RestoredParts(s: Bytes, i: nat, j: nat, crlf: bool)
    requires i <= j <= |s|
    ensures Restore(s[..j], crlf) == Restore(s[..i], crlf) + Restore(s[i..j], crlf)
    ensures Restore(s, crlf) == Restore(s[..j], crlf) + Restore(s[j..], crlf)
    ensures |Restore(s[..i], crlf)| <= |Restore(s[..j], crlf)| <= |Restore(s, crlf)|
    ensures i < j ==> |Restore(s[..i], crlf)| < |Restore(s[..j], crlf)|
  {
    assert s[..j] == s[..i] + s[i..j] && s == s[..j] + s[j..];
    RestoreConcat(s[..i], s[i..j], crlf);
    RestoreConcat(s[..j], s[j..], crlf);
  }

  lemma LocatedInOrder(s: Bytes, spans: seq<Span>, crlf: bool)
    requires InOrder(spans, |s|)
    ensures InOrder(LocatedAll(s, spans, crlf), |Restore(s, crlf)|)
  {
    var ls := LocatedAll(s, spans, crlf);
    forall i | 0 <= i < |ls|
      ensures ls[i].start < ls[i].end <= |Restore(s, crlf)|
    {
      RestoredParts(s, spans[i].start, spans[i].end, crlf);
    }
    forall i, j | 0 <= i < j < |ls|
      ensures ls[i].end <= ls[j].start
    {
      RestoredParts(s, spans[i].end, spans[j].start, crlf);
    }
  }

  lemma BuiltStep(s: Bytes, spans: seq<Span>, n: nat, from: nat, to: nat)
    requires InOrder(spans, |s|) && |spans| == n + 1 && from == LastEnd(spans[..n]) && to == spans[n].start
    ensures InOrder(spans[..n], |s|) && from <= to <= |s|
    ensures Built(s, spans) == Built(s, spans[..n]) + s[from..to] + spans[n].newText
  {
    InOrderInit(spans, |s|);
  }

  // One more span of what is built.
  lemma RestoreNext(s: Bytes, built: Bytes, from: nat, x: Span, crlf: bool, r: Bytes, a: nat, b: nat)
    requires from <= x.start <= |s| && r == Restore(s, crlf)
    requires a == |Restore(s[..from], crlf)| && b == |Restore(s[..x.start], crlf)|
    ensures a <= b <= |r|
    ensures Restore(built + s[from..x.start] + x.newText, crlf) == Restore(built, crlf) + r[a..b] + Restore(x.newText, crlf)
  {
    RestoreConcat(built + s[from..x.start], x.newText, crlf);
    RestoreConcat(built, s[from..x.start], crlf);
    MiddleOf(s, from, x.start, crlf);
  }

  lemma {:induction false} RestoreBuilt(s: Bytes, spans: seq<Span>, crlf: bool, ls: seq<Span>)
    requires InOrder(spans, |s|) && ls == LocatedAll(s, spans, crlf) && InOrder(ls, |Restore(s, crlf)|)
    ensures Restore(Built(s, spans), crlf) == Built(Restore(s, crlf), ls)
    decreases |spans|
  {
    if spans != [] {
      var n := |spans| - 1;
      var from, a, b := LastEnd(spans[..n]), LastEnd(ls[..n]), ls[n].start;
      BuiltStep(s, spans, n, from, spans[n].start);
      BuiltStep(Restore(s, crlf), ls, n, a, b);
      assert ls[..n] == LocatedAll(s, spans[..n], crlf);
      RestoreBuilt(s, spans[..n], crlf, ls[..n]);
      LastEndLocated(s, spans[..n], crlf);
      RestoreNext(s, Built(s, spans[..n]), from, spans[n], crlf, Restore(s, crlf), a, b);
    }
  }

  // The text between two positions, with its own line endings.
  lemma MiddleOf(s: Bytes, i: nat, j: nat, crlf: bool)
    requires i <= j <= |s|
    ensures |Restore(s[..i], crlf)| <= |Restore(s[..j], crlf)| <= |Restore(s, crlf)|
    ensures Restore(s, crlf)[|Restore(s[..i], crlf)|..|Restore(s[..j], crlf)|] == Restore(s[i..j], crlf)
    ensures Restore(s, crlf)[|Restore(s[..j], crlf)|..] == Restore(s[j..], crlf)
  {
    RestoredParts(s, i, j, crlf);
  }

  lemma LastEndLocated(s: Bytes, spans: seq<Span>, crlf: bool)
    requires InOrder(spans, |s|)
    ensures LastEnd(LocatedAll(s, spans, crlf)) == |Restore(s[..LastEnd(spans)], crlf)|
  {
    assert s[..0] == [];
  }

  /** Restoring the line endings of the edited text is editing the text that has
      them: outside the spans nothing changes. */
  lemma RestoreSpliceAll(s: Bytes, spans: seq<Span>, crlf: bool)
    requires InOrder(spans, |s|)
    ensures InOrder(LocatedAll(s, spans, crlf), |Restore(s, crlf)|)
    ensures Restore(SpliceAll(s, spans), crlf) == SpliceAll(Restore(s, crlf), LocatedAll(s, spans, crlf))
  {
    LocatedInOrder(s, spans, crlf);
    var ls := LocatedAll(s, spans, crlf);
    SpliceAllIsBuilt(s, spans);
    SpliceAllIsBuilt(Restore(s, crlf), ls);
    RestoreBuilt(s, spans, crlf, ls);
    RestoreConcat(Built(s, spans), s[LastEnd(spans)..], crlf);
    LastEndLocated(s, spans, crlf);
    MiddleOf(s, LastEnd(spans), LastEnd(spans), crlf);
  }

  // ---------------------------------------------------------------------------
  // Which other bytes an edit changes.

  // A line feed without its carriage return.
  predicate BareAt(s: Bytes, p: nat) {
    p < |s| && s[p] == LF && (p == 0 || s[p - 1] != CR)
  }

  // How many there are: restoring CRLF adds one byte for each.
  function Bares(s: Bytes): nat {
    if s == [] then 0
    else if StartsCRLF(s) then Bares(s[2..])
    else (if s[0] == LF then 1 else 0) + Bares(s[1..])
  }

  lemma {:induction false} RoundTripGrows(s: Bytes)
    ensures |ToCRLF(NormalizeLF(s))| == |s| + Bares(s)
    ensures Bares(s) == 0 <==> NoBareLF(s)
    ensures Bares(s) == 0 ==> ToCRLF(NormalizeLF(s)) == s
    decreases |s|
  {
    CRLFRoundTrip(s);
    if s == [] {
    } else if StartsCRLF(s) {
      RoundTripGrows(s[2..]);
      NoBareSkipPair(s);
      assert ([LF] + NormalizeLF(s[2..]))[1..] == NormalizeLF(s[2..]);
    } else {
      RoundTripGrows(s[1..]);
      var rest := NormalizeLF(s[1..]);
      assert ([s[0]] + rest)[1..] == rest;
      if s[0] != LF {
        NoBareSkipOne(s);
      }
    }
  }

  // Where the i-th byte of the normalized text starts in the text itself.
  function Origin(s: Bytes, i: nat): nat {
    if i == 0 || s == [] then 0
    else if StartsCRLF(s) then 2 + Origin(s[2..], i - 1)
    else 1 + Origin(s[1..], i - 1)
  }

  // A position that does not split a CRLF.
  predicate Whole(s: Bytes, p: nat) {
    p <= |s| && !(0 < p < |s| && s[p - 1] == CR && s[p] == LF)
  }

  lemma {:induction false} OriginSplits(s: Bytes, i: nat)
    requires i <= |NormalizeLF(s)|
    ensures Whole(s, Origin(s, i))
    ensures NormalizeLF(s[..Origin(s, i)]) == NormalizeLF(s)[..i]
    ensures NormalizeLF(s[Origin(s, i)..]) == NormalizeLF(s)[i..]
    decreases |s|
  {
    var n, o := NormalizeLF(s), Origin(s, i);
    if i == 0 || s == [] {
      assert s[..0] == [] && s[0..] == s && n[..0] == [] && n[0..] == n;
    } else {
      var k := if StartsCRLF(s) then 2 else 1;
      OriginSplits(s[k..], i - 1);
      OriginStep(s, k, i, o, n);
    }
  }

  // One unit in front of the rest.
  lemma OriginStep(s: Bytes, k: nat, i: nat, o: nat, n: Bytes)
    requires s != [] && k == (if StartsCRLF(s) then 2 else 1) && i > 0 && n == NormalizeLF(s)
    requires i <= |n| && o == k + Origin(s[k..], i - 1) && Whole(s[k..], o - k)
    requires NormalizeLF(s[k..][..o - k]) == NormalizeLF(s[k..])[..i - 1]
    requires NormalizeLF(s[k..][o - k..]) == NormalizeLF(s[k..])[i - 1..]
    ensures Whole(s, o) && NormalizeLF(s[..o]) == n[..i] && NormalizeLF(s[o..]) == n[i..]
  {
    WholeBehind(s, k, o, s[k..]);
    StartsAlike(s, k, o, s[..o]);
    CutBehind(s, k, o);
    NormalizeUnit(s, k, s[k..]);
    NormalizeUnit(s[..o], k, s[k..][..o - k]);
    HeadInFront(if k == 2 then LF else s[0], NormalizeLF(s[k..]), i, n);
  }

  lemma CutBehind(s: Bytes, k: nat, o: nat)
    requires k <= o <= |s|
    ensures s[..o][k..] == s[k..][..o - k] && s[o..] == s[k..][o - k..]
  {
  }

  lemma NormalizeUnit(s: Bytes, k: nat, rest: Bytes)
    requires s != [] && k == (if StartsCRLF(s) then 2 else 1) && rest == s[k..]
    ensures NormalizeLF(s) == [if k == 2 then LF else s[0]] + NormalizeLF(rest)
  {
  }

  lemma WholeBehind(s: Bytes, k: nat, o: nat, rest: Bytes)
    requires s != [] && k == (if StartsCRLF(s) then 2 else 1) && rest == s[k..] && k <= o <= |s| && Whole(rest, o - k)
    ensures Whole(s, o)
  {
    if k < o < |s| {
      assert s[o - 1] == rest[o - k - 1] && s[o] == rest[o - k];
    }
  }

  lemma StartsAlike(s: Bytes, k: nat, o: nat, head: Bytes)
    requires s != [] && k == (if StartsCRLF(s) then 2 else 1) && k <= o <= |s| && head == s[..o] && Whole(s, o)
    ensures StartsCRLF(head) <==> StartsCRLF(s)
  {
  }

  lemma HeadInFront(b: Byte, rest: Bytes, i: nat, n: Bytes)
    requires n == [b] + rest && 0 < i <= |n|
    ensures n[..i] == [b] + rest[..i - 1] && n[i..] == rest[i - 1..]
  {
  }

  lemma OriginBounds(s: Bytes, i: nat)
    requires i <= |NormalizeLF(s)|
    ensures Origin(s, i) <= |s| && (0 < i ==> 0 < Origin(s, i))
  {
    OriginSplits(s, i);
  }

  lemma OriginNext(s: Bytes, k: nat, i: nat)
    requires s != [] && k == (if StartsCRLF(s) then 2 else 1) && 0 < i <= |NormalizeLF(s)|
    ensures Origin(s, i) == k + Origin(s[k..], i - 1) <= |s|
    ensures i - 1 <= |NormalizeLF(s[k..])|
    ensures s[Origin(s, i)..] == s[k..][Origin(s[k..], i - 1)..]
  {
    OriginBounds(s, i);
  }

  // Positions add up.
  lemma {:induction false} OriginAdds(s: Bytes, i: nat, j: nat)
    requires i <= j <= |NormalizeLF(s)|
    ensures Origin(s, i) <= |s|
    ensures Origin(s, j) == Origin(s, i) + Origin(s[Origin(s, i)..], j - i)
    decreases |s|
  {
    OriginBounds(s, i);
    if i == 0 || s == [] {
      assert s[0..] == s;
    } else {
      var k := if StartsCRLF(s) then 2 else 1;
      OriginNext(s, k, i);
      OriginNext(s, k, j);
      OriginAdds(s[k..], i - 1, j - 1);
    }
  }

  lemma OriginOrder(s: Bytes, i: nat, j: nat)
    requires i <= j <= |NormalizeLF(s)|
    ensures Origin(s, i) <= Origin(s, j) <= |s| && (i < j ==> Origin(s, i) < Origin(s, j))
  {
    OriginAdds(s, i, j);
    OriginSplits(s, i);
    OriginBounds(s[Origin(s, i)..], j - i);
  }

  // The text between two positions.
  lemma Between(s: Bytes, i: nat, j: nat)
    requires i <= j <= |NormalizeLF(s)|
    ensures Origin(s, i) <= Origin(s, j) <= |s|
    ensures NormalizeLF(s[Origin(s, i)..Origin(s, j)]) == NormalizeLF(s)[i..j]
    ensures NormalizeLF(s[Origin(s, j)..]) == NormalizeLF(s)[j..]
  {
    OriginOrder(s, i, j);
    OriginAdds(s, i, j);
    OriginSplits(s, i);
    OriginSplits(s, j);
    BetweenSlices(s, Origin(s, i), Origin(s, j), s[Origin(s, i)..], NormalizeLF(s), i, j);
  }

  lemma BetweenSlices(s: Bytes, a: nat, b: nat, rest: Bytes, n: Bytes, i: nat, j: nat)
    requires a <= b <= |s| && i <= j <= |n| && rest == s[a..] && NormalizeLF(rest) == n[i..]
    requires b == a + Origin(rest, j - i)
    ensures NormalizeLF(s[a..b]) == n[i..j]
  {
    OriginSplits(rest, j - i);
    SliceTwice(s, a, b);
    SliceTwice(n, i, j);
  }

  lemma SliceTwice(s: Bytes, a: nat, b: nat)
    requires a <= b <= |s|
    ensures s[a..][..b - a] == s[a..b]
  {
  }

  // A planned span at its place in the text itself.
  function Match(s: Bytes, x: Span, crlf: bool): Span {
    Span(Origin(s, x.start), Origin(s, x.end), Restore(x.newText, crlf))
  }

  function Matches(s: Bytes, plan: seq<Span>, crlf: bool): (r: seq<Span>)
    ensures |r| == |plan| && forall i | 0 <= i < |r| :: r[i] == Match(s, plan[i], crlf)
  {
    seq(|plan|, i requires 0 <= i < |plan| => Match(s, plan[i], crlf))
  }

  lemma MatchesInOrder(s: Bytes, plan: seq<Span>, crlf: bool)
    requires InOrder(plan, |NormalizeLF(s)|)
    ensures InOrder(Matches(s, plan, crlf), |s|)
    ensures LastEnd(plan) <= |NormalizeLF(s)| && LastEnd(Matches(s, plan, crlf)) == Origin(s, LastEnd(plan))
    ensures forall k | 0 <= k < |plan| :: Whole(s, Matches(s, plan, crlf)[k].end)
  {
    var ls := Matches(s, plan, crlf);
    forall i | 0 <= i < |ls|
      ensures ls[i].start < ls[i].end <= |s| && Whole(s, ls[i].end)
    {
      OriginOrder(s, plan[i].start, plan[i].end);
      OriginSplits(s, plan[i].end);
    }
    forall i, j | 0 <= i < j < |ls|
      ensures ls[i].end <= ls[j].start
    {
      OriginOrder(s, plan[i].end, plan[j].start);
    }
  }

  // The bare line feeds before the end of the last match and outside of them all.
  function GapBares(s: Bytes, ls: seq<Span>): nat
    requires InOrder(ls, |s|)
    decreases |ls|
  {
    if ls == [] then 0
    else
      InOrderInit(ls, |s|);
      GapBares(s, ls[..|ls| - 1]) + Bares(s[LastEnd(ls[..|ls| - 1])..ls[|ls| - 1].start])
  }

  lemma GapBaresStep(s: Bytes, ls: seq<Span>, m: nat)
    requires InOrder(ls, |s|) && |ls| == m + 1
    ensures InOrder(ls[..m], |s|) && LastEnd(ls[..m]) <= ls[m].start <= |s|
    ensures GapBares(s, ls) == GapBares(s, ls[..m]) + Bares(s[LastEnd(ls[..m])..ls[m].start])
  {
    InOrderInit(ls, |s|);
  }

  // One gap and one match more.
  lemma GrowStep(a: Bytes, b: Bytes, gap: Bytes, text: Bytes, extra: nat, out: Bytes)
    requires |ToCRLF(a)| == |b| + extra && (extra == 0 ==> ToCRLF(a) == b)
    requires out == a + NormalizeLF(gap) + text
    ensures |ToCRLF(out)| == |b + gap + ToCRLF(text)| + extra + Bares(gap)
    ensures extra + Bares(gap) == 0 ==> ToCRLF(out) == b + gap + ToCRLF(text)
  {
    CRLFConcat(a + NormalizeLF(gap), text);
    CRLFConcat(a, NormalizeLF(gap));
    RoundTripGrows(gap);
  }

  // Restoring what was built from the normalized text, against building from the
  // text itself: it is longer by the bare line feeds of the gaps.
  lemma {:induction false} BuiltGrows(s: Bytes, plan: seq<Span>, ls: seq<Span>)
    requires InOrder(plan, |NormalizeLF(s)|) && ls == Matches(s, plan, true) && InOrder(ls, |s|)
    ensures |ToCRLF(Built(NormalizeLF(s), plan))| == |Built(s, ls)| + GapBares(s, ls)
    ensures GapBares(s, ls) == 0 ==> ToCRLF(Built(NormalizeLF(s), plan)) == Built(s, ls)
    decreases |plan|
  {
    if plan != [] {
      var m, n := |plan| - 1, NormalizeLF(s);
      var i, j := LastEnd(plan[..m]), plan[m].start;
      BuiltStep(n, plan, m, i, j);
      assert ls[..m] == Matches(s, plan[..m], true);
      MatchesInOrder(s, plan[..m], true);
      Between(s, i, j);
      GapBaresStep(s, ls, m);
      BuiltStep(s, ls, m, LastEnd(ls[..m]), ls[m].start);
      BuiltGrows(s, plan[..m], ls[..m]);
      GrowStep(Built(n, plan[..m]), Built(s, ls[..m]), s[Origin(s, i)..Origin(s, j)], plan[m].newText, GapBares(s, ls[..m]), Built(n, plan));
    }
  }

  // All bare line feeds outside the matches.
  function OutsideBares(s: Bytes, ls: seq<Span>): nat
    requires InOrder(ls, |s|)
  {
    SpliceAllIsBuilt(s, ls);
    GapBares(s, ls) + Bares(s[LastEnd(ls)..])
  }

  lemma SpliceGrows(s: Bytes, plan: seq<Span>, ls: seq<Span>)
    requires InOrder(plan, |NormalizeLF(s)|) && ls == Matches(s, plan, true) && InOrder(ls, |s|)
    ensures ToCRLF(SpliceAll(NormalizeLF(s), plan)) == SpliceAll(s, ls) <==> OutsideBares(s, ls) == 0
  {
    var n := NormalizeLF(s);
    MatchesInOrder(s, plan, true);
    SpliceAllIsBuilt(n, plan);
    SpliceAllIsBuilt(s, ls);
    BuiltGrows(s, plan, ls);
    Between(s, LastEnd(plan), LastEnd(plan));
    var rest := s[LastEnd(ls)..];
    assert SpliceAll(n, plan) == Built(n, plan) + NormalizeLF(rest) + [];
    GrowStep(Built(n, plan), Built(s, ls), rest, [], GapBares(s, ls), SpliceAll(n, plan));
    assert SpliceAll(s, ls) == Built(s, ls) + rest + ToCRLF([]);
  }

  predicate Inside(ls: seq<Span>, p: nat) {
    exists k :: 0 <= k < |ls| && ls[k].start <= p < ls[k].end
  }

  // A gap that starts at a whole position has its bare line feeds where the text
  // has them.
  lemma GapClear(s: Bytes, x: nat, y: nat)
    requires x <= y <= |s| && Whole(s, x)
    ensures Bares(s[x..y]) == 0 <==> forall p: nat | x <= p < y :: !BareAt(s, p)
  {
    RoundTripGrows(s[x..y]);
    if NoBareLF(s[x..y]) {
      forall p: nat | x <= p < y
        ensures !BareAt(s, p)
      {
        GapByte(s, x, y, p);
      }
    }
    if forall p: nat | x <= p < y :: !BareAt(s, p) {
      NoneBare(s, x, y, s[x..y]);
    }
  }

  lemma GapByte(s: Bytes, x: nat, y: nat, p: nat)
    requires x <= p < y <= |s| && Whole(s, x) && NoBareLF(s[x..y])
    ensures !BareAt(s, p)
  {
    assert s[x..y][p - x] == s[p];
    if p > x {
      assert s[x..y][p - x - 1] == s[p - 1];
    }
  }

  lemma NoneBare(s: Bytes, x: nat, y: nat, g: Bytes)
    requires x <= y <= |s| && Whole(s, x) && g == s[x..y]
    requires forall p: nat | x <= p < y :: !BareAt(s, p)
    ensures NoBareLF(g)
  {
    forall q | 0 <= q < |g| && g[q] == LF
      ensures q > 0 && g[q - 1] == CR
    {
      assert !BareAt(s, x + q);
    }
  }

  // The bare line feeds before a position lie inside the matches.
  ghost predicate ClearBefore(s: Bytes, ls: seq<Span>, end: nat) {
    forall p: nat | p < end && BareAt(s, p) :: Inside(ls, p)
  }

  lemma {:induction false} GapsClear(s: Bytes, ls: seq<Span>)
    requires InOrder(ls, |s|) && forall k | 0 <= k < |ls| :: Whole(s, ls[k].end)
    ensures GapBares(s, ls) == 0 <==> ClearBefore(s, ls, LastEnd(ls))
    decreases |ls|
  {
    if ls != [] {
      var m := |ls| - 1;
      var init, x := ls[..m], ls[m];
      GapBaresStep(s, ls, m);
      GapsClear(s, init);
      GapClear(s, LastEnd(init), x.start);
      ClearStep(s, ls, m);
    }
  }

  lemma InsideLast(ls: seq<Span>, m: nat, size: nat, p: nat)
    requires InOrder(ls, size) && |ls| == m + 1
    ensures Inside(ls, p) <==> Inside(ls[..m], p) || ls[m].start <= p < ls[m].end
    ensures Inside(ls[..m], p) ==> p < LastEnd(ls[..m])
  {
    var init := ls[..m];
    if Inside(init, p) {
      var k :| 0 <= k < |init| && init[k].start <= p < init[k].end;
      assert ls[k] == init[k];
    }
    if Inside(ls, p) {
      var k :| 0 <= k < |ls| && ls[k].start <= p < ls[k].end;
      assert k < m ==> init[k] == ls[k];
    }
  }

  lemma ClearStep(s: Bytes, ls: seq<Span>, m: nat)
    requires InOrder(ls, |s|) && |ls| == m + 1 && LastEnd(ls[..m]) <= ls[m].start
    ensures ClearBefore(s, ls, LastEnd(ls)) <==>
            ClearBefore(s, ls[..m], LastEnd(ls[..m])) && forall p: nat | LastEnd(ls[..m]) <= p < ls[m].start :: !BareAt(s, p)
  {
    var init, x := ls[..m], ls[m];
    if ClearBefore(s, ls, LastEnd(ls)) {
      forall p: nat | p < LastEnd(init) && BareAt(s, p)
        ensures Inside(init, p)
      {
        InsideLast(ls, m, |s|, p);
      }
      forall p: nat | LastEnd(init) <= p < x.start
        ensures !BareAt(s, p)
      {
        InsideLast(ls, m, |s|, p);
      }
    }
    if ClearBefore(s, init, LastEnd(init)) && forall p: nat | LastEnd(init) <= p < x.start :: !BareAt(s, p) {
      forall p: nat | p < LastEnd(ls) && BareAt(s, p)
        ensures Inside(ls, p)
      {
        InsideLast(ls, m, |s|, p);
      }
    }
  }

  /** The lines an edit leaves alone: the file has no CRLF, or every bare line feed
      lies inside a match. */
  ghost predicate KeepsOthers(s: Bytes, plan: seq<Span>) {
    !ContainsCRLF(s) || forall p: nat | BareAt(s, p) :: Inside(Matches(s, plan, true), p)
  }

  lemma OutsideClear(s: Bytes, ls: seq<Span>)
    requires InOrder(ls, |s|) && forall k | 0 <= k < |ls| :: Whole(s, ls[k].end)
    ensures OutsideBares(s, ls) == 0 <==> forall p: nat | BareAt(s, p) :: Inside(ls, p)
  {
    var end := LastEnd(ls);
    SpliceAllIsBuilt(s, ls);
    GapsClear(s, ls);
    GapClear(s, end, |s|);
    assert s[end..|s|] == s[end..];
    forall p: nat | end <= p
      ensures !Inside(ls, p)
    {
      if ls != [] {
        InsideLast(ls, |ls| - 1, |s|, p);
      }
    }
  }

  lemma {:induction false} OriginOfPlain(s: Bytes, i: nat)
    requires !ContainsCRLF(s) && i <= |s|
    ensures Origin(s, i) == i
  {
    if i > 0 {
      assert !StartsCRLF(s);
      forall k | 0 <= k < |s[1..]| - 1
        ensures !(s[1..][k] == CR && s[1..][k + 1] == LF)
      {
        assert s[1..][k] == s[k + 1] && s[1..][k + 1] == s[k + 2];
      }
      OriginOfPlain(s[1..], i - 1);
    }
  }

  /** Exactly then the edit replaces its matches and changes no other byte. */
  lemma OnlyMatchesChangeIff(s: Bytes, plan: seq<Span>)
    requires InOrder(plan, |NormalizeLF(s)|)
    ensures InOrder(Matches(s, plan, ContainsCRLF(s)), |s|)
    ensures Restore(SpliceAll(NormalizeLF(s), plan), ContainsCRLF(s)) == SpliceAll(s, Matches(s, plan, ContainsCRLF(s)))
            <==> KeepsOthers(s, plan)
  {
    MatchesInOrder(s, plan, ContainsCRLF(s));
    if ContainsCRLF(s) {
      var ls := Matches(s, plan, true);
      SpliceGrows(s, plan, ls);
      OutsideClear(s, ls);
    } else {
      NothingToNormalize(s);
      forall i | 0 <= i < |plan|
        ensures Match(s, plan[i], false) == plan[i]
      {
        OriginOfPlain(s, plan[i].start);
        OriginOfPlain(s, plan[i].end);
      }
      assert Matches(s, plan, false) == plan;
    }
  }

  // There is one plan at most.
  lemma PlanIsUnique(s: Bytes, edits: seq<Replacement>, p: seq<Span>, q: seq<Span>)
    requires IsPlan(s, edits, p) && IsPlan(s, edits, q)
    ensures p == q
  {
    OrderDoesNotMatter(s, edits, edits, p, q);
  }

  lemma SameBehind(front: Bytes, a: Bytes, b: Bytes)
    ensures front + a == front + b <==> a == b
  {
    assert (front + a)[|front|..] == a && (front + b)[|front|..] == b;
  }

  /** Edits a file, if its edits have a plan. The byte order mark stays; the result
      is the file with nothing but the matches replaced exactly when it has no CRLF
      or every bare line feed lies inside a match. */
  method EditText(file: Bytes, edits: seq<Replacement>) returns (r: Result<Bytes, EditError>)
    requires forall e | e in edits :: e.oldText != []
    ensures r.Success? <==> exists p :: IsPlan(NormalizeLF(SplitBOM(file).1), edits, p)
    ensures r.Failure? ==>
              if r.error.Overlap? then AllFound(NormalizeLF(SplitBOM(file).1), edits)
              else BlamesFirst(NormalizeLF(SplitBOM(file).1), edits, r.error)
    ensures r.Success? ==> forall p | IsPlan(NormalizeLF(SplitBOM(file).1), edits, p) ::
              Edited(file, NormalizeLF(SplitBOM(file).1), p, r.value)
  {
    var (bom, text) := SplitBOM(file);
    var crlf := ContainsCRLF(text);
    var normalized := NormalizeLF(text);
    var plan := PlanEdits(normalized, edits);
    if plan.Failure? {
      return Failure(plan.error);
    }
    var edited := ApplyPlannedEdits(normalized, plan.value);
    r := Success(bom + Restore(edited, crlf));
    RoundTripIff(text);
    RestoreSpliceAll(normalized, plan.value, crlf);
    OnlyMatchesChangeIff(text, plan.value);
    SameBehind(bom, Restore(edited, crlf), SpliceAll(text, Matches(text, plan.value, crlf)));
    forall p | IsPlan(normalized, edits, p)
      ensures Edited(file, normalized, p, r.value)
    {
      PlanIsUnique(normalized, edits, p, plan.value);
    }
  }

  // What a plan for the normalized text makes of the file.
  ghost predicate Edited(file: Bytes, n: Bytes, plan: seq<Span>, result: Bytes) {
    var text, crlf := SplitBOM(file).1, ContainsCRLF(SplitBOM(file).1);
    && InOrder(plan, |n|)
    && result == SplitBOM(file).0 + Restore(SpliceAll(n, plan), crlf)
    && InOrder(Matches(text, plan, crlf), |text|)
    && (result == SplitBOM(file).0 + SpliceAll(text, Matches(text, plan, crlf)) <==> KeepsOthers(text, plan))
    && (Uniform(text) ==>
          && InOrder(LocatedAll(n, plan, crlf), |text|)
          && result == SplitBOM(file).0 + SpliceAll(text, LocatedAll(n, plan, crlf)))
  }

  const MIXED: Bytes := [97, CR, LF, 98, LF, 99]
  const MIXED_LF: Bytes := [97, LF, 98, LF, 99]

  lemma MixedNormalizes()
    ensures NormalizeLF(MIXED) == MIXED_LF
    ensures ContainsCRLF(MIXED) && !Uniform(MIXED)
  {
    var s := MIXED;
    assert s[1..] == [CR, LF, 98, LF, 99] && s[3..] == [98, LF, 99] && s[4..] == [LF, 99] && s[5..] == [99];
    assert s[1..][2..] == s[3..] && s[3..][1..] == s[4..] && s[4..][1..] == s[5..] && s[5..][1..] == [];
    assert NormalizeLF(s[5..]) == [99];
    assert NormalizeLF(s[4..]) == [LF, 99];
    assert NormalizeLF(s[3..]) == [98, LF, 99];
    assert NormalizeLF(s[1..]) == [LF, 98, LF, 99];
    assert s[1] == CR && s[2] == LF;
    assert s[4] == LF && s[3] != CR;
  }

  // A text that occurs once, at position k.
  lemma FoundOnce(n: Bytes, e: Replacement, k: nat, t: Bytes)
    requires t != [] && NormalizeLF(e.oldText) == t && Occurs(n, t, k)
    requires forall i: nat | i != k :: !Occurs(n, t, i)
    ensures SpanOf(n, e) == Some(Span(k, k + |t|, NormalizeLF(e.newText)))
    ensures IsPlan(n, [e], [Span(k, k + |t|, NormalizeLF(e.newText))])
  {
    var first := IndexFrom(n, t, 0);
    assert first == k;
    assert IndexFrom(n, t, k + |t|) > |n|;
    assert CountFrom(n, t, k + |t|) == 0;
    SpansOfOne(n, e);
    assert SpansOf(n, [e]) == [Span(k, k + |t|, NormalizeLF(e.newText))];
  }

  lemma OneByteText(b: Byte)
    ensures NormalizeLF([b]) == [b]
  {
    assert [b][1..] == [];
  }

  /** A file with mixed line endings on which an edit changes another line as well. */
  lemma MixedEndingsChange(e: Replacement, x: Span)
    requires e == Replacement([97], [120]) && x == Span(0, 1, [120])
    ensures NormalizeLF(MIXED) == MIXED_LF && IsPlan(MIXED_LF, [e], [x])
    ensures !KeepsOthers(MIXED, [x])
  {
    MixedNormalizes();
    OneByteText(97);
    OneByteText(120);
    FoundOnce(MIXED_LF, e, 0, [97]);
    MixedOrigins();
    var m := Matches(MIXED, [x], true);
    assert BareAt(MIXED, 4) && m[0].end <= 4;
    assert !Inside(m, 4);
  }

  /** One on which an edit changes nothing but its match, though the file is mixed. */
  lemma MixedEndingsKept(e: Replacement, x: Span)
    requires e == Replacement([98, LF, 99], [120]) && x == Span(2, 5, [120])
    ensures NormalizeLF(MIXED) == MIXED_LF && !Uniform(MIXED) && IsPlan(MIXED_LF, [e], [x])
    ensures KeepsOthers(MIXED, [x])
  {
    MixedNormalizes();
    OneByteText(120);
    MixedMatch();
    FoundOnce(MIXED_LF, e, 2, [98, LF, 99]);
    MixedOrigins();
    var m := Matches(MIXED, [x], true);
    forall p: nat | BareAt(MIXED, p)
      ensures Inside(m, p)
    {
      assert p == 4;
      assert m[0].start <= 4 < m[0].end;
    }
  }

  lemma MixedMatch()
    ensures NormalizeLF([98, LF, 99]) == [98, LF, 99] && MIXED_LF[2..5] == [98, LF, 99]
  {
    var t: Bytes := [98, LF, 99];
    assert t[1..] == [LF, 99] && t[1..][1..] == [99];
    OneByteText(99);
    assert NormalizeLF(t[1..]) == [LF, 99];
  }

  lemma MixedOrigins()
    ensures Origin(MIXED, 1) == 1 && Origin(MIXED, 2) == 3 && Origin(MIXED, 5) == 6
  {
    var s := MIXED;
    assert s[1..] == [CR, LF, 98, LF, 99] && s[1..][2..] == [98, LF, 99];
    var t: Bytes := [98, LF, 99];
    assert t[1..] == [LF, 99] && t[1..][1..] == [99];
    var u: Bytes := [99];
    assert u[1..] == [];
    assert Origin(u, 1) == 1;
    assert Origin([LF, 99], 2) == 2;
    assert Origin(t, 3) == 3;
    assert Origin(s[1..], 1) == 2;
    assert Origin(s[1..], 4) == 5;
  }
}
