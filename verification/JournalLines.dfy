/** The bytes of a journal: one record a line, and how a reader finds the lines
    of a file that may end in the middle of a write.

    JSON is a codec that is assumed to be lawful. */
module JournalLines {
  import opened Messages
  import opened SessionTree
  import opened ByteText

  const MAX_RECORD_BYTES: nat := 8 * 1024 * 1024

  // One line of the file. A line that is valid JSON but fits no known shape is
  // Unreadable; a known shape with an unknown type is Unknown.
  datatype Record =
    | Header(version: nat, sessionId: string, createdAt: nat)
    | Upgrade(sequence: nat, version: nat)
    | Stored(sequence: nat, timestamp: nat, id: string, parentId: string, message: Message)
    | Head(sequence: nat, leafId: string)
    | RunStart(sequence: nat, timestamp: nat, attemptId: string, userMessageId: string)
    | RunEnd(sequence: nat, attemptId: string, runId: string, error: string)
    | RunResolved(sequence: nat, attemptId: string, note: string)
    | Unknown(sequence: nat)
    | Unreadable

  // JSON and white space, as far as the journal relies on them.
  datatype Format = Format(encode: Record -> Option<Bytes>, decode: Bytes -> Record,
                           valid: Bytes -> bool, trim: Bytes -> Bytes)

  // What an encoded record looks like: one line, valid as a whole, invalid when
  // cut short, with no white space to trim.
  ghost predicate Encodes(f: Format, r: Record, e: Bytes) {
    && f.encode(r) == Some(e)
    && e != []
    && NEWLINE !in e
    && f.valid(e) && f.trim(e) == e
    && f.decode(e) == r
    && (forall k {:trigger f.trim(e[..k])} | 0 < k < |e| :: f.trim(e[..k]) != [] && !f.valid(f.trim(e[..k])))
  }

  ghost predicate Lawful(f: Format) {
    && (forall r {:trigger f.encode(r)} | f.encode(r).Some? :: Encodes(f, r, f.encode(r).value))
    && (forall s {:trigger f.trim(s)} :: |f.trim(s)| <= |s|)
  }

  datatype OpenError = TooLarge | Malformed | MissingHeader | InvalidHeader | UnsupportedVersion | InvalidRecord | BadTree
                      | RepairFailed

  // The lines found, how many bytes of the file stay, and whether the last line
  // is terminated.
  datatype Lines = Lines(lines: seq<Bytes>, validBytes: nat, terminated: bool)

  // The last, unterminated piece of a file. Blank pieces and whole records stay;
  // a record cut short is dropped.
  function SplitTail(f: Format, data: Bytes): Result<Lines, OpenError> {
    var final := f.trim(data);
    if |final| > MAX_RECORD_BYTES then
      Failure(TooLarge)
    else if final == [] then
      Success(Lines([], |data|, false))
    else if !f.valid(final) then
      Success(Lines([], 0, false))
    else
      Success(Lines([final], |data|, false))
  }

  // What was read so far, followed by the rest.
  function Join(lines: seq<Bytes>, length: nat, rest: Result<Lines, OpenError>): Result<Lines, OpenError> {
    match rest
    case Success(s) => Success(Lines(lines + s.lines, length + s.validBytes, s.terminated))
    case Failure(e) => Failure(e)
  }

  // The first complete line, followed by the rest.
  function JoinLine(f: Format, line: Bytes, rest: Result<Lines, OpenError>): Result<Lines, OpenError> {
    var trimmed := f.trim(line);
    if |trimmed| > MAX_RECORD_BYTES then
      Failure(TooLarge)
    else if trimmed == [] || !f.valid(trimmed) then
      Failure(Malformed)
    else
      Join([trimmed], |line| + 1, rest)
  }

  /** The lines of a file, read from the front. */
  function Split(f: Format, data: Bytes): Result<Lines, OpenError>
    decreases |data|
  {
    if data == [] then
      Success(Lines([], 0, true))
    else
      var n := LineEnd(data);
      if n == |data| then SplitTail(f, data) else JoinLine(f, data[..n], Split(f, data[n + 1..]))
  }

  lemma JoinNothing(rest: Result<Lines, OpenError>)
    ensures Join([], 0, rest) == rest
  {
    if rest.Success? {
      assert [] + rest.value.lines == rest.value.lines;
    }
  }

  lemma JoinJoin(a: seq<Bytes>, m: nat, b: seq<Bytes>, n: nat, rest: Result<Lines, OpenError>)
    ensures Join(a, m, Join(b, n, rest)) == Join(a + b, m + n, rest)
  {
    if rest.Success? {
      assert a + (b + rest.value.lines) == (a + b) + rest.value.lines;
    }
  }

  lemma JoinsInto(a: seq<Bytes>, m: nat, b: seq<Bytes>, n: nat, c: seq<Bytes>, k: nat, rest: Result<Lines, OpenError>)
    requires c == a + b && k == m + n
    ensures Join(a, m, Join(b, n, rest)) == Join(c, k, rest)
  {
    JoinJoin(a, m, b, n, rest);
  }

  /** A file of one line: a record of more than 8388608 bytes is too large, a blank or
      invalid line is malformed, and a line without its newline is taken if it is a
      record, kept if it is blank and dropped if it is anything else. */
  lemma OneLineFile(f: Format, line: Bytes)
    requires OneLine(line) && line != []
    ensures var t := f.trim(line);
            && Split(f, line + [NEWLINE]) ==
               (if |t| > 8388608 then Failure(TooLarge)
                else if t == [] || !f.valid(t) then Failure(Malformed)
                else Success(Lines([t], |line| + 1, true)))
            && Split(f, line) ==
               (if |t| > 8388608 then Failure(TooLarge)
                else if t == [] then Success(Lines([], |line|, false))
                else if f.valid(t) then Success(Lines([t], |line|, false))
                else Success(Lines([], 0, false)))
  {
    var file := line + [NEWLINE];
    assert file == line + [NEWLINE] + [];
    SplitLine(f, file, line, []);
    assert [f.trim(line)] + [] == [f.trim(line)];
  }

  // What was read up to `start`, and what is left.
  ghost predicate ReadUpTo(f: Format, data: Bytes, lines: seq<Bytes>, start: nat) {
    var read := start <= |data| && Split(f, data) == Join(lines, start, Split(f, data[start..]));
    read
  }

  // A further line, behind what was read.
  lemma JoinJoinLine(f: Format, lines: seq<Bytes>, start: nat, raw: Bytes, line: Bytes, rest: Result<Lines, OpenError>)
    requires line == f.trim(raw)
    ensures |line| > MAX_RECORD_BYTES ==> Join(lines, start, JoinLine(f, raw, rest)) == Failure(TooLarge)
    ensures |line| <= MAX_RECORD_BYTES && (line == [] || !f.valid(line)) ==>
              Join(lines, start, JoinLine(f, raw, rest)) == Failure(Malformed)
    ensures |line| <= MAX_RECORD_BYTES && line != [] && f.valid(line) ==>
              Join(lines, start, JoinLine(f, raw, rest)) == Join(lines + [line], start + |raw| + 1, rest)
  {
    JoinJoin(lines, start, [line], |raw| + 1, rest);
  }

  lemma SplitFirst(f: Format, data: Bytes, start: nat, end: nat, raw: Bytes)
    requires start <= |data| && end == LineEnd(data[start..]) < |data| - start && raw == data[start..start + end]
    ensures Split(f, data[start..]) == JoinLine(f, raw, Split(f, data[start + end + 1..]))
  {
    assert data[start..][..end] == raw;
    assert data[start..][end + 1..] == data[start + end + 1..];
  }

  lemma ReadNext(f: Format, data: Bytes, lines: seq<Bytes>, start: nat, end: nat, raw: Bytes, line: Bytes)
    requires ReadUpTo(f, data, lines, start) && start <= |data| && end == LineEnd(data[start..]) < |data| - start
    requires raw == data[start..start + end] && line == f.trim(raw)
    ensures |line| > MAX_RECORD_BYTES ==> Split(f, data) == Failure(TooLarge)
    ensures |line| <= MAX_RECORD_BYTES && (line == [] || !f.valid(line)) ==> Split(f, data) == Failure(Malformed)
    ensures |line| <= MAX_RECORD_BYTES && line != [] && f.valid(line) ==> ReadUpTo(f, data, lines + [line], start + end + 1)
  {
    SplitFirst(f, data, start, end, raw);
    JoinJoinLine(f, lines, start, raw, line, Split(f, data[start + end + 1..]));
  }

  /** The reader: a loop that cuts the file at every newline. */
  method SplitValidLines(f: Format, data: Bytes) returns (r: Result<Lines, OpenError>)
    ensures r == Split(f, data)
  {
    var lines: seq<Bytes> := [];
    var start := 0;
    var end := LineEnd(data);
    assert data[0..] == data;
    JoinNothing(Split(f, data));
    while start + end < |data|
      invariant ReadUpTo(f, data, lines, start)
      invariant start <= |data| && end == LineEnd(data[start..])
      decreases |data| - start
    {
      var raw := data[start..start + end];
      var line := f.trim(raw);
      ReadNext(f, data, lines, start, end, raw, line);
      if |line| > MAX_RECORD_BYTES {
        return Failure(TooLarge);
      }
      if line == [] || !f.valid(line) {
        return Failure(Malformed);
      }
      lines := lines + [line];
      start := start + end + 1;
      end := LineEnd(data[start..]);
    }
    r := FinishLines(f, data, lines, start);
  }

  // What is done with the piece after the last newline.
  method FinishLines(f: Format, data: Bytes, lines: seq<Bytes>, start: nat) returns (r: Result<Lines, OpenError>)
    requires start <= |data| && LineEnd(data[start..]) == |data| - start
    ensures r == Join(lines, start, Split(f, data[start..]))
  {
    assert lines + [] == lines;
    if start == |data| {
      return Success(Lines(lines, start, true));
    }
    var final := f.trim(data[start..]);
    if |final| > MAX_RECORD_BYTES {
      return Failure(TooLarge);
    }
    if final == [] {
      return Success(Lines(lines, |data|, false));
    }
    if !f.valid(final) {
      return Success(Lines(lines, start, false));
    }
    r := Success(Lines(lines + [final], |data|, false));
  }

  // A file of nothing but complete, good lines.
  ghost predicate Complete(f: Format, data: Bytes, lines: seq<Bytes>) {
    Split(f, data) == Success(Lines(lines, |data|, true))
  }

  lemma SplitLine(f: Format, data: Bytes, line: Bytes, rest: Bytes)
    requires OneLine(line) && data == line + [NEWLINE] + rest
    ensures Split(f, data) == JoinLine(f, line, Split(f, rest))
  {
    LineEndUnique(line, rest);
    assert data[..|line|] == line && data[|line| + 1..] == rest;
  }

  // The first of some complete lines.
  lemma FirstLine(f: Format, data: Bytes, lines: seq<Bytes>) returns (line: Bytes, rest: Bytes)
    requires Complete(f, data, lines) && data != []
    ensures data == line + [NEWLINE] + rest && OneLine(line)
    ensures lines != [] && lines[0] == f.trim(line) && Complete(f, rest, lines[1..])
    ensures |f.trim(line)| <= MAX_RECORD_BYTES && f.trim(line) != [] && f.valid(f.trim(line))
  {
    var n := LineEnd(data);
    line, rest := data[..n], data[n + 1..];
    LineEndIsFirst(data);
  }

  lemma FirstLineJoins(f: Format, line: Bytes, lines: seq<Bytes>, n: nat, total: nat, m: Result<Lines, OpenError>)
    requires total == |line| + 1 + n
    requires lines != [] && lines[0] == f.trim(line)
    requires |f.trim(line)| <= MAX_RECORD_BYTES && f.trim(line) != [] && f.valid(f.trim(line))
    ensures JoinLine(f, line, Join(lines[1..], n, m)) == Join(lines, total, m)
  {
    JoinsInto([f.trim(line)], |line| + 1, lines[1..], n, lines, total, m);
  }

  /** Reading complete lines followed by anything is reading both in turn. */
  lemma {:induction false} SplitAppend(f: Format, data: Bytes, lines: seq<Bytes>, more: Bytes)
    requires Complete(f, data, lines)
    ensures Split(f, data + more) == Join(lines, |data|, Split(f, more))
    decreases |data|
  {
    if data == [] {
      SplitAfterNothing(f, lines, more);
    } else {
      var line, rest := FirstLine(f, data, lines);
      SplitAppend(f, rest, lines[1..], more);
      FirstLineJoins(f, line, lines, |rest|, |data|, Split(f, more));
      SplitLine(f, data + more, line, rest + more);
    }
  }

  lemma SplitAfterNothing(f: Format, lines: seq<Bytes>, more: Bytes)
    requires Complete(f, [], lines)
    ensures Split(f, [] + more) == Join(lines, 0, Split(f, more))
  {
    assert [] + more == more;
    JoinNothing(Split(f, more));
  }

  // One encoded record with its newline.
  function Line(e: Bytes): Bytes {
    e + [NEWLINE]
  }

  ghost predicate Writable(f: Format, r: Record) {
    f.encode(r).Some? && |f.encode(r).value| <= MAX_RECORD_BYTES
  }

  lemma SplitOneLine(f: Format, r: Record)
    requires Lawful(f) && Writable(f, r)
    ensures Complete(f, Line(f.encode(r).value), [f.encode(r).value])
  {
    var e := f.encode(r).value;
    assert Encodes(f, r, e);
    OneLineIff(e);
    SplitLine(f, Line(e), e, []);
    assert [e] + [] == [e];
  }

  /** Appending a written record to complete lines adds that record. */
  lemma AppendRecord(f: Format, data: Bytes, lines: seq<Bytes>, r: Record)
    requires Lawful(f) && Writable(f, r) && Complete(f, data, lines)
    ensures Complete(f, data + Line(f.encode(r).value), lines + [f.encode(r).value])
  {
    SplitOneLine(f, r);
    SplitAppend(f, data, lines, Line(f.encode(r).value));
  }

  /** A write cut short leaves the lines before it readable, and is dropped
      unless all of its JSON is there. */
  lemma AppendPiece(f: Format, data: Bytes, lines: seq<Bytes>, r: Record, k: nat)
    requires Lawful(f) && Writable(f, r) && Complete(f, data, lines)
    requires 0 < k <= |f.encode(r).value|
    ensures var e := f.encode(r).value;
            Split(f, data + e[..k]) ==
            Success(if k < |e| then Lines(lines, |data|, false) else Lines(lines + [e], |data| + k, false))
  {
    var e := f.encode(r).value;
    var piece := e[..k];
    SplitAppend(f, data, lines, piece);
    assert Encodes(f, r, e);
    OneLineIff(e);
    OneLinePrefix(e, k);
    if k < |e| {
      assert f.trim(e[..k]) != [];
      assert lines + [] == lines;
    } else {
      assert piece == e;
    }
  }
}
