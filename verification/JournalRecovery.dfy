/** Opening a journal after a crash at any byte. */
module JournalRecovery {
  import opened Messages
  import opened SessionTree
  import opened ByteText
  import opened JournalLines
  import opened JournalReplay

  // The first k records are exactly those whose JSON lies within n bytes.
  ghost predicate Survive(f: Format, rs: seq<Record>, n: nat, k: nat) {
    && k <= |rs|
    && (0 < k ==> |Log(f, rs[..k])| <= n + 1)
    && (k < |rs| ==> n + 1 < |Log(f, rs[..k + 1])|)
  }

  // What Open leaves in the file.
  function Repaired(f: Format, data: Bytes): Bytes {
    match Split(f, data)
    case Failure(_) => data
    case Success(s) =>
      if s.validBytes < |data| then
        data[..s.validBytes]
      else if data != [] && s.validBytes == |data| && !s.terminated then
        Line(data)
      else
        data
  }

  // Every prefix of the log restores: identifiers were fresh, parents and heads
  // known, at the time they were written.
  ghost predicate Sound(rs: seq<Record>) {
    var sound := forall k {:trigger rs[..k]} | 0 < k <= |rs| :: Restore(rs[..k]).Success?;
    sound
  }

  // A parse result that needs no repair.
  ghost function Settled(rs: seq<Record>, size: nat): Result<Parsed, OpenError>
    requires Restore(rs).Success?
  {
    var s := Restore(rs).value;
    Success(Parsed(s, ActiveMessages(s), size, false))
  }

  lemma {:induction false} LogPrefix(f: Format, rs: seq<Record>, k: nat)
    requires k <= |rs|
    ensures Log(f, rs[..k]) <= Log(f, rs)
    decreases |rs|
  {
    if k < |rs| {
      var init := rs[..|rs| - 1];
      LogPrefix(f, init, k);
      assert init[..k] == rs[..k];
    } else {
      assert rs[..k] == rs;
    }
  }

  lemma LogNext(f: Format, rs: seq<Record>, k: nat)
    requires k < |rs|
    ensures Log(f, rs[..k + 1]) == Log(f, rs[..k]) + Line(Encoded(f, rs[k]))
  {
    assert rs[..k + 1] == rs[..k] + [rs[k]];
    LogAppend(f, rs[..k], rs[k]);
  }

  lemma LogMonotone(f: Format, rs: seq<Record>, j: nat, k: nat)
    requires j <= k <= |rs|
    ensures |Log(f, rs[..j])| <= |Log(f, rs[..k])|
  {
    LogPrefix(f, rs[..k], j);
    assert rs[..k][..j] == rs[..j];
  }

  lemma SurvivorsAreUnique(f: Format, rs: seq<Record>, n: nat, j: nat, k: nat)
    requires Survive(f, rs, n, j) && Survive(f, rs, n, k)
    ensures j == k
  {
    if j < k {
      LogMonotone(f, rs, j + 1, k);
    } else if k < j {
      LogMonotone(f, rs, k + 1, j);
    }
  }

  // Any cut leaves some number of records.
  lemma {:induction false} SurvivorsExist(f: Format, rs: seq<Record>, n: nat) returns (k: nat)
    ensures Survive(f, rs, n, k)
    decreases |rs|
  {
    if rs == [] {
      k := 0;
    } else {
      var last := |rs| - 1;
      var init := rs[..last];
      assert rs[..last + 1] == rs;
      if |Log(f, rs)| <= n + 1 {
        k := last + 1;
      } else {
        k := SurvivorsExist(f, init, n);
        assert init[..k] == rs[..k];
        assert k < last ==> init[..k + 1] == rs[..k + 1];
      }
    }
  }

  // A cut behind the first m records leaves at least these.
  lemma WholeSurvive(f: Format, rs: seq<Record>, n: nat, k: nat, m: nat)
    requires Survive(f, rs, n, k) && m <= |rs| && |Log(f, rs[..m])| <= n
    ensures m <= k
  {
    if k < m {
      LogMonotone(f, rs, k + 1, m);
    }
  }

  /** Any prefix of a log is some whole records and a piece of the next. */
  lemma {:induction false} CutLog(f: Format, rs: seq<Record>, n: nat) returns (k: nat, j: nat)
    requires n <= |Log(f, rs)|
    ensures k <= |rs| && n == |Log(f, rs[..k])| + j
    ensures 0 < j ==> k < |rs| && j <= |Encoded(f, rs[k])|
    ensures Log(f, rs)[..n] == Log(f, rs[..k]) + (if 0 < j then Encoded(f, rs[k])[..j] else [])
    decreases |rs|
  {
    var size := |Log(f, rs)|;
    if n == size {
      k, j := |rs|, 0;
      assert rs[..k] == rs;
      assert Log(f, rs)[..n] == Log(f, rs) + [];
    } else {
      var last := |rs| - 1;
      var init := rs[..last];
      if n < |Log(f, init)| {
        k, j := CutLog(f, init, n);
        assert init[..k] == rs[..k];
        assert Log(f, rs)[..n] == Log(f, init)[..n];
      } else {
        k, j := last, n - |Log(f, init)|;
        assert Log(f, rs)[..n] == Log(f, init) + Line(Encoded(f, rs[last]))[..j];
      }
    }
  }

  lemma ParseIs(f: Format, rs: seq<Record>, data: Bytes, validBytes: nat, terminated: bool)
    requires Lawful(f) && AllWritable(f, rs) && Restore(rs).Success?
    requires Split(f, data) == Success(Lines(Encodings(f, rs), validBytes, terminated))
    ensures Parse(f, data) ==
            Success(Parsed(Restore(rs).value, ActiveMessages(Restore(rs).value), validBytes,
                           data != [] && validBytes == |data| && !terminated))
  {
    DecodeEncodings(f, rs);
  }

  /** Opening an intact log gives its state and asks for no repair. */
  lemma ParseLog(f: Format, rs: seq<Record>)
    requires Lawful(f) && AllWritable(f, rs) && Restore(rs).Success?
    ensures Parse(f, Log(f, rs)) == Settled(rs, |Log(f, rs)|)
    ensures Repaired(f, Log(f, rs)) == Log(f, rs)
  {
    LogComplete(f, rs);
    ParseIs(f, rs, Log(f, rs), |Log(f, rs)|, true);
  }

  // Opening `data` gives the state of the records rs and leaves exactly their log.
  ghost predicate Recovers(f: Format, rs: seq<Record>, data: Bytes) {
    var recovers :=
      && Restore(rs).Success?
      && Parse(f, data).Success?
      && Parse(f, data).value.state == Restore(rs).value
      && Repaired(f, data) == Log(f, rs)
      && Parse(f, Repaired(f, data)) == Settled(rs, |Log(f, rs)|);
    recovers
  }

  lemma RecoverWhole(f: Format, rs: seq<Record>)
    requires Lawful(f) && AllWritable(f, rs) && Restore(rs).Success?
    ensures Recovers(f, rs, Log(f, rs))
  {
    ParseLog(f, rs);
  }

  // A piece of the JSON of record r is left.
  lemma RecoverPiece(f: Format, rs: seq<Record>, r: Record, j: nat, data: Bytes)
    requires Lawful(f) && AllWritable(f, rs) && Restore(rs).Success? && Writable(f, r)
    requires 0 < j < |Encoded(f, r)| && data == Log(f, rs) + Encoded(f, r)[..j]
    ensures Recovers(f, rs, data)
  {
    var log := Log(f, rs);
    LogComplete(f, rs);
    AppendPiece(f, log, Encodings(f, rs), r, j);
    ParseIs(f, rs, data, |log|, false);
    assert data[..|log|] == log;
    ParseLog(f, rs);
  }

  lemma SplitUnterminated(f: Format, rs: seq<Record>, r: Record, all: seq<Record>, data: Bytes)
    requires Lawful(f) && AllWritable(f, rs) && Writable(f, r)
    requires all == rs + [r] && data == Log(f, rs) + Encoded(f, r)
    ensures Split(f, data) == Success(Lines(Encodings(f, all), |data|, false))
    ensures data != [] && Line(data) == Log(f, all)
  {
    var log, e := Log(f, rs), Encoded(f, r);
    LogComplete(f, rs);
    SplitWholePiece(f, log, Encodings(f, rs), r, e, data);
    EncodingsAppend(f, rs, r);
    LineOfLast(f, rs, r, all, data);
  }

  lemma SplitWholePiece(f: Format, log: Bytes, lines: seq<Bytes>, r: Record, e: Bytes, data: Bytes)
    requires Lawful(f) && Writable(f, r) && Complete(f, log, lines)
    requires e == Encoded(f, r) && data == log + e
    ensures e != [] && Split(f, data) == Success(Lines(lines + [e], |data|, false))
  {
    assert Encodes(f, r, e);
    assert e[..|e|] == e;
    AppendPiece(f, log, lines, r, |e|);
  }

  lemma LineOfLast(f: Format, rs: seq<Record>, r: Record, all: seq<Record>, data: Bytes)
    requires all == rs + [r] && data == Log(f, rs) + Encoded(f, r)
    ensures Line(data) == Log(f, all)
  {
    LogAppend(f, rs, r);
  }

  // Only the newline of the last record is missing.
  lemma RecoverUnterminated(f: Format, rs: seq<Record>, r: Record, all: seq<Record>, data: Bytes)
    requires Lawful(f) && AllWritable(f, all) && Restore(all).Success? && all == rs + [r]
    requires data == Log(f, rs) + Encoded(f, r)
    ensures Recovers(f, all, data)
  {
    assert all[..|rs|] == rs && all[|rs|] == r;
    WritablePrefix(f, all, |rs|);
    SplitUnterminated(f, rs, r, all, data);
    ParseIs(f, all, data, |data|, false);
    ParseLog(f, all);
  }

  // Which records survive a cut in record `whole`, j bytes into its line.
  lemma SurvivorsOfCut(f: Format, rs: seq<Record>, n: nat, k: nat, whole: nat, j: nat)
    requires Lawful(f) && AllWritable(f, rs) && Survive(f, rs, n, k)
    requires whole <= |rs| && n == |Log(f, rs[..whole])| + j
    requires 0 < j ==> whole < |rs| && j <= |Encoded(f, rs[whole])|
    ensures k == if 0 < j && j == |Encoded(f, rs[whole])| then whole + 1 else whole
  {
    if whole < |rs| {
      LogNext(f, rs, whole);
      assert Encodes(f, rs[whole], Encoded(f, rs[whole]));
    }
    if 0 < j && j == |Encoded(f, rs[whole])| {
      if whole + 1 < |rs| {
        LogNext(f, rs, whole + 1);
      }
      SurvivorsAreUnique(f, rs, n, k, whole + 1);
    } else {
      SurvivorsAreUnique(f, rs, n, k, whole);
    }
  }

  lemma HeaderSurvives(f: Format, rs: seq<Record>, n: nat, k: nat)
    requires rs != [] && |Encoded(f, rs[0])| <= n && Survive(f, rs, n, k)
    ensures 0 < k
  {
    LogNext(f, rs, 0);
  }

  lemma RecoverCut(f: Format, rs: seq<Record>, whole: nat, j: nat, k: nat, data: Bytes)
    requires Lawful(f) && AllWritable(f, rs) && Sound(rs) && 0 < k <= |rs| && whole <= |rs|
    requires 0 < j ==> whole < |rs| && j <= |Encoded(f, rs[whole])|
    requires k == if 0 < j && j == |Encoded(f, rs[whole])| then whole + 1 else whole
    requires data == Log(f, rs[..whole]) + (if 0 < j then Encoded(f, rs[whole])[..j] else [])
    ensures Recovers(f, rs[..k], data)
  {
    var kept := rs[..k];
    WritablePrefix(f, rs, k);
    if j == 0 {
      assert data == Log(f, kept);
      RecoverWhole(f, kept);
    } else if j < |Encoded(f, rs[whole])| {
      RecoverPiece(f, kept, rs[k], j, data);
    } else {
      assert Encoded(f, rs[whole])[..j] == Encoded(f, rs[whole]);
      RecoverUnterminated(f, rs[..whole], rs[whole], kept, data);
    }
  }

  /** A crash at any byte at or after the end of the header's JSON loses exactly
      the records whose JSON is not wholly on disk. Opening repairs the file, and
      opening again gives the same state. */
  lemma CrashRecovery(f: Format, rs: seq<Record>, n: nat, k: nat)
    requires Lawful(f) && AllWritable(f, rs) && Sound(rs)
    requires rs != [] && |Encoded(f, rs[0])| <= n <= |Log(f, rs)|
    requires Survive(f, rs, n, k)
    ensures 0 < k && Recovers(f, rs[..k], Log(f, rs)[..n])
  {
    HeaderSurvives(f, rs, n, k);
    var whole, j := CutLog(f, rs, n);
    SurvivorsOfCut(f, rs, n, k, whole, j);
    RecoverCut(f, rs, whole, j, k, Log(f, rs)[..n]);
  }

  // ---------------------------------------------------------------------------
  // Repair of a file of any origin.

  // What follows the last newline.
  function LastPiece(data: Bytes): Bytes {
    var n := LineEnd(data);
    if n == |data| then data else LastPiece(data[n + 1..])
  }

  predicate BlankTail(f: Format, data: Bytes) {
    LastPiece(data) != [] && f.trim(LastPiece(data)) == []
  }

  lemma JoinSucceeds(f: Format, line: Bytes, rest: Result<Lines, OpenError>)
    requires JoinLine(f, line, rest).Success?
    ensures rest.Success? && |f.trim(line)| <= MAX_RECORD_BYTES && f.trim(line) != [] && f.valid(f.trim(line))
  {
  }

  lemma CompleteLine(f: Format, data: Bytes, line: Bytes, rest: Bytes, lines: seq<Bytes>)
    requires OneLine(line) && data == line + [NEWLINE] + rest && Complete(f, rest, lines)
    requires |f.trim(line)| <= MAX_RECORD_BYTES && f.trim(line) != [] && f.valid(f.trim(line))
    ensures Complete(f, data, [f.trim(line)] + lines)
  {
    SplitLine(f, data, line, rest);
  }

  lemma Reassociate(a: Bytes, b: Bytes, c: Bytes, data: Bytes, rest: Bytes)
    requires data == a + [NEWLINE] + rest && rest == b + c
    ensures data == a + [NEWLINE] + b + c
  {
  }

  lemma CutAtLine(data: Bytes, n: nat)
    requires n == LineEnd(data) < |data|
    ensures OneLine(data[..n]) && data == data[..n] + [NEWLINE] + data[n + 1..]
  {
    LineEndIsFirst(data);
    AroundByte(data, n);
  }

  lemma AroundByte(data: Bytes, n: nat)
    requires n < |data|
    ensures data == data[..n] + [data[n]] + data[n + 1..]
  {
  }

  /** A readable file is complete lines and one last piece. */
  lemma {:induction false} SplitAtLastPiece(f: Format, data: Bytes) returns (full: Bytes, lines: seq<Bytes>)
    requires Split(f, data).Success?
    ensures data == full + LastPiece(data) && OneLine(LastPiece(data))
    ensures Complete(f, full, lines)
    decreases |data|
  {
    var n := LineEnd(data);
    if n == |data| {
      full, lines := [], [];
    } else {
      CutAtLine(data, n);
      var line, rest := data[..n], data[n + 1..];
      JoinSucceeds(f, line, Split(f, rest));
      var tail, more := SplitAtLastPiece(f, rest);
      full, lines := line + [NEWLINE] + tail, [f.trim(line)] + more;
      CompleteLine(f, full, line, tail, more);
      Reassociate(line, tail, LastPiece(rest), data, rest);
    }
  }

  // What reading and repairing do to each kind of last piece.
  lemma TailCases(f: Format, data: Bytes, full: Bytes, lines: seq<Bytes>, piece: Bytes)
    requires Complete(f, full, lines) && OneLine(piece) && piece != [] && data == full + piece
    ensures Split(f, data) == Join(lines, |full|, SplitTail(f, piece))
    ensures Split(f, Line(data)) == Join(lines, |full|, JoinLine(f, piece, Success(Lines([], 0, true))))
  {
    SplitAppend(f, full, lines, piece);
    SplitAppend(f, full, lines, Line(piece));
    SplitLine(f, Line(piece), piece, []);
    assert Line(data) == full + Line(piece);
  }

  // A whole record without its newline is kept and terminated.
  lemma TailOfRecord(f: Format, data: Bytes, full: Bytes, lines: seq<Bytes>, piece: Bytes)
    requires Complete(f, full, lines) && OneLine(piece) && piece != [] && data == full + piece
    requires Split(f, data).Success? && f.trim(piece) != [] && f.valid(f.trim(piece))
    ensures Split(f, data) == Success(Lines(lines + [f.trim(piece)], |data|, false))
    ensures Repaired(f, data) == Line(data)
    ensures Complete(f, Line(data), lines + [f.trim(piece)])
  {
    TailCases(f, data, full, lines, piece);
    RecordPiece(f, piece, Split(f, data), lines, |full|);
    JoinLast(lines, f.trim(piece), |full|, |piece|, false);
    JoinLast(lines, f.trim(piece), |full|, |piece| + 1, true);
    RepairedUnterminated(f, data, lines + [f.trim(piece)]);
  }

  // Reading a whole record without, and with, its newline.
  lemma RecordPiece(f: Format, piece: Bytes, r: Result<Lines, OpenError>, lines: seq<Bytes>, n: nat)
    requires f.trim(piece) != [] && f.valid(f.trim(piece))
    requires r == Join(lines, n, SplitTail(f, piece)) && r.Success?
    ensures SplitTail(f, piece) == Success(Lines([f.trim(piece)], |piece|, false))
    ensures JoinLine(f, piece, Success(Lines([], 0, true))) == Success(Lines([f.trim(piece)], |piece| + 1, true))
  {
    assert [f.trim(piece)] + [] == [f.trim(piece)];
  }

  lemma RepairedUnterminated(f: Format, data: Bytes, lines: seq<Bytes>)
    requires data != [] && Split(f, data) == Success(Lines(lines, |data|, false))
    ensures Repaired(f, data) == Line(data)
  {
  }

  // A line with nothing behind it.
  lemma JoinLast(lines: seq<Bytes>, line: Bytes, n: nat, k: nat, terminated: bool)
    ensures Join(lines, n, Success(Lines([line], k, terminated))) == Success(Lines(lines + [line], n + k, terminated))
  {
  }

  // A cut record is dropped.
  lemma TailOfCut(f: Format, data: Bytes, full: Bytes, lines: seq<Bytes>, piece: Bytes)
    requires Complete(f, full, lines) && OneLine(piece) && piece != [] && data == full + piece
    requires Split(f, data).Success? && f.trim(piece) != [] && !f.valid(f.trim(piece))
    ensures Split(f, data) == Success(Lines(lines, |full|, false))
    ensures Repaired(f, data) == full
  {
    TailCases(f, data, full, lines, piece);
    assert lines + [] == lines;
    assert data[..|full|] == full;
  }

  // A blank piece becomes a blank line.
  lemma TailOfBlanks(f: Format, data: Bytes, full: Bytes, lines: seq<Bytes>, piece: Bytes)
    requires Complete(f, full, lines) && OneLine(piece) && piece != [] && data == full + piece
    requires f.trim(piece) == []
    ensures Split(f, data) == Success(Lines(lines, |data|, false))
    ensures Repaired(f, data) == Line(data)
    ensures Split(f, Line(data)) == Failure(Malformed)
  {
    TailCases(f, data, full, lines, piece);
    assert lines + [] == lines;
  }

  // The same parse, with nothing left to repair.
  ghost function Again(f: Format, data: Bytes): Result<Parsed, OpenError>
    requires Parse(f, data).Success?
  {
    Success(Parse(f, data).value.(validBytes := |Repaired(f, data)|, needsNewline := false))
  }

  /** Repairing a readable file settles it, unless the file ends in a blank,
      unterminated piece: that piece becomes a blank line, which the next Open
      rejects. */
  lemma RepairSettlesIff(f: Format, data: Bytes)
    requires Parse(f, data).Success?
    ensures Parse(f, Repaired(f, data)) == Again(f, data) <==> !BlankTail(f, data)
    ensures BlankTail(f, data) ==> Parse(f, Repaired(f, data)) == Failure(Malformed)
  {
    var full, lines := SplitAtLastPiece(f, data);
    var piece := LastPiece(data);
    if piece == [] {
      assert full + [] == full;
    } else if f.trim(piece) == [] {
      TailOfBlanks(f, data, full, lines, piece);
    } else if f.valid(f.trim(piece)) {
      TailOfRecord(f, data, full, lines, piece);
    } else {
      TailOfCut(f, data, full, lines, piece);
    }
  }

  // A codec with one record and white space of one byte.
  const BLANK: Byte := 32
  const WORD: Byte := 1

  function Bare(s: Bytes): Bytes {
    if s == [BLANK] then [] else s
  }

  function HeaderOnly(header: Record): Format {
    Format(r => if r == header then Some([WORD]) else None, s => if s == [WORD] then header else Unreadable,
           s => s == [WORD], s => Bare(s))
  }

  lemma HeaderOnlyIsLawful(header: Record)
    ensures Lawful(HeaderOnly(header))
  {
    var f := HeaderOnly(header);
    forall r {:trigger f.encode(r)} | f.encode(r).Some?
      ensures Encodes(f, r, f.encode(r).value)
    {
    }
  }

  /** A readable file that repair does not settle: a header and one blank behind
      it. */
  lemma BlankTailHappens(header: Record) returns (f: Format, data: Bytes)
    requires ReadHeader(header).Success?
    ensures Lawful(f) && data == [WORD, NEWLINE, BLANK] && BlankTail(f, data)
    ensures Parse(f, data).Success? && Parse(f, Repaired(f, data)) == Failure(Malformed)
  {
    f, data := HeaderOnly(header), [WORD, NEWLINE, BLANK];
    HeaderOnlyIsLawful(header);
    var rest := [BLANK];
    assert data[1 + 1..] == rest && data[..1] == [WORD];
    assert LineEnd(rest) == 1;
    assert LineEnd(data) == 1;
    assert Split(f, rest) == Success(Lines([], 1, false));
    var line: Bytes := [WORD];
    assert f.trim(line) == line && f.valid(line);
    var none: seq<Bytes> := [];
    assert [line] + none == [line];
    assert JoinLine(f, line, Split(f, rest)) == Success(Lines([line], 3, false));
    assert Split(f, data) == Success(Lines([line], 3, false));
    assert Decoded(f, [line]) == [header];
    assert Restore([header]).Success?;
    assert LastPiece(rest) == rest && LastPiece(data) == rest;
    RepairSettlesIff(f, data);
  }
}
