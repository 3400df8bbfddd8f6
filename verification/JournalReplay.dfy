/** What a journal means: replaying its records and restoring the tree. */
module JournalReplay {
  import opened Messages
  import opened SessionTree
  import opened ByteText
  import opened JournalLines

  const LEGACY_VERSION: nat := 1
  const VERSION: nat := 2

  datatype PendingRun = PendingRun(attemptId: string, userMessageId: string, startedAt: nat)

  predicate ValidPending(p: PendingRun) {
    p.attemptId != "" && p.userMessageId != "" && p.startedAt != 0
  }

  datatype State = State(sessionId: string, createdAt: nat, version: nat, entries: seq<Entry>, leafId: string,
                         pending: Option<PendingRun>, lastSequence: nat)

  function ReadHeader(r: Record): Result<State, OpenError> {
    if !r.Header? || r.sessionId == "" || r.createdAt == 0 then
      Failure(InvalidHeader)
    else if r.version != LEGACY_VERSION && r.version != VERSION then
      Failure(UnsupportedVersion)
    else
      Success(State(r.sessionId, r.createdAt, r.version, [], "", None, 0))
  }

  /** A file starts with a header of a known version that names its session. */
  lemma HeaderIff(r: Record)
    ensures ReadHeader(r).Success? <==> r.Header? && r.sessionId != "" && r.createdAt != 0 && (r.version == 1 || r.version == 2)
    ensures ReadHeader(r).Success? ==>
              var s := ReadHeader(r).value;
              && s.sessionId == r.sessionId && s.createdAt == r.createdAt && s.version == r.version
              && s.entries == [] && s.leafId == "" && s.pending.None? && s.lastSequence == 0
    ensures ReadHeader(r) == Failure(UnsupportedVersion) <==>
              r.Header? && r.sessionId != "" && r.createdAt != 0 && r.version != 1 && r.version != 2
  {
  }

  // The tree entry a stored message stands for. Before version 2, and for
  // records without an id, messages form one chain in file order.
  function EntryOf(s: State, r: Record): Entry
    requires r.Stored?
  {
    var chained := s.version == LEGACY_VERSION || r.id == "";
    Entry(if chained then r.message.id else r.id,
          if chained then s.leafId else r.parentId,
          if r.timestamp == 0 then s.createdAt else r.timestamp,
          r.message)
  }

  predicate Closes(s: State, attemptId: string) {
    s.pending.Some? && s.pending.value.attemptId == attemptId
  }

  predicate HasSequence(r: Record) {
    !r.Header? && !r.Unreadable?
  }

  // The state after a record that carries an acceptable sequence number.
  function Apply(s: State, r: Record): Option<State>
    requires HasSequence(r)
  {
    var t := s.(lastSequence := r.sequence);
    match r
    case Upgrade(_, version) =>
      if version == VERSION then Some(t.(version := VERSION)) else None
    case Stored(_, _, _, _, _) =>
      var e := EntryOf(s, r);
      Some(t.(entries := s.entries + [e], leafId := e.id))
    case Head(_, leafId) =>
      if s.version == VERSION then Some(t.(leafId := leafId)) else None
    case RunStart(_, timestamp, attemptId, userMessageId) =>
      var p := PendingRun(attemptId, userMessageId, timestamp);
      if s.pending.None? && s.version == VERSION && ValidPending(p) then Some(t.(pending := Some(p))) else None
    case RunEnd(_, attemptId, _, _) =>
      if Closes(s, attemptId) then Some(t.(pending := None)) else None
    case RunResolved(_, attemptId, _) =>
      if Closes(s, attemptId) then Some(t.(pending := None)) else None
    case _ =>
      None
  }

  function Step(s: State, r: Record): Option<State> {
    if HasSequence(r) && s.lastSequence < r.sequence then Apply(s, r) else None
  }

  function Then(s: Option<State>, r: Record): Option<State> {
    if s.Some? then Step(s.value, r) else None
  }

  function Replay(s: State, rs: seq<Record>): Option<State> {
    if rs == [] then Some(s) else Then(Replay(s, rs[..|rs| - 1]), rs[|rs| - 1])
  }

  // The state after all records, a header first.
  function Replayed(rs: seq<Record>): Option<State> {
    if rs == [] || ReadHeader(rs[0]).Failure? then None else Replay(ReadHeader(rs[0]).value, rs[1..])
  }

  ghost predicate TreeOk(s: State) {
    var ok := Tree(s.entries) && LeafKnown(s.entries, s.leafId);
    ok
  }

  // What opening a file with these records gives.
  ghost function Restore(rs: seq<Record>): Result<State, OpenError> {
    if rs == [] then
      Failure(MissingHeader)
    else if ReadHeader(rs[0]).Failure? then
      ReadHeader(rs[0])
    else match Replay(ReadHeader(rs[0]).value, rs[1..])
      case None => Failure(InvalidRecord)
      case Some(s) => if TreeOk(s) then Success(s) else Failure(BadTree)
  }

  /** Restoring succeeds exactly when the records replay to a proper tree. */
  lemma RestoreIff(rs: seq<Record>)
    ensures Restore(rs).Success? <==> Replayed(rs).Some? && TreeOk(Replayed(rs).value)
    ensures Restore(rs).Success? ==> Restore(rs).value == Replayed(rs).value
  {
  }

  lemma ReplayedStep(rs: seq<Record>, r: Record)
    requires rs != []
    ensures Replayed(rs + [r]) == Then(Replayed(rs), r)
  {
    var all := rs + [r];
    assert all[1..] == rs[1..] + [r];
    assert all[1..][..|rs| - 1] == rs[1..];
  }

  function Decoded(f: Format, lines: seq<Bytes>): (rs: seq<Record>)
    ensures |rs| == |lines|
    ensures forall i | 0 <= i < |rs| :: rs[i] == f.decode(lines[i])
  {
    seq(|lines|, i requires 0 <= i < |lines| => f.decode(lines[i]))
  }

  datatype Parsed = Parsed(state: State, messages: seq<Message>, validBytes: nat, needsNewline: bool)

  ghost function ActiveMessages(s: State): seq<Message> {
    MessagesOf(Path(s.entries, RestoredLeaf(s.entries, s.leafId)))
  }

  /** What opening these bytes gives. */
  ghost function Parse(f: Format, data: Bytes): Result<Parsed, OpenError> {
    match Split(f, data)
    case Failure(e) => Failure(e)
    case Success(s) =>
      match Restore(Decoded(f, s.lines))
      case Failure(e) => Failure(e)
      case Success(t) =>
        Success(Parsed(t, ActiveMessages(t), s.validBytes, data != [] && s.validBytes == |data| && !s.terminated))
  }

  /** The record loop of the reader, on the variables it updates. */
  method ReplayLines(f: Format, start: State, lines: seq<Bytes>) returns (r: Option<State>)
    ensures r == Replay(start, Decoded(f, lines))
  {
    var s := start;
    var rs := Decoded(f, lines);
    var i := 0;
    while i < |lines|
      invariant 0 <= i <= |lines|
      invariant Replay(start, rs[..i]) == Some(s)
    {
      var record := f.decode(lines[i]);
      assert rs[..i + 1][..i] == rs[..i];
      var next := ReplayLine(s, record);
      if next.None? {
        NoneStays(start, rs, i + 1);
        return None;
      }
      s := next.value;
      i := i + 1;
    }
    assert rs[..|lines|] == rs;
    r := Some(s);
  }

  // One record: the sequence check, then what its type asks for. Sequence numbers
  // grow, a run starts only with none pending, and only the pending run is closed.
  method ReplayLine(s: State, record: Record) returns (r: Option<State>)
    ensures r == Step(s, record)
    ensures r.Some? ==> HasSequence(record) && s.lastSequence < record.sequence == r.value.lastSequence
    ensures r.Some? && record.RunStart? ==>
              && s.pending.None? && ValidPending(r.value.pending.value)
              && r.value.pending == Some(PendingRun(record.attemptId, record.userMessageId, record.timestamp))
    ensures r.Some? && (record.RunEnd? || record.RunResolved?) ==>
              s.pending.Some? && s.pending.value.attemptId == record.attemptId && r.value.pending.None?
    ensures r.Some? && !record.RunStart? && !record.RunEnd? && !record.RunResolved? ==> r.value.pending == s.pending
    ensures r.Some? ==> s.entries <= r.value.entries && (!record.Stored? ==> r.value.entries == s.entries)
    ensures r.Some? ==> r.value.sessionId == s.sessionId && r.value.createdAt == s.createdAt
    ensures r.Some? ==> r.value.version == if record.Upgrade? then 2 else s.version
    ensures r.Some? && record.Head? ==> r.value.leafId == record.leafId
    ensures r.Some? && !record.Head? && !record.Stored? ==> r.value.leafId == s.leafId
    ensures r.Some? && record.Stored? ==>
              && |r.value.entries| == |s.entries| + 1
              && var e := r.value.entries[|s.entries|];
                 && e.message == record.message && r.value.leafId == e.id
                 && (if s.version == 1 || record.id == "" then e.id == record.message.id && e.parentId == s.leafId
                     else e.id == record.id && e.parentId == record.parentId)
                 && e.timestamp == (if record.timestamp == 0 then s.createdAt else record.timestamp)
    ensures r.Some? <==>
              && (match record
                  case Upgrade(_, version) => version == 2
                  case Stored(_, _, _, _, _) => true
                  case Head(_, _) => s.version == 2
                  case RunStart(_, timestamp, attemptId, userMessageId) =>
                    s.version == 2 && s.pending.None? && attemptId != "" && userMessageId != "" && timestamp != 0
                  case RunEnd(_, attemptId, _, _) => s.pending.Some? && s.pending.value.attemptId == attemptId
                  case RunResolved(_, attemptId, _) => s.pending.Some? && s.pending.value.attemptId == attemptId
                  case _ => false)
              && s.lastSequence < record.sequence
  {
    if !HasSequence(record) || record.sequence == 0 || record.sequence <= s.lastSequence {
      return None;
    }
    var next := s.(lastSequence := record.sequence);
    match record {
      case Upgrade(_, version) =>
        if version != VERSION {
          return None;
        }
        next := next.(version := VERSION);
      case Stored(_, timestamp, id, parentId, message) =>
        var entry := Entry(id, parentId, timestamp, message);
        if s.version == LEGACY_VERSION || id == "" {
          entry := entry.(id := message.id, parentId := s.leafId);
        }
        if timestamp == 0 {
          entry := entry.(timestamp := s.createdAt);
        }
        next := next.(entries := s.entries + [entry], leafId := entry.id);
      case Head(_, leafId) =>
        if s.version != VERSION {
          return None;
        }
        next := next.(leafId := leafId);
      case RunStart(_, timestamp, attemptId, userMessageId) =>
        var candidate := PendingRun(attemptId, userMessageId, timestamp);
        if s.pending.Some? || s.version != VERSION || !ValidPending(candidate) {
          return None;
        }
        next := next.(pending := Some(candidate));
      case RunEnd(_, attemptId, _, _) =>
        if s.pending.None? || s.pending.value.attemptId != attemptId {
          return None;
        }
        next := next.(pending := None);
      case RunResolved(_, attemptId, _) =>
        if s.pending.None? || s.pending.value.attemptId != attemptId {
          return None;
        }
        next := next.(pending := None);
      case _ =>
        return None;
    }
    r := Some(next);
  }

  /** A record of version 1, and one without an identifier, extends the branch
      before it by its message. */
  lemma ChainedExtends(s: State, r: Record, t: State)
    requires Step(s, r) == Some(t) && r.Stored? && (s.version == 1 || r.id == "")
    requires Tree(t.entries)
    ensures Tree(s.entries) && t.leafId == r.message.id
    ensures MessagesOf(Path(t.entries, t.leafId)) == MessagesOf(Path(s.entries, s.leafId)) + [r.message]
  {
    var n := |s.entries|;
    var e := t.entries[n];
    assert t.entries[..n] == s.entries && t.entries == s.entries + [e];
    TreeEntry(t.entries, n);
    TreePrefix(t.entries, n);
    AppendExtendsPath(s.entries, e);
  }

  // A file of version 1 that was never upgraded: messages and nothing else.
  ghost predicate LegacyLog(rs: seq<Record>) {
    && rs != [] && rs[0].Header? && rs[0].version == 1
    && forall i | 0 < i < |rs| :: rs[i].Stored?
  }

  function MessagesStored(rs: seq<Record>): (ms: seq<Message>)
    requires forall i | 0 <= i < |rs| :: rs[i].Stored?
    ensures |ms| == |rs| && forall i | 0 <= i < |rs| :: ms[i] == rs[i].message
  {
    seq(|rs|, i requires 0 <= i < |rs| => rs[i].message)
  }

  // The entries of a state are one chain of these messages.
  ghost predicate OneChain(t: State, ms: seq<Message>) {
    var chain :=
      && t.version == 1
      && MessagesOf(Path(t.entries, t.leafId)) == ms
      && |t.entries| == |ms|
      && (forall i | 0 <= i < |ms| :: t.entries[i].id == ms[i].id && t.entries[i].message == ms[i])
      && (if t.entries == [] then t.leafId == "" else t.leafId == t.entries[|t.entries| - 1].id);
    chain
  }

  lemma OneChainGrows(s: State, r: Record, t: State, ms: seq<Message>)
    requires OneChain(s, ms) && Step(s, r) == Some(t) && r.Stored? && Tree(t.entries)
    ensures OneChain(t, ms + [r.message])
  {
    ChainedExtends(s, r, t);
  }

  lemma {:induction false} LegacyChain(s: State, rs: seq<Record>)
    requires s.version == 1 && s.entries == [] && s.leafId == ""
    requires (forall i | 0 <= i < |rs| :: rs[i].Stored?) && Replay(s, rs).Some? && Tree(Replay(s, rs).value.entries)
    ensures OneChain(Replay(s, rs).value, MessagesStored(rs))
  {
    if rs != [] {
      var n := |rs| - 1;
      var before := ReplayLast(s, rs, rs[..n], rs[n]);
      LegacyChain(s, rs[..n]);
      assert MessagesStored(rs) == MessagesStored(rs[..n]) + [rs[n].message];
      OneChainGrows(before, rs[n], Replay(s, rs).value, MessagesStored(rs[..n]));
    } else {
      assert MessagesStored(rs) == [];
    }
  }

  lemma ReplayLast(s: State, rs: seq<Record>, init: seq<Record>, r: Record) returns (before: State)
    requires rs != [] && init == rs[..|rs| - 1] && r == rs[|rs| - 1] && r.Stored?
    requires Replay(s, rs).Some? && Tree(Replay(s, rs).value.entries)
    ensures Replay(s, init) == Some(before) && Step(before, r) == Replay(s, rs) && Tree(before.entries)
  {
    before := Replay(s, init).value;
    ChainedTree(before, r, Replay(s, rs).value);
  }

  lemma ChainedTree(s: State, r: Record, t: State)
    requires Step(s, r) == Some(t) && r.Stored? && Tree(t.entries)
    ensures Tree(s.entries)
  {
    assert t.entries[..|s.entries|] == s.entries;
    TreePrefix(t.entries, |s.entries|);
  }

  /** A conversation of version 1 opens with all its messages, in file order, as one
      chain under their own identifiers. */
  lemma LegacyOpensWhole(f: Format, data: Bytes)
    requires Parse(f, data).Success? && LegacyLog(Decoded(f, Split(f, data).value.lines))
    ensures var rs := Decoded(f, Split(f, data).value.lines);
            && Parse(f, data).value.messages == MessagesStored(rs[1..])
            && |Parse(f, data).value.state.entries| == |rs| - 1
            && forall i | 0 <= i < |rs| - 1 :: Parse(f, data).value.state.entries[i].id == rs[i + 1].message.id
  {
    var rs := Decoded(f, Split(f, data).value.lines);
    LegacyChain(ReadHeader(rs[0]).value, rs[1..]);
    var t := Parse(f, data).value.state;
    NoEmptyId(t.entries);
    if t.entries != [] {
      assert t.leafId == t.entries[|t.entries| - 1].id;
    }
  }

  lemma {:induction false} NoneStays(s: State, rs: seq<Record>, i: nat)
    requires i <= |rs| && Replay(s, rs[..i]).None?
    ensures Replay(s, rs).None?
    decreases |rs|
  {
    if i < |rs| {
      assert rs[..|rs| - 1][..i] == rs[..i];
      NoneStays(s, rs[..|rs| - 1], i);
    } else {
      assert rs[..i] == rs;
    }
  }

  /** Reads a whole file: split it, replay it, rebuild its tree. */
  method ParseFile(f: Format, data: Bytes) returns (r: Result<Parsed, OpenError>)
    ensures r == Parse(f, data)
    ensures r.Success? && LegacyLog(Decoded(f, Split(f, data).value.lines)) ==>
              r.value.messages == MessagesStored(Decoded(f, Split(f, data).value.lines)[1..])
  {
    if Parse(f, data).Success? && LegacyLog(Decoded(f, Split(f, data).value.lines)) {
      LegacyOpensWhole(f, data);
    }
    var split := SplitValidLines(f, data);
    if split.Failure? {
      return Failure(split.error);
    }
    var lines := split.value.lines;
    if lines == [] {
      return Failure(MissingHeader);
    }
    var header := ReadHeader(f.decode(lines[0]));
    if header.Failure? {
      return Failure(header.error);
    }
    assert Decoded(f, lines[1..]) == Decoded(f, lines)[1..];
    var state := ReplayLines(f, header.value, lines[1..]);
    if state.None? {
      return Failure(InvalidRecord);
    }
    var restored := RestoreTree(state.value);
    if restored.None? {
      return Failure(BadTree);
    }
    var keep := split.value.validBytes;
    r := Success(Parsed(state.value, restored.value, keep, data != [] && keep == |data| && !split.value.terminated));
  }

  // Rebuilds the tree and lists the messages of its active branch.
  method RestoreTree(s: State) returns (messages: Option<seq<Message>>)
    ensures messages == if TreeOk(s) then Some(ActiveMessages(s)) else None
  {
    var history, ok := History.Restore(s.entries, s.leafId);
    if !ok {
      return None;
    }
    var path := history.ActivePath();
    messages := Some(MessagesOf(path));
  }

  // ---------------------------------------------------------------------------
  // The bytes a writer leaves.

  function Encoded(f: Format, r: Record): Bytes {
    var e := f.encode(r);
    if e.Some? then e.value else []
  }

  function Log(f: Format, rs: seq<Record>): Bytes {
    if rs == [] then [] else Log(f, rs[..|rs| - 1]) + Line(Encoded(f, rs[|rs| - 1]))
  }

  ghost predicate AllWritable(f: Format, rs: seq<Record>) {
    forall i {:trigger rs[i]} | 0 <= i < |rs| :: Writable(f, rs[i])
  }

  function Encodings(f: Format, rs: seq<Record>): (lines: seq<Bytes>)
    ensures |lines| == |rs|
    ensures forall i | 0 <= i < |rs| :: lines[i] == Encoded(f, rs[i])
  {
    seq(|rs|, i requires 0 <= i < |rs| => Encoded(f, rs[i]))
  }

  lemma DecodeEncodings(f: Format, rs: seq<Record>)
    requires Lawful(f) && AllWritable(f, rs)
    ensures Decoded(f, Encodings(f, rs)) == rs
  {
    forall i | 0 <= i < |rs|
      ensures f.decode(Encodings(f, rs)[i]) == rs[i]
    {
      assert Encodes(f, rs[i], f.encode(rs[i]).value);
    }
  }

  lemma LogAppend(f: Format, rs: seq<Record>, r: Record)
    ensures Log(f, rs + [r]) == Log(f, rs) + Line(Encoded(f, r))
  {
    assert (rs + [r])[..|rs|] == rs;
  }

  lemma EncodingsAppend(f: Format, rs: seq<Record>, r: Record)
    ensures Encodings(f, rs + [r]) == Encodings(f, rs) + [Encoded(f, r)]
  {
  }

  lemma WritablePrefix(f: Format, rs: seq<Record>, k: nat)
    requires AllWritable(f, rs) && k <= |rs|
    ensures AllWritable(f, rs[..k])
  {
  }

  /** A written log reads back as its records. */
  lemma {:induction false} LogComplete(f: Format, rs: seq<Record>)
    requires Lawful(f) && AllWritable(f, rs)
    ensures Complete(f, Log(f, rs), Encodings(f, rs))
    decreases |rs|
  {
    if rs != [] {
      var n := |rs| - 1;
      WritablePrefix(f, rs, n);
      LogComplete(f, rs[..n]);
      AppendRecord(f, Log(f, rs[..n]), Encodings(f, rs[..n]), rs[n]);
      assert rs == rs[..n] + [rs[n]];
      EncodingsAppend(f, rs[..n], rs[n]);
    }
  }
}
