/** The append handle of a session journal, where writes and syncs may fail at any point. */
module Journal {
  import opened Messages
  import opened SessionTree
  import opened ByteText
  import opened JournalLines
  import opened JournalReplay
  import opened JournalRecovery

  // A handle that saw a failure never appends again.

  datatype JournalError =
    | Closed | Uncertain | WrongVersion
    | NotEncodable | RecordTooLarge | WriteFailed | SyncFailed
    | Cancelled | InvalidRequest | RunUnresolved | RunMismatch

  // What the records say about the session, leaving out versions and numbering.
  datatype Content = Content(entries: seq<Entry>, leafId: string, pending: Option<PendingRun>)

  const EMPTY_CONTENT := Content([], "", None)

  ghost function ContentOf(s: State): Content {
    Content(s.entries, s.leafId, s.pending)
  }

  function AttemptOf(pending: Option<PendingRun>): string {
    if pending.Some? then pending.value.attemptId else ""
  }

  // The bytes are complete lines that decode to these records.
  ghost predicate Holds(f: Format, image: Bytes, records: seq<Record>) {
    var holds :=
      && Split(f, image).Success?
      && Split(f, image).value.validBytes == |image|
      && Split(f, image).value.terminated
      && Decoded(f, Split(f, image).value.lines) == records;
    holds
  }

  // The disk holds the log, or the log up to a failed write.
  ghost predicate LogOk(f: Format, disk: Bytes, image: Bytes, records: seq<Record>) {
    var ok :=
      && Lawful(f)
      && Holds(f, image, records)
      && records != []
      && Replayed(records).Some?
      && disk <= image;
    ok
  }

  ghost predicate CanonicalLog(f: Format, image: Bytes, records: seq<Record>) {
    var canonical := AllWritable(f, records) && image == Log(f, records);
    canonical
  }

  // The log at the last successful sync: what no crash can take back.
  datatype Secured = Secured(bytes: Bytes, records: seq<Record>)

  ghost predicate SecuredOk(f: Format, secured: Secured, disk: Bytes, records: seq<Record>) {
    var ok :=
      && LogOk(f, secured.bytes, secured.bytes, secured.records)
      && secured.bytes <= disk
      && secured.records <= records;
    ok
  }

  ghost predicate SecuredGrew(was: Secured, now: Secured) {
    var grew := was.bytes <= now.bytes && was.records <= now.records;
    grew
  }

  lemma SecuredStays(f: Format, secured: Secured, disk: Bytes, records: seq<Record>, longer: Bytes, more: seq<Record>)
    requires SecuredOk(f, secured, disk, records) && disk <= longer && records <= more
    ensures SecuredOk(f, secured, longer, more)
  {
  }

  // A sync secures everything written so far.
  lemma SyncSecures(f: Format, secured: Secured, disk: Bytes, records: seq<Record>, now: Secured)
    requires SecuredOk(f, secured, disk, records) && LogOk(f, disk, disk, records) && now == Secured(disk, records)
    ensures SecuredOk(f, now, disk, records) && SecuredGrew(secured, now)
  {
  }

  ghost function StateOf(records: seq<Record>): State {
    if Replayed(records).Some? then Replayed(records).value else State("", 0, 0, [], "", None, 0)
  }

  ghost predicate Synced(image: Bytes, records: seq<Record>, disk: Bytes, version: nat, nextSequence: nat,
                         leafId: string, pendingAttempt: string)
  {
    var synced := disk == image && InStep(StateOf(records), version, nextSequence, leafId, pendingAttempt);
    synced
  }

  // The fields of a handle that is in step with the records on disk.
  ghost predicate InStep(s: State, version: nat, nextSequence: nat, leafId: string, pendingAttempt: string) {
    var inStep :=
      && s.version == version
      && s.lastSequence + 1 == nextSequence
      && s.leafId == leafId
      && AttemptOf(s.pending) == pendingAttempt
      && (s.version == LEGACY_VERSION || s.version == VERSION)
      && (s.pending.Some? ==> ValidPending(s.pending.value));
    inStep
  }

  lemma HoldsAppend(f: Format, image: Bytes, records: seq<Record>, r: Record)
    requires Lawful(f) && Writable(f, r) && Holds(f, image, records)
    ensures Holds(f, image + Line(f.encode(r).value), records + [r])
  {
    var e, lines := f.encode(r).value, Split(f, image).value.lines;
    AppendRecord(f, image, lines, r);
    assert Encodes(f, r, e);
    assert Decoded(f, lines + [e]) == Decoded(f, lines) + [r];
  }

  // Record r takes state s to t. The quantifier keeps the case analysis of a step
  // out of sight until a position is named.
  ghost predicate Leads(s: State, r: Record, t: State) {
    forall k {:trigger At(k)} | At(k) :: Step(s, r) == Some(t)
  }

  lemma LeadsIsStep(s: State, r: Record, t: State)
    requires Leads(s, r, t)
    ensures Step(s, r) == Some(t)
  {
    assert At(0);
  }

  // Appending a record, or the first bytes of it, to a log.
  lemma LogGrows(f: Format, image: Bytes, records: seq<Record>, r: Record, next: State, written: nat)
    requires LogOk(f, image, image, records) && Writable(f, r) && Leads(StateOf(records), r, next)
    requires written <= |Line(f.encode(r).value)|
    ensures var line := Line(f.encode(r).value);
            && LogOk(f, image + line[..written], image + line, records + [r])
            && StateOf(records + [r]) == next
            && (written == |line| ==> line[..written] == line)
            && (CanonicalLog(f, image, records) ==> CanonicalLog(f, image + line, records + [r]))
  {
    HoldsAppend(f, image, records, r);
    ReplayedStep(records, r);
    LeadsIsStep(StateOf(records), r, next);
    LogAppend(f, records, r);
  }

  /** Only a known version and valid markers come out of a replay. */
  lemma {:induction false} ReplayKeepsShape(s: State, rs: seq<Record>)
    requires s.version == LEGACY_VERSION || s.version == VERSION
    requires s.pending.Some? ==> ValidPending(s.pending.value)
    requires Replay(s, rs).Some?
    ensures var t := Replay(s, rs).value;
            && (t.version == LEGACY_VERSION || t.version == VERSION)
            && (t.pending.Some? ==> ValidPending(t.pending.value))
  {
    if rs != [] {
      ReplayKeepsShape(s, rs[..|rs| - 1]);
    }
  }

  ghost predicate Marks(r: Record, attemptId: string) {
    (r.RunEnd? || r.RunResolved?) && r.attemptId == attemptId
  }

  // The pending attempt of a replay started after everything that closed it.
  lemma {:induction false} PendingSinceStart(s: State, rs: seq<Record>, i: nat)
    requires Replay(s, rs).Some? && i < |rs| && rs[i].RunStart?
    ensures Closes(Replay(s, rs).value, rs[i].attemptId) || exists k: nat | i < k < |rs| :: Marks(rs[k], rs[i].attemptId)
    decreases |rs|
  {
    var n := |rs| - 1;
    var init := rs[..n];
    if i < n {
      PendingSinceStart(s, init, i);
      if k: nat :| i < k < |init| && Marks(init[k], init[i].attemptId) {
        assert Marks(rs[k], rs[i].attemptId);
      } else if rs[n].RunEnd? || rs[n].RunResolved? {
        assert Marks(rs[n], rs[i].attemptId);
      }
    }
  }

  /** In every file that opens, at any point of its life, a run starts only after
      every earlier run was ended or resolved. */
  lemma RunsNeverOverlap(rs: seq<Record>, i: nat, j: nat)
    requires Replayed(rs).Some?
    requires 0 < i < j < |rs| && rs[i].RunStart? && rs[j].RunStart?
    ensures exists k: nat | i < k < j :: Marks(rs[k], rs[i].attemptId)
  {
    var s, tail := ReadHeader(rs[0]).value, rs[1..];
    ReplayPrefix(s, tail, j);
    var before := tail[..j - 1];
    assert tail[..j] == before + [tail[j - 1]];
    assert (before + [tail[j - 1]])[..j - 1] == before;
    PendingSinceStart(s, before, i - 1);
    var k: nat :| i - 1 < k < |before| && Marks(before[k], before[i - 1].attemptId);
    assert before[k] == rs[k + 1] && before[i - 1] == rs[i];
  }

  lemma {:induction false} ReplayPrefix(s: State, rs: seq<Record>, k: nat)
    requires Replay(s, rs).Some? && k <= |rs|
    ensures Replay(s, rs[..k]).Some?
    decreases |rs|
  {
    if k < |rs| {
      var init := rs[..|rs| - 1];
      assert init[..k] == rs[..k];
      ReplayPrefix(s, init, k);
    } else {
      assert rs[..k] == rs;
    }
  }

  // Replaying more records forgets no entry.
  lemma {:induction false} ReplayKeepsEntries(s: State, rs: seq<Record>, k: nat)
    requires Replay(s, rs).Some? && k <= |rs|
    ensures Replay(s, rs[..k]).Some? && Replay(s, rs[..k]).value.entries <= Replay(s, rs).value.entries
    decreases |rs|
  {
    if k < |rs| {
      var init := rs[..|rs| - 1];
      assert init[..k] == rs[..k];
      ReplayKeepsEntries(s, init, k);
    } else {
      assert rs[..k] == rs;
    }
  }

  lemma EntriesGrow(short: seq<Record>, long: seq<Record>)
    requires short != [] && short <= long && Replayed(long).Some?
    ensures Replayed(short).Some? && StateOf(short).entries <= StateOf(long).entries
  {
    var k := |short| - 1;
    assert short[0] == long[0] && short[1..] == long[1..][..k];
    ReplayKeepsEntries(ReadHeader(long[0]).value, long[1..], k);
  }

  // A further record keeps every prefix restorable when the tree it gives is
  // proper.
  lemma SoundAppend(rs: seq<Record>, r: Record)
    requires Sound(rs) && Replayed(rs + [r]).Some? && TreeOk(Replayed(rs + [r]).value)
    ensures Sound(rs + [r])
  {
    var all := rs + [r];
    forall k {:trigger all[..k]} | 0 < k <= |all|
      ensures Restore(all[..k]).Success?
    {
      if k == |all| {
        assert all[..k] == all;
        RestoreIff(all);
      } else {
        assert all[..k] == rs[..k];
      }
    }
  }

  lemma SoundTree(rs: seq<Record>)
    requires Sound(rs) && rs != []
    ensures Replayed(rs).Some? && TreeOk(Replayed(rs).value)
  {
    assert rs[..|rs|] == rs;
    RestoreIff(rs);
  }

  // ---------------------------------------------------------------------------
  // Which failure leaves what behind.

  // A record that is refused before a byte is written.
  ghost predicate Refuses(f: Format, r: Record, e: JournalError) {
    || (e.NotEncodable? && f.encode(r).None?)
    || (e.RecordTooLarge? && f.encode(r).Some? && |f.encode(r).value| > MAX_RECORD_BYTES)
  }

  // An open, clean handle after one record: only a failed write poisons it.
  ghost predicate WroteRecord(f: Format, r: Record, error: Option<JournalError>, poisoned: bool) {
    var wrote :=
      match error
      case None => !poisoned && Writable(f, r)
      case Some(e) => if e.WriteFailed? then poisoned && Writable(f, r) else !poisoned && Refuses(f, r, e);
    wrote
  }

  function EntryRecord(n: nat, e: Entry): Record {
    Stored(n, e.timestamp, e.id, e.parentId, e.message)
  }

  // An entry that can be stored under number n, and why another one cannot.
  ghost predicate EntryFits(f: Format, n: nat, e: Entry) {
    ValidEntry(e) && Writable(f, EntryRecord(n, e))
  }

  ghost predicate EntryRefused(f: Format, n: nat, e: Entry, error: JournalError) {
    if ValidEntry(e) then Refuses(f, EntryRecord(n, e), error) else error.InvalidRequest?
  }

  lemma RefusedDoesNotFit(f: Format, n: nat, e: Entry, error: JournalError)
    requires EntryRefused(f, n, e, error)
    ensures !EntryFits(f, n, e)
    ensures error.InvalidRequest? || error.NotEncodable? || error.RecordTooLarge?
  {
  }

  // What can go wrong with a record on an open, clean handle.
  predicate OfWriting(e: JournalError) {
    e.NotEncodable? || e.RecordTooLarge? || e.WriteFailed? || e.SyncFailed?
  }

  // The same for one entry of an open, clean, current handle.
  ghost predicate WroteEntry(f: Format, n: nat, e: Entry, error: Option<JournalError>, poisoned: bool) {
    var wrote :=
      match error
      case None => !poisoned && EntryFits(f, n, e)
      case Some(reason) => if reason.WriteFailed? then poisoned && EntryFits(f, n, e) else !poisoned && EntryRefused(f, n, e, reason);
    wrote
  }

  // The first k entries fit, numbered from n.
  ghost predicate FitUpTo(f: Format, n: nat, es: seq<Entry>, k: nat) {
    var fit := k <= |es| && forall i {:trigger es[i]} | 0 <= i < k :: EntryFits(f, n + i, es[i]);
    fit
  }

  lemma FitNext(f: Format, n: nat, es: seq<Entry>, k: nat)
    requires k < |es| && FitUpTo(f, n, es, k) && EntryFits(f, n + k, es[k])
    ensures FitUpTo(f, n, es, k + 1)
  {
  }

  /** How a batch of an open, clean, current handle ends. A failed write or sync
      poisons. A refused entry is the one after those appended, and like a
      cancellation it leaves the handle clean. */
  ghost predicate BatchEnds(f: Format, n: nat, es: seq<Entry>, error: Option<JournalError>, appended: nat, poisoned: bool) {
    var ends :=
      match error
      case None => !poisoned && FitUpTo(f, n, es, |es|)
      case Some(e) =>
        if e.WriteFailed? || e.SyncFailed? then poisoned
        else
          && !poisoned
          && FitUpTo(f, n, es, appended)
          && (e.Cancelled? || (appended < |es| && EntryRefused(f, n + appended, es[appended], e)));
    ends
  }

  lemma OneMore(f: Format, n: nat, es: seq<Entry>, i: nat, m: nat, error: Option<JournalError>, appended: nat, poisoned: bool)
    requires i < |es| && FitUpTo(f, n, es, i) && m == n + i && WroteEntry(f, m, es[i], error, poisoned)
    requires error.Some? && !poisoned ==> appended == i
    ensures error.None? ==> FitUpTo(f, n, es, i + 1)
    ensures error.Some? ==> BatchEnds(f, n, es, error, appended, poisoned)
  {
    if error.None? {
      FitNext(f, n, es, i);
    }
  }

  // A batch on its way: the first i entries are done, or it has ended.
  ghost predicate Underway(f: Format, n: nat, es: seq<Entry>, i: nat, error: Option<JournalError>, appended: nat, poisoned: bool) {
    var underway :=
      && i <= |es| && appended <= |es|
      && (error.None? ==> appended == i && !poisoned && FitUpTo(f, n, es, i))
      && (error.Some? ==> BatchEnds(f, n, es, error, appended, poisoned));
    underway
  }

  lemma CancelledUnderway(f: Format, n: nat, es: seq<Entry>, i: nat)
    requires Underway(f, n, es, i, None, i, false)
    ensures Underway(f, n, es, i, Some(Cancelled), i, false)
  {
  }

  // An open, clean handle that could not be made writable.
  ghost predicate UpgradeEnds(f: Format, n: nat, error: JournalError, poisoned: bool) {
    if error.WriteFailed? || error.SyncFailed? then poisoned else !poisoned && Refuses(f, Upgrade(n, VERSION), error)
  }

  // A handle before an operation.
  datatype Handle = Handle(isOpen: bool, poisoned: bool, version: nat, nextSequence: nat)
  {
    // The number of the next record once the file is current.
    function First(): nat {
      if version == VERSION then nextSequence else nextSequence + 1
    }
  }

  /** How AppendEntries ends, on any handle. */
  ghost predicate AppendEnds(f: Format, h: Handle, es: seq<Entry>, error: Option<JournalError>, appended: nat, poisoned: bool) {
    var ends :=
      if es == [] then error.None? && appended == 0 && poisoned == h.poisoned
      else if error == Some(Cancelled) && appended == 0 then poisoned == h.poisoned
      else if !h.isOpen then error == Some(Closed) && appended == 0 && poisoned == h.poisoned
      else if h.poisoned then error == Some(Uncertain) && appended == 0 && poisoned
      else
        || (h.version != VERSION && error.Some? && appended == 0 && UpgradeEnds(f, h.nextSequence, error.value, poisoned))
        || BatchEnds(f, h.First(), es, error, appended, poisoned);
    ends
  }

  /** A failed batch that leaves the handle as clean as it was has appended nothing
      unless it was cancelled or some entry does not fit; the first such entry is
      the one that stopped it. So a caller who checks the entries beforehand never
      meets a partial batch on a clean handle. */
  lemma PartialBatchIff(f: Format, h: Handle, es: seq<Entry>, error: Option<JournalError>, appended: nat, poisoned: bool, c: Content)
    requires AppendEnds(f, h, es, error, appended, poisoned) && error.Some? && !poisoned && appended <= |es|
    ensures Extended(c, es[..appended]) == c <==> appended == 0
    ensures appended > 0 && error != Some(Cancelled) ==>
              && FitUpTo(f, h.First(), es, appended)
              && appended < |es| && EntryRefused(f, h.First() + appended, es[appended], error.value)
    ensures FitUpTo(f, h.First(), es, |es|) && error != Some(Cancelled) ==> appended == 0
  {
    if appended > 0 {
      assert |(c.entries + es[..appended])| > |c.entries|;
      if error != Some(Cancelled) {
        RefusedDoesNotFit(f, h.First() + appended, es[appended], error.value);
      }
    }
  }

  // The content after appending entries: the last of them becomes the leaf.
  ghost function Extended(c: Content, es: seq<Entry>): Content {
    if es == [] then c else c.(entries := c.entries + es, leafId := es[|es| - 1].id)
  }

  lemma ExtendedStep(c: Content, es: seq<Entry>, i: nat)
    requires i < |es|
    ensures Extended(Extended(c, es[..i]), [es[i]]) == Extended(c, es[..i + 1])
  {
    assert es[..i + 1] == es[..i] + [es[i]];
    assert c.entries + es[..i] + [es[i]] == c.entries + es[..i + 1];
  }

  lemma GraftStep(entries: seq<Entry>, es: seq<Entry>, i: nat)
    requires i < |es|
    ensures Tree(entries + es) ==> Attachable(entries + es[..i], es[i])
    ensures es[..i] == [] ==> entries + es[..i] == entries
  {
    var all, k := entries + es, |entries| + i;
    assert all[..k] == entries + es[..i] && all[k] == es[i];
    if Tree(all) {
      TreeEntry(all, k);
    }
  }

  // Appending a record keeps every prefix restorable if it leaves a proper tree.
  lemma AppendIsSound(rs: seq<Record>, r: Record, next: State)
    requires rs != [] && Replayed(rs).Some? && Leads(StateOf(rs), r, next)
    ensures Sound(rs) && (TreeOk(StateOf(rs)) ==> TreeOk(next)) ==> Sound(rs + [r])
  {
    ReplayedStep(rs, r);
    LeadsIsStep(StateOf(rs), r, next);
    if Sound(rs) {
      SoundTree(rs);
      if TreeOk(next) {
        SoundAppend(rs, r);
      }
    }
  }

  // Each kind of record takes a handle that is in step to one that is again, and
  // changes what it says and nothing else.
  lemma UpgradeLeads(s: State, n: nat, leaf: string, attempt: string, next: State)
    requires InStep(s, LEGACY_VERSION, n, leaf, attempt) && next == s.(version := VERSION, lastSequence := n)
    ensures Leads(s, Upgrade(n, VERSION), next) && InStep(next, VERSION, n + 1, leaf, attempt)
    ensures ContentOf(next) == ContentOf(s)
    ensures TreeOk(s) ==> TreeOk(next)
  {
  }

  lemma HeadLeads(s: State, n: nat, was: string, attempt: string, leaf: string, next: State)
    requires InStep(s, VERSION, n, was, attempt) && next == s.(leafId := leaf, lastSequence := n)
    ensures Leads(s, Head(n, leaf), next) && InStep(next, VERSION, n + 1, leaf, attempt)
    ensures ContentOf(next) == ContentOf(s).(leafId := leaf)
    ensures TreeOk(s) && LeafKnown(s.entries, leaf) ==> TreeOk(next)
  {
  }

  lemma StartLeads(s: State, n: nat, leaf: string, run: PendingRun, next: State)
    requires InStep(s, VERSION, n, leaf, "") && ValidPending(run) && next == s.(pending := Some(run), lastSequence := n)
    ensures s.pending.None?
    ensures Leads(s, RunStart(n, run.startedAt, run.attemptId, run.userMessageId), next)
    ensures InStep(next, VERSION, n + 1, leaf, run.attemptId)
    ensures ContentOf(next) == ContentOf(s).(pending := Some(run))
    ensures TreeOk(s) ==> TreeOk(next)
  {
  }

  lemma CloseLeads(s: State, n: nat, leaf: string, attempt: string, r: Record, next: State)
    requires InStep(s, VERSION, n, leaf, attempt) && attempt != ""
    requires Marks(r, attempt) && r.sequence == n && next == s.(pending := None, lastSequence := n)
    ensures Closes(s, attempt)
    ensures Leads(s, r, next) && InStep(next, VERSION, n + 1, leaf, "")
    ensures ContentOf(next) == ContentOf(s).(pending := None)
    ensures TreeOk(s) ==> TreeOk(next)
  {
  }

  lemma StoredLeads(s: State, n: nat, leaf: string, attempt: string, e: Entry, next: State)
    requires InStep(s, VERSION, n, leaf, attempt) && ValidEntry(e)
    requires next == s.(entries := s.entries + [e], leafId := e.id, lastSequence := n)
    ensures Leads(s, Stored(n, e.timestamp, e.id, e.parentId, e.message), next) && InStep(next, VERSION, n + 1, e.id, attempt)
    ensures ContentOf(next) == Extended(ContentOf(s), [e])
    ensures TreeOk(s) && Attachable(s.entries, e) ==> TreeOk(next)
  {
    if TreeOk(s) && Attachable(s.entries, e) {
      TreeAppend(s.entries, e);
      assert (s.entries + [e])[|s.entries|].id == e.id;
    }
  }

  lemma NewLog(f: Format, header: Record)
    requires Lawful(f) && ReadHeader(header).Success? && Writable(f, header)
    ensures var e, s := f.encode(header).value, ReadHeader(header).value;
            && LogOk(f, Line(e), Line(e), [header])
            && CanonicalLog(f, Line(e), [header])
            && StateOf([header]) == s
            && Synced(Line(e), [header], Line(e), s.version, 1, s.leafId, AttemptOf(s.pending))
            && Sound([header])
  {
    var e := f.encode(header).value;
    SplitOneLine(f, header);
    assert Encodes(f, header, e);
    assert Decoded(f, [e]) == [header];
    assert [header] == [] + [header];
    LogAppend(f, [], header);
    assert [] + Line(e) == Line(e);
    forall k {:trigger [header][..k]} | 0 < k <= 1
      ensures Restore([header][..k]).Success?
    {
      assert [header][..k] == [header];
      RestoreIff([header]);
    }
  }

  lemma HeaderLine(f: Format, rs: seq<Record>)
    requires rs != []
    ensures |Encoded(f, rs[0])| < |Log(f, rs[..1])|
  {
    LogNext(f, rs, 0);
  }

  // The records of a repaired file.
  ghost function RepairedRecords(f: Format, data: Bytes): seq<Record> {
    match Split(f, Repaired(f, data))
    case Success(s) => Decoded(f, s.lines)
    case Failure(_) => []
  }

  lemma RepairedIsLog(f: Format, data: Bytes)
    requires Lawful(f) && Parse(f, data).Success? && !BlankTail(f, data)
    ensures var disk, rs, s := Repaired(f, data), RepairedRecords(f, data), Parse(f, data).value.state;
            && LogOk(f, disk, disk, rs)
            && StateOf(rs) == s
            && Synced(disk, rs, disk, s.version, s.lastSequence + 1, s.leafId, AttemptOf(s.pending))
  {
    RepairSettlesIff(f, data);
    var rs := RepairedRecords(f, data);
    RestoreIff(rs);
    ReplayKeepsShape(ReadHeader(rs[0]).value, rs[1..]);
  }

  // The bytes of a log hold its records and no others.
  lemma LogHoldsItsRecords(f: Format, rs: seq<Record>)
    requires Lawful(f) && AllWritable(f, rs)
    ensures RepairedRecords(f, Log(f, rs)) == rs
  {
    LogComplete(f, rs);
    DecodeEncodings(f, rs);
  }

  // What can be seen of a handle at one moment.
  datatype Mark = Mark(disk: Bytes, records: seq<Record>, secured: Secured, isOpen: bool, poisoned: bool, canonical: bool)

  // The file was only appended to, and what is secured stays so; a handle that is
  // closed or poisoned appends nothing.
  ghost predicate Grew(was: Mark, now: Mark) {
    var grew :=
      && was.disk <= now.disk
      && was.records <= now.records
      && SecuredGrew(was.secured, now.secured)
      && now.isOpen == was.isOpen
      && (was.poisoned ==> now.poisoned)
      && (was.poisoned || !was.isOpen ==> now.disk == was.disk)
      && (was.canonical ==> now.canonical);
    grew
  }

  lemma GrewTwice(a: Mark, b: Mark, c: Mark)
    requires Grew(a, b) && Grew(b, c)
    ensures Grew(a, c)
  {
  }

  class File {
    const format: Format
    var isOpen: bool
    var disk: Bytes
    var version: nat
    var nextSequence: nat
    var leafId: string
    var pendingAttempt: string
    var poisoned: bool
    // The log as far as it was written or attempted.
    ghost var image: Bytes
    ghost var records: seq<Record>
    ghost var secured: Secured

    ghost predicate Logged()
      reads this
    {
      var logged := LogOk(format, disk, image, records) && SecuredOk(format, secured, disk, records);
      logged
    }

    // Everything written is secured.
    ghost predicate Flushed()
      reads this
    {
      disk == image && secured == Secured(disk, records)
    }

    ghost predicate Valid()
      reads this
    {
      var valid := Logged() && (!poisoned ==> Synced(image, records, disk, version, nextSequence, leafId, pendingAttempt));
      valid
    }

    ghost function State(): State
      reads this
      requires Logged()
    {
      StateOf(records)
    }

    ghost function Content(): Content
      reads this
      requires Logged()
    {
      ContentOf(StateOf(records))
    }

    // The last record of the file.
    ghost predicate WroteLast(r: Record)
      reads this
    {
      records != [] && records[|records| - 1] == r
    }

    // What the secured records say.
    ghost function Durable(): Content
      reads this
    {
      ContentOf(StateOf(secured.records))
    }

    // The file is byte for byte what this writer produces.
    ghost predicate Canonical()
      reads this
    {
      CanonicalLog(format, image, records) && CanonicalLog(format, secured.bytes, secured.records)
    }

    constructor Attach(f: Format, data: Bytes, ghost rs: seq<Record>, s: State)
      ensures isOpen && !poisoned && format == f && disk == data && image == data && records == rs && Flushed()
      ensures version == s.version && nextSequence == s.lastSequence + 1
      ensures leafId == s.leafId && pendingAttempt == AttemptOf(s.pending)
    {
      format, isOpen, disk, version, nextSequence := f, true, data, s.version, s.lastSequence + 1;
      leafId, pendingAttempt, poisoned := s.leafId, AttemptOf(s.pending), false;
      image, records, secured := data, rs, Secured(data, rs);
    }

    /** Starts a new file with its header. */
    static method Create(f: Format, sessionId: string, createdAt: nat) returns (file: File?)
      requires Lawful(f)
      ensures file != null ==> fresh(file) && file.Valid() && file.Canonical() && Sound(file.records)
      ensures file != null ==> file.records == [Header(VERSION, sessionId, createdAt)] && !file.poisoned && file.Flushed()
      ensures file != null ==> file.Content() == EMPTY_CONTENT
    {
      if sessionId == "" || createdAt == 0 {
        return null;
      }
      var header := Header(VERSION, sessionId, createdAt);
      var encoded := f.encode(header);
      if encoded.None? || |encoded.value| > MAX_RECORD_BYTES {
        return null;
      }
      if * {
        // Writing or syncing the header failed.
        return null;
      }
      NewLog(f, header);
      file := new File.Attach(f, Line(encoded.value), [header], ReadHeader(header).value);
    }

    /** Opens a file: read, replay, repair the tail. The repair may fail; the bytes
        `left` in the file then open to the same state. */
    static method Open(f: Format, data: Bytes) returns (file: File?, r: Result<Parsed, OpenError>, left: Bytes)
      requires Lawful(f)
      ensures r == Parse(f, data) || (r == Failure(RepairFailed) && Parse(f, data).Success? && Repaired(f, data) != data)
      ensures file != null <==> r.Success?
      ensures r.Success? && LegacyLog(Decoded(f, Split(f, data).value.lines)) ==>
                r.value.messages == MessagesStored(Decoded(f, Split(f, data).value.lines)[1..])
      ensures file != null ==> fresh(file) && file.isOpen && !file.poisoned
      ensures file != null ==> file.format == f && file.disk == left == Repaired(f, data)
      ensures file != null ==> file.records == RepairedRecords(f, data) && file.Flushed()
      ensures file != null && !BlankTail(f, data) ==> file.Valid() && file.State() == r.value.state
      ensures left == data || left == Repaired(f, data)
      ensures Parse(f, data).Success? && !BlankTail(f, data) ==>
                Parse(f, left).Success? && Parse(f, left).value.state == Parse(f, data).value.state
    {
      file, left := null, data;
      r := ParseFile(f, data);
      if r.Failure? {
        return;
      }
      var truncated, completed := *, *;
      var disk := data;
      if r.value.validBytes < |data| {
        disk := data[..r.value.validBytes];
        if !truncated {
          return null, Failure(RepairFailed), left;
        }
      }
      if r.value.needsNewline {
        disk := disk + [NEWLINE];
      }
      RepairSettlesIff(f, data);
      assert disk == Repaired(f, data);
      if r.value.needsNewline && !completed {
        // The newline may have reached the file all the same.
        var reached: bool := *;
        left := if reached then disk else data;
        return null, Failure(RepairFailed), left;
      }
      left := disk;
      if !BlankTail(f, data) {
        RepairedIsLog(f, data);
      }
      file := new File.Attach(f, disk, RepairedRecords(f, data), r.value.state);
    }

    /** Any cut of the file after its header's JSON, whether the handle is
        poisoned or not, opens to exactly the records that survive. */
    lemma AnyCutRecovers(n: nat, k: nat)
      requires Valid() && Canonical() && Sound(records)
      requires |Encoded(format, records[0])| <= n <= |disk|
      requires Survive(format, records, n, k)
      ensures 0 < k && Recovers(format, records[..k], disk[..n])
    {
      assert disk[..n] == image[..n];
      CrashRecovery(format, records, n, k);
    }

    /** What is secured survives every crash: any cut of the file behind the last
        successful sync, whether the handle is poisoned or not, opens to at least
        the secured records. */
    lemma SecuredSurvives(n: nat) returns (k: nat)
      requires Valid() && Canonical() && Sound(records)
      requires |secured.bytes| <= n <= |disk|
      ensures k <= |records| && secured.records <= records[..k] && Recovers(format, records[..k], disk[..n])
      ensures Parse(format, disk[..n]).Success?
      ensures Durable().entries <= Parse(format, disk[..n]).value.state.entries
    {
      var m := |secured.records|;
      assert secured.records == records[..m];
      k := SurvivorsExist(format, records, n);
      WholeSurvive(format, records, n, k, m);
      LogMonotone(format, records, 1, m);
      HeaderLine(format, records);
      AnyCutRecovers(n, k);
      RestoreIff(records[..k]);
      EntriesGrow(secured.records, records[..k]);
    }

    // Hands data to the file in as many pieces as the system takes. A failed
    // call may still have taken some bytes.
    method WriteAll(data: Bytes) returns (ok: bool, ghost written: nat)
      modifies this`disk
      ensures written <= |data| && disk == old(disk) + data[..written]
      ensures ok ==> written == |data|
    {
      var rest := data;
      written := 0;
      ok := true;
      while ok && |rest| > 0
        invariant written <= |data| && rest == data[written..]
        invariant disk == old(disk) + data[..written]
        decreases |rest|, ok
      {
        var taken: nat, failed: bool := *, *;
        taken := if taken <= |rest| then taken else |rest|;
        assert data[..written + taken] == data[..written] + rest[..taken];
        disk := disk + rest[..taken];
        written := written + taken;
        rest := rest[taken..];
        ok := !failed && taken > 0;
      }
    }

    /** Appends one record. A record that cannot be encoded or is too large
        leaves no trace; a failed write poisons the handle. */
    method WriteRecord(r: Record, ghost next: State) returns (error: Option<JournalError>)
      requires Logged() && disk == image
      requires Leads(StateOf(records), r, next)
      modifies this`disk, this`poisoned, this`image, this`records
      ensures Logged() && old(disk) <= disk
      ensures error.None? ==> disk == image && poisoned == old(poisoned)
      ensures error.None? || error == Some(WriteFailed) ==>
                records == old(records) + [r] && StateOf(records) == next
      ensures error == Some(WriteFailed) ==> poisoned
      ensures error.Some? && error != Some(WriteFailed) ==>
                records == old(records) && disk == old(disk) && image == old(image) && poisoned == old(poisoned)
      ensures error == Some(Closed) <==> !isOpen
      ensures isOpen && !old(poisoned) ==> WroteRecord(format, r, error, poisoned)
      ensures old(Canonical()) ==> Canonical()
      ensures old(Sound(records)) && (TreeOk(StateOf(old(records))) ==> TreeOk(next)) ==> Sound(records)
    {
      AppendIsSound(records, r, next);
      if !isOpen {
        return Some(Closed);
      }
      var encoded := format.encode(r);
      if encoded.None? {
        return Some(NotEncodable);
      }
      if |encoded.value| > MAX_RECORD_BYTES {
        return Some(RecordTooLarge);
      }
      var line := Line(encoded.value);
      var ok, written := WriteAll(line);
      LogGrows(format, image, records, r, next, written);
      SecuredStays(format, secured, image, records, disk, records + [r]);
      image := image + line;
      records := records + [r];
      error := None;
      if !ok {
        poisoned := true;
        error := Some(WriteFailed);
      }
    }

    ghost function Seen(): Handle
      reads this
    {
      Handle(isOpen, poisoned, version, nextSequence)
    }

    ghost function Observed(): Mark
      reads this
    {
      Mark(disk, records, secured, isOpen, poisoned, Canonical())
    }

    /** Appends a record and takes the next sequence number. */
    method Put(r: Record, ghost next: State) returns (error: Option<JournalError>)
      requires Logged() && disk == image
      requires Leads(StateOf(records), r, next)
      modifies this`disk, this`poisoned, this`image, this`records, this`nextSequence
      ensures Logged() && old(disk) <= disk
      ensures error.None? ==> isOpen && disk == image && poisoned == old(poisoned) && nextSequence == old(nextSequence) + 1
      ensures error.Some? ==> nextSequence == old(nextSequence)
      ensures isOpen && !old(poisoned) ==> WroteRecord(format, r, error, poisoned)
      ensures error.None? || error == Some(WriteFailed) ==>
                records == old(records) + [r] && StateOf(records) == next
      ensures error == Some(WriteFailed) ==> poisoned
      ensures error.Some? && error != Some(WriteFailed) ==>
                records == old(records) && disk == old(disk) && image == old(image) && poisoned == old(poisoned)
      ensures old(Canonical()) ==> Canonical()
      ensures old(Sound(records)) && (TreeOk(StateOf(old(records))) ==> TreeOk(next)) ==> Sound(records)
    {
      error := WriteRecord(r, next);
      if error.None? {
        nextSequence := nextSequence + 1;
      }
    }

    // What every operation does to the file.
    twostate predicate AppendsOnly()
      reads this
    {
      Valid() && Grew(old(Observed()), Observed())
    }

    // Appends the record that leads to `next`. What a failed write left behind
    // shows only in a poisoned handle.
    method Advance(r: Record, ghost next: State, ghost version': nat, ghost leaf: string, ghost attempt: string)
      returns (error: Option<JournalError>)
      requires Valid() && isOpen && !poisoned
      requires Leads(State(), r, next) && InStep(next, version', nextSequence + 1, leaf, attempt)
      modifies this`disk, this`poisoned, this`image, this`records, this`nextSequence
      ensures Logged() && Grew(old(Observed()), Observed())
      ensures error.None? ==> isOpen && !poisoned && Synced(image, records, disk, version', nextSequence, leaf, attempt)
      ensures error.None? ==> Content() == ContentOf(next) && nextSequence == old(nextSequence) + 1
      ensures error.None? ==> records == old(records) + [r]
      ensures WroteRecord(format, r, error, poisoned)
      ensures error.Some? && !poisoned ==> Content() == old(Content())
      ensures error.Some? ==> Valid() && (Content() == old(Content()) || (poisoned && Content() == ContentOf(next)))
      ensures old(Sound(records)) && (TreeOk(old(State())) ==> TreeOk(next)) ==> Sound(records)
    {
      error := Put(r, next);
    }

    // Success secures everything written; after a failure nobody knows, and the
    // handle is poisoned.
    method SyncLocked() returns (error: Option<JournalError>)
      requires Logged() && (!poisoned ==> disk == image)
      modifies this`poisoned, this`secured
      ensures Logged() && Grew(old(Observed()), Observed())
      ensures error.None? ==> isOpen && !old(poisoned) && !poisoned && Flushed()
      ensures error.Some? ==> (!isOpen || poisoned) && secured == old(secured)
      ensures old(poisoned) ==> poisoned
      ensures isOpen && !old(poisoned) ==> error == if poisoned then Some(SyncFailed) else None
    {
      if !isOpen {
        return Some(Closed);
      }
      if poisoned {
        return Some(Uncertain);
      }
      if * {
        poisoned := true;
        return Some(SyncFailed);
      }
      SyncSecures(format, secured, disk, records, Secured(disk, records));
      secured := Secured(disk, records);
      error := None;
    }

    /** Lets a legacy file be written by appending an upgrade record. */
    method EnsureWritable() returns (error: Option<JournalError>)
      requires Valid()
      modifies this`disk, this`poisoned, this`image, this`records, this`version, this`nextSequence, this`secured
      ensures AppendsOnly()
      ensures Content() == old(Content())
      ensures error.None? ==> isOpen && !poisoned && version == VERSION && nextSequence == old(Seen()).First()
      ensures !isOpen ==> error == Some(Closed) && poisoned == old(poisoned)
      ensures isOpen && old(poisoned) ==> error == Some(Uncertain)
      ensures isOpen && !old(poisoned) && error.Some? ==>
                old(version) != VERSION && UpgradeEnds(format, old(nextSequence), error.value, poisoned)
      ensures old(Sound(records)) ==> Sound(records)
    {
      if !isOpen {
        return Some(Closed);
      }
      if poisoned {
        return Some(Uncertain);
      }
      if version == VERSION {
        return None;
      }
      error := UpgradeFile();
    }

    // The record that turns a legacy file into a current one.
    method WriteUpgrade() returns (error: Option<JournalError>)
      requires Valid() && isOpen && !poisoned && version == LEGACY_VERSION
      modifies this`disk, this`poisoned, this`image, this`records, this`version, this`nextSequence
      ensures AppendsOnly()
      ensures Content() == old(Content())
      ensures error.None? ==> isOpen && !poisoned && version == VERSION && nextSequence == old(nextSequence) + 1
      ensures error.Some? ==> UpgradeEnds(format, old(nextSequence), error.value, poisoned)
      ensures old(Sound(records)) ==> Sound(records)
    {
      var record := Upgrade(nextSequence, VERSION);
      ghost var s := State();
      ghost var next := s.(version := VERSION, lastSequence := nextSequence);
      UpgradeLeads(s, nextSequence, leafId, pendingAttempt, next);
      error := Advance(record, next, VERSION, leafId, pendingAttempt);
      if error.None? {
        TakeVersion();
      }
    }

    method TakeVersion()
      requires Logged() && Synced(image, records, disk, VERSION, nextSequence, leafId, pendingAttempt)
      modifies this`version
      ensures Valid() && version == VERSION && Observed() == old(Observed()) && Content() == old(Content())
    {
      version := VERSION;
    }

    method UpgradeFile() returns (error: Option<JournalError>)
      requires Valid() && isOpen && !poisoned && version == LEGACY_VERSION
      modifies this`disk, this`poisoned, this`image, this`records, this`version, this`nextSequence, this`secured
      ensures AppendsOnly()
      ensures error.None? ==> Flushed()
      ensures Content() == old(Content())
      ensures error.None? ==> isOpen && !poisoned && version == VERSION && nextSequence == old(nextSequence) + 1
      ensures error.Some? ==> UpgradeEnds(format, old(nextSequence), error.value, poisoned)
      ensures old(Sound(records)) ==> Sound(records)
    {
      error := WriteUpgrade();
      if error.None? {
        error := SyncLocked();
      }
    }

    // Appends a record that moves the leaf, and moves it.
    method AdvanceLeaf(r: Record, leaf: string, ghost next: State) returns (error: Option<JournalError>)
      requires Valid() && isOpen && !poisoned && version == VERSION
      requires Leads(State(), r, next) && InStep(next, VERSION, nextSequence + 1, leaf, pendingAttempt)
      modifies this`disk, this`poisoned, this`image, this`records, this`nextSequence, this`leafId
      ensures AppendsOnly()
      ensures error.None? ==> isOpen && !poisoned && Content() == ContentOf(next) && nextSequence == old(nextSequence) + 1
      ensures WroteRecord(format, r, error, poisoned)
      ensures error.Some? && !poisoned ==> Content() == old(Content())
      ensures error.Some? ==> Content() == old(Content()) || (poisoned && Content() == ContentOf(next))
      ensures old(Sound(records)) && (TreeOk(old(State())) ==> TreeOk(next)) ==> Sound(records)
    {
      error := Advance(r, next, VERSION, leaf, pendingAttempt);
      if error.None? {
        TakeLeaf(leaf);
      }
    }

    method TakeLeaf(leaf: string)
      requires Logged() && Synced(image, records, disk, version, nextSequence, leaf, pendingAttempt)
      modifies this`leafId
      ensures Valid() && Observed() == old(Observed()) && Content() == old(Content())
    {
      leafId := leaf;
    }

    // The head record of an accepted SetHead.
    method MoveHead(leaf: string) returns (error: Option<JournalError>)
      requires Valid() && isOpen && !poisoned && version == VERSION
      modifies this`disk, this`poisoned, this`image, this`records, this`nextSequence, this`leafId, this`secured
      ensures AppendsOnly()
      ensures error.None? ==> Flushed()
      ensures error.None? ==> !poisoned && Content() == old(Content()).(leafId := leaf)
      ensures error.Some? ==> OfWriting(error.value)
      ensures error.Some? ==> Content() == old(Content()) || (poisoned && Content() == old(Content()).(leafId := leaf))
      ensures old(Sound(records)) && LeafKnown(old(Content()).entries, leaf) ==> Sound(records)
    {
      var record := Head(nextSequence, leaf);
      ghost var s := State();
      ghost var next := s.(leafId := leaf, lastSequence := nextSequence);
      HeadLeads(s, nextSequence, leafId, pendingAttempt, leaf, next);
      error := AdvanceLeaf(record, leaf, next);
      if error.None? {
        error := SyncLocked();
      }
    }

    /** Moves the active leaf. The file does not check that the leaf exists. */
    method SetHead(leaf: string) returns (error: Option<JournalError>)
      requires Valid()
      modifies this`disk, this`poisoned, this`image, this`records, this`version, this`nextSequence, this`leafId, this`secured
      ensures AppendsOnly()
      ensures error.None? ==> Flushed()
      ensures error.None? ==> !poisoned && Content() == old(Content()).(leafId := leaf)
      ensures error.Some? ==> Content() == old(Content()) || (poisoned && Content() == old(Content()).(leafId := leaf))
      ensures error == Some(Closed) ==> !isOpen
      ensures error == Some(Uncertain) ==> old(poisoned)
      ensures error != Some(RunUnresolved) && error != Some(RunMismatch) && error != Some(InvalidRequest)
      ensures old(poisoned) ==> error.Some?
      ensures old(Sound(records)) && LeafKnown(old(Content()).entries, leaf) ==> Sound(records)
    {
      if * {
        return Some(Cancelled);
      }
      ghost var was := Observed();
      error := EnsureWritable();
      if error.None? {
        ghost var writable := Observed();
        error := MoveHead(leaf);
        GrewTwice(was, writable, Observed());
      }
    }

    // Appends a record that opens or closes a run; the attempt changes only once
    // the record is on disk.
    method AdvanceRun(r: Record, attempt: string, ghost next: State) returns (error: Option<JournalError>)
      requires Valid() && isOpen && !poisoned && version == VERSION
      requires Leads(State(), r, next) && InStep(next, VERSION, nextSequence + 1, leafId, attempt)
      modifies this`disk, this`poisoned, this`image, this`records, this`nextSequence, this`pendingAttempt, this`secured
      ensures AppendsOnly()
      ensures error.None? ==> Flushed()
      ensures error.None? ==> !poisoned && Content() == ContentOf(next)
      ensures error.None? ==> records == old(records) + [r]
      ensures error.Some? ==> OfWriting(error.value)
      ensures error.Some? ==> Content() == old(Content()) || (poisoned && Content() == ContentOf(next))
      ensures old(Sound(records)) && (TreeOk(old(State())) ==> TreeOk(next)) ==> Sound(records)
    {
      error := Advance(r, next, VERSION, leafId, attempt);
      if error.None? {
        error := SyncAttempt(attempt);
      }
    }

    method SyncAttempt(attempt: string) returns (error: Option<JournalError>)
      requires Logged() && isOpen && !poisoned
      requires Synced(image, records, disk, version, nextSequence, leafId, attempt)
      modifies this`poisoned, this`pendingAttempt, this`secured
      ensures error.None? || error == Some(SyncFailed)
      ensures Valid() && poisoned == error.Some? && Grew(old(Observed()), Observed())
      ensures error.None? ==> Flushed()
    {
      error := SyncLocked();
      if error.None? {
        pendingAttempt := attempt;
      }
    }

    // The start record of an accepted BeginRun.
    method OpenRun(run: PendingRun) returns (error: Option<JournalError>)
      requires Valid() && isOpen && !poisoned && version == VERSION
      requires pendingAttempt == "" && ValidPending(run)
      modifies this`disk, this`poisoned, this`image, this`records, this`nextSequence, this`pendingAttempt, this`secured
      ensures AppendsOnly() && old(Content()).pending.None?
      ensures error.None? ==> Flushed()
      ensures error.None? ==> !poisoned && Content() == old(Content()).(pending := Some(run))
      ensures error.None? ==> records == old(records) + [RunStart(old(nextSequence), run.startedAt, run.attemptId, run.userMessageId)]
      ensures error.Some? ==> OfWriting(error.value)
      ensures error.Some? ==> Content() == old(Content()) || (poisoned && Content() == old(Content()).(pending := Some(run)))
      ensures old(Sound(records)) ==> Sound(records)
    {
      var record := RunStart(nextSequence, run.startedAt, run.attemptId, run.userMessageId);
      ghost var s := State();
      ghost var next := s.(pending := Some(run), lastSequence := nextSequence);
      StartLeads(s, nextSequence, leafId, run, next);
      error := AdvanceRun(record, run.attemptId, next);
    }

    /** Marks the start of a run. It is refused while an earlier run is open. */
    method BeginRun(run: PendingRun) returns (error: Option<JournalError>)
      requires Valid()
      modifies this`disk, this`poisoned, this`image, this`records, this`version, this`nextSequence, this`pendingAttempt, this`secured
      ensures AppendsOnly()
      ensures error.None? ==> Flushed()
      ensures error.None? ==> !poisoned && old(Content()).pending.None? && Content() == old(Content()).(pending := Some(run))
      ensures error.None? ==> WroteLast(RunStart(old(Seen()).First(), run.startedAt, run.attemptId, run.userMessageId))
      ensures error.Some? ==> Content() == old(Content()) ||
                              (poisoned && old(Content()).pending.None? && Content() == old(Content()).(pending := Some(run)))
      ensures error == Some(InvalidRequest) <==> run.attemptId == "" || run.userMessageId == "" || run.startedAt == 0
      ensures error == Some(RunUnresolved) ==> old(Content()).pending.Some?
      ensures error == Some(Closed) ==> !isOpen
      ensures error == Some(Uncertain) ==> old(poisoned)
      ensures error != Some(RunMismatch)
      ensures old(poisoned) ==> error.Some?
      ensures old(Sound(records)) ==> Sound(records)
    {
      if !ValidPending(run) {
        return Some(InvalidRequest);
      }
      if * {
        return Some(Cancelled);
      }
      ghost var was := Observed();
      error := EnsureWritable();
      if error.Some? {
        return;
      }
      ghost var writable := Observed();
      if pendingAttempt != "" {
        return Some(RunUnresolved);
      }
      error := OpenRun(run);
      GrewTwice(was, writable, Observed());
    }

    // The shared part of the two records that close a run.
    method CloseRun(attemptId: string, record: Record) returns (error: Option<JournalError>)
      requires Valid() && isOpen && !poisoned && version == VERSION
      requires attemptId != "" && pendingAttempt == attemptId
      requires Marks(record, attemptId) && record.sequence == nextSequence
      modifies this`disk, this`poisoned, this`image, this`records, this`nextSequence, this`pendingAttempt, this`secured
      ensures AppendsOnly()
      ensures error.None? ==> Flushed()
      ensures error.None? ==> !poisoned && Content() == old(Content()).(pending := None)
      ensures error.None? ==> records == old(records) + [record]
      ensures error.Some? ==> OfWriting(error.value)
      ensures error.Some? ==> Content() == old(Content()) || (poisoned && Content() == old(Content()).(pending := None))
      ensures old(Sound(records)) ==> Sound(records)
    {
      ghost var s := State();
      ghost var next := s.(pending := None, lastSequence := nextSequence);
      CloseLeads(s, nextSequence, leafId, attemptId, record, next);
      error := AdvanceRun(record, "", next);
    }

    // What comes before either of them.
    method PrepareClose(attemptId: string) returns (error: Option<JournalError>)
      requires Valid()
      modifies this`disk, this`poisoned, this`image, this`records, this`version, this`nextSequence, this`secured
      ensures AppendsOnly() && Content() == old(Content())
      ensures error.None? ==> isOpen && !poisoned && version == VERSION && nextSequence == old(Seen()).First()
      ensures error.None? ==> attemptId != "" && pendingAttempt == attemptId
      ensures error == Some(InvalidRequest) ==> attemptId == ""
      ensures error == Some(RunMismatch) ==> old(Content()).pending.None? || old(Content()).pending.value.attemptId != attemptId
      ensures error == Some(Closed) ==> !isOpen
      ensures error == Some(Uncertain) ==> old(poisoned)
      ensures error != Some(RunUnresolved)
      ensures old(poisoned) ==> error.Some?
      ensures old(Sound(records)) ==> Sound(records)
    {
      if * {
        return Some(Cancelled);
      }
      if attemptId == "" {
        return Some(InvalidRequest);
      }
      error := EnsureWritable();
      if error.None? && (pendingAttempt == "" || pendingAttempt != attemptId) {
        error := Some(RunMismatch);
      }
    }

    /** Marks the end of the run that is open. */
    method EndRun(attemptId: string, runId: string, message: string) returns (error: Option<JournalError>)
      requires Valid()
      modifies this`disk, this`poisoned, this`image, this`records, this`version, this`nextSequence, this`pendingAttempt, this`secured
      ensures AppendsOnly()
      ensures error.None? ==> Flushed()
      ensures error.None? ==> !poisoned && Closes(old(State()), attemptId) && Content() == old(Content()).(pending := None)
      ensures error.None? ==> WroteLast(RunEnd(old(Seen()).First(), attemptId, runId, message))
      ensures error.Some? ==> Content() == old(Content()) ||
                              (poisoned && Closes(old(State()), attemptId) && Content() == old(Content()).(pending := None))
      ensures error == Some(InvalidRequest) ==> attemptId == ""
      ensures error == Some(RunMismatch) ==> old(Content()).pending.None? || old(Content()).pending.value.attemptId != attemptId
      ensures error == Some(Closed) ==> !isOpen
      ensures error == Some(Uncertain) ==> old(poisoned)
      ensures error != Some(RunUnresolved)
      ensures old(poisoned) ==> error.Some?
      ensures old(Sound(records)) ==> Sound(records)
    {
      ghost var was := Observed();
      error := PrepareClose(attemptId);
      if error.None? {
        ghost var writable := Observed();
        error := CloseRun(attemptId, RunEnd(nextSequence, attemptId, runId, message));
        GrewTwice(was, writable, Observed());
      }
    }

    /** Records that the run left open by a crash was looked into. */
    method ResolveRun(attemptId: string, note: string) returns (error: Option<JournalError>)
      requires Valid()
      modifies this`disk, this`poisoned, this`image, this`records, this`version, this`nextSequence, this`pendingAttempt, this`secured
      ensures AppendsOnly()
      ensures error.None? ==> Flushed()
      ensures error.None? ==> !poisoned && Closes(old(State()), attemptId) && Content() == old(Content()).(pending := None)
      ensures error.None? ==> WroteLast(RunResolved(old(Seen()).First(), attemptId, note))
      ensures error.Some? ==> Content() == old(Content()) ||
                              (poisoned && Closes(old(State()), attemptId) && Content() == old(Content()).(pending := None))
      ensures error == Some(InvalidRequest) ==> attemptId == ""
      ensures error == Some(RunMismatch) ==> old(Content()).pending.None? || old(Content()).pending.value.attemptId != attemptId
      ensures error == Some(Closed) ==> !isOpen
      ensures error == Some(Uncertain) ==> old(poisoned)
      ensures error != Some(RunUnresolved)
      ensures old(poisoned) ==> error.Some?
      ensures old(Sound(records)) ==> Sound(records)
    {
      ghost var was := Observed();
      error := PrepareClose(attemptId);
      if error.None? {
        ghost var writable := Observed();
        error := CloseRun(attemptId, RunResolved(nextSequence, attemptId, note));
        GrewTwice(was, writable, Observed());
      }
    }

    // Appends one entry. Nothing is checked about its parent or its identifier.
    method AppendEntry(entry: Entry) returns (error: Option<JournalError>, ghost took: bool)
      requires Valid() && isOpen && !poisoned && version == VERSION
      modifies this`disk, this`poisoned, this`image, this`records, this`nextSequence, this`leafId
      ensures AppendsOnly()
      ensures WroteEntry(format, old(nextSequence), entry, error, poisoned)
      ensures error.None? ==> took && nextSequence == old(nextSequence) + 1
      ensures error.Some? && !poisoned ==> !took
      ensures Content() == if took then Extended(old(Content()), [entry]) else old(Content())
      ensures old(Sound(records)) && Attachable(old(Content()).entries, entry) ==> Sound(records)
    {
      if !ValidEntry(entry) {
        return Some(InvalidRequest), false;
      }
      var record := EntryRecord(nextSequence, entry);
      ghost var s := State();
      ghost var next := s.(entries := s.entries + [entry], leafId := entry.id, lastSequence := nextSequence);
      StoredLeads(s, nextSequence, leafId, pendingAttempt, entry, next);
      error := AdvanceLeaf(record, entry.id, next);
      took := error.None? || (poisoned && Content() == ContentOf(next));
    }

    // The loop of AppendEntries; the context may be cancelled between records.
    method AppendAll(entries: seq<Entry>) returns (error: Option<JournalError>, ghost appended: nat)
      requires Valid() && isOpen && !poisoned && version == VERSION
      modifies this`disk, this`poisoned, this`image, this`records, this`nextSequence, this`leafId
      ensures AppendsOnly()
      ensures appended <= |entries| && Content() == Extended(old(Content()), entries[..appended])
      ensures error.None? ==> appended == |entries| && !poisoned
      ensures BatchEnds(format, old(nextSequence), entries, error, appended, poisoned)
      ensures old(Sound(records)) && Tree(old(Content()).entries + entries) ==> Sound(records)
    {
      ghost var start, was := Content(), Observed();
      error, appended := None, 0;
      var i := 0;
      while error.None? && i < |entries|
        invariant Underway(format, old(nextSequence), entries, i, error, appended, poisoned)
        invariant Valid() && Grew(was, Observed())
        invariant error.None? ==> isOpen && version == VERSION && nextSequence == old(nextSequence) + i
        invariant Content() == Extended(start, entries[..appended])
        invariant old(Sound(records)) && Tree(start.entries + entries) ==> Sound(records)
        decreases |entries| - i, error.None?
      {
        if * {
          CancelledUnderway(format, old(nextSequence), entries, i);
          error := Some(Cancelled);
        } else {
          ghost var before := Observed();
          error, appended := AppendNext(start, entries, i, old(nextSequence));
          GrewTwice(was, before, Observed());
          i := i + 1;
        }
      }
    }

    // One turn of that loop.
    method AppendNext(ghost start: Content, entries: seq<Entry>, i: nat, ghost n: nat)
      returns (error: Option<JournalError>, ghost appended: nat)
      requires Valid() && isOpen && !poisoned && version == VERSION
      requires i < |entries| && nextSequence == n + i && FitUpTo(format, n, entries, i)
      requires i < |entries| && Content() == Extended(start, entries[..i])
      modifies this`disk, this`poisoned, this`image, this`records, this`nextSequence, this`leafId
      ensures AppendsOnly()
      ensures Underway(format, n, entries, i + 1, error, appended, poisoned)
      ensures appended <= |entries| && Content() == Extended(start, entries[..appended])
      ensures error.None? ==> nextSequence == n + i + 1
      ensures old(Sound(records)) && Tree(start.entries + entries) ==> Sound(records)
    {
      GraftStep(start.entries, entries, i);
      ExtendedStep(start, entries, i);
      ghost var took;
      ghost var m := nextSequence;
      error, took := AppendEntry(entries[i]);
      appended := if took then i + 1 else i;
      OneMore(format, n, entries, i, m, error, appended, poisoned);
    }

    /** Appends a batch of entries and syncs once. A failure in the middle leaves
        the entries before it in the file. */
    method AppendEntries(entries: seq<Entry>) returns (error: Option<JournalError>, ghost appended: nat)
      requires Valid()
      modifies this`disk, this`poisoned, this`image, this`records, this`version, this`nextSequence, this`leafId, this`secured
      ensures AppendsOnly()
      ensures error.None? && entries != [] ==> !poisoned && Flushed()
      ensures appended <= |entries| && Content() == Extended(old(Content()), entries[..appended])
      ensures error.None? ==> appended == |entries|
      ensures AppendEnds(format, old(Seen()), entries, error, appended, poisoned)
      ensures old(Sound(records)) && Tree(old(Content()).entries + entries) ==> Sound(records)
    {
      appended := 0;
      assert entries[..0] == [];
      if entries == [] {
        return None, 0;
      }
      if * {
        return Some(Cancelled), 0;
      }
      ghost var was := Observed();
      error := EnsureWritable();
      if error.Some? {
        return;
      }
      ghost var writable := Observed();
      error, appended := AppendAndSync(entries);
      GrewTwice(was, writable, Observed());
    }

    // The batch of a writable file; only a sync makes it count.
    method AppendAndSync(entries: seq<Entry>) returns (error: Option<JournalError>, ghost appended: nat)
      requires Valid() && isOpen && !poisoned && version == VERSION
      modifies this`disk, this`poisoned, this`image, this`records, this`nextSequence, this`leafId, this`secured
      ensures AppendsOnly()
      ensures error.None? ==> Flushed()
      ensures appended <= |entries| && Content() == Extended(old(Content()), entries[..appended])
      ensures error.None? ==> appended == |entries| && !poisoned
      ensures BatchEnds(format, old(nextSequence), entries, error, appended, poisoned)
      ensures old(Sound(records)) && Tree(old(Content()).entries + entries) ==> Sound(records)
    {
      error, appended := AppendAll(entries);
      if error.None? {
        error := SyncLocked();
      }
    }
  }

  /** A handle on a file of this writer that is lost at any byte, by a crash or a
      failed write, comes back from Open as a clean handle on the surviving
      records; every promise of a handle then holds again. If the repair fails, the
      same records are still there for the next attempt. */
  method OpenAfterCrash(file: File, n: nat, ghost k: nat) returns (again: File?, left: Bytes)
    requires file.Valid() && file.Canonical() && Sound(file.records)
    requires |Encoded(file.format, file.records[0])| <= n <= |file.disk|
    requires Survive(file.format, file.records, n, k)
    ensures again != null ==> fresh(again) && again.isOpen && !again.poisoned
    ensures again != null ==> again.Valid() && again.Canonical() && Sound(again.records)
    ensures again != null ==> again.records == file.records[..k] && again.disk == left
    ensures Recovers(file.format, file.records[..k], left)
    ensures again == null ==> left == file.disk[..n] || left == Log(file.format, file.records[..k])
  {
    file.AnyCutRecovers(n, k);
    CutIsCanonical(file.format, file.records, file.disk[..n], k);
    var parsed;
    again, parsed, left := File.Open(file.format, file.disk[..n]);
    WritablePrefix(file.format, file.records, k);
    RecoverWhole(file.format, file.records[..k]);
  }

  lemma CutIsCanonical(f: Format, rs: seq<Record>, data: Bytes, k: nat)
    requires Lawful(f) && AllWritable(f, rs) && Sound(rs) && 0 < k <= |rs|
    requires Recovers(f, rs[..k], data)
    ensures Parse(f, data).Success? && !BlankTail(f, data)
    ensures RepairedRecords(f, data) == rs[..k] && Sound(rs[..k])
    ensures CanonicalLog(f, Repaired(f, data), rs[..k])
  {
    RepairSettlesIff(f, data);
    WritablePrefix(f, rs, k);
    LogHoldsItsRecords(f, rs[..k]);
    ParseLog(f, rs[..k]);
    SoundPrefix(rs, k);
  }

  lemma SoundPrefix(rs: seq<Record>, k: nat)
    requires Sound(rs) && k <= |rs|
    ensures Sound(rs[..k])
  {
    forall i {:trigger rs[..k][..i]} | 0 < i <= k
      ensures Restore(rs[..k][..i]).Success?
    {
      assert rs[..k][..i] == rs[..i];
    }
  }

  // A codec that is lawful and for which one of two entries is too large: each
  // record has one code word, and the large one is long.
  function OneByte(b: Byte): Bytes {
    [b]
  }

  function LongWord(): Bytes {
    seq(MAX_RECORD_BYTES + 1, _ => 3)
  }

  function WordOf(header: Record, small: Record, big: Record, r: Record): Option<Bytes> {
    if r == header then Some(OneByte(1)) else if r == small then Some(OneByte(2)) else if r == big then Some(LongWord()) else None
  }

  function RecordOf(header: Record, small: Record, big: Record, s: Bytes): Record {
    if s == OneByte(1) then header else if s == OneByte(2) then small else if s == LongWord() then big else Unreadable
  }

  predicate IsWord(s: Bytes) {
    s == OneByte(1) || s == OneByte(2) || s == LongWord()
  }

  function CodeWords(header: Record, small: Record, big: Record): Format {
    Format(r => WordOf(header, small, big, r), s => RecordOf(header, small, big, s), s => IsWord(s), s => s)
  }

  lemma LongWordIsNoOther()
    ensures LongWord() != OneByte(1) && LongWord() != OneByte(2) && NEWLINE !in LongWord()
    ensures forall k {:trigger LongWord()[..k]} | 0 < k < |LongWord()| :: !IsWord(LongWord()[..k])
  {
    assert |LongWord()| > 1;
    forall k {:trigger LongWord()[..k]} | 0 < k < |LongWord()|
      ensures !IsWord(LongWord()[..k])
    {
      assert LongWord()[..k][0] == 3;
    }
  }

  lemma CodeWordsAreLawful(header: Record, small: Record, big: Record)
    ensures Lawful(CodeWords(header, small, big))
  {
    var f := CodeWords(header, small, big);
    LongWordIsNoOther();
    forall r {:trigger f.encode(r)} | f.encode(r).Some?
      ensures Encodes(f, r, f.encode(r).value)
    {
    }
  }

  /** A partial batch on a clean handle happens: a fitting entry followed by an
      oversized one cannot succeed, and may end with the first entry in the file
      and the handle clean. */
  lemma PartialBatchHappens(small: Entry, big: Entry) returns (f: Format, header: Record)
    requires ValidEntry(small) && ValidEntry(big)
    ensures Lawful(f) && Writable(f, header) && ReadHeader(header).Success?
    ensures var clean := Handle(true, false, VERSION, 1);
            && AppendEnds(f, clean, [small, big], Some(RecordTooLarge), 1, false)
            && forall appended, poisoned :: !AppendEnds(f, clean, [small, big], None, appended, poisoned)
  {
    header := Header(VERSION, "s", 1);
    f := CodeWords(header, EntryRecord(1, small), EntryRecord(2, big));
    CodeWordsAreLawful(header, EntryRecord(1, small), EntryRecord(2, big));
    LongWordIsNoOther();
    var es := [small, big];
    assert EntryFits(f, 1 + 0, es[0]);
    assert FitUpTo(f, 1, es, 1);
    assert !EntryFits(f, 1 + 1, es[1]);
    assert !FitUpTo(f, 1, es, |es|);
  }
}
