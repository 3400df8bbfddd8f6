/** A conversation made of many runs. Whatever the session holds in memory was
    handed to the journal first. */
module Session {
  import opened Messages
  import opened SessionTree
  import opened ByteText
  import opened JournalLines
  import opened JournalReplay
  import opened JournalRecovery
  import opened Journal

  datatype SessionError =
    | Busy | RecoveryRequired | BadMessage | UnknownTarget | PendingToolCalls
    | ShortResult | NotPersisted | MarkerNotPersisted | AgentNotStarted

  /** What one run hands back. A session that ran on a bounded view of the
      conversation supplies the full prefix afterwards. */
  datatype RunResult = RunResult(runId: string, messages: seq<Message>, initialCount: nat, prefix: Option<seq<Message>>)
  {
    function Messages(): seq<Message> {
      if prefix.Some? && initialCount <= |messages| then prefix.value + messages[initialCount..] else messages
    }

    function WithTranscriptPrefix(p: seq<Message>): RunResult {
      this.(prefix := Some(p))
    }
  }

  function LeafAfter(leaf: string, es: seq<Entry>): string {
    if es == [] then leaf else es[|es| - 1].id
  }

  // The entries form one chain that starts below `leaf`.
  ghost predicate Chain(leaf: string, es: seq<Entry>) {
    es != [] ==>
      var init, last := es[..|es| - 1], es[|es| - 1];
      && Chain(leaf, init)
      && ValidEntry(last)
      && last.parentId == LeafAfter(leaf, init)
      && !Has(init, last.id)
  }

  ghost predicate FreshFor(entries: seq<Entry>, es: seq<Entry>) {
    es != [] ==> FreshFor(entries, es[..|es| - 1]) && !Has(entries, es[|es| - 1].id)
  }

  ghost predicate Within(entries: seq<Entry>, all: seq<Entry>) {
    var within := forall i {:trigger entries[i]} | 0 <= i < |entries| :: entries[i] in all;
    within
  }

  lemma HasAppend(a: seq<Entry>, b: seq<Entry>, id: string)
    ensures Has(a + b, id) <==> Has(a, id) || Has(b, id)
  {
    var all := a + b;
    if Has(a, id) {
      var i :| 0 <= i < |a| && a[i].id == id;
      assert all[i].id == id;
    }
    if Has(b, id) {
      var i :| 0 <= i < |b| && b[i].id == id;
      assert all[|a| + i].id == id;
    }
    if Has(all, id) {
      var i :| 0 <= i < |all| && all[i].id == id;
      assert all[i] == if i < |a| then a[i] else b[i - |a|];
    }
  }

  lemma WithinHas(entries: seq<Entry>, all: seq<Entry>, id: string)
    requires Within(entries, all) && Has(entries, id)
    ensures Has(all, id)
  {
    var i: nat :| i < |entries| && entries[i].id == id;
    assert entries[i] in all;
    var j: nat :| j < |all| && all[j] == entries[i];
    assert all[j].id == id;
  }

  lemma WithinGrows(entries: seq<Entry>, all: seq<Entry>, es: seq<Entry>)
    requires Within(entries, all)
    ensures Within(entries + es, all + es)
    ensures Within(entries, all + es)
  {
  }

  // The next link of a chain can be attached.
  lemma ChainLink(entries: seq<Entry>, leaf: string, init: seq<Entry>, last: Entry)
    requires LeafKnown(entries + init, LeafAfter(leaf, init))
    requires ValidEntry(last) && last.parentId == LeafAfter(leaf, init)
    requires !Has(init, last.id) && !Has(entries, last.id)
    ensures Attachable(entries + init, last)
  {
    HasAppend(entries, init, last.id);
  }

  lemma ChainStep(entries: seq<Entry>, init: seq<Entry>, e: Entry, all: seq<Entry>, branch: seq<Entry>)
    requires Tree(entries) && Attachable(entries, e) && all == entries + [e]
    requires branch + init == Path(entries, e.parentId)
    ensures Tree(all) && Has(all, e.id)
    ensures Path(all, e.id) == branch + init + [e]
  {
    TreeAppend(entries, e);
    AppendExtendsPath(entries, e);
    assert all[|entries|].id == e.id;
  }

  lemma SplitLast(a: seq<Entry>, es: seq<Entry>)
    requires es != []
    ensures a + es == a + es[..|es| - 1] + [es[|es| - 1]]
  {
  }

  /** A fresh chain below a known leaf grows the tree, and its branch by exactly
      the chain. */
  lemma {:induction false} ChainGrowsTree(entries: seq<Entry>, leaf: string, es: seq<Entry>, all: seq<Entry>, branch: seq<Entry>)
    requires Tree(entries) && LeafKnown(entries, leaf)
    requires Chain(leaf, es) && FreshFor(entries, es)
    requires all == entries + es && branch == Path(entries, leaf) + es
    ensures Tree(all) && LeafKnown(all, LeafAfter(leaf, es))
    ensures Path(all, LeafAfter(leaf, es)) == branch
    decreases |es|
  {
    if es == [] {
      assert all == entries && branch == Path(entries, leaf);
    } else {
      var n := |es| - 1;
      var init, last := es[..n], es[n];
      ChainGrowsTree(entries, leaf, init, entries + init, Path(entries, leaf) + init);
      ChainLink(entries, leaf, init, last);
      SplitLast(entries, es);
      SplitLast(Path(entries, leaf), es);
      ChainStep(entries + init, init, last, all, Path(entries, leaf));
    }
  }

  lemma MessagesOfAppend(a: seq<Entry>, b: seq<Entry>)
    ensures MessagesOf(a + b) == MessagesOf(a) + MessagesOf(b)
  {
  }

  lemma SingleChain(entries: seq<Entry>, leaf: string, e: Entry)
    requires Attachable(entries, e) && e.parentId == leaf
    ensures Chain(leaf, [e]) && FreshFor(entries, [e])
  {
    assert [e][..0] == [];
  }

  // The memory of a session: its branch is the transcript, and only an empty
  // tree has no leaf.
  ghost predicate Committed(entries: seq<Entry>, leaf: string, transcript: seq<Message>) {
    var committed := transcript == MessagesOf(Path(entries, leaf)) && (leaf == "" ==> entries == []);
    committed
  }

  // What the journal has secured includes every entry of the memory; unless a
  // write failed, it also names the same open run.
  ghost predicate Journaled(entries: seq<Entry>, pending: Option<PendingRun>, secured: Secured, stored: Content, poisoned: bool) {
    var journaled := Within(entries, StateOf(secured.records).entries) && (!poisoned ==> stored.pending == pending);
    journaled
  }

  lemma WithinPrefix(entries: seq<Entry>, some: seq<Entry>, all: seq<Entry>)
    requires Within(entries, some) && some <= all
    ensures Within(entries, all)
  {
  }

  // What is secured stays secured.
  lemma StillSecured(entries: seq<Entry>, was: Secured, now: Secured)
    requires Within(entries, StateOf(was.records).entries)
    requires was.records != [] && SecuredGrew(was, now) && Replayed(now.records).Some?
    ensures Within(entries, StateOf(now.records).entries)
  {
    EntriesGrow(was.records, now.records);
  }

  lemma SecuredIsStored(entries: seq<Entry>, f: Format, secured: Secured, disk: Bytes, records: seq<Record>)
    requires Within(entries, StateOf(secured.records).entries)
    requires SecuredOk(f, secured, disk, records) && Replayed(records).Some?
    ensures Within(entries, StateOf(records).entries)
  {
    EntriesGrow(secured.records, records);
  }

  // Committing a chain to memory.
  lemma CommitChain(entries: seq<Entry>, leaf: string, transcript: seq<Message>, es: seq<Entry>)
    requires Tree(entries) && LeafKnown(entries, leaf) && Committed(entries, leaf, transcript)
    requires Chain(leaf, es) && FreshFor(entries, es)
    ensures Tree(entries + es)
    ensures Committed(entries + es, LeafAfter(leaf, es), transcript + MessagesOf(es))
  {
    ChainGrowsTree(entries, leaf, es, entries + es, Path(entries, leaf) + es);
    MessagesOfAppend(Path(entries, leaf), es);
    if es == [] {
      assert entries + es == entries;
    } else {
      NoEmptyId(entries + es);
      assert es[|es| - 1] == (entries + es)[|entries| + |es| - 1];
    }
  }

  datatype Memory = Memory(entries: seq<Entry>, leafId: string, transcript: seq<Message>)

  // A memory and a chain that fits it.
  ghost predicate Fits(was: Memory, es: seq<Entry>) {
    var fits :=
      && Tree(was.entries) && LeafKnown(was.entries, was.leafId) && Committed(was.entries, was.leafId, was.transcript)
      && Chain(was.leafId, es) && FreshFor(was.entries, es);
    fits
  }

  // The first i links of the chain are in memory.
  ghost predicate Committing(now: Memory, was: Memory, es: seq<Entry>, i: nat) {
    var committing :=
      && Fits(was, es)
      && i <= |es|
      && now == Memory(was.entries + es[..i], LeafAfter(was.leafId, es[..i]), was.transcript + MessagesOf(es[..i]));
    committing
  }

  lemma CommitStarts(was: Memory, es: seq<Entry>)
    requires Tree(was.entries) && LeafKnown(was.entries, was.leafId) && Committed(was.entries, was.leafId, was.transcript)
    requires Chain(was.leafId, es) && FreshFor(was.entries, es)
    ensures Committing(was, was, es, 0)
  {
    assert was.entries + es[..0] == was.entries;
    assert was.transcript + MessagesOf(es[..0]) == was.transcript;
  }

  lemma CommitStep(now: Memory, was: Memory, es: seq<Entry>, i: nat)
    requires i < |es| && Committing(now, was, es, i)
    ensures Attachable(now.entries, es[i])
    ensures Committing(Memory(now.entries + [es[i]], es[i].id, now.transcript + [es[i].message]), was, es, i + 1)
  {
    CommitChain(was.entries, was.leafId, was.transcript, es);
    GraftStep(was.entries, es, i);
    assert es[..i + 1] == es[..i] + [es[i]];
    MessagesOfAppend(es[..i], [es[i]]);
  }

  lemma CommitEnds(now: Memory, was: Memory, es: seq<Entry>)
    requires Committing(now, was, es, |es|)
    ensures Committed(now.entries, now.leafId, now.transcript)
    ensures now == Memory(was.entries + es, LeafAfter(was.leafId, es), was.transcript + MessagesOf(es))
  {
    assert es[..|es|] == es;
    CommitChain(was.entries, was.leafId, was.transcript, es);
  }

  lemma ResumedIsCommitted(s: State, path: seq<Entry>)
    requires TreeOk(s) && path == Path(s.entries, RestoredLeaf(s.entries, s.leafId))
    ensures Committed(s.entries, RestoredLeaf(s.entries, s.leafId), MessagesOf(path))
    ensures Within(s.entries, s.entries)
  {
    NoEmptyId(s.entries);
  }

  // Appending a chain to the journal keeps it restorable.
  lemma JournalTakesChain(records: seq<Record>, entries: seq<Entry>, leaf: string, es: seq<Entry>)
    requires records != [] && Sound(records) && Within(entries, StateOf(records).entries)
    requires LeafKnown(entries, leaf) && Chain(leaf, es) && FreshFor(StateOf(records).entries, es)
    ensures Tree(StateOf(records).entries + es)
  {
    SoundTree(records);
    var stored := StateOf(records).entries;
    if leaf != "" {
      WithinHas(entries, stored, leaf);
    }
    ChainGrowsTree(stored, leaf, es, stored + es, Path(stored, leaf) + es);
  }

  // The journal only grew, and is still restorable if the new identifiers were
  // new to it as well.
  ghost predicate Kept(was: Mark, now: Mark, es: seq<Entry>) {
    var kept := Grew(was, now) && (Sound(was.records) && FreshFor(StateOf(was.records).entries, es) ==> Sound(now.records));
    kept
  }

  lemma KeptTwice(a: Mark, b: Mark, c: Mark, es: seq<Entry>)
    requires Kept(a, b, es) && Kept(b, c, [])
    ensures Kept(a, c, es)
  {
    GrewTwice(a, b, c);
  }

  // Messages that can be committed: complete, and with identifiers of their own.
  ghost predicate Committable(entries: seq<Entry>, messages: seq<Message>) {
    messages != [] ==>
      var init, last := messages[..|messages| - 1], messages[|messages| - 1];
      && Committable(entries, init)
      && ValidMessage(last)
      && !Has(entries, last.id)
      && (forall i | 0 <= i < |init| :: init[i].id != last.id)
  }

  lemma {:induction false} CommittablePrefix(entries: seq<Entry>, messages: seq<Message>, i: nat)
    requires Committable(entries, messages) && i <= |messages|
    ensures Committable(entries, messages[..i])
    decreases |messages|
  {
    if i < |messages| {
      var init := messages[..|messages| - 1];
      assert init[..i] == messages[..i];
      CommittablePrefix(entries, init, i);
    } else {
      assert messages[..i] == messages;
    }
  }

  // The entries prepared so far for some messages.
  ghost predicate Prepared(entries: seq<Entry>, leaf: string, messages: seq<Message>, es: seq<Entry>) {
    var prepared :=
      && Committable(entries, messages)
      && Chain(leaf, es)
      && FreshFor(entries, es)
      && MessagesOf(es) == messages;
    prepared
  }

  lemma {:induction false} ChainIds(leaf: string, es: seq<Entry>, id: string)
    requires Chain(leaf, es)
    ensures Has(es, id) <==> exists i :: 0 <= i < |es| && MessagesOf(es)[i].id == id
  {
    if es != [] {
      var n := |es| - 1;
      ChainIds(leaf, es[..n], id);
      assert es == es[..n] + [es[n]];
      HasAppend(es[..n], [es[n]], id);
      assert [es[n]][0] == es[n];
      MessagesOfAppend(es[..n], [es[n]]);
      if i :| 0 <= i < n && MessagesOf(es[..n])[i].id == id {
        assert MessagesOf(es)[i].id == id;
      }
      if i :| 0 <= i < |es| && MessagesOf(es)[i].id == id {
        assert i < n ==> MessagesOf(es[..n])[i].id == id;
      }
    }
  }

  ghost predicate FreshIds(entries: seq<Entry>, messages: seq<Message>) {
    forall i | 0 <= i < |messages| :: !Has(entries, messages[i].id)
  }

  lemma {:induction false} FreshEntries(entries: seq<Entry>, leaf: string, es: seq<Entry>)
    requires Chain(leaf, es) && FreshIds(entries, MessagesOf(es))
    ensures FreshFor(entries, es)
  {
    if es != [] {
      var n := |es| - 1;
      assert es == es[..n] + [es[n]];
      MessagesOfAppend(es[..n], [es[n]]);
      assert MessagesOf(es)[n].id == es[n].id;
      forall i | 0 <= i < n
        ensures !Has(entries, MessagesOf(es[..n])[i].id)
      {
        assert MessagesOf(es)[i] == MessagesOf(es[..n])[i];
      }
      FreshEntries(entries, leaf, es[..n]);
    }
  }

  lemma PrepareStep(entries: seq<Entry>, leaf: string, messages: seq<Message>, es: seq<Entry>, i: nat, e: Entry)
    requires i < |messages| && Prepared(entries, leaf, messages[..i], es)
    requires e.id == e.message.id && e.message == messages[i] && e.timestamp != 0 && e.parentId == LeafAfter(leaf, es)
    ensures ValidEntry(e) && !Has(entries, e.id) && !Has(es, e.id) ==>
              Prepared(entries, leaf, messages[..i + 1], es + [e])
    ensures !(ValidEntry(e) && !Has(entries, e.id) && !Has(es, e.id)) ==> !Committable(entries, messages)
  {
    var next, more := messages[..i + 1], es + [e];
    assert next[..i] == messages[..i] && more[..|es|] == es;
    ChainIds(leaf, es, e.id);
    MessagesOfAppend(es, [e]);
    assert next == messages[..i] + [messages[i]];
    if Committable(entries, messages) {
      CommittablePrefix(entries, messages, i + 1);
    }
  }

  /** A tree for messages that were stored without one: a single chain. It exists
      exactly for complete messages with identifiers of their own. */
  method LinearHistory(messages: seq<Message>, createdAt: nat) returns (h: History, ok: bool)
    requires createdAt != 0
    ensures fresh(h) && h.Valid()
    ensures ok <==> Committable([], messages)
    ensures ok ==> Chain("", h.entries) && Committed(h.entries, h.leafId, messages)
  {
    h := new History();
    ok := true;
    var i := 0;
    while i < |messages|
      invariant 0 <= i <= |messages| && ok && fresh(h) && h.Valid()
      invariant Prepared([], "", messages[..i], h.entries) && h.leafId == LeafAfter("", h.entries)
    {
      var entry := Entry(messages[i].id, h.leafId, createdAt, messages[i]);
      PrepareStep([], "", messages, h.entries, i, entry);
      var error := h.AppendEntry(entry);
      if error.Some? {
        return h, false;
      }
      i := i + 1;
    }
    assert messages[..|messages|] == messages;
    LinearCommitted(h.entries, h.leafId, messages);
  }

  lemma LinearCommitted(es: seq<Entry>, leaf: string, messages: seq<Message>)
    requires Prepared([], "", messages, es) && leaf == LeafAfter("", es)
    ensures Committed(es, leaf, messages)
  {
    CommitChain([], "", [], es);
    assert [] + es == es && [] + MessagesOf(es) == messages;
  }

  // One prompt: what the user says, and what the run hands back.
  datatype Exchange = Exchange(user: Message, result: RunResult, runError: string)

  // What the exchange adds to the transcript.
  function Produced(p: Exchange): seq<Message> {
    var ms := p.result.Messages();
    [p.user] + (if p.result.initialCount <= |ms| then ms[p.result.initialCount..] else [])
  }

  lemma Exchanged(before: seq<Message>, p: Exchange)
    ensures before <= before + [p.user]
    ensures p.result.initialCount <= |p.result.Messages()| ==>
              && before + [p.user] + p.result.Messages()[p.result.initialCount..] == before + Produced(p)
              && before <= before + [p.user] + p.result.Messages()[p.result.initialCount..]
  {
  }

  function Said(prompts: seq<Exchange>): seq<Message> {
    if prompts == [] then [] else Said(prompts[..|prompts| - 1]) + Produced(prompts[|prompts| - 1])
  }

  /** What is said in two conversations, one behind the other. */
  lemma {:induction false} SaidConcat(a: seq<Exchange>, b: seq<Exchange>)
    ensures Said(a + b) == Said(a) + Said(b)
    decreases |b|
  {
    if b == [] {
      assert a + b == a;
    } else {
      var n := |b| - 1;
      SaidConcat(a, b[..n]);
      SaidBehind(a, b, b[..n], b[n]);
    }
  }

  lemma SaidBehind(a: seq<Exchange>, b: seq<Exchange>, init: seq<Exchange>, p: Exchange)
    requires b == init + [p] && Said(a + init) == Said(a) + Said(init)
    ensures Said(a + b) == Said(a) + Said(b)
  {
    assert a + b == (a + init) + [p];
    SaidStep(a + b, a + init, p);
    SaidStep(b, init, p);
    Grown(Said(a), Said(init), Produced(p), Said(a + init), Said(a + b), Said(b));
  }

  lemma SaidNext(prompts: seq<Exchange>, i: nat, start: seq<Message>, before: seq<Message>, now: seq<Message>)
    requires i < |prompts| && before == start + Said(prompts[..i]) && now == before + Produced(prompts[i])
    ensures now == start + Said(prompts[..i + 1])
  {
    OneMorePrompt(prompts, i);
    SaidStep(prompts[..i + 1], prompts[..i], prompts[i]);
    Grown(start, Said(prompts[..i]), Produced(prompts[i]), before, now, Said(prompts[..i + 1]));
  }

  lemma OneMorePrompt(prompts: seq<Exchange>, i: nat)
    requires i < |prompts|
    ensures prompts[..i + 1] == prompts[..i] + [prompts[i]]
  {
  }

  lemma Grown(start: seq<Message>, said: seq<Message>, produced: seq<Message>, before: seq<Message>, now: seq<Message>, more: seq<Message>)
    requires before == start + said && now == before + produced && more == said + produced
    ensures now == start + more
  {
  }

  lemma SaidStep(more: seq<Exchange>, some: seq<Exchange>, p: Exchange)
    requires more == some + [p]
    ensures Said(more) == Said(some) + Produced(p)
  {
    assert more[..|more| - 1] == some;
  }

  // The entry of an identifier is the one in the tree.
  lemma TargetEntry(entries: seq<Entry>, byId: map<string, Entry>, target: string)
    requires Indexed(entries, byId) && target in byId
    ensures byId[target] in entries && byId[target].id == target
    ensures forall e | e in entries && e.id == target :: e == byId[target]
  {
    var i: nat :| i < |entries| && entries[i].id == target;
  }

  predicate WaitsForResults(m: Message) {
    m.Assistant? && m.calls != []
  }

  class Session {
    const history: History
    const journal: File?
    var transcript: seq<Message>
    var context: seq<Message>
    var hasBuilder: bool
    var pending: Option<PendingRun>
    var running: bool

    ghost predicate Valid()
      reads this`transcript, this`pending, history, journal
    {
      var valid :=
        && history.Valid()
        && Committed(history.entries, history.leafId, transcript)
        && (journal != null ==>
              && journal.Valid()
              && Journaled(history.entries, pending, journal.secured, journal.Content(), journal.poisoned));
      valid
    }

    ghost function Remembered(): Content
      reads this`pending, history
    {
      Content(history.entries, history.leafId, pending)
    }

    // Every prefix of the journal can be opened.
    ghost predicate Lasting()
      reads journal
    {
      journal != null ==> journal.Canonical() && Sound(journal.records)
    }

    // Opening these bytes gives back every message of the memory.
    ghost predicate HasAll(data: Bytes)
      reads history, journal
      requires journal != null
    {
      var r := Parse(journal.format, data);
      r.Success? && Within(history.entries, r.value.state.entries)
    }

    // A crash at any byte behind the last successful sync loses no message of the
    // memory.
    ghost predicate Recoverable()
      reads history, journal
    {
      journal != null ==>
        forall n {:trigger journal.disk[..n]} | |journal.secured.bytes| <= n <= |journal.disk| :: HasAll(journal.disk[..n])
    }

    // Opening the journal gives exactly what is in memory.
    ghost predicate Reopens()
      reads this`transcript, this`pending, history, journal
    {
      journal != null ==>
        && Parse(journal.format, journal.disk).Success?
        && var p := Parse(journal.format, journal.disk).value;
           p.state.entries == history.entries && p.state.leafId == history.leafId
           && p.state.pending == pending && p.messages == transcript
    }

    // The journal says exactly what the memory says.
    ghost predicate InSync()
      reads this`transcript, this`pending, history, journal
      requires Valid()
    {
      journal == null || journal.Content() == Remembered()
    }

    /** A new conversation, with or without a journal. It knows nothing of a run
        that the journal may have open. */
    constructor New(j: File?, builder: bool)
      requires j != null ==> j.Valid()
      ensures j != null && !j.poisoned && j.Content().pending.Some? <==> !Valid()
      ensures fresh(history) && journal == j
      ensures history.entries == [] && transcript == [] && pending.None? && !running
    {
      history := new History();
      journal := j;
      transcript, context, hasBuilder, pending, running := [], [], builder, None, false;
    }

    /** The conversation an opened journal holds. An empty leaf in the journal
        resumes at its last entry instead. */
    constructor Resume(state: State, j: File, builder: bool)
      requires TreeOk(state) && j.Valid() && !j.poisoned && j.Flushed() && j.State() == state
      ensures Valid() && fresh(history) && journal == j
      ensures history.entries == state.entries && history.leafId == RestoredLeaf(state.entries, state.leafId)
      ensures pending == state.pending && !running
      ensures InSync() <==> state.leafId != "" || state.entries == []
    {
      var h, ok := History.Restore(state.entries, state.leafId);
      var path := h.ActivePath();
      EmptyLeafIsNotRestored(state.entries, state.leafId);
      ResumedIsCommitted(state, path);
      history, journal := h, j;
      transcript, context := MessagesOf(path), if builder then MessagesOf(path) else [];
      hasBuilder, pending, running := builder, state.pending, false;
    }

    // One entry and its message.
    method CommitEntry(e: Entry) returns (ok: bool)
      requires history.Valid()
      modifies history, this`transcript
      ensures ok <==> Attachable(old(history.entries), e)
      ensures ok ==> history.Valid() && history.entries == old(history.entries) + [e] && history.leafId == e.id
      ensures ok ==> transcript == old(transcript) + [e.message]
    {
      var error := history.AppendEntry(e);
      ok := error.None?;
      if ok {
        transcript := transcript + [e.message];
      }
    }

    /** The conversation of messages stored without a tree, as one chain. */
    constructor ResumeMessages(h: History, messages: seq<Message>, j: File?, attempt: Option<PendingRun>, builder: bool)
      requires h.Valid() && Committed(h.entries, h.leafId, messages) && (j != null ==> j.Valid())
      ensures history == h && journal == j && transcript == messages && pending == attempt && !running
      ensures Valid() <==> j == null || Journaled(h.entries, attempt, j.secured, j.Content(), j.poisoned)
    {
      history, journal, transcript, context := h, j, messages, if builder then messages else [];
      hasBuilder, pending, running := builder, attempt, false;
    }

    // Commits a prepared chain to memory, entry by entry.
    method CommitEntries(es: seq<Entry>) returns (ok: bool)
      requires history.Valid() && Committed(history.entries, history.leafId, transcript)
      requires Chain(history.leafId, es) && FreshFor(history.entries, es)
      modifies history, this`transcript
      ensures ok
      ensures history.Valid() && Committed(history.entries, history.leafId, transcript)
      ensures history.entries == old(history.entries) + es && history.leafId == LeafAfter(old(history.leafId), es)
      ensures transcript == old(transcript) + MessagesOf(es)
    {
      ghost var was := InMemory();
      CommitStarts(was, es);
      ok := true;
      var i := 0;
      while i < |es|
        invariant ok && i <= |es| && history.Valid() && Committing(InMemory(), was, es, i)
      {
        ok := CommitNext(was, es, i);
        if !ok {
          return;
        }
        i := i + 1;
      }
      CommitEnds(InMemory(), was, es);
    }

    ghost function InMemory(): Memory
      reads this`transcript, history
    {
      Memory(history.entries, history.leafId, transcript)
    }

    // The next link of the chain.
    method CommitNext(ghost was: Memory, es: seq<Entry>, i: nat) returns (ok: bool)
      requires i < |es| && history.Valid() && Committing(InMemory(), was, es, i)
      modifies history, this`transcript
      ensures ok && history.Valid() && Committing(InMemory(), was, es, i + 1)
    {
      CommitStep(InMemory(), was, es, i);
      ok := CommitEntry(es[i]);
    }

    ghost function Observed(): Mark
      reads journal
    {
      if journal == null then Mark([], [], Secured([], []), false, false, false) else journal.Observed()
    }

    // Hands a prepared chain to the journal.
    method Persist(es: seq<Entry>) returns (ok: bool)
      requires Valid()
      requires Chain(history.leafId, es) && FreshFor(history.entries, es)
      modifies journal
      ensures Valid() && Kept(old(Observed()), Observed(), es)
      ensures journal != null && ok ==> journal.Content() == Extended(old(journal.Content()), es)
      ensures journal != null && ok && es != [] ==> !journal.poisoned
      ensures journal != null && ok ==> Within(history.entries + es, journal.Durable().entries)
      ensures !ok ==> journal != null
    {
      ok := true;
      if journal != null {
        ghost var stored, records, secured := journal.Content(), journal.records, journal.secured;
        SecuredIsStored(history.entries, journal.format, secured, journal.disk, records);
        if Sound(records) && FreshFor(stored.entries, es) {
          JournalTakesChain(records, history.entries, history.leafId, es);
        }
        var error, appended := journal.AppendEntries(es);
        StillSecured(history.entries, secured, journal.secured);
        WithinGrows(history.entries, stored.entries, es);
        assert es[..|es|] == es;
        assert es == [] ==> history.entries + es == history.entries;
        ok := error.None?;
      }
    }

    // Commits to memory what the journal has just taken.
    method PersistAndCommit(es: seq<Entry>) returns (ok: bool)
      requires Valid()
      requires Chain(history.leafId, es) && FreshFor(history.entries, es)
      modifies history, journal, this`transcript
      ensures Valid() && Kept(old(Observed()), Observed(), es)
      ensures ok ==> history.entries == old(history.entries) + es && history.leafId == LeafAfter(old(history.leafId), es)
      ensures ok ==> transcript == old(transcript) + MessagesOf(es)
      ensures ok && es != [] ==> history.leafId == es[|es| - 1].id
      ensures !ok ==> history.entries == old(history.entries) && history.leafId == old(history.leafId)
      ensures !ok ==> transcript == old(transcript)
      ensures ok && old(InSync()) ==> InSync()
      ensures ok && journal != null && es != [] ==> !journal.poisoned
      ensures !ok ==> journal != null
    {
      ok := Persist(es);
      if ok {
        var committed := CommitEntries(es);
      }
    }

    // Takes the session for one prompt, unless a run is going on or an earlier
    // one was never closed.
    method BeginPrompt(user: Message, now: nat) returns (r: Result<Entry, SessionError>)
      requires Valid() && now != 0
      modifies this`running
      ensures r.Success? ==> !old(running) && pending.None? && running
      ensures r.Success? ==> r.value == Entry(user.id, history.leafId, now, user) && Attachable(history.entries, r.value)
      ensures r.Failure? ==> running == old(running)
      ensures old(running) ==> r == Failure(Busy)
      ensures !old(running) && pending.Some? ==> r == Failure(RecoveryRequired)
      ensures r == Failure(BadMessage) ==> !ValidMessage(user) || user.id == "" || exists e :: e in history.entries && e.id == user.id
      ensures r.Failure? ==> r.error in {Busy, RecoveryRequired, BadMessage}
      ensures r == Failure(Busy) ==> old(running)
      ensures r == Failure(RecoveryRequired) ==> pending.Some?
    {
      if running {
        return Failure(Busy);
      }
      if pending.Some? {
        return Failure(RecoveryRequired);
      }
      var prepared := history.PrepareAppend(user, now);
      if prepared.Failure? {
        return Failure(BadMessage);
      }
      running := true;
      r := Success(prepared.value);
    }

    // Writes the start marker and remembers the attempt.
    method OpenAttempt(attempt: PendingRun) returns (ok: bool)
      requires Valid() && pending.None?
      modifies journal, this`pending
      ensures Valid() && Kept(old(Observed()), Observed(), [])
      ensures pending == if ok then Some(attempt) else None
      ensures ok && old(InSync()) ==> InSync()
      ensures ok && journal != null ==> !journal.poisoned && journal.Flushed() && journal.Content().pending == Some(attempt)
      ensures journal != null ==> journal.Content().entries == old(journal.Content()).entries
      ensures !ok ==> journal != null
    {
      ok := true;
      if journal != null {
        ghost var secured := journal.secured;
        var error := journal.BeginRun(attempt);
        StillSecured(history.entries, secured, journal.secured);
        ok := error.None?;
      }
      if ok {
        pending := Some(attempt);
      }
    }

    // Writes the end marker and forgets the attempt; without the marker on disk
    // the attempt stays open.
    method CloseAttempt(attemptId: string, runId: string, message: string) returns (ok: bool)
      requires Valid() && pending.Some?
      modifies journal, this`pending
      ensures Valid() && Kept(old(Observed()), Observed(), [])
      ensures pending == if ok then None else old(pending)
      ensures ok && old(InSync()) ==> InSync()
      ensures journal != null ==> journal.Content().entries == old(journal.Content()).entries
      ensures journal != null && ok ==> !journal.poisoned && journal.Flushed()
      ensures !ok ==> journal != null
    {
      ok := true;
      if journal != null {
        ghost var secured := journal.secured;
        var error := journal.EndRun(attemptId, runId, message);
        StillSecured(history.entries, secured, journal.secured);
        ok := error.None?;
      }
      if ok {
        pending := None;
      }
    }

    method Admit(user: Message, now: nat) returns (r: Result<Entry, SessionError>)
      requires Valid() && now != 0
      modifies this`running
      ensures r.Success? ==> ValidMessage(user) && !old(running) && pending.None? && running
      ensures r.Success? ==> r.value == Entry(user.id, history.leafId, now, user) && Attachable(history.entries, r.value)
      ensures r.Failure? ==> running == old(running)
      ensures !ValidMessage(user) ==> r == Failure(BadMessage)
      ensures ValidMessage(user) && old(running) ==> r == Failure(Busy)
      ensures ValidMessage(user) && !old(running) && pending.Some? ==> r == Failure(RecoveryRequired)
      ensures r == Failure(BadMessage) ==> !ValidMessage(user) || user.id == "" || exists e :: e in history.entries && e.id == user.id
      ensures r.Failure? ==> r.error in {Busy, RecoveryRequired, BadMessage}
      ensures r == Failure(Busy) ==> old(running)
      ensures r == Failure(RecoveryRequired) ==> pending.Some?
    {
      if !ValidMessage(user) {
        return Failure(BadMessage);
      }
      r := BeginPrompt(user, now);
    }

    /** Starts a run on a new user message: the message is on disk before it is in
        memory, the start marker is on disk before the agent is called. */
    method Start(user: Message, now: nat) returns (error: Option<SessionError>)
      requires Valid() && user.User? && now != 0
      modifies this, history, journal
      ensures Valid() && Kept(old(Observed()), Observed(), [Entry(user.id, old(history.leafId), now, user)])
      ensures old(running) && ValidMessage(user) ==> error == Some(Busy)
      ensures !old(running) && old(pending).Some? && ValidMessage(user) ==> error == Some(RecoveryRequired)
      ensures !ValidMessage(user) ==> error == Some(BadMessage)
      ensures old(running) || old(pending).Some? || !ValidMessage(user) ==>
                Remembered() == old(Remembered()) && running == old(running)
                && (journal != null ==> journal.disk == old(journal.disk))
      ensures error.None? ==> running && transcript == old(transcript) + [user]
      ensures error.None? ==> pending == Some(PendingRun("attempt-" + user.id, user.id, now))
      ensures error.None? && journal != null ==> !journal.poisoned && journal.Flushed() && journal.Content().pending == pending
      ensures error.None? && old(InSync()) ==> InSync()
      ensures error.Some? ==> running == old(running)
      ensures error.Some? && old(!running) ==> transcript == old(transcript) || transcript == old(transcript) + [user]
      ensures old(InSync()) && old(Lasting()) ==> Lasting()
      ensures error == Some(Busy) ==> old(running)
      ensures error == Some(RecoveryRequired) ==> old(pending).Some?
      ensures error == Some(BadMessage) ==> !ValidMessage(user) || user.id == "" || exists e :: e in old(history.entries) && e.id == user.id
      ensures error == Some(NotPersisted) || error == Some(MarkerNotPersisted) ==> journal != null
    {
      var prompt := Admit(user, now);
      if prompt.Failure? {
        return Some(prompt.error);
      }
      SingleChain(history.entries, history.leafId, prompt.value);
      error := StartPrompt(prompt.value, now);
      running := error.None?;
    }

    // What Start does once the session is its own.
    method StartPrompt(entry: Entry, now: nat) returns (error: Option<SessionError>)
      requires Valid() && now != 0 && pending.None?
      requires Chain(history.leafId, [entry]) && FreshFor(history.entries, [entry])
      modifies history, journal, this`transcript, this`context, this`pending
      ensures Valid() && Kept(old(Observed()), Observed(), [entry])
      ensures error.None? ==> transcript == old(transcript) + [entry.message]
      ensures error.None? ==> pending == Some(PendingRun("attempt-" + entry.id, entry.id, now))
      ensures error.None? && journal != null ==> !journal.poisoned && journal.Flushed() && journal.Content().pending == pending
      ensures error.None? && old(InSync()) ==> InSync()
      ensures old(InSync()) && old(Lasting()) ==> Lasting()
      ensures transcript == old(transcript) || transcript == old(transcript) + [entry.message]
      ensures error == Some(NotPersisted) || error == Some(MarkerNotPersisted) ==> journal != null
      ensures error.None? || error == Some(NotPersisted) || error == Some(MarkerNotPersisted) || error == Some(AgentNotStarted)
    {
      ghost var was := Observed();
      var ok := CommitUser(entry);
      if !ok {
        return Some(NotPersisted);
      }
      ghost var between := Observed();
      error := StartAttempt(PendingRun("attempt-" + entry.id, entry.id, now));
      KeptTwice(was, between, Observed(), [entry]);
    }

    // The user's message, on disk and then in memory.
    method CommitUser(entry: Entry) returns (ok: bool)
      requires Valid()
      requires Chain(history.leafId, [entry]) && FreshFor(history.entries, [entry])
      modifies history, journal, this`transcript, this`context
      ensures Valid() && Kept(old(Observed()), Observed(), [entry])
      ensures transcript == if ok then old(transcript) + [entry.message] else old(transcript)
      ensures ok && old(InSync()) ==> InSync()
      ensures !ok ==> journal != null
    {
      assert MessagesOf([entry]) == [entry.message];
      ok := PersistAndCommit([entry]);
      Present(entry.message, ok);
    }

    // With a builder the next context is what the last run saw, and the message
    // that was committed.
    method Present(message: Message, committed: bool)
      modifies this`context
      ensures context == if committed && hasBuilder then old(context) + [message] else old(context)
    {
      if committed && hasBuilder {
        context := context + [message];
      }
    }

    // Opens the attempt and calls the agent.
    method StartAttempt(attempt: PendingRun) returns (error: Option<SessionError>)
      requires Valid() && pending.None?
      modifies journal, this`pending
      ensures Valid() && Kept(old(Observed()), Observed(), [])
      ensures error.None? ==> pending == Some(attempt)
      ensures error.None? && journal != null ==> !journal.poisoned && journal.Flushed() && journal.Content().pending == pending
      ensures error.None? && old(InSync()) ==> InSync()
      ensures error == Some(MarkerNotPersisted) ==> journal != null
      ensures error.None? || error == Some(MarkerNotPersisted) || error == Some(AgentNotStarted)
    {
      ghost var was := Observed();
      var ok := OpenAttempt(attempt);
      if !ok {
        return Some(MarkerNotPersisted);
      }
      error := None;
      if * {
        // The agent refused to start; only a durable end marker clears the attempt.
        ghost var between := Observed();
        ok := CloseAttempt(attempt.attemptId, "", "not started");
        KeptTwice(was, between, Observed(), []);
        error := Some(AgentNotStarted);
      }
    }

    // Turns new messages into a chain below the leaf without touching the tree.
    method PrepareEntries(messages: seq<Message>, now: nat) returns (r: Option<seq<Entry>>)
      requires history.Valid() && now != 0
      ensures r.Some? <==> Committable(history.entries, messages)
      ensures r.Some? ==> Chain(history.leafId, r.value) && FreshFor(history.entries, r.value)
      ensures r.Some? ==> MessagesOf(r.value) == messages
      ensures r.Some? ==> forall e | e in r.value :: e.timestamp == now && e.id == e.message.id
    {
      var parentId := history.leafId;
      var entries: seq<Entry> := [];
      var i := 0;
      while i < |messages|
        invariant 0 <= i <= |messages|
        invariant Prepared(history.entries, history.leafId, messages[..i], entries)
        invariant parentId == LeafAfter(history.leafId, entries)
        invariant forall e | e in entries :: e.timestamp == now && e.id == e.message.id
      {
        var message := messages[i];
        var entry := Entry(message.id, parentId, now, message);
        PrepareStep(history.entries, history.leafId, messages, entries, i, entry);
        HasIffIndexed(history.entries, history.byId, entry.id);
        if !ValidEntry(entry) || entry.id in history.byId || Has(entries, entry.id) {
          return None;
        }
        entries := entries + [entry];
        parentId := entry.id;
        i := i + 1;
      }
      assert messages[..|messages|] == messages;
      r := Some(entries);
    }

    /** Takes the outcome of the run back: the whole batch goes to the journal,
        then to memory, then the attempt is closed. Any failure leaves the attempt
        open; in any case the prompt is over. */
    method CommitRun(result: RunResult, runError: string, now: nat) returns (r: RunResult, error: Option<SessionError>)
      requires Valid() && running && pending.Some? && now != 0
      modifies history, journal, this`transcript, this`context, this`pending, this`running
      ensures Valid() && !running
      ensures error.None? ==> pending.None? && (journal != null ==> !journal.poisoned && journal.Flushed())
      ensures error.None? || error == Some(MarkerNotPersisted) ==>
                && result.initialCount <= |result.Messages()|
                && transcript == old(transcript) + result.Messages()[result.initialCount..]
      ensures (error.None? || error == Some(MarkerNotPersisted)) && result.prefix.None? ==>
                result.initialCount <= |result.messages| && transcript == old(transcript) + result.messages[result.initialCount..]
      ensures error.None? && result.prefix.None? ==> r.Messages() == transcript
      ensures error.None? && hasBuilder ==> context == result.Messages()
      ensures error.None? && old(InSync()) ==> InSync()
      ensures error.Some? ==> pending == old(pending)
      ensures error.Some? && error != Some(MarkerNotPersisted) ==> transcript == old(transcript)
      ensures Grew(old(Observed()), Observed())
      ensures journal != null && old(Sound(journal.records)) && result.initialCount <= |result.Messages()|
              && FreshIds(old(journal.Content()).entries, result.Messages()[result.initialCount..]) ==>
                Sound(journal.records)
      ensures old(InSync()) && old(Lasting()) ==> Lasting()
      ensures error == Some(ShortResult) <==> |result.Messages()| < result.initialCount
      ensures error == Some(BadMessage) <==>
                result.initialCount <= |result.Messages()|
                && !Committable(old(history.entries), result.Messages()[result.initialCount..])
      ensures error == Some(NotPersisted) || error == Some(MarkerNotPersisted) ==> journal != null
      ensures error.Some? ==> error.value in {ShortResult, BadMessage, NotPersisted, MarkerNotPersisted}
    {
      r, error := CommitResult(result, runError, now);
      running := false;
    }

    // What CommitRun does before it ends the prompt.
    method CommitResult(result: RunResult, runError: string, now: nat) returns (r: RunResult, error: Option<SessionError>)
      requires Valid() && pending.Some? && now != 0
      modifies history, journal, this`transcript, this`context, this`pending
      ensures Valid()
      ensures error.None? ==> pending.None? && (journal != null ==> !journal.poisoned && journal.Flushed())
      ensures error.None? || error == Some(MarkerNotPersisted) ==>
                && result.initialCount <= |result.Messages()|
                && transcript == old(transcript) + result.Messages()[result.initialCount..]
      ensures (error.None? || error == Some(MarkerNotPersisted)) && result.prefix.None? ==>
                result.initialCount <= |result.messages| && transcript == old(transcript) + result.messages[result.initialCount..]
      ensures error.None? && result.prefix.None? ==> r.Messages() == transcript
      ensures error.None? && hasBuilder ==> context == result.Messages()
      ensures error.None? && old(InSync()) ==> InSync()
      ensures error.Some? ==> pending == old(pending)
      ensures error.Some? && error != Some(MarkerNotPersisted) ==> transcript == old(transcript)
      ensures Grew(old(Observed()), Observed())
      ensures journal != null && old(Sound(journal.records)) && result.initialCount <= |result.Messages()|
              && FreshIds(old(journal.Content()).entries, result.Messages()[result.initialCount..]) ==>
                Sound(journal.records)
      ensures old(InSync()) && old(Lasting()) ==> Lasting()
      ensures error == Some(ShortResult) <==> |result.Messages()| < result.initialCount
      ensures error == Some(BadMessage) <==>
                result.initialCount <= |result.Messages()|
                && !Committable(old(history.entries), result.Messages()[result.initialCount..])
      ensures error == Some(NotPersisted) || error == Some(MarkerNotPersisted) ==> journal != null
      ensures error.Some? ==> error.value in {ShortResult, BadMessage, NotPersisted, MarkerNotPersisted}
    {
      var messages := result.Messages();
      r := result;
      if |messages| < result.initialCount {
        return r, Some(ShortResult);
      }
      var produced := messages[result.initialCount..];
      var prepared := PrepareEntries(produced, now);
      if prepared.None? {
        return r, Some(BadMessage);
      }
      r := result.WithTranscriptPrefix(transcript);
      if journal != null && FreshIds(journal.Content().entries, produced) {
        FreshEntries(journal.Content().entries, history.leafId, prepared.value);
      }
      error := CommitProduced(prepared.value, messages, result.runId, runError);
    }

    // The batch is on disk, and then it and the new context are in memory.
    method CommitMessages(es: seq<Entry>, messages: seq<Message>) returns (ok: bool)
      requires Valid()
      requires Chain(history.leafId, es) && FreshFor(history.entries, es)
      modifies history, journal, this`transcript, this`context
      ensures Valid() && Kept(old(Observed()), Observed(), es)
      ensures transcript == if ok then old(transcript) + MessagesOf(es) else old(transcript)
      ensures context == if ok && hasBuilder then messages else old(context)
      ensures ok && old(InSync()) ==> InSync()
      ensures !ok ==> journal != null
    {
      ok := PersistAndCommit(es);
      context := if ok && hasBuilder then messages else context;
    }

    method CommitProduced(es: seq<Entry>, messages: seq<Message>, runId: string, runError: string)
      returns (error: Option<SessionError>)
      requires Valid() && pending.Some?
      requires Chain(history.leafId, es) && FreshFor(history.entries, es)
      modifies history, journal, this`transcript, this`context, this`pending
      ensures Valid() && Kept(old(Observed()), Observed(), es)
      ensures error.None? ==> pending.None? && (journal != null ==> !journal.poisoned && journal.Flushed())
      ensures error != Some(NotPersisted) ==> transcript == old(transcript) + MessagesOf(es)
      ensures error.None? && old(InSync()) ==> InSync()
      ensures error.Some? ==> pending == old(pending)
      ensures error.None? || error == Some(NotPersisted) || error == Some(MarkerNotPersisted)
      ensures error == Some(NotPersisted) ==> transcript == old(transcript)
      ensures error.None? && hasBuilder ==> context == messages
      ensures error.Some? ==> journal != null
    {
      ghost var was := Observed();
      var ok := CommitMessages(es, messages);
      if !ok {
        return Some(NotPersisted);
      }
      ghost var between := Observed();
      ok := CloseAttempt(pending.value.attemptId, runId, runError);
      KeptTwice(was, between, Observed(), es);
      error := if ok then None else Some(MarkerNotPersisted);
    }

    /** A whole prompt: the user's message, a run of the agent, and what it produced.
        Whether it fails or not, the session is free again afterwards. */
    method Prompt(p: Exchange, now: nat) returns (error: Option<SessionError>)
      requires Valid() && !running && now != 0 && p.user.User?
      modifies this, history, journal
      ensures Valid() && !running
      ensures error.None? ==> pending.None? && transcript == old(transcript) + Produced(p)
      ensures error.None? && p.result.prefix.None? && p.result.initialCount <= |p.result.messages| ==>
                transcript == old(transcript) + [p.user] + p.result.messages[p.result.initialCount..]
      ensures error.None? && journal != null ==> !journal.poisoned && journal.Flushed()
      ensures error.None? && old(InSync()) ==> InSync() && Reopens()
      ensures old(InSync()) && old(Lasting()) ==> Lasting() && Recoverable()
      ensures old(pending).Some? ==> error.Some?
      ensures error.Some? ==> old(transcript) <= transcript
    {
      error := RunPrompt(p, now);
      if Lasting() {
        MemorySurvives();
      }
      if error.None? && InSync() {
        ReopeningGivesTheSameState();
      }
    }

    method RunPrompt(p: Exchange, now: nat) returns (error: Option<SessionError>)
      requires Valid() && !running && now != 0 && p.user.User?
      modifies this, history, journal
      ensures Valid() && !running
      ensures error.None? ==> pending.None? && transcript == old(transcript) + Produced(p)
      ensures error.None? && p.result.prefix.None? && p.result.initialCount <= |p.result.messages| ==>
                transcript == old(transcript) + [p.user] + p.result.messages[p.result.initialCount..]
      ensures error.None? && journal != null ==> !journal.poisoned && journal.Flushed()
      ensures error.None? && old(InSync()) ==> InSync()
      ensures old(InSync()) && old(Lasting()) ==> Lasting()
      ensures old(pending).Some? ==> error.Some?
      ensures error.Some? ==> old(transcript) <= transcript
    {
      error := Start(p.user, now);
      if error.Some? {
        return;
      }
      var result;
      result, error := CommitRun(p.result, p.runError, now);
      Exchanged(old(transcript), p);
    }

    /** Any number of prompts, up to the first that fails: the transcript is what was
        said, in order, and the journal keeps saying the same as the memory. */
    method Converse(prompts: seq<Exchange>, now: nat) returns (done: nat, error: Option<SessionError>)
      requires Valid() && !running && now != 0
      requires forall i | 0 <= i < |prompts| :: prompts[i].user.User?
      modifies this, history, journal
      ensures Valid() && !running && done <= |prompts|
      ensures error.None? <==> done == |prompts|
      ensures error.None? ==> transcript == old(transcript) + Said(prompts)
      ensures old(transcript) + Said(prompts[..done]) <= transcript
      ensures error.None? && prompts != [] ==> pending.None?
      ensures error.None? && prompts != [] && journal != null ==> !journal.poisoned && journal.Flushed()
      ensures error.None? && old(InSync()) ==> InSync() && (prompts != [] ==> Reopens())
      ensures old(InSync()) && old(Lasting()) ==> Lasting() && Recoverable()
    {
      done, error := 0, None;
      if Lasting() {
        MemorySurvives();
      }
      while done < |prompts|
        invariant Valid() && !running && done <= |prompts| && error.None?
        invariant transcript == old(transcript) + Said(prompts[..done])
        invariant done > 0 ==> pending.None? && (journal != null ==> !journal.poisoned && journal.Flushed())
        invariant old(InSync()) ==> InSync() && (done > 0 ==> Reopens())
        invariant old(InSync()) && old(Lasting()) ==> Lasting() && Recoverable()
      {
        ghost var before := transcript;
        error := Prompt(prompts[done], now);
        if error.Some? {
          return;
        }
        SaidNext(prompts, done, old(transcript), before, transcript);
        done := done + 1;
      }
      assert prompts[..|prompts|] == prompts;
    }

    /** Moves the conversation to another message of the tree. */
    method BranchTo(target: string) returns (error: Option<SessionError>)
      requires Valid()
      modifies history, journal, this`transcript, this`context
      ensures Valid() && Kept(old(Observed()), Observed(), [])
      ensures history.entries == old(history.entries)
      ensures error == Some(Busy) <==> running
      ensures !running ==> (error == Some(UnknownTarget) <==> forall e | e in history.entries :: e.id != target)
      ensures !running ==>
                (error == Some(PendingToolCalls) <==>
                   exists e :: e in history.entries && e.id == target && e.message.Assistant? && e.message.calls != [])
      ensures error.None? ==> transcript == MessagesOf(Path(history.entries, target))
      ensures error.None? ==> Has(history.entries, target) && history.leafId == target
      ensures error.None? ==> (hasBuilder ==> context == transcript)
      ensures error.None? && journal != null ==> !journal.poisoned && journal.Flushed()
      ensures error.None? && old(InSync()) ==> InSync()
      ensures error.Some? ==> history.leafId == old(history.leafId) && transcript == old(transcript)
      ensures error == Some(NotPersisted) ==> journal != null
      ensures error.Some? ==> error.value in {Busy, UnknownTarget, PendingToolCalls, NotPersisted}
    {
      if running {
        return Some(Busy);
      }
      error := FindTarget(target);
      if error.Some? {
        return;
      }
      var ok := PersistHead(target);
      if !ok {
        return Some(NotPersisted);
      }
      error := SwitchTo(target);
    }

    // A target is a message of the tree that does not wait for the results of its
    // calls.
    method FindTarget(target: string) returns (error: Option<SessionError>)
      requires Valid()
      ensures error == Some(UnknownTarget) <==> forall e | e in history.entries :: e.id != target
      ensures error == Some(PendingToolCalls) <==>
                exists e :: e in history.entries && e.id == target && e.message.Assistant? && e.message.calls != []
      ensures error.None? || error == Some(UnknownTarget) || error == Some(PendingToolCalls)
      ensures error.None? ==> Has(history.entries, target)
    {
      HasIffIndexed(history.entries, history.byId, target);
      if target !in history.byId {
        return Some(UnknownTarget);
      }
      TargetEntry(history.entries, history.byId, target);
      error := if WaitsForResults(history.byId[target].message) then Some(PendingToolCalls) else None;
    }

    /** Closes an attempt the caller has looked into. */
    method ResolveRecovery(note: string) returns (error: Option<SessionError>)
      requires Valid()
      modifies journal, this`pending
      ensures Valid() && Kept(old(Observed()), Observed(), [])
      ensures error.None? ==> pending.None?
      ensures error.Some? ==> pending == old(pending)
      ensures running ==> error == Some(Busy)
      ensures error.None? && old(InSync()) ==> InSync()
      ensures error == Some(Busy) <==> running
      ensures error.Some? ==> error == Some(Busy) || (error == Some(MarkerNotPersisted) && journal != null && pending.Some?)
    {
      if running {
        return Some(Busy);
      }
      if pending.None? {
        return None;
      }
      if journal != null {
        ghost var secured := journal.secured;
        var failed := journal.ResolveRun(pending.value.attemptId, note);
        StillSecured(history.entries, secured, journal.secured);
        if failed.Some? {
          return Some(MarkerNotPersisted);
        }
      }
      pending := None;
      error := None;
    }

    /** Replaces the context policy between runs; the next run starts from the
        whole transcript. */
    method SetContextBuilder(builder: bool) returns (error: Option<SessionError>)
      modifies this`hasBuilder, this`context
      ensures running ==> error == Some(Busy) && hasBuilder == old(hasBuilder) && context == old(context)
      ensures !running ==> error.None? && hasBuilder == builder && context == if builder then transcript else []
    {
      if running {
        return Some(Busy);
      }
      hasBuilder := builder;
      context := if builder then transcript else [];
      error := None;
    }

    // The head record is on disk before the branch moves in memory.
    method PersistHead(target: string) returns (ok: bool)
      requires Valid() && Has(history.entries, target)
      modifies journal
      ensures Valid() && Kept(old(Observed()), Observed(), [])
      ensures ok && journal != null ==>
                !journal.poisoned && journal.Flushed() && journal.Content() == old(journal.Content()).(leafId := target)
      ensures !ok ==> journal != null
    {
      ok := true;
      if journal != null {
        ghost var secured := journal.secured;
        SecuredIsStored(history.entries, journal.format, secured, journal.disk, journal.records);
        WithinHas(history.entries, journal.Content().entries, target);
        var error := journal.SetHead(target);
        StillSecured(history.entries, secured, journal.secured);
        ok := error.None?;
      }
    }

    method SwitchTo(target: string) returns (error: Option<SessionError>)
      requires Valid() && Has(history.entries, target)
      modifies history`leafId, this`transcript, this`context
      ensures Valid() && error.None? && history.leafId == target
      ensures hasBuilder ==> context == transcript
      ensures transcript == MessagesOf(Path(history.entries, target))
    {
      NoEmptyId(history.entries);
      var moved := history.SetLeaf(target);
      var path := history.ActivePath();
      transcript := MessagesOf(path);
      if hasBuilder {
        context := MessagesOf(path);
      }
      error := None;
    }

    /** A clean journal that says what the memory says reopens to it. */
    lemma ReopeningGivesTheSameState()
      requires Valid() && InSync() && (journal != null ==> !journal.poisoned)
      ensures Reopens()
    {
      if journal != null {
        RestoreIff(journal.records);
      }
    }

    /** Whatever has failed, and however much of the file a crash takes behind the
        last successful sync: opening the rest gives back every message of the
        memory. */
    lemma MemorySurvives()
      requires Valid() && Lasting()
      ensures Recoverable()
    {
      if journal != null {
        forall n {:trigger journal.disk[..n]} | |journal.secured.bytes| <= n <= |journal.disk|
          ensures HasAll(journal.disk[..n])
        {
          var k := journal.SecuredSurvives(n);
          WithinPrefix(history.entries, journal.Durable().entries, Parse(journal.format, journal.disk[..n]).value.state.entries);
        }
      }
    }
  }
}
