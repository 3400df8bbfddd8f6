/** One context builder over the whole life of a conversation. */
module ContextLife {
  import opened Messages
  import opened SessionTree
  import opened ContextWindow
  import opened ContextCoverage

  // The tree, the active branch and its transcript, and what the session presents
  // to the builder: the transcript, or a summary and the transcript from k on.
  datatype Told = Told(entries: seq<Entry>, leaf: string, transcript: seq<Message>, ms: seq<Message>, k: nat)

  ghost predicate NoSummaryIds(entries: seq<Entry>) {
    forall i {:trigger entries[i]} | 0 <= i < |entries| :: entries[i].id != SUMMARY_ID
  }

  lemma BranchIds(entries: seq<Entry>, leaf: string, transcript: seq<Message>)
    requires IsBranch(entries, leaf, transcript) && NoSummaryIds(entries)
    ensures forall i | 0 <= i < |transcript| :: transcript[i].id != SUMMARY_ID
  {
    forall i | 0 <= i < |transcript|
      ensures transcript[i].id != SUMMARY_ID
    {
      BranchEntry(entries, leaf, transcript, i);
      var j :| 0 <= j < |entries| && entries[j].id == transcript[i].id;
    }
  }

  ghost predicate CheckpointOk(entries: seq<Entry>, c: Option<Checkpoint>, covered: seq<Message>) {
    var ok := c.Some? ==> Covers(entries, c.value, covered) && c.value.firstKeptId != SUMMARY_ID && c.value.summary != "";
    ok
  }

  // Between two moves: the checkpoint summarizes what precedes its first kept
  // message, and it is found in what is presented, unless that is everything.
  ghost predicate InHand(t: Told, c: Option<Checkpoint>, covered: seq<Message>) {
    var ok :=
      && IsBranch(t.entries, t.leaf, t.transcript) && NoSummaryIds(t.entries)
      && Presents(t.ms, t.transcript, t.k)
      && CheckpointOk(t.entries, c, covered)
      && (t.ms == t.transcript || Found(c, t.ms));
    ok
  }

  // The view is the transcript, or a summary of exactly its first messages and the
  // rest of it.
  ghost predicate ShowsAll(view: seq<Message>, transcript: seq<Message>, c: Option<Checkpoint>, covered: seq<Message>) {
    var shows :=
      || view == transcript
      || (c.Some?
          && |covered| < |transcript| && covered == transcript[..|covered|]
          && transcript[|covered|].id == c.value.firstKeptId
          && view == Projected(c.value.summary, transcript[|covered|..]));
    shows
  }

  // A Build that asked the summarizer nothing.
  lemma Unasked(t: Told, was: Option<Checkpoint>, before: seq<Message>, now: Option<Checkpoint>, covered: seq<Message>, start: nat)
    requires InHand(t, was, before) && start == StartOf(was, t.ms)
    requires now == was || (now.None? && !Found(was, t.ms))
    requires now.Some? ==> covered == before
    ensures InHand(t, now, covered) && start <= |t.ms|
    ensures ShowsAll(Projected(SummaryOf(was, t.ms), t.ms[start..]), t.transcript, now, covered)
  {
    if Found(was, t.ms) {
      BranchIds(t.entries, t.leaf, t.transcript);
      FoundAt(t.entries, t.leaf, t.transcript, t.ms, t.k, was.value);
      var p := Place(t.ms, t.transcript, t.k, start);
      FoundCheckpointCovers(t.entries, t.leaf, t.transcript, was.value, before, p);
    } else {
      assert t.ms[0..] == t.ms;
    }
  }

  // A Build that summarized the messages up to `end`.
  lemma Summarized(t: Told, was: Option<Checkpoint>, before: seq<Message>, now: Checkpoint, covered: seq<Message>,
                   end: nat, inputs: seq<Message>)
    requires InHand(t, was, before) && StartOf(was, t.ms) <= end < |t.ms|
    requires inputs == t.ms[StartOf(was, t.ms)..end] && covered == CoveredAt(was, before, t.ms) + inputs
    requires now.firstKeptId == t.ms[end].id && now.summary != ""
    ensures InHand(t, Some(now), covered)
    ensures ShowsAll(Projected(now.summary, t.ms[end..]), t.transcript, Some(now), covered)
  {
    BranchIds(t.entries, t.leaf, t.transcript);
    var p := Place(t.ms, t.transcript, t.k, end);
    BuildCovers(t.entries, t.leaf, t.transcript, t.ms, t.k, was, before, end, inputs, now, covered, p);
    assert t.ms[end] == t.ms[end..][0] == t.transcript[p..][0];
  }

  lemma AfterBuild(t: Told, was: Option<Checkpoint>, before: seq<Message>, config: Config, c: Counter, end: nat,
                   requests: seq<Request>, replies: seq<string>, budget: int, now: Option<Checkpoint>, covered: seq<Message>)
    requires InHand(t, was, before)
    requires Compacted(config, c, t.ms, StartOf(was, t.ms), SummaryOf(was, t.ms), end, requests, replies, budget, now)
    requires requests == [] ==> now == was || (now.None? && !Found(was, t.ms))
    requires now.Some? ==> covered == if requests == [] then before else CoveredAt(was, before, t.ms) + Inputs(requests)
    ensures InHand(t, now, covered) && end <= |t.ms|
    ensures ShowsAll(Projected(Latest(SummaryOf(was, t.ms), replies), t.ms[end..]), t.transcript, now, covered)
  {
    if requests == [] {
      assert |t.ms[StartOf(was, t.ms)..end]| == 0;
      Unasked(t, was, before, now, covered, end);
    } else {
      assert !IsBlank(replies[|replies| - 1]);
      Summarized(t, was, before, now.value, covered, end, Inputs(requests));
    }
  }

  // The session goes on from the view.
  lemma Adopted(t: Told, c: Option<Checkpoint>, covered: seq<Message>, view: seq<Message>, u: Told)
    requires InHand(t, c, covered) && ShowsAll(view, t.transcript, c, covered)
    requires u == t.(ms := view, k := if view == t.transcript then 0 else |covered|)
    ensures InHand(u, c, covered)
  {
    if view != t.transcript {
      var tail := t.transcript[|covered|..];
      BranchIds(t.entries, t.leaf, t.transcript);
      ViewPresents(t.transcript, tail, |covered|, c.value.summary, []);
      assert view + [] == view && t.transcript + [] == t.transcript;
      assert view[1] == tail[0];
    }
  }

  lemma StillFound(c: Option<Checkpoint>, ms: seq<Message>, m: Message)
    requires Found(c, ms)
    ensures Found(c, ms + [m])
  {
    var i := LastIndex(ms, c.value.firstKeptId);
    assert (ms + [m])[i].id == c.value.firstKeptId;
  }

  // A message is added below the leaf.
  lemma Said(t: Told, c: Option<Checkpoint>, covered: seq<Message>, e: Entry, u: Told)
    requires InHand(t, c, covered)
    requires Attachable(t.entries, e) && e.parentId == t.leaf && e.id != SUMMARY_ID
    requires u == Told(t.entries + [e], e.id, t.transcript + [e.message], t.ms + [e.message], t.k)
    ensures InHand(u, c, covered)
  {
    SaidBranch(t.entries, t.leaf, t.transcript, e, u.entries, u.transcript);
    if c.Some? {
      GrowingKeepsCover(t.entries, e, c.value, covered);
    }
    SaidPresents(t.ms, t.transcript, t.k, e.message, u.ms, u.transcript);
    if t.ms != t.transcript {
      StillFound(c, t.ms, e.message);
    }
  }

  lemma SaidBranch(entries: seq<Entry>, leaf: string, transcript: seq<Message>, e: Entry, all: seq<Entry>, more: seq<Message>)
    requires IsBranch(entries, leaf, transcript) && NoSummaryIds(entries)
    requires Attachable(entries, e) && e.parentId == leaf && e.id != SUMMARY_ID
    requires all == entries + [e] && more == transcript + [e.message]
    ensures IsBranch(all, e.id, more) && NoSummaryIds(all)
  {
    TreeAppend(entries, e);
    AppendExtendsPath(entries, e);
    assert all[|entries|].id == e.id;
    assert MessagesOf(Path(entries, leaf) + [e]) == more;
  }

  lemma SaidPresents(ms: seq<Message>, transcript: seq<Message>, k: nat, m: Message, now: seq<Message>, more: seq<Message>)
    requires Presents(ms, transcript, k) && now == ms + [m] && more == transcript + [m]
    ensures Presents(now, more, k) && (now == more <==> ms == transcript)
  {
    if ms != transcript {
      assert now[..|ms|] == ms && more[..|transcript|] == transcript;
      assert now[1..] == ms[1..] + [m] && more[k..] == transcript[k..] + [m];
    }
  }

  // The conversation moves to another branch and starts from its whole transcript.
  lemma Moved(t: Told, c: Option<Checkpoint>, covered: seq<Message>, leaf: string, u: Told)
    requires InHand(t, c, covered) && LeafKnown(t.entries, leaf)
    requires u.entries == t.entries && u.leaf == leaf && u.k == 0
    requires u.transcript == u.ms == MessagesOf(Path(t.entries, leaf))
    ensures InHand(u, c, covered)
  {
  }

  datatype Move = Say(entry: Entry) | Branch(leaf: string) | Build(input: Input, cancelled: bool, adopt: bool)

  // A view that a Build returned, and what it was made from.
  datatype Shown = Shown(view: seq<Message>, transcript: seq<Message>, checkpoint: Option<Checkpoint>, covered: seq<Message>)

  // One Build: its view shows the whole transcript.
  method View(b: Builder, input: Input, cancelled: bool, ghost t: Told) returns (r: Result<seq<Message>, BuildError>)
    requires ValidConfig(b.config) && InHand(t, b.checkpoint, b.covered) && input.messages == t.ms
    modifies b
    ensures InHand(t, b.checkpoint, b.covered)
    ensures r.Success? ==> ShowsAll(r.value, t.transcript, b.checkpoint, b.covered)
    ensures r.Success? ==> Tokens(b.counter, r.value) <= Budget(b.config, b.counter, input)
  {
    ghost var was, before := b.checkpoint, b.covered;
    ghost var end, requests, replies;
    r, end, requests, replies := b.Build(input, cancelled);
    AfterBuild(t, was, before, b.config, b.counter, end, requests, replies, Budget(b.config, b.counter, input), b.checkpoint, b.covered);
  }

  /** One Build; the session may go on from its view. */
  method BuildOnce(b: Builder, input: Input, cancelled: bool, adopt: bool, ghost t: Told)
    returns (ms: seq<Message>, ghost u: Told, ghost shown: seq<Shown>)
    requires ValidConfig(b.config) && InHand(t, b.checkpoint, b.covered) && input.messages == t.ms
    modifies b
    ensures InHand(u, b.checkpoint, b.covered) && u == t.(ms := ms, k := u.k)
    ensures AllShow(shown) && |shown| <= 1
    ensures shown != [] ==>
              && shown[0].transcript == t.transcript && (adopt ==> shown[0].view == ms)
              && Tokens(b.counter, shown[0].view) <= Budget(b.config, b.counter, input)
    ensures shown == [] || !adopt ==> u == t
  {
    ms, u, shown := input.messages, t, [];
    var r := View(b, input, cancelled, t);
    if r.Success? {
      shown := [Shown(r.value, t.transcript, b.checkpoint, b.covered)];
      if adopt {
        ms := r.value;
        u := t.(ms := ms, k := if ms == t.transcript then 0 else |b.covered|);
        Adopted(t, b.checkpoint, b.covered, ms, u);
      }
    }
  }

  ghost predicate AllShow(shown: seq<Shown>) {
    forall i {:trigger shown[i]} | 0 <= i < |shown| ::
      ShowsAll(shown[i].view, shown[i].transcript, shown[i].checkpoint, shown[i].covered)
  }

  // What the session does to its tree before the next Build, if it can be done.
  method TellOnce(h: History, ms: seq<Message>, move: Move, b: Builder, ghost t: Told) returns (next: seq<Message>, ghost u: Told)
    requires !move.Build? && h.Valid() && h.entries == t.entries && h.leafId == t.leaf && ms == t.ms
    requires InHand(t, b.checkpoint, b.covered)
    modifies h
    ensures h.Valid() && h.entries == u.entries && h.leafId == u.leaf && next == u.ms
    ensures InHand(u, b.checkpoint, b.covered)
  {
    next, u := ms, t;
    match move
    case Say(e) =>
      if e.parentId == h.leafId && e.id != SUMMARY_ID {
        var error := h.AppendEntry(e);
        if error.None? {
          next := ms + [e.message];
          u := Told(h.entries, e.id, t.transcript + [e.message], next, t.k);
          Said(t, b.checkpoint, b.covered, e, u);
        }
      }
    case Branch(leaf) =>
      var error := h.SetLeaf(leaf);
      if error.None? {
        var path := h.ActivePath();
        next := MessagesOf(path);
        u := Told(h.entries, leaf, next, next, 0);
        Moved(t, b.checkpoint, b.covered, leaf, u);
      }
  }

  /** A whole life: messages are said, branches switched and views built in any
      order, the session going on from a view or from its transcript, with or without
      a checkpoint to start from. Every view
      fits together with its checkpoint: it is the transcript of that moment, or a
      summary of exactly its first messages followed by all the others. */
  method Live(b: Builder, h: History, moves: seq<Move>) returns (ms: seq<Message>, ghost t: Told, ghost shown: seq<Shown>)
    requires ValidConfig(b.config) && CheckpointOk(h.entries, b.checkpoint, b.covered)
    requires h.Valid() && NoSummaryIds(h.entries)
    modifies b, h
    ensures h.Valid() && h.entries == t.entries && h.leafId == t.leaf && ms == t.ms
    ensures InHand(t, b.checkpoint, b.covered) && AllShow(shown)
  {
    var path := h.ActivePath();
    ms := MessagesOf(path);
    t, shown := Told(h.entries, h.leafId, ms, ms, 0), [];
    for i := 0 to |moves|
      invariant h.Valid() && h.entries == t.entries && h.leafId == t.leaf && ms == t.ms
      invariant InHand(t, b.checkpoint, b.covered) && AllShow(shown)
    {
      if moves[i].Build? {
        ghost var more;
        ms, t, more := BuildOnce(b, moves[i].input.(messages := ms), moves[i].cancelled, moves[i].adopt, t);
        shown := shown + more;
      } else {
        ms, t := TellOnce(h, ms, moves[i], b, t);
      }
    }
  }
}
