/** What the summary of a view stands for, over the branches of a message tree. */
module ContextCoverage {
  import opened Messages
  import opened SessionTree
  import opened ContextWindow

  /** A view that starts at a user or assistant message keeps no result without
      its call. */
  lemma TailKeepsCalls(ms: seq<Message>, k: nat)
    requires ResultsFollowCalls(ms) && k < |ms| && !ms[k].ToolResult?
    ensures ResultsFollowCalls(ms[k..])
  {
    var tail := ms[k..];
    forall i | 0 <= i < |tail| && tail[i].ToolResult?
      ensures exists j | 0 <= j < i :: Answers(tail, j, i)
    {
      assert ms[k + i] == tail[i];
      var j: nat :| j < k + i && Answers(ms, j, k + i);
      assert k <= j;
      assert Answers(tail, j - k, i);
    }
  }

  lemma AnswersShifted(tail: seq<Message>, view: seq<Message>, j: nat, i: nat)
    requires j < i < |tail| && Answers(tail, j, i)
    requires |view| == |tail| + 1 && view[1..] == tail
    ensures Answers(view, j + 1, i + 1)
  {
    assert forall x {:trigger view[x]} | 0 < x < |view| :: view[x] == tail[x - 1];
  }

  lemma PrefixedKeepsCalls(tail: seq<Message>, view: seq<Message>)
    requires ResultsFollowCalls(tail)
    requires |view| == |tail| + 1 && view[1..] == tail && !view[0].ToolResult?
    ensures ResultsFollowCalls(view)
  {
    forall i | 0 <= i < |view| && view[i].ToolResult?
      ensures exists j | 0 <= j < i :: Answers(view, j, i)
    {
      assert view[i] == tail[i - 1];
      var j: nat :| j < i - 1 && Answers(tail, j, i - 1);
      AnswersShifted(tail, view, j, i - 1);
    }
  }

  /** Nor does the view with its summary in front. */
  lemma ViewKeepsCalls(ms: seq<Message>, k: nat, summary: string)
    requires ResultsFollowCalls(ms) && k < |ms| && !ms[k].ToolResult?
    ensures ResultsFollowCalls(Projected(summary, ms[k..]))
  {
    TailKeepsCalls(ms, k);
    if summary != "" {
      assert Projected(summary, ms[k..])[1..] == ms[k..];
      PrefixedKeepsCalls(ms[k..], Projected(summary, ms[k..]));
    }
  }

  // The summary of this checkpoint stands for exactly the ancestors of the first
  // message it keeps.
  ghost predicate Covers(entries: seq<Entry>, c: Checkpoint, covered: seq<Message>) {
    && c.firstKeptId != ""
    && Has(entries, c.firstKeptId)
    && Path(entries, c.firstKeptId) != []
    && var path := Path(entries, c.firstKeptId);
       covered == MessagesOf(path[..|path| - 1])
  }

  // The transcript of a branch.
  ghost predicate IsBranch(entries: seq<Entry>, leaf: string, transcript: seq<Message>) {
    && Tree(entries)
    && LeafKnown(entries, leaf)
    && transcript == MessagesOf(Path(entries, leaf))
  }

  lemma BranchEntry(entries: seq<Entry>, leaf: string, transcript: seq<Message>, k: nat)
    requires IsBranch(entries, leaf, transcript) && k < |transcript|
    ensures Has(entries, transcript[k].id) && transcript[k].id != ""
    ensures var path := Path(entries, leaf);
            |path| == |transcript| && Path(entries, transcript[k].id) == path[..k + 1]
  {
    var path := Path(entries, leaf);
    PathIsPath(entries, leaf);
    AncestorsAreAPrefix(entries, leaf, path, k);
    var i: nat :| i < |entries| && entries[i] == path[k];
    TreeEntry(entries, i);
    assert entries[i].id == transcript[k].id;
  }

  /** A checkpoint found in a branch stands for exactly what precedes it there,
      whichever branch it was made on. */
  lemma FoundCheckpointCovers(entries: seq<Entry>, leaf: string, transcript: seq<Message>, c: Checkpoint,
                              covered: seq<Message>, k: nat)
    requires IsBranch(entries, leaf, transcript) && Covers(entries, c, covered)
    requires k < |transcript| && transcript[k].id == c.firstKeptId
    ensures covered == transcript[..k]
  {
    BranchEntry(entries, leaf, transcript, k);
    var path := Path(entries, leaf);
    assert path[..k + 1][..k] == path[..k];
    assert MessagesOf(path[..k]) == transcript[..k];
  }

  /** Covering a proper part of a branch makes a checkpoint that fits the tree. */
  lemma NewCheckpointCovers(entries: seq<Entry>, leaf: string, transcript: seq<Message>, c: Checkpoint, k: nat,
                            covered: seq<Message>)
    requires IsBranch(entries, leaf, transcript) && k < |transcript|
    requires c.firstKeptId == transcript[k].id && covered == transcript[..k]
    ensures Covers(entries, c, covered)
  {
    BranchEntry(entries, leaf, transcript, k);
    var path := Path(entries, leaf);
    assert path[..k + 1][..k] == path[..k];
    assert MessagesOf(path[..k]) == transcript[..k];
  }

  /** New messages do not change what a checkpoint stands for. */
  lemma GrowingKeepsCover(entries: seq<Entry>, e: Entry, c: Checkpoint, covered: seq<Message>)
    requires Tree(entries) && Attachable(entries, e) && Covers(entries, c, covered)
    ensures Covers(entries + [e], c, covered)
  {
    AppendKeepsPath(entries, e, c.firstKeptId);
    var i :| 0 <= i < |entries| && entries[i].id == c.firstKeptId;
    assert (entries + [e])[i].id == c.firstKeptId;
  }

  // What a session hands to Build: its transcript, or a summary followed by the
  // transcript from position k on.
  ghost predicate Presents(ms: seq<Message>, transcript: seq<Message>, k: nat) {
    && k <= |transcript|
    && if ms == transcript then k == 0 else ms != [] && ms[0].id == SUMMARY_ID && ms[1..] == transcript[k..]
  }

  // Where a position of the presented messages lies in the transcript.
  function Place(ms: seq<Message>, transcript: seq<Message>, k: nat, i: nat): int {
    if ms == transcript then i else k + i - 1
  }

  // A checkpoint that lies in the presented part is found at its place.
  lemma FoundAt(entries: seq<Entry>, leaf: string, transcript: seq<Message>, ms: seq<Message>, k: nat, c: Checkpoint)
    requires IsBranch(entries, leaf, transcript) && Presents(ms, transcript, k)
    requires forall i | 0 <= i < |transcript| :: transcript[i].id != SUMMARY_ID
    requires Found(Some(c), ms) && c.firstKeptId != SUMMARY_ID
    ensures var i := LastIndex(ms, c.firstKeptId);
            var p := Place(ms, transcript, k, i);
            0 <= p < |transcript| && transcript[p].id == c.firstKeptId && ms[i..] == transcript[p..]
  {
    var i := LastIndex(ms, c.firstKeptId);
    if ms != transcript {
      assert i > 0;
      assert ms[i] == ms[1..][i - 1];
      assert ms[i..] == ms[1..][i - 1..];
    }
  }

  /** One Build, seen from the conversation: whatever was summarized before and
      during it is exactly the part of the transcript before the messages that
      the view keeps; the new checkpoint fits the tree again. */
  lemma BuildCovers(entries: seq<Entry>, leaf: string, transcript: seq<Message>, ms: seq<Message>, k: nat,
                    was: Option<Checkpoint>, before: seq<Message>, end: nat, inputs: seq<Message>,
                    now: Checkpoint, covered: seq<Message>, p: int)
    requires IsBranch(entries, leaf, transcript) && Presents(ms, transcript, k)
    requires forall i | 0 <= i < |transcript| :: transcript[i].id != SUMMARY_ID
    requires was.Some? ==> Covers(entries, was.value, before) && was.value.firstKeptId != SUMMARY_ID
    requires ms == transcript || Found(was, ms)
    requires StartOf(was, ms) <= end < |ms| && inputs == ms[StartOf(was, ms)..end]
    requires covered == CoveredAt(was, before, ms) + inputs && now.firstKeptId == ms[end].id
    requires p == Place(ms, transcript, k, end)
    ensures 0 <= p < |transcript| && ms[end..] == transcript[p..]
    ensures covered == transcript[..p] && Covers(entries, now, covered)
  {
    var start := StartOf(was, ms);
    var s := StartPlace(entries, leaf, transcript, ms, k, was, before, end);
    CutSuffix(ms, transcript, start, s, end, p, covered);
    NewCheckpointCovers(entries, leaf, transcript, now, p, covered);
  }

  // Where the messages after the old checkpoint start in the transcript.
  lemma StartPlace(entries: seq<Entry>, leaf: string, transcript: seq<Message>, ms: seq<Message>, k: nat,
                   was: Option<Checkpoint>, before: seq<Message>, end: nat) returns (s: nat)
    requires IsBranch(entries, leaf, transcript) && Presents(ms, transcript, k)
    requires forall i | 0 <= i < |transcript| :: transcript[i].id != SUMMARY_ID
    requires was.Some? ==> Covers(entries, was.value, before) && was.value.firstKeptId != SUMMARY_ID
    requires ms == transcript || Found(was, ms)
    requires StartOf(was, ms) <= end < |ms|
    ensures s <= |transcript| && ms[StartOf(was, ms)..] == transcript[s..]
    ensures CoveredAt(was, before, ms) == transcript[..s]
    ensures Place(ms, transcript, k, end) == s + (end - StartOf(was, ms))
  {
    var start := StartOf(was, ms);
    if Found(was, ms) {
      FoundAt(entries, leaf, transcript, ms, k, was.value);
      s := Place(ms, transcript, k, start);
      FoundCheckpointCovers(entries, leaf, transcript, was.value, before, s);
    } else {
      s := 0;
    }
  }

  lemma CutSuffix(ms: seq<Message>, transcript: seq<Message>, start: nat, s: nat, end: nat, p: int, covered: seq<Message>)
    requires start <= end < |ms| && s <= |transcript| && ms[start..] == transcript[s..]
    requires p == s + (end - start) && covered == transcript[..s] + ms[start..end]
    ensures 0 <= p < |transcript| && ms[end..] == transcript[p..] && ms[end] == transcript[p]
    ensures covered == transcript[..p]
  {
    var d := end - start;
    assert ms[end..] == ms[start..][d..];
    assert transcript[s + d..] == transcript[s..][d..];
    assert ms[start..end] == ms[start..][..d];
    assert transcript[..s + d] == transcript[..s] + transcript[s..][..d];
    assert ms[end] == ms[end..][0];
  }

  /** The view that a Build returns presents the same transcript again, and goes
      on doing so as messages are added. */
  lemma ViewPresents(transcript: seq<Message>, tail: seq<Message>, p: nat, summary: string, more: seq<Message>)
    requires p <= |transcript| && tail == transcript[p..] && summary != ""
    requires forall i | 0 <= i < |transcript| :: transcript[i].id != SUMMARY_ID
    ensures Presents(Projected(summary, tail) + more, transcript + more, p)
  {
    var view, all := Projected(summary, tail) + more, transcript + more;
    assert view[1..] == all[p..];
    assert view[0].id == SUMMARY_ID;
    assert p > 0 ==> all[0] == transcript[0];
  }
}
