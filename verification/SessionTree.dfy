/** The message tree of one session, which only grows; a branch is the walk from a root to the active leaf. */
module SessionTree {
  import opened Messages

  // A time of 0 is the zero time, which no committed entry carries.
  datatype Entry = Entry(id: string, parentId: string, timestamp: nat, message: Message)

  datatype HistoryError = InvalidEntry | DuplicateId | UnknownParent | UnknownLeaf

  predicate ValidEntry(e: Entry) {
    && e.id != ""
    && e.timestamp != 0
    && e.id == e.message.id
    && ValidMessage(e.message)
  }

  predicate Has(entries: seq<Entry>, id: string) {
    exists i | 0 <= i < |entries| :: entries[i].id == id
  }

  // An entry that may follow the entries already there.
  predicate Attachable(entries: seq<Entry>, e: Entry) {
    && ValidEntry(e)
    && !Has(entries, e.id)
    && (e.parentId == "" || Has(entries, e.parentId))
  }

  // Names a position; quantifiers over positions wait for it.
  ghost predicate At(i: nat) {
    true
  }

  ghost predicate Tree(entries: seq<Entry>) {
    forall i {:trigger At(i)} | 0 <= i < |entries| && At(i) :: Attachable(entries[..i], entries[i])
  }

  ghost predicate LeafKnown(entries: seq<Entry>, leaf: string) {
    leaf == "" || Has(entries, leaf)
  }

  // The walk from the root to `leaf`.
  ghost function Path(entries: seq<Entry>, leaf: string): seq<Entry>
    decreases |entries|
  {
    if entries == [] || leaf == "" then
      []
    else
      var n := |entries| - 1;
      if entries[n].id == leaf then Path(entries[..n], entries[n].parentId) + [entries[n]] else Path(entries[..n], leaf)
  }

  function MessagesOf(entries: seq<Entry>): (ms: seq<Message>)
    ensures |ms| == |entries|
    ensures forall i | 0 <= i < |ms| :: ms[i] == entries[i].message
  {
    seq(|entries|, i requires 0 <= i < |entries| => entries[i].message)
  }

  // A path described without computing it: it starts at a root, every entry is
  // the parent of the next, and it ends at `leaf`.
  ghost predicate IsPath(entries: seq<Entry>, leaf: string, path: seq<Entry>) {
    && (forall i | 0 <= i < |path| :: path[i] in entries)
    && (path == [] <==> leaf == "")
    && (path != [] ==> path[|path| - 1].id == leaf && path[0].parentId == "")
    && (forall i | 0 < i < |path| :: path[i].parentId == path[i - 1].id)
  }

  lemma TreePrefix(entries: seq<Entry>, n: nat)
    requires Tree(entries) && n <= |entries|
    ensures Tree(entries[..n])
  {
    forall i {:trigger At(i)} | 0 <= i < n
      ensures Attachable(entries[..n][..i], entries[..n][i])
    {
      assert At(i) && entries[..n][..i] == entries[..i];
    }
  }

  lemma TreeAppend(entries: seq<Entry>, e: Entry)
    requires Tree(entries) && Attachable(entries, e)
    ensures Tree(entries + [e])
  {
    var all := entries + [e];
    forall i {:trigger At(i)} | 0 <= i < |all|
      ensures Attachable(all[..i], all[i])
    {
      assert At(i) && all[..i] == entries[..i];
      assert entries[..|entries|] == entries;
    }
  }

  lemma TreeEntry(entries: seq<Entry>, i: nat)
    requires Tree(entries) && i < |entries|
    ensures Attachable(entries[..i], entries[i])
    ensures entries[i].parentId == "" || exists j: nat | j < i :: entries[j].id == entries[i].parentId
  {
    assert At(i);
  }

  lemma EarlierIdDiffers(entries: seq<Entry>, i: nat, j: nat)
    requires Tree(entries) && i < j < |entries|
    ensures entries[i].id != entries[j].id
  {
    TreeEntry(entries, j);
    assert entries[..j][i] == entries[i];
  }

  // Identifiers are unique in a tree.
  lemma SameIdSameIndex(entries: seq<Entry>, i: nat, j: nat)
    requires Tree(entries) && i < |entries| && j < |entries|
    requires entries[i].id == entries[j].id
    ensures i == j
  {
    if i < j {
      EarlierIdDiffers(entries, i, j);
    } else if j < i {
      EarlierIdDiffers(entries, j, i);
    }
  }

  lemma PathWidens(entries: seq<Entry>, n: nat, leaf: string, path: seq<Entry>)
    requires n <= |entries| && IsPath(entries[..n], leaf, path)
    ensures IsPath(entries, leaf, path)
  {
  }

  lemma PathGrows(entries: seq<Entry>, path: seq<Entry>, e: Entry)
    requires IsPath(entries, e.parentId, path) && e in entries && e.id != ""
    ensures IsPath(entries, e.id, path + [e])
  {
  }

  /** Walking up from a known leaf reaches a root. */
  lemma {:induction false} PathIsPath(entries: seq<Entry>, leaf: string)
    requires Tree(entries) && LeafKnown(entries, leaf)
    ensures IsPath(entries, leaf, Path(entries, leaf))
    decreases |entries|
  {
    if entries != [] && leaf != "" {
      var n := |entries| - 1;
      TreePrefix(entries, n);
      TreeEntry(entries, n);
      var next := if entries[n].id == leaf then entries[n].parentId else leaf;
      assert LeafKnown(entries[..n], next) by {
        if next == leaf && leaf != "" {
          var i :| 0 <= i < |entries| && entries[i].id == leaf;
          assert i != n ==> entries[..n][i].id == leaf;
        }
      }
      PathIsPath(entries[..n], next);
      PathWidens(entries, n, next, Path(entries[..n], next));
      if entries[n].id == leaf {
        PathGrows(entries, Path(entries[..n], next), entries[n]);
      }
    }
  }

  // A path up to its last entry is the path to that entry's parent.
  lemma PathInit(entries: seq<Entry>, leaf: string, path: seq<Entry>)
    requires IsPath(entries, leaf, path) && path != []
    ensures IsPath(entries, path[|path| - 1].parentId, path[..|path| - 1]) || path[|path| - 1].parentId == ""
    ensures path[|path| - 1].parentId == "" && (forall e | e in entries :: e.id != "") ==> |path| == 1
  {
    var n := |path| - 1;
    if n > 0 {
      assert path[n].parentId == path[n - 1].id;
    }
  }

  /** There is only one walk from a root to a given leaf. */
  lemma {:induction false} PathsAreUnique(entries: seq<Entry>, leaf: string, p: seq<Entry>, q: seq<Entry>)
    requires Tree(entries)
    requires IsPath(entries, leaf, p) && IsPath(entries, leaf, q)
    ensures p == q
    decreases |p|
  {
    if p != [] {
      var m, n := |p| - 1, |q| - 1;
      var i: nat :| i < |entries| && entries[i] == p[m];
      var j: nat :| j < |entries| && entries[j] == q[n];
      SameIdSameIndex(entries, i, j);
      NoEmptyId(entries);
      PathInit(entries, leaf, p);
      PathInit(entries, leaf, q);
      if p[m].parentId != "" {
        PathsAreUnique(entries, p[m].parentId, p[..m], q[..n]);
      }
      assert p == p[..m] + [p[m]] && q == q[..n] + [q[n]];
    }
  }

  lemma NoEmptyId(entries: seq<Entry>)
    requires Tree(entries)
    ensures forall e | e in entries :: e.id != ""
  {
    forall e | e in entries
      ensures e.id != ""
    {
      var i: nat :| i < |entries| && entries[i] == e;
      TreeEntry(entries, i);
    }
  }

  /** Appending an entry never changes the walk to an older leaf. */
  lemma AppendKeepsPath(entries: seq<Entry>, e: Entry, leaf: string)
    requires Tree(entries) && Attachable(entries, e) && LeafKnown(entries, leaf)
    ensures Path(entries + [e], leaf) == Path(entries, leaf)
  {
    assert (entries + [e])[..|entries|] == entries;
  }

  /** Appending below the leaf extends the walk by one entry. */
  lemma AppendExtendsPath(entries: seq<Entry>, e: Entry)
    requires Tree(entries) && Attachable(entries, e)
    ensures Path(entries + [e], e.id) == Path(entries, e.parentId) + [e]
  {
    assert (entries + [e])[..|entries|] == entries;
  }

  /** The ancestors of an entry of a path are the part of the path before it,
      whichever leaf the path belongs to. */
  lemma AncestorsAreAPrefix(entries: seq<Entry>, leaf: string, path: seq<Entry>, k: nat)
    requires Tree(entries) && LeafKnown(entries, leaf)
    requires IsPath(entries, leaf, path) && k < |path|
    ensures IsPath(entries, path[k].id, path[..k + 1])
    ensures Path(entries, path[k].id) == path[..k + 1]
  {
    NoEmptyId(entries);
    var i: nat :| i < |entries| && entries[i] == path[k];
    assert Has(entries, path[k].id);
    PathIsPath(entries, path[k].id);
    assert IsPath(entries, path[k].id, path[..k + 1]);
    PathsAreUnique(entries, path[k].id, Path(entries, path[k].id), path[..k + 1]);
  }

  /** Two branches that share an entry share everything before it. */
  lemma SharedEntrySharesAncestors(entries: seq<Entry>, a: string, b: string, p: seq<Entry>, q: seq<Entry>, i: nat, j: nat)
    requires Tree(entries) && LeafKnown(entries, a) && LeafKnown(entries, b)
    requires IsPath(entries, a, p) && IsPath(entries, b, q)
    requires i < |p| && j < |q| && p[i].id == q[j].id
    ensures i == j && p[..i + 1] == q[..j + 1]
  {
    AncestorsAreAPrefix(entries, a, p, i);
    AncestorsAreAPrefix(entries, b, q, j);
    PathsAreUnique(entries, p[i].id, p[..i + 1], q[..j + 1]);
  }

  // The leaf that restoring leaves active: an empty leaf id is not applied.
  function RestoredLeaf(entries: seq<Entry>, leaf: string): string {
    if leaf != "" || entries == [] then leaf else entries[|entries| - 1].id
  }

  /** Restoring keeps the leaf it is given exactly when that leaf is not empty or
      there is nothing to fall back on. */
  lemma EmptyLeafIsNotRestored(entries: seq<Entry>, leaf: string)
    requires Tree(entries)
    ensures RestoredLeaf(entries, leaf) == leaf <==> leaf != "" || entries == []
  {
    if entries != [] {
      TreeEntry(entries, |entries| - 1);
    }
  }

  // Entry e is indexed under its identifier.
  ghost predicate Indexed(entries: seq<Entry>, byId: map<string, Entry>) {
    var indexed :=
      && (forall i | 0 <= i < |entries| :: entries[i].id in byId && byId[entries[i].id] == entries[i])
      && (forall id | id in byId :: Has(entries, id));
    indexed
  }

  lemma IndexAppend(entries: seq<Entry>, byId: map<string, Entry>, e: Entry)
    requires Indexed(entries, byId) && !Has(entries, e.id)
    ensures Indexed(entries + [e], byId[e.id := e])
  {
    var all, index := entries + [e], byId[e.id := e];
    forall i | 0 <= i < |all|
      ensures all[i].id in index && index[all[i].id] == all[i]
    {
    }
    forall id | id in index
      ensures Has(all, id)
    {
      if id == e.id {
        assert all[|entries|].id == id;
      } else {
        var i :| 0 <= i < |entries| && entries[i].id == id;
        assert all[i].id == id;
      }
    }
  }

  lemma HasIff(entries: seq<Entry>, id: string)
    ensures Has(entries, id) <==> exists e :: e in entries && e.id == id
  {
    if e :| e in entries && e.id == id {
      var i :| 0 <= i < |entries| && entries[i] == e;
    }
    if Has(entries, id) {
      var i :| 0 <= i < |entries| && entries[i].id == id;
      assert entries[i] in entries;
    }
  }

  lemma HasIffIndexed(entries: seq<Entry>, byId: map<string, Entry>, id: string)
    requires Indexed(entries, byId)
    ensures Has(entries, id) <==> id in byId
  {
  }

  // One step up: the walk to an entry is the walk to its parent and the entry.
  lemma WalkStep(entries: seq<Entry>, byId: map<string, Entry>, id: string)
    requires Tree(entries) && Indexed(entries, byId) && id != "" && Has(entries, id)
    ensures id in byId
    ensures Path(entries, id) == Path(entries, byId[id].parentId) + [byId[id]]
    ensures LeafKnown(entries, byId[id].parentId)
  {
    var n: nat :| n < |entries| && entries[n].id == id;
    TreeEntry(entries, n);
    var parent := entries[n].parentId;
    if parent != "" {
      var j: nat :| j < n && entries[j].id == parent;
      assert Has(entries, parent);
    }
    PathIsPath(entries, id);
    PathIsPath(entries, parent);
    var longer := Path(entries, parent) + [entries[n]];
    PathGrows(entries, Path(entries, parent), entries[n]);
    PathsAreUnique(entries, id, Path(entries, id), longer);
  }

  lemma RestoreStep(stored: seq<Entry>, i: nat)
    requires i < |stored|
    ensures stored[..i + 1] == stored[..i] + [stored[i]]
    ensures Tree(stored) ==> Attachable(stored[..i], stored[i])
  {
    assert At(i);
  }

  function Reversed(s: seq<Entry>): (r: seq<Entry>)
    ensures |r| == |s|
    ensures forall i | 0 <= i < |s| :: r[i] == s[|s| - 1 - i]
  {
    seq(|s|, i requires 0 <= i < |s| => s[|s| - 1 - i])
  }

  class History {
    var entries: seq<Entry>
    var byId: map<string, Entry>
    var leafId: string

    ghost predicate Valid()
      reads this
    {
      var valid := Tree(entries) && Indexed(entries, byId) && LeafKnown(entries, leafId);
      valid
    }

    constructor ()
      ensures Valid()
      ensures entries == [] && leafId == ""
    {
      entries, byId, leafId := [], map[], "";
    }

    /** Rebuilds a tree from stored entries. It succeeds exactly on trees whose
        leaf is known. */
    static method Restore(stored: seq<Entry>, leaf: string) returns (h: History, ok: bool)
      ensures fresh(h) && h.Valid()
      ensures ok <==> Tree(stored) && LeafKnown(stored, leaf)
      ensures ok ==> h.entries == stored && h.leafId == RestoredLeaf(stored, leaf)
      ensures ok ==> h.leafId == if leaf == "" && stored != [] then stored[|stored| - 1].id else leaf
    {
      h := new History();
      ok := true;
      var i := 0;
      while ok && i < |stored|
        invariant 0 <= i <= |stored|
        invariant fresh(h) && h.Valid()
        invariant ok ==> h.entries == stored[..i] && h.leafId == RestoredLeaf(stored[..i], "")
        invariant !ok ==> !Tree(stored)
      {
        RestoreStep(stored, i);
        var error := h.AppendEntry(stored[i]);
        ok := error.None?;
        i := i + 1;
      }
      assert stored[..|stored|] == stored;
      if ok && leaf != "" {
        var error := h.SetLeaf(leaf);
        ok := error.None?;
      }
    }

    /** Builds the entry a message would be committed as, without committing it. */
    method PrepareAppend(message: Message, at: nat) returns (r: Result<Entry, HistoryError>)
      requires Valid()
      ensures r.Success? ==> r.value == Entry(message.id, leafId, at, message) && Attachable(entries, r.value)
      ensures r.Success? <==> message.id != "" && at != 0 && ValidMessage(message) && forall e | e in entries :: e.id != message.id
    {
      var entry := Entry(message.id, leafId, at, message);
      HasIff(entries, message.id);
      if !ValidEntry(entry) {
        return Failure(InvalidEntry);
      }
      if entry.id in byId {
        return Failure(DuplicateId);
      }
      HasIffIndexed(entries, byId, entry.id);
      HasIffIndexed(entries, byId, leafId);
      r := Success(entry);
    }

    /** Commits an entry below a parent that is already there. */
    method AppendEntry(e: Entry) returns (error: Option<HistoryError>)
      requires Valid()
      modifies this
      ensures Valid()
      ensures error.None? <==> Attachable(old(entries), e)
      ensures error.None? <==>
                && e.id != "" && e.timestamp != 0 && e.id == e.message.id && ValidMessage(e.message)
                && (forall x | x in old(entries) :: x.id != e.id)
                && (e.parentId == "" || exists x :: x in old(entries) && x.id == e.parentId)
      ensures error.None? ==> entries == old(entries) + [e] && leafId == e.id
      ensures error.Some? ==> entries == old(entries) && leafId == old(leafId)
    {
      HasIffIndexed(entries, byId, e.id);
      HasIffIndexed(entries, byId, e.parentId);
      HasIff(entries, e.id);
      HasIff(entries, e.parentId);
      if !ValidEntry(e) {
        return Some(InvalidEntry);
      }
      if e.id in byId {
        return Some(DuplicateId);
      }
      if e.parentId != "" && e.parentId !in byId {
        return Some(UnknownParent);
      }
      TreeAppend(entries, e);
      IndexAppend(entries, byId, e);
      entries := entries + [e];
      byId := byId[e.id := e];
      leafId := e.id;
      HasIffIndexed(entries, byId, leafId);
      error := None;
    }

    /** Switches the active branch; no entry is removed. */
    method SetLeaf(id: string) returns (error: Option<HistoryError>)
      requires Valid()
      modifies this`leafId
      ensures Valid()
      ensures error.None? <==> LeafKnown(entries, id)
      ensures leafId == if error.None? then id else old(leafId)
    {
      HasIffIndexed(entries, byId, id);
      if id != "" && id !in byId {
        return Some(UnknownLeaf);
      }
      leafId := id;
      error := None;
    }

    // Collects the walk from the leaf up.
    method WalkUp() returns (path: seq<Entry>)
      requires Valid()
      ensures Reversed(path) == Path(entries, leafId)
    {
      var current := leafId;
      path := [];
      ghost var rest := Path(entries, leafId);
      while current != ""
        invariant LeafKnown(entries, current)
        invariant rest == Path(entries, current)
        invariant Path(entries, leafId) == rest + Reversed(path)
        decreases |rest|
      {
        WalkStep(entries, byId, current);
        var entry := byId[current];
        assert Reversed(path + [entry]) == [entry] + Reversed(path);
        path := path + [entry];
        current := entry.parentId;
        rest := Path(entries, current);
      }
      assert rest == [];
    }

    /** The active branch from its root to the leaf. */
    method ActivePath() returns (path: seq<Entry>)
      requires Valid()
      ensures path == Path(entries, leafId)
    {
      path := WalkUp();
      path := Reverse(path);
    }
  }

  // Swaps from both ends towards the middle.
  method Reverse(s: seq<Entry>) returns (path: seq<Entry>)
    ensures path == Reversed(s)
  {
    path := s;
    var left, right := 0, |path| - 1;
    while left < right
      invariant 0 <= left && right == |path| - 1 - left && left <= right + 1
      invariant |path| == |s|
      invariant forall i | 0 <= i < left :: path[i] == s[|s| - 1 - i]
      invariant forall i | right < i < |path| :: path[i] == s[|s| - 1 - i]
      invariant forall i | left <= i <= right :: path[i] == s[i]
    {
      path := path[left := path[right]][right := path[left]];
      left, right := left + 1, right - 1;
    }
  }
}
