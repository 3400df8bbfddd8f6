/** Mutation of workspace files by many tool calls: one token a path, handed out by counted references. */
module Mutation {
  import opened Messages

  // Every method of the queue is one atomic step of one caller, so any
  // interleaving is a sequence of calls.

  datatype Entry = Entry(path: string, token: bool, refs: int)

  // Where a caller stands. From Holding to Finished it has the token; base is
  // the content its change is made from, None when it creates the file.
  datatype Phase =
    | Idle
    | Waiting(path: string, entry: nat)
    | Holding(path: string, entry: nat)
    | Editing(path: string, entry: nat, base: Option<string>)
    | Checked(path: string, entry: nat, base: Option<string>)
    | Finished(path: string, entry: nat)
    | Returning(path: string, entry: nat)

  predicate HasToken(p: Phase) {
    p.Holding? || p.Editing? || p.Checked? || p.Finished?
  }

  // A committed change: what it was made from, what was there, what is there now,
  // and whether someone outside wrote the file after the last check.
  datatype Commit = Commit(path: string, base: Option<string>, before: Option<string>, after: string, disturbed: bool)

  // Names a caller or an entry; quantifiers wait for it.
  ghost predicate Caller(c: nat) {
    true
  }

  ghost predicate Lock(e: nat) {
    true
  }

  function PhaseOf(phases: map<nat, Phase>, c: nat): Phase {
    if c in phases then phases[c] else Idle
  }

  function FileOf(files: map<string, string>, path: string): Option<string> {
    if path in files then Some(files[path]) else None
  }

  ghost predicate Injective(digest: string -> string) {
    && (forall s, t {:trigger digest(s), digest(t)} :: digest(s) == digest(t) ==> s == t)
    && (forall s {:trigger digest(s)} :: !IsBlank(digest(s)))
  }

  // ---------------------------------------------------------------------------
  // The locks. For every entry, `users` are the callers that refer to it and
  // `holder` is the one that has its token.
  datatype Locks = Locks(entries: map<string, nat>, store: map<nat, Entry>, phases: map<nat, Phase>,
                         users: map<nat, set<nat>>, holder: map<nat, Option<nat>>, next: nat)

  ghost predicate CallerOk(l: Locks, c: nat) {
    var p := PhaseOf(l.phases, c);
    p != Idle ==>
      && p.entry in l.store && p.entry in l.users && p.entry in l.holder
      && l.store[p.entry].path == p.path
      && p.path in l.entries && l.entries[p.path] == p.entry
      && c in l.users[p.entry]
      && (l.holder[p.entry] == Some(c) <==> HasToken(p))
  }

  ghost predicate LockOk(l: Locks, e: nat) {
    e in l.store ==>
      && e in l.users && e in l.holder
      && l.store[e].refs == |l.users[e]| && l.users[e] != {}
      && (forall c | c in l.users[e] :: PhaseOf(l.phases, c) != Idle && PhaseOf(l.phases, c).entry == e)
      && (l.store[e].token <==> l.holder[e].None?)
      && (l.holder[e].Some? ==> l.holder[e].value in l.users[e])
      && l.store[e].path in l.entries && l.entries[l.store[e].path] == e
      && e < l.next
  }

  ghost predicate PathOk(l: Locks, path: string) {
    path in l.entries ==> l.entries[path] in l.store && l.store[l.entries[path]].path == path
  }

  ghost predicate LocksOk(l: Locks) {
    var ok :=
      && (forall c {:trigger Caller(c)} | Caller(c) :: CallerOk(l, c))
      && (forall e {:trigger Lock(e)} | Lock(e) :: LockOk(l, e))
      && (forall p {:trigger PathOk(l, p)} :: PathOk(l, p));
    ok
  }

  /** Two callers never have the token of one path at the same time. */
  lemma MutualExclusion(l: Locks, c: nat, d: nat)
    requires LocksOk(l)
    requires HasToken(PhaseOf(l.phases, c)) && HasToken(PhaseOf(l.phases, d))
    requires PhaseOf(l.phases, c).path == PhaseOf(l.phases, d).path
    ensures c == d
  {
    assert Caller(c) && Caller(d);
  }

  /** Free tokens and holders of an entry add up to one, its counter counts the
      callers that refer to it, and it is the entry of its path as long as one
      does. */
  lemma EntryIsExact(l: Locks, c: nat)
    requires LocksOk(l) && PhaseOf(l.phases, c) != Idle
    ensures var p := PhaseOf(l.phases, c);
            && p.path in l.entries && l.entries[p.path] == p.entry
            && p.entry in l.store && p.entry in l.users && c in l.users[p.entry]
            && l.store[p.entry].refs == |l.users[p.entry]|
            && (l.store[p.entry].token <==> forall d | d in l.users[p.entry] :: !HasToken(PhaseOf(l.phases, d)))
  {
    var p := PhaseOf(l.phases, c);
    assert Caller(c) && Lock(p.entry);
    forall d | d in l.users[p.entry]
      ensures HasToken(PhaseOf(l.phases, d)) <==> l.holder[p.entry] == Some(d)
    {
      assert Caller(d);
    }
  }

  /** A path has an entry exactly as long as some caller refers to it. */
  lemma EntryIffUsed(l: Locks, path: string)
    requires LocksOk(l)
    ensures path in l.entries <==> exists c: nat :: PhaseOf(l.phases, c) != Idle && PhaseOf(l.phases, c).path == path
  {
    if path in l.entries {
      var e := l.entries[path];
      assert PathOk(l, path) && Lock(e);
      var c :| c in l.users[e];
      assert Caller(c);
    }
    if c: nat :| PhaseOf(l.phases, c) != Idle && PhaseOf(l.phases, c).path == path {
      assert Caller(c);
    }
  }

  // ---------------------------------------------------------------------------
  // The atomic steps.

  // The caller keeps its entry; it may take the token or give it back.
  ghost function Moved(l: Locks, c: nat, p: Phase): Locks
    requires p != Idle && p.entry in l.store
  {
    var e, was, has := p.entry, HasToken(PhaseOf(l.phases, c)), HasToken(p);
    if was == has then
      l.(phases := l.phases[c := p])
    else
      l.(phases := l.phases[c := p],
         store := l.store[e := l.store[e].(token := was)],
         holder := l.holder[e := if has then Some(c) else None])
  }

  lemma MoveKeepsLocks(l: Locks, c: nat, p: Phase)
    requires LocksOk(l) && p != Idle && PhaseOf(l.phases, c) != Idle
    requires p.path == PhaseOf(l.phases, c).path && p.entry == PhaseOf(l.phases, c).entry && p.entry in l.store
    requires HasToken(p) && !HasToken(PhaseOf(l.phases, c)) ==> l.store[p.entry].token
    ensures LocksOk(Moved(l, c, p))
  {
    var m := Moved(l, c, p);
    assert Caller(c) && Lock(p.entry);
    forall d {:trigger Caller(d)} | Caller(d)
      ensures CallerOk(m, d)
    {
    }
    forall f {:trigger Lock(f)} | Lock(f)
      ensures LockOk(m, f)
    {
    }
    forall q {:trigger PathOk(m, q)}
      ensures PathOk(m, q)
    {
      assert PathOk(l, q);
    }
  }

  // The caller finds the entry of its path, or makes one.
  ghost function Entered(l: Locks, c: nat, path: string): Locks
    requires path in l.entries ==> l.entries[path] in l.store && l.entries[path] in l.users
  {
    if path in l.entries then
      var e := l.entries[path];
      l.(store := l.store[e := l.store[e].(refs := l.store[e].refs + 1)],
         users := l.users[e := l.users[e] + {c}],
         phases := l.phases[c := Waiting(path, e)])
    else
      Locks(l.entries[path := l.next], l.store[l.next := Entry(path, true, 1)], l.phases[c := Waiting(path, l.next)],
            l.users[l.next := {c}], l.holder[l.next := None], l.next + 1)
  }

  lemma JoinKeepsLocks(l: Locks, c: nat, path: string, m: Locks)
    requires LocksOk(l) && PhaseOf(l.phases, c) == Idle && path in l.entries
    requires l.entries[path] in l.store && l.entries[path] in l.users && m == Entered(l, c, path)
    ensures LocksOk(m)
  {
    assert Caller(c) && Lock(l.entries[path]) && PathOk(l, path);
    forall d {:trigger Caller(d)} | Caller(d)
      ensures CallerOk(m, d)
    {
    }
    forall f {:trigger Lock(f)} | Lock(f)
      ensures LockOk(m, f)
    {
    }
    forall q {:trigger PathOk(m, q)}
      ensures PathOk(m, q)
    {
      assert PathOk(l, q);
    }
  }

  lemma FirstKeepsLocks(l: Locks, c: nat, path: string, m: Locks)
    requires LocksOk(l) && PhaseOf(l.phases, c) == Idle && path !in l.entries && m == Entered(l, c, path)
    ensures LocksOk(m)
  {
    assert Caller(c) && Lock(l.next);
    forall d {:trigger Caller(d)} | Caller(d)
      ensures CallerOk(m, d)
    {
    }
    forall f {:trigger Lock(f)} | Lock(f)
      ensures LockOk(m, f)
    {
    }
    forall q {:trigger PathOk(m, q)}
      ensures PathOk(m, q)
    {
      assert PathOk(l, q);
    }
  }

  lemma EnterKeepsLocks(l: Locks, c: nat, path: string)
    requires LocksOk(l) && PhaseOf(l.phases, c) == Idle
    ensures path in l.entries ==> l.entries[path] in l.store && l.entries[path] in l.users
    ensures LocksOk(Entered(l, c, path))
  {
    assert PathOk(l, path);
    if path in l.entries {
      assert Lock(l.entries[path]);
      JoinKeepsLocks(l, c, path, Entered(l, c, path));
    } else {
      FirstKeepsLocks(l, c, path, Entered(l, c, path));
    }
  }

  // The caller leaves; the last one to leave removes the entry.
  ghost function Left(l: Locks, c: nat): Locks
    requires PhaseOf(l.phases, c) != Idle
    requires PhaseOf(l.phases, c).entry in l.store && PhaseOf(l.phases, c).entry in l.users
  {
    var e := PhaseOf(l.phases, c).entry;
    var path, refs := PhaseOf(l.phases, c).path, l.store[e].refs - 1;
    if refs == 0 then
      l.(entries := l.entries - {path}, store := l.store - {e}, users := l.users[e := {}], phases := l.phases[c := Idle])
    else
      l.(store := l.store[e := l.store[e].(refs := refs)], users := l.users[e := l.users[e] - {c}],
         phases := l.phases[c := Idle])
  }

  lemma LeaveKeepsLocks(l: Locks, c: nat)
    requires LocksOk(l) && PhaseOf(l.phases, c) != Idle && !HasToken(PhaseOf(l.phases, c))
    ensures PhaseOf(l.phases, c).entry in l.store && PhaseOf(l.phases, c).entry in l.users
    ensures LocksOk(Left(l, c))
  {
    var e := PhaseOf(l.phases, c).entry;
    assert Caller(c) && Lock(e);
    var m := Left(l, c);
    OnlyUser(l.users[e], c);
    forall d {:trigger Caller(d)} | Caller(d)
      ensures CallerOk(m, d)
    {
      assert PathOk(l, PhaseOf(l.phases, c).path);
    }
    forall f {:trigger Lock(f)} | Lock(f)
      ensures LockOk(m, f)
    {
    }
    forall q {:trigger PathOk(m, q)}
      ensures PathOk(m, q)
    {
      assert PathOk(l, q);
    }
  }

  lemma OnlyUser(users: set<nat>, c: nat)
    requires c in users
    ensures |users - {c}| == |users| - 1
    ensures |users| == 1 ==> users == {c}
    ensures |users| > 1 ==> users - {c} != {}
  {
    if |users| == 1 {
      assert users - {c} == {};
    }
  }

  // ---------------------------------------------------------------------------
  // What a change is based on.

  datatype Handler = EditHandler(expected: string) | WriteHandler(expected: string)

  datatype MutationError = FileChanged | VersionRequired | NotFound

  // Lower case, without white space around and without the name of the hash.
  datatype Digests = Digests(digest: string -> string, normalize: string -> string)

  // An edit needs the current version; a write needs it exactly when the file
  // exists.
  predicate Accepts(h: Handler, d: Digests, current: Option<string>) {
    match h
    case EditHandler(expected) => current.Some? && d.normalize(expected) == d.digest(current.value)
    case WriteHandler(expected) =>
      if current.Some? then !IsBlank(expected) && d.normalize(expected) == d.digest(current.value) else IsBlank(expected)
  }

  /** The content a change may be made from: None to create a file. */
  method SelectBase(h: Handler, d: Digests, current: Option<string>) returns (r: Result<Option<string>, MutationError>)
    ensures r.Success? ==> r.value == current
    ensures r.Success? <==> Accepts(h, d, current)
    ensures h.EditHandler? ==>
              (r.Success? <==> current.Some? && d.normalize(h.expected) == d.digest(current.value))
    ensures h.WriteHandler? && current.Some? ==>
              (r.Success? <==> !IsBlank(h.expected) && d.normalize(h.expected) == d.digest(current.value))
    ensures h.WriteHandler? && current.None? ==> (r.Success? <==> IsBlank(h.expected))
    ensures r == Failure(FileChanged) <==>
              if current.None? then h.WriteHandler? && !IsBlank(h.expected)
              else d.normalize(h.expected) != d.digest(current.value) && (h.EditHandler? || !IsBlank(h.expected))
    ensures h.EditHandler? && current.None? ==> r == Failure(NotFound)
    ensures h.WriteHandler? && current.Some? && IsBlank(h.expected) ==> r == Failure(VersionRequired)
  {
    match h
    case EditHandler(expected) =>
      if current.None? {
        return Failure(NotFound);
      }
      if d.normalize(expected) != d.digest(current.value) {
        return Failure(FileChanged);
      }
      r := Success(current);
    case WriteHandler(expected) =>
      if current.Some? {
        if IsBlank(expected) {
          return Failure(VersionRequired);
        }
        if d.normalize(expected) != d.digest(current.value) {
          return Failure(FileChanged);
        }
        r := Success(current);
      } else {
        if !IsBlank(expected) {
          return Failure(FileChanged);
        }
        r := Success(None);
      }
  }

  // The last check before the change becomes visible.
  predicate ConditionHolds(d: Digests, base: Option<string>, current: Option<string>) {
    if base.Some? then current.Some? && d.digest(current.value) == d.digest(base.value) else current.None?
  }

  // Without injective digests the condition still compares digests.
  lemma ConditionComparesDigests(d: Digests, base: Option<string>, current: Option<string>)
    ensures ConditionHolds(d, base, current) <==>
              || (base.None? && current.None?)
              || (base.Some? && current.Some? && d.digest(base.value) == d.digest(current.value))
  {
  }

  lemma ConditionMeansSame(d: Digests, base: Option<string>, current: Option<string>)
    requires Injective(d.digest)
    ensures ConditionHolds(d, base, current) <==> base == current
  {
  }

  // A caller's base is the content of its file, unless someone outside the queue
  // has written it since.
  ghost predicate BaseOk(phases: map<nat, Phase>, files: map<string, string>, disturbed: set<nat>, c: nat) {
    var p := PhaseOf(phases, c);
    (p.Editing? || p.Checked?) && c !in disturbed ==> FileOf(files, p.path) == p.base
  }

  ghost predicate BasesOk(phases: map<nat, Phase>, files: map<string, string>, disturbed: set<nat>) {
    forall c {:trigger Caller(c)} | Caller(c) :: BaseOk(phases, files, disturbed, c)
  }

  // Every change was made from what was there when it took effect.
  ghost predicate CommitsOk(commits: seq<Commit>) {
    forall i | 0 <= i < |commits| :: commits[i].base == commits[i].before || commits[i].disturbed
  }

  lemma MoveKeepsBases(l: Locks, files: map<string, string>, disturbed: set<nat>, c: nat, p: Phase, now: set<nat>)
    requires BasesOk(l.phases, files, disturbed)
    requires forall d | d != c :: d in now <==> d in disturbed
    requires (p.Editing? || p.Checked?) && c !in now ==> FileOf(files, p.path) == p.base
    ensures BasesOk(l.phases[c := p], files, now)
  {
  }

  lemma RenameKeepsBases(l: Locks, files: map<string, string>, disturbed: set<nat>, c: nat, data: string)
    requires LocksOk(l) && BasesOk(l.phases, files, disturbed) && PhaseOf(l.phases, c).Checked?
    ensures var p := PhaseOf(l.phases, c);
            BasesOk(l.phases[c := Finished(p.path, p.entry)], files[p.path := data], disturbed)
  {
    var p := PhaseOf(l.phases, c);
    forall d {:trigger Caller(d)} | Caller(d)
      ensures BaseOk(l.phases[c := Finished(p.path, p.entry)], files[p.path := data], disturbed, d)
    {
      var q := PhaseOf(l.phases, d);
      if d != c && HasToken(q) && q.path == p.path {
        MutualExclusion(l, c, d);
      }
    }
  }

  // The map of entries, the entries themselves, where every caller stands, and
  // the name of the next entry.
  datatype Table = Table(entries: map<string, nat>, store: map<nat, Entry>, phases: map<nat, Phase>, next: nat)

  ghost function LocksOf(t: Table, users: map<nat, set<nat>>, holder: map<nat, Option<nat>>): Locks {
    Locks(t.entries, t.store, t.phases, users, holder, t.next)
  }

  function TableOf(l: Locks): Table {
    Table(l.entries, l.store, l.phases, l.next)
  }

  // The entry of a path; a new one has its token and no references yet.
  function WithEntry(t: Table, path: string): Table {
    if path in t.entries then t
    else t.(entries := t.entries[path := t.next], store := t.store[t.next := Entry(path, true, 0)], next := t.next + 1)
  }

  method AddReference(t: Table, c: nat, path: string) returns (u: Table)
    requires path in t.entries && t.entries[path] in t.store
    ensures var e := t.entries[path];
            u == t.(store := t.store[e := t.store[e].(refs := t.store[e].refs + 1)], phases := t.phases[c := Waiting(path, e)])
  {
    var e := t.entries[path];
    u := t.(store := t.store[e := t.store[e].(refs := t.store[e].refs + 1)], phases := t.phases[c := Waiting(path, e)]);
  }

  // The locked part of acquire.
  method EnterTable(t: Table, c: nat, path: string, ghost l: Locks) returns (u: Table)
    requires t == TableOf(l) && LocksOk(l)
    ensures path in l.entries ==> l.entries[path] in l.store && l.entries[path] in l.users
    ensures u == TableOf(Entered(l, c, path))
  {
    if path in t.entries {
      EntryOfPath(l, path);
    }
    u := AddReference(WithEntry(t, path), c, path);
  }

  lemma EntryOfPath(l: Locks, path: string)
    requires LocksOk(l) && path in l.entries
    ensures l.entries[path] in l.store && l.entries[path] in l.users && l.entries[path] < l.next
  {
    assert PathOk(l, path) && Lock(l.entries[path]);
  }

  class MutationQueue {
    const digests: Digests
    var table: Table
    var files: map<string, string>
    ghost var users: map<nat, set<nat>>
    ghost var holder: map<nat, Option<nat>>
    ghost var disturbed: set<nat>
    ghost var commits: seq<Commit>

    ghost function Now(): Locks
      reads this
    {
      LocksOf(table, users, holder)
    }

    ghost predicate Valid()
      reads this
    {
      LocksOk(Now()) && BasesOk(table.phases, files, disturbed) && CommitsOk(commits)
    }

    function At(c: nat): Phase
      reads this
    {
      PhaseOf(table.phases, c)
    }

    // A step of one caller: every other caller stands where it stood.
    twostate predicate Others(c: nat)
      reads this
    {
      forall d: nat {:trigger At(d)} | d != c :: At(d) == old(At(d))
    }

    constructor (d: Digests, initial: map<string, string>)
      ensures Valid() && digests == d && files == initial && commits == [] && disturbed == {}
      ensures forall c: nat :: At(c) == Idle
    {
      digests, table, files := d, Table(map[], map[], map[], 0), initial;
      users, holder, disturbed, commits := map[], map[], {}, [];
    }

    /** Asks for the token of a path: one step under the queue's lock. */
    method Enter(c: nat, path: string)
      requires Valid() && At(c) == Idle
      modifies this`table, this`users, this`holder
      ensures Valid() && Others(c) && At(c).Waiting? && At(c).path == path
    {
      EnterKeepsLocks(Now(), c, path);
      ghost var after := Entered(Now(), c, path);
      MoveKeepsBases(Now(), files, disturbed, c, after.phases[c], disturbed);
      var entered := EnterTable(table, c, path, Now());
      table, users, holder := entered, after.users, after.holder;
    }

    // The caller moves on; taking or giving back the token is part of the move.
    method Step(c: nat, p: Phase, ghost now: set<nat>)
      requires Valid() && p != Idle && At(c) != Idle
      requires p.path == At(c).path && p.entry == At(c).entry && p.entry in table.store
      requires HasToken(p) && !HasToken(At(c)) ==> table.store[p.entry].token
      requires forall d | d != c :: d in now <==> d in disturbed
      requires (p.Editing? || p.Checked?) && c !in now ==> FileOf(files, p.path) == p.base
      modifies this`table, this`holder, this`disturbed
      ensures Valid() && Others(c) && At(c) == p && disturbed == now
    {
      MoveKeepsLocks(Now(), c, p);
      MoveKeepsBases(Now(), files, disturbed, c, p, now);
      ghost var after := Moved(Now(), c, p);
      var t := table.(phases := table.phases[c := p]);
      if HasToken(At(c)) != HasToken(p) {
        t := t.(store := t.store[p.entry := t.store[p.entry].(token := HasToken(At(c)))]);
      }
      table, holder, disturbed := t, after.holder, now;
    }

    // A checked caller that nobody disturbed is about to replace its base.
    lemma CheckedBase(c: nat)
      requires Valid() && (At(c).Editing? || At(c).Checked?) && c !in disturbed
      ensures FileOf(files, At(c).path) == At(c).base
    {
      assert Caller(c);
    }

    // Every caller that is not idle has an entry.
    lemma EntryThere(c: nat)
      requires Valid() && At(c) != Idle
      ensures At(c).entry in table.store
    {
      assert Caller(c);
    }

    /** The wait is over: the caller takes the token out of its entry. */
    method TakeToken(c: nat)
      requires Valid() && At(c).Waiting?
      requires At(c).entry in table.store && table.store[At(c).entry].token
      modifies this`table, this`holder, this`disturbed
      ensures Valid() && Others(c) && At(c) == Holding(old(At(c)).path, old(At(c)).entry)
      ensures disturbed == old(disturbed)
    {
      Step(c, Holding(At(c).path, At(c).entry), disturbed);
    }

    /** Puts the token back, whatever the caller has done; a cancelled caller does
        so before anything else. */
    method GiveBack(c: nat)
      requires Valid() && HasToken(At(c))
      modifies this`table, this`holder, this`disturbed
      ensures Valid() && Others(c) && At(c) == Returning(old(At(c)).path, old(At(c)).entry)
      ensures disturbed == old(disturbed)
    {
      EntryThere(c);
      Step(c, Returning(At(c).path, At(c).entry), disturbed);
    }

    /** Drops the caller's reference, after its token or instead of it. The entry
        stays exactly as long as somebody else refers to it. */
    method ReleaseRef(c: nat)
      requires Valid() && (At(c).Waiting? || At(c).Returning?)
      modifies this`table, this`users
      ensures Valid() && Others(c) && At(c) == Idle
      ensures old(At(c)).path in table.entries <==> exists d: nat :: At(d) != Idle && At(d).path == old(At(c)).path
    {
      ghost var path := At(c).path;
      DropRef(c);
      EntryUsed(path);
    }

    lemma EntryUsed(path: string)
      requires Valid()
      ensures path in table.entries <==> exists d: nat :: At(d) != Idle && At(d).path == path
    {
      EntryIffUsed(Now(), path);
      if c: nat :| PhaseOf(table.phases, c) != Idle && PhaseOf(table.phases, c).path == path {
        assert At(c) != Idle && At(c).path == path;
      }
      if d: nat :| At(d) != Idle && At(d).path == path {
        assert PhaseOf(table.phases, d) != Idle && PhaseOf(table.phases, d).path == path;
      }
    }

    method DropRef(c: nat)
      requires Valid() && (At(c).Waiting? || At(c).Returning?)
      modifies this`table, this`users
      ensures Valid() && Others(c) && At(c) == Idle
    {
      LeaveKeepsLocks(Now(), c);
      MoveKeepsBases(Now(), files, disturbed, c, Idle, disturbed);
      ghost var after := Left(Now(), c);
      var path, e := At(c).path, At(c).entry;
      var refs := table.store[e].refs - 1;
      EntryIsExact(Now(), c);
      var t := table.(phases := table.phases[c := Idle]);
      if refs == 0 && table.entries[path] == e {
        t := t.(entries := t.entries - {path}, store := t.store - {e});
      } else {
        t := t.(store := t.store[e := t.store[e].(refs := refs)]);
      }
      table, users := t, after.users;
    }

    /** Under the token: reads the file and decides what the change is made from.
        A caller that may not change the file only has to leave. */
    method Observe(c: nat, h: Handler) returns (error: Option<MutationError>)
      requires Valid() && At(c).Holding?
      modifies this`table, this`holder, this`disturbed
      ensures Valid() && Others(c)
      ensures error.None? <==> Accepts(h, digests, FileOf(files, old(At(c)).path))
      ensures error.None? && old(At(c)).path in files ==>
                && digests.normalize(h.expected) == digests.digest(files[old(At(c)).path])
                && At(c).Editing? && At(c).base == Some(files[old(At(c)).path])
      ensures error.None? && old(At(c)).path !in files ==>
                h.WriteHandler? && IsBlank(h.expected) && At(c).Editing? && At(c).base == None
      ensures error.Some? && old(At(c)).path in files ==>
                || digests.normalize(h.expected) != digests.digest(files[old(At(c)).path])
                || (h.WriteHandler? && IsBlank(h.expected))
      ensures error.Some? && old(At(c)).path !in files ==> h.EditHandler? || !IsBlank(h.expected)
      ensures error.None? ==> At(c) == Editing(old(At(c)).path, old(At(c)).entry, FileOf(files, old(At(c)).path))
      ensures error.Some? ==> At(c) == Finished(old(At(c)).path, old(At(c)).entry)
      ensures disturbed == if error.None? then old(disturbed) - {c} else old(disturbed)
    {
      EntryThere(c);
      var p := At(c);
      var base := SelectBase(h, digests, FileOf(files, p.path));
      if base.Failure? {
        Step(c, Finished(p.path, p.entry), disturbed);
        return Some(base.error);
      }
      Step(c, Editing(p.path, p.entry, base.value), disturbed - {c});
      error := None;
    }

    /** The last look before the change takes effect. Against writers of this
        queue alone it always succeeds. */
    method Recheck(c: nat) returns (ok: bool)
      requires Valid() && At(c).Editing? && Injective(digests.digest)
      modifies this`table, this`holder, this`disturbed
      ensures Valid() && Others(c)
      ensures ok <==> old(At(c)).base == FileOf(files, old(At(c)).path)
      ensures ok <==> old(At(c)).base == if old(At(c)).path in files then Some(files[old(At(c)).path]) else None
      ensures c !in old(disturbed) ==> ok
      ensures disturbed == if ok then old(disturbed) - {c} else old(disturbed)
      ensures ok ==> At(c) == Checked(old(At(c)).path, old(At(c)).entry, old(At(c)).base)
      ensures !ok ==> At(c) == Finished(old(At(c)).path, old(At(c)).entry)
    {
      EntryThere(c);
      assert Caller(c);
      var p := At(c);
      ok := ConditionHolds(digests, p.base, FileOf(files, p.path));
      ConditionMeansSame(digests, p.base, FileOf(files, p.path));
      if ok {
        Step(c, Checked(p.path, p.entry, p.base), disturbed - {c});
      } else {
        Step(c, Finished(p.path, p.entry), disturbed);
      }
    }

    /** The change takes effect. It was made from the content it replaces, unless
        someone outside the queue wrote the file after the last check. */
    method Rename(c: nat, data: string)
      requires Valid() && At(c).Checked?
      modifies this`table, this`files, this`commits
      ensures Valid() && Others(c) && At(c) == Finished(old(At(c)).path, old(At(c)).entry)
      ensures files == old(files)[old(At(c)).path := data]
      ensures commits == old(commits) + [Commit(old(At(c)).path, old(At(c)).base, FileOf(old(files), old(At(c)).path), data,
                                                c in disturbed)]
    {
      EntryThere(c);
      assert Caller(c);
      var p := At(c);
      MoveKeepsLocks(Now(), c, Finished(p.path, p.entry));
      RenameKeepsBases(Now(), files, disturbed, c, data);
      commits := commits + [Commit(p.path, p.base, FileOf(files, p.path), data, c in disturbed)];
      table := table.(phases := table.phases[c := Finished(p.path, p.entry)]);
      files := files[p.path := data];
    }

    // Whoever has the token of a path.
    ghost function Holders(path: string): set<nat>
      reads this`table
    {
      set c | c in table.phases && HasToken(table.phases[c]) && table.phases[c].path == path
    }

    /** Someone outside the queue writes or removes a file: it disturbs exactly
        the one that has the token of that path. */
    method OutsideWrite(path: string, content: Option<string>)
      requires Valid()
      modifies this`files, this`disturbed
      ensures Valid() && table == old(table) && commits == old(commits)
      ensures files == if content.Some? then old(files)[path := content.value] else old(files) - {path}
      ensures disturbed == old(disturbed) + Holders(path)
    {
      files := if content.Some? then files[path := content.value] else files - {path};
      disturbed := disturbed + Holders(path);
      forall c {:trigger Caller(c)} | Caller(c)
        ensures BaseOk(table.phases, files, disturbed, c)
      {
        assert BaseOk(table.phases, old(files), old(disturbed), c);
      }
    }
  }

  // The files after some commits.
  function FilesAfter(files: map<string, string>, commits: seq<Commit>): map<string, string> {
    if commits == [] then files
    else FilesAfter(files, commits[..|commits| - 1])[commits[|commits| - 1].path := commits[|commits| - 1].after]
  }

  // Every commit was made from what the commits before it had left.
  ghost predicate NothingLost(files: map<string, string>, commits: seq<Commit>) {
    forall i | 0 <= i < |commits| ::
      && commits[i].base == commits[i].before
      && commits[i].before == FileOf(FilesAfter(files, commits[..i]), commits[i].path)
  }

  lemma CommitNext(files: map<string, string>, commits: seq<Commit>, c: Commit)
    requires NothingLost(files, commits)
    requires c.base == c.before == FileOf(FilesAfter(files, commits), c.path)
    ensures NothingLost(files, commits + [c])
    ensures FilesAfter(files, commits + [c]) == FilesAfter(files, commits)[c.path := c.after]
  {
    var all := commits + [c];
    assert all[..|commits|] == commits;
    forall i | 0 <= i < |all|
      ensures all[i].base == all[i].before == FileOf(FilesAfter(files, all[..i]), all[i].path)
    {
      if i < |commits| {
        assert all[i] == commits[i] && all[..i] == commits[..i];
      }
    }
  }

  // Which step a caller takes next, and with what.
  datatype Move = Enter(path: string) | Take | Leave | Look(h: Handler) | Check | Replace(data: string) | Return

  /** One step of one caller, whatever it is, if the caller can take it now. */
  method AnyStep(q: MutationQueue, c: nat, move: Move, ghost initial: map<string, string>)
    requires q.Valid() && Injective(q.digests.digest) && q.disturbed == {}
    requires NothingLost(initial, q.commits) && q.files == FilesAfter(initial, q.commits)
    modifies q
    ensures q.Valid() && q.Others(c) && q.disturbed == {}
    ensures NothingLost(initial, q.commits) && q.files == FilesAfter(initial, q.commits)
    ensures old(q.commits) <= q.commits
  {
    var p := q.At(c);
    match move
    case Enter(path) =>
      if p.Idle? {
        q.Enter(c, path);
      }
    case Take =>
      if p.Waiting? {
        q.EntryThere(c);
        if q.table.store[p.entry].token {
          q.TakeToken(c);
        }
      }
    case Leave =>
      if p.Waiting? || p.Returning? {
        q.ReleaseRef(c);
      }
    case Look(h) =>
      if p.Holding? {
        var error := q.Observe(c, h);
      }
    case Check =>
      if p.Editing? {
        var ok := q.Recheck(c);
      }
    case Replace(data) =>
      if p.Checked? {
        CommitAlone(q, c, data, initial);
      }
    case Return =>
      if HasToken(p) {
        q.GiveBack(c);
      }
  }

  // A commit that nobody outside has disturbed.
  method CommitAlone(q: MutationQueue, c: nat, data: string, ghost initial: map<string, string>)
    requires q.Valid() && q.At(c).Checked? && q.disturbed == {}
    requires NothingLost(initial, q.commits) && q.files == FilesAfter(initial, q.commits)
    modifies q
    ensures q.Valid() && q.Others(c) && q.disturbed == {}
    ensures NothingLost(initial, q.commits) && q.files == FilesAfter(initial, q.commits)
    ensures old(q.commits) <= q.commits
  {
    ghost var done := q.commits;
    ghost var p := q.At(c);
    ghost var commit := Commit(p.path, p.base, FileOf(q.files, p.path), data, false);
    q.CheckedBase(c);
    CommitNext(initial, done, commit);
    q.Rename(c, data);
    assert q.commits == done + [commit];
  }

  /** Any number of callers, in any interleaving, with any cancellations: as long
      as only they write, every commit was made from the content immediately
      before it, and the files are what the commits made of them. */
  method Interleave(q: MutationQueue, schedule: seq<(nat, Move)>)
    requires q.Valid() && Injective(q.digests.digest) && q.disturbed == {} && q.commits == []
    modifies q
    ensures q.Valid() && q.disturbed == {}
    ensures NothingLost(old(q.files), q.commits) && q.files == FilesAfter(old(q.files), q.commits)
  {
    ghost var initial := q.files;
    for i := 0 to |schedule|
      invariant q.Valid() && q.disturbed == {}
      invariant NothingLost(initial, q.commits) && q.files == FilesAfter(initial, q.commits)
    {
      AnyStep(q, schedule[i].0, schedule[i].1, initial);
    }
  }
}
