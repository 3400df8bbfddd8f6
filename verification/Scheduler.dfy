/** The batch scheduler: FIFO queues of claims, counters of grants, and a heap of the calls that may run. */
module Scheduler {
  import opened Dependency
  import Heap = RunnableHeap

  // The main result: the heap holds call c if and only if c may start under the
  // rule of module Dependency.

  datatype Entry = Entry(call: nat, mode: Mode)

  // The entries before `next` have been granted; `reserved` counts those of
  // them that have not been released yet.
  datatype Queue = Queue(entries: seq<Entry>, next: nat, reserved: int)

  datatype ScheduledCall = ScheduledCall(prepared: Prepared, ready: nat, claimCount: nat)

  // Always true; a proof mentions it for the one key whose queue it looks at.
  ghost predicate At(k: string) {
    true
  }

  predicate Blocks(a: Entry, b: Entry) {
    a.mode.Exclusive? || b.mode.Exclusive?
  }

  ghost predicate Ascending(entries: seq<Entry>) {
    forall x, y | 0 <= x < y < |entries| :: entries[x].call < entries[y].call
  }

  // The queue of key k lists exactly the claims on k of the first n calls, in
  // source order.
  ghost predicate Shape(q: Queue, k: string, ps: seq<Prepared>, n: nat)
    requires n <= |ps|
  {
    && Ascending(q.entries)
    && (forall x | 0 <= x < |q.entries| ::
          q.entries[x].call < n && Claim(k, q.entries[x].mode) in ps[q.entries[x].call].claims)
    && (forall c: nat, m | c < n && Claim(k, m) in ps[c].claims :: Entry(c, m) in q.entries)
  }

  // How many of the first n entries belong to calls outside `done`.
  ghost function Open(entries: seq<Entry>, n: nat, done: set<nat>): nat
    requires n <= |entries|
  {
    if n == 0 then 0
    else Open(entries, n - 1, done) + (if entries[n - 1].call in done then 0 else 1)
  }

  ghost predicate QueueSafe(q: Queue, done: set<nat>) {
    && q.next <= |q.entries|
    && q.reserved == Open(q.entries, q.next, done)
    && (forall x | q.next <= x < |q.entries| :: q.entries[x].call !in done)
    && (forall x, y | 0 <= x < y < q.next && Blocks(q.entries[x], q.entries[y]) :: q.entries[x].call in done)
  }

  // The first waiting entry really has to wait.
  ghost predicate QueueEager(q: Queue, done: set<nat>)
    requires q.next <= |q.entries|
  {
    q.next < |q.entries| ==>
      exists x | 0 <= x < q.next :: q.entries[x].call !in done && Blocks(q.entries[x], q.entries[q.next])
  }

  ghost predicate QueueOk(q: Queue, done: set<nat>) {
    QueueSafe(q, done) && QueueEager(q, done)
  }

  lemma {:induction false} OpenZero(entries: seq<Entry>, n: nat, done: set<nat>)
    requires n <= |entries|
    ensures Open(entries, n, done) == 0 <==> forall x | 0 <= x < n :: entries[x].call in done
  {
    if n > 0 {
      OpenZero(entries, n - 1, done);
    }
  }

  lemma {:induction false} OpenRelease(entries: seq<Entry>, n: nat, done: set<nat>, c: nat)
    requires n <= |entries| && Ascending(entries) && c !in done
    ensures Open(entries, n, done + {c}) ==
            Open(entries, n, done) - (if exists x | 0 <= x < n :: entries[x].call == c then 1 else 0)
  {
    if n > 0 {
      OpenRelease(entries, n - 1, done, c);
    }
  }

  /** A queue grants an entry if and only if every earlier entry it clashes
      with has been released. */
  lemma GrantedIff(q: Queue, done: set<nat>, y: nat)
    requires QueueOk(q, done) && y < |q.entries|
    ensures y < q.next <==>
            forall x | 0 <= x < y && Blocks(q.entries[x], q.entries[y]) :: q.entries[x].call in done
  {
    if q.next <= y {
      var x :| 0 <= x < q.next && q.entries[x].call !in done && Blocks(q.entries[x], q.entries[q.next]);
      if q.next < y && !Blocks(q.entries[x], q.entries[y]) {
        assert Blocks(q.entries[q.next], q.entries[y]);
      }
    }
  }

  ghost predicate IsGranted(q: Queue, c: nat) {
    exists x | 0 <= x < q.next <= |q.entries| :: q.entries[x].call == c
  }

  ghost predicate HoldsKey(resources: map<string, Queue>, k: string, c: nat) {
    k in resources && IsGranted(resources[k], c)
  }

  // How many of the claims of call c have been granted.
  ghost function GrantedCount(resources: map<string, Queue>, claims: seq<Claim>, c: nat): nat {
    if claims == [] then 0
    else
      var last := |claims| - 1;
      GrantedCount(resources, claims[..last], c) + (if HoldsKey(resources, claims[last].key, c) then 1 else 0)
  }

  ghost predicate HoldsClaims(resources: map<string, Queue>, claims: seq<Claim>, c: nat) {
    forall x | 0 <= x < |claims| :: HoldsKey(resources, claims[x].key, c)
  }

  lemma {:induction false} FullCount(resources: map<string, Queue>, claims: seq<Claim>, c: nat)
    ensures GrantedCount(resources, claims, c) <= |claims|
    ensures GrantedCount(resources, claims, c) == |claims| <==> HoldsClaims(resources, claims, c)
  {
    if claims != [] {
      var last := |claims| - 1;
      FullCount(resources, claims[..last], c);
    }
  }

  lemma {:induction false} SameCount(was: map<string, Queue>, now: map<string, Queue>, claims: seq<Claim>, c: nat)
    requires forall x | 0 <= x < |claims| :: HoldsKey(now, claims[x].key, c) <==> HoldsKey(was, claims[x].key, c)
    ensures GrantedCount(now, claims, c) == GrantedCount(was, claims, c)
  {
    if claims != [] {
      SameCount(was, now, claims[..|claims| - 1], c);
    }
  }

  // One more granted key is one more granted claim, since keys are distinct.
  lemma {:induction false} OneMoreKey(was: map<string, Queue>, now: map<string, Queue>, claims: seq<Claim>, c: nat, x: nat)
    requires DistinctKeys(claims) && x < |claims|
    requires !HoldsKey(was, claims[x].key, c) && HoldsKey(now, claims[x].key, c)
    requires forall y | 0 <= y < |claims| && y != x ::
               HoldsKey(now, claims[y].key, c) <==> HoldsKey(was, claims[y].key, c)
    ensures GrantedCount(now, claims, c) == GrantedCount(was, claims, c) + 1
  {
    var last := |claims| - 1;
    if x == last {
      SameCount(was, now, claims[..last], c);
    } else {
      OneMoreKey(was, now, claims[..last], c, x);
    }
  }

  function Ranks(ps: seq<Prepared>): (r: seq<int>)
    ensures |r| == |ps| && forall i | 0 <= i < |ps| :: r[i] == ps[i].batchIndex
  {
    seq(|ps|, i requires 0 <= i < |ps| => ps[i].batchIndex)
  }

  // The parts that are fixed once the constructor has filled them in.
  ghost predicate TablesOk(ps: seq<Prepared>, calls: seq<ScheduledCall>, resources: map<string, Queue>) {
    var ok :=
      && WellFormed(ps)
      && |calls| == |ps|
      && (forall i | 0 <= i < |ps| :: calls[i].prepared == ps[i] && calls[i].claimCount == |ps[i].claims|)
      && (forall k {:trigger At(k)} | At(k) && k in resources :: Shape(resources[k], k, ps, |ps|))
      && (forall i, claim | 0 <= i < |ps| && claim in ps[i].claims :: claim.key in resources);
    ok
  }

  ghost predicate HoldsAll(ps: seq<Prepared>, resources: map<string, Queue>, c: nat)
    requires c < |ps|
  {
    HoldsClaims(resources, ps[c].claims, c)
  }

  // `ready` counts granted claims.
  ghost predicate ReadyOk(ps: seq<Prepared>, calls: seq<ScheduledCall>, resources: map<string, Queue>)
    requires |calls| == |ps|
  {
    forall c | 0 <= c < |calls| :: calls[c].ready == GrantedCount(resources, ps[c].claims, c)
  }

  // The heap holds, once each, the calls that hold all of their keys and have
  // not been started.
  ghost predicate HeapOk(ps: seq<Prepared>, resources: map<string, Queue>, runnable: seq<nat>, started: set<nat>) {
    var ok :=
      && Heap.InRange(runnable, Ranks(ps))
      && Heap.IsHeap(runnable, Ranks(ps))
      && (forall c: nat | c in started :: c < |ps| && HoldsAll(ps, resources, c))
      && (forall c: nat {:trigger multiset(runnable)[c]} | c < |ps| ::
            multiset(runnable)[c] == if c !in started && HoldsAll(ps, resources, c) then 1 else 0);
    ok
  }

  function Advance(q: Queue): Queue {
    q.(next := q.next + 1, reserved := q.reserved + 1)
  }

  // Advancing a queue grants its next entry and nothing else.
  lemma AdvanceGrantsOneEntry(q: Queue, d: nat)
    requires q.next < |q.entries| && Ascending(q.entries)
    ensures IsGranted(Advance(q), d) <==> IsGranted(q, d) || d == q.entries[q.next].call
    ensures !IsGranted(q, q.entries[q.next].call)
  {
    var r := Advance(q);
    assert r.entries[q.next] == q.entries[q.next];
    if IsGranted(q, d) {
      var x :| 0 <= x < q.next && q.entries[x].call == d;
      assert r.entries[x].call == d;
    }
  }

  lemma AdvanceKeepsTables(ps: seq<Prepared>, calls: seq<ScheduledCall>, resources: map<string, Queue>, k: string)
    requires TablesOk(ps, calls, resources)
    requires k in resources
    ensures TablesOk(ps, calls, resources[k := Advance(resources[k])])
  {
    var q := resources[k];
    assert At(k) && Shape(q, k, ps, |ps|);
    assert Shape(Advance(q), k, ps, |ps|);
  }

  // Granting the next entry of queue k, seen from every call.
  lemma AdvanceHoldsOneKey(ps: seq<Prepared>, calls: seq<ScheduledCall>, resources: map<string, Queue>, k: string)
    requires TablesOk(ps, calls, resources)
    requires k in resources && resources[k].next < |resources[k].entries|
    ensures var c := resources[k].entries[resources[k].next].call;
            var resources' := resources[k := Advance(resources[k])];
            && c < |ps| && !HoldsKey(resources, k, c) && HoldsKey(resources', k, c)
            && forall d: nat, j | d != c || j != k :: HoldsKey(resources', j, d) <==> HoldsKey(resources, j, d)
  {
    var q := resources[k];
    var resources' := resources[k := Advance(q)];
    var c := q.entries[q.next].call;
    assert At(k) && Shape(q, k, ps, |ps|);
    AdvanceGrantsOneEntry(q, c);
    forall d: nat, j | d != c || j != k
      ensures HoldsKey(resources', j, d) <==> HoldsKey(resources, j, d)
    {
      AdvanceGrantsOneEntry(q, d);
    }
  }

  // ... and counted.
  lemma AdvanceCounts(ps: seq<Prepared>, calls: seq<ScheduledCall>, resources: map<string, Queue>, k: string)
    requires TablesOk(ps, calls, resources)
    requires k in resources && resources[k].next < |resources[k].entries|
    ensures var c := resources[k].entries[resources[k].next].call;
            var resources' := resources[k := Advance(resources[k])];
            && c < |ps| && !HoldsAll(ps, resources, c)
            && GrantedCount(resources', ps[c].claims, c) == GrantedCount(resources, ps[c].claims, c) + 1
            && forall d: nat | d < |ps| && d != c ::
                 && GrantedCount(resources', ps[d].claims, d) == GrantedCount(resources, ps[d].claims, d)
                 && HoldsAll(ps, resources', d) == HoldsAll(ps, resources, d)
  {
    var q := resources[k];
    var resources' := resources[k := Advance(q)];
    var c := q.entries[q.next].call;
    AdvanceHoldsOneKey(ps, calls, resources, k);
    assert At(k) && Shape(q, k, ps, |ps|);
    assert Claim(k, q.entries[q.next].mode) in ps[c].claims;
    var x :| 0 <= x < |ps[c].claims| && ps[c].claims[x] == Claim(k, q.entries[q.next].mode);
    OneMoreKey(resources, resources', ps[c].claims, c, x);
    forall d: nat | d < |ps| && d != c
      ensures GrantedCount(resources', ps[d].claims, d) == GrantedCount(resources, ps[d].claims, d)
      ensures HoldsAll(ps, resources', d) == HoldsAll(ps, resources, d)
    {
      SameCount(resources, resources', ps[d].claims, d);
    }
  }

  ghost predicate GrantsOk(ps: seq<Prepared>, calls: seq<ScheduledCall>, resources: map<string, Queue>,
                           runnable: seq<nat>, started: set<nat>) {
    var ok :=
      && TablesOk(ps, calls, resources)
      && ReadyOk(ps, calls, resources)
      && HeapOk(ps, resources, runnable, started);
    ok
  }

  ghost predicate IndexOk(ps: seq<Prepared>, byBatchIndex: map<nat, nat>) {
    forall i | 0 <= i < |ps| :: ps[i].batchIndex in byBatchIndex && byBatchIndex[ps[i].batchIndex] == i
  }

  // `running` counts the calls that have been started and not completed.
  ghost predicate RunningOk(running: int, started: set<nat>, completed: set<nat>, active: set<nat>) {
    && completed <= started
    && (forall j :: j in active <==> j in started && j !in completed)
    && running == |active|
  }

  // A call enters the heap exactly when its last key is granted.
  lemma AdvanceKeepsHeap(ps: seq<Prepared>, calls: seq<ScheduledCall>, resources: map<string, Queue>, k: string,
                         runnable: seq<nat>, started: set<nat>, runnable': seq<nat>)
    requires TablesOk(ps, calls, resources) && HeapOk(ps, resources, runnable, started)
    requires k in resources && resources[k].next < |resources[k].entries|
    requires Heap.InRange(runnable', Ranks(ps)) && Heap.IsHeap(runnable', Ranks(ps))
    requires var c := resources[k].entries[resources[k].next].call;
             c < |ps| &&
             multiset(runnable') == multiset(runnable) +
               (if GrantedCount(resources, ps[c].claims, c) + 1 == |ps[c].claims| then multiset{c} else multiset{})
    ensures HeapOk(ps, resources[k := Advance(resources[k])], runnable', started)
  {
    var resources' := resources[k := Advance(resources[k])];
    var c := resources[k].entries[resources[k].next].call;
    AdvanceCounts(ps, calls, resources, k);
    FullCount(resources', ps[c].claims, c);
    assert multiset(runnable)[c] == 0;
    forall d: nat | d < |ps|
      ensures multiset(runnable')[d] == if d !in started && HoldsAll(ps, resources', d) then 1 else 0
    {
      assert multiset(runnable)[d] == if d !in started && HoldsAll(ps, resources, d) then 1 else 0;
    }
  }

  lemma AdvanceKeepsReady(ps: seq<Prepared>, calls: seq<ScheduledCall>, resources: map<string, Queue>, k: string, c: nat)
    requires TablesOk(ps, calls, resources) && ReadyOk(ps, calls, resources)
    requires k in resources && resources[k].next < |resources[k].entries|
    requires c == resources[k].entries[resources[k].next].call && c < |ps|
    ensures var calls' := calls[c := calls[c].(ready := calls[c].ready + 1)];
            var resources' := resources[k := Advance(resources[k])];
            TablesOk(ps, calls', resources') && ReadyOk(ps, calls', resources')
  {
    AdvanceCounts(ps, calls, resources, k);
    AdvanceKeepsTables(ps, calls, resources, k);
  }

  lemma AdvanceKeepsGrants(ps: seq<Prepared>, calls: seq<ScheduledCall>, resources: map<string, Queue>,
                           runnable: seq<nat>, started: set<nat>, k: string, c: nat, runnable': seq<nat>)
    requires GrantsOk(ps, calls, resources, runnable, started)
    requires k in resources && resources[k].next < |resources[k].entries|
    requires c == resources[k].entries[resources[k].next].call && c < |ps|
    requires Heap.InRange(runnable', Ranks(ps)) && Heap.IsHeap(runnable', Ranks(ps))
    requires multiset(runnable') == multiset(runnable) +
               (if calls[c].ready + 1 == calls[c].claimCount then multiset{c} else multiset{})
    ensures GrantsOk(ps, calls[c := calls[c].(ready := calls[c].ready + 1)],
                     resources[k := Advance(resources[k])], runnable', started)
  {
    AdvanceKeepsReady(ps, calls, resources, k, c);
    AdvanceKeepsHeap(ps, calls, resources, k, runnable, started, runnable');
  }

  // The call behind the first waiting entry of queue k gets one key more, and is
  // admitted when that was its last one.
  method GrantFirst(ps: seq<Prepared>, calls: seq<ScheduledCall>, resources: map<string, Queue>, runnable: seq<nat>,
                    ghost started: set<nat>, k: string)
    returns (granted: seq<ScheduledCall>, heap: seq<nat>)
    requires GrantsOk(ps, calls, resources, runnable, started)
    requires k in resources && resources[k].next < |resources[k].entries|
    ensures GrantsOk(ps, granted, resources[k := Advance(resources[k])], heap, started)
  {
    var q := resources[k];
    assert At(k) && Shape(q, k, ps, |ps|);
    var c := q.entries[q.next].call;
    heap := runnable;
    if calls[c].ready + 1 == calls[c].claimCount {
      heap := Heap.Push(runnable, c, Ranks(ps));
    }
    AdvanceKeepsGrants(ps, calls, resources, runnable, started, k, c, heap);
    granted := calls[c := calls[c].(ready := calls[c].ready + 1)];
  }

  // A waiting queue whose granted entries are all released.
  ghost predicate Drained(q: Queue, done: set<nat>) {
    QueueSafe(q, done) && q.reserved == 0
  }

  lemma AdvanceExclusive(q: Queue, done: set<nat>)
    requires Drained(q, done) && q.next < |q.entries| && q.entries[q.next].mode.Exclusive?
    ensures QueueOk(Advance(q), done)
  {
    OpenZero(q.entries, q.next, done);
    var r := Advance(q);
    if r.next < |r.entries| {
      assert Blocks(r.entries[q.next], r.entries[r.next]);
    }
  }

  // The queue while a run of shared entries that begins at `first` is granted.
  ghost predicate GrantingShared(q: Queue, done: set<nat>, first: nat) {
    && QueueSafe(q, done)
    && first <= q.next
    && (forall x | 0 <= x < first :: q.entries[x].call in done)
    && (forall x | first <= x < q.next :: q.entries[x].mode.Shared? && q.entries[x].call !in done)
  }

  lemma AdvanceShared(q: Queue, done: set<nat>, first: nat)
    requires GrantingShared(q, done, first)
    requires q.next < |q.entries| && q.entries[q.next].mode.Shared?
    ensures GrantingShared(Advance(q), done, first)
  {
  }

  lemma SharedRunIsMaximal(q: Queue, done: set<nat>, first: nat)
    requires GrantingShared(q, done, first) && first < q.next
    requires q.next < |q.entries| ==> q.entries[q.next].mode.Exclusive?
    ensures QueueOk(q, done)
  {
    if q.next < |q.entries| {
      assert Blocks(q.entries[first], q.entries[q.next]);
    }
  }

  // Releasing one granted entry.  When others remain, the queue still has to
  // wait; when it was the last one, the queue is drained.
  lemma ReleaseEntry(q: Queue, done: set<nat>, c: nat)
    requires QueueOk(q, done) && Ascending(q.entries) && IsGranted(q, c) && c !in done
    ensures var r := q.(reserved := q.reserved - 1);
            QueueSafe(r, done + {c}) && (r.reserved == 0 || QueueOk(r, done + {c}))
  {
    var r := q.(reserved := q.reserved - 1);
    OpenRelease(q.entries, q.next, done, c);
    var p :| 0 <= p < q.next && q.entries[p].call == c;
    if r.reserved != 0 && q.next < |q.entries| {
      OpenZero(q.entries, q.next, done + {c});
      var o :| 0 <= o < q.next && q.entries[o].call !in done + {c};
      var x :| 0 <= x < q.next && q.entries[x].call !in done && Blocks(q.entries[x], q.entries[q.next]);
      assert Blocks(q.entries[o], q.entries[q.next]);
    }
  }

  lemma UnrelatedQueue(q: Queue, done: set<nat>, c: nat)
    requires QueueOk(q, done) && Ascending(q.entries)
    requires forall x | 0 <= x < |q.entries| :: q.entries[x].call != c
    ensures QueueOk(q, done + {c})
  {
    if c !in done {
      OpenRelease(q.entries, q.next, done, c);
    } else {
      assert done + {c} == done;
    }
  }

  // Only the counters of queue k differ.
  ghost predicate SameExcept(was: map<string, Queue>, now: map<string, Queue>, k: string) {
    var same :=
      && was.Keys == now.Keys
      && (forall j | j in was :: now[j].entries == was[j].entries)
      && (forall j | j in was && j != k :: now[j] == was[j]);
    same
  }

  // Grants do not depend on the `reserved` counters.
  lemma CountersDoNotGrant(ps: seq<Prepared>, calls: seq<ScheduledCall>, resources: map<string, Queue>, k: string,
                           r: int, runnable: seq<nat>, started: set<nat>)
    requires k in resources
    requires TablesOk(ps, calls, resources) && ReadyOk(ps, calls, resources) && HeapOk(ps, resources, runnable, started)
    ensures var resources' := resources[k := resources[k].(reserved := r)];
            TablesOk(ps, calls, resources') && ReadyOk(ps, calls, resources') && HeapOk(ps, resources', runnable, started)
  {
    var q := resources[k].(reserved := r);
    var resources' := resources[k := q];
    assert At(k) && Shape(resources[k], k, ps, |ps|);
    assert At(k) && Shape(q, k, ps, |ps|);
    forall d: nat, j
      ensures HoldsKey(resources', j, d) <==> HoldsKey(resources, j, d)
    {
      if j == k && IsGranted(resources[k], d) {
        var x :| 0 <= x < q.next <= |q.entries| && resources[k].entries[x].call == d;
        assert q.entries[x].call == d;
      }
    }
    forall d: nat | d < |ps|
      ensures HoldsAll(ps, resources', d) == HoldsAll(ps, resources, d)
      ensures GrantedCount(resources', ps[d].claims, d) == GrantedCount(resources, ps[d].claims, d)
    {
      SameCount(resources, resources', ps[d].claims, d);
    }
  }
  // The counter of one queue goes down; the other queues stay as they are.
  lemma CounterReleased(ps: seq<Prepared>, calls: seq<ScheduledCall>, resources: map<string, Queue>, k: string, q: Queue,
                        runnable: seq<nat>, started: set<nat>, now: map<string, Queue>)
    requires k in resources && GrantsOk(ps, calls, resources, runnable, started)
    requires q == resources[k].(reserved := q.reserved) && now == resources[k := q]
    ensures GrantsOk(ps, calls, now, runnable, started) && SameExcept(resources, now, k) && now[k] == q
  {
    CountersDoNotGrant(ps, calls, resources, k, q.reserved, runnable, started);
  }


  ghost predicate QueuesOk(resources: map<string, Queue>, done: set<nat>) {
    forall k {:trigger At(k)} | At(k) && k in resources :: QueueOk(resources[k], done)
  }

  // The position of a claim in its queue.
  lemma PositionOf(ps: seq<Prepared>, resources: map<string, Queue>, c: nat, claim: Claim) returns (x: nat)
    requires claim.key in resources && Shape(resources[claim.key], claim.key, ps, |ps|)
    requires c < |ps| && claim in ps[c].claims
    ensures x < |resources[claim.key].entries| && resources[claim.key].entries[x] == Entry(c, claim.mode)
  {
    assert Claim(claim.key, claim.mode) in ps[c].claims;
    assert Entry(c, claim.mode) in resources[claim.key].entries;
    x :| x < |resources[claim.key].entries| && resources[claim.key].entries[x] == Entry(c, claim.mode);
  }

  // In one queue, everything a granted entry clashes with has been released.
  lemma GrantedEntryIsClear(q: Queue, done: set<nat>, x: nat, y: nat)
    requires QueueSafe(q, done) && Ascending(q.entries)
    requires x < |q.entries| && y < |q.entries| && q.entries[x].call < q.entries[y].call
    requires IsGranted(q, q.entries[y].call) && Blocks(q.entries[x], q.entries[y])
    ensures q.entries[x].call in done
  {
    var z :| 0 <= z < q.next <= |q.entries| && q.entries[z].call == q.entries[y].call;
    assert z == y;
    assert x < y;
  }

  // A call that holds all its keys waits for nobody.
  lemma HolderHasNoConflict(ps: seq<Prepared>, calls: seq<ScheduledCall>, resources: map<string, Queue>,
                            completed: set<nat>, c: nat, i: nat)
    requires TablesOk(ps, calls, resources) && QueuesOk(resources, completed)
    requires c < |ps| && HoldsAll(ps, resources, c)
    requires i < c && Conflict(ps, i, c)
    ensures i in completed
  {
    var a, b :| a in ps[i].claims && b in ps[c].claims && Clash(a, b);
    assert At(a.key) && At(b.key);
    var x := PositionOf(ps, resources, i, a);
    var y := PositionOf(ps, resources, c, b);
    var m :| 0 <= m < |ps[c].claims| && ps[c].claims[m] == b;
    assert HoldsKey(resources, ps[c].claims[m].key, c);
    GrantedEntryIsClear(resources[a.key], completed, x, y);
  }

  // A call that waits for nobody holds all its keys.
  lemma UnblockedCallHoldsAll(ps: seq<Prepared>, calls: seq<ScheduledCall>, resources: map<string, Queue>,
                              completed: set<nat>, c: nat)
    requires TablesOk(ps, calls, resources) && QueuesOk(resources, completed)
    requires c < |ps| && forall i | 0 <= i < c && Conflict(ps, i, c) :: i in completed
    ensures HoldsAll(ps, resources, c)
  {
    forall m | 0 <= m < |ps[c].claims|
      ensures HoldsKey(resources, ps[c].claims[m].key, c)
    {
      var b := ps[c].claims[m];
      var q := resources[b.key];
      assert At(b.key);
      var y := PositionOf(ps, resources, c, b);
      GrantedIff(q, completed, y);
      forall x | 0 <= x < y && Blocks(q.entries[x], q.entries[y])
        ensures q.entries[x].call in completed
      {
        var a := Claim(b.key, q.entries[x].mode);
        assert a in ps[q.entries[x].call].claims && Clash(a, b);
      }
      assert IsGranted(q, c);
    }
  }

  // Taking a call off the heap and marking it started.
  lemma PopStarts(ps: seq<Prepared>, calls: seq<ScheduledCall>, resources: map<string, Queue>, runnable: seq<nat>,
                  started: set<nat>, rest: seq<nat>, c: nat)
    requires GrantsOk(ps, calls, resources, runnable, started)
    requires multiset(runnable) == multiset(rest) + multiset{c}
    requires Heap.InRange(rest, Ranks(ps)) && Heap.IsHeap(rest, Ranks(ps)) && c < |ps|
    ensures c !in started && GrantsOk(ps, calls, resources, rest, started + {c})
  {
    assert multiset(runnable)[c] == multiset(rest)[c] + 1;
    assert forall d: nat | d != c :: multiset(rest)[d] == multiset(runnable)[d];
  }

  lemma RunningAfterStart(running: int, started: set<nat>, completed: set<nat>, active: set<nat>, c: nat)
    requires RunningOk(running, started, completed, active) && c !in started
    ensures RunningOk(running + 1, started + {c}, completed, active + {c})
  {
  }

  // While call c is completing: the queues of the claims in `released` have
  // been released, the others have not.
  ghost predicate Releasing(resources: map<string, Queue>, completed: set<nat>, c: nat, claims: seq<Claim>, n: nat)
    requires n <= |claims|
  {
    forall k {:trigger At(k)} | At(k) && k in resources ::
      QueueOk(resources[k], if exists x | 0 <= x < n :: claims[x].key == k then completed + {c} else completed)
  }

  lemma ReleaseStarts(resources: map<string, Queue>, completed: set<nat>, c: nat, claims: seq<Claim>)
    requires QueuesOk(resources, completed)
    ensures Releasing(resources, completed, c, claims, 0)
  {
  }

  lemma ReleaseStep(was: map<string, Queue>, now: map<string, Queue>, completed: set<nat>, c: nat,
                    claims: seq<Claim>, n: nat)
    requires n < |claims| && Releasing(was, completed, c, claims, n)
    requires claims[n].key in was && SameExcept(was, now, claims[n].key)
    requires QueueOk(now[claims[n].key], completed + {c})
    ensures Releasing(now, completed, c, claims, n + 1)
  {
    forall k | At(k) && k in now
      ensures QueueOk(now[k], if exists x | 0 <= x < n + 1 :: claims[x].key == k then completed + {c} else completed)
    {
      if k != claims[n].key {
        assert now[k] == was[k];
      }
    }
  }

  lemma ReleaseEnds(ps: seq<Prepared>, calls: seq<ScheduledCall>, resources: map<string, Queue>,
                    completed: set<nat>, c: nat)
    requires TablesOk(ps, calls, resources) && c < |ps|
    requires Releasing(resources, completed, c, ps[c].claims, |ps[c].claims|)
    ensures QueuesOk(resources, completed + {c})
  {
    forall k | At(k) && k in resources
      ensures QueueOk(resources[k], completed + {c})
    {
      var q := resources[k];
      assert At(k) && Shape(q, k, ps, |ps|);
      if forall x | 0 <= x < |ps[c].claims| :: ps[c].claims[x].key != k {
        forall x | 0 <= x < |q.entries|
          ensures q.entries[x].call != c
        {
          assert Claim(k, q.entries[x].mode) in ps[q.entries[x].call].claims;
        }
        UnrelatedQueue(q, completed, c);
      }
    }
  }

  lemma RunningAfterComplete(running: int, started: set<nat>, completed: set<nat>, active: set<nat>, c: nat)
    requires RunningOk(running, started, completed, active) && c in active
    ensures RunningOk(running - 1, started, completed + {c}, active - {c})
  {
  }

  lemma HolderHasKey(ps: seq<Prepared>, calls: seq<ScheduledCall>, resources: map<string, Queue>,
                     runnable: seq<nat>, started: set<nat>, c: nat, n: nat)
    requires GrantsOk(ps, calls, resources, runnable, started)
    requires c in started && c < |ps| && n < |ps[c].claims|
    ensures ps[c].claims[n].key in resources && IsGranted(resources[ps[c].claims[n].key], c)
  {
    assert HoldsAll(ps, resources, c);
    assert HoldsKey(resources, ps[c].claims[n].key, c);
  }

  lemma KeyNotYetReleased(claims: seq<Claim>, n: nat)
    requires DistinctKeys(claims) && n < |claims|
    ensures !exists x | 0 <= x < n :: claims[x].key == claims[n].key
  {
  }

  // A queue after the first i calls and the first m claims of call i.
  ghost predicate ShapeUpTo(q: Queue, k: string, ps: seq<Prepared>, i: nat, m: nat)
    requires i < |ps| && m <= |ps[i].claims|
  {
    && Ascending(q.entries)
    && (forall x | 0 <= x < |q.entries| ::
          || (q.entries[x].call < i && Claim(k, q.entries[x].mode) in ps[q.entries[x].call].claims)
          || (q.entries[x].call == i && Claim(k, q.entries[x].mode) in ps[i].claims[..m]))
    && (forall c: nat, mode | c < i && Claim(k, mode) in ps[c].claims :: Entry(c, mode) in q.entries)
    && (forall mode | Claim(k, mode) in ps[i].claims[..m] :: Entry(i, mode) in q.entries)
  }

  predicate Untouched(q: Queue) {
    q.next == 0 && q.reserved == 0
  }

  function QueueFor(resources: map<string, Queue>, k: string): Queue {
    if k in resources then resources[k] else Queue([], 0, 0)
  }

  // Every key has the given shape; a key without a queue has the empty one.
  ghost predicate ShapesUpTo(resources: map<string, Queue>, ps: seq<Prepared>, i: nat, m: nat)
    requires i < |ps| && m <= |ps[i].claims|
  {
    forall k :: ShapeUpTo(QueueFor(resources, k), k, ps, i, m) && Untouched(QueueFor(resources, k))
  }

  ghost predicate Shapes(resources: map<string, Queue>, ps: seq<Prepared>, n: nat)
    requires n <= |ps|
  {
    forall k :: Shape(QueueFor(resources, k), k, ps, n) && Untouched(QueueFor(resources, k))
  }

  lemma AppendEntry(q: Queue, k: string, ps: seq<Prepared>, i: nat, m: nat, j: string, mode: Mode)
    requires WellFormed(ps) && i < |ps| && m < |ps[i].claims| && ps[i].claims[m] == Claim(k, mode)
    requires ShapeUpTo(q, j, ps, i, m)
    ensures ShapeUpTo(if j == k then q.(entries := q.entries + [Entry(i, mode)]) else q, j, ps, i, m + 1)
  {
    var claims := ps[i].claims;
    assert claims[..m + 1] == claims[..m] + [claims[m]];
    assert DistinctKeys(claims);
    if j == k {
      assert forall y | 0 <= y < m :: claims[y].key != k;
      var r := q.entries + [Entry(i, mode)];
      assert r[|q.entries|] == Entry(i, mode);
      forall e | e in q.entries
        ensures e in r
      {
      }
    }
  }

  // Appends the claims of call i to their queues, in claim order.
  method QueueClaims(resources: map<string, Queue>, ps: seq<Prepared>, i: nat) returns (r: map<string, Queue>)
    requires WellFormed(ps) && i < |ps|
    requires Shapes(resources, ps, i)
    ensures Shapes(r, ps, i + 1)
    ensures resources.Keys <= r.Keys && forall claim | claim in ps[i].claims :: claim.key in r
  {
    r := resources;
    var claims := ps[i].claims;
    assert ShapesUpTo(r, ps, i, 0) by {
      forall k
        ensures ShapeUpTo(QueueFor(r, k), k, ps, i, 0)
      {
        assert Shape(QueueFor(r, k), k, ps, i);
      }
    }
    var m := 0;
    while m < |claims|
      invariant 0 <= m <= |claims|
      invariant ShapesUpTo(r, ps, i, m)
      invariant resources.Keys <= r.Keys
      invariant forall x | 0 <= x < m :: claims[x].key in r
    {
      var claim := claims[m];
      var queue := QueueFor(r, claim.key);
      var next := r[claim.key := queue.(entries := queue.entries + [Entry(i, claim.mode)])];
      forall j
        ensures ShapeUpTo(QueueFor(next, j), j, ps, i, m + 1) && Untouched(QueueFor(next, j))
      {
        assert ShapeUpTo(QueueFor(r, j), j, ps, i, m) && Untouched(QueueFor(r, j));
        AppendEntry(QueueFor(r, j), claim.key, ps, i, m, j, claim.mode);
      }
      r := next;
      m := m + 1;
    }
    forall k
      ensures Shape(QueueFor(r, k), k, ps, i + 1) && Untouched(QueueFor(r, k))
    {
      assert claims[..m] == claims;
      assert ShapeUpTo(QueueFor(r, k), k, ps, i, m);
    }
  }

  lemma NothingGranted(resources: map<string, Queue>, ps: seq<Prepared>, c: nat)
    requires c < |ps| && forall k | k in resources :: Untouched(resources[k])
    ensures GrantedCount(resources, ps[c].claims, c) == 0
    ensures HoldsAll(ps, resources, c) <==> ps[c].claims == []
  {
    NoneCounted(resources, ps[c].claims, c);
    FullCount(resources, ps[c].claims, c);
  }

  lemma {:induction false} NoneCounted(resources: map<string, Queue>, claims: seq<Claim>, c: nat)
    requires forall k | k in resources :: Untouched(resources[k])
    ensures GrantedCount(resources, claims, c) == 0
  {
    if claims != [] {
      NoneCounted(resources, claims[..|claims| - 1], c);
    }
  }

  // The calls that claim nothing, as a heap.
  method PushUnclaimed(ps: seq<Prepared>) returns (runnable: seq<nat>)
    ensures Heap.InRange(runnable, Ranks(ps)) && Heap.IsHeap(runnable, Ranks(ps))
    ensures forall c: nat | c < |ps| :: multiset(runnable)[c] == if ps[c].claims == [] then 1 else 0
  {
    runnable := [];
    var i := 0;
    while i < |ps|
      invariant 0 <= i <= |ps|
      invariant Heap.InRange(runnable, Ranks(ps)) && Heap.IsHeap(runnable, Ranks(ps))
      invariant forall c: nat :: multiset(runnable)[c] == if c < i && ps[c].claims == [] then 1 else 0
    {
      if |ps[i].claims| == 0 {
        runnable := Heap.Push(runnable, i, Ranks(ps));
      }
      i := i + 1;
    }
  }

  // The first loop of the constructor.
  method BuildTables(ps: seq<Prepared>)
    returns (calls: seq<ScheduledCall>, byBatchIndex: map<nat, nat>, resources: map<string, Queue>)
    requires WellFormed(ps)
    ensures TablesOk(ps, calls, resources) && IndexOk(ps, byBatchIndex)
    ensures forall i | 0 <= i < |ps| :: calls[i].ready == 0
    ensures forall k | k in resources :: Untouched(resources[k])
  {
    calls, byBatchIndex, resources := [], map[], map[];
    var i := 0;
    while i < |ps|
      invariant 0 <= i <= |ps| && |calls| == i
      invariant forall x | 0 <= x < i :: calls[x] == ScheduledCall(ps[x], 0, |ps[x].claims|)
      invariant forall x | 0 <= x < i :: ps[x].batchIndex in byBatchIndex && byBatchIndex[ps[x].batchIndex] == x
      invariant Shapes(resources, ps, i)
      invariant forall x, claim | 0 <= x < i && claim in ps[x].claims :: claim.key in resources
    {
      calls := calls + [ScheduledCall(ps[i], 0, |ps[i].claims|)];
      byBatchIndex := byBatchIndex[ps[i].batchIndex := i];
      resources := QueueClaims(resources, ps, i);
      i := i + 1;
    }
    forall k | k in resources
      ensures Shape(resources[k], k, ps, |ps|) && Untouched(resources[k])
    {
      assert Shape(QueueFor(resources, k), k, ps, |ps|) && Untouched(QueueFor(resources, k));
    }
  }

  lemma FreshGrantsOk(ps: seq<Prepared>, calls: seq<ScheduledCall>, resources: map<string, Queue>, runnable: seq<nat>)
    requires TablesOk(ps, calls, resources)
    requires forall i | 0 <= i < |ps| :: calls[i].ready == 0
    requires forall k | k in resources :: Untouched(resources[k])
    requires Heap.InRange(runnable, Ranks(ps)) && Heap.IsHeap(runnable, Ranks(ps))
    requires forall c: nat | c < |ps| :: multiset(runnable)[c] == if ps[c].claims == [] then 1 else 0
    ensures GrantsOk(ps, calls, resources, runnable, {})
  {
    forall c: nat | c < |ps|
      ensures GrantedCount(resources, ps[c].claims, c) == 0
      ensures HoldsAll(ps, resources, c) <==> ps[c].claims == []
    {
      NothingGranted(resources, ps, c);
    }
  }

  // All fields of a scheduler at one moment.
  datatype Snapshot = Snapshot(ps: seq<Prepared>, calls: seq<ScheduledCall>, byBatchIndex: map<nat, nat>,
                               resources: map<string, Queue>, runnable: seq<nat>, running: int,
                               started: set<nat>, completed: set<nat>, active: set<nat>)

  ghost predicate Consistent(s: Snapshot) {
    var Snapshot(ps, calls, byBatchIndex, resources, runnable, running, started, completed, active) := s;
    var consistent :=
      && GrantsOk(ps, calls, resources, runnable, started)
      && IndexOk(ps, byBatchIndex)
      && QueuesOk(resources, completed)
      && RunningOk(running, started, completed, active);
    consistent
  }

  class ToolBatchScheduler {
    const ps: seq<Prepared>
    var calls: seq<ScheduledCall>
    var byBatchIndex: map<nat, nat>
    var resources: map<string, Queue>
    var runnable: seq<nat>
    var running: int
    ghost var started: set<nat>
    ghost var completed: set<nat>
    ghost var active: set<nat>

    // What holds at every step, also while a completion releases its queues.
    ghost predicate Grants()
      reads this
    {
      GrantsOk(ps, calls, resources, runnable, started)
    }

    ghost predicate Valid()
      reads this
    {
      Consistent(State())
    }

    /** Queues every claim in source order, admits the calls that claim nothing,
        and then lets every queue, in any order, grant its first entries. */
    constructor (prepared: seq<Prepared>)
      requires WellFormed(prepared)
      ensures Valid()
      ensures ps == prepared && Init(Progress())
    {
      var cs, index, queues := BuildTables(prepared);
      var heap := PushUnclaimed(prepared);
      FreshGrantsOk(prepared, cs, queues, heap);
      ps, calls, byBatchIndex, resources, runnable, running := prepared, cs, index, queues, heap, 0;
      started, completed, active := {}, {}, {};
      new;
      ReserveFirst();
    }

    // Lets every queue grant its first entries, in any order.
    method ReserveFirst()
      requires Grants()
      requires forall k | k in resources :: Untouched(resources[k])
      modifies this`resources, this`runnable, this`calls
      ensures Grants() && QueuesOk(resources, {})
    {
      var left := resources.Keys;
      while left != {}
        invariant Grants() && left <= resources.Keys
        invariant forall k | k in left :: Untouched(resources[k])
        invariant forall k | k in resources && k !in left :: QueueOk(resources[k], {})
        decreases left
      {
        var k :| k in left;
        ReserveNext(k, {});
        left := left - {k};
      }
    }

    ghost function State(): Snapshot
      reads this
    {
      Snapshot(ps, calls, byBatchIndex, resources, runnable, running, started, completed, active)
    }

    ghost function Progress(): Progress
      reads this
    {
      Dependency.Progress(started, completed)
    }

    /** The heap holds exactly the calls that may start under the dependency
        order. */
    lemma RunnableIff(c: nat)
      requires Valid() && c < |ps|
      ensures c in multiset(runnable) <==> CanStart(ps, Progress(), c)
      ensures c in multiset(runnable) <==>
                && c !in started
                && forall i, a, b | 0 <= i < c && a in ps[i].claims && b in ps[c].claims
                                    && a.key == b.key && (a.mode.Exclusive? || b.mode.Exclusive?) :: i in completed
    {
      CanStartIff(ps, Progress(), c);
      if c !in started {
        if HoldsAll(ps, resources, c) {
          forall i: nat | i < c && Conflict(ps, i, c)
            ensures i in completed
          {
            HolderHasNoConflict(ps, calls, resources, completed, c, i);
          }
        } else if CanStart(ps, Progress(), c) {
          UnblockedCallHoldsAll(ps, calls, resources, completed, c);
        }
      }
    }

    /** Grants the first waiting entry of queue k. */
    method Reserve(k: string)
      requires Grants()
      requires k in resources && resources[k].next < |resources[k].entries|
      modifies this`resources, this`runnable, this`calls
      ensures resources == old(resources)[k := Advance(old(resources)[k])]
      ensures Grants()
    {
      var granted, heap := GrantFirst(ps, calls, resources, runnable, started, k);
      calls, runnable, resources := granted, heap, resources[k := Advance(resources[k])];
    }

    // The shared branch: grants entries until an exclusive one or the end.
    method ReserveSharedRun(k: string, ghost done: set<nat>)
      requires Grants()
      requires k in resources && Drained(resources[k], done)
      requires resources[k].next < |resources[k].entries|
      requires resources[k].entries[resources[k].next].mode.Shared?
      modifies this`resources, this`runnable, this`calls
      ensures Grants()
      ensures SameExcept(old(resources), resources, k)
      ensures QueueOk(resources[k], done)
    {
      ghost var first := resources[k].next;
      OpenZero(resources[k].entries, first, done);
      while resources[k].next < |resources[k].entries| && resources[k].entries[resources[k].next].mode.Shared?
        invariant Grants()
        invariant SameExcept(old(resources), resources, k)
        invariant GrantingShared(resources[k], done, first)
        invariant resources[k].next == first ==> resources[k] == old(resources)[k]
        decreases |resources[k].entries| - resources[k].next
      {
        AdvanceShared(resources[k], done, first);
        Reserve(k);
      }
      SharedRunIsMaximal(resources[k], done, first);
    }

    /** Grants the next exclusive entry, or the next run of shared entries, of a
        queue whose granted entries are all released. */
    method ReserveNext(k: string, ghost done: set<nat>)
      requires Grants()
      requires k in resources && QueueSafe(resources[k], done)
      modifies this`resources, this`runnable, this`calls
      ensures Grants()
      ensures SameExcept(old(resources), resources, k)
      ensures old(resources)[k].reserved == 0 ==> QueueOk(resources[k], done)
      ensures old(resources)[k].reserved != 0 ==> resources == old(resources)
    {
      if resources[k].reserved != 0 || resources[k].next == |resources[k].entries| {
      } else if resources[k].entries[resources[k].next].mode.Exclusive? {
        AdvanceExclusive(resources[k], done);
        Reserve(k);
      } else {
        ReserveSharedRun(k, done);
      }
    }

    // The counter part of a release.
    method ReleaseOne(k: string)
      requires Grants() && k in resources
      modifies this`resources
      ensures Grants()
      ensures SameExcept(old(resources), resources, k)
      ensures resources[k] == old(resources)[k].(reserved := old(resources)[k].reserved - 1)
    {
      var q := resources[k].(reserved := resources[k].reserved - 1);
      CounterReleased(ps, calls, resources, k, q, runnable, started, resources[k := q]);
      resources := resources[k := q];
    }

    /** Gives back one grant of queue k, held by call c. */
    method Release(k: string, ghost done: set<nat>, ghost c: nat)
      requires Grants()
      requires k in resources && QueueOk(resources[k], done)
      requires IsGranted(resources[k], c) && c !in done
      modifies this`resources, this`runnable, this`calls
      ensures Grants()
      ensures SameExcept(old(resources), resources, k)
      ensures QueueOk(resources[k], done + {c})
    {
      assert At(k) && Shape(resources[k], k, ps, |ps|);
      ReleaseEntry(resources[k], done, c);
      ReleaseOne(k);
      if resources[k].reserved == 0 {
        ReserveNext(k, done + {c});
      }
    }

    /** The counter of running calls is exact. */
    lemma RunningIsExact()
      requires Valid()
      ensures running == |active| && completed <= started
      ensures forall j :: j in active <==> Running(Progress(), j)
    {
    }

    // The popped call may start, and no call that may start precedes it.
    lemma LeastRunnable(c: nat)
      requires Valid() && c in multiset(runnable)
      requires forall i | 0 <= i < |runnable| :: Ranks(ps)[c] <= Ranks(ps)[runnable[i]]
      ensures CanStart(ps, Progress(), c)
      ensures forall j: nat | CanStart(ps, Progress(), j) :: ps[c].batchIndex <= ps[j].batchIndex
    {
      assert c in runnable;
      RunnableIff(c);
      forall j: nat | CanStart(ps, Progress(), j)
        ensures ps[c].batchIndex <= ps[j].batchIndex
      {
        RunnableIff(j);
        assert j in runnable;
      }
    }

    lemma PopIsStart(c: nat, rest: seq<nat>)
      requires Valid() && c < |ps|
      requires forall i | 0 <= i < |runnable| :: Ranks(ps)[c] <= Ranks(ps)[runnable[i]]
      requires multiset(runnable) == multiset(rest) + multiset{c}
      requires Heap.InRange(rest, Ranks(ps)) && Heap.IsHeap(rest, Ranks(ps))
      ensures GrantsOk(ps, calls, resources, rest, started + {c})
      ensures IndexOk(ps, byBatchIndex) && QueuesOk(resources, completed)
      ensures RunningOk(running + 1, started + {c}, completed, active + {c})
      ensures CanStart(ps, Progress(), c) && c < |calls| && calls[c].prepared == ps[c]
      ensures forall j: nat | CanStart(ps, Progress(), j) :: ps[c].batchIndex <= ps[j].batchIndex
    {
      assert c in multiset(runnable);
      LeastRunnable(c);
      PopStarts(ps, calls, resources, runnable, started, rest, c);
      RunningAfterStart(running, started, completed, active, c);
    }

    lemma EmptyHeapMeansBlocked()
      requires Valid() && |runnable| == 0
      ensures forall j :: !CanStart(ps, Progress(), j)
    {
      forall j | CanStart(ps, Progress(), j)
        ensures false
      {
        RunnableIff(j);
      }
    }

    /** Starts the admitted call with the least batch index, if there is one. */
    method StartNext() returns (call: Prepared, ok: bool, ghost position: nat)
      requires Valid()
      modifies this`runnable, this`running, this`started, this`active
      ensures Valid()
      ensures ok <==> exists j :: CanStart(ps, old(Progress()), j)
      ensures !ok ==> Progress() == old(Progress())
      ensures ok ==> StartStep(ps, old(Progress()), Progress(), position)
      ensures ok ==> call == ps[position]
      ensures running == old(running) + (if ok then 1 else 0)
      ensures active == if ok then old(active) + {position} else old(active)
      ensures ok ==> forall j: nat | CanStart(ps, old(Progress()), j) :: call.batchIndex <= ps[j].batchIndex
    {
      if |runnable| == 0 {
        EmptyHeapMeansBlocked();
        call, ok, position := Prepared.Prepared(0, []), false, 0;
      } else {
        var c, rest := Heap.Pop(runnable, Ranks(ps));
        PopIsStart(c, rest);
        call, ok, position := calls[c].prepared, true, c;
        Begin(c, rest);
      }
    }

    // The popped call is running now.
    method Begin(ghost c: nat, rest: seq<nat>)
      requires GrantsOk(ps, calls, resources, rest, started + {c})
      requires IndexOk(ps, byBatchIndex) && QueuesOk(resources, completed)
      requires RunningOk(running + 1, started + {c}, completed, active + {c})
      modifies this`runnable, this`running, this`started, this`active
      ensures Valid() && Progress() == old(Progress()).(started := old(started) + {c})
      ensures runnable == rest && running == old(running) + 1 && active == old(active) + {c}
    {
      runnable := rest;
      started := started + {c};
      active := active + {c};
      running := running + 1;
    }

    // Where a call of this batch is kept.
    method Position(batchIndex: nat, ghost position: nat) returns (c: nat)
      requires Valid() && position < |ps| && ps[position].batchIndex == batchIndex
      ensures c == position
    {
      c := byBatchIndex[batchIndex];
    }

    // Releases every queue the call holds.
    method ReleaseAll(c: nat)
      requires Valid() && c in active
      modifies this`resources, this`runnable, this`calls
      ensures Grants()
      ensures QueuesOk(resources, completed + {c})
    {
      var claims := calls[c].prepared.claims;
      ReleaseStarts(resources, completed, c, claims);
      var n := 0;
      while n < |claims|
        invariant 0 <= n <= |claims|
        invariant Grants() && c < |ps| && claims == ps[c].claims
        invariant Releasing(resources, completed, c, claims, n)
      {
        var k := claims[n].key;
        assert At(k);
        HolderHasKey(ps, calls, resources, runnable, started, c, n);
        KeyNotYetReleased(claims, n);
        label before:
        Release(k, completed, c);
        ReleaseStep(old@before(resources), resources, completed, c, claims, n);
        n := n + 1;
      }
      ReleaseEnds(ps, calls, resources, completed, c);
    }

    /** Records the completion of a running call and releases its queues. */
    method Complete(batchIndex: nat, ghost position: nat)
      requires Valid()
      requires Running(Progress(), position) && position < |ps| && batchIndex == ps[position].batchIndex
      modifies this`resources, this`runnable, this`calls, this`running, this`completed, this`active
      ensures Valid()
      ensures CompleteStep(old(Progress()), Progress(), position)
      ensures running == old(running) - 1 && active == old(active) - {position}
    {
      var c := byBatchIndex[batchIndex];
      RunningAfterComplete(running, started, completed, active, c);
      ReleaseAll(c);
      Retire(c);
    }

    // The call has given everything back.
    method Retire(ghost c: nat)
      requires Grants() && IndexOk(ps, byBatchIndex) && QueuesOk(resources, completed + {c})
      requires RunningOk(running - 1, started, completed + {c}, active - {c})
      modifies this`running, this`completed, this`active
      ensures Valid() && Progress() == old(Progress()).(completed := old(completed) + {c})
      ensures running == old(running) - 1 && active == old(active) - {c}
    {
      running := running - 1;
      completed := completed + {c};
      active := active - {c};
    }
  }
}
