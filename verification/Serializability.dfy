/** A batch under the dependency order ends as its calls, run one by one in source order, would end it. */
module Serializability {
  import opened Messages
  import opened Dependency

  // A tool is a machine of small steps over a shared store. Steps of running
  // tools interleave freely. The only assumption is that a tool reads the keys it
  // claims and writes the keys it claims exclusively.

  type Store<V> = map<string, V>

  // One tool call: what one step does to its local state and the store, and
  // when it has finished.
  datatype Tool<!L, !V> = Tool(step: (L, Store<V>) -> (L, Store<V>), done: L -> bool)

  datatype World<L, V> = World(locals: seq<L>, store: Store<V>)

  ghost predicate SameAt<V>(s: Store<V>, t: Store<V>, k: string) {
    (k in s <==> k in t) && (k in s ==> s[k] == t[k])
  }

  ghost predicate Claims(claims: seq<Claim>, k: string) {
    exists claim | claim in claims :: claim.key == k
  }

  ghost predicate ClaimsExclusively(claims: seq<Claim>, k: string) {
    Claim(k, Exclusive) in claims
  }

  // The tool writes only what it claims exclusively ...
  ghost predicate WritesClaimed<L(!new), V(!new)>(tool: Tool<L, V>, claims: seq<Claim>) {
    forall l, s: Store<V>, k {:trigger SameAt(tool.step(l, s).1, s, k)} ::
      SameAt(tool.step(l, s).1, s, k) || ClaimsExclusively(claims, k)
  }

  ghost predicate AgreeOn<V>(s: Store<V>, t: Store<V>, claims: seq<Claim>) {
    forall k | Claims(claims, k) :: SameAt(s, t, k)
  }

  // ... and what it does depends only on what it claims.
  ghost predicate ReadsClaimed<L(!new), V(!new)>(tool: Tool<L, V>, claims: seq<Claim>) {
    forall l, s: Store<V>, t: Store<V> | AgreeOn(s, t, claims) ::
      tool.step(l, s).0 == tool.step(l, t).0 && AgreeOn(tool.step(l, s).1, tool.step(l, t).1, claims)
  }

  ghost predicate Disciplined<L(!new), V(!new)>(ps: seq<Prepared>, tools: seq<Tool<L, V>>) {
    var disciplined :=
      && |tools| == |ps|
      && (forall i {:trigger WritesClaimed(tools[i], ps[i].claims)} | 0 <= i < |ps| ::
            WritesClaimed(tools[i], ps[i].claims) && ReadsClaimed(tools[i], ps[i].claims));
    disciplined
  }

  // One step of tool i, which only an unfinished tool takes.
  function StepOf<L, V>(tools: seq<Tool<L, V>>, w: World<L, V>, i: nat): Option<World<L, V>> {
    if i < |tools| && i < |w.locals| && !tools[i].done(w.locals[i]) then
      var (l, s) := tools[i].step(w.locals[i], w.store);
      Some(World(w.locals[i := l], s))
    else
      None
  }

  // A sequence of steps, given by the tools that take them.
  function Play<L, V>(tools: seq<Tool<L, V>>, w: World<L, V>, steps: seq<nat>): Option<World<L, V>> {
    if steps == [] then Some(w)
    else
      match Play(tools, w, steps[..|steps| - 1])
      case None => None
      case Some(v) => StepOf(tools, v, steps[|steps| - 1])
  }

  lemma {:induction false} PlayConcat<L, V>(tools: seq<Tool<L, V>>, w: World<L, V>, a: seq<nat>, b: seq<nat>)
    ensures Play(tools, w, a + b) ==
            match Play(tools, w, a) case None => None case Some(v) => Play(tools, v, b)
  {
    if b == [] {
      assert a + b == a;
    } else {
      var init := b[..|b| - 1];
      assert (a + b)[..|a + b| - 1] == a + init;
      PlayConcat(tools, w, a, init);
    }
  }

  // One store effect of two steps in either order, at one key.
  lemma EffectsCommute<L(!new), V(!new)>(p: Tool<L, V>, q: Tool<L, V>, pc: seq<Claim>, qc: seq<Claim>,
                                         lp: L, lq: L, s: Store<V>)
    requires WritesClaimed(p, pc) && ReadsClaimed(p, pc)
    requires WritesClaimed(q, qc) && ReadsClaimed(q, qc)
    requires forall a, b | a in pc && b in qc :: !Clash(a, b)
    ensures var (lp', sp) := p.step(lp, s);
            var (lq', sq) := q.step(lq, s);
            q.step(lq, sp).0 == lq' && p.step(lp, sq).0 == lp' &&
            q.step(lq, sp).1 == p.step(lp, sq).1
  {
    var sp, sq := p.step(lp, s).1, q.step(lq, s).1;
    var spq, sqp := q.step(lq, sp).1, p.step(lp, sq).1;
    AgreesAfterForeignStep(p, pc, qc, lp, s);
    assert forall a, b | a in qc && b in pc :: !Clash(a, b) by {
      forall a, b | a in qc && b in pc
        ensures !Clash(a, b)
      {
        assert !Clash(b, a);
      }
    }
    AgreesAfterForeignStep(q, qc, pc, lq, s);
    forall k: string
      ensures SameAt(spq, sqp, k)
    {
      if ClaimsExclusively(pc, k) {
        assert Claims(pc, k);
        assert SameAt(sqp, sp, k);
        OnlyOneClaims(pc, qc, k);
        assert SameAt(spq, sp, k);
      } else if ClaimsExclusively(qc, k) {
        assert Claims(qc, k);
        assert SameAt(spq, sq, k);
        assert SameAt(sqp, sq, k);
      } else {
        assert SameAt(spq, sp, k) && SameAt(sp, s, k);
        assert SameAt(sqp, sq, k) && SameAt(sq, s, k);
      }
    }
    SameStores(spq, sqp);
  }

  lemma OnlyOneClaims(pc: seq<Claim>, qc: seq<Claim>, k: string)
    requires forall a, b | a in pc && b in qc :: !Clash(a, b)
    requires ClaimsExclusively(pc, k)
    ensures !Claims(qc, k)
  {
    if claim :| claim in qc && claim.key == k {
      assert Clash(Claim(k, Exclusive), claim);
    }
  }

  lemma SameStores<V>(s: Store<V>, t: Store<V>)
    requires forall k: string :: SameAt(s, t, k)
    ensures s == t
  {
    assert forall k :: k in s.Keys <==> k in t.Keys by {
      forall k
        ensures k in s.Keys <==> k in t.Keys
      {
        assert SameAt(s, t, k);
      }
    }
    assert s.Keys == t.Keys;
    forall k | k in s
      ensures s[k] == t[k]
    {
      assert SameAt(s, t, k);
    }
  }

  // A step of p leaves alone everything q claims.
  lemma AgreesAfterForeignStep<L(!new), V(!new)>(p: Tool<L, V>, pc: seq<Claim>, qc: seq<Claim>, lp: L, s: Store<V>)
    requires WritesClaimed(p, pc)
    requires forall a, b | a in pc && b in qc :: !Clash(a, b)
    ensures AgreeOn(p.step(lp, s).1, s, qc) && AgreeOn(s, p.step(lp, s).1, qc)
  {
    forall k | Claims(qc, k)
      ensures SameAt(p.step(lp, s).1, s, k) && SameAt(s, p.step(lp, s).1, k)
    {
      if ClaimsExclusively(pc, k) {
        OnlyOneClaims(pc, qc, k);
      }
      assert SameAt(p.step(lp, s).1, s, k);
    }
  }

  /** Steps of two calls without clashing claims commute, including whether
      they are possible at all. */
  lemma StepsCommute<L(!new), V(!new)>(ps: seq<Prepared>, tools: seq<Tool<L, V>>, w: World<L, V>, i: nat, j: nat)
    requires Disciplined(ps, tools) && |w.locals| == |ps|
    requires i < |ps| && j < |ps| && i != j && !Conflict(ps, i, j)
    ensures Play(tools, w, [i] + [j]) == Play(tools, w, [j] + [i])
  {
    PlayConcat(tools, w, [i], [j]);
    PlayConcat(tools, w, [j], [i]);
    PlayOne(tools, w, i);
    PlayOne(tools, w, j);
    assert WritesClaimed(tools[i], ps[i].claims) && WritesClaimed(tools[j], ps[j].claims);
    EffectsCommute(tools[i], tools[j], ps[i].claims, ps[j].claims, w.locals[i], w.locals[j], w.store);
    var wi, wj := StepOf(tools, w, i), StepOf(tools, w, j);
    if wi.Some? && wj.Some? {
      PlayOne(tools, wi.value, j);
      PlayOne(tools, wj.value, i);
      var li, lj := tools[i].step(w.locals[i], w.store).0, tools[j].step(w.locals[j], w.store).0;
      assert w.locals[i := li][j := lj] == w.locals[j := lj][i := li];
    } else {
      if wi.Some? {
        PlayOne(tools, wi.value, j);
      }
      if wj.Some? {
        PlayOne(tools, wj.value, i);
      }
    }
  }

  lemma PlayOne<L, V>(tools: seq<Tool<L, V>>, w: World<L, V>, i: nat)
    ensures Play(tools, w, [i]) == StepOf(tools, w, i)
  {
    assert [i][..0] == [];
  }

  function Repeat(i: nat, n: nat): seq<nat> {
    if n == 0 then [] else Repeat(i, n - 1) + [i]
  }

  lemma {:induction false} RepeatSplit(i: nat, j: nat, k: nat)
    ensures Repeat(i, j + k) == Repeat(i, j) + Repeat(i, k)
  {
    if k == 0 {
      assert Repeat(i, j) + Repeat(i, 0) == Repeat(i, j);
    } else {
      RepeatSplit(i, j, k - 1);
    }
  }

  lemma {:induction false} RepeatMembers(i: nat, n: nat)
    ensures forall x | x in Repeat(i, n) :: x == i
  {
    if n > 0 {
      RepeatMembers(i, n - 1);
    }
  }

  // The steps of everybody but m, in order.
  function Without(steps: seq<nat>, m: nat): seq<nat> {
    if steps == [] then []
    else
      var last := steps[|steps| - 1];
      Without(steps[..|steps| - 1], m) + (if last == m then [] else [last])
  }

  lemma {:induction false} WithoutMembers(steps: seq<nat>, m: nat)
    ensures forall x | x in Without(steps, m) :: x in steps && x != m
  {
    if steps != [] {
      var init := steps[..|steps| - 1];
      WithoutMembers(init, m);
      assert forall x | x in init :: x in steps;
      assert steps[|steps| - 1] in steps;
    }
  }

  function CountOf(steps: seq<nat>, m: nat): nat {
    if steps == [] then 0
    else CountOf(steps[..|steps| - 1], m) + (if steps[|steps| - 1] == m then 1 else 0)
  }

  // The same steps, one call after the other in source order.
  function Serial(steps: seq<nat>, n: nat): seq<nat>
    decreases n
  {
    if n == 0 then []
    else Serial(Without(steps, n - 1), n - 1) + Repeat(n - 1, CountOf(steps, n - 1))
  }

  // No step overtakes a step of an earlier call it clashes with.
  ghost predicate Ordered(ps: seq<Prepared>, steps: seq<nat>) {
    steps != [] ==>
      var init, last := steps[..|steps| - 1], steps[|steps| - 1];
      && last < |ps|
      && Ordered(ps, init)
      && (forall y | y in init && y > last :: y < |ps| && !Conflict(ps, last, y))
  }

  lemma {:induction false} PlayKeepsLocals<L, V>(tools: seq<Tool<L, V>>, w: World<L, V>, steps: seq<nat>, v: World<L, V>)
    requires Play(tools, w, steps) == Some(v)
    ensures |v.locals| == |w.locals|
    ensures forall i | 0 <= i < |w.locals| && i !in steps :: v.locals[i] == w.locals[i]
  {
    if steps != [] {
      var init := steps[..|steps| - 1];
      PlayKeepsLocals(tools, w, init, Play(tools, w, init).value);
      assert forall i | i in init :: i in steps;
      assert steps[|steps| - 1] in steps;
    }
  }

  lemma Assoc(a: seq<nat>, b: seq<nat>, c: seq<nat>)
    ensures (a + b) + c == a + (b + c)
  {
  }

  // Always true; a proof mentions it for the one world it looks at.
  ghost predicate In<L, V>(w: World<L, V>) {
    true
  }

  // Two sequences of steps that do the same in every world.
  ghost predicate Equivalent<L(!new), V(!new)>(tools: seq<Tool<L, V>>, a: seq<nat>, b: seq<nat>) {
    forall w: World<L, V> {:trigger In(w)} | In(w) && |w.locals| == |tools| :: Play(tools, w, a) == Play(tools, w, b)
  }

  lemma Chain<L(!new), V(!new)>(tools: seq<Tool<L, V>>, a: seq<nat>, b: seq<nat>, c: seq<nat>)
    requires Equivalent(tools, a, b) && Equivalent(tools, b, c)
    ensures Equivalent(tools, a, c)
  {
  }

  lemma SamePrefix<L(!new), V(!new)>(tools: seq<Tool<L, V>>, a: seq<nat>, b: seq<nat>, c: seq<nat>)
    requires Equivalent(tools, a, b)
    ensures Equivalent(tools, a + c, b + c)
  {
    forall w: World<L, V> | In(w) && |w.locals| == |tools|
      ensures Play(tools, w, a + c) == Play(tools, w, b + c)
    {
      PlayConcat(tools, w, a, c);
      PlayConcat(tools, w, b, c);
    }
  }

  // Two commuting steps after a common beginning.
  lemma SwapAfter<L(!new), V(!new)>(ps: seq<Prepared>, tools: seq<Tool<L, V>>, a: seq<nat>, i: nat, j: nat)
    requires Disciplined(ps, tools)
    requires i < |ps| && j < |ps| && i != j && !Conflict(ps, i, j)
    ensures Equivalent(tools, (a + [i]) + [j], (a + [j]) + [i])
  {
    forall w: World<L, V> | In(w) && |w.locals| == |tools|
      ensures Play(tools, w, (a + [i]) + [j]) == Play(tools, w, (a + [j]) + [i])
    {
      Assoc(a, [i], [j]);
      Assoc(a, [j], [i]);
      PlayConcat(tools, w, a, [i] + [j]);
      PlayConcat(tools, w, a, [j] + [i]);
      match Play(tools, w, a)
      case None =>
      case Some(v) =>
        PlayKeepsLocals(tools, w, a, v);
        StepsCommute(ps, tools, v, i, j);
    }
  }

  // A step of x moves in front of a run of steps of m.
  lemma {:induction false} MovePastRun<L(!new), V(!new)>(ps: seq<Prepared>, tools: seq<Tool<L, V>>,
                                                         others: seq<nat>, x: nat, m: nat, n: nat)
    requires Disciplined(ps, tools)
    requires x < m < |ps| && (n > 0 ==> !Conflict(ps, x, m))
    ensures Equivalent(tools, (others + Repeat(m, n)) + [x], (others + [x]) + Repeat(m, n))
  {
    if n == 0 {
      assert (others + Repeat(m, 0)) + [x] == (others + [x]) + Repeat(m, 0);
    } else {
      MovePastRun(ps, tools, others, x, m, n - 1);
      MovePastOne(ps, tools, others, Repeat(m, n - 1), x, m);
    }
  }

  // One more step of call m to move past.
  lemma MovePastOne<L(!new), V(!new)>(ps: seq<Prepared>, tools: seq<Tool<L, V>>, others: seq<nat>, run: seq<nat>, x: nat, m: nat)
    requires Disciplined(ps, tools)
    requires x < m < |ps| && !Conflict(ps, x, m)
    requires Equivalent(tools, (others + run) + [x], (others + [x]) + run)
    ensures Equivalent(tools, (others + (run + [m])) + [x], (others + [x]) + (run + [m]))
  {
    ConflictSymmetric(ps, x, m);
    Assoc(others, run, [m]);
    Assoc(others + [x], run, [m]);
    SwapAfter(ps, tools, others + run, m, x);
    SamePrefix(tools, (others + run) + [x], (others + [x]) + run, [m]);
    Chain(tools, ((others + run) + [m]) + [x], ((others + run) + [x]) + [m], ((others + [x]) + run) + [m]);
  }

  lemma {:induction false} CountedIsMember(steps: seq<nat>, m: nat)
    ensures CountOf(steps, m) > 0 ==> m in steps
  {
    if steps != [] {
      CountedIsMember(steps[..|steps| - 1], m);
    }
  }

  // All steps of the last call move to the end.
  lemma {:induction false} MoveToEnd<L(!new), V(!new)>(ps: seq<Prepared>, tools: seq<Tool<L, V>>, steps: seq<nat>, m: nat)
    requires Disciplined(ps, tools)
    requires m < |ps| && Ordered(ps, steps) && forall x | x in steps :: x <= m
    ensures Equivalent(tools, steps, Without(steps, m) + Repeat(m, CountOf(steps, m)))
    decreases |steps|
  {
    if steps == [] {
      assert Without(steps, m) + Repeat(m, 0) == [];
    } else {
      var init, x := steps[..|steps| - 1], steps[|steps| - 1];
      var others, n := Without(init, m), CountOf(init, m);
      assert steps == init + [x];
      assert forall y | y in init :: y in steps;
      assert x in steps;
      MoveToEnd(ps, tools, init, m);
      SamePrefix(tools, init, others + Repeat(m, n), [x]);
      if x == m {
        assert Without(steps, m) == others && CountOf(steps, m) == n + 1;
        assert Repeat(m, n + 1) == Repeat(m, n) + [x];
        Assoc(others, Repeat(m, n), [x]);
      } else {
        assert Without(steps, m) == others + [x] && CountOf(steps, m) == n;
        CountedIsMember(init, m);
        MovePastRun(ps, tools, others, x, m, n);
        Chain(tools, steps, (others + Repeat(m, n)) + [x], (others + [x]) + Repeat(m, n));
      }
    }
  }

  lemma {:induction false} WithoutKeepsOrder(ps: seq<Prepared>, steps: seq<nat>, m: nat)
    requires Ordered(ps, steps)
    ensures Ordered(ps, Without(steps, m))
  {
    if steps != [] {
      var init, last := steps[..|steps| - 1], steps[|steps| - 1];
      WithoutKeepsOrder(ps, init, m);
      WithoutMembers(init, m);
      var r := Without(steps, m);
      if last != m {
        assert r[..|r| - 1] == Without(init, m);
      } else {
        assert r == Without(init, m);
      }
    }
  }

  /** Any interleaving that respects the dependency order does what the serial
      order does. */
  lemma {:induction false} InterleavingIsSerial<L(!new), V(!new)>(ps: seq<Prepared>, tools: seq<Tool<L, V>>,
                                                                  steps: seq<nat>, n: nat)
    requires Disciplined(ps, tools)
    requires n <= |ps| && Ordered(ps, steps) && forall x | x in steps :: x < n
    ensures Equivalent(tools, steps, Serial(steps, n))
    decreases n
  {
    if n == 0 {
      assert forall i | 0 <= i < |steps| :: steps[i] in steps;
      assert steps == [];
    } else {
      var others, run := Without(steps, n - 1), Repeat(n - 1, CountOf(steps, n - 1));
      MoveToEnd(ps, tools, steps, n - 1);
      WithoutKeepsOrder(ps, steps, n - 1);
      WithoutMembers(steps, n - 1);
      InterleavingIsSerial(ps, tools, others, n - 1);
      SamePrefix(tools, others, Serial(others, n - 1), run);
      Chain(tools, steps, others + run, Serial(others, n - 1) + run);
    }
  }

  // A batch in execution: who has started and completed, and the world.
  datatype Config<L, V> = Config(progress: Progress, world: World<L, V>)

  datatype Event = Start(call: nat) | Work(call: nat) | Finish(call: nat)

  // Starts and completions follow the dependency order; a running call works
  // until it is done and only then finishes.
  ghost predicate Next<L, V>(ps: seq<Prepared>, tools: seq<Tool<L, V>>, c: Config<L, V>, e: Event, d: Config<L, V>)
    requires |tools| == |ps|
  {
    match e
    case Start(i) => StartStep(ps, c.progress, d.progress, i) && d.world == c.world
    case Work(i) => Running(c.progress, i) && d.progress == c.progress && StepOf(tools, c.world, i) == Some(d.world)
    case Finish(i) =>
      && CompleteStep(c.progress, d.progress, i) && d.world == c.world
      && i < |tools| && i < |c.world.locals| && tools[i].done(c.world.locals[i])
  }

  ghost predicate Behaviour<L, V>(ps: seq<Prepared>, tools: seq<Tool<L, V>>, configs: seq<Config<L, V>>, events: seq<Event>)
    requires |tools| == |ps|
  {
    && |configs| == |events| + 1
    && Init(configs[0].progress)
    && |configs[0].world.locals| == |ps|
    && (forall t | 0 <= t < |events| :: Next(ps, tools, configs[t], events[t], configs[t + 1]))
  }

  function WorkOf(events: seq<Event>): seq<nat> {
    if events == [] then []
    else
      var e := events[|events| - 1];
      WorkOf(events[..|events| - 1]) + (if e.Work? then [e.call] else [])
  }

  // What a behaviour keeps: its work is an ordered interleaving, only started
  // calls have worked, and completed calls are done.
  ghost predicate BehaviourInv<L, V>(ps: seq<Prepared>, tools: seq<Tool<L, V>>, w: World<L, V>, c: Config<L, V>, steps: seq<nat>)
    requires |tools| == |ps|
  {
    && Inv(ps, c.progress)
    && Ordered(ps, steps)
    && (forall x | x in steps :: x in c.progress.started)
    && Play(tools, w, steps) == Some(c.world)
    && |c.world.locals| == |ps|
    && (forall i | i in c.progress.completed :: i < |ps| && tools[i].done(c.world.locals[i]))
  }

  lemma WorkKeepsOrder(ps: seq<Prepared>, s: Progress, steps: seq<nat>, i: nat)
    requires Inv(ps, s) && Ordered(ps, steps) && Running(s, i)
    requires forall x | x in steps :: x in s.started
    ensures Ordered(ps, steps + [i])
  {
    assert (steps + [i])[..|steps|] == steps;
  }

  lemma WorkKeepsInv<L, V>(ps: seq<Prepared>, tools: seq<Tool<L, V>>, w: World<L, V>,
                           c: Config<L, V>, i: nat, d: Config<L, V>, steps: seq<nat>)
    requires |tools| == |ps| && BehaviourInv(ps, tools, w, c, steps) && Next(ps, tools, c, Work(i), d)
    ensures BehaviourInv(ps, tools, w, d, steps + [i])
  {
    WorkKeepsOrder(ps, c.progress, steps, i);
    PlayConcat(tools, w, steps, [i]);
    PlayOne(tools, c.world, i);
  }

  lemma ProgressKeepsInv<L, V>(ps: seq<Prepared>, tools: seq<Tool<L, V>>, w: World<L, V>,
                               c: Config<L, V>, e: Event, d: Config<L, V>, steps: seq<nat>)
    requires |tools| == |ps| && BehaviourInv(ps, tools, w, c, steps) && Next(ps, tools, c, e, d) && !e.Work?
    ensures BehaviourInv(ps, tools, w, d, steps)
  {
    StepKeepsInv(ps, c.progress, d.progress, e.call);
  }

  lemma {:induction false} BehaviourKeepsInv<L, V>(ps: seq<Prepared>, tools: seq<Tool<L, V>>,
                                                   configs: seq<Config<L, V>>, events: seq<Event>, t: nat)
    requires |tools| == |ps| && Behaviour(ps, tools, configs, events) && t <= |events|
    ensures BehaviourInv(ps, tools, configs[0].world, configs[t], WorkOf(events[..t]))
    decreases t
  {
    if t == 0 {
    } else {
      BehaviourKeepsInv(ps, tools, configs, events, t - 1);
      var c, e, d := configs[t - 1], events[t - 1], configs[t];
      var before := WorkOf(events[..t - 1]);
      assert events[..t][..t - 1] == events[..t - 1];
      if e.Work? {
        WorkKeepsInv(ps, tools, configs[0].world, c, e.call, d, before);
      } else {
        assert WorkOf(events[..t]) == before;
        ProgressKeepsInv(ps, tools, configs[0].world, c, e, d, before);
      }
    }
  }

  // The first |counts| calls one by one in source order: call i takes counts[i]
  // steps on its own and is then done.
  function PlaySerially<L, V>(tools: seq<Tool<L, V>>, w: World<L, V>, counts: seq<nat>): Option<World<L, V>> {
    if counts == [] then Some(w)
    else
      var i := |counts| - 1;
      match PlaySerially(tools, w, counts[..i])
      case None => None
      case Some(mid) =>
        match Play(tools, mid, Repeat(i, counts[i]))
        case None => None
        case Some(v) => if i < |tools| && i < |v.locals| && tools[i].done(v.locals[i]) then Some(v) else None
  }

  // v results from running the n calls of the batch one by one, each to its end.
  ghost predicate SerialRun<L, V>(tools: seq<Tool<L, V>>, w: World<L, V>, n: nat, v: World<L, V>) {
    exists counts: seq<nat> :: |counts| == n && PlaySerially(tools, w, counts) == Some(v)
  }

  lemma OneMoreCall<L, V>(tools: seq<Tool<L, V>>, w: World<L, V>, counts: seq<nat>, mid: World<L, V>,
                          k: nat, v: World<L, V>)
    requires PlaySerially(tools, w, counts) == Some(mid)
    requires Play(tools, mid, Repeat(|counts|, k)) == Some(v)
    requires |counts| < |tools| && |counts| < |v.locals| && tools[|counts|].done(v.locals[|counts|])
    ensures PlaySerially(tools, w, counts + [k]) == Some(v)
  {
    assert (counts + [k])[..|counts|] == counts;
  }

  lemma {:induction false} SerialStepsAreSerialRun<L, V>(tools: seq<Tool<L, V>>, w: World<L, V>,
                                                         steps: seq<nat>, n: nat, v: World<L, V>) returns (counts: seq<nat>)
    requires n <= |tools| == |w.locals|
    requires Play(tools, w, Serial(steps, n)) == Some(v)
    requires |v.locals| == |tools| && forall i | 0 <= i < n :: tools[i].done(v.locals[i])
    ensures |counts| == n && PlaySerially(tools, w, counts) == Some(v)
    decreases n
  {
    if n == 0 {
      counts := [];
    } else {
      var others, k := Without(steps, n - 1), CountOf(steps, n - 1);
      PlayConcat(tools, w, Serial(others, n - 1), Repeat(n - 1, k));
      var mid := Play(tools, w, Serial(others, n - 1)).value;
      PlayKeepsLocals(tools, w, Serial(others, n - 1), mid);
      PlayKeepsLocals(tools, mid, Repeat(n - 1, k), v);
      RepeatMembers(n - 1, k);
      var init := SerialStepsAreSerialRun(tools, w, others, n - 1, mid);
      OneMoreCall(tools, w, init, mid, k, v);
      counts := init + [k];
    }
  }

  // An ordered interleaving in which every call is done is a serial run.
  lemma CompletedIsSerial<L(!new), V(!new)>(ps: seq<Prepared>, tools: seq<Tool<L, V>>, w: World<L, V>, c: Config<L, V>, steps: seq<nat>)
    requires Disciplined(ps, tools) && |w.locals| == |ps| && BehaviourInv(ps, tools, w, c, steps)
    requires forall i | 0 <= i < |ps| :: i in c.progress.completed
    ensures SerialRun(tools, w, |ps|, c.world)
  {
    InterleavingIsSerial(ps, tools, steps, |ps|);
    assert In(w);
    var counts := SerialStepsAreSerialRun(tools, w, steps, |ps|, c.world);
  }

  /** Serializability: whatever the order of starts, steps and completions, a
      batch in which every call has completed leaves the store and the local
      results of a run of the calls one by one in source order. */
  lemma CompletedBatchIsSerial<L(!new), V(!new)>(ps: seq<Prepared>, tools: seq<Tool<L, V>>,
                                                 configs: seq<Config<L, V>>, events: seq<Event>)
    requires Disciplined(ps, tools) && Behaviour(ps, tools, configs, events)
    requires forall i | 0 <= i < |ps| :: i in configs[|events|].progress.completed
    ensures SerialRun(tools, configs[0].world, |ps|, configs[|events|].world)
  {
    BehaviourKeepsInv(ps, tools, configs, events, |events|);
    CompletedIsSerial(ps, tools, configs[0].world, configs[|events|], WorkOf(events[..|events|]));
  }

  // A tool that is done takes no further step.
  lemma DoneAtOneCount<L, V>(tools: seq<Tool<L, V>>, w: World<L, V>, i: nat, j: nat, k: nat)
    requires j < k && i < |tools|
    requires Play(tools, w, Repeat(i, j)).Some? && Play(tools, w, Repeat(i, k)).Some?
    ensures var v := Play(tools, w, Repeat(i, j)).value;
            i < |v.locals| && !tools[i].done(v.locals[i])
  {
    var v := Play(tools, w, Repeat(i, j)).value;
    RepeatSplit(i, j, k - j);
    RepeatSplit(i, 1, k - j - 1);
    assert Repeat(i, 1) == [i];
    PlayConcat(tools, w, Repeat(i, j), [i] + Repeat(i, k - j - 1));
    PlayConcat(tools, v, [i], Repeat(i, k - j - 1));
    PlayOne(tools, v, i);
  }

  /** The serial result is unique, so all completed executions of one batch
      from one world agree. */
  lemma {:induction false} SerialRunUnique<L, V>(tools: seq<Tool<L, V>>, w: World<L, V>, a: seq<nat>, b: seq<nat>)
    requires |a| == |b|
    requires PlaySerially(tools, w, a).Some? && PlaySerially(tools, w, b).Some?
    ensures a == b
  {
    if a != [] {
      var i := |a| - 1;
      SerialRunUnique(tools, w, a[..i], b[..i]);
      var mid := PlaySerially(tools, w, a[..i]).value;
      if a[i] < b[i] {
        DoneAtOneCount(tools, mid, i, a[i], b[i]);
      } else if b[i] < a[i] {
        DoneAtOneCount(tools, mid, i, b[i], a[i]);
      }
      assert a == a[..i] + [a[i]] && b == b[..i] + [b[i]];
    }
  }
}
