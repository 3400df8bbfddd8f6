/** A batch under the scheduler: one coordinator, one worker a started call,
    completions in any order. */
module BatchParallel {
  import opened Messages
  import opened Dependency
  import opened Guard
  import opened Batch
  import Scheduler

  // ---------------------------------------------------------------------------
  // The coordinator's history, on positions of the prepared calls.

  datatype Event = Started(call: nat) | Received(call: nat, fault: Option<Fault>) | Noticed(cause: Fault)

  function ProgressOf(log: seq<Event>): Progress {
    if log == [] then
      Progress({}, {})
    else
      var s := ProgressOf(log[..|log| - 1]);
      match log[|log| - 1]
      case Started(j) => s.(started := s.started + {j})
      case Received(j, _) => s.(completed := s.completed + {j})
      case Noticed(_) => s
  }

  // The first thing that went wrong: a worker's fault or a noticed cancellation.
  function FirstFault(log: seq<Event>): Option<Fault> {
    if log == [] then
      None
    else
      var earlier := FirstFault(log[..|log| - 1]);
      if earlier.Some? then earlier
      else match log[|log| - 1]
        case Started(_) => None
        case Received(_, fault) => fault
        case Noticed(fault) => Some(fault)
  }

  // Every start waits for the calls it depends on and for no fault; only running
  // calls are received.
  ghost predicate Legal(ps: seq<Prepared>, log: seq<Event>) {
    log != [] ==>
      var init := log[..|log| - 1];
      && Legal(ps, init)
      && match log[|log| - 1]
         case Started(j) => CanStart(ps, ProgressOf(init), j) && FirstFault(init).None?
         case Received(j, _) => Running(ProgressOf(init), j)
         case Noticed(_) => true
  }

  /** A legal history is a run of the dependency order. */
  lemma {:induction false} LegalKeepsInv(ps: seq<Prepared>, log: seq<Event>)
    requires Legal(ps, log)
    ensures Inv(ps, ProgressOf(log))
  {
    if log != [] {
      var init := log[..|log| - 1];
      LegalKeepsInv(ps, init);
      match log[|log| - 1]
      case Started(j) => StepKeepsInv(ps, ProgressOf(init), ProgressOf(log), j);
      case Received(j, _) => StepKeepsInv(ps, ProgressOf(init), ProgressOf(log), j);
      case Noticed(_) =>
    }
  }

  /** After the first fault nothing starts. */
  lemma {:induction false} NothingStartsAfterFault(ps: seq<Prepared>, log: seq<Event>, i: nat, j: nat)
    requires Legal(ps, log) && i < j < |log|
    requires log[i].Noticed? || (log[i].Received? && log[i].fault.Some?)
    ensures !log[j].Started?
    decreases |log|
  {
    var n := |log| - 1;
    if j < n {
      NothingStartsAfterFault(ps, log[..n], i, j);
    } else {
      FaultStays(log[..n], i);
    }
  }

  lemma {:induction false} FaultStays(log: seq<Event>, i: nat)
    requires i < |log|
    requires log[i].Noticed? || (log[i].Received? && log[i].fault.Some?)
    ensures FirstFault(log).Some?
    decreases |log|
  {
    if i < |log| - 1 {
      FaultStays(log[..|log| - 1], i);
    }
  }

  /** No call starts twice. */
  lemma {:induction false} StartsOnce(ps: seq<Prepared>, log: seq<Event>, i: nat, j: nat)
    requires Legal(ps, log) && i < j < |log| && log[i].Started? && log[j].Started?
    ensures log[i].call != log[j].call
    decreases |log|
  {
    var n := |log| - 1;
    if j < n {
      StartsOnce(ps, log[..n], i, j);
    } else {
      StartedStays(log[..n], i);
    }
  }

  lemma {:induction false} StartedStays(log: seq<Event>, i: nat)
    requires i < |log| && log[i].Started?
    ensures log[i].call in ProgressOf(log).started
    decreases |log|
  {
    if i < |log| - 1 {
      StartedStays(log[..|log| - 1], i);
    }
  }

  // A history and what its last event does to it.
  lemma LogStep(ps: seq<Prepared>, log: seq<Event>, e: Event)
    requires Legal(ps, log)
    requires e.Started? ==> CanStart(ps, ProgressOf(log), e.call) && FirstFault(log).None?
    requires e.Received? ==> Running(ProgressOf(log), e.call)
    ensures Legal(ps, log + [e])
    ensures var s, t := ProgressOf(log), ProgressOf(log + [e]);
            match e
            case Started(j) => t == s.(started := s.started + {j})
            case Received(j, _) => t == s.(completed := s.completed + {j})
            case Noticed(_) => t == s
    ensures FirstFault(log + [e]) == if FirstFault(log).Some? then FirstFault(log)
                                     else match e
                                       case Started(_) => None
                                       case Received(_, fault) => fault
                                       case Noticed(fault) => Some(fault)
  {
    assert (log + [e])[..|log|] == log;
  }

  // ---------------------------------------------------------------------------
  // Preflight.

  /** The calls of a batch, what the world answers for each, and the calls that
      preflight lets run. */
  datatype Plan = Plan(calls: seq<ToolCall>, facts: seq<CallFacts>, ps: seq<Prepared>)

  // Exactly the first n calls have been judged: those that pass are prepared, each
  // once, in source order, with the claims it asked for.
  ghost predicate PlanOk(plan: Plan, n: nat) {
    var ok :=
      && n <= |plan.calls| == |plan.facts|
      && WellFormed(plan.ps)
      && |plan.ps| == PassingOf(plan.facts[..n], true)
      && (forall p {:trigger plan.ps[p]} | 0 <= p < |plan.ps| ::
            && plan.ps[p].batchIndex < n
            && Judge(plan.facts[plan.ps[p].batchIndex], true).Passing?
            && ClaimsOf(plan.facts[plan.ps[p].batchIndex], true, plan.ps[p].claims));
    ok
  }

  /** Of two prepared calls the later one waits exactly when their resolvers asked
      for the same key, at least one of them exclusively. */
  lemma WaitsIffAsked(plan: Plan, n: nat, p: nat, q: nat)
    requires PlanOk(plan, n) && p < |plan.ps| && q < |plan.ps|
    ensures plan.ps[p].batchIndex < n <= |plan.facts| && plan.ps[q].batchIndex < n
    ensures Conflict(plan.ps, p, q) <==> RawConflict(plan.facts[plan.ps[p].batchIndex], plan.facts[plan.ps[q].batchIndex])
  {
    ClaimsConflictIff(plan.facts[plan.ps[p].batchIndex], plan.facts[plan.ps[q].batchIndex], plan.ps, p, q);
  }

  lemma {:induction false} CompletedWasReceived(log: seq<Event>, p: nat) returns (i: nat)
    requires p in ProgressOf(log).completed
    ensures i < |log| && log[i].Received? && log[i].call == p
    decreases |log|
  {
    i := |log| - 1;
    if !(log[i].Received? && log[i].call == p) {
      i := CompletedWasReceived(log[..i], p);
    }
  }

  /** In the history itself: a call whose resolver asked for what an earlier call
      asked for, one of them exclusively, starts behind the completion of that
      call. */
  lemma {:induction false} LaterCallWaits(plan: Plan, n: nat, log: seq<Event>, p: nat, q: nat, j: nat) returns (i: nat)
    requires PlanOk(plan, n) && Legal(plan.ps, log) && p < q < |plan.ps|
    requires plan.ps[p].batchIndex < n <= |plan.facts| && plan.ps[q].batchIndex < n
    requires RawConflict(plan.facts[plan.ps[p].batchIndex], plan.facts[plan.ps[q].batchIndex])
    requires j < |log| && log[j] == Started(q)
    ensures i < j && log[i].Received? && log[i].call == p
    decreases |log|
  {
    var m := |log| - 1;
    if j < m {
      i := LaterCallWaits(plan, n, log[..m], p, q, j);
    } else {
      WaitsIffAsked(plan, n, p, q);
      i := CompletedWasReceived(log[..m], p);
    }
  }

  // The outcome in a slot is the one its call's judgement asks for.
  ghost predicate SlotOk(o: Outcome, call: ToolCall, f: CallFacts) {
    OutcomeOk(o, call, f, true) && o.stopReason == ""
  }

  // Refusals fill their slots at once, workers later. An empty slot belongs to a
  // prepared call that has not completed.
  ghost predicate SlotsOk(slots: seq<Option<Outcome>>, plan: Plan, completed: set<nat>) {
    var ok :=
      && |slots| <= |plan.calls| == |plan.facts|
      && (forall j {:trigger slots[j]} | 0 <= j < |slots| && slots[j].Some? :: SlotOk(slots[j].value, plan.calls[j], plan.facts[j]))
      && (forall j {:trigger slots[j]} | 0 <= j < |slots| && slots[j].None? ::
            Judge(plan.facts[j], true).Passing? && exists p: nat | p < |plan.ps| :: plan.ps[p].batchIndex == j && p !in completed);
    ok
  }

  function Decide(plan: Plan, i: nat, v: Verdict): Plan {
    if v.Ready? then plan.(ps := plan.ps + [Prepared.Prepared(i, v.claims)]) else plan
  }

  function SlotOf(v: Verdict): Option<Outcome> {
    if v.Immediate? then Some(v.outcome) else None
  }

  lemma DecideKeepsPlan(plan: Plan, i: nat, v: Verdict)
    requires i < |plan.calls| && PlanOk(plan, i) && Follows(Success(v), plan.calls[i], plan.facts[i], true)
    ensures PlanOk(Decide(plan, i, v), i + 1)
  {
    PassingNext(plan.facts, true, i);
  }

  lemma DecideKeepsSlots(slots: seq<Option<Outcome>>, plan: Plan, i: nat, v: Verdict)
    requires i < |plan.calls| && |slots| == i && PlanOk(plan, i) && SlotsOk(slots, plan, {})
    requires Follows(Success(v), plan.calls[i], plan.facts[i], true)
    requires v.Immediate? ==> v.outcome.stopReason == ""
    ensures SlotsOk(slots + [SlotOf(v)], Decide(plan, i, v), {})
  {
    var next, all := slots + [SlotOf(v)], Decide(plan, i, v).ps;
    forall j {:trigger next[j]} | 0 <= j < |next|
      ensures next[j].Some? ==> SlotOk(next[j].value, plan.calls[j], plan.facts[j])
      ensures next[j].None? ==>
                Judge(plan.facts[j], true).Passing? && exists p: nat | p < |all| :: all[p].batchIndex == j && p !in {}
    {
      if j < i {
        assert next[j] == slots[j];
        if slots[j].None? {
          var p: nat :| p < |plan.ps| && plan.ps[p].batchIndex == j;
          assert all[p].batchIndex == j;
        }
      } else if v.Ready? {
        assert all[|plan.ps|].batchIndex == j;
      }
    }
  }

  datatype Preflight =
    | Proceed(slots: seq<Option<Outcome>>, plan: Plan)
    | Stopped(batch: BatchResult)

  // What preflight lets through: neither a fault, nor a stop, nor a refusal that
  // cannot be answered.
  predicate Prepares(call: ToolCall, f: CallFacts) {
    && !Judge(f, true).Failing?
    && !StopsRun(f, true)
    && (Judge(f, true).Refused? ==> !Blank(call))
  }

  // Why preflight fails: its first call that does not get through fails, or stops
  // the run where some other call cannot be answered.
  ghost predicate PreflightFailsAt(calls: seq<ToolCall>, facts: seq<CallFacts>, error: Fault, k: nat)
    requires |facts| == |calls|
  {
    && k < |calls|
    && (forall j | 0 <= j < k :: Prepares(calls[j], facts[j]))
    && match Judge(facts[k], true)
       case Failing(fault) => error == fault
       case Refused(stopReason) => error == BLANK_IDENTIFIER && (if stopReason == "" then Blank(calls[k]) else AnyBlank(calls))
       case Passing => false
  }

  // Only refusals have filled a slot so far.
  ghost predicate NothingRan(slots: seq<Option<Outcome>>, plan: Plan) {
    && |slots| <= |plan.facts|
    && forall j | 0 <= j < |slots| && slots[j].Some? :: !Judge(plan.facts[j], true).Passing?
  }

  // The outcomes of the calls before a stop: refusals stay, prepared calls are
  // refused as well.
  method RefusePrepared(slots: seq<Option<Outcome>>, plan: Plan, text: string) returns (r: Result<seq<Outcome>, Fault>)
    requires SlotsOk(slots, plan, {}) && NothingRan(slots, plan)
    requires forall j | 0 <= j < |slots| :: Prepares(plan.calls[j], plan.facts[j])
    ensures r.Success? ==> |r.value| == |slots| && AllStopped(r.value, plan.calls, plan.facts, true, |slots|)
    ensures r.Failure? ==> r.error == BLANK_IDENTIFIER && AnyBlank(plan.calls)
  {
    var outcomes: seq<Outcome> := [];
    for j := 0 to |slots|
      invariant |outcomes| == j && AllStopped(outcomes, plan.calls, plan.facts, true, j)
    {
      if slots[j].Some? {
        assert SlotOk(slots[j].value, plan.calls[j], plan.facts[j]);
        SlotAnswers(slots[j].value, plan.calls[j], plan.facts[j]);
        outcomes := outcomes + [slots[j].value];
      } else {
        var refused := ErrorOutcome(plan.calls[j], text, "", false);
        if refused.Failure? {
          return Failure(refused.error);
        }
        outcomes := outcomes + [refused.value];
      }
    }
    r := Success(outcomes);
  }

  // Before anything ran, a filled slot is a refusal.
  lemma SlotAnswers(o: Outcome, call: ToolCall, f: CallFacts)
    requires SlotOk(o, call, f)
    ensures AnswersCall(o, call) && o.counted
    ensures Prepares(call, f) && !Judge(f, true).Passing? ==> StoppedOk(o, call, f, true)
  {
  }

  // Preflight has let through the first i calls.
  ghost predicate Decided(slots: seq<Option<Outcome>>, plan: Plan, i: nat) {
    var decided := PlanOk(plan, i) && |slots| == i && SlotsOk(slots, plan, {}) && NothingRan(slots, plan);
    decided
  }

  // One more call is decided.
  lemma DecidedNext(slots: seq<Option<Outcome>>, plan: Plan, i: nat, v: Verdict)
    requires i < |plan.calls| == |plan.facts| && Decided(slots, plan, i)
    requires Follows(Success(v), plan.calls[i], plan.facts[i], true) && (v.Immediate? ==> v.outcome.stopReason == "")
    ensures Decided(slots + [SlotOf(v)], Decide(plan, i, v), i + 1)
    ensures Prepares(plan.calls[i], plan.facts[i])
  {
    DecideKeepsPlan(plan, i, v);
    DecideKeepsSlots(slots, plan, i, v);
  }

  // Nothing of a stopped batch runs: every prepared call is refused as well.
  method StopPreflight(plan: Plan, at: nat, slots: seq<Option<Outcome>>, o: Outcome) returns (r: Result<BatchResult, Fault>)
    requires at < |plan.calls| && Decided(slots, plan, at)
    requires forall j | 0 <= j < at :: Prepares(plan.calls[j], plan.facts[j])
    requires Follows(Success(Immediate(o)), plan.calls[at], plan.facts[at], true) && o.stopReason != ""
    ensures r.Success? ==> BatchDone(r.value, plan.calls, plan.facts, true, []) && r.value.stopReason != ""
    ensures r.Failure? ==> PreflightFailsAt(plan.calls, plan.facts, r.error, at)
  {
    var text := "batch preflight requested run stop";
    var front := RefusePrepared(slots, plan, text);
    if front.Failure? {
      return Failure(front.error);
    }
    var rest := FailToolCalls(plan.calls[at + 1..], text);
    if rest.Failure? {
      return Failure(rest.error);
    }
    var b := BatchResult(front.value + [o] + rest.value, o.stopReason);
    StopBatch(front.value, plan.calls, plan.facts, true, [], at, o, rest.value, b);
    r := Success(b);
  }

  method Preflighted(call: ToolCall, f: CallFacts) returns (r: Result<Verdict, Fault>)
    ensures Follows(r, call, f, true)
  {
    r := PrepareToolCall(call, f, true);
  }

  /** Decides every call in source order before any of them starts. */
  method PrepareBatch(calls: seq<ToolCall>, facts: seq<CallFacts>) returns (r: Result<Preflight, Fault>)
    requires |facts| == |calls|
    ensures r.Success? && r.value.Stopped? ==> BatchDone(r.value.batch, calls, facts, true, []) && r.value.batch.stopReason != ""
    ensures r.Success? && r.value.Proceed? ==>
              && r.value.plan.calls == calls && r.value.plan.facts == facts
              && Decided(r.value.slots, r.value.plan, |calls|)
              && forall j | 0 <= j < |calls| :: Prepares(calls[j], facts[j])
    ensures r.Failure? ==> exists k :: PreflightFailsAt(calls, facts, r.error, k)
  {
    var slots: seq<Option<Outcome>>, plan := [], Plan(calls, facts, []);
    var i := 0;
    assert facts[..0] == [];
    while i < |calls|
      invariant i <= |calls| && Decided(slots, plan, i) && plan.calls == calls && plan.facts == facts
      invariant forall j | 0 <= j < i :: Prepares(calls[j], facts[j])
    {
      var verdict := Preflighted(calls[i], facts[i]);
      if verdict.Failure? {
        assert PreflightFailsAt(calls, facts, verdict.error, i);
        return Failure(verdict.error);
      }
      var v := verdict.value;
      if v.Immediate? && v.outcome.stopReason != "" {
        var stopped := StopPreflight(plan, i, slots, v.outcome);
        r := if stopped.Success? then Success(Stopped(stopped.value)) else Failure(stopped.error);
        return;
      }
      DecidedNext(slots, plan, i, v);
      slots, plan, i := slots + [SlotOf(v)], Decide(plan, i, v), i + 1;
    }
    r := Success(Proceed(slots, plan));
  }

  // ---------------------------------------------------------------------------
  // The coordinator.

  // What the coordinator knows between two steps.
  datatype Coordination = Coordination(slots: seq<Option<Outcome>>, workers: set<nat>, firstErr: Option<Fault>, cancelled: Option<Fault>)

  // Every worker reported what its call comes to.
  ghost predicate Faithful(plan: Plan, log: seq<Event>) {
    forall i | 0 <= i < |log| && log[i].Received? :: ReportOk(plan, log[i].call, log[i].fault)
  }

  ghost predicate ReportOk(plan: Plan, p: nat, fault: Option<Fault>) {
    && p < |plan.ps|
    && plan.ps[p].batchIndex < |plan.calls| == |plan.facts|
    && fault == FaultAt(plan.calls[plan.ps[p].batchIndex], plan.facts[plan.ps[p].batchIndex], true)
  }

  // The scheduler and the history agree; unless something went wrong, the slots
  // miss exactly what has not completed; every completed call lived once.
  ghost predicate Coordinated(c: Coordination, plan: Plan, s: Progress, log: seq<Event>, lives: seq<seq<CallEvent>>) {
    var ok :=
      && Legal(plan.ps, log) && ProgressOf(log) == s && Faithful(plan, log)
      && c.firstErr == FirstFault(log)
      && |c.slots| == |plan.calls|
      && (c.firstErr.None? ==> SlotsOk(c.slots, plan, s.completed))
      && AllLifecycles(lives) && |lives| == |s.completed|;
    ok
  }

  // A cancellation of the run may arrive at any time, and stays.
  method LookForCancel(cancelled: Option<Fault>) returns (now: Option<Fault>)
    ensures cancelled.Some? ==> now == cancelled
  {
    var arrived: Option<Fault> := *;
    now := if cancelled.Some? then cancelled else arrived;
  }

  lemma StartKeeps(c: Coordination, d: Coordination, plan: Plan, s: Progress, t: Progress,
                   log: seq<Event>, lives: seq<seq<CallEvent>>, p: nat)
    requires Coordinated(c, plan, s, log, lives) && c.firstErr.None?
    requires StartStep(plan.ps, s, t, p)
    requires d.slots == c.slots && d.firstErr == c.firstErr
    ensures Coordinated(d, plan, t, log + [Started(p)], lives)
  {
    LogStep(plan.ps, log, Started(p));
  }

  // Starts calls until none may start or the run is cancelled.
  method StartRunnable(scheduler: Scheduler.ToolBatchScheduler, c: Coordination, plan: Plan,
                       ghost log: seq<Event>, ghost lives: seq<seq<CallEvent>>)
    returns (d: Coordination, ghost longer: seq<Event>)
    requires scheduler.Valid() && scheduler.ps == plan.ps && c.firstErr.None? && c.workers == scheduler.active
    requires Coordinated(c, plan, scheduler.Progress(), log, lives)
    modifies scheduler
    ensures scheduler.Valid() && d.workers == scheduler.active && d.firstErr.None?
    ensures Coordinated(d, plan, scheduler.Progress(), longer, lives)
    ensures d.cancelled.None? ==> forall j :: !CanStart(scheduler.ps, scheduler.Progress(), j)
    ensures scheduler.completed == old(scheduler.completed)
  {
    d, longer := c, log;
    var cancelled := LookForCancel(c.cancelled);
    d := d.(cancelled := cancelled);
    var ok := true;
    while ok && d.cancelled.None?
      invariant scheduler.Valid() && d.workers == scheduler.active && d.firstErr.None?
      invariant Coordinated(d, plan, scheduler.Progress(), longer, lives)
      invariant !ok ==> forall j :: !CanStart(scheduler.ps, scheduler.Progress(), j)
      invariant scheduler.completed == old(scheduler.completed)
      decreases ok, Unstarted(scheduler.ps, scheduler.started)
    {
      d, ok, longer := StartOne(scheduler, d, plan, longer, lives);
    }
  }

  ghost function Unstarted(ps: seq<Prepared>, started: set<nat>): set<nat> {
    set i: nat | i < |ps| && i !in started
  }

  method StartOne(scheduler: Scheduler.ToolBatchScheduler, c: Coordination, plan: Plan,
                  ghost log: seq<Event>, ghost lives: seq<seq<CallEvent>>)
    returns (d: Coordination, ok: bool, ghost longer: seq<Event>)
    requires scheduler.Valid() && scheduler.ps == plan.ps && c.firstErr.None? && c.workers == scheduler.active
    requires Coordinated(c, plan, scheduler.Progress(), log, lives)
    modifies scheduler
    ensures scheduler.Valid() && d.workers == scheduler.active && d.firstErr.None?
    ensures Coordinated(d, plan, scheduler.Progress(), longer, lives)
    ensures !ok ==> forall j :: !CanStart(scheduler.ps, scheduler.Progress(), j)
    ensures scheduler.completed == old(scheduler.completed)
    ensures ok ==> Unstarted(scheduler.ps, scheduler.started) < Unstarted(scheduler.ps, old(scheduler.started))
  {
    d, longer := c, log;
    ghost var s := scheduler.Progress();
    var call;
    ghost var p;
    call, ok, p := scheduler.StartNext();
    if ok {
      var position := scheduler.Position(call.batchIndex, p);
      longer := log + [Started(p)];
      var cancelled := LookForCancel(c.cancelled);
      d := c.(workers := c.workers + {position}, cancelled := cancelled);
      StartKeeps(c, d, plan, s, scheduler.Progress(), log, lives, p);
      assert p in Unstarted(scheduler.ps, old(scheduler.started));
    }
  }

  function FaultOf(outcome: Result<Outcome, Fault>): Option<Fault> {
    if outcome.Success? then None else Some(outcome.error)
  }

  // An execution ends in what its call comes to.
  lemma WorkerReports(plan: Plan, p: nat, outcome: Result<Outcome, Fault>)
    requires PlanOk(plan, |plan.calls|) && p < |plan.ps|
    requires Concludes(outcome, plan.calls[plan.ps[p].batchIndex], plan.facts[plan.ps[p].batchIndex].work)
    ensures ReportOk(plan, p, FaultOf(outcome))
    ensures outcome.Success? ==> SlotOk(outcome.value, plan.calls[plan.ps[p].batchIndex], plan.facts[plan.ps[p].batchIndex])
  {
    assert Judge(plan.facts[plan.ps[p].batchIndex], true).Passing?;
  }

  lemma ReceiveKeeps(c: Coordination, d: Coordination, plan: Plan, s: Progress, t: Progress,
                     log: seq<Event>, lives: seq<seq<CallEvent>>, p: nat, outcome: Result<Outcome, Fault>, life: seq<CallEvent>)
    requires Coordinated(c, plan, s, log, lives) && PlanOk(plan, |plan.calls|)
    requires CompleteStep(s, t, p) && p < |plan.ps| && Lifecycle(life)
    requires ReportOk(plan, p, FaultOf(outcome))
    requires outcome.Success? ==> SlotOk(outcome.value, plan.calls[plan.ps[p].batchIndex], plan.facts[plan.ps[p].batchIndex])
    requires d.firstErr == if c.firstErr.Some? || outcome.Success? then c.firstErr else Some(outcome.error)
    requires d.slots == if outcome.Success? then c.slots[plan.ps[p].batchIndex := Some(outcome.value)] else c.slots
    ensures Coordinated(d, plan, t, log + [Received(p, FaultOf(outcome))], lives + [life])
  {
    LogStep(plan.ps, log, Received(p, FaultOf(outcome)));
    MoreLives(lives, [life]);
    if d.firstErr.None? {
      FillSlot(c.slots, plan, s.completed, p, outcome.value);
    }
  }

  lemma FillSlot(slots: seq<Option<Outcome>>, plan: Plan, completed: set<nat>, p: nat, o: Outcome)
    requires |slots| == |plan.calls| && SlotsOk(slots, plan, completed) && PlanOk(plan, |plan.calls|) && p < |plan.ps|
    requires SlotOk(o, plan.calls[plan.ps[p].batchIndex], plan.facts[plan.ps[p].batchIndex])
    ensures SlotsOk(slots[plan.ps[p].batchIndex := Some(o)], plan, completed + {p})
  {
    var now := slots[plan.ps[p].batchIndex := Some(o)];
    forall j {:trigger now[j]} | 0 <= j < |now| && now[j].None?
      ensures Judge(plan.facts[j], true).Passing?
      ensures exists q: nat | q < |plan.ps| :: plan.ps[q].batchIndex == j && q !in completed + {p}
    {
      assert slots[j].None?;
      var q: nat :| q < |plan.ps| && plan.ps[q].batchIndex == j && q !in completed;
      assert q != p;
    }
  }

  lemma NoticeKeeps(c: Coordination, d: Coordination, plan: Plan, s: Progress,
                    log: seq<Event>, lives: seq<seq<CallEvent>>, cause: Fault)
    requires Coordinated(c, plan, s, log, lives) && c.firstErr.None?
    requires d.slots == c.slots && d.firstErr == Some(cause)
    ensures Coordinated(d, plan, s, log + [Noticed(cause)], lives)
  {
    LogStep(plan.ps, log, Noticed(cause));
  }

  // Takes the completion of any one worker.
  method ReceiveOne(scheduler: Scheduler.ToolBatchScheduler, c: Coordination, plan: Plan,
                    ghost log: seq<Event>, ghost lives: seq<seq<CallEvent>>)
    returns (d: Coordination, ghost longer: seq<Event>, ghost more: seq<seq<CallEvent>>)
    requires scheduler.Valid() && scheduler.ps == plan.ps && c.workers == scheduler.active && scheduler.running > 0
    requires PlanOk(plan, |plan.calls|)
    requires Coordinated(c, plan, scheduler.Progress(), log, lives)
    modifies scheduler
    ensures scheduler.Valid() && d.workers == scheduler.active
    ensures scheduler.running == old(scheduler.running) - 1 && scheduler.started == old(scheduler.started)
    ensures Coordinated(d, plan, scheduler.Progress(), longer, more)
    ensures c.firstErr.Some? ==> d.firstErr.Some?
    ensures Unstarted(scheduler.ps, scheduler.completed) < Unstarted(scheduler.ps, old(scheduler.completed))
  {
    scheduler.RunningIsExact();
    assert c.workers != {};
    var p: nat :| p in c.workers;
    RunningIsPrepared(plan, scheduler.Progress(), c, log, lives, p);
    ghost var s := scheduler.Progress();
    var index := plan.ps[p].batchIndex;
    var outcome, life := ExecuteStartedToolCall(plan.calls[index], plan.facts[index].work);
    WorkerReports(plan, p, outcome);
    scheduler.Complete(index, p);
    var firstErr := if c.firstErr.Some? || outcome.Success? then c.firstErr else Some(outcome.error);
    var slots := if outcome.Success? then c.slots[index := Some(outcome.value)] else c.slots;
    d := Coordination(slots, c.workers - {p}, firstErr, c.cancelled);
    ReceiveKeeps(c, d, plan, s, scheduler.Progress(), log, lives, p, outcome, life);
    longer, more := log + [Received(p, FaultOf(outcome))], lives + [life];
    assert p in Unstarted(scheduler.ps, old(scheduler.completed));
  }

  lemma RunningIsPrepared(plan: Plan, s: Progress, c: Coordination, log: seq<Event>, lives: seq<seq<CallEvent>>, p: nat)
    requires Coordinated(c, plan, s, log, lives) && PlanOk(plan, |plan.calls|) && Running(s, p)
    ensures p < |plan.ps| && plan.ps[p].batchIndex < |plan.calls| == |plan.facts| == |c.slots|
  {
    LegalKeepsInv(plan.ps, log);
  }

  // After a completion: keep the first error, or notice a cancellation, or let
  // more calls start.
  method React(scheduler: Scheduler.ToolBatchScheduler, c: Coordination, plan: Plan,
               ghost log: seq<Event>, ghost lives: seq<seq<CallEvent>>)
    returns (d: Coordination, ghost longer: seq<Event>)
    requires scheduler.Valid() && scheduler.ps == plan.ps && c.workers == scheduler.active
    requires Coordinated(c, plan, scheduler.Progress(), log, lives)
    modifies scheduler
    ensures scheduler.Valid() && d.workers == scheduler.active
    ensures Coordinated(d, plan, scheduler.Progress(), longer, lives)
    ensures c.firstErr.Some? ==> d.firstErr.Some? && scheduler.started == old(scheduler.started)
    ensures d.firstErr.Some? ==> scheduler.running == old(scheduler.running)
    ensures scheduler.completed == old(scheduler.completed)
    ensures Settled(d, scheduler.ps, scheduler.Progress())
  {
    d, longer := c, log;
    if c.firstErr.Some? {
      return;
    }
    var cancelled := LookForCancel(c.cancelled);
    if cancelled.Some? {
      d := c.(firstErr := cancelled, cancelled := cancelled);
      NoticeKeeps(c, d, plan, scheduler.Progress(), log, lives, cancelled.value);
      longer := log + [Noticed(cancelled.value)];
      return;
    }
    d, longer := StartRunnable(scheduler, c, plan, log, lives);
  }

  // Unless the run is going down, every call that may start has started.
  ghost predicate Settled(c: Coordination, ps: seq<Prepared>, s: Progress) {
    c.firstErr.Some? || c.cancelled.Some? || forall j :: !CanStart(ps, s, j)
  }

  lemma AllCompleted(ps: seq<Prepared>, s: Progress)
    requires Inv(ps, s)
    requires forall j :: !CanStart(ps, s, j)
    requires forall j :: !Running(s, j)
    ensures forall j: nat | j < |ps| :: j in s.completed
  {
    forall j: nat | j < |ps|
      ensures j in s.completed
    {
      if j !in s.completed {
        NeverStuck(ps, s, j);
        assert false;
      }
    }
  }

  // All slots as outcomes.
  function Filled(slots: seq<Option<Outcome>>): (os: seq<Outcome>)
    requires forall j | 0 <= j < |slots| :: slots[j].Some?
    ensures |os| == |slots| && forall j | 0 <= j < |os| :: os[j] == slots[j].value
  {
    seq(|slots|, j requires 0 <= j < |slots| => slots[j].value)
  }

  lemma {:induction false} AllCounted(os: seq<Outcome>)
    requires forall i | 0 <= i < |os| :: os[i].counted
    ensures CountedOf(os) == |os|
  {
    if os != [] {
      AllCounted(os[..|os| - 1]);
    }
  }

  lemma NoSlotIsEmpty(slots: seq<Option<Outcome>>, plan: Plan, completed: set<nat>)
    requires SlotsOk(slots, plan, completed) && forall j: nat | j < |plan.ps| :: j in completed
    ensures forall j | 0 <= j < |slots| :: slots[j].Some?
  {
  }

  lemma FullSlotsAreDone(slots: seq<Option<Outcome>>, plan: Plan, completed: set<nat>, lives: seq<seq<CallEvent>>)
    requires SlotsOk(slots, plan, completed) && |slots| == |plan.calls|
    requires forall j | 0 <= j < |slots| :: slots[j].Some?
    requires AllLifecycles(lives) && |lives| <= |plan.calls| && |lives| == PassingOf(plan.facts, true)
    ensures BatchDone(BatchResult(Filled(slots), ""), plan.calls, plan.facts, true, lives)
  {
    var os := Filled(slots);
    forall i {:trigger os[i]} | 0 <= i < |os|
      ensures SlotOk(os[i], plan.calls[i], plan.facts[i]) && AnswersCall(os[i], plan.calls[i]) && os[i].counted
    {
      assert os[i] == slots[i].value;
      SlotAnswers(os[i], plan.calls[i], plan.facts[i]);
    }
    AllCounted(os);
  }

  lemma {:induction false} IndexAtLeastPosition(ps: seq<Prepared>, i: nat)
    requires WellFormed(ps) && i < |ps|
    ensures i <= ps[i].batchIndex
  {
    if i > 0 {
      IndexAtLeastPosition(ps, i - 1);
    }
  }

  // A set of numbers below n has at most n elements, and n when it has them all.
  lemma {:induction false} SizeInRange(s: set<nat>, n: nat)
    requires forall x | x in s :: x < n
    ensures |s| <= n
    ensures (forall x: nat | x < n :: x in s) ==> |s| == n
  {
    if n == 0 {
      assert s == {};
    } else {
      SizeInRange(s - {n - 1}, n - 1);
    }
  }

  // No more workers than calls.
  lemma LivesBounded(c: Coordination, plan: Plan, s: Progress, log: seq<Event>, lives: seq<seq<CallEvent>>)
    requires Coordinated(c, plan, s, log, lives) && PlanOk(plan, |plan.calls|)
    ensures |lives| <= |plan.calls| && Inv(plan.ps, s)
    ensures (forall j: nat | j < |plan.ps| :: j in s.completed) ==> |lives| == |plan.ps|
    ensures BatchBounded(plan.facts, true, lives)
  {
    LegalKeepsInv(plan.ps, log);
    SizeInRange(s.completed, |plan.ps|);
    if plan.ps != [] {
      IndexAtLeastPosition(plan.ps, |plan.ps| - 1);
      assert Judge(plan.facts[plan.ps[0].batchIndex], true).Passing?;
    }
  }

  // Whatever started has been received.
  ghost predicate Drained(log: seq<Event>) {
    forall j :: !Running(ProgressOf(log), j)
  }

  // What the run of the prepared calls of a batch promises.
  ghost predicate RanBatch(r: Result<BatchResult, Fault>, plan: Plan, log: seq<Event>, lives: seq<seq<CallEvent>>) {
    && PlanOk(plan, |plan.calls|)
    && BatchBounded(plan.facts, true, lives)
    && Legal(plan.ps, log) && Faithful(plan, log) && Drained(log)
    && |lives| == |ProgressOf(log).completed|
    && (r.Failure? ==> FirstFault(log) == Some(r.error))
    && (r.Success? ==>
          && FirstFault(log).None?
          && r.value.stopReason == ""
          && BatchDone(r.value, plan.calls, plan.facts, true, lives)
          && forall j: nat | j < |plan.ps| :: j in ProgressOf(log).completed)
  }

  /** Runs the prepared calls. The outcome is complete, or it is the first thing
      that went wrong; either way every started call was waited for. */
  method RunPrepared(slots: seq<Option<Outcome>>, plan: Plan)
    returns (r: Result<BatchResult, Fault>, ghost log: seq<Event>, ghost lives: seq<seq<CallEvent>>)
    requires Decided(slots, plan, |plan.calls|)
    ensures r.Success? ==> r.value.stopReason == "" && AllOk(r.value.outcomes, plan.calls, plan.facts, true)
    ensures RanBatch(r, plan, log, lives)
  {
    var scheduler := new Scheduler.ToolBatchScheduler(plan.ps);
    var c := Coordination(slots, {}, None, None);
    log, lives := [], [];
    scheduler.RunningIsExact();
    c, log := StartRunnable(scheduler, c, plan, log, lives);
    while scheduler.running > 0
      invariant scheduler.Valid() && scheduler.ps == plan.ps && c.workers == scheduler.active
      invariant Coordinated(c, plan, scheduler.Progress(), log, lives)
      invariant Settled(c, plan.ps, scheduler.Progress())
      decreases Unstarted(plan.ps, scheduler.completed)
    {
      c, log, lives := ReceiveOne(scheduler, c, plan, log, lives);
      c, log := React(scheduler, c, plan, log, lives);
    }
    scheduler.RunningIsExact();
    r, log := Conclude(plan, c, scheduler.Progress(), log, lives);
  }

  method Conclude(plan: Plan, c: Coordination, ghost s: Progress, ghost log: seq<Event>, ghost lives: seq<seq<CallEvent>>)
    returns (r: Result<BatchResult, Fault>, ghost longer: seq<Event>)
    requires PlanOk(plan, |plan.calls|)
    requires Coordinated(c, plan, s, log, lives) && Settled(c, plan.ps, s)
    requires forall j :: !Running(s, j)
    ensures RanBatch(r, plan, longer, lives)
  {
    longer := log;
    LivesBounded(c, plan, s, log, lives);
    if c.firstErr.Some? {
      return Failure(c.firstErr.value), log;
    }
    var cancelled := LookForCancel(c.cancelled);
    if cancelled.Some? {
      LogStep(plan.ps, log, Noticed(cancelled.value));
      return Failure(cancelled.value), log + [Noticed(cancelled.value)];
    }
    AllCompleted(plan.ps, s);
    assert plan.facts[..|plan.calls|] == plan.facts;
    NoSlotIsEmpty(c.slots, plan, s.completed);
    FullSlotsAreDone(c.slots, plan, s.completed, lives);
    r := Success(BatchResult(Filled(c.slots), ""));
  }

  /** The parallel batch. A preflight stop or failure starts nothing; a nil error
      means that slot i holds what call i comes to, for every i. */
  method ExecuteParallel(calls: seq<ToolCall>, facts: seq<CallFacts>)
    returns (r: Result<BatchResult, Fault>, ghost plan: Plan, ghost log: seq<Event>, ghost lives: seq<seq<CallEvent>>)
    requires |facts| == |calls|
    ensures r.Success? && r.value.stopReason == "" ==> AllOk(r.value.outcomes, calls, facts, true)
    ensures r.Success? && r.value.stopReason == "" ==>
              |r.value.outcomes| == |calls| && forall i {:trigger r.value.outcomes[i]} | 0 <= i < |calls| ::
                if facts[i].known && facts[i].validArguments && facts[i].hook.Answer? && !facts[i].hook.decision.block
                   && !facts[i].resolver.BadArguments?
                then Reports(r.value.outcomes[i], calls[i], facts[i].work)
                else RefusalOf(r.value.outcomes[i], calls[i])
    ensures r.Success? && r.value.stopReason != "" ==> exists at :: StopsAt(r.value, calls, facts, true, 0, at)
    ensures BatchBounded(facts, true, lives)
    ensures r.Success? ==> BatchDone(r.value, calls, facts, true, lives)
    ensures r.Success? && r.value.stopReason != "" ==> log == [] && lives == []
    ensures r.Failure? && log == [] ==> exists k :: PreflightFailsAt(calls, facts, r.error, k)
    ensures log != [] ==>
              && plan.calls == calls && plan.facts == facts && RanBatch(r, plan, log, lives)
              && forall j | 0 <= j < |calls| :: Prepares(calls[j], facts[j])
  {
    plan, log, lives := Plan(calls, facts, []), [], [];
    var preflight := PrepareBatch(calls, facts);
    if preflight.Failure? {
      return Failure(preflight.error), plan, [], [];
    }
    if preflight.value.Stopped? {
      return Success(preflight.value.batch), plan, [], [];
    }
    var slots, ready := preflight.value.slots, preflight.value.plan;
    plan := ready;
    if ready.ps == [] {
      assert facts[..|calls|] == facts;
      NoSlotIsEmpty(slots, ready, {});
      FullSlotsAreDone(slots, ready, {}, []);
      OutcomesTell(Filled(slots), calls, facts, true);
      return Success(BatchResult(Filled(slots), "")), plan, [], [];
    }
    r, log, lives := RunPrepared(slots, ready);
    if r.Success? {
      OutcomesTell(r.value.outcomes, calls, facts, true);
    }
  }
}
