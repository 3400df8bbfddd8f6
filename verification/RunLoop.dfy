/** One run: turns of the model, its tools, and messages queued from outside. */
module RunLoop {
  import opened Messages
  import opened Guard
  import opened Batch
  import BatchParallel
  import Control

  datatype ModelStop = EndTurn | ToolCalls | Length | OtherStop

  datatype Response = Response(message: Message, stop: ModelStop, usage: Usage)

  const INCOMPARABLE := Fault(3)
  const CANCELLED := Fault(6)
  const NO_ANSWER := Fault(4)
  const BAD_ANSWER := Fault(5)

  function AddUsage(a: Usage, b: Usage): Usage {
    Usage(a.inputTokens + b.inputTokens, a.outputTokens + b.outputTokens, a.cost + b.cost)
  }

  // What a valid model response satisfies.
  predicate ValidResponse(r: Response) {
    && r.message.Assistant?
    && (r.stop.EndTurn? ==> r.message.calls == [])
    && (r.stop.ToolCalls? ==> r.message.calls != [])
  }

  // The run's own state: the messages it was given and those it produced.
  datatype RunState = RunState(initial: seq<Message>, produced: seq<Message>, turnAttempts: nat, toolCalls: nat, usage: Usage)

  // Why a run ends by itself.
  datatype NaturalEnd = Completed | CutShort | ToolsEnded

  datatype Exit = Natural(end: NaturalEnd) | Stopped(reason: string) | Failed(fault: Fault)

  datatype RunEvent = RunStart | TurnStart(turn: nat) | Tools(lives: seq<seq<CallEvent>>) | TurnEnd(turn: nat) | RunEnd

  // ---------------------------------------------------------------------------
  // Transcripts.

  // The messages end in an assistant message and the results of its calls, in
  // call order.
  predicate AnsweredTurn(ms: seq<Message>, start: nat) {
    && EndsInTurn(ms, start)
    && forall i {:trigger ms[start].calls[i]} | 0 <= i < |ms[start].calls| :: ms[start + 1 + i].callId == ms[start].calls[i].id
  }

  // Every assistant message with calls is followed at once by their results.
  ghost predicate Complete(ms: seq<Message>)
    decreases |ms|
  {
    ms != [] ==>
      var n := |ms| - 1;
      || (ms[n].User? && Complete(ms[..n]))
      || (ms[n].Assistant? && ms[n].calls == [] && Complete(ms[..n]))
      || (exists start: nat :: AnsweredTurn(ms, start) && Complete(ms[..start]))
  }

  // Complete but for the calls of the last message.
  ghost predicate Dangling(ms: seq<Message>) {
    ms != [] && ms[|ms| - 1].Assistant? && ms[|ms| - 1].calls != [] && Complete(ms[..|ms| - 1])
  }

  lemma CompleteUser(ms: seq<Message>, m: Message)
    requires Complete(ms) && m.User?
    ensures Complete(ms + [m])
  {
    assert (ms + [m])[..|ms|] == ms;
  }

  lemma CompleteAssistant(ms: seq<Message>, m: Message)
    requires Complete(ms) && m.Assistant?
    ensures if m.calls == [] then Complete(ms + [m]) else Dangling(ms + [m])
  {
    assert (ms + [m])[..|ms|] == ms;
  }

  function MessagesFrom(os: seq<Outcome>): (ms: seq<Message>)
    ensures |ms| == |os| && forall i | 0 <= i < |os| :: ms[i] == os[i].message
  {
    seq(|os|, i requires 0 <= i < |os| => os[i].message)
  }

  lemma CompleteTools(ms: seq<Message>, os: seq<Outcome>)
    requires Dangling(ms) && AllAnswered(os, ms[|ms| - 1].calls)
    ensures Complete(ms + MessagesFrom(os))
  {
    var start := |ms| - 1;
    var all := ms + MessagesFrom(os);
    assert all[start] == ms[start];
    forall i | start < i < |all|
      ensures all[i].ToolResult? && all[i].callId == ms[start].calls[i - start - 1].id
    {
      assert all[i] == os[i - start - 1].message;
    }
    assert AnsweredTurn(all, start);
    assert all[..start] == ms[..start];
  }

  /** A complete run keeps every result with its call. */
  lemma {:induction false} CompleteFollows(before: seq<Message>, ms: seq<Message>, all: seq<Message>)
    requires ResultsFollowCalls(before) && Complete(ms) && all == before + ms
    ensures ResultsFollowCalls(all)
    decreases |ms|
  {
    if ms == [] {
      assert all == before;
    } else if start: nat :| AnsweredTurn(ms, start) && Complete(ms[..start]) {
      CompleteFollows(before, ms[..start], before + ms[..start]);
      TurnFollows(before + ms[..start], ms[start..], all);
    } else {
      var n := |ms| - 1;
      CompleteFollows(before, ms[..n], before + ms[..n]);
      OtherFollows(before + ms[..n], ms[n], all);
    }
  }

  lemma AnswersAgain(ms: seq<Message>, all: seq<Message>, j: nat, i: nat)
    requires ms <= all && j < i < |ms| && Answers(ms, j, i)
    ensures Answers(all, j, i)
  {
  }

  lemma OtherFollows(ms: seq<Message>, m: Message, all: seq<Message>)
    requires ResultsFollowCalls(ms) && !m.ToolResult? && all == ms + [m]
    ensures ResultsFollowCalls(all)
  {
    forall i | 0 <= i < |all| && all[i].ToolResult?
      ensures exists j | 0 <= j < i :: Answers(all, j, i)
    {
      assert all[i] == ms[i];
      var j :| 0 <= j < i && Answers(ms, j, i);
      AnswersAgain(ms, all, j, i);
    }
  }

  lemma TurnFollows(ms: seq<Message>, turn: seq<Message>, all: seq<Message>)
    requires ResultsFollowCalls(ms) && all == ms + turn && turn != [] && turn[0].Assistant? && |turn| - 1 == |turn[0].calls|
    requires forall i | 0 < i < |turn| :: turn[i].ToolResult? && turn[i].callId == turn[0].calls[i - 1].id
    ensures ResultsFollowCalls(all)
  {
    forall i | 0 <= i < |all| && all[i].ToolResult?
      ensures exists j | 0 <= j < i :: Answers(all, j, i)
    {
      if i < |ms| {
        var j :| 0 <= j < i && Answers(ms, j, i);
        AnswersAgain(ms, all, j, i);
      } else {
        assert all[i] == turn[i - |ms|];
        assert Answers(all, |ms|, i);
      }
    }
  }

  // ---------------------------------------------------------------------------
  // What the model said.

  function AssistantsOf(ms: seq<Message>): seq<Message> {
    if ms == [] then []
    else AssistantsOf(ms[..|ms| - 1]) + (if ms[|ms| - 1].Assistant? then [ms[|ms| - 1]] else [])
  }

  lemma {:induction false} AssistantsMore(ms: seq<Message>, more: seq<Message>)
    requires forall i | 0 <= i < |more| :: !more[i].Assistant?
    ensures AssistantsOf(ms + more) == AssistantsOf(ms)
    decreases |more|
  {
    if more == [] {
      assert ms + more == ms;
    } else {
      var n := |more| - 1;
      AssistantsMore(ms, more[..n]);
      assert (ms + more)[..|ms + more| - 1] == ms + more[..n];
    }
  }

  lemma AssistantsNext(ms: seq<Message>, m: Message)
    requires m.Assistant?
    ensures AssistantsOf(ms + [m]) == AssistantsOf(ms) + [m]
  {
    assert (ms + [m])[..|ms|] == ms;
  }

  function AnswersOf(script: seq<Response>): seq<Message> {
    if script == [] then [] else AnswersOf(script[..|script| - 1]) + [script[|script| - 1].message]
  }

  function UsageOf(script: seq<Response>): Usage {
    if script == [] then Usage(0, 0, 0.0) else AddUsage(UsageOf(script[..|script| - 1]), script[|script| - 1].usage)
  }

  function SumOf(xs: seq<int>): int {
    if xs == [] then 0 else SumOf(xs[..|xs| - 1]) + xs[|xs| - 1]
  }

  function CostOf(xs: seq<real>): real {
    if xs == [] then 0.0 else CostOf(xs[..|xs| - 1]) + xs[|xs| - 1]
  }

  lemma {:induction false} AnswersAre(script: seq<Response>)
    ensures AnswersOf(script) == seq(|script|, i requires 0 <= i < |script| => script[i].message)
  {
    if script != [] {
      AnswersAre(script[..|script| - 1]);
    }
  }

  lemma {:induction false} InputAdds(script: seq<Response>)
    ensures UsageOf(script).inputTokens == SumOf(seq(|script|, i requires 0 <= i < |script| => script[i].usage.inputTokens))
  {
    if script != [] {
      var n := |script| - 1;
      InputAdds(script[..n]);
      assert seq(|script|, i requires 0 <= i < |script| => script[i].usage.inputTokens)[..n]
          == seq(n, i requires 0 <= i < n => script[..n][i].usage.inputTokens);
    }
  }

  lemma {:induction false} OutputAdds(script: seq<Response>)
    ensures UsageOf(script).outputTokens == SumOf(seq(|script|, i requires 0 <= i < |script| => script[i].usage.outputTokens))
  {
    if script != [] {
      var n := |script| - 1;
      OutputAdds(script[..n]);
      assert seq(|script|, i requires 0 <= i < |script| => script[i].usage.outputTokens)[..n]
          == seq(n, i requires 0 <= i < n => script[..n][i].usage.outputTokens);
    }
  }

  lemma {:induction false} CostAdds(script: seq<Response>)
    ensures UsageOf(script).cost == CostOf(seq(|script|, i requires 0 <= i < |script| => script[i].usage.cost))
  {
    if script != [] {
      var n := |script| - 1;
      CostAdds(script[..n]);
      assert seq(|script|, i requires 0 <= i < |script| => script[i].usage.cost)[..n]
          == seq(n, i requires 0 <= i < n => script[..n][i].usage.cost);
    }
  }

  /** The answers are the messages of the script, and each field of the usage is the
      sum of that field. */
  lemma ScriptAdds(script: seq<Response>)
    ensures AnswersOf(script) == seq(|script|, i requires 0 <= i < |script| => script[i].message)
    ensures UsageOf(script).inputTokens == SumOf(seq(|script|, i requires 0 <= i < |script| => script[i].usage.inputTokens))
    ensures UsageOf(script).outputTokens == SumOf(seq(|script|, i requires 0 <= i < |script| => script[i].usage.outputTokens))
    ensures UsageOf(script).cost == CostOf(seq(|script|, i requires 0 <= i < |script| => script[i].usage.cost))
  {
    AnswersAre(script);
    InputAdds(script);
    OutputAdds(script);
    CostAdds(script);
  }

  // The transcript only grew, and the model said nothing new.
  ghost predicate SameAnswers(s: RunState, t: RunState) {
    && s.produced <= t.produced
    && AssistantsOf(t.produced) == AssistantsOf(s.produced)
    && t.usage == s.usage && t.turnAttempts == s.turnAttempts && t.initial == s.initial
  }

  // ---------------------------------------------------------------------------
  // Delivery of queued messages.

  // The messages of a appear in b in this order.
  ghost predicate Within(a: seq<Message>, b: seq<Message>)
    decreases |b|
  {
    if a == [] then true
    else if b == [] then false
    else (a[|a| - 1] == b[|b| - 1] && Within(a[..|a| - 1], b[..|b| - 1])) || Within(a, b[..|b| - 1])
  }

  // The user messages of ms are those of a and b, each in its order.
  ghost predicate Merged(a: seq<Message>, b: seq<Message>, ms: seq<Message>)
    decreases |ms|
  {
    if ms == [] then a == [] && b == []
    else
      var n := |ms| - 1;
      || (!ms[n].User? && Merged(a, b, ms[..n]))
      || (ms[n].User? && a != [] && a[|a| - 1] == ms[n] && Merged(a[..|a| - 1], b, ms[..n]))
      || (ms[n].User? && b != [] && b[|b| - 1] == ms[n] && Merged(a, b[..|b| - 1], ms[..n]))
  }

  lemma SplitLast(ms: seq<Message>, more: seq<Message>, n: nat)
    requires |more| == n + 1
    ensures ms + more == (ms + more[..n]) + [more[n]] && (ms + more)[..|ms + more| - 1] == ms + more[..n]
  {
  }

  lemma {:induction false} MergedOthers(a: seq<Message>, b: seq<Message>, ms: seq<Message>, more: seq<Message>)
    requires Merged(a, b, ms) && forall i | 0 <= i < |more| :: !more[i].User?
    ensures Merged(a, b, ms + more)
    decreases |more|
  {
    if more == [] {
      assert ms + more == ms;
    } else {
      var n := |more| - 1;
      MergedOthers(a, b, ms, more[..n]);
      SplitLast(ms, more, n);
    }
  }

  lemma {:induction false} MergedFirst(a: seq<Message>, b: seq<Message>, ms: seq<Message>, more: seq<Message>)
    requires Merged(a, b, ms) && forall i | 0 <= i < |more| :: more[i].User?
    ensures Merged(a + more, b, ms + more)
    decreases |more|
  {
    if more == [] {
      assert ms + more == ms && a + more == a;
    } else {
      var n := |more| - 1;
      MergedFirst(a, b, ms, more[..n]);
      SplitLast(ms, more, n);
      SplitLast(a, more, n);
    }
  }

  lemma {:induction false} MergedSecond(a: seq<Message>, b: seq<Message>, ms: seq<Message>, more: seq<Message>)
    requires Merged(a, b, ms) && forall i | 0 <= i < |more| :: more[i].User?
    ensures Merged(a, b + more, ms + more)
    decreases |more|
  {
    if more == [] {
      assert ms + more == ms && b + more == b;
    } else {
      var n := |more| - 1;
      MergedSecond(a, b, ms, more[..n]);
      SplitLast(ms, more, n);
      SplitLast(b, more, n);
    }
  }

  lemma {:induction false} MergedWithin(a: seq<Message>, b: seq<Message>, ms: seq<Message>)
    requires Merged(a, b, ms)
    ensures Within(a, ms) && Within(b, ms)
    decreases |ms|
  {
    if ms != [] {
      var n := |ms| - 1;
      if !ms[n].User? && Merged(a, b, ms[..n]) {
        MergedWithin(a, b, ms[..n]);
      } else if ms[n].User? && a != [] && a[|a| - 1] == ms[n] && Merged(a[..|a| - 1], b, ms[..n]) {
        MergedWithin(a[..|a| - 1], b, ms[..n]);
      } else {
        MergedWithin(a, b[..|b| - 1], ms[..n]);
      }
    }
  }

  function UsersOf(ms: seq<Message>): seq<Message> {
    if ms == [] then []
    else UsersOf(ms[..|ms| - 1]) + (if ms[|ms| - 1].User? then [ms[|ms| - 1]] else [])
  }

  lemma LastOf(a: seq<Message>)
    requires a != []
    ensures multiset(a) == multiset(a[..|a| - 1]) + multiset{a[|a| - 1]}
  {
    assert a == a[..|a| - 1] + [a[|a| - 1]];
  }

  /** Every delivered message is there exactly once, and no other user message. */
  lemma {:induction false} MergedUsers(a: seq<Message>, b: seq<Message>, ms: seq<Message>)
    requires Merged(a, b, ms)
    ensures multiset(UsersOf(ms)) == multiset(a) + multiset(b)
    decreases |ms|
  {
    if ms != [] {
      var n := |ms| - 1;
      if !ms[n].User? && Merged(a, b, ms[..n]) {
        MergedUsers(a, b, ms[..n]);
      } else if ms[n].User? && a != [] && a[|a| - 1] == ms[n] && Merged(a[..|a| - 1], b, ms[..n]) {
        MergedUsers(a[..|a| - 1], b, ms[..n]);
        LastOf(a);
      } else {
        MergedUsers(a, b[..|b| - 1], ms[..n]);
        LastOf(b);
      }
    }
  }

  // ---------------------------------------------------------------------------
  // Events.

  // The run has started and n turns are over, each closed, with every tool of a
  // turn started and ended inside it.
  ghost predicate TurnsOver(log: seq<RunEvent>, n: nat)
    decreases n
  {
    if n == 0 then
      log == [RunStart]
    else
      var k := |log|;
      && k >= 2 && log[k - 1] == TurnEnd(n)
      && (|| (log[k - 2] == TurnStart(n) && TurnsOver(log[..k - 2], n - 1))
          || (k >= 3 && log[k - 2].Tools? && AllLifecycles(log[k - 2].lives) && log[k - 3] == TurnStart(n)
              && TurnsOver(log[..k - 3], n - 1)))
  }

  // The end of this turn is next, or its tools are and then its end.
  ghost predicate TurnRuns(log: seq<RunEvent>, i: nat, turn: nat) {
    || (i + 1 < |log| && log[i + 1] == TurnEnd(turn))
    || (i + 2 < |log| && log[i + 1].Tools? && AllLifecycles(log[i + 1].lives) && log[i + 2] == TurnEnd(turn))
  }

  // One event of a run of n turns.
  ghost predicate InPlace(log: seq<RunEvent>, i: nat, n: nat)
    requires i < |log|
  {
    match log[i]
    case RunStart => i == 0
    case TurnStart(turn) => 0 < i && 0 < turn <= n && log[i - 1] == (if turn == 1 then RunStart else TurnEnd(turn - 1)) && TurnRuns(log, i, turn)
    case Tools(_) => 1 < i && log[i - 1].TurnStart?
    case TurnEnd(turn) => 1 < i && (i + 1 < |log| || turn == n) && (log[i - 1] == TurnStart(turn) || log[i - 2] == TurnStart(turn))
    case RunEnd => false
  }

  /** The events one by one: each turn starts behind the end of the turn before it,
      has at most one batch of tools, and ends. */
  lemma {:induction false} EventsInPlace(log: seq<RunEvent>, n: nat)
    requires TurnsOver(log, n)
    ensures log != [] && log[0] == RunStart && log[|log| - 1] == if n == 0 then RunStart else TurnEnd(n)
    ensures forall i | 0 <= i < |log| :: InPlace(log, i, n)
    decreases n
  {
    if n > 0 {
      var k := |log|;
      var j := if log[k - 2] == TurnStart(n) && TurnsOver(log[..k - 2], n - 1) then k - 2 else k - 3;
      EventsInPlace(log[..j], n - 1);
      forall i | 0 <= i < k
        ensures InPlace(log, i, n)
      {
        if i < j {
          assert InPlace(log[..j], i, n - 1);
        }
      }
    }
  }

  // Turn n is going on, and `tools` is what its batch has emitted.
  ghost predicate TurnGoingOn(log: seq<RunEvent>, n: nat, tools: seq<RunEvent>) {
    && n > 0 && |tools| <= 1 && |tools| < |log|
    && (tools != [] ==> tools[0].Tools? && AllLifecycles(tools[0].lives))
    && var k := |log| - |tools|;
       log[k..] == tools && log[k - 1] == TurnStart(n) && TurnsOver(log[..k - 1], n - 1)
  }

  lemma TurnOpens(log: seq<RunEvent>, n: nat, next: nat, all: seq<RunEvent>)
    requires TurnsOver(log, n) && next == n + 1 && all == log + [TurnStart(next)]
    ensures TurnGoingOn(all, next, [])
  {
    assert all[..|log|] == log && all[|all|..] == [];
  }

  lemma TurnCloses(log: seq<RunEvent>, n: nat, tools: seq<RunEvent>)
    requires TurnGoingOn(log, n, tools)
    ensures TurnsOver(log + [TurnEnd(n)], n)
  {
    var all, k := log + [TurnEnd(n)], |log| - |tools|;
    assert all[..k - 1] == log[..k - 1];
    if tools != [] {
      assert log[k] == tools[0];
    }
  }

  function Executions(log: seq<RunEvent>): nat {
    if log == [] then 0
    else Executions(log[..|log| - 1]) + (if log[|log| - 1].Tools? then |log[|log| - 1].lives| else 0)
  }

  lemma ExecutionsAppend(log: seq<RunEvent>, e: RunEvent)
    ensures Executions(log + [e]) == Executions(log) + (if e.Tools? then |e.lives| else 0)
  {
    assert (log + [e])[..|log|] == log;
  }

  // ---------------------------------------------------------------------------
  // The invariant of a run.

  // What has been emitted, and which queued messages have reached the transcript.
  datatype Ledger = Ledger(log: seq<RunEvent>, steered: seq<Message>, followed: seq<Message>)

  // Inside a turn or between two; dangling when calls wait for their results.
  datatype Phase = Inside(tools: seq<RunEvent>, dangling: bool) | Between(dangling: bool)

  ghost predicate Bounded(s: RunState, l: Ledger, guard: Option<Budget>) {
    guard.Some? ==>
      && (guard.value.maxTurns > 0 ==> s.turnAttempts <= guard.value.maxTurns)
      && (guard.value.maxToolCalls > 0 ==> Executions(l.log) <= guard.value.maxToolCalls)
  }

  ghost predicate RunOk(s: RunState, l: Ledger, guard: Option<Budget>, phase: Phase) {
    var ok :=
      && (phase.Inside? ==> TurnGoingOn(l.log, s.turnAttempts, phase.tools))
      && (phase.Between? ==> TurnsOver(l.log, s.turnAttempts))
      && (if phase.dangling then Dangling(s.produced) else Complete(s.produced))
      && Merged(l.steered, l.followed, s.produced)
      && Bounded(s, l, guard)
      && (phase == Between(false) || (phase.Inside? && phase.tools == []) ==> Executions(l.log) <= s.toolCalls);
    ok
  }

  // A further turn is within the budget.
  ghost predicate MayGoOn(s: RunState, guard: Option<Budget>) {
    guard.Some? && guard.value.maxTurns > 0 ==> s.turnAttempts < guard.value.maxTurns
  }

  lemma BeginTurn(s: RunState, l: Ledger, guard: Option<Budget>, t: RunState, m: Ledger)
    requires RunOk(s, l, guard, Between(false)) && MayGoOn(s, guard)
    requires t == s.(turnAttempts := s.turnAttempts + 1)
    requires m == l.(log := l.log + [TurnStart(t.turnAttempts)])
    ensures RunOk(t, m, guard, Inside([], false))
  {
    ExecutionsAppend(l.log, TurnStart(t.turnAttempts));
    TurnOpens(l.log, s.turnAttempts, t.turnAttempts, m.log);
  }

  lemma EndTurnOk(s: RunState, l: Ledger, guard: Option<Budget>, phase: Phase, m: Ledger)
    requires RunOk(s, l, guard, phase) && phase.Inside?
    requires phase.tools != [] && !phase.dangling ==> Executions(l.log) <= s.toolCalls
    requires m == l.(log := l.log + [TurnEnd(s.turnAttempts)])
    ensures RunOk(s, m, guard, Between(phase.dangling))
  {
    TurnCloses(l.log, s.turnAttempts, phase.tools);
    ExecutionsAppend(l.log, TurnEnd(s.turnAttempts));
  }

  lemma AppendAssistant(s: RunState, l: Ledger, guard: Option<Budget>, m: Message, t: RunState)
    requires RunOk(s, l, guard, Inside([], false)) && m.Assistant?
    requires t.produced == s.produced + [m] && t.turnAttempts == s.turnAttempts && t.toolCalls == s.toolCalls
    ensures RunOk(t, l, guard, Inside([], m.calls != []))
  {
    CompleteAssistant(s.produced, m);
    MergedOthers(l.steered, l.followed, s.produced, [m]);
  }

  lemma AppendResults(s: RunState, l: Ledger, guard: Option<Budget>, tools: seq<RunEvent>, os: seq<Outcome>, t: RunState)
    requires RunOk(s, l, guard, Inside(tools, true)) && AllAnswered(os, s.produced[|s.produced| - 1].calls)
    requires t.produced == s.produced + MessagesFrom(os) && t.turnAttempts == s.turnAttempts
    requires tools == [] ==> Executions(l.log) <= t.toolCalls
    ensures RunOk(t, l, guard, Inside(tools, false))
  {
    CompleteTools(s.produced, os);
    MergedOthers(l.steered, l.followed, s.produced, MessagesFrom(os));
  }

  lemma ToolsOfTurn(log: seq<RunEvent>, n: nat, lives: seq<seq<CallEvent>>)
    requires TurnGoingOn(log, n, []) && AllLifecycles(lives)
    ensures TurnGoingOn(log + [Tools(lives)], n, [Tools(lives)])
  {
    var all, k := log + [Tools(lives)], |log|;
    assert all[k..] == [Tools(lives)] && all[..k - 1] == log[..k - 1];
  }

  /** The guard is one of the hooks before a tool: whatever the others say, no
      call passes that the guard stops. */
  ghost predicate GuardWired(guard: Option<Budget>, s: RunState, facts: seq<CallFacts>) {
    guard.Some? ==>
      forall i | 0 <= i < |facts| && JudgeHook(facts[i].hook).Passing? ::
        BeforeToolCall(guard.value, s.usage, s.toolCalls, |facts|) == ALLOW
  }

  // The events of a batch. An executed call was admitted with its whole batch.
  lemma EmitTools(s: RunState, l: Ledger, guard: Option<Budget>, lives: seq<seq<CallEvent>>, facts: seq<CallFacts>, parallel: bool, m: Ledger)
    requires RunOk(s, l, guard, Inside([], true)) && BatchBounded(facts, parallel, lives)
    requires GuardWired(guard, s, facts)
    requires m == l.(log := l.log + [Tools(lives)])
    ensures RunOk(s, m, guard, Inside([Tools(lives)], true))
    ensures Executions(m.log) <= s.toolCalls + |lives|
  {
    ExecutionsAppend(l.log, Tools(lives));
    ToolsOfTurn(l.log, s.turnAttempts, lives);
    if guard.Some? {
      if lives != [] {
        var i :| 0 <= i < |facts| && Judge(facts[i], parallel).Passing?;
        assert JudgeHook(facts[i].hook).Passing?;
      }
      AdmitsWholeBatches(guard.value, s.usage, s.toolCalls, |facts|, |lives|);
    }
  }

  lemma {:induction false} CompleteUsers(ms: seq<Message>, queued: seq<Message>)
    requires Complete(ms) && forall i | 0 <= i < |queued| :: queued[i].User?
    ensures Complete(ms + queued)
    decreases |queued|
  {
    if queued == [] {
      assert ms + queued == ms;
    } else {
      var n := |queued| - 1;
      CompleteUsers(ms, queued[..n]);
      CompleteUser(ms + queued[..n], queued[n]);
      assert ms + queued == ms + queued[..n] + [queued[n]];
    }
  }

  lemma AppendQueued(s: RunState, l: Ledger, guard: Option<Budget>, queued: seq<Message>, steering: bool, t: RunState, m: Ledger)
    requires RunOk(s, l, guard, Between(false)) && Control.AllUsers(queued)
    requires t == s.(produced := s.produced + queued)
    requires m == if steering then l.(steered := l.steered + queued) else l.(followed := l.followed + queued)
    ensures RunOk(t, m, guard, Between(false))
  {
    CompleteUsers(s.produced, queued);
    MergedFirst(l.steered, l.followed, s.produced, queued);
    MergedSecond(l.steered, l.followed, s.produced, queued);
  }

  // ---------------------------------------------------------------------------
  // The loop.

  // What happened to queued messages at the end: taken but never delivered.
  datatype Fate = Fate(lost: seq<Message>, steering: bool)

  const NO_FATE := Fate([], false)

  // What the control has given away is in the transcript, except what is lost. A
  // control that nobody closed from outside closes only with nothing left.
  ghost predicate Delivered(control: Control.RunControl, l: Ledger, fate: Fate)
    reads control
  {
    && control.Valid()
    && control.takenSteering == l.steered + (if fate.steering then fate.lost else [])
    && control.takenFollowUp == l.followed + (if fate.steering then [] else fate.lost)
    && (!control.active && !control.closedOutside ==>
          control.acceptedSteering == control.takenSteering && control.acceptedFollowUp == control.takenFollowUp)
  }

  // A run that ends by itself has stopped accepting.
  ghost predicate Ends(control: Control.RunControl, next: Option<Exit>, end: NaturalEnd)
    reads control
  {
    next.Some? && next.value.Natural? ==> !control.active && next.value.end == end
  }

  // The kind of answer that a natural end follows.
  function EndOf(stop: ModelStop): NaturalEnd {
    match stop
    case EndTurn => Completed
    case ToolCalls => ToolsEnded
    case _ => CutShort
  }

  // How a turn ends: the loop goes on, or the run is over.
  ghost predicate TurnDone(s: RunState, l: Ledger, guard: Option<Budget>, next: Option<Exit>, fate: Fate) {
    var done :=
      && (next.None? ==> RunOk(s, l, guard, Between(false)) && MayGoOn(s, guard) && fate == NO_FATE)
      && (next.Some? ==> RunOk(s, l, guard, Between(false)) || (next.value.Failed? && RunOk(s, l, guard, Between(true))))
      && (fate.lost != [] ==> next.Some? && !next.value.Natural?);
    done
  }

  /** The hook after a turn: "" lets the run go on. The guard never lets it go on
      past a budget, and never stops it for no reason. */
  method AskStop(s: RunState, guard: Option<Budget>, f: Fingerprints) returns (r: Result<string, Fault>)
    ensures r == Success("") ==> MayGoOn(s, guard)
    ensures guard.Some? && r.Success? ==> (r.value != "" <==> StopDue(s, guard.value, f))
    ensures guard.Some? && r.Success? ==>
              var reason := CountReason(guard.value, s.usage, s.turnAttempts, s.toolCalls);
              && (reason != "" ==> r.value == reason)
              && (reason == "" ==> r.value == "" || (r.value == STOP_NO_PROGRESS && guard.value.noProgressLimit > 0
                                                    && NoProgress(f, s.initial + s.produced, guard.value.noProgressLimit)))
  {
    var cause: Option<Fault> := *;
    if cause.Some? {
      return Failure(cause.value);
    }
    if guard.Some? {
      var cancelled: bool := *;
      var stop := ShouldStopAfterTurn(guard.value, f, s.usage, s.turnAttempts, s.toolCalls, s.initial + s.produced, cancelled);
      r := match stop
        case Success(reason) => Success(reason)
        case Failure(Cancelled) => Failure(CANCELLED)
        case Failure(NotComparable) => Failure(INCOMPARABLE);
    } else {
      var reason: string := *;
      r := Success(reason);
    }
  }

  // The guard has a reason to stop before another turn.
  ghost predicate StopDue(s: RunState, b: Budget, f: Fingerprints) {
    || CountReason(b, s.usage, s.turnAttempts, s.toolCalls) != ""
    || (b.noProgressLimit > 0 && NoProgress(f, s.initial + s.produced, b.noProgressLimit))
  }

  // A run stopped by the guard is stopped with the first budget that is exceeded, or
  // else for no progress.
  ghost predicate GuardsReason(exit: Exit, b: Budget, s: RunState) {
    exit.Stopped? ==>
      exit.reason == if CountReason(b, s.usage, s.turnAttempts, s.toolCalls) != ""
                     then CountReason(b, s.usage, s.turnAttempts, s.toolCalls) else STOP_NO_PROGRESS
  }

  function ExitOf(r: Result<string, Fault>): Exit {
    match r
    case Success(reason) => Stopped(reason)
    case Failure(fault) => Failed(fault)
  }

  // Between two turns only queued messages are added.
  ghost predicate OnlyQueued(s: RunState, t: RunState) {
    && s.produced <= t.produced && t == s.(produced := t.produced) && Control.AllUsers(t.produced[|s.produced|..])
    && SameAnswers(s, t)
  }

  lemma QueuedAreUsers(s: RunState, queued: seq<Message>, t: RunState)
    requires Control.AllUsers(queued) && t == s.(produced := s.produced + queued)
    ensures OnlyQueued(s, t)
  {
    AssistantsMore(s.produced, queued);
    assert t.produced[|s.produced|..] == queued;
  }

  lemma ResultsAreAnswers(s: RunState, os: seq<Outcome>, calls: seq<ToolCall>, t: RunState)
    requires AllAnswered(os, calls)
    requires t.produced == s.produced + MessagesFrom(os)
    requires t.usage == s.usage && t.turnAttempts == s.turnAttempts && t.initial == s.initial
    ensures SameAnswers(s, t)
  {
    forall i | 0 <= i < |os|
      ensures !MessagesFrom(os)[i].Assistant?
    {
      assert AnswersCall(os[i], calls[i]);
    }
    AssistantsMore(s.produced, MessagesFrom(os));
  }

  // What waits is taken; with nothing waiting the control closes. Until they are
  // appended, taken messages count as lost.
  method TakeAtStop(control: Control.RunControl, ghost l: Ledger) returns (queued: seq<Message>, closed: bool, ghost fate: Fate)
    requires Delivered(control, l, NO_FATE)
    modifies control
    ensures Delivered(control, l, fate) && queued == fate.lost && Control.AllUsers(queued)
    ensures closed ==> queued == [] && !control.active
    ensures !closed ==> queued != [] && control.active
    ensures old(control.acceptedSteering) <= control.acceptedSteering
    ensures !closed && !fate.steering ==> control.acceptedSteering == control.takenSteering
  {
    control.Outside();
    ghost var steering;
    queued, closed, steering := control.TakeNextAtNaturalStop();
    fate := Fate(queued, steering);
  }

  /** Where the run would end by itself. Messages taken here are lost exactly if the
      stop hook then ends the run, which the guard does without fail when the turns
      are used up. */
  method NaturalStop(control: Control.RunControl, s: RunState, guard: Option<Budget>, f: Fingerprints, asked: bool,
                     end: NaturalEnd, ghost l: Ledger)
    returns (t: RunState, next: Option<Exit>, ghost m: Ledger, ghost fate: Fate)
    requires Delivered(control, l, NO_FATE) && RunOk(s, l, guard, Between(false))
    requires asked ==> MayGoOn(s, guard)
    modifies control
    ensures Delivered(control, m, fate) && TurnDone(t, m, guard, next, fate)
    ensures OnlyQueued(s, t) && m.log == l.log && (next.Some? ==> t == s)
    ensures Ends(control, next, end)
    ensures fate.lost != [] <==> !asked && next.Some? && !next.value.Natural?
    ensures asked && next.Some? ==> next.value.Natural?
    ensures !MayGoOn(s, guard) ==> next.Some?
    ensures !asked && guard.Some? && StopDue(s, guard.value, f) ==> next.Some?
    ensures guard.Some? && next.Some? && next.value.Stopped? ==> StopDue(s, guard.value, f)
    ensures old(control.acceptedSteering) <= control.acceptedSteering
    ensures fate.lost != [] && !fate.steering ==> control.acceptedSteering == control.takenSteering
    ensures next.Some? ==> m == l
    ensures next.None? ==> |t.produced| > |s.produced|
    ensures guard.Some? && next.Some? ==> GuardsReason(next.value, guard.value, s)
  {
    t, m := s, l;
    var queued, closed;
    queued, closed, fate := TakeAtStop(control, l);
    if closed {
      return t, Some(Natural(end)), m, fate;
    }
    if !asked {
      var stop := AskStop(s, guard, f);
      if stop != Success("") {
        return t, Some(ExitOf(stop)), m, fate;
      }
    }
    t := s.(produced := s.produced + queued);
    m := if fate.steering then l.(steered := l.steered + queued) else l.(followed := l.followed + queued);
    AppendQueued(s, l, guard, queued, fate.steering, t, m);
    QueuedAreUsers(s, queued, t);
    next, fate := None, NO_FATE;
  }

  const ONE_TURN := Budget(1, 0, 0, 0, 0.0, 0)

  // One turn is over, with an answer that asks for nothing.
  function Answered(answer: Message): RunState {
    RunState([], [answer], 1, 0, Usage(0, 0, 0.0))
  }

  lemma AnsweredIsOk(answer: Message, l: Ledger)
    requires answer.Assistant? && answer.calls == [] && l == Ledger([RunStart, TurnStart(1), TurnEnd(1)], [], [])
    ensures RunOk(Answered(answer), l, Some(ONE_TURN), Between(false)) && !MayGoOn(Answered(answer), Some(ONE_TURN))
  {
    OneTurnOver(l.log);
    CompleteAnswer(answer);
    MergedOthers([], [], [], [answer]);
    assert [] + [answer] == [answer];
  }

  lemma OneTurnOver(log: seq<RunEvent>)
    requires log == [RunStart, TurnStart(1), TurnEnd(1)]
    ensures TurnsOver(log, 1) && Executions(log) == 0
  {
    var start, begun: seq<RunEvent> := [RunStart], [RunStart, TurnStart(1)];
    assert TurnsOver(start, 0) && log[..1] == start;
    ExecutionsAppend([], RunStart);
    ExecutionsAppend(start, TurnStart(1));
    ExecutionsAppend(begun, TurnEnd(1));
    assert [] + [RunStart] == start && start + [TurnStart(1)] == begun && begun + [TurnEnd(1)] == log;
  }

  lemma CompleteAnswer(answer: Message)
    requires answer.Assistant? && answer.calls == []
    ensures Complete([answer])
  {
    assert Complete([answer][..0]);
  }

  /** A message that was accepted and is lost: with one turn allowed and used up, a
      message that waits at the natural stop is taken and never delivered, unless
      somebody closed the control before. */
  method AcceptedAndLost(message: Message, answer: Message, f: Fingerprints)
    returns (control: Control.RunControl, accepted: bool, exit: Exit, ghost fate: Fate)
    requires message.User? && answer.Assistant? && answer.calls == []
    ensures fresh(control) && accepted && [message] <= control.acceptedSteering
    ensures !exit.Natural? || control.closedOutside
    ensures !control.closedOutside ==> fate.steering && fate.lost != [] && fate.lost[0] == message
  {
    control := new Control.RunControl(false, false);
    accepted := control.EnqueueSteering(message);
    ghost var l := Ledger([RunStart, TurnStart(1), TurnEnd(1)], [], []);
    AnsweredIsOk(answer, l);
    var t, next;
    ghost var m;
    assert Delivered(control, l, NO_FATE);
    t, next, m, fate := NaturalStop(control, Answered(answer), Some(ONE_TURN), f, false, Completed, l);
    exit := next.value;
    if !control.closedOutside {
      FirstIsLost(message, fate, control.acceptedSteering, control.takenSteering, control.steering, control.droppedSteering, control.active);
    }
  }

  lemma FirstIsLost(message: Message, fate: Fate, accepted: seq<Message>, taken: seq<Message>, waiting: seq<Message>,
                    dropped: seq<Message>, active: bool)
    requires Control.Accounted(accepted, taken, waiting, dropped, active) && [message] <= accepted && fate.lost != []
    requires taken == [] + (if fate.steering then fate.lost else []) && (!fate.steering ==> accepted == taken)
    ensures fate.steering && fate.lost[0] == message
  {
    if fate.steering {
      assert taken == fate.lost && taken <= accepted;
      assert accepted[0] == message;
    }
  }

  // The guard's own answer to a call another hook lets through.
  function Guarded(f: CallFacts, guard: Option<Budget>, s: RunState, batchSize: nat): CallFacts {
    if guard.Some? && JudgeHook(f.hook).Passing? then
      f.(hook := Answer(BeforeToolCall(guard.value, s.usage, s.toolCalls, batchSize)))
    else
      f
  }

  // The guard has the last word on what another hook lets through, and changes
  // nothing else.
  ghost predicate GuardHasLastWord(answers: seq<CallFacts>, facts: seq<CallFacts>, guard: Option<Budget>, s: RunState) {
    && |answers| == |facts|
    && forall i {:trigger facts[i]} | 0 <= i < |facts| ::
         var h := answers[i].hook;
         if guard.Some? && h.Answer? && !h.decision.block && h.decision.stopReason == ""
         then facts[i] == answers[i].(hook := Answer(BeforeToolCall(guard.value, s.usage, s.toolCalls, |facts|)))
         else facts[i] == answers[i]
  }

  // What the world answers for each call of a batch.
  method Consult(calls: seq<ToolCall>, guard: Option<Budget>, s: RunState) returns (facts: seq<CallFacts>, ghost answers: seq<CallFacts>)
    ensures |facts| == |calls| && GuardWired(guard, s, facts) && GuardHasLastWord(answers, facts, guard, s)
  {
    facts, answers := [], [];
    for i := 0 to |calls|
      invariant |facts| == |answers| == i
      invariant forall j {:trigger facts[j]} | 0 <= j < i :: facts[j] == Guarded(answers[j], guard, s, |calls|)
    {
      var answer: CallFacts := *;
      facts, answers := facts + [Guarded(answer, guard, s, |calls|)], answers + [answer];
    }
  }

  // Runs a batch in the mode of the agent.
  method ExecuteToolCalls(calls: seq<ToolCall>, facts: seq<CallFacts>, parallel: bool)
    returns (r: Result<BatchResult, Fault>, ghost lives: seq<seq<CallEvent>>)
    requires |facts| == |calls|
    ensures r.Success? ==> AllAnswered(r.value.outcomes, calls)
    ensures BatchBounded(facts, parallel, lives)
    ensures r.Success? ==> BatchDone(r.value, calls, facts, parallel, lives)
  {
    if parallel {
      ghost var plan, log;
      r, plan, log, lives := BatchParallel.ExecuteParallel(calls, facts);
    } else {
      r, lives := ExecuteSequential(calls, facts);
    }
  }

  // True when there are outcomes and all of them end the run.
  predicate AllTerminate(os: seq<Outcome>) {
    os != [] && forall i | 0 <= i < |os| :: os[i].terminate
  }

  // What a batch did, seen from the run: nothing when it failed.
  datatype Did = Did(facts: seq<CallFacts>, lives: seq<seq<CallEvent>>, batch: Option<BatchResult>)

  // The results of the batch follow its calls; counted calls are added; a stop
  // asked for before a side effect ends the run, ahead of anything queued.
  ghost predicate RanTools(s: RunState, t: RunState, next: Option<Exit>, parallel: bool, did: Did) {
    && Dangling(s.produced)
    && var calls := s.produced[|s.produced| - 1].calls;
       && |did.facts| == |calls|
       && match did.batch
          case None => t == s && next.Some? && next.value.Failed?
          case Some(b) =>
            && BatchDone(b, calls, did.facts, parallel, did.lives)
            && s.produced + MessagesFrom(b.outcomes) <= t.produced
            && t.toolCalls == s.toolCalls + CountedOf(b.outcomes)
            && t.usage == s.usage
            && (b.stopReason != "" ==> next == Some(Stopped(b.stopReason)) && t.produced == s.produced + MessagesFrom(b.outcomes))
  }

  // After a batch the run ends by itself only if there are outcomes and all of them
  // ask for it; if they do, it goes on only with a message that was queued. The
  // guard stops it exactly when it has a reason to.
  ghost predicate GoesOnAsAsked(s: RunState, t: RunState, next: Option<Exit>, guard: Option<Budget>, f: Fingerprints, b: BatchResult) {
    var u := s.(produced := s.produced + MessagesFrom(b.outcomes), toolCalls := t.toolCalls);
    var ok :=
      && (next.Some? && next.value.Natural? ==> b.outcomes != [] && forall i | 0 <= i < |b.outcomes| :: b.outcomes[i].terminate)
      && (next.None? && |t.produced| == |u.produced| ==>
            b.outcomes == [] || exists i | 0 <= i < |b.outcomes| :: !b.outcomes[i].terminate)
      && (next.Some? ==> t.produced == u.produced)
      && (b.stopReason == "" && guard.Some? ==>
            && (next.None? ==> !StopDue(u, guard.value, f))
            && (next.Some? && next.value.Stopped? ==> StopDue(u, guard.value, f) && GuardsReason(next.value, guard.value, u)));
    ok
  }

  /** The turn asked for tools. */
  method ToolTurn(control: Control.RunControl, s: RunState, guard: Option<Budget>, f: Fingerprints, parallel: bool, ghost l: Ledger)
    returns (t: RunState, next: Option<Exit>, ghost m: Ledger, ghost fate: Fate, ghost did: Did)
    requires Delivered(control, l, NO_FATE) && RunOk(s, l, guard, Inside([], true))
    modifies control
    ensures Delivered(control, m, fate) && TurnDone(t, m, guard, next, fate)
    ensures SameAnswers(s, t) && Ends(control, next, ToolsEnded)
    ensures fate.lost == []
    ensures RanTools(s, t, next, parallel, did) && GuardWired(guard, s, did.facts)
    ensures did.batch.Some? ==> GoesOnAsAsked(s, t, next, guard, f, did.batch.value)
    ensures m.log == l.log + [Tools(did.lives), TurnEnd(s.turnAttempts)]
  {
    var r;
    r, did, m := RunBatch(s, guard, parallel, l);
    ToolsAndEnd(l.log, did.lives, s.turnAttempts);
    if r.Failure? {
      m := FailTurn(s, m, guard, parallel, did, r.error);
      return s, Some(Failed(r.error)), m, NO_FATE, did;
    }
    t, next, m, fate := TakeOutcomes(control, s, guard, f, parallel, r.value, m, did);
  }

  lemma ToolsAndEnd(log: seq<RunEvent>, lives: seq<seq<CallEvent>>, n: nat)
    ensures log + [Tools(lives)] + [TurnEnd(n)] == log + [Tools(lives), TurnEnd(n)]
  {
  }

  // A batch failed: its calls stay open.
  ghost method FailTurn(s: RunState, l: Ledger, guard: Option<Budget>, parallel: bool, did: Did, fault: Fault) returns (m: Ledger)
    requires RunOk(s, l, guard, Inside([Tools(did.lives)], true))
    requires |did.facts| == |s.produced[|s.produced| - 1].calls| && did.batch.None?
    ensures m == l.(log := l.log + [TurnEnd(s.turnAttempts)])
    ensures TurnDone(s, m, guard, Some(Failed(fault)), NO_FATE)
    ensures SameAnswers(s, s) && RanTools(s, s, Some(Failed(fault)), parallel, did)
  {
    m := CloseTurn(s, l, guard, Inside([Tools(did.lives)], true));
  }

  // The batch itself, inside the turn.
  method RunBatch(s: RunState, guard: Option<Budget>, parallel: bool, ghost l: Ledger)
    returns (r: Result<BatchResult, Fault>, ghost did: Did, ghost m: Ledger)
    requires RunOk(s, l, guard, Inside([], true))
    ensures m == l.(log := l.log + [Tools(did.lives)]) && RunOk(s, m, guard, Inside([Tools(did.lives)], true))
    ensures Executions(m.log) <= s.toolCalls + |did.lives|
    ensures |did.facts| == |s.produced[|s.produced| - 1].calls| && GuardWired(guard, s, did.facts)
    ensures did.batch == if r.Success? then Some(r.value) else None
    ensures r.Success? ==> BatchDone(r.value, s.produced[|s.produced| - 1].calls, did.facts, parallel, did.lives)
  {
    var calls := s.produced[|s.produced| - 1].calls;
    ghost var answers, lives;
    var facts;
    facts, answers := Consult(calls, guard, s);
    r, lives := ExecuteToolCalls(calls, facts, parallel);
    m := l.(log := l.log + [Tools(lives)]);
    EmitTools(s, l, guard, lives, facts, parallel, m);
    did := Did(facts, lives, if r.Success? then Some(r.value) else None);
  }

  // The results enter the transcript before the turn ends.
  method TakeOutcomes(control: Control.RunControl, s: RunState, guard: Option<Budget>, f: Fingerprints, ghost parallel: bool,
                      b: BatchResult, ghost l: Ledger, ghost did: Did)
    returns (t: RunState, next: Option<Exit>, ghost m: Ledger, ghost fate: Fate)
    requires Delivered(control, l, NO_FATE) && RunOk(s, l, guard, Inside([Tools(did.lives)], true))
    requires |did.facts| == |s.produced[|s.produced| - 1].calls| && did.batch == Some(b)
    requires BatchDone(b, s.produced[|s.produced| - 1].calls, did.facts, parallel, did.lives)
    requires Executions(l.log) <= s.toolCalls + |did.lives|
    modifies control
    ensures Delivered(control, m, fate) && TurnDone(t, m, guard, next, fate)
    ensures fate.lost == []
    ensures SameAnswers(s, t) && RanTools(s, t, next, parallel, did) && Ends(control, next, ToolsEnded)
    ensures m.log == l.log + [TurnEnd(s.turnAttempts)]
    ensures did.batch.Some? ==> GoesOnAsAsked(s, t, next, guard, f, did.batch.value)
  {
    var outcomes := b.outcomes;
    var u := s.(produced := s.produced + MessagesFrom(outcomes), toolCalls := s.toolCalls + CountedOf(outcomes));
    AppendResults(s, l, guard, [Tools(did.lives)], outcomes, u);
    ResultsAreAnswers(s, outcomes, s.produced[|s.produced| - 1].calls, u);
    m := CloseTurn(u, l, guard, Inside([Tools(did.lives)], false));
    t, next, fate := u, Some(Stopped(b.stopReason)), NO_FATE;
    if b.stopReason == "" {
      t, next, m, fate := AfterTools(control, u, guard, f, AllTerminate(outcomes), m);
    }
  }

  // The end of a turn is emitted once.
  ghost method CloseTurn(s: RunState, l: Ledger, guard: Option<Budget>, phase: Phase) returns (m: Ledger)
    requires RunOk(s, l, guard, phase) && phase.Inside?
    requires phase.tools != [] && !phase.dangling ==> Executions(l.log) <= s.toolCalls
    ensures m == l.(log := l.log + [TurnEnd(s.turnAttempts)])
    ensures RunOk(s, m, guard, Between(phase.dangling))
  {
    m := l.(log := l.log + [TurnEnd(s.turnAttempts)]);
    EndTurnOk(s, l, guard, phase, m);
  }

  lemma SteerOk(s: RunState, l: Ledger, guard: Option<Budget>, steering: seq<Message>, t: RunState, m: Ledger)
    requires RunOk(s, l, guard, Between(false)) && MayGoOn(s, guard) && Control.AllUsers(steering)
    requires t == s.(produced := s.produced + steering) && m == l.(steered := l.steered + steering)
    ensures TurnDone(t, m, guard, None, NO_FATE) && OnlyQueued(s, t)
    ensures t.produced != s.produced <==> steering != []
    ensures steering == [] ==> t == s && m == l
  {
    AppendQueued(s, l, guard, steering, true, t, m);
    QueuedAreUsers(s, steering, t);
    assert |t.produced| == |s.produced| + |steering|;
  }

  // Nothing waits any more, or one message was taken in a mode that takes one.
  ghost predicate TookAll(control: Control.RunControl, taken: seq<Message>)
    reads control
  {
    control.active && control.steering != [] ==> |taken| == 1 && !control.allSteering
  }

  method TakeSteering(control: Control.RunControl, ghost l: Ledger) returns (steering: seq<Message>, ghost m: Ledger)
    requires Delivered(control, l, NO_FATE)
    modifies control
    ensures Delivered(control, m, NO_FATE) && Control.AllUsers(steering)
    ensures m == l.(steered := l.steered + steering)
    ensures TookAll(control, steering)
  {
    control.Outside();
    steering := control.TakeSteering();
    m := l.(steered := l.steered + steering);
  }

  // Steering that waits joins the transcript.
  method Steer(control: Control.RunControl, s: RunState, guard: Option<Budget>, ghost l: Ledger)
    returns (t: RunState, steered: bool, ghost m: Ledger)
    requires Delivered(control, l, NO_FATE) && RunOk(s, l, guard, Between(false)) && MayGoOn(s, guard)
    modifies control
    ensures Delivered(control, m, NO_FATE) && TurnDone(t, m, guard, None, NO_FATE)
    ensures OnlyQueued(s, t) && m.log == l.log
    ensures steered <==> t.produced != s.produced
    ensures !steered ==> t == s && m == l
    ensures |s.produced| <= |t.produced| && TookAll(control, t.produced[|s.produced|..])
  {
    var steering;
    steering, m := TakeSteering(control, l);
    t := s.(produced := s.produced + steering);
    SteerOk(s, l, guard, steering, t, m);
    assert t.produced[|s.produced|..] == steering;
    steered := steering != [];
  }

  // After a batch: the stop hook, then steering, then the tools' own wish to end.
  method AfterTools(control: Control.RunControl, s: RunState, guard: Option<Budget>, f: Fingerprints, terminate: bool, ghost l: Ledger)
    returns (t: RunState, next: Option<Exit>, ghost m: Ledger, ghost fate: Fate)
    requires Delivered(control, l, NO_FATE) && RunOk(s, l, guard, Between(false))
    modifies control
    ensures Delivered(control, m, fate) && TurnDone(t, m, guard, next, fate)
    ensures fate.lost == []
    ensures OnlyQueued(s, t) && m.log == l.log
    ensures next.Some? && next.value.Natural? ==> terminate
    ensures next.Some? ==> t == s
    ensures terminate && next.None? ==> |t.produced| > |s.produced|
    ensures !terminate && next.None? ==> |s.produced| <= |t.produced| && TookAll(control, t.produced[|s.produced|..])
    ensures guard.Some? && StopDue(s, guard.value, f) ==> next.Some? && !next.value.Natural?
    ensures guard.Some? && next.Some? && next.value.Stopped? ==> StopDue(s, guard.value, f)
    ensures guard.Some? && next.Some? ==> GuardsReason(next.value, guard.value, s)
    ensures Ends(control, next, ToolsEnded)
  {
    t, next, m, fate := s, None, l, NO_FATE;
    var stop := AskStop(s, guard, f);
    if stop != Success("") {
      return t, Some(ExitOf(stop)), m, fate;
    }
    var steered;
    t, steered, m := Steer(control, s, guard, l);
    if !steered && terminate {
      t, next, m, fate := NaturalStop(control, s, guard, f, true, ToolsEnded, l);
    }
  }

  lemma RefusedAnswers(os: seq<Outcome>, calls: seq<ToolCall>)
    requires AllRefused(os, calls)
    ensures AllAnswered(os, calls)
  {
    forall i | 0 <= i < |calls|
      ensures AnswersCall(os[i], calls[i])
    {
      assert Refusal(os[i], calls[i], "", false);
    }
  }

  /** The model's output was cut: its calls are refused, not run. */
  method TruncatedTurn(control: Control.RunControl, s: RunState, guard: Option<Budget>, f: Fingerprints, ghost l: Ledger)
    returns (t: RunState, next: Option<Exit>, ghost m: Ledger, ghost fate: Fate)
    requires Delivered(control, l, NO_FATE) && RunOk(s, l, guard, Inside([], true))
    modifies control
    ensures Delivered(control, m, fate) && TurnDone(t, m, guard, next, fate)
    ensures SameAnswers(s, t) && t.toolCalls == s.toolCalls && m.log == l.log + [TurnEnd(s.turnAttempts)]
    ensures (t == s && next.Some? && next.value.Failed? && AnyBlank(s.produced[|s.produced| - 1].calls))
            || exists os :: AllRefused(os, s.produced[|s.produced| - 1].calls) && s.produced + MessagesFrom(os) <= t.produced
    ensures fate.lost == []
    ensures next.Some? ==> !next.value.Natural?
  {
    t, m, fate := s, l, NO_FATE;
    var calls := s.produced[|s.produced| - 1].calls;
    var refused := FailToolCalls(calls, "the model output was truncated");
    if refused.Failure? {
      m := CloseTurn(t, m, guard, Inside([], true));
      return t, Some(Failed(refused.error)), m, fate;
    }
    t := s.(produced := s.produced + MessagesFrom(refused.value));
    RefusedAnswers(refused.value, calls);
    AppendResults(s, l, guard, [], refused.value, t);
    ResultsAreAnswers(s, refused.value, calls, t);
    m := CloseTurn(t, m, guard, Inside([], false));
    t, next, m, fate := AfterTools(control, t, guard, f, false, m);
  }

  // No two calls of one answer share an identifier.
  ghost predicate DistinctIds(calls: seq<ToolCall>) {
    forall i, j | 0 <= i < j < |calls| :: calls[i].id != calls[j].id
  }

  // The calls of an answer that was cut are all refused, uncounted.
  ghost predicate RefusedAll(s: RunState, t: RunState, response: Response) {
    response.message.Assistant? && exists os :: AllRefused(os, response.message.calls) && s.produced + [response.message] + MessagesFrom(os) <= t.produced
  }

  predicate DuplicateIds(calls: seq<ToolCall>) {
    exists i, j :: 0 <= i < j < |calls| && calls[i].id == calls[j].id
  }

  // The model's answer is in the transcript and its usage on the bill, however the
  // turn went on.
  ghost predicate TookResponse(s: RunState, t: RunState, response: Response) {
    && s.produced + [response.message] <= t.produced
    && AssistantsOf(t.produced) == AssistantsOf(s.produced) + [response.message]
    && t.usage == AddUsage(s.usage, response.usage)
    && t.usage.inputTokens == s.usage.inputTokens + response.usage.inputTokens
    && t.usage.outputTokens == s.usage.outputTokens + response.usage.outputTokens
    && t.usage.cost == s.usage.cost + response.usage.cost
  }

  // An answer after which the run would end by itself.
  predicate WouldEnd(response: Response) {
    response.message.Assistant? && response.message.calls == [] && !response.stop.OtherStop?
  }

  const NOTHING := Did([], [], None)

  // A turn whose answer asks for tools runs exactly its calls; only if all of them
  // wish to end does the run end there, and if they do it goes on only with a
  // queued message.
  ghost predicate ToolsOfAnswer(s: RunState, t: RunState, response: Response, next: Option<Exit>, parallel: bool, did: Did) {
    var ok :=
      && response.message.Assistant?
      && |did.facts| == |response.message.calls|
      && (did.batch.None? ==> next.Some? && next.value.Failed? && t.produced == s.produced + [response.message])
      && (did.batch.Some? ==>
            && BatchDone(did.batch.value, response.message.calls, did.facts, parallel, did.lives)
            && s.produced + [response.message] + MessagesFrom(did.batch.value.outcomes) <= t.produced
            && t.toolCalls == s.toolCalls + CountedOf(did.batch.value.outcomes)
            && (did.batch.value.stopReason != "" ==> next == Some(Stopped(did.batch.value.stopReason)))
            && (next.Some? ==> t.produced == s.produced + [response.message] + MessagesFrom(did.batch.value.outcomes))
            && (next.None? && |t.produced| == |s.produced| + 1 + |did.batch.value.outcomes| ==> !AllWish(did)))
      && (next.Some? && next.value.Natural? ==> AllWish(did));
    ok
  }

  // Every call of the batch asked to end, and there was one.
  ghost predicate AllWish(did: Did) {
    && did.batch.Some? && did.batch.value.outcomes != []
    && forall i | 0 <= i < |did.batch.value.outcomes| :: did.batch.value.outcomes[i].terminate
  }

  // Taken messages are lost exactly if the run is stopped or fails although its
  // last answer would have ended it.
  ghost predicate LosesIff(response: Response, next: Option<Exit>, fate: Fate) {
    fate.lost != [] <==> WouldEnd(response) && next.Some? && !next.value.Natural?
  }

  // What the kind of an answer asks for: an unusable one fails the run, one that
  // asks for tools gets them, and the calls of a cut one are refused.
  ghost predicate AnswerTaken(s: RunState, t: RunState, response: Response, next: Option<Exit>, parallel: bool, did: Did) {
    var taken :=
      && response.message.Assistant?
      && (!DistinctIds(response.message.calls) || response.stop.OtherStop? ==>
            next == Some(Failed(BAD_ANSWER)) && t.produced == s.produced + [response.message])
      && (response.stop.ToolCalls? && DistinctIds(response.message.calls) ==> ToolsOfAnswer(s, t, response, next, parallel, did))
      && (response.stop.Length? && response.message.calls != [] && DistinctIds(response.message.calls) ==>
            AnyBlank(response.message.calls) || RefusedAll(s, t, response));
    taken
  }

  // Only an answer that asks for tools shows any.
  ghost function ToolEvents(response: Response, did: Did): seq<RunEvent> {
    if response.stop.ToolCalls? && response.message.Assistant? && DistinctIds(response.message.calls) then [Tools(did.lives)] else []
  }

  /** One turn. Without a response the model or its context failed. */
  method RunTurn(control: Control.RunControl, s: RunState, response: Option<Response>, guard: Option<Budget>, f: Fingerprints,
                 parallel: bool, ghost l: Ledger)
    returns (t: RunState, next: Option<Exit>, ghost m: Ledger, ghost fate: Fate, ghost did: Did)
    requires Delivered(control, l, NO_FATE) && RunOk(s, l, guard, Between(false)) && MayGoOn(s, guard)
    requires response.Some? ==> ValidResponse(response.value)
    modifies control
    ensures Delivered(control, m, fate) && TurnDone(t, m, guard, next, fate)
    ensures t.turnAttempts == s.turnAttempts + 1 && t.initial == s.initial
    ensures response.None? ==> next.Some? && next.value.Failed? && t.produced == s.produced && t.usage == s.usage
    ensures response.Some? ==> TookResponse(s, t, response.value) && Ends(control, next, EndOf(response.value.stop))
    ensures if response.Some? then LosesIff(response.value, next, fate) else fate.lost == []
    ensures response.Some? ==> AnswerTaken(s, t, response.value, next, parallel, did)
    ensures response.Some? ==>
              m.log == l.log + [TurnStart(t.turnAttempts)] + ToolEvents(response.value, did) + [TurnEnd(t.turnAttempts)]
  {
    did := NOTHING;
    t := s.(turnAttempts := s.turnAttempts + 1);
    m := l.(log := l.log + [TurnStart(t.turnAttempts)]);
    fate := NO_FATE;
    BeginTurn(s, l, guard, t, m);
    if response.None? {
      m := CloseTurn(t, m, guard, Inside([], false));
      return t, Some(Failed(NO_ANSWER)), m, fate, did;
    }
    ghost var u, begun := t, m;
    t, next, m, fate, did := TakeResponse(control, t, response.value, guard, f, parallel, m);
    TurnTaken(s, u, t, response.value, next, parallel, did);
    TurnShown(l.log, TurnStart(t.turnAttempts), ToolEvents(response.value, did), TurnEnd(t.turnAttempts), m.log, begun.log);
  }

  // Counting the attempt changes nothing that an answer is measured by.
  lemma TurnTaken(s: RunState, u: RunState, t: RunState, response: Response, next: Option<Exit>, parallel: bool, did: Did)
    requires u == s.(turnAttempts := u.turnAttempts)
    requires TookResponse(u, t, response) && AnswerTaken(u, t, response, next, parallel, did)
    ensures TookResponse(s, t, response) && AnswerTaken(s, t, response, next, parallel, did)
  {
    if response.stop.ToolCalls? && response.message.Assistant? && DistinctIds(response.message.calls) {
      assert ToolsOfAnswer(u, t, response, next, parallel, did);
      assert ToolsOfAnswer(s, t, response, next, parallel, did);
    }
  }

  lemma TurnShown(log: seq<RunEvent>, start: RunEvent, tools: seq<RunEvent>, end: RunEvent, all: seq<RunEvent>, begun: seq<RunEvent>)
    requires begun == log + [start] && all == begun + tools + [end]
    ensures all == log + [start] + tools + [end]
  {
  }

  // The answer asks for tools.
  method ToolsAsked(control: Control.RunControl, ghost s: RunState, u: RunState, response: Response, guard: Option<Budget>,
                    f: Fingerprints, parallel: bool, ghost l: Ledger)
    returns (t: RunState, next: Option<Exit>, ghost m: Ledger, ghost fate: Fate, ghost did: Did)
    requires Delivered(control, l, NO_FATE) && RunOk(u, l, guard, Inside([], true))
    requires response.message.Assistant? && u.produced == s.produced + [response.message] && u.toolCalls == s.toolCalls
    modifies control
    ensures Delivered(control, m, fate) && TurnDone(t, m, guard, next, fate) && fate.lost == []
    ensures SameAnswers(u, t) && Ends(control, next, ToolsEnded)
    ensures ToolsOfAnswer(s, t, response, next, parallel, did) && m.log == l.log + [Tools(did.lives), TurnEnd(u.turnAttempts)]
  {
    t, next, m, fate, did := ToolTurn(control, u, guard, f, parallel, l);
    TurnOfAnswer(s, u, t, response, next, guard, f, parallel, did);
  }

  lemma TurnOfAnswer(s: RunState, u: RunState, t: RunState, response: Response, next: Option<Exit>, guard: Option<Budget>,
                     f: Fingerprints, parallel: bool, did: Did)
    requires response.message.Assistant? && u.produced == s.produced + [response.message] && u.toolCalls == s.toolCalls
    requires RanTools(u, t, next, parallel, did)
    requires did.batch.Some? ==> GoesOnAsAsked(u, t, next, guard, f, did.batch.value)
    ensures ToolsOfAnswer(s, t, response, next, parallel, did)
  {
    assert u.produced[|u.produced| - 1] == response.message;
  }

  method TakeResponse(control: Control.RunControl, s: RunState, response: Response, guard: Option<Budget>, f: Fingerprints,
                      parallel: bool, ghost l: Ledger)
    returns (t: RunState, next: Option<Exit>, ghost m: Ledger, ghost fate: Fate, ghost did: Did)
    requires Delivered(control, l, NO_FATE) && RunOk(s, l, guard, Inside([], false)) && ValidResponse(response)
    modifies control
    ensures Delivered(control, m, fate) && TurnDone(t, m, guard, next, fate)
    ensures t.turnAttempts == s.turnAttempts && t.initial == s.initial
    ensures TookResponse(s, t, response) && Ends(control, next, EndOf(response.stop)) && LosesIff(response, next, fate)
    ensures AnswerTaken(s, t, response, next, parallel, did)
    ensures m.log == l.log + ToolEvents(response, did) + [TurnEnd(t.turnAttempts)]
  {
    var assistant := response.message;
    AssistantsNext(s.produced, assistant);
    var u := s.(produced := s.produced + [assistant], usage := AddUsage(s.usage, response.usage));
    AppendAssistant(s, l, guard, assistant, u);
    t, next, m, fate, did := TakeAnswer(control, s, u, response, guard, f, parallel, l);
  }

  // An answer without calls: the turn ends, and the run would.
  method AnswerEnds(control: Control.RunControl, u: RunState, end: NaturalEnd, guard: Option<Budget>, f: Fingerprints, ghost l: Ledger)
    returns (t: RunState, next: Option<Exit>, ghost m: Ledger, ghost fate: Fate)
    requires Delivered(control, l, NO_FATE) && RunOk(u, l, guard, Inside([], false))
    modifies control
    ensures Delivered(control, m, fate) && TurnDone(t, m, guard, next, fate)
    ensures SameAnswers(u, t) && Ends(control, next, end) && m.log == l.log + [TurnEnd(u.turnAttempts)]
    ensures fate.lost != [] <==> next.Some? && !next.value.Natural?
  {
    m := CloseTurn(u, l, guard, Inside([], false));
    t, next, m, fate := NaturalStop(control, u, guard, f, false, end, m);
  }

  // The answer is recorded; its kind decides what follows.
  method TakeAnswer(control: Control.RunControl, ghost s: RunState, u: RunState, response: Response, guard: Option<Budget>,
                    f: Fingerprints, parallel: bool, ghost l: Ledger)
    returns (t: RunState, next: Option<Exit>, ghost m: Ledger, ghost fate: Fate, ghost did: Did)
    requires ValidResponse(response) && Delivered(control, l, NO_FATE)
    requires RunOk(u, l, guard, Inside([], response.message.calls != []))
    requires u.produced == s.produced + [response.message] && u.toolCalls == s.toolCalls
    modifies control
    ensures Delivered(control, m, fate) && TurnDone(t, m, guard, next, fate)
    ensures SameAnswers(u, t) && Ends(control, next, EndOf(response.stop)) && LosesIff(response, next, fate)
    ensures AnswerTaken(s, t, response, next, parallel, did)
    ensures m.log == l.log + ToolEvents(response, did) + [TurnEnd(u.turnAttempts)]
  {
    did := NOTHING;
    var calls := response.message.calls;
    t, m, fate := u, l, NO_FATE;
    if DuplicateIds(calls) || response.stop.OtherStop? {
      m := CloseTurn(t, m, guard, Inside([], calls != []));
      next := Some(Failed(BAD_ANSWER));
      UnusableTaken(s, t, response, next, fate, parallel, did);
    } else if calls == [] {
      t, next, m, fate := AnswerEnds(control, u, EndOf(response.stop), guard, f, l);
      PlainTaken(s, t, response, next, fate, parallel, did);
    } else if response.stop.ToolCalls? {
      t, next, m, fate, did := ToolsAsked(control, s, u, response, guard, f, parallel, m);
      ToolsTaken(s, t, response, next, fate, parallel, did);
    } else {
      t, next, m, fate := TruncatedTurn(control, u, guard, f, m);
      CutTaken(s, u, t, response, next, fate, parallel, did);
    }
    SameLog(l.log, ToolEvents(response, did), TurnEnd(u.turnAttempts), did);
  }

  lemma SameLog(log: seq<RunEvent>, tools: seq<RunEvent>, end: RunEvent, did: Did)
    requires tools == [] || tools == [Tools(did.lives)]
    ensures tools == [] ==> log + tools + [end] == log + [end]
    ensures tools != [] ==> log + tools + [end] == log + [Tools(did.lives), end]
  {
  }

  lemma UnusableTaken(s: RunState, t: RunState, response: Response, next: Option<Exit>, fate: Fate, parallel: bool, did: Did)
    requires response.message.Assistant? && (!DistinctIds(response.message.calls) || response.stop.OtherStop?)
    requires t.produced == s.produced + [response.message] && next == Some(Failed(BAD_ANSWER)) && fate == NO_FATE
    ensures AnswerTaken(s, t, response, next, parallel, did) && LosesIff(response, next, fate) && ToolEvents(response, did) == []
  {
  }

  lemma PlainTaken(s: RunState, t: RunState, response: Response, next: Option<Exit>, fate: Fate, parallel: bool, did: Did)
    requires ValidResponse(response) && response.message.calls == [] && !response.stop.OtherStop?
    requires fate.lost != [] <==> next.Some? && !next.value.Natural?
    ensures AnswerTaken(s, t, response, next, parallel, did) && LosesIff(response, next, fate) && ToolEvents(response, did) == []
  {
  }

  lemma ToolsTaken(s: RunState, t: RunState, response: Response, next: Option<Exit>, fate: Fate, parallel: bool, did: Did)
    requires ValidResponse(response) && response.stop.ToolCalls? && DistinctIds(response.message.calls) && fate.lost == []
    requires ToolsOfAnswer(s, t, response, next, parallel, did)
    ensures AnswerTaken(s, t, response, next, parallel, did) && LosesIff(response, next, fate)
    ensures ToolEvents(response, did) == [Tools(did.lives)]
  {
  }

  lemma CutTaken(s: RunState, u: RunState, t: RunState, response: Response, next: Option<Exit>, fate: Fate, parallel: bool, did: Did)
    requires ValidResponse(response) && response.stop.Length? && response.message.calls != [] && fate.lost == []
    requires DistinctIds(response.message.calls) && u.produced == s.produced + [response.message]
    requires AnyBlank(response.message.calls)
             || exists os :: AllRefused(os, response.message.calls) && u.produced + MessagesFrom(os) <= t.produced
    ensures AnswerTaken(s, t, response, next, parallel, did) && LosesIff(response, next, fate) && ToolEvents(response, did) == []
  {
  }

  // What a whole run promises about its transcript and its events.
  ghost predicate RunDone(s: RunState, l: Ledger, guard: Option<Budget>, exit: Exit) {
    var done :=
      && l.log != [] && l.log[|l.log| - 1] == RunEnd
      && TurnsOver(l.log[..|l.log| - 1], s.turnAttempts)
      && (Complete(s.produced) || (exit.Failed? && Dangling(s.produced)))
      && Merged(l.steered, l.followed, s.produced)
      && Bounded(s, l, guard);
    done
  }

  lemma EndRun(s: RunState, l: Ledger, guard: Option<Budget>, exit: Exit, m: Ledger)
    requires RunOk(s, l, guard, Between(false)) || (exit.Failed? && RunOk(s, l, guard, Between(true)))
    requires m == l.(log := l.log + [RunEnd])
    ensures RunDone(s, m, guard, exit)
  {
    ExecutionsAppend(l.log, RunEnd);
    assert m.log[..|l.log|] == l.log;
  }

  // The same, said of the messages and the events themselves: each delivered
  // message is there once, in the order of its queue, and no other user message;
  // the events are those of the turns, one by one, and then the end.
  ghost predicate RunShows(s: RunState, l: Ledger, guard: Option<Budget>) {
    var shows :=
      && Within(l.steered, s.produced) && Within(l.followed, s.produced)
      && multiset(UsersOf(s.produced)) == multiset(l.steered) + multiset(l.followed)
      && l.log != [] && l.log[|l.log| - 1] == RunEnd
      && EventsOk(l.log[..|l.log| - 1], s.turnAttempts)
      && (guard.Some? && guard.value.maxTurns > 0 ==> s.turnAttempts <= guard.value.maxTurns)
      && (guard.Some? && guard.value.maxToolCalls > 0 ==> Executions(l.log) <= guard.value.maxToolCalls);
    shows
  }

  ghost predicate EventsOk(turns: seq<RunEvent>, n: nat) {
    forall i | 0 <= i < |turns| :: InPlace(turns, i, n)
  }

  lemma RunShown(s: RunState, l: Ledger, guard: Option<Budget>, exit: Exit)
    requires RunDone(s, l, guard, exit)
    ensures RunShows(s, l, guard)
  {
    MergedWithin(l.steered, l.followed, s.produced);
    MergedUsers(l.steered, l.followed, s.produced);
    EventsInPlace(l.log[..|l.log| - 1], s.turnAttempts);
  }

  // What became of every queued message.
  ghost predicate Accounted(control: Control.RunControl, s: RunState, l: Ledger, exit: Exit, fate: Fate)
    reads control
  {
    && !control.active
    && control.acceptedSteering == l.steered + (if fate.steering then fate.lost else []) + control.droppedSteering
    && control.acceptedFollowUp == l.followed + (if fate.steering then [] else fate.lost) + control.droppedFollowUp
    && (fate.lost != [] ==> !exit.Natural?)
    && (exit.Natural? && !control.closedOutside ==>
          control.acceptedSteering == l.steered && control.acceptedFollowUp == l.followed)
  }

  // Closes the control and emits the end of the run.
  method Finish(control: Control.RunControl, ghost s: RunState, exit: Exit, ghost guard: Option<Budget>, ghost l: Ledger, ghost fate: Fate)
    returns (ghost m: Ledger)
    requires Delivered(control, l, fate) && TurnDone(s, l, guard, Some(exit), fate)
    requires exit.Natural? ==> !control.active
    modifies control
    ensures control.Valid() && RunDone(s, m, guard, exit) && Accounted(control, s, m, exit, fate)
  {
    Shut(control);
    m := l.(log := l.log + [RunEnd]);
    EndRun(s, l, guard, exit, m);
  }

  // The last step on the control; others may have come first.
  method Shut(control: Control.RunControl)
    requires control.Valid()
    modifies control
    ensures control.Valid() && !control.active
    ensures control.takenSteering == old(control.takenSteering) && control.takenFollowUp == old(control.takenFollowUp)
    ensures control.acceptedSteering == control.takenSteering + control.droppedSteering
    ensures control.acceptedFollowUp == control.takenFollowUp + control.droppedFollowUp
    ensures !old(control.active) ==> control.closedOutside == old(control.closedOutside)
    ensures !old(control.active) ==>
              control.acceptedSteering == old(control.acceptedSteering) && control.acceptedFollowUp == old(control.acceptedFollowUp)
  {
    control.Outside();
    control.Close();
    assert control.takenSteering + [] == control.takenSteering && control.takenFollowUp + [] == control.takenFollowUp;
  }

  /** After n turn attempts: the assistant messages are the model's answers in their
      order, and the usage is their sum. */
  ghost predicate SaidAll(s: RunState, script: seq<Response>, n: nat) {
    var k := if n <= |script| then n else |script|;
    AssistantsOf(s.produced) == AnswersOf(script[..k]) && s.usage == UsageOf(script[..k])
  }

  // After n turn attempts: the assistant messages are those of the answers, and each
  // field of the usage is the sum of that field.
  ghost predicate Adds(s: RunState, script: seq<Response>, n: nat) {
    var said := script[..if n <= |script| then n else |script|];
    var adds :=
      && AssistantsOf(s.produced) == seq(|said|, i requires 0 <= i < |said| => said[i].message)
      && s.usage.inputTokens == SumOf(seq(|said|, i requires 0 <= i < |said| => said[i].usage.inputTokens))
      && s.usage.outputTokens == SumOf(seq(|said|, i requires 0 <= i < |said| => said[i].usage.outputTokens))
      && s.usage.cost == CostOf(seq(|said|, i requires 0 <= i < |said| => said[i].usage.cost));
    adds
  }

  lemma RunAdds(s: RunState, script: seq<Response>, n: nat)
    requires SaidAll(s, script, n)
    ensures Adds(s, script, n)
  {
    ScriptAdds(script[..if n <= |script| then n else |script|]);
  }

  lemma SaidNext(script: seq<Response>, n: nat)
    ensures n < |script| ==>
              && AnswersOf(script[..n + 1]) == AnswersOf(script[..n]) + [script[n].message]
              && UsageOf(script[..n + 1]) == AddUsage(UsageOf(script[..n]), script[n].usage)
  {
    if n < |script| {
      assert script[..n + 1][..n] == script[..n];
    }
  }

  /** A run: the model answers with the script, and fails when it has no more.
      Whatever is steered or queued meanwhile, turns and executions stay within
      the budget; every accepted message is delivered, lost to a stop hook after
      it was taken, or dropped by closing; a run that ends by itself has
      delivered them all, unless somebody else closed its control. */
  method RunControlled(control: Control.RunControl, initial: seq<Message>, script: seq<Response>, guard: Option<Budget>,
                       f: Fingerprints, parallel: bool)
    returns (s: RunState, exit: Exit, ghost l: Ledger, ghost fate: Fate, ghost last: Did)
    requires control.Valid() && control.takenSteering == [] && control.takenFollowUp == []
    requires control.active || control.closedOutside
    requires forall i | 0 <= i < |script| :: ValidResponse(script[i])
    modifies control
    ensures s.initial == initial && control.Valid()
    ensures RunDone(s, l, guard, exit) && Accounted(control, s, l, exit, fate)
    ensures RunShows(s, l, guard)
    ensures SaidAll(s, script, s.turnAttempts) && Adds(s, script, s.turnAttempts)
    ensures EndsAsAsked(s, script, exit, fate, last)
  {
    s, l, fate := RunState(initial, [], 0, 0, Usage(0, 0, 0.0)), Ledger([RunStart], [], []), NO_FATE;
    last := NOTHING;
    var next: Option<Exit> := None;
    var i := 0;
    RunStarts(s, l, guard);
    while next.None?
      invariant s.initial == initial && Turned(s, script, i, next, fate, last)
      invariant Delivered(control, l, fate) && TurnDone(s, l, guard, next, fate)
      invariant next.Some? && next.value.Natural? ==> !control.active
      decreases |script| + 1 - i, next.None?
    {
      var response := if i < |script| then Some(script[i]) else None;
      ghost var before := s;
      s, next, l, fate, last := RunTurn(control, s, response, guard, f, parallel, l);
      TurnedNext(before, s, script, i, next, fate, parallel, last);
      i := i + 1;
    }
    exit := next.value;
    RunEnds(s, script, i, exit, fate, last);
    l := Finish(control, s, exit, guard, l, fate);
    RunShown(s, l, guard, exit);
  }

  // How a run ends, in terms of its last answer: by itself only as that answer asks,
  // behind tools only if all of them asked for it, and with messages lost exactly if
  // the answer would have ended it.
  ghost predicate EndsAsAsked(s: RunState, script: seq<Response>, exit: Exit, fate: Fate, last: Did) {
    var n := s.turnAttempts;
    && (exit.Natural? ==> 0 < n <= |script|)
    && (exit == Natural(Completed) ==> script[n - 1].stop.EndTurn?)
    && (exit == Natural(CutShort) ==> script[n - 1].stop.Length? || script[n - 1].stop.OtherStop?)
    && (exit == Natural(ToolsEnded) ==> EndsWithTools(s, script[n - 1], last))
    && (fate.lost != [] <==> 0 < n <= |script| && WouldEnd(script[n - 1]) && !exit.Natural?)
  }

  // Between two turns, after i of them.
  ghost predicate Turned(s: RunState, script: seq<Response>, i: nat, next: Option<Exit>, fate: Fate, last: Did) {
    var turned :=
      && i == s.turnAttempts <= |script| + 1 && SaidAll(s, script, i) && (next.None? ==> i <= |script|)
      && (next.Some? && next.value.Natural? ==> 0 < i <= |script| && next.value.end == EndOf(script[i - 1].stop))
      && (next == Some(Natural(ToolsEnded)) ==> EndsWithTools(s, script[i - 1], last))
      && (fate.lost != [] <==> 0 < i <= |script| && next.Some? && WouldEnd(script[i - 1]) && !next.value.Natural?);
    turned
  }

  lemma TurnedNext(s: RunState, t: RunState, script: seq<Response>, i: nat, next: Option<Exit>, fate: Fate, parallel: bool, last: Did)
    requires i == s.turnAttempts <= |script| && SaidAll(s, script, i) && t.turnAttempts == i + 1
    requires i < |script| ==>
               && TookResponse(s, t, script[i]) && AnswerTaken(s, t, script[i], next, parallel, last)
               && (next.Some? && next.value.Natural? ==> next.value.end == EndOf(script[i].stop))
               && LosesIff(script[i], next, fate)
    requires i == |script| ==> next.Some? && next.value.Failed? && t.produced == s.produced && t.usage == s.usage && fate.lost == []
    ensures Turned(t, script, i + 1, next, fate, last)
  {
    SaidNext(script, i);
    if i < |script| && next == Some(Natural(ToolsEnded)) {
      ToolsEndedIt(s, t, script[i], next, parallel, last);
    }
  }

  // Only an answer that asked for tools lets the tools end the run.
  lemma ToolsEndedIt(s: RunState, t: RunState, response: Response, next: Option<Exit>, parallel: bool, last: Did)
    requires AnswerTaken(s, t, response, next, parallel, last)
    requires next == Some(Natural(ToolsEnded)) && EndOf(response.stop) == ToolsEnded
    ensures EndsWithTools(t, response, last)
  {
    assert response.stop.ToolCalls?;
    assert ToolsOfAnswer(s, t, response, next, parallel, last);
    var os := last.batch.value.outcomes;
    assert t.produced == s.produced + [response.message] + MessagesFrom(os);
  }

  lemma RunEnds(s: RunState, script: seq<Response>, i: nat, exit: Exit, fate: Fate, last: Did)
    requires Turned(s, script, i, Some(exit), fate, last)
    ensures SaidAll(s, script, s.turnAttempts) && Adds(s, script, s.turnAttempts)
    ensures EndsAsAsked(s, script, exit, fate, last)
  {
    RunAdds(s, script, i);
  }

  // The run ends behind the results of a batch all of whose calls asked for it.
  ghost predicate EndsWithTools(s: RunState, response: Response, last: Did) {
    && response.stop.ToolCalls? && response.message.Assistant? && AllWish(last)
    && |last.batch.value.outcomes| == |response.message.calls|
    && |last.batch.value.outcomes| <= |s.produced|
    && s.produced[|s.produced| - |last.batch.value.outcomes|..] == MessagesFrom(last.batch.value.outcomes)
  }

  lemma RunStarts(s: RunState, l: Ledger, guard: Option<Budget>)
    requires s.produced == [] && s.turnAttempts == 0 && l == Ledger([RunStart], [], [])
    ensures TurnDone(s, l, guard, None, NO_FATE)
  {
    assert [RunStart][..0] == [];
  }
}
