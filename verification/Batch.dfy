/** One batch of tool calls: preflight in source order, execution one by one,
    outcomes in source order. */
module Batch {
  import opened Messages
  import opened Dependency
  import opened Claims
  import opened Guard

  // An error that ends the run; the code tells errors apart.
  datatype Fault = Fault(code: nat)

  const BLANK_IDENTIFIER := Fault(0)
  const INVALID_CLAIM := Fault(1)
  const STOP_WITHOUT_BLOCK := Fault(2)

  datatype Outcome = Outcome(message: Message, terminate: bool, stopReason: string, counted: bool)

  datatype Verdict = Ready(claims: seq<Claim>) | Immediate(outcome: Outcome)

  datatype BatchResult = BatchResult(outcomes: seq<Outcome>, stopReason: string)

  // ---------------------------------------------------------------------------
  // What the world around a call answers.

  datatype Resolver = NoResolver | Resolved(claims: seq<RawClaim>) | BadArguments | Unresolved(fault: Fault)

  datatype HookAnswer = Answer(decision: Decision) | HookFault(fault: Fault)

  // The tool returned or erred; an error counts as fatal when the run was
  // cancelled or the tool timed out.
  datatype ToolAnswer = Returned(text: string, terminate: bool, valid: bool) | Erred(text: string, fatal: Option<Fault>)

  datatype AfterHook = NoAfter | Replaced(text: string, isError: bool, terminate: bool, valid: bool) | AfterFault(fault: Fault)

  datatype ToolFacts = ToolFacts(answer: ToolAnswer, after: AfterHook, invalid: Fault)

  datatype CallFacts = CallFacts(cancelled: Option<Fault>, known: bool, validArguments: bool, resolver: Resolver,
                                 hook: HookAnswer, work: ToolFacts)

  // ---------------------------------------------------------------------------
  // What that means for the call.

  datatype Judgement = Failing(fault: Fault) | Refused(stopReason: string) | Passing

  predicate AllValid(claims: seq<RawClaim>) {
    forall x | 0 <= x < |claims| :: ValidClaim(claims[x], Trim)
  }

  function JudgeHook(h: HookAnswer): Judgement {
    match h
    case HookFault(fault) => Failing(fault)
    case Answer(d) =>
      if d.stopReason != "" && !d.block then Failing(STOP_WITHOUT_BLOCK)
      else if d.block then Refused(d.stopReason)
      else Passing
  }

  /** The decision on one call, before anything visible happens. Only a batch that
      runs in parallel resolves claims. */
  function Judge(f: CallFacts, parallel: bool): Judgement {
    if f.cancelled.Some? then Failing(f.cancelled.value)
    else if !f.known || !f.validArguments then Refused("")
    else if !parallel then JudgeHook(f.hook)
    else match f.resolver
      case BadArguments => Refused("")
      case Unresolved(fault) => Failing(fault)
      case NoResolver => JudgeHook(f.hook)
      case Resolved(claims) => if AllValid(claims) then JudgeHook(f.hook) else Failing(INVALID_CLAIM)
  }

  ghost predicate ClaimsOf(f: CallFacts, parallel: bool, claims: seq<Claim>) {
    && DistinctKeys(claims)
    && if parallel && f.resolver.Resolved? then Merges(f.resolver.claims, Trim, |f.resolver.claims|, claims) else claims == []
  }

  datatype Work = Fatal(fault: Fault) | Answered(text: string, isError: bool, terminate: bool)

  // A failed tool is an answer; a cancelled run, a timeout, an invalid result and
  // a failed hook are faults.
  function Conclusion(w: ToolFacts): Work {
    if w.answer.Erred? && w.answer.fatal.Some? then Fatal(w.answer.fatal.value)
    else if w.answer.Returned? && !w.answer.valid then Fatal(w.invalid)
    else match w.after
      case NoAfter =>
        if w.answer.Erred? then Answered(w.answer.text, true, false) else Answered(w.answer.text, false, w.answer.terminate)
      case AfterFault(fault) => Fatal(fault)
      case Replaced(text, isError, terminate, valid) => if valid then Answered(text, isError, terminate) else Fatal(w.invalid)
  }

  // ---------------------------------------------------------------------------
  // Outcomes.

  predicate Blank(call: ToolCall) {
    IsBlank(call.id) || IsBlank(call.name)
  }

  predicate AnswersCall(o: Outcome, call: ToolCall) {
    o.message.ToolResult? && ValidMessage(o.message) && o.message.callId == call.id && o.message.toolName == call.name
  }

  ghost predicate AllAnswered(os: seq<Outcome>, calls: seq<ToolCall>) {
    |os| == |calls| && forall i | 0 <= i < |calls| :: AnswersCall(os[i], calls[i])
  }

  // An outcome that no execution produced.
  predicate Refusal(o: Outcome, call: ToolCall, stopReason: string, counted: bool) {
    AnswersCall(o, call) && o.message.isError && !o.terminate && o.stopReason == stopReason && o.counted == counted
  }

  // An answer that says, as an error, that its call was not executed.
  ghost predicate RefusalOf(o: Outcome, call: ToolCall) {
    && o.message.ToolResult? && o.message.callId == call.id && o.message.toolName == call.name
    && o.message.isError && !o.terminate
  }

  // An answer that reports what the tool, or the hook after it, has said.
  ghost predicate Reports(o: Outcome, call: ToolCall, w: ToolFacts) {
    && o.message.ToolResult? && o.message.callId == call.id && o.message.toolName == call.name
    && (w.after.NoAfter? ==> o.message.text == w.answer.text && o.message.isError == w.answer.Erred?
                             && o.terminate == (w.answer.Returned? && w.answer.terminate))
    && (w.after.Replaced? ==> o.message.text == w.after.text && o.message.isError == w.after.isError
                              && o.terminate == w.after.terminate)
  }

  /** What the outcomes of a batch without a stop tell the model: refusals as
      errors, and of every call that ran what its tool or hook has said. */
  lemma OutcomesTell(os: seq<Outcome>, calls: seq<ToolCall>, facts: seq<CallFacts>, parallel: bool)
    requires |facts| == |calls| && AllOk(os, calls, facts, parallel)
    ensures |os| == |calls|
    ensures forall i {:trigger os[i]} | 0 <= i < |calls| ::
              if facts[i].known && facts[i].validArguments && facts[i].hook.Answer? && !facts[i].hook.decision.block
                 && !(parallel && facts[i].resolver.BadArguments?)
              then Reports(os[i], calls[i], facts[i].work)
              else RefusalOf(os[i], calls[i])
    ensures forall i {:trigger os[i]} | 0 <= i < |calls| :: os[i].counted && os[i].stopReason == ""
  {
    forall i {:trigger os[i]} | 0 <= i < |calls|
      ensures os[i].counted && os[i].stopReason == ""
      ensures if facts[i].known && facts[i].validArguments && facts[i].hook.Answer? && !facts[i].hook.decision.block
                 && !(parallel && facts[i].resolver.BadArguments?)
              then Reports(os[i], calls[i], facts[i].work)
              else RefusalOf(os[i], calls[i])
    {
      assert OutcomeOk(os[i], calls[i], facts[i], parallel);
    }
  }

  /** What the outcomes of a stopped batch tell: the call that was blocked with a
      reason and everything after it are refused and not counted; before it, calls
      that ran are reported, unless the batch was parallel and nothing ran. */
  lemma StoppedOutcomesTell(b: BatchResult, calls: seq<ToolCall>, facts: seq<CallFacts>, parallel: bool, lives: nat, at: nat)
    requires |facts| == |calls| && StopsAt(b, calls, facts, parallel, lives, at)
    ensures facts[at].cancelled.None? && facts[at].known && facts[at].validArguments
    ensures facts[at].hook.Answer? && facts[at].hook.decision.block && facts[at].hook.decision.stopReason == b.stopReason != ""
    ensures forall i {:trigger b.outcomes[i]} | at <= i < |calls| :: RefusalOf(b.outcomes[i], calls[i]) && !b.outcomes[i].counted
    ensures parallel ==> lives == 0
    ensures forall i {:trigger b.outcomes[i]} | 0 <= i < at ::
              if !parallel && facts[i].known && facts[i].validArguments && facts[i].hook.Answer? && !facts[i].hook.decision.block
              then Reports(b.outcomes[i], calls[i], facts[i].work)
              else RefusalOf(b.outcomes[i], calls[i])
  {
    forall i {:trigger b.outcomes[i]} | 0 <= i < at
      ensures if !parallel && facts[i].known && facts[i].validArguments && facts[i].hook.Answer? && !facts[i].hook.decision.block
              then Reports(b.outcomes[i], calls[i], facts[i].work)
              else RefusalOf(b.outcomes[i], calls[i])
    {
      assert StoppedOk(b.outcomes[i], calls[i], facts[i], parallel);
    }
  }

  /** Which calls neither fail nor stop the run, in terms of what was answered. */
  lemma ClearIff(call: ToolCall, f: CallFacts, parallel: bool)
    ensures Clear(call, f, parallel) <==>
              && f.cancelled.None? && !IsBlank(call.id) && !IsBlank(call.name)
              && (f.known && f.validArguments && !(parallel && f.resolver.BadArguments?) ==>
                    && (parallel ==> f.resolver.NoResolver? || (f.resolver.Resolved? && AllValid(f.resolver.claims)))
                    && f.hook.Answer? && f.hook.decision.stopReason == ""
                    && (!f.hook.decision.block ==>
                          && (if f.work.answer.Erred? then f.work.answer.fatal.None? else f.work.answer.valid)
                          && !f.work.after.AfterFault? && (f.work.after.Replaced? ==> f.work.after.valid)))
  {
  }

  // The outcome of an execution.
  predicate Executed(o: Outcome, call: ToolCall, w: ToolFacts) {
    && AnswersCall(o, call) && o.stopReason == "" && o.counted
    && Conclusion(w) == Answered(o.message.text, o.message.isError, o.terminate)
  }

  /** The outcome its judgement asks for: a refusal that does not stop the run
      counts as a handled call; a stop does not. */
  ghost predicate OutcomeOk(o: Outcome, call: ToolCall, f: CallFacts, parallel: bool) {
    match Judge(f, parallel)
    case Failing(_) => false
    case Refused(stopReason) => Refusal(o, call, stopReason, stopReason == "")
    case Passing => Executed(o, call, f.work)
  }

  // What a call brings down, if it does.
  function FaultAt(call: ToolCall, f: CallFacts, parallel: bool): Option<Fault> {
    match Judge(f, parallel)
    case Failing(fault) => Some(fault)
    case Refused(_) => if Blank(call) then Some(BLANK_IDENTIFIER) else None
    case Passing =>
      match Conclusion(f.work)
      case Fatal(fault) => Some(fault)
      case Answered(_, _, _) => if Blank(call) then Some(BLANK_IDENTIFIER) else None
  }

  predicate StopsRun(f: CallFacts, parallel: bool) {
    Judge(f, parallel).Refused? && Judge(f, parallel).stopReason != ""
  }

  // A call that neither fails nor stops the run.
  predicate Clear(call: ToolCall, f: CallFacts, parallel: bool) {
    FaultAt(call, f, parallel).None? && !StopsRun(f, parallel)
  }

  // Identifiers of new messages are never blank.
  method NewId() returns (id: string)
    ensures !IsBlank(id)
  {
    var suffix: string := *;
    id := "tool-result-" + suffix;
    assert id[0] == 't';
  }

  // A result message needs the identifiers of its call; without them the run
  // fails.
  method ErrorOutcome(call: ToolCall, text: string, stopReason: string, counted: bool) returns (r: Result<Outcome, Fault>)
    ensures r == Failure(BLANK_IDENTIFIER) || (r.Success? && Refusal(r.value, call, stopReason, counted))
    ensures r.Failure? <==> IsBlank(call.id) || IsBlank(call.name)
    ensures r.Success? ==>
              && RefusalOf(r.value, call) && r.value.message.text == text
              && r.value.stopReason == stopReason && r.value.counted == counted
  {
    var id := NewId();
    var message := ToolResult(id, call.id, call.name, true, text);
    if !ValidMessage(message) {
      return Failure(BLANK_IDENTIFIER);
    }
    r := Success(Outcome(message, false, stopReason, counted));
  }

  method Refuse(call: ToolCall, text: string, stopReason: string) returns (r: Result<Verdict, Fault>)
    ensures r == Failure(BLANK_IDENTIFIER) || (r.Success? && r.value.Immediate? && Refusal(r.value.outcome, call, stopReason, stopReason == ""))
    ensures r.Failure? <==> Blank(call)
  {
    var outcome := ErrorOutcome(call, text, stopReason, stopReason == "");
    r := if outcome.Success? then Success(Immediate(outcome.value)) else Failure(outcome.error);
  }

  // Strips white space on both sides.
  function Trim(s: string): string {
    if s == [] then s
    else if IsSpace(s[0]) then Trim(s[1..])
    else if IsSpace(s[|s| - 1]) then Trim(s[..|s| - 1])
    else s
  }

  // One character less on one side.
  lemma TrimStep(s: string, rest: string, first: string, last: string)
    requires s == first + rest + last && |first| + |last| == 1 && IsBlank(first) && IsBlank(last)
    requires last != [] ==> rest == [] || !IsSpace(s[0])
    ensures Trim(s) == Trim(rest)
  {
    if first != [] {
      assert s[0] == first[0] && s[1..] == rest;
    } else {
      assert s[|s| - 1] == last[0] && s[..|s| - 1] == rest;
      if rest == [] {
        assert s[1..] == rest;
      }
    }
  }

  // What trimming s to t takes away.
  ghost predicate Trimmed(s: string, a: string, t: string, b: string) {
    s == a + t + b && IsBlank(a) && IsBlank(b) && (t != "" ==> !IsSpace(t[0]) && !IsSpace(t[|t| - 1]))
  }

  lemma Around(s: string, rest: string, first: string, a: string, t: string, b: string, last: string)
    requires Trimmed(rest, a, t, b) && s == first + rest + last && IsBlank(first) && IsBlank(last)
    ensures Trimmed(s, first + a, t, b + last)
  {
    assert s == (first + a) + t + (b + last);
  }

  lemma Cut(s: string, k: nat)
    requires k <= |s|
    ensures s == [] + s[..k] + s[k..] && s == s[..k] + s[k..] + []
  {
  }

  /** Trimming takes away white space on both sides and leaves none there. */
  lemma {:induction false} TrimTrims(s: string) returns (a: string, b: string)
    ensures Trimmed(s, a, Trim(s), b)
    decreases |s|, 1
  {
    a, b := "", "";
    if s != "" && IsSpace(s[0]) {
      Cut(s, 1);
      a, b := TrimTrims(s[1..]);
      TrimStep(s, s[1..], s[..1], []);
      Around(s, s[1..], s[..1], a, Trim(s[1..]), b, []);
      a, b := s[..1] + a, b + [];
    } else if s != "" && IsSpace(s[|s| - 1]) {
      a, b := TrimLast(s);
    }
  }

  lemma {:induction false} TrimLast(s: string) returns (a: string, b: string)
    requires s != "" && !IsSpace(s[0]) && IsSpace(s[|s| - 1])
    ensures Trimmed(s, a, Trim(s), b)
    decreases |s|, 0
  {
    var n := |s| - 1;
    Cut(s, n);
    a, b := TrimTrims(s[..n]);
    TrimStep(s, s[..n], [], s[n..]);
    Around(s, s[..n], [], a, Trim(s[..n]), b, s[n..]);
    a, b := [] + a, b + s[n..];
  }

  // A verdict follows the judgement.
  ghost predicate Follows(r: Result<Verdict, Fault>, call: ToolCall, f: CallFacts, parallel: bool) {
    match Judge(f, parallel)
    case Failing(fault) => r == Failure(fault)
    case Refused(stopReason) =>
      if Blank(call) then r == Failure(BLANK_IDENTIFIER)
      else r.Success? && r.value.Immediate? && Refusal(r.value.outcome, call, stopReason, stopReason == "")
    case Passing => r.Success? && r.value.Ready? && ClaimsOf(f, parallel, r.value.claims)
  }

  // Some of the claims that two resolvers ask for name the same key, one of them
  // with mode 2.
  ghost predicate AsksClash(a: seq<RawClaim>, b: seq<RawClaim>) {
    exists c, d | c in a && d in b :: Trim(c.key) == Trim(d.key) && (c.mode == 2 || d.mode == 2)
  }

  ghost predicate RawConflict(f: CallFacts, g: CallFacts) {
    f.resolver.Resolved? && g.resolver.Resolved? && AsksClash(f.resolver.claims, g.resolver.claims)
  }

  lemma AsksClashIff(a: seq<RawClaim>, b: seq<RawClaim>)
    ensures AsksClash(a, b) <==> exists x, y | 0 <= x < |a| && 0 <= y < |b| :: RawClash(a[x], b[y], Trim)
  {
    if x, y :| 0 <= x < |a| && 0 <= y < |b| && RawClash(a[x], b[y], Trim) {
      assert a[x] in a && b[y] in b;
    }
    if AsksClash(a, b) {
      var c, d :| c in a && d in b && Trim(c.key) == Trim(d.key) && (c.mode == 2 || d.mode == 2);
      var x, y :| 0 <= x < |a| && 0 <= y < |b| && a[x] == c && b[y] == d;
      assert RawClash(a[x], b[y], Trim);
    }
  }

  lemma ConflictByPlace(ps: seq<Prepared>, i: nat, j: nat, p: seq<Claim>, q: seq<Claim>)
    requires i < |ps| && j < |ps| && p == ps[i].claims && q == ps[j].claims
    ensures Conflict(ps, i, j) <==> exists x, y | 0 <= x < |p| && 0 <= y < |q| :: Clash(p[x], q[y])
  {
    if x, y :| 0 <= x < |p| && 0 <= y < |q| && Clash(p[x], q[y]) {
      assert p[x] in p && q[y] in q;
    }
    if Conflict(ps, i, j) {
      var c, d :| c in p && d in q && Clash(c, d);
      var x, y :| 0 <= x < |p| && 0 <= y < |q| && p[x] == c && q[y] == d;
    }
  }

  lemma ClaimsConflictIff(f: CallFacts, g: CallFacts, ps: seq<Prepared>, i: nat, j: nat)
    requires i < |ps| && j < |ps| && ClaimsOf(f, true, ps[i].claims) && ClaimsOf(g, true, ps[j].claims)
    ensures Conflict(ps, i, j) <==> RawConflict(f, g)
  {
    if f.resolver.Resolved? && g.resolver.Resolved? {
      var a, b := f.resolver.claims, g.resolver.claims;
      NormalizationKeepsClashes(a, b, Trim, ps[i].claims, ps[j].claims);
      AsksClashIff(a, b);
      ConflictByPlace(ps, i, j, ps[i].claims, ps[j].claims);
    }
  }

  /** Preflight of one call. It is ready exactly when nothing speaks against it; an
      unknown tool and invalid arguments never are. */
  method PrepareToolCall(call: ToolCall, f: CallFacts, parallel: bool) returns (r: Result<Verdict, Fault>)
    ensures Follows(r, call, f, parallel)
    ensures r.Success? && r.value.Ready? <==>
              && f.cancelled.None? && f.known && f.validArguments
              && (parallel ==> f.resolver.NoResolver? || (f.resolver.Resolved? && AllValid(f.resolver.claims)))
              && f.hook.Answer? && !f.hook.decision.block && f.hook.decision.stopReason == ""
    ensures r.Success? && r.value.Ready? && (!parallel || f.resolver.NoResolver?) ==> r.value.claims == []
    ensures f.cancelled.Some? ==> r == Failure(f.cancelled.value)
    ensures f.cancelled.None? && !(f.known && f.validArguments) ==>
              if IsBlank(call.id) || IsBlank(call.name) then r == Failure(BLANK_IDENTIFIER)
              else r.Success? && r.value.Immediate? && RefusalOf(r.value.outcome, call) && r.value.outcome.stopReason == ""
    ensures r.Success? && r.value.Immediate? ==>
              && RefusalOf(r.value.outcome, call)
              && (r.value.outcome.counted <==> r.value.outcome.stopReason == "")
              && (r.value.outcome.stopReason != "" ==>
                    f.known && f.validArguments && f.hook.Answer? && f.hook.decision.block
                    && r.value.outcome.stopReason == f.hook.decision.stopReason)
    ensures f.cancelled.None? && f.known && f.validArguments && (!parallel || f.resolver.NoResolver?) ==>
              && (f.hook.HookFault? ==> r == Failure(f.hook.fault))
              && (f.hook.Answer? && !f.hook.decision.block && f.hook.decision.stopReason != "" ==> r == Failure(STOP_WITHOUT_BLOCK))
              && (f.hook.Answer? && f.hook.decision.block && r.Success? ==>
                    r.value.Immediate? && r.value.outcome.stopReason == f.hook.decision.stopReason)
    ensures f.cancelled.None? && f.known && f.validArguments && parallel ==>
              && (f.resolver.Unresolved? ==> r == Failure(f.resolver.fault))
              && (f.resolver.Resolved? && !AllValid(f.resolver.claims) ==> r == Failure(INVALID_CLAIM))
              && (f.resolver.BadArguments? && r.Success? ==> r.value.Immediate? && r.value.outcome.stopReason == "")
  {
    if f.cancelled.Some? {
      return Failure(f.cancelled.value);
    }
    if !f.known {
      r := Refuse(call, "tool is not available", "");
      return;
    }
    if !f.validArguments {
      r := Refuse(call, "invalid arguments", "");
      return;
    }
    var claims: seq<Claim> := [];
    if parallel {
      match f.resolver
      case NoResolver =>
      case BadArguments =>
        r := Refuse(call, "invalid arguments", "");
        return;
      case Unresolved(fault) =>
        return Failure(fault);
      case Resolved(raw) =>
        var normalized := Normalize(raw, Trim);
        if normalized.Failure? {
          return Failure(INVALID_CLAIM);
        }
        claims := normalized.value;
    }
    match f.hook
    case HookFault(fault) =>
      return Failure(fault);
    case Answer(decision) =>
      if decision.stopReason != "" && !decision.block {
        return Failure(STOP_WITHOUT_BLOCK);
      }
      if decision.block {
        r := Refuse(call, "tool execution was blocked", decision.stopReason);
        return;
      }
      r := Success(Ready(claims));
  }

  // ---------------------------------------------------------------------------
  // One started call.

  datatype CallEvent = ToolStart | ToolUpdate | ToolEnd

  // The events of one call, in the order in which they become visible.
  class CallTrace {
    var events: seq<CallEvent>

    constructor ()
      ensures events == []
    {
      events := [];
    }

    method Add(e: CallEvent)
      modifies this
      ensures events == old(events) + [e]
    {
      events := events + [e];
    }
  }

  // Forwards progress until it is closed.
  class ToolUpdateGate {
    const trace: CallTrace
    var closed: bool

    constructor (trace: CallTrace)
      ensures this.trace == trace && !closed
    {
      this.trace, closed := trace, false;
    }

    method Emit()
      modifies trace
      ensures closed ==> trace.events == old(trace.events)
      ensures !closed ==> trace.events == old(trace.events) || trace.events == old(trace.events) + [ToolUpdate]
    {
      if closed {
        return;
      }
      // An invalid update is not forwarded.
      if * {
        trace.Add(ToolUpdate);
      }
    }

    method Close()
      modifies this
      ensures closed
    {
      closed := true;
    }
  }

  ghost predicate GoingOn(events: seq<CallEvent>) {
    events != [] && events[0] == ToolStart && forall i | 0 < i < |events| :: events[i] == ToolUpdate
  }

  // One start, then updates, then one end and nothing after it.
  ghost predicate Lifecycle(events: seq<CallEvent>) {
    events != [] && events[|events| - 1] == ToolEnd && GoingOn(events[..|events| - 1])
  }

  /** Event by event. */
  lemma LifecycleIff(events: seq<CallEvent>)
    ensures Lifecycle(events) <==>
              && |events| >= 2 && events[0] == ToolStart && events[|events| - 1] == ToolEnd
              && forall i | 0 < i < |events| - 1 :: events[i] == ToolUpdate
  {
    if |events| >= 2 {
      assert forall i | 0 <= i < |events| - 1 :: events[..|events| - 1][i] == events[i];
    }
  }

  // The tool reports progress, also from goroutines that outlive it. What it may
  // do to the trace is up to the gate alone.
  method RunTool(gate: ToolUpdateGate, emissions: nat)
    requires !gate.closed ==> GoingOn(gate.trace.events)
    modifies gate.trace
    ensures gate.closed ==> gate.trace.events == old(gate.trace.events)
    ensures !gate.closed ==> GoingOn(gate.trace.events)
  {
    var n := 0;
    while n < emissions
      invariant gate.closed ==> gate.trace.events == old(gate.trace.events)
      invariant !gate.closed ==> GoingOn(gate.trace.events)
    {
      gate.Emit();
      n := n + 1;
    }
  }

  // An execution ends in a fault or in an outcome.
  ghost predicate Concludes(r: Result<Outcome, Fault>, call: ToolCall, w: ToolFacts) {
    match Conclusion(w)
    case Fatal(fault) => r == Failure(fault)
    case Answered(_, _, _) => if Blank(call) then r == Failure(BLANK_IDENTIFIER) else r.Success? && Executed(r.value, call, w)
  }

  /** Executes a started call. On every path, exactly one end event closes its
      life, whatever the tool goes on to report before and after that event. */
  method ExecuteStartedToolCall(call: ToolCall, w: ToolFacts) returns (r: Result<Outcome, Fault>, events: seq<CallEvent>)
    ensures Lifecycle(events)
    ensures Concludes(r, call, w)
    ensures w.answer.Erred? && w.answer.fatal.Some? ==> r == Failure(w.answer.fatal.value)
    ensures w.answer.Returned? && !w.answer.valid ==> r == Failure(w.invalid)
    ensures (if w.answer.Erred? then w.answer.fatal.None? else w.answer.valid) ==>
              && (w.after.AfterFault? ==> r == Failure(w.after.fault))
              && (w.after.Replaced? && !w.after.valid ==> r == Failure(w.invalid))
              && (w.after.NoAfter? || (w.after.Replaced? && w.after.valid) ==>
                    if IsBlank(call.id) || IsBlank(call.name) then r == Failure(BLANK_IDENTIFIER) else r.Success?)
    ensures r.Success? ==>
              && r.value.message.ToolResult? && r.value.message.callId == call.id && r.value.message.toolName == call.name
              && r.value.counted && r.value.stopReason == ""
              && (w.after.NoAfter? ==> r.value.message.text == w.answer.text && r.value.message.isError == w.answer.Erred?
                                       && r.value.terminate == (w.answer.Returned? && w.answer.terminate))
              && (w.after.Replaced? ==> r.value.message.text == w.after.text && r.value.message.isError == w.after.isError
                                        && r.value.terminate == w.after.terminate)
  {
    var trace := new CallTrace();
    trace.Add(ToolStart);
    var gate := new ToolUpdateGate(trace);
    var emissions: nat, late: nat, later: nat := *, *, *;
    RunTool(gate, emissions);
    gate.Close();
    RunTool(gate, late);
    r := Conclude(call, w);
    ghost var life := trace.events;
    trace.Add(ToolEnd);
    RunTool(gate, later);
    events := trace.events;
    assert events[..|events| - 1] == life;
  }

  // From the tool's return to its outcome. A tool that failed is reported as an
  // error and does not end the run; a hook may replace text, flag and wish.
  method Conclude(call: ToolCall, w: ToolFacts) returns (r: Result<Outcome, Fault>)
    ensures Concludes(r, call, w)
    ensures w.answer.Erred? && w.answer.fatal.Some? ==> r == Failure(w.answer.fatal.value)
    ensures w.answer.Returned? && !w.answer.valid ==> r == Failure(w.invalid)
    ensures (if w.answer.Erred? then w.answer.fatal.None? else w.answer.valid) ==>
              && (w.after.AfterFault? ==> r == Failure(w.after.fault))
              && (w.after.Replaced? && !w.after.valid ==> r == Failure(w.invalid))
              && (w.after.NoAfter? || (w.after.Replaced? && w.after.valid) ==>
                    if IsBlank(call.id) || IsBlank(call.name) then r == Failure(BLANK_IDENTIFIER) else r.Success?)
    ensures r.Success? ==>
              && r.value.message.ToolResult? && r.value.message.callId == call.id && r.value.message.toolName == call.name
              && r.value.counted && r.value.stopReason == ""
              && (w.after.NoAfter? ==> r.value.message.text == w.answer.text && r.value.message.isError == w.answer.Erred?
                                       && r.value.terminate == (w.answer.Returned? && w.answer.terminate))
              && (w.after.Replaced? ==> r.value.message.text == w.after.text && r.value.message.isError == w.after.isError
                                        && r.value.terminate == w.after.terminate)
  {
    var isError, terminate, text := false, false, w.answer.text;
    match w.answer {
      case Erred(_, fatal) =>
        if fatal.Some? {
          return Failure(fatal.value);
        }
        isError := true;
      case Returned(_, wantsEnd, valid) =>
        if !valid {
          return Failure(w.invalid);
        }
        terminate := wantsEnd;
    }
    match w.after {
      case NoAfter =>
      case AfterFault(fault) =>
        return Failure(fault);
      case Replaced(nextText, nextError, nextTerminate, valid) =>
        if !valid {
          return Failure(w.invalid);
        }
        text, isError, terminate := nextText, nextError, nextTerminate;
    }
    var id := NewId();
    var message := ToolResult(id, call.id, call.name, isError, text);
    if !ValidMessage(message) {
      return Failure(BLANK_IDENTIFIER);
    }
    r := Success(Outcome(message, terminate, "", true));
  }

  // ---------------------------------------------------------------------------
  // A whole batch.

  function CountedOf(os: seq<Outcome>): nat {
    if os == [] then 0 else CountedOf(os[..|os| - 1]) + (if os[|os| - 1].counted then 1 else 0)
  }

  lemma CountedAppend(os: seq<Outcome>, o: Outcome)
    ensures CountedOf(os + [o]) == CountedOf(os) + (if o.counted then 1 else 0)
  {
    assert (os + [o])[..|os|] == os;
  }

  lemma {:induction false} CountedConcat(a: seq<Outcome>, b: seq<Outcome>)
    ensures CountedOf(a + b) == CountedOf(a) + CountedOf(b)
    decreases |b|
  {
    if b == [] {
      assert a + b == a;
    } else {
      var n := |b| - 1;
      assert a + b == (a + b[..n]) + [b[n]];
      CountedAppend(a + b[..n], b[n]);
      CountedConcat(a, b[..n]);
    }
  }

  ghost function CountedAt(os: seq<Outcome>, n: nat): set<nat>
    requires n <= |os|
  {
    set i: nat | i < n && os[i].counted
  }

  /** The count is the number of counted outcomes. */
  lemma {:induction false} CountedIsCount(os: seq<Outcome>, n: nat)
    requires n <= |os|
    ensures CountedOf(os[..n]) == |CountedAt(os, n)|
  {
    if n > 0 {
      CountedIsCount(os, n - 1);
      assert os[..n][..n - 1] == os[..n - 1];
      assert CountedAt(os, n) == if os[n - 1].counted then CountedAt(os, n - 1) + {n - 1} else CountedAt(os, n - 1);
    }
  }

  // How many calls run.
  function PassingOf(facts: seq<CallFacts>, parallel: bool): nat {
    if facts == [] then 0
    else PassingOf(facts[..|facts| - 1], parallel) + (if Judge(facts[|facts| - 1], parallel).Passing? then 1 else 0)
  }

  // Nothing speaks against running the call.
  ghost predicate Runs(f: CallFacts, parallel: bool) {
    && f.cancelled.None? && f.known && f.validArguments
    && (parallel ==> f.resolver.NoResolver? || (f.resolver.Resolved? && AllValid(f.resolver.claims)))
    && f.hook.Answer? && !f.hook.decision.block && f.hook.decision.stopReason == ""
  }

  ghost function RunningAt(facts: seq<CallFacts>, parallel: bool, n: nat): set<nat>
    requires n <= |facts|
  {
    set i: nat | i < n && Runs(facts[i], parallel)
  }

  /** As many calls run as there are calls that nothing speaks against. */
  lemma {:induction false} PassingIsCount(facts: seq<CallFacts>, parallel: bool, n: nat)
    requires n <= |facts|
    ensures PassingOf(facts[..n], parallel) == |RunningAt(facts, parallel, n)|
  {
    if n > 0 {
      PassingIsCount(facts, parallel, n - 1);
      PassingNext(facts, parallel, n - 1);
      RunsIff(facts[n - 1], parallel);
      RunningNext(facts, parallel, n);
    }
  }

  lemma RunsIff(f: CallFacts, parallel: bool)
    ensures Judge(f, parallel).Passing? <==> Runs(f, parallel)
  {
  }

  lemma RunningNext(facts: seq<CallFacts>, parallel: bool, n: nat)
    requires 0 < n <= |facts|
    ensures |RunningAt(facts, parallel, n)| == |RunningAt(facts, parallel, n - 1)| + (if Runs(facts[n - 1], parallel) then 1 else 0)
  {
    var before := RunningAt(facts, parallel, n - 1);
    assert RunningAt(facts, parallel, n) == if Runs(facts[n - 1], parallel) then before + {n - 1} else before;
  }

  lemma PassingNext(facts: seq<CallFacts>, parallel: bool, i: nat)
    requires i < |facts|
    ensures PassingOf(facts[..i + 1], parallel) == PassingOf(facts[..i], parallel) + (if Judge(facts[i], parallel).Passing? then 1 else 0)
  {
    assert facts[..i + 1][..i] == facts[..i];
  }

  // Every call is refused, without being counted.
  ghost predicate AllRefused(os: seq<Outcome>, calls: seq<ToolCall>) {
    |os| == |calls| && forall i | 0 <= i < |calls| :: Refusal(os[i], calls[i], "", false)
  }

  ghost predicate AllLifecycles(lives: seq<seq<CallEvent>>) {
    forall i | 0 <= i < |lives| :: Lifecycle(lives[i])
  }

  lemma MoreLives(lives: seq<seq<CallEvent>>, more: seq<seq<CallEvent>>)
    requires AllLifecycles(lives)
    requires more == [] || (|more| == 1 && Lifecycle(more[0]))
    ensures AllLifecycles(lives + more)
  {
    forall i | 0 <= i < |lives + more|
      ensures Lifecycle((lives + more)[i])
    {
      assert (lives + more)[i] == if i < |lives| then lives[i] else more[0];
    }
  }

  predicate AnyBlank(calls: seq<ToolCall>) {
    exists i :: 0 <= i < |calls| && Blank(calls[i])
  }

  method FailToolCalls(calls: seq<ToolCall>, text: string) returns (r: Result<seq<Outcome>, Fault>)
    ensures r == Failure(BLANK_IDENTIFIER) || (r.Success? && AllRefused(r.value, calls))
    ensures r.Failure? <==> exists i :: 0 <= i < |calls| && (IsBlank(calls[i].id) || IsBlank(calls[i].name))
    ensures r.Success? ==>
              |r.value| == |calls| && forall i {:trigger r.value[i]} | 0 <= i < |calls| ::
                RefusalOf(r.value[i], calls[i]) && !r.value[i].counted && r.value[i].stopReason == ""
  {
    var outcomes: seq<Outcome> := [];
    for i := 0 to |calls|
      invariant AllRefused(outcomes, calls[..i])
      invariant forall j | 0 <= j < i :: !Blank(calls[j])
      invariant |outcomes| == i && forall j {:trigger outcomes[j]} | 0 <= j < i ::
          RefusalOf(outcomes[j], calls[j]) && !outcomes[j].counted && outcomes[j].stopReason == ""
    {
      var o := ErrorOutcome(calls[i], text, "", false);
      if o.Failure? {
        assert IsBlank(calls[i].id) || IsBlank(calls[i].name);
        return Failure(o.error);
      }
      outcomes := outcomes + [o.value];
    }
    assert calls[..|calls|] == calls;
    r := Success(outcomes);
  }

  // Every call got the outcome its judgement asks for, and none stops the run.
  ghost predicate AllOk(os: seq<Outcome>, calls: seq<ToolCall>, facts: seq<CallFacts>, parallel: bool)
    requires |facts| == |calls|
  {
    var ok :=
      && |os| == |calls|
      && (forall i {:trigger os[i]} | 0 <= i < |os| :: OutcomeOk(os[i], calls[i], facts[i], parallel) && os[i].stopReason == "");
    ok
  }

  // What a stop leaves of an earlier call: one by one, the outcome it had already;
  // in parallel nothing has run, so a call that would have run is refused.
  ghost predicate StoppedOk(o: Outcome, call: ToolCall, f: CallFacts, parallel: bool) {
    && !StopsRun(f, parallel)
    && if parallel && Judge(f, parallel).Passing? then Refusal(o, call, "", false) else OutcomeOk(o, call, f, parallel)
  }

  ghost predicate AllStopped(os: seq<Outcome>, calls: seq<ToolCall>, facts: seq<CallFacts>, parallel: bool, n: nat)
    requires n <= |facts| && n <= |calls| && n <= |os|
  {
    forall i {:trigger os[i]} | 0 <= i < n :: StoppedOk(os[i], calls[i], facts[i], parallel)
  }

  // The batch stops at call `at`: it carries the reason, and nothing after it ran.
  ghost predicate StopsAt(b: BatchResult, calls: seq<ToolCall>, facts: seq<CallFacts>, parallel: bool, lives: nat, at: nat)
    requires |facts| == |calls|
  {
    var stops :=
      && |b.outcomes| == |calls| && at < |calls|
      && StopsRun(facts[at], parallel) && b.stopReason == Judge(facts[at], parallel).stopReason
      && Refusal(b.outcomes[at], calls[at], b.stopReason, false)
      && AllStopped(b.outcomes, calls, facts, parallel, at)
      && (forall i | at < i < |calls| :: Refusal(b.outcomes[i], calls[i], "", false))
      && lives == if parallel then 0 else PassingOf(facts[..at], false);
    stops
  }

  // What either way of executing a batch promises when it succeeds.
  ghost predicate BatchDone(b: BatchResult, calls: seq<ToolCall>, facts: seq<CallFacts>, parallel: bool, lives: seq<seq<CallEvent>>)
    requires |facts| == |calls|
  {
    && AllAnswered(b.outcomes, calls)
    && AllLifecycles(lives)
    && |lives| <= CountedOf(b.outcomes)
    && (b.stopReason == "" ==> AllOk(b.outcomes, calls, facts, parallel) && |lives| == PassingOf(facts, parallel))
    && (b.stopReason != "" ==> exists at :: StopsAt(b, calls, facts, parallel, |lives|, at))
  }

  // What it promises in any case: no more runs than calls, none in a batch
  // without an admitted call, every start closed.
  ghost predicate BatchBounded(facts: seq<CallFacts>, parallel: bool, lives: seq<seq<CallEvent>>) {
    && AllLifecycles(lives)
    && |lives| <= |facts|
    && (lives != [] ==> exists i :: 0 <= i < |facts| && Judge(facts[i], parallel).Passing?)
  }

  // ---------------------------------------------------------------------------
  // One by one.

  // The first n calls were clear and have been handled.
  ghost predicate Handled(os: seq<Outcome>, calls: seq<ToolCall>, facts: seq<CallFacts>, lives: seq<seq<CallEvent>>, n: nat)
    requires |facts| == |calls| && n <= |calls|
  {
    var handled :=
      && |os| == n
      && (forall i {:trigger os[i]} | 0 <= i < n ::
            OutcomeOk(os[i], calls[i], facts[i], false) && os[i].stopReason == "" && Clear(calls[i], facts[i], false))
      && AllLifecycles(lives)
      && |lives| == PassingOf(facts[..n], false) <= CountedOf(os)
      && |lives| <= n;
    handled
  }

  lemma HandleNext(os: seq<Outcome>, calls: seq<ToolCall>, facts: seq<CallFacts>, lives: seq<seq<CallEvent>>, n: nat,
                   o: Outcome, more: seq<seq<CallEvent>>)
    requires |facts| == |calls| && n < |calls| && Handled(os, calls, facts, lives, n)
    requires OutcomeOk(o, calls[n], facts[n], false) && Clear(calls[n], facts[n], false)
    requires if Judge(facts[n], false).Passing? then |more| == 1 && Lifecycle(more[0]) else more == []
    ensures Handled(os + [o], calls, facts, lives + more, n + 1)
  {
    CountedAppend(os, o);
    PassingNext(facts, false, n);
    var all := os + [o];
    forall i {:trigger all[i]} | 0 <= i < n + 1
      ensures OutcomeOk(all[i], calls[i], facts[i], false) && all[i].stopReason == "" && Clear(calls[i], facts[i], false)
    {
      if i < n {
        assert all[i] == os[i];
        assert OutcomeOk(os[i], calls[i], facts[i], false);
      }
    }
    MoreLives(lives, more);
  }

  lemma HandledIsDone(os: seq<Outcome>, calls: seq<ToolCall>, facts: seq<CallFacts>, lives: seq<seq<CallEvent>>)
    requires |facts| == |calls| && Handled(os, calls, facts, lives, |calls|)
    ensures BatchDone(BatchResult(os, ""), calls, facts, false, lives)
  {
    assert facts[..|facts|] == facts;
    forall i | 0 <= i < |calls|
      ensures AnswersCall(os[i], calls[i])
    {
      assert OutcomeOk(os[i], calls[i], facts[i], false);
    }
  }

  lemma {:induction false} SomePasses(facts: seq<CallFacts>, parallel: bool, n: nat)
    requires n <= |facts| && PassingOf(facts[..n], parallel) > 0
    ensures exists i :: 0 <= i < |facts| && Judge(facts[i], parallel).Passing?
    decreases n
  {
    if n > 0 {
      PassingNext(facts, parallel, n - 1);
      if !Judge(facts[n - 1], parallel).Passing? {
        SomePasses(facts, parallel, n - 1);
      }
    }
  }

  lemma HandledIsBounded(os: seq<Outcome>, calls: seq<ToolCall>, facts: seq<CallFacts>, lives: seq<seq<CallEvent>>, n: nat)
    requires |facts| == |calls| && n <= |calls| && Handled(os, calls, facts, lives, n)
    ensures BatchBounded(facts, false, lives)
  {
    if lives != [] {
      SomePasses(facts, false, n);
    }
  }

  // A failing call may have lived as well.
  lemma FailedIsBounded(os: seq<Outcome>, calls: seq<ToolCall>, facts: seq<CallFacts>, lives: seq<seq<CallEvent>>, n: nat,
                        more: seq<seq<CallEvent>>)
    requires |facts| == |calls| && n < |calls| && Handled(os, calls, facts, lives, n)
    requires if Judge(facts[n], false).Passing? then |more| == 1 && Lifecycle(more[0]) else more == []
    ensures BatchBounded(facts, false, lives + more)
  {
    HandledIsBounded(os, calls, facts, lives, n);
    MoreLives(lives, more);
    if more == [] {
      assert lives + more == lives;
    }
  }

  // Why a sequential batch fails: the first call that is not clear fails, or
  // stops the run where a later call cannot be answered.
  ghost predicate FailsAt(calls: seq<ToolCall>, facts: seq<CallFacts>, error: Fault, k: nat)
    requires |facts| == |calls|
  {
    && k < |calls|
    && (forall j | 0 <= j < k :: Clear(calls[j], facts[j], false))
    && (FaultAt(calls[k], facts[k], false) == Some(error)
        || (StopsRun(facts[k], false) && AnyBlank(calls[k + 1..]) && error == BLANK_IDENTIFIER))
  }

  lemma ClearBefore(os: seq<Outcome>, calls: seq<ToolCall>, facts: seq<CallFacts>, lives: seq<seq<CallEvent>>, n: nat)
    requires |facts| == |calls| && n <= |calls| && Handled(os, calls, facts, lives, n)
    ensures forall j | 0 <= j < n :: Clear(calls[j], facts[j], false)
  {
    forall j | 0 <= j < n
      ensures Clear(calls[j], facts[j], false)
    {
      assert OutcomeOk(os[j], calls[j], facts[j], false);
    }
  }

  /** Runs the calls in source order. A stop request ends the batch at that call;
      every later call is refused without running. */
  method ExecuteSequential(calls: seq<ToolCall>, facts: seq<CallFacts>)
    returns (r: Result<BatchResult, Fault>, ghost lives: seq<seq<CallEvent>>)
    requires |facts| == |calls|
    ensures BatchBounded(facts, false, lives)
    ensures r.Success? ==> BatchDone(r.value, calls, facts, false, lives)
    ensures r.Failure? ==> exists k :: FailsAt(calls, facts, r.error, k)
    ensures r.Success? && r.value.stopReason == "" ==> forall j | 0 <= j < |calls| :: Clear(calls[j], facts[j], false)
    ensures r.Success? && r.value.stopReason == "" ==>
              |r.value.outcomes| == |calls| && forall i {:trigger r.value.outcomes[i]} | 0 <= i < |calls| ::
                if facts[i].known && facts[i].validArguments && facts[i].hook.Answer? && !facts[i].hook.decision.block
                then Reports(r.value.outcomes[i], calls[i], facts[i].work)
                else RefusalOf(r.value.outcomes[i], calls[i])
  {
    var outcomes: seq<Outcome> := [];
    lives := [];
    var i := 0;
    assert facts[..0] == [];
    while i < |calls|
      invariant i <= |calls| && Handled(outcomes, calls, facts, lives, i)
    {
      HandledIsBounded(outcomes, calls, facts, lives, i);
      ClearBefore(outcomes, calls, facts, lives, i);
      var verdict := PrepareToolCall(calls[i], facts[i], false);
      if verdict.Failure? {
        assert FailsAt(calls, facts, verdict.error, i);
        return Failure(verdict.error), lives;
      }
      if verdict.value.Immediate? && verdict.value.outcome.stopReason != "" {
        r := StopSequential(calls, facts, i, outcomes, verdict.value.outcome, lives);
        return;
      }
      var next, more := HandleCall(calls[i], facts[i], verdict.value);
      if next.Failure? {
        FailedIsBounded(outcomes, calls, facts, lives, i, more);
        assert FailsAt(calls, facts, next.error, i);
        return Failure(next.error), lives + more;
      }
      HandleNext(outcomes, calls, facts, lives, i, next.value, more);
      outcomes, lives, i := outcomes + [next.value], lives + more, i + 1;
    }
    HandledIsBounded(outcomes, calls, facts, lives, |calls|);
    HandledIsDone(outcomes, calls, facts, lives);
    ClearBefore(outcomes, calls, facts, lives, |calls|);
    OutcomesTell(outcomes, calls, facts, false);
    r := Success(BatchResult(outcomes, ""));
  }

  // A call that was judged: its refusal, or its execution.
  method HandleCall(call: ToolCall, f: CallFacts, v: Verdict) returns (r: Result<Outcome, Fault>, ghost more: seq<seq<CallEvent>>)
    requires Follows(Success(v), call, f, false)
    requires v.Immediate? ==> v.outcome.stopReason == ""
    ensures if Judge(f, false).Passing? then |more| == 1 && Lifecycle(more[0]) else more == []
    ensures r.Failure? ==> FaultAt(call, f, false) == Some(r.error)
    ensures r.Success? ==> OutcomeOk(r.value, call, f, false) && Clear(call, f, false)
  {
    match v
    case Immediate(outcome) =>
      return Success(outcome), [];
    case Ready(_) =>
      var outcome, events := ExecuteStartedToolCall(call, f.work);
      return outcome, [events];
  }

  method StopSequential(calls: seq<ToolCall>, facts: seq<CallFacts>, at: nat, outcomes: seq<Outcome>, o: Outcome,
                        ghost lives: seq<seq<CallEvent>>) returns (r: Result<BatchResult, Fault>)
    requires |facts| == |calls| && at < |calls| && Handled(outcomes, calls, facts, lives, at)
    requires Follows(Success(Immediate(o)), calls[at], facts[at], false) && o.stopReason != ""
    ensures r.Success? ==> BatchDone(r.value, calls, facts, false, lives) && r.value.stopReason != ""
    ensures r.Failure? ==> exists k :: FailsAt(calls, facts, r.error, k)
  {
    ClearBefore(outcomes, calls, facts, lives, at);
    var rest := FailToolCalls(calls[at + 1..], "a tool hook requested run stop");
    if rest.Failure? {
      assert FailsAt(calls, facts, rest.error, at);
      return Failure(rest.error);
    }
    HandledStops(outcomes, calls, facts, lives, at);
    var b := BatchResult(outcomes + [o] + rest.value, o.stopReason);
    StopBatch(outcomes, calls, facts, false, lives, at, o, rest.value, b);
    r := Success(b);
  }

  lemma HandledStops(os: seq<Outcome>, calls: seq<ToolCall>, facts: seq<CallFacts>, lives: seq<seq<CallEvent>>, n: nat)
    requires |facts| == |calls| && n <= |calls| && Handled(os, calls, facts, lives, n)
    ensures |os| == n && AllStopped(os, calls, facts, false, n) && AllLifecycles(lives) && |lives| <= CountedOf(os)
    ensures |lives| == PassingOf(facts[..n], false)
  {
    forall i {:trigger os[i]} | 0 <= i < n
      ensures StoppedOk(os[i], calls[i], facts[i], false)
    {
      assert OutcomeOk(os[i], calls[i], facts[i], false) && Clear(calls[i], facts[i], false);
    }
  }

  lemma StoppedAnswers(o: Outcome, call: ToolCall, f: CallFacts, parallel: bool)
    requires StoppedOk(o, call, f, parallel)
    ensures AnswersCall(o, call)
  {
  }

  lemma StopCounts(os: seq<Outcome>, o: Outcome, rest: seq<Outcome>)
    ensures CountedOf(os) <= CountedOf(os + [o] + rest)
  {
    CountedConcat(os + [o], rest);
    CountedAppend(os, o);
  }

  lemma StopEarlier(os: seq<Outcome>, all: seq<Outcome>, calls: seq<ToolCall>, facts: seq<CallFacts>, parallel: bool, at: nat)
    requires at <= |calls| == |facts| && |os| == at && os <= all
    requires AllStopped(os, calls, facts, parallel, at)
    ensures AllStopped(all, calls, facts, parallel, at)
    ensures forall i | 0 <= i < at :: AnswersCall(all[i], calls[i])
  {
    forall i | 0 <= i < at
      ensures StoppedOk(all[i], calls[i], facts[i], parallel) && AnswersCall(all[i], calls[i])
    {
      assert all[i] == os[i];
      StoppedAnswers(os[i], calls[i], facts[i], parallel);
    }
  }

  lemma StopLater(front: seq<Outcome>, rest: seq<Outcome>, all: seq<Outcome>, calls: seq<ToolCall>)
    requires |front| <= |calls| && all == front + rest && AllRefused(rest, calls[|front|..])
    ensures forall i | |front| <= i < |calls| :: Refusal(all[i], calls[i], "", false)
  {
    forall i | |front| <= i < |calls|
      ensures Refusal(all[i], calls[i], "", false)
    {
      assert all[i] == rest[i - |front|] && calls[i] == calls[|front|..][i - |front|];
    }
  }

  lemma StopAnswers(all: seq<Outcome>, calls: seq<ToolCall>, at: nat)
    requires |all| == |calls| && at < |calls|
    requires forall i | 0 <= i < at :: AnswersCall(all[i], calls[i])
    requires Refusal(all[at], calls[at], all[at].stopReason, false)
    requires forall i | at < i < |calls| :: Refusal(all[i], calls[i], "", false)
    ensures AllAnswered(all, calls)
  {
  }

  lemma StopBatch(os: seq<Outcome>, calls: seq<ToolCall>, facts: seq<CallFacts>, parallel: bool, lives: seq<seq<CallEvent>>,
                  at: nat, o: Outcome, rest: seq<Outcome>, b: BatchResult)
    requires |facts| == |calls| && at < |calls| && |os| == at
    requires AllStopped(os, calls, facts, parallel, at)
    requires AllLifecycles(lives) && |lives| <= CountedOf(os) && |lives| == if parallel then 0 else PassingOf(facts[..at], false)
    requires StopsRun(facts[at], parallel) && Refusal(o, calls[at], o.stopReason, false) && o.stopReason == Judge(facts[at], parallel).stopReason
    requires AllRefused(rest, calls[at + 1..])
    requires b == BatchResult(os + [o] + rest, o.stopReason)
    ensures BatchDone(b, calls, facts, parallel, lives)
  {
    StopCounts(os, o, rest);
    StopEarlier(os, b.outcomes, calls, facts, parallel, at);
    StopLater(os + [o], rest, b.outcomes, calls);
    assert b.outcomes[at] == o;
    assert StopsAt(b, calls, facts, parallel, |lives|, at);
    StopAnswers(b.outcomes, calls, at);
  }
}
