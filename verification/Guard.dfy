/** Budgets of one run, checked before side effects and after every turn. */
module Guard {
  import opened Messages

  // A limit of 0 or less is not set.
  datatype Budget = Budget(maxTurns: int, maxToolCalls: int, maxInputTokens: int, maxOutputTokens: int,
                           maxCost: real, noProgressLimit: int)

  datatype Usage = Usage(inputTokens: int, outputTokens: int, cost: real)

  // A stop reason of "" means none.
  datatype Decision = Decision(block: bool, stopReason: string)

  const STOP_TURNS := "max_turns"
  const STOP_TOOL_CALLS := "max_tool_calls"
  const STOP_INPUT := "input_token_budget"
  const STOP_OUTPUT := "output_token_budget"
  const STOP_COST := "cost_budget"
  const STOP_NO_PROGRESS := "no_progress"

  const ALLOW := Decision(false, "")

  function UsageReason(b: Budget, u: Usage): string {
    if b.maxInputTokens > 0 && u.inputTokens > b.maxInputTokens then STOP_INPUT
    else if b.maxOutputTokens > 0 && u.outputTokens > b.maxOutputTokens then STOP_OUTPUT
    else if b.maxCost > 0.0 && u.cost > b.maxCost then STOP_COST
    else ""
  }

  // The check before a tool runs; toolCalls counts the calls of earlier batches.
  function BeforeToolCall(b: Budget, u: Usage, toolCalls: nat, batchSize: nat): Decision {
    if UsageReason(b, u) != "" then
      Decision(true, UsageReason(b, u))
    else if b.maxToolCalls > 0 && toolCalls + batchSize > b.maxToolCalls then
      Decision(true, STOP_TOOL_CALLS)
    else
      ALLOW
  }

  /** The guard never blocks without stopping the run, and one admitted call
      speaks for its whole batch: however many of its calls run, the budget
      holds. */
  lemma AdmitsWholeBatches(b: Budget, u: Usage, toolCalls: nat, batchSize: nat, executed: nat)
    ensures BeforeToolCall(b, u, toolCalls, batchSize).block <==> BeforeToolCall(b, u, toolCalls, batchSize).stopReason != ""
    ensures BeforeToolCall(b, u, toolCalls, batchSize) == ALLOW && executed <= batchSize && b.maxToolCalls > 0 ==>
              toolCalls + executed <= b.maxToolCalls
  {
  }

  /** A call is blocked exactly when a limit of the usage is exceeded or its whole
      batch would exceed the limit of calls, with the reason of the first limit. */
  lemma BlocksIff(b: Budget, u: Usage, toolCalls: nat, batchSize: nat)
    ensures var d := BeforeToolCall(b, u, toolCalls, batchSize);
            && (d.block <==>
                  || 0 < b.maxInputTokens < u.inputTokens || 0 < b.maxOutputTokens < u.outputTokens
                  || 0.0 < b.maxCost < u.cost || 0 < b.maxToolCalls < toolCalls + batchSize)
            && (0 < b.maxInputTokens < u.inputTokens ==> d.stopReason == "input_token_budget")
            && (!(0 < b.maxInputTokens < u.inputTokens) && 0 < b.maxOutputTokens < u.outputTokens ==>
                  d.stopReason == "output_token_budget")
            && (!(0 < b.maxInputTokens < u.inputTokens) && !(0 < b.maxOutputTokens < u.outputTokens) && 0.0 < b.maxCost < u.cost ==>
                  d.stopReason == "cost_budget")
            && (!(0 < b.maxInputTokens < u.inputTokens) && !(0 < b.maxOutputTokens < u.outputTokens) && !(0.0 < b.maxCost < u.cost) ==>
                  d.stopReason == if 0 < b.maxToolCalls < toolCalls + batchSize then "max_tool_calls" else "")
  {
  }

  // ---------------------------------------------------------------------------
  // Repeated tool turns.

  // Canonical JSON of tool arguments, if they parse, and the digest of a text.
  datatype Fingerprints = Fingerprints(canonical: string -> Option<string>, digest: string -> string)

  // How many results end the messages.
  function TrailingResults(ms: seq<Message>): (n: nat)
    ensures n <= |ms|
    ensures forall i | |ms| - n <= i < |ms| :: ms[i].ToolResult?
    ensures n < |ms| ==> !ms[|ms| - n - 1].ToolResult?
  {
    if ms == [] || !ms[|ms| - 1].ToolResult? then 0 else 1 + TrailingResults(ms[..|ms| - 1])
  }

  // The messages end in a tool turn that starts at `start`: an assistant message
  // and one result for each of its calls.
  predicate EndsInTurn(ms: seq<Message>, start: nat) {
    && start < |ms|
    && ms[start].Assistant?
    && ms[start].calls != []
    && |ms| - start - 1 == |ms[start].calls|
    && forall i | start < i < |ms| :: ms[i].ToolResult?
  }

  lemma TurnStartIsUnique(ms: seq<Message>, a: nat, b: nat)
    requires EndsInTurn(ms, a) && EndsInTurn(ms, b)
    ensures a == b
  {
  }

  // What one call and its result contribute to that text.
  function CallText(name: string, arguments: string, isError: bool, text: string): string {
    ("call:" + name) + (":" + arguments) + ("\nresult:" + (if isError then "error:" else "ok:")) + (text + "\n")
  }

  // The text a turn is recognized by; None when arguments do not parse.
  function TurnText(f: Fingerprints, calls: seq<ToolCall>, results: seq<Message>): Option<string>
    requires |calls| == |results|
    requires forall i | 0 <= i < |results| :: results[i].ToolResult?
  {
    if calls == [] then
      Some("")
    else
      var n := |calls| - 1;
      var before := TurnText(f, calls[..n], results[..n]);
      var arguments := f.canonical(calls[n].arguments);
      if before.None? || arguments.None? then
        None
      else
        Some(before.value + CallText(calls[n].name, arguments.value, results[n].isError, results[n].text))
  }

  // Call i and its result are the same in both turns, as far as it can be told.
  ghost predicate SameAt(f: Fingerprints, calls: seq<ToolCall>, results: seq<Message>, others: seq<ToolCall>, rest: seq<Message>, i: nat)
    requires i < |calls| == |results| == |others| == |rest| && results[i].ToolResult? && rest[i].ToolResult?
  {
    && calls[i].name == others[i].name && f.canonical(calls[i].arguments) == f.canonical(others[i].arguments)
    && results[i].isError == rest[i].isError && results[i].text == rest[i].text
  }

  // They differ in exactly one of the four things.
  ghost predicate OneDiffersAt(f: Fingerprints, calls: seq<ToolCall>, results: seq<Message>, others: seq<ToolCall>, rest: seq<Message>, i: nat)
    requires i < |calls| == |results| == |others| == |rest| && results[i].ToolResult? && rest[i].ToolResult?
  {
    var name, arguments := calls[i].name == others[i].name, f.canonical(calls[i].arguments) == f.canonical(others[i].arguments);
    var flag, text := results[i].isError == rest[i].isError, results[i].text == rest[i].text;
    || (!name && arguments && flag && text)
    || (name && !arguments && flag && text)
    || (name && arguments && !flag && text)
    || (name && arguments && flag && !text)
  }

  // What one call adds to the text, between two things that stay the same.
  lemma SameMiddle(p: string, a: string, b: string, q: string)
    requires p + a + q == p + b + q
    ensures a == b
  {
    assert a == (p + a + q)[|p|..|p| + |a|] && b == (p + b + q)[|p|..|p| + |b|];
  }

  lemma SamePrefix(p: string, a: string, b: string)
    requires p + a == p + b
    ensures a == b
  {
    assert a == (p + a)[|p|..] && b == (p + b)[|p|..];
  }

  // Any change of one of the four things changes the text.
  lemma CallTextTells(name: string, arguments: string, flag: bool, text: string, other: string)
    ensures name != other ==> CallText(name, arguments, flag, text) != CallText(other, arguments, flag, text)
    ensures arguments != other ==> CallText(name, arguments, flag, text) != CallText(name, other, flag, text)
    ensures text != other ==> CallText(name, arguments, flag, text) != CallText(name, arguments, flag, other)
    ensures CallText(name, arguments, true, text) != CallText(name, arguments, false, text)
  {
    var mark := "\nresult:" + (if flag then "error:" else "ok:");
    Regroup("call:" + name, ":" + arguments, mark, text + "\n");
    Regroup("call:" + other, ":" + arguments, mark, text + "\n");
    Regroup("call:" + name, ":" + other, mark, text + "\n");
    if CallText(name, arguments, flag, text) == CallText(other, arguments, flag, text) {
      NameTells(name, other, (":" + arguments) + mark + (text + "\n"));
    }
    if CallText(name, arguments, flag, text) == CallText(name, other, flag, text) {
      ArgumentsTell("call:" + name, arguments, other, mark + (text + "\n"));
    }
    if CallText(name, arguments, flag, text) == CallText(name, arguments, flag, other) {
      TextTells(("call:" + name) + (":" + arguments) + mark, text, other);
    }
    assert |CallText(name, arguments, true, text)| == |CallText(name, arguments, false, text)| + 3;
  }

  lemma Regroup(a: string, b: string, c: string, d: string)
    ensures a + b + c + d == a + (b + c + d) && a + b + c + d == a + b + (c + d)
  {
  }

  lemma NameTells(name: string, other: string, rest: string)
    requires ("call:" + name) + rest == ("call:" + other) + rest
    ensures name == other
  {
    SameMiddle("call:", name, other, rest);
  }

  lemma ArgumentsTell(front: string, arguments: string, other: string, rest: string)
    requires front + (":" + arguments) + rest == front + (":" + other) + rest
    ensures arguments == other
  {
    SameMiddle(front, ":" + arguments, ":" + other, rest);
    SamePrefix(":", arguments, other);
  }

  lemma TextTells(front: string, text: string, other: string)
    requires front + (text + "\n") == front + (other + "\n")
    ensures text == other
  {
    SamePrefix(front, text + "\n", other + "\n");
    assert text == (text + "\n")[..|text + "\n"| - 1] && other == (other + "\n")[..|other + "\n"| - 1];
  }

  /** Turns with the same calls and results have the same text; a change of one name,
      of one call's canonical arguments, of one result's text or of its error flag
      changes it. */
  lemma {:induction false} TurnTextTells(f: Fingerprints, calls: seq<ToolCall>, results: seq<Message>,
                                         others: seq<ToolCall>, rest: seq<Message>, at: nat)
    requires |calls| == |results| == |others| == |rest| && at <= |calls|
    requires forall i | 0 <= i < |results| :: results[i].ToolResult? && rest[i].ToolResult?
    requires forall i | 0 <= i < |calls| && i != at :: SameAt(f, calls, results, others, rest, i)
    requires at < |calls| ==> OneDiffersAt(f, calls, results, others, rest, at)
    requires TurnText(f, calls, results).Some? && TurnText(f, others, rest).Some?
    ensures TurnText(f, calls, results) == TurnText(f, others, rest) <==> at == |calls|
    decreases |calls|
  {
    if calls != [] {
      var n := |calls| - 1;
      var front, back := TurnText(f, calls[..n], results[..n]).value, TurnText(f, others[..n], rest[..n]).value;
      forall i | 0 <= i < n && i != at
        ensures SameAt(f, calls[..n], results[..n], others[..n], rest[..n], i)
      {
        assert SameAt(f, calls, results, others, rest, i);
      }
      if at < n {
        assert OneDiffersAt(f, calls[..n], results[..n], others[..n], rest[..n], at);
      }
      TurnTextTells(f, calls[..n], results[..n], others[..n], rest[..n], if at < n then at else n);
      LastTells(f, calls[n], results[n], others[n], rest[n], front, back);
      assert n != at ==> SameAt(f, calls, results, others, rest, n);
    }
  }

  lemma LastTells(f: Fingerprints, c: ToolCall, m: Message, d: ToolCall, o: Message, front: string, back: string)
    requires m.ToolResult? && o.ToolResult? && f.canonical(c.arguments).Some? && f.canonical(d.arguments).Some?
    ensures var a := front + CallText(c.name, f.canonical(c.arguments).value, m.isError, m.text);
            var b := back + CallText(d.name, f.canonical(d.arguments).value, o.isError, o.text);
            && (SameAt(f, [c], [m], [d], [o], 0) ==> (a == b <==> front == back))
            && (OneDiffersAt(f, [c], [m], [d], [o], 0) && front == back ==> a != b)
  {
    var x, y := f.canonical(c.arguments).value, f.canonical(d.arguments).value;
    var p, q := CallText(c.name, x, m.isError, m.text), CallText(d.name, y, o.isError, o.text);
    if SameAt(f, [c], [m], [d], [o], 0) && front + p == back + q {
      assert front == (front + p)[..|front + p| - |p|] && back == (back + q)[..|back + q| - |q|];
    }
    if OneDiffersAt(f, [c], [m], [d], [o], 0) && front == back {
      CallTextTells(c.name, x, m.isError, m.text, d.name);
      CallTextTells(c.name, x, m.isError, m.text, y);
      CallTextTells(c.name, x, m.isError, m.text, o.text);
      if front + p == front + q {
        SamePrefix(front, p, q);
      }
    }
  }

  function FingerprintOf(f: Fingerprints, calls: seq<ToolCall>, results: seq<Message>): Option<string>
    requires |calls| == |results|
    requires forall i | 0 <= i < |results| :: results[i].ToolResult?
  {
    match TurnText(f, calls, results)
    case Some(text) => Some(f.digest(text))
    case None => None
  }

  /** With a digest that tells texts apart, fingerprints are equal exactly when the
      texts are. */
  lemma FingerprintTells(f: Fingerprints, calls: seq<ToolCall>, results: seq<Message>, others: seq<ToolCall>, rest: seq<Message>)
    requires |calls| == |results| && |others| == |rest|
    requires forall i | 0 <= i < |results| :: results[i].ToolResult?
    requires forall i | 0 <= i < |rest| :: rest[i].ToolResult?
    requires forall a, b | a != b :: f.digest(a) != f.digest(b)
    ensures FingerprintOf(f, calls, results) == FingerprintOf(f, others, rest) <==> TurnText(f, calls, results) == TurnText(f, others, rest)
  {
  }

  function TurnFingerprint(f: Fingerprints, ms: seq<Message>, start: nat): Option<string>
    requires EndsInTurn(ms, start)
  {
    FingerprintOf(f, ms[start].calls, ms[start + 1..])
  }

  // A tool turn with this fingerprint stands between the two positions.
  ghost predicate TurnIs(f: Fingerprints, ms: seq<Message>, start: nat, next: nat, mark: string) {
    var ok := next <= |ms| && EndsInTurn(ms[..next], start) && TurnFingerprint(f, ms[..next], start) == Some(mark);
    ok
  }

  // The last k tool turns, from position `cut` on, all have this fingerprint.
  ghost predicate RepeatsFrom(f: Fingerprints, ms: seq<Message>, cut: nat, k: nat, mark: string)
    decreases k
  {
    cut <= |ms|
    && if k == 0 then
      cut == |ms|
    else
      exists next: nat :: TurnIs(f, ms, cut, next, mark) && RepeatsFrom(f, ms, next, k - 1, mark)
  }

  // No further turn with this fingerprint (with any, when none was seen) ends at
  // `cut`.
  ghost predicate NoTurnBefore(f: Fingerprints, ms: seq<Message>, cut: nat, k: nat, mark: string)
    requires cut <= |ms|
  {
    forall start: nat | EndsInTurn(ms[..cut], start) ::
      k > 0 && TurnFingerprint(f, ms[..cut], start).Some? && TurnFingerprint(f, ms[..cut], start).value != mark
  }

  // In-place reversal of the results collected from the end.
  method ReverseResults(rs: seq<Message>) returns (out: seq<Message>)
    ensures |out| == |rs| && forall i | 0 <= i < |rs| :: out[i] == rs[|rs| - 1 - i]
  {
    out := rs;
    var i, j := 0, |rs| - 1;
    while i < j
      invariant 0 <= i && j == |rs| - 1 - i && i <= j + 1 && |out| == |rs|
      invariant forall k | 0 <= k < i :: out[k] == rs[|rs| - 1 - k]
      invariant forall k | j < k < |rs| :: out[k] == rs[|rs| - 1 - k]
      invariant forall k | i <= k <= j :: out[k] == rs[k]
    {
      out := out[i := out[j]][j := out[i]];
      i, j := i + 1, j - 1;
    }
  }

  // The results that end the first n messages, in order.
  method CollectResults(ms: seq<Message>, n: nat) returns (results: seq<Message>, index: nat)
    requires n <= |ms|
    ensures index <= n && results == ms[index..n]
    ensures forall i | index <= i < n :: ms[i].ToolResult?
    ensures index > 0 ==> !ms[index - 1].ToolResult?
  {
    var collected: seq<Message> := [];
    index := n;
    while index > 0 && ms[index - 1].ToolResult?
      invariant index <= n && |collected| == n - index
      invariant forall i | 0 <= i < |collected| :: collected[i] == ms[n - 1 - i]
      invariant forall i | index <= i < n :: ms[i].ToolResult?
    {
      collected := collected + [ms[index - 1]];
      index := index - 1;
    }
    results := ReverseResults(collected);
    assert results == ms[index..n];
  }

  lemma EndsInTurnIff(ms: seq<Message>, n: nat)
    requires n <= |ms|
    ensures forall s: nat ::
              EndsInTurn(ms[..n], s) <==>
              s < n && ms[s].Assistant? && ms[s].calls != [] && |ms[s].calls| == n - s - 1 && forall i | s < i < n :: ms[i].ToolResult?
  {
  }

  // The tool turn that ends at position n, if one does, and its fingerprint.
  method TurnBefore(f: Fingerprints, ms: seq<Message>, n: nat) returns (start: Option<nat>, mark: Option<string>)
    requires n <= |ms|
    ensures start.Some? ==> EndsInTurn(ms[..n], start.value) && mark == TurnFingerprint(f, ms[..n], start.value)
    ensures start.None? ==> forall s: nat :: !EndsInTurn(ms[..n], s)
    ensures (exists s: nat :: s < n && ms[s].Assistant? && ms[s].calls != [] && |ms[s].calls| == n - s - 1
                              && forall i | s < i < n :: ms[i].ToolResult?) <==> start.Some?
    ensures start.Some? ==>
              && start.value < n && ms[start.value].Assistant? && |ms[start.value].calls| == n - start.value - 1 > 0
              && forall i | start.value < i < n :: ms[i].ToolResult?
  {
    EndsInTurnIff(ms, n);
    start, mark := None, None;
    var results, index := CollectResults(ms, n);
    if results == [] || index == 0 || !ms[index - 1].Assistant? {
      return;
    }
    var calls := ms[index - 1].calls;
    if calls == [] || |calls| != |results| {
      return;
    }
    start := Some(index - 1);
    assert EndsInTurn(ms[..n], index - 1);
    assert ms[..n][index..] == results;
    mark := FingerprintOf(f, calls, results);
  }

  /** Counts how often, at the end of the messages, the same calls gave the same
      results: exactly the longest such repetition, up to the limit. */
  method ConsecutiveRepeatedToolTurns(f: Fingerprints, ms: seq<Message>, limit: nat)
    returns (count: Option<nat>, ghost cut: nat, ghost k: nat, ghost mark: string)
    ensures count.Some? ==> forall j: nat | j <= limit :: NoProgress(f, ms, j) <==> j <= count.value
    ensures count.None? <==> Incomparable(f, ms, limit)
    ensures count.None? ==> !NoProgress(f, ms, limit)
    ensures k <= limit && RepeatsFrom(f, ms, cut, k, mark)
    ensures count.Some? ==> count.value == k && (k < limit ==> NoTurnBefore(f, ms, cut, k, mark))
    ensures count.None? ==> k < limit && exists start: nat :: EndsInTurn(ms[..cut], start) && TurnFingerprint(f, ms[..cut], start).None?
  {
    var index, n, last := |ms|, 0, "";
    cut, k, mark := |ms|, 0, "";
    var going := true;
    while going && index > 0 && n < limit
      invariant cut == index <= |ms| && k == n <= limit && mark == last
      invariant RepeatsFrom(f, ms, cut, k, mark)
      invariant !going ==> NoTurnBefore(f, ms, cut, k, mark)
      decreases going, index
    {
      var start, found := TurnBefore(f, ms, index);
      if start.None? {
        going := false;
      } else if found.None? {
        ShortRepetition(f, ms, cut, k, mark, limit);
        assert Unparsed(f, ms, limit, cut, k, mark, start.value);
        return None, cut, k, mark;
      } else if n > 0 && found.value != last {
        OneTurn(f, ms, index, start.value, n, last);
        going := false;
      } else {
        last, n, index := found.value, n + 1, start.value;
        assert TurnIs(f, ms, index, cut, last);
        FirstMark(f, ms, cut, k, mark, last);
        cut, k, mark := index, n, last;
      }
    }
    count := Some(n);
    CountedIsComparable(f, ms, cut, k, mark, limit);
    forall j: nat | j <= limit
      ensures NoProgress(f, ms, j) <==> j <= k
    {
      if j < k {
        var at, start := RepeatsFewer(f, ms, cut, k, mark, j);
      } else if j > k {
        ShortRepetition(f, ms, cut, k, mark, j);
      }
    }
  }

  lemma OneTurn(f: Fingerprints, ms: seq<Message>, cut: nat, start: nat, k: nat, mark: string)
    requires cut <= |ms| && EndsInTurn(ms[..cut], start) && k > 0
    requires TurnFingerprint(f, ms[..cut], start).Some? && TurnFingerprint(f, ms[..cut], start).value != mark
    ensures NoTurnBefore(f, ms, cut, k, mark)
  {
    forall s: nat | EndsInTurn(ms[..cut], s)
      ensures s == start
    {
      TurnStartIsUnique(ms[..cut], s, start);
    }
  }

  // Nothing repeated yet is nothing repeated for any fingerprint.
  lemma FirstMark(f: Fingerprints, ms: seq<Message>, cut: nat, k: nat, was: string, now: string)
    requires RepeatsFrom(f, ms, cut, k, was) && (k == 0 || was == now)
    ensures RepeatsFrom(f, ms, cut, k, now)
  {
  }

  lemma TurnIsUnique(f: Fingerprints, ms: seq<Message>, a: nat, b: nat, next: nat, m: string, n: string)
    requires TurnIs(f, ms, a, next, m) && TurnIs(f, ms, b, next, n)
    ensures a == b && m == n
  {
    TurnStartIsUnique(ms[..next], a, b);
  }

  lemma NextTurn(f: Fingerprints, ms: seq<Message>, cut: nat, k: nat, mark: string) returns (next: nat)
    requires RepeatsFrom(f, ms, cut, k, mark) && k > 0
    ensures TurnIs(f, ms, cut, next, mark) && RepeatsFrom(f, ms, next, k - 1, mark)
  {
    next :| TurnIs(f, ms, cut, next, mark) && RepeatsFrom(f, ms, next, k - 1, mark);
  }

  // The k turns that end the messages are the same for every way to see them.
  lemma {:induction false} RepeatsFromIsUnique(f: Fingerprints, ms: seq<Message>, a: nat, b: nat, k: nat, m: string, n: string)
    requires RepeatsFrom(f, ms, a, k, m) && RepeatsFrom(f, ms, b, k, n)
    ensures a == b && (k > 0 ==> m == n)
    decreases k
  {
    if k > 0 {
      var x := NextTurn(f, ms, a, k, m);
      var y := NextTurn(f, ms, b, k, n);
      RepeatsFromIsUnique(f, ms, x, y, k - 1, m, n);
      TurnIsUnique(f, ms, a, b, x, m, n);
    }
  }

  // A longer repetition contains every shorter one, and one more turn before it.
  lemma {:induction false} RepeatsFewer(f: Fingerprints, ms: seq<Message>, cut: nat, limit: nat, mark: string, k: nat) returns (at: nat, start: nat)
    requires RepeatsFrom(f, ms, cut, limit, mark) && k < limit
    ensures RepeatsFrom(f, ms, at, k, mark) && TurnIs(f, ms, start, at, mark)
    decreases limit
  {
    var next: nat :| TurnIs(f, ms, cut, next, mark) && RepeatsFrom(f, ms, next, limit - 1, mark);
    if k == limit - 1 {
      at, start := next, cut;
    } else {
      at, start := RepeatsFewer(f, ms, next, limit - 1, mark, k);
    }
  }

  /** The last `limit` tool turns made the same calls and got the same results. */
  ghost predicate NoProgress(f: Fingerprints, ms: seq<Message>, limit: nat) {
    exists cut: nat, mark: string :: RepeatsFrom(f, ms, cut, limit, mark)
  }

  // The turn before `cut` differs from the repetition, or cannot be compared.
  ghost predicate EndsThere(f: Fingerprints, ms: seq<Message>, cut: nat, k: nat, mark: string)
    requires cut <= |ms|
  {
    NoTurnBefore(f, ms, cut, k, mark)
    || exists start: nat :: EndsInTurn(ms[..cut], start) && TurnFingerprint(f, ms[..cut], start).None?
  }

  /** A repetition that ends early is not a long one. */
  lemma ShortRepetition(f: Fingerprints, ms: seq<Message>, cut: nat, k: nat, mark: string, limit: nat)
    requires RepeatsFrom(f, ms, cut, k, mark) && k < limit && EndsThere(f, ms, cut, k, mark)
    ensures !NoProgress(f, ms, limit)
  {
    if NoProgress(f, ms, limit) {
      var c: nat, m: string :| RepeatsFrom(f, ms, c, limit, m);
      var at, start := RepeatsFewer(f, ms, c, limit, m, k);
      RepeatsFromIsUnique(f, ms, at, cut, k, m, mark);
      if other: nat :| EndsInTurn(ms[..cut], other) && TurnFingerprint(f, ms[..cut], other).None? {
        TurnStartIsUnique(ms[..cut], start, other);
      }
      assert false;
    }
  }

  // Before a repetition shorter than the limit stands a tool turn whose arguments
  // do not parse.
  ghost predicate Incomparable(f: Fingerprints, ms: seq<Message>, limit: nat) {
    exists cut: nat, k: nat, mark: string, start: nat :: Unparsed(f, ms, limit, cut, k, mark, start)
  }

  ghost predicate Unparsed(f: Fingerprints, ms: seq<Message>, limit: nat, cut: nat, k: nat, mark: string, start: nat) {
    && k < limit && RepeatsFrom(f, ms, cut, k, mark)
    && EndsInTurn(ms[..cut], start) && TurnFingerprint(f, ms[..cut], start).None?
  }

  /** A count that ends with a difference, or at the limit, has met no such turn. */
  lemma CountedIsComparable(f: Fingerprints, ms: seq<Message>, cut: nat, k: nat, mark: string, limit: nat)
    requires RepeatsFrom(f, ms, cut, k, mark) && k <= limit && (k < limit ==> NoTurnBefore(f, ms, cut, k, mark))
    ensures !Incomparable(f, ms, limit)
  {
    if c: nat, j: nat, m: string, s: nat :| Unparsed(f, ms, limit, c, j, m, s) {
      if j < k {
        var at, start := RepeatsFewer(f, ms, cut, k, mark, j);
        RepeatsFromIsUnique(f, ms, at, c, j, mark, m);
        TurnStartIsUnique(ms[..c], start, s);
      } else if j == k {
        RepeatsFromIsUnique(f, ms, cut, c, k, mark, m);
      } else {
        var at, start := RepeatsFewer(f, ms, c, j, m, k);
        RepeatsFromIsUnique(f, ms, at, cut, k, m, mark);
      }
      assert false;
    }
  }

  // The reasons in their order; no progress is the last.
  function CountReason(b: Budget, u: Usage, turn: nat, toolCalls: nat): string {
    if UsageReason(b, u) != "" then UsageReason(b, u)
    else if b.maxTurns > 0 && turn >= b.maxTurns then STOP_TURNS
    else if b.maxToolCalls > 0 && toolCalls > b.maxToolCalls then STOP_TOOL_CALLS
    else ""
  }

  datatype GuardError = Cancelled | NotComparable

  /** The check after a turn: a cancelled run is not judged; then a budget is the
      first reason to stop; within all of them, no progress is, exactly when it is
      there. */
  method ShouldStopAfterTurn(b: Budget, f: Fingerprints, u: Usage, turn: nat, toolCalls: nat, ms: seq<Message>, cancelled: bool)
    returns (stop: Result<string, GuardError>)
    ensures cancelled <==> stop == Failure(Cancelled)
    ensures !cancelled ==>
              var input, output, cost := 0 < b.maxInputTokens < u.inputTokens, 0 < b.maxOutputTokens < u.outputTokens, 0.0 < b.maxCost < u.cost;
              var turns, calls := 0 < b.maxTurns <= turn, 0 < b.maxToolCalls < toolCalls;
              && (input ==> stop == Success("input_token_budget"))
              && (!input && output ==> stop == Success("output_token_budget"))
              && (!input && !output && cost ==> stop == Success("cost_budget"))
              && (!input && !output && !cost && turns ==> stop == Success("max_turns"))
              && (!input && !output && !cost && !turns && calls ==> stop == Success("max_tool_calls"))
              && (!input && !output && !cost && !turns && !calls ==>
                    stop == if b.noProgressLimit > 0 && Incomparable(f, ms, b.noProgressLimit) then Failure(NotComparable)
                            else Success(if b.noProgressLimit > 0 && NoProgress(f, ms, b.noProgressLimit) then "no_progress" else ""))
    ensures !cancelled && CountReason(b, u, turn, toolCalls) != "" ==> stop == Success(CountReason(b, u, turn, toolCalls))
    ensures !cancelled && CountReason(b, u, turn, toolCalls) == "" && b.noProgressLimit <= 0 ==> stop == Success("")
    ensures !cancelled && CountReason(b, u, turn, toolCalls) == "" && b.noProgressLimit > 0 ==>
              && (stop == Success(STOP_NO_PROGRESS) <==> NoProgress(f, ms, b.noProgressLimit))
              && (stop.Failure? <==> Incomparable(f, ms, b.noProgressLimit))
              && (stop.Failure? || stop.value == "" || stop.value == STOP_NO_PROGRESS)
  {
    if cancelled {
      return Failure(Cancelled);
    }
    if UsageReason(b, u) != "" {
      return Success(UsageReason(b, u));
    }
    if b.maxTurns > 0 && turn >= b.maxTurns {
      return Success(STOP_TURNS);
    }
    if b.maxToolCalls > 0 && toolCalls > b.maxToolCalls {
      return Success(STOP_TOOL_CALLS);
    }
    if b.noProgressLimit > 0 {
      var count, cut, k, mark := ConsecutiveRepeatedToolTurns(f, ms, b.noProgressLimit);
      if count.None? {
        return Failure(NotComparable);
      }
      if count.value >= b.noProgressLimit {
        return Success(STOP_NO_PROGRESS);
      }
    }
    stop := Success("");
  }
}
