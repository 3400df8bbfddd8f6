/** From the chunks of a chat completion stream to deltas and a final message:
    what was shown piece by piece is what the message says.

    A call is shown once its name is known; arguments that come earlier are kept
    back. */
module OpenAIStream {
  import opened Messages
  import opened ToolAssembly

  datatype Kind = ThinkingKind | TextKind | ToolKind

  datatype Part = ThinkingPart(text: string) | TextPart(text: string) | CallPart(call: ToolCall)

  datatype ToolState = ToolState(contentIndex: nat, id: string, name: string, pendingArgs: string, started: bool)

  // The index a provider gives a call; any integer will do.
  datatype WireIndex = WireIndex(value: int)

  // A piece of a tool call on the wire. Its index names the call.
  datatype WireTool = WireTool(index: WireIndex, id: string, name: string, arguments: string)

  datatype Choice = Choice(index: int, reasoningContent: string, reasoning: string, content: string, tools: seq<WireTool>,
                           finishReason: string)

  // The payload of what has arrived, in order.
  datatype Arrival = Thought(text: string) | Said(text: string) | Argued(index: WireIndex, text: string)

  function Fragments(xs: seq<Arrival>, w: WireIndex): string {
    if xs == [] then ""
    else
      var a := xs[|xs| - 1];
      Fragments(xs[..|xs| - 1], w) + (if a.Argued? && a.index == w then a.text else "")
  }

  function SaidText(xs: seq<Arrival>): string {
    if xs == [] then "" else SaidText(xs[..|xs| - 1]) + (if xs[|xs| - 1].Said? then xs[|xs| - 1].text else "")
  }

  function ThoughtText(xs: seq<Arrival>): string {
    if xs == [] then "" else ThoughtText(xs[..|xs| - 1]) + (if xs[|xs| - 1].Thought? then xs[|xs| - 1].text else "")
  }

  function ShownText(ds: seq<Delta>): string {
    if ds == [] then "" else ShownText(ds[..|ds| - 1]) + (if ds[|ds| - 1].TextDelta? then ds[|ds| - 1].text else "")
  }

  function ShownThinking(ds: seq<Delta>): string {
    if ds == [] then "" else ShownThinking(ds[..|ds| - 1]) + (if ds[|ds| - 1].ThinkingDelta? then ds[|ds| - 1].text else "")
  }

  function Joined(pieces: seq<string>): string {
    if pieces == [] then "" else Joined(pieces[..|pieces| - 1]) + pieces[|pieces| - 1]
  }

  // The text of a chunk: the contents of its first candidate.
  function WireText(choices: seq<Choice>): string {
    Joined(seq(|choices|, i requires 0 <= i < |choices| => if choices[i].index == 0 then choices[i].content else ""))
  }

  // Its thinking: one field, or the other where the first is empty.
  function WireThinking(choices: seq<Choice>): string {
    Joined(seq(|choices|, i requires 0 <= i < |choices| =>
                 if choices[i].index != 0 then "" else if choices[i].reasoningContent != "" then choices[i].reasoningContent
                 else choices[i].reasoning))
  }

  // The arguments of one call among the pieces of a candidate, and in a chunk.
  function PieceArguments(pieces: seq<WireTool>, w: WireIndex): string {
    Joined(seq(|pieces|, i requires 0 <= i < |pieces| => if pieces[i].index == w then pieces[i].arguments else ""))
  }

  function WireArguments(choices: seq<Choice>, w: WireIndex): string {
    Joined(seq(|choices|, i requires 0 <= i < |choices| => if choices[i].index == 0 then PieceArguments(choices[i].tools, w) else ""))
  }

  lemma JoinedNext(pieces: seq<string>, p: string, all: seq<string>)
    requires |all| == |pieces| + 1 && all[|pieces|] == p && forall i | 0 <= i < |pieces| :: all[i] == pieces[i]
    ensures Joined(all) == Joined(pieces) + p
  {
    assert all[..|pieces|] == pieces;
  }

  lemma Arrive(xs: seq<Arrival>, a: Arrival)
    ensures SaidText(xs + [a]) == SaidText(xs) + (if a.Said? then a.text else "")
    ensures ThoughtText(xs + [a]) == ThoughtText(xs) + (if a.Thought? then a.text else "")
  {
    assert (xs + [a])[..|xs|] == xs;
  }

  lemma FragmentsNext(xs: seq<Arrival>, a: Arrival, w: WireIndex)
    ensures Fragments(xs + [a], w) == Fragments(xs, w) + (if a.Argued? && a.index == w then a.text else "")
  {
    assert (xs + [a])[..|xs|] == xs;
  }

  lemma Show(ds: seq<Delta>, d: Delta)
    ensures ShownText(ds + [d]) == ShownText(ds) + (if d.TextDelta? then d.text else "")
    ensures ShownThinking(ds + [d]) == ShownThinking(ds) + (if d.ThinkingDelta? then d.text else "")
  {
    assert (ds + [d])[..|ds|] == ds;
  }

  // ---------------------------------------------------------------------------
  // What holds between two steps.

  // A call that has not started keeps its arguments back; one that has started
  // has shown all of them.
  ghost predicate ToolOk(st: ToolState, ended: bool, kinds: seq<Kind>, shown: seq<Delta>, fragments: string) {
    var ok :=
      && st.contentIndex < |kinds| && kinds[st.contentIndex] == ToolKind
      && (if st.started then
            !IsBlank(st.id) && !IsBlank(st.name) && st.pendingArgs == ""
            && LifeOf(shown, st.contentIndex) == (if ended then Ended(st.id, st.name, fragments) else Streaming(st.id, st.name, fragments))
          else
            !ended && st.pendingArgs == fragments && LifeOf(shown, st.contentIndex) == NotStarted);
    ok
  }

  // Names a call; quantifiers over calls wait for it.
  ghost predicate Call(w: WireIndex) {
    true
  }

  ghost predicate ToolsOk(tools: map<WireIndex, ToolState>, ended: set<WireIndex>, kinds: seq<Kind>, shown: seq<Delta>, arrived: seq<Arrival>) {
    forall w {:trigger Call(w)} | Call(w) && w in tools :: ToolOk(tools[w], w in ended, kinds, shown, Fragments(arrived, w))
  }

  ghost predicate DistinctParts(tools: map<WireIndex, ToolState>) {
    forall w, v {:trigger Call(w), Call(v)} | Call(w) && Call(v) && w in tools && v in tools && w != v ::
      tools[w].contentIndex != tools[v].contentIndex
  }

  ghost predicate NothingElseArrived(tools: map<WireIndex, ToolState>, arrived: seq<Arrival>) {
    forall w {:trigger Call(w)} | Call(w) && w !in tools :: Fragments(arrived, w) == ""
  }

  ghost predicate StreamOk(tools: map<WireIndex, ToolState>, ended: set<WireIndex>, kinds: seq<Kind>, shown: seq<Delta>, arrived: seq<Arrival>) {
    var ok := ToolsOk(tools, ended, kinds, shown, arrived) && DistinctParts(tools) && NothingElseArrived(tools, arrived);
    ok
  }

  // Every content part of a call belongs to a known call.
  ghost predicate PartsKnown(tools: map<WireIndex, ToolState>, kinds: seq<Kind>) {
    forall i {:trigger kinds[i]} | 0 <= i < |kinds| && kinds[i] == ToolKind :: exists w :: w in tools && tools[w].contentIndex == i
  }

  // Only parts of calls have tool deltas.
  ghost predicate LiveParts(kinds: seq<Kind>, shown: seq<Delta>) {
    forall i: nat {:trigger At(i)} | At(i) && LifeOf(shown, i) != NotStarted :: i < |kinds| && kinds[i] == ToolKind
  }

  ghost predicate ShownWithin(shown: seq<Delta>, n: nat) {
    forall i | 0 <= i < |shown| :: shown[i].index < n
  }

  lemma {:induction false} NothingShown(shown: seq<Delta>, n: nat)
    requires ShownWithin(shown, n)
    ensures LifeOf(shown, n) == NotStarted
  {
    if shown != [] {
      NothingShown(shown[..|shown| - 1], n);
    }
  }

  // Deltas that do not belong to part i.
  ghost predicate Foreign(ds: seq<Delta>, i: nat) {
    forall k | 0 <= k < |ds| :: !IsToolDelta(ds[k]) || ds[k].index != i
  }

  lemma {:induction false} ForeignKeepsLife(shown: seq<Delta>, ds: seq<Delta>, i: nat)
    requires Foreign(ds, i)
    ensures LifeOf(shown + ds, i) == LifeOf(shown, i)
    decreases |ds|
  {
    if ds == [] {
      assert shown + ds == shown;
    } else {
      var n := |ds| - 1;
      ForeignKeepsLife(shown, ds[..n], i);
      LifeNext(shown + ds[..n], ds[n], i);
      assert shown + ds == shown + ds[..n] + [ds[n]];
    }
  }

  // A call that what is shown and what arrives does not concern.
  lemma ToolUntouched(st: ToolState, ended: bool, kinds: seq<Kind>, more: seq<Kind>, shown: seq<Delta>, ds: seq<Delta>,
                      w: WireIndex, arrived: seq<Arrival>, a: Arrival)
    requires ToolOk(st, ended, kinds, shown, Fragments(arrived, w))
    requires Foreign(ds, st.contentIndex)
    requires !a.Argued? || a.index != w
    ensures ToolOk(st, ended, kinds + more, shown + ds, Fragments(arrived, w))
    ensures ToolOk(st, ended, kinds + more, shown + ds, Fragments(arrived + [a], w))
  {
    ForeignKeepsLife(shown, ds, st.contentIndex);
    FragmentsNext(arrived, a, w);
    assert Fragments(arrived, w) + "" == Fragments(arrived, w);
  }

  // All of these belong to one part.
  ghost predicate OfPart(ds: seq<Delta>, i: nat) {
    forall k | 0 <= k < |ds| :: ds[k].index == i
  }

  // Showing deltas of one call.
  lemma ShowOne(tools: map<WireIndex, ToolState>, ended: set<WireIndex>, kinds: seq<Kind>, shown: seq<Delta>, arrived: seq<Arrival>,
                w: WireIndex, st: ToolState, now: set<WireIndex>, ds: seq<Delta>)
    requires StreamOk(tools, ended, kinds, shown, arrived) && w in tools
    requires st.contentIndex == tools[w].contentIndex && OfPart(ds, st.contentIndex)
    requires forall v | v != w :: v in now <==> v in ended
    requires ToolOk(st, w in now, kinds, shown + ds, Fragments(arrived, w))
    ensures StreamOk(tools[w := st], now, kinds, shown + ds, arrived)
  {
    var after := tools[w := st];
    assert Call(w);
    forall v {:trigger Call(v)} | Call(v) && v in after
      ensures ToolOk(after[v], v in now, kinds, shown + ds, Fragments(arrived, v))
    {
      if v != w {
        ToolUntouched(tools[v], v in ended, kinds, [], shown, ds, v, arrived, Said(""));
        assert kinds + [] == kinds;
      }
    }
  }

  // Arguments of one call arrive.
  lemma ArriveOne(tools: map<WireIndex, ToolState>, ended: set<WireIndex>, kinds: seq<Kind>, shown: seq<Delta>, arrived: seq<Arrival>,
                  w: WireIndex, st: ToolState, ds: seq<Delta>, text: string)
    requires StreamOk(tools, ended, kinds, shown, arrived) && w in tools
    requires st.contentIndex == tools[w].contentIndex && OfPart(ds, st.contentIndex)
    requires ToolOk(st, w in ended, kinds, shown + ds, Fragments(arrived, w) + text)
    ensures StreamOk(tools[w := st], ended, kinds, shown + ds, arrived + [Argued(w, text)])
  {
    var after, a := tools[w := st], Argued(w, text);
    assert Call(w);
    assert kinds + [] == kinds;
    FragmentsNext(arrived, a, w);
    forall v {:trigger Call(v)} | Call(v) && v in tools && v != w
      ensures ToolOk(tools[v], v in ended, kinds, shown + ds, Fragments(arrived + [a], v))
    {
      ToolUntouched(tools[v], v in ended, kinds, [], shown, ds, v, arrived, a);
    }
    forall v {:trigger Call(v)} | Call(v) && v !in after
      ensures Fragments(arrived + [a], v) == ""
    {
      FragmentsNext(arrived, a, v);
    }
  }

  // A part of another kind, or one of its deltas, leaves the calls alone.
  lemma StepOther(tools: map<WireIndex, ToolState>, ended: set<WireIndex>, kinds: seq<Kind>, shown: seq<Delta>, arrived: seq<Arrival>,
                  more: seq<Kind>, d: Delta, a: Arrival)
    requires StreamOk(tools, ended, kinds, shown, arrived)
    requires !IsToolDelta(d) && !a.Argued?
    ensures StreamOk(tools, ended, kinds + more, shown + [d], arrived + [a])
  {
    forall v {:trigger Call(v)} | Call(v)
      ensures v in tools ==> ToolOk(tools[v], v in ended, kinds + more, shown + [d], Fragments(arrived + [a], v))
      ensures v !in tools ==> Fragments(arrived + [a], v) == ""
    {
      FragmentsNext(arrived, a, v);
      if v in tools {
        ToolUntouched(tools[v], v in ended, kinds, more, shown, [d], v, arrived, a);
      }
    }
  }

  // A new call gets the next content part.
  lemma StepNew(tools: map<WireIndex, ToolState>, ended: set<WireIndex>, kinds: seq<Kind>, shown: seq<Delta>, arrived: seq<Arrival>, w: WireIndex)
    requires StreamOk(tools, ended, kinds, shown, arrived) && ShownWithin(shown, |kinds|)
    requires w !in tools && w !in ended
    ensures StreamOk(tools[w := ToolState(|kinds|, "", "", "", false)], ended, kinds + [ToolKind], shown, arrived)
  {
    NothingShown(shown, |kinds|);
    assert Call(w);
  }

  lemma PartsStayKnown(tools: map<WireIndex, ToolState>, kinds: seq<Kind>, w: WireIndex, st: ToolState)
    requires PartsKnown(tools, kinds) && w in tools && st.contentIndex == tools[w].contentIndex
    ensures PartsKnown(tools[w := st], kinds)
  {
    var after := tools[w := st];
    forall i {:trigger kinds[i]} | 0 <= i < |kinds| && kinds[i] == ToolKind
      ensures exists v :: v in after && after[v].contentIndex == i
    {
      var v :| v in tools && tools[v].contentIndex == i;
      assert after[v].contentIndex == i;
    }
  }

  lemma NewPartKnown(tools: map<WireIndex, ToolState>, kinds: seq<Kind>, w: WireIndex, st: ToolState)
    requires PartsKnown(tools, kinds) && w !in tools && st.contentIndex == |kinds|
    ensures PartsKnown(tools[w := st], kinds + [ToolKind])
  {
    var after, all := tools[w := st], kinds + [ToolKind];
    forall i {:trigger all[i]} | 0 <= i < |all| && all[i] == ToolKind
      ensures exists v :: v in after && after[v].contentIndex == i
    {
      if i < |kinds| {
        assert kinds[i] == ToolKind;
        var v :| v in tools && tools[v].contentIndex == i;
        assert after[v].contentIndex == i;
      } else {
        assert after[w].contentIndex == i;
      }
    }
  }

  // ---------------------------------------------------------------------------
  // The stream.

  // Text and thinking: shown as they arrive, each in one content part.
  ghost predicate TextOk(kinds: seq<Kind>, kind: Kind, index: Option<nat>, text: string) {
    var ok :=
      && (forall i {:trigger kinds[i]} | 0 <= i < |kinds| && kinds[i] == kind :: index == Some(i))
      && (index.Some? ==> index.value < |kinds| && kinds[index.value] == kind)
      && (index.None? <==> text == "");
    ok
  }

  // The part that a piece of text goes to: the one there is, or a new one.
  predicate Allocates(kinds: seq<Kind>, kind: Kind, index: Option<nat>, more: seq<Kind>, chosen: nat) {
    if index.None? then more == [kind] && chosen == |kinds| else more == [] && Some(chosen) == index
  }

  lemma TextOkGrows(kinds: seq<Kind>, kind: Kind, index: Option<nat>, text: string, more: seq<Kind>, chosen: nat, longer: string)
    requires TextOk(kinds, kind, index, text) && Allocates(kinds, kind, index, more, chosen) && longer != ""
    ensures TextOk(kinds + more, kind, Some(chosen), longer)
  {
  }

  lemma TextOkStays(kinds: seq<Kind>, kind: Kind, index: Option<nat>, text: string, more: seq<Kind>)
    requires TextOk(kinds, kind, index, text) && (more == [] || (|more| == 1 && more[0] != kind))
    ensures TextOk(kinds + more, kind, index, text)
  {
  }

  ghost predicate TextsOk(kinds: seq<Kind>, thinkingIndex: Option<nat>, textIndex: Option<nat>, thinking: string, text: string,
                          shown: seq<Delta>, arrived: seq<Arrival>)
  {
    var ok :=
      && TextOk(kinds, ThinkingKind, thinkingIndex, thinking) && TextOk(kinds, TextKind, textIndex, text)
      && thinking == ShownThinking(shown) == ThoughtText(arrived)
      && text == ShownText(shown) == SaidText(arrived);
    ok
  }

  ghost predicate PartsOk(tools: map<WireIndex, ToolState>, ended: set<WireIndex>, kinds: seq<Kind>, shown: seq<Delta>, arrived: seq<Arrival>) {
    var ok :=
      && StreamOk(tools, ended, kinds, shown, arrived)
      && PartsKnown(tools, kinds)
      && ShownWithin(shown, |kinds|)
      && LiveParts(kinds, shown);
    ok
  }

  function Thinking(choice: Choice): string {
    if choice.reasoningContent != "" then choice.reasoningContent else choice.reasoning
  }

  function ToolArrivals(pieces: seq<WireTool>): seq<Arrival> {
    if pieces == [] then []
    else
      var p := pieces[|pieces| - 1];
      ToolArrivals(pieces[..|pieces| - 1]) + (if p.arguments == "" then [] else [Argued(p.index, p.arguments)])
  }

  function TextArrivals(choice: Choice): seq<Arrival> {
    (if Thinking(choice) == "" then [] else [Thought(Thinking(choice))])
    + (if choice.content == "" then [] else [Said(choice.content)])
  }

  // What one choice brings, in the order it is taken.
  function Arrivals(choice: Choice): seq<Arrival> {
    if choice.index != 0 then [] else TextArrivals(choice) + ToolArrivals(choice.tools)
  }

  function ChunkArrivals(choices: seq<Choice>): seq<Arrival> {
    if choices == [] then [] else ChunkArrivals(choices[..|choices| - 1]) + Arrivals(choices[|choices| - 1])
  }

  lemma LastBehind(a: seq<Arrival>, b: seq<Arrival>, n: nat)
    requires |b| == n + 1
    ensures a + b == a + b[..n] + [b[n]] && b == b[..n] + [b[n]]
  {
  }

  lemma {:induction false} SaidConcat(a: seq<Arrival>, b: seq<Arrival>)
    ensures SaidText(a + b) == SaidText(a) + SaidText(b)
    decreases |b|
  {
    if b == [] {
      assert a + b == a;
    } else {
      var n := |b| - 1;
      SaidConcat(a, b[..n]);
      LastBehind(a, b, n);
      Arrive(a + b[..n], b[n]);
      Arrive(b[..n], b[n]);
    }
  }

  lemma {:induction false} ThoughtConcat(a: seq<Arrival>, b: seq<Arrival>)
    ensures ThoughtText(a + b) == ThoughtText(a) + ThoughtText(b)
    decreases |b|
  {
    if b == [] {
      assert a + b == a;
    } else {
      var n := |b| - 1;
      ThoughtConcat(a, b[..n]);
      LastBehind(a, b, n);
      Arrive(a + b[..n], b[n]);
      Arrive(b[..n], b[n]);
    }
  }

  lemma {:induction false} FragmentsConcat(a: seq<Arrival>, b: seq<Arrival>, w: WireIndex)
    ensures Fragments(a + b, w) == Fragments(a, w) + Fragments(b, w)
    decreases |b|
  {
    if b == [] {
      assert a + b == a;
    } else {
      var n := |b| - 1;
      FragmentsConcat(a, b[..n], w);
      LastBehind(a, b, n);
      FragmentsNext(a + b[..n], b[n], w);
      FragmentsNext(b[..n], b[n], w);
    }
  }

  lemma ArrivalsConcat(a: seq<Arrival>, b: seq<Arrival>, w: WireIndex)
    ensures SaidText(a + b) == SaidText(a) + SaidText(b) && ThoughtText(a + b) == ThoughtText(a) + ThoughtText(b)
    ensures Fragments(a + b, w) == Fragments(a, w) + Fragments(b, w)
  {
    SaidConcat(a, b);
    ThoughtConcat(a, b);
    FragmentsConcat(a, b, w);
  }

  lemma OneArrival(a: Arrival, w: WireIndex)
    ensures SaidText([a]) == (if a.Said? then a.text else "") && ThoughtText([a]) == (if a.Thought? then a.text else "")
    ensures Fragments([a], w) == if a.Argued? && a.index == w then a.text else ""
    ensures SaidText([]) == "" && ThoughtText([]) == "" && Fragments([], w) == ""
  {
    Arrive([], a);
    FragmentsNext([], a, w);
    assert [] + [a] == [a];
  }

  // The pieces of a candidate bring their arguments and nothing else.
  lemma {:induction false} ToolsBring(pieces: seq<WireTool>, w: WireIndex)
    ensures SaidText(ToolArrivals(pieces)) == "" && ThoughtText(ToolArrivals(pieces)) == ""
    ensures Fragments(ToolArrivals(pieces), w) == PieceArguments(pieces, w)
  {
    if pieces != [] {
      var n := |pieces| - 1;
      var p := pieces[n];
      ToolsBring(pieces[..n], w);
      var more := if p.arguments == "" then [] else [Argued(p.index, p.arguments)];
      ArrivalsConcat(ToolArrivals(pieces[..n]), more, w);
      OneArrival(Argued(p.index, p.arguments), w);
      JoinedNext(seq(n, i requires 0 <= i < n => if pieces[..n][i].index == w then pieces[..n][i].arguments else ""),
                 if p.index == w then p.arguments else "",
                 seq(|pieces|, i requires 0 <= i < |pieces| => if pieces[i].index == w then pieces[i].arguments else ""));
    }
  }

  lemma TextsBring(choice: Choice, w: WireIndex)
    ensures SaidText(TextArrivals(choice)) == choice.content
    ensures ThoughtText(TextArrivals(choice)) == if choice.reasoningContent != "" then choice.reasoningContent else choice.reasoning
    ensures Fragments(TextArrivals(choice), w) == ""
  {
    var thought := if choice.reasoningContent != "" then choice.reasoningContent else choice.reasoning;
    var a := if thought == "" then [] else [Thought(thought)];
    var b := if choice.content == "" then [] else [Said(choice.content)];
    ArrivalsConcat(a, b, w);
    OneArrival(Thought(thought), w);
    OneArrival(Said(choice.content), w);
  }

  /** What a candidate brings, in terms of its fields. */
  lemma ChoiceBrings(choice: Choice, w: WireIndex)
    ensures SaidText(Arrivals(choice)) == if choice.index == 0 then choice.content else ""
    ensures ThoughtText(Arrivals(choice)) ==
            if choice.index != 0 then "" else if choice.reasoningContent != "" then choice.reasoningContent else choice.reasoning
    ensures Fragments(Arrivals(choice), w) == if choice.index == 0 then PieceArguments(choice.tools, w) else ""
  {
    if choice.index == 0 {
      TextsBring(choice, w);
      ToolsBring(choice.tools, w);
      ArrivalsConcat(TextArrivals(choice), ToolArrivals(choice.tools), w);
    }
  }

  /** What a chunk brings, in terms of the fields of its candidates. */
  lemma {:induction false} ChunkBrings(choices: seq<Choice>, w: WireIndex)
    ensures SaidText(ChunkArrivals(choices)) == WireText(choices)
    ensures ThoughtText(ChunkArrivals(choices)) == WireThinking(choices)
    ensures Fragments(ChunkArrivals(choices), w) == WireArguments(choices, w)
  {
    if choices != [] {
      var n := |choices| - 1;
      var init, c := choices[..n], choices[n];
      ChunkBrings(init, w);
      ChoiceBrings(c, w);
      ArrivalsConcat(ChunkArrivals(init), Arrivals(c), w);
      WireNext(choices, init, n, c, w);
    }
  }

  lemma WireNext(choices: seq<Choice>, init: seq<Choice>, n: nat, c: Choice, w: WireIndex)
    requires |choices| == n + 1 && init == choices[..n] && c == choices[n]
    ensures WireText(choices) == WireText(init) + (if c.index == 0 then c.content else "")
    ensures WireThinking(choices) ==
            WireThinking(init) + (if c.index != 0 then "" else if c.reasoningContent != "" then c.reasoningContent else c.reasoning)
    ensures WireArguments(choices, w) == WireArguments(init, w) + (if c.index == 0 then PieceArguments(c.tools, w) else "")
  {
    JoinedNext(seq(n, i requires 0 <= i < n => if init[i].index == 0 then init[i].content else ""),
               if c.index == 0 then c.content else "",
               seq(n + 1, i requires 0 <= i < n + 1 => if choices[i].index == 0 then choices[i].content else ""));
    JoinedNext(seq(n, i requires 0 <= i < n => if init[i].index != 0 then "" else if init[i].reasoningContent != ""
                                               then init[i].reasoningContent else init[i].reasoning),
               if c.index != 0 then "" else if c.reasoningContent != "" then c.reasoningContent else c.reasoning,
               seq(n + 1, i requires 0 <= i < n + 1 => if choices[i].index != 0 then "" else if choices[i].reasoningContent != ""
                                                       then choices[i].reasoningContent else choices[i].reasoning));
    JoinedNext(seq(n, i requires 0 <= i < n => if init[i].index == 0 then PieceArguments(init[i].tools, w) else ""),
               if c.index == 0 then PieceArguments(c.tools, w) else "",
               seq(n + 1, i requires 0 <= i < n + 1 => if choices[i].index == 0 then PieceArguments(choices[i].tools, w) else ""));
  }

  // The reason a choice gives for the end of the stream, if it gives one.
  function ReasonAfter(reason: string, choice: Choice): string {
    if choice.index == 0 && choice.finishReason != "" then choice.finishReason else reason
  }

  function LastReason(reason: string, choices: seq<Choice>): string {
    if choices == [] then reason
    else ReasonAfter(LastReason(reason, choices[..|choices| - 1]), choices[|choices| - 1])
  }

  // The last candidate that names a reason decides it.
  ghost predicate LastNamed(before: string, choices: seq<Choice>, now: string) {
    && ((forall i | 0 <= i < |choices| :: choices[i].index != 0 || choices[i].finishReason == "") ==> now == before)
    && (forall i {:trigger choices[i]} | 0 <= i < |choices| && choices[i].index == 0 && choices[i].finishReason != ""
               && (forall j | i < j < |choices| :: choices[j].index != 0 || choices[j].finishReason == "") ::
          now == choices[i].finishReason)
  }

  lemma {:induction false} LastNamedIs(before: string, choices: seq<Choice>)
    ensures LastNamed(before, choices, LastReason(before, choices))
  {
    if choices != [] {
      var n := |choices| - 1;
      var init := choices[..n];
      LastNamedIs(before, init);
      if choices[n].index != 0 || choices[n].finishReason == "" {
        forall i {:trigger choices[i]} | 0 <= i < |choices| && choices[i].index == 0 && choices[i].finishReason != ""
                   && (forall j | i < j < |choices| :: choices[j].index != 0 || choices[j].finishReason == "")
          ensures LastReason(before, choices) == choices[i].finishReason
        {
          assert init[i] == choices[i];
        }
        if forall i | 0 <= i < |choices| :: choices[i].index != 0 || choices[i].finishReason == "" {
          assert forall i | 0 <= i < n :: init[i] == choices[i];
        }
      }
    }
  }

  // The first i choices have been taken.
  ghost predicate ChunkTaken(choices: seq<Choice>, i: nat, now: seq<Arrival>, was: seq<Arrival>, reason: string, before: string) {
    var taken := i <= |choices| && now == was + ChunkArrivals(choices[..i]) && reason == LastReason(before, choices[..i]);
    taken
  }

  lemma ChunkNext(choices: seq<Choice>, i: nat, now: seq<Arrival>, was: seq<Arrival>, reason: string, before: string)
    requires i < |choices| && ChunkTaken(choices, i, now, was, reason, before)
    ensures ChunkTaken(choices, i + 1, now + Arrivals(choices[i]), was, ReasonAfter(reason, choices[i]), before)
  {
    ChunkStep(choices, i, before);
    Associate(was, ChunkArrivals(choices[..i]), Arrivals(choices[i]));
  }

  lemma ChunkStep(choices: seq<Choice>, i: nat, before: string)
    requires i < |choices|
    ensures LastReason(before, choices[..i + 1]) == ReasonAfter(LastReason(before, choices[..i]), choices[i])
    ensures ChunkArrivals(choices[..i + 1]) == ChunkArrivals(choices[..i]) + Arrivals(choices[i])
  {
    assert choices[..i + 1][..i] == choices[..i];
  }

  lemma Associate(a: seq<Arrival>, b: seq<Arrival>, c: seq<Arrival>)
    ensures a + b + c == a + (b + c)
  {
  }

  // All fields of a stream at one moment, but for the assembler.
  datatype Picture = Picture(kinds: seq<Kind>, thinkingIndex: Option<nat>, textIndex: Option<nat>, thinking: string, text: string,
                             tools: map<WireIndex, ToolState>, shown: seq<Delta>, arrived: seq<Arrival>, ended: set<WireIndex>)

  ghost predicate Good(p: Picture) {
    var good :=
      && PartsOk(p.tools, p.ended, p.kinds, p.shown, p.arrived)
      && TextsOk(p.kinds, p.thinkingIndex, p.textIndex, p.thinking, p.text, p.shown, p.arrived);
    good
  }

  lemma ChoiceShown(was: Picture, now: Picture, choice: Choice)
    requires Good(was) && Good(now) && now.arrived == was.arrived + Arrivals(choice)
    ensures ShownText(now.shown) == ShownText(was.shown) + (if choice.index == 0 then choice.content else "")
    ensures ShownThinking(now.shown) == ShownThinking(was.shown)
            + (if choice.index != 0 then "" else if choice.reasoningContent != "" then choice.reasoningContent else choice.reasoning)
  {
    ArrivalsConcat(was.arrived, Arrivals(choice), WireIndex(0));
    ChoiceBrings(choice, WireIndex(0));
  }

  // A chunk has been taken: what was shown has grown by its fields.
  lemma ChunkShown(was: Picture, now: Picture, choices: seq<Choice>)
    requires Good(was) && Good(now) && now.arrived == was.arrived + ChunkArrivals(choices)
    ensures ShownText(now.shown) == ShownText(was.shown) + WireText(choices)
    ensures ShownThinking(now.shown) == ShownThinking(was.shown) + WireThinking(choices)
    ensures forall w :: Fragments(now.arrived, w) == Fragments(was.arrived, w) + WireArguments(choices, w)
  {
    forall w
      ensures Fragments(now.arrived, w) == Fragments(was.arrived, w) + WireArguments(choices, w)
      ensures SaidText(now.arrived) == SaidText(was.arrived) + WireText(choices)
      ensures ThoughtText(now.arrived) == ThoughtText(was.arrived) + WireThinking(choices)
    {
      ArrivalsConcat(was.arrived, ChunkArrivals(choices), w);
      ChunkBrings(choices, w);
    }
    assert Fragments(now.arrived, WireIndex(0)) == Fragments(was.arrived, WireIndex(0)) + WireArguments(choices, WireIndex(0));
  }

  // The same calls at the same content parts.
  ghost predicate SamePlaces(was: map<WireIndex, ToolState>, now: map<WireIndex, ToolState>) {
    var same := was.Keys == now.Keys && forall w {:trigger now[w]} | w in now :: now[w].contentIndex == was[w].contentIndex;
    same
  }

  // The calls by increasing content part.
  ghost predicate Sorted(tools: map<WireIndex, ToolState>, order: seq<WireIndex>, indexes: seq<nat>) {
    var sorted :=
      && |order| == |indexes| && Ascending(indexes)
      && (forall k {:trigger order[k]} | 0 <= k < |order| :: order[k] in tools && tools[order[k]].contentIndex == indexes[k])
      && (forall w {:trigger w in order} | w in tools :: w in order);
    sorted
  }

  // The next call in order is known, and has not been ended before.
  lemma NextToEnd(was: map<WireIndex, ToolState>, now: map<WireIndex, ToolState>, order: seq<WireIndex>, indexes: seq<nat>, i: nat)
    requires Sorted(was, order, indexes) && SamePlaces(was, now) && i < |order|
    ensures order[i] in now && order[i] !in order[..i]
    ensures forall w :: w in order[..i + 1] <==> w in order[..i] || w == order[i]
  {
    assert order[..i + 1] == order[..i] + [order[i]];
    forall k | 0 <= k < i
      ensures order[k] != order[i]
    {
      assert indexes[k] < indexes[i];
    }
  }

  // ---------------------------------------------------------------------------
  // The message.

  // What was shown of one content part.
  function PartsAt(kind: Kind, i: nat, shown: seq<Delta>): seq<Part> {
    match kind
    case ThinkingKind => if ShownThinking(shown) == "" then [] else [ThinkingPart(ShownThinking(shown))]
    case TextKind => if ShownText(shown) == "" then [] else [TextPart(ShownText(shown))]
    case ToolKind =>
      match LifeOf(shown, i)
      case Ended(id, name, arguments) => [CallPart(ToolCall(id, name, arguments))]
      case _ => []
  }

  /** The message that the shown deltas add up to. */
  function Rendered(kinds: seq<Kind>, shown: seq<Delta>): seq<Part> {
    if kinds == [] then []
    else
      var n := |kinds| - 1;
      Rendered(kinds[..n], shown) + PartsAt(kinds[n], n, shown)
  }

  // A call has been shown from its start to its end, with every fragment of its
  // arguments in the order of arrival.
  ghost predicate EveryFragment(st: ToolState, shown: seq<Delta>, arrived: seq<Arrival>, w: WireIndex) {
    LifeOf(shown, st.contentIndex) == Ended(st.id, st.name, Fragments(arrived, w))
  }

  predicate IsFinal(shown: seq<Delta>, i: nat, call: ToolCall) {
    LifeOf(shown, i) == Ended(call.id, call.name, call.arguments)
  }

  // One finished call for every content part of a call.
  ghost predicate FinalCalls(kinds: seq<Kind>, shown: seq<Delta>, indexes: seq<nat>, calls: seq<ToolCall>) {
    var final :=
      && |calls| == |indexes|
      && (forall k {:trigger indexes[k]} | 0 <= k < |indexes| :: IsFinal(shown, indexes[k], calls[k]))
      && (forall i {:trigger kinds[i]} | 0 <= i < |kinds| && kinds[i] == ToolKind :: i in indexes);
    final
  }

  lemma PlacesDiffer(p: Picture, w: WireIndex)
    requires Good(p) && w in p.tools
    ensures forall v {:trigger p.tools[v].contentIndex} | v in p.tools && v != w :: p.tools[v].contentIndex != p.tools[w].contentIndex
  {
    assert Call(w);
    forall v {:trigger p.tools[v].contentIndex} | v in p.tools && v != w
      ensures p.tools[v].contentIndex != p.tools[w].contentIndex
    {
      assert Call(v);
    }
  }

  lemma AllEnded(p: Picture)
    requires Good(p) && forall w | w in p.tools :: w in p.ended
    ensures forall w | w in p.tools :: EveryFragment(p.tools[w], p.shown, p.arrived, w)
  {
    forall w | w in p.tools
      ensures EveryFragment(p.tools[w], p.shown, p.arrived, w)
    {
      CallIsOk(p, w);
    }
  }

  lemma IndexOfCall(p: Picture, was: map<WireIndex, ToolState>, order: seq<WireIndex>, indexes: seq<nat>, i: nat)
    requires Good(p) && Sorted(was, order, indexes) && SamePlaces(was, p.tools)
    requires i < |p.kinds| && p.kinds[i] == ToolKind
    ensures i in indexes
  {
    var w :| w in p.tools && p.tools[w].contentIndex == i;
    assert w in order;
    var k :| 0 <= k < |order| && order[k] == w;
    assert indexes[k] == i;
  }

  lemma CallOfIndex(p: Picture, was: map<WireIndex, ToolState>, order: seq<WireIndex>, indexes: seq<nat>, k: nat)
    requires Good(p) && Sorted(was, order, indexes) && SamePlaces(was, p.tools) && k < |indexes|
    requires forall w | w in p.tools :: w in p.ended
    ensures LifeOf(p.shown, indexes[k]).Ended?
  {
    assert order[k] in was;
    CallIsOk(p, order[k]);
  }

  /** The finished calls are exactly the calls of the stream, in the order of
      their parts: none is lost, and none is missing. */
  lemma CallsMatchParts(p: Picture, builders: map<nat, CallBuilder>, was: map<WireIndex, ToolState>, order: seq<WireIndex>, indexes: seq<nat>,
                        built: seq<nat>, calls: seq<ToolCall>)
    requires Good(p) && Mirrors(builders, p.shown)
    requires Sorted(was, order, indexes) && SamePlaces(was, p.tools)
    requires forall w | w in p.tools :: w in p.ended
    requires Ascending(built) && |calls| == |built| && forall i :: i in built <==> i in builders
    requires forall k | 0 <= k < |built| :: BuilderLife(builders, built[k]) == Ended(calls[k].id, calls[k].name, calls[k].arguments)
    ensures FinalCalls(p.kinds, p.shown, indexes, calls)
  {
    forall i: nat
      ensures i in built <==> i in indexes
    {
      assert At(i);
      if i in built {
        IndexOfCall(p, was, order, indexes, i);
      }
      if i in indexes {
        var k :| 0 <= k < |indexes| && indexes[k] == i;
        CallOfIndex(p, was, order, indexes, k);
      }
    }
    AscendingUnique(built, indexes);
    forall k {:trigger indexes[k]} | 0 <= k < |indexes|
      ensures IsFinal(p.shown, indexes[k], calls[k])
    {
      assert At(indexes[k]);
    }
    forall i {:trigger p.kinds[i]} | 0 <= i < |p.kinds| && p.kinds[i] == ToolKind
      ensures i in indexes
    {
      IndexOfCall(p, was, order, indexes, i);
    }
  }

  // ---------------------------------------------------------------------------
  // What can go wrong.

  datatype StreamError =
    | ListenerFailed | BadDelta | ArgumentsTooLarge | IdChanged | LateName | MissingName
    | BadReason | CallsTruncated | MalformedCall | NoContent | BadMessage

  // A delta is refused by the listener, or for what it is.
  predicate DeltaRefused(l: Life, d: Delta, maxBytes: nat, e: StreamError) {
    || e.ListenerFailed?
    || (e.BadDelta? && (!ValidDelta(d) || (IsToolDelta(d) && Live(l, d).Broken?)))
    || (e.ArgumentsTooLarge? && Oversized(l, d, maxBytes))
  }

  // A call cannot be shown without a name, with a blank one, or with more
  // arguments than allowed.
  predicate StartRefused(st: ToolState, maxBytes: nat, e: StreamError) {
    || e.ListenerFailed?
    || (e.MissingName? && st.name == "")
    || (e.BadDelta? && (IsBlank(st.name) || (st.id != "" && IsBlank(st.id))))
    || (e.ArgumentsTooLarge? && ByteLength(st.pendingArgs) > maxBytes)
  }

  predicate EndRefused(st: ToolState, maxBytes: nat, e: StreamError) {
    e.ListenerFailed? || (!st.started && StartRefused(st, maxBytes, e))
  }

  // More arguments for a call that has a name.
  predicate ArgumentsRefused(st: ToolState, size: nat, maxBytes: nat, e: StreamError) {
    || e.ListenerFailed?
    || (e.BadDelta? && !st.started && (IsBlank(st.name) || (st.id != "" && IsBlank(st.id))))
    || (e.ArgumentsTooLarge? && size > maxBytes)
  }

  predicate OtherId(st: ToolState, id: string) {
    id != "" && st.id != "" && st.id != id
  }

  function Identified(st: ToolState, id: string, name: string): ToolState {
    st.(id := if id != "" then id else st.id, name := st.name + name)
  }

  // What is known of a call when a piece of it arrives.
  ghost function Known(p: Picture, w: WireIndex): ToolState {
    if w in p.tools then p.tools[w] else ToolState(|p.kinds|, "", "", "", false)
  }

  ghost predicate PieceRefused(p: Picture, piece: WireTool, maxBytes: nat, e: StreamError) {
    var st := Known(p, piece.index);
    || (e.IdChanged? && OtherId(st, piece.id))
    || (e.LateName? && piece.name != "" && st.started)
    || (piece.arguments != ""
        && ArgumentsRefused(Identified(st, piece.id, piece.name), ByteLength(Fragments(p.arrived, piece.index)) + ByteLength(piece.arguments), maxBytes, e))
  }

  predicate OfPiece(e: StreamError) {
    e.ListenerFailed? || e.BadDelta? || e.ArgumentsTooLarge? || e.IdChanged? || e.LateName?
  }

  datatype StopReason = EndTurn | UseTools | CutShort

  function StopOf(finishReason: string): Option<StopReason> {
    if finishReason in {"stop", "end_turn"} then Some(EndTurn)
    else if finishReason in {"tool_calls", "function_call"} then Some(UseTools)
    else if finishReason in {"length", "max_tokens"} then Some(CutShort)
    else None
  }

  predicate HasCalls(parts: seq<Part>) {
    exists i | 0 <= i < |parts| :: parts[i].CallPart?
  }

  // An ordinary end has no calls, an end for the sake of tools has some.
  predicate Contradicts(stop: StopReason, calls: bool) {
    (stop.EndTurn? && calls) || (stop.UseTools? && !calls)
  }

  // Why a stream whose calls could all be ended gives no message.
  ghost function Verdict(stop: Option<StopReason>, p: Picture, isObject: string -> bool, usageOk: bool): Option<StreamError> {
    if stop.None? then
      Some(BadReason)
    else if stop.value.CutShort? && p.tools != map[] then
      Some(CallsTruncated)
    else if exists w :: w in p.tools && !isObject(Fragments(p.arrived, w)) then
      Some(MalformedCall)
    else if p.kinds == [] then
      Some(NoContent)
    else if Contradicts(stop.value, p.tools != map[]) || !usageOk then
      Some(BadMessage)
    else
      None
  }

  // The verdict depends on what arrived and which calls there are.
  lemma SameVerdict(stop: Option<StopReason>, p: Picture, q: Picture, isObject: string -> bool, usageOk: bool)
    requires p.tools.Keys == q.tools.Keys && p.arrived == q.arrived && p.kinds == q.kinds
    ensures Verdict(stop, p, isObject, usageOk) == Verdict(stop, q, isObject, usageOk)
  {
    assert p.tools == map[] <==> p.tools.Keys == {};
    assert q.tools == map[] <==> q.tools.Keys == {};
    assert forall w :: w in p.tools <==> w in q.tools.Keys;
  }

  // Nothing was opened exactly when there is nothing to render; calls are
  // rendered exactly when there are some.
  lemma {:induction false} RenderedShape(p: Picture, n: nat)
    requires Good(p) && n <= |p.kinds| && forall w | w in p.tools :: w in p.ended
    ensures Rendered(p.kinds[..n], p.shown) == [] <==> n == 0
    ensures HasCalls(Rendered(p.kinds[..n], p.shown)) <==> ToolKind in p.kinds[..n]
  {
    if n > 0 {
      RenderedShape(p, n - 1);
      PartShown(p, n - 1);
      RenderedNext(p.kinds, p.shown, n - 1, p.kinds[..n - 1], p.kinds[..n]);
      CallsAppend(Rendered(p.kinds[..n - 1], p.shown), PartsAt(p.kinds[n - 1], n - 1, p.shown));
    }
  }

  lemma RenderedNext(kinds: seq<Kind>, shown: seq<Delta>, i: nat, init: seq<Kind>, more: seq<Kind>)
    requires i < |kinds| && init == kinds[..i] && more == kinds[..i + 1]
    ensures Rendered(more, shown) == Rendered(init, shown) + PartsAt(kinds[i], i, shown)
    ensures ToolKind in more <==> ToolKind in init || kinds[i] == ToolKind
  {
    assert more[..i] == init && more == init + [kinds[i]];
  }

  lemma CallsAppend(a: seq<Part>, b: seq<Part>)
    ensures HasCalls(a + b) <==> HasCalls(a) || HasCalls(b)
  {
    if HasCalls(b) {
      var i :| 0 <= i < |b| && b[i].CallPart?;
      assert (a + b)[|a| + i].CallPart?;
    }
    if HasCalls(a) {
      var i :| 0 <= i < |a| && a[i].CallPart?;
      assert (a + b)[i].CallPart?;
    }
  }

  lemma PartShown(p: Picture, i: nat)
    requires Good(p) && i < |p.kinds| && forall w | w in p.tools :: w in p.ended
    ensures |PartsAt(p.kinds[i], i, p.shown)| == 1
    ensures HasCalls(PartsAt(p.kinds[i], i, p.shown)) <==> p.kinds[i] == ToolKind
  {
    if p.kinds[i] == ToolKind {
      var w :| w in p.tools && p.tools[w].contentIndex == i;
      CallIsOk(p, w);
      assert PartsAt(p.kinds[i], i, p.shown)[0].CallPart?;
    }
  }

  lemma ToolKinds(p: Picture)
    requires Good(p)
    ensures p.tools != map[] <==> ToolKind in p.kinds
  {
    if p.tools != map[] {
      var w :| w in p.tools;
      CallIsOk(p, w);
    }
    if ToolKind in p.kinds {
      var i :| 0 <= i < |p.kinds| && p.kinds[i] == ToolKind;
      var w :| w in p.tools && p.tools[w].contentIndex == i;
    }
  }

  /** The finished message is empty exactly when nothing was opened, and has calls
      exactly when the stream has. */
  lemma MessageShape(p: Picture)
    requires Good(p) && forall w | w in p.tools :: w in p.ended
    ensures Rendered(p.kinds, p.shown) == [] <==> p.kinds == []
    ensures HasCalls(Rendered(p.kinds, p.shown)) <==> p.tools != map[]
  {
    assert p.kinds[..|p.kinds|] == p.kinds;
    RenderedShape(p, |p.kinds|);
    ToolKinds(p);
  }

  // Part i of the finished message says what arrived for it.
  ghost predicate PartSays(part: Part, p: Picture, i: nat)
    requires i < |p.kinds|
  {
    match p.kinds[i]
    case ThinkingKind => part == ThinkingPart(ThoughtText(p.arrived))
    case TextKind => part == TextPart(SaidText(p.arrived))
    case ToolKind =>
      exists w :: w in p.tools && p.tools[w].contentIndex == i
                  && part == CallPart(ToolCall(p.tools[w].id, p.tools[w].name, Fragments(p.arrived, w)))
  }

  lemma PartArrived(p: Picture, i: nat)
    requires Good(p) && i < |p.kinds| && forall w | w in p.tools :: w in p.ended
    ensures |PartsAt(p.kinds[i], i, p.shown)| == 1 && PartSays(PartsAt(p.kinds[i], i, p.shown)[0], p, i)
  {
    PartShown(p, i);
    if p.kinds[i] == ToolKind {
      var w :| w in p.tools && p.tools[w].contentIndex == i;
      CallIsOk(p, w);
    }
  }

  /** A finished message has one part for every part that was opened, in order, and
      each says what arrived for it. */
  lemma {:induction false} PartsArrived(p: Picture, n: nat)
    requires Good(p) && n <= |p.kinds| && forall w | w in p.tools :: w in p.ended
    ensures |Rendered(p.kinds[..n], p.shown)| == n
    ensures forall i | 0 <= i < n :: PartSays(Rendered(p.kinds[..n], p.shown)[i], p, i)
  {
    if n > 0 {
      PartsArrived(p, n - 1);
      PartArrived(p, n - 1);
      RenderedNext(p.kinds, p.shown, n - 1, p.kinds[..n - 1], p.kinds[..n]);
    }
  }

  // What speaks for a message once the calls can be ended: a known reason that fits
  // the calls, some content, arguments that are objects and an acceptable usage.
  ghost predicate Acceptable(reason: string, p: Picture, isObject: string -> bool, usageOk: bool) {
    && (reason in {"stop", "end_turn", "tool_calls", "function_call", "length", "max_tokens"})
    && (if p.tools == map[] then reason !in {"tool_calls", "function_call"} else reason in {"tool_calls", "function_call"})
    && p.kinds != [] && usageOk
    && forall w | w in p.tools :: isObject(Fragments(p.arrived, w))
  }

  lemma VerdictIff(reason: string, p: Picture, isObject: string -> bool, usageOk: bool)
    ensures Verdict(StopOf(reason), p, isObject, usageOk).None? <==> Acceptable(reason, p, isObject, usageOk)
  {
  }

  // Every call in the assembler is one of the stream, with its fragments.
  lemma BuiltCall(p: Picture, builders: map<nat, CallBuilder>, i: nat) returns (w: WireIndex)
    requires Good(p) && Mirrors(builders, p.shown) && i in builders
    requires forall w | w in p.tools :: w in p.ended
    ensures w in p.tools && p.tools[w].contentIndex == i
    ensures BuilderLife(builders, i) == Ended(p.tools[w].id, p.tools[w].name, Fragments(p.arrived, w))
    ensures !IsBlank(p.tools[w].id) && !IsBlank(p.tools[w].name)
  {
    assert At(i);
    assert LifeOf(p.shown, i) != NotStarted;
    w :| w in p.tools && p.tools[w].contentIndex == i;
    CallIsOk(p, w);
  }

  /** The assembler refuses a call exactly for arguments that are no object. */
  lemma ProperCalls(p: Picture, builders: map<nat, CallBuilder>, isObject: string -> bool)
    requires Good(p) && Mirrors(builders, p.shown)
    requires forall w | w in p.tools :: w in p.ended
    ensures (forall i: nat | i in builders :: ProperCall(BuilderLife(builders, i), isObject))
            <==> forall w | w in p.tools :: isObject(Fragments(p.arrived, w))
  {
    if forall i: nat | i in builders :: ProperCall(BuilderLife(builders, i), isObject) {
      forall w | w in p.tools
        ensures isObject(Fragments(p.arrived, w))
      {
        CallIsOk(p, w);
        assert At(p.tools[w].contentIndex);
        assert p.tools[w].contentIndex in builders;
      }
    }
    if forall w | w in p.tools :: isObject(Fragments(p.arrived, w)) {
      forall i: nat | i in builders
        ensures ProperCall(BuilderLife(builders, i), isObject)
      {
        var w := BuiltCall(p, builders, i);
      }
    }
  }

  // The calls of a stream whose calls have ended cannot be built.
  lemma RefusedVerdict(p: Picture, builders: map<nat, CallBuilder>, stop: StopReason, isObject: string -> bool, usageOk: bool)
    requires Good(p) && Mirrors(builders, p.shown) && (forall w | w in p.tools :: w in p.ended)
    requires builders == map[] <==> p.tools == map[]
    ensures stop.CutShort? && builders != map[] ==> Verdict(Some(stop), p, isObject, usageOk) == Some(CallsTruncated)
    ensures !(stop.CutShort? && builders != map[])
            && (exists i: nat :: i in builders && !ProperCall(BuilderLife(builders, i), isObject)) ==>
              Verdict(Some(stop), p, isObject, usageOk) == Some(MalformedCall)
  {
    ProperCalls(p, builders, isObject);
  }

  // They can, and only the message itself is left to judge.
  lemma FinalVerdict(p: Picture, builders: map<nat, CallBuilder>, stop: StopReason, isObject: string -> bool, usageOk: bool)
    requires Good(p) && Mirrors(builders, p.shown) && (forall w | w in p.tools :: w in p.ended)
    requires builders == map[] <==> p.tools == map[]
    requires !(stop.CutShort? && builders != map[])
    requires forall i: nat | i in builders :: ProperCall(BuilderLife(builders, i), isObject)
    ensures var parts := Rendered(p.kinds, p.shown);
            Verdict(Some(stop), p, isObject, usageOk) ==
            if parts == [] then Some(NoContent)
            else if Contradicts(stop, HasCalls(parts)) || !usageOk then Some(BadMessage)
            else None
  {
    ProperCalls(p, builders, isObject);
    MessageShape(p);
  }

  // Only the call itself changed.
  ghost predicate OthersUntouched(was: map<WireIndex, ToolState>, now: map<WireIndex, ToolState>, w: WireIndex) {
    forall v | v in now && v != w :: v in was && now[v] == was[v]
  }

  method NewCallId() returns (id: string)
    ensures !IsBlank(id)
  {
    var suffix: string := *;
    id := "po-call-" + suffix;
    assert id[0] == 'p';
  }

  /** Once every call has ended, the assembler holds them all, and none that is
      incomplete. */
  lemma AllBuilt(p: Picture, builders: map<nat, CallBuilder>, was: map<WireIndex, ToolState>)
    requires Good(p) && Mirrors(builders, p.shown) && SamePlaces(was, p.tools)
    requires forall w | w in p.tools :: w in p.ended
    ensures forall i: nat | i in builders :: BuilderLife(builders, i).Ended?
    ensures builders == map[] <==> was == map[]
  {
    forall i: nat | i in builders
      ensures BuilderLife(builders, i).Ended? && was != map[]
    {
      var w := BuiltCall(p, builders, i);
    }
    if was != map[] {
      var w :| w in was;
      CallIsOk(p, w);
      assert At(p.tools[w].contentIndex);
    }
  }

  class StreamState {
    const assembler: ToolCalls
    var kinds: seq<Kind>
    var thinkingIndex: Option<nat>
    var textIndex: Option<nat>
    var thinking: string
    var text: string
    var finishReason: string
    var tools: map<WireIndex, ToolState>
    // Everything shown and everything that arrived; the calls already ended.
    ghost var shown: seq<Delta>
    ghost var arrived: seq<Arrival>
    ghost var ended: set<WireIndex>

    ghost predicate Valid()
      reads this, assembler
    {
      Mirrors(assembler.byIndex, shown) && Good(Now())
    }

    ghost function Now(): Picture
      reads this
    {
      Picture(kinds, thinkingIndex, textIndex, thinking, text, tools, shown, arrived, ended)
    }

    constructor (limit: int, isObject: string -> bool)
      ensures Valid() && fresh(assembler) && assembler.isObject == isObject
      ensures ended == {} && arrived == [] && finishReason == ""
    {
      assembler := new ToolCalls(limit, isObject);
      finishReason := "";
      kinds, thinkingIndex, textIndex, thinking, text := [], None, None, "", "";
      tools, shown, arrived, ended := map[], [], [], {};
      new;
      MirrorsNothing();
    }

    /** Hands a delta to the assembler and then to the listener. */
    method EmitDelta(d: Delta, ghost news: seq<Arrival>) returns (error: Option<StreamError>)
      requires Mirrors(assembler.byIndex, shown)
      modifies assembler, this`shown, this`arrived
      ensures error.None? ==> arrived == old(arrived) + news
      ensures error.None? && news == [] ==> arrived == old(arrived)
      ensures error.None? ==> shown == old(shown) + [d] && Mirrors(assembler.byIndex, shown) && ValidDelta(d)
      ensures error.None? ==> LifeOf(shown, d.index) == Live(LifeOf(old(shown), d.index), d)
      ensures error.Some? ==> DeltaRefused(LifeOf(old(shown), d.index), d, assembler.maxBytes, error.value)
    {
      ghost var was := assembler.byIndex;
      assert At(d.index);
      var refused := assembler.Apply(d);
      if refused.Some? {
        return Some(if refused.value.TooLarge? then ArgumentsTooLarge else BadDelta);
      }
      MirrorsNext(was, assembler.byIndex, shown, d);
      LifeNext(shown, d, d.index);
      shown, arrived := shown + [d], arrived + news;
      var accepted: bool := *;
      error := if accepted then None else Some(ListenerFailed);
    }

    /** The listener gets a piece of text. Only the listener can refuse it. */
    method ApplyText(piece: string) returns (error: Option<StreamError>)
      requires Valid() && piece != ""
      modifies assembler, this`kinds, this`textIndex, this`text, this`shown, this`arrived
      ensures error.None? ==> Valid() && arrived == old(arrived) + [Said(piece)]
      ensures kinds == if old(textIndex).Some? then old(kinds) else old(kinds) + [TextKind]
      ensures error.Some? ==> error == Some(ListenerFailed)
    {
      var more: seq<Kind>, index := [], if textIndex.Some? then textIndex.value else |kinds|;
      if textIndex.None? {
        more := [TextKind];
      }
      var d := TextDelta(index, piece);
      TextStep(Now(), more, d, piece);
      kinds, textIndex, text := kinds + more, Some(index), text + piece;
      error := EmitDelta(d, [Said(piece)]);
    }

    method ApplyThinking(piece: string) returns (error: Option<StreamError>)
      requires Valid() && piece != ""
      modifies assembler, this`kinds, this`thinkingIndex, this`thinking, this`shown, this`arrived
      ensures error.None? ==> Valid() && arrived == old(arrived) + [Thought(piece)]
      ensures kinds == if old(thinkingIndex).Some? then old(kinds) else old(kinds) + [ThinkingKind]
      ensures error.Some? ==> error == Some(ListenerFailed)
    {
      var more: seq<Kind>, index := [], if thinkingIndex.Some? then thinkingIndex.value else |kinds|;
      if thinkingIndex.None? {
        more := [ThinkingKind];
      }
      var d := ThinkingDelta(index, piece);
      ThinkingStep(Now(), more, d, piece);
      kinds, thinkingIndex, thinking := kinds + more, Some(index), thinking + piece;
      error := EmitDelta(d, [Thought(piece)]);
    }

    // Shows the start of a call and the arguments kept back so far. A call
    // without an identifier gets one.
    method StartTool(w: WireIndex) returns (error: Option<StreamError>)
      requires Valid() && w in tools && !tools[w].started
      modifies assembler, this`tools, this`shown, this`arrived
      ensures error.None? ==> Valid() && w in tools && tools[w].started && arrived == old(arrived)
      ensures error.None? ==> tools == old(tools)[w := tools[w]] && tools[w].contentIndex == old(tools)[w].contentIndex
      ensures error.Some? ==> StartRefused(old(tools)[w], assembler.maxBytes, error.value)
    {
      var st := tools[w];
      if st.id == "" {
        var synthetic := NewCallId();
        st := st.(id := synthetic);
      }
      if st.name == "" {
        return Some(MissingName);
      }
      CallIsOk(Now(), w);
      if !IsBlank(st.id) && !IsBlank(st.name) {
        StartStep(Now(), w, st);
      }
      error := EmitStart(st);
      tools := tools[w := st.(pendingArgs := "", started := true)];
    }

    method EmitStart(st: ToolState) returns (error: Option<StreamError>)
      requires Mirrors(assembler.byIndex, shown) && LifeOf(shown, st.contentIndex) == NotStarted
      modifies assembler, this`shown, this`arrived
      ensures error.None? ==> shown == old(shown) + StartDeltas(st) && arrived == old(arrived) && Mirrors(assembler.byIndex, shown)
      ensures error.None? ==> !IsBlank(st.id) && !IsBlank(st.name)
      ensures error.Some? ==> || error == Some(ListenerFailed)
                              || (error == Some(BadDelta) && (IsBlank(st.id) || IsBlank(st.name)))
                              || (error == Some(ArgumentsTooLarge) && ByteLength(st.pendingArgs) > assembler.maxBytes)
    {
      var start := StartDelta(st.contentIndex, st.id, st.name);
      error := EmitDelta(start, []);
      if st.pendingArgs == "" {
        assert StartDeltas(st) == [start];
      } else if error.None? {
        var arguments := ArgumentsDelta(st.contentIndex, st.id, st.pendingArgs);
        assert StartDeltas(st) == [start] + [arguments];
        error := EmitDelta(arguments, []);
      }
    }

    // The content part of a call is allocated when the call is first seen.
    method OpenTool(w: WireIndex)
      requires Valid() && w !in tools && ended == {}
      modifies this`tools, this`kinds
      ensures Valid() && w in tools && tools == old(tools)[w := ToolState(|old(kinds)|, "", "", "", false)]
      ensures kinds == old(kinds) + [ToolKind]
    {
      OpenStep(Now(), w);
      tools, kinds := tools[w := ToolState(|kinds|, "", "", "", false)], kinds + [ToolKind];
    }

    // Takes the identifier and the name of a piece.
    method Identify(w: WireIndex, id: string, name: string) returns (error: Option<StreamError>)
      requires Valid() && w in tools
      modifies this`tools
      ensures error == Some(IdChanged) <==> OtherId(old(tools)[w], id)
      ensures error == Some(IdChanged) <==> id != "" && old(tools)[w].id != "" && id != old(tools)[w].id
      ensures error.None? ==>
                && w in tools && tools[w].id == (if id == "" then old(tools)[w].id else id) && tools[w].name == old(tools)[w].name + name
                && tools[w].pendingArgs == old(tools)[w].pendingArgs && tools[w].started == old(tools)[w].started
                && tools[w].contentIndex == old(tools)[w].contentIndex
      ensures error == Some(LateName) <==> !OtherId(old(tools)[w], id) && name != "" && old(tools)[w].started
      ensures error.None? || error == Some(IdChanged) || error == Some(LateName)
      ensures error.None? ==> Valid() && w in tools && tools == old(tools)[w := Identified(old(tools)[w], id, name)]
    {
      error := None;
      var st := tools[w];
      CallIsOk(Now(), w);
      if id != "" {
        if st.id != "" && st.id != id {
          return Some(IdChanged);
        }
        st := st.(id := id);
      }
      if name != "" {
        if st.started {
          return Some(LateName);
        }
        st := st.(name := st.name + name);
      }
      assert st == Identified(tools[w], id, name);
      RenameStep(Now(), w, st);
      tools := tools[w := st];
    }

    /** One piece of a tool call. Arguments that come before the name are kept
        back until the call can be shown. */
    method ApplyToolDelta(piece: WireTool) returns (error: Option<StreamError>)
      requires Valid() && ended == {}
      modifies assembler, this`tools, this`kinds, this`shown, this`arrived
      ensures error.None? ==> Valid()
      ensures error.None? ==> arrived == old(arrived) + (if piece.arguments == "" then [] else [Argued(piece.index, piece.arguments)])
      ensures error.None? ==> old(kinds) <= kinds
      ensures error.Some? ==> PieceRefused(old(Now()), piece, assembler.maxBytes, error.value)
      ensures OtherId(Known(old(Now()), piece.index), piece.id) ==> error == Some(IdChanged)
    {
      error := Announce(piece);
      if error.Some? || piece.arguments == "" {
        return;
      }
      error := TakeArguments(piece.index, piece.arguments);
    }

    // The call of a piece is opened when it is new, and identified.
    method Announce(piece: WireTool) returns (error: Option<StreamError>)
      requires Valid() && ended == {}
      modifies this`tools, this`kinds
      ensures error.None? ==> Valid() && old(kinds) <= kinds && piece.index in tools
      ensures error.None? ==> tools[piece.index] == Identified(Known(old(Now()), piece.index), piece.id, piece.name)
      ensures error == Some(IdChanged) <==> OtherId(Known(old(Now()), piece.index), piece.id)
      ensures error == Some(LateName) ==> piece.name != "" && Known(old(Now()), piece.index).started
      ensures error.None? || error == Some(IdChanged) || error == Some(LateName)
    {
      var w := piece.index;
      if w !in tools {
        OpenTool(w);
      }
      error := Identify(w, piece.id, piece.name);
    }

    // Arguments are shown, or kept back until the call can be shown.
    method TakeArguments(w: WireIndex, arguments: string) returns (error: Option<StreamError>)
      requires Valid() && ended == {} && w in tools && arguments != ""
      modifies assembler, this`tools, this`shown, this`arrived
      ensures error.None? ==> Valid() && arrived == old(arrived) + [Argued(w, arguments)]
      ensures error.Some? ==>
                ArgumentsRefused(old(tools)[w], ByteLength(Fragments(old(arrived), w)) + ByteLength(arguments), assembler.maxBytes, error.value)
    {
      error := None;
      if !tools[w].started && tools[w].name == "" {
        HoldBackStep(Now(), w, arguments);
        tools := tools[w := tools[w].(pendingArgs := tools[w].pendingArgs + arguments)];
        arrived := arrived + [Argued(w, arguments)];
        return;
      }
      error := EmitArguments(w, arguments);
    }

    method EmitArguments(w: WireIndex, arguments: string) returns (error: Option<StreamError>)
      requires Valid() && ended == {} && w in tools && arguments != ""
      requires tools[w].started || tools[w].name != ""
      modifies assembler, this`tools, this`shown, this`arrived
      ensures error.None? ==> Valid() && arrived == old(arrived) + [Argued(w, arguments)]
      ensures error.Some? ==> ArgumentsRefused(old(tools)[w], ByteLength(Fragments(old(arrived), w)) + ByteLength(arguments), assembler.maxBytes, error.value)
    {
      error := None;
      CallIsOk(Now(), w);
      if !tools[w].started {
        error := StartTool(w);
      }
      if error.None? {
        error := EmitMore(w, arguments);
      }
    }

    // More arguments of a call that has been shown.
    method EmitMore(w: WireIndex, arguments: string) returns (error: Option<StreamError>)
      requires Valid() && w !in ended && w in tools && tools[w].started && arguments != ""
      modifies assembler, this`shown, this`arrived
      ensures error.None? ==> Valid() && arrived == old(arrived) + [Argued(w, arguments)]
      ensures error.Some? ==> || error == Some(ListenerFailed)
                              || (error == Some(ArgumentsTooLarge)
                                  && ByteLength(Fragments(old(arrived), w)) + ByteLength(arguments) > assembler.maxBytes)
    {
      var d := ArgumentsDelta(tools[w].contentIndex, tools[w].id, arguments);
      ghost var was := Now();
      ArgumentsStep(was, w, d, arguments);
      error := EmitDelta(d, [Argued(w, arguments)]);
      if error.Some? {
        MoreRefused(was, w, d, arguments, assembler.maxBytes, error.value);
      }
    }

    // All pieces of one choice.
    method ApplyTools(pieces: seq<WireTool>) returns (error: Option<StreamError>)
      requires Valid() && ended == {}
      modifies assembler, this`tools, this`kinds, this`shown, this`arrived
      ensures error.None? ==> Valid() && arrived == old(arrived) + ToolArrivals(pieces)
      ensures error.None? ==> old(kinds) <= kinds
      ensures error.Some? ==> pieces != [] && OfPiece(error.value)
    {
      error := None;
      var i := 0;
      assert pieces[..0] == [];
      while error.None? && i < |pieces|
        invariant 0 <= i <= |pieces| && ended == {}
        invariant error.None? ==> Valid() && arrived == old(arrived) + ToolArrivals(pieces[..i])
        invariant error.None? ==> old(kinds) <= kinds
        invariant error.Some? ==> pieces != [] && OfPiece(error.value)
        decreases |pieces| - i
      {
        assert pieces[..i + 1][..i] == pieces[..i];
        error := ApplyToolDelta(pieces[i]);
        i := i + 1;
      }
      assert pieces[..|pieces|] == pieces;
    }

    // Thinking and text of one choice.
    method ApplyTexts(choice: Choice) returns (error: Option<StreamError>)
      requires Valid()
      modifies assembler, this`kinds, this`thinkingIndex, this`textIndex, this`thinking, this`text, this`shown, this`arrived
      ensures error.None? ==> Valid() && arrived == old(arrived) + TextArrivals(choice)
      ensures error.None? ==> old(kinds) <= kinds
      ensures error.Some? ==> error == Some(ListenerFailed) && TextArrivals(choice) != []
    {
      error := ApplyThought(Thinking(choice));
      if error.None? {
        error := ApplySaid(choice.content);
        Associate(old(arrived), if Thinking(choice) == "" then [] else [Thought(Thinking(choice))],
                  if choice.content == "" then [] else [Said(choice.content)]);
      }
    }

    method ApplyThought(thought: string) returns (error: Option<StreamError>)
      requires Valid()
      modifies assembler, this`kinds, this`thinkingIndex, this`thinking, this`shown, this`arrived
      ensures error.None? ==> Valid() && old(kinds) <= kinds && arrived == old(arrived) + (if thought == "" then [] else [Thought(thought)])
      ensures error.Some? ==> error == Some(ListenerFailed) && thought != ""
    {
      error := None;
      if thought != "" {
        error := ApplyThinking(thought);
      }
    }

    method ApplySaid(content: string) returns (error: Option<StreamError>)
      requires Valid()
      modifies assembler, this`kinds, this`textIndex, this`text, this`shown, this`arrived
      ensures error.None? ==> Valid() && old(kinds) <= kinds && arrived == old(arrived) + (if content == "" then [] else [Said(content)])
      ensures error.Some? ==> error == Some(ListenerFailed) && content != ""
    {
      error := None;
      if content != "" {
        error := ApplyText(content);
      }
    }

    /** One choice of a chunk; only the first candidate counts. */
    method ApplyChoice(choice: Choice) returns (error: Option<StreamError>)
      requires Valid() && ended == {}
      modifies assembler, this`kinds, this`thinkingIndex, this`textIndex, this`thinking, this`text, this`finishReason,
               this`tools, this`shown, this`arrived
      ensures error.None? ==> Valid() && arrived == old(arrived) + Arrivals(choice)
      ensures error.None? ==> finishReason == ReasonAfter(old(finishReason), choice) && old(kinds) <= kinds
      ensures error.None? ==>
                && ShownText(shown) == old(ShownText(shown)) + (if choice.index == 0 then choice.content else "")
                && ShownThinking(shown) == old(ShownThinking(shown))
                   + (if choice.index != 0 then "" else if choice.reasoningContent != "" then choice.reasoningContent else choice.reasoning)
      ensures error.None? && choice.index == 0 && choice.finishReason != "" ==> finishReason == choice.finishReason
      ensures error.None? && (choice.index != 0 || choice.finishReason == "") ==> finishReason == old(finishReason)
      ensures error.Some? ==> choice.index == 0 && OfPiece(error.value) && (choice.tools == [] ==> error == Some(ListenerFailed))
    {
      error := None;
      ghost var was := Now();
      if choice.index == 0 {
        error := ApplyContent(choice);
        if error.None? {
          finishReason := ReasonAfter(finishReason, choice);
        }
      }
      if error.None? {
        ChoiceShown(was, Now(), choice);
      }
    }

    method ApplyContent(choice: Choice) returns (error: Option<StreamError>)
      requires Valid() && ended == {}
      modifies assembler, this`kinds, this`thinkingIndex, this`textIndex, this`thinking, this`text,
               this`tools, this`shown, this`arrived
      ensures error.None? ==> Valid() && arrived == old(arrived) + (TextArrivals(choice) + ToolArrivals(choice.tools))
      ensures error.None? ==> old(kinds) <= kinds
      ensures error.Some? ==> OfPiece(error.value) && (choice.tools == [] ==> error == Some(ListenerFailed))
    {
      ghost var texts, pieces := TextArrivals(choice), ToolArrivals(choice.tools);
      error := ApplyTexts(choice);
      if error.None? {
        Associate(old(arrived), texts, pieces);
        error := ApplyTools(choice.tools);
      }
    }

    /** All choices of a chunk. */
    method Apply(choices: seq<Choice>) returns (error: Option<StreamError>)
      requires Valid() && ended == {}
      modifies assembler, this`kinds, this`thinkingIndex, this`textIndex, this`thinking, this`text, this`finishReason,
               this`tools, this`shown, this`arrived
      ensures error.None? ==> Valid() && arrived == old(arrived) + ChunkArrivals(choices)
      ensures error.None? ==>
                && ShownText(shown) == old(ShownText(shown)) + WireText(choices)
                && ShownThinking(shown) == old(ShownThinking(shown)) + WireThinking(choices)
                && forall w :: Fragments(arrived, w) == old(Fragments(arrived, w)) + WireArguments(choices, w)
      ensures error.None? ==> LastNamed(old(finishReason), choices, finishReason) && old(kinds) <= kinds
      ensures error.None? ==> finishReason == LastReason(old(finishReason), choices)
      ensures error.Some? ==> OfPiece(error.value)
    {
      ghost var was := Now();
      error := ApplyAll(choices);
      if error.None? {
        ChunkShown(was, Now(), choices);
        LastNamedIs(old(finishReason), choices);
      }
    }

    method ApplyAll(choices: seq<Choice>) returns (error: Option<StreamError>)
      requires Valid() && ended == {}
      modifies assembler, this`kinds, this`thinkingIndex, this`textIndex, this`thinking, this`text, this`finishReason,
               this`tools, this`shown, this`arrived
      ensures error.None? ==> Valid() && arrived == old(arrived) + ChunkArrivals(choices) && old(kinds) <= kinds
      ensures error.None? ==> finishReason == LastReason(old(finishReason), choices)
      ensures error.Some? ==> OfPiece(error.value)
    {
      error := None;
      var i := 0;
      assert ChunkTaken(choices, 0, arrived, arrived, finishReason, finishReason);
      while error.None? && i < |choices|
        invariant 0 <= i <= |choices| && ended == {}
        invariant error.None? ==> Valid() && ChunkTaken(choices, i, arrived, old(arrived), finishReason, old(finishReason))
        invariant error.None? ==> old(kinds) <= kinds
        invariant error.Some? ==> OfPiece(error.value)
        decreases |choices| - i
      {
        ChunkNext(choices, i, arrived, old(arrived), finishReason, old(finishReason));
        error := ApplyChoice(choices[i]);
        i := i + 1;
      }
      assert choices[..|choices|] == choices;
    }

    // Ends one call; a call whose arguments never came is started first.
    method EndTool(w: WireIndex) returns (error: Option<StreamError>)
      requires Valid() && w in tools && w !in ended
      modifies assembler, this`tools, this`shown, this`arrived, this`ended
      ensures error.None? ==> Valid() && ended == old(ended) + {w} && arrived == old(arrived)
      ensures error.None? ==> SamePlaces(old(tools), tools) && OthersUntouched(old(tools), tools, w)
      ensures error.Some? ==> EndRefused(old(tools)[w], assembler.maxBytes, error.value)
    {
      error := None;
      if !tools[w].started {
        error := StartTool(w);
      }
      if error.None? {
        error := EmitEnd(w);
      }
    }

    // A call that has been shown can always be ended.
    method EmitEnd(w: WireIndex) returns (error: Option<StreamError>)
      requires Valid() && w in tools && w !in ended && tools[w].started
      modifies assembler, this`shown, this`arrived, this`ended
      ensures error.None? ==> Valid() && ended == old(ended) + {w} && arrived == old(arrived)
      ensures error.Some? ==> error.value.ListenerFailed?
    {
      ghost var was := Now();
      var d := EndDelta(tools[w].contentIndex, tools[w].id);
      EndStep(was, w, d);
      error := EmitDelta(d, []);
      ended := ended + {w};
      if error.Some? {
        EndNotRefused(was, w, d, assembler.maxBytes, error.value);
      }
    }

    // Ends every call, in the order of their content parts.
    method EndTools(order: seq<WireIndex>, ghost indexes: seq<nat>) returns (error: Option<StreamError>)
      requires Valid() && ended == {} && Sorted(tools, order, indexes)
      modifies assembler, this`tools, this`shown, this`arrived, this`ended
      ensures error.None? ==> Valid() && arrived == old(arrived) && SamePlaces(old(tools), tools)
      ensures error.None? ==> forall w | w in tools :: w in ended
      ensures error.Some? ==> exists w :: w in old(tools) && EndRefused(old(tools)[w], assembler.maxBytes, error.value)
    {
      error := None;
      var i := 0;
      while error.None? && i < |order|
        invariant 0 <= i <= |order|
        invariant error.None? ==> Valid() && arrived == old(arrived) && SamePlaces(old(tools), tools)
        invariant error.None? ==> forall w :: w in ended <==> w in order[..i]
        invariant error.None? ==> forall w | w in tools && w !in order[..i] :: w in old(tools) && tools[w] == old(tools)[w]
        invariant error.Some? ==> exists w :: w in old(tools) && EndRefused(old(tools)[w], assembler.maxBytes, error.value)
      {
        NextToEnd(old(tools), tools, order, indexes, i);
        error := EndTool(order[i]);
        i := i + 1;
      }
      assert order[..|order|] == order;
    }

    // The calls in the order of their content parts.
    method SortTools() returns (order: seq<WireIndex>, indexes: seq<nat>)
      requires Good(Now())
      ensures Sorted(tools, order, indexes)
    {
      var byContent: map<nat, WireIndex> := map[];
      var rest := tools.Keys;
      while rest != {}
        invariant rest <= tools.Keys
        invariant forall c | c in byContent :: byContent[c] in tools && tools[byContent[c]].contentIndex == c
        invariant forall w {:trigger tools[w].contentIndex} | w in tools && w !in rest ::
            tools[w].contentIndex in byContent && byContent[tools[w].contentIndex] == w
        decreases rest
      {
        var w :| w in rest;
        PlacesDiffer(Now(), w);
        byContent := byContent[tools[w].contentIndex := w];
        rest := rest - {w};
      }
      indexes := SortKeys(byContent.Keys);
      assert forall k | 0 <= k < |indexes| :: indexes[k] in indexes;
      order := seq(|indexes|, k requires 0 <= k < |indexes| => byContent[indexes[k]]);
      forall w {:trigger w in order} | w in tools
        ensures w in order
      {
        var c := tools[w].contentIndex;
        assert c in byContent && byContent[c] == w;
        var k :| 0 <= k < |indexes| && indexes[k] == c;
        assert order[k] == w;
      }
    }

    /** Ends the stream. The message consists of what was shown, part by part;
        every call of the stream is in it. Once the calls can be ended, what
        arrived decides whether there is a message, and if not, why. */
    method Finish(usageOk: bool) returns (r: Result<seq<Part>, StreamError>, stop: Option<StopReason>)
      requires Valid() && ended == {}
      modifies assembler, this`tools, this`shown, this`arrived, this`ended
      ensures r.Success? ==> Valid() && arrived == old(arrived)
      ensures r.Success? ==> r.value == Rendered(kinds, shown) && r.value != []
      ensures r.Success? ==> ShownText(shown) == SaidText(arrived) && ShownThinking(shown) == ThoughtText(arrived)
      ensures r.Success? ==> forall w | w in tools :: EveryFragment(tools[w], shown, arrived, w)
      ensures r.Success? ==> Verdict(StopOf(finishReason), old(Now()), assembler.isObject, usageOk).None?
      ensures r.Failure? ==>
                || Verdict(StopOf(finishReason), old(Now()), assembler.isObject, usageOk) == Some(r.error)
                || (exists w :: w in old(tools) && EndRefused(old(tools)[w], assembler.maxBytes, r.error))
      ensures r.Success? ==> |r.value| == |kinds| && forall i | 0 <= i < |kinds| :: PartSays(r.value[i], Now(), i)
      ensures r.Success? ==> Acceptable(finishReason, old(Now()), assembler.isObject, usageOk)
      ensures Acceptable(finishReason, old(Now()), assembler.isObject, usageOk) && r.Failure? ==>
                exists w :: w in old(tools) && EndRefused(old(tools)[w], assembler.maxBytes, r.error)
      ensures finishReason !in {"stop", "end_turn", "tool_calls", "function_call", "length", "max_tokens"} <==> r == Failure(BadReason)
      ensures r == Failure(NoContent) <==> kinds == [] && StopOf(finishReason).Some?
      ensures r == Failure(CallsTruncated) ==> finishReason in {"length", "max_tokens"} && old(tools) != map[]
      ensures finishReason in {"length", "max_tokens"} && old(tools) != map[] && r != Failure(CallsTruncated) ==>
                r.Failure? && exists w :: w in old(tools) && EndRefused(old(tools)[w], assembler.maxBytes, r.error)
      ensures stop == Some(EndTurn) <==> finishReason in {"stop", "end_turn"}
      ensures stop == Some(UseTools) <==> finishReason in {"tool_calls", "function_call"}
      ensures stop == Some(CutShort) <==> finishReason in {"length", "max_tokens"}
    {
      stop := StopOf(finishReason);
      VerdictIff(finishReason, Now(), assembler.isObject, usageOk);
      if stop.None? {
        return Failure(BadReason), stop;
      }
      ToolKinds(Now());
      var order, indexes := SortTools();
      var error := EndTools(order, indexes);
      if error.Some? {
        return Failure(error.value), stop;
      }
      r := Conclude(order, indexes, old(Now()), stop.value, usageOk);
      if r.Success? {
        assert kinds[..|kinds|] == kinds;
        PartsArrived(Now(), |kinds|);
      }
    }

    // All calls have ended.
    method Conclude(ghost order: seq<WireIndex>, indexes: seq<nat>, ghost was: Picture, stop: StopReason, usageOk: bool)
      returns (r: Result<seq<Part>, StreamError>)
      requires Valid() && (forall w | w in tools :: w in ended) && Sorted(was.tools, order, indexes)
      requires SamePlaces(was.tools, tools) && was.kinds == kinds && was.arrived == arrived
      ensures r.Success? <==> Verdict(Some(stop), was, assembler.isObject, usageOk).None?
      ensures r.Failure? ==> Verdict(Some(stop), was, assembler.isObject, usageOk) == Some(r.error)
      ensures r.Success? ==> r.value == Rendered(kinds, shown) && r.value != []
      ensures r.Success? ==> forall w | w in tools :: EveryFragment(tools[w], shown, arrived, w)
    {
      SameVerdict(Some(stop), was, Now(), assembler.isObject, usageOk);
      AllBuilt(Now(), assembler.byIndex, was.tools);
      var calls, built := assembler.Build(stop.CutShort?);
      if calls.Failure? {
        RefusedVerdict(Now(), assembler.byIndex, stop, assembler.isObject, usageOk);
        return Failure(if calls.error.Truncated? then CallsTruncated else MalformedCall);
      }
      CallsMatchParts(Now(), assembler.byIndex, was.tools, order, indexes, built, calls.value);
      AllEnded(Now());
      FinalVerdict(Now(), assembler.byIndex, stop, assembler.isObject, usageOk);
      r := BuildParts(indexes, calls.value, stop, usageOk);
    }

    // Lays the parts out in order. A call that is missing here would have been
    // lost by the assembler.
    method BuildParts(indexes: seq<nat>, calls: seq<ToolCall>, stop: StopReason, usageOk: bool) returns (r: Result<seq<Part>, StreamError>)
      requires Good(Now()) && FinalCalls(kinds, shown, indexes, calls)
      ensures r.Success? ==> r.value == Rendered(kinds, shown) && r.value != []
      ensures r == Failure(NoContent) <==> Rendered(kinds, shown) == []
      ensures r == Failure(BadMessage) <==>
                Rendered(kinds, shown) != [] && (Contradicts(stop, HasCalls(Rendered(kinds, shown))) || !usageOk)
      ensures r.Failure? ==> r.error.NoContent? || r.error.BadMessage?
    {
      var callAt := IndexCalls(indexes, calls);
      var out := LayOut(indexes, callAt);
      if out == [] {
        return Failure(NoContent);
      }
      r := if Contradicts(stop, HasCalls(out)) || !usageOk then Failure(BadMessage) else Success(out);
    }

    // The finished calls by content part.
    method IndexCalls(indexes: seq<nat>, calls: seq<ToolCall>) returns (callAt: map<nat, ToolCall>)
      requires FinalCalls(kinds, shown, indexes, calls)
      ensures forall i | i in indexes :: i in callAt
      ensures forall c | c in callAt :: IsFinal(shown, c, callAt[c])
    {
      callAt := map[];
      for k := 0 to |indexes|
        invariant forall j | 0 <= j < k :: indexes[j] in callAt
        invariant forall c | c in callAt :: IsFinal(shown, c, callAt[c])
      {
        if k >= |calls| {
          assert false;
          return;
        }
        callAt := callAt[indexes[k] := calls[k]];
      }
    }

    // The parts in the order of their indexes.
    method LayOut(ghost indexes: seq<nat>, callAt: map<nat, ToolCall>) returns (out: seq<Part>)
      requires Good(Now())
      requires forall i {:trigger kinds[i]} | 0 <= i < |kinds| && kinds[i] == ToolKind :: i in indexes
      requires forall i | i in indexes :: i in callAt
      requires forall c | c in callAt :: IsFinal(shown, c, callAt[c])
      ensures out == Rendered(kinds, shown)
    {
      out := [];
      for i := 0 to |kinds|
        invariant out == Rendered(kinds[..i], shown)
      {
        RenderedNext(kinds, shown, i, kinds[..i], kinds[..i + 1]);
        match kinds[i] {
          case ThinkingKind =>
            if thinking != "" {
              out := out + [ThinkingPart(thinking)];
            }
          case TextKind =>
            if text != "" {
              out := out + [TextPart(text)];
            }
          case ToolKind =>
            if i !in callAt {
              assert false;
              return;
            }
            out := out + [CallPart(callAt[i])];
        }
      }
      assert kinds[..|kinds|] == kinds;
    }
  }

  lemma TextGrows(kinds: seq<Kind>, more: seq<Kind>, thinkingIndex: Option<nat>, textIndex: Option<nat>, thinking: string,
                  text: string, shown: seq<Delta>, arrived: seq<Arrival>, d: Delta, piece: string)
    requires TextsOk(kinds, thinkingIndex, textIndex, thinking, text, shown, arrived) && d.TextDelta? && d.text == piece != ""
    requires Allocates(kinds, TextKind, textIndex, more, d.index)
    ensures TextsOk(kinds + more, thinkingIndex, Some(d.index), thinking, text + piece, shown + [d], arrived + [Said(piece)])
    ensures d.index < |kinds + more|
  {
    Show(shown, d);
    Arrive(arrived, Said(piece));
    TextOkGrows(kinds, TextKind, textIndex, text, more, d.index, text + piece);
    TextOkStays(kinds, ThinkingKind, thinkingIndex, thinking, more);
    assert thinking + "" == thinking;
  }

  lemma ThinkingGrows(kinds: seq<Kind>, more: seq<Kind>, thinkingIndex: Option<nat>, textIndex: Option<nat>, thinking: string,
                      text: string, shown: seq<Delta>, arrived: seq<Arrival>, d: Delta, piece: string)
    requires TextsOk(kinds, thinkingIndex, textIndex, thinking, text, shown, arrived) && d.ThinkingDelta? && d.text == piece != ""
    requires Allocates(kinds, ThinkingKind, thinkingIndex, more, d.index)
    ensures TextsOk(kinds + more, Some(d.index), textIndex, thinking + piece, text, shown + [d], arrived + [Thought(piece)])
    ensures d.index < |kinds + more|
  {
    Show(shown, d);
    Arrive(arrived, Thought(piece));
    TextOkGrows(kinds, ThinkingKind, thinkingIndex, thinking, more, d.index, thinking + piece);
    TextOkStays(kinds, TextKind, textIndex, text, more);
    assert text + "" == text;
  }

  lemma PartsGrow(tools: map<WireIndex, ToolState>, ended: set<WireIndex>, kinds: seq<Kind>, more: seq<Kind>, shown: seq<Delta>,
                  arrived: seq<Arrival>, d: Delta, a: Arrival)
    requires PartsOk(tools, ended, kinds, shown, arrived) && !IsToolDelta(d) && !a.Argued?
    requires more == [] || (|more| == 1 && more[0] != ToolKind)
    requires d.index < |kinds + more|
    ensures PartsOk(tools, ended, kinds + more, shown + [d], arrived + [a])
  {
    StepOther(tools, ended, kinds, shown, arrived, more, d, a);
    MoreParts(tools, kinds, more, shown, d);
    forall i: nat {:trigger At(i)} | At(i) && LifeOf(shown + [d], i) != NotStarted
      ensures i < |kinds + more| && (kinds + more)[i] == ToolKind
    {
      LifeNext(shown, d, i);
    }
  }

  lemma TextStep(p: Picture, more: seq<Kind>, d: Delta, piece: string)
    requires Good(p) && d.TextDelta? && d.text == piece != "" && Allocates(p.kinds, TextKind, p.textIndex, more, d.index)
    ensures Good(p.(kinds := p.kinds + more, textIndex := Some(d.index), text := p.text + piece,
                    shown := p.shown + [d], arrived := p.arrived + [Said(piece)]))
  {
    TextGrows(p.kinds, more, p.thinkingIndex, p.textIndex, p.thinking, p.text, p.shown, p.arrived, d, piece);
    PartsGrow(p.tools, p.ended, p.kinds, more, p.shown, p.arrived, d, Said(piece));
  }

  lemma ThinkingStep(p: Picture, more: seq<Kind>, d: Delta, piece: string)
    requires Good(p) && d.ThinkingDelta? && d.text == piece != "" && Allocates(p.kinds, ThinkingKind, p.thinkingIndex, more, d.index)
    ensures Good(p.(kinds := p.kinds + more, thinkingIndex := Some(d.index), thinking := p.thinking + piece,
                    shown := p.shown + [d], arrived := p.arrived + [Thought(piece)]))
  {
    ThinkingGrows(p.kinds, more, p.thinkingIndex, p.textIndex, p.thinking, p.text, p.shown, p.arrived, d, piece);
    PartsGrow(p.tools, p.ended, p.kinds, more, p.shown, p.arrived, d, Thought(piece));
  }

  lemma MoreParts(tools: map<WireIndex, ToolState>, kinds: seq<Kind>, more: seq<Kind>, shown: seq<Delta>, d: Delta)
    requires PartsKnown(tools, kinds) && ShownWithin(shown, |kinds|)
    requires more == [] || (|more| == 1 && more[0] != ToolKind)
    requires d.index < |kinds + more|
    ensures PartsKnown(tools, kinds + more) && ShownWithin(shown + [d], |kinds + more|)
  {
    var all := kinds + more;
    forall i {:trigger all[i]} | 0 <= i < |all| && all[i] == ToolKind
      ensures exists w :: w in tools && tools[w].contentIndex == i
    {
      assert kinds[i] == ToolKind;
    }
  }

  // ---------------------------------------------------------------------------
  // Steps of a call.

  lemma OpenStep(p: Picture, w: WireIndex)
    requires Good(p) && w !in p.tools && w !in p.ended
    ensures Good(p.(tools := p.tools[w := ToolState(|p.kinds|, "", "", "", false)], kinds := p.kinds + [ToolKind]))
  {
    StepNew(p.tools, p.ended, p.kinds, p.shown, p.arrived, w);
    NewPartKnown(p.tools, p.kinds, w, ToolState(|p.kinds|, "", "", "", false));
    TextOkStays(p.kinds, ThinkingKind, p.thinkingIndex, p.thinking, [ToolKind]);
    TextOkStays(p.kinds, TextKind, p.textIndex, p.text, [ToolKind]);
  }

  lemma {:induction false} ToolsShowNoText(shown: seq<Delta>, ds: seq<Delta>)
    requires forall k | 0 <= k < |ds| :: IsToolDelta(ds[k])
    ensures ShownText(shown + ds) == ShownText(shown) && ShownThinking(shown + ds) == ShownThinking(shown)
    decreases |ds|
  {
    if ds == [] {
      assert shown + ds == shown;
    } else {
      var n := |ds| - 1;
      ToolsShowNoText(shown, ds[..n]);
      Show(shown + ds[..n], ds[n]);
      assert shown + ds == shown + ds[..n] + [ds[n]];
    }
  }

  lemma ShowOfCall(p: Picture, st: ToolState, ds: seq<Delta>)
    requires Good(p) && st.contentIndex < |p.kinds| && p.kinds[st.contentIndex] == ToolKind
    requires OfPart(ds, st.contentIndex) && forall k | 0 <= k < |ds| :: IsToolDelta(ds[k])
    ensures ShownWithin(p.shown + ds, |p.kinds|) && LiveParts(p.kinds, p.shown + ds)
    ensures TextsOk(p.kinds, p.thinkingIndex, p.textIndex, p.thinking, p.text, p.shown + ds, p.arrived)
  {
    ToolsShowNoText(p.shown, ds);
    forall i: nat {:trigger At(i)} | At(i) && LifeOf(p.shown + ds, i) != NotStarted
      ensures i < |p.kinds| && p.kinds[i] == ToolKind
    {
      if i != st.contentIndex {
        ForeignKeepsLife(p.shown, ds, i);
      }
    }
  }

  lemma ShowStep(p: Picture, w: WireIndex, st: ToolState, now: set<WireIndex>, ds: seq<Delta>)
    requires Good(p) && w in p.tools && st.contentIndex == p.tools[w].contentIndex
    requires OfPart(ds, st.contentIndex) && forall k | 0 <= k < |ds| :: IsToolDelta(ds[k])
    requires forall v | v != w :: v in now <==> v in p.ended
    requires ToolOk(st, w in now, p.kinds, p.shown + ds, Fragments(p.arrived, w))
    ensures Good(p.(tools := p.tools[w := st], ended := now, shown := p.shown + ds))
  {
    ShowOne(p.tools, p.ended, p.kinds, p.shown, p.arrived, w, st, now, ds);
    PartsStayKnown(p.tools, p.kinds, w, st);
    ShowOfCall(p, st, ds);
  }

  lemma ArriveStep(p: Picture, w: WireIndex, st: ToolState, ds: seq<Delta>, text: string)
    requires Good(p) && w in p.tools && st.contentIndex == p.tools[w].contentIndex
    requires OfPart(ds, st.contentIndex) && forall k | 0 <= k < |ds| :: IsToolDelta(ds[k])
    requires ToolOk(st, w in p.ended, p.kinds, p.shown + ds, Fragments(p.arrived, w) + text)
    ensures Good(p.(tools := p.tools[w := st], shown := p.shown + ds, arrived := p.arrived + [Argued(w, text)]))
  {
    ArriveOne(p.tools, p.ended, p.kinds, p.shown, p.arrived, w, st, ds, text);
    PartsStayKnown(p.tools, p.kinds, w, st);
    ShowOfCall(p, st, ds);
    Arrive(p.arrived, Argued(w, text));
    assert SaidText(p.arrived) + "" == SaidText(p.arrived) && ThoughtText(p.arrived) + "" == ThoughtText(p.arrived);
  }

  lemma CallIsOk(p: Picture, w: WireIndex)
    requires Good(p) && w in p.tools
    ensures ToolOk(p.tools[w], w in p.ended, p.kinds, p.shown, Fragments(p.arrived, w))
  {
    assert Call(w);
  }

  // Setting the identifier or extending the name of a call.
  lemma RenameStep(p: Picture, w: WireIndex, st: ToolState)
    requires Good(p) && w in p.tools
    requires st == p.tools[w].(id := st.id, name := st.name)
    requires p.tools[w].started ==> st == p.tools[w]
    ensures Good(p.(tools := p.tools[w := st]))
  {
    CallIsOk(p, w);
    assert p.shown + [] == p.shown;
    ShowStep(p, w, st, p.ended, []);
  }

  // Arguments that come before the name are kept back.
  lemma HoldBackStep(p: Picture, w: WireIndex, text: string)
    requires Good(p) && w in p.tools && !p.tools[w].started
    ensures Good(p.(tools := p.tools[w := p.tools[w].(pendingArgs := p.tools[w].pendingArgs + text)],
                    arrived := p.arrived + [Argued(w, text)]))
  {
    CallIsOk(p, w);
    assert p.shown + [] == p.shown;
    ArriveStep(p, w, p.tools[w].(pendingArgs := p.tools[w].pendingArgs + text), [], text);
  }

  // What starting a call shows.
  function StartDeltas(st: ToolState): seq<Delta> {
    [StartDelta(st.contentIndex, st.id, st.name)]
    + (if st.pendingArgs == "" then [] else [ArgumentsDelta(st.contentIndex, st.id, st.pendingArgs)])
  }

  lemma StartLife(shown: seq<Delta>, st: ToolState)
    requires LifeOf(shown, st.contentIndex) == NotStarted
    ensures LifeOf(shown + StartDeltas(st), st.contentIndex) == Streaming(st.id, st.name, st.pendingArgs)
  {
    var start := StartDelta(st.contentIndex, st.id, st.name);
    LifeNext(shown, start, st.contentIndex);
    if st.pendingArgs == "" {
      assert StartDeltas(st) == [start];
    } else {
      var arguments := ArgumentsDelta(st.contentIndex, st.id, st.pendingArgs);
      LifeNext(shown + [start], arguments, st.contentIndex);
      assert shown + StartDeltas(st) == shown + [start] + [arguments];
      assert "" + st.pendingArgs == st.pendingArgs;
    }
  }

  lemma StartDeltasShape(st: ToolState)
    ensures OfPart(StartDeltas(st), st.contentIndex)
    ensures forall k | 0 <= k < |StartDeltas(st)| :: IsToolDelta(StartDeltas(st)[k])
  {
  }

  lemma StartedOk(was: ToolState, st: ToolState, kinds: seq<Kind>, shown: seq<Delta>, fragments: string)
    requires ToolOk(was, false, kinds, shown, fragments) && !was.started && st == was.(id := st.id)
    requires !IsBlank(st.id) && !IsBlank(st.name)
    ensures ToolOk(st.(pendingArgs := "", started := true), false, kinds, shown + StartDeltas(st), fragments)
  {
    StartLife(shown, st);
  }

  lemma StartStep(p: Picture, w: WireIndex, st: ToolState)
    requires Good(p) && w in p.tools && !p.tools[w].started && st == p.tools[w].(id := st.id)
    requires !IsBlank(st.id) && !IsBlank(st.name)
    ensures Good(p.(tools := p.tools[w := st.(pendingArgs := "", started := true)], shown := p.shown + StartDeltas(st)))
  {
    CallIsOk(p, w);
    StartedOk(p.tools[w], st, p.kinds, p.shown, Fragments(p.arrived, w));
    StartDeltasShape(st);
    ShowStep(p, w, st.(pendingArgs := "", started := true), p.ended, StartDeltas(st));
  }

  // Further arguments of a started call are shown as they arrive.
  lemma ArgumentsStep(p: Picture, w: WireIndex, d: Delta, text: string)
    requires Good(p) && w in p.tools && p.tools[w].started && w !in p.ended
    requires d == ArgumentsDelta(p.tools[w].contentIndex, p.tools[w].id, text)
    ensures Good(p.(shown := p.shown + [d], arrived := p.arrived + [Argued(w, text)]))
  {
    CallIsOk(p, w);
    LifeNext(p.shown, d, d.index);
    ArriveStep(p, w, p.tools[w], [d], text);
    assert p.tools[w := p.tools[w]] == p.tools;
  }

  // More arguments can only be too large.
  lemma MoreRefused(p: Picture, w: WireIndex, d: Delta, text: string, maxBytes: nat, e: StreamError)
    requires Good(p) && w in p.tools && p.tools[w].started && w !in p.ended
    requires d == ArgumentsDelta(p.tools[w].contentIndex, p.tools[w].id, text) && text != ""
    requires DeltaRefused(LifeOf(p.shown, d.index), d, maxBytes, e)
    ensures e.ListenerFailed? || (e.ArgumentsTooLarge? && ByteLength(Fragments(p.arrived, w)) + ByteLength(text) > maxBytes)
  {
    CallIsOk(p, w);
  }

  // Only the listener can refuse the end of a call.
  lemma EndNotRefused(p: Picture, w: WireIndex, d: Delta, maxBytes: nat, e: StreamError)
    requires Good(p) && w in p.tools && p.tools[w].started && w !in p.ended
    requires d == EndDelta(p.tools[w].contentIndex, p.tools[w].id)
    requires DeltaRefused(LifeOf(p.shown, d.index), d, maxBytes, e)
    ensures e.ListenerFailed?
  {
    CallIsOk(p, w);
  }

  lemma EndStep(p: Picture, w: WireIndex, d: Delta)
    requires Good(p) && w in p.tools && p.tools[w].started && w !in p.ended
    requires d == EndDelta(p.tools[w].contentIndex, p.tools[w].id)
    ensures Good(p.(shown := p.shown + [d], ended := p.ended + {w}))
  {
    CallIsOk(p, w);
    LifeNext(p.shown, d, d.index);
    ShowStep(p, w, p.tools[w], p.ended + {w}, [d]);
    assert p.tools[w := p.tools[w]] == p.tools;
  }
}
