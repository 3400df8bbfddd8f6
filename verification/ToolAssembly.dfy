/** Assembly of tool calls from the deltas of one response. */
module ToolAssembly {
  import opened Messages
  import opened Utf8Encoding

  // A delta of one content part, in the form the runtime shows it.
  datatype Delta =
    | ThinkingDelta(index: nat, text: string)
    | TextDelta(index: nat, text: string)
    | StartDelta(index: nat, id: string, name: string)
    | ArgumentsDelta(index: nat, id: string, text: string)
    | EndDelta(index: nat, id: string)

  predicate IsToolDelta(d: Delta) {
    d.StartDelta? || d.ArgumentsDelta? || d.EndDelta?
  }

  predicate ValidDelta(d: Delta) {
    match d
    case ThinkingDelta(_, text) => text != ""
    case TextDelta(_, text) => text != ""
    case StartDelta(_, id, name) => !IsBlank(id) && !IsBlank(name)
    case ArgumentsDelta(_, id, text) => !IsBlank(id) && text != ""
    case EndDelta(_, id) => !IsBlank(id)
  }

  // Deltas of text are not empty, and those of calls have identifiers.
  lemma ValidDeltaIff(d: Delta)
    ensures d.ThinkingDelta? || d.TextDelta? ==> (ValidDelta(d) <==> d.text != "")
    ensures d.StartDelta? ==> (ValidDelta(d) <==> !IsBlank(d.id) && !IsBlank(d.name))
    ensures d.ArgumentsDelta? ==> (ValidDelta(d) <==> !IsBlank(d.id) && d.text != "")
    ensures d.EndDelta? ==> (ValidDelta(d) <==> !IsBlank(d.id))
  {
  }

  // What the deltas of one content part amount to, read in order.
  datatype Life =
    | NotStarted
    | Streaming(id: string, name: string, arguments: string)
    | Ended(id: string, name: string, arguments: string)
    | Broken

  function Live(l: Life, d: Delta): Life {
    match d
    case StartDelta(_, id, name) => if l.NotStarted? then Streaming(id, name, "") else Broken
    case ArgumentsDelta(_, id, text) =>
      if l.Streaming? && l.id == id then Streaming(id, l.name, l.arguments + text) else Broken
    case EndDelta(_, id) => if l.Streaming? && l.id == id then Ended(id, l.name, l.arguments) else Broken
    case _ => l
  }

  /** One start, then arguments, then one end: anything else is Broken. */
  function LifeOf(ds: seq<Delta>, index: nat): Life {
    if ds == [] then
      NotStarted
    else
      var l := LifeOf(ds[..|ds| - 1], index);
      var d := ds[|ds| - 1];
      if d.index == index then Live(l, d) else l
  }

  lemma LifeNext(ds: seq<Delta>, d: Delta, index: nat)
    ensures LifeOf(ds + [d], index) == if d.index == index then Live(LifeOf(ds, index), d) else LifeOf(ds, index)
  {
    assert (ds + [d])[..|ds|] == ds;
  }

  datatype CallBuilder = CallBuilder(id: string, name: string, arguments: string, done: bool)

  function BuilderLife(builders: map<nat, CallBuilder>, index: nat): Life {
    if index !in builders then
      NotStarted
    else
      var b := builders[index];
      if b.done then Ended(b.id, b.name, b.arguments) else Streaming(b.id, b.name, b.arguments)
  }

  // Names a content part; quantifiers over parts wait for it.
  ghost predicate At(index: nat) {
    true
  }

  // The builders say of every part what its deltas say.
  ghost predicate Mirrors(builders: map<nat, CallBuilder>, ds: seq<Delta>) {
    forall i: nat {:trigger At(i)} | At(i) :: BuilderLife(builders, i) == LifeOf(ds, i)
  }

  lemma MirrorsNothing()
    ensures Mirrors(map[], [])
  {
  }

  // The length of a text in bytes of UTF-8 (section 3 of RFC 3629).
  function ByteLength(s: string): nat {
    if s == "" then 0 else ByteLength(s[..|s| - 1]) + CharWidth(s[|s| - 1])
  }

  function CharWidth(c: char): nat {
    var u := c as int;
    if u < 0x80 then 1 else if u < 0x800 then 2 else if u < 0x1_0000 then 3 else 4
  }

  /** Lengths add up. */
  lemma {:induction false} ByteLengthConcat(a: string, b: string)
    ensures ByteLength(a + b) == ByteLength(a) + ByteLength(b)
    decreases |b|
  {
    if b == "" {
      assert a + b == a;
    } else {
      var n := |b| - 1;
      ByteLengthConcat(a, b[..n]);
      assert (a + b)[..|a + b| - 1] == a + b[..n];
    }
  }

  /** A character takes as many bytes as its encoding in UTF-8 has. */
  lemma WidthIs(c: char)
    ensures Scalar(c as int) && CharWidth(c) == |Encoding(c as int)|
  {
  }

  // One more piece would exceed the limit for the arguments of a call.
  predicate Oversized(l: Life, d: Delta, maxBytes: nat) {
    d.ArgumentsDelta? && l.Streaming? && l.id == d.id && ByteLength(l.arguments) + ByteLength(d.text) > maxBytes
  }

  // A finished call that may go into a message.
  predicate ProperCall(l: Life, isObject: string -> bool) {
    l.Ended? && !IsBlank(l.id) && !IsBlank(l.name) && isObject(l.arguments)
  }

  datatype AssemblyError = InvalidDelta | UnknownCall | DuplicateCall | TooLarge | Incomplete | Truncated | InvalidCall

  class ToolCalls {
    const maxBytes: nat
    // Whether a text is one JSON object.
    const isObject: string -> bool
    var byIndex: map<nat, CallBuilder>

    constructor (limit: int, isObject: string -> bool)
      ensures byIndex == map[] && this.isObject == isObject
      ensures maxBytes == if limit <= 0 then 0x100000 else limit
    {
      this.isObject := isObject;
      maxBytes := if limit <= 0 then 0x100000 else limit;
      byIndex := map[];
    }

    /** Accepts exactly the deltas that continue the life of their part, within
        the size limit. */
    method Apply(d: Delta) returns (error: Option<AssemblyError>)
      modifies this
      ensures error.Some? ==> byIndex == old(byIndex)
      ensures error.None? ==> ValidDelta(d)
      ensures error.None? ==> forall i: nat {:trigger BuilderLife(byIndex, i)} ::
                BuilderLife(byIndex, i) == if i == d.index then Live(BuilderLife(old(byIndex), i), d) else BuilderLife(old(byIndex), i)
      ensures error.None? ==> !Live(BuilderLife(old(byIndex), d.index), d).Broken?
      ensures error == Some(InvalidDelta) <==> !ValidDelta(d)
      ensures error == Some(TooLarge) <==> ValidDelta(d) && Oversized(BuilderLife(old(byIndex), d.index), d, maxBytes)
      ensures error.Some? && error != Some(InvalidDelta) && error != Some(TooLarge) ==>
                IsToolDelta(d) && Live(BuilderLife(old(byIndex), d.index), d).Broken?
    {
      if !ValidDelta(d) {
        return Some(InvalidDelta);
      }
      match d {
        case StartDelta(index, id, name) =>
          if index in byIndex {
            return Some(DuplicateCall);
          }
          byIndex := byIndex[index := CallBuilder(id, name, "", false)];
        case ArgumentsDelta(index, id, text) =>
          if index !in byIndex {
            return Some(UnknownCall);
          }
          var b := byIndex[index];
          if b.done || b.id != id {
            return Some(DuplicateCall);
          }
          if ByteLength(b.arguments) + ByteLength(text) > maxBytes {
            return Some(TooLarge);
          }
          byIndex := byIndex[index := b.(arguments := b.arguments + text)];
        case EndDelta(index, id) =>
          if index !in byIndex {
            return Some(UnknownCall);
          }
          var b := byIndex[index];
          if b.done || b.id != id {
            return Some(DuplicateCall);
          }
          byIndex := byIndex[index := b.(done := true)];
        case _ =>
      }
      error := None;
    }

    /** The finished calls, by content part. */
    method Build(length: bool) returns (r: Result<seq<ToolCall>, AssemblyError>, ghost order: seq<nat>)
      ensures r.Success? ==> Ascending(order) && (forall i :: i in order <==> i in byIndex)
      ensures r.Success? ==> |r.value| == |order|
      ensures r.Success? ==> forall k | 0 <= k < |order| ::
                BuilderLife(byIndex, order[k]) == Ended(r.value[k].id, r.value[k].name, r.value[k].arguments)
      ensures length && byIndex != map[] <==> r == Failure(Truncated)
      ensures r == Failure(Incomplete) ==> exists i: nat :: i in byIndex && !BuilderLife(byIndex, i).Ended?
      ensures r == Failure(InvalidCall) ==>
                exists i: nat :: i in byIndex && BuilderLife(byIndex, i).Ended? && !ProperCall(BuilderLife(byIndex, i), isObject)
      ensures r.Success? ==> forall i: nat | i in byIndex :: ProperCall(BuilderLife(byIndex, i), isObject)
      ensures r.Failure? ==> r.error.Truncated? || r.error.Incomplete? || r.error.InvalidCall?
    {
      order := [];
      if length && byIndex != map[] {
        return Failure(Truncated), [];
      }
      var indexes := SortKeys(byIndex.Keys);
      order := indexes;
      var calls: seq<ToolCall> := [];
      for k := 0 to |indexes|
        invariant |calls| == k
        invariant forall j | 0 <= j < k ::
            BuilderLife(byIndex, order[j]) == Ended(calls[j].id, calls[j].name, calls[j].arguments)
        invariant forall i {:trigger i in order[..k]} | i in order[..k] :: ProperCall(BuilderLife(byIndex, i), isObject)
      {
        assert indexes[k] in indexes;
        assert order[..k + 1] == order[..k] + [order[k]];
        var b := byIndex[indexes[k]];
        if !b.done {
          return Failure(Incomplete), order;
        }
        if IsBlank(b.id) || IsBlank(b.name) || !isObject(b.arguments) {
          assert BuilderLife(byIndex, indexes[k]).Ended?;
          return Failure(InvalidCall), order;
        }
        calls := calls + [ToolCall(b.id, b.name, b.arguments)];
      }
      assert order[..|order|] == order;
      r := Success(calls);
    }
  }

  lemma MirrorsNext(was: map<nat, CallBuilder>, now: map<nat, CallBuilder>, ds: seq<Delta>, d: Delta)
    requires Mirrors(was, ds)
    requires forall i: nat {:trigger BuilderLife(now, i)} ::
               BuilderLife(now, i) == if i == d.index then Live(BuilderLife(was, i), d) else BuilderLife(was, i)
    ensures Mirrors(now, ds + [d])
  {
    forall i: nat {:trigger At(i)} | At(i)
      ensures BuilderLife(now, i) == LifeOf(ds + [d], i)
    {
      LifeNext(ds, d, i);
    }
  }

  predicate Ascending(s: seq<nat>) {
    forall i, j | 0 <= i < j < |s| :: s[i] < s[j]
  }

  predicate IsLeast(s: set<nat>, m: nat) {
    m in s && forall x | x in s :: m <= x
  }

  lemma LeastExists(s: set<nat>) returns (m: nat)
    requires s != {}
    ensures IsLeast(s, m)
  {
    m :| m in s;
    if x :| x in s && x < m {
      var smaller := set y | y in s && y < m;
      assert x in smaller && smaller < s;
      m := LeastExists(smaller);
      forall y | y in s
        ensures m <= y
      {
        assert y in smaller || y !in smaller;
      }
    }
  }

  lemma AscendingAppend(s: seq<nat>, m: nat)
    requires Ascending(s) && forall i | i in s :: i < m
    ensures Ascending(s + [m])
  {
    var all := s + [m];
    forall i, j | 0 <= i < j < |all|
      ensures all[i] < all[j]
    {
      assert all[i] == s[i] && s[i] in s;
      assert j < |s| ==> all[j] == s[j];
    }
  }

  // The keys in increasing order.
  method SortKeys(keys: set<nat>) returns (s: seq<nat>)
    ensures Ascending(s) && forall i :: i in s <==> i in keys
  {
    s := [];
    var rest := keys;
    while rest != {}
      invariant Ascending(s) && rest <= keys
      invariant forall i :: i in s <==> i in keys && i !in rest
      invariant forall i, x | i in s && x in rest :: i < x
      decreases rest
    {
      ghost var least := LeastExists(rest);
      var m: nat :| m in rest && IsLeast(rest, m);
      assert IsLeast(rest, m);
      AscendingAppend(s, m);
      s := s + [m];
      rest := rest - {m};
    }
  }

  lemma LastIsGreatest(a: seq<nat>, x: nat)
    requires Ascending(a) && a != [] && x in a
    ensures x <= a[|a| - 1] && (x in a[..|a| - 1] <==> x != a[|a| - 1])
  {
    var k: nat :| k < |a| && a[k] == x;
    if k < |a| - 1 {
      assert a[..|a| - 1][k] == x;
    }
  }

  lemma MemberOfInit(a: seq<nat>, i: nat)
    requires Ascending(a) && a != []
    ensures i in a[..|a| - 1] <==> i in a && i != a[|a| - 1]
    ensures forall x | x in a :: x <= a[|a| - 1]
  {
    forall x | x in a
      ensures x <= a[|a| - 1] && (x in a[..|a| - 1] <==> x != a[|a| - 1])
    {
      LastIsGreatest(a, x);
    }
    assert a[..|a| - 1] <= a;
  }

  lemma FirstIsMember(s: seq<nat>) returns (x: nat)
    requires s != []
    ensures x in s
  {
    x := s[0];
  }

  /** Two increasing lists of the same keys are the same list. */
  lemma {:induction false} AscendingUnique(a: seq<nat>, b: seq<nat>)
    requires Ascending(a) && Ascending(b) && forall i :: i in a <==> i in b
    ensures a == b
  {
    if a == [] {
      if b != [] {
        ghost var x := FirstIsMember(b);
        assert false;
      }
    } else {
      ghost var x := FirstIsMember(a);
      var m, n := |a| - 1, |b| - 1;
      assert a[m] in b && b[n] in a;
      MemberOfInit(a, a[m]);
      MemberOfInit(b, b[n]);
      assert a[m] == b[n];
      forall i: nat
        ensures i in a[..m] <==> i in b[..n]
      {
        MemberOfInit(a, i);
        MemberOfInit(b, i);
      }
      AscendingUnique(a[..m], b[..n]);
      assert a == a[..m] + [a[m]] && b == b[..n] + [b[n]];
    }
  }
}
