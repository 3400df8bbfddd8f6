/** The facts of a conversation, shared by the run loop, the session and the
    context window. */
module Messages {

  datatype Option<+T> = None | Some(value: T)

  datatype Result<+T, +E> = Success(value: T) | Failure(error: E)

  datatype ToolCall = ToolCall(id: string, name: string, arguments: string)

  datatype Message =
    | User(id: string, text: string)
    | Assistant(id: string, text: string, calls: seq<ToolCall>)
    | ToolResult(id: string, callId: string, toolName: string, isError: bool, text: string)

  // The white space characters of Unicode.
  predicate IsSpace(c: char) {
    var u := c as int;
    || 0x09 <= u <= 0x0D || u in {0x20, 0x85, 0xA0, 0x1680} || 0x2000 <= u <= 0x200A
    || u in {0x2028, 0x2029, 0x202F, 0x205F, 0x3000}
  }

  // Which these are.
  lemma SpaceIff(c: char)
    ensures IsSpace(c) <==>
              c as int in {9, 10, 11, 12, 13, 32, 133, 160, 5760, 8192, 8193, 8194, 8195, 8196, 8197, 8198, 8199, 8200, 8201, 8202,
                           8232, 8233, 8239, 8287, 12288}
  {
  }

  // True when trimming leaves nothing.
  predicate IsBlank(s: string) {
    forall i | 0 <= i < |s| :: IsSpace(s[i])
  }

  // The identifiers a message cannot do without.
  predicate ValidMessage(m: Message) {
    && !IsBlank(m.id)
    && (m.Assistant? ==> forall i | 0 <= i < |m.calls| :: !IsBlank(m.calls[i].id) && !IsBlank(m.calls[i].name))
    && (m.ToolResult? ==> !IsBlank(m.callId) && !IsBlank(m.toolName))
  }

  lemma ValidMessageIff(m: Message)
    ensures ValidMessage(m) <==>
              match m
              case User(id, _) => !IsBlank(id)
              case Assistant(id, _, calls) => !IsBlank(id) && forall c | c in calls :: !IsBlank(c.id) && !IsBlank(c.name)
              case ToolResult(id, callId, toolName, _, _) => !IsBlank(id) && !IsBlank(callId) && !IsBlank(toolName)
  {
  }

  // Message i is the result of a call of the assistant message at j, which only
  // results separate from it.
  predicate Answers(ms: seq<Message>, j: nat, i: nat)
    requires j < i < |ms|
  {
    && ms[i].ToolResult?
    && ms[j].Assistant?
    && (forall k | j < k < i :: ms[k].ToolResult?)
    && i - j - 1 < |ms[j].calls|
    && ms[i].callId == ms[j].calls[i - j - 1].id
  }

  // No tool result without its call, in call order.
  ghost predicate ResultsFollowCalls(ms: seq<Message>) {
    forall i | 0 <= i < |ms| && ms[i].ToolResult? :: exists j | 0 <= j < i :: Answers(ms, j, i)
  }
}
