/**
  The message list sent to a model provider, and the pairing rule of tool calls:
  an assistant message that dispatches calls and the tool result after it form one
  unit, and a list holding half of such a unit is rejected by the provider.
 */
module Messages {

  import opened Basics

  const UNKNOWN_TOOL_NAME := "unknown_tool"

  datatype Role = System | User | Assistant | Tool

  datatype ToolCall = ToolCall(id: string, name: string, args: string)

  datatype Message = Message(
    role: Role,
    content: string,
    toolCallId: Option<string>,
    toolCalls: seq<ToolCall>,
    reasoning: Option<string>)

  function Plain(role: Role, content: string): Message {
    Message(role, content, None, [], None)
  }

  predicate HasCall(m: Message, id: string) {
    exists k :: 0 <= k < |m.toolCalls| && m.toolCalls[k].id == id
  }

  predicate IsDispatch(m: Message) {
    m.role == Assistant && m.toolCalls != []
  }

  /** A tool message that names the call it answers. */
  predicate IsResult(m: Message) {
    m.role == Tool && m.toolCallId.Some?
  }

  /** `result` is the tool message answering a call that `dispatch` made. */
  predicate Answers(result: Message, dispatch: Message) {
    && IsResult(result)
    && dispatch.role == Assistant
    && HasCall(dispatch, result.toolCallId.value)
  }

  predicate ResultIsPlaced(ms: seq<Message>, i: nat)
    requires i < |ms|
  {
    ms[i].role == Tool ==> i > 0 && Answers(ms[i], ms[i - 1])
  }

  predicate CallIsAnswered(ms: seq<Message>, i: nat)
    requires i < |ms|
  {
    IsDispatch(ms[i]) ==> i + 1 < |ms| && Answers(ms[i + 1], ms[i])
  }

  /** The provider's rule: results and dispatches stand side by side, both ways. */
  ghost predicate WellPaired(ms: seq<Message>) {
    && (forall i :: 0 <= i < |ms| ==> ResultIsPlaced(ms, i))
    && (forall i :: 0 <= i < |ms| ==> CallIsAnswered(ms, i))
  }

  /** Appending a message that neither calls nor answers keeps the rule. */
  lemma AppendPlain(ms: seq<Message>, m: Message)
    requires WellPaired(ms)
    requires m.role != Tool && !IsDispatch(m)
    ensures WellPaired(ms + [m])
  {
    var out := ms + [m];
    forall i | 0 <= i < |out| ensures ResultIsPlaced(out, i) && CallIsAnswered(out, i) {
      assert i < |ms| ==> ResultIsPlaced(ms, i) && CallIsAnswered(ms, i);
    }
  }

  /** Appending a dispatch together with its result keeps the rule. */
  lemma AppendPair(ms: seq<Message>, dispatch: Message, result: Message)
    requires WellPaired(ms)
    requires Answers(result, dispatch)
    ensures WellPaired(ms + [dispatch, result])
  {
    var out := ms + [dispatch, result];
    forall i | 0 <= i < |out| ensures ResultIsPlaced(out, i) && CallIsAnswered(out, i) {
      assert i < |ms| ==> ResultIsPlaced(ms, i) && CallIsAnswered(ms, i);
    }
  }
}
