/**
  What one run amounts to, as values: the parts assembled from each model stream, the
  events it causes, the conversation and the transcript rows the turns add up to.
  The model, the tools, fresh ids and other writers to the transcript are an arbitrary
  `World`; each model stream is finite.
 */
module Turns {
  import opened Basics
  import opened Messages
  import opened Agent
  import opened Events

  const LOOP_REPEAT_THRESHOLD := 3
  const MAX_TOOL_ROUNDS := 24
  const MAX_TRUNCATION_CONTINUATIONS := 2
  const CONTINUATION_INSTRUCTION := "(continue)"
  const TOOL_TRUNCATION_INSTRUCTION := "(split the call)"

  // ----- What the outside may do -----

  datatype FinishReason = Stop | ToolUse | Length

  /** What waiting on the stream yields; `Cancelled`, `SinkClosed`, `IdleTimeout` interrupt it. */
  datatype Item =
    | TextItem(text: string)
    | ReasoningItem(thought: string)
    | ToolChunk(callId: string, name: Option<string>, args: string)
    | UsageItem(inputTokens: nat)
    | Done(reason: FinishReason)
    | StreamError(message: string)
    | Cancelled
    | SinkClosed
    | IdleTimeout

  datatype Opening = SinkClosedEarly | OpenFailed(message: string) | Opened(items: seq<Item>)

  /** One answer per model turn, and whether the start event reached the client. */
  datatype World = World(
    open: nat -> Opening,
    toolOutput: nat -> string,
    freshId: nat -> string,
    gap: nat -> nat,
    startDelivered: bool,
    hasTools: bool)

  // ----- One model stream -----

  predicate EndsTurn(item: Item) {
    item.Done? || item.StreamError? || item.Cancelled? || item.SinkClosed? || item.IdleTimeout?
  }

  function EndOf(items: seq<Item>): (n: nat)
    ensures n <= |items| && (n < |items| ==> EndsTurn(items[n]))
    ensures forall i :: 0 <= i < n ==> !EndsTurn(items[i])
  {
    if items == [] || EndsTurn(items[0]) then 0 else 1 + EndOf(items[1..])
  }

  /** The parts assembled from a stream: text, thoughts, tool call pieces, last input size. */
  datatype Parts = Parts(text: string, thought: string, id: string, name: string, args: string, input: Option<int>)

  function AddItem(p: Parts, item: Item): Parts {
    match item
    case TextItem(t) => p.(text := p.text + t)
    case ReasoningItem(r) => p.(thought := p.thought + r)
    case ToolChunk(id, name, args) =>
      p.(id := if id != "" then id else p.id,
         name := if name.Some? && name.value != "" then name.value else p.name,
         args := p.args + args)
    case UsageItem(n) => if n > 0 then p.(input := Some(n)) else p
    case _ => p
  }

  function Assemble(items: seq<Item>): Parts {
    if items == [] then Parts("", "", "", "", "", None)
    else AddItem(Assemble(items[..|items| - 1]), items[|items| - 1])
  }

  function ItemEvents(item: Item): seq<Event> {
    match item
    case TextItem(t) => [AssistantDelta(t)]
    case ReasoningItem(r) => [ReasoningDelta(r)]
    case _ => []
  }

  function StreamEvents(items: seq<Item>): seq<Event> {
    if items == [] then []
    else StreamEvents(items[..|items| - 1]) + ItemEvents(items[|items| - 1])
  }

  lemma StreamStep(items: seq<Item>, i: nat)
    requires i < |items|
    ensures Assemble(items[..i + 1]) == AddItem(Assemble(items[..i]), items[i])
    ensures StreamEvents(items[..i + 1]) == StreamEvents(items[..i]) + ItemEvents(items[i])
  {
    assert items[..i + 1][..i] == items[..i];
  }

  datatype TurnResult =
    | TurnCompleted
    | TurnToolCall(callId: string, name: string, args: string)
    | TurnTruncated(insideToolCall: bool)
    | TurnTerminal(outcome: Outcome)

  // ----- What is put together from a stream -----

  /** One item alone gives just its own part, and is told as it is, or not at all. */
  lemma OneItemGives(item: Item)
    ensures Assemble([]) == Parts("", "", "", "", "", None) && StreamEvents([]) == []
    ensures StreamEvents([item]) == (if item.TextItem? then [AssistantDelta(item.text)]
                                     else if item.ReasoningItem? then [ReasoningDelta(item.thought)] else [])
    ensures var p := Assemble([item]);
            && p.text == (if item.TextItem? then item.text else "")
            && p.thought == (if item.ReasoningItem? then item.thought else "")
            && p.args == (if item.ToolChunk? then item.args else "")
            && p.id == (if item.ToolChunk? then item.callId else "")
            && p.name == (if item.ToolChunk? && item.name.Some? then item.name.value else "")
            && p.input == (if item.UsageItem? && item.inputTokens > 0 then Some(item.inputTokens) else None)
  {
    assert [item][..0] == [];
  }

  /**
    Two streams one behind the other: text, thoughts and arguments are joined in order; of
    ids and names the later one counts, where there is one, and of the input sizes likewise.
   */
  lemma {:induction false} StreamsJoin(a: seq<Item>, b: seq<Item>)
    ensures var p, q, r := Assemble(a), Assemble(b), Assemble(a + b);
            && r.text == p.text + q.text && r.thought == p.thought + q.thought && r.args == p.args + q.args
            && r.id == (if q.id != "" then q.id else p.id) && r.name == (if q.name != "" then q.name else p.name)
            && r.input == (if q.input.Some? then q.input else p.input)
    ensures StreamEvents(a + b) == StreamEvents(a) + StreamEvents(b)
  {
    hide AddItem, ItemEvents;
    if b == [] {
      assert a + b == a;
    } else {
      var init, last := b[..|b| - 1], b[|b| - 1];
      StreamsJoin(a, init);
      assert (a + b)[..|a + b| - 1] == a + init;
      Assoc(StreamEvents(a), StreamEvents(init), ItemEvents(last));
      ItemJoins(Assemble(a), Assemble(init), last);
    }
  }

  lemma ItemJoins(p: Parts, q: Parts, item: Item)
    ensures var joined := Parts(p.text + q.text, p.thought + q.thought, if q.id != "" then q.id else p.id,
                                if q.name != "" then q.name else p.name, p.args + q.args,
                                if q.input.Some? then q.input else p.input);
            var r, after := AddItem(joined, item), AddItem(q, item);
            && r.text == p.text + after.text && r.thought == p.thought + after.thought && r.args == p.args + after.args
            && r.id == (if after.id != "" then after.id else p.id)
            && r.name == (if after.name != "" then after.name else p.name)
            && r.input == (if after.input.Some? then after.input else p.input)
  {
    match item {
      case TextItem(t) => Assoc(p.text, q.text, t);
      case ReasoningItem(t) => Assoc(p.thought, q.thought, t);
      case ToolChunk(_, _, x) => Assoc(p.args, q.args, x);
      case _ =>
    }
  }

  function ReadPart(o: Opening): seq<Item> {
    if o.Opened? then o.items[..EndOf(o.items)] else []
  }

  function PartsOf(o: Opening): Parts {
    Assemble(ReadPart(o))
  }

  function TurnOf(o: Opening, freshId: string): TurnResult {
    match o
    case SinkClosedEarly => TurnTerminal(Aborted)
    case OpenFailed(msg) => TurnTerminal(Failed(msg))
    case Opened(items) =>
      var n, p := EndOf(items), PartsOf(o);
      if n == |items| then TurnCompleted else ClosedBy(items[n], p, freshId)
  }

  function ClosedBy(item: Item, p: Parts, freshId: string): TurnResult {
    match item
    case Done(Stop) => TurnCompleted
    case Done(ToolUse) =>
      TurnToolCall(
        if p.id == "" then freshId else p.id,
        if p.name == "" then UNKNOWN_TOOL_NAME else p.name,
        p.args)
    case Done(Length) => TurnTruncated(p.args != "")
    case StreamError(msg) => TurnTerminal(Failed(msg))
    case _ => TurnTerminal(Aborted)
  }

  predicate GoesOnWithin(item: Item) {
    item.TextItem? || item.ReasoningItem? || item.ToolChunk? || item.UsageItem?
  }

  /**
    The first item that is not part of a reply decides the turn, and only what came before
    it counts; a stream that just ends is a complete reply.
   */
  lemma FirstEndDecides(items: seq<Item>, n: nat, freshId: string)
    requires n <= |items| && (n < |items| ==> !GoesOnWithin(items[n]))
    requires forall i :: 0 <= i < n ==> GoesOnWithin(items[i])
    ensures var p := Assemble(items[..n]);
            && PartsOf(Opened(items)) == p
            && TurnOf(Opened(items), freshId)
               == if n == |items| || items[n] == Done(Stop) then TurnCompleted
                  else if items[n] == Done(ToolUse) then
                    TurnToolCall(if p.id != "" then p.id else freshId,
                                 if p.name != "" then p.name else UNKNOWN_TOOL_NAME, p.args)
                  else if items[n] == Done(Length) then TurnTruncated(p.args != "")
                  else if items[n].StreamError? then TurnTerminal(Failed(items[n].message))
                  else TurnTerminal(Aborted)
    ensures TurnEvents(Opened(items), freshId)
            == StreamEvents(items[..n])
               + if n == |items| || items[n] == Done(Stop) then [LifecycleEnd]
                 else if items[n].Done? then []
                 else if items[n].IdleTimeout? then [LifecycleError(FailedRun), LifecycleError(TimedOut)]
                 else [LifecycleError(FailedRun)]
  {
    hide Assemble, StreamEvents;
    assert n < |items| ==> EndsTurn(items[n]);
    assert EndOf(items) == n;
  }

  predicate WatchdogFired(o: Opening) {
    o.Opened? && EndOf(o.items) < |o.items| && o.items[EndOf(o.items)].IdleTimeout?
  }

  /** What the client is told at the end of a turn; the idle watchdog reports twice. */
  function ClosingEvents(r: TurnResult, watchdog: bool): seq<Event> {
    if watchdog then [LifecycleError(FailedRun), LifecycleError(TimedOut)]
    else match r
      case TurnCompleted => [LifecycleEnd]
      case TurnTerminal(_) => [LifecycleError(FailedRun)]
      case _ => []
  }

  function TurnEvents(o: Opening, freshId: string): seq<Event> {
    StreamEvents(ReadPart(o)) + ClosingEvents(TurnOf(o, freshId), WatchdogFired(o))
  }

  lemma {:induction false} StreamSaysItsText(items: seq<Item>)
    ensures SaidIn(StreamEvents(items)) == Assemble(items).text
    ensures VerdictsIn(StreamEvents(items)) == []
  {
    if items != [] {
      var init, last := items[..|items| - 1], items[|items| - 1];
      StreamSaysItsText(init);
      SaidInConcat(StreamEvents(init), ItemEvents(last));
      VerdictsInConcat(StreamEvents(init), ItemEvents(last));
      ItemSaysItsText(last);
      TextGrows(Assemble(init), last);
    }
  }

  lemma ItemSaysItsText(item: Item)
    ensures SaidIn(ItemEvents(item)) == if item.TextItem? then item.text else ""
    ensures VerdictsIn(ItemEvents(item)) == []
  {
    if ItemEvents(item) != [] {
      OneEvent(ItemEvents(item)[0]);
    }
  }

  lemma TextGrows(p: Parts, item: Item)
    ensures AddItem(p, item).text == p.text + if item.TextItem? then item.text else ""
  {
  }

  lemma ClosingIsAllVerdicts(r: TurnResult, watchdog: bool)
    ensures SaidIn(ClosingEvents(r, watchdog)) == ""
    ensures VerdictsIn(ClosingEvents(r, watchdog)) == ClosingEvents(r, watchdog)
  {
    var evs := ClosingEvents(r, watchdog);
    if |evs| == 1 {
      OneEvent(evs[0]);
    } else if |evs| == 2 {
      assert evs == [evs[0]] + [evs[1]];
      OneEvent(evs[0]);
      OneEvent(evs[1]);
      SaidInConcat([evs[0]], [evs[1]]);
      VerdictsInConcat([evs[0]], [evs[1]]);
    }
  }

  /** A turn sends exactly the text it assembles, and announces an end exactly when it is one. */
  lemma TurnSaysItsText(o: Opening, freshId: string)
    ensures SaidIn(TurnEvents(o, freshId)) == PartsOf(o).text
    ensures VerdictsIn(TurnEvents(o, freshId)) == ClosingEvents(TurnOf(o, freshId), WatchdogFired(o))
  {
    var body, closing := StreamEvents(ReadPart(o)), ClosingEvents(TurnOf(o, freshId), WatchdogFired(o));
    StreamSaysItsText(ReadPart(o));
    ClosingIsAllVerdicts(TurnOf(o, freshId), WatchdogFired(o));
    SaidInConcat(body, closing);
    VerdictsInConcat(body, closing);
  }

  /** A call is announced, and its end iff there is an executor. */
  function ToolEvents(call: ToolCall, hasTools: bool): seq<Event> {
    [ToolStart(call.id, call.name, call.args)] + if hasTools then [ToolEnd(call.id)] else []
  }

  // ----- A whole run -----

  datatype Turn =
    | ToolTurn(text: string, thought: string, call: ToolCall, output: string)
    | CutTurn(text: string, insideToolCall: bool)

  function ResultAt(w: World, i: nat): TurnResult {
    TurnOf(w.open(i), w.freshId(i))
  }

  /** The turn number `i` of a run, when it is one that goes on. */
  function TurnAt(w: World, i: nat): Turn {
    var p := PartsOf(w.open(i));
    match ResultAt(w, i)
    case TurnToolCall(id, name, args) => ToolTurn(p.text, p.thought, ToolCall(id, name, args), w.toolOutput(i))
    case TurnTruncated(inside) => CutTurn(p.text, inside)
    case _ => CutTurn("", false)
  }

  function TurnsTo(w: World, n: nat): seq<Turn> {
    if n == 0 then [] else TurnsTo(w, n - 1) + [TurnAt(w, n - 1)]
  }

  function DispatchMessage(text: string, thought: string, call: ToolCall): Message {
    Message(Assistant, text, None, [call], if thought == "" then None else Some(thought))
  }

  function ResultMessage(id: string, output: string): Message {
    Message(Tool, output, Some(id), [], None)
  }

  function Instruction(insideToolCall: bool): Message {
    Plain(User, if insideToolCall then TOOL_TRUNCATION_INSTRUCTION else CONTINUATION_INSTRUCTION)
  }

  function TurnMessages(t: Turn): seq<Message> {
    match t
    case ToolTurn(text, thought, call, output) =>
      [DispatchMessage(text, thought, call), ResultMessage(call.id, output)]
    case CutTurn(text, inside) =>
      if text == "" then [Instruction(inside)] else [Plain(Assistant, text), Instruction(inside)]
  }

  function Conversation(turns: seq<Turn>): seq<Message> {
    if turns == [] then []
    else Conversation(turns[..|turns| - 1]) + TurnMessages(turns[|turns| - 1])
  }

  lemma {:induction false} ConversationIsWellPaired(initial: seq<Message>, turns: seq<Turn>)
    requires WellPaired(initial)
    ensures WellPaired(initial + Conversation(turns))
  {
    if turns == [] {
      assert initial + Conversation(turns) == initial;
    } else {
      var init, last := turns[..|turns| - 1], turns[|turns| - 1];
      ConversationIsWellPaired(initial, init);
      TurnStaysWellPaired(initial + Conversation(init), last);
      Assoc(initial, Conversation(init), TurnMessages(last));
    }
  }

  lemma TurnStaysWellPaired(ms: seq<Message>, t: Turn)
    requires WellPaired(ms)
    ensures WellPaired(ms + TurnMessages(t))
  {
    match t {
      case ToolTurn(text, thought, call, output) =>
        var dispatch := DispatchMessage(text, thought, call);
        assert dispatch.toolCalls[0].id == call.id;
        AppendPair(ms, dispatch, ResultMessage(call.id, output));
      case CutTurn(text, inside) =>
        if text == "" {
          AppendPlain(ms, Instruction(inside));
        } else {
          AppendPlain(ms, Plain(Assistant, text));
          AppendPlain(ms + [Plain(Assistant, text)], Instruction(inside));
          assert ms + TurnMessages(t) == ms + [Plain(Assistant, text)] + [Instruction(inside)];
        }
    }
  }

  /** A row is written unless it has neither text nor calls. */
  function Written(r: Row): seq<Row> {
    if r.content == "" && r.calls == None then [] else [r]
  }

  /** Text of truncated turns not yet written. */
  function CarriedAfter(turns: seq<Turn>): string {
    if turns == [] then ""
    else CarryOver(CarriedAfter(turns[..|turns| - 1]), turns[|turns| - 1])
  }

  function CarryOver(carried: string, t: Turn): string {
    if t.ToolTurn? then "" else carried + t.text
  }

  function DispatchRow(text: string, call: ToolCall): Row {
    Row(Assistant, text, Some([call]), None)
  }

  function TurnRows(carried: string, t: Turn): seq<Row> {
    match t
    case ToolTurn(text, _, call, output) =>
      [DispatchRow(carried + text, call)] + Written(Row(Tool, output, None, Some(call.id)))
    case CutTurn(_, _) => []
  }

  function RowsAfter(turns: seq<Turn>): seq<Row> {
    if turns == [] then []
    else
      var init := turns[..|turns| - 1];
      RowsAfter(init) + TurnRows(CarriedAfter(init), turns[|turns| - 1])
  }

  /** What the last turn still writes: the whole reply, or a call that is not carried out. */
  function FinalRows(carried: string, text: string, r: TurnResult): seq<Row> {
    match r
    case TurnCompleted => Written(Row(Assistant, carried + text, None, None))
    case TurnToolCall(id, name, args) => [DispatchRow(carried + text, ToolCall(id, name, args))]
    case _ => []
  }

  lemma TurnsGrow(turns: seq<Turn>, t: Turn)
    ensures Conversation(turns + [t]) == Conversation(turns) + TurnMessages(t)
    ensures RowsAfter(turns + [t]) == RowsAfter(turns) + TurnRows(CarriedAfter(turns), t)
    ensures CarriedAfter(turns + [t]) == CarryOver(CarriedAfter(turns), t)
  {
    assert (turns + [t])[..|turns|] == turns;
  }

  /** The last input size a provider reported before turn `n`. */
  function InputBefore(w: World, n: nat): Option<int> {
    if n == 0 then None else Latest(PartsOf(w.open(n - 1)).input, InputBefore(w, n - 1))
  }

  function Latest(now: Option<int>, before: Option<int>): Option<int> {
    if now.Some? then now else before
  }

  predicate GoesOnAfter(r: TurnResult) {
    r.TurnToolCall? || r.TurnTruncated?
  }

  /** No call is made three times. */
  ghost predicate NoLoop(fs: seq<ToolFingerprint>) {
    forall f :: Occurrences(fs, f) < LOOP_REPEAT_THRESHOLD
  }

  lemma NoLoopStep(fs: seq<ToolFingerprint>, f: ToolFingerprint)
    requires NoLoop(fs)
    ensures !DetectLoop(fs + [f], LOOP_REPEAT_THRESHOLD) ==> NoLoop(fs + [f])
  {
    var more := fs + [f];
    assert more[..|more| - 1] == fs;
    DetectLoopCountsTheLast(more, LOOP_REPEAT_THRESHOLD);
    if !DetectLoop(more, LOOP_REPEAT_THRESHOLD) {
      forall g ensures Occurrences(more, g) < LOOP_REPEAT_THRESHOLD {
        assert Occurrences(fs, g) < LOOP_REPEAT_THRESHOLD;
      }
    }
  }

  /** The calls the turns have made, in order. */
  function Calls(turns: seq<Turn>): seq<ToolFingerprint> {
    if turns == [] then [] else Calls(turns[..|turns| - 1]) + CallOf(turns[|turns| - 1])
  }

  function CallOf(t: Turn): seq<ToolFingerprint> {
    if t.ToolTurn? then [ToolFingerprint(t.call.name, t.call.args)] else []
  }

  lemma CallsGrow(turns: seq<Turn>, t: Turn)
    ensures Calls(turns + [t]) == Calls(turns) + CallOf(t)
  {
    assert (turns + [t])[..|turns|] == turns;
  }
}
