/**
  The driver of one run: model turns, tool execution and continuation after truncation,
  until a final outcome.
 */
module RunDriver {
  import opened Basics
  import opened Messages
  import opened Agent
  import opened Events
  import opened Turns
  import opened Compaction
  import opened RunModel

  // ----- Effects, as the driver executes them -----

  function EventOf(e: Effect): seq<Event> {
    match e
    case EmitLifecycleStart => [LifecycleStart]
    case EmitAssistant(text) => [AssistantDelta(text)]
    case EmitLifecycleEnd => [LifecycleEnd]
    case EmitLifecycleError(_) => [LifecycleError(FailedRun)]
    case _ => []
  }

  function TextOf(e: Effect): string {
    if e.EmitAssistant? then e.text else ""
  }

  function EventsOf(es: seq<Effect>): seq<Event> {
    if es == [] then [] else EventsOf(es[..|es| - 1]) + EventOf(es[|es| - 1])
  }

  function TextsOf(es: seq<Effect>): string {
    if es == [] then "" else TextsOf(es[..|es| - 1]) + TextOf(es[|es| - 1])
  }

  lemma OneEffect(e: Effect)
    ensures EventsOf([e]) == EventOf(e) && TextsOf([e]) == TextOf(e)
  {
    assert [e][..0] == [];
  }

  lemma TwoEffects(e: Effect, f: Effect)
    ensures EventsOf([e, f]) == EventOf(e) + EventOf(f) && TextsOf([e, f]) == TextOf(e) + TextOf(f)
  {
    OneEffect(e);
    assert [e, f][..1] == [e];
  }

  lemma EffectStep(es: seq<Effect>, i: nat)
    requires i < |es|
    ensures EventsOf(es[..i + 1]) == EventsOf(es[..i]) + EventOf(es[i])
    ensures TextsOf(es[..i + 1]) == TextsOf(es[..i]) + TextOf(es[i])
  {
    assert es[..i + 1][..i] == es[..i];
  }

  lemma SendStaysTidy(trace: seq<SinkOp>, lastSeq: int, ev: Event)
    requires Tidy(trace, lastSeq)
    ensures Tidy(trace + [Send(ev)], lastSeq)
    ensures Sent(trace + [Send(ev)]) == Sent(trace) + [ev] && Rows(trace + [Send(ev)]) == Rows(trace)
  {
    OneMore(trace, Send(ev));
    OneMoreIsOrderly(trace, Send(ev));
  }

  function Persisted(trace: seq<SinkOp>, seqNo: int, row: Row): seq<SinkOp> {
    trace + [Append(seqNo, row)] + [Mark(seqNo)]
  }

  lemma BelowStays(trace: seq<SinkOp>, lastSeq: int, seqNo: int, row: Row)
    requires AppendsBelow(trace, lastSeq + 1) && lastSeq < seqNo
    ensures AppendsBelow(trace, seqNo) && AppendsBelow(Persisted(trace, seqNo, row), seqNo + 1)
  {
  }

  lemma PersistStaysTidy(trace: seq<SinkOp>, lastSeq: int, seqNo: int, row: Row)
    requires Tidy(trace, lastSeq) && lastSeq < seqNo
    requires Said(trace) == Recorded(trace) + TextOfRow(row)
    ensures var after := Persisted(trace, seqNo, row);
            && Tidy(after, seqNo)
            && Sent(after) == Sent(trace) && Rows(after) == Rows(trace) + [row] && Said(after) == Recorded(after)
  {
    BelowStays(trace, lastSeq, seqNo, row);
    PersistStaysOrderly(trace, seqNo, row);
  }

  lemma ToolEventsAreSilent(call: ToolCall, hasTools: bool)
    ensures SaidIn(ToolEvents(call, hasTools)) == "" && VerdictsIn(ToolEvents(call, hasTools)) == []
  {
    OneEvent(ToolStart(call.id, call.name, call.args));
    if hasTools {
      OneEvent(ToolEnd(call.id));
      SaidInConcat([ToolStart(call.id, call.name, call.args)], [ToolEnd(call.id)]);
      VerdictsInConcat([ToolStart(call.id, call.name, call.args)], [ToolEnd(call.id)]);
    } else {
      assert ToolEvents(call, hasTools) == [ToolStart(call.id, call.name, call.args)];
    }
  }

  lemma NewRunIsAtLoopHead(initial: seq<Message>, s: Snapshot)
    requires s.state == AwaitingModel && s.acc == s.carried == "" && s.messages == initial
    requires s.fingerprints == s.executed == [] && s.toolRounds == s.truncations == 0
    requires Sent(s.trace) == [LifecycleStart] && Rows(s.trace) == [] && Tidy(s.trace, s.lastSeq)
    ensures AtLoopHead(initial, [], s)
  {
    hide Orderly, Quiet, AppendsBelow, Sent, Rows;
    OneEvent(LifecycleStart);
    assert initial + Conversation([]) == initial;
  }

  lemma DispatchShows(initial: seq<Message>, turns: seq<Turn>, s: Snapshot, p: Parts, call: ToolCall)
    requires AfterDispatch(initial, turns, s, p, call)
    ensures s.state == AwaitingTool && s.fingerprints == s.executed && Tidy(s.trace, s.lastSeq)
            && Balanced(s.trace, "", [])
    ensures s.carried == ""
  {
  }

  lemma DispatchIsWritten(initial: seq<Message>, turns: seq<Turn>, s: Snapshot, p: Parts, call: ToolCall,
                          trace: seq<SinkOp>, lastSeq: int)
    requires AfterTurn(initial, turns, s, TurnToolCall(call.id, call.name, call.args), p, [])
    requires Sent(trace) == Sent(s.trace)
             && Rows(trace) == Rows(s.trace) + Written(DispatchRow(s.carried + s.acc, call))
    requires Tidy(trace, lastSeq) && Said(trace) == Recorded(trace)
    ensures AfterDispatch(initial, turns,
                          s.(messages := s.messages + [DispatchMessage(p.text, p.thought, call)], carried := "",
                             trace := trace, lastSeq := lastSeq), p, call)
  {
    assert Recorded(trace) + "" == Recorded(trace);
  }

  /** What ends a live turn, and how. */
  predicate Concludes(event: StepEvent) {
    event.ModelDone? || event.ModelError? || event.Abort?
  }

  function Conclusion(event: StepEvent): Outcome {
    match event
    case ModelError(msg) => Failed(msg)
    case Abort => Aborted
    case _ => Completed
  }

  function LastWord(event: StepEvent): Event {
    if event.ModelDone? then LifecycleEnd else LifecycleError(FailedRun)
  }

  lemma LiveConcludes(state: RunState, event: StepEvent, acc: string)
    requires IsLive(state) && Concludes(event)
    ensures var (next, effects) := Step(state, event, acc);
            next == Terminal(Conclusion(event)) && EventsOf(effects) == [LastWord(event)] && TextsOf(effects) == ""
  {
    match event {
      case ModelDone => TwoEffects(PersistAssistant(acc), EmitLifecycleEnd);
      case ModelError(msg) => OneEffect(EmitLifecycleError(msg));
      case Abort => OneEffect(EmitLifecycleError("aborted"));
    }
  }

  /** What has been put together from a stream so far, and the events it has caused. */
  ghost predicate HasRead(items: seq<Item>, p: Parts, before: seq<Event>, sent: seq<Event>) {
    p == Assemble(items) && sent == before + StreamEvents(items)
  }

  predicate NoneEnds(items: seq<Item>, i: nat)
    requires i <= |items|
  {
    forall j :: 0 <= j < i ==> !EndsTurn(items[j])
  }

  lemma NothingRead(items: seq<Item>, before: seq<Event>)
    ensures HasRead(items[..0], Parts("", "", "", "", "", None), before, before)
  {
  }

  lemma ReadStep(items: seq<Item>, i: nat, p: Parts, before: seq<Event>, sent: seq<Event>)
    requires i < |items| && HasRead(items[..i], p, before, sent)
    ensures HasRead(items[..i + 1], AddItem(p, items[i]), before, sent + ItemEvents(items[i]))
    ensures ItemEvents(items[i]) == [] ==> sent + ItemEvents(items[i]) == sent
  {
    StreamStep(items, i);
    Assoc(before, StreamEvents(items[..i]), ItemEvents(items[i]));
  }

  /** At the first ending item, or at the end, what was read is what the turn is made of. */
  lemma StreamClosed(items: seq<Item>, i: nat, freshId: string, p: Parts, before: seq<Event>, sent: seq<Event>)
    requires i <= |items| && (i < |items| ==> EndsTurn(items[i]))
    requires NoneEnds(items, i)
    requires HasRead(items[..i], p, before, sent)
    ensures var o := Opened(items);
            && PartsOf(o) == p
            && TurnOf(o, freshId) == (if i == |items| then TurnCompleted else ClosedBy(items[i], p, freshId))
            && WatchdogFired(o) == (i < |items| && items[i].IdleTimeout?)
            && before + TurnEvents(o, freshId) == sent + ClosingEvents(TurnOf(o, freshId), WatchdogFired(o))
  {
    assert EndOf(items) == i;
    Assoc(before, StreamEvents(items[..i]),
          ClosingEvents(TurnOf(Opened(items), freshId), WatchdogFired(Opened(items))));
  }

  ghost predicate IsReading(o: Opening, freshId: string, r: TurnResult, p: Parts, evs: seq<Event>) {
    r == TurnOf(o, freshId) && p == PartsOf(o) && evs == TurnEvents(o, freshId)
  }

  lemma ReadingIsTurn(w: World, n: nat, r: TurnResult, p: Parts, evs: seq<Event>)
    requires IsReading(w.open(n), w.freshId(n), r, p, evs)
    ensures TookTurn(w, n, r, p, VerdictsIn(evs)) && SaidIn(evs) == p.text && evs == TurnEventsAt(w, n)
  {
    TurnSaysItsText(w.open(n), w.freshId(n));
  }

  function OutcomeOf(state: RunState): Outcome {
    if state.Terminal? then state.outcome else Completed
  }

  class Run {
    const history: seq<Message>
    const userText: string
    const cfg: CompactCfg
    const scale: Calibration
    const world: World

    var state: RunState
    var acc: string
    var reasoning: string
    var carried: string
    var messages: seq<Message>
    var fingerprints: seq<ToolFingerprint>
    var toolRounds: nat
    var truncations: nat
    var lastInput: Option<int>

    // What the outside has seen: requests to the provider, tools run, events and rows.
    var requests: seq<seq<Message>>
    var executed: seq<ToolFingerprint>
    var trace: seq<SinkOp>
    var lastSeq: int

    constructor (history: seq<Message>, userText: string, cfg: CompactCfg, scale: Calibration, world: World,
                 lastSeq: int)
      ensures this.history == history && this.userText == userText && this.cfg == cfg && this.scale == scale
              && this.world == world
      ensures state == Idle && acc == "" && carried == "" && fingerprints == executed == [] && requests == []
              && trace == []
      ensures toolRounds == truncations == 0 && lastInput == None && this.lastSeq == lastSeq
      ensures messages == Initial()
    {
      this.history, this.userText, this.cfg, this.scale, this.world := history, userText, cfg, scale, world;
      state, acc, reasoning, carried := Idle, "", "", "";
      messages := if history == [] then [Plain(User, userText)] else history;
      fingerprints, toolRounds, truncations, lastInput := [], 0, 0, None;
      requests, executed, trace, this.lastSeq := [], [], [], lastSeq;
    }

    /** The history already holds this turn's user message; without one, the text itself is it. */
    function Initial(): seq<Message> {
      if history == [] then [Plain(User, userText)] else history
    }

    function Given(): Context {
      Context(Initial(), cfg, scale, world)
    }

    ghost function Snap(): Snapshot
      reads this
    {
      Snapshot(state, acc, carried, messages, fingerprints, toolRounds, truncations, executed, trace, lastSeq)
    }

    // ----- Events, rows and effects -----

    /** Delivery may fail at any time; a broken connection reaches the run as a stream item. */
    method Emit(ev: Event) returns (delivered: bool)
      requires Tidy(trace, lastSeq)
      modifies this`trace
      ensures Tidy(trace, lastSeq)
      ensures Sent(trace) == old(Sent(trace)) + [ev] && Rows(trace) == old(Rows(trace))
      ensures ev == LifecycleStart ==> delivered == world.startDelivered
    {
      SendStaysTidy(trace, lastSeq, ev);
      trace := trace + [Send(ev)];
      delivered := *;
      if ev == LifecycleStart {
        delivered := world.startDelivered;
      }
    }

    /** Writes a row and marks it, unless there is neither text nor a call to write. */
    method Persist(role: Role, content: string, calls: Option<seq<ToolCall>>, callId: Option<string>)
      requires Tidy(trace, lastSeq)
      requires Said(trace) == Recorded(trace) + TextOfRow(Row(role, content, calls, callId))
      modifies this`trace, this`lastSeq
      ensures Tidy(trace, lastSeq)
      ensures Sent(trace) == old(Sent(trace))
      ensures Rows(trace) == old(Rows(trace)) + Written(Row(role, content, calls, callId))
      ensures Said(trace) == Recorded(trace)
    {
      if content == "" && calls == None {
        assert Recorded(trace) + "" == Recorded(trace);
        assert Rows(trace) + [] == Rows(trace);
        return;
      }
      var row := Row(role, content, calls, callId);
      var seqNo := lastSeq + 1 + world.gap(|trace|);
      PersistStaysTidy(trace, lastSeq, seqNo, row);
      trace := trace + [Append(seqNo, row)];
      trace := trace + [Mark(seqNo)];
      lastSeq := seqNo;
    }

    method ExecuteEffect(effect: Effect) returns (keepGoing: bool)
      requires Tidy(trace, lastSeq)
      modifies this`acc, this`trace
      ensures Tidy(trace, lastSeq)
      ensures Sent(trace) == old(Sent(trace)) + EventOf(effect) && Rows(trace) == old(Rows(trace))
      ensures acc == old(acc) + TextOf(effect)
      ensures effect == EmitLifecycleStart ==> keepGoing == world.startDelivered
      ensures effect == CallModel ==> keepGoing && trace == old(trace)
    {
      hide Orderly, Quiet, AppendsBelow, Sent, Rows;
      keepGoing := true;
      match effect {
        case EmitLifecycleStart =>
          keepGoing := Emit(LifecycleStart);
        case EmitAssistant(text) =>
          acc := acc + text;
          keepGoing := Emit(AssistantDelta(text));
        case EmitLifecycleEnd =>
          var _ := Emit(LifecycleEnd);
          keepGoing := false;
        case EmitLifecycleError(_) =>
          var _ := Emit(LifecycleError(FailedRun));
          keepGoing := false;
        case _ =>
      }
    }

    method ExecuteEffects(effects: seq<Effect>) returns (keepGoing: bool)
      requires Tidy(trace, lastSeq)
      modifies this`acc, this`trace
      ensures Tidy(trace, lastSeq)
      ensures Sent(trace) == old(Sent(trace)) + EventsOf(effects) && Rows(trace) == old(Rows(trace))
      ensures acc == old(acc) + TextsOf(effects)
      ensures effects == [EmitLifecycleStart, CallModel] ==> keepGoing == world.startDelivered
      ensures effects == [CallModel] ==> trace == old(trace)
    {
      hide Orderly, Quiet, AppendsBelow, Sent, Rows, Tidy, EventOf, TextOf;
      keepGoing := true;
      for i := 0 to |effects|
        invariant Tidy(trace, lastSeq)
        invariant Sent(trace) == old(Sent(trace)) + EventsOf(effects[..i]) && Rows(trace) == old(Rows(trace))
        invariant acc == old(acc) + TextsOf(effects[..i])
        invariant effects == [CallModel] ==> trace == old(trace)
        invariant effects == [EmitLifecycleStart, CallModel] ==> keepGoing == (i == 0 || world.startDelivered)
      {
        EffectStep(effects, i);
        Assoc(old(Sent(trace)), EventsOf(effects[..i]), EventOf(effects[i]));
        Assoc(old(acc), TextsOf(effects[..i]), TextOf(effects[i]));
        var ok := ExecuteEffect(effects[i]);
        keepGoing := keepGoing && ok;
      }
      assert effects[..|effects|] == effects;
    }

    method TakeText(text: string)
      requires IsLive(state) && Tidy(trace, lastSeq)
      modifies this`state, this`acc, this`trace
      ensures IsLive(state) && Tidy(trace, lastSeq) && acc == old(acc) + text
      ensures Sent(trace) == old(Sent(trace)) + [AssistantDelta(text)] && Rows(trace) == old(Rows(trace))
    {
      hide Orderly, Quiet, AppendsBelow, Sent, Rows;
      var (next, effects) := Step(state, ModelText(text), acc);
      OneEffect(EmitAssistant(text));
      state := next;
      var _ := ExecuteEffects(effects);
    }

    /** The end of the reply, an error or an abort: the run's final state. */
    method Conclude(event: StepEvent)
      requires IsLive(state) && Tidy(trace, lastSeq) && Concludes(event)
      modifies this`state, this`acc, this`trace
      ensures state == Terminal(Conclusion(event)) && Tidy(trace, lastSeq) && acc == old(acc)
      ensures Sent(trace) == old(Sent(trace)) + [LastWord(event)] && Rows(trace) == old(Rows(trace))
    {
      hide Orderly, Quiet, AppendsBelow, Sent, Rows;
      LiveConcludes(state, event, acc);
      var (next, effects) := Step(state, event, acc);
      state := next;
      var _ := ExecuteEffects(effects);
    }

    /** One item of a stream that goes on; `tcId`, `tcName` and `tcArgs` are the call put together so far. */
    method TakeItem(item: Item, tcId: string, tcName: string, tcArgs: string, ghost input: Option<int>,
                    ghost first: Option<int>)
      returns (id: string, name: string, args: string, ghost seen: Option<int>)
      requires IsLive(state) && Tidy(trace, lastSeq) && !EndsTurn(item) && lastInput == Latest(input, first)
      modifies this`state, this`acc, this`reasoning, this`lastInput, this`trace
      ensures IsLive(state) && Tidy(trace, lastSeq)
      ensures Parts(acc, reasoning, id, name, args, seen)
              == AddItem(Parts(old(acc), old(reasoning), tcId, tcName, tcArgs, input), item)
      ensures lastInput == Latest(seen, first)
      ensures Sent(trace) == old(Sent(trace)) + ItemEvents(item) && Rows(trace) == old(Rows(trace))
    {
      hide Orderly, Quiet, AppendsBelow, Sent, Rows;
      id, name, args, seen := tcId, tcName, tcArgs, input;
      assert Sent(trace) + [] == Sent(trace);
      match item {
        case TextItem(text) =>
          TakeText(text);
        case ReasoningItem(thought) =>
          reasoning := reasoning + thought;
          var _ := Emit(ReasoningDelta(thought));
        case ToolChunk(chunkId, chunkName, chunkArgs) =>
          if chunkId != "" {
            id := chunkId;
          }
          if chunkName.Some? && chunkName.value != "" {
            name := chunkName.value;
          }
          args := args + chunkArgs;
        case UsageItem(inputTokens) =>
          if inputTokens > 0 {
            lastInput := Some(inputTokens);
            seen := Some(inputTokens);
          }
      }
    }

    /** The item that ends a stream. */
    method CloseStream(item: Item, tcId: string, tcName: string, tcArgs: string, freshId: string)
      returns (r: TurnResult)
      requires IsLive(state) && Tidy(trace, lastSeq) && EndsTurn(item)
      modifies this`state, this`acc, this`trace
      ensures r == ClosedBy(item, Parts("", "", tcId, tcName, tcArgs, None), freshId)
      ensures StateFits(state, r) && Tidy(trace, lastSeq) && acc == old(acc)
      ensures Sent(trace) == old(Sent(trace)) + ClosingEvents(r, item.IdleTimeout?) && Rows(trace) == old(Rows(trace))
    {
      hide Orderly, Quiet, AppendsBelow, Sent, Rows;
      match item {
        case Done(ToolUse) =>
          var name := if tcName == "" then UNKNOWN_TOOL_NAME else tcName;
          var (next, _) := Step(state, ModelToolCall(tcId, name, tcArgs), acc);
          state := next;
          r := TurnToolCall(if tcId == "" then freshId else tcId, name, tcArgs);
        case Done(Length) =>
          r := TurnTruncated(tcArgs != "");
        case Done(Stop) =>
          Conclude(ModelDone);
          r := TurnCompleted;
        case StreamError(message) =>
          Conclude(ModelError(message));
          r := TurnTerminal(OutcomeOf(state));
        case IdleTimeout =>
          Conclude(Abort);
          var _ := Emit(LifecycleError(TimedOut));
          r := TurnTerminal(OutcomeOf(state));
        case Cancelled =>
          Conclude(Abort);
          r := TurnTerminal(OutcomeOf(state));
        case SinkClosed =>
          Conclude(Abort);
          r := TurnTerminal(OutcomeOf(state));
      }
    }

    /** Takes items until one ends the turn or the stream runs dry. */
    method ReadItems(items: seq<Item>)
      returns (i: nat, tcId: string, tcName: string, tcArgs: string, ghost input: Option<int>)
      requires IsLive(state) && acc == "" && reasoning == "" && Tidy(trace, lastSeq)
      modifies this`state, this`acc, this`reasoning, this`lastInput, this`trace
      ensures IsLive(state) && Tidy(trace, lastSeq)
      ensures i <= |items| && (i < |items| ==> EndsTurn(items[i]))
      ensures NoneEnds(items, i)
      ensures HasRead(items[..i], Parts(acc, reasoning, tcId, tcName, tcArgs, input), old(Sent(trace)), Sent(trace))
      ensures lastInput == Latest(input, old(lastInput)) && Rows(trace) == old(Rows(trace))
    {
      hide Orderly, Quiet, AppendsBelow, Sent, Rows;
      tcId, tcName, tcArgs, input := "", "", "", None;
      ghost var before, first := Sent(trace), lastInput;
      i := 0;
      NothingRead(items, before);
      while i < |items| && !EndsTurn(items[i])
        invariant i <= |items| && IsLive(state) && Tidy(trace, lastSeq)
        invariant NoneEnds(items, i)
        invariant HasRead(items[..i], Parts(acc, reasoning, tcId, tcName, tcArgs, input), before, Sent(trace))
        invariant lastInput == Latest(input, first) && Rows(trace) == old(Rows(trace))
      {
        ReadStep(items, i, Parts(acc, reasoning, tcId, tcName, tcArgs, input), before, Sent(trace));
        tcId, tcName, tcArgs, input := TakeItem(items[i], tcId, tcName, tcArgs, input, first);
        i := i + 1;
      }
    }

    /** Runs one model stream to its end. */
    method ReadStream(items: seq<Item>, freshId: string) returns (r: TurnResult)
      requires IsLive(state) && acc == "" && reasoning == "" && Tidy(trace, lastSeq)
      modifies this`state, this`acc, this`reasoning, this`lastInput, this`trace
      ensures r == TurnOf(Opened(items), freshId) && StateFits(state, r) && Tidy(trace, lastSeq)
      ensures acc == PartsOf(Opened(items)).text && reasoning == PartsOf(Opened(items)).thought
      ensures lastInput == Latest(PartsOf(Opened(items)).input, old(lastInput))
      ensures Sent(trace) == old(Sent(trace)) + TurnEvents(Opened(items), freshId) && Rows(trace) == old(Rows(trace))
    {
      hide Orderly, Quiet, AppendsBelow, Sent, Rows;
      hide Assemble, StreamEvents, EndOf;
      ghost var before := Sent(trace);
      var i, tcId, tcName, tcArgs, input := ReadItems(items);
      StreamClosed(items, i, freshId, Parts(acc, reasoning, tcId, tcName, tcArgs, input), before, Sent(trace));
      if i < |items| {
        r := CloseStream(items[i], tcId, tcName, tcArgs, freshId);
      } else {
        // The stream ran dry without saying so: the reply counts as complete.
        Conclude(ModelDone);
        r := TurnCompleted;
      }
    }

    method ReadTurn(o: Opening, freshId: string) returns (r: TurnResult, ghost p: Parts, ghost evs: seq<Event>)
      requires IsLive(state) && acc == "" && reasoning == "" && Tidy(trace, lastSeq)
      modifies this`state, this`acc, this`reasoning, this`lastInput, this`trace
      ensures IsReading(o, freshId, r, p, evs)
      ensures StateFits(state, r) && Tidy(trace, lastSeq)
      ensures acc == p.text && reasoning == p.thought && lastInput == Latest(p.input, old(lastInput))
      ensures Sent(trace) == old(Sent(trace)) + evs && Rows(trace) == old(Rows(trace))
    {
      hide Orderly, Quiet, AppendsBelow, Sent, Rows;
      p, evs := PartsOf(o), TurnEvents(o, freshId);
      match o {
        case SinkClosedEarly =>
          Conclude(Abort);
          r := TurnTerminal(OutcomeOf(state));
        case OpenFailed(message) =>
          Conclude(ModelError(message));
          r := TurnTerminal(OutcomeOf(state));
        case Opened(items) =>
          r := ReadStream(items, freshId);
      }
    }

    /** One request to the model, and everything up to the end of its turn. */
    method RunModelTurn(ghost turns: seq<Turn>)
      returns (r: TurnResult, ghost p: Parts, ghost closing: seq<Event>)
      requires AtLoopHead(Initial(), turns, Snap())
      requires Happened(world, turns) && Asked(Given(), |turns|, requests, lastInput)
      modifies this`state, this`acc, this`reasoning, this`lastInput, this`requests, this`trace
      ensures AfterTurn(Initial(), turns, Snap(), r, p, closing) && reasoning == p.thought
      ensures TookTurn(world, |turns|, r, p, closing)
      ensures Asked(Given(), |turns| + 1, requests, lastInput)
      ensures Sent(trace) == old(Sent(trace)) + TurnEventsAt(world, |turns|)
    {
      hide Orderly, Quiet, AppendsBelow, Sent, Rows, SaidIn, RecordedIn, VerdictsIn, Conversation, RowsAfter,
        CarriedAfter, Calls, NoLoop;
      hide Happened, Asked, Compacted, IsReading, TookTurn, TurnEventsAt;
      ghost var before := Snap();
      AskedStep(Given(), turns, messages, requests, lastInput);
      var n := toolRounds + truncations;
      var compacted := ApplyCompaction(messages, cfg, lastInput, scale);
      requests := requests + [compacted];
      reasoning := "";
      ghost var evs;
      r, p, evs := ReadTurn(world.open(n), world.freshId(n));
      closing := VerdictsIn(evs);
      ReadingIsTurn(world, n, r, p, evs);
      TurnLands(Initial(), turns, before, Snap(), r, p, evs);
    }

    /** Runs a tool call; without an executor the client is told of a start only. */
    method ExecTool(call: ToolCall, n: nat) returns (output: string)
      requires Tidy(trace, lastSeq)
      modifies this`executed, this`trace
      ensures output == world.toolOutput(n) && executed == old(executed) + [ToolFingerprint(call.name, call.args)]
      ensures Tidy(trace, lastSeq) && Rows(trace) == old(Rows(trace))
      ensures Sent(trace) == old(Sent(trace)) + ToolEvents(call, world.hasTools)
      ensures ToolEvents(call, world.hasTools)
              == if world.hasTools then [ToolStart(call.id, call.name, call.args), ToolEnd(call.id)]
                 else [ToolStart(call.id, call.name, call.args)]
    {
      hide Orderly, Quiet, AppendsBelow, Sent, Rows;
      var _ := Emit(ToolStart(call.id, call.name, call.args));
      executed := executed + [ToolFingerprint(call.name, call.args)];
      output := world.toolOutput(n);
      if world.hasTools {
        var _ := Emit(ToolEnd(call.id));
      }
    }

    method EmitError(kind: ErrorKind, ghost pending: string)
      requires Tidy(trace, lastSeq) && Balanced(trace, pending, [])
      modifies this`trace
      ensures Tidy(trace, lastSeq) && Rows(trace) == old(Rows(trace))
      ensures Sent(trace) == old(Sent(trace)) + [LifecycleError(kind)]
      ensures Balanced(trace, pending, [LifecycleError(kind)])
    {
      ghost var before := trace;
      var _ := Emit(LifecycleError(kind));
      OneEvent(LifecycleError(kind));
      EventsBalance(before, trace, [LifecycleError(kind)], pending);
      assert pending + "" == pending;
    }

    /** The whole reply, truncated pieces included, becomes one row. */
    method FinishReply(ghost turns: seq<Turn>, ghost p: Parts, ghost closing: seq<Event>) returns (outcome: Outcome)
      requires AfterTurn(Initial(), turns, Snap(), TurnCompleted, p, closing)
      modifies this`trace, this`lastSeq
      ensures outcome == Completed && Ended(turns, trace, executed, TurnCompleted, p, closing)
      ensures Sent(trace) == old(Sent(trace))
    {
      ghost var before := Snap();
      Persist(Assistant, carried + acc, None, None);
      assert Recorded(trace) + "" == Recorded(trace);
      ReplyEnds(Initial(), turns, before, p, trace, closing);
      outcome := OutcomeOf(state);
    }

    /** The third truncation: nothing of the fragments is written. */
    method GiveUp(ghost turns: seq<Turn>, inside: bool, ghost p: Parts)
      requires AfterTurn(Initial(), turns, Snap(), TurnTruncated(inside), p, [])
               && truncations >= MAX_TRUNCATION_CONTINUATIONS
      modifies this`trace
      ensures Ended(turns, trace, executed, TurnTruncated(inside), p, [])
      ensures Sent(trace) == old(Sent(trace)) + [LifecycleError(CutOff)]
    {
      ghost var before := Snap();
      EmitError(CutOff, carried + p.text);
      CutOffEnds(Initial(), turns, before, inside, p, trace);
    }

    /** Asks the model to go on; the text so far is kept for the final row, not written yet. */
    method ContinueAfterCut(ghost turns: seq<Turn>, inside: bool, ghost p: Parts)
      requires AfterTurn(Initial(), turns, Snap(), TurnTruncated(inside), p, [])
               && truncations < MAX_TRUNCATION_CONTINUATIONS
      modifies this`messages, this`carried, this`acc, this`truncations
      ensures AtLoopHead(Initial(), turns + [CutTurn(p.text, inside)], Snap())
      ensures toolRounds + truncations == |turns| + 1 && truncations == old(truncations) + 1
    {
      hide Orderly, Quiet, AppendsBelow, Sent, Rows, SaidIn, RecordedIn, VerdictsIn, Conversation, RowsAfter,
        CarriedAfter, Calls, NoLoop;
      ghost var t := CutTurn(p.text, inside);
      ghost var after := Snap().(messages := messages + TurnMessages(t), carried := carried + p.text,
                                 acc := "", truncations := truncations + 1);
      CutGoesOn(Initial(), turns, Snap(), inside, p);
      truncations := truncations + 1;
      if acc != "" {
        messages := messages + [Plain(Assistant, acc)];
        carried := carried + acc;
      }
      messages := messages + [Plain(User, if inside then TOOL_TRUNCATION_INSTRUCTION else CONTINUATION_INSTRUCTION)];
      acc := "";
      assert messages == after.messages;
      assert carried == after.carried;
      assert Snap() == after;
    }

    /** Writes the dispatch, with the text carried over, before the tool runs. */
    method WriteDispatch(ghost turns: seq<Turn>, call: ToolCall, ghost p: Parts)
      requires AfterTurn(Initial(), turns, Snap(), TurnToolCall(call.id, call.name, call.args), p, [])
               && reasoning == p.thought
      modifies this`messages, this`carried, this`trace, this`lastSeq
      ensures AfterDispatch(Initial(), turns, Snap(), p, call) && Sent(trace) == old(Sent(trace))
    {
      hide Orderly, Quiet, AppendsBelow, Sent, Rows, SaidIn, RecordedIn, VerdictsIn, Conversation, RowsAfter,
        CarriedAfter, Calls, NoLoop;
      ghost var before := Snap();
      messages := messages + [Message(Assistant, acc, None, [call], if reasoning == "" then None else Some(reasoning))];
      var full := carried + acc;
      carried := "";
      Persist(Assistant, full, Some([call]), None);
      DispatchIsWritten(Initial(), turns, before, p, call, trace, lastSeq);
      assert Snap() == before.(messages := messages, carried := "", trace := trace, lastSeq := lastSeq);
    }

    /** Runs a call and writes its result, unless that is empty. */
    method RunAndRecord(call: ToolCall, n: nat) returns (output: string)
      requires Tidy(trace, lastSeq) && Balanced(trace, "", [])
      modifies this`executed, this`trace, this`lastSeq
      ensures output == world.toolOutput(n) && executed == old(executed) + [ToolFingerprint(call.name, call.args)]
      ensures Tidy(trace, lastSeq) && Balanced(trace, "", [])
      ensures Rows(trace) == old(Rows(trace)) + Written(Row(Tool, output, None, Some(call.id)))
      ensures Sent(trace) == old(Sent(trace)) + ToolEvents(call, world.hasTools)
    {
      hide Orderly, Quiet, AppendsBelow, Sent, Rows, SaidIn, RecordedIn, VerdictsIn, Conversation, RowsAfter,
        CarriedAfter, Calls, NoLoop;
      ghost var before := trace;
      output := ExecTool(call, n);
      ToolEventsAreSilent(call, world.hasTools);
      EventsBalance(before, trace, ToolEvents(call, world.hasTools), "");
      Persist(Tool, output, None, Some(call.id));
      assert Recorded(trace) + "" == Recorded(trace);
    }

    method BackToModel(callId: string)
      requires state == AwaitingTool && Tidy(trace, lastSeq)
      modifies this`state, this`acc, this`trace
      ensures state == AwaitingModel && acc == "" && trace == old(trace)
    {
      hide Orderly, Quiet, AppendsBelow, Sent, Rows;
      var (next, effects) := Step(state, ToolResult(callId), acc);
      state := next;
      var _ := ExecuteEffects(effects);
      acc := "";
    }

    /** Runs the call and feeds its result back; an empty result is not written. */
    method CarryOutCall(ghost turns: seq<Turn>, call: ToolCall, ghost p: Parts, n: nat)
      requires AfterDispatch(Initial(), turns, Snap(), p, call) && toolRounds < MAX_TOOL_ROUNDS
      requires !DetectLoop(executed + [ToolFingerprint(call.name, call.args)], LOOP_REPEAT_THRESHOLD)
      modifies this`state, this`acc, this`messages, this`fingerprints, this`toolRounds, this`executed, this`trace,
               this`lastSeq
      ensures AtLoopHead(Initial(), turns + [ToolTurn(p.text, p.thought, call, world.toolOutput(n))], Snap())
      ensures toolRounds == old(toolRounds) + 1
      ensures Sent(trace) == old(Sent(trace)) + ToolEvents(call, world.hasTools)
    {
      hide AtLoopHead, AfterDispatch, Tidy, Balanced, Sent, Rows, Orderly, DetectLoop;
      DispatchShows(Initial(), turns, Snap(), p, call);
      ghost var before := Snap();
      fingerprints := fingerprints + [ToolFingerprint(call.name, call.args)];
      toolRounds := toolRounds + 1;
      var output := RunAndRecord(call, n);
      messages := messages + [ResultMessage(call.id, output)];
      BackToModel(call.id);
      CallGoesOn(Initial(), turns, before, p, call, output, trace, lastSeq);
      assert Snap() == before.(state := AwaitingModel, acc := "", messages := messages, toolRounds := toolRounds,
                               fingerprints := fingerprints, executed := executed, trace := trace, lastSeq := lastSeq);
    }

    /** Announces the run; false when nobody is there to hear it. */
    method Begin() returns (started: bool)
      requires state == Idle && acc == "" && carried == "" && messages == Initial()
      requires fingerprints == executed == [] && toolRounds == truncations == 0 && lastInput == None
      requires requests == [] && trace == []
      modifies this`state, this`acc, this`trace
      ensures started == world.startDelivered && state == AwaitingModel
      ensures AtLoopHead(Initial(), [], Snap())
      ensures Sent(trace) == [LifecycleStart] && Rows(trace) == [] && InOrder(trace)
    {
      TwoEffects(EmitLifecycleStart, CallModel);
      var (next, effects) := Step(state, Start, acc);
      state := next;
      started := ExecuteEffects(effects);
      NewRunIsAtLoopHead(Initial(), Snap());
    }

    method ReportLoop(ghost turns: seq<Turn>, call: ToolCall, ghost p: Parts)
      requires AfterDispatch(Initial(), turns, Snap(), p, call)
      requires || toolRounds >= MAX_TOOL_ROUNDS
               || DetectLoop(fingerprints + [ToolFingerprint(call.name, call.args)], LOOP_REPEAT_THRESHOLD)
      modifies this`trace
      ensures Ended(turns, trace, executed, TurnToolCall(call.id, call.name, call.args), p, [])
      ensures Sent(trace) == old(Sent(trace)) + [LifecycleError(LoopFound)]
    {
      ghost var before := Snap();
      EmitError(LoopFound, "");
      LoopEnds(Initial(), turns, before, p, call, trace);
    }

    method HandleCut(ghost turns: seq<Turn>, inside: bool, ghost p: Parts) returns (goesOn: bool)
      requires AfterTurn(Initial(), turns, Snap(), TurnTruncated(inside), p, [])
      requires truncations <= MAX_TRUNCATION_CONTINUATIONS
      modifies this`messages, this`carried, this`acc, this`truncations, this`trace
      ensures goesOn ==>
                && AtLoopHead(Initial(), turns + [CutTurn(p.text, inside)], Snap())
                && truncations == old(truncations) + 1 <= MAX_TRUNCATION_CONTINUATIONS
      ensures !goesOn ==> Ended(turns, trace, executed, TurnTruncated(inside), p, [])
      ensures Sent(trace) == old(Sent(trace)) + if goesOn then [] else [LifecycleError(CutOff)]
    {
      hide AfterTurn, AtLoopHead, Ended;
      if truncations >= MAX_TRUNCATION_CONTINUATIONS {
        GiveUp(turns, inside, p);
        goesOn := false;
      } else {
        ContinueAfterCut(turns, inside, p);
        goesOn := true;
      }
    }

    method HandleCall(ghost turns: seq<Turn>, call: ToolCall, ghost p: Parts) returns (goesOn: bool)
      requires AfterTurn(Initial(), turns, Snap(), TurnToolCall(call.id, call.name, call.args), p, [])
               && reasoning == p.thought
      requires toolRounds <= MAX_TOOL_ROUNDS && toolRounds + truncations == |turns|
      modifies this`state, this`acc, this`carried, this`messages, this`fingerprints, this`toolRounds, this`executed,
               this`trace, this`lastSeq
      ensures goesOn ==>
                && AtLoopHead(Initial(), turns + [ToolTurn(p.text, p.thought, call, world.toolOutput(|turns|))], Snap())
                && toolRounds == old(toolRounds) + 1 <= MAX_TOOL_ROUNDS
      ensures !goesOn ==> Ended(turns, trace, executed, TurnToolCall(call.id, call.name, call.args), p, [])
      ensures Sent(trace) == old(Sent(trace))
                             + if goesOn then ToolEvents(call, world.hasTools) else [LifecycleError(LoopFound)]
    {
      hide AfterTurn, AtLoopHead, Ended, DetectLoop, Counted, Balanced, Tidy;
      WriteDispatch(turns, call, p);
      var loops := DetectLoop(fingerprints + [ToolFingerprint(call.name, call.args)], LOOP_REPEAT_THRESHOLD);
      if loops || toolRounds >= MAX_TOOL_ROUNDS {
        ReportLoop(turns, call, p);
        goesOn := false;
      } else {
        CarryOutCall(turns, call, p, toolRounds + truncations);
        goesOn := true;
      }
    }

    /** What the turn led to: an outcome, or back to the loop head. */
    method HandleTurn(ghost turns: seq<Turn>, r: TurnResult, ghost p: Parts, ghost closing: seq<Event>)
      returns (over: Option<Outcome>, ghost more: seq<Turn>)
      requires AfterTurn(Initial(), turns, Snap(), r, p, closing) && reasoning == p.thought
      requires Happened(world, turns) && TookTurn(world, |turns|, r, p, closing)
      requires toolRounds <= MAX_TOOL_ROUNDS && truncations <= MAX_TRUNCATION_CONTINUATIONS
      requires toolRounds + truncations == |turns|
      requires Sent(trace) == EventsBefore(world, |turns|) + TurnEventsAt(world, |turns|)
      modifies this`state, this`acc, this`carried, this`messages, this`fingerprints, this`toolRounds, this`truncations,
        this`executed, this`trace, this`lastSeq
      ensures over == None ==>
                && AtLoopHead(Initial(), more, Snap()) && Happened(world, more) && |more| == |turns| + 1
                && toolRounds <= MAX_TOOL_ROUNDS && truncations <= MAX_TRUNCATION_CONTINUATIONS
                && toolRounds + truncations == |more| && Sent(trace) == EventsBefore(world, |more|)
      ensures over.Some? ==>
                && Ended(turns, trace, executed, r, p, closing) && over.value == OutcomeFor(r)
                && Sent(trace) == RunEvents(world, |turns|)
    {
      hide AtLoopHead, AfterTurn, AfterDispatch, Happened, TookTurn, Ended, TurnMessages, Sent, StateFits, TurnEventsAt,
        EventsBefore, RunEvents, ToolEvents;
      match r {
        case TurnCompleted =>
          LastTurnSends(world, |turns|, r, p, closing);
          var outcome := FinishReply(turns, p, closing);
          return Some(outcome), turns;
        case TurnTerminal(outcome) =>
          LastTurnSends(world, |turns|, r, p, closing);
          VerdictEnds(Initial(), turns, Snap(), r, p, closing);
          return Some(outcome), turns;
        case TurnTruncated(inside) =>
          CutHappens(world, turns, inside, p, closing);
          CutSends(world, |turns|, inside, p, closing);
          AppendNothing(Sent(trace), []);
          var goesOn := HandleCut(turns, inside, p);
          return if goesOn then None else Some(Failed(CUT_OFF)), turns + [CutTurn(p.text, inside)];
        case TurnToolCall(callId, name, args) =>
          var call := ToolCall(callId, name, args);
          CallHappens(world, turns, call, p, closing);
          CallSends(world, |turns|, call, p, closing);
          var goesOn := HandleCall(turns, call, p);
          return if goesOn then None else Some(LoopDetected),
                 turns + [ToolTurn(p.text, p.thought, call, world.toolOutput(|turns|))];
      }
    }

    /** Drives the run to its end; `turns` are the turns that went on, `r`, `p` and `closing` tell of the last one. */
    method DriveInner()
      returns (outcome: Outcome, ghost turns: seq<Turn>, r: TurnResult, ghost p: Parts, ghost closing: seq<Event>)
      requires state == Idle && acc == "" && carried == "" && messages == Initial()
      requires fingerprints == executed == [] && toolRounds == truncations == 0 && lastInput == None
      requires requests == [] && trace == []
      modifies this
      ensures !world.startDelivered ==>
                && outcome == Completed && requests == [] && executed == []
                && Sent(trace) == [LifecycleStart] && Rows(trace) == [] && InOrder(trace)
      ensures world.startDelivered ==>
                && Happened(world, turns) && TookTurn(world, |turns|, r, p, closing)
                && Ended(turns, trace, executed, r, p, closing)
                && Asked(Given(), |turns| + 1, requests, lastInput)
                && outcome == OutcomeFor(r) && Sent(trace) == RunEvents(world, |turns|)
    {
      hide AtLoopHead, AfterTurn, AfterDispatch, Happened, TookTurn, RequestsTo, InputBefore, Ended, Tidy,
        Sent, Rows, Asked, StateFits, EventsBefore, TurnEventsAt, RunEvents, OutcomeFor, Snap, Orderly, Quiet;
      turns, r, p, closing := [], TurnCompleted, Parts("", "", "", "", "", None), [];
      var started := Begin();
      if !started {
        outcome := OutcomeOf(state);
        return;
      }
      NothingHappened(Given());
      while true
        invariant world.startDelivered
        invariant AtLoopHead(Initial(), turns, Snap())
        invariant Happened(world, turns) && Asked(Given(), |turns|, requests, lastInput)
        invariant toolRounds <= MAX_TOOL_ROUNDS && truncations <= MAX_TRUNCATION_CONTINUATIONS
        invariant toolRounds + truncations == |turns|
        invariant Sent(trace) == EventsBefore(world, |turns|)
        decreases MAX_TOOL_ROUNDS - toolRounds + MAX_TRUNCATION_CONTINUATIONS - truncations
      {
        r, p, closing := RunModelTurn(turns);
        ghost var more;
        var over;
        over, more := HandleTurn(turns, r, p, closing);
        if over.Some? {
          outcome := over.value;
          return;
        }
        turns := more;
      }
    }
  }
}
