/** The pure run state machine and the loop detector. */
module Agent {

  datatype Outcome = Completed | Aborted | Failed(reason: string) | Panicked | LoopDetected

  datatype RunState = Idle | AwaitingModel | Streaming | AwaitingTool | Terminal(outcome: Outcome)

  datatype StepEvent =
    | Start
    | ModelText(text: string)
    | ModelToolCall(callId: string, name: string, args: string)
    | ModelDone
    | ModelLength
    | ModelError(message: string)
    | Abort
    | ToolResult(resultId: string)

  datatype Effect =
    | CallModel
    | EmitAssistant(text: string)
    | ExecTool(callId: string, name: string, args: string)
    | EmitLifecycleStart
    | EmitLifecycleEnd
    | EmitLifecycleError(message: string)
    | PersistAssistant(full: string)

  function Step(state: RunState, event: StepEvent, acc: string): (RunState, seq<Effect>) {
    match (state, event)
    case (Idle, Start) => (AwaitingModel, [EmitLifecycleStart, CallModel])
    case (AwaitingModel, ModelText(t)) => (Streaming, [EmitAssistant(t)])
    case (Streaming, ModelText(t)) => (Streaming, [EmitAssistant(t)])
    case (AwaitingModel, ModelDone) => (Terminal(Completed), [PersistAssistant(acc), EmitLifecycleEnd])
    case (Streaming, ModelDone) => (Terminal(Completed), [PersistAssistant(acc), EmitLifecycleEnd])
    case (AwaitingModel, ModelLength) => (Terminal(Completed), [PersistAssistant(acc), EmitLifecycleEnd])
    case (Streaming, ModelLength) => (Terminal(Completed), [PersistAssistant(acc), EmitLifecycleEnd])
    case (AwaitingModel, ModelToolCall(id, name, args)) => (AwaitingTool, [ExecTool(id, name, args)])
    case (Streaming, ModelToolCall(id, name, args)) => (AwaitingTool, [ExecTool(id, name, args)])
    case (AwaitingTool, ToolResult(_)) => (AwaitingModel, [CallModel])
    case (_, Abort) =>
      if state.Terminal? then (state, []) else (Terminal(Aborted), [EmitLifecycleError("aborted")])
    case (_, ModelError(msg)) =>
      if state.Terminal? then (state, []) else (Terminal(Failed(msg)), [EmitLifecycleError(msg)])
    case (_, _) => (state, [])
  }

  function StepAll(state: RunState, events: seq<StepEvent>, acc: string): (RunState, seq<Effect>)
    decreases |events|
  {
    if events == [] then (state, [])
    else
      var (next, effects) := Step(state, events[0], acc);
      var (last, more) := StepAll(next, events[1..], acc);
      (last, effects + more)
  }

  predicate EndsRun(e: Effect) {
    e.EmitLifecycleEnd? || e.EmitLifecycleError?
  }

  function CountEnds(es: seq<Effect>): nat {
    if es == [] then 0 else (if EndsRun(es[0]) then 1 else 0) + CountEnds(es[1..])
  }

  lemma {:induction false} CountEndsConcat(a: seq<Effect>, b: seq<Effect>)
    ensures CountEnds(a + b) == CountEnds(a) + CountEnds(b)
  {
    if a == [] {
      assert a + b == b;
    } else {
      CountEndsConcat(a[1..], b);
      assert (a + b)[1..] == a[1..] + b;
    }
  }

  /** From any state and over any events, the machine itself announces at most one end. */
  lemma {:induction false} AtMostOneEnd(state: RunState, events: seq<StepEvent>, acc: string)
    ensures var (last, effects) := StepAll(state, events, acc);
            && CountEnds(effects) == (if last.Terminal? && !state.Terminal? then 1 else 0)
            && (state.Terminal? ==> last == state && effects == [])
    decreases |events|
  {
    if events != [] {
      var (next, effects) := Step(state, events[0], acc);
      AtMostOneEnd(next, events[1..], acc);
      CountEndsConcat(effects, StepAll(next, events[1..], acc).1);
      StepEndsOnce(state, events[0], acc);
    }
  }

  lemma StepEndsOnce(state: RunState, event: StepEvent, acc: string)
    ensures var (next, effects) := Step(state, event, acc);
            && CountEnds(effects) == (if next.Terminal? && !state.Terminal? then 1 else 0)
            && (state.Terminal? ==> next == state && effects == [])
  {
    var (next, effects) := Step(state, event, acc);
    if |effects| == 2 {
      assert effects == [effects[0]] + [effects[1]];
      CountEndsConcat([effects[0]], [effects[1]]);
    }
  }

  datatype ToolFingerprint = ToolFingerprint(name: string, args: string)

  function Occurrences(fs: seq<ToolFingerprint>, f: ToolFingerprint): nat {
    if fs == [] then 0
    else Occurrences(fs[..|fs| - 1], f) + if fs[|fs| - 1] == f then 1 else 0
  }

  lemma {:induction false} OccurrencesBound(fs: seq<ToolFingerprint>, f: ToolFingerprint)
    ensures Occurrences(fs, f) <= |fs|
  {
    if fs != [] {
      OccurrencesBound(fs[..|fs| - 1], f);
    }
  }

  function DetectLoop(recent: seq<ToolFingerprint>, repeatThreshold: nat): bool {
    if |recent| < repeatThreshold then false
    else if recent == [] then false
    else Occurrences(recent, recent[|recent| - 1]) >= repeatThreshold
  }

  /** The early exit on short sequences never hides a loop. */
  lemma DetectLoopCountsTheLast(recent: seq<ToolFingerprint>, repeatThreshold: nat)
    requires recent != []
    ensures DetectLoop(recent, repeatThreshold)
            <==> Occurrences(recent, recent[|recent| - 1]) >= repeatThreshold
  {
    OccurrencesBound(recent, recent[|recent| - 1]);
  }

  // ----- Whole paths through the machine -----

  function Spoken(texts: seq<string>): seq<StepEvent> {
    if texts == [] then [] else [ModelText(texts[0])] + Spoken(texts[1..])
  }

  function Emitted(texts: seq<string>): seq<Effect> {
    if texts == [] then [] else [EmitAssistant(texts[0])] + Emitted(texts[1..])
  }

  lemma {:induction false} StepAllConcat(state: RunState, a: seq<StepEvent>, b: seq<StepEvent>, acc: string)
    ensures var (mid, first) := StepAll(state, a, acc);
            var (last, second) := StepAll(mid, b, acc);
            StepAll(state, a + b, acc) == (last, first + second)
    decreases |a|
  {
    if a == [] {
      assert a + b == b;
      var second := StepAll(state, b, acc).1;
      assert [] + second == second;
    } else {
      var (next, effects) := Step(state, a[0], acc);
      StepAllConcat(next, a[1..], b, acc);
      assert (a + b)[1..] == a[1..] + b;
      var (mid, first) := StepAll(next, a[1..], acc);
      var second := StepAll(mid, b, acc).1;
      assert effects + (first + second) == effects + first + second;
    }
  }

  lemma OneStep(state: RunState, event: StepEvent, acc: string)
    ensures StepAll(state, [event], acc) == Step(state, event, acc)
  {
    assert [event][1..] == [];
    assert StepAll(Step(state, event, acc).0, [], acc) == (Step(state, event, acc).0, []);
    assert Step(state, event, acc).1 + [] == Step(state, event, acc).1;
  }

  /** Pieces of text are passed on one by one, in order. */
  lemma {:induction false} TextIsPassedOn(state: RunState, texts: seq<string>, acc: string)
    requires state == AwaitingModel || state == Streaming
    ensures StepAll(state, Spoken(texts), acc) == (if texts == [] then state else Streaming, Emitted(texts))
    decreases |texts|
  {
    if texts != [] {
      var events := Spoken(texts);
      assert events[0] == ModelText(texts[0]) && events[1..] == Spoken(texts[1..]);
      TextIsPassedOn(Streaming, texts[1..], acc);
      assert Step(state, events[0], acc) == (Streaming, [EmitAssistant(texts[0])]);
    }
  }

  /**
    One turn of the model from a live state: its text is passed on, and then, as it ends,
    the reply is to be written and the run is over, or the tool is called, or it has failed
    or was stopped; a tool's result leads back to the model.
   */
  lemma TurnRunsThrough(state: RunState, texts: seq<string>, last: StepEvent, acc: string)
    requires state == AwaitingModel || state == Streaming
    ensures StepAll(state, Spoken(texts) + [last], acc)
            == match last
               case ModelDone => (Terminal(Completed), Emitted(texts) + [PersistAssistant(acc), EmitLifecycleEnd])
               case ModelLength => (Terminal(Completed), Emitted(texts) + [PersistAssistant(acc), EmitLifecycleEnd])
               case ModelToolCall(id, name, args) => (AwaitingTool, Emitted(texts) + [ExecTool(id, name, args)])
               case ModelError(message) => (Terminal(Failed(message)), Emitted(texts) + [EmitLifecycleError(message)])
               case Abort => (Terminal(Aborted), Emitted(texts) + [EmitLifecycleError("aborted")])
               case ModelText(text) => (Streaming, Emitted(texts) + [EmitAssistant(text)])
               case _ => (if texts == [] then state else Streaming, Emitted(texts) + [])
    ensures Step(Idle, Start, acc) == (AwaitingModel, [EmitLifecycleStart, CallModel])
    ensures forall id :: Step(AwaitingTool, ToolResult(id), acc) == (AwaitingModel, [CallModel])
  {
    TextIsPassedOn(state, texts, acc);
    StepAllConcat(state, Spoken(texts), [last], acc);
    OneStep(if texts == [] then state else Streaming, last, acc);
  }
}
