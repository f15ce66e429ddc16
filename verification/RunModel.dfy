/**
  What the driver of a run keeps true, on values: the requests it makes, the messages and
  rows its turns add up to, the text that is sent but not yet written, and how it ends.
 */
module RunModel {
  import opened Basics
  import opened Messages
  import opened Agent
  import opened Events
  import opened Turns
  import opened Compaction

  const CUT_OFF := "输出被 max_tokens 截断"

  /** What a run is given. */
  datatype Context = Context(initial: seq<Message>, cfg: CompactCfg, scale: Calibration, world: World)

  /** The driver's variables, and what the outside has seen of it. */
  datatype Snapshot = Snapshot(
    state: RunState, acc: string, carried: string, messages: seq<Message>,
    fingerprints: seq<ToolFingerprint>, toolRounds: nat, truncations: nat,
    executed: seq<ToolFingerprint>, trace: seq<SinkOp>, lastSeq: int)

  // ----- The run and its world -----

  ghost predicate AllGoOn(w: World, n: nat) {
    forall i :: 0 <= i < n ==> GoesOnAfter(ResultAt(w, i))
  }

  /** `turns` are the first turns of the world, and each of them goes on. */
  ghost predicate Happened(w: World, turns: seq<Turn>) {
    turns == TurnsTo(w, |turns|) && AllGoOn(w, |turns|)
  }

  /** Turn number `n` returned `r` with the parts `p` and announced `verdicts`. */
  ghost predicate TookTurn(w: World, n: nat, r: TurnResult, p: Parts, verdicts: seq<Event>) {
    && r == ResultAt(w, n) && p == PartsOf(w.open(n))
    && verdicts == ClosingEvents(r, WatchdogFired(w.open(n)))
  }

  /** Request number `i` is the conversation so far, fitted into the budget. */
  function RequestAt(c: Context, i: nat): seq<Message> {
    Compacted(c.initial + Conversation(TurnsTo(c.world, i)), c.cfg, InputBefore(c.world, i), c.scale)
  }

  function RequestsTo(c: Context, n: nat): seq<seq<Message>> {
    if n == 0 then [] else RequestsTo(c, n - 1) + [RequestAt(c, n - 1)]
  }

  /** The first `n` requests were made, and the provider last reported `lastInput`. */
  ghost predicate Asked(c: Context, n: nat, requests: seq<seq<Message>>, lastInput: Option<int>) {
    requests == RequestsTo(c, n) && lastInput == InputBefore(c.world, n)
  }

  lemma AskedStep(c: Context, turns: seq<Turn>, messages: seq<Message>, requests: seq<seq<Message>>,
                  lastInput: Option<int>)
    requires Happened(c.world, turns) && Asked(c, |turns|, requests, lastInput)
    requires messages == c.initial + Conversation(turns)
    ensures Asked(c, |turns| + 1,
                  requests + [Compacted(messages, c.cfg, lastInput, c.scale)],
                  Latest(PartsOf(c.world.open(|turns|)).input, lastInput))
  {
  }

  lemma HappenedStep(w: World, turns: seq<Turn>)
    requires Happened(w, turns) && GoesOnAfter(ResultAt(w, |turns|))
    ensures Happened(w, turns + [TurnAt(w, |turns|)])
  {
  }

  lemma CutHappens(w: World, turns: seq<Turn>, inside: bool, p: Parts, verdicts: seq<Event>)
    requires Happened(w, turns) && TookTurn(w, |turns|, TurnTruncated(inside), p, verdicts)
    ensures Happened(w, turns + [CutTurn(p.text, inside)]) && verdicts == []
  {
    HappenedStep(w, turns);
  }

  lemma CallHappens(w: World, turns: seq<Turn>, call: ToolCall, p: Parts, verdicts: seq<Event>)
    requires Happened(w, turns)
    requires TookTurn(w, |turns|, TurnToolCall(call.id, call.name, call.args), p, verdicts)
    ensures Happened(w, turns + [ToolTurn(p.text, p.thought, call, w.toolOutput(|turns|))]) && verdicts == []
  {
    HappenedStep(w, turns);
  }

  // ----- What the client is sent -----

  function TurnEventsAt(w: World, i: nat): seq<Event> {
    TurnEvents(w.open(i), w.freshId(i))
  }

  /** What a turn that goes on sends behind its stream: the tool it runs. */
  function ToolEventsAt(w: World, i: nat): seq<Event> {
    match ResultAt(w, i)
    case TurnToolCall(id, name, args) => ToolEvents(ToolCall(id, name, args), w.hasTools)
    case _ => []
  }

  /** Everything sent before turn number `n`. */
  function EventsBefore(w: World, n: nat): seq<Event> {
    if n == 0 then [LifecycleStart] else EventsBefore(w, n - 1) + TurnEventsAt(w, n - 1) + ToolEventsAt(w, n - 1)
  }

  /** What is sent behind the stream of the turn that ends the run. */
  function Afterword(r: TurnResult): seq<Event> {
    match r
    case TurnToolCall(_, _, _) => [LifecycleError(LoopFound)]
    case TurnTruncated(_) => [LifecycleError(CutOff)]
    case _ => []
  }

  /** Everything sent by a run whose turn number `n` ends it. */
  function RunEvents(w: World, n: nat): seq<Event> {
    EventsBefore(w, n) + TurnEventsAt(w, n) + Afterword(ResultAt(w, n))
  }

  lemma NothingHappened(c: Context)
    ensures Happened(c.world, []) && Asked(c, 0, [], None) && EventsBefore(c.world, 0) == [LifecycleStart]
  {
  }

  lemma CutSends(w: World, n: nat, inside: bool, p: Parts, verdicts: seq<Event>)
    requires TookTurn(w, n, TurnTruncated(inside), p, verdicts)
    ensures EventsBefore(w, n + 1) == EventsBefore(w, n) + TurnEventsAt(w, n)
    ensures RunEvents(w, n) == EventsBefore(w, n) + TurnEventsAt(w, n) + [LifecycleError(CutOff)]
  {
    hide TurnEventsAt;
  }

  lemma CallSends(w: World, n: nat, call: ToolCall, p: Parts, verdicts: seq<Event>)
    requires TookTurn(w, n, TurnToolCall(call.id, call.name, call.args), p, verdicts)
    ensures EventsBefore(w, n + 1) == EventsBefore(w, n) + TurnEventsAt(w, n) + ToolEvents(call, w.hasTools)
    ensures RunEvents(w, n) == EventsBefore(w, n) + TurnEventsAt(w, n) + [LifecycleError(LoopFound)]
  {
    hide TurnEventsAt;
  }

  lemma LastTurnSends(w: World, n: nat, r: TurnResult, p: Parts, verdicts: seq<Event>)
    requires TookTurn(w, n, r, p, verdicts) && !GoesOnAfter(r)
    ensures RunEvents(w, n) == EventsBefore(w, n) + TurnEventsAt(w, n)
  {
    hide TurnEventsAt;
  }

  // ----- Invariants, as predicates on snapshots -----

  /** The trace is in order, and new rows get larger numbers. */
  ghost predicate Tidy(trace: seq<SinkOp>, lastSeq: int) {
    InOrder(trace) && AppendsBelow(trace, lastSeq + 1)
  }

  predicate IsLive(state: RunState) {
    state == AwaitingModel || state == Streaming
  }

  /** What the state machine has reached when a turn returns. */
  predicate StateFits(state: RunState, r: TurnResult) {
    match r
    case TurnCompleted => state == Terminal(Completed)
    case TurnToolCall(_, _, _) => state == AwaitingTool
    case TurnTruncated(_) => IsLive(state)
    case TurnTerminal(outcome) => state == Terminal(outcome)
  }

  /** Rounds and truncations are counted, and no call loops. */
  ghost predicate Counted(turns: seq<Turn>, rounds: nat, cuts: nat, calls: seq<ToolFingerprint>) {
    && |turns| == rounds + cuts && rounds <= MAX_TOOL_ROUNDS && cuts <= MAX_TRUNCATION_CONTINUATIONS
    && calls == Calls(turns) && |calls| == rounds && NoLoop(calls)
  }

  /** The messages, the carried text and the rows are what the turns say. */
  ghost predicate Follows(initial: seq<Message>, turns: seq<Turn>, messages: seq<Message>, carried: string,
                          rows: seq<Row>)
  {
    messages == initial + Conversation(turns) && carried == CarriedAfter(turns) && rows == RowsAfter(turns)
  }

  /** All text sent is in the transcript but for `pending`, and `verdicts` were announced. */
  ghost predicate Balanced(trace: seq<SinkOp>, pending: string, verdicts: seq<Event>) {
    Said(trace) == Recorded(trace) + pending && VerdictsIn(Sent(trace)) == verdicts
  }

  /** Between turns: all text sent is in the transcript or carried over to the next turn. */
  ghost predicate AtLoopHead(initial: seq<Message>, turns: seq<Turn>, s: Snapshot) {
    && IsLive(s.state) && s.acc == ""
    && Counted(turns, s.toolRounds, s.truncations, s.executed) && s.fingerprints == s.executed
    && Follows(initial, turns, s.messages, s.carried, Rows(s.trace))
    && Balanced(s.trace, s.carried, [])
    && Tidy(s.trace, s.lastSeq)
  }

  /** Right after a turn that returned `r` with the parts `p`. */
  ghost predicate AfterTurn(initial: seq<Message>, turns: seq<Turn>, s: Snapshot, r: TurnResult, p: Parts,
                            verdicts: seq<Event>)
  {
    && StateFits(s.state, r) && s.acc == p.text
    && Counted(turns, s.toolRounds, s.truncations, s.executed) && s.fingerprints == s.executed
    && Follows(initial, turns, s.messages, s.carried, Rows(s.trace))
    && Balanced(s.trace, s.carried + p.text, verdicts)
    && Tidy(s.trace, s.lastSeq)
  }

  /** Between writing a dispatch and its result: the call is in the messages and in the rows. */
  ghost predicate AfterDispatch(initial: seq<Message>, turns: seq<Turn>, s: Snapshot, p: Parts, call: ToolCall) {
    && s.state == AwaitingTool
    && Counted(turns, s.toolRounds, s.truncations, s.executed) && s.fingerprints == s.executed
    && s.messages == initial + Conversation(turns) + [DispatchMessage(p.text, p.thought, call)]
    && Rows(s.trace) == RowsAfter(turns) + [DispatchRow(CarriedAfter(turns) + p.text, call)]
    && s.carried == ""
    && Balanced(s.trace, "", [])
    && Tidy(s.trace, s.lastSeq)
  }

  // ----- How a run ends -----

  function OutcomeFor(r: TurnResult): Outcome {
    match r
    case TurnCompleted => Completed
    case TurnToolCall(_, _, _) => LoopDetected
    case TurnTruncated(_) => Failed(CUT_OFF)
    case TurnTerminal(outcome) => outcome
  }

  /** What the client is told at the end: one verdict, but two when the idle watchdog fired. */
  function Verdicts(r: TurnResult, closing: seq<Event>): seq<Event> {
    match r
    case TurnToolCall(_, _, _) => [LifecycleError(LoopFound)]
    case TurnTruncated(_) => [LifecycleError(CutOff)]
    case _ => closing
  }

  /** The run stops at a reply, an error, the third truncation, a third equal call, or the 25th round. */
  predicate Stops(turns: seq<Turn>, r: TurnResult) {
    match r
    case TurnToolCall(_, name, args) =>
      || DetectLoop(Calls(turns) + [ToolFingerprint(name, args)], LOOP_REPEAT_THRESHOLD)
      || |Calls(turns)| >= MAX_TOOL_ROUNDS
    case TurnTruncated(_) => |turns| - |Calls(turns)| >= MAX_TRUNCATION_CONTINUATIONS
    case _ => true
  }

  /** Text that was sent and never gets into the transcript. */
  function Unwritten(turns: seq<Turn>, p: Parts, r: TurnResult): string {
    if r.TurnCompleted? || r.TurnToolCall? then "" else CarriedAfter(turns) + p.text
  }

  /** A whole run: `turns` went on, and a turn returning `r` with the parts `p` ended it. */
  ghost predicate Ended(turns: seq<Turn>, trace: seq<SinkOp>, executed: seq<ToolFingerprint>, r: TurnResult, p: Parts,
                        closing: seq<Event>)
  {
    && Stops(turns, r)
    && |turns| - |Calls(turns)| <= MAX_TRUNCATION_CONTINUATIONS
    && executed == Calls(turns) && |executed| <= MAX_TOOL_ROUNDS && NoLoop(executed)
    && Rows(trace) == RowsAfter(turns) + FinalRows(CarriedAfter(turns), p.text, r)
    && Balanced(trace, Unwritten(turns, p, r), Verdicts(r, closing))
    && InOrder(trace)
  }

  // ----- How a run moves -----

  lemma EventsBalance(before: seq<SinkOp>, after: seq<SinkOp>, evs: seq<Event>, pending: string)
    requires Balanced(before, pending, [])
    requires Sent(after) == Sent(before) + evs && Rows(after) == Rows(before)
    ensures Balanced(after, pending + SaidIn(evs), VerdictsIn(evs))
  {
    assert [] + VerdictsIn(evs) == VerdictsIn(evs);
    Assoc(Recorded(before), pending, SaidIn(evs));
    SentGrows(Sent(before), evs, Sent(after));
  }

  lemma SentGrows(before: seq<Event>, evs: seq<Event>, after: seq<Event>)
    requires after == before + evs
    ensures SaidIn(after) == SaidIn(before) + SaidIn(evs)
    ensures VerdictsIn(after) == VerdictsIn(before) + VerdictsIn(evs)
  {
    SaidInConcat(before, evs);
    VerdictsInConcat(before, evs);
  }

  lemma FollowsStep(initial: seq<Message>, turns: seq<Turn>, t: Turn, messages: seq<Message>, carried: string,
                    rows: seq<Row>)
    requires Follows(initial, turns, messages, carried, rows)
    ensures Follows(initial, turns + [t], messages + TurnMessages(t), CarryOver(carried, t),
                    rows + TurnRows(carried, t))
  {
    TurnsGrow(turns, t);
    Assoc(initial, Conversation(turns), TurnMessages(t));
  }

  lemma CutCounts(turns: seq<Turn>, t: Turn, rounds: nat, cuts: nat, calls: seq<ToolFingerprint>)
    requires Counted(turns, rounds, cuts, calls) && t.CutTurn?
    requires cuts < MAX_TRUNCATION_CONTINUATIONS
    ensures Counted(turns + [t], rounds, cuts + 1, calls)
  {
    CallsGrow(turns, t);
  }

  lemma CallCounts(turns: seq<Turn>, t: Turn, rounds: nat, cuts: nat, calls: seq<ToolFingerprint>)
    requires Counted(turns, rounds, cuts, calls) && t.ToolTurn?
    requires rounds < MAX_TOOL_ROUNDS
    requires !DetectLoop(calls + CallOf(t), LOOP_REPEAT_THRESHOLD)
    ensures Counted(turns + [t], rounds + 1, cuts, calls + CallOf(t))
  {
    CallsGrow(turns, t);
    NoLoopStep(calls, ToolFingerprint(t.call.name, t.call.args));
  }

  /** A turn seen from the outside: its events and its text. */
  lemma TurnLands(initial: seq<Message>, turns: seq<Turn>, s: Snapshot, t: Snapshot, r: TurnResult, p: Parts,
                  evs: seq<Event>)
    requires AtLoopHead(initial, turns, s) && StateFits(t.state, r)
    requires t == s.(state := t.state, acc := p.text, trace := t.trace)
    requires Sent(t.trace) == Sent(s.trace) + evs && Rows(t.trace) == Rows(s.trace) && Tidy(t.trace, s.lastSeq)
    requires SaidIn(evs) == p.text
    ensures AfterTurn(initial, turns, t, r, p, VerdictsIn(evs))
  {
    EventsBalance(s.trace, t.trace, evs, s.carried);
  }

  /** The turn a truncated reply amounts to, and the state it leaves. */
  lemma CutGoesOn(initial: seq<Message>, turns: seq<Turn>, s: Snapshot, inside: bool, p: Parts)
    requires AfterTurn(initial, turns, s, TurnTruncated(inside), p, [])
    requires s.truncations < MAX_TRUNCATION_CONTINUATIONS
    ensures var t := CutTurn(p.text, inside);
            AtLoopHead(initial, turns + [t], s.(messages := s.messages + TurnMessages(t), carried := s.carried + p.text,
                                                acc := "", truncations := s.truncations + 1))
  {
    var t := CutTurn(p.text, inside);
    FollowsStep(initial, turns, t, s.messages, s.carried, Rows(s.trace));
    assert Rows(s.trace) + TurnRows(s.carried, t) == Rows(s.trace);
    CutCounts(turns, t, s.toolRounds, s.truncations, s.executed);
  }

  lemma CallFollows(initial: seq<Message>, turns: seq<Turn>, t: Turn, messages: seq<Message>, rows: seq<Row>)
    requires t.ToolTurn?
    requires messages == initial + Conversation(turns) + [DispatchMessage(t.text, t.thought, t.call)]
    requires rows == RowsAfter(turns) + [DispatchRow(CarriedAfter(turns) + t.text, t.call)]
    ensures Follows(initial, turns + [t], messages + [ResultMessage(t.call.id, t.output)], "",
                    rows + Written(Row(Tool, t.output, None, Some(t.call.id))))
  {
    FollowsStep(initial, turns, t, initial + Conversation(turns), CarriedAfter(turns), RowsAfter(turns));
    Assoc(initial + Conversation(turns), [DispatchMessage(t.text, t.thought, t.call)],
          [ResultMessage(t.call.id, t.output)]);
    Assoc(RowsAfter(turns), [DispatchRow(CarriedAfter(turns) + t.text, t.call)],
          Written(Row(Tool, t.output, None, Some(t.call.id))));
  }

  /** The turn a carried-out call amounts to, and the state it leaves. */
  lemma CallGoesOn(initial: seq<Message>, turns: seq<Turn>, s: Snapshot, p: Parts, call: ToolCall, output: string,
                   trace: seq<SinkOp>, lastSeq: int)
    requires AfterDispatch(initial, turns, s, p, call) && s.toolRounds < MAX_TOOL_ROUNDS
    requires !DetectLoop(s.executed + [ToolFingerprint(call.name, call.args)], LOOP_REPEAT_THRESHOLD)
    requires Rows(trace) == Rows(s.trace) + Written(Row(Tool, output, None, Some(call.id)))
    requires Balanced(trace, "", []) && Tidy(trace, lastSeq)
    ensures var fs := s.executed + [ToolFingerprint(call.name, call.args)];
            AtLoopHead(initial, turns + [ToolTurn(p.text, p.thought, call, output)],
                       s.(state := AwaitingModel, acc := "", messages := s.messages + [ResultMessage(call.id, output)],
                          toolRounds := s.toolRounds + 1, fingerprints := fs, executed := fs, trace := trace,
                          lastSeq := lastSeq))
  {
    var t := ToolTurn(p.text, p.thought, call, output);
    CallFollows(initial, turns, t, s.messages, Rows(s.trace));
    CallCounts(turns, t, s.toolRounds, s.truncations, s.executed);
  }

  lemma VerdictEnds(initial: seq<Message>, turns: seq<Turn>, s: Snapshot, r: TurnResult, p: Parts, closing: seq<Event>)
    requires r.TurnTerminal? && AfterTurn(initial, turns, s, r, p, closing)
    ensures Ended(turns, s.trace, s.executed, r, p, closing)
  {
    hide Orderly, Quiet, Rows, Said, Recorded, Sent, VerdictsIn, Calls, NoLoop, RowsAfter, CarriedAfter,
      Conversation, DetectLoop;
    assert RowsAfter(turns) + [] == RowsAfter(turns);
  }

  lemma ReplyEnds(initial: seq<Message>, turns: seq<Turn>, s: Snapshot, p: Parts, trace: seq<SinkOp>,
                  closing: seq<Event>)
    requires AfterTurn(initial, turns, s, TurnCompleted, p, closing)
    requires Rows(trace) == Rows(s.trace) + Written(Row(Assistant, s.carried + p.text, None, None))
    requires Balanced(trace, "", closing) && InOrder(trace)
    ensures Ended(turns, trace, s.executed, TurnCompleted, p, closing)
  {
    hide Orderly, Quiet, Rows, Said, Recorded, Sent, VerdictsIn, Calls, NoLoop, RowsAfter, CarriedAfter,
      Conversation, DetectLoop;
  }

  lemma CutOffEnds(initial: seq<Message>, turns: seq<Turn>, s: Snapshot, inside: bool, p: Parts, trace: seq<SinkOp>)
    requires AfterTurn(initial, turns, s, TurnTruncated(inside), p, [])
    requires s.truncations >= MAX_TRUNCATION_CONTINUATIONS
    requires Rows(trace) == Rows(s.trace) && InOrder(trace)
    requires Balanced(trace, s.carried + p.text, [LifecycleError(CutOff)])
    ensures Ended(turns, trace, s.executed, TurnTruncated(inside), p, [])
  {
    hide Orderly, Quiet, Rows, Said, Recorded, Sent, VerdictsIn, Calls, NoLoop, RowsAfter, CarriedAfter,
      Conversation, DetectLoop;
    assert RowsAfter(turns) + [] == RowsAfter(turns);
  }

  lemma LoopEnds(initial: seq<Message>, turns: seq<Turn>, s: Snapshot, p: Parts, call: ToolCall, trace: seq<SinkOp>)
    requires AfterDispatch(initial, turns, s, p, call)
    requires || s.toolRounds >= MAX_TOOL_ROUNDS
             || DetectLoop(s.executed + [ToolFingerprint(call.name, call.args)], LOOP_REPEAT_THRESHOLD)
    requires Rows(trace) == Rows(s.trace) && InOrder(trace)
    requires Balanced(trace, "", [LifecycleError(LoopFound)])
    ensures Ended(turns, trace, s.executed, TurnToolCall(call.id, call.name, call.args), p, [])
  {
    hide Orderly, Quiet, Rows, Said, Recorded, Sent, VerdictsIn, Calls, NoLoop, RowsAfter, CarriedAfter,
      Conversation, DetectLoop;
  }
}
