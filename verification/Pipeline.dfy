/**
  The whole path of one run: a stored transcript becomes a history, the history becomes
  requests, and the rows the run writes become the history of the next run.
 */
module Pipeline {
  import opened Basics
  import opened Messages
  import opened Agent
  import opened Events
  import opened Turns
  import opened History
  import opened Compaction
  import opened RunModel
  import opened RunResults
  import opened RunDriver
  import Resume

  ghost predicate AllWellPaired(requests: seq<seq<Message>>) {
    forall i :: 0 <= i < |requests| ==> WellPaired(requests[i])
  }

  lemma RequestsAreWellPaired(c: Context, n: nat, requests: seq<seq<Message>>, lastInput: Option<int>)
    requires WellPaired(c.initial) && Asked(c, n, requests, lastInput)
    ensures AllWellPaired(requests)
  {
    hide WellPaired, InputBefore;
    EveryRequestIsWellPaired(c, n);
  }

  lemma NewMessageIsWellPaired(userText: string)
    ensures WellPaired([Plain(User, userText)])
  {
  }

  lemma SilentRunSaysNothing(trace: seq<SinkOp>)
    requires Sent(trace) == [LifecycleStart] && Rows(trace) == []
    ensures Recorded(trace) == Said(trace) == "" && VerdictsIn(Sent(trace)) == []
  {
    hide Sent, Rows;
    OneEvent(LifecycleStart);
  }

  /**
    A run given `c`: without a client to hear its start it does nothing more; otherwise
    `turns` are the turns of its world that went on, and the turn after them ended it.
   */
  ghost predicate Ran(c: Context, turns: seq<Turn>, requests: seq<seq<Message>>, executed: seq<ToolFingerprint>,
                      trace: seq<SinkOp>, outcome: Outcome)
  {
    if c.world.startDelivered then RanThrough(c, turns, requests, executed, trace, outcome)
    else
      && requests == [] && executed == [] && outcome == Completed
      && Sent(trace) == [LifecycleStart] && Rows(trace) == [] && InOrder(trace)
  }

  ghost predicate RanThrough(c: Context, turns: seq<Turn>, requests: seq<seq<Message>>, executed: seq<ToolFingerprint>,
                             trace: seq<SinkOp>, outcome: Outcome)
  {
    var last := c.world.open(|turns|);
    var r := ResultAt(c.world, |turns|);
    && Happened(c.world, turns)
    && Ended(turns, trace, executed, r, PartsOf(last), ClosingEvents(r, WatchdogFired(last)))
    && requests == RequestsTo(c, |turns| + 1)
    && outcome == OutcomeFor(r)
    && Sent(trace) == RunEvents(c.world, |turns|)
  }

  /** How often the client is told that the run is over. */
  function Announcements(w: World, n: nat): nat {
    if !w.startDelivered then 0 else if WatchdogFired(w.open(n)) then 2 else 1
  }

  lemma EndedRanThrough(c: Context, turns: seq<Turn>, requests: seq<seq<Message>>, lastInput: Option<int>,
                        executed: seq<ToolFingerprint>, trace: seq<SinkOp>, outcome: Outcome,
                        r: TurnResult, p: Parts, closing: seq<Event>)
    requires Happened(c.world, turns) && TookTurn(c.world, |turns|, r, p, closing)
    requires Ended(turns, trace, executed, r, p, closing)
    requires Asked(c, |turns| + 1, requests, lastInput) && outcome == OutcomeFor(r)
    requires Sent(trace) == RunEvents(c.world, |turns|)
    ensures RanThrough(c, turns, requests, executed, trace, outcome)
  {
    hide Happened, Ended, RequestsTo, InputBefore, OutcomeFor, TurnOf, PartsOf, ClosingEvents, WatchdogFired, Sent,
      RunEvents;
  }

  /**
    From any stored transcript whatsoever and whatever the model and the tools do: the run
    is given the repaired longest suffix within the budget and goes the way its world says;
    every request is well paired, the run is bounded, what is written is a prefix of what
    was sent, and all of it if the run completed.
   */
  method RunOn(entries: seq<Entry>, tokenBudget: int, userText: string, cfg: CompactCfg, scale: Calibration,
               world: World, lastSeq: int)
    returns (run: Run, outcome: Outcome, ghost turns: seq<Turn>)
    ensures run.userText == userText && run.cfg == cfg && run.scale == scale && run.world == world
    ensures exists cut: nat ::
              IsBudgetCut(entries, tokenBudget, cut) && run.history == Repair(ToMessages(entries[cut..]))
    ensures run.Given()
            == Context(if run.history == [] then [Plain(User, userText)] else run.history, cfg, scale, world)
    ensures Ran(run.Given(), turns, run.requests, run.executed, run.trace, outcome)
    ensures AllWellPaired(run.requests) && InOrder(run.trace)
    ensures |run.requests| <= 27 && |run.executed| <= 24 && NoLoop(run.executed)
    ensures Recorded(run.trace) <= Said(run.trace)
    ensures outcome == Completed ==> Recorded(run.trace) == Said(run.trace)
    ensures |VerdictsIn(Sent(run.trace))| == Announcements(run.world, |turns|)
  {
    hide WellPaired, Ran, Happened, Asked, TookTurn, Balanced, Stops, RequestsTo, VerdictsIn, Sent, Rows,
      RecordedIn, SaidIn, InOrder, Repair, CarriedAfter, Ended;
    var history := LoadHistory(entries, tokenBudget);
    run := new Run(history, userText, cfg, scale, world, lastSeq);
    NewMessageIsWellPaired(userText);
    outcome, turns := Finish(run);
  }

  method Finish(run: Run) returns (outcome: Outcome, ghost turns: seq<Turn>)
    requires run.state == Idle && run.acc == "" && run.carried == "" && run.messages == run.Initial()
    requires run.fingerprints == run.executed == [] && run.toolRounds == run.truncations == 0 && run.lastInput == None
    requires run.requests == [] && run.trace == []
    requires WellPaired(run.Initial())
    modifies run
    ensures Ran(run.Given(), turns, run.requests, run.executed, run.trace, outcome)
    ensures AllWellPaired(run.requests) && InOrder(run.trace)
    ensures |run.requests| <= 27 && |run.executed| <= 24 && NoLoop(run.executed)
    ensures Recorded(run.trace) <= Said(run.trace)
    ensures outcome == Completed ==> Recorded(run.trace) == Said(run.trace)
    ensures |VerdictsIn(Sent(run.trace))| == Announcements(run.world, |turns|)
  {
    hide WellPaired, Happened, Asked, TookTurn, Ended, RanThrough, Sent, Rows, RecordedIn, SaidIn, InOrder, OutcomeFor;
    ghost var p, closing;
    var r;
    outcome, turns, r, p, closing := run.DriveInner();
    if run.world.startDelivered {
      EndedRanThrough(run.Given(), turns, run.requests, run.lastInput, run.executed, run.trace, outcome, r, p, closing);
      RunIsSound(run.Given(), turns, run.trace, run.executed, r, p, closing, run.requests, run.lastInput);
      BegunRunIsAnnounced(run.world, turns, run.trace, run.executed, r, p, closing);
    } else {
      SilentRunSaysNothing(run.trace);
    }
  }

  lemma RunIsSound(c: Context, turns: seq<Turn>, trace: seq<SinkOp>, executed: seq<ToolFingerprint>,
                   r: TurnResult, p: Parts, closing: seq<Event>,
                   requests: seq<seq<Message>>, lastInput: Option<int>)
    requires WellPaired(c.initial)
    requires Ended(turns, trace, executed, r, p, closing) && TookTurn(c.world, |turns|, r, p, closing)
    requires Asked(c, |turns| + 1, requests, lastInput)
    ensures AllWellPaired(requests) && InOrder(trace)
    ensures |requests| <= 27 && |executed| <= 24 && NoLoop(executed)
    ensures Recorded(trace) <= Said(trace)
    ensures OutcomeFor(r) == Completed ==> Recorded(trace) == Said(trace)
  {
    hide WellPaired, TookTurn, Balanced, Rows, Said, Recorded, InOrder, Stops, RequestAt, InputBefore;
    RequestsAreWellPaired(c, |turns| + 1, requests, lastInput);
    RunIsBounded(c, turns, trace, executed, r, p, closing, ToolFingerprint("", ""));
    CompletedRunIsWritten(c.world, turns, trace, executed, r, p, closing);
  }

  // ----- What the client is told -----

  /**
    A run that nobody was there to hear begin is over without a word, as if completed; any
    other is announced to be over once, but twice when the idle watchdog ended it; and it is
    said to have succeeded iff its reply was complete.
   */
  lemma EndIsAnnounced(c: Context, turns: seq<Turn>, requests: seq<seq<Message>>, executed: seq<ToolFingerprint>,
                       trace: seq<SinkOp>, outcome: Outcome)
    requires Ran(c, turns, requests, executed, trace, outcome)
    ensures |VerdictsIn(Sent(trace))| == Announcements(c.world, |turns|)
    ensures c.world.startDelivered ==>
              (LifecycleEnd in VerdictsIn(Sent(trace)) <==> ResultAt(c.world, |turns|).TurnCompleted?)
    ensures c.world.startDelivered && ResultAt(c.world, |turns|).TurnToolCall? ==>
              VerdictsIn(Sent(trace)) == [LifecycleError(LoopFound)] && outcome == LoopDetected
    ensures c.world.startDelivered && ResultAt(c.world, |turns|).TurnTruncated? ==>
              VerdictsIn(Sent(trace)) == [LifecycleError(CutOff)] && outcome.Failed?
    ensures outcome == Completed ==> (LifecycleEnd in VerdictsIn(Sent(trace)) <==> c.world.startDelivered)
  {
    hide Happened, Ended, RequestsTo, TurnOf, PartsOf, ClosingEvents, WatchdogFired, Sent, RunEvents, Rows, VerdictsIn;
    if c.world.startDelivered {
      var last, r := c.world.open(|turns|), ResultAt(c.world, |turns|);
      BegunRunIsAnnounced(c.world, turns, trace, executed, r, PartsOf(last), ClosingEvents(r, WatchdogFired(last)));
      ErrorIsNotCompletion(last, c.world.freshId(|turns|));
    } else {
      SilentRunSaysNothing(trace);
    }
  }

  /** A run that outlives its time limit is cut off anywhere, and the client is told so. */
  function CutOffAt(trace: seq<SinkOp>, n: nat): seq<SinkOp>
    requires n <= |trace|
  {
    trace[..n] + [Send(LifecycleError(TimedOut))]
  }

  /** It is announced once more than it was when cut, and what it wrote is still a prefix of what it sent. */
  lemma TimeoutIsAnnounced(c: Context, turns: seq<Turn>, requests: seq<seq<Message>>, executed: seq<ToolFingerprint>,
                           trace: seq<SinkOp>, outcome: Outcome, n: nat)
    requires Ran(c, turns, requests, executed, trace, outcome) && n <= |trace|
    ensures var cut := CutOffAt(trace, n);
            && VerdictsIn(Sent(cut)) == VerdictsIn(Sent(trace[..n])) + [LifecycleError(TimedOut)]
            && VerdictsIn(Sent(trace[..n])) <= VerdictsIn(Sent(trace))
            && Recorded(cut) <= Said(cut)
            && |VerdictsIn(Sent(cut))| <= 3
  {
    hide Happened, RequestsTo, TurnOf, PartsOf, ClosingEvents, WatchdogFired, Sent, RunEvents, Rows, VerdictsIn, Said,
      Recorded, Stops, NoLoop, Balanced;
    var op := Send(LifecycleError(TimedOut));
    OneMore(trace[..n], op);
    OneEvent(op.event);
    VerdictsInConcat(Sent(trace[..n]), [op.event]);
    VerdictsOfPrefix(trace, n);
    WrittenIsPrefixOfSent(trace, n);
    SendingOnlySays(trace[..n], op);
    EndIsAnnounced(c, turns, requests, executed, trace, outcome);
  }

  lemma {:induction false} VerdictsOfPrefix(ops: seq<SinkOp>, n: nat)
    requires n <= |ops|
    ensures VerdictsIn(Sent(ops[..n])) <= VerdictsIn(Sent(ops))
  {
    if n == |ops| {
      assert ops[..n] == ops;
    } else {
      var init := ops[..|ops| - 1];
      assert init[..n] == ops[..n];
      VerdictsOfPrefix(init, n);
      VerdictsInConcat(Sent(init), EventOfOp(ops[|ops| - 1]));
    }
  }

  // ----- A reply that outgrows the ring -----

  /** The model writes `n` pieces of text. */
  function Chatter(n: nat): seq<Item> {
    if n == 0 then [] else Chatter(n - 1) + [TextItem("x")]
  }

  lemma NoItemsNoEvents()
    ensures StreamEvents([]) == []
  {
  }

  lemma OneMorePiece(items: seq<Item>)
    ensures StreamEvents(items + [TextItem("x")]) == StreamEvents(items) + [AssistantDelta("x")]
  {
    assert (items + [TextItem("x")])[..|items|] == items;
  }

  lemma {:induction false} ChatterIsText(n: nat)
    ensures |Chatter(n)| == n && forall i :: 0 <= i < n ==> Chatter(n)[i] == TextItem("x")
    ensures |StreamEvents(Chatter(n))| == n
    ensures forall i :: 0 <= i < n ==> StreamEvents(Chatter(n))[i] == AssistantDelta("x")
  {
    hide StreamEvents;
    if n == 0 {
      NoItemsNoEvents();
    } else {
      ChatterIsText(n - 1);
      OneMorePiece(Chatter(n - 1));
    }
  }

  /** The events of a run whose only stream is `n` pieces of text and then a cancellation. */
  lemma ChatterIsSent(w: World, n: nat)
    requires w.open(0) == Opened(Chatter(n) + [Cancelled])
    ensures ResultAt(w, 0) == TurnTerminal(Aborted)
    ensures RunEvents(w, 0) == [LifecycleStart] + StreamEvents(Chatter(n)) + [LifecycleError(FailedRun)]
  {
    hide Chatter, StreamEvents, EndOf, Assemble;
    ChatterEnds(n);
    var items := Chatter(n) + [Cancelled];
    assert items[n] == Cancelled && items[..n] == Chatter(n);
    var o, r := w.open(0), TurnTerminal(Aborted);
    assert TurnOf(o, w.freshId(0)) == r && !WatchdogFired(o) && ReadPart(o) == Chatter(n);
    assert ClosingEvents(r, false) == [LifecycleError(FailedRun)];
    assert EventsBefore(w, 0) == [LifecycleStart];
    assert RunEvents(w, 0) == [LifecycleStart] + (StreamEvents(Chatter(n)) + [LifecycleError(FailedRun)]) + [];
  }

  lemma ChatterEnds(n: nat)
    ensures |Chatter(n)| == n && EndOf(Chatter(n) + [Cancelled]) == n
  {
    hide EndOf, Chatter, StreamEvents;
    var items := Chatter(n) + [Cancelled];
    ChatterIsText(n);
    forall i | 0 <= i < n ensures !EndsTurn(items[i]) {
      assert items[i] == Chatter(n)[i];
    }
    assert EndsTurn(items[n]);
  }

  /**
    The model writes one piece of text more than the ring holds events and is cancelled: of
    the run that this makes, a client that reconnects does not get all the text.
   */
  lemma LongReplyLosesText(c: Context, turns: seq<Turn>, requests: seq<seq<Message>>, executed: seq<ToolFingerprint>,
                           trace: seq<SinkOp>, outcome: Outcome, since: int)
    requires Ran(c, turns, requests, executed, trace, outcome) && c.world.startDelivered
    requires c.world.open(0) == Opened(Chatter(1025) + [Cancelled])
    ensures turns == [] && Resume.From(trace, since) == 0 && !Resume.Pending(trace, since)
    ensures var gone := Resume.Evicted(Sent(trace), 0);
            Resume.Loaded(trace, since) + SaidIn(Sent(trace)[|gone|..]) != Said(trace)
  {
    hide Chatter, StreamEvents, RunEvents, Sent, Rows, Stops, NoLoop, Balanced, TurnOf, SaidIn, InOrder, PartsOf,
      Resume.Loaded, Resume.From, Resume.Pending, WatchdogFired, ClosingEvents;
    var n := 1025;
    ChatterIsSent(c.world, n);
    ChatterIsText(n);
    assert turns == [];
    assert Rows(trace) == [];
    Resume.UnwrittenTextIsLostIffDropped(trace, since);
    var evs, gone := Sent(trace), Resume.Evicted(Sent(trace), 0);
    assert |evs| == n + 2 && |gone| == 3;
    assert gone[1] == evs[1] == StreamEvents(Chatter(n))[0];
    Resume.SomethingIsSaid(gone, 1);
  }

  // ----- From one run to the next -----

  function AsEntry(row: Row): Entry {
    Entry(row.role, row.content, EstimateTokens(row.content), row.calls, row.callId)
  }

  /** A stored row costs what its text is estimated at, and says what was written. */
  lemma StoredRowsAreAsWritten(row: Row)
    ensures Cost(AsEntry(row)) == EstimateTokens(row.content)
    ensures SaidInRow(AsEntry(row)) == SaidInRow(Entry(row.role, row.content, 1, None, row.callId))
    ensures AsEntry(row).toolCalls == row.calls && AsEntry(row).toolCallId == row.callId
  {
  }

  function AsEntries(rows: seq<Row>): seq<Entry> {
    if rows == [] then [] else AsEntries(rows[..|rows| - 1]) + [AsEntry(rows[|rows| - 1])]
  }

  /** Thoughts are never written. */
  function Thoughtless(ms: seq<Message>): seq<Message> {
    if ms == [] then [] else Thoughtless(ms[..|ms| - 1]) + [ms[|ms| - 1].(reasoning := None)]
  }

  predicate HasName(t: Turn) {
    t.ToolTurn? ==> t.call.name != ""
  }

  /** A turn whose rows hold all its messages. */
  predicate IsRecorded(t: Turn) {
    t.ToolTurn? && t.output != ""
  }

  predicate AllNamed(turns: seq<Turn>) {
    forall i :: 0 <= i < |turns| ==> HasName(turns[i])
  }

  predicate AllRecorded(turns: seq<Turn>) {
    forall i :: 0 <= i < |turns| ==> IsRecorded(turns[i])
  }

  lemma {:induction false} AsEntriesConcat(a: seq<Row>, b: seq<Row>)
    ensures AsEntries(a + b) == AsEntries(a) + AsEntries(b) && |AsEntries(b)| == |b|
  {
    if b == [] {
      assert a + b == a;
    } else {
      var init, last := b[..|b| - 1], b[|b| - 1];
      assert (a + b)[..|a + b| - 1] == a + init;
      AsEntriesConcat(a, init);
      Assoc(AsEntries(a), AsEntries(init), [AsEntry(last)]);
    }
  }

  lemma {:induction false} ThoughtlessConcat(a: seq<Message>, b: seq<Message>)
    ensures Thoughtless(a + b) == Thoughtless(a) + Thoughtless(b)
  {
    if b == [] {
      assert a + b == a;
    } else {
      var init, last := b[..|b| - 1], b[|b| - 1];
      assert (a + b)[..|a + b| - 1] == a + init;
      ThoughtlessConcat(a, init);
      Assoc(Thoughtless(a), Thoughtless(init), [last.(reasoning := None)]);
    }
  }

  lemma {:induction false} ThoughtlessAt(ms: seq<Message>)
    ensures |Thoughtless(ms)| == |ms|
    ensures forall i :: 0 <= i < |ms| ==> Thoughtless(ms)[i] == ms[i].(reasoning := None)
  {
    if ms != [] {
      ThoughtlessAt(ms[..|ms| - 1]);
    }
  }

  lemma TurnReloads(t: Turn)
    requires HasName(t) && IsRecorded(t)
    ensures ToMessages(AsEntries(TurnRows("", t))) == Thoughtless(TurnMessages(t))
  {
    var dispatch, result := DispatchRow("" + t.text, t.call), Row(Tool, t.output, None, Some(t.call.id));
    assert TurnRows("", t) == [dispatch] + [result];
    AsEntriesConcat([dispatch], [result]);
    assert [dispatch][..0] == [] && [result][..0] == [];
    var a, b := DispatchMessage(t.text, t.thought, t.call), ResultMessage(t.call.id, t.output);
    assert TurnMessages(t) == [a] + [b];
    ThoughtlessAt([a] + [b]);
    assert StoredCalls(AsEntry(dispatch)) == [t.call];
    assert "" + t.text == t.text;
    assert AsEntries([dispatch] + [result]) == [AsEntry(dispatch), AsEntry(result)];
    assert Thoughtless([a] + [b]) == [a.(reasoning := None), b.(reasoning := None)];
  }

  lemma ToMessagesConcat(a: seq<Entry>, b: seq<Entry>)
    ensures ToMessages(a + b) == ToMessages(a) + ToMessages(b)
  {
  }

  lemma {:induction false} RecordedTurnsReload(turns: seq<Turn>)
    requires AllNamed(turns) && AllRecorded(turns)
    ensures ToMessages(AsEntries(RowsAfter(turns))) == Thoughtless(Conversation(turns)) && CarriedAfter(turns) == ""
  {
    hide TurnRows, TurnMessages, ToMessages, Thoughtless, AsEntries;
    if turns == [] {
      NothingReloads();
    } else {
      var init, last := turns[..|turns| - 1], turns[|turns| - 1];
      RecordedTurnsReload(init);
      TurnReloads(last);
      AsEntriesConcat(RowsAfter(init), TurnRows("", last));
      ToMessagesConcat(AsEntries(RowsAfter(init)), AsEntries(TurnRows("", last)));
      ThoughtlessConcat(Conversation(init), TurnMessages(last));
    }
  }

  lemma NothingReloads()
    ensures ToMessages(AsEntries([])) == Thoughtless([])
  {
  }

  /**
    Rows never outnumber messages, and are as many only if every turn is recorded in full;
    while text is carried they are fewer by two.
   */
  lemma {:induction false} RowsAreFewer(turns: seq<Turn>)
    ensures |RowsAfter(turns)| + (if CarriedAfter(turns) == "" then 0 else 2) <= |Conversation(turns)|
    ensures |RowsAfter(turns)| == |Conversation(turns)| ==> AllRecorded(turns)
  {
    if turns != [] {
      var init, last := turns[..|turns| - 1], turns[|turns| - 1];
      RowsAreFewer(init);
      assert |TurnRows(CarriedAfter(init), last)| <= |TurnMessages(last)|;
      if |RowsAfter(turns)| == |Conversation(turns)| {
        forall i | 0 <= i < |turns| ensures IsRecorded(turns[i]) {
          assert i < |init| ==> turns[i] == init[i];
        }
      }
    }
  }

  lemma {:induction false} RepairShortens(ms: seq<Message>, n: nat)
    requires n <= |ms|
    ensures |RepairTo(ms, n)| <= n
  {
    if n > 0 {
      RepairShortens(ms, n - 1);
      EmitIsShort(ms, n - 1);
    }
  }

  predicate IsSpeech(m: Message) {
    !Blank(m) && (m.toolCalls != [] ==> m.role == Assistant)
  }

  lemma {:induction false} ConversationIsSpeech(turns: seq<Turn>)
    requires AllRecorded(turns)
    ensures forall i :: 0 <= i < |Conversation(turns)| ==> IsSpeech(Conversation(turns)[i])
  {
    if turns != [] {
      ConversationIsSpeech(turns[..|turns| - 1]);
      assert IsRecorded(turns[|turns| - 1]);
    }
  }

  lemma ThoughtsDoNotPair(ms: seq<Message>, out: seq<Message>)
    requires WellPaired(ms) && |out| == |ms|
    requires forall i :: 0 <= i < |ms| ==> out[i] == ms[i].(reasoning := None)
    ensures WellPaired(out)
  {
    forall i | 0 <= i < |out| ensures ResultIsPlaced(out, i) && CallIsAnswered(out, i) {
      assert ResultIsPlaced(ms, i) && CallIsAnswered(ms, i);
    }
  }

  /** The driver gives a nameless call a stand-in name, so every turn of a run has one. */
  lemma {:induction false} TurnsAreNamed(w: World, n: nat)
    ensures AllNamed(TurnsTo(w, n))
  {
    if n > 0 {
      TurnsAreNamed(w, n - 1);
      TurnIsNamed(w, n - 1);
      var init, last := TurnsTo(w, n - 1), TurnAt(w, n - 1);
      NamedGrows(init, last);
    }
  }

  lemma NamedGrows(turns: seq<Turn>, t: Turn)
    requires AllNamed(turns) && HasName(t)
    ensures AllNamed(turns + [t])
  {
  }

  lemma TurnIsNamed(w: World, i: nat)
    ensures HasName(TurnAt(w, i))
  {
  }

  // ----- The repair of a list that goes on with something else than a result -----

  predicate OpensAfresh(ms: seq<Message>) {
    ms != [] ==> !IsResult(ms[0])
  }

  lemma {:induction false} RepairSplits(a: seq<Message>, b: seq<Message>, n: nat)
    requires OpensAfresh(b) && n <= |b|
    ensures RepairTo(a + b, |a| + n) == Repair(a) + RepairTo(b, n)
  {
    hide Emit, OpensAfresh;
    if n == 0 {
      RepairOfPrefix(a, b, |a|);
    } else {
      RepairSplits(a, b, n - 1);
      EmitBehind(a, b, n - 1);
      Assoc(Repair(a), RepairTo(b, n - 1), Emit(b, n - 1));
    }
  }

  lemma {:induction false} RepairOfPrefix(a: seq<Message>, b: seq<Message>, n: nat)
    requires OpensAfresh(b) && n <= |a|
    ensures RepairTo(a + b, n) == RepairTo(a, n)
  {
    hide Emit, OpensAfresh;
    if n > 0 {
      RepairOfPrefix(a, b, n - 1);
      EmitBefore(a, b, n - 1);
    }
  }

  lemma EmitBefore(a: seq<Message>, b: seq<Message>, i: nat)
    requires OpensAfresh(b) && i < |a|
    ensures Emit(a + b, i) == Emit(a, i)
  {
    hide HasCall;
    assert Answered(a + b, i) == Answered(a, i);
  }

  lemma EmitBehind(a: seq<Message>, b: seq<Message>, i: nat)
    requires OpensAfresh(b) && i < |b|
    ensures Emit(a + b, |a| + i) == Emit(b, i)
  {
    hide HasCall;
    assert (a + b)[|a| + i] == b[i];
    assert i > 0 ==> (a + b)[|a| + i - 1] == b[i - 1];
    assert i + 1 < |b| ==> (a + b)[|a| + i + 1] == b[i + 1];
  }

  lemma RepairConcat(a: seq<Message>, b: seq<Message>)
    requires OpensAfresh(b)
    ensures Repair(a + b) == Repair(a) + Repair(b)
  {
    RepairSplits(a, b, |b|);
  }

  // ----- What the next run is given -----

  /** The last thing the model said. */
  function Reply(text: string): seq<Message> {
    if text == "" then [] else [Plain(Assistant, text)]
  }

  predicate IsWritten(r: TurnResult) {
    r.TurnCompleted? || r.TurnToolCall?
  }

  /** The last row comes back as the reply; a call that was not carried out is taken back. */
  lemma FinalRowReloads(carried: string, text: string, r: TurnResult)
    ensures Repair(ToMessages(AsEntries(FinalRows(carried, text, r))))
            == if IsWritten(r) then Reply(carried + text) else []
  {
    hide Repair;
    var rows := FinalRows(carried, text, r);
    if rows == [] {
      assert ToMessages(AsEntries(rows)) == [];
      RepairOfNone();
    } else {
      assert rows[..0] == [];
      var m := EntryToMessage(AsEntry(rows[0]));
      assert AsEntries(rows) == [AsEntry(rows[0])] && ToMessages(AsEntries(rows)) == [m];
      RepairOfOne(m);
    }
  }

  lemma RepairOfNone()
    ensures Repair([]) == []
  {
  }

  /** Alone, a message keeps its text only. */
  lemma RepairOfOne(m: Message)
    requires !IsResult(m)
    ensures var bare := m.(toolCalls := []); Repair([m]) == if Blank(bare) then [] else [bare]
  {
    assert RepairTo([m], 0) == [];
    assert RepairTo([m], 1) == Emit([m], 0);
  }

  lemma {:induction false} RowsOpenWithDispatch(turns: seq<Turn>)
    ensures RowsAfter(turns) != [] ==> RowsAfter(turns)[0].role == Assistant
  {
    if turns != [] {
      RowsOpenWithDispatch(turns[..|turns| - 1]);
    }
  }

  lemma RowsOpenAfresh(turns: seq<Turn>, text: string, r: TurnResult)
    ensures OpensAfresh(ToMessages(AsEntries(FinalRows(CarriedAfter(turns), text, r))))
    ensures OpensAfresh(ToMessages(AsEntries(RowsAfter(turns) + FinalRows(CarriedAfter(turns), text, r))))
  {
    hide RowsAfter, AsEntries, CarriedAfter, ToMessages, OpensAfresh;
    var rows, last := RowsAfter(turns), FinalRows(CarriedAfter(turns), text, r);
    RowsOpenWithDispatch(turns);
    OpensWithAssistant(last);
    OpensWithAssistant(rows + last);
  }

  lemma OpensWithAssistant(rows: seq<Row>)
    requires rows != [] ==> rows[0].role == Assistant
    ensures OpensAfresh(ToMessages(AsEntries(rows)))
  {
    FirstEntry(rows);
  }

  lemma {:induction false} FirstEntry(rows: seq<Row>)
    ensures |AsEntries(rows)| == |rows| && (rows != [] ==> AsEntries(rows)[0] == AsEntry(rows[0]))
  {
    if |rows| > 1 {
      FirstEntry(rows[..|rows| - 1]);
    } else if |rows| == 1 {
      assert rows[..0] == [];
    }
  }

  /** The rows of a whole run, repaired on their own. */
  lemma RowsReload(turns: seq<Turn>, text: string, r: TurnResult)
    requires AllNamed(turns)
    ensures Repair(ToMessages(AsEntries(RowsAfter(turns) + FinalRows(CarriedAfter(turns), text, r))))
            == Thoughtless(Conversation(turns)) + Reply(text)
            <==> AllRecorded(turns) && (IsWritten(r) || text == "")
  {
    hide RowsAfter, Conversation, AllRecorded, AllNamed, Repair, CarriedAfter, ToMessages, AsEntries, FinalRows;
    var rows, last := RowsAfter(turns), FinalRows(CarriedAfter(turns), text, r);
    AsEntriesConcat(rows, last);
    ToMessagesConcat(AsEntries(rows), AsEntries(last));
    RowsOpenAfresh(turns, text, r);
    RepairConcat(ToMessages(AsEntries(rows)), ToMessages(AsEntries(last)));
    FinalRowReloads(CarriedAfter(turns), text, r);
    RowsAreFewer(turns);
    ThoughtlessAt(Conversation(turns));
    RepairIsShort(rows);
    if AllRecorded(turns) {
      RecordedTurnsReload(turns);
      RecordedConversationIsValid(turns);
      assert "" + text == text;
    }
  }

  lemma RepairIsShort(rows: seq<Row>)
    ensures |Repair(ToMessages(AsEntries(rows)))| <= |rows|
  {
    AsEntriesConcat([], rows);
    RepairShortens(ToMessages(AsEntries(rows)), |rows|);
  }

  /**
    The run is over, its rows are stored behind the entries `kept` of before, and the user
    says something more: the next run is given what it would have been given before, then
    the whole conversation of this run with its last reply, thoughts aside, iff no turn was
    truncated, no tool result was empty and no text stayed unwritten. An empty result is
    never written, so its call is taken back; of a truncated turn the instruction to go on
    is never written.
   */
  lemma ReloadRestoresIffRecorded(w: World, turns: seq<Turn>, trace: seq<SinkOp>, executed: seq<ToolFingerprint>,
                                  r: TurnResult, p: Parts, closing: seq<Event>, kept: seq<Entry>, next: Entry)
    requires Happened(w, turns) && Ended(turns, trace, executed, r, p, closing)
    requires next.role == User
    ensures Repair(ToMessages(kept + AsEntries(Rows(trace)) + [next]))
            == Repair(ToMessages(kept)) + Thoughtless(Conversation(turns)) + Reply(p.text) + [EntryToMessage(next)]
            <==> AllRecorded(turns) && Unwritten(turns, p, r) == ""
  {
    hide WellPaired, RowsAfter, Conversation, AllRecorded, AllNamed, TurnAt, AllGoOn, Repair, CarriedAfter, ToMessages,
      AsEntries, FinalRows, Balanced, Stops, NoLoop, InOrder, Rows, Thoughtless, Reply;
    TurnsAreNamed(w, |turns|);
    var rows := Rows(trace);
    RowsReload(turns, p.text, r);
    RowsOpenAfresh(turns, p.text, r);
    OneEntry(next);
    ToMessagesConcat(kept, AsEntries(rows));
    ToMessagesConcat(kept + AsEntries(rows), [next]);
    RepairConcat(ToMessages(kept), ToMessages(AsEntries(rows)));
    RepairConcat(ToMessages(kept) + ToMessages(AsEntries(rows)), ToMessages([next]));
    var head, now, whole := Repair(ToMessages(kept)), Repair(ToMessages(AsEntries(rows))),
      Thoughtless(Conversation(turns)) + Reply(p.text);
    Assoc(head, Thoughtless(Conversation(turns)), Reply(p.text));
    Cancels(head, now, whole, [EntryToMessage(next)]);
    if AllRecorded(turns) {
      RecordedTurnsReload(turns);
    }
  }

  lemma OneEntry(e: Entry)
    requires e.role == User
    ensures ToMessages([e]) == Repair(ToMessages([e])) == [EntryToMessage(e)] && OpensAfresh(ToMessages([e]))
  {
    hide Repair;
    RepairOfOne(EntryToMessage(e));
    assert ToMessages([e]) == [EntryToMessage(e)];
  }

  lemma Cancels(head: seq<Message>, a: seq<Message>, b: seq<Message>, tail: seq<Message>)
    ensures head + a + tail == head + b + tail <==> a == b
  {
    if head + a + tail == head + b + tail {
      assert a == (head + a + tail)[|head|..|head + a + tail| - |tail|];
      assert b == (head + b + tail)[|head|..|head + b + tail| - |tail|];
    }
  }

  /** The model calls a tool at once, which returns nothing: the next run does not see the call at all. */
  lemma EmptyResultIsLost(w: World)
    requires w.open(0) == Opened([ToolChunk("1", Some("exec"), "{}"), Done(ToolUse)]) && w.toolOutput(0) == ""
    ensures var turns := TurnsTo(w, 1);
            && Happened(w, turns) && |Conversation(turns)| == 2
            && Repair(ToMessages(AsEntries(RowsAfter(turns)))) == []
  {
    hide Happened, TurnsTo, Repair, RowsAfter, Conversation, ToMessages, AsEntries;
    FirstTurn(w);
    SilentCallLeavesNothing(ToolCall("1", "exec", "{}"));
  }

  lemma SilentCallLeavesNothing(call: ToolCall)
    ensures var turns := [ToolTurn("", "", call, "")];
            |Conversation(turns)| == 2 && Repair(ToMessages(AsEntries(RowsAfter(turns)))) == []
  {
    hide Repair;
    var turns := [ToolTurn("", "", call, "")];
    assert turns[..0] == [];
    assert Conversation(turns) == [] + TurnMessages(turns[0]);
    assert RowsAfter(turns) == FinalRows("", "", TurnToolCall(call.id, call.name, call.args));
    FinalRowReloads("", "", TurnToolCall(call.id, call.name, call.args));
  }

  lemma FirstTurn(w: World)
    requires w.open(0) == Opened([ToolChunk("1", Some("exec"), "{}"), Done(ToolUse)]) && w.toolOutput(0) == ""
    ensures TurnsTo(w, 1) == [ToolTurn("", "", ToolCall("1", "exec", "{}"), "")] && Happened(w, TurnsTo(w, 1))
  {
    var items := [ToolChunk("1", Some("exec"), "{}"), Done(ToolUse)];
    assert items[1..] == [Done(ToolUse)] && items[..1] == [items[0]] && [items[0]][..0] == [];
    assert EndOf(items) == 1;
    assert Assemble([items[0]]) == Parts("", "", "1", "exec", "{}", None);
    assert ResultAt(w, 0) == TurnToolCall("1", "exec", "{}");
    assert TurnsTo(w, 0) == [];
  }

  lemma RecordedConversationIsValid(turns: seq<Turn>)
    requires AllRecorded(turns)
    ensures Repair(Thoughtless(Conversation(turns))) == Thoughtless(Conversation(turns))
  {
    hide WellPaired, Conversation, AllRecorded, Repair, Thoughtless;
    var said := Conversation(turns);
    ThoughtlessAt(said);
    EmptyIsWellPaired();
    ConversationIsWellPaired([], turns);
    assert [] + said == said;
    ThoughtsDoNotPair(said, Thoughtless(said));
    ConversationIsSpeech(turns);
    forall i | 0 <= i < |said| ensures IsSpeech(Thoughtless(said)[i]) {
      assert IsSpeech(said[i]);
    }
    SpeechIsUnchanged(Thoughtless(said));
  }

  lemma EmptyIsWellPaired()
    ensures WellPaired([])
  {
  }

  lemma SpeechIsUnchanged(ms: seq<Message>)
    requires WellPaired(ms)
    requires forall i :: 0 <= i < |ms| ==> IsSpeech(ms[i])
    ensures Repair(ms) == ms
  {
    hide WellPaired, Repair;
    forall i | 0 <= i < |ms| ensures !Blank(ms[i]) && (ms[i].toolCalls != [] ==> ms[i].role == Assistant) {
      assert IsSpeech(ms[i]);
    }
    ValidListsAreUnchanged(ms);
  }
}
