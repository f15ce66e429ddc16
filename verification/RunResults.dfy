/**
  What holds of every run, whatever the model, the tools and the clients do: the requests
  are well paired, the run is bounded, its text gets into the transcript in order, and the
  client is told of the end.
 */
module RunResults {
  import opened Messages
  import opened Agent
  import opened Events
  import opened Turns
  import opened Compaction
  import opened RunModel

  lemma {:induction false} RequestsAreOnePerTurn(c: Context, n: nat)
    ensures |RequestsTo(c, n)| == n
    ensures forall i :: 0 <= i < n ==> RequestsTo(c, n)[i] == RequestAt(c, i)
  {
    hide RequestAt;
    if n > 0 {
      RequestsAreOnePerTurn(c, n - 1);
    }
  }

  lemma RequestIsWellPaired(c: Context, i: nat)
    requires WellPaired(c.initial)
    ensures WellPaired(RequestAt(c, i))
  {
    hide WellPaired, Compacted, InputBefore, TurnsTo, Conversation;
    ConversationIsWellPaired(c.initial, TurnsTo(c.world, i));
    CompactedIsWellPaired(c.initial + Conversation(TurnsTo(c.world, i)), c.cfg, InputBefore(c.world, i), c.scale);
  }

  /** Whatever the model answers, no request ever parts a call from its result. */
  lemma EveryRequestIsWellPaired(c: Context, n: nat)
    requires WellPaired(c.initial)
    ensures forall i :: 0 <= i < |RequestsTo(c, n)| ==> WellPaired(RequestsTo(c, n)[i])
  {
    hide WellPaired, RequestAt;
    RequestsAreOnePerTurn(c, n);
    forall i | 0 <= i < n ensures WellPaired(RequestAt(c, i)) {
      RequestIsWellPaired(c, i);
    }
  }

  /** Whatever the model answers, the run is over after 27 requests, 24 tool runs and 2 runs of any one call. */
  lemma RunIsBounded(c: Context, turns: seq<Turn>, trace: seq<SinkOp>, executed: seq<ToolFingerprint>,
                     r: TurnResult, p: Parts, closing: seq<Event>, f: ToolFingerprint)
    requires Ended(turns, trace, executed, r, p, closing)
    ensures |RequestsTo(c, |turns| + 1)| <= 27 && |executed| <= 24 && Occurrences(executed, f) <= 2
  {
    hide RequestAt, Balanced, InOrder, Rows, Stops;
    RequestsAreOnePerTurn(c, |turns| + 1);
  }

  // ----- Which turn ends a run -----

  lemma {:induction false} TurnsToIsOnePerTurn(w: World, n: nat, k: nat)
    requires k <= n
    ensures |TurnsTo(w, n)| == n && TurnsTo(w, n)[..k] == TurnsTo(w, k)
  {
    hide TurnAt;
    if k < n {
      TurnsToIsOnePerTurn(w, n - 1, k);
    } else if n > 0 {
      TurnsToIsOnePerTurn(w, n - 1, n - 1);
    }
  }

  lemma {:induction false} CallsOfPrefix(turns: seq<Turn>, k: nat)
    requires k <= |turns|
    ensures Calls(turns[..k]) <= Calls(turns)
    ensures |turns[..k]| - |Calls(turns[..k])| <= |turns| - |Calls(turns)|
  {
    if k < |turns| {
      CallsOfPrefix(turns[..|turns| - 1], k);
      assert turns[..|turns| - 1][..k] == turns[..k];
    } else {
      assert turns[..k] == turns;
    }
  }

  lemma {:induction false} PrefixOccursLess(fs: seq<ToolFingerprint>, gs: seq<ToolFingerprint>, f: ToolFingerprint)
    requires fs <= gs
    ensures Occurrences(fs, f) <= Occurrences(gs, f)
  {
    if fs != gs {
      PrefixOccursLess(fs, gs[..|gs| - 1], f);
    }
  }

  /** A run that went past turn `k` had no reason to stop there. */
  lemma NoEarlierStop(turns: seq<Turn>, k: nat, r: TurnResult)
    requires k < |turns| && NoLoop(Calls(turns)) && |Calls(turns)| <= MAX_TOOL_ROUNDS
    requires |turns| - |Calls(turns)| <= MAX_TRUNCATION_CONTINUATIONS
    requires match r
             case TurnToolCall(id, name, args) => turns[k].ToolTurn? && turns[k].call == ToolCall(id, name, args)
             case TurnTruncated(_) => turns[k].CutTurn?
             case _ => false
    ensures !Stops(turns[..k], r)
  {
    hide Calls, NoLoop, DetectLoop;
    var before, past := turns[..k], turns[..k + 1];
    CallsOfPrefix(turns, k + 1);
    assert past == before + [turns[k]];
    CallsGrow(before, turns[k]);
    if r.TurnToolCall? {
      var f := ToolFingerprint(r.name, r.args);
      assert CallOf(turns[k]) == [f];
      NoLoopBefore(Calls(before), f, Calls(turns));
    }
  }

  lemma NoLoopBefore(before: seq<ToolFingerprint>, f: ToolFingerprint, calls: seq<ToolFingerprint>)
    requires NoLoop(calls) && before + [f] <= calls
    ensures !DetectLoop(before + [f], LOOP_REPEAT_THRESHOLD)
  {
    hide Occurrences, DetectLoop;
    PrefixOccursLess(before + [f], calls, f);
    DetectLoopCountsTheLast(before + [f], LOOP_REPEAT_THRESHOLD);
  }

  /** A world decides which turn ends the run: two runs in it have the same turns. */
  lemma EndIsDecided(w: World, turns: seq<Turn>, trace: seq<SinkOp>, executed: seq<ToolFingerprint>,
                     r: TurnResult, p: Parts, closing: seq<Event>, k: nat)
    requires Happened(w, turns) && Ended(turns, trace, executed, r, p, closing) && TookTurn(w, |turns|, r, p, closing)
    ensures k < |turns| ==> GoesOnAfter(ResultAt(w, k)) && !Stops(TurnsTo(w, k), ResultAt(w, k))
    ensures k == |turns| ==> Stops(TurnsTo(w, k), ResultAt(w, k))
  {
    if k < |turns| {
      CountsOfEnded(turns, trace, executed, r, p, closing);
      GoesOnAt(w, turns, k);
      NoEarlierStop(turns, k, ResultAt(w, k));
    }
  }

  lemma GoesOnAt(w: World, turns: seq<Turn>, k: nat)
    requires Happened(w, turns) && k < |turns|
    ensures turns[..k] == TurnsTo(w, k) && turns[k] == TurnAt(w, k) && GoesOnAfter(ResultAt(w, k))
  {
    TurnsToIsOnePerTurn(w, |turns|, k);
    TurnsToIsOnePerTurn(w, |turns|, k + 1);
    TurnsToIsOnePerTurn(w, k + 1, k);
    assert turns[k] == turns[..k + 1][k];
  }

  lemma CountsOfEnded(turns: seq<Turn>, trace: seq<SinkOp>, executed: seq<ToolFingerprint>,
                      r: TurnResult, p: Parts, closing: seq<Event>)
    requires Ended(turns, trace, executed, r, p, closing)
    ensures NoLoop(Calls(turns)) && |Calls(turns)| <= MAX_TOOL_ROUNDS
    ensures |turns| - |Calls(turns)| <= MAX_TRUNCATION_CONTINUATIONS
  {
  }

  // ----- Text -----

  /** At every moment of an orderly run the written text is a prefix of the text sent. */
  lemma {:induction false} WrittenIsPrefixOfSent(ops: seq<SinkOp>, n: nat)
    requires InOrder(ops) && n <= |ops|
    ensures Recorded(ops[..n]) <= Said(ops[..n])
  {
    if n > 0 {
      var before, op := ops[..n - 1], ops[n - 1];
      WrittenIsPrefixOfSent(ops, n - 1);
      assert ops[..n] == before + [op];
      if op.Append? {
        assert IsOrderlyAt(ops, n - 1) && IsOrderlyAt(ops, n);
      } else {
        SendingOnlySays(before, op);
      }
    }
  }

  lemma SendingOnlySays(ops: seq<SinkOp>, op: SinkOp)
    requires !op.Append? && Recorded(ops) <= Said(ops)
    ensures Recorded(ops + [op]) <= Said(ops + [op])
  {
    OneMore(ops, op);
    SaidInConcat(Sent(ops), EventOfOp(op));
    assert Rows(ops) + [] == Rows(ops);
  }

  lemma ErrorIsNotCompletion(o: Opening, freshId: string)
    ensures TurnOf(o, freshId) != TurnTerminal(Completed)
  {
  }

  /**
    At the end all text sent is written, but for the unfinished reply of a run that failed
    or was aborted; a completed run has written exactly the text it sent.
   */
  lemma CompletedRunIsWritten(w: World, turns: seq<Turn>, trace: seq<SinkOp>, executed: seq<ToolFingerprint>,
                              r: TurnResult, p: Parts, closing: seq<Event>)
    requires Ended(turns, trace, executed, r, p, closing)
    ensures Recorded(trace) <= Said(trace)
    ensures Recorded(trace) == Said(trace) <==> Unwritten(turns, p, r) == ""
    ensures OutcomeFor(r) == Completed && TookTurn(w, |turns|, r, p, closing) ==> Recorded(trace) == Said(trace)
  {
    hide InOrder, Stops, Said, Recorded, TurnOf, ClosingEvents, PartsOf, WatchdogFired;
    ErrorIsNotCompletion(w.open(|turns|), w.freshId(|turns|));
  }

  lemma WatchdogAborts(o: Opening, freshId: string)
    requires WatchdogFired(o)
    ensures TurnOf(o, freshId) == TurnTerminal(Aborted)
  {
  }

  lemma VerdictsAreCounted(r: TurnResult, watchdog: bool)
    requires watchdog ==> r.TurnTerminal?
    ensures var vs := Verdicts(r, ClosingEvents(r, watchdog));
            |vs| == (if watchdog then 2 else 1) && (LifecycleEnd in vs <==> r.TurnCompleted?)
    ensures r.TurnToolCall? ==> Verdicts(r, ClosingEvents(r, watchdog)) == [LifecycleError(LoopFound)]
    ensures r.TurnTruncated? ==> Verdicts(r, ClosingEvents(r, watchdog)) == [LifecycleError(CutOff)]
  {
  }

  /** Of a run that has begun the client is told the end once, but twice when the idle watchdog ended it. */
  lemma BegunRunIsAnnounced(w: World, turns: seq<Turn>, trace: seq<SinkOp>, executed: seq<ToolFingerprint>,
                            r: TurnResult, p: Parts, closing: seq<Event>)
    requires Ended(turns, trace, executed, r, p, closing) && TookTurn(w, |turns|, r, p, closing)
    ensures |VerdictsIn(Sent(trace))| == if WatchdogFired(w.open(|turns|)) then 2 else 1
    ensures LifecycleEnd in VerdictsIn(Sent(trace)) <==> r.TurnCompleted?
    ensures r.TurnToolCall? ==> VerdictsIn(Sent(trace)) == [LifecycleError(LoopFound)]
    ensures r.TurnTruncated? ==> VerdictsIn(Sent(trace)) == [LifecycleError(CutOff)]
  {
    hide InOrder, Stops, NoLoop, Said, Recorded, PartsOf, VerdictsIn, Sent, WatchdogFired, TurnOf,
      ClosingEvents, Verdicts;
    if WatchdogFired(w.open(|turns|)) {
      WatchdogAborts(w.open(|turns|), w.freshId(|turns|));
    }
    VerdictsAreCounted(r, WatchdogFired(w.open(|turns|)));
  }

  /** A run whose first stream is silent until the idle watchdog fires tells the client of two failures. */
  lemma SilentStreamEndsTwice(w: World, turns: seq<Turn>, trace: seq<SinkOp>, executed: seq<ToolFingerprint>,
                              r: TurnResult, p: Parts, closing: seq<Event>)
    requires Happened(w, turns) && Ended(turns, trace, executed, r, p, closing) && TookTurn(w, |turns|, r, p, closing)
    requires w.open(0) == Opened([IdleTimeout])
    ensures turns == [] && VerdictsIn(Sent(trace)) == [LifecycleError(FailedRun), LifecycleError(TimedOut)]
  {
    hide InOrder, Stops, NoLoop, Said, Recorded, VerdictsIn, Sent, PartsOf;
    assert EndOf([IdleTimeout]) == 0;
    assert ResultAt(w, 0) == TurnTerminal(Aborted);
  }
}
