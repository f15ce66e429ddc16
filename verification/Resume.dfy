/**
  Resuming a detached run: what a client already has from the transcript, together with
  what the event log replays, is the text of the run.
 */
module Resume {
  import opened Events
  import opened RunLog

  function MarkOfOp(ops: seq<SinkOp>, op: SinkOp): seq<Landmark> {
    if op.Mark? then [Landmark(op.markNo, |Sent(ops)|)] else []
  }

  /** The marks a log holds after a run has done `ops`. */
  function MarksOf(ops: seq<SinkOp>): seq<Landmark> {
    if ops == [] then []
    else MarksOf(ops[..|ops| - 1]) + MarkOfOp(ops[..|ops| - 1], ops[|ops| - 1])
  }

  function TextUpTo(op: SinkOp, since: int): string {
    if op.Append? && op.seqNo <= since then TextOfRow(op.row) else ""
  }

  /** The assistant text a client has that loaded the rows up to `since`. */
  function Loaded(ops: seq<SinkOp>, since: int): string {
    if ops == [] then "" else Loaded(ops[..|ops| - 1], since) + TextUpTo(ops[|ops| - 1], since)
  }

  /** The last row is among those the client loaded, but its mark is not set yet. */
  predicate Pending(ops: seq<SinkOp>, since: int) {
    ops != [] && ops[|ops| - 1].Append? && ops[|ops| - 1].seqNo <= since
  }

  function From(ops: seq<SinkOp>, since: int): nat {
    LastMark(MarksOf(ops), since)
  }

  lemma GrowByOne(ops: seq<SinkOp>, op: SinkOp, since: int)
    ensures MarksOf(ops + [op]) == MarksOf(ops) + MarkOfOp(ops, op)
    ensures Loaded(ops + [op], since) == Loaded(ops, since) + TextUpTo(op, since)
    ensures From(ops + [op], since) == if op.Mark? && op.markNo <= since then |Sent(ops)| else From(ops, since)
  {
    hide Sent, TextUpTo;
    assert (ops + [op])[..|ops|] == ops;
    var marks := MarksOf(ops);
    assert marks + [] == marks;
    if op.Mark? {
      assert (marks + MarkOfOp(ops, op))[..|marks|] == marks;
    }
  }

  lemma {:induction false} AllIsLoaded(ops: seq<SinkOp>, since: int)
    requires AppendsBelow(ops, since + 1)
    ensures Loaded(ops, since) == Recorded(ops)
  {
    if ops != [] {
      var init, op := ops[..|ops| - 1], ops[|ops| - 1];
      AllIsLoaded(init, since);
      RecordedInConcat(Rows(init), RowOfOp(op));
      if op.Append? {
        OneRow(op.row);
      }
    }
  }

  /** The marked part of what the client loaded is what was sent before the mark. */
  ghost predicate IsCovered(ops: seq<SinkOp>, since: int) {
    var from, evs := From(ops, since), Sent(ops);
    && from <= |evs|
    && (Pending(ops, since) ==>
          SaidIn(evs[..from]) + TextOfRow(ops[|ops| - 1].row) == Loaded(ops, since) == SaidIn(evs))
    && (!Pending(ops, since) ==> SaidIn(evs[..from]) == Loaded(ops, since))
  }

  /** A mark splits the events exactly where the rows up to it end, at every moment of a run. */
  lemma {:induction false} MarksCoverRows(full: seq<SinkOp>, n: nat, since: int)
    requires InOrder(full) && n <= |full|
    ensures IsCovered(full[..n], since)
  {
    hide InOrder, IsCovered, MarkIsExact, NumberGrows, IsMarkedNext;
    if n == 0 {
      NothingIsCovered(since);
    } else {
      MarksCoverRows(full, n - 1, since);
      var before, op := full[..n - 1], full[n - 1];
      assert full[..n] == before + [op];
      OrderAt(full, n - 1);
      match op {
        case Send(ev) => SendStaysCovered(before, ev, since);
        case Append(seqNo, row) => AppendStaysCovered(before, seqNo, row, since);
        case Mark(markNo) => MarkStaysCovered(before, markNo, since);
      }
    }
  }

  lemma NothingIsCovered(since: int)
    ensures IsCovered([], since)
  {
  }

  /** What the order of a run says about one operation and those before it. */
  lemma OrderAt(full: seq<SinkOp>, i: nat)
    requires InOrder(full) && i < |full|
    ensures var before, op := full[..i], full[i];
            && (op.Send? ==> Quiet(before))
            && (op.Append? ==> Quiet(before) && AppendsBelow(before, op.seqNo)
                               && Said(before + [op]) == Recorded(before + [op]))
            && (op.Mark? ==> before != [] && before[|before| - 1].Append? && before[|before| - 1].seqNo == op.markNo
                             && Said(before) == Recorded(before) && AppendsBelow(before[..|before| - 1], op.markNo))
  {
    hide Said, Recorded, AppendsBelow;
    var before, op := full[..i], full[i];
    assert IsOrderlyAt(full, i);
    if i > 0 {
      assert IsOrderlyAt(full, i - 1);
      assert before[..i - 1] == full[..i - 1];
    }
    if op.Append? {
      assert IsOrderlyAt(full, i + 1);
      assert full[..i + 1] == before + [op];
    }
  }

  lemma SendStaysCovered(ops: seq<SinkOp>, ev: Event, since: int)
    requires IsCovered(ops, since) && Quiet(ops)
    ensures IsCovered(ops + [Send(ev)], since)
  {
    hide SaidIn, Loaded, From, TextOfRow;
    GrowByOne(ops, Send(ev), since);
    OneMore(ops, Send(ev));
    var from, evs := From(ops, since), Sent(ops);
    assert (evs + [ev])[..from] == evs[..from];
    assert Loaded(ops, since) + "" == Loaded(ops, since);
  }

  lemma AppendStaysCovered(ops: seq<SinkOp>, seqNo: int, row: Row, since: int)
    requires IsCovered(ops, since) && Quiet(ops) && AppendsBelow(ops, seqNo)
    requires Said(ops + [Append(seqNo, row)]) == Recorded(ops + [Append(seqNo, row)])
    ensures IsCovered(ops + [Append(seqNo, row)], since)
  {
    hide SaidIn, Loaded, From, TextOfRow, RecordedIn, Rows, Sent;
    var op := Append(seqNo, row);
    GrowByOne(ops, op, since);
    OneMore(ops, op);
    assert Sent(ops) + [] == Sent(ops);
    if seqNo <= since {
      AllIsLoaded(ops + [op], since);
    } else {
      assert Loaded(ops, since) + "" == Loaded(ops, since);
    }
  }

  lemma MarkStaysCovered(ops: seq<SinkOp>, markNo: int, since: int)
    requires IsCovered(ops, since) && ops != [] && ops[|ops| - 1].Append? && ops[|ops| - 1].seqNo == markNo
    requires Said(ops) == Recorded(ops) && AppendsBelow(ops[..|ops| - 1], markNo)
    ensures IsCovered(ops + [Mark(markNo)], since)
  {
    hide SaidIn, Loaded, From, TextOfRow, RecordedIn, Rows, Sent;
    GrowByOne(ops, Mark(markNo), since);
    OneMore(ops, Mark(markNo));
    assert Sent(ops) + [] == Sent(ops);
    assert Loaded(ops, since) + "" == Loaded(ops, since);
    if markNo <= since {
      AllIsLoaded(ops, since);
      assert Sent(ops)[..|Sent(ops)|] == Sent(ops);
    }
  }

  /**
    History up to `since` plus replay from event `start` is the whole text so far iff no
    text lies between the last mark and `start`, that is, iff the ring has evicted none.
    Only while a loaded row waits for its mark does the replay repeat text: all of it is
    then in the history already, and what the replay repeats is that row.
   */
  lemma ResumeIsComplete(full: seq<SinkOp>, n: nat, since: int, start: nat)
    requires InOrder(full) && n <= |full|
    requires From(full[..n], since) <= start <= |Sent(full[..n])|
    ensures var ops, evs, from := full[..n], Sent(full[..n]), From(full[..n], since);
            && from <= |evs|
            && (!Pending(ops, since) ==>
                  (Loaded(ops, since) + SaidIn(evs[start..]) == SaidIn(evs) <==> SaidIn(evs[from..start]) == ""))
            && (Pending(ops, since) ==>
                  Loaded(ops, since) == SaidIn(evs) && SaidIn(evs[from..]) == TextOfRow(ops[|ops| - 1].row))
  {
    hide InOrder, SaidIn, Loaded, From, TextOfRow, Sent, Quiet;
    MarksCoverRows(full, n, since);
    var ops := full[..n];
    var evs, from := Sent(ops), From(ops, since);
    SplitInThree(evs, from, start);
    SplitInTwo(evs, from);
    CancelMiddle(SaidIn(evs[..from]), SaidIn(evs[from..start]), SaidIn(evs[start..]));
    if Pending(ops, since) {
      CancelPrefix(SaidIn(evs[..from]), SaidIn(evs[from..]), TextOfRow(ops[|ops| - 1].row));
    }
  }

  lemma SplitInThree(evs: seq<Event>, a: nat, b: nat)
    requires a <= b <= |evs|
    ensures SaidIn(evs) == SaidIn(evs[..a]) + SaidIn(evs[a..b]) + SaidIn(evs[b..])
  {
    hide SaidIn;
    SplitInTwo(evs[..b], a);
    assert evs[..b][..a] == evs[..a] && evs[..b][a..] == evs[a..b];
    SplitInTwo(evs, b);
  }

  lemma SplitInTwo(evs: seq<Event>, a: nat)
    requires a <= |evs|
    ensures SaidIn(evs) == SaidIn(evs[..a]) + SaidIn(evs[a..])
  {
    hide SaidIn;
    assert evs[..a] + evs[a..] == evs;
    SaidInConcat(evs[..a], evs[a..]);
  }

  lemma CancelMiddle(x: string, y: string, z: string)
    ensures x + z == x + y + z <==> y == ""
  {
    if x + z == x + y + z {
      assert |x + z| == |x + y + z|;
    }
    if y == "" {
      assert x + y == x;
    }
  }

  lemma CancelPrefix(x: string, y: string, z: string)
    requires x + y == x + z
    ensures y == z
  {
    assert y == (x + y)[|x|..] && z == (x + z)[|x|..];
  }

  lemma {:induction false} ThoughtsSayNothing(evs: seq<Event>, thoughts: bool)
    ensures SaidIn(Visible(evs, thoughts)) == SaidIn(evs)
  {
    if evs != [] {
      var init, last := evs[..|evs| - 1], evs[|evs| - 1];
      ThoughtsSayNothing(init, thoughts);
      if thoughts || !last.ReasoningDelta? {
        SaidInConcat(Visible(init, thoughts), [last]);
        OneEvent(last);
      } else {
        assert Visible(init, thoughts) + [] == Visible(init, thoughts);
        assert SaidIn(init) + "" == SaidIn(init);
      }
    }
  }

  /** A log fed by a run: its history is what was sent, its marks are where rows ended. */
  method Feed(ops: seq<SinkOp>) returns (log: EventLog)
    ensures fresh(log) && fresh(log.joins.Keys) && log.Valid()
    ensures log.history == Sent(ops) && log.marks == MarksOf(ops)
  {
    hide Visible, Delivered, IsWindow, Serves;
    log := new EventLog();
    for i := 0 to |ops|
      invariant log.Valid() && log.joins == map[]
      invariant log.history == Sent(ops[..i]) && log.marks == MarksOf(ops[..i])
    {
      assert ops[..i + 1] == ops[..i] + [ops[i]];
      OneMore(ops[..i], ops[i]);
      GrowByOne(ops[..i], ops[i], 0);
      match ops[i] {
        case Send(ev) => log.Push(ev);
        case Append(_, _) =>
        case Mark(markNo) => log.MarkPersisted(markNo);
      }
    }
    assert ops[..|ops|] == ops;
  }

  /** What the ring no longer holds of the events after the `from`th. */
  function Evicted(evs: seq<Event>, from: nat): seq<Event>
    requires from <= |evs|
  {
    evs[from..if |evs| - from <= CAP then from else |evs| - CAP]
  }

  /**
    A client reconnects at moment `n` of a run with the rows up to `since`. It is replayed
    what the ring still holds after the last mark it is past; with what it has loaded that
    is all the text so far, iff what the ring has dropped since that mark was not text.
    Nothing is dropped within 1024 events of the mark, and beyond that all but the last 1024.
   */
  method Reconnect(ghost full: seq<SinkOp>, ghost n: nat, log: EventLog, since: int, thoughts: bool)
    returns (c: Channel)
    requires InOrder(full) && n <= |full|
    requires log.Valid() && log.history == Sent(full[..n]) && log.marks == MarksOf(full[..n])
    modifies log`subs, log`joins
    ensures log.Valid() && fresh(c) && c.open
    ensures From(full[..n], since) <= |log.history|
    ensures var ops, from := full[..n], From(full[..n], since);
            var gone := Evicted(log.history, from);
            && log.joins == old(log.joins)[c := Join(from + |gone|, |log.history|, thoughts)]
            && c.received == Visible(log.history[from + |gone|..], thoughts)
            && (|log.history| - from <= 1024 ==> gone == [])
            && (|log.history| - from > 1024 ==> gone == log.history[from..|log.history| - 1024])
            && (Pending(ops, since) ==> Loaded(ops, since) == Said(ops))
            && (!Pending(ops, since) ==> (Loaded(ops, since) + SaidIn(c.received) == Said(ops) <==> SaidIn(gone) == ""))
  {
    hide InOrder, SaidIn, Loaded, TextOfRow, Sent, Quiet, Visible, MarksOf, LastMark, Delivered, Serves;
    c := log.SubscribeFrom(since, thoughts);
    ghost var start := log.joins[c].start;
    ResumeIsComplete(full, n, since, start);
    ThoughtsSayNothing(log.history[start..], thoughts);
  }

  // ----- Text that outgrows the ring -----

  lemma {:induction false} NothingIsMarked(ops: seq<SinkOp>, since: int)
    requires Orderly(ops) && Rows(ops) == []
    ensures MarksOf(ops) == [] && Loaded(ops, since) == "" && (ops != [] ==> ops[|ops| - 1].Send?)
  {
    if ops != [] {
      var init := ops[..|ops| - 1];
      PrefixIsOrderly(ops, |init|);
      NothingIsMarked(init, since);
      assert IsOrderlyAt(ops, |init|);
    }
  }

  /** Of a run that has written nothing, a reconnect gives back the whole text iff the ring has dropped none of it. */
  lemma UnwrittenTextIsLostIffDropped(ops: seq<SinkOp>, since: int)
    requires InOrder(ops) && Rows(ops) == []
    ensures !Pending(ops, since) && From(ops, since) == 0 && Loaded(ops, since) == ""
    ensures var gone := Evicted(Sent(ops), 0);
            Loaded(ops, since) + SaidIn(Sent(ops)[|gone|..]) == Said(ops) <==> SaidIn(gone) == ""
  {
    hide SaidIn, Rows, Sent, Loaded;
    NothingIsMarked(ops, since);
    var evs, gone := Sent(ops), Evicted(Sent(ops), 0);
    assert evs == gone + evs[|gone|..];
    SaidInConcat(gone, evs[|gone|..]);
    assert Loaded(ops, since) + SaidIn(evs[|gone|..]) == SaidIn(evs[|gone|..]);
  }

  lemma SomethingIsSaid(evs: seq<Event>, i: nat)
    requires i < |evs| && evs[i].AssistantDelta? && evs[i].text != ""
    ensures SaidIn(evs) != ""
  {
    hide SaidIn;
    assert evs == evs[..i] + [evs[i]] + evs[i + 1..];
    SaidInConcat(evs[..i] + [evs[i]], evs[i + 1..]);
    SaidInConcat(evs[..i], [evs[i]]);
    OneEvent(evs[i]);
  }
}
