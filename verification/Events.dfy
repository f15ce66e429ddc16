/**
  The inline events of a run, and the trace of what a run does to the outside world:
  it sends events, appends transcript rows, and marks how far the rows reach.
 */
module Events {
  import opened Basics
  import opened Messages

  datatype ErrorKind = FailedRun | TimedOut | LoopFound | CutOff

  datatype Event =
    | LifecycleStart
    | LifecycleEnd
    | LifecycleError(kind: ErrorKind)
    | AssistantDelta(text: string)
    | ReasoningDelta(thought: string)
    | ToolStart(callId: string, name: string, args: string)
    | ToolEnd(callId: string)

  /** One transcript row as a run writes it. */
  datatype Row = Row(role: Role, content: string, calls: Option<seq<ToolCall>>, callId: Option<string>)

  datatype SinkOp =
    | Send(event: Event)
    | Append(seqNo: int, row: Row)
    | Mark(markNo: int)

  // ----- Events and rows, and the text in them -----

  function TextOfEvent(ev: Event): string {
    if ev.AssistantDelta? then ev.text else ""
  }

  function VerdictOf(ev: Event): seq<Event> {
    if ev.LifecycleEnd? || ev.LifecycleError? then [ev] else []
  }

  function TextOfRow(row: Row): string {
    if row.role == Assistant then row.content else ""
  }

  /** The assistant text a list of events carries. */
  function SaidIn(evs: seq<Event>): string {
    if evs == [] then "" else SaidIn(evs[..|evs| - 1]) + TextOfEvent(evs[|evs| - 1])
  }

  /** The events that tell a client the run is over. */
  function VerdictsIn(evs: seq<Event>): seq<Event> {
    if evs == [] then [] else VerdictsIn(evs[..|evs| - 1]) + VerdictOf(evs[|evs| - 1])
  }

  /** The assistant text a list of rows holds. */
  function RecordedIn(rows: seq<Row>): string {
    if rows == [] then "" else RecordedIn(rows[..|rows| - 1]) + TextOfRow(rows[|rows| - 1])
  }

  lemma {:induction false} SaidInConcat(a: seq<Event>, b: seq<Event>)
    ensures SaidIn(a + b) == SaidIn(a) + SaidIn(b)
  {
    if b == [] {
      assert a + b == a;
    } else {
      var init, last := b[..|b| - 1], b[|b| - 1];
      SaidInConcat(a, init);
      assert (a + b)[..|a + b| - 1] == a + init;
      Assoc(SaidIn(a), SaidIn(init), TextOfEvent(last));
    }
  }

  lemma {:induction false} VerdictsInConcat(a: seq<Event>, b: seq<Event>)
    ensures VerdictsIn(a + b) == VerdictsIn(a) + VerdictsIn(b)
  {
    if b == [] {
      assert a + b == a;
    } else {
      var init, last := b[..|b| - 1], b[|b| - 1];
      VerdictsInConcat(a, init);
      assert (a + b)[..|a + b| - 1] == a + init;
      Assoc(VerdictsIn(a), VerdictsIn(init), VerdictOf(last));
    }
  }

  lemma {:induction false} RecordedInConcat(a: seq<Row>, b: seq<Row>)
    ensures RecordedIn(a + b) == RecordedIn(a) + RecordedIn(b)
  {
    if b == [] {
      assert a + b == a;
    } else {
      var init, last := b[..|b| - 1], b[|b| - 1];
      RecordedInConcat(a, init);
      assert (a + b)[..|a + b| - 1] == a + init;
      Assoc(RecordedIn(a), RecordedIn(init), TextOfRow(last));
    }
  }

  lemma OneEvent(ev: Event)
    ensures SaidIn([ev]) == TextOfEvent(ev)
    ensures VerdictsIn([ev]) == VerdictOf(ev)
  {
    assert [ev][..0] == [];
  }

  lemma OneRow(row: Row)
    ensures RecordedIn([row]) == TextOfRow(row)
  {
    assert [row][..0] == [];
  }

  // ----- Traces -----

  function EventOfOp(op: SinkOp): seq<Event> {
    if op.Send? then [op.event] else []
  }

  function RowOfOp(op: SinkOp): seq<Row> {
    if op.Append? then [op.row] else []
  }

  function Sent(ops: seq<SinkOp>): seq<Event> {
    if ops == [] then [] else Sent(ops[..|ops| - 1]) + EventOfOp(ops[|ops| - 1])
  }

  function Rows(ops: seq<SinkOp>): seq<Row> {
    if ops == [] then [] else Rows(ops[..|ops| - 1]) + RowOfOp(ops[|ops| - 1])
  }

  function Said(ops: seq<SinkOp>): string {
    SaidIn(Sent(ops))
  }

  function Recorded(ops: seq<SinkOp>): string {
    RecordedIn(Rows(ops))
  }

  lemma OneMore(ops: seq<SinkOp>, op: SinkOp)
    ensures Sent(ops + [op]) == Sent(ops) + EventOfOp(op)
    ensures Rows(ops + [op]) == Rows(ops) + RowOfOp(op)
  {
    assert (ops + [op])[..|ops|] == ops;
  }

  // ----- Order of appends and marks -----

  /** A mark repeats the append right before it and covers all text sent so far. */
  ghost predicate MarkIsExact(ops: seq<SinkOp>, i: nat)
    requires i < |ops|
  {
    ops[i].Mark? ==>
      && i > 0 && ops[i - 1].Append? && ops[i - 1].seqNo == ops[i].markNo
      && Said(ops[..i]) == Recorded(ops[..i])
  }

  predicate IsMarkedNext(ops: seq<SinkOp>, i: nat)
    requires i + 1 < |ops|
  {
    ops[i].Append? ==> ops[i + 1].Mark?
  }

  predicate AppendsBelow(ops: seq<SinkOp>, bound: int) {
    forall i :: 0 <= i < |ops| && ops[i].Append? ==> ops[i].seqNo < bound
  }

  predicate NumberGrows(ops: seq<SinkOp>, i: nat)
    requires i < |ops|
  {
    ops[i].Append? ==> AppendsBelow(ops[..i], ops[i].seqNo)
  }

  ghost predicate IsOrderlyAt(ops: seq<SinkOp>, i: nat)
    requires i < |ops|
  {
    MarkIsExact(ops, i) && NumberGrows(ops, i) && (i + 1 < |ops| ==> IsMarkedNext(ops, i))
  }

  /** Prefix-closed, so it describes every moment of a run. */
  ghost predicate Orderly(ops: seq<SinkOp>) {
    forall i :: 0 <= i < |ops| ==> IsOrderlyAt(ops, i)
  }

  /** No row waits for its mark. */
  predicate Quiet(ops: seq<SinkOp>) {
    ops == [] || !ops[|ops| - 1].Append?
  }

  /** The trace of a run between two of its steps. */
  ghost predicate InOrder(ops: seq<SinkOp>) {
    Orderly(ops) && Quiet(ops)
  }

  lemma PrefixIsOrderly(ops: seq<SinkOp>, n: nat)
    requires Orderly(ops) && n <= |ops|
    ensures Orderly(ops[..n])
  {
    forall i | 0 <= i < n ensures IsOrderlyAt(ops[..n], i) {
      assert IsOrderlyAt(ops, i);
      assert ops[..n][..i] == ops[..i];
    }
  }

  lemma OneMoreIsOrderly(a: seq<SinkOp>, op: SinkOp)
    requires Orderly(a)
    requires Quiet(a) || op.Mark?
    requires MarkIsExact(a + [op], |a|)
    requires op.Append? ==> AppendsBelow(a, op.seqNo)
    ensures Orderly(a + [op])
  {
    var b := a + [op];
    forall i | 0 <= i < |b| ensures IsOrderlyAt(b, i) {
      assert b[..i] == a[..i];
      if i < |a| {
        assert IsOrderlyAt(a, i);
      } else {
        assert a[..i] == a;
      }
    }
  }

  lemma MarkOfLastIsExact(b: seq<SinkOp>, seqNo: int)
    requires b != [] && b[|b| - 1].Append? && b[|b| - 1].seqNo == seqNo
    requires Said(b) == Recorded(b)
    ensures MarkIsExact(b + [Mark(seqNo)], |b|)
  {
    assert (b + [Mark(seqNo)])[..|b|] == b;
  }

  /** Appending a row and marking it at once, when the row completes the text sent so far. */
  lemma PersistStaysOrderly(a: seq<SinkOp>, seqNo: int, row: Row)
    requires Orderly(a) && Quiet(a) && AppendsBelow(a, seqNo)
    requires Said(a) == Recorded(a) + TextOfRow(row)
    ensures var b := a + [Append(seqNo, row)] + [Mark(seqNo)];
            && Orderly(b) && Quiet(b)
            && Sent(b) == Sent(a) && Rows(b) == Rows(a) + [row] && Said(b) == Recorded(b)
  {
    hide Sent, Rows, SaidIn, RecordedIn, Orderly, NumberGrows, AppendsBelow, TextOfRow;
    var mid := a + [Append(seqNo, row)];
    OneMoreIsOrderly(a, Append(seqNo, row));
    assert Sent(mid) == Sent(a) && Rows(mid) == Rows(a) + [row] by {
      OneMore(a, Append(seqNo, row));
    }
    RecordedInConcat(Rows(a), [row]);
    OneRow(row);
    MarkOfLastIsExact(mid, seqNo);
    OneMoreIsOrderly(mid, Mark(seqNo));
    assert Sent(mid + [Mark(seqNo)]) == Sent(mid) && Rows(mid + [Mark(seqNo)]) == Rows(mid) by {
      OneMore(mid, Mark(seqNo));
    }
  }
}
