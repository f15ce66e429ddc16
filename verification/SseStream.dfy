/**
  Turning the events of one run into numbered server-sent frames, and taking the framed
  text apart again. Frames are values; how a frame is written out is a parameter.
 */
module SseStream {
  import opened Basics

  type RunId = nat
  type SessionId = nat
  type ItemId = nat

  datatype ErrorKind = Aborted | LoopFound | TimedOut | CutOff | OtherError

  datatype Phase = Start | End | Error(message: string, kind: ErrorKind)

  datatype Incoming =
    | Lifecycle(run: RunId, phase: Phase)
    | Assistant(run: RunId, delta: string)
    | Usage(session: SessionId, inputTokens: nat)
    | Other

  /** What a response holds: the message, if one was opened, and the input size. */
  datatype Response = Response(output: Option<(ItemId, string)>, inputTokens: nat)

  datatype Frame =
    | Created(seqNo: nat, response: Response)
    | ItemAdded(seqNo: nat, item: ItemId)
    | PartAdded(seqNo: nat, item: ItemId)
    | TextDelta(seqNo: nat, item: ItemId, delta: string)
    | TextDone(seqNo: nat, item: ItemId, text: string)
    | ItemDone(seqNo: nat, item: ItemId, text: string)
    | Completed(seqNo: nat, response: Response)
    | Failed(seqNo: nat, message: string, code: string)
    | StreamDone

  function CodeOf(kind: ErrorKind): string {
    match kind
    case Aborted => "cancelled"
    case LoopFound => "loop_detected"
    case TimedOut => "timeout"
    case CutOff => "truncated"
    case OtherError => "internal_error"
  }

  lemma ErrorCodesAre()
    ensures CodeOf(Aborted) == "cancelled" && CodeOf(LoopFound) == "loop_detected" && CodeOf(TimedOut) == "timeout"
    ensures CodeOf(CutOff) == "truncated" && CodeOf(OtherError) == "internal_error"
  {
  }

  // ----- What a list of frames says -----

  function NumberOf(f: Frame): seq<nat> {
    if f.StreamDone? then [] else [f.seqNo]
  }

  function Numbers(fs: seq<Frame>): seq<nat> {
    if fs == [] then [] else Numbers(fs[..|fs| - 1]) + NumberOf(fs[|fs| - 1])
  }

  function DeltaOf(f: Frame): string {
    if f.TextDelta? then f.delta else ""
  }

  function Deltas(fs: seq<Frame>): string {
    if fs == [] then "" else Deltas(fs[..|fs| - 1]) + DeltaOf(fs[|fs| - 1])
  }

  function ContentOf(f: Frame): seq<Frame> {
    if f.ItemAdded? || f.PartAdded? || f.TextDelta? then [f] else []
  }

  /** The frames that open the item or carry its text. */
  function Contents(fs: seq<Frame>): seq<Frame> {
    if fs == [] then [] else Contents(fs[..|fs| - 1]) + ContentOf(fs[|fs| - 1])
  }

  /** Nothing before the item is opened; then its two opening frames, and text ever after. */
  predicate IsContent(cs: seq<Frame>, item: Option<ItemId>) {
    match item
    case None => cs == []
    case Some(id) =>
      && |cs| >= 3
      && cs[0].ItemAdded? && cs[0].item == id
      && cs[1].PartAdded? && cs[1].item == id
      && forall i :: 2 <= i < |cs| ==> cs[i].TextDelta? && cs[i].item == id
  }

  ghost predicate IsOrdered(sent: seq<Frame>, next: nat, item: Option<ItemId>, text: string) {
    && Numbers(sent) == UpTo(next)
    && Deltas(sent) == text
    && IsContent(Contents(sent), item)
  }

  lemma NumberedNext(sent: seq<Frame>, next: nat, f: Frame)
    requires Numbers(sent) == UpTo(next) && NumberOf(f) == [next]
    ensures Numbers(sent + [f]) == UpTo(next + 1)
  {
    assert (sent + [f])[..|sent|] == sent;
  }

  lemma OneMoreFrame(sent: seq<Frame>, f: Frame)
    ensures Numbers(sent + [f]) == Numbers(sent) + NumberOf(f)
    ensures Deltas(sent + [f]) == Deltas(sent) + DeltaOf(f)
    ensures Contents(sent + [f]) == Contents(sent) + ContentOf(f)
  {
    assert (sent + [f])[..|sent|] == sent;
  }

  /** A frame that is neither an opening nor text. */
  lemma PlainFrame(sent: seq<Frame>, f: Frame, next: nat, item: Option<ItemId>, text: string)
    requires IsOrdered(sent, next, item, text) && ContentOf(f) == [] && (f.StreamDone? || f.seqNo == next)
    ensures IsOrdered(sent + [f], if f.StreamDone? then next else next + 1, item, text)
  {
    OneMoreFrame(sent, f);
    assert text + "" == text && Contents(sent) + [] == Contents(sent);
    if f.StreamDone? {
      assert Numbers(sent) + [] == Numbers(sent);
    } else {
      NumberedNext(sent, next, f);
    }
  }

  lemma TextFrame(sent: seq<Frame>, next: nat, id: ItemId, text: string, delta: string)
    requires IsOrdered(sent, next, Some(id), text)
    ensures IsOrdered(sent + [TextDelta(next, id, delta)], next + 1, Some(id), text + delta)
  {
    OneMoreFrame(sent, TextDelta(next, id, delta));
    NumberedNext(sent, next, TextDelta(next, id, delta));
  }

  lemma OpeningFrames(sent: seq<Frame>, next: nat, id: ItemId, text: string, delta: string)
    requires IsOrdered(sent, next, None, text)
    ensures IsOrdered(sent + [ItemAdded(next, id)] + [PartAdded(next + 1, id)] + [TextDelta(next + 2, id, delta)],
                      next + 3, Some(id), text + delta)
  {
    hide Numbers, Deltas, Contents, UpTo;
    var a, b, c := ItemAdded(next, id), PartAdded(next + 1, id), TextDelta(next + 2, id, delta);
    OneMoreFrame(sent, a);
    NumberedNext(sent, next, a);
    OneMoreFrame(sent + [a], b);
    NumberedNext(sent + [a], next + 1, b);
    OneMoreFrame(sent + [a] + [b], c);
    NumberedNext(sent + [a] + [b], next + 2, c);
    assert Contents(sent + [a] + [b] + [c]) == [a, b, c];
    assert Deltas(sent) + "" + "" == Deltas(sent);
  }

  // ----- What one event becomes -----

  /** The connection of one run: what has been opened, counted and said so far. */
  datatype Conn = Conn(run: RunId, session: SessionId, item: Option<ItemId>, sequence: nat, text: string,
                       inputTokens: nat)

  function NewConn(run: RunId, session: SessionId): Conn {
    Conn(run, session, None, 0, "", 0)
  }

  predicate Concerns(run: RunId, ev: Incoming) {
    (ev.Lifecycle? || ev.Assistant?) && ev.run == run
  }

  predicate IsEnd(run: RunId, ev: Incoming) {
    ev.Lifecycle? && ev.run == run && !ev.phase.Start?
  }

  function ResponseOf(c: Conn): Response {
    Response(if c.item.Some? then Some((c.item.value, c.text)) else None, c.inputTokens)
  }

  /** The first text opens the item and its content part. */
  function DeltaFrames(c: Conn, delta: string, freshId: ItemId): seq<Frame> {
    match c.item
    case None => [ItemAdded(c.sequence, freshId), PartAdded(c.sequence + 1, freshId),
                  TextDelta(c.sequence + 2, freshId, delta)]
    case Some(id) => [TextDelta(c.sequence, id, delta)]
  }

  /** The end closes the item if one was opened, with all the text it carried. */
  function EndFrames(c: Conn): seq<Frame> {
    match c.item
    case None => [Completed(c.sequence, ResponseOf(c)), StreamDone]
    case Some(id) =>
      [TextDone(c.sequence, id, c.text), ItemDone(c.sequence + 1, id, c.text),
       Completed(c.sequence + 2, ResponseOf(c)), StreamDone]
  }

  function PhaseFrames(c: Conn, phase: Phase): seq<Frame> {
    match phase
    case Start => [Created(c.sequence, ResponseOf(c))]
    case End => EndFrames(c)
    case Error(message, kind) => [Failed(c.sequence, message, CodeOf(kind)), StreamDone]
  }

  /** The frames of an event; None for events of others. */
  function FramesFor(c: Conn, ev: Incoming, freshId: ItemId): Option<seq<Frame>> {
    if !Concerns(c.run, ev) then None
    else if ev.Lifecycle? then Some(PhaseFrames(c, ev.phase))
    else Some(DeltaFrames(c, ev.delta, freshId))
  }

  function After(c: Conn, ev: Incoming, freshId: ItemId): Conn {
    match ev
    case Lifecycle(r, phase) =>
      if r != c.run then c
      else c.(sequence := c.sequence + if phase.End? && c.item.Some? then 3 else 1)
    case Assistant(r, delta) =>
      if r != c.run then c
      else c.(item := Some(if c.item == None then freshId else c.item.value), text := c.text + delta,
              sequence := c.sequence + if c.item == None then 3 else 1)
    case Usage(s, tokens) => if s == c.session then c.(inputTokens := tokens) else c
    case Other => c
  }

  class SseState {
    const run: RunId
    const session: SessionId
    var item: Option<ItemId>
    var sequence: nat
    var text: string
    var inputTokens: nat

    constructor (run: RunId, session: SessionId)
      ensures Snap() == NewConn(run, session)
    {
      this.run, this.session := run, session;
      item, sequence, text, inputTokens := None, 0, "", 0;
    }

    function Snap(): Conn
      reads this
    {
      Conn(run, session, item, sequence, text, inputTokens)
    }

    function BuildResponse(): Response
      reads this
    {
      Response(if item.Some? then Some((item.value, text)) else None, inputTokens)
    }

    method NextSeq() returns (seqNo: nat)
      modifies this`sequence
      ensures seqNo == old(sequence) && sequence == old(sequence) + 1
    {
      seqNo := sequence;
      sequence := sequence + 1;
    }

    /** The frames an event becomes, and whether it ends the stream; None for events of others. */
    method EventToSse(ev: Incoming, freshId: ItemId) returns (frames: Option<seq<Frame>>, terminal: bool)
      modifies this
      ensures frames == FramesFor(old(Snap()), ev, freshId) && Snap() == After(old(Snap()), ev, freshId)
      ensures terminal == IsEnd(run, ev)
      ensures ev.Lifecycle? && ev.run == run ==>
                var n := old(sequence);
                frames == Some(match ev.phase
                               case Start => [Created(n, old(BuildResponse()))]
                               case Error(message, kind) => [Failed(n, message, CodeOf(kind)), StreamDone]
                               case End =>
                                 if old(item) == None then [Completed(n, old(BuildResponse())), StreamDone]
                                 else [TextDone(n, old(item.value), old(text)),
                                       ItemDone(n + 1, old(item.value), old(text)),
                                       Completed(n + 2, old(BuildResponse())), StreamDone])
      ensures ev.Assistant? && ev.run == run ==>
                var n := old(sequence);
                && text == old(text) + ev.delta && item == Some(if old(item) == None then freshId else old(item.value))
                && frames == Some(if old(item) == None then
                                    [ItemAdded(n, freshId), PartAdded(n + 1, freshId),
                                     TextDelta(n + 2, freshId, ev.delta)]
                                  else [TextDelta(n, old(item.value), ev.delta)])
      ensures inputTokens == if ev.Usage? && ev.session == session then ev.inputTokens else old(inputTokens)
    {
      frames, terminal := None, false;
      match ev {
        case Lifecycle(r, phase) =>
          if r == run {
            match phase {
              case Start =>
                var seqNo := NextSeq();
                frames := Some([Created(seqNo, BuildResponse())]);
              case End =>
                var fs := CloseItem();
                frames, terminal := Some(fs), true;
              case Error(message, kind) =>
                var seqNo := NextSeq();
                frames, terminal := Some([Failed(seqNo, message, CodeOf(kind)), StreamDone]), true;
            }
          }
        case Assistant(r, delta) =>
          if r == run {
            var fs := AddText(delta, freshId);
            frames := Some(fs);
          }
        case Usage(s, tokens) =>
          if s == session {
            inputTokens := tokens;
          }
        case Other =>
      }
    }

    method CloseItem() returns (frames: seq<Frame>)
      modifies this`sequence
      ensures frames == EndFrames(old(Snap())) && sequence == old(sequence) + if item.Some? then 3 else 1
    {
      frames := [];
      if item.Some? {
        var seqNo := NextSeq();
        frames := frames + [TextDone(seqNo, item.value, text)];
        seqNo := NextSeq();
        frames := frames + [ItemDone(seqNo, item.value, text)];
      }
      var seqNo := NextSeq();
      frames := frames + [Completed(seqNo, BuildResponse())];
      frames := frames + [StreamDone];
    }

    method AddText(delta: string, freshId: ItemId) returns (frames: seq<Frame>)
      modifies this`item, this`text, this`sequence
      ensures frames == DeltaFrames(old(Snap()), delta, freshId)
      ensures Snap() == After(old(Snap()), Assistant(run, delta), freshId)
    {
      var first := item == None;
      if first {
        item := Some(freshId);
      }
      text := text + delta;
      frames := [];
      if first {
        var seqNo := NextSeq();
        frames := frames + [ItemAdded(seqNo, item.value)];
        seqNo := NextSeq();
        frames := frames + [PartAdded(seqNo, item.value)];
      }
      var seqNo := NextSeq();
      frames := frames + [TextDelta(seqNo, item.value, delta)];
    }
  }

  // ----- What a whole stream of events becomes -----

  /** Where item ids come from. */
  type ItemIds = nat -> ItemId

  function ConnAfter(c: Conn, evs: seq<Incoming>, ids: ItemIds): (d: Conn)
    ensures d.run == c.run && d.session == c.session
  {
    if evs == [] then c
    else After(ConnAfter(c, evs[..|evs| - 1], ids), evs[|evs| - 1], ids(|evs| - 1))
  }

  function Listed(frames: Option<seq<Frame>>): seq<Frame> {
    if frames == None then [] else frames.value
  }

  function FramesOf(c: Conn, evs: seq<Incoming>, ids: ItemIds): seq<Frame> {
    if evs == [] then []
    else
      var init := evs[..|evs| - 1];
      FramesOf(c, init, ids) + Listed(FramesFor(ConnAfter(c, init, ids), evs[|evs| - 1], ids(|init|)))
  }

  lemma OneMoreEvent(c: Conn, evs: seq<Incoming>, i: nat, ids: ItemIds)
    requires i < |evs|
    ensures ConnAfter(c, evs[..i + 1], ids) == After(ConnAfter(c, evs[..i], ids), evs[i], ids(i))
    ensures FramesOf(c, evs[..i + 1], ids)
            == FramesOf(c, evs[..i], ids) + Listed(FramesFor(ConnAfter(c, evs[..i], ids), evs[i], ids(i)))
  {
    assert evs[..i + 1][..i] == evs[..i];
  }

  /** The text of a run's events. */
  function TextOf(run: RunId, evs: seq<Incoming>): string {
    if evs == [] then ""
    else
      var last := evs[|evs| - 1];
      TextOf(run, evs[..|evs| - 1]) + if last.Assistant? && last.run == run then last.delta else ""
  }

  /** The input size last reported for the session, 0 before any report. */
  function TokensOf(session: SessionId, evs: seq<Incoming>): nat {
    if evs == [] then 0
    else
      var last := evs[|evs| - 1];
      if last.Usage? && last.session == session then last.inputTokens else TokensOf(session, evs[..|evs| - 1])
  }

  predicate Speaks(run: RunId, evs: seq<Incoming>) {
    exists i :: 0 <= i < |evs| && evs[i].Assistant? && evs[i].run == run
  }

  /** The first event that ends the stream, if any. */
  function EndAt(run: RunId, evs: seq<Incoming>): (n: nat)
    ensures n <= |evs| && (n < |evs| ==> IsEnd(run, evs[n]))
    ensures forall i :: 0 <= i < n ==> !IsEnd(run, evs[i])
  {
    if evs == [] || IsEnd(run, evs[0]) then 0 else 1 + EndAt(run, evs[1..])
  }

  predicate IsClosing(f: Frame) {
    !(f.Created? || f.ItemAdded? || f.PartAdded? || f.TextDelta?)
  }

  predicate NoneCloses(fs: seq<Frame>) {
    forall i :: 0 <= i < |fs| ==> !IsClosing(fs[i])
  }

  /** A connection and the frames sent on it agree. */
  ghost predicate Agrees(c: Conn, fs: seq<Frame>) {
    IsOrdered(fs, c.sequence, c.item, c.text) && NoneCloses(fs)
  }

  lemma StepAgrees(c: Conn, fs: seq<Frame>, ev: Incoming, freshId: ItemId)
    requires Agrees(c, fs) && !IsEnd(c.run, ev)
    ensures Agrees(After(c, ev, freshId), fs + Listed(FramesFor(c, ev, freshId)))
  {
    hide IsOrdered;
    if !Concerns(c.run, ev) {
      assert fs + [] == fs;
    } else if ev.Lifecycle? {
      PlainFrame(fs, Created(c.sequence, ResponseOf(c)), c.sequence, c.item, c.text);
    } else if c.item.Some? {
      TextFrame(fs, c.sequence, c.item.value, c.text, ev.delta);
    } else {
      OpeningFrames(fs, c.sequence, freshId, c.text, ev.delta);
      var frames := DeltaFrames(c, ev.delta, freshId);
      assert fs + [frames[0]] + [frames[1]] + [frames[2]] == fs + frames;
    }
  }

  /** As long as the run goes on, its frames carry its text, and nothing is closed. */
  lemma {:induction false} OpenStreamAgrees(run: RunId, session: SessionId, evs: seq<Incoming>, ids: ItemIds)
    requires forall i :: 0 <= i < |evs| ==> !IsEnd(run, evs[i])
    ensures var c := ConnAfter(NewConn(run, session), evs, ids);
            Agrees(c, FramesOf(NewConn(run, session), evs, ids)) && c.text == TextOf(run, evs)
            && (c.item.Some? <==> Speaks(run, evs)) && c.inputTokens == TokensOf(session, evs)
  {
    hide Agrees, FramesFor;
    if evs == [] {
      NothingAgrees(run, session);
    } else {
      var init, last := evs[..|evs| - 1], evs[|evs| - 1];
      OpenStreamAgrees(run, session, init, ids);
      StepAgrees(ConnAfter(NewConn(run, session), init, ids), FramesOf(NewConn(run, session), init, ids), last,
                 ids(|init|));
      assert Speaks(run, evs) <==> Speaks(run, init) || (last.Assistant? && last.run == run) by {
        OneMoreSpeaks(run, evs);
      }
      assert TextOf(run, init) + "" == TextOf(run, init);
    }
  }

  /** The closing frames are numbered on, and there is neither text nor an opening among them. */
  lemma EndIsOrdered(c: Conn, fs: seq<Frame>, phase: Phase)
    requires Agrees(c, fs) && !phase.Start?
    ensures IsOrdered(fs + PhaseFrames(c, phase), After(c, Lifecycle(c.run, phase), 0).sequence, c.item, c.text)
  {
    hide IsOrdered;
    match phase {
      case End =>
        var text, response := c.text, ResponseOf(c);
        var open, n := fs, c.sequence;
        if c.item.Some? {
          PlainFrame(fs, TextDone(n, c.item.value, text), n, c.item, text);
          PlainFrame(fs + [TextDone(n, c.item.value, text)], ItemDone(n + 1, c.item.value, text), n + 1, c.item, text);
          open, n := fs + [TextDone(n, c.item.value, text)] + [ItemDone(n + 1, c.item.value, text)], n + 2;
        }
        PlainFrame(open, Completed(n, response), n, c.item, text);
        PlainFrame(open + [Completed(n, response)], StreamDone, n + 1, c.item, text);
        assert open + [Completed(n, response)] + [StreamDone] == fs + EndFrames(c);
      case Error(message, kind) =>
        var failed := Failed(c.sequence, message, CodeOf(kind));
        PlainFrame(fs, failed, c.sequence, c.item, c.text);
        PlainFrame(fs + [failed], StreamDone, c.sequence + 1, c.item, c.text);
        assert fs + [failed] + [StreamDone] == fs + PhaseFrames(c, phase);
    }
  }

  lemma NothingAgrees(run: RunId, session: SessionId)
    ensures Agrees(NewConn(run, session), [])
  {
  }

  lemma OneMoreSpeaks(run: RunId, evs: seq<Incoming>)
    requires evs != []
    ensures var init, last := evs[..|evs| - 1], evs[|evs| - 1];
            Speaks(run, evs) <==> Speaks(run, init) || (last.Assistant? && last.run == run)
  {
    var init := evs[..|evs| - 1];
    if Speaks(run, evs) {
      var i :| 0 <= i < |evs| && evs[i].Assistant? && evs[i].run == run;
      assert i < |init| ==> init[i] == evs[i];
    }
    if Speaks(run, init) {
      var i :| 0 <= i < |init| && init[i].Assistant? && init[i].run == run;
      assert evs[i] == init[i];
    }
  }

  /** What is sent of a list of events: all frames up to those of the first event that ends the run. */
  function Stream(run: RunId, session: SessionId, evs: seq<Incoming>, ids: ItemIds): seq<Frame> {
    var k := EndAt(run, evs);
    FramesOf(NewConn(run, session), evs[..if k < |evs| then k + 1 else k], ids)
  }

  /**
    The whole stream of a run, whatever other events come between: frames numbered without
    gap, the item opened once and before the first text, the text in order, nothing closed;
    and then, iff the run has ended, the closing frames, once, with all the text sent before.
   */
  lemma StreamIsComplete(run: RunId, session: SessionId, evs: seq<Incoming>, ids: ItemIds)
    ensures var k := EndAt(run, evs);
            var before := evs[..k];
            var c := ConnAfter(NewConn(run, session), before, ids);
            var body := FramesOf(NewConn(run, session), before, ids);
            && Agrees(c, body)
            && c.text == Deltas(body) == TextOf(run, before) && (c.item.Some? <==> Speaks(run, before))
            && c.inputTokens == TokensOf(session, before)
            && Stream(run, session, evs, ids)
               == body + (if k == |evs| then [] else PhaseFrames(c, evs[k].phase))
            && (exists n :: Numbers(Stream(run, session, evs, ids)) == UpTo(n))
  {
    hide IsEnd, PhaseFrames, FramesOf, Numbers, Contents, UpTo, TextOf, TokensOf, ConnAfter, Speaks, Deltas, NoneCloses;
    var k := EndAt(run, evs);
    OpenStreamAgrees(run, session, evs[..k], ids);
    if k < |evs| {
      OneMoreEvent(NewConn(run, session), evs, k, ids);
      EndIsLifecycle(run, evs[k]);
      EndIsOrdered(ConnAfter(NewConn(run, session), evs[..k], ids), FramesOf(NewConn(run, session), evs[..k], ids),
                   evs[k].phase);
    }
  }

  /**
    The last frames of a run that ends well: the item with all the text of the run's events,
    if there was any, and the whole response, numbered on from the frames before.
   */
  lemma EndingIsWhole(run: RunId, session: SessionId, evs: seq<Incoming>, ids: ItemIds)
    requires EndAt(run, evs) < |evs|
    ensures var k := EndAt(run, evs);
            var body, text := FramesOf(NewConn(run, session), evs[..k], ids), TextOf(run, evs[..k]);
            var tokens, n := TokensOf(session, evs[..k]), |body|;
            var item, last := ConnAfter(NewConn(run, session), evs[..k], ids).item, Stream(run, session, evs, ids);
            && n <= |last| && (Speaks(run, evs[..k]) <==> item.Some?)
            && (evs[k].phase.End? ==>
                  last[n..]
                  == if item.Some? then
                       [TextDone(n, item.value, text), ItemDone(n + 1, item.value, text),
                        Completed(n + 2, Response(Some((item.value, text)), tokens)), StreamDone]
                     else [Completed(n, Response(None, tokens)), StreamDone])
            && (evs[k].phase.Error? ==>
                  last[n..] == [Failed(n, evs[k].phase.message, CodeOf(evs[k].phase.kind)), StreamDone])
  {
    hide FramesOf, Numbers, Contents, UpTo, Stream, PhaseFrames, TextOf, TokensOf, Deltas, Speaks, CodeOf;
    var k := EndAt(run, evs);
    StreamIsComplete(run, session, evs, ids);
    var c, body := ConnAfter(NewConn(run, session), evs[..k], ids), FramesOf(NewConn(run, session), evs[..k], ids);
    OpenFramesAreNumbered(body);
    BodyIsNumbered(c, body);
    OnlyEndFrames(c, evs[k].phase);
    assert (body + PhaseFrames(c, evs[k].phase))[|body|..] == PhaseFrames(c, evs[k].phase);
  }

  lemma BodyIsNumbered(c: Conn, body: seq<Frame>)
    requires Agrees(c, body)
    ensures |Numbers(body)| == c.sequence && NoneCloses(body)
  {
  }

  lemma OnlyEndFrames(c: Conn, phase: Phase)
    ensures phase.End? ==>
              PhaseFrames(c, phase)
              == if c.item.Some? then
                   [TextDone(c.sequence, c.item.value, c.text), ItemDone(c.sequence + 1, c.item.value, c.text),
                    Completed(c.sequence + 2, Response(Some((c.item.value, c.text)), c.inputTokens)), StreamDone]
                 else [Completed(c.sequence, Response(None, c.inputTokens)), StreamDone]
    ensures phase.Error? ==>
              PhaseFrames(c, phase) == [Failed(c.sequence, phase.message, CodeOf(phase.kind)), StreamDone]
  {
  }

  lemma {:induction false} OpenFramesAreNumbered(fs: seq<Frame>)
    requires NoneCloses(fs)
    ensures |Numbers(fs)| == |fs|
  {
    if fs != [] {
      OpenFramesAreNumbered(fs[..|fs| - 1]);
      assert !IsClosing(fs[|fs| - 1]);
    }
  }

  lemma EndIsLifecycle(run: RunId, ev: Incoming)
    requires IsEnd(run, ev)
    ensures ev.Lifecycle? && ev.run == run && !ev.phase.Start?
  {
  }

  // ----- Framing -----

  const DATA := "data: "

  function Framed(values: seq<string>): string {
    if values == [] then "" else Framed(values[..|values| - 1]) + FrameText(values[|values| - 1])
  }

  function FrameText(value: string): string {
    DATA + value + "\n\n"
  }

  /** A line without its carriage return. */
  function Chomp(line: string): string {
    if line != "" && line[|line| - 1] == '\r' then line[..|line| - 1] else line
  }

  function Lines(s: string): seq<string>
    decreases |s|
  {
    if s == "" then []
    else
      var p := FirstNewline(s);
      if p == |s| then [s] else [Chomp(s[..p])] + Lines(s[p + 1..])
  }

  function ValueOf(line: string): seq<string> {
    if DATA <= line then [line[|DATA|..]] else []
  }

  function ValuesOf(lines: seq<string>): seq<string> {
    if lines == [] then [] else ValueOf(lines[0]) + ValuesOf(lines[1..])
  }

  function SplitSseData(payload: string): seq<string> {
    ValuesOf(Lines(payload))
  }

  /** What a serializer writes: one line, not ending in a carriage return. */
  predicate IsOneLine(value: string) {
    (forall i :: 0 <= i < |value| ==> value[i] != '\n') && (value == "" || value[|value| - 1] != '\r')
  }

  lemma LinesFront(line: string, rest: string)
    requires forall i :: 0 <= i < |line| ==> line[i] != '\n'
    ensures Lines(line + "\n" + rest) == [Chomp(line)] + Lines(rest)
  {
    hide Chomp;
    var s := line + "\n" + rest;
    FirstNewlineIs(s, |line|);
    assert s[..|line|] == line && s[|line| + 1..] == rest;
  }

  lemma ValuesFront(line: string, lines: seq<string>)
    ensures ValuesOf([line] + lines) == ValueOf(line) + ValuesOf(lines)
  {
    assert ([line] + lines)[1..] == lines;
  }

  lemma ValueOfFrame(value: string)
    requires IsOneLine(value)
    ensures ValueOf(Chomp(DATA + value)) == [value] && ValueOf(Chomp("")) == []
  {
    assert (DATA + value)[|DATA|..] == value;
  }

  /** A frame at the front is two lines, the second of them empty. */
  lemma FrameIsTwoLines(value: string, rest: string)
    requires IsOneLine(value)
    ensures ValuesOf(Lines(FrameText(value) + rest)) == [value] + ValuesOf(Lines(rest))
  {
    hide Lines, ValuesOf, ValueOf, Chomp;
    var line := DATA + value;
    assert FrameText(value) + rest == line + "\n" + ("" + "\n" + rest);
    LinesFront(line, "" + "\n" + rest);
    LinesFront("", rest);
    ValuesFront(Chomp(line), Lines("" + "\n" + rest));
    ValuesFront(Chomp(""), Lines(rest));
    ValueOfFrame(value);
    assert [] + ValuesOf(Lines(rest)) == ValuesOf(Lines(rest));
  }

  /** Splitting gives back exactly the framed values. */
  lemma {:induction false} SplitInvertsFraming(values: seq<string>, rest: string)
    requires forall i :: 0 <= i < |values| ==> IsOneLine(values[i])
    ensures ValuesOf(Lines(Framed(values) + rest)) == values + ValuesOf(Lines(rest))
  {
    hide Lines, ValuesOf, FrameText, IsOneLine;
    if values == [] {
      assert Framed(values) + rest == rest;
      assert values + ValuesOf(Lines(rest)) == ValuesOf(Lines(rest));
    } else {
      var init, last := values[..|values| - 1], values[|values| - 1];
      Assoc(Framed(init), FrameText(last), rest);
      SplitInvertsFraming(init, FrameText(last) + rest);
      FrameIsTwoLines(last, rest);
      assert values == init + [last];
      Assoc(init, [last], ValuesOf(Lines(rest)));
    }
  }

  lemma FramedValuesAreRecovered(values: seq<string>)
    requires forall i :: 0 <= i < |values| ==> IsOneLine(values[i])
    ensures SplitSseData(Framed(values)) == values
  {
    SplitInvertsFraming(values, "");
    assert Framed(values) + "" == Framed(values) && values + [] == values;
  }

  /** One value alone comes back iff it is one line. */
  lemma RecoveredIffOneLine(value: string)
    ensures SplitSseData(Framed([value])) == [value] <==> IsOneLine(value)
  {
    assert [value][..0] == [] && Framed([value]) == FrameText(value);
    if IsOneLine(value) {
      FramedValuesAreRecovered([value]);
    } else {
      FirstValueIsShorter(value);
    }
  }

  lemma FirstValueIsShorter(value: string)
    requires !IsOneLine(value)
    ensures var vs := ValuesOf(Lines(FrameText(value))); vs != [] && |vs[0]| < |value|
  {
    var s, p := FrameText(value), FirstNewline(value);
    BreakInFrame(value, p);
    var line := s[..|DATA| + p];
    assert line == DATA + value[..p];
    var first := Chomp(line);
    assert DATA <= first;
    assert Lines(s)[0] == first;
  }

  lemma BreakInFrame(value: string, p: nat)
    requires p == FirstNewline(value)
    ensures FirstNewline(FrameText(value)) == |DATA| + p
  {
    var s := FrameText(value);
    assert forall i :: 0 <= i < |value| ==> s[|DATA| + i] == value[i];
    FirstNewlineIs(s, |DATA| + p);
  }

  // ----- The stream, as the client gets it -----

  /** The frames as a serializer writes them, one value each. */
  function Rendered(frames: seq<Frame>, write: Frame -> string): seq<string> {
    if frames == [] then [] else Rendered(frames[..|frames| - 1], write) + [write(frames[|frames| - 1])]
  }

  lemma {:induction false} RenderedConcat(a: seq<Frame>, b: seq<Frame>, write: Frame -> string)
    ensures Rendered(a + b, write) == Rendered(a, write) + Rendered(b, write)
  {
    if b == [] {
      assert a + b == a;
    } else {
      var init := b[..|b| - 1];
      RenderedConcat(a, init, write);
      assert (a + b)[..|a + b| - 1] == a + init;
      Assoc(Rendered(a, write), Rendered(init, write), [write(b[|b| - 1])]);
    }
  }

  lemma {:induction false} RenderedAreLines(frames: seq<Frame>, write: Frame -> string)
    requires forall f :: IsOneLine(write(f))
    ensures forall i :: 0 <= i < |Rendered(frames, write)| ==> IsOneLine(Rendered(frames, write)[i])
  {
    if frames != [] {
      RenderedAreLines(frames[..|frames| - 1], write);
    }
  }

  /** Yields the values of one event after the other until one ends the run; false if none did. */
  method StreamSse(state: SseState, evs: seq<Incoming>, ids: ItemIds, write: Frame -> string)
    returns (values: seq<string>, ended: bool)
    requires state.Snap() == NewConn(state.run, state.session)
    requires forall f :: IsOneLine(write(f))
    modifies state
    ensures values == Rendered(Stream(state.run, state.session, evs, ids), write)
    ensures ended <==> EndAt(state.run, evs) < |evs|
  {
    hide FramesOf, ConnAfter, FramesFor, After, Rendered, SplitSseData, Framed, IsOneLine, IsEnd;
    ghost var c, frames := NewConn(state.run, state.session), [];
    NothingIsSent(c, ids, write);
    values, ended := [], false;
    var i := 0;
    while i < |evs| && !ended
      invariant i <= |evs|
      invariant ended ==> i > 0 && IsEnd(state.run, evs[i - 1])
      invariant forall j :: 0 <= j < (if ended then i - 1 else i) ==> !IsEnd(state.run, evs[j])
      invariant state.Snap() == ConnAfter(c, evs[..i], ids) && frames == FramesOf(c, evs[..i], ids)
      invariant values == Rendered(frames, write)
    {
      OneMoreEvent(c, evs, i, ids);
      var answer, terminal := state.EventToSse(evs[i], ids(i));
      RenderedConcat(frames, Listed(answer), write);
      frames := frames + Listed(answer);
      if answer.Some? {
        var payload := Framed(Rendered(answer.value, write));
        RenderedAreLines(answer.value, write);
        FramedValuesAreRecovered(Rendered(answer.value, write));
        values := values + SplitSseData(payload);
      } else {
        NothingIsSent(c, ids, write);
        AppendNothing(values, Rendered([], write));
      }
      ended := terminal;
      i := i + 1;
    }
  }

  lemma NothingIsSent(c: Conn, ids: ItemIds, write: Frame -> string)
    ensures ConnAfter(c, [], ids) == c && FramesOf(c, [], ids) == [] && Rendered([], write) == []
  {
  }
}
