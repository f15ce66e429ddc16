/**
  How a stored transcript becomes the history of a run: each entry is turned back into
  a message, the oldest entries are cut off at the token budget, and tool messages
  whose other half is gone are repaired.
 */
module History {
  import opened Basics
  import opened Messages

  /** One transcript row; `toolCalls` is the parsed column, None when absent or unparsable. */
  datatype Entry = Entry(
    role: Role,
    content: string,
    tokensEst: int,
    toolCalls: Option<seq<ToolCall>>,
    toolCallId: Option<string>)

  const DOWNGRADED_RESULT_PREFIX := "【历史工具结果】\n"

  /** A provider takes no call without a name. */
  function Named(c: ToolCall): (named: ToolCall)
    ensures named.id == c.id && named.args == c.args && named.name != ""
    ensures c.name != "" ==> named.name == c.name
  {
    if c.name == "" then c.(name := UNKNOWN_TOOL_NAME) else c
  }

  function StoredCalls(e: Entry): (calls: seq<ToolCall>)
    ensures |calls| == if e.toolCalls.Some? then |e.toolCalls.value| else 0
    ensures forall k :: 0 <= k < |calls| ==> calls[k] == Named(e.toolCalls.value[k])
  {
    match e.toolCalls
    case None => []
    case Some(cs) => seq(|cs|, i requires 0 <= i < |cs| => Named(cs[i]))
  }

  /** A row keeps its text and its role; only a result that names no call becomes marked user text. */
  function EntryToMessage(e: Entry): (m: Message)
    ensures !(e.role == Tool && e.toolCallId == None) ==> m.role == e.role && m.content == e.content
    ensures e.role == Tool && e.toolCallId == None ==>
              m.role == User && m.content == DOWNGRADED_RESULT_PREFIX + e.content
    ensures m.toolCallId == if e.role == Tool then e.toolCallId else None
    ensures |m.toolCalls| == if e.role == Assistant && e.toolCalls.Some? then |e.toolCalls.value| else 0
    ensures forall k :: 0 <= k < |m.toolCalls| ==> m.toolCalls[k].id == e.toolCalls.value[k].id
    ensures m.reasoning == None
    ensures m.role == Tool ==> m.toolCallId.Some?
    ensures m.toolCalls != [] ==> m.role == Assistant
    ensures forall k :: 0 <= k < |m.toolCalls| ==> m.toolCalls[k].name != ""
  {
    match e.role
    case System => Plain(System, e.content)
    case User => Plain(User, e.content)
    case Assistant => Plain(Assistant, e.content).(toolCalls := StoredCalls(e))
    case Tool =>
      match e.toolCallId
      case Some(id) => Plain(Tool, e.content).(toolCallId := Some(id))
      case None => Plain(User, DOWNGRADED_RESULT_PREFIX + e.content)
  }

  function ToMessages(es: seq<Entry>): seq<Message> {
    seq(|es|, i requires 0 <= i < |es| => EntryToMessage(es[i]))
  }

  // ----- What repairing a list means, message by message -----

  /** A result survives only right behind the dispatch it answers; all else survives. */
  predicate Survives(ms: seq<Message>, i: nat)
    requires i < |ms|
  {
    IsResult(ms[i]) ==> i > 0 && Answers(ms[i], ms[i - 1])
  }

  predicate Answered(ms: seq<Message>, i: nat)
    requires i < |ms|
  {
    i + 1 < |ms| && Answers(ms[i + 1], ms[i])
  }

  /** An unanswered message keeps its text and loses its calls. */
  function Mended(ms: seq<Message>, i: nat): Message
    requires i < |ms|
  {
    if Answered(ms, i) then ms[i] else ms[i].(toolCalls := [])
  }

  predicate Blank(m: Message) {
    m.role == Assistant && m.content == "" && m.toolCalls == []
  }

  function Emit(ms: seq<Message>, i: nat): seq<Message>
    requires i < |ms|
  {
    if Survives(ms, i) && !Blank(Mended(ms, i)) then [Mended(ms, i)] else []
  }

  function RepairTo(ms: seq<Message>, n: nat): seq<Message>
    requires n <= |ms|
  {
    if n == 0 then [] else RepairTo(ms, n - 1) + Emit(ms, n - 1)
  }

  /** The repaired list, decided for each message from its two neighbours alone. */
  function Repair(ms: seq<Message>): seq<Message> {
    RepairTo(ms, |ms|)
  }

  // ----- The three in-place passes compute exactly that -----

  ghost function Survivors(ms: seq<Message>, n: nat): seq<nat>
    requires n <= |ms|
  {
    if n == 0 then [] else Survivors(ms, n - 1) + if Survives(ms, n - 1) then [n - 1] else []
  }

  lemma {:induction false} SurvivorsAreSorted(ms: seq<Message>, n: nat)
    requires n <= |ms|
    ensures var src := Survivors(ms, n);
            && (forall j :: 0 <= j < |src| ==> src[j] < n && Survives(ms, src[j]))
            && (forall j, k :: 0 <= j < k < |src| ==> src[j] < src[k])
            && (forall i :: 0 <= i < n && Survives(ms, i) ==> i in src)
  {
    if n > 0 {
      SurvivorsAreSorted(ms, n - 1);
    }
  }

  lemma {:induction false} GapsAreWide(src: seq<nat>, a: nat, b: nat)
    requires forall j, k :: 0 <= j < k < |src| ==> src[j] < src[k]
    requires a < |src| && b < |src|
    ensures a <= b ==> src[b] - src[a] >= b - a
    decreases b
  {
    if a < b {
      GapsAreWide(src, a, b - 1);
    }
  }

  /** After the orphans are gone, the next survivor answers `j` iff the next message did. */
  lemma {:induction false} AnsweredAmongSurvivors(ms: seq<Message>, src: seq<nat>, j: nat)
    requires src == Survivors(ms, |ms|) && j < |src|
    ensures src[j] < |ms| && (j + 1 < |src| ==> src[j + 1] < |ms|)
    ensures (&& j + 1 < |src|
             && IsResult(ms[src[j + 1]])
             && HasCall(ms[src[j]], ms[src[j + 1]].toolCallId.value)
             && ms[src[j]].toolCalls != [])
            <==> Answered(ms, src[j])
  {
    hide Survivors;
    SurvivorsAreSorted(ms, |ms|);
    var i := src[j];
    if Answered(ms, i) {
      SurvivorFollows(ms, src, j);
    }
    if j + 1 < |src| && IsResult(ms[src[j + 1]]) && HasCall(ms[i], ms[src[j + 1]].toolCallId.value) {
      SurvivorPrecedes(ms, src, j + 1);
    }
  }

  /** The answer to a survivor is the next survivor. */
  lemma SurvivorFollows(ms: seq<Message>, src: seq<nat>, j: nat)
    requires src == Survivors(ms, |ms|) && j < |src| && src[j] < |ms| && Answered(ms, src[j])
    ensures j + 1 < |src| && src[j + 1] == src[j] + 1
  {
    hide HasCall, Survivors;
    SurvivorsAreSorted(ms, |ms|);
    assert Survives(ms, src[j] + 1);
    var k :| 0 <= k < |src| && src[k] == src[j] + 1;
    GapsAreWide(src, j, k);
  }

  lemma ResultHasDispatch(ms: seq<Message>, i: nat)
    requires i < |ms| && Survives(ms, i) && IsResult(ms[i])
    ensures i > 0 && Survives(ms, i - 1) && Answered(ms, i - 1)
  {
  }

  /** A result that survives has its dispatch right before it, also among the survivors. */
  lemma SurvivorPrecedes(ms: seq<Message>, src: seq<nat>, j: nat)
    requires src == Survivors(ms, |ms|) && 0 < j < |src| && src[j] < |ms| && IsResult(ms[src[j]])
    ensures src[j - 1] + 1 == src[j] && src[j] <= |ms| && Answered(ms, src[j - 1])
  {
    hide HasCall, Survivors, Answers, Survives, Answered;
    SurvivorsAreSorted(ms, |ms|);
    assert Survives(ms, src[j]);
    ResultHasDispatch(ms, src[j]);
    var k :| 0 <= k < |src| && src[k] == src[j] - 1;
    GapsAreWide(src, k, j);
  }

  ghost function EmitAll(ms: seq<Message>, src: seq<nat>): seq<Message> {
    if src == [] then []
    else
      var last := src[|src| - 1];
      EmitAll(ms, src[..|src| - 1]) + if last < |ms| then Emit(ms, last) else []
  }

  lemma OrphansEmitNothing(ms: seq<Message>, i: nat)
    requires i < |ms| && !Survives(ms, i)
    ensures Emit(ms, i) == []
  {
  }

  lemma {:induction false} SurvivorsEmitTheRepair(ms: seq<Message>, n: nat)
    requires n <= |ms|
    ensures EmitAll(ms, Survivors(ms, n)) == RepairTo(ms, n)
  {
    hide Survives, Emit;
    if n > 0 {
      SurvivorsEmitTheRepair(ms, n - 1);
      var before, src := Survivors(ms, n - 1), Survivors(ms, n);
      if Survives(ms, n - 1) {
        assert src == before + [n - 1] && src[..|src| - 1] == before;
      } else {
        OrphansEmitNothing(ms, n - 1);
        assert src == before && RepairTo(ms, n) == RepairTo(ms, n - 1);
      }
    }
  }

  lemma EmitAllStep(ms: seq<Message>, src: seq<nat>, i: nat)
    requires i < |src| && src[i] < |ms|
    ensures EmitAll(ms, src[..i + 1]) == EmitAll(ms, src[..i]) + Emit(ms, src[i])
  {
    assert src[..i + 1][..i] == src[..i];
  }

  /** Pass 1: a result is legal iff the message before it is the dispatch of its call. */
  method MarkPaired(msgs: seq<Message>) returns (keep: seq<bool>)
    ensures |keep| == |msgs|
    ensures forall j :: 0 <= j < |msgs| ==> keep[j] == Survives(msgs, j)
  {
    keep := seq(|msgs|, _ => true);
    for i := 0 to |msgs|
      invariant |keep| == |msgs|
      invariant forall j :: 0 <= j < |msgs| ==> keep[j] == (j < i ==> Survives(msgs, j))
    {
      if msgs[i].role != Tool || msgs[i].toolCallId == None {
        continue;
      }
      var id := msgs[i].toolCallId.value;
      var paired := i > 0 && keep[i - 1] && msgs[i - 1].role == Assistant && HasCall(msgs[i - 1], id);
      keep := keep[i := paired];
    }
  }

  /** Pass 1, second half: drop the unmarked messages. */
  method RetainMarked(msgs: seq<Message>, keep: seq<bool>) returns (cur: seq<Message>)
    requires |keep| == |msgs|
    requires forall j :: 0 <= j < |msgs| ==> keep[j] == Survives(msgs, j)
    ensures var src := Survivors(msgs, |msgs|);
            && |cur| == |src|
            && forall j :: 0 <= j < |src| ==> src[j] < |msgs| && cur[j] == msgs[src[j]]
  {
    cur := [];
    for i := 0 to |msgs|
      invariant |cur| == |Survivors(msgs, i)|
      invariant forall j :: 0 <= j < |cur| ==> Survivors(msgs, i)[j] < |msgs| && cur[j] == msgs[Survivors(msgs, i)[j]]
    {
      if keep[i] {
        cur := cur + [msgs[i]];
      }
    }
  }

  /** Pass 2, the other way round: a dispatch without its result loses its calls. */
  method ClearUnanswered(ghost msgs: seq<Message>, kept: seq<Message>) returns (cur: seq<Message>)
    requires var src := Survivors(msgs, |msgs|);
             && |kept| == |src|
             && forall j :: 0 <= j < |src| ==> src[j] < |msgs| && kept[j] == msgs[src[j]]
    ensures var src := Survivors(msgs, |msgs|);
            && |cur| == |src|
            && forall j :: 0 <= j < |src| ==> src[j] < |msgs| && cur[j] == Mended(msgs, src[j])
  {
    ghost var src := Survivors(msgs, |msgs|);
    cur := kept;
    for i := 0 to |cur|
      invariant |cur| == |src|
      invariant forall j :: 0 <= j < |src| ==> cur[j] == if j < i then Mended(msgs, src[j]) else kept[j]
    {
      AnsweredAmongSurvivors(msgs, src, i);
      if cur[i].toolCalls == [] {
        continue;
      }
      var answered := i + 1 < |cur| && cur[i + 1].role == Tool && cur[i + 1].toolCallId.Some?
                      && HasCall(cur[i], cur[i + 1].toolCallId.value);
      if !answered {
        cur := cur[i := cur[i].(toolCalls := [])];
      }
    }
  }

  /** Pass 3: an assistant left with neither text nor calls is noise. */
  method DropBlank(ghost msgs: seq<Message>, mended: seq<Message>) returns (out: seq<Message>)
    requires var src := Survivors(msgs, |msgs|);
             && |mended| == |src|
             && forall j :: 0 <= j < |src| ==> src[j] < |msgs| && mended[j] == Mended(msgs, src[j])
    ensures out == Repair(msgs)
  {
    ghost var src := Survivors(msgs, |msgs|);
    SurvivorsAreSorted(msgs, |msgs|);
    SurvivorsEmitTheRepair(msgs, |msgs|);
    out := [];
    for i := 0 to |mended|
      invariant out == EmitAll(msgs, src[..i])
    {
      EmitAllStep(msgs, src, i);
      if mended[i].role != Assistant || mended[i].content != "" || mended[i].toolCalls != [] {
        out := out + [mended[i]];
      } else {
        assert out + Emit(msgs, src[i]) == out;
      }
    }
    assert src[..|mended|] == src;
  }

  method DropOrphanToolMsgs(msgs: seq<Message>) returns (out: seq<Message>)
    ensures out == Repair(msgs)
  {
    var keep := MarkPaired(msgs);
    var kept := RetainMarked(msgs, keep);
    var mended := ClearUnanswered(msgs, kept);
    out := DropBlank(msgs, mended);
  }

  // ----- What the repair guarantees -----

  /** Nothing left to mend: results and calls are matched, and no assistant is blank. */
  ghost predicate Settled(ms: seq<Message>) {
    && (forall i :: 0 <= i < |ms| ==> Survives(ms, i))
    && (forall i :: 0 <= i < |ms| && ms[i].toolCalls != [] ==> Answered(ms, i))
    && (forall i :: 0 <= i < |ms| ==> !Blank(ms[i]))
  }

  /** `Settled`, except that the last dispatch may still wait for the message at `n`. */
  ghost predicate SettledUpTo(ms: seq<Message>, n: nat, out: seq<Message>)
    requires n <= |ms|
  {
    && (forall j :: 0 <= j < |out| ==> Survives(out, j))
    && (forall j :: 0 <= j < |out| && out[j].toolCalls != [] ==>
          Answered(out, j) || (j == |out| - 1 && Waiting(ms, n)))
    && (forall j :: 0 <= j < |out| ==> !Blank(out[j]))
    && (Waiting(ms, n) ==> out != [] && out[|out| - 1] == ms[n - 1])
  }

  predicate Waiting(ms: seq<Message>, n: nat)
    requires n <= |ms|
  {
    0 < n && Answered(ms, n - 1)
  }

  lemma {:induction false} RepairToSettles(ms: seq<Message>, n: nat)
    requires n <= |ms|
    ensures SettledUpTo(ms, n, RepairTo(ms, n))
  {
    if n > 0 {
      RepairToSettles(ms, n - 1);
      EmitSettles(ms, n - 1, RepairTo(ms, n - 1));
    }
  }

  lemma EmitSettles(ms: seq<Message>, i: nat, before: seq<Message>)
    requires i < |ms| && SettledUpTo(ms, i, before)
    ensures SettledUpTo(ms, i + 1, before + Emit(ms, i))
  {
    var out := before + Emit(ms, i);
    assert Waiting(ms, i) <==> i > 0 && Answers(ms[i], ms[i - 1]);
    assert Waiting(ms, i) ==> Emit(ms, i) == [Mended(ms, i)];
    forall j | 0 <= j < |out| ensures Survives(out, j) {
      if j < |before| {
        assert Survives(before, j);
      } else if IsResult(out[j]) {
        assert out[j - 1] == ms[i - 1];
      }
    }
    forall j | 0 <= j < |out| && out[j].toolCalls != []
      ensures Answered(out, j) || (j == |out| - 1 && Waiting(ms, i + 1))
    {
      if j < |before| {
        assert out[j] == before[j];
        if Answered(before, j) {
          assert out[j + 1] == before[j + 1];
        }
      }
    }
    forall j | 0 <= j < |out| ensures !Blank(out[j]) {
      if j < |before| {
        assert out[j] == before[j];
      }
    }
  }

  /** Every input, however broken, is settled by one repair. */
  lemma {:induction false} RepairSettles(ms: seq<Message>)
    ensures Settled(Repair(ms))
    ensures forall i :: 0 <= i < |Repair(ms)| ==>
              var m := Repair(ms)[i]; !(m.role == Assistant && m.content == "" && m.toolCalls == [])
  {
    RepairToSettles(ms, |ms|);
    assert forall i :: 0 <= i < |Repair(ms)| ==> !Blank(Repair(ms)[i]);
  }

  lemma {:induction false} SettledPrefixStays(ms: seq<Message>, n: nat)
    requires Settled(ms) && n <= |ms|
    ensures RepairTo(ms, n) == ms[..n]
  {
    if n > 0 {
      SettledPrefixStays(ms, n - 1);
    }
  }

  /** The lists a repair leaves alone are exactly the settled ones. */
  lemma RepairFixesExactlySettled(ms: seq<Message>)
    ensures Repair(ms) == ms <==> Settled(ms)
  {
    RepairSettles(ms);
    if Settled(ms) {
      SettledPrefixStays(ms, |ms|);
    }
  }

  lemma RepairIsIdempotent(ms: seq<Message>)
    ensures Repair(Repair(ms)) == Repair(ms)
  {
    RepairSettles(ms);
    RepairFixesExactlySettled(Repair(ms));
  }

  /** A provider-valid list without blank assistants passes through unchanged. */
  lemma ValidListsAreUnchanged(ms: seq<Message>)
    requires WellPaired(ms)
    requires forall i :: 0 <= i < |ms| ==> !Blank(ms[i]) && (ms[i].toolCalls != [] ==> ms[i].role == Assistant)
    ensures Repair(ms) == ms
  {
    forall i | 0 <= i < |ms| ensures Survives(ms, i) && (ms[i].toolCalls != [] ==> Answered(ms, i)) {
      assert ResultIsPlaced(ms, i) && CallIsAnswered(ms, i);
    }
    RepairFixesExactlySettled(ms);
  }

  /** Everything but results, textless assistants and calls: what was said, in order. */
  function Spoken(ms: seq<Message>): seq<Message> {
    if ms == [] then [] else Spoken(ms[..|ms| - 1]) + SpokenOf(ms[|ms| - 1])
  }

  /** The adjacent call-and-result pairs, in order. */
  function Pairs(ms: seq<Message>): seq<(Message, Message)> {
    if ms == [] then [] else Pairs(ms[..|ms| - 1]) + LastPair(ms)
  }

  function LastPair(ms: seq<Message>): seq<(Message, Message)> {
    if |ms| < 2 then []
    else
      var dispatch, result := ms[|ms| - 2], ms[|ms| - 1];
      if Answers(result, dispatch) then [(dispatch, result.(toolCalls := []))] else []
  }

  lemma PairsStep(ms: seq<Message>)
    requires ms != []
    ensures Pairs(ms) == Pairs(ms[..|ms| - 1]) + LastPair(ms)
  {
  }

  function SpokenOf(m: Message): seq<Message> {
    if IsResult(m) || (m.role == Assistant && m.content == "") then [] else [m.(toolCalls := [])]
  }

  lemma EmitKeepsSpoken(ms: seq<Message>, i: nat)
    requires i < |ms|
    ensures |Emit(ms, i)| <= 1
    ensures (if Emit(ms, i) == [] then [] else SpokenOf(Emit(ms, i)[0])) == SpokenOf(ms[i])
  {
  }

  lemma {:induction false} RepairToKeepsSpoken(ms: seq<Message>, n: nat)
    requires n <= |ms|
    ensures Spoken(RepairTo(ms, n)) == Spoken(ms[..n])
  {
    hide SpokenOf, Emit;
    if n > 0 {
      RepairToKeepsSpoken(ms, n - 1);
      EmitKeepsSpoken(ms, n - 1);
      var before, out := RepairTo(ms, n - 1), RepairTo(ms, n);
      assert ms[..n][..n - 1] == ms[..n - 1];
      if Emit(ms, n - 1) == [] {
        assert out == before;
      } else {
        assert out[..|out| - 1] == before;
      }
    }
  }

  /** The message at `i` closes a pair in the repaired list iff it does in the original. */
  lemma EmitKeepsPair(ms: seq<Message>, i: nat, before: seq<Message>)
    requires i < |ms|
    requires Waiting(ms, i) ==> before != [] && before[|before| - 1] == ms[i - 1]
    ensures LastPair(ms[..i + 1]) == if Emit(ms, i) == [] then [] else LastPair(before + Emit(ms, i))
  {
    hide HasCall;
    assert Waiting(ms, i) <==> i > 0 && Answers(ms[i], ms[i - 1]);
    if Emit(ms, i) != [] {
      var out := before + [Mended(ms, i)];
      assert IsResult(ms[i]) ==> Waiting(ms, i);
      if before != [] {
        assert out[|out| - 2] == before[|before| - 1];
      }
    }
  }

  lemma {:induction false} RepairToKeepsPairs(ms: seq<Message>, n: nat)
    requires n <= |ms|
    ensures Pairs(RepairTo(ms, n)) == Pairs(ms[..n])
  {
    hide LastPair, Emit, Survives, Answered, Waiting;
    if n > 0 {
      RepairToKeepsPairs(ms, n - 1);
      RepairToSettles(ms, n - 1);
      var before := RepairTo(ms, n - 1);
      EmitKeepsPair(ms, n - 1, before);
      assert ms[..n][..n - 1] == ms[..n - 1];
      PairsStep(ms[..n]);
      EmitIsShort(ms, n - 1);
      if Emit(ms, n - 1) == [] {
        assert RepairTo(ms, n) == before;
      } else {
        assert RepairTo(ms, n)[..|before|] == before;
        PairsStep(RepairTo(ms, n));
      }
    }
  }

  lemma EmitIsShort(ms: seq<Message>, i: nat)
    requires i < |ms|
    ensures |Emit(ms, i)| <= 1
  {
  }

  /** The repair drops no spoken text and no intact pair, adds none, and keeps their order. */
  lemma RepairLosesNothing(ms: seq<Message>)
    ensures Spoken(Repair(ms)) == Spoken(ms)
    ensures Pairs(Repair(ms)) == Pairs(ms)
  {
    RepairToKeepsSpoken(ms, |ms|);
    RepairToKeepsPairs(ms, |ms|);
    assert ms[..|ms|] == ms;
  }

  ghost predicate EveryToolIsTagged(ms: seq<Message>) {
    forall i :: 0 <= i < |ms| && ms[i].role == Tool ==> IsResult(ms[i])
  }

  lemma TaggedStep(ms: seq<Message>)
    requires ms != []
    ensures var init, last := ms[..|ms| - 1], ms[|ms| - 1];
            EveryToolIsTagged(ms) <==> EveryToolIsTagged(init) && (last.role == Tool ==> IsResult(last))
  {
    var init, last := ms[..|ms| - 1], ms[|ms| - 1];
    if EveryToolIsTagged(init) && (last.role == Tool ==> IsResult(last)) {
      forall i | 0 <= i < |ms| && ms[i].role == Tool ensures IsResult(ms[i]) {
        assert i < |init| ==> ms[i] == init[i];
      }
    }
    if EveryToolIsTagged(ms) {
      forall i | 0 <= i < |init| && init[i].role == Tool ensures IsResult(init[i]) {
        assert ms[i] == init[i];
      }
    }
  }

  lemma {:induction false} SpokenShowsUntagged(ms: seq<Message>)
    ensures EveryToolIsTagged(ms) <==> EveryToolIsTagged(Spoken(ms))
  {
    if ms != [] {
      var init, last, said := ms[..|ms| - 1], ms[|ms| - 1], Spoken(ms);
      SpokenShowsUntagged(init);
      TaggedStep(ms);
      if said != Spoken(init) {
        assert said[..|said| - 1] == Spoken(init);
        TaggedStep(said);
      }
    }
  }

  lemma SettledIsPairedIffTagged(ms: seq<Message>)
    requires Settled(ms)
    ensures WellPaired(ms) <==> EveryToolIsTagged(ms)
  {
    if WellPaired(ms) {
      forall i | 0 <= i < |ms| && ms[i].role == Tool ensures IsResult(ms[i]) {
        assert ResultIsPlaced(ms, i);
      }
    }
    if EveryToolIsTagged(ms) {
      forall i | 0 <= i < |ms| ensures ResultIsPlaced(ms, i) && CallIsAnswered(ms, i) {
        assert Survives(ms, i);
        assert IsDispatch(ms[i]) ==> Answered(ms, i);
      }
    }
  }

  /**
    The provider's rule holds after the repair iff no tool message came without a call id:
    such a message is let through untouched, and nothing else can break the rule.
   */
  lemma RepairPairsIffEveryToolIsTagged(ms: seq<Message>)
    ensures WellPaired(Repair(ms)) <==> EveryToolIsTagged(ms)
  {
    RepairSettles(ms);
    SettledIsPairedIffTagged(Repair(ms));
    RepairLosesNothing(ms);
    SpokenShowsUntagged(ms);
    SpokenShowsUntagged(Repair(ms));
  }

  /** A tool message without a call id, alone: it stays, and the provider would reject it. */
  lemma UntaggedToolPasses(content: string)
    ensures var ms := [Plain(Tool, content)]; Repair(ms) == ms && !WellPaired(ms)
  {
    var ms := [Plain(Tool, content)];
    assert Survives(ms, 0) && !ResultIsPlaced(ms, 0);
    RepairFixesExactlySettled(ms);
  }

  // ----- What the rows said, the messages say -----

  /** Who said what in a row; a result that names its call is not speech, nor is an empty reply. */
  function SaidInRow(e: Entry): seq<(Role, string)> {
    match e.role
    case System => [(System, e.content)]
    case User => [(User, e.content)]
    case Assistant => if e.content == "" then [] else [(Assistant, e.content)]
    case Tool => if e.toolCallId.Some? then [] else [(User, DOWNGRADED_RESULT_PREFIX + e.content)]
  }

  function SaidInRows(es: seq<Entry>): seq<(Role, string)> {
    if es == [] then [] else SaidInRow(es[0]) + SaidInRows(es[1..])
  }

  function SaidInMessage(m: Message): seq<(Role, string)> {
    if IsResult(m) || (m.role == Assistant && m.content == "") then [] else [(m.role, m.content)]
  }

  function SaidInMessages(ms: seq<Message>): seq<(Role, string)> {
    if ms == [] then [] else SaidInMessages(ms[..|ms| - 1]) + SaidInMessage(ms[|ms| - 1])
  }

  lemma {:induction false} SaidBehind(m: Message, ms: seq<Message>)
    ensures SaidInMessages([m] + ms) == SaidInMessage(m) + SaidInMessages(ms)
  {
    if ms == [] {
      assert [m] + ms == [m] && [m][..0] == [];
    } else {
      var init := ms[..|ms| - 1];
      SaidBehind(m, init);
      assert ([m] + ms)[..|ms|] == [m] + init;
    }
  }

  lemma {:induction false} RowsAreRepeated(es: seq<Entry>)
    ensures SaidInMessages(ToMessages(es)) == SaidInRows(es)
  {
    if es != [] {
      RowsAreRepeated(es[1..]);
      assert ToMessages(es) == [EntryToMessage(es[0])] + ToMessages(es[1..]);
      SaidBehind(EntryToMessage(es[0]), ToMessages(es[1..]));
    }
  }

  lemma {:induction false} SpokenIsSaid(ms: seq<Message>)
    ensures SaidInMessages(Spoken(ms)) == SaidInMessages(ms)
  {
    if ms != [] {
      var init, last, said := ms[..|ms| - 1], ms[|ms| - 1], Spoken(ms);
      SpokenIsSaid(init);
      if said != Spoken(init) {
        assert said[..|said| - 1] == Spoken(init);
      }
    }
  }

  /** The repaired messages of any rows say what the rows said, word for word and in order. */
  lemma RepairRepeatsRows(es: seq<Entry>)
    ensures SaidInMessages(Repair(ToMessages(es))) == SaidInRows(es)
    ensures Pairs(Repair(ToMessages(es))) == Pairs(ToMessages(es))
  {
    var ms := ToMessages(es);
    RepairLosesNothing(ms);
    SpokenIsSaid(ms);
    SpokenIsSaid(Repair(ms));
    RowsAreRepeated(es);
  }

  // ----- The budget cut -----

  function Cost(e: Entry): (cost: int)
    ensures cost >= 1 && cost >= e.tokensEst && (cost == 1 || cost == e.tokensEst)
  {
    if e.tokensEst < 1 then 1 else e.tokensEst
  }

  function TotalCost(es: seq<Entry>): int {
    if es == [] then 0 else Cost(es[0]) + TotalCost(es[1..])
  }

  /** `cut` starts the longest suffix within the budget; the last entry always stays. */
  ghost predicate IsBudgetCut(es: seq<Entry>, budget: int, cut: nat) {
    && cut <= |es|
    && (cut == |es| ==> es == [])
    && (TotalCost(es[cut..]) <= budget || cut + 1 == |es| || es == [])
    && (forall longer :: 0 <= longer < cut ==> TotalCost(es[longer..]) > budget)
  }

  lemma {:induction false} LongerSuffixCostsMore(es: seq<Entry>, from: nat, to: nat)
    requires from <= to <= |es|
    ensures TotalCost(es[to..]) + (to - from) <= TotalCost(es[from..])
    decreases |es| - from
  {
    if from < to {
      LongerSuffixCostsMore(es, from + 1, to);
      assert es[from..][1..] == es[from + 1..];
    }
  }

  lemma BudgetCutIsUnique(es: seq<Entry>, budget: int, a: nat, b: nat)
    requires IsBudgetCut(es, budget, a) && IsBudgetCut(es, budget, b)
    ensures a == b
  {
  }

  lemma RowsAreTagged(es: seq<Entry>)
    ensures EveryToolIsTagged(ToMessages(es))
  {
  }

  method LoadHistory(entries: seq<Entry>, tokenBudget: int) returns (kept: seq<Message>)
    ensures exists cut: nat ::
              && IsBudgetCut(entries, tokenBudget, cut) && kept == Repair(ToMessages(entries[cut..]))
              && SaidInMessages(kept) == SaidInRows(entries[cut..])
    ensures WellPaired(kept)
  {
    hide SaidInMessages, SaidInRows, Repair, WellPaired, EveryToolIsTagged, EntryToMessage, Pairs, Cost;
    var budget := tokenBudget;
    kept := [];
    var i := |entries|;
    while i > 0
      invariant 0 <= i <= |entries|
      invariant kept == ToMessages(entries[i..])
      invariant budget == tokenBudget - TotalCost(entries[i..])
      invariant budget >= 0 || |entries| <= i + 1
    {
      var cost := Cost(entries[i - 1]);
      assert entries[i - 1..][1..] == entries[i..];
      if budget - cost < 0 && kept != [] {
        break;
      }
      budget := budget - cost;
      kept := [EntryToMessage(entries[i - 1])] + kept;
      i := i - 1;
    }
    assert IsBudgetCut(entries, tokenBudget, i) by {
      forall longer | 0 <= longer < i ensures TotalCost(entries[longer..]) > tokenBudget {
        LongerSuffixCostsMore(entries, longer, i - 1);
      }
    }
    RowsAreTagged(entries[i..]);
    RepairPairsIffEveryToolIsTagged(kept);
    RepairRepeatsRows(entries[i..]);
    kept := DropOrphanToolMsgs(kept);
  }
}
