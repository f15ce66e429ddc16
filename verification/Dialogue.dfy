/**
  What the turns of a run tell the model and when they end it, in terms of texts, calls and
  numbers only.
 */
module Dialogue {
  import opened Basics
  import opened Messages
  import opened Agent
  import opened Turns
  import opened History
  import opened RunModel

  // ----- What the model is told of its turns -----

  /** Its own text, and after a truncation the instruction to go on. */
  function Told(t: Turn): seq<(Role, string)> {
    (if t.text == "" then [] else [(Assistant, t.text)])
    + if t.CutTurn? then
        [(User, if t.insideToolCall then "(split the call)" else "(continue)")]
      else []
  }

  function ToldAll(turns: seq<Turn>): seq<(Role, string)> {
    if turns == [] then [] else ToldAll(turns[..|turns| - 1]) + Told(turns[|turns| - 1])
  }

  /** The calls that were carried out, each with its output. */
  function Exchanges(turns: seq<Turn>): seq<(ToolCall, string)> {
    if turns == [] then []
    else
      var last := turns[|turns| - 1];
      Exchanges(turns[..|turns| - 1]) + if last.ToolTurn? then [(last.call, last.output)] else []
  }

  /** The answered calls of a message list. */
  function ExchangesIn(ms: seq<Message>): seq<(ToolCall, string)> {
    if ms == [] then [] else ExchangesIn(ms[..|ms| - 1]) + LastExchange(ms)
  }

  function LastExchange(ms: seq<Message>): seq<(ToolCall, string)> {
    if |ms| < 2 then []
    else
      var dispatch, result := ms[|ms| - 2], ms[|ms| - 1];
      if |dispatch.toolCalls| == 1 && result.role == Tool && result.toolCallId == Some(dispatch.toolCalls[0].id) then
        [(dispatch.toolCalls[0], result.content)]
      else []
  }

  /**
    The conversation says what its turns say: their texts and instructions in order, and each
    call that was carried out, right before its output.
   */
  lemma {:induction false} ConversationTells(turns: seq<Turn>)
    ensures SaidInMessages(Conversation(turns)) == ToldAll(turns)
    ensures ExchangesIn(Conversation(turns)) == Exchanges(turns)
  {
    hide TurnMessages, Told;
    if turns != [] {
      var init, last := turns[..|turns| - 1], turns[|turns| - 1];
      ConversationTells(init);
      TurnTells(Conversation(init), last);
    }
  }

  lemma TurnTells(ms: seq<Message>, t: Turn)
    ensures SaidInMessages(ms + TurnMessages(t)) == SaidInMessages(ms) + Told(t)
    ensures ExchangesIn(ms + TurnMessages(t)) == ExchangesIn(ms) + if t.ToolTurn? then [(t.call, t.output)] else []
  {
    hide SaidInMessages, ExchangesIn;
    var out := TurnMessages(t);
    OneMoreMessage(ms, out[0]);
    if |out| == 2 {
      OneMoreMessage(ms + [out[0]], out[1]);
      assert ms + out == ms + [out[0]] + [out[1]];
    } else {
      assert ms + out == ms + [out[0]];
    }
  }

  lemma OneMoreMessage(ms: seq<Message>, m: Message)
    ensures SaidInMessages(ms + [m]) == SaidInMessages(ms) + SaidInMessage(m)
    ensures ExchangesIn(ms + [m]) == ExchangesIn(ms) + LastExchange(ms + [m])
  {
    assert (ms + [m])[..|ms|] == ms;
  }

  /** A tool's turn in the conversation: the thought goes with the call, if there was one. */
  lemma ThoughtsGoAlong(t: Turn)
    requires t.ToolTurn?
    ensures |TurnMessages(t)| == 2
    ensures TurnMessages(t)[0].reasoning == if t.thought == "" then None else Some(t.thought)
    ensures TurnMessages(t)[1].reasoning == None
  {
  }

  // ----- When a run ends -----

  /**
    In numbers: the third equal call, the 25th tool round and the third truncation end a run,
    as does whatever is neither a call nor a truncation.
   */
  lemma StopsAtTheLimits(turns: seq<Turn>, r: TurnResult)
    requires NoLoop(Calls(turns))
    ensures Stops(turns, r) <==>
              match r
              case TurnToolCall(_, name, args) =>
                Occurrences(Calls(turns), ToolFingerprint(name, args)) >= 2 || |Calls(turns)| >= 24
              case TurnTruncated(_) => |turns| - |Calls(turns)| >= 2
              case _ => true
  {
    hide DetectLoop;
    if r.TurnToolCall? {
      var f := ToolFingerprint(r.name, r.args);
      var more := Calls(turns) + [f];
      DetectLoopCountsTheLast(more, LOOP_REPEAT_THRESHOLD);
      assert more[..|more| - 1] == Calls(turns);
    }
  }

  /** Occurrences are counted one by one. */
  lemma {:induction false} OccurrencesAdd(a: seq<ToolFingerprint>, b: seq<ToolFingerprint>, f: ToolFingerprint)
    ensures Occurrences(a + b, f) == Occurrences(a, f) + Occurrences(b, f)
    ensures Occurrences([f], f) == 1 && forall g :: g != f ==> Occurrences([g], f) == 0
  {
    if b == [] {
      assert a + b == a;
      forall g: ToolFingerprint ensures Occurrences([g], f) == if g == f then 1 else 0 {
        assert [g][..0] == [];
      }
    } else {
      OccurrencesAdd(a, b[..|b| - 1], f);
      assert (a + b)[..|a + b| - 1] == a + b[..|b| - 1];
    }
  }

  /** The calls of a run are those of its tool turns, by name and arguments, in order. */
  lemma {:induction false} CallsAreExchanges(turns: seq<Turn>)
    ensures |Calls(turns)| == |Exchanges(turns)|
    ensures forall i :: 0 <= i < |Calls(turns)| ==>
              Calls(turns)[i] == ToolFingerprint(Exchanges(turns)[i].0.name, Exchanges(turns)[i].0.args)
  {
    if turns != [] {
      CallsAreExchanges(turns[..|turns| - 1]);
    }
  }

  /** The input size a request is fitted with: the last one any earlier turn reported. */
  lemma {:induction false} LastReportCounts(w: World, n: nat) returns (k: nat)
    ensures InputBefore(w, n) == None ==> forall i :: 0 <= i < n ==> PartsOf(w.open(i)).input == None
    ensures InputBefore(w, n).Some? ==>
              && k < n && InputBefore(w, n) == PartsOf(w.open(k)).input
              && forall i :: k < i < n ==> PartsOf(w.open(i)).input == None
  {
    hide PartsOf;
    k := 0;
    if n > 0 {
      if PartsOf(w.open(n - 1)).input.Some? {
        k := n - 1;
      } else {
        k := LastReportCounts(w, n - 1);
      }
    }
  }
}
