/**
  The lane of one session: a serial run queue, at most one live run, and the records the
  session keeps per run. Commands are handled one at a time in the order of the mailbox;
  a run writes rows and ends at moments of its own.
 */
module Lane {
  import opened Basics

  type RunId = nat

  /** Where a run's events go; only a detached run keeps a log for resuming. */
  datatype Sink = Connection(tag: nat) | Detached(tag: nat) | Broadcast

  datatype QueuedTurn = QueuedTurn(id: RunId, text: string)

  datatype SubmitResult = Started(turn: QueuedTurn) | Queued | Rejected

  class RunQueue {
    var active: Option<RunId>
    var pending: seq<QueuedTurn>
    const cap: nat

    constructor (cap: nat)
      ensures this.cap == cap && active == None && pending == []
    {
      this.cap, active, pending := cap, None, [];
    }

    method Submit(turn: QueuedTurn) returns (r: SubmitResult)
      modifies this
      ensures r == (if old(active) == None then Started(turn) else if |old(pending)| >= cap then Rejected else Queued)
      ensures active == (if r == Started(turn) then Some(turn.id) else old(active))
      ensures pending == (if r == Queued then old(pending) + [turn] else old(pending))
    {
      if active == None {
        active := Some(turn.id);
        r := Started(turn);
      } else if |pending| >= cap {
        r := Rejected;
      } else {
        pending := pending + [turn];
        r := Queued;
      }
    }

    method CompleteActive() returns (next: Option<QueuedTurn>)
      modifies this
      ensures old(pending) == [] ==> next == None && active == None && pending == []
      ensures old(pending) != [] ==>
                next == Some(old(pending)[0]) && active == Some(old(pending)[0].id) && pending == old(pending)[1..]
    {
      active := None;
      if pending == [] {
        return None;
      }
      var head := pending[0];
      pending := pending[1..];
      active := Some(head.id);
      return Some(head);
    }

    method DrainPending() returns (n: nat)
      modifies this`pending
      ensures n == |old(pending)| && pending == []
    {
      n := |pending|;
      pending := [];
    }
  }

  // ----- The books of a lane, as values -----

  datatype Row = UserRow(id: RunId, text: string) | RunRow(id: RunId) | SummaryRow

  /** The rows of one turn: its user message, then what its run wrote. */
  datatype Block = Block(turn: QueuedTurn, rows: nat)

  /** What happened to every turn a caller was promised. */
  datatype Books = Books(
    accepted: seq<QueuedTurn>,
    started: seq<QueuedTurn>,
    finished: seq<RunId>,
    drained: set<RunId>,
    blocks: seq<Block>,
    alive: set<RunId>,
    posted: set<RunId>)

  function Ids(ts: seq<QueuedTurn>): set<RunId> {
    set t | t in ts :: t.id
  }

  /** The accepted turns that were not drained. */
  function Kept(ts: seq<QueuedTurn>, drained: set<RunId>): seq<QueuedTurn> {
    if ts == [] then []
    else Kept(ts[..|ts| - 1], drained) + if ts[|ts| - 1].id in drained then [] else [ts[|ts| - 1]]
  }

  function IdsInOrder(ts: seq<QueuedTurn>): seq<RunId> {
    seq(|ts|, i requires 0 <= i < |ts| => ts[i].id)
  }

  function RunRows(id: RunId, n: nat): seq<Row> {
    seq(n, _ => RunRow(id))
  }

  function RowsOf(b: Block): seq<Row> {
    [UserRow(b.turn.id, b.turn.text)] + RunRows(b.turn.id, b.rows)
  }

  function Flatten(blocks: seq<Block>): seq<Row> {
    if blocks == [] then [] else Flatten(blocks[..|blocks| - 1]) + RowsOf(blocks[|blocks| - 1])
  }

  function WithoutSummaries(rows: seq<Row>): seq<Row> {
    if rows == [] then []
    else WithoutSummaries(rows[..|rows| - 1]) + if rows[|rows| - 1].SummaryRow? then [] else [rows[|rows| - 1]]
  }

  function Active(active: Option<RunId>): set<RunId> {
    if active.Some? then {active.value} else {}
  }

  function ActiveInOrder(active: Option<RunId>): seq<RunId> {
    if active.Some? then [active.value] else []
  }

  /** Ids are handed out in order, so none is used twice. */
  ghost predicate Ascending(ts: seq<QueuedTurn>, bound: nat) {
    && (forall i :: 0 <= i < |ts| ==> ts[i].id < bound)
    && (forall i, k :: 0 <= i < k < |ts| ==> ts[i].id < ts[k].id)
  }

  /** Turns start in the order they were accepted, and none but the drained ones is left out. */
  ghost predicate InOrder(b: Books, pending: seq<QueuedTurn>) {
    b.started + pending == Kept(b.accepted, b.drained)
  }

  /** Every started turn but the active one has finished, and nothing else has. */
  ghost predicate Settled(b: Books, active: Option<RunId>) {
    IdsInOrder(b.started) == b.finished + ActiveInOrder(active)
  }

  /** The active run is alive or has posted its end; no other run is alive or has. */
  ghost predicate OneRun(b: Books, active: Option<RunId>) {
    b.alive + b.posted == Active(active) && b.alive !! b.posted
  }

  /** Each block is one started turn's, opening with its user row; they follow each other. */
  ghost predicate InBlocks(b: Books, rows: seq<Row>) {
    && |b.blocks| == |b.started|
    && (forall i :: 0 <= i < |b.blocks| ==> b.blocks[i].turn == b.started[i])
    && WithoutSummaries(rows) == Flatten(b.blocks)
  }

  ghost predicate Balanced(b: Books, active: Option<RunId>, pending: seq<QueuedTurn>, nextId: nat) {
    && Ascending(b.accepted, nextId)
    && b.drained <= Ids(b.accepted)
    && InOrder(b, pending)
    && Settled(b, active)
    && OneRun(b, active)
    && (active == None ==> pending == [])
  }

  // ----- Facts about the books -----

  lemma {:induction false} KeptIsAscending(ts: seq<QueuedTurn>, drained: set<RunId>, bound: nat)
    requires Ascending(ts, bound)
    ensures Ascending(Kept(ts, drained), bound)
  {
    if ts != [] {
      KeptIsAscending(ts[..|ts| - 1], drained, ts[|ts| - 1].id);
    }
  }

  lemma {:induction false} KeptIds(ts: seq<QueuedTurn>, drained: set<RunId>)
    ensures Ids(Kept(ts, drained)) == Ids(ts) - drained
  {
    if ts != [] {
      var init, last := ts[..|ts| - 1], ts[|ts| - 1];
      KeptIds(init, drained);
      LastId(ts);
      if last.id !in drained {
        LastId(Kept(ts, drained));
        assert Kept(ts, drained)[..|Kept(ts, drained)| - 1] == Kept(init, drained);
      } else {
        assert Kept(ts, drained) == Kept(init, drained);
      }
    }
  }

  lemma LastId(ts: seq<QueuedTurn>)
    requires ts != []
    ensures Ids(ts) == Ids(ts[..|ts| - 1]) + {ts[|ts| - 1].id}
  {
    var init, last := ts[..|ts| - 1], ts[|ts| - 1];
    assert ts == init + [last];
    IdsOfConcat(init, [last]);
    IdsOfOne(last);
  }

  lemma IdsOfConcat(a: seq<QueuedTurn>, b: seq<QueuedTurn>)
    ensures Ids(a + b) == Ids(a) + Ids(b)
  {
    forall t | t in a ensures t.id in Ids(a + b) {
      assert t in a + b;
    }
    forall t | t in b ensures t.id in Ids(a + b) {
      assert t in a + b;
    }
  }

  lemma IdsOfOne(t: QueuedTurn)
    ensures Ids([t]) == {t.id}
  {
    assert t in [t];
  }

  lemma {:induction false} KeptTwice(ts: seq<QueuedTurn>, d: set<RunId>, e: set<RunId>)
    ensures Kept(ts, d + e) == Kept(Kept(ts, d), e)
  {
    if ts != [] {
      var init, last := ts[..|ts| - 1], ts[|ts| - 1];
      KeptTwice(init, d, e);
      if last.id !in d {
        var kept := Kept(init, d) + [last];
        assert kept[..|kept| - 1] == Kept(init, d);
      } else {
        assert Kept(ts, d) == Kept(init, d);
      }
    }
  }

  /** Draining the tail leaves the turns before it. */
  lemma {:induction false} KeptWithoutTail(a: seq<QueuedTurn>, b: seq<QueuedTurn>, bound: nat)
    requires Ascending(a + b, bound)
    ensures Kept(a + b, Ids(b)) == a
  {
    if b == [] {
      assert a + b == a && Ids(b) == {};
      KeptNothingDrained(a);
    } else {
      var init, last := b[..|b| - 1], b[|b| - 1];
      assert (a + b)[..|a + b| - 1] == a + init;
      assert (a + b)[|a + b| - 1] == last;
      LastId(b);
      KeptWithoutTail(a, init, last.id);
      KeptIgnoresStrangers(a + init, Ids(init), last.id);
    }
  }

  lemma {:induction false} KeptNothingDrained(ts: seq<QueuedTurn>)
    ensures Kept(ts, {}) == ts
  {
    if ts != [] {
      KeptNothingDrained(ts[..|ts| - 1]);
    }
  }

  lemma {:induction false} KeptIgnoresStrangers(ts: seq<QueuedTurn>, d: set<RunId>, id: RunId)
    requires Ascending(ts, id)
    ensures Kept(ts, d + {id}) == Kept(ts, d)
  {
    if ts != [] {
      KeptIgnoresStrangers(ts[..|ts| - 1], d, id);
    }
  }

  // ----- How each step keeps the books -----

  lemma AcceptKeepsAscending(ts: seq<QueuedTurn>, t: QueuedTurn)
    requires Ascending(ts, t.id)
    ensures Ascending(ts + [t], t.id + 1) && Ids(ts + [t]) == Ids(ts) + {t.id} && t.id !in Ids(ts)
  {
    IdsOfConcat(ts, [t]);
    IdsOfOne(t);
  }

  lemma AcceptedIsKept(ts: seq<QueuedTurn>, t: QueuedTurn, drained: set<RunId>)
    requires Ascending(ts, t.id) && drained <= Ids(ts)
    ensures Kept(ts + [t], drained) == Kept(ts, drained) + [t]
  {
    AcceptKeepsAscending(ts, t);
    assert (ts + [t])[..|ts|] == ts;
  }

  lemma IdsInOrderGrow(ts: seq<QueuedTurn>, t: QueuedTurn)
    ensures IdsInOrder(ts + [t]) == IdsInOrder(ts) + [t.id]
  {
  }

  function Begun(b: Books, t: QueuedTurn): Books {
    b.(started := b.started + [t], blocks := b.blocks + [Block(t, 0)], alive := b.alive + {t.id})
  }

  function Accepted(b: Books, t: QueuedTurn): Books {
    b.(accepted := b.accepted + [t])
  }

  function Ended(b: Books, id: RunId): Books {
    b.(finished := b.finished + [id], posted := b.posted - {id})
  }

  lemma QueuedKeepsBalance(b: Books, active: Option<RunId>, pending: seq<QueuedTurn>, t: QueuedTurn)
    requires Balanced(b, active, pending, t.id) && active.Some?
    ensures Balanced(Accepted(b, t), active, pending + [t], t.id + 1)
  {
    hide Ascending, Kept, Ids, IdsInOrder;
    AcceptKeepsAscending(b.accepted, t);
    AcceptedIsKept(b.accepted, t, b.drained);
    assert b.started + (pending + [t]) == b.started + pending + [t];
  }

  lemma StartedKeepsBalance(b: Books, t: QueuedTurn)
    requires Balanced(b, None, [], t.id)
    ensures Balanced(Begun(Accepted(b, t), t), Some(t.id), [], t.id + 1)
  {
    hide Ascending, Kept, Ids, IdsInOrder;
    AcceptKeepsAscending(b.accepted, t);
    AcceptedIsKept(b.accepted, t, b.drained);
    IdsInOrderGrow(b.started, t);
    assert b.started + [] == b.started && b.started + [t] + [] == b.started + [t];
    assert b.finished + [] == b.finished;
  }

  lemma FinishedKeepsBalance(b: Books, id: RunId, pending: seq<QueuedTurn>, nextId: nat)
    requires Balanced(b, Some(id), pending, nextId) && id in b.posted
    ensures pending == [] ==> Balanced(Ended(b, id), None, [], nextId)
    ensures pending != [] ==> Balanced(Begun(Ended(b, id), pending[0]), Some(pending[0].id), pending[1..], nextId)
  {
    hide Ascending, Kept, Ids, IdsInOrder;
    assert b.finished + [id] + [] == b.finished + [id];
    if pending != [] {
      IdsInOrderGrow(b.started, pending[0]);
      assert b.started + pending == b.started + [pending[0]] + pending[1..];
    }
  }

  lemma DrainKeepsBalance(b: Books, active: Option<RunId>, pending: seq<QueuedTurn>, nextId: nat)
    requires Balanced(b, active, pending, nextId)
    ensures Balanced(b.(drained := b.drained + Ids(pending)), active, [], nextId)
  {
    hide IdsInOrder;
    KeptTwice(b.accepted, b.drained, Ids(pending));
    KeptIsAscending(b.accepted, b.drained, nextId);
    KeptIds(b.accepted, b.drained);
    KeptWithoutTail(b.started, pending, nextId);
    IdsOfConcat(b.started, pending);
    assert b.started + [] == b.started;
  }

  lemma StartedIds(ts: seq<QueuedTurn>)
    ensures SetOf(IdsInOrder(ts)) == Ids(ts)
  {
    forall t | t in ts ensures t.id in IdsInOrder(ts) {
      var i :| 0 <= i < |ts| && ts[i] == t;
      assert IdsInOrder(ts)[i] == t.id;
    }
  }

  /** Each accepted turn has finished, is active, waits, or was drained, and only one of these. */
  lemma EveryTurnIsSomewhere(b: Books, active: Option<RunId>, pending: seq<QueuedTurn>, nextId: nat)
    requires Balanced(b, active, pending, nextId)
    ensures Ids(b.accepted) == SetOf(b.finished) + Active(active) + Ids(pending) + b.drained
    ensures SetOf(b.finished) !! Active(active) !! Ids(pending) !! b.drained
  {
    KeptIds(b.accepted, b.drained);
    KeptIsAscending(b.accepted, b.drained, nextId);
    IdsOfConcat(b.started, pending);
    StartedIds(b.started);
    var order := b.started + pending;
    forall i, k | 0 <= i < |b.started| && 0 <= k < |pending| ensures b.started[i].id != pending[k].id {
      assert order[i] == b.started[i] && order[|b.started| + k] == pending[k];
    }
    ActiveIsLast(b, active);
    if active.Some? {
      ActiveIsNotFinished(b, active, pending, nextId);
    }
  }

  lemma ActiveIsLast(b: Books, active: Option<RunId>)
    requires Settled(b, active)
    ensures SetOf(IdsInOrder(b.started)) == SetOf(b.finished) + Active(active)
  {
    var order, last := IdsInOrder(b.started), ActiveInOrder(active);
    assert order == b.finished + last;
    assert forall id :: id in last <==> id in Active(active);
    forall id ensures id in SetOf(order) <==> id in SetOf(b.finished) + Active(active) {
      assert id in order <==> id in b.finished || id in last;
    }
  }

  lemma ActiveIsNotFinished(b: Books, active: Option<RunId>, pending: seq<QueuedTurn>, nextId: nat)
    requires Balanced(b, active, pending, nextId) && active.Some?
    ensures active.value !in b.finished
  {
    KeptIsAscending(b.accepted, b.drained, nextId);
    var order, last := b.started + pending, |b.started| - 1;
    assert IdsInOrder(b.started)[last] == active.value;
    forall i | 0 <= i < |b.finished| ensures b.finished[i] != active.value {
      assert order[i] == b.started[i] && order[last] == b.started[last];
      assert IdsInOrder(b.started)[i] == b.finished[i];
    }
  }

  // ----- The transcript -----

  lemma RowsGrow(rows: seq<Row>, row: Row)
    ensures WithoutSummaries(rows + [row]) == WithoutSummaries(rows) + if row.SummaryRow? then [] else [row]
  {
    assert (rows + [row])[..|rows|] == rows;
  }

  lemma BeginKeepsBlocks(b: Books, rows: seq<Row>, t: QueuedTurn)
    requires InBlocks(b, rows)
    ensures InBlocks(Begun(b, t), rows + [UserRow(t.id, t.text)])
  {
    RowsGrow(rows, UserRow(t.id, t.text));
    assert (b.blocks + [Block(t, 0)])[..|b.blocks|] == b.blocks;
    assert RowsOf(Block(t, 0)) == [UserRow(t.id, t.text)];
  }

  function OneMoreRow(b: Books): Books
    requires b.blocks != []
  {
    var n := |b.blocks| - 1;
    b.(blocks := b.blocks[..n] + [b.blocks[n].(rows := b.blocks[n].rows + 1)])
  }

  lemma WriteKeepsBlocks(b: Books, rows: seq<Row>)
    requires InBlocks(b, rows) && b.blocks != []
    ensures InBlocks(OneMoreRow(b), rows + [RunRow(b.started[|b.started| - 1].id)])
  {
    var n := |b.blocks| - 1;
    var last := b.blocks[n];
    var more := last.(rows := last.rows + 1);
    RowsGrow(rows, RunRow(last.turn.id));
    assert OneMoreRow(b).blocks[..n] == b.blocks[..n];
    assert RunRows(last.turn.id, more.rows) == RunRows(last.turn.id, last.rows) + [RunRow(last.turn.id)];
    assert RowsOf(more) == RowsOf(last) + [RunRow(last.turn.id)];
    assert Flatten(OneMoreRow(b).blocks) == Flatten(b.blocks[..n]) + RowsOf(more);
  }

  lemma SummaryKeepsBlocks(b: Books, rows: seq<Row>)
    requires InBlocks(b, rows)
    ensures InBlocks(b, rows + [SummaryRow])
  {
    RowsGrow(rows, SummaryRow);
  }

  lemma AliveIsLast(b: Books, active: Option<RunId>, id: RunId)
    requires Settled(b, active) && OneRun(b, active) && id in b.alive
    ensures active == Some(id) && b.started != [] && b.started[|b.started| - 1].id == id
  {
    assert id in Active(active);
    var order := IdsInOrder(b.started);
    assert order[|order| - 1] == id;
  }

  // ----- Sinks and logs -----

  /** Where every accepted turn's events are to go, and where they went once it started. */
  datatype Outlets = Outlets(given: map<RunId, Sink>, used: map<RunId, Sink>)

  /** Every log is the one its turn was submitted with. */
  predicate LogsAreOwn(logs: map<RunId, Sink>, o: Outlets) {
    forall id :: id in logs ==> id in o.given && logs[id] == o.given[id]
  }

  predicate IsDetached(o: Outlets, id: RunId) {
    id in o.given && o.given[id].Detached?
  }

  /** A sink waits for each turn that has not started, and for each that was drained. */
  ghost predicate SinksWait(b: Books, pending: seq<QueuedTurn>, o: Outlets, sinks: map<RunId, Sink>) {
    && o.given.Keys == Ids(b.accepted)
    && sinks.Keys == Ids(pending) + b.drained
    && sinks.Keys <= o.given.Keys
    && forall id :: id in sinks ==> sinks[id] == o.given[id]
  }

  /** Every run started with the sink its turn was submitted with. */
  ghost predicate SinksAreUsed(b: Books, o: Outlets) {
    && o.used.Keys == Ids(b.started)
    && o.used.Keys <= o.given.Keys
    && forall id :: id in o.used ==> o.used[id] == o.given[id]
  }

  /** The turns whose log can be resumed: detached, and active, waiting or drained. */
  ghost predicate LogsAreKept(b: Books, active: Option<RunId>, pending: seq<QueuedTurn>, o: Outlets, logs: set<RunId>) {
    && o.given.Keys == Ids(b.accepted)
    && Active(active) + Ids(pending) + b.drained <= o.given.Keys
    && forall id :: id in logs <==> id in Active(active) + Ids(pending) + b.drained && o.given[id].Detached?
  }

  // ----- The whole lane -----

  datatype State = State(
    books: Books, active: Option<RunId>, pending: seq<QueuedTurn>, nextId: nat,
    rows: seq<Row>, sinks: map<RunId, Sink>, logs: set<RunId>, outlets: Outlets)

  ghost predicate Sound(s: State) {
    && Balanced(s.books, s.active, s.pending, s.nextId)
    && InBlocks(s.books, s.rows)
    && SinksWait(s.books, s.pending, s.outlets, s.sinks)
    && SinksAreUsed(s.books, s.outlets)
    && LogsAreKept(s.books, s.active, s.pending, s.outlets, s.logs)
  }

  function LogOf(id: RunId, sink: Sink): set<RunId> {
    if sink.Detached? then {id} else {}
  }

  function Queues(s: State, t: QueuedTurn, sink: Sink): State {
    s.(books := Accepted(s.books, t), pending := s.pending + [t], nextId := t.id + 1,
       sinks := s.sinks[t.id := sink], logs := s.logs + LogOf(t.id, sink),
       outlets := s.outlets.(given := s.outlets.given[t.id := sink]))
  }

  function Starts(s: State, t: QueuedTurn, sink: Sink): State {
    s.(books := Begun(Accepted(s.books, t), t), active := Some(t.id), nextId := t.id + 1,
       rows := s.rows + [UserRow(t.id, t.text)], logs := s.logs + LogOf(t.id, sink),
       outlets := Outlets(s.outlets.given[t.id := sink], s.outlets.used[t.id := sink]))
  }

  /** The active run is done, and the next turn starts if one waits. */
  function Finishes(s: State, id: RunId): State {
    var ended := s.(books := Ended(s.books, id), active := None, logs := s.logs - {id});
    if s.pending == [] || s.pending[0].id !in s.sinks then ended
    else
      var t := s.pending[0];
      ended.(books := Begun(ended.books, t), active := Some(t.id), pending := s.pending[1..],
             rows := s.rows + [UserRow(t.id, t.text)], sinks := s.sinks - {t.id},
             outlets := s.outlets.(used := s.outlets.used[t.id := s.sinks[t.id]]))
  }

  function Drains(s: State): State {
    s.(books := s.books.(drained := s.books.drained + Ids(s.pending)), pending := [])
  }

  lemma QueuesIsSound(s: State, t: QueuedTurn, sink: Sink)
    requires Sound(s) && s.active.Some? && t.id == s.nextId
    ensures Sound(Queues(s, t, sink))
  {
    hide Balanced, Ids, WithoutSummaries, Flatten;
    AcceptedIsNew(s, t);
    QueuedKeepsBalance(s.books, s.active, s.pending, t);
    IdsOfConcat(s.pending, [t]);
    IdsOfOne(t);
  }

  lemma AcceptedIsNew(s: State, t: QueuedTurn)
    requires Sound(s) && t.id == s.nextId
    ensures Ids(s.books.accepted + [t]) == Ids(s.books.accepted) + {t.id} && t.id !in Ids(s.books.accepted)
    ensures t.id !in s.outlets.given && t.id !in s.sinks && t.id !in s.logs
  {
    hide Ids, InBlocks;
    AcceptKeepsAscending(s.books.accepted, t);
  }

  lemma StartsIsSound(s: State, t: QueuedTurn, sink: Sink)
    requires Sound(s) && s.active == None && t.id == s.nextId
    ensures Sound(Starts(s, t, sink))
  {
    hide Ids, WithoutSummaries, Flatten, Balanced, InBlocks;
    IdleHasNothingPending(s);
    AcceptedIsNew(s, t);
    StartedKeepsBalance(s.books, t);
    assert InBlocks(Accepted(s.books, t), s.rows) by {
      AcceptKeepsBlocks(s.books, s.rows, t);
    }
    BeginKeepsBlocks(Accepted(s.books, t), s.rows, t);
    IdsOfConcat(s.books.started, [t]);
    IdsOfOne(t);
  }

  lemma AcceptKeepsBlocks(b: Books, rows: seq<Row>, t: QueuedTurn)
    requires InBlocks(b, rows)
    ensures InBlocks(Accepted(b, t), rows)
  {
  }

  lemma EndKeepsBlocks(b: Books, rows: seq<Row>, id: RunId)
    requires InBlocks(b, rows)
    ensures InBlocks(Ended(b, id), rows)
  {
  }

  lemma IdleHasNothingPending(s: State)
    requires Sound(s) && s.active == None
    ensures s.pending == []
  {
  }

  /** The next turn and the finished one are in no other place. */
  lemma HeadLeaves(s: State, id: RunId)
    requires Sound(s) && s.active == Some(id)
    ensures id !in Ids(s.pending) + s.books.drained
    ensures s.pending != [] ==>
              var t := s.pending[0];
              && Ids(s.pending) == {t.id} + Ids(s.pending[1..]) && t.id !in Ids(s.pending[1..]) + s.books.drained
              && Ids(s.books.started + [t]) == Ids(s.books.started) + {t.id}
              && t.id in s.sinks
  {
    hide InBlocks, Balanced;
    EveryTurnIsSomewhere(s.books, s.active, s.pending, s.nextId);
    if s.pending != [] {
      var t := s.pending[0];
      assert s.pending == [t] + s.pending[1..];
      IdsOfConcat([t], s.pending[1..]);
      IdsOfOne(t);
      IdsOfConcat(s.books.started, [t]);
      HeadIsElsewhere(s, t);
    }
  }

  lemma FinishesIsSound(s: State, id: RunId)
    requires Sound(s) && s.active == Some(id) && id in s.books.posted
    ensures Sound(Finishes(s, id))
    ensures s.pending != [] ==> s.pending[0].id in s.sinks
  {
    hide WithoutSummaries, Flatten, Balanced, InBlocks, Ids;
    HeadLeaves(s, id);
    FinishedKeepsBalance(s.books, id, s.pending, s.nextId);
    EndKeepsBlocks(s.books, s.rows, id);
    if s.pending != [] {
      BeginKeepsBlocks(Ended(s.books, id), s.rows, s.pending[0]);
    }
  }

  lemma HeadIsElsewhere(s: State, t: QueuedTurn)
    requires Balanced(s.books, s.active, s.pending, s.nextId) && s.pending != [] && t == s.pending[0]
    ensures t.id !in Ids(s.pending[1..])
  {
    KeptIsAscending(s.books.accepted, s.books.drained, s.nextId);
    var order := s.books.started + s.pending;
    forall k | 1 <= k < |s.pending| ensures s.pending[k].id != t.id {
      assert order[|s.books.started|] == t && order[|s.books.started| + k] == s.pending[k];
    }
  }

  lemma DrainsIsSound(s: State)
    requires Sound(s)
    ensures Sound(Drains(s))
  {
    hide WithoutSummaries, Flatten, Balanced;
    DrainKeepsBalance(s.books, s.active, s.pending, s.nextId);
    assert Ids([]) == {};
  }

  lemma WriteIsSound(s: State, id: RunId)
    requires Sound(s) && id in s.books.alive
    ensures s.books.blocks != [] && Sound(s.(books := OneMoreRow(s.books), rows := s.rows + [RunRow(id)]))
    ensures s.active == Some(id)
  {
    hide WithoutSummaries, Flatten, Ids, Kept;
    AliveIsLast(s.books, s.active, id);
    WriteKeepsBlocks(s.books, s.rows);
  }

  lemma EndIsSound(s: State, id: RunId)
    requires Sound(s) && id in s.books.alive
    ensures Sound(Ends(s, id))
  {
    hide WithoutSummaries, Flatten, Ids, Kept;
  }

  lemma SummaryIsSound(s: State)
    requires Sound(s)
    ensures Sound(s.(rows := s.rows + [SummaryRow]))
  {
    hide Balanced, SinksWait, SinksAreUsed, LogsAreKept, InBlocks;
    SummaryKeepsBlocks(s.books, s.rows);
  }

  lemma SkippedIdIsSound(s: State)
    requires Sound(s)
    ensures Sound(s.(nextId := s.nextId + 1))
  {
    hide InBlocks, SinksWait, SinksAreUsed, LogsAreKept;
  }

  /** A turn starts on a free lane, waits on a busy one, and is refused when `cap` turns wait. */
  function Submitted(s: State, t: QueuedTurn, sink: Sink, cap: nat): State {
    if s.active == None then Starts(s, t, sink)
    else if |s.pending| >= cap then s.(nextId := s.nextId + 1)
    else Queues(s, t, sink)
  }

  lemma SubmittedIsSound(s: State, t: QueuedTurn, sink: Sink, cap: nat)
    requires Sound(s) && t.id == s.nextId
    ensures Sound(Submitted(s, t, sink, cap))
    ensures s.active == None ==> s.pending == []
  {
    hide Sound, Starts, Queues;
    if s.active == None {
      IdleHasNothingPending(s);
      StartsIsSound(s, t, sink);
    } else if |s.pending| >= cap {
      SkippedIdIsSound(s);
    } else {
      QueuesIsSound(s, t, sink);
    }
  }

  /** A new turn brings its own log, started or queued. */
  lemma LogsStayOwn(logs: map<RunId, Sink>, s: State, t: QueuedTurn, sink: Sink)
    requires LogsAreOwn(logs, s.outlets) && t.id !in logs
    ensures var more := if sink.Detached? then logs[t.id := sink] else logs;
            LogsAreOwn(more, Starts(s, t, sink).outlets) && LogsAreOwn(more, Queues(s, t, sink).outlets)
  {
  }

  lemma NothingRemains(sinks: map<RunId, Sink>, id: RunId, sink: Sink, logs: set<RunId>)
    requires id !in sinks && id !in logs
    ensures sinks[id := sink] - {id} == sinks && logs + LogOf(id, sink) - {id} == logs
  {
  }

  lemma PostedIsActive(s: State, id: RunId)
    requires Sound(s) && id in s.books.posted
    ensures s.active == Some(id)
  {
    assert id in Active(s.active);
  }

  const NEW_LANE := State(Books([], [], [], {}, [], {}, {}), None, [], 0, [], map[], {}, Outlets(map[], map[]))

  lemma NewLaneIsSound()
    ensures Sound(NEW_LANE)
  {
  }

  /** The run that is alive is over, and has posted its end. */
  function Ends(s: State, id: RunId): State {
    s.(books := s.books.(alive := s.books.alive - {id}, posted := s.books.posted + {id}))
  }

  /** The logs a session keeps: of detached turns that are active, wait, or were drained. */
  lemma LogsBySink(s: State, id: RunId)
    requires Sound(s)
    ensures id in s.logs <==>
            && id in Active(s.active) + Ids(s.pending) + s.books.drained
            && IsDetached(s.outlets, id)
  {
    hide InBlocks, Balanced;
  }

  /** A run that can be resumed will still speak, iff its turn was not drained. */
  lemma ResumedRunSpeaksIffNotDrained(s: State, id: RunId)
    requires Sound(s) && id in s.logs
    ensures id in Active(s.active) + Ids(s.pending) <==> id !in s.books.drained
  {
    hide InBlocks, Balanced, SinksWait, SinksAreUsed;
    LogsBySink(s, id);
    EveryTurnIsSomewhere(s.books, s.active, s.pending, s.nextId);
  }

  /** One session and its mailbox handler; `open` is the receiving end of the mailbox. */
  class Session {
    const queue: RunQueue
    var active: Option<RunId>
    var cancelled: set<RunId>
    var sinks: map<RunId, Sink>
    var runLogs: map<RunId, Sink>
    var nextId: RunId
    var rows: seq<Row>
    var lastActivity: nat
    var open: bool
    ghost var books: Books
    ghost var outlets: Outlets

    ghost function Snap(): State
      reads this, queue
    {
      State(books, active, queue.pending, nextId, rows, sinks, runLogs.Keys, outlets)
    }

    ghost predicate Valid()
      reads this, queue
    {
      queue.active == active && |queue.pending| <= queue.cap && Sound(Snap()) && LogsAreOwn(runLogs, outlets)
    }

    constructor (cap: nat, now: nat)
      ensures Valid() && open && fresh(queue) && queue.cap == cap
      ensures Snap() == NEW_LANE && cancelled == {} && lastActivity == now
    {
      queue := new RunQueue(cap);
      active, cancelled, sinks, runLogs, nextId := None, {}, map[], map[], 0;
      rows, lastActivity, open := [], now, true;
      books, outlets := Books([], [], [], {}, [], {}, {}), Outlets(map[], map[]);
      new;
      NewLaneIsSound();
    }

    /** A caller is answered with an id exactly if the turn has started or waits. */
    method Submit(text: string, sink: Sink, now: nat) returns (reply: Option<RunId>)
      requires Valid() && open
      modifies this, queue
      ensures Valid() && open && lastActivity == now && cancelled == old(cancelled)
      ensures reply == if old(active).Some? && |old(queue.pending)| >= queue.cap then None else Some(old(nextId))
      ensures Snap() == Submitted(old(Snap()), QueuedTurn(old(nextId), text), sink, queue.cap)
    {
      hide Sound, Starts, Queues, LogOf, Ids, Accepted, Begun, LogsAreOwn;
      ghost var before := Snap();
      var runId := nextId;
      nextId := nextId + 1;
      lastActivity := now;
      var turn := QueuedTurn(runId, text);
      AcceptedIsNew(before, turn);
      SubmittedIsSound(before, turn, sink, queue.cap);
      LogsStayOwn(runLogs, before, turn, sink);
      Register(runId, sink);
      var verdict := queue.Submit(turn);
      match verdict {
        case Started(t) =>
          reply := Some(runId);
          StartTurn(t, sink, before);
        case Queued =>
          reply := Some(runId);
          KeepTurn(turn, sink, before);
        case Rejected =>
          Forget(runId);
          NothingRemains(before.sinks, runId, sink, before.logs);
          assert runLogs == old(runLogs);
          reply := None;
      }
    }

    method Register(runId: RunId, sink: Sink)
      modifies this`sinks, this`runLogs
      ensures sinks == old(sinks)[runId := sink]
      ensures runLogs.Keys == old(runLogs.Keys) + LogOf(runId, sink)
      ensures runLogs == if sink.Detached? then old(runLogs)[runId := sink] else old(runLogs)
    {
      sinks := sinks[runId := sink];
      if sink.Detached? {
        runLogs := runLogs[runId := sink];
      }
    }

    /** A refused turn leaves no trace. */
    method Forget(runId: RunId)
      modifies this`sinks, this`runLogs
      ensures sinks == old(sinks) - {runId} && runLogs == old(runLogs) - {runId}
    {
      sinks := sinks - {runId};
      runLogs := runLogs - {runId};
    }

    method StartTurn(turn: QueuedTurn, sink: Sink, ghost before: State)
      requires turn.id !in before.sinks
      requires Snap() == before.(nextId := turn.id + 1, sinks := before.sinks[turn.id := sink],
                                 logs := before.logs + LogOf(turn.id, sink))
      modifies this`active, this`sinks, this`rows, this`books, this`outlets
      ensures Snap() == Starts(before, turn, sink) && active == Some(turn.id)
    {
      books := Accepted(books, turn);
      outlets := outlets.(given := outlets.given[turn.id := sink]);
      BeginRun(turn);
      assert sinks == before.sinks;
    }

    ghost method KeepTurn(turn: QueuedTurn, sink: Sink, before: State)
      requires Snap() == before.(nextId := turn.id + 1, pending := before.pending + [turn],
                                 sinks := before.sinks[turn.id := sink], logs := before.logs + LogOf(turn.id, sink))
      modifies this`books, this`outlets
      ensures Snap() == Queues(before, turn, sink)
    {
      books := Accepted(books, turn);
      outlets := outlets.(given := outlets.given[turn.id := sink]);
    }

    /** Writes the user's message now that the lane is free, and spawns the run. */
    method BeginRun(turn: QueuedTurn)
      requires turn.id in sinks
      modifies this`active, this`sinks, this`rows, this`books, this`outlets
      ensures active == Some(turn.id) && rows == old(rows) + [UserRow(turn.id, turn.text)]
      ensures sinks == old(sinks) - {turn.id} && books == Begun(old(books), turn)
      ensures outlets == old(outlets).(used := old(outlets).used[turn.id := old(sinks)[turn.id]])
    {
      rows := rows + [UserRow(turn.id, turn.text)];
      var sink := if turn.id in sinks then sinks[turn.id] else Broadcast;
      sinks := sinks - {turn.id};
      active := Some(turn.id);
      books := Begun(books, turn);
      outlets := outlets.(used := outlets.used[turn.id := sink]);
    }

    /** An empty run id stands for whichever run is active; a hard abort drops all waiting turns. */
    method Abort(runId: Option<RunId>, hard: bool)
      requires Valid() && open
      modifies this`cancelled, this`books, queue
      ensures Valid()
      ensures Snap() == if hard then Drains(old(Snap())) else old(Snap())
      ensures cancelled == old(cancelled) + if runId == None || runId == active then Active(active) else {}
    {
      hide Sound;
      DrainsIsSound(Snap());
      if hard {
        books := books.(drained := books.drained + Ids(queue.pending));
        var _ := queue.DrainPending();
      }
      if active.Some? && (runId == None || runId == active) {
        cancelled := cancelled + {active.value};
      }
    }

    /** The message a run posts when it ends. */
    method Finished(runId: RunId, now: nat)
      requires Valid() && open && runId in books.posted
      modifies this, queue
      ensures Valid() && open && lastActivity == now && old(active) == Some(runId) && cancelled == old(cancelled)
      ensures Snap() == Finishes(old(Snap()), runId)
    {
      hide Sound;
      ghost var before := Snap();
      lastActivity := now;
      PostedIsActive(before, runId);
      FinishesIsSound(before, runId);
      FinishedHasNoSink(before, runId);
      if active == Some(runId) {
        active := None;
        sinks := sinks - {runId};
        runLogs := runLogs - {runId};
        books := Ended(books, runId);
        assert sinks == before.sinks;
        var next := queue.CompleteActive();
        if next.Some? {
          BeginRun(next.value);
        }
      }
      assert Snap() == Finishes(before, runId);
    }

    /**
      A hit for a detached turn that is active, waits, or was drained, and then it is that
      turn's own log that is attached; a drained one will never speak.
     */
    method Resume(runId: RunId) returns (log: Option<Sink>)
      requires Valid() && open
      ensures log.Some? <==> runId in Active(active) + Ids(queue.pending) + books.drained && IsDetached(outlets, runId)
      ensures log.Some? ==> log.value == outlets.given[runId]
      ensures log.Some? ==> (runId in Active(active) + Ids(queue.pending) <==> runId !in books.drained)
    {
      hide Sound, Ids, Active;
      LogsBySink(Snap(), runId);
      if runId in runLogs {
        ResumedRunSpeaksIffNotDrained(Snap(), runId);
      }
      log := if runId in runLogs then Some(runLogs[runId]) else None;
    }

    /** Closes the mailbox before answering yes; a lane with work is never idle. */
    method EvictIfIdle(now: nat, idleAfter: nat) returns (gone: bool)
      requires Valid() && open && lastActivity <= now
      modifies this`open
      ensures Valid() && Snap() == old(Snap()) && open == !gone
      ensures gone <==> active == None && queue.pending == [] && now - lastActivity >= idleAfter
      ensures gone ==> Ids(books.accepted) == SetOf(books.finished) + books.drained && books.alive == books.posted == {}
    {
      if active.Some? || queue.pending != [] || now - lastActivity < idleAfter {
        return false;
      }
      NothingIsLost(Snap());
      open := false;
      return true;
    }

    // ----- What happens outside the mailbox -----

    /** The live run writes a row. */
    method RunWrites(runId: RunId)
      requires Valid() && runId in books.alive
      modifies this`rows, this`books
      ensures Valid() && active == Some(runId) && rows == old(rows) + [RunRow(runId)]
      ensures old(books).blocks != [] && books == OneMoreRow(old(books))
    {
      hide Sound;
      WriteIsSound(Snap(), runId);
      rows := rows + [RunRow(runId)];
      books := OneMoreRow(books);
    }

    /** The live run is over, whatever its outcome, and says so in the mailbox. */
    ghost method RunEnds(runId: RunId)
      requires Valid() && runId in books.alive
      modifies this`books
      ensures Valid() && Snap() == Ends(old(Snap()), runId)
    {
      hide Sound;
      EndIsSound(Snap(), runId);
      books := books.(alive := books.alive - {runId}, posted := books.posted + {runId});
    }

    /** A summary may be written at any time. */
    method SummaryLands()
      requires Valid()
      modifies this`rows
      ensures Valid() && rows == old(rows) + [SummaryRow]
    {
      hide Sound;
      SummaryIsSound(Snap());
      rows := rows + [SummaryRow];
    }
  }

  lemma FinishedHasNoSink(s: State, id: RunId)
    requires Sound(s) && s.active == Some(id)
    ensures id !in s.sinks
  {
    HeadLeaves(s, id);
  }

  lemma NothingIsLost(s: State)
    requires Sound(s) && s.active == None && s.pending == []
    ensures Ids(s.books.accepted) == SetOf(s.books.finished) + s.books.drained && s.books.alive == s.books.posted == {}
  {
    hide InBlocks, SinksWait, SinksAreUsed, LogsAreKept;
    EveryTurnIsSomewhere(s.books, s.active, s.pending, s.nextId);
  }

  /** At most one run is alive, and it is the active one; a free lane has no waiting turn. */
  lemma OneRunAtATime(s: State, a: RunId, b: RunId)
    requires Sound(s)
    ensures a in s.books.alive && b in s.books.alive ==> a == b && s.active == Some(a)
    ensures s.active == None ==> s.pending == [] && s.books.alive == {}
  {
    hide InBlocks, SinksWait, SinksAreUsed, LogsAreKept;
    assert a in s.books.alive ==> a in Active(s.active);
    assert b in s.books.alive ==> b in Active(s.active);
  }

  /** What a free lane still holds on to: exactly the turns that a hard abort has drained. */
  lemma OnlyDrainedTurnsLeak(s: State)
    requires Sound(s) && s.active == None
    ensures s.sinks.Keys == s.books.drained
    ensures forall id :: id in s.logs <==> id in s.books.drained && IsDetached(s.outlets, id)
  {
    hide InBlocks;
    IdleHasNothingPending(s);
    assert Ids([]) == {};
  }

  /** One turn runs, one waits, a hard abort drops it, the first ends: the second's sink and log stay. */
  lemma DrainedTurnLeaks(a: QueuedTurn, b: QueuedTurn, x: Sink, y: Sink)
    requires a == QueuedTurn(0, "first") && b == QueuedTurn(1, "second") && x.Detached? && y.Detached?
    ensures var s := Finishes(Ends(Drains(Submitted(Submitted(NEW_LANE, a, x, 1), b, y, 1)), 0), 0);
            Sound(s) && s.active == None && s.sinks.Keys == {1} && s.logs == {1}
  {
    hide Sound;
    NewLaneIsSound();
    var s1 := Submitted(NEW_LANE, a, x, 1);
    SubmittedIsSound(NEW_LANE, a, x, 1);
    var s2 := Submitted(s1, b, y, 1);
    SubmittedIsSound(s1, b, y, 1);
    var s3 := Drains(s2);
    DrainsIsSound(s2);
    EndIsSound(s3, 0);
    FinishesIsSound(Ends(s3, 0), 0);
    IdsOfOne(b);
    assert s2.pending == [b];
    OnlyDrainedTurnsLeak(Finishes(Ends(s3, 0), 0));
  }
}
