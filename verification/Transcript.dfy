/**
  The transcript table: rows of all sessions, numbered per session, and the watermark
  below which a session's rows are hidden.
 */
module Transcript {
  import opened Basics
  import opened Messages

  type SessionId = nat

  datatype Item = Said(role: Role, content: string) | Summary(text: string)

  datatype TableRow = TableRow(sid: SessionId, seqNo: int, item: Item)

  datatype Numbered = Numbered(seqNo: int, item: Item)

  // ----- The table, session by session -----

  /** The rows of one session, in order. */
  function Log(rows: seq<TableRow>, sid: SessionId): seq<Item> {
    if rows == [] then [] else Log(rows[..|rows| - 1], sid) + ItemOf(rows[|rows| - 1], sid)
  }

  function ItemOf(row: TableRow, sid: SessionId): seq<Item> {
    if row.sid == sid then [row.item] else []
  }

  /** Every session counts its rows 1, 2, 3, and so on. */
  ghost predicate WellNumbered(rows: seq<TableRow>) {
    forall i :: 0 <= i < |rows| ==> IsNumbered(rows, i)
  }

  predicate IsNumbered(rows: seq<TableRow>, i: nat)
    requires i < |rows|
  {
    rows[i].seqNo == |Log(rows[..i], rows[i].sid)| + 1
  }

  lemma LogGrows(rows: seq<TableRow>, row: TableRow, sid: SessionId)
    ensures Log(rows + [row], sid) == Log(rows, sid) + ItemOf(row, sid)
  {
    assert (rows + [row])[..|rows|] == rows;
  }

  lemma LogStep(rows: seq<TableRow>, i: nat, sid: SessionId)
    requires i < |rows|
    ensures Log(rows[..i + 1], sid) == Log(rows[..i], sid) + ItemOf(rows[i], sid)
  {
    assert rows[..i + 1][..i] == rows[..i];
  }

  lemma NumberedGrows(rows: seq<TableRow>, row: TableRow)
    requires WellNumbered(rows) && row.seqNo == |Log(rows, row.sid)| + 1
    ensures WellNumbered(rows + [row])
  {
    hide Log;
    var more := rows + [row];
    forall i | 0 <= i < |more| ensures IsNumbered(more, i) {
      assert i < |rows| ==> IsNumbered(rows, i);
      assert more[..i] == rows[..i];
      assert rows[..|rows|] == rows;
    }
  }

  /** The entries of a log after the first `lo`, with their numbers. */
  function Tail(log: seq<Item>, lo: nat): seq<Numbered>
    requires lo <= |log|
  {
    seq(|log| - lo, i requires 0 <= i < |log| - lo => Numbered(lo + i + 1, log[lo + i]))
  }

  /** How many entries a load leaves out: the hidden ones, and the oldest beyond the limit. */
  function LoadedFrom(n: nat, resetAt: nat, maxEntries: int): (lo: nat)
    requires resetAt <= n
    ensures resetAt <= lo <= n
  {
    if maxEntries < 0 || n - resetAt <= maxEntries then resetAt else n - maxEntries
  }

  class Store {
    var rows: seq<TableRow>
    var resetAt: map<SessionId, nat>

    ghost predicate Valid()
      reads this
    {
      WellNumbered(rows) && forall sid :: sid in resetAt ==> resetAt[sid] <= |Log(rows, sid)|
    }

    function Watermark(sid: SessionId): nat
      reads this
    {
      if sid in resetAt then resetAt[sid] else 0
    }

    constructor ()
      ensures Valid() && rows == [] && resetAt == map[]
    {
      rows, resetAt := [], map[];
    }

    method EnsureSession(sid: SessionId)
      requires Valid()
      modifies this`resetAt
      ensures Valid() && Watermark(sid) == old(Watermark(sid)) && resetAt.Keys == old(resetAt.Keys) + {sid}
      ensures forall other :: Watermark(other) == old(Watermark(other))
    {
      if sid !in resetAt {
        resetAt := resetAt[sid := 0];
      }
    }

    /** The largest number in use, 0 for a session without rows. */
    method MaxSeq(sid: SessionId) returns (max: int)
      requires WellNumbered(rows)
      ensures max == |Log(rows, sid)|
    {
      max := 0;
      for i := 0 to |rows|
        invariant max == |Log(rows[..i], sid)|
      {
        LogStep(rows, i, sid);
        assert IsNumbered(rows, i);
        if rows[i].sid == sid {
          max := Max(max, rows[i].seqNo);
        }
      }
      assert rows[..|rows|] == rows;
    }

    method AppendEntry(sid: SessionId, item: Item) returns (seqNo: int)
      requires Valid()
      modifies this`rows
      ensures Valid() && seqNo == |Log(rows, sid)|
      ensures forall other :: Log(rows, other) == old(Log(rows, other)) + if other == sid then [item] else []
    {
      hide Log;
      var max := MaxSeq(sid);
      seqNo := max + 1;
      var row := TableRow(sid, seqNo, item);
      NumberedGrows(rows, row);
      forall other ensures Log(rows + [row], other) == Log(rows, other) + if other == sid then [item] else [] {
        LogGrows(rows, row, other);
      }
      rows := rows + [row];
    }

    /** Hides all rows so far, if the session exists. */
    method ResetSession(sid: SessionId)
      requires Valid()
      modifies this`resetAt
      ensures Valid() && resetAt.Keys == old(resetAt.Keys)
      ensures Watermark(sid) == if sid in old(resetAt) then |Log(rows, sid)| else 0
      ensures forall other :: other != sid ==> Watermark(other) == old(Watermark(other))
    {
      var max := MaxSeq(sid);
      if sid in resetAt {
        resetAt := resetAt[sid := max];
      }
    }

    /** The newest visible rows within the limit, oldest first; a negative limit is none. */
    method LoadTranscript(sid: SessionId, maxEntries: int) returns (out: seq<Numbered>)
      requires Valid()
      ensures Watermark(sid) <= |Log(rows, sid)|
      ensures out == Tail(Log(rows, sid), LoadedFrom(|Log(rows, sid)|, Watermark(sid), maxEntries))
    {
      hide Log;
      var from := Watermark(sid);
      EmptyLog(sid);
      ghost var log := Log(rows, sid);
      ghost var lo := |log|;
      out := [];
      var i := |rows|;
      assert rows[..i] == rows;
      LogIsPrefix(rows, sid, 0);
      while i > 0 && !(maxEntries >= 0 && |out| >= maxEntries)
        invariant 0 <= i <= |rows| && from <= lo <= |log|
        invariant Log(rows[..i], sid) <= log
        invariant lo == Max(|Log(rows[..i], sid)|, from)
        invariant out == Tail(log, lo)
        invariant maxEntries >= 0 ==> |out| <= maxEntries
      {
        i := i - 1;
        LogStep(rows, i, sid);
        assert IsNumbered(rows, i);
        if rows[i].sid == sid && rows[i].seqNo > from {
          out := [Numbered(rows[i].seqNo, rows[i].item)] + out;
          lo := lo - 1;
        }
      }
    }

    /** Appends the summary and moves the watermark forward to `upTo`, never back. */
    method CompactWithSummary(sid: SessionId, upTo: nat, text: string)
      requires Valid() && upTo <= |Log(rows, sid)|
      modifies this
      ensures Valid() && resetAt.Keys == old(resetAt.Keys)
      ensures forall other :: Log(rows, other) == old(Log(rows, other)) + if other == sid then [Summary(text)] else []
      ensures Watermark(sid) == if sid in old(resetAt) then Max(old(Watermark(sid)), upTo) else 0
      ensures forall other :: other != sid ==> Watermark(other) == old(Watermark(other))
    {
      var _ := AppendEntry(sid, Summary(text));
      if sid in resetAt {
        resetAt := resetAt[sid := Max(resetAt[sid], upTo)];
      }
    }
  }

  lemma EmptyLog(sid: SessionId)
    ensures Log([], sid) == []
  {
  }

  lemma {:induction false} LogIsPrefix(rows: seq<TableRow>, sid: SessionId, i: nat)
    requires i <= |rows|
    ensures Log(rows[..i], sid) <= Log(rows, sid)
    decreases |rows| - i
  {
    if i < |rows| {
      LogIsPrefix(rows, sid, i + 1);
      LogStep(rows, i, sid);
    } else {
      assert rows[..i] == rows;
    }
  }
}
