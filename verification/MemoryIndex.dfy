/**
  The memory table and its full-text index: every change keeps them in step, and a search
  through the index returns the rows of a full scan, in the same order.
 */
module MemoryIndex {
  import opened Basics
  import opened FullText
  import opened Wildcards

  datatype Tier = Curated | Episodic | Prospective | Review

  datatype Memory = Memory(no: int, id: string, tier: Tier, text: string)

  // ----- The table, in the order of its row numbers -----

  ghost predicate IsTable(rows: seq<Memory>) {
    && (forall i, k :: 0 <= i < k < |rows| ==> rows[i].no < rows[k].no)
    && (forall i, k :: 0 <= i < k < |rows| ==> rows[i].id != rows[k].id)
  }

  /** The index holds exactly the tokens of each row's text, under the row's number. */
  ghost predicate Indexed(u: Unicode, rows: seq<Memory>, fts: map<int, set<string>>) {
    && (forall i :: 0 <= i < |rows| ==> HasTokens(u, fts, rows[i]))
    && (forall no :: no in fts ==> HasRow(rows, no))
  }

  ghost predicate HasRow(rows: seq<Memory>, no: int) {
    exists i :: 0 <= i < |rows| && rows[i].no == no
  }

  predicate HasTokens(u: Unicode, fts: map<int, set<string>>, m: Memory) {
    m.no in fts && fts[m.no] == Windows(u, m.text)
  }

  /** A second entry under the same number adds its tokens to the first. */
  function FtsInsert(fts: map<int, set<string>>, no: int, tokens: set<string>): map<int, set<string>> {
    fts[no := (if no in fts then fts[no] else {}) + tokens]
  }

  /** One above the largest number; the number of a deleted last row is used again. */
  function NextNo(rows: seq<Memory>): int {
    if rows == [] then 1 else rows[|rows| - 1].no + 1
  }

  function WithText(m: Memory, text: string): Memory {
    m.(text := text)
  }

  // ----- Searching -----

  predicate LikesAny(text: string, terms: seq<string>) {
    exists k :: 0 <= k < |terms| && Like(text, Pattern(terms[k]))
  }

  /** What a search asks of a row; without terms every row will do. */
  predicate IsCandidate(m: Memory, terms: seq<string>, tier: Option<Tier>) {
    (terms == [] || LikesAny(m.text, terms)) && (tier == None || tier == Some(m.tier))
  }

  /** The candidates of a full scan, newest first. */
  function Candidates(rows: seq<Memory>, terms: seq<string>, tier: Option<Tier>): seq<Memory> {
    if rows == [] then []
    else
      var last := rows[|rows| - 1];
      (if IsCandidate(last, terms, tier) then [last] else []) + Candidates(rows[..|rows| - 1], terms, tier)
  }

  function Limited(s: seq<Memory>, limit: int): seq<Memory> {
    if limit < 0 || |s| <= limit then s else s[..limit]
  }

  /** Every term can be put into the match expression. */
  predicate AllExpressible(u: Unicode, terms: seq<string>) {
    forall k :: 0 <= k < |terms| ==> Windows(u, terms[k]) != {}
  }

  predicate MatchesIndex(u: Unicode, fts: map<int, set<string>>, no: int, terms: seq<string>) {
    no in fts && exists k :: 0 <= k < |terms| && Windows(u, terms[k]) <= fts[no]
  }

  /** The same for an expression: some part of it has all its tokens in the entry. */
  predicate Satisfies(fts: map<int, set<string>>, no: int, expr: seq<seq<string>>) {
    no in fts && exists k :: 0 <= k < |expr| && SetOf(expr[k]) <= fts[no]
  }

  lemma SatisfiesIsMatch(u: Unicode, fts: map<int, set<string>>, no: int, terms: seq<string>, expr: seq<seq<string>>)
    requires |expr| == |terms| && forall k :: 0 <= k < |terms| ==> SetOf(expr[k]) == Windows(u, terms[k])
    ensures Satisfies(fts, no, expr) <==> MatchesIndex(u, fts, no, terms)
  {
    hide Windows, SetOf;
  }

  /** Terms for which the index finds all that the pattern finds. */
  ghost predicate AllSearchable(u: Unicode, terms: seq<string>) {
    forall k :: 0 <= k < |terms| ==> IsCovered(u, terms[k])
  }

  lemma IndexFindsCandidates(u: Unicode, rows: seq<Memory>, fts: map<int, set<string>>, i: nat, terms: seq<string>)
    requires Sane(u) && Indexed(u, rows, fts) && i < |rows| && AllSearchable(u, terms)
    requires LikesAny(rows[i].text, terms)
    ensures MatchesIndex(u, fts, rows[i].no, terms)
  {
    hide Windows, Like, IsCovered;
    var k :| 0 <= k < |terms| && Like(rows[i].text, Pattern(terms[k]));
    CoveredIsIndexed(u, rows[i].text, terms[k]);
    assert IndexHit(u, rows[i].text, terms[k]);
    assert HasTokens(u, fts, rows[i]);
  }

  /**
    The candidates are exactly the rows of the tier, if one is asked for, whose text some
    term's pattern finds, if there are terms; and a later row comes before an earlier one.
   */
  lemma {:induction false} CandidatesAreExact(rows: seq<Memory>, terms: seq<string>, tier: Option<Tier>)
    requires forall i, k :: 0 <= i < k < |rows| ==> rows[i].no < rows[k].no
    ensures var found := Candidates(rows, terms, tier);
            && (forall i, k :: 0 <= i < k < |found| ==> found[i].no > found[k].no)
            && (forall m :: m in found <==>
                  && m in rows && (tier.Some? ==> m.tier == tier.value)
                  && (terms != [] ==> exists k :: 0 <= k < |terms| && Like(m.text, "%" + terms[k] + "%")))
  {
    hide Like, IsCandidate, Candidates;
    CandidatesAreOrdered(rows, terms, tier);
    forall m
      ensures IsCandidate(m, terms, tier) <==>
                && (tier.Some? ==> m.tier == tier.value)
                && (terms != [] ==> exists k :: 0 <= k < |terms| && Like(m.text, "%" + terms[k] + "%"))
    {
      CandidateIs(m, terms, tier);
    }
  }

  lemma {:induction false} CandidatesAreOrdered(rows: seq<Memory>, terms: seq<string>, tier: Option<Tier>)
    requires forall i, k :: 0 <= i < k < |rows| ==> rows[i].no < rows[k].no
    ensures var found := Candidates(rows, terms, tier);
            && (forall i, k :: 0 <= i < k < |found| ==> found[i].no > found[k].no)
            && (forall m :: m in found <==> m in rows && IsCandidate(m, terms, tier))
  {
    hide IsCandidate;
    if rows != [] {
      var init, last := rows[..|rows| - 1], rows[|rows| - 1];
      CandidatesAreOrdered(init, terms, tier);
      assert rows == init + [last];
      assert forall m :: m in init ==> m.no < last.no;
      LaterComesFirst(Candidates(init, terms, tier), last);
    }
  }

  lemma LaterComesFirst(found: seq<Memory>, last: Memory)
    requires forall i, k :: 0 <= i < k < |found| ==> found[i].no > found[k].no
    requires forall m :: m in found ==> m.no < last.no
    ensures forall i, k :: 0 <= i < k < |[last] + found| ==> ([last] + found)[i].no > ([last] + found)[k].no
  {
  }

  lemma CandidateIs(m: Memory, terms: seq<string>, tier: Option<Tier>)
    ensures IsCandidate(m, terms, tier) <==>
              && (tier.Some? ==> m.tier == tier.value)
              && (terms != [] ==> exists k :: 0 <= k < |terms| && Like(m.text, "%" + terms[k] + "%"))
  {
    hide Like;
    if LikesAny(m.text, terms) {
      var k :| 0 <= k < |terms| && Like(m.text, Pattern(terms[k]));
      assert Like(m.text, "%" + terms[k] + "%");
    }
    if exists k :: 0 <= k < |terms| && Like(m.text, "%" + terms[k] + "%") {
      var k :| 0 <= k < |terms| && Like(m.text, "%" + terms[k] + "%");
      assert Like(m.text, Pattern(terms[k]));
    }
  }

  /** A new row's number is one above all there are, and 1 in an empty table. */
  lemma NextNoIsFree(rows: seq<Memory>)
    requires forall i, k :: 0 <= i < k < |rows| ==> rows[i].no < rows[k].no
    ensures forall i :: 0 <= i < |rows| ==> rows[i].no < NextNo(rows)
    ensures if rows == [] then NextNo(rows) == 1 else exists i :: 0 <= i < |rows| && rows[i].no == NextNo(rows) - 1
  {
    if rows != [] {
      assert rows[|rows| - 1].no == NextNo(rows) - 1;
    }
  }

  class MemoryStore {
    const u: Unicode
    var rows: seq<Memory>
    var fts: map<int, set<string>>

    ghost predicate Valid()
      reads this
    {
      Sane(u) && IsTable(rows) && Indexed(u, rows, fts)
    }

    constructor (u: Unicode)
      requires Sane(u)
      ensures Valid() && this.u == u && rows == []
    {
      this.u := u;
      rows, fts := [], map[];
    }

    /** The position of a row by its id, |rows| when there is none. */
    method Find(id: string) returns (i: nat)
      ensures i <= |rows| && (i < |rows| ==> rows[i].id == id)
      ensures i == |rows| ==> forall k :: 0 <= k < |rows| ==> rows[k].id != id
    {
      i := 0;
      while i < |rows| && rows[i].id != id
        invariant i <= |rows|
        invariant forall k :: 0 <= k < i ==> rows[k].id != id
      {
        i := i + 1;
      }
    }

    /** Inserting into the index only adds tokens, so the old entry goes first. */
    method IndexMemoryText(no: int, text: string)
      requires Sane(u)
      modifies this`fts
      ensures fts == old(fts)[no := Windows(u, text)]
    {
      Replaced(fts, no, Windows(u, text));
      fts := fts - {no};
      var doc := EncodeDoc(u, text);
      fts := FtsInsert(fts, no, TokensIn(u, doc));
    }

    /** An existing memory gets the new text and keeps its number and tier; a new one goes last. */
    method Upsert(id: string, tier: Tier, text: string)
      requires Valid()
      modifies this
      ensures Valid()
      ensures (forall k :: 0 <= k < |old(rows)| ==> old(rows)[k].id != id) ==>
                rows == old(rows) + [Memory(NextNo(old(rows)), id, tier, text)]
      ensures forall i :: 0 <= i < |old(rows)| && old(rows)[i].id == id ==>
                rows == old(rows)[i := WithText(old(rows)[i], text)]
    {
      hide Windows;
      var i := Find(id);
      ghost var before, index := rows, fts;
      if i < |rows| {
        Retext(i, text);
      } else {
        var no := NextNo(rows);
        rows := rows + [Memory(no, id, tier, text)];
        IndexMemoryText(no, text);
        AppendedIsIndexed(u, before, index, Memory(no, id, tier, text));
      }
    }

    /** An episodic memory becomes a curated one; its text, and so its index entry, stays. */
    method Promote(id: string)
      requires Valid()
      modifies this`rows
      ensures Valid() && |rows| == |old(rows)|
      ensures forall i :: 0 <= i < |rows| ==>
                rows[i] == if old(rows)[i].id == id && old(rows)[i].tier == Episodic then old(rows)[i].(tier := Curated)
                           else old(rows)[i]
    {
      hide Windows;
      var i := Find(id);
      if i < |rows| && rows[i].tier == Episodic {
        ghost var before := rows;
        rows := rows[i := rows[i].(tier := Curated)];
        RetieredIsIndexed(u, before, fts, i);
      }
    }

    /** The target takes the merged text, then the source is dropped, unless it is the target. */
    method Merge(sourceId: string, targetId: string, merged: string)
      requires Valid()
      modifies this
      ensures Valid()
      ensures (forall k :: 0 <= k < |old(rows)| ==> old(rows)[k].id != targetId) ==> rows == old(rows)
      ensures forall t :: 0 <= t < |old(rows)| && old(rows)[t].id == targetId ==>
                rows == Without(old(rows)[t := WithText(old(rows)[t], merged)],
                                if sourceId == targetId then None else Some(sourceId))
    {
      hide Windows, Indexed, Without, Sane;
      var t := Find(targetId);
      if t == |rows| {
        return;
      }
      Retext(t, merged);
      NoneWithout(rows);
      if sourceId != targetId {
        var _ := Delete(sourceId);
      }
    }

    method Retext(i: nat, text: string)
      requires Valid() && i < |rows|
      modifies this
      ensures Valid() && rows == old(rows)[i := WithText(old(rows)[i], text)]
    {
      hide Windows, Indexed, IsTable;
      ReindexedIsIndexed(u, rows, fts, i, text);
      rows := rows[i := rows[i].(text := text)];
      IndexMemoryText(rows[i].no, text);
    }

    /** Deletes the row and its index entry; tells whether there was one. */
    method Delete(id: string) returns (deleted: bool)
      requires Valid()
      modifies this
      ensures Valid() && rows == Without(old(rows), Some(id))
      ensures deleted <==> exists i :: 0 <= i < |old(rows)| && old(rows)[i].id == id
    {
      hide Windows;
      var i := Find(id);
      if i == |rows| {
        NotThere(rows, id);
        return false;
      }
      ghost var before, index := rows, fts;
      DroppedIsIndexed(u, rows, fts, i);
      DropsOne(rows, i);
      fts := fts - {rows[i].no};
      rows := rows[..i] + rows[i + 1..];
      return true;
    }

    /**
      Index and recheck where every term can be expressed, a full scan otherwise; newest
      first, up to the limit. For searchable terms both give the same rows.
     */
    method SearchCandidates(terms: seq<string>, tier: Option<Tier>, limit: int) returns (out: seq<Memory>)
      requires Valid()
      ensures out == Limited(Found(u, rows, terms, tier), limit)
      ensures IsExact(u, terms) ==> out == Limited(Candidates(rows, terms, tier), limit)
      ensures forall k :: 0 <= k < |out| ==> out[k] in rows && IsCandidate(out[k], terms, tier)
    {
      hide IsTable, Indexed, IsExact, IsCandidate, Windows, SetOf, IsFound;
      var expr := MatchExpr(u, terms);
      out := [];
      var i := |rows|;
      assert rows[..i] == rows;
      while i > 0 && !(limit >= 0 && |out| >= limit)
        invariant 0 <= i <= |rows|
        invariant Found(u, rows, terms, tier) == out + Found(u, rows[..i], terms, tier)
        invariant limit >= 0 ==> |out| <= limit
        invariant forall k :: 0 <= k < |out| ==> out[k] in rows && IsCandidate(out[k], terms, tier)
      {
        i := i - 1;
        FoundStep(u, rows, i, terms, tier);
        var found := Finds(expr, i, terms, tier);
        Assoc(out, if found then [rows[i]] else [], Found(u, rows[..i], terms, tier));
        if found {
          out := out + [rows[i]];
        } else {
          AppendNothing(out, []);
        }
      }
      LimitedEnd(out, Found(u, rows[..i], terms, tier), limit);
      if IsExact(u, terms) {
        FoundIsCandidates(u, rows, terms, tier);
      }
    }

    /** One row: the index first, if there is an expression for it, and the pattern always. */
    method Finds(expr: Option<seq<seq<string>>>, i: nat, terms: seq<string>, tier: Option<Tier>) returns (found: bool)
      requires Valid() && i < |rows|
      requires expr == None <==> terms == [] || !AllExpressible(u, terms)
      requires expr.Some? ==> |expr.value| == |terms| && forall k :: 0 <= k < |terms| ==>
                 SetOf(expr.value[k]) == Windows(u, terms[k])
      ensures found == IsFound(u, rows[i], terms, tier) && (found ==> IsCandidate(rows[i], terms, tier))
    {
      hide Windows, LikesAny, AllExpressible, Satisfies, SetOf, IsCandidate;
      assert HasTokens(u, fts, rows[i]);
      if expr.Some? {
        SatisfiesIsMatch(u, fts, rows[i].no, terms, expr.value);
      }
      found := (expr == None || Satisfies(fts, rows[i].no, expr.value)) && IsCandidate(rows[i], terms, tier);
    }
  }

  /** Found is a candidate that has all tokens of some term; without an expression, any candidate. */
  predicate IsFound(u: Unicode, m: Memory, terms: seq<string>, tier: Option<Tier>) {
    && IsCandidate(m, terms, tier)
    && (terms == [] || !AllExpressible(u, terms) || HitsAny(u, m.text, terms))
  }

  predicate HitsAny(u: Unicode, text: string, terms: seq<string>) {
    exists k :: 0 <= k < |terms| && IndexHit(u, text, terms[k])
  }

  function Found(u: Unicode, rows: seq<Memory>, terms: seq<string>, tier: Option<Tier>): seq<Memory> {
    if rows == [] then []
    else
      var last := rows[|rows| - 1];
      (if IsFound(u, last, terms, tier) then [last] else []) + Found(u, rows[..|rows| - 1], terms, tier)
  }

  lemma FoundStep(u: Unicode, rows: seq<Memory>, n: nat, terms: seq<string>, tier: Option<Tier>)
    requires n < |rows|
    ensures Found(u, rows[..n + 1], terms, tier)
            == (if IsFound(u, rows[n], terms, tier) then [rows[n]] else []) + Found(u, rows[..n], terms, tier)
  {
    assert rows[..n + 1][..n] == rows[..n];
  }

  /** For exact searches the recheck of the index's rows gives what a full scan gives. */
  lemma {:induction false} FoundIsCandidates(u: Unicode, rows: seq<Memory>, terms: seq<string>, tier: Option<Tier>)
    requires Sane(u) && IsExact(u, terms)
    ensures Found(u, rows, terms, tier) == Candidates(rows, terms, tier)
  {
    hide IsExact, IsFound, IsCandidate;
    if rows != [] {
      FoundIsCandidates(u, rows[..|rows| - 1], terms, tier);
      FoundIffCandidate(u, rows[|rows| - 1], terms, tier);
    }
  }

  lemma FoundIffCandidate(u: Unicode, m: Memory, terms: seq<string>, tier: Option<Tier>)
    requires Sane(u) && IsExact(u, terms)
    ensures IsFound(u, m, terms, tier) <==> IsCandidate(m, terms, tier)
  {
    hide Windows, Like, IsCovered;
    if IsCandidate(m, terms, tier) && terms != [] && AllExpressible(u, terms) {
      var k :| 0 <= k < |terms| && Like(m.text, Pattern(terms[k]));
      CoveredIsIndexed(u, m.text, terms[k]);
      assert IndexHit(u, m.text, terms[k]);
    }
  }

  /** The searches for which index and full scan agree; only single letters and wildcards are left out. */
  ghost predicate IsExact(u: Unicode, terms: seq<string>) {
    terms == [] || !AllExpressible(u, terms) || AllSearchable(u, terms)
  }

  /** The rows but the one with this id. */
  function Without(rows: seq<Memory>, id: Option<string>): seq<Memory> {
    if rows == [] then []
    else Without(rows[..|rows| - 1], id) + if id == Some(rows[|rows| - 1].id) then [] else [rows[|rows| - 1]]
  }

  lemma {:induction false} NoneWithout(rows: seq<Memory>)
    ensures Without(rows, None) == rows
  {
    hide Without;
    if rows != [] {
      NoneWithout(rows[..|rows| - 1]);
      WithoutStep(rows, None);
      assert rows[..|rows| - 1] + [rows[|rows| - 1]] == rows;
    } else {
      NothingWithout(None);
    }
  }

  lemma {:induction false} NotThere(rows: seq<Memory>, id: string)
    requires forall k :: 0 <= k < |rows| ==> rows[k].id != id
    ensures Without(rows, Some(id)) == rows
  {
    hide Without;
    if rows != [] {
      NotThere(rows[..|rows| - 1], id);
      WithoutStep(rows, Some(id));
    } else {
      NothingWithout(Some(id));
    }
  }

  lemma NothingWithout(id: Option<string>)
    ensures Without([], id) == []
  {
  }

  lemma {:induction false} DropsOne(rows: seq<Memory>, i: nat)
    requires IsTable(rows) && i < |rows|
    ensures Without(rows, Some(rows[i].id)) == rows[..i] + rows[i + 1..]
  {
    hide Without, IsTable;
    var init, last := rows[..|rows| - 1], rows[|rows| - 1];
    WithoutStep(rows, Some(rows[i].id));
    TableOfFewer(rows, i);
    if i == |rows| - 1 {
      NotThere(init, rows[i].id);
    } else {
      DropsOne(init, i);
      assert rows[..i] + rows[i + 1..] == init[..i] + init[i + 1..] + [last];
    }
  }

  lemma WithoutStep(rows: seq<Memory>, id: Option<string>)
    requires rows != []
    ensures Without(rows, id)
            == Without(rows[..|rows| - 1], id) + if id == Some(rows[|rows| - 1].id) then [] else [rows[|rows| - 1]]
  {
  }

  lemma TableOfFewer(rows: seq<Memory>, i: nat)
    requires IsTable(rows) && i < |rows|
    ensures IsTable(rows[..|rows| - 1])
    ensures forall k :: 0 <= k < |rows| && k != i ==> rows[k].id != rows[i].id
  {
  }

  // ----- Keeping the index in step -----

  lemma ReindexedIsIndexed(u: Unicode, rows: seq<Memory>, fts: map<int, set<string>>, i: nat, text: string)
    requires IsTable(rows) && Indexed(u, rows, fts) && i < |rows|
    ensures IsTable(rows[i := WithText(rows[i], text)])
    ensures Indexed(u, rows[i := WithText(rows[i], text)], fts[rows[i].no := Windows(u, text)])
  {
    hide Windows, HasRow;
    var after, index := rows[i := WithText(rows[i], text)], fts[rows[i].no := Windows(u, text)];
    forall k | 0 <= k < |after| ensures HasTokens(u, index, after[k]) {
      assert HasTokens(u, fts, rows[k]);
    }
    forall no | no in index ensures HasRow(after, no) {
      assert HasTokens(u, fts, rows[i]);
      SameNumbers(rows, after, no);
    }
  }

  lemma SameNumbers(rows: seq<Memory>, after: seq<Memory>, no: int)
    requires |after| == |rows| && forall k :: 0 <= k < |rows| ==> after[k].no == rows[k].no
    ensures HasRow(rows, no) ==> HasRow(after, no)
  {
  }

  lemma AppendedIsIndexed(u: Unicode, rows: seq<Memory>, fts: map<int, set<string>>, m: Memory)
    requires IsTable(rows) && Indexed(u, rows, fts)
    requires forall k :: 0 <= k < |rows| ==> rows[k].id != m.id && rows[k].no < m.no
    ensures IsTable(rows + [m]) && Indexed(u, rows + [m], fts[m.no := Windows(u, m.text)])
  {
    hide Windows, HasRow;
    var after, index := rows + [m], fts[m.no := Windows(u, m.text)];
    forall k | 0 <= k < |after| ensures HasTokens(u, index, after[k]) {
      assert k < |rows| ==> HasTokens(u, fts, rows[k]);
    }
    forall no | no in index ensures HasRow(after, no) {
      OneRowMore(rows, m, no);
    }
  }

  lemma OneRowMore(rows: seq<Memory>, m: Memory, no: int)
    ensures HasRow(rows + [m], no) <==> HasRow(rows, no) || no == m.no
  {
    var after := rows + [m];
    if HasRow(rows, no) {
      var k :| 0 <= k < |rows| && rows[k].no == no;
      assert after[k].no == no;
    }
    assert after[|rows|] == m;
  }

  lemma RetieredIsIndexed(u: Unicode, rows: seq<Memory>, fts: map<int, set<string>>, i: nat)
    requires IsTable(rows) && Indexed(u, rows, fts) && i < |rows|
    ensures IsTable(rows[i := rows[i].(tier := Curated)]) && Indexed(u, rows[i := rows[i].(tier := Curated)], fts)
  {
    hide Windows, HasRow;
    var after := rows[i := rows[i].(tier := Curated)];
    forall k | 0 <= k < |after| ensures HasTokens(u, fts, after[k]) {
      assert HasTokens(u, fts, rows[k]);
    }
    forall no | no in fts ensures HasRow(after, no) {
      SameNumbers(rows, after, no);
    }
  }

  lemma DroppedIsTable(rows: seq<Memory>, i: nat)
    requires IsTable(rows) && i < |rows|
    ensures IsTable(rows[..i] + rows[i + 1..])
  {
    var after := rows[..i] + rows[i + 1..];
    forall a, b | 0 <= a < b < |after| ensures after[a].no < after[b].no && after[a].id != after[b].id {
      assert after[a] == rows[if a < i then a else a + 1] && after[b] == rows[if b < i then b else b + 1];
    }
  }

  lemma DroppedHasOthers(rows: seq<Memory>, i: nat, no: int)
    requires i < |rows| && HasRow(rows, no) && rows[i].no != no
    ensures HasRow(rows[..i] + rows[i + 1..], no)
  {
    var k :| 0 <= k < |rows| && rows[k].no == no;
    assert (rows[..i] + rows[i + 1..])[if k < i then k else k - 1] == rows[k];
  }

  lemma DroppedIsIndexed(u: Unicode, rows: seq<Memory>, fts: map<int, set<string>>, i: nat)
    requires IsTable(rows) && Indexed(u, rows, fts) && i < |rows|
    ensures IsTable(rows[..i] + rows[i + 1..]) && Indexed(u, rows[..i] + rows[i + 1..], fts - {rows[i].no})
  {
    hide Windows, HasRow;
    DroppedIsTable(rows, i);
    var after, index := rows[..i] + rows[i + 1..], fts - {rows[i].no};
    forall k | 0 <= k < |after| ensures HasTokens(u, index, after[k]) {
      var j := if k < i then k else k + 1;
      assert after[k] == rows[j] && rows[j].no != rows[i].no;
      assert HasTokens(u, fts, rows[j]);
    }
    forall no | no in index ensures HasRow(after, no) {
      DroppedHasOthers(rows, i, no);
    }
  }

  lemma Replaced(fts: map<int, set<string>>, no: int, tokens: set<string>)
    ensures FtsInsert(fts - {no}, no, tokens) == fts[no := tokens]
  {
    assert {} + tokens == tokens;
    assert (fts - {no})[no := tokens] == fts[no := tokens];
  }

  lemma LimitedEnd(out: seq<Memory>, rest: seq<Memory>, limit: int)
    requires limit >= 0 ==> |out| <= limit
    requires rest == [] || (limit >= 0 && |out| >= limit)
    ensures Limited(out + rest, limit) == out
  {
  }
}
