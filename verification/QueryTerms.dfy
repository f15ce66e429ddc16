/**
  Cutting a message into query terms: the runs between separators, and within the longer
  runs all pairs of neighbours.
 */
module QueryTerms {
  import opened Basics
  import opened FullText
  import opened MemoryIndex
  import opened Sorting
  import opened Wildcards

  predicate IsAsciiPunctuation(c: char) {
    '!' <= c <= '/' || ':' <= c <= '@' || '[' <= c <= '`' || '{' <= c <= '~'
  }

  predicate IsSeparator(u: Unicode, c: char) {
    u.space(c) || IsAsciiPunctuation(c)
  }

  const ASCII_PUNCTUATION := "!\"#$%&'()*+,-./:;<=>?@[\\]^_`{|}~"

  /** What parts two terms: white space, and the 32 ASCII punctuation characters. */
  lemma SeparatorsAre(u: Unicode, c: char)
    ensures IsSeparator(u, c) <==> u.space(c) || c in ASCII_PUNCTUATION
    ensures |ASCII_PUNCTUATION| == 32
  {
    var p := ASCII_PUNCTUATION;
    assert forall i :: 0 <= i < 15 ==> p[i] as int == 33 + i;
    assert forall i :: 15 <= i < 22 ==> p[i] as int == 58 + i - 15;
    assert forall i :: 22 <= i < 28 ==> p[i] as int == 91 + i - 22;
    assert forall i :: 28 <= i < 32 ==> p[i] as int == 123 + i - 28;
    if '!' <= c <= '/' {
      assert p[c as int - 33] == c;
    } else if ':' <= c <= '@' {
      assert p[c as int - 58 + 15] == c;
    } else if '[' <= c <= '`' {
      assert p[c as int - 91 + 22] == c;
    } else if '{' <= c <= '~' {
      assert p[c as int - 123 + 28] == c;
    }
  }

  predicate IsRun(u: Unicode, msg: string, a: nat, b: nat)
    requires a <= b <= |msg|
  {
    forall i :: a <= i < b ==> !IsSeparator(u, msg[i])
  }

  /** Nothing but separators, or the ends of the message, around it. */
  predicate IsWhole(u: Unicode, msg: string, a: nat, b: nat)
    requires a <= b <= |msg|
  {
    (a == 0 || IsSeparator(u, msg[a - 1])) && (b == |msg| || IsSeparator(u, msg[b]))
  }

  /** A term is a pair of neighbours or a whole run of two characters or more. */
  predicate IsTerm(u: Unicode, msg: string, a: nat, b: nat) {
    a + 2 <= b <= |msg| && IsRun(u, msg, a, b) && (b == a + 2 || IsWhole(u, msg, a, b))
  }

  function Pair(msg: string, a: nat): string
    requires a + 2 <= |msg|
  {
    msg[a..a + 2]
  }

  ghost predicate ComesFrom(u: Unicode, msg: string, t: string) {
    exists a, b :: 0 <= a <= b <= |msg| && IsTerm(u, msg, a, b) && t == msg[a..b]
  }

  ghost predicate Collected(u: Unicode, msg: string, upTo: nat, terms: seq<string>) {
    forall a, b :: 0 <= a <= b <= |msg| && b <= upTo && IsTerm(u, msg, a, b) ==> msg[a..b] in terms
  }

  ghost predicate AllComeFrom(u: Unicode, msg: string, terms: seq<string>) {
    forall k :: 0 <= k < |terms| ==> ComesFrom(u, msg, terms[k])
  }

  method RunEnd(u: Unicode, msg: string, start: nat) returns (end: nat)
    requires start <= |msg|
    ensures start <= end <= |msg| && IsRun(u, msg, start, end)
    ensures end == |msg| || IsSeparator(u, msg[end])
  {
    end := start;
    while end < |msg| && !IsSeparator(u, msg[end])
      invariant start <= end <= |msg| && IsRun(u, msg, start, end)
    {
      end := end + 1;
    }
  }

  /** The terms of one run of the message. */
  method TermsOfRun(u: Unicode, msg: string, start: nat, end: nat, before: seq<string>) returns (terms: seq<string>)
    requires start <= end <= |msg| && IsRun(u, msg, start, end) && IsWhole(u, msg, start, end)
    requires AllComeFrom(u, msg, before)
    ensures AllComeFrom(u, msg, terms) && before <= terms
    ensures forall a, b :: start <= a <= b <= end && IsTerm(u, msg, a, b) ==> msg[a..b] in terms
  {
    terms := before;
    if end - start < 2 {
      return;
    }
    terms := terms + [msg[start..end]];
    assert IsTerm(u, msg, start, end);
    assert ComesFrom(u, msg, msg[start..end]);
    if end - start > 2 {
      for i := start to end - 1
        invariant AllComeFrom(u, msg, terms) && before <= terms && msg[start..end] in terms
        invariant forall a :: start <= a < i ==> Pair(msg, a) in terms
      {
        assert IsTerm(u, msg, i, i + 2);
        assert ComesFrom(u, msg, msg[i..i + 2]);
        terms := terms + [Pair(msg, i)];
      }
    }
    forall a, b | start <= a <= b <= end && IsTerm(u, msg, a, b) ensures msg[a..b] in terms {
      if b == a + 2 {
        assert Pair(msg, a) in terms || (a == start && b == end);
      } else {
        WholeIsAll(u, msg, start, end, a, b);
      }
    }
  }

  lemma WholeIsAll(u: Unicode, msg: string, start: nat, end: nat, a: nat, b: nat)
    requires start <= a <= b <= end <= |msg| && IsRun(u, msg, start, end) && a < b && IsWhole(u, msg, a, b)
    ensures a == start && b == end
  {
  }

  /** Exactly the pairs of neighbours and the whole runs, in order and each once. */
  method Tokenize(u: Unicode, msg: string) returns (terms: seq<string>)
    ensures IsSorted(terms)
    ensures forall t :: t in terms <==> ComesFrom(u, msg, t)
  {
    terms := [];
    var start := 0;
    while start <= |msg|
      invariant 0 <= start <= |msg| + 1
      invariant start == 0 || start == |msg| + 1 || IsSeparator(u, msg[start - 1])
      invariant AllComeFrom(u, msg, terms)
      invariant Collected(u, msg, start, terms)
    {
      var end := RunEnd(u, msg, start);
      var more := TermsOfRun(u, msg, start, end, terms);
      RunsAreApart(u, msg, start, end, terms, more);
      terms := more;
      start := end + 1;
    }
    SortDedupSorts(terms);
    TermsAreCollected(u, msg, terms);
    terms := SortDedup(terms);
  }

  lemma TermsAreCollected(u: Unicode, msg: string, terms: seq<string>)
    requires AllComeFrom(u, msg, terms) && Collected(u, msg, |msg| + 1, terms)
    ensures forall t :: t in terms <==> ComesFrom(u, msg, t)
  {
    forall t ensures t in terms <==> ComesFrom(u, msg, t) {
      if t in terms {
        var k :| 0 <= k < |terms| && terms[k] == t;
        assert ComesFrom(u, msg, terms[k]);
      }
    }
  }

  /** No term reaches across a separator. */
  lemma RunsAreApart(u: Unicode, msg: string, start: nat, end: nat, terms: seq<string>, more: seq<string>)
    requires start <= end <= |msg| && (start == 0 || IsSeparator(u, msg[start - 1]))
             && (end == |msg| || IsSeparator(u, msg[end]))
    requires Collected(u, msg, start, terms) && terms <= more
    requires forall a, b :: start <= a <= b <= end && IsTerm(u, msg, a, b) ==> msg[a..b] in more
    ensures Collected(u, msg, end + 1, more)
  {
    forall a, b | 0 <= a <= b <= |msg| && b <= end + 1 && IsTerm(u, msg, a, b) ensures msg[a..b] in more {
      assert a >= start || b <= start;
      assert b <= end || a > end;
    }
  }

  /** The terms of any message can be searched for in the index without missing a row. */
  lemma TermsAreSearchable(u: Unicode, msg: string, terms: seq<string>)
    requires forall t :: t in terms <==> ComesFrom(u, msg, t)
    ensures AllSearchable(u, terms)
  {
    hide IsCovered;
    forall k | 0 <= k < |terms| ensures IsCovered(u, terms[k]) {
      assert terms[k] in terms;
      var a, b :| 0 <= a <= b <= |msg| && IsTerm(u, msg, a, b) && terms[k] == msg[a..b];
      forall i | 0 <= i < |terms[k]| ensures terms[k][i] != '%' && terms[k][i] != '_' {
        assert !IsSeparator(u, msg[a + i]);
      }
      PlainIsCoveredIffIndexable(u, terms[k]);
    }
  }

  /** A message searched for through the index finds what a full scan for its terms finds. */
  method SearchMessage(store: MemoryStore, msg: string, tier: Option<Tier>, limit: int)
    returns (terms: seq<string>, out: seq<Memory>)
    requires store.Valid()
    ensures forall t :: t in terms <==> ComesFrom(store.u, msg, t)
    ensures out == Limited(Candidates(store.rows, terms, tier), limit)
  {
    terms := Tokenize(store.u, msg);
    TermsAreSearchable(store.u, msg, terms);
    out := store.SearchCandidates(terms, tier, limit);
  }
}
