/**
  The encoding of texts and query terms for the full-text index, and its relation to the
  pattern match it stands in for. Unicode tables are a parameter; all that is asked of them
  is that the two cases of an ASCII letter have the same lower case, and that a space is
  neither letter nor digit.
 */
module FullText {
  import opened Basics
  import opened Sorting
  import opened Wording

  datatype Unicode = Unicode(lower: char -> string, alnum: char -> bool, space: char -> bool)

  function AsciiFold(c: char): char {
    if 'A' <= c <= 'Z' then (c as int + 32) as char else c
  }

  ghost predicate Sane(u: Unicode) {
    && (forall a, b :: AsciiFold(a) == AsciiFold(b) ==> u.lower(a) == u.lower(b))
    && !u.alnum(' ')
  }

  // ----- Windows -----

  function OnlyAlnum(u: Unicode, s: string): string {
    if s == "" then "" else (if u.alnum(s[0]) then [s[0]] else "") + OnlyAlnum(u, s[1..])
  }

  function FoldChar(u: Unicode, c: char): string {
    OnlyAlnum(u, u.lower(c))
  }

  /** Lower case, letters and digits only. */
  function Fold(u: Unicode, w: string): string {
    if w == "" then "" else FoldChar(u, w[0]) + Fold(u, w[1..])
  }

  function Token(u: Unicode, w: string): set<string> {
    if Fold(u, w) == "" then {} else {Fold(u, w)}
  }

  function TokenAt(u: Unicode, s: string, i: nat): set<string>
    requires i + 1 < |s|
  {
    Token(u, s[i..i + 2])
  }

  /** The tokens of a text: its pairs of neighbours, folded; a single character stands for itself. */
  function Windows(u: Unicode, s: string): set<string> {
    if |s| < 2 then Token(u, s) else set i, t | 0 <= i < |s| - 1 && t in TokenAt(u, s, i) :: t
  }

  /** The same as a list, in the order of the text. */
  function WindowList(u: Unicode, s: string): seq<string> {
    if |s| < 2 then Listed(Fold(u, s)) else WindowsTo(u, s, |s| - 1)
  }

  function WindowsTo(u: Unicode, s: string, n: nat): seq<string>
    requires n < |s|
  {
    if n == 0 then [] else WindowsTo(u, s, n - 1) + Listed(Fold(u, s[n - 1..n + 1]))
  }

  function Listed(t: string): seq<string> {
    if t == "" then [] else [t]
  }

  lemma {:induction false} WindowsToHold(u: Unicode, s: string, n: nat, t: string)
    requires n < |s|
    ensures t in WindowsTo(u, s, n) <==> exists i :: 0 <= i < n && t in TokenAt(u, s, i)
  {
    hide Fold;
    if n > 0 {
      WindowsToHold(u, s, n - 1, t);
      assert t in Listed(Fold(u, s[n - 1..n + 1])) <==> t in TokenAt(u, s, n - 1);
    }
  }

  lemma WindowListHolds(u: Unicode, s: string, t: string)
    ensures t in WindowList(u, s) <==> t in Windows(u, s)
  {
    hide Fold;
    if |s| >= 2 {
      WindowsToHold(u, s, |s| - 1, t);
    }
  }

  /** Every pair of neighbours that holds a letter or digit gives a token, as does a single character alone. */
  lemma PairsAreTokens(u: Unicode, s: string, i: nat)
    requires i < |s|
    ensures i + 1 < |s| && Fold(u, [s[i], s[i + 1]]) != "" ==> Fold(u, [s[i], s[i + 1]]) in Windows(u, s)
    ensures |s| == 1 && Fold(u, [s[i]]) != "" ==> Fold(u, [s[i]]) in Windows(u, s)
  {
    hide Fold;
    if i + 1 < |s| && Fold(u, [s[i], s[i + 1]]) != "" {
      assert s[i..i + 2] == [s[i], s[i + 1]];
      assert Fold(u, s[i..i + 2]) in TokenAt(u, s, i);
    } else if |s| == 1 {
      assert s == [s[0]];
    }
  }

  /** And every token comes from such. */
  lemma TokensArePairs(u: Unicode, s: string, t: string) returns (i: nat)
    requires t in Windows(u, s)
    ensures t != "" && i < |s|
    ensures t == if |s| == 1 then Fold(u, [s[0]]) else if i + 1 < |s| then Fold(u, [s[i], s[i + 1]]) else ""
  {
    hide Fold;
    if |s| < 2 {
      NothingFolds(u);
      i := 0;
      assert |s| == 1 ==> s == [s[0]];
    } else {
      i :| 0 <= i < |s| - 1 && t in TokenAt(u, s, i);
      assert s[i..i + 2] == [s[i], s[i + 1]];
    }
  }

  lemma NothingFolds(u: Unicode)
    ensures Fold(u, "") == ""
  {
  }

  /** Folding goes character by character, and keeps of each lower case its letters and digits in order. */
  lemma {:induction false} FoldJoins(u: Unicode, v: string, w: string)
    ensures Fold(u, v + w) == Fold(u, v) + Fold(u, w)
  {
    if v == "" {
      assert v + w == w;
    } else {
      FoldJoins(u, v[1..], w);
      assert (v + w)[1..] == v[1..] + w;
      Assoc(FoldChar(u, v[0]), Fold(u, v[1..]), Fold(u, w));
    }
  }

  lemma OneFolds(u: Unicode, c: char)
    requires forall i :: 0 <= i < |u.lower(c)| ==> u.alnum(u.lower(c)[i])
    ensures Fold(u, [c]) == u.lower(c)
  {
    assert [c][1..] == "";
    AllAlnum(u, u.lower(c));
  }

  lemma {:induction false} AllAlnum(u: Unicode, s: string)
    requires forall i :: 0 <= i < |s| ==> u.alnum(s[i])
    ensures OnlyAlnum(u, s) == s
  {
    if s != "" {
      AllAlnum(u, s[1..]);
    }
  }

  lemma {:induction false} FoldIsSolid(u: Unicode, w: string)
    ensures IsSolid(Fold(u, w), Gaps(u))
  {
    if w != "" {
      FoldIsSolid(u, w[1..]);
      AlnumIsSolid(u, u.lower(w[0]));
    }
  }

  lemma {:induction false} AlnumIsSolid(u: Unicode, s: string)
    ensures IsSolid(OnlyAlnum(u, s), Gaps(u))
  {
    if s != "" {
      AlnumIsSolid(u, s[1..]);
    }
  }

  lemma WindowsAreSolid(u: Unicode, s: string, t: string)
    requires t in Windows(u, s)
    ensures t != "" && IsSolid(t, Gaps(u))
  {
    hide Fold, IsSolid;
    if |s| < 2 {
      FoldIsSolid(u, s);
    } else {
      var i :| 0 <= i < |s| - 1 && t in TokenAt(u, s, i);
      FoldIsSolid(u, s[i..i + 2]);
    }
  }

  /** What the index splits a stored text at. */
  function Gaps(u: Unicode): Spaces {
    c => !u.alnum(c)
  }

  /** The tokens the index finds in a stored text. */
  function TokensIn(u: Unicode, doc: string): set<string> {
    SetOf(Words(doc, Gaps(u)))
  }

  /** The text to be stored: the tokens in order, each once, a space apart. The index finds just these. */
  method EncodeDoc(u: Unicode, text: string) returns (doc: string)
    requires Sane(u)
    ensures doc == Join(SortDedup(WindowList(u, text)), " ")
    ensures TokensIn(u, doc) == Windows(u, text)
  {
    var tokens := WindowList(u, text);
    tokens := SortDedup(tokens);
    doc := Join(tokens, " ");
    StoredTokens(u, text);
  }

  lemma StoredTokens(u: Unicode, text: string)
    requires Sane(u)
    ensures TokensIn(u, Join(SortDedup(WindowList(u, text)), " ")) == Windows(u, text)
  {
    hide Windows, WindowList, Words, Join, IsSolid;
    var tokens := SortDedup(WindowList(u, text));
    SortDedupSorts(WindowList(u, text));
    forall t ensures t in tokens <==> t in Windows(u, text) {
      WindowListHolds(u, text, t);
    }
    forall i | 0 <= i < |tokens| ensures tokens[i] != "" && IsSolid(tokens[i], Gaps(u)) {
      assert tokens[i] in tokens;
      WindowsAreSolid(u, text, tokens[i]);
    }
    WordsOfJoined(tokens, Gaps(u));
  }

  /** The tokens of a term, all of which a row must have; None if it has none. */
  function TermExpr(u: Unicode, term: string): Option<seq<string>> {
    var tokens := SortDedup(WindowList(u, term));
    if tokens == [] then None else Some(tokens)
  }

  lemma TermExprHolds(u: Unicode, term: string)
    ensures TermExpr(u, term) == None <==> Windows(u, term) == {}
    ensures TermExpr(u, term).Some? ==> SetOf(TermExpr(u, term).value) == Windows(u, term)
  {
    hide Windows, WindowList;
    var tokens := SortDedup(WindowList(u, term));
    SortDedupSorts(WindowList(u, term));
    forall t ensures t in tokens <==> t in Windows(u, term) {
      WindowListHolds(u, term, t);
    }
    assert SetOf(tokens) == Windows(u, term);
    if tokens != [] {
      assert tokens[0] in tokens;
    }
  }

  /** One list of tokens per term, any of which may match; None as soon as a term has none. */
  method MatchExpr(u: Unicode, terms: seq<string>) returns (expr: Option<seq<seq<string>>>)
    ensures expr == None <==> terms == [] || exists k :: 0 <= k < |terms| && Windows(u, terms[k]) == {}
    ensures expr.Some? ==> |expr.value| == |terms|
    ensures expr.Some? ==> forall k :: 0 <= k < |terms| ==> SetOf(expr.value[k]) == Windows(u, terms[k])
  {
    hide Windows, TermExpr, SetOf;
    if terms == [] {
      return None;
    }
    var parts := [];
    for i := 0 to |terms|
      invariant |parts| == i
      invariant forall k :: 0 <= k < i ==> Windows(u, terms[k]) != {} && SetOf(parts[k]) == Windows(u, terms[k])
    {
      TermExprHolds(u, terms[i]);
      var part := TermExpr(u, terms[i]);
      if part == None {
        return None;
      }
      parts := parts + [part.value];
    }
    return Some(parts);
  }

  // ----- Pattern matching, as the database does it -----

  /** Case matters except for ASCII letters; `%` stands for any text and `_` for any character. */
  predicate Like(s: string, p: string)
    decreases |s| + |p|
  {
    if p == "" then s == ""
    else if p[0] == '%' then Like(s, p[1..]) || (s != "" && Like(s[1..], p))
    else s != "" && (p[0] == '_' || AsciiFold(s[0]) == AsciiFold(p[0])) && Like(s[1..], p[1..])
  }

  function Pattern(term: string): string {
    "%" + term + "%"
  }

  predicate IsWildcard(c: char) {
    c == '%' || c == '_'
  }

  predicate IsPlain(term: string) {
    forall i :: 0 <= i < |term| ==> !IsWildcard(term[i])
  }

  predicate OccursAt(s: string, t: string, p: nat) {
    p + |t| <= |s| && forall i :: 0 <= i < |t| ==> AsciiFold(s[p + i]) == AsciiFold(t[i])
  }

  predicate Occurs(s: string, t: string) {
    exists p :: 0 <= p <= |s| && OccursAt(s, t, p)
  }

  lemma {:induction false} PercentMatchesAll(s: string)
    ensures Like(s, "%")
  {
    if s != "" {
      PercentMatchesAll(s[1..]);
    }
  }

  lemma {:induction false} LikePrefix(s: string, t: string)
    requires IsPlain(t)
    ensures Like(s, t + "%") <==> OccursAt(s, t, 0)
  {
    if t == "" {
      assert t + "%" == "%";
      PercentMatchesAll(s);
    } else {
      assert (t + "%")[1..] == t[1..] + "%";
      if s != "" {
        LikePrefix(s[1..], t[1..]);
        OccursTail(s, t);
      }
    }
  }

  lemma OccursTail(s: string, t: string)
    requires s != "" && t != ""
    ensures OccursAt(s, t, 0) <==> AsciiFold(s[0]) == AsciiFold(t[0]) && OccursAt(s[1..], t[1..], 0)
  {
    if AsciiFold(s[0]) == AsciiFold(t[0]) && OccursAt(s[1..], t[1..], 0) {
      forall i | 0 <= i < |t| ensures AsciiFold(s[0 + i]) == AsciiFold(t[i]) {
        if i > 0 {
          assert AsciiFold(s[1..][0 + (i - 1)]) == AsciiFold(t[1..][i - 1]);
        }
      }
    }
    if OccursAt(s, t, 0) {
      forall i | 0 <= i < |t| - 1 ensures AsciiFold(s[1..][0 + i]) == AsciiFold(t[1..][i]) {
        assert AsciiFold(s[0 + (i + 1)]) == AsciiFold(t[i + 1]);
      }
    }
  }

  lemma OccursLater(s: string, t: string)
    ensures Occurs(s, t) <==> OccursAt(s, t, 0) || (s != "" && Occurs(s[1..], t))
  {
    if Occurs(s, t) && !OccursAt(s, t, 0) {
      var p :| 0 <= p <= |s| && OccursAt(s, t, p);
      assert OccursAt(s[1..], t, p - 1);
    }
    if s != "" && Occurs(s[1..], t) {
      var p :| 0 <= p <= |s[1..]| && OccursAt(s[1..], t, p);
      assert OccursAt(s, t, p + 1);
    }
  }

  /** For a term without wildcards the pattern match is a substring search. */
  lemma {:induction false} LikeIsOccurs(s: string, t: string)
    requires IsPlain(t)
    ensures Like(s, Pattern(t)) <==> Occurs(s, t)
  {
    var p := Pattern(t);
    assert p[0] == '%' && p[1..] == t + "%";
    LikePrefix(s, t);
    OccursLater(s, t);
    if s != "" {
      LikeIsOccurs(s[1..], t);
    }
  }

  // ----- The index finds all the pattern finds -----

  lemma {:induction false} FoldAgrees(u: Unicode, v: string, w: string)
    requires Sane(u) && |v| == |w|
    requires forall i :: 0 <= i < |v| ==> AsciiFold(v[i]) == AsciiFold(w[i])
    ensures Fold(u, v) == Fold(u, w)
  {
    if v != "" {
      assert AsciiFold(v[0]) == AsciiFold(w[0]);
      FoldAgrees(u, v[1..], w[1..]);
    }
  }

  predicate IndexHit(u: Unicode, text: string, term: string) {
    Windows(u, term) <= Windows(u, text)
  }

  lemma OccurrenceIsIndexed(u: Unicode, text: string, term: string)
    requires Sane(u) && |term| >= 2 && Occurs(text, term)
    ensures IndexHit(u, text, term)
  {
    var p :| 0 <= p <= |text| && OccursAt(text, term, p);
    forall t | t in Windows(u, term) ensures t in Windows(u, text) {
      var i :| 0 <= i < |term| - 1 && t in TokenAt(u, term, i);
      var v, w := text[p + i..p + i + 2], term[i..i + 2];
      assert AsciiFold(text[p + i]) == AsciiFold(term[i]) && AsciiFold(text[p + (i + 1)]) == AsciiFold(term[i + 1]);
      FoldAgrees(u, v, w);
      assert t in TokenAt(u, text, p + i);
    }
  }

  lemma FoldOfTwo(u: Unicode, a: char, b: char)
    ensures Fold(u, [a, b]) == FoldChar(u, a) + FoldChar(u, b)
  {
    assert [a, b][1..] == [b] && [b][1..] == "";
    assert Fold(u, [b]) == FoldChar(u, b) + "";
  }

  /** What the index needs of a term: two characters or more, or nothing to index. */
  predicate IsIndexable(u: Unicode, term: string) {
    |term| != 1 || Fold(u, term) == ""
  }

  lemma FoldTwice(u: Unicode, w: string)
    requires |w| == 1
    ensures Fold(u, w + w) == Fold(u, w) + Fold(u, w)
  {
    assert (w + w)[1..] == w;
    assert w[1..] == "";
    assert Fold(u, w) == FoldChar(u, w[0]) + "";
  }

  /** A single letter is found in its double by the pattern and not by the index. */
  lemma LetterEscapesTheIndex(u: Unicode, term: string)
    requires Sane(u) && IsPlain(term) && !IsIndexable(u, term)
    ensures Like(term + term, Pattern(term)) && !IndexHit(u, term + term, term)
  {
    var twice := term + term;
    assert OccursAt(twice, term, 0);
    LikeIsOccurs(twice, term);
    FoldTwice(u, term);
    assert twice[0..2] == twice && TokenAt(u, twice, 0) == {Fold(u, twice)};
    assert Windows(u, twice) == {Fold(u, twice)};
    assert Fold(u, term) in Windows(u, term);
  }

  /**
    The index is a superset of the pattern match on every text iff the term is not a single
    letter or digit: `a` is not among the tokens of `aa`.
   */
  lemma IndexIsSupersetIffIndexable(u: Unicode, term: string)
    requires Sane(u) && IsPlain(term)
    ensures (forall text :: Like(text, Pattern(term)) ==> IndexHit(u, text, term)) <==> IsIndexable(u, term)
  {
    if IsIndexable(u, term) {
      forall text | Like(text, Pattern(term)) ensures IndexHit(u, text, term) {
        LikeIsOccurs(text, term);
        if |term| >= 2 {
          OccurrenceIsIndexed(u, text, term);
        } else {
          assert Windows(u, term) == {};
        }
      }
    } else {
      LetterEscapesTheIndex(u, term);
    }
  }
}
