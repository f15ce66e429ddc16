/**
  Search terms with wildcards: when the index still finds all that the pattern finds.
 */
module Wildcards {
  import opened FullText

  predicate IsLetter(c: char) {
    'a' <= c <= 'z'
  }

  /**
    The small ASCII letters are letters and their own lower case, and no lower case has more
    than three characters.
   */
  ghost predicate HasLetters(u: Unicode) {
    && (forall c :: IsLetter(c) ==> u.alnum(c) && u.lower(c) == [c])
    && (forall c :: |u.lower(c)| <= 3)
  }

  /** Two neighbours of the term, neither of them a wildcard. */
  predicate IsPlainPair(term: string, i: nat) {
    i + 1 < |term| && !IsWildcard(term[i]) && !IsWildcard(term[i + 1])
  }

  /** Every token of the term comes from a plain pair of it. */
  ghost predicate IsCovered(u: Unicode, term: string) {
    forall t :: t in Windows(u, term) ==> HasPairFor(u, term, t)
  }

  ghost predicate HasPairFor(u: Unicode, term: string, t: string) {
    exists i: nat :: IsPlainPair(term, i) && t in TokenAt(u, term, i)
  }

  /** The pair stands somewhere in the text, ASCII case aside. */
  predicate PairAt(s: string, q: nat, a: char, b: char) {
    q + 1 < |s| && AsciiFold(s[q]) == AsciiFold(a) && AsciiFold(s[q + 1]) == AsciiFold(b)
  }

  /** Whatever the wildcards stand for, a plain pair of the pattern stands in the text as it is. */
  lemma {:induction false} PlainPairIsFound(s: string, p: string, i: nat) returns (q: nat)
    requires Like(s, p) && IsPlainPair(p, i)
    ensures PairAt(s, q, p[i], p[i + 1])
    decreases |s| + |p|
  {
    if p[0] == '%' {
      if Like(s, p[1..]) {
        q := PlainPairIsFound(s, p[1..], i - 1);
      } else {
        q := PlainPairIsFound(s[1..], p, i);
        q := q + 1;
      }
    } else if i == 0 {
      assert p[1..][0] == p[1] && s[1..] != "" && s[1..][0] == s[1];
      q := 0;
    } else {
      q := PlainPairIsFound(s[1..], p[1..], i - 1);
      q := q + 1;
    }
  }

  lemma PairsHaveEqualTokens(u: Unicode, s: string, q: nat, t: string, i: nat)
    requires Sane(u) && i + 1 < |t| && PairAt(s, q, t[i], t[i + 1])
    ensures TokenAt(u, s, q) == TokenAt(u, t, i)
  {
    FoldAgrees(u, s[q..q + 2], t[i..i + 2]);
  }

  /** The term with every wildcard replaced by the filler. */
  function Filled(term: string, filler: char): (s: string)
    ensures |s| == |term| && forall i :: 0 <= i < |s| ==> s[i] == if IsWildcard(term[i]) then filler else term[i]
  {
    seq(|term|, i requires 0 <= i < |term| => if IsWildcard(term[i]) then filler else term[i])
  }

  lemma {:induction false} FilledMatches(term: string, f: char)
    ensures Like(Filled(term, f) + [f], term + "%")
  {
    var s, p := Filled(term, f) + [f], term + "%";
    if term == "" {
      assert p == "%";
      PercentMatchesAll(s);
    } else {
      FilledMatches(term[1..], f);
      assert s[1..] == Filled(term[1..], f) + [f] && p[1..] == term[1..] + "%";
      if p[0] == '%' {
        assert Like(s[1..], p);
      }
    }
  }

  /** The filled term between two more of the filler: the text with the fewest tokens of the term. */
  function Sample(term: string, f: char): string {
    [f] + (Filled(term, f) + [f])
  }

  lemma SampleMatches(term: string, f: char)
    ensures Like(Sample(term, f), Pattern(term))
  {
    FilledMatches(term, f);
    var s, p := Sample(term, f), Pattern(term);
    assert p == "%" + (term + "%") && p[1..] == term + "%";
    assert s[1..] == Filled(term, f) + [f];
    assert Like(s[1..], p);
  }

  lemma LetterFolds(u: Unicode, f: char)
    requires HasLetters(u) && IsLetter(f)
    ensures FoldChar(u, f) == [f]
  {
    assert u.lower(f) == [f] && [f][1..] == "" && OnlyAlnum(u, "") == "";
  }

  /** A token of the sample comes from a plain pair of the term, or the filler is in it. */
  lemma SampleTokens(u: Unicode, term: string, f: char, t: string)
    requires HasLetters(u) && IsLetter(f) && t in Windows(u, Sample(term, f)) && f !in t
    ensures HasPairFor(u, term, t)
  {
    hide FoldChar, Fold;
    var s := Sample(term, f);
    var i :| 0 <= i < |s| - 1 && t in TokenAt(u, s, i);
    var a, b := s[i], s[i + 1];
    assert s[i..i + 2] == [a, b];
    assert t == FoldChar(u, a) + FoldChar(u, b) by {
      FoldOfTwo(u, a, b);
    }
    LetterFolds(u, f);
    assert f in [f] && forall c :: c in t <==> c in FoldChar(u, a) || c in FoldChar(u, b);
    assert a != f && b != f;
    assert term[i - 1..i + 1] == [a, b];
    assert IsPlainPair(term, i - 1) && t in TokenAt(u, term, i - 1);
  }

  lemma {:induction false} OnlyAlnumIsShorter(u: Unicode, s: string)
    ensures |OnlyAlnum(u, s)| <= |s|
  {
    if s != "" {
      OnlyAlnumIsShorter(u, s[1..]);
    }
  }

  lemma TokensAreShort(u: Unicode, s: string, t: string)
    requires HasLetters(u) && t in Windows(u, s)
    ensures |t| <= 6
  {
    hide FoldChar;
    if |s| == 1 {
      assert s[1..] == "" && Fold(u, s) == FoldChar(u, s[0]) + "";
      FoldCharIsShort(u, s[0]);
    } else if |s| > 1 {
      var i :| 0 <= i < |s| - 1 && t in TokenAt(u, s, i);
      assert s[i..i + 2] == [s[i], s[i + 1]];
      FoldOfTwo(u, s[i], s[i + 1]);
      FoldCharIsShort(u, s[i]);
      FoldCharIsShort(u, s[i + 1]);
    }
  }

  lemma FoldCharIsShort(u: Unicode, c: char)
    requires HasLetters(u)
    ensures |FoldChar(u, c)| <= 3
  {
    OnlyAlnumIsShorter(u, u.lower(c));
  }

  function Letter(r: nat): (c: char)
    requires r < 26
    ensures IsLetter(c)
  {
    ('a' as int + r) as char
  }

  /** Some letter is not in a short text. */
  lemma {:induction false} SomeLetterIsMissing(t: string, k: nat) returns (r: nat)
    requires |t| <= k < 26
    ensures r <= k && Letter(r) !in t
  {
    r := k;
    if Letter(r) in t {
      var i :| 0 <= i < |t| && t[i] == Letter(r);
      var rest := t[..i] + t[i + 1..];
      r := SomeLetterIsMissing(rest, k - 1);
      assert forall c :: c in t ==> c in rest || c == t[i];
    }
  }

  /** A token that no plain pair gives is missing from some text that the pattern finds. */
  lemma UncoveredEscapesTheIndex(u: Unicode, term: string, t: string) returns (text: string)
    requires HasLetters(u) && t in Windows(u, term) && !HasPairFor(u, term, t)
    ensures Like(text, Pattern(term)) && !IndexHit(u, text, term)
  {
    hide Windows, Like, HasPairFor;
    TokensAreShort(u, term, t);
    var r := SomeLetterIsMissing(t, 6);
    var f := Letter(r);
    text := Sample(term, f);
    SampleMatches(term, f);
    if t in Windows(u, text) {
      SampleTokens(u, term, f, t);
    }
  }

  /** A term without wildcards is covered iff it is not a single letter or digit. */
  lemma PlainIsCoveredIffIndexable(u: Unicode, term: string)
    requires IsPlain(term)
    ensures IsCovered(u, term) <==> IsIndexable(u, term)
  {
    hide Fold;
    if |term| >= 2 {
      forall t | t in Windows(u, term) ensures HasPairFor(u, term, t) {
        var i :| 0 <= i < |term| - 1 && t in TokenAt(u, term, i);
        assert IsPlainPair(term, i);
      }
    } else if |term| == 1 && Fold(u, term) != "" {
      assert Fold(u, term) in Windows(u, term) && !HasPairFor(u, term, Fold(u, term));
    } else {
      assert Windows(u, term) == {} by {
        assert Fold(u, term) == "" by {
          NoTextNoToken(u, term);
        }
      }
    }
  }

  lemma NoTextNoToken(u: Unicode, term: string)
    ensures term == "" ==> Fold(u, term) == ""
  {
  }

  lemma CoveredIsIndexed(u: Unicode, text: string, term: string)
    requires Sane(u) && IsCovered(u, term) && Like(text, Pattern(term))
    ensures IndexHit(u, text, term)
  {
    hide Like, TokenAt;
    forall t | t in Windows(u, term) ensures t in Windows(u, text) {
      assert HasPairFor(u, term, t);
      var i: nat :| IsPlainPair(term, i) && t in TokenAt(u, term, i);
      var p := Pattern(term);
      assert p[i + 1] == term[i] && p[i + 2] == term[i + 1];
      var q := PlainPairIsFound(text, p, i + 1);
      PairsHaveEqualTokens(u, text, q, term, i);
    }
  }

  /**
    For any term whatsoever, with wildcards or not: the index misses nothing the pattern
    finds, on any text, iff every token of the term comes from two neighbours of it neither
    of which is a wildcard.
   */
  lemma IndexIsSupersetIffCovered(u: Unicode, term: string)
    requires Sane(u) && HasLetters(u)
    ensures (forall text :: Like(text, Pattern(term)) ==> IndexHit(u, text, term)) <==> IsCovered(u, term)
  {
    hide Like, HasPairFor, Windows, IsWildcard;
    if IsCovered(u, term) {
      forall text | Like(text, Pattern(term)) ensures IndexHit(u, text, term) {
        CoveredIsIndexed(u, text, term);
      }
    } else {
      var t :| t in Windows(u, term) && !HasPairFor(u, term, t);
      var text := UncoveredEscapesTheIndex(u, term, t);
    }
  }

  /** Tables that know ASCII letters only. */
  function AsciiLower(c: char): string {
    [AsciiFold(c)]
  }

  const ASCII_TABLES := Unicode(AsciiLower, IsLetter, c => c == ' ')

  lemma AsciiFolds(c: char)
    ensures FoldChar(ASCII_TABLES, c) == if IsLetter(AsciiFold(c)) then [AsciiFold(c)] else ""
  {
    var u, s := ASCII_TABLES, AsciiLower(c);
    assert u.lower(c) == s && u.alnum(s[0]) == IsLetter(s[0]);
    assert s[1..] == "" && OnlyAlnum(u, "") == "";
    assert OnlyAlnum(u, s) == (if u.alnum(s[0]) then [s[0]] else "") + OnlyAlnum(u, s[1..]);
  }

  lemma PairToken(s: string, i: nat)
    requires i + 1 < |s|
    ensures TokenAt(ASCII_TABLES, s, i)
            == var f := FoldChar(ASCII_TABLES, s[i]) + FoldChar(ASCII_TABLES, s[i + 1]); if f == "" then {} else {f}
  {
    assert s[i..i + 2] == [s[i], s[i + 1]];
    FoldOfTwo(ASCII_TABLES, s[i], s[i + 1]);
  }

  lemma WildcardMatches()
    ensures Like("axb", Pattern("a%b"))
  {
    var p := Pattern("a%b");
    assert p == "%a%b%" && p[1..] == "a%b%" && p[2..] == "%b%" && p[3..] == "b%" && p[4..] == "%";
    assert "axb"[1..] == "xb" && "xb"[1..] == "b" && "b"[1..] == "";
    assert "a%b%"[1..] == "%b%" && "%b%"[1..] == "b%" && "b%"[1..] == "%";
    PercentMatchesAll("");
    assert Like("b", "b%");
    assert Like("b", "%b%");
    assert Like("xb", "%b%");
    assert Like("axb", "a%b%");
  }

  /** With a wildcard the index can miss what the pattern finds. */
  lemma WildcardsEscapeTheIndex()
    ensures Sane(ASCII_TABLES) && HasLetters(ASCII_TABLES)
    ensures Like("axb", Pattern("a%b")) && !IndexHit(ASCII_TABLES, "axb", "a%b")
  {
    hide FoldChar, Like, TokenAt;
    WildcardMatches();
    var term, text := "a%b", "axb";
    AsciiFolds('a');
    AsciiFolds('%');
    AsciiFolds('x');
    AsciiFolds('b');
    PairToken(term, 0);
    PairToken(text, 0);
    PairToken(text, 1);
    assert AsciiFold('%') == '%' && FoldChar(ASCII_TABLES, '%') == "";
    assert FoldChar(ASCII_TABLES, 'a') == "a" && "a" + "" == "a";
    assert "a" in TokenAt(ASCII_TABLES, term, 0);
    assert "a" in Windows(ASCII_TABLES, term);
    assert "a" !in TokenAt(ASCII_TABLES, text, 0) && "a" !in TokenAt(ASCII_TABLES, text, 1);
  }

  // ----- What the wildcards stand for -----

  const CAPITALS := "ABCDEFGHIJKLMNOPQRSTUVWXYZ"
  const SMALL := "abcdefghijklmnopqrstuvwxyz"

  /** Case is folded for the 26 ASCII letters and no others. */
  lemma OnlyAsciiCaseFolds(c: char, i: nat)
    ensures |CAPITALS| == |SMALL| == 26
    ensures i < 26 ==> AsciiFold(CAPITALS[i]) == SMALL[i]
    ensures c !in CAPITALS ==> AsciiFold(c) == c
  {
    CapitalsAre();
    SmallAre();
    if 'A' <= c <= 'Z' {
      assert CAPITALS[c as int - 65] == c;
    }
  }

  lemma CapitalsAre()
    ensures |CAPITALS| == 26 && forall i :: 0 <= i < 26 ==> CAPITALS[i] as int == 65 + i
  {
  }

  lemma SmallAre()
    ensures |SMALL| == 26 && forall i :: 0 <= i < 26 ==> SMALL[i] as int == 97 + i
  {
  }

  /** The characters agree, or the pattern's is an underscore. */
  predicate Agrees(c: char, p: char) {
    p == '_' || AsciiFold(c) == AsciiFold(p)
  }

  /** Without percent signs a pattern takes just one character for each of its own. */
  lemma {:induction false} UnderscoreIsOne(s: string, p: string)
    requires forall i :: 0 <= i < |p| ==> p[i] != '%'
    ensures Like(s, p) <==> |s| == |p| && forall i :: 0 <= i < |p| ==> Agrees(s[i], p[i])
  {
    if p != "" && s != "" {
      UnderscoreIsOne(s[1..], p[1..]);
      if Like(s[1..], p[1..]) && Agrees(s[0], p[0]) {
        forall i | 0 <= i < |p| ensures Agrees(s[i], p[i]) {
          assert i > 0 ==> Agrees(s[1..][i - 1], p[1..][i - 1]);
        }
      }
      if |s| == |p| && forall i :: 0 <= i < |p| ==> Agrees(s[i], p[i]) {
        assert Agrees(s[0], p[0]);
        forall i | 0 <= i < |p| - 1 ensures Agrees(s[1..][i], p[1..][i]) {
          assert Agrees(s[i + 1], p[i + 1]);
        }
      }
    }
  }

  /** A percent sign in front takes any beginning of the text, the empty one included. */
  lemma {:induction false} PercentIsAny(s: string, p: string)
    ensures Like(s, "%" + p) <==> exists k :: 0 <= k <= |s| && Like(s[k..], p)
    decreases |s|
  {
    assert ("%" + p)[1..] == p && s[0..] == s;
    if s != "" {
      PercentIsAny(s[1..], p);
      if exists k :: 0 <= k <= |s[1..]| && Like(s[1..][k..], p) {
        var k :| 0 <= k <= |s[1..]| && Like(s[1..][k..], p);
        assert s[k + 1..] == s[1..][k..];
      }
      if exists k :: 0 <= k <= |s| && Like(s[k..], p) {
        var k :| 0 <= k <= |s| && Like(s[k..], p);
        assert k > 0 ==> s[1..][k - 1..] == s[k..];
      }
    }
  }
}
