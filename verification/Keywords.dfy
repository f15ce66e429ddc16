/**
  Storing a list of keywords in one column, separated by line ends, and reading it back.
  White space is a parameter; all that is asked of it is that the plain space and the line
  end are white space.
 */
module Keywords {
  import opened Basics
  import opened Wording

  ghost predicate Sane(space: Spaces) {
    space(' ') && space('\n')
  }

  /** A keyword with its words one space apart. */
  function Normal(k: string, space: Spaces): string {
    Join(Words(k, space), " ")
  }

  /** The keywords that are stored: normalized, and not empty. */
  function Kept(ks: seq<string>, space: Spaces): seq<string> {
    if ks == [] then [] else Kept(ks[..|ks| - 1], space) + NonEmpty(Normal(ks[|ks| - 1], space))
  }

  function NonEmpty(s: string): seq<string> {
    if s == "" then [] else [s]
  }

  // ----- Reading back -----

  /** The pieces between line ends; one piece more than there are line ends. */
  function Split(s: string): seq<string> {
    if s == "" then [""]
    else
      var rest := Split(s[..|s| - 1]);
      if s[|s| - 1] == '\n' then rest + [""]
      else if rest == [] then [[s[|s| - 1]]]
      else rest[..|rest| - 1] + [rest[|rest| - 1] + [s[|s| - 1]]]
  }

  function Trimmed(parts: seq<string>, space: Spaces): seq<string> {
    if parts == [] then [] else Trimmed(parts[..|parts| - 1], space) + NonEmpty(Trim(parts[|parts| - 1], space))
  }

  function Decode(column: string, space: Spaces): seq<string> {
    Trimmed(Split(column), space)
  }

  function Encode(ks: seq<string>, space: Spaces): string {
    Join(Kept(ks, space), "\n")
  }

  // ----- A normalized keyword is one clean line -----

  /** No line end in it, and no white space at its ends. */
  predicate IsClean(s: string, space: Spaces) {
    && (forall i :: 0 <= i < |s| ==> s[i] != '\n')
    && (s != "" ==> !space(s[0]) && !space(s[|s| - 1]))
  }

  lemma {:induction false} JoinedWordsAreClean(ws: seq<string>, space: Spaces)
    requires Sane(space) && AreWords(ws, space)
    ensures IsClean(Join(ws, " "), space)
    ensures ws != [] ==> Join(ws, " ") != ""
  {
    if |ws| > 1 {
      JoinedWordsAreClean(ws[..|ws| - 1], space);
      var last := ws[|ws| - 1];
      assert !space(last[|last| - 1]);
      forall i | 0 <= i < |last| ensures last[i] != '\n' {
        assert !space(last[i]);
      }
    } else if |ws| == 1 {
      forall i | 0 <= i < |ws[0]| ensures ws[0][i] != '\n' {
        assert !space(ws[0][i]);
      }
    }
  }

  lemma NormalIsClean(k: string, space: Spaces)
    requires Sane(space)
    ensures IsClean(Normal(k, space), space)
  {
    WordsAreWords(k, space);
    JoinedWordsAreClean(Words(k, space), space);
  }

  // ----- The round trip -----

  predicate AreCleanLines(ks: seq<string>, space: Spaces) {
    forall i :: 0 <= i < |ks| ==> ks[i] != "" && IsClean(ks[i], space)
  }

  lemma {:induction false} KeptIsClean(ks: seq<string>, space: Spaces)
    requires Sane(space)
    ensures AreCleanLines(Kept(ks, space), space)
  {
    if ks != [] {
      KeptIsClean(ks[..|ks| - 1], space);
      NormalIsClean(ks[|ks| - 1], space);
    }
  }

  lemma {:induction false} SplitAppends(s: string, line: string)
    requires forall i :: 0 <= i < |line| ==> line[i] != '\n'
    ensures Split(s) != []
    ensures Split(s + line) == Split(s)[..|Split(s)| - 1] + [Split(s)[|Split(s)| - 1] + line]
  {
    SplitIsNonEmpty(s);
    if line == "" {
      assert s + line == s;
      assert Split(s)[|Split(s)| - 1] + line == Split(s)[|Split(s)| - 1];
    } else {
      var init, c := line[..|line| - 1], line[|line| - 1];
      SplitAppends(s, init);
      assert (s + line)[..|s + line| - 1] == s + init && (s + line)[|s + line| - 1] == c;
      var parts := Split(s);
      assert parts[|parts| - 1] + init + [c] == parts[|parts| - 1] + line;
    }
  }

  lemma {:induction false} SplitIsNonEmpty(s: string)
    ensures Split(s) != []
  {
  }

  lemma SplitNextLine(s: string, line: string)
    requires forall i :: 0 <= i < |line| ==> line[i] != '\n'
    ensures Split(s + "\n" + line) == Split(s) + [line]
  {
    var t := s + "\n";
    assert t[..|t| - 1] == s;
    assert Split(t) == Split(s) + [""];
    SplitAppends(t, line);
    assert "" + line == line;
  }

  lemma {:induction false} SplitInvertsJoin(ks: seq<string>, space: Spaces)
    requires AreCleanLines(ks, space)
    ensures Split(Join(ks, "\n")) == if ks == [] then [""] else ks
  {
    hide Split;
    if |ks| == 1 {
      SplitAppends("", ks[0]);
      EmptySplit();
      assert "" + ks[0] == ks[0] && [""][..0] + [ks[0]] == ks;
    } else if ks != [] {
      SplitInvertsJoin(ks[..|ks| - 1], space);
      assert IsClean(ks[|ks| - 1], space);
      SplitNextLine(Join(ks[..|ks| - 1], "\n"), ks[|ks| - 1]);
    } else {
      EmptySplit();
    }
  }

  lemma EmptySplit()
    ensures Split("") == [""]
  {
  }

  lemma {:induction false} CleanLinesStay(ks: seq<string>, space: Spaces)
    requires AreCleanLines(ks, space)
    ensures Trimmed(ks, space) == ks
  {
    hide IsClean, Trim;
    if ks != [] {
      CleanLinesStay(ks[..|ks| - 1], space);
      CleanIsTrim(ks[|ks| - 1], space);
    }
  }

  lemma CleanIsTrim(s: string, space: Spaces)
    requires IsClean(s, space)
    ensures Trim(s, space) == s
  {
  }

  /** What comes back are the normalized keywords, in order; one with spaces in it stays one. */
  lemma DecodeInvertsEncode(ks: seq<string>, space: Spaces)
    requires Sane(space)
    ensures Decode(Encode(ks, space), space) == Kept(ks, space)
  {
    KeptIsClean(ks, space);
    SplitInvertsJoin(Kept(ks, space), space);
    CleanLinesStay(Kept(ks, space), space);
    if Kept(ks, space) == [] {
      assert Split(Join(Kept(ks, space), "\n")) == [""];
      assert [""][..0] == [];
      assert Trimmed([""], space) == [] + NonEmpty(Trim("", space));
    }
  }

  // ----- Normalizing twice -----

  lemma NormalTwice(k: string, space: Spaces)
    requires Sane(space)
    ensures Normal(Normal(k, space), space) == Normal(k, space)
    ensures Words(Normal(k, space), space) == Words(k, space)
  {
    WordsAreWords(k, space);
    WordsOfJoined(Words(k, space), space);
  }

  lemma {:induction false} KeptTwice(ks: seq<string>, space: Spaces)
    requires Sane(space)
    ensures Kept(Kept(ks, space), space) == Kept(ks, space)
  {
    hide Normal;
    if ks != [] {
      var init, last := ks[..|ks| - 1], ks[|ks| - 1];
      KeptTwice(init, space);
      NormalTwice(last, space);
      if Normal(last, space) != "" {
        assert Kept(ks, space)[..|Kept(ks, space)| - 1] == Kept(init, space);
      } else {
        assert Kept(ks, space) == Kept(init, space);
      }
    }
  }

  /** A second round trip changes nothing. */
  lemma RoundTripIsStable(ks: seq<string>, space: Spaces)
    requires Sane(space)
    ensures var once := Decode(Encode(ks, space), space);
            Decode(Encode(once, space), space) == once
  {
    DecodeInvertsEncode(ks, space);
    DecodeInvertsEncode(Kept(ks, space), space);
    KeptTwice(ks, space);
  }

  // ----- What is kept -----

  lemma {:induction false} KeptJoins(a: seq<string>, b: seq<string>, space: Spaces)
    ensures Kept(a + b, space) == Kept(a, space) + Kept(b, space)
  {
    if b == [] {
      assert a + b == a;
    } else {
      var init, last := b[..|b| - 1], b[|b| - 1];
      KeptJoins(a, init, space);
      assert (a + b)[..|a + b| - 1] == a + init;
      Assoc(Kept(a, space), Kept(init, space), NonEmpty(Normal(last, space)));
    }
  }

  lemma {:induction false} JoinedIsSolid(ws: seq<string>, space: Spaces)
    requires space(' ') && AreWords(ws, space)
    ensures Solid(Join(ws, " "), space) == Flat(ws)
  {
    if |ws| == 1 {
      SolidBehind("", ws[0], space);
      assert "" + ws[0] == ws[0] && ws[..0] == [];
    } else if ws != [] {
      var init, last := ws[..|ws| - 1], ws[|ws| - 1];
      JoinedIsSolid(init, space);
      var before := Join(init, " ");
      assert (before + " ")[..|before|] == before;
      SolidBehind(before + " ", last, space);
    }
  }

  /** A keyword is kept iff there is anything but white space in it, and then none of that is lost. */
  lemma KeywordIsKept(k: string, space: Spaces)
    requires Sane(space)
    ensures |Kept([k], space)| == if Solid(k, space) == "" then 0 else 1
    ensures Solid(k, space) != "" ==> Solid(Kept([k], space)[0], space) == Solid(k, space)
  {
    assert [k][..0] == [];
    WordsAreWords(k, space);
    WordsLoseNothing(k, space);
    JoinedIsSolid(Words(k, space), space);
    JoinedWordsAreClean(Words(k, space), space);
  }
}
