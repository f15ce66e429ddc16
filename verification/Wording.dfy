/** The words of a text, and joining words again. */
module Wording {
  import opened Basics

  /** The runs between white space. */
  function Words(s: string, space: Spaces): seq<string> {
    if s == "" then []
    else if space(s[|s| - 1]) then Words(s[..|s| - 1], space)
    else
      var w := LastWord(s, space);
      Words(s[..|s| - |w|], space) + [w]
  }

  /** The longest end of a text without white space. */
  function LastWord(s: string, space: Spaces): (w: string)
    ensures |w| <= |s| && w == s[|s| - |w|..] && IsSolid(w, space)
    ensures s != "" && !space(s[|s| - 1]) ==> w != ""
    ensures |w| < |s| ==> space(s[|s| - |w| - 1])
  {
    if s == "" || space(s[|s| - 1]) then "" else LastWord(s[..|s| - 1], space) + [s[|s| - 1]]
  }

  predicate IsSolid(s: string, space: Spaces) {
    forall i :: 0 <= i < |s| ==> !space(s[i])
  }

  function Join(parts: seq<string>, sep: string): string {
    if parts == [] then ""
    else if |parts| == 1 then parts[0]
    else Join(parts[..|parts| - 1], sep) + sep + parts[|parts| - 1]
  }

  /** Words are solid and not empty. */
  predicate AreWords(ws: seq<string>, space: Spaces) {
    forall i :: 0 <= i < |ws| ==> ws[i] != "" && IsSolid(ws[i], space)
  }

  lemma {:induction false} WordsAreWords(s: string, space: Spaces)
    ensures AreWords(Words(s, space), space)
    decreases |s|
  {
    if s != "" {
      if space(s[|s| - 1]) {
        WordsAreWords(s[..|s| - 1], space);
      } else {
        WordsAreWords(s[..|s| - |LastWord(s, space)|], space);
      }
    }
  }

  lemma {:induction false} WordsOfAppended(s: string, w: string, space: Spaces)
    requires space(' ') && w != "" && IsSolid(w, space)
    requires s == "" || space(s[|s| - 1])
    ensures Words(s + w, space) == Words(s, space) + [w]
  {
    hide Words;
    LastWordIs(s, w, space);
    WordsStep(s + w, space);
    assert (s + w)[..|s|] == s;
  }

  lemma WordsStep(s: string, space: Spaces)
    requires s != "" && !space(s[|s| - 1])
    ensures Words(s, space) == Words(s[..|s| - |LastWord(s, space)|], space) + [LastWord(s, space)]
  {
    hide LastWord, IsSolid;
  }

  lemma {:induction false} LastWordIs(s: string, w: string, space: Spaces)
    requires IsSolid(w, space) && (s == "" || space(s[|s| - 1]))
    ensures LastWord(s + w, space) == w
  {
    hide LastWord, IsSolid;
    if w == "" {
      assert s + w == s;
      NoLastWord(s, space);
    } else {
      var init, c := w[..|w| - 1], w[|w| - 1];
      EndsWith(s, w);
      SolidInit(w, space);
      LastWordIs(s, init, space);
      LastWordGrows(s + init, c, space);
    }
  }

  lemma EndsWith(s: string, w: string)
    requires w != ""
    ensures s + w == s + w[..|w| - 1] + [w[|w| - 1]] && w == w[..|w| - 1] + [w[|w| - 1]]
  {
  }

  lemma NoLastWord(s: string, space: Spaces)
    requires s == "" || space(s[|s| - 1])
    ensures LastWord(s, space) == ""
  {
  }

  lemma SolidInit(w: string, space: Spaces)
    requires IsSolid(w, space) && w != ""
    ensures IsSolid(w[..|w| - 1], space) && !space(w[|w| - 1])
  {
  }

  lemma LastWordGrows(s: string, c: char, space: Spaces)
    requires !space(c)
    ensures LastWord(s + [c], space) == LastWord(s, space) + [c]
  {
    assert (s + [c])[..|s|] == s;
  }

  lemma WordsBeforeSpace(s: string, space: Spaces)
    requires space(' ')
    ensures Words(s + " ", space) == Words(s, space)
  {
    assert (s + " ")[..|s|] == s;
  }

  lemma NoWords(space: Spaces)
    ensures Words("", space) == []
  {
  }

  lemma {:induction false} WordsOfJoined(ws: seq<string>, space: Spaces)
    requires space(' ') && AreWords(ws, space)
    ensures Words(Join(ws, " "), space) == ws
  {
    hide IsSolid, Words;
    NoWords(space);
    if |ws| == 1 {
      WordsOfAppended("", ws[0], space);
      assert "" + ws[0] == ws[0] && [] + [ws[0]] == ws;
    } else if ws != [] {
      var init, last := ws[..|ws| - 1], ws[|ws| - 1];
      WordsOfJoined(init, space);
      WordsBeforeSpace(Join(init, " "), space);
      WordsOfAppended(Join(init, " ") + " ", last, space);
    }
  }

  /** A text without its white space. */
  function Solid(s: string, space: Spaces): string {
    if s == "" then "" else Solid(s[..|s| - 1], space) + if space(s[|s| - 1]) then "" else [s[|s| - 1]]
  }

  function Flat(ws: seq<string>): string {
    if ws == [] then "" else Flat(ws[..|ws| - 1]) + ws[|ws| - 1]
  }

  lemma {:induction false} SolidBehind(s: string, w: string, space: Spaces)
    requires IsSolid(w, space)
    ensures Solid(s + w, space) == Solid(s, space) + w
  {
    if w == "" {
      assert s + w == s;
    } else {
      var init, c := w[..|w| - 1], w[|w| - 1];
      SolidBehind(s, init, space);
      assert (s + w)[..|s + w| - 1] == s + init;
      assert w == init + [c];
      Assoc(Solid(s, space), init, [c]);
    }
  }

  /** Cutting a text into words loses nothing but its white space, and keeps the order. */
  lemma {:induction false} WordsLoseNothing(s: string, space: Spaces)
    ensures Flat(Words(s, space)) == Solid(s, space)
    decreases |s|
  {
    if s != "" {
      if space(s[|s| - 1]) {
        WordsLoseNothing(s[..|s| - 1], space);
      } else {
        var w := LastWord(s, space);
        var before := s[..|s| - |w|];
        WordsLoseNothing(before, space);
        SolidBehind(before, w, space);
        assert s == before + w;
        var ws := Words(before, space) + [w];
        assert ws[..|ws| - 1] == Words(before, space);
      }
    }
  }
}
