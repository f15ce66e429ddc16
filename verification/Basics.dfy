/**
  Small things used throughout: optional values, a few facts about sequences, and cutting
  white space off texts.
 */
module Basics {

  datatype Option<+T> = None | Some(value: T)

  function Max(a: int, b: int): int {
    if a < b then b else a
  }

  function UpTo(n: nat): (s: seq<nat>)
    ensures |s| == n && forall i :: 0 <= i < n ==> s[i] == i
  {
    seq(n, i => i)
  }

  function SetOf<T(==)>(s: seq<T>): set<T> {
    set x | x in s :: x
  }

  lemma Assoc<T>(a: seq<T>, b: seq<T>, c: seq<T>)
    ensures a + (b + c) == a + b + c
  {
  }

  lemma AppendNothing<T>(a: seq<T>, b: seq<T>)
    requires b == []
    ensures a + b == a
  {
  }

  // ----- Lines and white space; what counts as white space is a parameter -----

  type Spaces = char -> bool

  function FirstNewline(s: string): (p: nat)
    ensures p <= |s| && (p < |s| ==> s[p] == '\n')
    ensures forall i :: 0 <= i < p ==> s[i] != '\n'
  {
    if s == "" || s[0] == '\n' then 0 else 1 + FirstNewline(s[1..])
  }

  lemma FirstNewlineIs(s: string, p: nat)
    requires p < |s| && s[p] == '\n' && forall i :: 0 <= i < p ==> s[i] != '\n'
    ensures FirstNewline(s) == p
  {
  }

  function TrimStart(s: string, space: Spaces): string {
    if s != "" && space(s[0]) then TrimStart(s[1..], space) else s
  }

  function TrimEnd(s: string, space: Spaces): string {
    if s != "" && space(s[|s| - 1]) then TrimEnd(s[..|s| - 1], space) else s
  }

  function Trim(s: string, space: Spaces): string {
    TrimEnd(TrimStart(s, space), space)
  }

  /** A white end, and a text that has none left or is empty. */
  predicate IsTrimmed(s: string, space: Spaces) {
    s == "" || (!space(s[0]) && !space(s[|s| - 1]))
  }

  predicate IsWhite(s: string, space: Spaces) {
    forall i :: 0 <= i < |s| ==> space(s[i])
  }

  lemma {:induction false} StartIsCut(s: string, space: Spaces)
    ensures var t := TrimStart(s, space);
            && |t| <= |s| && t == s[|s| - |t|..] && IsWhite(s[..|s| - |t|], space) && (t != "" ==> !space(t[0]))
  {
    if s != "" && space(s[0]) {
      StartIsCut(s[1..], space);
    }
  }

  lemma {:induction false} EndIsCut(s: string, space: Spaces)
    ensures var t := TrimEnd(s, space);
            && |t| <= |s| && t == s[..|t|] && IsWhite(s[|t|..], space) && (t != "" ==> !space(t[|t| - 1]))
  {
    if s != "" && space(s[|s| - 1]) {
      EndIsCut(s[..|s| - 1], space);
      var t := TrimEnd(s[..|s| - 1], space);
      assert forall i :: |t| <= i < |s| - 1 ==> s[i] == s[..|s| - 1][|t|..][i - |t|];
    }
  }

  /** Trimming cuts white space off both ends, all of it, and nothing else. */
  lemma TrimCutsWhite(s: string, space: Spaces) returns (a: nat, b: nat)
    ensures a <= b <= |s| && Trim(s, space) == s[a..b]
    ensures IsWhite(s[..a], space) && IsWhite(s[b..], space) && IsTrimmed(Trim(s, space), space)
  {
    hide TrimStart, TrimEnd;
    StartIsCut(s, space);
    var t := TrimStart(s, space);
    EndIsCut(t, space);
    a, b := |s| - |t|, |s| - |t| + |Trim(s, space)|;
    assert t[|Trim(s, space)|..] == s[b..];
  }
}
