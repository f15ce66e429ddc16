/** Sorting a list of texts by character codes and removing repetitions. */
module Sorting {

  predicate Less(a: string, b: string) {
    if a == "" then b != ""
    else if b == "" then false
    else a[0] < b[0] || (a[0] == b[0] && Less(a[1..], b[1..]))
  }

  ghost predicate IsSorted(s: seq<string>) {
    forall i, k :: 0 <= i < k < |s| ==> Less(s[i], s[k])
  }

  lemma {:induction false} LessIsTotal(a: string, b: string)
    ensures Less(a, b) || a == b || Less(b, a)
    ensures !(Less(a, b) && Less(b, a)) && !Less(a, a)
  {
    if a != "" {
      LessIsTotal(a[1..], a[1..]);
      if b != "" {
        LessIsTotal(a[1..], b[1..]);
        if a[0] == b[0] && a[1..] == b[1..] {
          assert a == [a[0]] + a[1..] && b == [b[0]] + b[1..];
        }
      }
    }
  }

  lemma {:induction false} LessIsTransitive(a: string, b: string, c: string)
    requires Less(a, b) && Less(b, c)
    ensures Less(a, c)
  {
    if a != "" && a[0] == b[0] && b[0] == c[0] {
      LessIsTransitive(a[1..], b[1..], c[1..]);
    }
  }

  /** Puts a text into its place, unless it is there already. */
  function Insert(s: seq<string>, t: string): seq<string> {
    if s == [] then [t]
    else if Less(t, s[0]) then [t] + s
    else if t == s[0] then s
    else [s[0]] + Insert(s[1..], t)
  }

  function SortDedup(s: seq<string>): seq<string> {
    if s == [] then [] else Insert(SortDedup(s[..|s| - 1]), s[|s| - 1])
  }

  lemma {:induction false} InsertAdds(s: seq<string>, t: string, x: string)
    ensures x in Insert(s, t) <==> x in s || x == t
  {
    if s != [] {
      InsertAdds(s[1..], t, x);
      assert s == [s[0]] + s[1..];
    }
  }

  lemma {:induction false} InsertKeepsSorted(s: seq<string>, t: string)
    requires IsSorted(s)
    ensures IsSorted(Insert(s, t))
  {
    if s != [] {
      LessIsTotal(t, s[0]);
      if Less(t, s[0]) {
        FirstIsLeast(s, t);
      } else if t != s[0] {
        InsertKeepsSorted(s[1..], t);
        var rest := Insert(s[1..], t);
        forall k | 0 <= k < |rest| ensures Less(s[0], rest[k]) {
          InsertAdds(s[1..], t, rest[k]);
        }
      }
    }
  }

  lemma FirstIsLeast(s: seq<string>, t: string)
    requires IsSorted(s) && s != [] && Less(t, s[0])
    ensures IsSorted([t] + s)
  {
    forall k | 0 <= k < |s| ensures Less(t, s[k]) {
      if k > 0 {
        LessIsTransitive(t, s[0], s[k]);
      }
    }
  }

  /** The result is in strictly ascending order and holds the same texts. */
  lemma {:induction false} SortDedupSorts(s: seq<string>)
    ensures IsSorted(SortDedup(s))
    ensures forall x :: x in SortDedup(s) <==> x in s
  {
    if s != [] {
      var init, last := s[..|s| - 1], s[|s| - 1];
      SortDedupSorts(init);
      InsertKeepsSorted(SortDedup(init), last);
      forall x ensures x in SortDedup(s) <==> x in s {
        InsertAdds(SortDedup(init), last, x);
        assert s == init + [last];
      }
    }
  }

  /** There is one such list: order and repetitions in the input do not matter. */
  lemma {:induction false} SortedIsUnique(s: seq<string>, t: seq<string>)
    requires IsSorted(s) && IsSorted(t) && forall x :: x in s <==> x in t
    ensures s == t
  {
    if s == [] {
      SomethingIn(t);
    } else {
      assert s[0] in t;
      HeadsAgree(s, t);
      forall x ensures x in s[1..] <==> x in t[1..] {
        InTail(s, x);
        InTail(t, x);
      }
      SortedIsUnique(s[1..], t[1..]);
      assert s == [s[0]] + s[1..] && t == [t[0]] + t[1..];
    }
  }

  lemma SomethingIn(t: seq<string>)
    ensures t != [] ==> exists x :: x in t
  {
    if t != [] {
      assert t[0] in t;
    }
  }

  lemma HeadsAgree(s: seq<string>, t: seq<string>)
    requires IsSorted(s) && IsSorted(t) && s != [] && t != [] && s[0] in t && t[0] in s
    ensures s[0] == t[0]
  {
    LessIsTotal(s[0], t[0]);
    var i :| 0 <= i < |t| && t[i] == s[0];
    var k :| 0 <= k < |s| && s[k] == t[0];
  }

  lemma InTail(s: seq<string>, x: string)
    requires IsSorted(s) && s != []
    ensures x in s[1..] <==> x in s && x != s[0]
  {
    LessIsTotal(s[0], s[0]);
    assert s == [s[0]] + s[1..];
  }

  /** The first difference decides, by character codes, and a text comes before its continuations. */
  lemma {:induction false} FirstDifferenceDecides(p: string, x: char, s: string, y: char, t: string)
    ensures Less(p, p + [x] + s)
    ensures x < y ==> Less(p + [x] + s, p + [y] + t)
  {
    if p == "" {
      assert p + [x] + s == [x] + s && p + [y] + t == [y] + t;
    } else {
      FirstDifferenceDecides(p[1..], x, s, y, t);
      assert (p + [x] + s)[1..] == p[1..] + [x] + s && (p + [y] + t)[1..] == p[1..] + [y] + t;
    }
  }
}
