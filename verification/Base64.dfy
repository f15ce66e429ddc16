/**
  Decoding of base64 as section 4 of RFC 4648 defines it: padding and ASCII whitespace are
  ignored wherever they stand.
 */
module Base64 {
  import opened Basics

  type Byte = x: int | 0 <= x < 256

  /** The value of a symbol: A-Z, a-z, 0-9, '+', '/'. */
  function Val(c: Byte): (v: Option<int>)
    ensures v.Some? ==> 0 <= v.value < 64 && Symbol(v.value) == c
  {
    if 65 <= c <= 90 then Some(c - 65)
    else if 97 <= c <= 122 then Some(c - 97 + 26)
    else if 48 <= c <= 57 then Some(c - 48 + 52)
    else if c == 43 then Some(62)
    else if c == 47 then Some(63)
    else None
  }

  function Symbol(v: int): Byte
    requires 0 <= v < 64
  {
    if v < 26 then 65 + v
    else if v < 52 then 97 + v - 26
    else if v < 62 then 48 + v - 52
    else if v == 62 then 43
    else 47
  }

  lemma SymbolHasVal(v: int)
    requires 0 <= v < 64
    ensures Val(Symbol(v)) == Some(v)
  {
  }

  predicate IsAsciiWhitespace(c: Byte) {
    c == 32 || c == 9 || c == 10 || c == 12 || c == 13
  }

  predicate IsIgnored(c: Byte) {
    IsAsciiWhitespace(c) || c == 61
  }

  function Cleaned(s: seq<Byte>): seq<Byte> {
    if s == [] then [] else Cleaned(s[..|s| - 1]) + if IsIgnored(s[|s| - 1]) then [] else [s[|s| - 1]]
  }

  // ----- Groups -----

  /** The values of up to four symbols, read as one number of 24 bits, left-aligned. */
  function Acc(vs: seq<int>): int
    requires 2 <= |vs| <= 4
  {
    if |vs| == 2 then (vs[0] * 64 + vs[1]) * 4096
    else if |vs| == 3 then ((vs[0] * 64 + vs[1]) * 64 + vs[2]) * 64
    else ((vs[0] * 64 + vs[1]) * 64 + vs[2]) * 64 + vs[3]
  }

  function BytesOf(acc: int): (bs: seq<Byte>)
    requires 0 <= acc
    ensures |bs| == 3
  {
    [acc / 65536 % 256, acc / 256 % 256, acc % 256]
  }

  predicate AreSymbols(cs: seq<Byte>) {
    forall i :: 0 <= i < |cs| ==> Val(cs[i]).Some?
  }

  function Vals(cs: seq<Byte>): (vs: seq<int>)
    requires AreSymbols(cs)
    ensures |vs| == |cs| && forall i :: 0 <= i < |vs| ==> 0 <= vs[i] < 64 && Some(vs[i]) == Val(cs[i])
  {
    seq(|cs|, i requires 0 <= i < |cs| => Val(cs[i]).value)
  }

  function Group(cs: seq<Byte>): (bs: seq<Byte>)
    requires 2 <= |cs| <= 4 && AreSymbols(cs)
    ensures |bs| == |cs| - 1
  {
    BytesOf(Acc(Vals(cs)))[..|cs| - 1]
  }

  function Chunk(cs: seq<Byte>): seq<Byte> {
    if |cs| < 4 then cs else cs[..4]
  }

  function Decode(cs: seq<Byte>): Option<seq<Byte>> {
    if cs == [] then Some([])
    else if |cs| < 2 || !AreSymbols(Chunk(cs)) then None
    else
      match Decode(cs[|Chunk(cs)|..])
      case None => None
      case Some(rest) => Some(Group(Chunk(cs)) + rest)
  }

  // ----- The decoder -----

  method DecodeGroup(chunk: seq<Byte>) returns (r: Option<seq<Byte>>)
    requires 2 <= |chunk| <= 4
    ensures r == if AreSymbols(chunk) then Some(Group(chunk)) else None
  {
    var acc := 0;
    for i := 0 to |chunk|
      invariant AreSymbols(chunk[..i])
      invariant acc == Packed(chunk[..i])
    {
      var v := Val(chunk[i]);
      if v == None {
        assert !AreSymbols(chunk);
        return None;
      }
      PackedGrows(chunk, i);
      acc := acc * 64 + v.value;
    }
    assert chunk[..|chunk|] == chunk;
    AccIsPacked(chunk);
    acc := acc * (if |chunk| == 2 then 4096 else if |chunk| == 3 then 64 else 1);
    var bytes := [acc / 65536 % 256, acc / 256 % 256, acc % 256];
    return Some(bytes[..|chunk| - 1]);
  }

  function Packed(cs: seq<Byte>): (acc: int)
    requires AreSymbols(cs)
    ensures acc >= 0
  {
    if cs == [] then 0 else Packed(cs[..|cs| - 1]) * 64 + Val(cs[|cs| - 1]).value
  }

  lemma PackedGrows(cs: seq<Byte>, i: nat)
    requires i < |cs| && AreSymbols(cs[..i]) && Val(cs[i]).Some?
    ensures AreSymbols(cs[..i + 1]) && Packed(cs[..i + 1]) == Packed(cs[..i]) * 64 + Val(cs[i]).value
  {
    var more := cs[..i + 1];
    forall k | 0 <= k < |more| ensures Val(more[k]).Some? {
      assert k < i ==> more[k] == cs[..i][k];
    }
    assert more[..i] == cs[..i];
  }

  lemma NothingPacked(cs: seq<Byte>)
    requires cs == []
    ensures Packed(cs) == 0
  {
  }

  lemma AccIsPacked(cs: seq<Byte>)
    requires 2 <= |cs| <= 4 && AreSymbols(cs)
    ensures Acc(Vals(cs)) == Packed(cs) * (if |cs| == 2 then 4096 else if |cs| == 3 then 64 else 1)
  {
    hide Val, Packed;
    var vs := Vals(cs);
    assert cs[..|cs|] == cs;
    NothingPacked(cs[..0]);
    PackedGrows(cs, 0);
    PackedGrows(cs, 1);
    assert Packed(cs[..2]) == vs[0] * 64 + vs[1];
    if |cs| > 2 {
      PackedGrows(cs, 2);
      assert Packed(cs[..3]) == (vs[0] * 64 + vs[1]) * 64 + vs[2];
    }
    if |cs| > 3 {
      PackedGrows(cs, 3);
    }
  }

  method Base64Decode(s: seq<Byte>) returns (r: Option<seq<Byte>>)
    ensures r == Decode(Cleaned(s))
  {
    hide Decode, Group, AreSymbols;
    var cleaned := Cleaned(s);
    var out: seq<Byte> := [];
    var at := 0;
    PrependNothing(Decode(cleaned));
    assert cleaned[0..] == cleaned;
    while at < |cleaned|
      invariant 0 <= at <= |cleaned|
      invariant Decode(cleaned) == Prepend(out, Decode(cleaned[at..]))
    {
      var chunk := cleaned[at..if at + 4 <= |cleaned| then at + 4 else |cleaned|];
      DecodeStep(cleaned[at..]);
      assert chunk == Chunk(cleaned[at..]);
      if |chunk| < 2 {
        return None;
      }
      var group := DecodeGroup(chunk);
      if group == None {
        return None;
      }
      assert cleaned[at..][|chunk|..] == cleaned[at + |chunk|..];
      PrependTwice(out, group.value, Decode(cleaned[at + |chunk|..]));
      out := out + group.value;
      at := at + |chunk|;
    }
    DecodeNothing(out, cleaned[at..]);
    return Some(out);
  }

  lemma DecodeStep(cs: seq<Byte>)
    requires cs != []
    ensures Decode(cs) == if |Chunk(cs)| < 2 || !AreSymbols(Chunk(cs)) then None
                          else Prepend(Group(Chunk(cs)), Decode(cs[|Chunk(cs)|..]))
  {
  }

  lemma DecodeNothing(out: seq<Byte>, cs: seq<Byte>)
    requires cs == []
    ensures Prepend(out, Decode(cs)) == Some(out)
  {
    assert out + [] == out;
  }

  lemma PrependNothing(r: Option<seq<Byte>>)
    ensures Prepend([], r) == r
  {
    if r.Some? {
      assert [] + r.value == r.value;
    }
  }

  function Prepend(bs: seq<Byte>, r: Option<seq<Byte>>): Option<seq<Byte>> {
    match r
    case None => None
    case Some(rest) => Some(bs + rest)
  }

  lemma PrependTwice(a: seq<Byte>, b: seq<Byte>, r: Option<seq<Byte>>)
    ensures Prepend(a, Prepend(b, r)) == Prepend(a + b, r)
  {
    if r.Some? {
      assert a + (b + r.value) == a + b + r.value;
    }
  }

  // ----- The encoding of the standard -----

  /** The symbols of up to three bytes, without padding. */
  function Symbols3(bs: seq<Byte>): seq<Byte>
    requires 1 <= |bs| <= 3
  {
    if |bs| == 1 then [Symbol(bs[0] / 4), Symbol(bs[0] % 4 * 16)]
    else if |bs| == 2 then [Symbol(bs[0] / 4), Symbol(bs[0] % 4 * 16 + bs[1] / 16), Symbol(bs[1] % 16 * 4)]
    else [Symbol(bs[0] / 4), Symbol(bs[0] % 4 * 16 + bs[1] / 16), Symbol(bs[1] % 16 * 4 + bs[2] / 64),
          Symbol(bs[2] % 64)]
  }

  function Symbols(bs: seq<Byte>): seq<Byte> {
    if bs == [] then []
    else if |bs| <= 3 then Symbols3(bs)
    else Symbols3(bs[..3]) + Symbols(bs[3..])
  }

  const PAD: Byte := 61

  function Padding(n: nat): seq<Byte> {
    if n % 3 == 1 then [PAD, PAD] else if n % 3 == 2 then [PAD] else []
  }

  /** The encoding of section 4 of RFC 4648. */
  function Encode(bs: seq<Byte>): seq<Byte> {
    Symbols(bs) + Padding(|bs|)
  }

  lemma Pack(a: int, b: int, c: int)
    ensures ((a / 4 * 64 + (a % 4 * 16 + b / 16)) * 64 + (b % 16 * 4 + c / 64)) * 64 + c % 64 == a * 65536 + b * 256 + c
  {
  }

  lemma Unpack(a: int, b: int, c: int)
    requires 0 <= a < 256 && 0 <= b < 256 && 0 <= c < 256
    ensures BytesOf(a * 65536 + b * 256 + c) == [a, b, c]
  {
    var acc := a * 65536 + b * 256 + c;
    assert acc / 256 == a * 256 + b && acc / 65536 == a;
  }

  /** The values of the symbols: six bits each, the missing bytes of a short group being 0. */
  lemma SymbolVals(bs: seq<Byte>, a: int, b: int, c: int)
    requires 1 <= |bs| <= 3 && a == bs[0]
    requires b == (if |bs| > 1 then bs[1] else 0) && c == (if |bs| > 2 then bs[2] else 0)
    ensures AreSymbols(Symbols3(bs)) && |Symbols3(bs)| == |bs| + 1
    ensures Vals(Symbols3(bs)) == [a / 4, a % 4 * 16 + b / 16, b % 16 * 4 + c / 64, c % 64][..|bs| + 1]
  {
    hide Symbol, Val;
    SymbolHasVal(a / 4);
    SymbolHasVal(a % 4 * 16 + b / 16);
    SymbolHasVal(b % 16 * 4 + c / 64);
    SymbolHasVal(c % 64);
  }

  lemma GroupInverts(bs: seq<Byte>)
    requires 1 <= |bs| <= 3
    ensures AreSymbols(Symbols3(bs)) && Group(Symbols3(bs)) == bs
  {
    hide Symbols3, AreSymbols, BytesOf;
    var a, b, c := bs[0], if |bs| > 1 then bs[1] else 0, if |bs| > 2 then bs[2] else 0;
    SymbolVals(bs, a, b, c);
    AccOfVals(a, b, c, |bs|);
    Unpack(a, b, c);
    assert [a, b, c][..|bs|] == bs;
  }

  lemma AccOfVals(a: int, b: int, c: int, n: nat)
    requires 1 <= n <= 3 && (n < 3 ==> c == 0) && (n < 2 ==> b == 0)
    ensures Acc([a / 4, a % 4 * 16 + b / 16, b % 16 * 4 + c / 64, c % 64][..n + 1]) == a * 65536 + b * 256 + c
  {
    Pack(a, b, c);
  }

  lemma {:induction false} DecodeInvertsSymbols(bs: seq<Byte>)
    ensures Decode(Symbols(bs)) == Some(bs)
  {
    hide Group, Symbols3, AreSymbols;
    if bs != [] {
      var head := if |bs| <= 3 then bs else bs[..3];
      GroupInverts(head);
      SymbolsAreMore(head);
      if |bs| > 3 {
        DecodeInvertsSymbols(bs[3..]);
        assert Symbols(bs)[4..] == Symbols(bs[3..]) && Chunk(Symbols(bs)) == Symbols3(head);
        assert bs == head + bs[3..];
      } else {
        assert Chunk(Symbols(bs)) == Symbols3(head) && Symbols(bs)[|Symbols(bs)|..] == [];
        assert bs + [] == bs;
      }
    }
  }

  lemma SymbolsAreMore(bs: seq<Byte>)
    requires 1 <= |bs| <= 3
    ensures |Symbols3(bs)| == |bs| + 1
  {
  }

  lemma {:induction false} CleanedConcat(a: seq<Byte>, b: seq<Byte>)
    ensures Cleaned(a + b) == Cleaned(a) + Cleaned(b)
  {
    if b == [] {
      assert a + b == a;
    } else {
      CleanedConcat(a, b[..|b| - 1]);
      assert (a + b)[..|a + b| - 1] == a + b[..|b| - 1];
    }
  }

  lemma {:induction false} SymbolsStayClean(cs: seq<Byte>)
    requires AreSymbols(cs)
    ensures Cleaned(cs) == cs
  {
    hide Val, IsIgnored;
    if cs != [] {
      var init, last := cs[..|cs| - 1], cs[|cs| - 1];
      SymbolsStayClean(init);
      SymbolIsNotIgnored(last);
      assert cs == init + [last];
    }
  }

  lemma SymbolIsNotIgnored(c: Byte)
    requires Val(c).Some?
    ensures !IsIgnored(c)
  {
  }

  lemma {:induction false} SymbolsAreSymbols(bs: seq<Byte>)
    ensures AreSymbols(Symbols(bs))
  {
    hide Symbols3;
    if bs != [] {
      GroupInverts(if |bs| <= 3 then bs else bs[..3]);
      if |bs| > 3 {
        SymbolsAreSymbols(bs[3..]);
      }
    }
  }

  /**
    Decoding undoes encoding, with padding or without, and with whitespace (or more padding)
    inserted anywhere: all that counts is what is left when those are taken out.
   */
  lemma DecodeInvertsEncode(bs: seq<Byte>, s: seq<Byte>)
    requires Cleaned(s) == Cleaned(Encode(bs))
    ensures Decode(Cleaned(s)) == Some(bs)
    ensures Cleaned(Encode(bs)) == Symbols(bs)
  {
    SymbolsAreSymbols(bs);
    SymbolsStayClean(Symbols(bs));
    CleanedConcat(Symbols(bs), Padding(|bs|));
    PaddingIsIgnored(|bs|);
    assert Symbols(bs) + [] == Symbols(bs);
    DecodeInvertsSymbols(bs);
  }

  lemma PaddingIsIgnored(n: nat)
    ensures Cleaned(Padding(n)) == []
  {
    assert [PAD, PAD][..1] == [PAD] && [PAD][..0] == [];
    assert Cleaned([PAD]) == [];
    assert Cleaned([PAD, PAD]) == Cleaned([PAD, PAD][..1]) + [];
  }

  /** Decoding fails exactly on a bad symbol or on one symbol too many. */
  lemma {:induction false} DecodeFailsIff(cs: seq<Byte>)
    ensures Decode(cs) == None <==> !AreSymbols(cs) || |cs| % 4 == 1
  {
    hide Group;
    if |cs| > 4 {
      DecodeFailsIff(cs[4..]);
      SplitSymbols(cs);
    } else if cs != [] {
      assert Chunk(cs) == cs && cs[|cs|..] == [];
    }
  }

  lemma SplitSymbols(cs: seq<Byte>)
    requires |cs| >= 4
    ensures AreSymbols(cs) <==> AreSymbols(cs[..4]) && AreSymbols(cs[4..])
  {
    if AreSymbols(cs[..4]) && AreSymbols(cs[4..]) {
      forall i | 0 <= i < |cs| ensures Val(cs[i]).Some? {
        assert cs[i] == if i < 4 then cs[..4][i] else cs[4..][i - 4];
      }
    }
    if AreSymbols(cs) {
      forall i | 0 <= i < |cs| - 4 ensures Val(cs[4..][i]).Some? {
        assert cs[4..][i] == cs[i + 4];
      }
    }
  }

  /**
    A group is what its bytes encode to iff the bits that a short group leaves over are zero:
    the decoder takes other symbols, too, so several texts can stand for the same bytes.
   */
  lemma GroupIsCanonicalIff(cs: seq<Byte>)
    requires 2 <= |cs| <= 4 && AreSymbols(cs)
    ensures Symbols3(Group(cs)) == cs <==> SpareBits(Vals(cs)) == 0
  {
    hide Symbols3, Group, AreSymbols;
    var vs, bs := Vals(cs), Group(cs);
    GroupBytes(cs);
    var b, c := if |cs| > 2 then bs[1] else 0, if |cs| > 3 then bs[2] else 0;
    SymbolVals(bs, bs[0], b, c);
    SameVals(cs, Symbols3(bs));
    SpareIsLeftOver(vs, bs[0], b, c);
  }

  /** "QQ" and "QR" both stand for the byte 65, and only the first is its encoding. */
  lemma TwoTextsForOneByte()
    ensures Decode([81, 81]) == Decode([81, 82]) == Some([65]) && Symbols([65]) == [81, 81]
  {
    assert Vals([81, 81]) == [16, 16] && Vals([81, 82]) == [16, 17];
    OneGroup([81, 81]);
    OneGroup([81, 82]);
  }

  lemma OneGroup(cs: seq<Byte>)
    requires |cs| == 2 && AreSymbols(cs)
    ensures Decode(cs) == Some([Acc(Vals(cs)) / 65536 % 256])
  {
    assert Chunk(cs) == cs && cs[2..] == [];
    assert Decode(cs) == Some(Group(cs) + []);
    assert Group(cs) + [] == [Acc(Vals(cs)) / 65536 % 256];
  }

  lemma SameVals(cs: seq<Byte>, ds: seq<Byte>)
    requires AreSymbols(cs) && AreSymbols(ds) && |cs| == |ds|
    ensures Vals(cs) == Vals(ds) <==> ds == cs
  {
    hide Symbol;
    if Vals(cs) == Vals(ds) {
      forall i | 0 <= i < |cs| ensures cs[i] == ds[i] {
        assert Vals(cs)[i] == Vals(ds)[i];
      }
    }
  }

  lemma SpareIsLeftOver(vs: seq<int>, a: int, b: int, c: int)
    requires 2 <= |vs| <= 4 && forall i :: 0 <= i < |vs| ==> 0 <= vs[i] < 64
    requires a == vs[0] * 4 + vs[1] / 16
    requires b == if |vs| > 2 then vs[1] % 16 * 16 + vs[2] / 4 else 0
    requires c == if |vs| > 3 then vs[2] % 4 * 64 + vs[3] else 0
    ensures [a / 4, a % 4 * 16 + b / 16, b % 16 * 4 + c / 64, c % 64][..|vs|] == vs <==> SpareBits(vs) == 0
  {
    var ws := [a / 4, a % 4 * 16 + b / 16, b % 16 * 4 + c / 64, c % 64][..|vs|];
    assert ws[0] == vs[0];
    assert ws[1] == if |vs| == 2 then vs[1] - vs[1] % 16 else vs[1];
    if |vs| > 2 {
      assert ws[2] == if |vs| == 3 then vs[2] - vs[2] % 4 else vs[2];
    }
    if |vs| > 3 {
      assert ws[3] == vs[3];
    }
  }

  function SpareBits(vs: seq<int>): int
    requires 2 <= |vs| <= 4
  {
    if |vs| == 2 then vs[1] % 16 else if |vs| == 3 then vs[2] % 4 else 0
  }

  lemma GroupBytes(cs: seq<Byte>)
    requires 2 <= |cs| <= 4 && AreSymbols(cs)
    ensures var vs, bs := Vals(cs), Group(cs);
            && bs[0] == vs[0] * 4 + vs[1] / 16
            && (|cs| > 2 ==> bs[1] == vs[1] % 16 * 16 + vs[2] / 4)
            && (|cs| > 3 ==> bs[2] == vs[2] % 4 * 64 + vs[3])
  {
    var vs := Vals(cs);
    var b, c := if |cs| > 2 then vs[1] % 16 * 16 + vs[2] / 4 else vs[1] % 16 * 16, 0;
    if |cs| > 3 {
      c := vs[2] % 4 * 64 + vs[3];
    } else if |cs| > 2 {
      c := vs[2] % 4 * 64;
    }
    assert Acc(vs) == (vs[0] * 4 + vs[1] / 16) * 65536 + b * 256 + c;
    Unpack(vs[0] * 4 + vs[1] / 16, b, c);
  }

  // ----- The alphabet and examples of the standard -----

  const UPPER := "ABCDEFGHIJKLMNOPQRSTUVWXYZ"
  const LOWER := "abcdefghijklmnopqrstuvwxyz"
  const DIGITS := "0123456789"

  function Codes(s: string): (cs: seq<Byte>)
    requires forall i :: 0 <= i < |s| ==> s[i] as int < 256
    ensures |cs| == |s| && forall i :: 0 <= i < |s| ==> cs[i] == s[i] as int
  {
    seq(|s|, i requires 0 <= i < |s| => s[i] as int)
  }

  /** The 64 symbols in order: capital letters, small letters, digits, plus and slash; and there are no others. */
  lemma SymbolsAreTheAlphabet(v: int, c: Byte)
    requires 0 <= v < 64
    ensures |UPPER| == 26 && |LOWER| == 26 && |DIGITS| == 10
    ensures Symbol(v) as char == (UPPER + LOWER + DIGITS + "+/")[v] && Val(Symbol(v)) == Some(v)
    ensures Val(c).Some? <==> c as char in UPPER + LOWER + DIGITS + "+/"
  {
    hide Val, Symbol;
    UpperAre();
    LowerAre();
    DigitsAre();
    SymbolHasVal(v);
    AlphabetAt(UPPER, LOWER, DIGITS, v);
    var all := UPPER + LOWER + DIGITS + "+/";
    if Val(c).Some? {
      AlphabetAt(UPPER, LOWER, DIGITS, Val(c).value);
    }
    if c as char in all {
      var i :| 0 <= i < |all| && all[i] == c as char;
      AlphabetAt(UPPER, LOWER, DIGITS, i);
      SymbolHasVal(i);
    }
  }

  lemma AlphabetAt(upper: string, lower: string, digits: string, v: int)
    requires |upper| == 26 && forall i :: 0 <= i < 26 ==> upper[i] as int == 65 + i
    requires |lower| == 26 && forall i :: 0 <= i < 26 ==> lower[i] as int == 97 + i
    requires |digits| == 10 && forall i :: 0 <= i < 10 ==> digits[i] as int == 48 + i
    requires 0 <= v < 64
    ensures |upper + lower + digits + "+/"| == 64
    ensures (upper + lower + digits + "+/")[v] as int == Symbol(v)
  {
    var head := upper + lower + digits;
    assert v < 62 ==> (head + "+/")[v] == head[v];
    assert v >= 62 ==> (head + "+/")[v] == "+/"[v - 62];
  }

  lemma UpperAre()
    ensures |UPPER| == 26 && forall i :: 0 <= i < 26 ==> UPPER[i] as int == 65 + i
  {
  }

  lemma LowerAre()
    ensures |LOWER| == 26 && forall i :: 0 <= i < 26 ==> LOWER[i] as int == 97 + i
  {
  }

  lemma DigitsAre()
    ensures |DIGITS| == 10 && forall i :: 0 <= i < 10 ==> DIGITS[i] as int == 48 + i
  {
  }

  /** What is passed over in a text: padding and the five ASCII white-space characters. */
  lemma IgnoredAre(c: Byte)
    ensures IsIgnored(c) <==> c in [61, 32, 9, 10, 12, 13]
    ensures Cleaned([c]) == if c in [61, 32, 9, 10, 12, 13] then [] else [c]
  {
    assert [c][..0] == [];
  }

  /** The examples of section 10 of RFC 4648. */
  lemma ExamplesOfTheStandard()
    ensures Encode([]) == []
    ensures Encode([102]) == Codes("Zg==") && Encode([102, 111]) == Codes("Zm8=")
    ensures Encode([102, 111, 111]) == Codes("Zm9v") && Encode([102, 111, 111, 98]) == Codes("Zm9vYg==")
    ensures Encode([102, 111, 111, 98, 97]) == Codes("Zm9vYmE=")
    ensures Encode([102, 111, 111, 98, 97, 114]) == Codes("Zm9vYmFy")
  {
    hide Symbols, Symbols3, Padding, Codes;
    GroupsOfTheExamples();
    CodesOfTheExamples();
    PaddingOfTheExamples();
    NoSymbols();
    var foo: seq<Byte> := [102, 111, 111];
    Groups(foo, []);
    Groups([102], []);
    Groups([102, 111], []);
    Groups(foo, [98]);
    Groups(foo, [98, 97]);
    Groups(foo, [98, 97, 114]);
    assert foo + [98] == [102, 111, 111, 98] && foo + [98, 97] == [102, 111, 111, 98, 97];
    assert foo + [98, 97, 114] == [102, 111, 111, 98, 97, 114];
  }

  lemma NoSymbols()
    ensures Symbols([]) == []
  {
  }

  lemma Groups(a: seq<Byte>, b: seq<Byte>)
    requires 1 <= |a| <= 3 && |b| <= 3 && (b != [] ==> |a| == 3)
    ensures Symbols(a + b) == Symbols3(a) + (if b == [] then [] else Symbols3(b)) && (b == [] ==> a + b == a)
  {
    if b != [] {
      assert (a + b)[..3] == a && (a + b)[3..] == b;
    } else {
      assert a + b == a;
    }
  }

  lemma GroupsOfTheExamples()
    ensures Symbols3([102]) == [90, 103] && Symbols3([102, 111]) == [90, 109, 56]
    ensures Symbols3([102, 111, 111]) == [90, 109, 57, 118]
    ensures Symbols3([98]) == [89, 103] && Symbols3([98, 97]) == [89, 109, 69]
    ensures Symbols3([98, 97, 114]) == [89, 109, 70, 121]
  {
  }

  lemma PaddingOfTheExamples()
    ensures Padding(0) == Padding(3) == Padding(6) == [] && Padding(1) == Padding(4) == [61, 61]
    ensures Padding(2) == Padding(5) == [61]
  {
  }

  lemma CodesOfTheExamples()
    ensures Codes("Zg==") == [90, 103, 61, 61] && Codes("Zm8=") == [90, 109, 56, 61]
            && Codes("Zm9v") == [90, 109, 57, 118]
    ensures Codes("Zm9vYg==") == [90, 109, 57, 118, 89, 103, 61, 61]
    ensures Codes("Zm9vYmE=") == [90, 109, 57, 118, 89, 109, 69, 61]
    ensures Codes("Zm9vYmFy") == [90, 109, 57, 118, 89, 109, 70, 121]
  {
  }
}
