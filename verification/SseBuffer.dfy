/**
  Cutting a stream of characters into the payloads of its data lines (data lines as in
  section 9.2.5 of the WHATWG HTML Standard), however the stream is chunked.
 */
module SseBuffer {
  import opened Basics

  predicate HasNewline(s: string) {
    FirstNewline(s) < |s|
  }

  function TrimReturns(s: string): string {
    if s != "" && s[|s| - 1] == '\r' then TrimReturns(s[..|s| - 1]) else s
  }

  const PREFIX := "data:"

  /** The payload of one line; other lines have none. */
  function PayloadOf(line: string, space: Spaces): seq<string> {
    var l := TrimReturns(line);
    if PREFIX <= l then [Trim(l[|PREFIX|..], space)] else []
  }

  /** The payloads of the complete lines of a text. */
  function Payloads(s: string, space: Spaces): seq<string>
    decreases |s|
  {
    if !HasNewline(s) then []
    else PayloadOf(s[..FirstNewline(s)], space) + Payloads(s[FirstNewline(s) + 1..], space)
  }

  /** What follows the last line end. */
  function Rest(s: string): string
    decreases |s|
  {
    if !HasNewline(s) then s else Rest(s[FirstNewline(s) + 1..])
  }

  predicate NoNewline(s: string) {
    forall i :: 0 <= i < |s| ==> s[i] != '\n'
  }

  class Buffer {
    const space: Spaces
    var buf: string

    constructor (space: Spaces)
      ensures this.space == space && buf == ""
    {
      this.space, buf := space, "";
    }

    /** Takes one chunk; yields the payloads of the lines it completes. */
    method Push(chunk: string) returns (out: seq<string>)
      modifies this
      ensures out == Payloads(old(buf) + chunk, space)
      ensures buf == Rest(old(buf) + chunk) && NoNewline(buf)
    {
      hide Payloads, Rest, Trim, TrimReturns;
      buf := buf + chunk;
      ghost var whole := buf;
      out := [];
      while HasNewline(buf)
        invariant Payloads(whole, space) == out + Payloads(buf, space)
        invariant Rest(whole) == Rest(buf)
        decreases |buf|
      {
        var pos := FirstNewline(buf);
        var line := TrimReturns(buf[..pos]);
        FirstLine(buf, space);
        Assoc(out, PayloadOf(buf[..pos], space), Payloads(buf[pos + 1..], space));
        buf := buf[pos + 1..];
        if PREFIX <= line {
          out := out + [Trim(line[|PREFIX|..], space)];
        } else {
          AppendNothing(out, []);
        }
      }
      NoLineLeft(buf, space);
      assert out + [] == out;
    }

    /** Takes a stream chunk by chunk. */
    method PushAll(chunks: seq<string>) returns (out: seq<string>)
      requires NoNewline(buf)
      modifies this
      ensures out == Payloads(old(buf) + Joined(chunks), space)
      ensures buf == Rest(old(buf) + Joined(chunks)) && NoNewline(buf)
    {
      hide Payloads, Rest;
      ghost var before := buf;
      assert before + Joined(chunks[..0]) == before;
      NothingComplete(before, space);
      out := [];
      for i := 0 to |chunks|
        invariant out == Payloads(before + Joined(chunks[..i]), space)
        invariant buf == Rest(before + Joined(chunks[..i])) && NoNewline(buf)
      {
        JoinedStep(chunks, i);
        Assoc(before, Joined(chunks[..i]), chunks[i]);
        ChunksDoNotMatter(before + Joined(chunks[..i]), chunks[i], space);
        var more := Push(chunks[i]);
        out := out + more;
      }
      assert chunks[..|chunks|] == chunks;
    }
  }

  function Joined(chunks: seq<string>): string {
    if chunks == [] then "" else Joined(chunks[..|chunks| - 1]) + chunks[|chunks| - 1]
  }

  lemma JoinedStep(chunks: seq<string>, i: nat)
    requires i < |chunks|
    ensures Joined(chunks[..i + 1]) == Joined(chunks[..i]) + chunks[i]
  {
    assert chunks[..i + 1][..i] == chunks[..i];
  }

  lemma FirstLine(s: string, space: Spaces)
    requires HasNewline(s)
    ensures Payloads(s, space) == PayloadOf(s[..FirstNewline(s)], space) + Payloads(s[FirstNewline(s) + 1..], space)
    ensures Rest(s) == Rest(s[FirstNewline(s) + 1..])
  {
  }

  lemma NoLineLeft(s: string, space: Spaces)
    requires !HasNewline(s)
    ensures Payloads(s, space) == [] && Rest(s) == s && NoNewline(s)
  {
  }

  lemma NothingComplete(s: string, space: Spaces)
    requires NoNewline(s)
    ensures Payloads(s, space) == [] && Rest(s) == s
  {
  }

  /** Cutting a stream in two anywhere changes neither the payloads nor what is left over. */
  lemma {:induction false} ChunksDoNotMatter(a: string, b: string, space: Spaces)
    ensures Payloads(a + b, space) == Payloads(a, space) + Payloads(Rest(a) + b, space)
    ensures Rest(a + b) == Rest(Rest(a) + b)
    decreases |a|
  {
    hide PayloadOf;
    if HasNewline(a) {
      var p := FirstNewline(a);
      FirstNewlineIs(a + b, p);
      assert (a + b)[..p] == a[..p] && (a + b)[p + 1..] == a[p + 1..] + b;
      ChunksDoNotMatter(a[p + 1..], b, space);
      Assoc(PayloadOf(a[..p], space), Payloads(a[p + 1..], space), Payloads(Rest(a) + b, space));
    } else {
      assert [] + Payloads(a + b, space) == Payloads(a + b, space);
    }
  }

  /** However a stream is chunked, the payloads and the left-over are those of one push of the whole. */
  method AnyChunking(space: Spaces, chunks: seq<string>, other: seq<string>) returns (a: seq<string>, b: seq<string>)
    requires Joined(chunks) == Joined(other)
    ensures a == b == Payloads(Joined(chunks), space)
  {
    hide Payloads;
    assert "" + Joined(chunks) == Joined(chunks) && "" + Joined(other) == Joined(other);
    var first := new Buffer(space);
    a := first.PushAll(chunks);
    var second := new Buffer(space);
    b := second.PushAll(other);
  }

  /** A data line, with or without a carriage return, yields its value trimmed; any other line yields nothing. */
  lemma LinesAreRead(value: string, other: string, space: Spaces)
    requires NoNewline(value) && NoNewline(other) && !("data:" <= other)
    requires value == "" || value[|value| - 1] != '\r'
    requires other == "" || other[|other| - 1] != '\r'
    ensures Payloads("data:" + value + "\n", space) == Payloads("data:" + value + "\r\n", space) == [Trim(value, space)]
    ensures Payloads(other + "\n", space) == Payloads(other + "\r\n", space) == []
  {
    hide Payloads, PayloadOf, TrimReturns, Trim;
    var line := "data:" + value;
    OneLineIsRead(line, space);
    assert line[5..] == value;
    OneLineIsRead(other, space);
  }

  lemma OneLineIsRead(line: string, space: Spaces)
    requires NoNewline(line) && (line == "" || line[|line| - 1] != '\r')
    ensures Payloads(line + "\n", space) == Payloads(line + "\r\n", space)
            == if "data:" <= line then [Trim(line[5..], space)] else []
  {
    hide Payloads, Trim, TrimReturns;
    OneLine(line, space);
    OneLine(line + "\r", space);
    assert line + "\r" + "\n" == line + "\r\n";
    ReturnIsTrimmed(line);
  }

  lemma ReturnIsTrimmed(s: string)
    requires s == "" || s[|s| - 1] != '\r'
    ensures TrimReturns(s) == TrimReturns(s + "\r") == s
  {
    assert (s + "\r")[..|s|] == s;
  }

  lemma OneLine(line: string, space: Spaces)
    requires NoNewline(line)
    ensures Payloads(line + "\n", space) == PayloadOf(line, space)
  {
    hide PayloadOf;
    var s := line + "\n";
    FirstNewlineIs(s, |line|);
    assert s[..|line|] == line && s[|line| + 1..] == "";
    assert Payloads("", space) == [];
    assert PayloadOf(line, space) + [] == PayloadOf(line, space);
  }
}
