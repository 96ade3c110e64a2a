/** Line framing of the server's receive loop: text arrives in chunks, is
    appended to a buffer, and every complete `\n`-terminated line is cut
    off the front of the buffer (`buffer.split("\n", 1)`) and handled, while
    an incomplete tail waits for the next chunk. */
module Framing {
  import opened Text

  /** The complete lines of a buffer, in order, and the tail left over. */
  datatype Framed = Framed(lines: seq<string>, rest: string)

  /** What the loop `while "\n" in buffer` cuts out of `s`. */
  function Frame(s: string): Framed
    decreases |s|
  {
    var p := SplitOnce(s, '\n');
    if |p| == 1 then Framed([], s)
    else
      var f := Frame(p[1]);
      Framed([p[0]] + f.lines, f.rest)
  }

  /** The text a sequence of lines was cut from, each with its newline. */
  function Unframe(lines: seq<string>): string
  {
    if lines == [] then [] else lines[0] + "\n" + Unframe(lines[1..])
  }

  predicate NoNewline(s: string)
  {
    '\n' !in s
  }

  predicate AllLines(lines: seq<string>)
  {
    forall i :: 0 <= i < |lines| ==> NoNewline(lines[i])
  }

  /** Nothing is lost: the lines, each given back its newline, followed by
      the tail, are the buffer. */
  lemma {:induction false} FrameRoundTrip(s: string)
    ensures Unframe(Frame(s).lines) + Frame(s).rest == s
    decreases |s|
  {
    var p := SplitOnce(s, '\n');
    if |p| == 2 {
      FrameRoundTrip(p[1]);
      var f := Frame(p[1]);
      assert Frame(s) == Framed([p[0]] + f.lines, f.rest);
      assert ([p[0]] + f.lines)[1..] == f.lines;
      assert Unframe([p[0]] + f.lines) == p[0] + "\n" + Unframe(f.lines);
      calc {
        Unframe(Frame(s).lines) + Frame(s).rest;
        (p[0] + "\n" + Unframe(f.lines)) + f.rest;
        { Regroup3(p[0] + "\n", Unframe(f.lines), f.rest); }
        p[0] + "\n" + p[1];
      }
    }
  }

  /** The tail is newline-free: the loop stops only once no complete
      line is left. */
  lemma {:induction false} FrameRestShape(s: string)
    ensures NoNewline(Frame(s).rest)
    decreases |s|
  {
    var p := SplitOnce(s, '\n');
    if |p| == 2 {
      FrameRestShape(p[1]);
    }
  }

  /** Every line is newline-free: a line is never handled before its
      newline has arrived. */
  lemma {:induction false} FrameLinesShape(s: string)
    ensures AllLines(Frame(s).lines)
    decreases |s|
  {
    var p := SplitOnce(s, '\n');
    if |p| == 2 {
      FrameLinesShape(p[1]);
      var ls := Frame(s).lines;
      var f := Frame(p[1]);
      assert ls == [p[0]] + f.lines;
      forall i | 0 <= i < |ls| ensures NoNewline(ls[i]) {
        if i > 0 {
          assert ls[i] == f.lines[i - 1];
        }
      }
    }
  }

  /** The framing is the only one: newline-free lines and a newline-free
      tail that make up `s` are exactly what `Frame` cuts out of it. */
  lemma {:induction false} FrameUnique(lines: seq<string>, rest: string)
    requires AllLines(lines) && NoNewline(rest)
    ensures Frame(Unframe(lines) + rest) == Framed(lines, rest)
    decreases |lines|
  {
    if lines == [] {
      assert Unframe(lines) + rest == rest;
    } else {
      var tail := Unframe(lines[1..]) + rest;
      assert Unframe(lines) + rest == lines[0] + ['\n'] + tail;
      SplitOnceAt(lines[0], tail, '\n');
      assert AllLines(lines[1..]) by {
        assert forall i :: 0 <= i < |lines[1..]| ==> lines[1..][i] == lines[i + 1];
      }
      FrameUnique(lines[1..], rest);
      assert [lines[0]] + lines[1..] == lines;
    }
  }

  lemma {:induction false} UnframeAppend(a: seq<string>, b: seq<string>)
    ensures Unframe(a + b) == Unframe(a) + Unframe(b)
    decreases |a|
  {
    if a == [] {
      assert a + b == b;
    } else {
      assert (a + b)[1..] == a[1..] + b;
      UnframeAppend(a[1..], b);
    }
  }

  lemma AllLinesAppend(a: seq<string>, b: seq<string>)
    requires AllLines(a) && AllLines(b)
    ensures AllLines(a + b)
  {
    assert forall i :: |a| <= i < |a + b| ==> (a + b)[i] == b[i - |a|];
  }

  /** For decoded text, chunk boundaries do not matter: framing the tail of a first chunk
      together with a second chunk continues the framing of both chunks
      received at once. */
  lemma FrameChunks(s1: string, s2: string)
    ensures var f1 := Frame(s1);
      var f2 := Frame(f1.rest + s2);
      Frame(s1 + s2) == Framed(f1.lines + f2.lines, f2.rest)
  {
    var f1 := Frame(s1);
    var f2 := Frame(f1.rest + s2);
    ChunksText(s1, s2);
    FrameLinesShape(s1);
    FrameLinesShape(f1.rest + s2);
    AllLinesAppend(f1.lines, f2.lines);
    FrameRestShape(f1.rest + s2);
    FrameUnique(f1.lines + f2.lines, f2.rest);
  }

  /** The text of two chunks, re-cut along both framings. */
  lemma ChunksText(s1: string, s2: string)
    ensures var f1 := Frame(s1);
      var f2 := Frame(f1.rest + s2);
      s1 + s2 == Unframe(f1.lines + f2.lines) + f2.rest
  {
    var f1 := Frame(s1);
    var f2 := Frame(f1.rest + s2);
    FrameRoundTrip(s1);
    FrameRoundTrip(f1.rest + s2);
    UnframeAppend(f1.lines, f2.lines);
    Regroup(s1, s2, Unframe(f1.lines), f1.rest, Unframe(f2.lines), f2.rest);
  }

  lemma Regroup(s1: string, s2: string, a: string, r1: string, b: string, r2: string)
    requires s1 == a + r1 && r1 + s2 == b + r2
    ensures s1 + s2 == (a + b) + r2
  {
    calc {
      s1 + s2;
      (a + r1) + s2;
      a + (r1 + s2);
      a + (b + r2);
      (a + b) + r2;
    }
  }

  /** The text of chunks received one after another. */
  function Concat(chunks: seq<string>): string
  {
    if chunks == [] then [] else Concat(chunks[..|chunks| - 1]) + chunks[|chunks| - 1]
  }

  lemma ConcatStep(chunks: seq<string>, i: nat)
    requires i < |chunks|
    ensures Concat(chunks[..i + 1]) == Concat(chunks[..i]) + chunks[i]
  {
    assert chunks[..i + 1][..i] == chunks[..i];
  }

  /** `lines` and `buffer` are what framing the first `i` chunks leaves. */
  ghost predicate Received(chunks: seq<string>, i: nat, lines: seq<string>, buffer: string)
  {
    i <= |chunks| && Concat(chunks[..i]) == Unframe(lines) + buffer && AllLines(lines) && NoNewline(buffer)
  }

  /** What `Received` says, in terms of `Frame`. */
  lemma ReceivedFrame(chunks: seq<string>, i: nat, lines: seq<string>, buffer: string)
    requires Received(chunks, i, lines, buffer)
    ensures Frame(Concat(chunks[..i])) == Framed(lines, buffer)
  {
    FrameUnique(lines, buffer);
  }

  /** One more chunk received: the lines framed so far are kept and the
      lines completed by the chunk follow them. */
  lemma FrameMore(chunks: seq<string>, i: nat, lines: seq<string>, buffer: string, more: seq<string>, rest: string)
    requires i < |chunks| && Received(chunks, i, lines, buffer)
    requires more == Frame(buffer + chunks[i]).lines && rest == Frame(buffer + chunks[i]).rest
    ensures Received(chunks, i + 1, lines + more, rest)
  {
    ReceivedFrame(chunks, i, lines, buffer);
    FrameChunks(Concat(chunks[..i]), chunks[i]);
    ConcatStep(chunks, i);
    var s := Concat(chunks[..i + 1]);
    FrameRoundTrip(s);
    FrameLinesShape(s);
    FrameRestShape(s);
  }

  /** A buffer without a newline is held back whole. */
  lemma FrameNoNewline(s: string)
    requires NoNewline(s)
    ensures Frame(s) == Framed([], s)
  {
  }

  /** One step of the loop: the first line comes off the front. */
  lemma FrameStep(s: string)
    requires !NoNewline(s)
    ensures var p := SplitOnce(s, '\n');
      Frame(s) == Framed([p[0]] + Frame(p[1]).lines, Frame(p[1]).rest)
  {
  }
}
