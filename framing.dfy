/** Line framing of the agent's stdout: the chunk stream is cut at '\n'. */
module Framing {

  /** True when `s` holds no line terminator. */
  predicate NoNewline(s: string)
  {
    '\n' !in s
  }

  predicate AllNoNewline(parts: seq<string>)
  {
    forall i :: 0 <= i < |parts| ==> NoNewline(parts[i])
  }

  /** The pieces glued back together with '\n' between them. */
  function Join(parts: seq<string>): string
    requires |parts| >= 1
  {
    if |parts| == 1 then parts[0] else parts[0] + "\n" + Join(parts[1..])
  }

  /** Kotlin's `s.split("\n")`: always at least one piece (the empty string
      gives [""]), no piece holds '\n', and the pieces rejoin to `s`. */
  function Split(s: string): (parts: seq<string>)
    ensures |parts| >= 1
    ensures AllNoNewline(parts)
    ensures Join(parts) == s
  {
    if s == [] then [""]
    else
      var rest := Split(s[1..]);
      if s[0] == '\n' then
        [""] + rest
      else
        var parts := [[s[0]] + rest[0]] + rest[1..];
        assert parts[1..] == rest[1..];
        parts
  }

  lemma {:induction false} SplitNoNewline(x: string)
    requires NoNewline(x)
    ensures Split(x) == [x]
  {
    if x != [] {
      assert NoNewline(x[1..]) by { assert forall c :: c in x[1..] ==> c in x; }
      SplitNoNewline(x[1..]);
      assert [x[0]] + x[1..] == x;
    }
  }

  lemma {:induction false} SplitAfterLine(x: string, rest: string)
    requires NoNewline(x)
    ensures Split(x + "\n" + rest) == [x] + Split(rest)
  {
    var s := x + "\n" + rest;
    if x == [] {
      assert s == "\n" + rest && s[1..] == rest;
    } else {
      assert s[0] == x[0] && x[0] != '\n';
      assert s[1..] == x[1..] + "\n" + rest;
      assert NoNewline(x[1..]) by { assert forall c :: c in x[1..] ==> c in x; }
      SplitAfterLine(x[1..], rest);
      assert [x[0]] + x[1..] == x;
    }
  }

  /** Splitting undoes joining: newline-free pieces are recovered exactly. */
  lemma {:induction false} SplitJoin(parts: seq<string>)
    requires |parts| >= 1 && AllNoNewline(parts)
    ensures Split(Join(parts)) == parts
  {
    if |parts| == 1 {
      SplitNoNewline(parts[0]);
    } else {
      SplitJoin(parts[1..]);
      SplitAfterLine(parts[0], Join(parts[1..]));
    }
  }

  lemma {:induction false} JoinAppend(a: seq<string>, b: seq<string>)
    requires |a| >= 1 && |b| >= 1
    ensures Join(a + b) == Join(a) + "\n" + Join(b)
  {
    if |a| == 1 {
      assert (a + b)[1..] == b;
    } else {
      assert (a + b)[1..] == a[1..] + b;
      JoinAppend(a[1..], b);
    }
  }

  /** One stdout chunk on top of the partial line `buffer`: the complete lines
      it finishes, in arrival order, and the new partial line. */
  function Feed(buffer: string, text: string): (r: (seq<string>, string))
    ensures Join(r.0 + [r.1]) == buffer + text
    ensures AllNoNewline(r.0) && NoNewline(r.1)
  {
    var parts := Split(buffer + text);
    assert parts[..|parts| - 1] + [parts[|parts| - 1]] == parts;
    (parts[..|parts| - 1], parts[|parts| - 1])
  }

  /** The framing is determined by its two promises: any newline-free lines
      and newline-free rest that rejoin to the input are what Feed returns. */
  lemma FeedUnique(buffer: string, text: string, lines: seq<string>, rest: string)
    requires AllNoNewline(lines) && NoNewline(rest)
    requires Join(lines + [rest]) == buffer + text
    ensures Feed(buffer, text) == (lines, rest)
  {
    var r := Feed(buffer, text);
    SplitJoin(lines + [rest]);
    SplitJoin(r.0 + [r.1]);
    assert r.0 + [r.1] == lines + [rest];
    assert r.0 == (r.0 + [r.1])[..|r.0|];
    assert lines == (lines + [rest])[..|lines|];
  }

  /** The new partial line is the tail of the stream after its last newline;
      a stream without a newline finishes no line. */
  lemma FeedTail(buffer: string, text: string)
    ensures |Feed(buffer, text).1| <= |buffer + text|
    ensures Feed(buffer, text).1 == (buffer + text)[|buffer + text| - |Feed(buffer, text).1|..]
    ensures NoNewline(buffer + text) <==> Feed(buffer, text).0 == []
  {
    var (lines, rest) := Feed(buffer, text);
    if lines != [] {
      JoinAppend(lines, [rest]);
      assert '\n' in buffer + text by {
        assert (buffer + text)[|Join(lines)|] == '\n';
      }
    } else {
      assert lines + [rest] == [rest];
    }
  }

  /** Chunk boundaries are invisible: feeding `x` then `y` dispatches the same
      lines, in the same order, and leaves the same partial line as feeding
      `x + y` at once. */
  lemma FeedConcat(buffer: string, x: string, y: string)
    ensures Feed(buffer, x + y) == (Feed(buffer, x).0 + Feed(Feed(buffer, x).1, y).0, Feed(Feed(buffer, x).1, y).1)
  {
    var (l1, r1) := Feed(buffer, x);
    var (l2, r2) := Feed(r1, y);
    if l1 == [] {
      assert l1 + l2 + [r2] == l2 + [r2];
      assert r1 == buffer + x;
    } else {
      JoinAppend(l1, l2 + [r2]);
      JoinAppend(l1, [r1]);
      assert l1 + l2 + [r2] == l1 + (l2 + [r2]);
    }
    assert buffer + (x + y) == (buffer + x) + y;
    FeedUnique(buffer, x + y, l1 + l2, r2);
  }
}
