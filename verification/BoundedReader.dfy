/** Reading replies line by line from a stream cut into chunks, with a bound on what is buffered. */
module BoundedReader {
  import opened Outcomes

  const LIMIT := 1_048_576

  /** A text read so far: its finished lines and the line that is not finished. */
  datatype Reading = Reading(lines: seq<string>, tail: string)

  function Feed(r: Reading, c: char): Reading {
    if c == '\n' then Reading(r.lines + [r.tail], "") else Reading(r.lines, r.tail + [c])
  }

  function Scan(r: Reading, text: string): Reading
    decreases |text|
  {
    if text == "" then r else Scan(Feed(r, text[0]), text[1..])
  }

  const START := Reading([], "")

  /** No line, finished or not, is longer than the limit. */
  predicate Fits(r: Reading) {
    |r.tail| <= LIMIT && forall k :: 0 <= k < |r.lines| ==> |r.lines[k]| <= LIMIT
  }

  function Join(chunks: seq<string>): string {
    if chunks == [] then "" else Join(chunks[..|chunks| - 1]) + chunks[|chunks| - 1]
  }

  lemma {:induction false} ScanAppend(r: Reading, a: string, b: string)
    ensures Scan(r, a + b) == Scan(Scan(r, a), b)
    decreases |a|
  {
    if a == "" {
      assert a + b == b;
    } else {
      assert (a + b)[0] == a[0] && (a + b)[1..] == a[1..] + b;
      ScanAppend(Feed(r, a[0]), a[1..], b);
    }
  }

  lemma {:induction false} ScanWithin(r: Reading, text: string)
    requires '\n' !in text
    ensures Scan(r, text) == Reading(r.lines, r.tail + text)
    decreases |text|
  {
    if text == "" {
      assert r.tail + text == r.tail;
    } else {
      ScanWithin(Feed(r, text[0]), text[1..]);
      assert r.tail + [text[0]] + text[1..] == r.tail + text;
    }
  }

  lemma ScanLine(r: Reading, line: string)
    requires '\n' !in line
    ensures Scan(r, line + "\n") == Reading(r.lines + [r.tail + line], "")
  {
    ScanAppend(r, line, "\n");
    ScanWithin(r, line);
    var s := Reading(r.lines, r.tail + line);
    assert Scan(s, "\n") == Scan(Feed(s, '\n'), "");
  }

  /** What was too long stays too long whatever follows. */
  lemma {:induction false} TooLongStays(r: Reading, text: string)
    requires !Fits(r)
    ensures !Fits(Scan(r, text))
    decreases |text|
  {
    if text != "" {
      var next := Feed(r, text[0]);
      if |r.tail| > LIMIT {
        assert text[0] == '\n' ==> next.lines[|r.lines|] == r.tail;
      } else {
        var k :| 0 <= k < |r.lines| && |r.lines[k]| > LIMIT;
        assert next.lines[k] == r.lines[k];
      }
      TooLongStays(next, text[1..]);
    }
  }

  lemma {:induction false} ScanKeepsLines(r: Reading, lines: seq<string>, text: string)
    ensures Scan(Reading(lines + r.lines, r.tail), text) == Reading(lines + Scan(r, text).lines, Scan(r, text).tail)
    decreases |text|
  {
    if text != "" {
      var next := Feed(r, text[0]);
      assert text[0] == '\n' ==> lines + r.lines + [r.tail] == lines + (r.lines + [r.tail]);
      ScanKeepsLines(next, lines, text[1..]);
    }
  }

  lemma {:induction false} TailHasNoNewline(r: Reading, text: string)
    requires '\n' !in r.tail
    ensures '\n' !in Scan(r, text).tail
    decreases |text|
  {
    if text != "" {
      TailHasNoNewline(Feed(r, text[0]), text[1..]);
    }
  }

  /** Lines put back together, each with its newline. */
  function Glued(lines: seq<string>): string {
    if lines == [] then "" else Glued(lines[..|lines| - 1]) + lines[|lines| - 1] + "\n"
  }

  /** A text is its finished lines, each with its newline, and the rest; none of them has a newline in it. */
  lemma {:induction false} LinesAndRest(text: string)
    ensures Glued(Scan(START, text).lines) + Scan(START, text).tail == text
    ensures '\n' !in Scan(START, text).tail
    ensures forall line :: line in Scan(START, text).lines ==> '\n' !in line
    decreases |text|
  {
    if text == "" {
      assert Scan(START, text) == START;
    } else {
      var front, last := text[..|text| - 1], text[|text| - 1];
      LinesAndRest(front);
      ScanAppend(START, front, [last]);
      var r := Scan(START, front);
      assert front + [last] == text;
      assert Scan(r, [last]) == Feed(r, last) by { assert [last][0] == last && [last][1..] == ""; }
      assert (r.lines + [r.tail])[..|r.lines|] == r.lines;
      assert Glued(r.lines) + r.tail + [last] == text;
      assert Glued(r.lines) + (r.tail + [last]) == Glued(r.lines) + r.tail + [last];
    }
  }

  /** Joining keeps the order of the chunks and all they hold. */
  lemma {:induction false} JoinedChunks(a: seq<string>, b: seq<string>, chunk: string)
    ensures Join([chunk]) == chunk && Join(a + b) == Join(a) + Join(b)
    decreases |b|
  {
    assert [chunk][..0] == [] && "" + chunk == chunk;
    if b == [] {
      assert a + b == a && Join(a) + "" == Join(a);
    } else {
      var n := |b| - 1;
      JoinedChunks(a, b[..n], chunk);
      assert (a + b)[..|a| + n] == a + b[..n] && (a + b)[|a| + n] == b[n];
    }
  }

  /** indexOf('\n', start) */
  method NextNewline(text: string, start: nat) returns (k: int)
    requires start <= |text|
    ensures k == -1 || start <= k < |text|
    ensures k >= 0 ==> text[k] == '\n' && '\n' !in text[start..k]
    ensures k < 0 ==> '\n' !in text[start..]
  {
    k := start;
    while k < |text|
      invariant start <= k <= |text| && '\n' !in text[start..k]
    {
      if text[k] == '\n' { return; }
      k := k + 1;
    }
    assert text[start..] == text[start..k];
    return -1;
  }

  /** appendBoundedCloudReply: refuses a part that makes any line, or the rest, too long. */
  method Append(buffer: string, part: string) returns (r: Outcome<string>)
    requires '\n' !in buffer && |buffer| <= LIMIT
    ensures !r.Crashed? && (r.Done? <==> Fits(Scan(Reading([], buffer), part)))
    ensures r.Done? ==> r.value == buffer + part
  {
    var length, start := |buffer|, 0;
    ghost var read := Reading([], buffer);
    assert part[..0] == "";
    var newline := NextNewline(part, start);
    while newline >= 0
      invariant 0 <= start <= |part| && (newline == -1 || start <= newline < |part|)
      invariant newline >= 0 ==> part[newline] == '\n' && '\n' !in part[start..newline]
      invariant newline < 0 ==> '\n' !in part[start..]
      invariant read == Scan(Reading([], buffer), part[..start]) && Fits(read) && length == |read.tail|
      decreases |part| - start
    {
      var line := part[start..newline];
      assert part[..newline + 1] == part[..start] + (line + "\n");
      ScanAppend(Reading([], buffer), part[..start], line + "\n");
      ScanLine(read, line);
      if length + newline - start > LIMIT {
        ghost var next := Reading(read.lines + [read.tail + line], "");
        assert next.lines[|read.lines|] == read.tail + line;
        TooLongStays(next, part[newline + 1..]);
        assert part == part[..newline + 1] + part[newline + 1..];
        ScanAppend(Reading([], buffer), part[..newline + 1], part[newline + 1..]);
        return Refused;
      }
      read := Reading(read.lines + [read.tail + line], "");
      length := 0;
      start := newline + 1;
      newline := NextNewline(part, start);
    }
    assert part == part[..start] + part[start..];
    ScanAppend(Reading([], buffer), part[..start], part[start..]);
    ScanWithin(read, part[start..]);
    if length + |part| - start > LIMIT { return Refused; }
    return Done(buffer + part);
  }

  /** Takes the finished lines out of a buffer. */
  method Drain(buffer: string) returns (lines: seq<string>, rest: string)
    ensures Reading(lines, rest) == Scan(START, buffer)
  {
    lines, rest := [], buffer;
    var position := NextNewline(rest, 0);
    assert START.lines + [] == [];
    while position >= 0
      invariant position == -1 || 0 <= position < |rest|
      invariant position >= 0 ==> rest[position] == '\n' && '\n' !in rest[..position]
      invariant position < 0 ==> '\n' !in rest
      invariant Scan(START, buffer) == Scan(Reading(lines, ""), rest)
      decreases |rest|
    {
      var line := rest[..position];
      assert rest == (line + "\n") + rest[position + 1..];
      ScanAppend(Reading(lines, ""), line + "\n", rest[position + 1..]);
      ScanLine(Reading(lines, ""), line);
      assert "" + line == line;
      lines := lines + [line];
      rest := rest[position + 1..];
      position := NextNewline(rest, 0);
      assert position >= 0 ==> rest[0..position] == rest[..position];
      assert rest[0..] == rest;
    }
    ScanWithin(Reading(lines, ""), rest);
    assert "" + rest == rest;
  }

  lemma ReadOn(buffer: string, part: string)
    requires '\n' !in buffer
    ensures Scan(START, buffer + part) == Scan(Reading([], buffer), part)
  {
    ScanAppend(START, buffer, part);
    ScanWithin(START, buffer);
    assert "" + buffer == buffer;
  }

  /** The reader's loop. However the stream is cut, it is refused exactly when some line, or the rest, is too
      long; otherwise the same lines come out, and what is kept back has no newline and fits the limit. */
  method Read(chunks: seq<string>) returns (r: Outcome<Reading>)
    ensures !r.Crashed? && (r.Done? <==> Fits(Scan(START, Join(chunks))))
    ensures r.Done? ==> r.value == Scan(START, Join(chunks)) && '\n' !in r.value.tail && |r.value.tail| <= LIMIT
  {
    var buffer, lines := "", [];
    for k := 0 to |chunks|
      invariant Reading(lines, buffer) == Scan(START, Join(chunks[..k])) && Fits(Reading(lines, buffer)) && '\n' !in buffer
    {
      assert chunks[..k + 1][..k] == chunks[..k];
      ScanAppend(START, Join(chunks[..k]), chunks[k]);
      ghost var read := Scan(Reading(lines, buffer), chunks[k]);
      OneChunk(lines, buffer, chunks[k]);
      var appended := Append(buffer, chunks[k]);
      if !appended.Done? {
        StaysRefused(chunks, k);
        return Refused;
      }
      ReadOn(buffer, chunks[k]);
      TailHasNoNewline(Reading([], buffer), chunks[k]);
      var more, rest := Drain(appended.value);
      lines, buffer := lines + more, rest;
    }
    assert chunks[..|chunks|] == chunks;
    return Done(Reading(lines, buffer));
  }

  lemma OneChunk(lines: seq<string>, buffer: string, chunk: string)
    requires Fits(Reading(lines, buffer))
    ensures var here := Scan(Reading([], buffer), chunk);
            && Scan(Reading(lines, buffer), chunk) == Reading(lines + here.lines, here.tail)
            && (Fits(Scan(Reading(lines, buffer), chunk)) <==> Fits(here))
  {
    var here := Scan(Reading([], buffer), chunk);
    ScanKeepsLines(Reading([], buffer), lines, chunk);
    assert lines + [] == lines;
    assert forall k :: 0 <= k < |here.lines| ==> (lines + here.lines)[|lines| + k] == here.lines[k];
  }

  lemma {:induction false} StaysRefused(chunks: seq<string>, k: nat)
    requires k < |chunks| && !Fits(Scan(START, Join(chunks[..k + 1])))
    ensures !Fits(Scan(START, Join(chunks)))
    decreases |chunks| - k
  {
    if k + 1 < |chunks| {
      assert chunks[..k + 2][..k + 1] == chunks[..k + 1];
      ScanAppend(START, Join(chunks[..k + 1]), chunks[k + 1]);
      TooLongStays(Scan(START, Join(chunks[..k + 1])), chunks[k + 1]);
      StaysRefused(chunks, k + 1);
    } else {
      assert chunks[..k + 1] == chunks;
    }
  }
}
