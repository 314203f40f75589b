/** How the merged stdout/stderr of the subprocess becomes log lines: the
    stream is read with `readline(LOG_LINE_MAX_LENGTH)` until the empty
    read, and each read has its trailing line terminators stripped. The
    stream is modelled as the already-decoded characters the text pipe
    delivers. */
module OutputStream {

  /** `LOG_LINE_MAX_LENGTH`: the most characters one read returns. */
  const LogLineMaxLength: nat := 64 * 1000

  predicate IsLineEnd(c: char) {
    c == '\n' || c == '\r'
  }

  predicate EndsWithLineEnd(s: string) {
    |s| > 0 && IsLineEnd(s[|s| - 1])
  }

  /** `stream.readline(limit)` on the remaining stream `s`: the characters up
      to and including the first newline, but never more than `limit`. */
  function ReadLine(s: string, limit: nat): (line: string)
    // at most `limit` characters of what is left
    ensures |line| <= limit && |line| <= |s|
    // empty only at the end of the stream
    ensures s != [] && limit > 0 ==> line != []
    decreases limit
  {
    if s == [] || limit == 0 then []
    else if s[0] == '\n' then [s[0]]
    else [s[0]] + ReadLine(s[1..], limit - 1)
  }

  /** What `readline(limit)` returns is exactly the next line: a prefix of
      the stream with a newline, if any, only at its end, and it stops at the
      first newline, at the limit, or at the end of the stream. */
  lemma {:induction false} ReadLineIsNextLine(s: string, limit: nat)
    ensures var line := ReadLine(s, limit);
            && line == s[..|line|]
            && (forall i :: 0 <= i < |line| - 1 ==> line[i] != '\n')
            && (|line| == limit || |line| == |s| || (line != [] && line[|line| - 1] == '\n'))
    decreases limit
  {
    if s != [] && limit != 0 && s[0] != '\n' {
      ReadLineIsNextLine(s[1..], limit - 1);
      var rest := ReadLine(s[1..], limit - 1);
      assert ReadLine(s, limit) == [s[0]] + rest;
      assert rest == s[1..][..|rest|];
    }
  }

  /** `line.rstrip("\n\r")`: drop every trailing newline and carriage return. */
  function RStripLineEnds(s: string): (r: string)
    ensures |r| <= |s|
    ensures !EndsWithLineEnd(r)
  {
    if EndsWithLineEnd(s) then RStripLineEnds(s[..|s| - 1]) else s
  }

  /** `rstrip` removes only line terminators, and only from the end: the
      result is a prefix and everything after it is a newline or a carriage
      return. */
  lemma {:induction false} RStripRemovesOnlyLineEnds(s: string)
    ensures var r := RStripLineEnds(s);
            r == s[..|r|] && forall i :: |r| <= i < |s| ==> IsLineEnd(s[i])
    decreases |s|
  {
    if EndsWithLineEnd(s) {
      var t := s[..|s| - 1];
      RStripRemovesOnlyLineEnds(t);
      var r := RStripLineEnds(t);
      assert r == t[..|r|] == s[..|r|];
    }
  }

  /** The successive non-empty reads the loop makes before the empty read
      that ends it. */
  function Reads(s: string): (chunks: seq<string>)
    ensures forall i :: 0 <= i < |chunks| ==> 0 < |chunks[i]| <= LogLineMaxLength
    decreases |s|
  {
    if s == [] then []
    else
      var line := ReadLine(s, LogLineMaxLength);
      [line] + Reads(s[|line|..])
  }

  function Concat(parts: seq<string>): string {
    if parts == [] then [] else parts[0] + Concat(parts[1..])
  }

  /** Every read stripped of its trailing line terminators. */
  function StripEach(chunks: seq<string>): seq<string> {
    seq(|chunks|, i requires 0 <= i < |chunks| => RStripLineEnds(chunks[i]))
  }

  /** The lines the loop hands to the logger, in order: each read with its
      trailing line terminators stripped. */
  function LoggedLines(s: string): seq<string>
    decreases |s|
  {
    if s == [] then []
    else
      var line := ReadLine(s, LogLineMaxLength);
      [RStripLineEnds(line)] + LoggedLines(s[|line|..])
  }

  /** Every logged line fits the cap and has no line terminator at its end. */
  lemma {:induction false} LoggedLinesAreBounded(s: string)
    ensures forall i :: 0 <= i < |LoggedLines(s)| ==>
              |LoggedLines(s)[i]| <= LogLineMaxLength && !EndsWithLineEnd(LoggedLines(s)[i])
    decreases |s|
  {
    if s != [] {
      LoggedLinesAreBounded(s[|ReadLine(s, LogLineMaxLength)|..]);
    }
  }

  /** One logged line per read: the logged lines are the reads, stripped. */
  lemma {:induction false} LoggedLinesAreStrippedReads(s: string)
    ensures LoggedLines(s) == StripEach(Reads(s))
    decreases |s|
  {
    if s != [] {
      var line := ReadLine(s, LogLineMaxLength);
      LoggedLinesAreStrippedReads(s[|line|..]);
      StripEachCons(line, Reads(s[|line|..]));
    }
  }

  /** One turn of the reading loop keeps "the lines logged so far, then the
      lines of what is left, are the lines of the whole stream". */
  lemma ReadStep(stream: string, rest: string, lines: seq<string>, line: string, whole: string)
    requires line == ReadLine(stream, LogLineMaxLength) && line != []
    requires rest == stream[|line|..]
    requires lines + LoggedLines(stream) == LoggedLines(whole)
    ensures (lines + [RStripLineEnds(line)]) + LoggedLines(rest) == LoggedLines(whole)
  {
  }

  /** The empty read comes only at the end of the stream, and by then every
      line has been logged. */
  lemma ReadEnd(stream: string, lines: seq<string>, whole: string)
    requires ReadLine(stream, LogLineMaxLength) == []
    requires lines + LoggedLines(stream) == LoggedLines(whole)
    ensures lines == LoggedLines(whole)
  {
  }

  /** A read followed by what is left is the stream it was read from. */
  lemma ReadLineSplits(s: string, limit: nat)
    ensures var line := ReadLine(s, limit); s == line + s[|line|..]
  {
    ReadLineIsNextLine(s, limit);
  }

  lemma ConcatCons(part: string, parts: seq<string>)
    ensures Concat([part] + parts) == part + Concat(parts)
  {
    assert ([part] + parts)[1..] == parts;
  }

  /** Nothing is lost or reordered: the raw reads put together are the
      whole stream. */
  lemma {:induction false} ReadsCoverStream(s: string)
    ensures Concat(Reads(s)) == s
    decreases |s|
  {
    if s != [] {
      var line := ReadLine(s, LogLineMaxLength);
      var rest := s[|line|..];
      ReadsCoverStream(rest);
      ConcatCons(line, Reads(rest));
      ReadLineSplits(s, LogLineMaxLength);
    }
  }

  /** A bare newline does not end the loop: it is logged as an empty line
      and reading goes on. */
  lemma BareNewlineIsEmptyLine(s: string)
    ensures LoggedLines("\n" + s) == [""] + LoggedLines(s)
  {
  }

  /** Reading never stalls on a line longer than the cap: its first
      `LogLineMaxLength` characters are one read, and the rest of the stream
      is read as if it started there. */
  lemma LongLineIsCut(s: string)
    requires |s| > LogLineMaxLength
    requires forall i :: 0 <= i < LogLineMaxLength - 1 ==> s[i] != '\n'
    ensures Reads(s) == [s[..LogLineMaxLength]] + Reads(s[LogLineMaxLength..])
  {
    ReadLineIsNextLine(s, LogLineMaxLength);
  }

  /** A line that the child writes in one piece and that the loop logs
      unchanged: shorter than the cap, with no newline in it and no carriage
      return at its end. */
  predicate PlainLine(l: string) {
    |l| < LogLineMaxLength &&
    (forall i :: 0 <= i < |l| ==> l[i] != '\n') &&
    !EndsWithLineEnd(l)
  }

  /** The stream a child produces by writing each line followed by a newline. */
  function JoinLines(lines: seq<string>): string {
    if lines == [] then [] else lines[0] + "\n" + JoinLines(lines[1..])
  }

  /** A line with no newline, shorter than the limit, is read in one piece
      together with the newline that ends it. */
  lemma {:induction false} ReadLineOfPlainLine(l: string, rest: string, limit: nat)
    requires |l| < limit
    requires forall i :: 0 <= i < |l| ==> l[i] != '\n'
    ensures ReadLine(l + "\n" + rest, limit) == l + "\n"
    decreases |l|
  {
    var s := l + "\n" + rest;
    if l == [] {
      assert s[0] == '\n';
    } else {
      assert s[0] == l[0];
      assert s[1..] == l[1..] + "\n" + rest;
      ReadLineOfPlainLine(l[1..], rest, limit - 1);
    }
  }

  /** Stripping such a line together with its newline gives the line back. */
  lemma StripOfPlainLine(l: string)
    requires PlainLine(l)
    ensures RStripLineEnds(l + "\n") == l
  {
  }

  /** Stripping the reads one at a time, from the front. */
  lemma StripEachCons(chunk: string, chunks: seq<string>)
    ensures StripEach([chunk] + chunks) == [RStripLineEnds(chunk)] + StripEach(chunks)
  {
  }

  /** A child that writes plain lines has exactly those lines logged. */
  lemma {:induction false} PlainLinesLoggedVerbatim(lines: seq<string>)
    requires forall k :: 0 <= k < |lines| ==> PlainLine(lines[k])
    ensures LoggedLines(JoinLines(lines)) == lines
    decreases |lines|
  {
    if lines != [] {
      var l, rest := lines[0], JoinLines(lines[1..]);
      var s := JoinLines(lines);
      assert s == l + "\n" + rest;
      ReadLineOfPlainLine(l, rest, LogLineMaxLength);
      assert s[|l| + 1..] == rest;
      StripOfPlainLine(l);
      assert LoggedLines(s) == [l] + LoggedLines(rest);
      PlainLinesLoggedVerbatim(lines[1..]);
    }
  }
}
