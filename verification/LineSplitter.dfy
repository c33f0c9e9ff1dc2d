/** The streaming line splitter of src/metadata.c, which feeds a testinfo file to the parser line by line. */
module LineSplitterModel {
  import opened Common

  /** What parse_line makes of the last of the lines it has been given. */
  type LineParser = seq<string> -> bool

  /** The parse buffer, the lines passed to parse_line so far, and whether one of them was in error. */
  datatype Parser = Parser(buffer: string, lines: seq<string>, failed: bool)

  const START := Parser("", [], false)

  /** flush_parse_buffer */
  function Flush(fails: LineParser, p: Parser): Parser {
    if p.buffer == "" then p
    else
      var lines := p.lines + [p.buffer];
      Parser("", lines, fails(lines))
  }

  /** The old style terminator in front of a newline. */
  function StripCr(s: string): string {
    if s != "" && s[|s| - 1] == '\r' then s[..|s| - 1] else s
  }

  /** file_parse_data on one character; after an error the rest of the data is not looked at. */
  function Feed(fails: LineParser, p: Parser, c: char): Parser {
    if p.failed then p
    else if c == '\n' then Flush(fails, p.(buffer := StripCr(p.buffer)))
    else p.(buffer := p.buffer + [c])
  }

  function FeedAll(fails: LineParser, p: Parser, data: string): Parser
    decreases |data|
  {
    if data == "" then p else FeedAll(fails, Feed(fails, p, data[0]), data[1..])
  }

  /** The end of the file: what is left in the buffer is a line, too. */
  function Finish(fails: LineParser, p: Parser): Parser {
    if p.failed then p else Flush(fails, p)
  }

  /** A read from the file; interrupted ones are tried again. */
  datatype Read = Chunk(data: string) | Interrupted | ReadError

  /** What fstat says of the file. */
  datatype File = Regular | NotRegular | StatError

  /** parse_testinfo_from_fd: the reads it makes before it meets the end of the file or an error. */
  function Parse(fails: LineParser, p: Parser, input: seq<Read>): Option<Parser>
    decreases |input|
  {
    if p.failed || input == [] then Some(Finish(fails, p))
    else
      match input[0]
      case Interrupted => Parse(fails, p, input[1..])
      case ReadError => None
      case Chunk(data) => Parse(fails, FeedAll(fails, p, data), input[1..])
  }
}

module LineSplitterTheorems {
  import opened Common
  import opened LineSplitterModel

  // ---- the reference: splitting a whole file at once ----------------------------------------------------

  function NewlineAt(s: string): (n: nat)
    ensures n <= |s| && (n < |s| ==> s[n] == '\n') && forall i :: 0 <= i < n ==> s[i] != '\n'
  {
    if s == "" || s[0] == '\n' then 0 else 1 + NewlineAt(s[1..])
  }

  function Keep(line: string): seq<string> {
    if line == "" then [] else [line]
  }

  /** The lines of a text: those that end in a newline without one carriage return in front of it, the last
    * one as it is, and empty ones left out. */
  function SplitLines(s: string): seq<string>
    decreases |s|
  {
    var n := NewlineAt(s);
    if n == |s| then Keep(s)
    else Keep(s[..if n > 0 && s[n - 1] == '\r' then n - 1 else n]) + SplitLines(s[n + 1..])
  }

  /** The lines up to and including the first that is in error, and whether there is one. */
  function UpToError(fails: LineParser, done: seq<string>, lines: seq<string>): (seq<string>, bool)
    decreases |lines|
  {
    if lines == [] then (done, false)
    else
      var more := done + [lines[0]];
      if fails(more) then (more, true) else UpToError(fails, more, lines[1..])
  }

  // ---- one chunk or many --------------------------------------------------------------------------------

  /** Where the data is cut makes no difference. */
  lemma {:induction false} FeedJoins(fails: LineParser, p: Parser, a: string, b: string)
    ensures FeedAll(fails, FeedAll(fails, p, a), b) == FeedAll(fails, p, a + b)
    decreases |a|
  {
    hide Feed;
    if a == "" {
      assert a + b == b;
    } else {
      FeedJoins(fails, Feed(fails, p, a[0]), a[1..], b);
      assert (a + b)[0] == a[0] && (a + b)[1..] == a[1..] + b;
    }
  }

  lemma {:induction false} FailedStays(fails: LineParser, p: Parser, data: string)
    requires p.failed
    ensures FeedAll(fails, p, data) == p
    decreases |data|
  {
    if data != "" {
      FailedStays(fails, p, data[1..]);
    }
  }

  // ---- the splitter is the reference --------------------------------------------------------------------

  predicate NoNewline(s: string) {
    forall i :: 0 <= i < |s| ==> s[i] != '\n'
  }

  lemma NewlineFound(b: string, rest: string)
    requires NoNewline(b)
    ensures NewlineAt(b + ['\n'] + rest) == |b|
  {
    var s := b + ['\n'] + rest;
    assert s[|b|] == '\n' && forall i :: 0 <= i < |b| ==> s[i] != '\n';
  }

  lemma LineEnds(b: string, rest: string)
    requires NoNewline(b)
    ensures SplitLines(b + ['\n'] + rest) == Keep(StripCr(b)) + SplitLines(rest)
  {
    hide Keep, NewlineAt;
    NewlineFound(b, rest);
    var s := b + ['\n'] + rest;
    assert s[..|b|] == b && s[|b| + 1..] == rest;
    assert b != "" ==> s[|b| - 1] == b[|b| - 1] && s[..|b| - 1] == b[..|b| - 1];
  }

  lemma LastLine(b: string)
    requires NoNewline(b)
    ensures SplitLines(b) == Keep(b)
  {
    assert NewlineAt(b) == |b|;
  }

  /** Flushing a line is taking it from the front of the lines still to come. */
  lemma FlushTakes(fails: LineParser, p: Parser, rest: seq<string>)
    requires !p.failed
    ensures var q := Flush(fails, p);
            && q.buffer == ""
            && (q.failed ==> UpToError(fails, p.lines, Keep(p.buffer) + rest) == (q.lines, true))
            && (!q.failed ==> UpToError(fails, p.lines, Keep(p.buffer) + rest) == UpToError(fails, q.lines, rest))
  {
    if p.buffer == "" {
      assert Keep(p.buffer) + rest == rest;
    } else {
      assert (Keep(p.buffer) + rest)[0] == p.buffer && (Keep(p.buffer) + rest)[1..] == rest;
    }
  }

  lemma {:induction false} SplitterIsReference(fails: LineParser, p: Parser, s: string)
    requires !p.failed && NoNewline(p.buffer)
    ensures var q := Finish(fails, FeedAll(fails, p, s));
            (q.lines, q.failed) == UpToError(fails, p.lines, SplitLines(p.buffer + s))
    decreases |s|
  {
    hide UpToError, SplitLines, StripCr, Flush, Keep;
    if s == "" {
      assert p.buffer + s == p.buffer;
      LastLine(p.buffer);
      FlushTakes(fails, p, []);
      assert Keep(p.buffer) + [] == Keep(p.buffer);
      NothingToCome(fails, Flush(fails, p).lines);
    } else if s[0] == '\n' {
      var stripped := p.(buffer := StripCr(p.buffer));
      assert p.buffer + s == p.buffer + ['\n'] + s[1..];
      LineEnds(p.buffer, s[1..]);
      FlushTakes(fails, stripped, SplitLines(s[1..]));
      var q := Flush(fails, stripped);
      if q.failed {
        FailedStays(fails, q, s[1..]);
      } else {
        SplitterIsReference(fails, q, s[1..]);
        assert "" + s[1..] == s[1..];
      }
    } else {
      SplitterIsReference(fails, p.(buffer := p.buffer + [s[0]]), s[1..]);
      assert p.buffer + [s[0]] + s[1..] == p.buffer + s;
    }
  }

  lemma NothingToCome(fails: LineParser, done: seq<string>)
    ensures UpToError(fails, done, []) == (done, false)
  {
  }

  // ---- whole files ----------------------------------------------------------------------------------------

  function Text(input: seq<Read>): string {
    if input == [] then ""
    else (match input[0] case Chunk(data) => data case _ => "") + Text(input[1..])
  }

  predicate NoReadError(input: seq<Read>) {
    forall i :: 0 <= i < |input| ==> !input[i].ReadError?
  }

  lemma {:induction false} ParseIsOneFeed(fails: LineParser, p: Parser, input: seq<Read>)
    requires NoReadError(input)
    ensures Parse(fails, p, input) == Some(Finish(fails, FeedAll(fails, p, Text(input))))
    decreases |input|
  {
    hide FeedAll, Finish;
    if p.failed {
      FailedStays(fails, p, Text(input));
    } else if input == [] {
      FeedNothing(fails, p);
    } else {
      match input[0] {
        case Interrupted =>
          ParseIsOneFeed(fails, p, input[1..]);
          assert "" + Text(input[1..]) == Text(input[1..]);
        case Chunk(data) =>
          ParseIsOneFeed(fails, FeedAll(fails, p, data), input[1..]);
          FeedJoins(fails, p, data, Text(input[1..]));
      }
    }
  }

  lemma FeedNothing(fails: LineParser, p: Parser)
    ensures FeedAll(fails, p, "") == p
  {
  }

  /** However the file comes in, the parser is given the lines of the whole text, up to the first that it
    * rejects, and the file is accepted exactly if it rejects none. */
  lemma LinesDoNotDependOnReads(fails: LineParser, input: seq<Read>)
    requires NoReadError(input)
    ensures var q := Parse(fails, START, input);
            q.Some? && (q.value.lines, q.value.failed) == UpToError(fails, [], SplitLines(Text(input)))
  {
    hide UpToError, SplitLines, FeedAll, Parse;
    ParseIsOneFeed(fails, START, input);
    SplitterIsReference(fails, START, Text(input));
    assert "" + Text(input) == Text(input);
  }

  /** A read error ends the parse without a result, unless a line had been rejected before it. */
  lemma {:induction false} ReadErrorEnds(fails: LineParser, p: Parser, before: seq<Read>, rest: seq<Read>)
    requires NoReadError(before)
    ensures Parse(fails, p, before + [ReadError] + rest)
         == var q := FeedAll(fails, p, Text(before)); if q.failed then Some(q) else None
    decreases |before|
  {
    hide FeedAll, Finish;
    var input := before + [ReadError] + rest;
    if p.failed {
      FailedStays(fails, p, Text(before));
      FailedFinishes(fails, p);
    } else if before == [] {
      FeedNothing(fails, p);
      assert input[0] == ReadError;
    } else {
      assert input[0] == before[0] && input[1..] == before[1..] + [ReadError] + rest;
      match before[0] {
        case Interrupted =>
          ReadErrorEnds(fails, p, before[1..], rest);
          assert "" + Text(before[1..]) == Text(before[1..]);
        case Chunk(data) =>
          ReadErrorEnds(fails, FeedAll(fails, p, data), before[1..], rest);
          FeedJoins(fails, p, data, Text(before[1..]));
      }
    }
  }

  lemma FailedFinishes(fails: LineParser, p: Parser)
    requires p.failed
    ensures Finish(fails, p) == p
  {
  }
}

/** The splitter with its growing buffer. */
module LineSplitter {
  import opened Common
  import M = LineSplitterModel
  import Theorems = LineSplitterTheorems

  class TestInfoParser {
    var parseBuffer: string
    var failed: bool
    var lines: seq<string>
    const fails: M.LineParser

    constructor (fails: M.LineParser)
      ensures View() == M.START && this.fails == fails
    {
      parseBuffer, failed, lines, this.fails := "", false, [], fails;
    }

    ghost function View(): M.Parser
      reads this
    {
      M.Parser(parseBuffer, lines, failed)
    }

    /** flush_parse_buffer */
    method FlushParseBuffer()
      requires !failed
      modifies this
      ensures View() == M.Flush(fails, old(View()))
    {
      if |parseBuffer| > 0 {
        lines := lines + [parseBuffer];
        parseBuffer := "";
        failed := fails(lines);
      }
    }

    /** file_parse_data */
    method FileParseData(data: string)
      requires !failed
      modifies this
      ensures View() == M.FeedAll(fails, old(View()), data)
    {
      hide M.FeedAll;
      var i := 0;
      assert data[0..] == data;
      while i < |data|
        invariant i <= |data| && !failed
        invariant M.FeedAll(fails, View(), data[i..]) == M.FeedAll(fails, old(View()), data)
      {
        ghost var before := View();
        FeedFirst(fails, before, data, i);
        if data[i] == '\n' {
          if |parseBuffer| > 0 && parseBuffer[|parseBuffer| - 1] == '\r' {
            parseBuffer := parseBuffer[..|parseBuffer| - 1];
          }
          FlushParseBuffer();
          if failed {
            Theorems.FailedStays(fails, View(), data[i + 1..]);
            return;
          }
          i := i + 1;
        } else {
          var n := LineLength(data, i);
          FeedPlain(fails, before, data, i, n);
          parseBuffer := parseBuffer + data[i..i + n];
          i := i + n;
        }
      }
      Theorems.FeedNothing(fails, View());
      assert data[i..] == "";
    }

    /** memchr: the distance to the next newline or the end of the data. */
    method LineLength(data: string, start: nat) returns (n: nat)
      requires start < |data| && data[start] != '\n'
      ensures 0 < n && start + n <= |data| && forall j :: start <= j < start + n ==> data[j] != '\n'
      ensures start + n < |data| ==> data[start + n] == '\n'
    {
      n := 0;
      while start + n < |data| && data[start + n] != '\n'
        invariant start + n <= |data| && (n == 0 ==> data[start] != '\n')
        invariant forall j :: start <= j < start + n ==> data[j] != '\n'
      {
        n := n + 1;
      }
    }

    /** parse_testinfo_from_fd, with what fstat says of the file and the results of its reads. */
    method ParseTestInfo(file: M.File, input: seq<M.Read>) returns (ok: bool)
      requires View() == M.START
      modifies this
      ensures !file.Regular? ==> !ok && View() == M.START
      ensures file.Regular? ==>
                match M.Parse(fails, M.START, input)
                case Some(p) => View() == p && ok == !p.failed
                case None => !ok
    {
      hide M.FeedAll;
      if !file.Regular? {
        return false;
      }
      var left := input;
      while left != [] && !failed
        invariant M.Parse(fails, View(), left) == M.Parse(fails, M.START, input)
        decreases |left|
      {
        if left[0].ReadError? {
          return false;
        }
        if left[0].Chunk? {
          FileParseData(left[0].data);
        }
        left := left[1..];
      }
      if failed {
        return false;
      }
      FlushParseBuffer();
      ok := !failed;
    }
  }

  lemma FeedFirst(fails: M.LineParser, p: M.Parser, data: string, i: nat)
    requires i < |data|
    ensures M.FeedAll(fails, p, data[i..]) == M.FeedAll(fails, M.Feed(fails, p, data[i]), data[i + 1..])
  {
    hide M.Feed;
    assert data[i..][0] == data[i] && data[i..][1..] == data[i + 1..];
  }

  /** Characters that are not newlines only pile up in the buffer. */
  lemma {:induction false} FeedPlain(fails: M.LineParser, p: M.Parser, data: string, i: nat, n: nat)
    requires i + n <= |data| && !p.failed && forall j :: i <= j < i + n ==> data[j] != '\n'
    ensures M.FeedAll(fails, p, data[i..])
         == M.FeedAll(fails, p.(buffer := p.buffer + data[i..i + n]), data[i + n..])
    decreases n
  {
    hide M.FeedAll;
    if n > 0 {
      FeedFirst(fails, p, data, i);
      var q := p.(buffer := p.buffer + [data[i]]);
      FeedPlain(fails, q, data, i + 1, n - 1);
      assert q.buffer + data[i + 1..i + n] == p.buffer + data[i..i + n];
    } else {
      assert p.buffer + data[i..i] == p.buffer;
    }
  }
}
