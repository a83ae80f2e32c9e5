/**
 The framing that tells one command's output from the next on a shared bash process: the two reader
 loops of `Execute`, and what they give back for the streams bash writes. A stream holds everything
 that will still arrive on it before it ends; timeouts, signals and respawning are not modelled.
 */
module BashFraming {
  import opened Prelude
  import opened Text

  function StartMarker(d: string): string { d + "_START" }
  function EndMarker(d: string): string { d + "_END" }
  function ExitMarker(d: string): string { d + "_EXIT_" }

  predicate HasPrefix(s: string, p: string) { p <= s }

  /** `strings.TrimRight(s, "\n")`. */
  function TrimNewlines(s: string): (r: string)
    ensures r <= s
    ensures r != "" ==> r[|r| - 1] != '\n'
    ensures forall i :: |r| <= i < |s| ==> s[i] == '\n'
  {
    if s != "" && s[|s| - 1] == '\n' then TrimNewlines(s[..|s| - 1]) else s
  }

  // ----- Texts as lines -----

  /** A text as its lines and what follows the last newline. */
  datatype Output = Output(lines: seq<string>, partial: string)

  const NOTHING := Output([], "")

  function Unlines(lines: seq<string>): string {
    if lines == [] then "" else lines[0] + "\n" + Unlines(lines[1..])
  }

  function TextOf(o: Output): string { Unlines(o.lines) + o.partial }

  predicate Newlineless(s: string) { '\n' !in s }

  predicate Valid(o: Output) { Newlineless(o.partial) && forall i :: 0 <= i < |o.lines| ==> Newlineless(o.lines[i]) }

  /** Empty, or ending in a newline. */
  predicate Terminated(text: string) { text == "" || text[|text| - 1] == '\n' }

  /** The lines of a text. */
  function LinesOf(s: string): (o: Output)
    ensures Valid(o)
    decreases |s|
  {
    var i := Index(s, '\n');
    if i < 0 then Output([], s)
    else
      var rest := LinesOf(s[i + 1..]);
      assert Newlineless(s[..i]);
      Output([s[..i]] + rest.lines, rest.partial)
  }

  lemma TextInFront(l: string, tail: Output)
    ensures TextOf(Output([l] + tail.lines, tail.partial)) == l + "\n" + TextOf(tail)
  {
    assert ([l] + tail.lines)[1..] == tail.lines;
    assert l + "\n" + Unlines(tail.lines) + tail.partial == l + "\n" + (Unlines(tail.lines) + tail.partial);
  }

  lemma LineInFront(l: string, t: string)
    requires Newlineless(l)
    ensures LinesOf(l + "\n" + t) == Output([l] + LinesOf(t).lines, LinesOf(t).partial)
  {
    var s := l + "\n" + t;
    IndexAt(l, '\n', t);
    assert l + ['\n'] + t == s;
    assert s[..|l|] == l && s[|l| + 1..] == t;
  }

  lemma FirstLine(s: string) returns (l: string, rest: string)
    requires !Newlineless(s)
    ensures Newlineless(l) && s == l + "\n" + rest && |rest| < |s|
  {
    var i := Index(s, '\n');
    l, rest := s[..i], s[i + 1..];
    assert s == s[..i] + [s[i]] + s[i + 1..];
  }

  lemma PartialText(s: string)
    requires Newlineless(s)
    ensures LinesOf(s) == Output([], s) && TextOf(LinesOf(s)) == s && (s == "" <==> Terminated(s))
  {
    assert Unlines([]) + s == s;
  }

  lemma TerminatedBehindALine(l: string, t: string)
    ensures Terminated(l + "\n" + t) <==> Terminated(t)
  {
  }

  /** The lines of a text spell it, and what follows the last newline is empty exactly when it is empty or ends in one. */
  lemma {:induction false} LinesSpellTheText(s: string)
    ensures TextOf(LinesOf(s)) == s
    ensures LinesOf(s).partial == "" <==> Terminated(s)
    decreases |s|
  {
    if Newlineless(s) {
      PartialText(s);
    } else {
      var l, rest := FirstLine(s);
      LinesSpellTheText(rest);
      LineInFront(l, rest);
      TextInFront(l, LinesOf(rest));
      TerminatedBehindALine(l, rest);
    }
  }

  /** A text has only one splitting into lines: texts and valid outputs determine each other. */
  lemma {:induction false} TextDeterminesLines(o: Output)
    requires Valid(o)
    ensures LinesOf(TextOf(o)) == o
    decreases |o.lines|
  {
    if o.lines == [] {
      assert TextOf(o) == o.partial;
    } else {
      var l, tail := o.lines[0], Output(o.lines[1..], o.partial);
      assert o == Output([l] + tail.lines, tail.partial);
      TextDeterminesLines(tail);
      TextInFront(l, tail);
      LineInFront(l, TextOf(tail));
    }
  }

  /** One text after another: the first one's partial line runs into the second one's first line. */
  function Append(a: Output, b: Output): Output {
    if b.lines == [] then Output(a.lines, a.partial + b.partial)
    else Output(a.lines + [a.partial + b.lines[0]] + b.lines[1..], b.partial)
  }

  lemma {:induction false} UnlinesConcat(a: seq<string>, b: seq<string>)
    ensures Unlines(a + b) == Unlines(a) + Unlines(b)
    decreases a
  {
    if a == [] {
      assert a + b == b;
    } else {
      UnlinesConcat(a[1..], b);
      assert (a + b)[1..] == a[1..] + b;
    }
  }

  lemma AppendText(a: Output, b: Output)
    ensures TextOf(Append(a, b)) == TextOf(a) + TextOf(b)
  {
    if b.lines != [] {
      var m := [a.partial + b.lines[0]];
      UnlinesConcat(a.lines + m, b.lines[1..]);
      UnlinesConcat(a.lines, m);
    }
  }

  // ----- The loops -----

  /** What a reader returns: the text, the exit code, whether the stream or the code was bad, what is left unread. */
  datatype Read = Read(output: string, code: int, failed: bool, rest: Output)

  /** What the stdout loop makes of a stream. */
  function ReadStdout(o: Output, d: string, capturing: bool, buf: string): Read
    decreases |o.lines|
  {
    if o.lines == [] then
      if o.partial == EndMarker(d) then Read(TrimNewlines(buf), 0, false, NOTHING)
      else
        var kept := if capturing && o.partial != StartMarker(d) then buf + o.partial else buf;
        Read(TrimNewlines(kept), 0, true, NOTHING)
    else
      var l, rest := o.lines[0], Output(o.lines[1..], o.partial);
      if l == StartMarker(d) then ReadStdout(rest, d, true, buf)
      else if l == EndMarker(d) then Read(TrimNewlines(buf), 0, false, rest)
      else ReadStdout(rest, d, capturing, if capturing then buf + (l + "\n") else buf)
  }

  function ExitRead(line: string, d: string, buf: string, rest: Output): Read
    requires HasPrefix(line, ExitMarker(d))
  {
    var code := Atoi(TrimSpace(line[|ExitMarker(d)|..]));
    Read(TrimNewlines(buf), if code.Some? then code.value else -1, code.None?, rest)
  }

  /** What the stderr loop makes of a stream. */
  function ReadStderr(o: Output, d: string, buf: string): Read
    decreases |o.lines|
  {
    if o.lines == [] then
      if HasPrefix(o.partial, ExitMarker(d)) then ExitRead(o.partial, d, buf, NOTHING)
      else Read(TrimNewlines(buf + o.partial), -1, true, NOTHING)
    else
      var l, rest := o.lines[0], Output(o.lines[1..], o.partial);
      if HasPrefix(l, ExitMarker(d)) then ExitRead(l, d, buf, rest)
      else ReadStderr(rest, d, buf + (l + "\n"))
  }

  /** A buffered reader over one pipe. */
  class Stream {
    var unread: Output

    constructor (o: Output)
      ensures unread == o
    {
      unread := o;
    }

    /** `ReadString('\n')`: the line with its newline, or the rest and an end-of-stream error. */
    method ReadString() returns (line: string, eof: bool)
      modifies this
      ensures eof <==> old(unread).lines == []
      ensures eof ==> line == old(unread).partial && unread == NOTHING
      ensures !eof ==> line == old(unread).lines[0] + "\n"
                       && unread == Output(old(unread).lines[1..], old(unread).partial)
    {
      if unread.lines == [] {
        line, unread, eof := unread.partial, NOTHING, true;
      } else {
        line, unread, eof := unread.lines[0] + "\n", Output(unread.lines[1..], unread.partial), false;
      }
    }
  }

  function TrimSuffixNewline(line: string): string {
    if line != "" && line[|line| - 1] == '\n' then line[..|line| - 1] else line
  }

  lemma TrimmedLine(l: string)
    ensures TrimSuffixNewline(l + "\n") == l
    ensures Newlineless(l) ==> TrimSuffixNewline(l) == l
  {
  }

  method StdoutLoop(stream: Stream, d: string) returns (output: string, failed: bool)
    requires Newlineless(stream.unread.partial)
    modifies stream
    ensures Read(output, 0, failed, stream.unread) == ReadStdout(old(stream.unread), d, false, "")
  {
    var buf, capturing := "", false;
    while true
      invariant Newlineless(stream.unread.partial)
      invariant ReadStdout(stream.unread, d, capturing, buf) == ReadStdout(old(stream.unread), d, false, "")
      decreases |stream.unread.lines|
    {
      TrimmedLine(if stream.unread.lines == [] then stream.unread.partial else stream.unread.lines[0]);
      var line, eof := stream.ReadString();
      var trimmed := TrimSuffixNewline(line);
      if trimmed == StartMarker(d) {
        capturing := true;
      } else if trimmed == EndMarker(d) {
        return TrimNewlines(buf), false;
      } else if capturing {
        buf := buf + line;
      }
      if eof {
        return TrimNewlines(buf), true;
      }
    }
  }

  method StderrLoop(stream: Stream, d: string) returns (output: string, code: int, failed: bool)
    requires Newlineless(stream.unread.partial)
    modifies stream
    ensures Read(output, code, failed, stream.unread) == ReadStderr(old(stream.unread), d, "")
  {
    var buf := "";
    while true
      invariant Newlineless(stream.unread.partial)
      invariant ReadStderr(stream.unread, d, buf) == ReadStderr(old(stream.unread), d, "")
      decreases |stream.unread.lines|
    {
      TrimmedLine(if stream.unread.lines == [] then stream.unread.partial else stream.unread.lines[0]);
      var line, eof := stream.ReadString();
      var trimmed := TrimSuffixNewline(line);
      if HasPrefix(trimmed, ExitMarker(d)) {
        var parsed := Atoi(TrimSpace(trimmed[|ExitMarker(d)|..]));
        if parsed.None? {
          return TrimNewlines(buf), -1, true;
        }
        return TrimNewlines(buf), parsed.value, false;
      }
      assert buf + "" == buf;
      if line != "" {
        buf := buf + line;
      }
      if eof {
        return TrimNewlines(buf), -1, true;
      }
    }
  }

  // ----- One frame -----

  predicate IsMarker(l: string, d: string) { l == StartMarker(d) || l == EndMarker(d) }

  predicate NoMarkers(lines: seq<string>, d: string) { forall i :: 0 <= i < |lines| ==> !IsMarker(lines[i], d) }

  predicate NoExits(lines: seq<string>, d: string) { forall i :: 0 <= i < |lines| ==> !HasPrefix(lines[i], ExitMarker(d)) }

  /** What bash writes to stdout for one wrapped command, before whatever comes next. */
  function StdoutFrame(d: string, out: Output, next: Output): Output {
    Append(Output([StartMarker(d)], ""), Append(out, Append(Output([EndMarker(d)], ""), next)))
  }

  /** What bash writes to stderr for one wrapped command, before whatever comes next. */
  function StderrFrame(d: string, err: Output, code: nat, next: Output): Output {
    Append(err, Append(Output([ExitMarker(d) + Itoa(code)], ""), next))
  }

  lemma {:induction false} StdoutLines(a: seq<string>, o: Output, d: string, buf: string)
    requires NoMarkers(a, d)
    ensures ReadStdout(Output(a + o.lines, o.partial), d, true, buf) == ReadStdout(o, d, true, buf + Unlines(a))
    decreases a
  {
    if a == [] {
      assert a + o.lines == o.lines && buf + "" == buf;
    } else {
      assert (a + o.lines)[1..] == a[1..] + o.lines;
      StdoutLines(a[1..], o, d, buf + (a[0] + "\n"));
      assert buf + (a[0] + "\n") + Unlines(a[1..]) == buf + Unlines(a);
    }
  }

  lemma {:induction false} StderrLines(a: seq<string>, o: Output, d: string, buf: string)
    requires NoExits(a, d)
    ensures ReadStderr(Output(a + o.lines, o.partial), d, buf) == ReadStderr(o, d, buf + Unlines(a))
    decreases a
  {
    if a == [] {
      assert a + o.lines == o.lines && buf + "" == buf;
    } else {
      assert (a + o.lines)[1..] == a[1..] + o.lines;
      StderrLines(a[1..], o, d, buf + (a[0] + "\n"));
      assert buf + (a[0] + "\n") + Unlines(a[1..]) == buf + Unlines(a);
    }
  }

  lemma LineThen(l: string, o: Output)
    ensures Append(Output([l], ""), o) == Output([l] + o.lines, o.partial)
  {
    assert "" + o.partial == o.partial;
    if o.lines != [] {
      assert "" + o.lines[0] == o.lines[0];
      assert [l] + [o.lines[0]] + o.lines[1..] == [l] + o.lines;
    }
  }

  /** An output in front of a line and what follows: its partial line runs into that line. */
  lemma OutputThenLine(out: Output, l: string, next: Output)
    ensures Append(out, Append(Output([l], ""), next)) == Output(out.lines + ([out.partial + l] + next.lines), next.partial)
  {
    LineThen(l, next);
    assert ([l] + next.lines)[1..] == next.lines;
    assert out.lines + [out.partial + l] + next.lines == out.lines + ([out.partial + l] + next.lines);
  }

  lemma StdoutFrameLines(d: string, out: Output, next: Output)
    ensures StdoutFrame(d, out, next)
            == Output([StartMarker(d)] + (out.lines + ([out.partial + EndMarker(d)] + next.lines)), next.partial)
  {
    OutputThenLine(out, EndMarker(d), next);
    LineThen(StartMarker(d), Append(out, Append(Output([EndMarker(d)], ""), next)));
  }

  /** A frame read to its body: what is left starts with the line the end marker stands on. */
  lemma StdoutToTheEnd(d: string, out: Output, next: Output)
    requires NoMarkers(out.lines, d)
    ensures ReadStdout(StdoutFrame(d, out, next), d, false, "")
            == ReadStdout(Output([out.partial + EndMarker(d)] + next.lines, next.partial), d, true, Unlines(out.lines))
  {
    var tail := Output([out.partial + EndMarker(d)] + next.lines, next.partial);
    StdoutFrameLines(d, out, next);
    assert ([StartMarker(d)] + (out.lines + tail.lines))[1..] == out.lines + tail.lines;
    StdoutLines(out.lines, tail, d, "");
    assert "" + Unlines(out.lines) == Unlines(out.lines);
  }

  lemma StderrToTheEnd(d: string, err: Output, code: nat, next: Output)
    requires NoExits(err.lines, d)
    ensures ReadStderr(StderrFrame(d, err, code, next), d, "")
            == ReadStderr(Output([err.partial + (ExitMarker(d) + Itoa(code))] + next.lines, next.partial), d, Unlines(err.lines))
  {
    var line := ExitMarker(d) + Itoa(code);
    OutputThenLine(err, line, next);
    StderrLines(err.lines, Output([err.partial + line] + next.lines, next.partial), d, "");
    assert "" + Unlines(err.lines) == Unlines(err.lines);
  }

  /** A reader that ends well has taken something off the stream. */
  lemma {:induction false} StdoutProgress(o: Output, d: string, capturing: bool, buf: string)
    ensures var r := ReadStdout(o, d, capturing, buf); r.failed || r.rest != o
    ensures |ReadStdout(o, d, capturing, buf).rest.lines| <= |o.lines|
    decreases |o.lines|
  {
    if o.lines != [] {
      var l, rest := o.lines[0], Output(o.lines[1..], o.partial);
      if l == StartMarker(d) {
        StdoutProgress(rest, d, true, buf);
      } else if l != EndMarker(d) {
        StdoutProgress(rest, d, capturing, if capturing then buf + (l + "\n") else buf);
      }
    }
  }

  lemma {:induction false} StderrProgress(o: Output, d: string, buf: string)
    ensures var r := ReadStderr(o, d, buf); r.failed || r.rest != o
    ensures |ReadStderr(o, d, buf).rest.lines| <= |o.lines|
    decreases |o.lines|
  {
    if o.lines != [] && !HasPrefix(o.lines[0], ExitMarker(d)) {
      StderrProgress(Output(o.lines[1..], o.partial), d, buf + (o.lines[0] + "\n"));
    }
  }

  lemma NoPartialMarker(p: string, d: string)
    requires p != ""
    ensures !IsMarker(p + EndMarker(d), d) && !IsMarker(p + StartMarker(d), d)
  {
    var e, s := p + EndMarker(d), p + StartMarker(d);
    assert e[|e| - 1] == EndMarker(d)[|EndMarker(d)| - 1] == 'D' && s[|s| - 1] == StartMarker(d)[|StartMarker(d)| - 1] == 'T';
  }

  /**
   A stdout frame is read back exactly, leaving the stream at the next frame, if and only if the
   output is empty or ends in a newline. A last line without one hides the end marker.
   */
  lemma StdoutReadsBackIffTerminated(d: string, out: Output, next: Output)
    requires NoMarkers(out.lines, d)
    ensures ReadStdout(StdoutFrame(d, out, next), d, false, "") == Read(TrimNewlines(TextOf(out)), 0, false, next)
            <==> out.partial == ""
  {
    var tail := Output([out.partial + EndMarker(d)] + next.lines, next.partial);
    StdoutToTheEnd(d, out, next);
    assert tail.lines[1..] == next.lines;
    if out.partial == "" {
      assert "" + EndMarker(d) == EndMarker(d) && Unlines(out.lines) + "" == Unlines(out.lines);
      assert EndMarker(d) != StartMarker(d);
    } else {
      NoPartialMarker(out.partial, d);
      StdoutProgress(next, d, true, Unlines(out.lines) + (out.partial + EndMarker(d) + "\n"));
    }
  }

  // ----- Leftovers of an earlier command in front of the start marker -----

  lemma {:induction false} SkippedLines(a: seq<string>, o: Output, d: string)
    requires NoMarkers(a, d)
    ensures ReadStdout(Output(a + o.lines, o.partial), d, false, "") == ReadStdout(o, d, false, "")
    decreases a
  {
    if a == [] {
      assert a + o.lines == o.lines;
    } else {
      assert (a + o.lines)[1..] == a[1..] + o.lines;
      SkippedLines(a[1..], o, d);
    }
  }

  /** Leftovers that end in the middle of a line hide the start marker, and nothing of the frame is captured. */
  lemma HiddenStart(d: string, pre: Output, out: Output, next: Output)
    requires pre.partial != "" && NoMarkers(pre.lines, d) && NoMarkers(out.lines, d)
    ensures ReadStdout(Append(pre, StdoutFrame(d, out, next)), d, false, "")
            == ReadStdout(Output([out.partial + EndMarker(d)] + next.lines, next.partial), d, false, "")
  {
    var tail := [out.partial + EndMarker(d)] + next.lines;
    var a := pre.lines + [pre.partial + StartMarker(d)] + out.lines;
    StdoutFrameLines(d, out, next);
    assert ([StartMarker(d)] + (out.lines + tail))[1..] == out.lines + tail;
    assert pre.lines + [pre.partial + StartMarker(d)] + (out.lines + tail) == a + tail;
    NoPartialMarker(pre.partial, d);
    SkippedLines(a, Output(tail, next.partial), d);
  }

  lemma LeftoversSkipped(d: string, pre: Output, o: Output)
    requires pre.partial == "" && NoMarkers(pre.lines, d) && o.lines != []
    ensures ReadStdout(Append(pre, o), d, false, "") == ReadStdout(o, d, false, "")
  {
    assert "" + o.lines[0] == o.lines[0];
    assert pre.lines + [o.lines[0]] + o.lines[1..] == pre.lines + o.lines;
    SkippedLines(pre.lines, o, d);
  }

  lemma StdoutReadsBackAfterLeftovers(d: string, pre: Output, out: Output, next: Output)
    requires NoMarkers(pre.lines, d) && NoMarkers(out.lines, d)
    ensures ReadStdout(Append(pre, StdoutFrame(d, out, next)), d, false, "") == Read(TrimNewlines(TextOf(out)), 0, false, next)
            <==> out.partial == "" && (pre.partial == "" || TrimNewlines(TextOf(out)) == "")
  {
    if pre.partial == "" {
      StdoutFrameLines(d, out, next);
      LeftoversSkipped(d, pre, StdoutFrame(d, out, next));
      StdoutReadsBackIffTerminated(d, out, next);
    } else {
      HiddenStart(d, pre, out, next);
      assert ([out.partial + EndMarker(d)] + next.lines)[1..] == next.lines;
      if out.partial == "" {
        assert "" + EndMarker(d) == EndMarker(d) != StartMarker(d);
      } else {
        NoPartialMarker(out.partial, d);
        StdoutProgress(next, d, false, "");
      }
    }
  }

  lemma ExitLine(d: string, code: nat, buf: string, rest: Output)
    ensures HasPrefix(ExitMarker(d) + Itoa(code), ExitMarker(d))
    ensures ExitRead(ExitMarker(d) + Itoa(code), d, buf, rest) == Read(TrimNewlines(buf), code, false, rest)
  {
    assert (ExitMarker(d) + Itoa(code))[|ExitMarker(d)|..] == Itoa(code);
    TrimmedNumber(code);
  }

  /** An exit line pushed along by a partial line is not one, or its code does not parse. */
  lemma NoPartialExit(p: string, d: string, code: nat, buf: string, rest: Output)
    requires p != "" && HasPrefix(p + (ExitMarker(d) + Itoa(code)), ExitMarker(d))
    ensures ExitRead(p + (ExitMarker(d) + Itoa(code)), d, buf, rest).failed
  {
    var m, e := p + (ExitMarker(d) + Itoa(code)), ExitMarker(d);
    assert m[|e|..][|p| - 1] == m[|p| + |e| - 1] == e[|e| - 1] == '_';
    NotANumber(m[|e|..], '_');
  }

  lemma StderrReadsBack(d: string, err: Output, code: nat, next: Output)
    requires NoExits(err.lines, d) && err.partial == ""
    ensures ReadStderr(StderrFrame(d, err, code, next), d, "") == Read(TrimNewlines(TextOf(err)), code, false, next)
  {
    var line := ExitMarker(d) + Itoa(code);
    StderrToTheEnd(d, err, code, next);
    assert "" + line == line && Unlines(err.lines) + "" == Unlines(err.lines);
    assert ([line] + next.lines)[1..] == next.lines;
    ExitLine(d, code, Unlines(err.lines), next);
  }

  /** An exit marker behind a partial line does not end the frame well. */
  lemma StderrRunsOn(d: string, err: Output, code: nat, next: Output)
    requires NoExits(err.lines, d) && err.partial != ""
    ensures var r := ReadStderr(StderrFrame(d, err, code, next), d, ""); r.failed || r.rest != next
  {
    var line := err.partial + (ExitMarker(d) + Itoa(code));
    StderrToTheEnd(d, err, code, next);
    assert ([line] + next.lines)[1..] == next.lines;
    if HasPrefix(line, ExitMarker(d)) {
      NoPartialExit(err.partial, d, code, Unlines(err.lines), next);
    } else {
      StderrProgress(next, d, Unlines(err.lines) + (line + "\n"));
    }
  }

  /** The same for stderr and the exit code. */
  lemma StderrReadsBackIffTerminated(d: string, err: Output, code: nat, next: Output)
    requires NoExits(err.lines, d)
    ensures ReadStderr(StderrFrame(d, err, code, next), d, "") == Read(TrimNewlines(TextOf(err)), code, false, next)
            <==> err.partial == ""
  {
    if err.partial == "" {
      StderrReadsBack(d, err, code, next);
    } else {
      StderrRunsOn(d, err, code, next);
    }
  }

  /** The frames are, byte for byte, the echoed markers around the output. */
  lemma FrameText(d: string, out: Output, err: Output, code: nat, next: Output)
    ensures TextOf(StdoutFrame(d, out, next))
            == StartMarker(d) + "\n" + (TextOf(out) + (EndMarker(d) + "\n" + TextOf(next)))
    ensures TextOf(StderrFrame(d, err, code, next)) == TextOf(err) + (ExitMarker(d) + Itoa(code) + "\n" + TextOf(next))
  {
    var end, exit := Append(Output([EndMarker(d)], ""), next), Append(Output([ExitMarker(d) + Itoa(code)], ""), next);
    EchoedLine(StartMarker(d));
    EchoedLine(EndMarker(d));
    EchoedLine(ExitMarker(d) + Itoa(code));
    AppendText(Output([EndMarker(d)], ""), next);
    AppendText(out, end);
    AppendText(Output([StartMarker(d)], ""), Append(out, end));
    AppendText(Output([ExitMarker(d) + Itoa(code)], ""), next);
    AppendText(err, exit);
  }

  lemma EchoedLine(l: string)
    ensures TextOf(Output([l], "")) == l + "\n"
  {
    assert Unlines([l]) == l + "\n" + Unlines([]);
    assert l + "\n" + "" == l + "\n";
  }

  // ----- A session -----

  datatype ExecResult = ExecResult(stdout: string, stderr: string, code: int)

  /** What one `Execute` makes of the two streams: a result, or none when the process is taken for dead. */
  function Outcome(stdout: Output, stderr: Output, d: string): Option<ExecResult> {
    var o, e := ReadStdout(stdout, d, false, ""), ReadStderr(stderr, d, "");
    if o.failed || e.failed || e.code < 0 then None else Some(ExecResult(o.output, e.output, e.code))
  }

  class BashSession {
    const stdout: Stream
    const stderr: Stream
    var dead: bool

    constructor (stdout: Stream, stderr: Stream)
      ensures this.stdout == stdout && this.stderr == stderr && !dead
    {
      this.stdout, this.stderr, dead := stdout, stderr, false;
    }

    /** The reading half of `Execute` on a live session; the two readers run in either order. */
    method Execute(d: string) returns (r: Option<ExecResult>)
      requires !dead && stdout != stderr
      requires Newlineless(stdout.unread.partial) && Newlineless(stderr.unread.partial)
      modifies this, stdout, stderr
      ensures r == Outcome(old(stdout.unread), old(stderr.unread), d) && dead == r.None?
      ensures stdout.unread == ReadStdout(old(stdout.unread), d, false, "").rest
      ensures stderr.unread == ReadStderr(old(stderr.unread), d, "").rest
    {
      var out, err, code, outFailed, errFailed := "", "", 0, false, false;
      if * {
        out, outFailed := StdoutLoop(stdout, d);
        err, code, errFailed := StderrLoop(stderr, d);
      } else {
        err, code, errFailed := StderrLoop(stderr, d);
        out, outFailed := StdoutLoop(stdout, d);
      }
      if outFailed || errFailed {
        dead := true;
      }
      if code < 0 {
        dead := true;
      }
      r := if dead then None else Some(ExecResult(out, err, code));
    }
  }

  /** A command with its delimiter and what it writes; `before` is what earlier ones still wrote to stdout ahead of it. */
  datatype Command = Command(before: string, d: string, out: string, err: string, code: nat)

  /** No line of the text is a marker of the frame. */
  predicate NoMarkerLine(text: string, d: string) { NoMarkers(LinesOf(text).lines, d) }

  predicate NoExitLine(text: string, d: string) { NoExits(LinesOf(text).lines, d) }

  /** The output of a well-behaved command, and what precedes it: newline-terminated, without marker lines of its frame. */
  predicate Framable(c: Command) {
    && Newlineless(c.d) && Terminated(c.before) && Terminated(c.out) && Terminated(c.err)
    && NoMarkerLine(c.before, c.d) && NoMarkerLine(c.out, c.d) && NoExitLine(c.err, c.d)
  }

  /** What bash echoes to stdout around the output of one command. */
  function FramedStdout(d: string, out: string, next: string): string {
    StartMarker(d) + "\n" + (out + (EndMarker(d) + "\n" + next))
  }

  /** The text bash writes to stdout for these commands, before whatever comes next. */
  function StdoutText(cs: seq<Command>, tail: string): string {
    if cs == [] then tail
    else cs[0].before + FramedStdout(cs[0].d, cs[0].out, StdoutText(cs[1..], tail))
  }

  /** The text bash writes to stderr for these commands, before whatever comes next. */
  function StderrText(cs: seq<Command>, tail: string): string {
    if cs == [] then tail
    else cs[0].err + (ExitMarker(cs[0].d) + Itoa(cs[0].code) + "\n" + StderrText(cs[1..], tail))
  }

  function Expected(c: Command): ExecResult { ExecResult(TrimNewlines(c.out), TrimNewlines(c.err), c.code) }

  /** One `Execute` after another over the same two streams: the results, and what is left of the streams. */
  function ExecuteAll(ds: seq<string>, stdout: Output, stderr: Output): (seq<Option<ExecResult>>, Output, Output)
    decreases ds
  {
    if ds == [] then ([], stdout, stderr)
    else
      var rest := ExecuteAll(ds[1..], ReadStdout(stdout, ds[0], false, "").rest, ReadStderr(stderr, ds[0], "").rest);
      ([Outcome(stdout, stderr, ds[0])] + rest.0, rest.1, rest.2)
  }

  function Delimiters(cs: seq<Command>): seq<string> { if cs == [] then [] else [cs[0].d] + Delimiters(cs[1..]) }

  function AllExpected(cs: seq<Command>): seq<Option<ExecResult>> {
    if cs == [] then [] else [Some(Expected(cs[0]))] + AllExpected(cs[1..])
  }

  lemma AppendValid(a: Output, b: Output)
    requires Valid(a) && Valid(b)
    ensures Valid(Append(a, b))
  {
  }

  lemma DigitsHaveNoNewline(s: string)
    requires AllDigits(s)
    ensures Newlineless(s)
  {
  }

  lemma FramesValid(d: string, out: Output, err: Output, code: nat, next: Output)
    requires Newlineless(d) && Valid(out) && Valid(err) && Valid(next)
    ensures Valid(StdoutFrame(d, out, next)) && Valid(StderrFrame(d, err, code, next))
  {
    DigitsHaveNoNewline(Itoa(code));
    var end, exit := Append(Output([EndMarker(d)], ""), next), Append(Output([ExitMarker(d) + Itoa(code)], ""), next);
    AppendValid(Output([EndMarker(d)], ""), next);
    AppendValid(out, end);
    AppendValid(Output([StartMarker(d)], ""), Append(out, end));
    AppendValid(Output([ExitMarker(d) + Itoa(code)], ""), next);
    AppendValid(err, exit);
  }

  /** The lines of a framed text are the frame of its lines. */
  lemma FramedLines(d: string, out: string, err: string, code: nat, next: string)
    requires Newlineless(d)
    ensures LinesOf(FramedStdout(d, out, next)) == StdoutFrame(d, LinesOf(out), LinesOf(next))
    ensures LinesOf(err + (ExitMarker(d) + Itoa(code) + "\n" + next)) == StderrFrame(d, LinesOf(err), code, LinesOf(next))
  {
    var o, e, n := LinesOf(out), LinesOf(err), LinesOf(next);
    LinesSpellTheText(out);
    LinesSpellTheText(err);
    LinesSpellTheText(next);
    FramesValid(d, o, e, code, n);
    FrameText(d, o, e, code, n);
    TextDeterminesLines(StdoutFrame(d, o, n));
    TextDeterminesLines(StderrFrame(d, e, code, n));
  }

  /**
   For every output text without a marker line: the framed text is read back exactly, and the stream is
   left at the text that follows, if and only if the output is empty or ends in a newline.
   */
  lemma StdoutTextReadsBackIffTerminated(d: string, out: string, next: string)
    requires Newlineless(d) && NoMarkerLine(out, d)
    ensures ReadStdout(LinesOf(FramedStdout(d, out, next)), d, false, "")
            == Read(TrimNewlines(out), 0, false, LinesOf(next))
            <==> Terminated(out)
  {
    FramedLines(d, out, "", 0, next);
    LinesSpellTheText(out);
    StdoutReadsBackIffTerminated(d, LinesOf(out), LinesOf(next));
  }

  lemma LinesOfConcat(a: string, b: string)
    ensures LinesOf(a + b) == Append(LinesOf(a), LinesOf(b))
  {
    LinesSpellTheText(a);
    LinesSpellTheText(b);
    AppendText(LinesOf(a), LinesOf(b));
    AppendValid(LinesOf(a), LinesOf(b));
    TextDeterminesLines(Append(LinesOf(a), LinesOf(b)));
  }

  /**
   The same with any text without a marker line left over in front of the start marker: it is skipped exactly if it ends
   in a newline. Otherwise the start marker goes unseen and the output is lost, unless there is nothing in it to lose.
   */
  lemma StdoutTextReadsBackAfterLeftovers(d: string, pre: string, out: string, next: string)
    requires Newlineless(d) && NoMarkerLine(pre, d) && NoMarkerLine(out, d)
    ensures ReadStdout(LinesOf(pre + FramedStdout(d, out, next)), d, false, "")
            == Read(TrimNewlines(out), 0, false, LinesOf(next))
            <==> Terminated(out) && (Terminated(pre) || TrimNewlines(out) == "")
  {
    LinesOfConcat(pre, FramedStdout(d, out, next));
    FramedLines(d, out, "", 0, next);
    LinesSpellTheText(pre);
    LinesSpellTheText(out);
    StdoutReadsBackAfterLeftovers(d, LinesOf(pre), LinesOf(out), LinesOf(next));
  }

  lemma StderrTextReadsBackIffTerminated(d: string, err: string, code: nat, next: string)
    requires Newlineless(d) && NoExitLine(err, d)
    ensures ReadStderr(LinesOf(err + (ExitMarker(d) + Itoa(code) + "\n" + next)), d, "")
            == Read(TrimNewlines(err), code, false, LinesOf(next))
            <==> Terminated(err)
  {
    FramedLines(d, "", err, code, next);
    LinesSpellTheText(err);
    StderrReadsBackIffTerminated(d, LinesOf(err), code, LinesOf(next));
  }

  /**
   Every command of a session gets its own output and exit code and none of what earlier ones left in front of it, and
   both streams are left exactly at the text that follows the last frame.
   */
  lemma {:induction false} SessionReadsBack(cs: seq<Command>, outTail: string, errTail: string)
    requires forall i :: 0 <= i < |cs| ==> Framable(cs[i])
    ensures ExecuteAll(Delimiters(cs), LinesOf(StdoutText(cs, outTail)), LinesOf(StderrText(cs, errTail)))
            == (AllExpected(cs), LinesOf(outTail), LinesOf(errTail))
    decreases cs
  {
    if cs != [] {
      var c := cs[0];
      StdoutTextReadsBackAfterLeftovers(c.d, c.before, c.out, StdoutText(cs[1..], outTail));
      StderrTextReadsBackIffTerminated(c.d, c.err, c.code, StderrText(cs[1..], errTail));
      SessionReadsBack(cs[1..], outTail, errTail);
      assert Delimiters(cs)[1..] == Delimiters(cs[1..]);
    }
  }
}
