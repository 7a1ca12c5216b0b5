/**
 The chat stream: the server's frame printer and the browser's incremental parser. The
 framing is the event stream of sections 9.2.5 and 9.2.6 of the WHATWG HTML Living
 Standard, of which the browser handles a subset: lines end in LF only, and several data
 lines are joined without a newline.
 */
module Sse {
  import opened Alerts
  import opened Runs

  datatype Frame = Frame(event: string, data: string)

  /** What the browser's trim takes away. */
  predicate IsBlank(c: char) { c == ' ' || '\t' <= c <= '\r' || c == '\U{A0}' || c == '\U{FEFF}' || WideSpace(c) }

  lemma BlankIs(c: char)
    ensures IsBlank(c) <==> c in {' ', '\t', '\n', '\U{0B}', '\U{0C}', '\r', '\U{A0}', '\U{FEFF}',
                               '\U{1680}', '\U{2000}', '\U{2001}', '\U{2002}', '\U{2003}', '\U{2004}', '\U{2005}', '\U{2006}',
                               '\U{2007}', '\U{2008}', '\U{2009}', '\U{200A}', '\U{2028}', '\U{2029}', '\U{202F}', '\U{205F}', '\U{3000}'}
  {
  }

  function JsTrim(s: string): string { TrimBy(s, IsBlank) }

  function Body(f: Frame): string { "event: " + f.event + "\ndata: " + f.data }

  function Print(f: Frame): string { Body(f) + "\n\n" }

  function PrintAll(fs: seq<Frame>): string {
    if fs == [] then "" else Print(fs[0]) + PrintAll(fs[1..])
  }

  // ---- the parser, on a whole text -----------------------------------------

  predicate DoubleBreak(s: string, i: nat) { i + 1 < |s| && s[i] == '\n' && s[i + 1] == '\n' }

  /** Where the first blank line begins. */
  function Cut(s: string): (r: Option<nat>)
    ensures r.None? <==> forall i: nat :: !DoubleBreak(s, i)
    ensures r.Some? ==> DoubleBreak(s, r.value) && forall i: nat :: i < r.value ==> !DoubleBreak(s, i)
  {
    CutFrom(s, 0)
  }

  function CutFrom(s: string, n: nat): (r: Option<nat>)
    ensures r.None? <==> forall i: nat :: n <= i ==> !DoubleBreak(s, i)
    ensures r.Some? ==> r.value >= n && DoubleBreak(s, r.value) && forall i: nat :: n <= i < r.value ==> !DoubleBreak(s, i)
    decreases |s| - n
  {
    if n >= |s| then None
    else if DoubleBreak(s, n) then Some(n)
    else CutFrom(s, n + 1)
  }

  /** The text up to the first line break, and what follows it. */
  function Lines(s: string): (r: seq<string>)
    ensures r != [] && forall i :: 0 <= i < |r| ==> '\n' !in r[i]
  {
    if s == "" then [""]
    else
      var rest := Lines(s[1..]);
      if s[0] == '\n' then [""] + rest else [[s[0]] + rest[0]] + rest[1..]
  }

  /** What one line does to the frame being read. */
  function TakeLine(f: Frame, line: string): Frame {
    if "event:" <= line then f.(event := JsTrim(line[6..]))
    else if "data:" <= line then f.(data := f.data + JsTrim(line[5..]))
    else f
  }

  function TakeLines(lines: seq<string>): Frame {
    if lines == [] then Frame("message", "") else TakeLine(TakeLines(lines[..|lines| - 1]), lines[|lines| - 1])
  }

  /** One line: a name, a piece of data, or nothing to the purpose. */
  lemma LoneLine(line: string)
    ensures var f := TakeLines([line]);
            f == if "event:" <= line then Frame(JsTrim(line[6..]), "")
                 else if "data:" <= line then Frame("message", JsTrim(line[5..]))
                 else Frame("message", "")
  {
    assert [line][..0] == [] && TakeLines([]) == Frame("message", "");
    assert "" + JsTrim(line) == JsTrim(line);
  }

  predicate NamesAnEvent(lines: seq<string>) { exists i :: 0 <= i < |lines| && "event:" <= lines[i] }

  lemma OneMoreLine(lines: seq<string>, line: string)
    ensures TakeLines(lines + [line]) == TakeLine(TakeLines(lines), line)
  {
    assert (lines + [line])[..|lines|] == lines;
  }

  lemma OneMoreName(a: seq<string>, line: string)
    ensures NamesAnEvent(a + [line]) <==> NamesAnEvent(a) || "event:" <= line
  {
    assert (a + [line])[|a|] == line;
    assert forall i :: 0 <= i < |a| ==> (a + [line])[i] == a[i];
  }

  /** `whole` is the frame of two runs of lines, `f` and `g` those of each. */
  predicate AddUp(f: Frame, g: Frame, named: bool, whole: Frame) {
    whole.data == f.data + g.data && whole.event == if named then g.event else f.event
  }

  lemma AddUpOneMore(f: Frame, g: Frame, named: bool, whole: Frame, line: string)
    requires AddUp(f, g, named, whole)
    ensures AddUp(f, TakeLine(g, line), named || "event:" <= line, TakeLine(whole, line))
  {
    if "data:" <= line {
      var more := JsTrim(line[5..]);
      assert f.data + g.data + more == f.data + (g.data + more);
    }
  }

  predicate LinesAdd(a: seq<string>, b: seq<string>) { AddUp(TakeLines(a), TakeLines(b), NamesAnEvent(b), TakeLines(a + b)) }

  lemma LinesAddOneMore(a: seq<string>, front: seq<string>, last: string)
    requires LinesAdd(a, front)
    ensures LinesAdd(a, front + [last])
  {
    AddUpOneMore(TakeLines(a), TakeLines(front), NamesAnEvent(front), TakeLines(a + front), last);
    OneMoreLine(front, last);
    OneMoreLine(a + front, last);
    OneMoreName(front, last);
    assert a + front + [last] == a + (front + [last]);
  }

  /** Lines add up: data is joined as it comes, and a later event line replaces an earlier one. */
  lemma {:induction false} LinesAddUp(a: seq<string>, b: seq<string>)
    ensures LinesAdd(a, b)
  {
    if b == [] {
      assert a + b == a;
    } else {
      LinesAddUp(a, b[..|b| - 1]);
      LinesAddOneMore(a, b[..|b| - 1], b[|b| - 1]);
      assert b[..|b| - 1] + [b[|b| - 1]] == b;
    }
  }

  /** A frame without data is not delivered. */
  function Delivered(frame: string): seq<Frame> {
    var f := TakeLines(Lines(frame));
    if f.data == "" then [] else [f]
  }

  /** What a whole text delivers, and what is left of it waiting for more. */
  function Parse(text: string): (seq<Frame>, string)
    decreases |text|
  {
    var cut := Cut(text);
    if cut.None? then ([], text)
    else
      var (frames, rest) := Parse(text[cut.value + 2..]);
      (Delivered(text[..cut.value]) + frames, rest)
  }

  // ---- the parser, chunk by chunk ------------------------------------------

  method HandleFrame(frame: string) returns (out: seq<Frame>)
    ensures out == Delivered(frame)
  {
    var event, data := "message", "";
    var lines := Lines(frame);
    for n := 0 to |lines|
      invariant Frame(event, data) == TakeLines(lines[..n])
    {
      assert lines[..n + 1][..n] == lines[..n];
      var line := lines[n];
      if "event:" <= line {
        event := JsTrim(line[6..]);
      } else if "data:" <= line {
        data := data + JsTrim(line[5..]);
      }
    }
    assert lines[..|lines|] == lines;
    out := if data == "" then [] else [Frame(event, data)];
  }

  function Concat(chunks: seq<string>): string {
    if chunks == [] then "" else Concat(chunks[..|chunks| - 1]) + chunks[|chunks| - 1]
  }

  lemma Regroup(x: seq<Frame>, y: seq<Frame>, z: seq<Frame>)
    ensures x + (y + z) == (x + y) + z
  {
  }

  lemma NothingBefore(x: seq<Frame>)
    ensures [] + x == x
  {
  }

  lemma NothingAfter(x: seq<Frame>)
    ensures x + [] == x
  {
  }

  lemma ParseTakes(text: string, n: nat)
    requires Cut(text) == Some(n)
    ensures Parse(text) == (Delivered(text[..n]) + Parse(text[n + 2..]).0, Parse(text[n + 2..]).1)
  {
  }

  /** Every complete frame is taken off the front of the buffer. */
  method Drain(waiting: string) returns (out: seq<Frame>, buffer: string)
    ensures (out, buffer) == Parse(waiting)
  {
    out, buffer := [], waiting;
    NothingBefore(Parse(waiting).0);
    var cut := Cut(buffer);
    while cut.Some?
      invariant cut == Cut(buffer)
      invariant Parse(waiting) == (out + Parse(buffer).0, Parse(buffer).1)
      decreases |buffer|
    {
      var taken := HandleFrame(buffer[..cut.value]);
      ParseTakes(buffer, cut.value);
      Regroup(out, taken, Parse(buffer[cut.value + 2..]).0);
      out := out + taken;
      buffer := buffer[cut.value + 2..];
      cut := Cut(buffer);
    }
    NothingAfter(out);
  }

  /** The read loop: whatever arrives is appended to what was left over, and drained. */
  method ReadLoop(chunks: seq<string>) returns (delivered: seq<Frame>, buffer: string)
    ensures (delivered, buffer) == Parse(Concat(chunks))
  {
    delivered, buffer := [], "";
    for n := 0 to |chunks|
      invariant (delivered, buffer) == Parse(Concat(chunks[..n]))
    {
      assert chunks[..n + 1][..n] == chunks[..n];
      ParseOnwards(Concat(chunks[..n]), chunks[n]);
      var out;
      out, buffer := Drain(buffer + chunks[n]);
      delivered := delivered + out;
    }
    assert chunks[..|chunks|] == chunks;
  }

  /** More text does not move the first blank line. */
  lemma CutStays(a: string, b: string)
    requires Cut(a).Some?
    ensures Cut(a + b) == Cut(a)
  {
    var n := Cut(a).value;
    assert DoubleBreak(a + b, n);
    forall i: nat | i < n
      ensures !DoubleBreak(a + b, i)
    {
      assert !DoubleBreak(a, i);
    }
  }

  /** What is left over holds no complete frame. */
  lemma {:induction false} RestIsIncomplete(text: string)
    ensures Cut(Parse(text).1).None?
    decreases |text|
  {
    var cut := Cut(text);
    if cut.Some? { RestIsIncomplete(text[cut.value + 2..]); }
  }

  /** Parsing can stop anywhere and go on with what was left: for every text and every place to cut it. */
  lemma {:induction false} ParseOnwards(a: string, b: string)
    ensures var (frames, rest) := Parse(a);
            Parse(a + b) == (frames + Parse(rest + b).0, Parse(rest + b).1)
    decreases |a|
  {
    var cut := Cut(a);
    if cut.Some? {
      var n := cut.value;
      CutStays(a, b);
      assert (a + b)[..n] == a[..n] && (a + b)[n + 2..] == a[n + 2..] + b;
      ParseOnwards(a[n + 2..], b);
      Regroup(Delivered(a[..n]), Parse(a[n + 2..]).0, Parse(Parse(a).1 + b).0);
    } else {
      NothingBefore(Parse(a + b).0);
    }
  }

  // ---- round trip ----------------------------------------------------------

  /** A frame the format can carry: one line each, nothing to trim, and some data. */
  predicate Carried(f: Frame) {
    && '\n' !in f.event && '\n' !in f.data
    && JsTrim(f.event) == f.event && JsTrim(f.data) == f.data
    && f.data != ""
  }

  lemma {:induction false} OneLine(s: string)
    requires '\n' !in s
    ensures Lines(s) == [s]
  {
    if s != "" {
      assert forall i :: 0 <= i < |s[1..]| ==> s[1..][i] == s[i + 1];
      OneLine(s[1..]);
      assert [s[0]] + s[1..] == s;
    }
  }

  lemma {:induction false} TwoLines(a: string, b: string)
    requires '\n' !in a
    ensures Lines(a + "\n" + b) == [a] + Lines(b)
  {
    var s := a + "\n" + b;
    if a == "" {
      assert s[1..] == b;
    } else {
      assert s[1..] == a[1..] + "\n" + b;
      assert forall i :: 0 <= i < |a[1..]| ==> a[1..][i] == a[i + 1];
      TwoLines(a[1..], b);
      assert [a[0]] + a[1..] == a;
    }
  }

  lemma CutSkips(a: string, b: string)
    requires forall i: nat :: i < |a| ==> !DoubleBreak(a + b, i)
    ensures Cut(a + b) == if Cut(b).Some? then Some(|a| + Cut(b).value) else None
  {
    assert forall i: nat :: DoubleBreak(a + b, |a| + i) <==> DoubleBreak(b, i);
    assert forall i: nat :: i >= |a| && DoubleBreak(a + b, i) ==> DoubleBreak(b, i - |a|);
  }

  lemma CutSkipsLine(a: string, b: string)
    requires '\n' !in a
    ensures Cut(a + b) == if Cut(b).Some? then Some(|a| + Cut(b).value) else None
  {
    assert forall i :: 0 <= i < |a| ==> (a + b)[i] == a[i];
    CutSkips(a, b);
  }

  /** The body of a one-line frame holds no blank line, so the printed one ends where it should. */
  lemma BodyEndsAtItsEnd(f: Frame, rest: string)
    requires '\n' !in f.event && '\n' !in f.data
    ensures Cut(Print(f) + rest) == Some(|Body(f)|)
  {
    var head, tail, end := "event: " + f.event, "data: " + f.data, "\n\n" + rest;
    assert DoubleBreak(end, 0);
    CutSkipsLine(tail, end);
    assert (tail + end)[0] == 'd';
    CutSkips("\n", tail + end);
    CutSkipsLine(head, "\n" + (tail + end));
    assert Print(f) + rest == head + ("\n" + (tail + end));
  }

  lemma HeaderLines(f: Frame, before: Frame)
    ensures TakeLine(before, "event: " + f.event) == before.(event := JsTrim(f.event))
    ensures before.data == "" ==> TakeLine(before, "data: " + f.data) == before.(data := JsTrim(f.data))
  {
    var head, tail := "event: " + f.event, "data: " + f.data;
    assert head[6..] == " " + f.event && tail[5..] == " " + f.data;
    assert (" " + f.event)[1..] == f.event && (" " + f.data)[1..] == f.data;
    assert head[0] == 'e' && tail[0] == 'd';
  }

  lemma BodyIsRead(f: Frame)
    requires '\n' !in f.event && '\n' !in f.data
    ensures TakeLines(Lines(Body(f))) == Frame(JsTrim(f.event), JsTrim(f.data))
  {
    var head, tail := "event: " + f.event, "data: " + f.data;
    assert Body(f) == head + "\n" + tail;
    TwoLines(head, tail);
    OneLine(tail);
    OneMoreLine([], head);
    OneMoreLine([head], tail);
    assert [] + [head] == [head] && Lines(Body(f)) == [head] + [tail];
    HeaderLines(f, Frame("message", ""));
    HeaderLines(f, Frame(JsTrim(f.event), ""));
  }

  lemma OneFrameThenMore(f: Frame, rest: string)
    requires '\n' !in f.event && '\n' !in f.data
    ensures Parse(Print(f) + rest) ==
            ((if JsTrim(f.data) == "" then [] else [Frame(JsTrim(f.event), JsTrim(f.data))]) + Parse(rest).0, Parse(rest).1)
  {
    BodyEndsAtItsEnd(f, rest);
    BodyIsRead(f);
    var s := Print(f) + rest;
    assert s[..|Body(f)|] == Body(f) && s[|Body(f)| + 2..] == rest;
  }

  lemma {:induction false} PrintedFramesParse(fs: seq<Frame>)
    requires forall i :: 0 <= i < |fs| ==> Carried(fs[i])
    ensures Parse(PrintAll(fs)) == (fs, "")
  {
    if fs != [] {
      PrintedFramesParse(fs[1..]);
      OneFrameThenMore(fs[0], PrintAll(fs[1..]));
      assert [fs[0]] + fs[1..] == fs;
    }
  }

  /** Printed frames arrive as they were sent, however the stream was cut into chunks. */
  method Transmit(fs: seq<Frame>, chunks: seq<string>) returns (delivered: seq<Frame>)
    requires forall i :: 0 <= i < |fs| ==> Carried(fs[i])
    requires Concat(chunks) == PrintAll(fs)
    ensures delivered == fs
  {
    PrintedFramesParse(fs);
    var buffer;
    delivered, buffer := ReadLoop(chunks);
  }

  lemma {:induction false} TrimKeepsLines(s: string, space: char -> bool)
    requires '\n' !in s
    ensures '\n' !in TrimLeft(s, space) && '\n' !in TrimRight(s, space)
  {
    if s != "" {
      assert forall i :: 0 <= i < |s[1..]| ==> s[1..][i] == s[i + 1];
      assert forall i :: 0 <= i < |s[..|s| - 1]| ==> s[..|s| - 1][i] == s[i];
      TrimKeepsLines(s[1..], space);
      TrimKeepsLines(s[..|s| - 1], space);
    }
  }

  lemma JsTrimKeepsLines(s: string)
    requires '\n' !in s
    ensures '\n' !in JsTrim(s)
  {
    TrimKeepsLines(s, IsBlank);
    TrimKeepsLines(TrimLeft(s, IsBlank), IsBlank);
  }

  lemma {:induction false} TakenIsOneLine(lines: seq<string>)
    requires forall i :: 0 <= i < |lines| ==> '\n' !in lines[i]
    ensures '\n' !in TakeLines(lines).event && '\n' !in TakeLines(lines).data
  {
    if lines != [] {
      var line := lines[|lines| - 1];
      TakenIsOneLine(lines[..|lines| - 1]);
      if "event:" <= line {
        JsTrimKeepsLines(line[6..]);
      } else if "data:" <= line {
        JsTrimKeepsLines(line[5..]);
      }
    }
  }

  /** Nothing the parser delivers ever holds a line break. */
  lemma {:induction false} DeliveredIsOneLine(text: string)
    ensures forall i :: 0 <= i < |Parse(text).0| ==> '\n' !in Parse(text).0[i].event && '\n' !in Parse(text).0[i].data
    decreases |text|
  {
    var cut := Cut(text);
    if cut.Some? {
      TakenIsOneLine(Lines(text[..cut.value]));
      DeliveredIsOneLine(text[cut.value + 2..]);
    }
  }

  lemma NothingParses()
    ensures Parse("") == ([], "")
  {
  }

  lemma OneLineTrip(f: Frame)
    requires '\n' !in f.event && '\n' !in f.data
    ensures Parse(Print(f)) ==
            (if JsTrim(f.data) == "" then [] else [Frame(JsTrim(f.event), JsTrim(f.data))], "")
  {
    var arrived := if JsTrim(f.data) == "" then [] else [Frame(JsTrim(f.event), JsTrim(f.data))];
    assert Print(f) + "" == Print(f);
    assert Parse(Print(f)) == (arrived + Parse("").0, Parse("").1) by { OneFrameThenMore(f, ""); }
    NothingParses();
    NothingAfter(arrived);
  }

  /** A frame survives the trip exactly when the format can carry it. */
  lemma CarriedExactly(f: Frame)
    ensures Parse(Print(f)) == ([f], "") <==> Carried(f)
  {
    if '\n' !in f.event && '\n' !in f.data {
      OneLineTrip(f);
      var sent := Frame(JsTrim(f.event), JsTrim(f.data));
      assert [sent] == [f] <==> sent == f;
    } else {
      DeliveredIsOneLine(Print(f));
      var got := Parse(Print(f)).0;
      assert |got| == 1 ==> got[0] != f;
    }
  }
}
