/** The multi-document splitter and the state-file printer of ccvm/workload.go.

    `FindDocument` and `SplitYaml` are the source's two loops: they cut one
    document at a time off the END of the input.  `ForwardSplit` is an
    independent reference that reads the lines from left to right, as section
    9.2 of YAML 1.2 describes document streams; the methods are proved against
    it.  Lines are classified by prefix alone, as in the source.
 */
module YamlSplit {
  import opened Wrappers
  import opened SeqFacts

  newtype Byte = b: int | 0 <= b < 256

  type Line = seq<Byte>

  const NEWLINE: Byte := 10
  const DASH: Byte := 45
  const DOT: Byte := 46
  const PERCENT: Byte := 37

  const START_MARKER: Line := [DASH, DASH, DASH]
  const END_MARKER: Line := [DOT, DOT, DOT]

  predicate IsStart(line: Line) {
    |line| >= 3 && line[0] == DASH && line[1] == DASH && line[2] == DASH
  }

  predicate IsEnd(line: Line) {
    |line| >= 3 && line[0] == DOT && line[1] == DOT && line[2] == DOT
  }

  predicate IsDirective(line: Line) {
    |line| >= 1 && line[0] == PERCENT
  }

  predicate IsMarker(line: Line) {
    IsStart(line) || IsEnd(line)
  }

  /** The tests are those for the prefixes, whatever follows on the line. */
  lemma Prefixes(l: Line)
    ensures IsStart(l) <==> START_MARKER <= l
    ensures IsEnd(l) <==> END_MARKER <= l
    ensures IsDirective(l) <==> [PERCENT] <= l
  {
    Prefix3(START_MARKER, l);
    Prefix3(END_MARKER, l);
  }

  lemma Prefix3(p: Line, l: Line)
    requires |p| == 3
    ensures p <= l <==> |l| >= 3 && l[0] == p[0] && l[1] == p[1] && l[2] == p[2]
  {}

  // ---------- lines and bytes ----------

  /** The bytes of an ASCII text. */
  function Bytes(s: string): seq<Byte> {
    seq(|s|, i requires 0 <= i < |s| => if s[i] as int < 256 then s[i] as int as Byte else 63)
  }

  lemma Literals()
    ensures Bytes("---") == START_MARKER && Bytes("...") == END_MARKER && Bytes("%") == [PERCENT] && Bytes("\n") == [NEWLINE]
    ensures Bytes("---\n") == START_MARKER + [NEWLINE] && Bytes("...\n") == END_MARKER + [NEWLINE]
  {}

  function LineLength(data: seq<Byte>): (n: nat)
    ensures n <= |data|
    ensures NEWLINE !in data[..n]
    ensures n < |data| ==> data[n] == NEWLINE
  {
    if data == [] || data[0] == NEWLINE then 0 else
      var n := LineLength(data[1..]);
      assert data[..n + 1] == [data[0]] + data[1..][..n];
      n + 1
  }

  /** The line scanner: newline-separated, no empty line after a final newline. */
  function ScanLines(data: seq<Byte>): (lines: seq<Line>)
    ensures forall l :: l in lines ==> NEWLINE !in l
  {
    if data == [] then []
    else
      var n := LineLength(data);
      if n == |data| then assert data[..n] == data; [data] else [data[..n]] + ScanLines(data[n + 1..])
  }

  /** What a bytes.Buffer holds after each line and a newline were written to it. */
  function Render(lines: seq<Line>): seq<Byte> {
    if lines == [] then [] else lines[0] + [NEWLINE] + Render(lines[1..])
  }

  function RenderAll(docs: seq<seq<Line>>): seq<seq<Byte>> {
    seq(|docs|, i requires 0 <= i < |docs| => Render(docs[i]))
  }

  lemma RenderAllCons(d: seq<Line>, docs: seq<seq<Line>>)
    ensures RenderAll([d] + docs) == [Render(d)] + RenderAll(docs)
  {}

  lemma {:induction false} RenderAppend(a: seq<Line>, b: seq<Line>)
    ensures Render(a + b) == Render(a) + Render(b)
  {
    if a == [] {
      AppendNil(b);
      AppendNil(Render(b));
    } else {
      RenderAppend(a[1..], b);
      assert (a + b)[1..] == a[1..] + b;
      Assoc(a[0] + [NEWLINE], Render(a[1..]), Render(b));
    }
  }

  lemma {:induction false} LineLengthOf(line: Line, rest: seq<Byte>)
    requires NEWLINE !in line
    ensures LineLength(line + [NEWLINE] + rest) == |line|
  {
    var d := line + [NEWLINE] + rest;
    if line == [] {
      assert d[0] == NEWLINE;
    } else {
      assert d[1..] == line[1..] + [NEWLINE] + rest;
      LineLengthOf(line[1..], rest);
    }
  }

  lemma ScanOne(line: Line, tail: seq<Byte>)
    requires NEWLINE !in line
    ensures ScanLines(line + [NEWLINE] + tail) == [line] + ScanLines(tail)
  {
    LineLengthOf(line, tail);
    TakeAppend(line, [NEWLINE] + tail);
    TakeAppend(line + [NEWLINE], tail);
    Assoc(line, [NEWLINE], tail);
  }

  /** Scanning undoes rendering, whatever follows. */
  lemma {:induction false} ScanRender(lines: seq<Line>, rest: seq<Byte>)
    requires forall l :: l in lines ==> NEWLINE !in l
    ensures ScanLines(Render(lines) + rest) == lines + ScanLines(rest)
  {
    if lines == [] {
      assert Render(lines) + rest == rest;
      assert lines + ScanLines(rest) == ScanLines(rest);
    } else {
      var l, tail := lines[0], Render(lines[1..]) + rest;
      ScanRender(lines[1..], rest);
      ScanOne(l, tail);
      Assoc(l + [NEWLINE], Render(lines[1..]), rest);
      Assoc([l], lines[1..], ScanLines(rest));
      assert lines == [l] + lines[1..];
    }
  }

  predicate Terminated(data: seq<Byte>) {
    data == [] || data[|data| - 1] == NEWLINE
  }

  lemma RenderUnterminated(data: seq<Byte>)
    requires data != [] && LineLength(data) == |data|
    ensures !Terminated(data) && Render(ScanLines(data)) == data + [NEWLINE]
  {}

  lemma RenderCons(line: Line, lines: seq<Line>)
    ensures Render([line] + lines) == line + [NEWLINE] + Render(lines)
  {}

  lemma RenderOne(line: Line)
    ensures Render([line]) == line + [NEWLINE]
  {}

  lemma RenderScanOne(line: Line, tail: seq<Byte>)
    requires NEWLINE !in line
    ensures var data := line + [NEWLINE] + tail;
            Render(ScanLines(data)) == data <==> Render(ScanLines(tail)) == tail
  {
    ScanOne(line, tail);
    RenderCons(line, ScanLines(tail));
    AppendCancel(line + [NEWLINE], Render(ScanLines(tail)), tail);
  }

  lemma FirstLine(data: seq<Byte>) returns (line: Line, tail: seq<Byte>)
    requires LineLength(data) < |data|
    ensures NEWLINE !in line && data == line + [NEWLINE] + tail
    ensures |tail| < |data| && Terminated(tail) == Terminated(data)
  {
    var n := LineLength(data);
    line, tail := data[..n], data[n + 1..];
  }

  /** Rendering undoes scanning exactly on newline-terminated text. */
  lemma {:induction false} RenderScan(data: seq<Byte>)
    ensures Render(ScanLines(data)) == data <==> Terminated(data)
    decreases |data|
  {
    if data != [] {
      var n := LineLength(data);
      if n == |data| {
        RenderUnterminated(data);
      } else {
        var line, tail := FirstLine(data);
        RenderScan(tail);
        RenderScanOne(line, tail);
      }
    }
  }

  // ---------- the left-to-right reference ----------

  /** Left-to-right scanner: finished documents, the body of the open one, the
      run of `%` lines whose fate the next line decides, and whether the open
      document has anything besides that run. */
  datatype Scan = Scan(docs: seq<seq<Line>>, body: seq<Line>, held: seq<Line>, open: bool)

  const BEGIN: Scan := Scan([], [], [], false)

  function Feed(s: Scan, line: Line): Scan {
    if IsStart(line) then
      Scan(if s.open then s.docs + [s.body] else s.docs, [], [], true)
    else if IsEnd(line) then
      Scan(s.docs + [s.body + s.held], [], [], false)
    else if IsDirective(line) then
      s.(held := s.held + [line])
    else
      Scan(s.docs, s.body + s.held + [line], [], true)
  }

  function ScanAll(lines: seq<Line>): Scan {
    if lines == [] then BEGIN else Feed(ScanAll(lines[..|lines| - 1]), lines[|lines| - 1])
  }

  function Finish(s: Scan): seq<seq<Line>> {
    if s.open || s.held != [] then s.docs + [s.body + s.held] else s.docs
  }

  function ForwardSplit(lines: seq<Line>): seq<seq<Line>> {
    Finish(ScanAll(lines))
  }

  lemma ScanStep(a: seq<Line>, x: Line)
    ensures ScanAll(a + [x]) == Feed(ScanAll(a), x)
  {}

  /** What the scanner remembers is decided by the last line it read. */
  lemma {:induction false} ScanMemory(lines: seq<Line>)
    ensures var s := ScanAll(lines);
            && (lines == [] || IsEnd(lines[|lines| - 1]) ==> s.body == [] && s.held == [] && !s.open)
            && (lines != [] && !IsDirective(lines[|lines| - 1]) ==> s.held == [] && s.open == !IsEnd(lines[|lines| - 1]))
            && (!s.open ==> s.body == [])
  {
    if lines != [] {
      ScanMemory(lines[..|lines| - 1]);
    }
  }

  // ---------- one document, cut off the end ----------

  /** `start` is where the last document's lines begin (directives included) and
      `[from, to)` is its body. */
  predicate LastDocument(lines: seq<Line>, start: int, from: int, to: int) {
    && 0 <= start <= from <= to <= |lines|
    && start < |lines|
    && to == (if IsEnd(lines[|lines| - 1]) then |lines| - 1 else |lines|)
    && (forall i :: from <= i < to ==> !IsMarker(lines[i]))
    && (if from == start then start == 0 || IsEnd(lines[start - 1])
        else
          && IsStart(lines[from - 1])
          && (forall i :: start <= i < from - 1 ==> IsDirective(lines[i]))
          && (start == 0 || !IsDirective(lines[start - 1])))
  }

  lemma {:induction false} FeedDirectives(a: seq<Line>, ds: seq<Line>)
    requires forall d :: d in ds ==> IsDirective(d)
    ensures var s := ScanAll(a); ScanAll(a + ds) == s.(held := s.held + ds)
  {
    if ds == [] {
      AppendNil(a);
      AppendNil(ScanAll(a).held);
    } else {
      var init, d := ds[..|ds| - 1], ds[|ds| - 1];
      assert ds == init + [d];
      FeedDirectives(a, init);
      assert d in ds;
      ScanStep(a + init, d);
      Assoc(a, init, [d]);
      Assoc(ScanAll(a).held, init, [d]);
    }
  }

  lemma FeedBodyLine(s: Scan, x: Line)
    requires !IsMarker(x)
    ensures var t := Feed(s, x);
            t.docs == s.docs && t.body + t.held == s.body + s.held + [x] && (t.open || t.held != [])
  {
    Assoc(s.body, s.held, [x]);
    AppendNil(s.body + s.held + [x]);
  }

  /** Reading marker-free lines into a document that is still empty. */
  lemma {:induction false} FeedBody(a: seq<Line>, b: seq<Line>)
    requires forall l :: l in b ==> !IsMarker(l)
    requires ScanAll(a).body == [] && ScanAll(a).held == []
    ensures var s := ScanAll(a + b);
            && s.docs == ScanAll(a).docs
            && s.body + s.held == b
            && ((s.open || s.held != []) == (ScanAll(a).open || b != []))
  {
    if b == [] {
      AppendNil(a);
    } else {
      var init, x := b[..|b| - 1], b[|b| - 1];
      assert b == init + [x];
      FeedBody(a, init);
      assert x in b;
      ScanStep(a + init, x);
      Assoc(a, init, [x]);
      FeedBodyLine(ScanAll(a + init), x);
    }
  }

  /** A body, with or without an end marker, is one more document. */
  lemma FinishBody(a: seq<Line>, b: seq<Line>, end: seq<Line>)
    requires forall l :: l in b ==> !IsMarker(l)
    requires ScanAll(a).body == [] && ScanAll(a).held == []
    requires if end == [] then ScanAll(a).open || b != [] else |end| == 1 && IsEnd(end[0])
    ensures ForwardSplit(a + b + end) == ScanAll(a).docs + [b]
    ensures end != [] ==> ScanAll(a + b + end) == Scan(ScanAll(a).docs + [b], [], [], false)
  {
    FeedBody(a, b);
    if end == [] {
      AppendNil(a + b);
    } else {
      assert end == [end[0]];
      ScanStep(a + b, end[0]);
    }
  }

  /** Directives and a start marker close what was open. */
  lemma StartDocument(a: seq<Line>, ds: seq<Line>, start: Line)
    requires forall d :: d in ds ==> IsDirective(d)
    requires IsStart(start)
    requires a == [] || !IsDirective(a[|a| - 1])
    ensures ScanAll(a + ds + [start]) == Scan(ForwardSplit(a), [], [], true)
  {
    ScanMemory(a);
    FeedDirectives(a, ds);
    ScanStep(a + ds, start);
    AppendNil(ScanAll(a).body);
  }

  /** Before the body of the last document everything else is finished. */
  lemma LastBegun(lines: seq<Line>, start: int, from: int, to: int)
    requires LastDocument(lines, start, from, to)
    ensures var s := ScanAll(lines[..from]);
            s.docs == ForwardSplit(lines[..start]) && s.body == [] && s.held == [] && (from > start ==> s.open)
  {
    var a := lines[..start];
    if from == start {
      ScanMemory(a);
    } else {
      var ds := lines[start..from - 1];
      assert lines[..from] == a + ds + [lines[from - 1]];
      StartDocument(a, ds, lines[from - 1]);
    }
  }

  /** Cutting the last document off the end agrees with reading from the left. */
  lemma CutLast(lines: seq<Line>, start: int, from: int, to: int)
    requires LastDocument(lines, start, from, to)
    ensures ForwardSplit(lines) == ForwardSplit(lines[..start]) + [lines[from..to]]
  {
    var b, end := lines[from..to], lines[to..];
    LastBegun(lines, start, from, to);
    assert forall l :: l in b ==> !IsMarker(l);
    assert end != [] ==> end == [lines[to]];
    FinishBody(lines[..from], b, end);
    assert lines == lines[..from] + b + end;
  }

  /** The final loop of `findDocument`: lines and newlines into a buffer. */
  method WriteLines(lines: seq<Line>, realStart: nat, realEnd: nat) returns (buf: seq<Byte>)
    requires realStart <= realEnd <= |lines|
    ensures buf == Render(lines[realStart..realEnd])
  {
    buf := [];
    for k := realStart to realEnd
      invariant buf == Render(lines[realStart..k])
    {
      RenderAppend(lines[realStart..k], [lines[k]]);
      RenderOne(lines[k]);
      assert lines[realStart..k + 1] == lines[realStart..k] + [lines[k]];
      buf := buf + lines[k];
      buf := buf + [NEWLINE];
    }
  }

  /** The first loop of `findDocument`: down to the nearest marker at or below `top`. */
  method ScanToMarker(lines: seq<Line>, top: int) returns (start: int, docStartFound: bool)
    requires -1 <= top < |lines|
    ensures -1 <= start <= top + 1
    ensures forall i :: start < i <= top ==> !IsMarker(lines[i])
    ensures if docStartFound then 0 <= start <= top && IsStart(lines[start])
            else start == -1 || (start >= 1 && IsEnd(lines[start - 1]) && (start <= top ==> !IsMarker(lines[start])))
  {
    docStartFound := false;
    start := top;
    while start >= 0
      invariant -1 <= start <= top
      invariant forall i :: start < i <= top ==> !IsMarker(lines[i])
    {
      if IsStart(lines[start]) {
        docStartFound := true;
        return;
      }
      if IsEnd(lines[start]) {
        start := start + 1;
        return;
      }
      start := start - 1;
    }
  }

  /** Its second loop: back over the `%` lines directly above `below`. */
  method ScanDirectives(lines: seq<Line>, below: nat) returns (start: nat)
    requires below <= |lines|
    ensures start <= below
    ensures forall i :: start <= i < below ==> IsDirective(lines[i])
    ensures start == 0 || !IsDirective(lines[start - 1])
  {
    var k: int := below - 1;
    while k >= 0
      invariant -1 <= k < below
      invariant forall i :: k < i < below ==> IsDirective(lines[i])
    {
      if !IsDirective(lines[k]) {
        break;
      }
      k := k - 1;
    }
    start := k + 1;
  }

  /** `findDocument`: the last document of the forward reading, and the index
      where the lines of all the others end. */
  method FindDocument(lines: seq<Line>) returns (doc: seq<Byte>, start: int)
    requires lines != []
    ensures 0 <= start < |lines|
    ensures var all := ForwardSplit(lines);
            && all != []
            && all == ForwardSplit(lines[..start]) + [all[|all| - 1]]
            && doc == Render(all[|all| - 1])
  {
    var realStart, realEnd := 0, |lines|;
    var docStartFound: bool;
    start := |lines| - 1;
    if IsEnd(lines[start]) {
      realEnd := start;
      start := start - 1;
    }
    start, docStartFound := ScanToMarker(lines, start);
    if docStartFound {
      realStart := start + 1;
      start := ScanDirectives(lines, start);
    } else {
      if start < 0 {
        start := 0;
      }
      realStart := start;
    }
    doc := WriteLines(lines, realStart, realEnd);
    CutLast(lines, start, realStart, realEnd);
    TakeSnoc(ForwardSplit(lines[..start]), lines[realStart..realEnd]);
  }

  /** `splitYaml`: the backward loop returns the documents of the forward reading. */
  method SplitYaml(data: seq<Byte>) returns (docs: seq<seq<Byte>>)
    ensures docs == RenderAll(ForwardSplit(ScanLines(data)))
  {
    var lines := ScanLines(data);
    docs := [];
    var endOfNextDoc := |lines|;
    ghost var found: seq<seq<Line>> := [];
    assert lines[..endOfNextDoc] == lines;
    AppendNil(ForwardSplit(lines));
    while endOfNextDoc > 0
      invariant 0 <= endOfNextDoc <= |lines|
      invariant ForwardSplit(lines) == ForwardSplit(lines[..endOfNextDoc]) + found
      invariant docs == RenderAll(found)
      decreases endOfNextDoc
    {
      ghost var prefix := lines[..endOfNextDoc];
      var doc, start := FindDocument(lines[..endOfNextDoc]);
      ghost var last := ForwardSplit(prefix)[|ForwardSplit(prefix)| - 1];
      assert prefix[..start] == lines[..start];
      Assoc(ForwardSplit(lines[..start]), [last], found);
      RenderAllCons(last, found);
      found := [last] + found;
      docs := [doc] + docs;
      endOfNextDoc := start;
    }
    assert lines[..0] == [];
    AppendNil(found);
  }

  // ---------- what the documents contain ----------

  function Flatten(docs: seq<seq<Line>>): seq<Line> {
    if docs == [] then [] else Flatten(docs[..|docs| - 1]) + docs[|docs| - 1]
  }

  /** The input without its markers and without the `%` lines that run directly
      up to a `---`; read right to left, `dropping` says such a run is open. */
  function Kept(lines: seq<Line>, dropping: bool): seq<Line> {
    if lines == [] then []
    else
      var init, last := lines[..|lines| - 1], lines[|lines| - 1];
      if IsStart(last) then Kept(init, true)
      else if IsEnd(last) then Kept(init, false)
      else if IsDirective(last) && dropping then Kept(init, true)
      else Kept(init, false) + [last]
  }

  lemma FlattenSnoc(docs: seq<seq<Line>>, d: seq<Line>)
    ensures Flatten(docs + [d]) == Flatten(docs) + d
  {}

  /** The lines a scan has kept for good, and those it would keep if the input ended here. */
  function Settled(s: Scan): seq<Line> { Flatten(s.docs) + s.body }

  function Pending(s: Scan): seq<Line> { Settled(s) + s.held }

  lemma FeedKept(s: Scan, x: Line)
    requires s.open || s.body == []
    ensures var t := Feed(s, x);
            if IsStart(x) then Settled(t) == Pending(t) == Settled(s)
            else if IsEnd(x) then Settled(t) == Pending(t) == Pending(s)
            else if IsDirective(x) then Settled(t) == Settled(s) && Pending(t) == Pending(s) + [x]
            else Settled(t) == Pending(t) == Pending(s) + [x]
  {}

  lemma {:induction false} KeptScan(lines: seq<Line>)
    ensures Kept(lines, false) == Pending(ScanAll(lines))
    ensures Kept(lines, true) == Settled(ScanAll(lines))
  {
    if lines != [] {
      var init, last := lines[..|lines| - 1], lines[|lines| - 1];
      KeptScan(init);
      ScanMemory(init);
      FeedKept(ScanAll(init), last);
    }
  }

  /** Conservation: the documents, in order, are the input without its framing. */
  lemma SplitConserves(lines: seq<Line>)
    ensures Flatten(ForwardSplit(lines)) == Kept(lines, false)
  {
    KeptScan(lines);
    ScanMemory(lines);
    var s := ScanAll(lines);
    FlattenSnoc(s.docs, s.body + s.held);
    Assoc(Flatten(s.docs), s.body, s.held);
    AppendNil(Flatten(s.docs));
  }

  ghost predicate AllLines(docs: seq<seq<Line>>, p: Line -> bool) {
    forall d, l :: d in docs && l in d ==> p(l)
  }

  lemma {:induction false} SplitUnmarked(lines: seq<Line>)
    ensures AllLines(ForwardSplit(lines), l => !IsMarker(l) && l in lines)
    ensures var s := ScanAll(lines); AllLines(s.docs + [s.body + s.held], l => !IsMarker(l) && l in lines)
  {
    if lines != [] {
      var init := lines[..|lines| - 1];
      SplitUnmarked(init);
      var s, t := ScanAll(init), ScanAll(lines);
      var p := l => !IsMarker(l) && l in init;
      assert s.body + s.held in s.docs + [s.body + s.held];
      assert forall l :: l in s.body || l in s.held ==> l in s.body + s.held && p(l);
      assert forall d :: d in s.docs ==> d in s.docs + [s.body + s.held];
      assert forall l :: l in init ==> l in lines;
      forall d, l | d in t.docs + [t.body + t.held] && l in d ensures !IsMarker(l) && l in lines {
        if d in s.docs {
          assert p(l);
        }
      }
    }
  }

  /** No document holds a marker line; every line of a document is a line of the input. */
  lemma SplitLines(lines: seq<Line>)
    ensures AllLines(ForwardSplit(lines), l => !(START_MARKER <= l) && !(END_MARKER <= l) && l in lines)
  {
    SplitUnmarked(lines);
    var p := l => !IsMarker(l) && l in lines;
    forall d, l | d in ForwardSplit(lines) && l in d ensures !(START_MARKER <= l) && !(END_MARKER <= l) && l in lines {
      Prefixes(l);
      assert p(l);
    }
  }

  // ---------- the printer, and the round trip ----------

  /** What `save` writes for any number of documents. */
  function Frame(texts: seq<seq<Byte>>): seq<Byte> {
    if texts == [] then []
    else START_MARKER + [NEWLINE] + texts[0] + END_MARKER + [NEWLINE] + Frame(texts[1..])
  }

  /** Text that `Frame` can carry: empty or ending in a newline, no marker line. */
  predicate Clean(text: seq<Byte>) {
    && Terminated(text)
    && forall l :: l in ScanLines(text) ==> !(START_MARKER <= l) && !(END_MARKER <= l)
  }

  lemma CleanMeans(text: seq<Byte>)
    ensures Clean(text) <==> Terminated(text) && forall l :: l in ScanLines(text) ==> !IsMarker(l)
  {
    forall l | l in ScanLines(text) ensures IsMarker(l) <==> START_MARKER <= l || END_MARKER <= l {
      Prefixes(l);
    }
  }

  function FrameLines(docs: seq<seq<Line>>): seq<Line> {
    if docs == [] then [] else FrameLines(docs[..|docs| - 1]) + [START_MARKER] + docs[|docs| - 1] + [END_MARKER]
  }

  lemma {:induction false} FrameSplits(docs: seq<seq<Line>>)
    requires AllLines(docs, l => !IsMarker(l))
    ensures ScanAll(FrameLines(docs)) == Scan(docs, [], [], false)
  {
    if docs != [] {
      var init, d := docs[..|docs| - 1], docs[|docs| - 1];
      assert forall e :: e in init ==> e in docs;
      FrameSplits(init);
      var p := l => !IsMarker(l);
      assert d in docs && forall l :: l in d ==> p(l);
      FrameOne(FrameLines(init), init, d);
      assert docs == init + [d];
    }
  }

  /** One more framed document after a finished one. */
  lemma FrameOne(a: seq<Line>, docs: seq<seq<Line>>, d: seq<Line>)
    requires ScanAll(a) == Scan(docs, [], [], false)
    requires forall l :: l in d ==> !IsMarker(l)
    ensures ScanAll(a + [START_MARKER] + d + [END_MARKER]) == Scan(docs + [d], [], [], false)
  {
    ScanStep(a, START_MARKER);
    FinishBody(a + [START_MARKER], d, [END_MARKER]);
  }

  lemma FrameLinesCons(d: seq<Line>, docs: seq<seq<Line>>)
    ensures FrameLines([d] + docs) == [START_MARKER] + d + [END_MARKER] + FrameLines(docs)
    decreases |docs|
  {
    if docs == [] {
      assert [d] + docs == [d];
      assert [d][..0] == [];
    } else {
      var init, last := docs[..|docs| - 1], docs[|docs| - 1];
      FrameLinesCons(d, init);
      assert ([d] + docs)[..|docs|] == [d] + init;
    }
  }

  lemma {:induction false} ScanFrame(texts: seq<seq<Byte>>)
    requires forall t :: t in texts ==> Clean(t)
    ensures ScanLines(Frame(texts)) == FrameLines(seq(|texts|, i requires 0 <= i < |texts| => ScanLines(texts[i])))
  {
    var docs := seq(|texts|, i requires 0 <= i < |texts| => ScanLines(texts[i]));
    if texts != [] {
      var rest := texts[1..];
      ScanFrame(rest);
      var d := ScanLines(texts[0]);
      assert docs == [d] + seq(|rest|, i requires 0 <= i < |rest| => ScanLines(rest[i]));
      FrameLinesCons(d, docs[1..]);
      assert texts[0] in texts;
      ScanFrameOne(texts[0], Frame(rest));
    }
  }

  lemma ScanFrameOne(text: seq<Byte>, rest: seq<Byte>)
    requires Clean(text)
    ensures ScanLines(START_MARKER + [NEWLINE] + text + END_MARKER + [NEWLINE] + rest)
         == [START_MARKER] + ScanLines(text) + [END_MARKER] + ScanLines(rest)
  {
    var d := ScanLines(text);
    RenderScan(text);
    var framed := [START_MARKER] + d + [END_MARKER];
    RenderAppend([START_MARKER] + d, [END_MARKER]);
    RenderAppend([START_MARKER], d);
    RenderOne(START_MARKER);
    RenderOne(END_MARKER);
    assert Render(framed) + rest == START_MARKER + [NEWLINE] + text + END_MARKER + [NEWLINE] + rest;
    ScanRender(framed, rest);
  }

  lemma CleanFrame(texts: seq<seq<Byte>>)
    requires forall t :: t in texts ==> Clean(t)
    ensures RenderAll(ForwardSplit(ScanLines(Frame(texts)))) == texts
  {
    var docs := seq(|texts|, i requires 0 <= i < |texts| => ScanLines(texts[i]));
    ScanFrame(texts);
    forall d, l | d in docs && l in d ensures !IsMarker(l) {
      var i :| 0 <= i < |docs| && docs[i] == d;
      assert texts[i] in texts;
      CleanMeans(texts[i]);
    }
    FrameSplits(docs);
    forall i | 0 <= i < |texts| ensures Render(docs[i]) == texts[i] {
      assert texts[i] in texts;
      RenderScan(texts[i]);
    }
  }

  lemma {:induction false} RenderClean(lines: seq<Line>)
    requires forall l :: l in lines ==> NEWLINE !in l && !IsMarker(l)
    ensures Clean(Render(lines))
  {
    ScanRender(lines, []);
    assert Render(lines) + [] == Render(lines);
    assert lines + ScanLines([]) == lines;
    RenderScan(Render(lines));
    CleanMeans(Render(lines));
  }

  /** Round trip, exactly: splitting a frame gives back its texts if and only if
      every text is newline-terminated and free of marker lines. */
  lemma RoundTrip(texts: seq<seq<Byte>>)
    ensures RenderAll(ForwardSplit(ScanLines(Frame(texts)))) == texts <==> forall t :: t in texts ==> Clean(t)
  {
    var lines := ScanLines(Frame(texts));
    var docs := ForwardSplit(lines);
    if RenderAll(docs) == texts {
      SplitUnmarked(lines);
      forall t | t in texts ensures Clean(t) {
        var i :| 0 <= i < |texts| && texts[i] == t;
        var p := l => !IsMarker(l) && l in lines;
        assert docs[i] in docs;
        assert forall l :: l in docs[i] ==> p(l);
        RenderClean(docs[i]);
      }
    }
    if forall t :: t in texts ==> Clean(t) {
      CleanFrame(texts);
    }
  }

  datatype Restored = Restored(spec: seq<Byte>, userData: seq<Byte>) | NotTwoDocuments

  /** `save`: the buffer it writes to state.yaml. */
  method Save(spec: seq<Byte>, userData: seq<Byte>) returns (buf: seq<Byte>)
    ensures buf == Frame([spec, userData])
    ensures buf == Bytes("---\n") + spec + Bytes("...\n") + Bytes("---\n") + userData + Bytes("...\n")
  {
    Literals();
    buf := START_MARKER + [NEWLINE];
    buf := buf + spec;
    buf := buf + END_MARKER + [NEWLINE];
    buf := buf + START_MARKER + [NEWLINE];
    buf := buf + userData;
    buf := buf + END_MARKER + [NEWLINE];
    assert [spec, userData][1..] == [userData] && [userData][1..] == [];
    assert Frame([userData]) == START_MARKER + [NEWLINE] + userData + END_MARKER + [NEWLINE];
  }

  /** `restoreWorkload`: refuses anything but two documents. */
  method Restore(data: seq<Byte>) returns (r: Restored)
    ensures var docs := RenderAll(ForwardSplit(ScanLines(data)));
            r == if |docs| == 2 then Restored(docs[0], docs[1]) else NotTwoDocuments
  {
    var docs := SplitYaml(data);
    if |docs| != 2 {
      return NotTwoDocuments;
    }
    r := Restored(docs[0], docs[1]);
  }

  /** Saving and restoring an instance's state is lossless exactly on clean text. */
  method SaveRestore(spec: seq<Byte>, userData: seq<Byte>) returns (r: Restored)
    ensures r == Restored(spec, userData) <==> Clean(spec) && Clean(userData)
  {
    var buf := Save(spec, userData);
    r := Restore(buf);
    var texts := [spec, userData];
    RoundTrip(texts);
    assert spec in texts && userData in texts;
    var docs := RenderAll(ForwardSplit(ScanLines(buf)));
    if r == Restored(spec, userData) {
      assert docs == texts;
    }
  }

  // ---------- the state file over an instance's life ----------

  /** A workload as `restoreWorkload` leaves it: the second document becomes the
      user data, and nobody fills the merged user data. */
  datatype Loaded = Loaded(spec: seq<Byte>, userData: seq<Byte>, merged: seq<Byte>)

  /** `start`, as far as the state file goes: restore, change the specification, save.
      What is saved as second document is the merged user data. */
  method StartInstance(data: seq<Byte>, newSpec: seq<Byte>) returns (r: Option<seq<Byte>>)
    ensures r == if |RenderAll(ForwardSplit(ScanLines(data)))| == 2 then Some(Frame([newSpec, []])) else None
  {
    var restored := Restore(data);
    if restored.NotTwoDocuments? {
      return None;
    }
    var w := Loaded(restored.spec, restored.userData, []);
    w := w.(spec := newSpec);
    var buf := Save(w.spec, w.merged);
    return Some(buf);
  }

  lemma TwoDocuments(spec: seq<Byte>, userData: seq<Byte>)
    requires Clean(spec) && Clean(userData)
    ensures RenderAll(ForwardSplit(ScanLines(Frame([spec, userData])))) == [spec, userData]
  {
    RoundTrip([spec, userData]);
  }

  /** An instance is created and then started any number of times with the given
      specifications.  All starts find their two documents, and the first one has
      emptied the second: user data survive if and only if there is none or no start. */
  method LiveThrough(spec: seq<Byte>, merged: seq<Byte>, specs: seq<seq<Byte>>) returns (r: Restored)
    requires Clean(spec) && Clean(merged) && forall s :: s in specs ==> Clean(s)
    ensures r == if specs == [] then Restored(spec, merged) else Restored(specs[|specs| - 1], [])
    ensures r.userData == merged <==> specs == [] || merged == []
  {
    var buf := Save(spec, merged);
    ghost var nowSpec, nowData := spec, merged;
    for i := 0 to |specs|
      invariant buf == Frame([nowSpec, nowData]) && Clean(nowSpec) && Clean(nowData)
      invariant if i == 0 then nowSpec == spec && nowData == merged else nowSpec == specs[i - 1] && nowData == []
    {
      assert specs[i] in specs;
      TwoDocuments(nowSpec, nowData);
      var next := StartInstance(buf, specs[i]);
      buf := next.value;
      nowSpec, nowData := specs[i], [];
    }
    TwoDocuments(nowSpec, nowData);
    r := Restore(buf);
  }
}
