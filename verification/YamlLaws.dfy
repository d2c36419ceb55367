/** Laws that determine the splitting of a document stream, stated on the lines
    themselves: with prefixes, and without the scanner that defines it. */
module YamlLaws {
  import opened SeqFacts
  import opened YamlSplit

  // ---------- scanning on ----------

  lemma {:induction false} ScanOn(a: seq<Line>, a': seq<Line>, b: seq<Line>)
    requires ScanAll(a) == ScanAll(a')
    ensures ScanAll(a + b) == ScanAll(a' + b)
  {
    if b == [] {
      AppendNil(a);
      AppendNil(a');
    } else {
      var init, x := b[..|b| - 1], b[|b| - 1];
      assert b == init + [x];
      ScanOn(a, a', init);
      Assoc(a, init, [x]);
      Assoc(a', init, [x]);
      ScanStep(a + init, x);
      ScanStep(a' + init, x);
    }
  }

  function After(docs: seq<seq<Line>>, s: Scan): Scan {
    s.(docs := docs + s.docs)
  }

  lemma FeedAfter(docs: seq<seq<Line>>, s: Scan, x: Line)
    ensures Feed(After(docs, s), x) == After(docs, Feed(s, x))
  {
    Assoc(docs, s.docs, [s.body]);
    Assoc(docs, s.docs, [s.body + s.held]);
  }

  /** Documents that are finished do not matter for what follows. */
  lemma {:induction false} ScanAfter(docs: seq<seq<Line>>, a: seq<Line>, c: seq<Line>, b: seq<Line>)
    requires ScanAll(a) == After(docs, ScanAll(c))
    ensures ScanAll(a + b) == After(docs, ScanAll(c + b))
  {
    if b == [] {
      AppendNil(a);
      AppendNil(c);
    } else {
      var init, x := b[..|b| - 1], b[|b| - 1];
      assert b == init + [x];
      ScanAfter(docs, a, c, init);
      Assoc(a, init, [x]);
      Assoc(c, init, [x]);
      ScanStep(a + init, x);
      ScanStep(c + init, x);
      FeedAfter(docs, ScanAll(c + init), x);
    }
  }

  lemma FinishAfter(docs: seq<seq<Line>>, s: Scan)
    ensures Finish(After(docs, s)) == docs + Finish(s)
  {
    Assoc(docs, s.docs, [s.body + s.held]);
  }

  // ---------- where documents begin and end ----------

  predicate Plain(l: Line) {
    !(START_MARKER <= l) && !(END_MARKER <= l)
  }

  lemma NothingSplits()
    ensures ForwardSplit([]) == []
  {}

  lemma ForwardEmpty()
    ensures ScanAll([]) == BEGIN
  {}

  /** Lines without a marker are one document, with or without an end marker. */
  lemma BodySplits(b: seq<Line>, e: Line)
    requires (forall l :: l in b ==> Plain(l)) && END_MARKER <= e
    ensures b != [] ==> ForwardSplit(b) == [b]
    ensures ForwardSplit(b + [e]) == [b]
  {
    ForwardEmpty();
    assert [] + b == b && b + [] == b && [] + b + [e] == b + [e];
    FinishBody([], b, [e]);
    if b != [] {
      FinishBody([], b, []);
    }
  }

  /** So are lines below a start marker, even if there are none. */
  lemma StartSplits(s: Line, b: seq<Line>, e: Line)
    requires START_MARKER <= s && END_MARKER <= e && forall l :: l in b ==> Plain(l)
    ensures ForwardSplit([s] + b) == [b] && ForwardSplit([s] + b + [e]) == [b]
  {
    ForwardEmpty();
    ScanStep([], s);
    assert [] + [s] == [s];
    AppendNil([s] + b);
    FinishBody([s], b, [e]);
    FinishBody([s], b, []);
  }

  /** An end marker closes what was open, and whatever follows begins afresh. */
  lemma EndSeparates(a: seq<Line>, e: Line, b: seq<Line>)
    requires END_MARKER <= e
    ensures ForwardSplit(a + [e] + b) == ForwardSplit(a + [e]) + ForwardSplit(b)
  {
    var docs := ForwardSplit(a + [e]);
    EndIsNotStart(e);
    ForwardEmpty();
    ScanStep(a, e);
    AppendNil(docs);
    assert [] + b == b;
    ScanAfter(docs, a + [e], [], b);
    FinishAfter(docs, ScanAll(b));
  }

  lemma EndIsNotStart(e: Line)
    requires END_MARKER <= e
    ensures !(START_MARKER <= e) && !([PERCENT] <= e)
  {
    assert e[0] == DOT;
  }

  /** A start marker, with the `%` lines directly above it, closes what was open, and
      the document it begins does not depend on what was before. */
  lemma StartSeparates(a: seq<Line>, ds: seq<Line>, s: Line, b: seq<Line>)
    requires START_MARKER <= s && forall d :: d in ds ==> [PERCENT] <= d
    requires a == [] || !([PERCENT] <= a[|a| - 1])
    ensures ForwardSplit(a + ds + [s] + b) == ForwardSplit(a) + ForwardSplit([s] + b)
  {
    var docs := ForwardSplit(a);
    StartDocument(a, ds, s);
    ForwardEmpty();
    ScanStep([], s);
    assert [] + [s] == [s];
    AppendNil(docs);
    ScanAfter(docs, a + ds + [s], [s], b);
    FinishAfter(docs, ScanAll([s] + b));
  }

  // ---------- only prefixes matter ----------

  /** What follows a marker on its line does not matter, nor what a `%` line directly
      above a start marker says. */
  lemma OnlyPrefixes(a: seq<Line>, t: Line, b: seq<Line>)
    ensures ForwardSplit(a + [START_MARKER + t] + b) == ForwardSplit(a + [START_MARKER] + b)
    ensures ForwardSplit(a + [END_MARKER + t] + b) == ForwardSplit(a + [END_MARKER] + b)
  {
    SameKind(a, START_MARKER + t, START_MARKER, b);
    EndIsNotStart(END_MARKER + t);
    EndIsNotStart(END_MARKER);
    SameKind(a, END_MARKER + t, END_MARKER, b);
  }

  lemma SameKind(a: seq<Line>, x: Line, y: Line, b: seq<Line>)
    requires (START_MARKER <= x && START_MARKER <= y) || (END_MARKER <= x && END_MARKER <= y && !(START_MARKER <= x) && !(START_MARKER <= y))
    ensures ForwardSplit(a + [x] + b) == ForwardSplit(a + [y] + b)
  {
    ScanStep(a, x);
    ScanStep(a, y);
    ScanOn(a + [x], a + [y], b);
  }

  lemma DirectiveText(a: seq<Line>, t: Line, s: Line, b: seq<Line>)
    requires START_MARKER <= s
    ensures ForwardSplit(a + [[PERCENT] + t] + [s] + b) == ForwardSplit(a + [[PERCENT]] + [s] + b)
  {
    var x, y: Line := [PERCENT] + t, [PERCENT];
    assert x[0] == PERCENT && [PERCENT] <= x;
    ScanStep(a, x);
    ScanStep(a, y);
    ScanStep(a + [x], s);
    ScanStep(a + [y], s);
    ScanOn(a + [x] + [s], a + [y] + [s], b);
  }

  /** Lines that are neither markers nor `%` lines. */
  predicate Content(l: Line) {
    Plain(l) && !([PERCENT] <= l)
  }

  function Contents(lines: seq<Line>): seq<Line> {
    if lines == [] then []
    else Contents(lines[..|lines| - 1]) + if Content(lines[|lines| - 1]) then [lines[|lines| - 1]] else []
  }

  lemma ContentsSnoc(a: seq<Line>, x: Line)
    ensures Contents(a + [x]) == Contents(a) + if Content(x) then [x] else []
  {
    TakeSnoc(a, x);
  }

  lemma {:induction false} KeptContents(lines: seq<Line>, dropping: bool)
    ensures Contents(Kept(lines, dropping)) == Contents(lines)
  {
    if lines != [] {
      var init, last := lines[..|lines| - 1], lines[|lines| - 1];
      Prefixes(last);
      KeptContents(init, IsStart(last) || (!IsEnd(last) && IsDirective(last) && dropping));
      ContentsSnoc(Kept(init, false), last);
      AppendNil(Contents(init));
    }
  }

  /** Every content line survives, once and in order, and no document gains one. */
  lemma ContentSurvives(lines: seq<Line>)
    ensures Contents(Flatten(ForwardSplit(lines))) == Contents(lines)
  {
    SplitConserves(lines);
    KeptContents(lines, false);
  }

  /** Two documents, the second begun by a line of four dashes. */
  lemma FourDashes(d1: seq<Line>, d2: seq<Line>)
    requires (forall l :: l in d1 ==> Plain(l)) && (forall l :: l in d2 ==> Plain(l))
    ensures ForwardSplit([Bytes("---")] + d1 + [Bytes("...")] + ([Bytes("----")] + d2 + [Bytes("...")])) == [d1, d2]
  {
    Literals();
    var s, e, four := Bytes("---"), Bytes("..."), Bytes("----");
    assert four == START_MARKER + [DASH];
    StartSplits(s, d1, e);
    StartSplits(four, d2, e);
    EndSeparates([s] + d1, e, [four] + d2 + [e]);
    assert [d1] + [d2] == [d1, d2];
  }
}
