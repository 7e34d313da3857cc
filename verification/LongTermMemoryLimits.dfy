/**
  The round trip of a note holds for exactly the notes whose fields keep to their lines:
  a line boundary inside a field, or before its first visible character, is never read back.
 */
module LongTermMemoryLimits {
  import opened Common
  import opened Whitespace
  import opened LongTermMemory

  // ----- nothing that is read contains a line boundary -----

  predicate OnOneLine(v: Option<string>) {
    v.Some? ==> BreakFree(v.value)
  }

  predicate ValuesOnOneLine(e: Entry) {
    OnOneLine(e.date) && OnOneLine(e.context) && OnOneLine(e.learning) && OnOneLine(e.source)
  }

  lemma {:induction false} RawLinesHaveNoBreak(s: string)
    ensures forall l :: l in RawLines(s) ==> BreakFree(l)
  {
    if s != "" {
      RawLinesHaveNoBreak(s[1..]);
      var r := RawLines(s[1..]);
      assert BreakFree(r[0]);
      assert forall l :: l in r[1..] ==> l in r;
    }
  }

  lemma StripHasNoNewBreak(s: string)
    requires BreakFree(s)
    ensures BreakFree(Strip(s)) && |Strip(s)| <= |s|
  {
    var w, v := StripParts(s);
    assert forall i :: 0 <= i < |Strip(s)| ==> Strip(s)[i] == s[|w| + i];
  }

  lemma {:induction false} CleanLinesHaveNoBreak(lines: seq<string>)
    requires forall l :: l in lines ==> BreakFree(l)
    ensures forall l :: l in Clean(lines) ==> BreakFree(l)
  {
    if lines != [] {
      StripHasNoNewBreak(lines[0]);
      CleanLinesHaveNoBreak(lines[1..]);
    }
  }

  lemma ReadValueOnOneLine(e: Entry, line: string)
    requires ValuesOnOneLine(e) && BreakFree(line)
    ensures ValuesOnOneLine(ReadLine(e, line))
  {
    if LineField(line).Some? && |Label(LineField(line).value)| <= |line| {
      StripHasNoNewBreak(line[|Label(LineField(line).value)|..]);
    }
  }

  lemma {:induction false} ReadValuesOnOneLine(e: Entry, lines: seq<string>)
    requires ValuesOnOneLine(e) && forall l :: l in lines ==> BreakFree(l)
    ensures ValuesOnOneLine(ReadLines(e, lines))
    decreases |lines|
  {
    if lines != [] {
      assert lines[0] in lines && forall l :: l in lines[1..] ==> l in lines;
      ReadValueOnOneLine(e, lines[0]);
      ReadValuesOnOneLine(ReadLine(e, lines[0]), lines[1..]);
    }
  }

  lemma {:induction false} ParsedValuesOnOneLine(blocks: seq<string>)
    ensures forall e :: e in ReadBlocks(blocks) ==> ValuesOnOneLine(e)
  {
    if blocks != [] {
      ParsedValuesOnOneLine(blocks[1..]);
      RawLinesHaveNoBreak(blocks[0]);
      CleanLinesHaveNoBreak(RawLines(blocks[0]));
      var lines := Lines(blocks[0]);
      if lines != [] && Heading(lines[0]) {
        ReadValuesOnOneLine(StartEntry(lines[0]), lines[1..]);
      }
    }
  }

  // ----- the lines of each block of a text -----

  function LinesOfBlocks(blocks: seq<string>): (r: seq<seq<string>>)
    ensures |r| == |blocks|
  {
    seq(|blocks|, i requires 0 <= i < |blocks| => Lines(blocks[i]))
  }

  function BlockLines(s: string): (r: seq<seq<string>>)
    ensures r != []
  {
    LinesOfBlocks(Blocks(s))
  }

  function ReadAll(blocks: seq<seq<string>>): seq<Entry> {
    if blocks == [] then [] else EntriesOfLines(blocks[0]) + ReadAll(blocks[1..])
  }

  lemma {:induction false} ReadAllIsReadBlocks(blocks: seq<string>)
    ensures ReadAll(LinesOfBlocks(blocks)) == ReadBlocks(blocks)
  {
    if blocks != [] {
      ReadAllIsReadBlocks(blocks[1..]);
      assert LinesOfBlocks(blocks)[1..] == LinesOfBlocks(blocks[1..]);
    }
  }

  /** The last block of one text continues with the first block of the next. */
  function Glue<T>(a: seq<seq<T>>, b: seq<seq<T>>): seq<seq<T>>
    requires a != [] && b != []
  {
    a[..|a| - 1] + [a[|a| - 1] + b[0]] + b[1..]
  }

  lemma GluePrepend(r: seq<string>, first: char, b: seq<string>)
    requires r != [] && b != []
    ensures Glue([""] + r, b) == [""] + Glue(r, b)
    ensures Glue([[first] + r[0]] + r[1..], b) == [[first] + Glue(r, b)[0]] + Glue(r, b)[1..]
  {
    var joined := [[first] + r[0]] + r[1..];
    if |r| == 1 {
      assert ([first] + r[0]) + b[0] == [first] + (r[0] + b[0]);
    } else {
      assert joined[|joined| - 1] == r[|r| - 1];
    }
  }

  lemma HeadingBeforeBreak(s: string, c: char, t: string)
    requires IsBreak(c)
    ensures Heading(s + [c] + t) == Heading(s)
  {
    var u := s + [c] + t;
    assert |s| < |u| && u[|s|] == c;
    assert forall i :: 0 <= i < |s| ==> u[i] == s[i];
  }

  /** A line boundary that starts no block. */
  lemma {:induction false} BlocksGlue(a: string, c: char, b: string)
    requires IsBreak(c) && !(c == '\n' && Heading(b))
    ensures Blocks(a + [c] + b) == Glue(Blocks(a), Glue([[c]], Blocks(b)))
  {
    var u := a + [c] + b;
    if a == "" {
      assert u[1..] == b;
      assert Glue([""], Glue([[c]], Blocks(b))) == Glue([[c]], Blocks(b)) by {
        assert "" + Glue([[c]], Blocks(b))[0] == Glue([[c]], Blocks(b))[0];
      }
    } else {
      assert u[1..] == a[1..] + [c] + b;
      BlocksGlue(a[1..], c, b);
      HeadingBeforeBreak(a[1..], c, b);
      GluePrepend(Blocks(a[1..]), a[0], Glue([[c]], Blocks(b)));
    }
  }

  lemma LinesOfGlued(x: seq<string>, c: char, y: seq<string>)
    requires x != [] && y != [] && IsBreak(c)
    ensures LinesOfBlocks(Glue(x, Glue([[c]], y))) == Glue(LinesOfBlocks(x), LinesOfBlocks(y))
  {
    var last := x[|x| - 1];
    assert last + ([c] + y[0]) == last + [c] + y[0];
    assert Glue(x, Glue([[c]], y)) == x[..|x| - 1] + [last + [c] + y[0]] + y[1..];
    LinesConcat(last, c, y[0]);
    LinesOfThree(x[..|x| - 1], last + [c] + y[0], y[1..]);
    LinesOfPart(x, 0, |x| - 1);
    LinesOfPart(y, 1, |y|);
    assert x[0..|x| - 1] == x[..|x| - 1] && y[1..|y|] == y[1..];
  }

  lemma LinesOfThree(a: seq<string>, s: string, b: seq<string>)
    ensures LinesOfBlocks(a + [s] + b) == LinesOfBlocks(a) + [Lines(s)] + LinesOfBlocks(b)
  {
  }

  lemma LinesOfPart(x: seq<string>, lo: nat, hi: nat)
    requires lo <= hi <= |x|
    ensures LinesOfBlocks(x[lo..hi]) == LinesOfBlocks(x)[lo..hi]
  {
  }

  lemma BlockLinesGlue(a: string, c: char, b: string)
    requires IsBreak(c) && !(c == '\n' && Heading(b))
    ensures BlockLines(a + [c] + b) == Glue(BlockLines(a), BlockLines(b))
  {
    BlocksGlue(a, c, b);
    LinesOfGlued(Blocks(a), c, Blocks(b));
  }

  lemma BlockLinesSplit(a: string, b: string)
    requires Heading(b)
    ensures BlockLines(a + ['\n'] + b) == BlockLines(a) + BlockLines(b)
  {
    BlocksAtHeading(a, b);
  }

  lemma QuietBlockLines(s: string)
    requires Quiet(s)
    ensures BlockLines(s) == [Lines(s)]
  {
    QuietIsOneBlock(s);
  }

  // ----- one labelled line -----

  /** A field whose visible text is on one line, but starts after a line boundary. */
  lemma LeadingBreak(value: string) returns (p: string, c: char, q: string)
    requires BreakFree(Strip(value)) && !BreakFree(RStrip(value))
    ensures value == p + [c] + q && AllSpace(p) && IsBreak(c)
    ensures BreakFree(RStrip(q)) && Strip(q) == Strip(value) && Strip(value) != ""
  {
    var w, v := StripParts(value);
    var x := Strip(value);
    var k :| 0 <= k < |RStrip(value)| && IsBreak(RStrip(value)[k]);
    BreakIsInFront(w, x, k);
    k := LastBreak(w, k);
    p, c, q := w[..k], w[k], w[k + 1..] + x + v;
    CutAt(w, k, x, v);
    AllSpaceStripsToNothing(value);
    StripIs(w[k + 1..], x, v);
  }

  lemma BreakIsInFront(w: string, x: string, k: nat)
    requires BreakFree(x) && k < |w + x| && IsBreak((w + x)[k])
    ensures k < |w| && IsBreak(w[k])
  {
    assert forall i :: |w| <= i < |w + x| ==> (w + x)[i] == x[i - |w|];
  }

  lemma CutAt(w: string, k: nat, x: string, v: string)
    requires k < |w|
    ensures w + x + v == w[..k] + [w[k]] + (w[k + 1..] + x + v)
  {
    assert w == w[..k] + [w[k]] + w[k + 1..];
  }

  lemma AllSpaceStripsToNothing(s: string)
    ensures Strip(s) == "" ==> RStrip(s) == ""
  {
    var w, v := StripParts(s);
    if Strip(s) == "" {
      RStripIs("", w + v);
      assert "" + (w + v) == s;
    }
  }

  lemma {:induction false} LastBreak(w: string, k: nat) returns (m: nat)
    requires k < |w| && IsBreak(w[k])
    ensures k <= m < |w| && IsBreak(w[m]) && BreakFree(w[m + 1..])
    decreases |w| - k
  {
    if BreakFree(w[k + 1..]) {
      m := k;
    } else {
      var j :| 0 <= j < |w[k + 1..]| && IsBreak(w[k + 1..][j]);
      m := LastBreak(w, k + 1 + j);
    }
  }

  lemma QuietSpaceAround(r: string, w: string)
    requires BreakFree(r) && AllSpace(w)
    ensures Quiet(r + w)
  {
    var u := r + w;
    assert forall i :: |r| <= i < |u| ==> u[i] == w[i - |r|];
  }

  /** A text whose visible part is on its first line. */
  lemma OneLineText(q: string)
    requires BreakFree(RStrip(q)) && Strip(q) != ""
    ensures BlockLines(q) == [[Strip(q)]]
  {
    var v := RStripParts(q);
    QuietSpaceAround(RStrip(q), v);
    QuietBlockLines(q);
    TrailingSpaceAddsNoLine(RStrip(q), v);
    LineOfBreakFree(RStrip(q));
    RStripTwice(q);
  }

  lemma NameAlone(name: string, w: string)
    requires name != "" && !IsSpace(name[0]) && !IsSpace(name[|name| - 1]) && AllSpace(w)
    ensures Strip(name + w) == name && RStrip(name + w) == name
  {
    StripIsText("", name, w);
    assert "" + name + w == name + w && "" + name == name;
  }

  lemma LabelAlone(f: Field)
    ensures Strip(Label(f)) == Label(f) && RStrip(Label(f)) == Label(f) && BreakFree(Label(f)) && Label(f) != ""
  {
    LabelIsPlain(f);
    NameAlone(Label(f), "");
    assert Label(f) + "" == Label(f);
  }

  /** The two shapes a named line with a late value is split into. */
  lemma LateText(name: string, value: string)
    requires name != "" && !IsSpace(name[0]) && !IsSpace(name[|name| - 1]) && BreakFree(name)
    requires BreakFree(Strip(value)) && !BreakFree(RStrip(value))
    ensures Strip(value) != ""
    ensures
      var b := BlockLines(name + (" " + value));
      b == [[name, Strip(value)]] || b == [[name], [Strip(value)]]
  {
    var p, c, q := LeadingBreak(value);
    var start := name + (" " + p);
    assert name + (" " + value) == start + [c] + q;
    NameAlone(name, " " + p);
    OneLineText(start);
    OneLineText(q);
    if c == '\n' && Heading(q) {
      BlockLinesSplit(start, q);
    } else {
      BlockLinesGlue(start, c, q);
      GlueOnes(name, Strip(value));
    }
  }

  lemma LateValue(f: Field, value: string)
    requires BreakFree(Strip(value)) && !BreakFree(RStrip(value))
    ensures Strip(value) != ""
    ensures
      var b := BlockLines(LabeledLine(f, value));
      b == [[Label(f), Strip(value)]] || b == [[Label(f)], [Strip(value)]]
  {
    LabelIsPlain(f);
    LateText(Label(f), value);
  }

  lemma GlueOnes(a: string, b: string)
    ensures Glue([[a]], [[b]]) == [[a, b]]
  {
    assert [a] + [b] == [a, b];
  }

  lemma PunctualValue(f: Field, value: string) returns (rest: string)
    requires BreakFree(RStrip(value))
    ensures BlockLines(LabeledLine(f, value)) == [[Label(f) + rest]] && Strip(rest) == Strip(value)
  {
    rest := LabeledLineIsRead(f, value);
    LabeledIsQuiet(f, value);
    QuietBlockLines(LabeledLine(f, value));
  }

  // ----- a value that starts late is never read back -----

  lemma {:induction false} ReadLinesConcat(e: Entry, a: seq<string>, b: seq<string>)
    ensures ReadLines(e, a + b) == ReadLines(ReadLines(e, a), b)
    decreases |a|
  {
    if a == [] {
      assert a + b == b;
    } else {
      assert (a + b)[1..] == a[1..] + b;
      ReadLinesConcat(ReadLine(e, a[0]), a[1..], b);
    }
  }

  function FieldOf(e: Entry, f: Field): Option<string> {
    match f
    case Date => e.date
    case Context => e.context
    case Learning => e.learning
    case Source => e.source
  }

  /** A line that is not labelled `f`, or whose value is not its whole text, does not give that text to `f`. */
  lemma LineIsNotItsValue(e: Entry, f: Field, x: string)
    requires BreakFree(x) && x != "" && FieldOf(e, f) != Some(x)
    ensures FieldOf(ReadLine(e, x), f) != Some(x)
  {
    if LineField(x) == Some(f) && |Label(f)| <= |x| {
      StripHasNoNewBreak(x[|Label(f)|..]);
      assert |Label(f)| > 0;
    }
  }

  /** After the bare label and the value on a line of its own. */
  lemma LateLinesMiss(e: Entry, f: Field, x: string)
    requires BreakFree(x) && x != ""
    ensures FieldOf(ReadLines(e, [Label(f), x]), f) != Some(x)
  {
    LabelIsRead(f, "");
    assert Label(f) + "" == Label(f);
    var e1 := ReadLine(e, Label(f));
    assert Label(f)[|Label(f)|..] == "";
    assert FieldOf(e1, f) == Some("");
    LineIsNotItsValue(e1, f, x);
    assert [Label(f), x][1..] == [x] && [x][1..] == [];
    assert ReadLines(e, [Label(f), x]) == ReadLines(e1, [x]);
    assert ReadLines(e1, [x]) == ReadLines(ReadLine(e1, x), []);
  }

  /** The same, whether or not the value has been cut off into the next block. */
  lemma LateFieldIsMissed(e: Entry, f: Field, late: seq<seq<string>>, x: string)
    requires BreakFree(x) && x != "" && (late == [[Label(f), x]] || late == [[Label(f)], [x]])
    ensures FieldOf(ReadLines(e, late[0]), f) != Some(x)
  {
    if late == [[Label(f), x]] {
      LateLinesMiss(e, f, x);
    } else {
      ReadLabeled(e, f, "", []);
      assert Label(f) + "" == Label(f) && [Label(f)] + [] == [Label(f)];
      LabelAlone(f);
    }
  }

  // ----- the blocks of a printed note -----

  lemma BodyGlue(lines: seq<string>)
    requires |lines| >= 2 && (lines[1] == "" || lines[1][0] != '#')
    ensures BlockLines(Body(lines)) == Glue(BlockLines(lines[0]), BlockLines(Body(lines[1..])))
  {
    var rest := Body(lines[1..]);
    assert rest[0] == if lines[1] == "" then '\n' else lines[1][0];
    BlockLinesGlue(lines[0], '\n', rest);
  }

  lemma EmptyEnd()
    ensures BlockLines(Body([""])) == [[]]
  {
    assert [""][1..] == [] && "" + ['\n'] + "" == ['\n'];
    QuietBlockLines(Body([""]));
    TrailingSpaceAddsNoLine("", ['\n']);
    LineOfBreakFree("");
    assert Body([""]) == "" + ['\n'];
  }

  lemma GlueEmptyEnd(g: seq<seq<string>>)
    requires g != []
    ensures Glue(g, [[]]) == g && Glue([[]], g) == g
  {
    assert g[..|g| - 1] + [g[|g| - 1]] == g;
    assert g[|g| - 1] + [] == g[|g| - 1] && [] + g[0] == g[0];
  }

  /** The blocks of a note from the blocks of its context line and its source line. */
  function NoteBlocks(h: string, d: string, gc: seq<seq<string>>, a: string, gs: seq<seq<string>>): seq<seq<string>>
    requires gc != [] && gs != []
  {
    Glue([[h]], Glue([[d]], Glue(gc, Glue([[a]], gs))))
  }

  lemma PrintedBlocks(lines: seq<string>, h: string, d: string, gc: seq<seq<string>>, a: string, gs: seq<seq<string>>)
    requires |lines| == 7 && lines[1] == "" && lines[6] == ""
    requires forall k :: 2 <= k < 6 ==> lines[k] != "" && lines[k][0] != '#'
    requires gc != [] && gs != []
    requires BlockLines(lines[0]) == [[h]] && BlockLines(lines[2]) == [[d]] && BlockLines(lines[3]) == gc
    requires BlockLines(lines[4]) == [[a]] && BlockLines(lines[5]) == gs
    ensures BlockLines(Body(lines)) == NoteBlocks(h, d, gc, a, gs)
  {
    assert lines[6..] == [""];
    EmptyEnd();
    GlueEmptyEnd(gs);
    BodyGlue(lines[5..]);
    assert lines[5..][1..] == lines[6..];
    assert BlockLines(Body(lines[5..])) == gs;
    BodyGlue(lines[4..]);
    assert lines[4..][1..] == lines[5..];
    BodyGlue(lines[3..]);
    assert lines[3..][1..] == lines[4..];
    BodyGlue(lines[2..]);
    assert lines[2..][1..] == lines[3..];
    var s2 := Glue([[d]], Glue(gc, Glue([[a]], gs)));
    assert BlockLines(Body(lines[2..])) == s2;
    BodyGlue(lines[1..]);
    assert lines[1..][1..] == lines[2..];
    QuietBlockLines("");
    LineOfBreakFree("");
    GlueEmptyEnd(s2);
    BodyGlue(lines);
  }

  /** Lines without a learning label hold no entry. */
  lemma {:induction false} NoLearningRead(e: Entry, lines: seq<string>)
    requires e.learning == None && forall l :: l in lines ==> LineField(l) != Some(Learning)
    ensures ReadLines(e, lines).learning == None
    decreases |lines|
  {
    if lines != [] {
      assert lines[0] in lines && forall l :: l in lines[1..] ==> l in lines;
      NoLearningRead(ReadLine(e, lines[0]), lines[1..]);
    }
  }

  lemma NoLearningNoEntry(lines: seq<string>)
    requires forall l :: l in lines[if lines == [] then 0 else 1..] ==> LineField(l) != Some(Learning)
    ensures EntriesOfLines(lines) == []
  {
    if lines != [] && Heading(lines[0]) {
      NoLearningRead(StartEntry(lines[0]), lines[1..]);
    }
  }

  /** The lines of the block that holds the learning. */
  function LearningBlock(h: string, d: string, gc: seq<seq<string>>, a: string, gs: seq<seq<string>>): seq<string>
    requires 1 <= |gc| <= 2 && gs != []
  {
    (if |gc| == 1 then [h, d] + gc[0] else gc[1]) + ([a] + gs[0])
  }

  /** The blocks before the learning, and those after it. */
  lemma NoteBlocksAre(h: string, d: string, gc: seq<seq<string>>, a: string, gs: seq<seq<string>>)
    requires 1 <= |gc| <= 2 && gs != []
    ensures NoteBlocks(h, d, gc, a, gs) ==
            (if |gc| == 1 then [] else [[h, d] + gc[0]]) + ([LearningBlock(h, d, gc, a, gs)] + gs[1..])
  {
    GlueOne([a], gs);
    if |gc| == 1 {
      OneContextBlock(h, d, gc, [a] + gs[0], gs[1..]);
    } else {
      GlueTwo(gc, [a] + gs[0], gs[1..]);
      assert [h] + ([d] + gc[0]) == [h, d] + gc[0];
    }
  }

  lemma OneContextBlock(h: string, d: string, gc: seq<seq<string>>, block: seq<string>, more: seq<seq<string>>)
    requires |gc| == 1
    ensures Glue([[h]], Glue([[d]], Glue(gc, [block] + more))) == [[h, d] + gc[0] + block] + more
  {
    assert Glue(gc, [block] + more) == [gc[0] + block] + more;
    assert [h] + ([d] + (gc[0] + block)) == [h, d] + gc[0] + block;
  }

  lemma GlueOne(block: seq<string>, more: seq<seq<string>>)
    requires more != []
    ensures Glue([block], more) == [block + more[0]] + more[1..]
  {
  }

  lemma GlueTwo(two: seq<seq<string>>, block: seq<string>, more: seq<seq<string>>)
    requires |two| == 2
    ensures Glue(two, [block] + more) == [two[0]] + ([two[1] + block] + more)
  {
    assert ([block] + more)[1..] == more;
  }

  /** A context line cut in two, or a source line cut in two, leaves a block without learning. */
  lemma NoteBlocksRead(h: string, d: string, gc: seq<seq<string>>, a: string, gs: seq<seq<string>>)
    requires 1 <= |gc| <= 2 && 1 <= |gs| <= 2
    requires |gc| == 2 ==> EntriesOfLines([h, d] + gc[0]) == []
    requires |gs| == 2 ==> EntriesOfLines(gs[1]) == []
    ensures ReadAll(NoteBlocks(h, d, gc, a, gs)) == EntriesOfLines(LearningBlock(h, d, gc, a, gs))
  {
    NoteBlocksAre(h, d, gc, a, gs);
    var m := LearningBlock(h, d, gc, a, gs);
    ReadAllCons(m, gs[1..]);
    if |gc| == 2 {
      ReadAllCons([h, d] + gc[0], [m] + gs[1..]);
    }
    if |gs| == 2 {
      assert gs[1..] == [gs[1]] + [];
      ReadAllCons(gs[1], []);
    }
  }

  lemma ReadAllCons(block: seq<string>, more: seq<seq<string>>)
    ensures ReadAll([block] + more) == EntriesOfLines(block) + ReadAll(more)
  {
    assert ([block] + more)[1..] == more;
  }

  /** Lines labelled otherwise leave a field alone. */
  lemma LabeledLeavesOthers(e: Entry, f: Field, g: Field, rest: string)
    requires f != g
    ensures FieldOf(ReadLine(e, Label(g) + rest), f) == FieldOf(e, f)
  {
    LabelIsRead(g, rest);
  }

  /** What the block of a note with a late source, or else a late context, cannot be read as. */
  lemma LateSourceMissed(front: seq<string>, late: seq<seq<string>>, x: string, e: Entry)
    requires BreakFree(x) && x != "" && (late == [[Label(Source), x]] || late == [[Label(Source)], [x]])
    requires front != [] && EntriesOfLines(front + late[0]) == [e]
    ensures e.source != Some(x)
  {
    var lines := front + late[0];
    assert lines[0] == front[0] && lines[1..] == front[1..] + late[0];
    ReadLinesConcat(StartEntry(lines[0]), front[1..], late[0]);
    LateFieldIsMissed(ReadLines(StartEntry(lines[0]), front[1..]), Source, late, x);
  }

  lemma LateContextMissed(h: string, d: string, late: seq<seq<string>>, x: string, a: string, s: string, e: Entry)
    requires BreakFree(x) && x != "" && (late == [[Label(Context), x]] || late == [[Label(Context)], [x]])
    requires EntriesOfLines(LearningBlock(h, d, late, Label(Learning) + a, [[Label(Source) + s]])) == [e]
    ensures e.context != Some(x)
  {
    var tail := [Label(Learning) + a, Label(Source) + s];
    assert [Label(Learning) + a] + [Label(Source) + s] == tail;
    var lines := LearningBlock(h, d, late, Label(Learning) + a, [[Label(Source) + s]]);
    var start := StartEntry(lines[0]);
    var before := start;
    if |late| == 1 {
      assert lines[1..] == ([d] + late[0]) + tail;
      ReadLinesConcat(start, [d] + late[0], tail);
      ReadLinesConcat(start, [d], late[0]);
      before := ReadLines(start, [d] + late[0]);
      LateFieldIsMissed(ReadLines(start, [d]), Context, late, x);
    } else {
      assert lines[1..] == tail;
    }
    assert FieldOf(before, Context) != Some(x);
    var e1 := ReadLine(before, tail[0]);
    LabeledLeavesOthers(before, Context, Learning, a);
    LabeledLeavesOthers(e1, Context, Source, s);
    assert tail[1..] == [tail[1]] && [tail[1]][1..] == [];
    assert ReadLines(before, tail) == ReadLines(e1, [tail[1]]) == ReadLine(e1, tail[1]);
  }

  // ----- the exact condition -----

  lemma HeadingBlock(learning: string)
    requires Strip(learning) != ""
    ensures
      var title := TitleFromLearning(learning);
      BlockLines(HASHES + ([' '] + title)) == [[HASHES + ([' '] + RStrip(title))]]
  {
    var title := TitleFromLearning(learning);
    TitleShape(learning);
    HeadingLine(title);
    var line := HASHES + ([' '] + title);
    QuietSpaceAround(line, "");
    assert line + "" == line;
    QuietBlockLines(line);
  }

  lemma LabelledStart(n: Note)
    ensures forall k :: 2 <= k < 6 ==> NoteLines(n)[k] != "" && NoteLines(n)[k][0] != '#'
  {
    LabeledStarts(Date, DateText(n.today));
    LabeledStarts(Context, n.context);
    LabeledStarts(Learning, Strip(n.learning));
    LabeledStarts(Source, n.source);
  }

  /** The lines of a note that always stay whole. */
  lemma PlainLinesOfNote(n: Note) returns (h: string, d: string, a: string)
    requires Strip(n.learning) != "" && BreakFree(Strip(n.learning))
    ensures BlockLines(NoteLines(n)[0]) == [[h]] && BlockLines(NoteLines(n)[2]) == [[Label(Date) + d]]
    ensures BlockLines(NoteLines(n)[4]) == [[Label(Learning) + a]]
  {
    HeadingBlock(n.learning);
    h := HASHES + ([' '] + RStrip(TitleFromLearning(n.learning)));
    DateTextIsPlain(n.today);
    StripTwice(n.learning);
    d := PunctualValue(Date, DateText(n.today));
    a := PunctualValue(Learning, Strip(n.learning));
  }

  lemma BlocksOfNote(n: Note) returns (h: string, d: string, a: string)
    requires Strip(n.learning) != "" && BreakFree(Strip(n.learning))
    ensures BlockLines(PrintNote(n)) ==
            NoteBlocks(h, Label(Date) + d, ContextBlocks(n), Label(Learning) + a, SourceBlocks(n))
  {
    h, d, a := PlainLinesOfNote(n);
    LabelledStart(n);
    PrintedBlocks(NoteLines(n), h, Label(Date) + d, ContextBlocks(n), Label(Learning) + a, SourceBlocks(n));
  }

  function ContextBlocks(n: Note): (r: seq<seq<string>>)
    ensures r != []
  {
    BlockLines(LabeledLine(Context, n.context))
  }

  function SourceBlocks(n: Note): (r: seq<seq<string>>)
    ensures r != []
  {
    BlockLines(LabeledLine(Source, n.source))
  }

  lemma ContextShape(n: Note, h: string, d: string)
    requires BreakFree(Strip(n.context))
    ensures
      var g := ContextBlocks(n);
      1 <= |g| <= 2 && (|g| == 2 ==> EntriesOfLines([h, Label(Date) + d] + g[0]) == [])
  {
    if BreakFree(RStrip(n.context)) {
      var _ := PunctualValue(Context, n.context);
    } else {
      LateValue(Context, n.context);
      LabelIsRead(Date, d);
      LabelIsRead(Context, "");
      assert Label(Context) + "" == Label(Context);
      var lines := [h, Label(Date) + d] + [Label(Context)];
      assert lines[1..] == [Label(Date) + d, Label(Context)];
      NoLearningNoEntry(lines);
    }
  }

  lemma SourceShape(n: Note)
    requires BreakFree(Strip(n.source))
    ensures
      var g := SourceBlocks(n);
      1 <= |g| <= 2 && (|g| == 2 ==> EntriesOfLines(g[1]) == [])
  {
    if BreakFree(RStrip(n.source)) {
      var _ := PunctualValue(Source, n.source);
    } else {
      LateValue(Source, n.source);
      var lines := [Strip(n.source)];
      assert lines[1..] == [];
      NoLearningNoEntry(lines);
    }
  }

  /** Only the block with the learning can give an entry. */
  lemma NoteReadsAs(n: Note) returns (h: string, d: string, a: string)
    requires Strip(n.learning) != "" && BreakFree(Strip(n.learning))
    requires BreakFree(Strip(n.context)) && BreakFree(Strip(n.source))
    ensures 1 <= |ContextBlocks(n)| <= 2
    ensures Parse(PrintNote(n)) ==
            EntriesOfLines(LearningBlock(h, d, ContextBlocks(n), Label(Learning) + a, SourceBlocks(n)))
  {
    ReadAllIsReadBlocks(Blocks(PrintNote(n)));
    var date;
    h, date, a := BlocksOfNote(n);
    d := Label(Date) + date;
    ContextShape(n, h, date);
    SourceShape(n);
    NoteBlocksRead(h, d, ContextBlocks(n), Label(Learning) + a, SourceBlocks(n));
  }

  lemma LabeledStarts(f: Field, value: string)
    ensures LabeledLine(f, value) != "" && LabeledLine(f, value)[0] != '#'
  {
    assert LabeledLine(f, value)[0] == Label(f)[0] == '-';
  }

  lemma SourceKept(n: Note, e: Entry)
    requires Strip(n.learning) != "" && BreakFree(Strip(n.learning))
    requires BreakFree(Strip(n.context)) && BreakFree(Strip(n.source))
    requires Parse(PrintNote(n)) == [e] && e.source == Some(Strip(n.source))
    ensures BreakFree(RStrip(n.source))
  {
    if !BreakFree(RStrip(n.source)) {
      var h, d, a := NoteReadsAs(n);
      var gc, gs := ContextBlocks(n), SourceBlocks(n);
      LateValue(Source, n.source);
      var front := (if |gc| == 1 then [h, d] + gc[0] else gc[1]) + [Label(Learning) + a];
      assert LearningBlock(h, d, gc, Label(Learning) + a, gs) == front + gs[0];
      LateSourceMissed(front, gs, Strip(n.source), e);
    }
  }

  lemma ContextKept(n: Note, e: Entry)
    requires Strip(n.learning) != "" && BreakFree(Strip(n.learning))
    requires BreakFree(Strip(n.context)) && BreakFree(RStrip(n.source)) && BreakFree(Strip(n.source))
    requires Parse(PrintNote(n)) == [e] && e.context == Some(Strip(n.context))
    ensures BreakFree(RStrip(n.context))
  {
    if !BreakFree(RStrip(n.context)) {
      var h, d, a := NoteReadsAs(n);
      LateValue(Context, n.context);
      var s := PunctualValue(Source, n.source);
      LateContextMissed(h, d, ContextBlocks(n), Strip(n.context), a, s, e);
    }
  }

  lemma OnlyThoseNotesAreRead(n: Note)
    requires Strip(n.learning) != "" && Parse(PrintNote(n)) == [Normal(n)]
    ensures KeepsToItsLines(n)
  {
    assert Normal(n) in Parse(PrintNote(n));
    ParsedValuesOnOneLine(Blocks(PrintNote(n)));
    SourceKept(n, Normal(n));
    ContextKept(n, Normal(n));
  }

  /** Appending a note to a file adds exactly that note if and only if its fields keep to their lines. */
  lemma ReadBackExactly(content: string, n: Note)
    requires EndsInNewline(content) && Strip(n.learning) != ""
    ensures Parse(content + PrintNote(n)) == Parse(content) + [Normal(n)] <==> KeepsToItsLines(n)
  {
    AppendIsLocal(content, n);
    if KeepsToItsLines(n) {
      AppendedNoteIsRead(content, n);
    } else if Parse(content + PrintNote(n)) == Parse(content) + [Normal(n)] {
      var p, k := Parse(content), |Parse(content)|;
      assert (p + Parse(PrintNote(n)))[k..] == Parse(PrintNote(n)) && (p + [Normal(n)])[k..] == [Normal(n)];
      OnlyThoseNotesAreRead(n);
    }
  }
}
