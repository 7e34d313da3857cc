/**
  The Markdown memory file: `remember` appends a block, `_read_memory_file` splits the text
  into blocks and reads them back. src/assistant/memory/long_term.py.
 */
module LongTermMemory {
  import opened Common
  import opened Whitespace
  import IsoTime

  const SENSITIVE_PATTERNS := [
    "senha", "password", "token", "api key", "apikey", "secret", "chave privada", "private key"
  ]

  const HASHES := "##"
  const FILE_TITLE := "# Correcoes"

  // ----- printing -----

  datatype Field = Date | Context | Learning | Source

  function Label(f: Field): string {
    match f
    case Date => "- Data:"
    case Context => "- Contexto:"
    case Learning => "- Aprendizado:"
    case Source => "- Fonte:"
  }

  function RStripDots(s: string): string {
    if s != "" && s[|s| - 1] == '.' then RStripDots(s[..|s| - 1]) else s
  }

  /** `re.sub(r"\s+", " ", s)` */
  function Collapse(s: string): string
    decreases |s|
  {
    if s == "" then ""
    else if IsSpace(s[0]) then " " + Collapse(LStrip(s[1..]))
    else [s[0]] + Collapse(s[1..])
  }

  function TitleFromLearning(learning: string): string {
    var title := Collapse(RStripDots(Strip(learning)));
    var cut := if |title| > 80 then title[..80] else title;
    if cut == "" then "Aprendizado" else cut
  }

  datatype Note = Note(learning: string, context: string, source: string, today: IsoTime.Instant)

  function DateText(t: IsoTime.Instant): string {
    IsoTime.Digits(t.year, 4) + "-" + IsoTime.Digits(t.month, 2) + "-" + IsoTime.Digits(t.day, 2)
  }

  function LabeledLine(f: Field, value: string): string {
    Label(f) + (" " + value)
  }

  function NoteLines(n: Note): seq<string> {
    [ HASHES + ([' '] + TitleFromLearning(n.learning)),
      "",
      LabeledLine(Date, DateText(n.today)),
      LabeledLine(Context, n.context),
      LabeledLine(Learning, Strip(n.learning)),
      LabeledLine(Source, n.source),
      ""
    ]
  }

  /** Every line followed by a newline. */
  function Body(lines: seq<string>): string {
    if lines == [] then "" else lines[0] + ['\n'] + Body(lines[1..])
  }

  function PrintNote(n: Note): string {
    Body(NoteLines(n))
  }

  /** `validate_learning`; `lower` is `str.lower`. */
  predicate Accepts(learning: string, lower: string -> string) {
    var normalized := lower(Strip(learning));
    && normalized != ""
    && forall p :: p in SENSITIVE_PATTERNS ==> !(exists i :: 0 <= i <= |normalized| && p <= normalized[i..])
  }

  // ----- reading -----

  predicate Heading(s: string) {
    |s| >= 3 && s[0] == '#' && s[1] == '#' && s[2] == ' '
  }

  /** `re.split(r"\n(?=## )", content)` */
  function Blocks(s: string): (r: seq<string>)
    ensures r != []
  {
    if s == "" then [""]
    else
      var r := Blocks(s[1..]);
      if s[0] == '\n' && Heading(s[1..]) then [""] + r else [[s[0]] + r[0]] + r[1..]
  }

  datatype Entry = Entry(
    title: string,
    date: Option<string>,
    context: Option<string>,
    learning: Option<string>,
    source: Option<string>)

  function LineField(line: string): Option<Field> {
    if Label(Date) <= line then Some(Date)
    else if Label(Context) <= line then Some(Context)
    else if Label(Learning) <= line then Some(Learning)
    else if Label(Source) <= line then Some(Source)
    else None
  }

  function SetField(e: Entry, f: Field, value: string): Entry {
    match f
    case Date => e.(date := Some(value))
    case Context => e.(context := Some(value))
    case Learning => e.(learning := Some(value))
    case Source => e.(source := Some(value))
  }

  function ReadLine(e: Entry, line: string): Entry {
    match LineField(line)
    case None => e
    case Some(f) => if |Label(f)| <= |line| then SetField(e, f, Strip(line[|Label(f)|..])) else e
  }

  function ReadLines(e: Entry, lines: seq<string>): Entry
    decreases |lines|
  {
    if lines == [] then e else ReadLines(ReadLine(e, lines[0]), lines[1..])
  }

  function StartEntry(heading: string): Entry
    requires Heading(heading)
  {
    Entry(Strip(heading[3..]), None, None, None, None)
  }

  /** The entries, none or one, that the lines of one block hold. */
  function EntriesOfLines(lines: seq<string>): seq<Entry> {
    if lines == [] || !Heading(lines[0]) then []
    else
      var e := ReadLines(StartEntry(lines[0]), lines[1..]);
      if e.learning.Some? && e.learning.value != "" then [e] else []
  }

  function EntriesOfBlock(block: string): seq<Entry> {
    EntriesOfLines(Lines(block))
  }

  function ReadBlocks(blocks: seq<string>): seq<Entry> {
    if blocks == [] then [] else EntriesOfBlock(blocks[0]) + ReadBlocks(blocks[1..])
  }

  function Parse(content: string): seq<Entry> {
    ReadBlocks(Blocks(content))
  }

  // ----- splitting into blocks -----

  lemma {:induction false} ReadBlocksConcat(a: seq<string>, b: seq<string>)
    ensures ReadBlocks(a + b) == ReadBlocks(a) + ReadBlocks(b)
  {
    if a == [] {
      assert a + b == b;
    } else {
      assert (a + b)[1..] == a[1..] + b;
      ReadBlocksConcat(a[1..], b);
      var first := EntriesOfBlock(a[0]);
      assert ReadBlocks(a + b) == first + (ReadBlocks(a[1..]) + ReadBlocks(b));
    }
  }

  /** A newline is no part of a heading, so what follows it cannot complete one. */
  lemma HeadingBeforeNewline(s: string, t: string)
    ensures Heading(s + ['\n'] + t) == Heading(s)
  {
    var u := s + ['\n'] + t;
    assert |s| < |u| && u[|s|] == '\n';
    assert forall i :: 0 <= i < |s| ==> u[i] == s[i];
  }

  lemma {:induction false} BlocksAtHeading(s: string, h: string)
    requires Heading(h)
    ensures Blocks(s + ['\n'] + h) == Blocks(s) + Blocks(h)
  {
    var u := s + ['\n'] + h;
    if s == "" {
      assert u[1..] == h;
    } else {
      assert u[1..] == s[1..] + ['\n'] + h;
      BlocksAtHeading(s[1..], h);
      HeadingBeforeNewline(s[1..], h);
    }
  }

  lemma {:induction false} BlocksBeforeLastNewline(s: string)
    ensures Blocks(s + ['\n']) == AppendToLast(Blocks(s), '\n')
  {
    var u := s + ['\n'];
    if s == "" {
      assert u[1..] == "" && u == ['\n'];
      assert Blocks("") == [""];
      assert ['\n'] + "" == ['\n'] && "" + ['\n'] == ['\n'];
      assert Blocks(u) == [['\n']] + [""][1..] == [['\n']];
      assert AppendToLast([""], '\n') == [] + [['\n']];
    } else {
      assert u[1..] == s[1..] + ['\n'];
      BlocksBeforeLastNewline(s[1..]);
      HeadingBeforeNewline(s[1..], "");
      assert s[1..] + ['\n'] + "" == u[1..];
      PrependAppend(Blocks(s[1..]), s[0], '\n');
    }
  }

  lemma PrependAppend(r: seq<string>, first: char, last: char)
    requires r != []
    ensures AppendToLast([""] + r, last) == [""] + AppendToLast(r, last)
    ensures AppendToLast([[first] + r[0]] + r[1..], last) ==
            [[first] + AppendToLast(r, last)[0]] + AppendToLast(r, last)[1..]
  {
    var joined := [[first] + r[0]] + r[1..];
    if |r| == 1 {
      assert ([first] + r[0]) + [last] == [first] + (r[0] + [last]);
    } else {
      assert joined[|joined| - 1] == r[|r| - 1];
    }
  }

  /** No newline is followed by '#': the text is one block. */
  predicate Quiet(s: string) {
    forall i :: 0 <= i < |s| - 1 && s[i] == '\n' ==> s[i + 1] != '#'
  }

  lemma {:induction false} QuietIsOneBlock(s: string)
    requires Quiet(s)
    ensures Blocks(s) == [s]
  {
    if s != "" {
      QuietIsOneBlock(s[1..]);
      assert s == [s[0]] + s[1..];
      assert |s| > 1 ==> s[1] == s[1..][0];
    }
  }

  lemma {:induction false} BodyIsQuiet(lines: seq<string>)
    requires forall k :: 0 <= k < |lines| ==> Quiet(lines[k])
    requires forall k :: 1 <= k < |lines| ==> lines[k] == "" || lines[k][0] != '#'
    ensures Quiet(Body(lines))
  {
    if |lines| > 0 {
      BodyIsQuiet(lines[1..]);
      var a, b := lines[0], Body(lines[1..]);
      var u := a + ['\n'] + b;
      forall i | 0 <= i < |u| - 1 && u[i] == '\n' ensures u[i + 1] != '#' {
        if i < |a| - 1 {
          assert u[i] == a[i] && u[i + 1] == a[i + 1];
        } else if i == |a| - 1 {
          assert u[i + 1] == '\n';
        } else if i == |a| {
          assert u[i + 1] == b[0];
          assert |lines| > 1 && b[0] == if lines[1] == "" then '\n' else lines[1][0];
        } else {
          var j := i - |a| - 1;
          assert u[i] == b[j] && u[i + 1] == b[j + 1];
        }
      }
    }
  }

  /** A reader that treats the texts on both sides of a newline on their own. */
  ghost predicate SplitsAtNewline(read: string -> seq<string>) {
    read("") == [] && forall a, b :: read(a + ['\n'] + b) == read(a) + read(b)
  }

  lemma LinesSplitAtNewline()
    ensures SplitsAtNewline(Lines)
  {
    LineOfBreakFree("");
    forall a, b ensures Lines(a + ['\n'] + b) == Lines(a) + Lines(b) {
      LinesConcat(a, '\n', b);
    }
  }

  lemma BodyStep(read: string -> seq<string>, lines: seq<string>, k: nat, tail: seq<string>)
    requires SplitsAtNewline(read)
    requires k < |lines| && read(Body(lines[k + 1..])) == tail
    ensures read(Body(lines[k..])) == read(lines[k]) + tail
  {
    assert lines[k..][1..] == lines[k + 1..];
  }

  lemma BodyLine(read: string -> seq<string>, lines: seq<string>, k: nat, line: string, tail: seq<string>)
    requires SplitsAtNewline(read)
    requires k < |lines| && read(lines[k]) == [line] && read(Body(lines[k + 1..])) == tail
    ensures read(Body(lines[k..])) == [line] + tail
  {
    BodyStep(read, lines, k, tail);
  }

  lemma LastFourLines(read: string -> seq<string>, lines: seq<string>, c: string, a: string, s: string)
    requires SplitsAtNewline(read)
    requires |lines| == 7 && lines[6] == "" && read(lines[3]) == [c] && read(lines[4]) == [a] && read(lines[5]) == [s]
    ensures read(Body(lines[3..])) == [c] + ([a] + ([s] + []))
  {
    assert lines[7..] == [];
    BodyStep(read, lines, 6, []);
    BodyLine(read, lines, 5, s, []);
    BodyLine(read, lines, 4, a, [s] + []);
    BodyLine(read, lines, 3, c, [a] + ([s] + []));
  }

  lemma FirstThreeLines(read: string -> seq<string>, lines: seq<string>, h: string, d: string, tail: seq<string>)
    requires SplitsAtNewline(read)
    requires |lines| == 7 && lines[1] == "" && read(lines[0]) == [h] && read(lines[2]) == [d] && read(Body(lines[3..])) == tail
    ensures read(Body(lines)) == [h] + ([d] + tail)
  {
    BodyLine(read, lines, 2, d, tail);
    BodyStep(read, lines, 1, [d] + tail);
    BodyLine(read, lines, 0, h, [d] + tail);
    assert lines[0..] == lines;
  }

  lemma SevenLines(read: string -> seq<string>, lines: seq<string>, h: string, d: string, c: string, a: string, s: string)
    requires SplitsAtNewline(read)
    requires |lines| == 7 && lines[1] == "" && lines[6] == ""
    requires read(lines[0]) == [h] && read(lines[2]) == [d] && read(lines[3]) == [c]
    requires read(lines[4]) == [a] && read(lines[5]) == [s]
    ensures read(Body(lines)) == [h] + ([d] + ([c] + ([a] + ([s] + []))))
  {
    LastFourLines(read, lines, c, a, s);
    FirstThreeLines(read, lines, h, d, [c] + ([a] + ([s] + [])));
  }

  lemma LinesOfSeven(lines: seq<string>, h: string, d: string, c: string, a: string, s: string)
    requires |lines| == 7 && lines[1] == "" && lines[6] == ""
    requires Lines(lines[0]) == [h] && Lines(lines[2]) == [d] && Lines(lines[3]) == [c]
    requires Lines(lines[4]) == [a] && Lines(lines[5]) == [s]
    ensures Lines(Body(lines)) == [h] + [d, c, a, s]
  {
    LinesSplitAtNewline();
    SevenLines(Lines, lines, h, d, c, a, s);
    FiveInARow(h, d, c, a, s);
  }

  lemma FiveInARow(h: string, d: string, c: string, a: string, s: string)
    ensures [h] + ([d] + ([c] + ([a] + ([s] + [])))) == [h] + [d, c, a, s]
  {
  }

  // ----- reading one note back -----

  lemma {:induction false} RStripDotsKeepsFirst(s: string)
    ensures RStripDots(s) <= s
  {
    if s != "" && s[|s| - 1] == '.' {
      RStripDotsKeepsFirst(s[..|s| - 1]);
    }
  }

  lemma {:induction false} CollapsedHasNoBreak(s: string)
    ensures forall i :: 0 <= i < |Collapse(s)| ==> !IsBreak(Collapse(s)[i])
    ensures s != "" && !IsSpace(s[0]) ==> Collapse(s) != "" && Collapse(s)[0] == s[0]
    decreases |s|
  {
    if s != "" {
      CollapsedHasNoBreak(s[1..]);
      CollapsedHasNoBreak(LStrip(s[1..]));
    }
  }

  lemma TitleShape(learning: string)
    requires Strip(learning) != ""
    ensures
      var title := TitleFromLearning(learning);
      title != "" && |title| <= 80 && !IsSpace(title[0]) && BreakFree(title)
  {
    var _, _ := StripParts(learning);
    var s := RStripDots(Strip(learning));
    RStripDotsKeepsFirst(Strip(learning));
    CollapsedHasNoBreak(s);
    if s != "" {
      assert s[0] == Strip(learning)[0];
    }
  }

  /** A title that starts with a visible character keeps it. */
  lemma StripTitle(title: string)
    requires title != "" && !IsSpace(title[0])
    ensures RStrip(title) != "" && RStrip([' '] + title) == [' '] + RStrip(title) && Strip(RStrip(title)) == Strip(title)
  {
    var w := RStripParts(title);
    var r := RStrip(title);
    if r == "" {
      assert false;
    }
    assert [' '] + title == ([' '] + r) + w;
    RStripIs([' '] + r, w);
    RStripIs(r, "");
    assert r + "" == r;
  }

  lemma HeadingLine(title: string)
    requires title != "" && !IsSpace(title[0]) && BreakFree(title)
    ensures Lines(HASHES + ([' '] + title)) == [HASHES + ([' '] + RStrip(title))]
  {
    var line := HASHES + ([' '] + title);
    StripTitle(title);
    StripAfterPrefix(HASHES, [' '] + title);
    assert BreakFree(HASHES);
    LineOfBreakFree(line);
  }

  lemma HeadingStarts(title: string)
    requires title != "" && !IsSpace(title[0])
    ensures
      var line := HASHES + ([' '] + RStrip(title));
      Heading(line) && StartEntry(line).title == Strip(title)
  {
    StripTitle(title);
    assert (HASHES + ([' '] + RStrip(title)))[3..] == RStrip(title);
  }

  lemma LabelIsRead(f: Field, x: string)
    ensures LineField(Label(f) + x) == Some(f) && (Label(f) + x)[|Label(f)|..] == x
    ensures Label(f) != "" && !IsSpace(Label(f)[0]) && !IsSpace(Label(f)[|Label(f)| - 1]) && BreakFree(Label(f))
  {
    var line := Label(f) + x;
    assert line[2] == Label(f)[2];
    assert Label(Date)[2] == 'D' && Label(Context)[2] == 'C' && Label(Learning)[2] == 'A' && Label(Source)[2] == 'F';
  }

  lemma LabelIsPlain(f: Field)
    ensures BreakFree(Label(f)) && Label(f) != "" && Label(f)[0] == '-' && Label(f)[|Label(f)| - 1] == ':'
  {
  }

  lemma EndOfLineIsDropped(name: string, value: string)
    ensures Lines(name + (" " + value)) == Lines(name + (" " + RStrip(value)))
  {
    var w := RStripParts(value);
    PlusIsAssociative(" ", RStrip(value), w);
    PlusIsAssociative(name, " " + RStrip(value), w);
    TrailingSpaceAddsNoLine(name + (" " + RStrip(value)), w);
  }

  lemma NamedLineOfBreakFree(name: string, text: string)
    requires name != "" && !IsSpace(name[0]) && !IsSpace(name[|name| - 1]) && BreakFree(name) && BreakFree(text)
    ensures Lines(name + text) == [name + RStrip(text)]
  {
    StripAfterPrefix(name, text);
    LineOfBreakFree(name + text);
  }

  lemma SpacedIsStripped(value: string)
    ensures Strip(RStrip(" " + RStrip(value))) == Strip(value)
  {
    RStripTwice(" " + RStrip(value));
    StripLeadingSpace(" ", RStrip(value));
    RStripTwice(value);
  }

  /** The line of a plain name and a value that keeps to its line. */
  lemma NamedLineIsRead(name: string, value: string) returns (rest: string)
    requires name != "" && !IsSpace(name[0]) && !IsSpace(name[|name| - 1]) && BreakFree(name) && BreakFree(RStrip(value))
    ensures Lines(name + (" " + value)) == [name + rest] && Strip(rest) == Strip(value)
  {
    rest := RStrip(" " + RStrip(value));
    EndOfLineIsDropped(name, value);
    NamedLineOfBreakFree(name, " " + RStrip(value));
    SpacedIsStripped(value);
  }

  /** A value that keeps to its line is read back up to stripping. */
  lemma LabeledLineIsRead(f: Field, value: string) returns (rest: string)
    requires BreakFree(RStrip(value))
    ensures Lines(LabeledLine(f, value)) == [Label(f) + rest] && Strip(rest) == Strip(value)
  {
    LabelIsPlain(f);
    rest := NamedLineIsRead(Label(f), value);
  }

  lemma ReadLabeled(e: Entry, f: Field, rest: string, more: seq<string>)
    ensures ReadLines(e, [Label(f) + rest] + more) == ReadLines(SetField(e, f, Strip(rest)), more)
  {
    LabelIsRead(f, rest);
    assert ([Label(f) + rest] + more)[1..] == more;
  }

  lemma DateTextIsPlain(t: IsoTime.Instant)
    ensures BreakFree(DateText(t)) && RStrip(DateText(t)) == DateText(t) && Strip(DateText(t)) == DateText(t)
  {
    DigitsArePlain(t.year, 4);
    DigitsArePlain(t.month, 2);
    DigitsArePlain(t.day, 2);
    var d := DateText(t);
    assert forall i :: 0 <= i < |d| ==> !IsSpace(d[i]);
    StripIs("", d, "");
    assert "" + d + "" == d;
  }

  lemma {:induction false} DigitsArePlain(n: nat, width: nat)
    ensures forall i :: 0 <= i < width ==> !IsSpace(IsoTime.Digits(n, width)[i]) && IsoTime.Digits(n, width)[i] != '\n'
  {
    if width > 0 {
      DigitsArePlain(n / 10, width - 1);
    }
  }

  /** Each field stays on the line it is written to. */
  predicate KeepsToItsLines(n: Note) {
    BreakFree(Strip(n.learning)) && BreakFree(RStrip(n.context)) && BreakFree(RStrip(n.source))
  }

  /** What reading a note back should give. */
  function Normal(n: Note): Entry {
    Entry(
      Strip(TitleFromLearning(n.learning)),
      Some(DateText(n.today)),
      Some(Strip(n.context)),
      Some(Strip(n.learning)),
      Some(Strip(n.source)))
  }

  lemma StripTwice(s: string)
    ensures RStrip(Strip(s)) == Strip(s) && Strip(Strip(s)) == Strip(s)
  {
    var w, v := StripParts(s);
    StripIs("", Strip(s), "");
    assert "" + Strip(s) + "" == Strip(s);
  }

  /** Each labelled line of a printed note is one line, with the value of its field. */
  lemma DateOfNote(n: Note) returns (d: string)
    ensures Lines(NoteLines(n)[2]) == [Label(Date) + d] && Strip(d) == DateText(n.today)
  {
    DateTextIsPlain(n.today);
    d := LabeledLineIsRead(Date, DateText(n.today));
  }

  lemma ContextOfNote(n: Note) returns (c: string)
    requires BreakFree(RStrip(n.context))
    ensures Lines(NoteLines(n)[3]) == [Label(Context) + c] && Strip(c) == Strip(n.context)
  {
    c := LabeledLineIsRead(Context, n.context);
  }

  lemma LearningOfNote(n: Note) returns (a: string)
    requires BreakFree(Strip(n.learning))
    ensures Lines(NoteLines(n)[4]) == [Label(Learning) + a] && Strip(a) == Strip(n.learning)
  {
    StripTwice(n.learning);
    a := LabeledLineIsRead(Learning, Strip(n.learning));
  }

  lemma SourceOfNote(n: Note) returns (s: string)
    requires BreakFree(RStrip(n.source))
    ensures Lines(NoteLines(n)[5]) == [Label(Source) + s] && Strip(s) == Strip(n.source)
  {
    s := LabeledLineIsRead(Source, n.source);
  }

  lemma HeadingOfNote(n: Note)
    requires Strip(n.learning) != ""
    ensures Lines(NoteLines(n)[0]) == [HASHES + ([' '] + RStrip(TitleFromLearning(n.learning)))]
  {
    TitleShape(n.learning);
    HeadingLine(TitleFromLearning(n.learning));
  }

  lemma LinesOfPrinted(n: Note, h: string, d: string, c: string, a: string, s: string)
    requires Lines(NoteLines(n)[0]) == [h] && Lines(NoteLines(n)[2]) == [d] && Lines(NoteLines(n)[3]) == [c]
    requires Lines(NoteLines(n)[4]) == [a] && Lines(NoteLines(n)[5]) == [s]
    ensures Lines(PrintNote(n)) == [h] + [d, c, a, s]
  {
    var lines := NoteLines(n);
    assert |lines| == 7 && lines[1] == "" && lines[6] == "";
    LinesOfSeven(lines, h, d, c, a, s);
  }

  /** The non-empty lines of a printed note, stripped. */
  lemma LinesOfNote(n: Note) returns (d: string, c: string, a: string, s: string)
    requires Strip(n.learning) != "" && KeepsToItsLines(n)
    ensures Lines(PrintNote(n)) ==
            [HASHES + ([' '] + RStrip(TitleFromLearning(n.learning)))] +
            [Label(Date) + d, Label(Context) + c, Label(Learning) + a, Label(Source) + s]
    ensures Strip(d) == DateText(n.today) && Strip(c) == Strip(n.context)
    ensures Strip(a) == Strip(n.learning) && Strip(s) == Strip(n.source)
  {
    HeadingOfNote(n);
    d := DateOfNote(n);
    c := ContextOfNote(n);
    a := LearningOfNote(n);
    s := SourceOfNote(n);
    LinesOfPrinted(n, HASHES + ([' '] + RStrip(TitleFromLearning(n.learning))), Label(Date) + d, Label(Context) + c, Label(Learning) + a, Label(Source) + s);
  }

  lemma NoteIsRead(n: Note)
    requires Strip(n.learning) != "" && KeepsToItsLines(n)
    ensures EntriesOfBlock(PrintNote(n)) == [Normal(n)]
  {
    var d, c, a, s := LinesOfNote(n);
    var title := TitleFromLearning(n.learning);
    TitleShape(n.learning);
    HeadingStarts(title);
    var heading := HASHES + ([' '] + RStrip(title));
    ReadNoteLines(StartEntry(heading), d, c, a, s);
    var lines := Lines(PrintNote(n));
    assert lines[1..] == [Label(Date) + d, Label(Context) + c, Label(Learning) + a, Label(Source) + s];
  }

  lemma ReadNoteLines(e: Entry, d: string, c: string, a: string, s: string)
    ensures ReadLines(e, [Label(Date) + d, Label(Context) + c, Label(Learning) + a, Label(Source) + s]) ==
            Entry(e.title, Some(Strip(d)), Some(Strip(c)), Some(Strip(a)), Some(Strip(s)))
  {
    var ls, la, lc := [Label(Source) + s], [Label(Learning) + a, Label(Source) + s],
      [Label(Context) + c, Label(Learning) + a, Label(Source) + s];
    ReadLabeled(e, Date, d, lc);
    ReadLabeled(SetField(e, Date, Strip(d)), Context, c, la);
    var e2 := SetField(SetField(e, Date, Strip(d)), Context, Strip(c));
    ReadLabeled(e2, Learning, a, ls);
    ReadLabeled(SetField(e2, Learning, Strip(a)), Source, s, []);
  }

  // ----- whole files -----

  lemma SpaceAfterLineIsQuiet(r: string, w: string)
    requires BreakFree(r) && AllSpace(w)
    ensures Quiet(r + w)
  {
    var line := r + w;
    assert forall i :: |r| <= i < |line| ==> line[i] == w[i - |r|];
  }

  lemma LabeledIsQuiet(f: Field, value: string)
    requires BreakFree(RStrip(value))
    ensures Quiet(LabeledLine(f, value)) && LabeledLine(f, value)[0] != '#'
  {
    var w := RStripParts(value);
    LabelIsPlain(f);
    var name, r := Label(f), RStrip(value);
    assert LabeledLine(f, value) == (name + (" " + r)) + w;
    SpaceAfterLineIsQuiet(name + (" " + r), w);
  }

  lemma NoteIsOneBlock(n: Note)
    requires Strip(n.learning) != "" && KeepsToItsLines(n)
    ensures Blocks(PrintNote(n)) == [PrintNote(n)]
  {
    TitleShape(n.learning);
    StripTwice(n.learning);
    DateTextIsPlain(n.today);
    LabeledIsQuiet(Date, DateText(n.today));
    LabeledIsQuiet(Context, n.context);
    LabeledIsQuiet(Learning, Strip(n.learning));
    LabeledIsQuiet(Source, n.source);
    BodyIsQuiet(NoteLines(n));
    QuietIsOneBlock(PrintNote(n));
  }

  predicate EndsInNewline(s: string) {
    s == "" || s[|s| - 1] == '\n'
  }

  lemma PrintedStartsAndEnds(n: Note)
    requires Strip(n.learning) != ""
    ensures Heading(PrintNote(n)) && PrintNote(n)[|PrintNote(n)| - 1] == '\n'
  {
    BodyEnds(NoteLines(n));
    var title := HASHES + ([' '] + TitleFromLearning(n.learning));
    assert PrintNote(n)[..|title|] == title;
    assert title[0] == '#' && title[1] == '#' && title[2] == ' ';
  }

  lemma {:induction false} BodyEnds(lines: seq<string>)
    requires lines != []
    ensures Body(lines) != "" && Body(lines)[|Body(lines)| - 1] == '\n'
  {
    if |lines| > 1 {
      BodyEnds(lines[1..]);
    }
  }

  /** A newline at the end of the text changes no entry. */
  lemma LastNewlineAddsNothing(s: string)
    ensures Parse(s + ['\n']) == Parse(s)
  {
    BlocksBeforeLastNewline(s);
    var r := Blocks(s);
    var front, last := r[..|r| - 1], r[|r| - 1];
    assert r == front + [last];
    ReadBlocksConcat(front, [last]);
    ReadBlocksConcat(front, [last + ['\n']]);
    TrailingSpaceAddsNoLine(last, ['\n']);
    OneBlock(last);
    OneBlock(last + ['\n']);
  }

  lemma OneBlock(b: string)
    ensures ReadBlocks([b]) == EntriesOfBlock(b)
  {
    assert [b][1..] == [];
  }

  /** Appending a note to a file adds what the note alone reads as, after everything that was there. */
  lemma AppendIsLocal(content: string, n: Note)
    requires EndsInNewline(content) && Strip(n.learning) != ""
    ensures Parse(content + PrintNote(n)) == Parse(content) + Parse(PrintNote(n))
  {
    PrintedStartsAndEnds(n);
    if content == "" {
      assert content + PrintNote(n) == PrintNote(n);
      OneBlock("");
      LineOfBreakFree("");
    } else {
      var s := content[..|content| - 1];
      assert content == s + ['\n'];
      BlocksAtHeading(s, PrintNote(n));
      ReadBlocksConcat(Blocks(s), Blocks(PrintNote(n)));
      LastNewlineAddsNothing(s);
    }
  }

  /** Appending a note to a file adds exactly that note, stripped, after the entries that were there. */
  lemma AppendedNoteIsRead(content: string, n: Note)
    requires EndsInNewline(content)
    requires Strip(n.learning) != "" && KeepsToItsLines(n)
    ensures Parse(content + PrintNote(n)) == Parse(content) + [Normal(n)]
  {
    AppendIsLocal(content, n);
    NoteIsOneBlock(n);
    NoteIsRead(n);
    OneBlock(PrintNote(n));
  }

  // ----- any sequence of calls -----

  /** The file after one call of `remember`; a rejected learning raises before the file is opened. */
  function FileAfter(file: Option<string>, n: Note, lower: string -> string): Option<string> {
    if !Accepts(n.learning, lower) then file
    else Some(Opened(file) + PrintNote(n))
  }

  function FileAfterAll(file: Option<string>, notes: seq<Note>, lower: string -> string): Option<string> {
    if notes == [] then file
    else FileAfter(FileAfterAll(file, notes[..|notes| - 1], lower), notes[|notes| - 1], lower)
  }

  /** The entries one call adds. */
  function Added(n: Note, lower: string -> string): seq<Entry> {
    if Accepts(n.learning, lower) then [Normal(n)] else []
  }

  function AcceptedEntries(notes: seq<Note>, lower: string -> string): seq<Entry> {
    if notes == [] then []
    else
      AcceptedEntries(notes[..|notes| - 1], lower) + Added(notes[|notes| - 1], lower)
  }

  function ReadFile(file: Option<string>): seq<Entry> {
    if file.Some? then Parse(file.value) else []
  }

  /** A file that holds one line which is no heading has no entry. */
  lemma PlainLineHasNoEntry(line: string, w: string)
    requires line != "" && BreakFree(line) && !IsSpace(line[0]) && !IsSpace(line[|line| - 1]) && !Heading(line)
    requires AllSpace(w)
    ensures Parse(line + w) == []
  {
    assert Quiet(line + w) by {
      assert forall i :: |line| <= i < |line + w| ==> (line + w)[i] == w[i - |line|];
    }
    QuietIsOneBlock(line + w);
    OneBlock(line + w);
    TrailingSpaceAddsNoLine(line, w);
    LineOfBreakFree(line);
    StripIs("", line, "");
    assert "" + line + "" == line;
  }

  /** The text a note is appended to. */
  function Opened(file: Option<string>): string {
    if file.Some? then file.value else FILE_TITLE + ['\n', '\n']
  }

  lemma OpenedReads(file: Option<string>)
    requires file.Some? ==> EndsInNewline(file.value)
    ensures Parse(Opened(file)) == ReadFile(file) && EndsInNewline(Opened(file))
  {
    if file.None? {
      var title := FILE_TITLE;
      assert title[0] == '#' && title[1] == ' ' && title[|title| - 1] == 's';
      PlainLineHasNoEntry(title, ['\n', '\n']);
    }
  }

  ghost predicate Appendable(file: Option<string>) {
    file.Some? ==> EndsInNewline(file.value)
  }

  /** `file` can be appended to and reads as `entries`. */
  ghost predicate Holds(file: Option<string>, entries: seq<Entry>) {
    Appendable(file) && ReadFile(file) == entries
  }

  lemma FileAfterReads(file: Option<string>, n: Note, lower: string -> string, entries: seq<Entry>)
    requires lower("") == "" && Holds(file, entries)
    requires Accepts(n.learning, lower) ==> KeepsToItsLines(n)
    ensures Holds(FileAfter(file, n, lower), entries + Added(n, lower))
  {
    if Accepts(n.learning, lower) {
      PrintedStartsAndEnds(n);
      OpenedReads(file);
      AppendedNoteIsRead(Opened(file), n);
    }
  }

  ghost predicate AllKeepToTheirLines(notes: seq<Note>) {
    forall n :: n in notes ==> KeepsToItsLines(n)
  }

  lemma LastIsAccepted(notes: seq<Note>, lower: string -> string, entries: seq<Entry>)
    requires notes != []
    ensures
      var before, last := notes[..|notes| - 1], notes[|notes| - 1];
      (entries + AcceptedEntries(before, lower)) + Added(last, lower) == entries + AcceptedEntries(notes, lower)
  {
  }

  /**
    The round trip: whatever was remembered before, the file reads as the old entries followed by
    the accepted notes in call order.
   */
  lemma {:induction false} RoundTrip(file: Option<string>, notes: seq<Note>, lower: string -> string, entries: seq<Entry>)
    requires lower("") == "" && Holds(file, entries)
    requires AllKeepToTheirLines(notes)
    ensures Holds(FileAfterAll(file, notes, lower), entries + AcceptedEntries(notes, lower))
    decreases |notes|
  {
    if notes == [] {
      assert entries + [] == entries;
    } else {
      var before, last := notes[..|notes| - 1], notes[|notes| - 1];
      RoundTrip(file, before, lower, entries);
      FileAfterReads(FileAfterAll(file, before, lower), last, lower, entries + AcceptedEntries(before, lower));
      LastIsAccepted(notes, lower, entries);
    }
  }

  // ----- the store -----

  lemma ReadBlocksOneMore(blocks: seq<string>, b: nat)
    requires b < |blocks|
    ensures ReadBlocks(blocks[..b + 1]) == ReadBlocks(blocks[..b]) + EntriesOfBlock(blocks[b])
  {
    assert blocks[..b + 1] == blocks[..b] + [blocks[b]];
    ReadBlocksConcat(blocks[..b], [blocks[b]]);
    assert [blocks[b]][1..] == [] && EntriesOfBlock(blocks[b]) + [] == EntriesOfBlock(blocks[b]);
  }

  class LongTermMemoryStore {
    /** The files of the memory directory by name. */
    var files: map<string, string>
    const lower: string -> string

    constructor (lower: string -> string)
      ensures this.lower == lower && files == map[]
    {
      this.lower := lower;
      files := map[];
    }

    function File(name: string): Option<string>
      reads this
    {
      if name in files then Some(files[name]) else None
    }

    /** `remember`; `accepted` is false where the source raises `ValueError`. */
    method Remember(n: Note, topicFile: string) returns (accepted: bool)
      modifies this`files
      ensures accepted == Accepts(n.learning, lower)
      ensures File(topicFile) == FileAfter(old(File(topicFile)), n, lower)
      ensures forall name :: name != topicFile ==> File(name) == old(File(name))
    {
      accepted := Accepts(n.learning, lower);
      if accepted {
        if topicFile !in files {
          files := files[topicFile := FILE_TITLE + ['\n', '\n']];
        }
        files := files[topicFile := files[topicFile] + PrintNote(n)];
      }
    }

    /** `_read_memory_file`: one pass over the blocks. */
    method ReadMemoryFile(name: string) returns (entries: seq<Entry>)
      requires name in files
      ensures entries == Parse(files[name])
    {
      entries := [];
      var blocks := Blocks(files[name]);
      for b := 0 to |blocks|
        invariant entries == ReadBlocks(blocks[..b])
      {
        var found := ReadOneBlock(Lines(blocks[b]));
        ReadBlocksOneMore(blocks, b);
        entries := entries + found;
      }
      assert blocks[..|blocks|] == blocks;
    }

    /** One pass over the lines of a block. */
    static method ReadOneBlock(lines: seq<string>) returns (found: seq<Entry>)
      ensures found == EntriesOfLines(lines)
    {
      if lines == [] || !Heading(lines[0]) {
        return [];
      }
      var entry := StartEntry(lines[0]);
      for k := 1 to |lines|
        invariant ReadLines(entry, lines[k..]) == ReadLines(StartEntry(lines[0]), lines[1..])
      {
        assert lines[k..][1..] == lines[k + 1..];
        entry := ReadLine(entry, lines[k]);
      }
      found := if entry.learning.Some? && entry.learning.value != "" then [entry] else [];
    }
  }
}
