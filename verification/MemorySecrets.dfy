/**
  What a memory file shows of secrets: which learnings are written at all, and exactly when a learning that is read back
  names a secret. src/assistant/memory/long_term.py.
 */
module MemorySecrets {
  import opened Common
  import opened Whitespace
  import opened LongTermMemory

  // ----- which notes are written -----

  predicate Has(text: string, word: string) {
    exists i :: 0 <= i <= |text| && word <= text[i..]
  }

  predicate NamesASecret(text: string) {
    || Has(text, "senha") || Has(text, "password") || Has(text, "token") || Has(text, "api key")
    || Has(text, "apikey") || Has(text, "secret") || Has(text, "chave privada") || Has(text, "private key")
  }

  /** The learning, stripped and in lower case, is there and names no secret. */
  predicate MayBeWritten(learning: string, lower: string -> string) {
    var text := lower(Strip(learning));
    text != "" && !NamesASecret(text)
  }

  lemma EightWords(text: string, words: seq<string>, a: string, b: string, c: string, d: string, e: string, f: string, g: string, h: string)
    requires words == [a, b, c, d, e, f, g, h]
    ensures (exists p :: p in words && Has(text, p)) <==>
      Has(text, a) || Has(text, b) || Has(text, c) || Has(text, d) || Has(text, e) || Has(text, f) || Has(text, g) || Has(text, h)
  {
    assert words[0] == a && words[1] == b && words[2] == c && words[3] == d;
    assert words[4] == e && words[5] == f && words[6] == g && words[7] == h;
  }

  lemma AcceptsExactly(learning: string, lower: string -> string)
    ensures Accepts(learning, lower) <==> MayBeWritten(learning, lower)
  {
    var text := lower(Strip(learning));
    EightWords(text, SENSITIVE_PATTERNS, "senha", "password", "token", "api key", "apikey", "secret", "chave privada", "private key");
    assert (exists p :: p in SENSITIVE_PATTERNS && Has(text, p)) <==>
      exists p :: p in SENSITIVE_PATTERNS && exists i :: 0 <= i <= |text| && p <= text[i..];
  }

  /** A note is appended, to the file or to the title of a new one, if and only if its learning may be written. */
  lemma NoteIsWrittenExactly(file: Option<string>, n: Note, lower: string -> string)
    ensures FileAfter(file, n, lower) ==
      if MayBeWritten(n.learning, lower) then Some((if file.Some? then file.value else "# Correcoes" + ['\n', '\n']) + PrintNote(n))
      else file
  {
    AcceptsExactly(n.learning, lower);
  }

  // ----- which learning a block shows -----

  const LEARNING := "- Aprendizado:"

  predicate IsLearning(line: string) {
    LEARNING <= line
  }

  function LearningOf(line: string): string
    requires IsLearning(line)
  {
    Strip(line[|LEARNING|..])
  }

  lemma LearningField(line: string)
    ensures LineField(line) == Some(Learning) <==> IsLearning(line)
  {
    assert Label(Date)[2] == 'D' && Label(Context)[2] == 'C' && LEARNING[2] == 'A' && Label(Source)[2] == 'F';
    assert IsLearning(line) ==> line[2] == 'A';
    assert Label(Date) <= line ==> line[2] == 'D';
    assert Label(Context) <= line ==> line[2] == 'C';
  }

  lemma LineSetsLearning(e: Entry, line: string)
    ensures ReadLine(e, line).learning == if IsLearning(line) then Some(LearningOf(line)) else e.learning
  {
    LearningField(line);
  }

  /** The last line that is labelled as the learning. */
  predicate IsLastLearning(lines: seq<string>, k: nat) {
    k < |lines| && IsLearning(lines[k]) && forall m :: k < m < |lines| ==> !IsLearning(lines[m])
  }

  lemma {:induction false} OtherLinesKeepLearning(e: Entry, lines: seq<string>)
    requires forall m :: 0 <= m < |lines| ==> !IsLearning(lines[m])
    ensures ReadLines(e, lines).learning == e.learning
    decreases |lines|
  {
    if lines != [] {
      LineSetsLearning(e, lines[0]);
      OtherLinesKeepLearning(ReadLine(e, lines[0]), lines[1..]);
    }
  }

  lemma {:induction false} LastLearningIsRead(e: Entry, lines: seq<string>, k: nat)
    requires IsLastLearning(lines, k)
    ensures ReadLines(e, lines).learning == Some(LearningOf(lines[k]))
    decreases |lines|
  {
    LineSetsLearning(e, lines[0]);
    if k == 0 {
      OtherLinesKeepLearning(ReadLine(e, lines[0]), lines[1..]);
    } else {
      LastLearningIsRead(ReadLine(e, lines[0]), lines[1..], k - 1);
    }
  }

  lemma {:induction false} FindLastLearning(lines: seq<string>) returns (k: nat)
    requires exists m :: 0 <= m < |lines| && IsLearning(lines[m])
    ensures IsLastLearning(lines, k)
  {
    var n := |lines| - 1;
    if IsLearning(lines[n]) {
      k := n;
    } else {
      var m :| 0 <= m < |lines| && IsLearning(lines[m]);
      assert lines[..n][m] == lines[m];
      k := FindLastLearning(lines[..n]);
      assert lines[..n][k] == lines[k];
    }
  }

  // ----- which secrets a text shows -----

  predicate Secret(e: Entry, lower: string -> string) {
    e.learning.Some? && NamesASecret(lower(e.learning.value))
  }

  /** A block under a heading whose last learning names a secret. */
  ghost predicate BlockShowsSecret(block: string, lower: string -> string) {
    var lines := Lines(block);
    && lines != [] && Heading(lines[0])
    && exists k: nat :: IsLastLearning(lines[1..], k) && NamesASecret(lower(LearningOf(lines[1..][k])))
  }

  lemma NothingNamesNoSecret()
    ensures !NamesASecret("")
  {
  }

  lemma BlockExactly(block: string, lower: string -> string)
    requires lower("") == ""
    ensures (exists e :: e in EntriesOfBlock(block) && Secret(e, lower)) <==> BlockShowsSecret(block, lower)
  {
    var lines := Lines(block);
    NothingNamesNoSecret();
    if lines != [] && Heading(lines[0]) {
      var e := ReadLines(StartEntry(lines[0]), lines[1..]);
      BlockLearning(StartEntry(lines[0]), lines[1..], lower);
      assert EntriesOfBlock(block) == if e.learning.Some? && e.learning.value != "" then [e] else [];
      assert Secret(e, lower) ==> e in EntriesOfBlock(block);
    }
  }

  lemma BlockLearning(start: Entry, lines: seq<string>, lower: string -> string)
    requires start.learning == None
    ensures Secret(ReadLines(start, lines), lower) <==>
      exists k: nat :: IsLastLearning(lines, k) && NamesASecret(lower(LearningOf(lines[k])))
  {
    if exists m :: 0 <= m < |lines| && IsLearning(lines[m]) {
      var k := FindLastLearning(lines);
      LastLearningIsRead(start, lines, k);
      assert forall j: nat :: IsLastLearning(lines, j) ==> j == k;
    } else {
      OtherLinesKeepLearning(start, lines);
    }
  }

  lemma {:induction false} InBlocks(blocks: seq<string>, e: Entry)
    ensures e in ReadBlocks(blocks) <==> exists b :: b in blocks && e in EntriesOfBlock(b)
  {
    if blocks != [] {
      InBlocks(blocks[1..], e);
      assert forall b :: b in blocks <==> b == blocks[0] || b in blocks[1..];
    }
  }

  /** Some block of the text shows a secret. */
  ghost predicate ShowsSecret(content: string, lower: string -> string) {
    exists b :: b in Blocks(content) && BlockShowsSecret(b, lower)
  }

  lemma ParseExactly(content: string, lower: string -> string)
    requires lower("") == ""
    ensures (exists e :: e in Parse(content) && Secret(e, lower)) <==> ShowsSecret(content, lower)
  {
    var blocks := Blocks(content);
    forall e ensures e in Parse(content) <==> exists b :: b in blocks && e in EntriesOfBlock(b) {
      InBlocks(blocks, e);
    }
    forall b ensures (exists e :: e in EntriesOfBlock(b) && Secret(e, lower)) <==> BlockShowsSecret(b, lower) {
      BlockExactly(b, lower);
    }
  }

  // ----- any sequence of calls -----

  /** The file reads as the written notes do, one by one. */
  ghost predicate ReadsAs(file: Option<string>, notes: seq<Note>, lower: string -> string) {
    Appendable(file) &&
    forall e :: e in ReadFile(file) <==> exists n :: n in notes && MayBeWritten(n.learning, lower) && e in Parse(PrintNote(n))
  }

  lemma OneMoreNote(file: Option<string>, notes: seq<Note>, n: Note, lower: string -> string)
    requires lower("") == "" && ReadsAs(file, notes, lower)
    ensures ReadsAs(FileAfter(file, n, lower), notes + [n], lower)
  {
    NoteIsWrittenExactly(file, n, lower);
    assert forall m :: m in notes + [n] <==> m in notes || m == n;
    if MayBeWritten(n.learning, lower) {
      OpenedReads(file);
      AppendIsLocal(Opened(file), n);
      PrintedStartsAndEnds(n);
    }
  }

  lemma {:induction false} FileReadsAsItsNotes(notes: seq<Note>, lower: string -> string)
    requires lower("") == ""
    ensures ReadsAs(FileAfterAll(None, notes, lower), notes, lower)
    decreases |notes|
  {
    if notes != [] {
      var init, last := notes[..|notes| - 1], notes[|notes| - 1];
      FileReadsAsItsNotes(init, lower);
      OneMoreNote(FileAfterAll(None, init, lower), init, last, lower);
      assert init + [last] == notes;
    }
  }

  /**
    After any sequence of calls: a learning that names a secret is read back if and only if some note that was written has
    a block whose last learning line names one, which its learning alone never does.
   */
  lemma SecretsAreReadExactly(notes: seq<Note>, lower: string -> string)
    requires lower("") == ""
    ensures (exists e :: e in ReadFile(FileAfterAll(None, notes, lower)) && Secret(e, lower)) <==>
      exists n :: n in notes && MayBeWritten(n.learning, lower) && ShowsSecret(PrintNote(n), lower)
  {
    FileReadsAsItsNotes(notes, lower);
    forall n ensures (exists e :: e in Parse(PrintNote(n)) && Secret(e, lower)) <==> ShowsSecret(PrintNote(n), lower) {
      ParseExactly(PrintNote(n), lower);
    }
  }

  lemma OwnLinesShowNothing(n: Note, lower: string -> string)
    requires lower("") == "" && MayBeWritten(n.learning, lower) && KeepsToItsLines(n)
    ensures !ShowsSecret(PrintNote(n), lower)
  {
    NoteIsOneBlock(n);
    NoteIsRead(n);
    OneBlock(PrintNote(n));
    ParseExactly(PrintNote(n), lower);
    assert !Secret(Normal(n), lower);
  }

  /** After any sequence of calls with fields that keep to their lines: no learning that is read back names a secret. */
  lemma SecretsStayOut(notes: seq<Note>, lower: string -> string, e: Entry)
    requires lower("") == "" && AllKeepToTheirLines(notes) && e in ReadFile(FileAfterAll(None, notes, lower))
    ensures e.learning.Some? ==>
      var text := lower(e.learning.value);
      && !Has(text, "senha") && !Has(text, "password") && !Has(text, "token") && !Has(text, "api key")
      && !Has(text, "apikey") && !Has(text, "secret") && !Has(text, "chave privada") && !Has(text, "private key")
  {
    SecretsAreReadExactly(notes, lower);
    forall n | n in notes && MayBeWritten(n.learning, lower) ensures !ShowsSecret(PrintNote(n), lower) {
      OwnLinesShowNothing(n, lower);
    }
    assert !Secret(e, lower);
  }

  // ----- the fields must keep to their lines -----

  /** A note whose source has a second line that looks like a learning. */
  function TwoFaced(text: string, today: IsoTime.Instant): Note {
    Note("a", "b", "c" + ['\n'] + LabeledLine(Learning, text), today)
  }

  lemma StripsToItsLine(text: string)
    requires BreakFree(text)
    ensures BreakFree(RStrip(text))
  {
    var w := RStripParts(text);
    assert forall i :: 0 <= i < |RStrip(text)| ==> text[i] == RStrip(text)[i];
  }

  lemma SourceOfTwoFaced(text: string, today: IsoTime.Instant) returns (c: string, x: string)
    requires BreakFree(text)
    ensures Lines(NoteLines(TwoFaced(text, today))[5]) == [Label(Source) + c] + [Label(Learning) + x] && Strip(x) == Strip(text)
  {
    StripsToItsLine(text);
    StripsToItsLine("c");
    c := LabeledLineIsRead(Source, "c");
    x := LabeledLineIsRead(Learning, text);
    LinesConcat(LabeledLine(Source, "c"), '\n', LabeledLine(Learning, text));
    TwoLines(Label(Source), "c", LabeledLine(Learning, text));
  }

  lemma TwoLines(name: string, first: string, second: string)
    ensures name + (" " + (first + ['\n'] + second)) == (name + (" " + first)) + ['\n'] + second
  {
  }

  lemma EndOfTwoFaced(read: string -> seq<string>, lines: seq<string>, c: string, a: string, two: seq<string>)
    requires SplitsAtNewline(read)
    requires |lines| == 7 && lines[6] == "" && read(lines[3]) == [c] && read(lines[4]) == [a] && read(lines[5]) == two
    ensures read(Body(lines[3..])) == [c] + ([a] + (two + []))
  {
    assert lines[7..] == [];
    BodyStep(read, lines, 6, []);
    BodyStep(read, lines, 5, []);
    BodyLine(read, lines, 4, a, two + []);
    BodyLine(read, lines, 3, c, [a] + (two + []));
  }

  lemma TwoFacedHolds(text: string, today: IsoTime.Instant)
    ensures var n := TwoFaced(text, today); Strip(n.learning) == "a" && Strip(n.context) == "b" && BreakFree(RStrip(n.context))
  {
    StripIs("", "a", "");
    StripIs("", "b", "");
    assert "" + "a" + "" == "a" && "" + "b" + "" == "b";
    StripsToItsLine("b");
  }

  /** The lines of such a note: those of any note, and the second line of the source. */
  lemma LinesOfTwoFaced(text: string, today: IsoTime.Instant) returns (h: string, rest: seq<string>, x: string)
    requires BreakFree(text)
    ensures Lines(PrintNote(TwoFaced(text, today))) == [h] + (rest + [Label(Learning) + x])
    ensures Heading(h) && Strip(x) == Strip(text)
  {
    var n := TwoFaced(text, today);
    TwoFacedHolds(text, today);
    HeadingOfNote(n);
    TitleShape(n.learning);
    HeadingStarts(TitleFromLearning(n.learning));
    h := HASHES + ([' '] + RStrip(TitleFromLearning(n.learning)));
    var d := DateOfNote(n);
    var c := ContextOfNote(n);
    var a := LearningOfNote(n);
    var s;
    s, x := SourceOfTwoFaced(text, today);
    rest := TwoFacedBody(NoteLines(n), h, Label(Date) + d, Label(Context) + c, Label(Learning) + a, Label(Source) + s, Label(Learning) + x);
  }

  lemma TwoFacedBody(lines: seq<string>, h: string, d: string, c: string, a: string, s: string, x: string) returns (rest: seq<string>)
    requires |lines| == 7 && lines[1] == "" && lines[6] == ""
    requires Lines(lines[0]) == [h] && Lines(lines[2]) == [d] && Lines(lines[3]) == [c] && Lines(lines[4]) == [a] && Lines(lines[5]) == [s] + [x]
    ensures Lines(Body(lines)) == [h] + (rest + [x])
  {
    LinesSplitAtNewline();
    EndOfTwoFaced(Lines, lines, c, a, [s] + [x]);
    FirstThreeLines(Lines, lines, h, d, [c] + ([a] + (([s] + [x]) + [])));
    rest := [d, c, a, s];
    SixInARow(h, d, c, a, s, x);
  }

  lemma SixInARow(h: string, d: string, c: string, a: string, s: string, x: string)
    ensures [h] + ([d] + ([c] + ([a] + (([s] + [x]) + [])))) == [h] + ([d, c, a, s] + [x])
  {
  }

  lemma TwoFacedIsOneBlock(text: string, today: IsoTime.Instant)
    requires BreakFree(text)
    ensures Blocks(PrintNote(TwoFaced(text, today))) == [PrintNote(TwoFaced(text, today))]
  {
    var n := TwoFaced(text, today);
    TwoFacedHolds(text, today);
    TitleShape(n.learning);
    StripTwice(n.learning);
    DateTextIsPlain(n.today);
    LabeledIsQuiet(Date, DateText(n.today));
    LabeledIsQuiet(Context, n.context);
    LabeledIsQuiet(Learning, Strip(n.learning));
    TwoFacedSourceIsQuiet(text);
    BodyIsQuiet(NoteLines(n));
    QuietIsOneBlock(PrintNote(n));
  }

  lemma TwoFacedSourceIsQuiet(text: string)
    requires BreakFree(text)
    ensures var line := LabeledLine(Source, "c" + ['\n'] + LabeledLine(Learning, text)); Quiet(line) && line[0] != '#'
  {
    StripsToItsLine(text);
    StripsToItsLine("c");
    LabeledIsQuiet(Source, "c");
    LabeledIsQuiet(Learning, text);
    var a, b := LabeledLine(Source, "c"), LabeledLine(Learning, text);
    TwoLines(Label(Source), "c", b);
    QuietAtNewline(a, b);
  }

  lemma QuietAtNewline(a: string, b: string)
    requires Quiet(a) && Quiet(b) && a != "" && a[0] != '#' && b != "" && b[0] != '#'
    ensures Quiet(a + ['\n'] + b) && (a + ['\n'] + b)[0] != '#'
  {
    var u := a + ['\n'] + b;
    forall i | 0 <= i < |u| - 1 && u[i] == '\n' ensures u[i + 1] != '#' {
      if i < |a| - 1 {
        assert u[i] == a[i] && u[i + 1] == a[i + 1];
      } else if i > |a| {
        assert u[i] == b[i - |a| - 1] && u[i + 1] == b[i - |a|];
      }
    }
  }

  /** A learning that may be written and a source with a second line: what is read back is what that line says, secret or not. */
  lemma SecondLineIsRead(text: string, today: IsoTime.Instant, lower: string -> string)
    requires BreakFree(text) && lower("") == "" && MayBeWritten("a", lower) && NamesASecret(lower(Strip(text)))
    ensures
      var n := TwoFaced(text, today);
      && MayBeWritten(n.learning, lower)
      && exists e :: e in ReadFile(FileAfterAll(None, [n], lower)) && Secret(e, lower)
  {
    var n := TwoFaced(text, today);
    TwoFacedIsOneBlock(text, today);
    var h, rest, x := LinesOfTwoFaced(text, today);
    var lines := Lines(PrintNote(n));
    var own := rest + [Label(Learning) + x];
    assert lines[1..] == own;
    LabelIsRead(Learning, x);
    assert IsLastLearning(own, |rest|) && LearningOf(own[|rest|]) == Strip(text);
    assert BlockShowsSecret(PrintNote(n), lower);
    assert ShowsSecret(PrintNote(n), lower);
    SecretsAreReadExactly([n], lower);
  }
}
