/** Python's `str` operations on whitespace and line boundaries. */
module Whitespace {

  /** `str.isspace` for one character; also what the regular expression `\s` matches. */
  predicate IsSpace(c: char) {
    var n := c as int;
    9 <= n <= 13 || 28 <= n <= 32 || n == 0x85 || n == 0xa0 || n == 0x1680 || 0x2000 <= n <= 0x200a ||
    n == 0x2028 || n == 0x2029 || n == 0x202f || n == 0x205f || n == 0x3000
  }

  /** The characters at which `str.splitlines` ends a line. */
  predicate IsBreak(c: char) {
    var n := c as int;
    10 <= n <= 13 || 28 <= n <= 30 || n == 0x85 || n == 0x2028 || n == 0x2029
  }

  predicate AllSpace(s: string) {
    forall i :: 0 <= i < |s| ==> IsSpace(s[i])
  }

  predicate BreakFree(s: string) {
    forall i :: 0 <= i < |s| ==> !IsBreak(s[i])
  }

  function LStrip(s: string): (r: string)
    ensures |r| <= |s|
  {
    if s != "" && IsSpace(s[0]) then LStrip(s[1..]) else s
  }

  function RStrip(s: string): string {
    if s != "" && IsSpace(s[|s| - 1]) then RStrip(s[..|s| - 1]) else s
  }

  function Strip(s: string): string {
    LStrip(RStrip(s))
  }

  lemma {:induction false} LStripIs(w: string, x: string)
    requires AllSpace(w) && (x != "" ==> !IsSpace(x[0]))
    ensures LStrip(w + x) == x
  {
    if w == "" {
      assert w + x == x;
    } else {
      assert (w + x)[1..] == w[1..] + x;
      LStripIs(w[1..], x);
    }
  }

  lemma {:induction false} RStripIs(x: string, w: string)
    requires AllSpace(w) && (x != "" ==> !IsSpace(x[|x| - 1]))
    ensures RStrip(x + w) == x
  {
    if w == "" {
      assert x + w == x;
    } else {
      assert (x + w)[..|x + w| - 1] == x + w[..|w| - 1];
      RStripIs(x, w[..|w| - 1]);
    }
  }

  lemma SpaceAndSpace(w: string, v: string)
    requires AllSpace(w) && AllSpace(v)
    ensures AllSpace(w + v)
  {
  }

  lemma StripOfSpace(s: string)
    requires AllSpace(s)
    ensures RStrip(s) == "" && Strip(s) == ""
  {
    assert "" + s == s;
    RStripIs("", s);
  }

  lemma LastOfBoth(w: string, x: string)
    requires x != ""
    ensures w + x != "" && (w + x)[|w + x| - 1] == x[|x| - 1]
  {
  }

  lemma StripIsText(w: string, x: string, v: string)
    requires AllSpace(w) && AllSpace(v) && x != "" && !IsSpace(x[0]) && !IsSpace(x[|x| - 1])
    ensures Strip(w + x + v) == x && RStrip(w + x + v) == w + x
  {
    LastOfBoth(w, x);
    RStripIs(w + x, v);
    LStripIs(w, x);
  }

  /** A text without outer space is what stripping returns, whatever the space around it. */
  lemma StripIs(w: string, x: string, v: string)
    requires AllSpace(w) && AllSpace(v) && (x != "" ==> !IsSpace(x[0]) && !IsSpace(x[|x| - 1]))
    ensures Strip(w + x + v) == x && (x != "" ==> RStrip(w + x + v) == w + x)
  {
    if x == "" {
      SpaceAndSpace(w, v);
      StripOfSpace(w + v);
      assert w + x + v == w + v;
    } else {
      StripIsText(w, x, v);
    }
  }

  lemma {:induction false} LStripParts(s: string) returns (w: string)
    ensures s == w + LStrip(s) && AllSpace(w) && (LStrip(s) != "" ==> !IsSpace(LStrip(s)[0]))
  {
    if s != "" && IsSpace(s[0]) {
      var u := LStripParts(s[1..]);
      w := [s[0]] + u;
    } else {
      w := "";
    }
  }

  lemma {:induction false} RStripParts(s: string) returns (w: string)
    ensures s == RStrip(s) + w && AllSpace(w) && (RStrip(s) != "" ==> !IsSpace(RStrip(s)[|RStrip(s)| - 1]))
  {
    if s != "" && IsSpace(s[|s| - 1]) {
      var u := RStripParts(s[..|s| - 1]);
      w := u + [s[|s| - 1]];
    } else {
      w := "";
    }
  }

  lemma StripParts(s: string) returns (w: string, v: string)
    ensures s == w + Strip(s) + v && AllSpace(w) && AllSpace(v) && RStrip(s) == w + Strip(s)
    ensures Strip(s) != "" ==> !IsSpace(Strip(s)[0]) && !IsSpace(Strip(s)[|Strip(s)| - 1])
  {
    v := RStripParts(s);
    w := LStripParts(RStrip(s));
  }

  lemma StripBeforeSpace(y: string, v: string)
    requires AllSpace(v) && y != "" && !IsSpace(y[0]) && !IsSpace(y[|y| - 1])
    ensures Strip(y + v) == y
  {
    RStripIs(y, v);
  }

  lemma NothingButSpace(s: string)
    ensures Strip(s) == "" <==> AllSpace(s)
  {
    if AllSpace(s) {
      StripOfSpace(s);
    }
    var w, v := StripParts(s);
    SpaceAndSpace(w, v);
    assert Strip(s) == "" ==> s == w + v;
  }

  /** Stripping text that follows a prefix whose ends are not spaces. */
  lemma StripAfterPrefix(p: string, x: string)
    requires p != "" && !IsSpace(p[0]) && !IsSpace(p[|p| - 1])
    ensures Strip(p + x) == p + RStrip(x)
  {
    var v := RStripParts(x);
    var r := RStrip(x);
    EndsOfPrefixed(p, r);
    StripBeforeSpace(p + r, v);
    PlusIsAssociative(p, r, v);
  }

  lemma PlusIsAssociative(a: string, b: string, c: string)
    ensures (a + b) + c == a + (b + c)
  {
  }

  lemma EndsOfPrefixed(p: string, r: string)
    requires p != "" && !IsSpace(p[0]) && !IsSpace(p[|p| - 1]) && (r != "" ==> !IsSpace(r[|r| - 1]))
    ensures var s := p + r; s != "" && !IsSpace(s[0]) && !IsSpace(s[|s| - 1])
  {
    if r != "" {
      LastOfBoth(p, r);
    } else {
      assert p + r == p;
    }
  }

  lemma RStripTwice(x: string)
    ensures RStrip(RStrip(x)) == RStrip(x) && Strip(RStrip(x)) == Strip(x)
  {
    var _ := RStripParts(x);
    var r := RStrip(x);
    RStripIs(r, "");
    assert r + "" == r;
  }

  lemma StripLeadingSpace(w: string, x: string)
    requires AllSpace(w)
    ensures Strip(w + x) == Strip(x)
  {
    var u, v := StripParts(x);
    assert w + x == (w + u) + Strip(x) + v;
    StripIs(w + u, Strip(x), v);
  }

  lemma StripTrailingSpace(x: string, v: string)
    requires AllSpace(v)
    ensures Strip(x + v) == Strip(x)
  {
    var w, u := StripParts(x);
    assert x + v == w + Strip(x) + (u + v);
    StripIs(w, Strip(x), u + v);
  }

  // ----- lines -----

  /** `splitlines`, with an empty last line when the text ends in a line boundary. */
  function RawLines(s: string): (r: seq<string>)
    ensures r != []
  {
    if s == "" then [""]
    else
      var r := RawLines(s[1..]);
      if IsBreak(s[0]) then [""] + r else [[s[0]] + r[0]] + r[1..]
  }

  /** `[line.strip() for line in lines if line.strip()]` */
  function Clean(lines: seq<string>): seq<string> {
    if lines == [] then []
    else (if Strip(lines[0]) == "" then [] else [Strip(lines[0])]) + Clean(lines[1..])
  }

  function Lines(s: string): seq<string> {
    Clean(RawLines(s))
  }

  lemma {:induction false} CleanConcat(a: seq<string>, b: seq<string>)
    ensures Clean(a + b) == Clean(a) + Clean(b)
  {
    if a == [] {
      assert a + b == b;
    } else {
      assert (a + b)[1..] == a[1..] + b;
      CleanConcat(a[1..], b);
    }
  }

  lemma {:induction false} RawLinesConcat(a: string, c: char, b: string)
    requires IsBreak(c)
    ensures RawLines(a + [c] + b) == RawLines(a) + RawLines(b)
  {
    var s := a + [c] + b;
    if a == "" {
      assert s[1..] == b;
    } else {
      assert s[1..] == a[1..] + [c] + b;
      RawLinesConcat(a[1..], c, b);
    }
  }

  lemma LinesConcat(a: string, c: char, b: string)
    requires IsBreak(c)
    ensures Lines(a + [c] + b) == Lines(a) + Lines(b)
  {
    RawLinesConcat(a, c, b);
    CleanConcat(RawLines(a), RawLines(b));
  }

  lemma {:induction false} RawLineOfBreakFree(a: string)
    requires BreakFree(a)
    ensures RawLines(a) == [a]
  {
    if a != "" {
      RawLineOfBreakFree(a[1..]);
      assert a == [a[0]] + a[1..];
    }
  }

  lemma CleanOne(a: string)
    ensures Clean([a]) == if Strip(a) == "" then [] else [Strip(a)]
  {
    assert [a][1..] == [];
    assert Clean([]) == [];
  }

  lemma LineOfBreakFree(a: string)
    requires BreakFree(a)
    ensures Lines(a) == if Strip(a) == "" then [] else [Strip(a)]
  {
    RawLineOfBreakFree(a);
    CleanOne(a);
  }

  function AppendToLast(lines: seq<string>, c: char): seq<string>
    requires lines != []
  {
    lines[..|lines| - 1] + [lines[|lines| - 1] + [c]]
  }

  lemma AppendToJoined(b: char, r: seq<string>, c: char)
    requires r != []
    ensures AppendToLast([[b] + r[0]] + r[1..], c) == [[b] + AppendToLast(r, c)[0]] + AppendToLast(r, c)[1..]
  {
    var joined := [[b] + r[0]] + r[1..];
    if |r| == 1 {
      assert ([b] + r[0]) + [c] == [b] + (r[0] + [c]);
    } else {
      assert joined[|joined| - 1] == r[|r| - 1];
    }
  }

  lemma {:induction false} RawLinesAppendChar(a: string, c: char)
    requires !IsBreak(c)
    ensures RawLines(a + [c]) == AppendToLast(RawLines(a), c)
  {
    if a == "" {
      assert a + [c] == [c];
      RawLineOfBreakFree([c]);
    } else {
      assert (a + [c])[1..] == a[1..] + [c];
      RawLinesAppendChar(a[1..], c);
      var r := RawLines(a[1..]);
      if IsBreak(a[0]) {
        assert AppendToLast([""] + r, c) == [""] + AppendToLast(r, c);
      } else {
        AppendToJoined(a[0], r, c);
      }
    }
  }

  lemma CleanAppendSpace(lines: seq<string>, c: char)
    requires lines != [] && IsSpace(c)
    ensures Clean(AppendToLast(lines, c)) == Clean(lines)
  {
    var front, last := lines[..|lines| - 1], lines[|lines| - 1];
    assert lines == front + [last];
    CleanConcat(front, [last]);
    CleanConcat(front, [last + [c]]);
    StripTrailingSpace(last, [c]);
    CleanOne(last);
    CleanOne(last + [c]);
  }

  /** Space at the end of a text, line boundaries included, adds no line. */
  lemma {:induction false} TrailingSpaceAddsNoLine(a: string, w: string)
    requires AllSpace(w)
    ensures Lines(a + w) == Lines(a)
    decreases |w|
  {
    if w == "" {
      assert a + w == a;
    } else {
      var u, c := w[..|w| - 1], w[|w| - 1];
      TrailingSpaceAddsNoLine(a, u);
      assert a + w == (a + u) + [c];
      if IsBreak(c) {
        assert (a + u) + [c] == (a + u) + [c] + "";
        LinesConcat(a + u, c, "");
        LineOfBreakFree("");
      } else {
        RawLinesAppendChar(a + u, c);
        CleanAppendSpace(RawLines(a + u), c);
      }
    }
  }
}
