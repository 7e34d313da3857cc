/** What the title of a remembered note shows of its learning: `_title_from_learning` of src/assistant/memory/long_term.py. */
module MemoryTitles {
  import opened Whitespace
  import opened LongTermMemory
  import IsoTime

  /** The characters of a text that are no space. */
  function Visible(s: string): string {
    if s == "" then "" else (if IsSpace(s[0]) then "" else [s[0]]) + Visible(s[1..])
  }

  predicate OnlyDots(s: string) {
    forall i :: 0 <= i < |s| ==> s[i] == '.'
  }

  /** Words with one blank between them. */
  predicate SingleSpaced(s: string) {
    forall i :: 0 <= i < |s| && IsSpace(s[i]) ==> s[i] == ' ' && i + 1 < |s| && !IsSpace(s[i + 1])
  }

  lemma {:induction false} VisibleConcat(a: string, b: string)
    ensures Visible(a + b) == Visible(a) + Visible(b)
  {
    if a == "" {
      assert a + b == b;
    } else {
      assert (a + b)[1..] == a[1..] + b;
      VisibleConcat(a[1..], b);
    }
  }

  lemma {:induction false} SpaceIsInvisible(w: string)
    requires AllSpace(w)
    ensures Visible(w) == ""
  {
    if w != "" {
      SpaceIsInvisible(w[1..]);
    }
  }

  lemma {:induction false} DotsAreVisible(s: string)
    requires OnlyDots(s)
    ensures Visible(s) == s
  {
    if s != "" {
      DotsAreVisible(s[1..]);
    }
  }

  lemma {:induction false} CollapseShows(s: string)
    ensures Visible(Collapse(s)) == Visible(s)
    decreases |s|
  {
    if s != "" {
      if IsSpace(s[0]) {
        CollapseShows(LStrip(s[1..]));
        LStripShows(s[1..]);
        VisibleOneMore(' ', Collapse(LStrip(s[1..])));
      } else {
        CollapseShows(s[1..]);
        VisibleOneMore(s[0], Collapse(s[1..]));
      }
    }
  }

  lemma LStripShows(s: string)
    ensures Visible(LStrip(s)) == Visible(s)
  {
    var w := LStripParts(s);
    VisibleConcat(w, LStrip(s));
    SpaceIsInvisible(w);
  }

  lemma VisibleOneMore(c: char, s: string)
    ensures Visible([c] + s) == (if IsSpace(c) then "" else [c]) + Visible(s)
  {
    assert ([c] + s)[1..] == s;
  }

  lemma {:induction false} DotParts(s: string) returns (dots: string)
    ensures s == RStripDots(s) + dots && OnlyDots(dots)
  {
    if s != "" && s[|s| - 1] == '.' {
      var more := DotParts(s[..|s| - 1]);
      dots := more + ".";
    } else {
      dots := "";
    }
  }

  lemma StripShows(s: string)
    ensures Visible(Strip(s)) == Visible(s)
  {
    var w, v := StripParts(s);
    VisibleConcat(w + Strip(s), v);
    VisibleConcat(w, Strip(s));
    SpaceIsInvisible(w);
    SpaceIsInvisible(v);
  }

  lemma VisiblePrefix(s: string, n: nat)
    requires n <= |s|
    ensures Visible(s[..n]) <= Visible(s)
  {
    assert s == s[..n] + s[n..];
    VisibleConcat(s[..n], s[n..]);
  }

  /**
    A title shows the beginning of the learning, and all of it but dots at its end unless it was cut at 80 characters;
    it says nothing of the learning only if there is nothing but dots.
   */
  lemma TitleShowsTheLearning(learning: string) returns (dots: string)
    ensures OnlyDots(dots)
    ensures
      var title, whole := TitleFromLearning(learning), Collapse(RStripDots(Strip(learning)));
      && Visible(learning) == Visible(whole) + dots
      && (whole != "" ==> Visible(title) <= Visible(learning) && (|whole| <= 80 ==> title == whole) && (80 < |whole| ==> |title| == 80))
      && (whole == "" ==> title == "Aprendizado" && Visible(learning) == dots)
  {
    var s := Strip(learning);
    dots := DotParts(s);
    StripShows(learning);
    CollapseShows(RStripDots(s));
    VisibleConcat(RStripDots(s), dots);
    DotsAreVisible(dots);
    var whole := Collapse(RStripDots(s));
    if 80 < |whole| {
      VisiblePrefix(whole, 80);
    }
  }

  lemma {:induction false} CollapseKeeps(s: string)
    requires SingleSpaced(s)
    ensures Collapse(s) == s
  {
    if s != "" {
      var rest := s[1..];
      forall i | 0 <= i < |rest| && IsSpace(rest[i]) ensures rest[i] == ' ' && i + 1 < |rest| && !IsSpace(rest[i + 1]) {
        assert rest[i] == s[i + 1];
      }
      CollapseKeeps(s[1..]);
      if IsSpace(s[0]) {
        assert !IsSpace(s[1]) && LStrip(s[1..]) == s[1..];
      }
    }
  }

  /** A learning of single-spaced words without a dot at the end is its own title, up to 80 characters. */
  lemma PlainLearningIsItsTitle(learning: string)
    requires learning != "" && SingleSpaced(learning) && !IsSpace(learning[0]) && learning[|learning| - 1] != '.'
    ensures TitleFromLearning(learning) == if 80 < |learning| then learning[..80] else learning
  {
    assert !IsSpace(learning[|learning| - 1]);
    StripIs("", learning, "");
    assert "" + learning + "" == learning;
    CollapseKeeps(learning);
  }

  /** The date of a note is the date part of its time stamp. */
  lemma DateIsThatOfTheTimeStamp(t: IsoTime.Instant)
    ensures DateText(t) <= IsoTime.Iso(t) && |DateText(t)| == 10
  {
    var y, m, d := IsoTime.Digits(t.year, 4), IsoTime.Digits(t.month, 2), IsoTime.Digits(t.day, 2);
    PartsOfADate(y, "-", m, d, "T" + IsoTime.IsoClock(t));
  }

  lemma PartsOfADate(y: string, dash: string, m: string, d: string, rest: string)
    ensures y + dash + m + dash + d <= y + (dash + (m + (dash + (d + rest))))
  {
    assert y + (dash + (m + (dash + (d + rest)))) == (y + dash + m + dash + d) + rest;
  }
}
