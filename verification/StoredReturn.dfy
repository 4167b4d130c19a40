/** A text that Validate (internal/preferences/profile.go) stores as one it does not accept: each
    pass of Normalize takes one carriage return off a line. */
module StoredReturn {
  import opened ModelProfile
  import opened Profile
  import opened Text

  /** The four sections, the first with a bullet `line` and another. */
  function WithBullet(line: string): seq<string> {
    Headings(1) + [line] + Rest()
  }

  function Rest(): seq<string> {
    [OTHER] + [Heading(1)] + [Heading(2)] + [Heading(3)]
  }

  const OTHER := "- x"
  const TWO_RETURNS := "- \r\r"
  const ONE_RETURN := "- \r"
  const NO_RETURN := "- "
  const DASH := "-"

  lemma {:induction false} EndedAppend(a: seq<string>, b: seq<string>)
    ensures Ended(a + b) == Ended(a) + Ended(b)
  {
    if b == [] {
      assert a + b == a;
    } else {
      var init, last := b[..|b| - 1], b[|b| - 1];
      EndedAppend(a, init);
      assert a + b == (a + init) + [last] && b == init + [last];
      hide Ended;
      EndedSnoc(a + init, last);
      EndedSnoc(init, last);
      Regroup(Ended(a), Ended(init), last, "\n");
    }
  }

  lemma {:induction false} EndedLacks(ls: seq<string>, c: char)
    requires c != '\n' && forall k :: 0 <= k < |ls| ==> c !in ls[k]
    ensures c !in Ended(ls)
  {
    if ls != [] { EndedLacks(ls[..|ls| - 1], c); }
  }

  lemma LacksPair(a: string, tail: string)
    requires '\r' !in a && '\n' !in tail
    ensures !HasCrlf(a + tail)
  {
    forall k | 0 <= k < |a + tail| - 1 ensures !IsCrlf(a + tail, k) {
      assert k < |a| ==> (a + tail)[k] in a;
      assert k >= |a| ==> (a + tail)[k + 1] in tail;
    }
  }

  /** The lines of the text, plain but for the bullet. */
  lemma RestIsPlain()
    ensures |Headings(1)| == 2 && Headings(1)[0] == TITLE && |Rest()| == 4
    ensures forall k :: 0 <= k < 2 ==> NeatLine(Headings(1)[k]) && IsPrintable(Headings(1)[k])
    ensures forall k :: 0 <= k < 4 ==> NeatLine(Rest()[k]) && IsPrintable(Rest()[k])
  {
    HeadingsArePlain(1);
    assert Headings(1)[1] == Heading(0);
    HeadingIsPrintable(0);
    HeadingIsPrintable(1);
    HeadingIsPrintable(2);
    HeadingIsPrintable(3);
  }

  predicate IsPrintable(l: string) {
    '\n' !in l && '\r' !in l && |l| <= 30
  }

  lemma SectionsArePrintable()
    ensures forall i :: 0 <= i < |SECTIONS| ==> '\r' !in SECTIONS[i]
  {
  }

  lemma HeadingIsPrintable(i: nat)
    requires i < |SECTIONS|
    ensures IsPrintable(Heading(i)) && NeatLine(Heading(i))
  {
    SectionsArePrintable();
    HeadingLine(i);
    hide SECTIONS, NeatLine, IsHeading;
    Without("## ", SECTIONS[i]);
  }

  lemma Without(a: string, b: string)
    requires '\r' !in a && '\r' !in b
    ensures '\r' !in a + b
  {
  }

  /** The text as a prefix, the end of the bullet line, and the rest. */
  lemma WithBulletSplits(line: string)
    ensures Ended(WithBullet(line)) == Ended(Headings(1)) + line + "\n" + Ended(Rest())
  {
    hide Ended, Headings, Rest;
    EndedAppend(Headings(1) + [line], Rest());
    EndedSnoc(Headings(1), line);
  }

  lemma CrlfBetween(pre: string, line: string, post: string)
    requires '\r' !in pre && '\n' !in line && '\r' !in post
    ensures Crlf(pre + (line + "\r") + "\n" + post) == pre + line + "\n" + post
  {
    hide Crlf, HasCrlf;
    LacksPair(pre, line + "\r");
    LacksPair(post, "");
    assert pre + (line + "\r") == pre + line + "\r" && post + "" == post;
    CrlfSplit(pre + line, post);
    assert pre + (line + "\r") + "\n" + post == pre + line + "\r\n" + post;
  }

  /** Replacing CR LF takes one carriage return off the bullet line. */
  lemma CrlfTakesOne(line: string)
    requires '\n' !in line
    ensures Crlf(Ended(WithBullet(line + "\r"))) == Ended(WithBullet(line))
  {
    RestIsPlain();
    EndedLacks(Headings(1), '\r');
    EndedLacks(Rest(), '\r');
    hide Ended, Headings, Rest, Crlf, WithBullet;
    CrlfBetween(Ended(Headings(1)), line, Ended(Rest()));
    WithBulletSplits(line + "\r");
    WithBulletSplits(line);
  }

  lemma TrimLinesEnded(ls: seq<string>, ts: seq<string>)
    requires ls != [] && OneLiners(ls) && |ts| == |ls| && forall k :: 0 <= k < |ls| ==> ts[k] == TrimEnd(ls[k])
    ensures TrimLines(Ended(ls)) == Ended(ts)
  {
    EndedIsUnlines(ls);
    EndedIsUnlines(ts);
    UnlinesBlank(ls);
    UnlinesBlank(ts);
    hide TrimLines, Ended, Unlines;
    assert TrimEnd("") == "";
    TrimLinesOfLines(ls + [""], ts + [""]);
  }

  lemma NeatIsTrimmed(l: string)
    requires NeatLine(l)
    ensures TrimEnd(l) == l
  {
  }

  /** Trimming the lines touches the bullet line alone. */
  lemma TrimLinesBullet(line: string, left: string)
    requires '\n' !in line && left == TrimEnd(line)
    ensures TrimLines(Ended(WithBullet(line))) == Ended(WithBullet(left))
  {
    RestIsPlain();
    var ls, ts := WithBullet(line), WithBullet(left);
    hide Headings, Rest, NeatLine, TrimEnd, Ended, TrimLines;
    forall k | 0 <= k < |ls| ensures ts[k] == TrimEnd(ls[k]) && '\n' !in ls[k] {
      if k != 2 { NeatIsTrimmed(ls[k]); }
    }
    TrimLinesEnded(ls, ts);
  }

  lemma WithBulletIsTrimmed(line: string)
    ensures TrimSpace(Ended(WithBullet(line))) + "\n" == Ended(WithBullet(line))
  {
    RestIsPlain();
    TitleStarts(TITLE);
    LastHeading();
    var ls := WithBullet(line);
    hide Ended, TrimSpace, Headings, Heading;
    assert ls[0] == TITLE && ls == ls[..6] + [Heading(3)] && ls[..6][0] == TITLE;
    TrimSpaceEnded(ls[..6], Heading(3));
  }

  lemma LastHeading()
    ensures var l := Heading(3); l != "" && !IsSpace(l[0]) && !IsSpace(l[|l| - 1])
  {
    assert Heading(3)[0] == '#' && Heading(3)[|Heading(3)| - 1] == 'p';
  }

  lemma NormalizedBullet(line: string, left: string)
    requires '\n' !in line && left == TrimEnd(line)
    ensures Normalized(Ended(WithBullet(line + "\r"))) == Ended(WithBullet(left))
  {
    hide Ended, WithBullet, Crlf, TrimLines, TrimSpace;
    CrlfTakesOne(line);
    TrimLinesBullet(line, left);
    WithBulletIsTrimmed(left);
  }

  lemma HeadingReads(ls: seq<string>, i: nat)
    requires ls != [] && i < |SECTIONS| && Met(ReadLines(ls), i)
    ensures Met(ReadLines(ls + [Heading(i)]), i + 1)
  {
    hide ReadLine, Met, Heading, SECTIONS;
    MetIsReading(ReadLines(ls), i);
    ReadSnoc(ls, Heading(i));
    MeetNext(ReadLines(ls), i, |ls| + 1);
  }

  /** A bullet after the first heading is read, and the rest with it. */
  lemma WithBulletReads(line: string)
    requires IsBullet(line)
    ensures Met(ReadLines(WithBullet(line)), 4)
  {
    assert |SECTIONS| == 4;
    OtherIsBullet();
    hide WithBullet, ReadLines, Met, IsBullet, Heading, Headings, SECTIONS, OTHER;
    HeadingsRead(1);
    MetIsReading(ReadLines(Headings(1)), 1);
    BulletsRead(Headings(1), line, OTHER);
    var ls := Headings(1) + [line] + [OTHER];
    HeadingReads(ls, 1);
    HeadingReads(ls + [Heading(1)], 2);
    HeadingReads(ls + [Heading(1)] + [Heading(2)], 3);
    WithBulletGrows(line);
  }

  lemma WithBulletGrows(line: string)
    ensures WithBullet(line) == Headings(1) + [line] + [OTHER] + [Heading(1)] + [Heading(2)] + [Heading(3)]
  {
    hide Headings, Heading, OTHER;
  }

  lemma OtherIsBullet()
    ensures IsBullet(OTHER)
  {
  }

  lemma WithBulletIsShort(line: string)
    requires '\n' !in line && |line| <= 30
    ensures var ls := WithBullet(line);
            |ls| == 7 && ls[0] == TITLE && OneLiners(ls) && forall k :: 0 <= k < |ls| ==> |ls[k]| <= 30
  {
    RestIsPlain();
    hide Headings, Rest, TITLE, NeatLine;
  }

  lemma WithBulletAccepted(line: string)
    requires IsBullet(line) && '\n' !in line && |line| <= 30
    ensures Check(Ended(WithBullet(line))) == Accepted(Ended(WithBullet(line)))
  {
    assert IsTitle(TITLE);
    hide WithBullet, Ended, ReadLines, IsBullet, Met, Check, IsTitle, TITLE;
    WithBulletIsShort(line);
    WithBulletReads(line);
    AcceptedLines(WithBullet(line));
  }

  /** A lone dash in a section is no bullet. */
  lemma DashRejected()
    ensures Check(Ended(WithBullet(DASH))).Rejected?
  {
    RestIsPlain();
    HeadingsRead(1);
    InSection(Headings(1));
    assert SECTIONS[0] in ReadLines(Headings(1)).seen;
    DashStops(ReadLines(Headings(1)), 3);
    hide Headings, Rest, DASH, SECTIONS, ReadLine;
    StuckIsRejected(Headings(1), DASH, Rest());
  }

  lemma DashStops(r: Reading, n: nat)
    requires r.Reading? && r.section != ""
    ensures ReadLine(r, DASH, n).Stuck?
  {
    hide SECTIONS, TrimSpace;
    BulletOrNot(DASH);
  }

  lemma StuckIsRejected(heads: seq<string>, line: string, rest: seq<string>)
    requires heads != [] && OneLiners(heads + [line] + rest) && ReadLines(heads).Reading?
    requires ReadLine(ReadLines(heads), line, |heads| + 1).Stuck?
    ensures Check(Ended(heads + [line] + rest)).Rejected?
  {
    hide Ended, BodyLines, ReadLine, SECTIONS;
    var ls := heads + [line] + rest;
    BodyOfEnded(ls);
    ReadSnoc(heads, line);
    assert ls[..|heads| + 1] == heads + [line];
    StuckStays(ls, |heads| + 1);
  }

  /** Of this text Validate stores one that it does not accept: the bullet line loses one of its two
      carriage returns on the way in, and the other, with the blank before it, on the way back. */
  lemma StoredReturnIsRejected()
    ensures var t, v := Ended(WithBullet(TWO_RETURNS)), Ended(WithBullet(ONE_RETURN));
            && Normalized(t) == v && Check(v) == Accepted(v)
            && HasCrlf(v) && Check(Normalized(v)).Rejected?
  {
    hide Ended, WithBullet, Check, Normalized, TrimEnd;
    assert TWO_RETURNS == ONE_RETURN + "\r" && ONE_RETURN == NO_RETURN + "\r";
    assert TrimEnd(ONE_RETURN) == ONE_RETURN && TrimEnd(NO_RETURN) == DASH by { BulletEnds(); }
    NormalizedBullet(ONE_RETURN, ONE_RETURN);
    NormalizedBullet(NO_RETURN, DASH);
    WithBulletAccepted(ONE_RETURN);
    DashRejected();
    WithBulletSplits(ONE_RETURN);
    NormalizedIsFixed(Ended(WithBullet(TWO_RETURNS)));
  }

  lemma BulletEnds()
    ensures TrimEnd(ONE_RETURN) == ONE_RETURN && TrimEnd(NO_RETURN) == DASH
  {
    assert NO_RETURN[..1] == DASH;
  }
}
