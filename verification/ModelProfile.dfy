/** What the model sees of an accepted profile (internal/preferences/profile.go, `ForModel`): the
    text without its placeholder bullets, and whether that is still an acceptable profile. */
module ModelProfile {
  import opened Text
  import opened Profile

  predicate IsExample(l: string) {
    IsBullet(l) && HasPrefix(TrimSpace(l[2..]), EXAMPLE)
  }

  function Kept(ls: seq<string>): seq<string> {
    if ls == [] then []
    else Kept(ls[..|ls| - 1]) + if IsExample(ls[|ls| - 1]) then [] else [ls[|ls| - 1]]
  }

  function Stripped(t: string): string {
    Unlines(Kept(Lines(t)))
  }

  method ForModel(text: string) returns (r: string)
    ensures r == Stripped(text)
  {
    hide TrimSpace, Lines;
    var lines, kept := Lines(text), [];
    var i := 0;
    while i < |lines|
      invariant i <= |lines| && kept == Kept(lines[..i])
    {
      assert lines[..i + 1][..i] == lines[..i];
      if !(IsBullet(lines[i]) && HasPrefix(TrimSpace(lines[i][2..]), EXAMPLE)) {
        kept := kept + [lines[i]];
      }
      i := i + 1;
    }
    assert lines[..i] == lines;
    r := Unlines(kept);
  }

  // ----- Idempotence -----

  lemma {:induction false} KeptAreKept(ls: seq<string>)
    ensures forall k :: 0 <= k < |Kept(ls)| ==> !IsExample(Kept(ls)[k]) && Kept(ls)[k] in ls
  {
    hide IsExample;
    if ls != [] { KeptAreKept(ls[..|ls| - 1]); }
  }

  lemma {:induction false} NothingToDrop(ls: seq<string>)
    requires forall k :: 0 <= k < |ls| ==> !IsExample(ls[k])
    ensures Kept(ls) == ls
  {
    hide IsExample;
    if ls != [] {
      NothingToDrop(ls[..|ls| - 1]);
      assert ls == ls[..|ls| - 1] + [ls[|ls| - 1]];
    }
  }

  lemma KeptOneLiners(ls: seq<string>)
    requires OneLiners(ls)
    ensures OneLiners(Kept(ls))
  {
    KeptAreKept(ls);
  }

  /** Stripping a stripped text, any text, changes nothing. */
  lemma StrippedIsFixed(t: string)
    ensures Stripped(Stripped(t)) == Stripped(t)
  {
    hide Lines, Unlines, Kept, IsExample;
    var kept := Kept(Lines(t));
    LinesAreOneLiners(t);
    KeptOneLiners(Lines(t));
    if kept == [] {
      EmptyTexts();
    } else {
      LinesUnlines(kept);
      KeptAreKept(Lines(t));
      NothingToDrop(kept);
    }
  }

  lemma EmptyTexts()
    ensures Unlines([]) == "" && Lines("") == [""] && Kept([""]) == [""] && Unlines([""]) == ""
  {
    assert [""][..0] == [];
  }

  // ----- Texts as lines, each ended -----

  function Ended(ls: seq<string>): string {
    if ls == [] then "" else Ended(ls[..|ls| - 1]) + ls[|ls| - 1] + "\n"
  }

  lemma EndedSnoc(ls: seq<string>, l: string)
    ensures Ended(ls + [l]) == Ended(ls) + l + "\n"
  {
    assert (ls + [l])[..|ls|] == ls;
  }

  lemma {:induction false} EndedCons(ls: seq<string>)
    requires ls != []
    ensures Ended(ls) == ls[0] + "\n" + Ended(ls[1..])
  {
    if |ls| == 1 {
      assert ls == [] + [ls[0]] && ls[1..] == [];
      EndedSnoc([], ls[0]);
      assert Ended([]) == "";
    } else {
      hide Ended;
      var init, last := ls[..|ls| - 1], ls[|ls| - 1];
      var mid := init[1..];
      EndedCons(init);
      assert ls == init + [last] && ls[1..] == mid + [last];
      EndedSnoc(init, last);
      EndedSnoc(mid, last);
      Regroup(ls[0] + "\n", Ended(mid), last, "\n");
    }
  }

  lemma Regroup(a: string, b: string, c: string, d: string)
    ensures a + b + c + d == a + (b + c + d)
  {
  }

  lemma {:induction false} EndedIsUnlines(ls: seq<string>)
    requires ls != []
    ensures Ended(ls) == Unlines(ls) + "\n"
  {
    EndedCons(ls);
    if |ls| > 1 { EndedIsUnlines(ls[1..]); }
  }

  /** An ended text has its lines, and the empty one after its last newline. */
  lemma {:induction false} LinesOfEnded(ls: seq<string>)
    requires OneLiners(ls)
    ensures Lines(Ended(ls)) == ls + [""]
  {
    if ls != [] {
      EndedCons(ls);
      LinesOfEnded(ls[1..]);
      LinesOfCons(ls[0], Ended(ls[1..]));
    }
  }

  lemma BodyOfEnded(ls: seq<string>)
    requires OneLiners(ls) && ls != []
    ensures BodyLines(Ended(ls)) == ls
  {
    EndedIsUnlines(ls);
    assert Ended(ls)[..|Ended(ls)| - 1] == Unlines(ls);
    LinesUnlines(ls);
  }

  /** A text that ends its last line is its lines, each ended. */
  lemma EndedBody(v: string)
    requires EndsLine(v)
    ensures v == Ended(BodyLines(v)) && OneLiners(BodyLines(v))
  {
    var t := v[..|v| - 1];
    UnlinesLines(t);
    LinesAreOneLiners(t);
    EndedIsUnlines(Lines(t));
  }

  lemma StrippedEnded(ls: seq<string>)
    requires OneLiners(ls) && Kept(ls) != []
    ensures Stripped(Ended(ls)) == Ended(Kept(ls))
  {
    LinesOfEnded(ls);
    var all := ls + [""];
    assert all[..|ls|] == ls;
    assert !IsBullet("");
    assert Kept(all) == Kept(ls) + [""];
    UnlinesBlank(Kept(ls));
    EndedIsUnlines(Kept(ls));
  }

  lemma {:induction false} UnlinesBlank(ls: seq<string>)
    requires ls != []
    ensures Unlines(ls + [""]) == Unlines(ls) + "\n"
  {
    if |ls| > 1 {
      UnlinesBlank(ls[1..]);
      assert (ls + [""])[1..] == ls[1..] + [""];
    } else {
      assert (ls + [""])[1..] == [""];
    }
  }

  // ----- Neat texts: nothing for Normalize to do inside -----

  predicate Loose(c: char) {
    c == '\r' || c == ' ' || c == '\t'
  }

  predicate NeatLine(l: string) {
    l != "" ==> !Loose(l[|l| - 1])
  }

  predicate NeatAt(t: string, k: nat)
    requires k + 1 < |t|
  {
    t[k + 1] == '\n' ==> !Loose(t[k])
  }

  ghost predicate Neat(t: string) {
    forall k :: 0 <= k < |t| - 1 ==> NeatAt(t, k)
  }

  lemma NeatIsClean(t: string)
    requires EndsLine(t)
    ensures Neat(t) <==> EndClean(t) && !HasCrlf(t)
  {
    if EndClean(t) && !HasCrlf(t) {
      forall k | 0 <= k < |t| - 1 ensures NeatAt(t, k) {
        assert !IsCrlf(t, k);
      }
    }
    if Neat(t) {
      forall k | 0 <= k < |t| && IsBlank(t[k]) ensures k + 1 < |t| && t[k + 1] != '\n' {
        assert k < |t| - 1 ==> NeatAt(t, k);
      }
      forall k | 0 <= k < |t| - 1 ensures !IsCrlf(t, k) {
        assert NeatAt(t, k);
      }
    }
  }

  lemma NeatSnoc(t: string, l: string)
    requires '\n' !in l && (t == "" || EndsLine(t))
    ensures Neat(t + l + "\n") <==> Neat(t) && NeatLine(l)
  {
    hide Loose;
    var u := t + l + "\n";
    assert forall k :: 0 <= k < |t| ==> u[k] == t[k];
    assert forall k :: |t| <= k < |u| - 1 ==> u[k] == l[k - |t|];
    if Neat(u) {
      forall k | 0 <= k < |t| - 1 ensures NeatAt(t, k) { assert NeatAt(u, k); }
      if l != "" { assert NeatAt(u, |u| - 2); }
    }
    if Neat(t) && NeatLine(l) {
      forall k | 0 <= k < |u| - 1 ensures NeatAt(u, k) {
        if k < |t| - 1 { assert NeatAt(t, k); }
        else if k == |t| - 1 { NewlineIsTight(); }
        else if k < |u| - 2 { assert l[k + 1 - |t|] in l; }
      }
    }
  }

  lemma NewlineIsTight()
    ensures !Loose('\n')
  {
  }

  lemma {:induction false} NeatEnded(ls: seq<string>)
    requires OneLiners(ls)
    ensures Neat(Ended(ls)) <==> forall k :: 0 <= k < |ls| ==> NeatLine(ls[k])
  {
    hide NeatLine, NeatAt;
    if ls != [] {
      var init := ls[..|ls| - 1];
      NeatEnded(init);
      NeatSnoc(Ended(init), ls[|ls| - 1]);
      forall k | 0 <= k < |init| ensures init[k] == ls[k] {}
    }
  }

  // ----- Normalizing what is left -----

  /** The lines up to the last that is not empty. */
  function DropBlank(ls: seq<string>): seq<string> {
    if ls != [] && ls[|ls| - 1] == "" then DropBlank(ls[..|ls| - 1]) else ls
  }

  lemma BlankEnds(ls: seq<string>)
    requires ls != [] && ls[|ls| - 1] == ""
    ensures Ended(ls) == Ended(ls[..|ls| - 1]) + "" + "\n"
  {
  }

  lemma SpaceSnoc(t: string)
    requires AllSpace(t)
    ensures AllSpace(t + "\n")
  {
  }

  lemma {:induction false} DropBlankEnded(ls: seq<string>) returns (blanks: string)
    ensures Ended(ls) == Ended(DropBlank(ls)) + blanks && AllSpace(blanks)
    ensures DropBlank(ls) <= ls && (ls != [] && ls[0] != "" ==> DropBlank(ls) != [])
    ensures DropBlank(ls) != [] ==> DropBlank(ls)[|DropBlank(ls)| - 1] != ""
  {
    blanks := "";
    if ls != [] && ls[|ls| - 1] == "" {
      var init := ls[..|ls| - 1];
      var more := DropBlankEnded(init);
      blanks := more + "\n";
      hide AllSpace, Ended;
      assert Ended(ls) == Ended(init) + "" + "\n" by { BlankEnds(ls); }
      assert AllSpace(blanks) by { SpaceSnoc(more); }
    }
  }

  /** The last line as trimming the text leaves it. */
  function Trimmed1(ls: seq<string>): seq<string>
    requires ls != []
  {
    ls[..|ls| - 1] + [TrimRight(ls[|ls| - 1])]
  }

  lemma {:induction false} EndedStart(ls: seq<string>)
    requires ls != [] && ls[0] != ""
    ensures Ended(ls) != "" && Ended(ls)[0] == ls[0][0]
  {
    EndedCons(ls);
  }

  lemma TrimPieces(init: string, last: string, blanks: string)
    requires last != "" && !IsSpace(last[0]) && (init != "" ==> !IsSpace(init[0])) && AllSpace(blanks)
    ensures TrimSpace(init + last + "\n" + blanks) == init + TrimRight(last)
  {
    var k := TrimRightAt(last);
    hide TrimSpace, TrimRight;
    var body, tail := init + last[..k], last[k..] + "\n" + blanks;
    assert init + last + "\n" + blanks == "" + body + tail;
    assert body[|body| - 1] == last[k - 1] && body[0] == if init == "" then last[0] else init[0];
    SpaceSnoc(last[k..]);
    SpaceAdd(last[k..] + "\n", blanks);
    TrimSpaceOf("", body, tail);
  }

  /** Trimming an ended text that starts with neither a blank line nor white space, and whose last
      full line does not start with white space. */
  lemma TrimEnded(ls: seq<string>)
    requires ls != [] && ls[0] != "" && !IsSpace(ls[0][0])
    requires var full := DropBlank(ls); full != [] ==> full[|full| - 1] != "" && !IsSpace(full[|full| - 1][0])
    ensures DropBlank(ls) != [] && TrimSpace(Ended(ls)) + "\n" == Ended(Trimmed1(DropBlank(ls)))
  {
    var blanks := DropBlankEnded(ls);
    var full := DropBlank(ls);
    var init, last := full[..|full| - 1], full[|full| - 1];
    hide DropBlank, TrimSpace, TrimRight, IsSpace;
    if init != [] {
      assert init[0] == ls[0];
      EndedStart(init);
    }
    assert Ended(full) == Ended(init) + last + "\n";
    hide Ended;
    assert init == [] ==> Ended(init) == "" by { EndedNothing(); }
    TrimPieces(Ended(init), last, blanks);
    EndedSnoc(init, TrimRight(last));
  }

  lemma EndedNothing()
    ensures Ended([]) == ""
  {
  }

  lemma SpaceAdd(a: string, b: string)
    requires AllSpace(a) && AllSpace(b)
    ensures AllSpace(a + b)
  {
    hide IsSpace;
  }

  // ----- Counting bytes -----

  lemma {:induction false} BytesAdd(a: string, b: string)
    ensures Bytes(a + b) == Bytes(a) + Bytes(b)
  {
    if b == "" {
      assert a + b == a;
    } else {
      BytesAdd(a, b[..|b| - 1]);
      assert (a + b)[..|a + b| - 1] == a + b[..|b| - 1];
    }
  }

  lemma EndedBytes(ls: seq<string>, l: string)
    ensures Bytes(Ended(ls + [l])) == Bytes(Ended(ls)) + Bytes(l + "\n")
  {
    hide Bytes;
    EndedSnoc(ls, l);
    BytesAdd(Ended(ls), l + "\n");
    assert Ended(ls) + l + "\n" == Ended(ls) + (l + "\n");
  }

  lemma KeptSnoc(ls: seq<string>, l: string)
    ensures Kept(ls + [l]) == Kept(ls) + if IsExample(l) then [] else [l]
  {
    hide IsExample;
    assert (ls + [l])[..|ls|] == ls;
  }

  lemma {:induction false} KeptBytes(ls: seq<string>)
    ensures Bytes(Ended(Kept(ls))) <= Bytes(Ended(ls))
  {
    if ls != [] {
      hide IsExample, Bytes, Ended, Kept;
      var init, last := ls[..|ls| - 1], ls[|ls| - 1];
      assert init + [last] == ls;
      KeptBytes(init);
      EndedBytes(init, last);
      KeptSnoc(init, last);
      if IsExample(last) { assert Kept(init) + [] == Kept(init); } else { EndedBytes(Kept(init), last); }
    } else {
      assert Kept(ls) == [];
    }
  }

  // ----- Reading the lines that are left -----

  lemma ReadSnoc(ls: seq<string>, l: string)
    requires ls != []
    ensures ReadLines(ls + [l]) == if ReadLines(ls).Stuck? then ReadLines(ls) else ReadLine(ReadLines(ls), l, |ls| + 1)
  {
    hide ReadLine;
    assert (ls + [l])[..|ls|] == ls;
  }

  /** A line that is read leaves the same state whatever its number. */
  lemma AnyNumber(r: Reading, l: string, n: nat, m: nat)
    requires r.Reading? && ReadLine(r, l, n).Reading?
    ensures ReadLine(r, l, m) == ReadLine(r, l, n)
  {
  }

  lemma BulletKeeps(r: Reading, l: string, n: nat)
    requires r.Reading? && (IsBullet(l) || l == "")
    ensures ReadLine(r, l, n) == r
  {
    if l != "" { BulletHead(l); }
    if HasPrefix(l, "#") { PrefixHead(l, "#"); }
    if HasPrefix(l, "|") { PrefixHead(l, "|"); }
    if IsHeading(l) { PrefixHead(l, "## "); }
    hide HasPrefix;
  }

  lemma BulletOrNot(l: string)
    ensures IsBullet(l) ==> |l| >= 2 && (l[0] == '-' || l[0] == '*') && l[1] == ' '
  {
    if IsBullet(l) { BulletHead(l); }
  }

  lemma BulletHead(l: string)
    requires IsBullet(l)
    ensures |l| >= 2 && (l[0] == '-' || l[0] == '*') && l[1] == ' '
  {
    assert l[..2][0] == l[0] && l[..2][1] == l[1];
  }

  /** Leaving out bullets does not change where the reading ends. */
  lemma {:induction false} ReadKept(ls: seq<string>)
    requires ls != [] && ReadLines(ls).Reading? && !IsBullet(ls[0])
    ensures Kept(ls) != [] && Kept(ls)[0] == ls[0] && ReadLines(Kept(ls)) == ReadLines(ls)
  {
    hide IsBullet, ReadLine, TrimSpace;
    if |ls| == 1 {
      assert ls[..0] == [];
    } else {
      var init, last := ls[..|ls| - 1], ls[|ls| - 1];
      ReadKept(init);
      if IsExample(last) {
        BulletKeeps(ReadLines(init), last, |ls|);
        assert Kept(ls) == Kept(init);
      } else {
        ReadSnoc(Kept(init), last);
        AnyNumber(ReadLines(init), last, |ls|, |Kept(init)| + 1);
      }
    }
  }

  lemma {:induction false} ReadDropBlank(ls: seq<string>)
    requires ls != [] && ls[0] != "" && ReadLines(ls).Reading?
    ensures DropBlank(ls) != [] && DropBlank(ls)[0] == ls[0] && ReadLines(DropBlank(ls)) == ReadLines(ls)
  {
    hide ReadLine;
    if ls[|ls| - 1] == "" {
      var init := ls[..|ls| - 1];
      BulletKeeps(ReadLines(init), "", |ls|);
      ReadDropBlank(init);
    }
  }

  /** Before the first heading no section is known, and after it one is. */
  lemma {:induction false} InSection(ls: seq<string>)
    requires ls != [] && ReadLines(ls).Reading?
    ensures ReadLines(ls).section == "" <==> ReadLines(ls).seen == {}
  {
    hide SECTIONS, TrimSpace;
    SectionsAreNamed();
    if |ls| > 1 { InSection(ls[..|ls| - 1]); }
  }

  /** A bullet with nothing on it but white space that `TrimRight(line, " \t")` leaves. */
  predicate Textless(l: string) {
    IsBullet(l) && TrimSpace(l[2..]) == ""
  }

  /** The end of a line that has something after its first `n` characters. */
  lemma TrimRightAfter(l: string, n: nat) returns (k: nat)
    requires n <= |l|
    ensures k <= |l| && TrimRight(l) == l[..k] && AllSpace(l[k..])
    ensures TrimSpace(l[n..]) != "" ==> k > n && TrimSpace(l[..k][n..]) == TrimSpace(l[n..])
    ensures TrimSpace(l[n..]) == "" ==> k <= n || l[n..] == ""
  {
    k := TrimRightAt(l);
    var rest := l[n..];
    assert forall m :: n <= m < |l| ==> rest[m - n] == l[m];
    var i, j := TrimSpaceSplits(rest);
    if i < j {
      assert rest[j - 1] == l[n + j - 1];
      assert k == n + j;
      assert AllSpace(rest[..i]) && Trimmed(rest[i..j]);
      hide TrimSpace, TrimRight, IsSpace, AllSpace, Trimmed;
      assert l[..k][n..] == rest[..j];
      assert rest[..j] == rest[..i] + rest[i..j] + "";
      TrimSpaceOf(rest[..i], rest[i..j], "");
    }
  }

  lemma HeadingTrims(l: string)
    requires IsHeading(l) && Name(l) != ""
    ensures IsHeading(TrimRight(l)) && Name(TrimRight(l)) == Name(l)
  {
    var k := TrimRightAfter(l, 3);
    assert l[..k][..3] == l[..3];
  }

  lemma BulletTrims(l: string)
    requires IsBullet(l)
    ensures Textless(l) ==> |TrimRight(l)| == 1 && (TrimRight(l) == "-" || TrimRight(l) == "*")
    ensures !Textless(l) ==> IsBullet(TrimRight(l))
  {
    BulletHead(l);
    var k := TrimRightAfter(l, 2);
    var m := TrimRightAt(l);
    assert l[..k] == l[..m];
    if Textless(l) {
      assert m == 1;
      assert l[..1] == [l[0]];
    } else {
      assert l[..k][..2] == l[..2];
    }
  }

  /** Trimming the last line does not change how it is read, unless it is a textless bullet in a
      section: that is then no bullet. */
  lemma LastLineReads(r: Reading, l: string, n: nat)
    requires r.Reading? && ReadLine(r, l, n).Reading? && l != ""
    requires ReadLine(r, l, n).section != "" && "" !in SECTIONS
    ensures IsHeading(l) || IsBullet(l)
    ensures ReadLine(r, TrimRight(l), n).Stuck? <==> Textless(l)
    ensures !Textless(l) ==> ReadLine(r, TrimRight(l), n) == ReadLine(r, l, n)
    ensures !IsSpace(l[0])
  {
    hide SECTIONS, TrimSpace, TrimRight;
    if IsHeading(l) {
      PrefixHead(l, "## ");
      HeadingTrims(l);
      BulletOrNot(l);
    } else {
      BulletOrNot(l);
      BulletTrims(l);
      if !Textless(l) {
        BulletKeeps(r, l, n);
        BulletKeeps(r, TrimRight(l), n);
      }
    }
  }

  /** Line `k` is the last that is neither empty nor a placeholder. */
  ghost predicate LastWords(ls: seq<string>, k: nat) {
    && k < |ls| && ls[k] != "" && !IsExample(ls[k])
    && forall j :: k < j < |ls| ==> ls[j] == "" || IsExample(ls[j])
  }

  ghost predicate EndsTextless(ls: seq<string>) {
    exists k: nat :: LastWords(ls, k) && Textless(ls[k])
  }

  /** The last line of a profile that is neither empty nor a placeholder is a textless bullet. */
  ghost predicate Dangling(v: string) {
    EndsTextless(BodyLines(v))
  }

  lemma WordsStep(ls: seq<string>)
    requires ls != []
    ensures var init, last := ls[..|ls| - 1], ls[|ls| - 1];
            EndsTextless(ls) <==> if last == "" || IsExample(last) then EndsTextless(init) else Textless(last)
  {
    hide IsExample, Textless;
    var init, n := ls[..|ls| - 1], |ls| - 1;
    assert forall j :: 0 <= j < n ==> init[j] == ls[j];
    if EndsTextless(ls) {
      var k: nat :| LastWords(ls, k) && Textless(ls[k]);
      assert k < n ==> LastWords(init, k);
    }
    if EndsTextless(init) && (ls[n] == "" || IsExample(ls[n])) {
      var k: nat :| LastWords(init, k) && Textless(init[k]);
      assert LastWords(ls, k);
    }
    if ls[n] != "" && !IsExample(ls[n]) { assert LastWords(ls, n); }
  }

  /** It is the last full line of what is kept. */
  lemma {:induction false} EndsAsKept(ls: seq<string>)
    ensures var full := DropBlank(Kept(ls));
            EndsTextless(ls) <==> full != [] && Textless(full[|full| - 1])
  {
    hide IsExample, Textless, EndsTextless;
    if ls != [] {
      var init, last := ls[..|ls| - 1], ls[|ls| - 1];
      EndsAsKept(init);
      WordsStep(ls);
      if IsExample(last) {
        assert Kept(ls) == Kept(init);
      } else {
        assert Kept(ls)[..|Kept(ls)| - 1] == Kept(init);
      }
    } else {
      assert !EndsTextless([]) by { NothingEnds(); }
    }
  }

  lemma NothingEnds()
    ensures !EndsTextless([])
  {
  }

  lemma TrimmedBytes(ls: seq<string>)
    requires ls != []
    ensures Bytes(Ended(Trimmed1(ls))) <= Bytes(Ended(ls))
  {
    var init, last := ls[..|ls| - 1], ls[|ls| - 1];
    var k := TrimRightSplits(last);
    hide Bytes, Ended;
    assert init + [last] == ls && last == last[..k] + last[k..];
    EndedBytes(init, last);
    EndedBytes(init, last[..k]);
    BytesAdd(last[..k], last[k..]);
    BytesAdd(last, "\n");
    BytesAdd(last[..k], "\n");
  }

  /** The lines an accepted profile leaves the model: what is known of them. */
  lemma LeftOver(v: string) returns (kept: seq<string>)
    requires Check(v) == Accepted(v) && Normalized(v) == v
    ensures kept == Kept(BodyLines(v)) && kept != [] && OneLiners(kept) && Stripped(v) == Ended(kept)
    ensures forall k :: 0 <= k < |kept| ==> NeatLine(kept[k])
    ensures IsTitle(kept[0]) && ReadLines(kept).Reading? && Missing(ReadLines(kept).seen, 0).None?
    ensures Bytes(Ended(kept)) <= MAX_BYTES
  {
    var ls := BodyLines(v);
    NormalizedIsClean(v);
    NormalizedIsFixed(v);
    EndedBody(v);
    NeatIsClean(v);
    NeatEnded(ls);
    BulletOrNot(ls[0]);
    ReadKept(ls);
    KeptAreKept(ls);
    KeptOneLiners(ls);
    StrippedEnded(ls);
    KeptBytes(ls);
    kept := Kept(ls);
    hide NeatLine;
    forall k | 0 <= k < |kept| ensures NeatLine(kept[k]) {
      assert kept[k] in ls;
    }
  }

  /** What Normalize makes of the lines that are left. */
  lemma NormalizedLeftOver(kept: seq<string>)
    requires kept != [] && OneLiners(kept) && (forall k :: 0 <= k < |kept| ==> NeatLine(kept[k]))
    requires kept[0] != "" && !IsSpace(kept[0][0])
    requires var full := DropBlank(kept); full != [] ==> full[|full| - 1] != "" && !IsSpace(full[|full| - 1][0])
    ensures DropBlank(kept) != [] && Normalized(Ended(kept)) == Ended(Trimmed1(DropBlank(kept)))
    ensures BodyLines(Ended(Trimmed1(DropBlank(kept)))) == Trimmed1(DropBlank(kept))
  {
    hide DropBlank, Ended, Normalized, TrimSpace, NeatLine, Unlines;
    NeatEnded(kept);
    EndedIsUnlines(kept);
    NormalizedNeat(Ended(kept));
    TrimEnded(kept);
    var blanks := DropBlankEnded(kept);
    TrimmedOneLiners(kept, DropBlank(kept));
    BodyOfEnded(Trimmed1(DropBlank(kept)));
  }

  lemma NormalizedNeat(t: string)
    requires EndsLine(t) && Neat(t)
    ensures Normalized(t) == TrimSpace(t) + "\n"
  {
    NeatIsClean(t);
    CrlfShrinks(t);
    CleanIsFixed(t);
  }

  lemma TrimmedOneLiners(kept: seq<string>, full: seq<string>)
    requires OneLiners(kept) && full <= kept && full != []
    ensures OneLiners(Trimmed1(full))
  {
    assert forall i :: 0 <= i < |full| ==> full[i] == kept[i];
    var k := TrimRightAt(full[|full| - 1]);
    hide TrimRight;
  }

  /** What follows the title, when every section has its heading. */
  lemma FullLines(kept: seq<string>) returns (r: Reading, last: string)
    requires kept != [] && IsTitle(kept[0]) && ReadLines(kept).Reading? && Missing(ReadLines(kept).seen, 0).None?
    ensures var full := DropBlank(kept);
            && |full| > 1 && full[0] == kept[0] && last == full[|full| - 1] && last != ""
            && r == ReadLines(full[..|full| - 1]) && r.Reading?
            && ReadLine(r, last, |full|) == ReadLines(kept) && ReadLines(kept).section != ""
  {
    var full := DropBlank(kept);
    ReadDropBlank(kept);
    var blanks := DropBlankEnded(kept);
    InSection(kept);
    MissingMeans(ReadLines(kept).seen, 0);
    assert SECTIONS[0] in ReadLines(kept).seen;
    hide DropBlank, SECTIONS, ReadLine;
    r, last := ReadLines(full[..|full| - 1]), full[|full| - 1];
  }

  /** What the model sees of an accepted profile is an acceptable profile exactly when the last line
      of the profile that is neither empty nor a placeholder is not a textless bullet: only the
      placeholders after it kept that one from being trimmed. */
  lemma StrippedIsAccepted(v: string)
    requires Check(v) == Accepted(v) && Normalized(v) == v
    ensures Check(Normalized(Stripped(v))).Accepted? <==> !Dangling(v)
  {
    EndsAsKept(BodyLines(v));
    hide Normalized, Missing, BodyLines, Bytes, ReadLine, Lines, Unlines, Ended, TrimRight, TrimSpace;
    hide DropBlank, Kept, OneLiners, EndsTextless;
    var kept := LeftOver(v);
    var r, last := FullLines(kept);
    var full := DropBlank(kept);
    SectionsAreNamed();
    hide SECTIONS;
    LastLineReads(r, last, |full|);
    NormalizedLeftOver(kept) by { TitleStarts(kept[0]); }
    var left := Trimmed1(full);
    var blanks := DropBlankEnded(kept);
    BytesAdd(Ended(full), blanks);
    TrimmedBytes(full);
    assert left[0] == kept[0];
    ReadSnoc(full[..|full| - 1], TrimRight(last));
    assert ReadLines(left) == ReadLine(r, TrimRight(last), |full|);
  }

  lemma TitleStarts(l: string)
    requires IsTitle(l)
    ensures l != "" && !IsSpace(l[0])
  {
    assert TITLE[0] == '#' && Folds(l[0], TITLE[0]);
  }

  // ----- A profile that stops being one -----

  const EMPTY_BULLET := "- \U{00A0}"
  const PLACEHOLDER := "- (example: x)"

  function Heading(i: nat): string
    requires i < |SECTIONS|
  {
    "## " + SECTIONS[i]
  }

  function Headings(n: nat): seq<string>
    requires n <= |SECTIONS|
  {
    if n == 0 then [TITLE] else Headings(n - 1) + [Heading(n - 1)]
  }

  /** The four headings, a bullet holding a no-break space, and a placeholder. */
  function Sample(): seq<string> {
    Headings(4) + [EMPTY_BULLET] + [PLACEHOLDER]
  }

  lemma HeadingLine(i: nat)
    requires i < |SECTIONS|
    ensures IsHeading(Heading(i)) && Name(Heading(i)) == SECTIONS[i] && NeatLine(Heading(i)) && '\n' !in Heading(i)
    ensures !IsBullet(Heading(i)) && Heading(i) != "" && |Heading(i)| <= 30
  {
    var l := Heading(i);
    assert l[..3] == "## " && l[3..] == SECTIONS[i];
    assert Trimmed(SECTIONS[i]) && '\n' !in SECTIONS[i] && 0 < |SECTIONS[i]| <= 24;
    assert l[|l| - 1] == SECTIONS[i][|SECTIONS[i]| - 1];
    TrimmedIsFixed(SECTIONS[i]);
    BulletOrNot(l);
  }

  lemma SectionsDiffer(i: nat, j: nat)
    requires i < j < |SECTIONS|
    ensures SECTIONS[i] != SECTIONS[j]
  {
    assert SECTIONS[0][9] == 'w' && SECTIONS[1][9] == 's';
  }

  predicate PlainLine(l: string) {
    NeatLine(l) && '\n' !in l && !IsBullet(l) && l != "" && |l| <= 30
  }

  lemma {:induction false} HeadingsArePlain(n: nat)
    requires n <= |SECTIONS|
    ensures |Headings(n)| == n + 1 && Headings(n)[0] == TITLE
    ensures forall k :: 0 <= k < |Headings(n)| ==> PlainLine(Headings(n)[k])
  {
    hide PlainLine, SECTIONS, Heading, TITLE;
    if n > 0 {
      HeadingsArePlain(n - 1);
      HeadingIsPlain(n - 1);
    } else {
      TitleIsPlain();
    }
  }

  lemma TitleIsPlain()
    ensures PlainLine(TITLE)
  {
    BulletOrNot(TITLE);
  }

  lemma HeadingIsPlain(i: nat)
    requires i < |SECTIONS|
    ensures PlainLine(Heading(i))
  {
    HeadingLine(i);
  }

  /** The sections met are the first `n`. */
  ghost predicate Met(r: Reading, n: nat) {
    r.Reading? && forall k :: 0 <= k < |SECTIONS| ==> (SECTIONS[k] in r.seen <==> k < n)
  }

  lemma MeetNext(r: Reading, i: nat, n: nat)
    requires i < |SECTIONS| && Met(r, i)
    ensures Met(ReadLine(r, Heading(i), n), i + 1)
  {
    HeadingLine(i);
    assert SECTIONS[i] in SECTIONS && SECTIONS[i] !in r.seen;
    forall k | 0 <= k < |SECTIONS| && k != i ensures SECTIONS[k] != SECTIONS[i] {
      if k < i { SectionsDiffer(k, i); } else { SectionsDiffer(i, k); }
    }
    hide SECTIONS, Heading, TrimSpace;
  }

  lemma {:induction false} HeadingsRead(n: nat)
    requires n <= |SECTIONS|
    ensures Headings(n) != [] && Met(ReadLines(Headings(n)), n)
  {
    if n > 0 {
      HeadingsRead(n - 1);
      hide SECTIONS, Heading, Met, ReadLine;
      ReadSnoc(Headings(n - 1), Heading(n - 1));
      assert ReadLines(Headings(n - 1)).Reading? by { MetIsReading(ReadLines(Headings(n - 1)), n - 1); }
      MeetNext(ReadLines(Headings(n - 1)), n - 1, n + 1);
      assert |Headings(n - 1)| == n by { HeadingsArePlain(n - 1); }
    }
  }

  lemma MetIsReading(r: Reading, n: nat)
    requires Met(r, n)
    ensures r.Reading?
  {
  }

  lemma BulletLines()
    ensures IsBullet(EMPTY_BULLET) && NeatLine(EMPTY_BULLET) && '\n' !in EMPTY_BULLET
    ensures Textless(EMPTY_BULLET) && !IsExample(EMPTY_BULLET)
    ensures IsBullet(PLACEHOLDER) && NeatLine(PLACEHOLDER) && '\n' !in PLACEHOLDER && IsExample(PLACEHOLDER)
    ensures PLACEHOLDER[|PLACEHOLDER| - 1] == ')'
  {
    assert EMPTY_BULLET[2..] == "" + "" + "\U{00A0}";
    TrimSpaceOf("", "", "\U{00A0}");
    var rest := PLACEHOLDER[2..];
    assert rest == "(example: x)" && rest[..|EXAMPLE|] == EXAMPLE;
    TrimmedIsFixed(rest);
  }

  lemma {:induction false} FewBytes(t: string)
    ensures Bytes(t) <= 4 * |t|
  {
    if t != "" { FewBytes(t[..|t| - 1]); }
  }

  lemma {:induction false} EndedLength(ls: seq<string>)
    requires forall k :: 0 <= k < |ls| ==> |ls[k]| <= 30
    ensures |Ended(ls)| <= 31 * |ls|
  {
    if ls != [] { EndedLength(ls[..|ls| - 1]); }
  }

  lemma SampleLines()
    ensures var ls := Sample();
            && |ls| == 7 && ls[0] == TITLE && OneLiners(ls)
            && (forall k :: 0 <= k < |ls| ==> NeatLine(ls[k]) && |ls[k]| <= 30)
            && Kept(ls) == Headings(4) + [EMPTY_BULLET]
  {
    HeadingsArePlain(4);
    BulletLines();
    assert |EMPTY_BULLET| <= 30 && |PLACEHOLDER| <= 30;
    hide Headings, TrimSpace, IsBullet, NeatLine, Kept, HasPrefix;
    LastIsExample(Headings(4), EMPTY_BULLET, PLACEHOLDER);
  }

  lemma LastIsExample(heads: seq<string>, a: string, b: string)
    requires forall k :: 0 <= k < |heads| ==> !IsBullet(heads[k])
    requires !IsExample(a) && IsExample(b)
    ensures Kept(heads + [a] + [b]) == heads + [a]
  {
    hide Kept, IsBullet, HasPrefix, TrimSpace;
    var ls := heads + [a];
    KeptSnoc(ls, b);
    assert ls + [] == ls;
    NothingToDrop(ls);
  }

  lemma BulletsRead(heads: seq<string>, a: string, b: string)
    requires heads != [] && ReadLines(heads).Reading? && IsBullet(a) && IsBullet(b)
    ensures ReadLines(heads + [a] + [b]) == ReadLines(heads)
  {
    var r := ReadLines(heads);
    hide ReadLine, IsBullet;
    ReadSnoc(heads, a);
    BulletKeeps(r, a, |heads| + 1);
    ReadSnoc(heads + [a], b);
    BulletKeeps(r, b, |heads| + 2);
  }

  lemma SampleReads()
    ensures Sample() != [] && Met(ReadLines(Sample()), 4)
  {
    hide ReadLines, Met, IsBullet, TrimSpace, NeatLine;
    HeadingsRead(4);
    BulletLines();
    MetIsReading(ReadLines(Headings(4)), 4);
    BulletsRead(Headings(4), EMPTY_BULLET, PLACEHOLDER);
  }

  /** A text whose first and last lines are full has nothing to trim. */
  lemma TrimSpaceEnded(init: seq<string>, last: string)
    requires init != [] && init[0] != "" && !IsSpace(init[0][0])
    requires last != "" && !IsSpace(last[0]) && !IsSpace(last[|last| - 1])
    ensures TrimSpace(Ended(init + [last])) + "\n" == Ended(init + [last])
  {
    hide Ended, TrimSpace;
    EndedSnoc(init, last);
    EndedStart(init);
    TrimPieces(Ended(init), last, "");
    assert Ended(init) + last + "\n" + "" == Ended(init + [last]);
    TrimRightKeeps(last);
  }

  /** A text of neat lines that starts and ends in full ones is normal. */
  lemma NormalEnded(init: seq<string>, last: string)
    requires init != [] && init[0] != "" && !IsSpace(init[0][0])
    requires last != "" && !IsSpace(last[0]) && !IsSpace(last[|last| - 1])
    requires OneLiners(init + [last]) && forall k :: 0 <= k <= |init| ==> NeatLine((init + [last])[k])
    ensures Normalized(Ended(init + [last])) == Ended(init + [last])
  {
    var ls := init + [last];
    hide Ended, Normalized, TrimSpace, NeatLine;
    NeatEnded(ls);
    EndedIsUnlines(ls);
    NormalizedNeat(Ended(ls));
    TrimSpaceEnded(init, last);
  }

  lemma SampleIsNormal()
    ensures Normalized(Ended(Sample())) == Ended(Sample())
  {
    SampleLines();
    BulletLines();
    HeadingsArePlain(4);
    TitleStarts(TITLE);
    hide Ended, Normalized, TrimSpace, NeatLine, Kept, IsBullet, Headings;
    NormalEnded(Headings(4) + [EMPTY_BULLET], PLACEHOLDER);
  }

  lemma TrimRightKeeps(l: string)
    requires l != "" && !IsSpace(l[|l| - 1])
    ensures TrimRight(l) == l
  {
  }

  /** Few short lines that bring every section make an accepted text. */
  lemma AcceptedLines(ls: seq<string>)
    requires 0 < |ls| <= 30 && OneLiners(ls) && forall k :: 0 <= k < |ls| ==> |ls[k]| <= 30
    requires IsTitle(ls[0]) && Met(ReadLines(ls), 4)
    ensures Check(Ended(ls)) == Accepted(Ended(ls))
  {
    EndedLength(ls);
    FewBytes(Ended(ls));
    BodyOfEnded(ls);
    MissingMeans(ReadLines(ls).seen, 0);
    assert |SECTIONS| == 4;
    hide Ended, ReadLines, BodyLines, Bytes, SECTIONS, IsTitle;
  }

  lemma SampleEnds()
    ensures EndsTextless(Sample())
  {
    HeadingsArePlain(4);
    BulletLines();
    hide Headings, IsExample, Textless, IsBullet, TrimSpace;
    var ls := Sample();
    assert ls[5] == EMPTY_BULLET && ls[6] == PLACEHOLDER && |ls| == 7;
    assert LastWords(ls, 5);
  }

  /** This profile is accepted as it stands, and what the model sees of it is not: once the
      placeholder is gone, the no-break space before it is trimmed and leaves a bare dash. */
  lemma SampleIsLost()
    ensures var v := Ended(Sample());
            && Normalized(v) == v && Check(v) == Accepted(v) && Dangling(v)
            && !Check(Normalized(Stripped(v))).Accepted?
  {
    var ls := Sample();
    SampleLines();
    SampleReads();
    SampleIsNormal();
    BulletLines();
    assert IsTitle(TITLE);
    SampleEnds();
    hide Sample, Ended, Normalized, TrimSpace, NeatLine, ReadLines, BodyLines, IsTitle, Met, Check, EndsTextless;
    AcceptedLines(ls);
    BodyOfEnded(ls);
    StrippedIsAccepted(Ended(ls));
  }
}
