/** The preference profile (internal/preferences/profile.go): how a text is normalized, which texts
    are accepted, and what the model sees of one. */
module Profile {
  import opened Counting
  import opened Text

  // ----- Lines -----

  /** `strings.Split(t, "\n")`. */
  function Lines(t: string): (ls: seq<string>)
    ensures |ls| >= 1
  {
    if t == "" then [""]
    else
      var ls := Lines(t[1..]);
      if t[0] == '\n' then [""] + ls else [[t[0]] + ls[0]] + ls[1..]
  }

  /** `strings.Join(ls, "\n")`. */
  function Unlines(ls: seq<string>): string {
    if ls == [] then "" else if |ls| == 1 then ls[0] else ls[0] + "\n" + Unlines(ls[1..])
  }

  lemma {:induction false} UnlinesLines(t: string)
    ensures Unlines(Lines(t)) == t
  {
    if t != "" {
      UnlinesLines(t[1..]);
      var ls := Lines(t[1..]);
      if t[0] == '\n' {
        assert Lines(t)[1..] == ls;
      } else {
        assert Lines(t)[1..] == ls[1..];
      }
    }
  }

  lemma {:induction false} LinesOfLine(l: string)
    requires '\n' !in l
    ensures Lines(l) == [l]
  {
    if l != "" {
      LinesOfLine(l[1..]);
      assert l[0] in l && l == [l[0]] + l[1..];
    }
  }

  lemma {:induction false} LinesOfCons(l: string, t: string)
    requires '\n' !in l
    ensures Lines(l + "\n" + t) == [l] + Lines(t)
  {
    var u := l + "\n" + t;
    if l == "" {
      assert u[1..] == t;
    } else {
      LinesOfCons(l[1..], t);
      assert u[1..] == l[1..] + "\n" + t;
      assert l == [l[0]] + l[1..];
    }
  }

  ghost predicate OneLiners(ls: seq<string>) {
    forall k :: 0 <= k < |ls| ==> '\n' !in ls[k]
  }

  lemma {:induction false} LinesUnlines(ls: seq<string>)
    requires ls != [] && OneLiners(ls)
    ensures Lines(Unlines(ls)) == ls
  {
    if |ls| == 1 {
      LinesOfLine(ls[0]);
    } else {
      LinesUnlines(ls[1..]);
      LinesOfCons(ls[0], Unlines(ls[1..]));
    }
  }

  lemma {:induction false} LinesAreOneLiners(t: string)
    ensures OneLiners(Lines(t))
  {
    if t != "" { LinesAreOneLiners(t[1..]); }
  }

  // ----- Normalize -----

  /** `strings.ReplaceAll(t, "\r\n", "\n")`. */
  function Crlf(t: string): string {
    if t == "" then ""
    else if |t| >= 2 && t[0] == '\r' && t[1] == '\n' then "\n" + Crlf(t[2..])
    else [t[0]] + Crlf(t[1..])
  }

  predicate HasCrlf(t: string) {
    exists k :: 0 <= k < |t| - 1 && IsCrlf(t, k)
  }

  predicate IsCrlf(t: string, k: nat)
    requires k + 1 < |t|
  {
    t[k] == '\r' && t[k + 1] == '\n'
  }

  predicate IsBlank(c: char) {
    c == ' ' || c == '\t'
  }

  /** `strings.TrimRight(l, " \t")`. */
  function TrimEnd(l: string): string {
    if l != "" && IsBlank(l[|l| - 1]) then TrimEnd(l[..|l| - 1]) else l
  }

  /** The text without the blanks before a newline or the end. */
  function TrimLines(t: string): string {
    if t == "" then ""
    else
      var rest := TrimLines(t[1..]);
      if IsBlank(t[0]) && (rest == "" || rest[0] == '\n') then rest else [t[0]] + rest
  }

  function Normalized(t: string): string {
    TrimSpace(TrimLines(Crlf(t))) + "\n"
  }

  lemma {:induction false} TrimEndIsTrimLines(l: string)
    requires '\n' !in l
    ensures TrimEnd(l) == TrimLines(l)
  {
    if l != "" {
      if IsBlank(l[|l| - 1]) {
        TrimEndIsTrimLines(l[..|l| - 1]);
        DropLastBlank(l);
      } else {
        KeepLast(l);
      }
    }
  }

  lemma {:induction false} DropLastBlank(l: string)
    requires l != "" && IsBlank(l[|l| - 1]) && '\n' !in l
    ensures TrimLines(l) == TrimLines(l[..|l| - 1])
  {
    if |l| > 1 {
      DropLastBlank(l[1..]);
      assert l[1..][..|l| - 2] == l[..|l| - 1][1..];
    } else {
      assert l[1..] == "" && l[..0] == "";
    }
  }

  lemma {:induction false} KeepLast(l: string)
    requires l != "" && !IsBlank(l[|l| - 1]) && '\n' !in l
    ensures TrimLines(l) == l
  {
    if |l| > 1 { KeepLast(l[1..]); } else { assert l[1..] == ""; }
  }

  /** Trimming line by line is trimming the text. */
  lemma {:induction false} TrimLinesOfCons(l: string, t: string)
    requires '\n' !in l
    ensures TrimLines(l + "\n" + t) == TrimLines(l) + "\n" + TrimLines(t)
  {
    var u := l + "\n" + t;
    if l == "" {
      assert u[1..] == t;
    } else {
      TrimLinesOfCons(l[1..], t);
      assert u[1..] == l[1..] + "\n" + t;
    }
  }

  lemma {:induction false} TrimLinesOfLines(ls: seq<string>, ts: seq<string>)
    requires OneLiners(ls) && |ts| == |ls| && forall k :: 0 <= k < |ls| ==> ts[k] == TrimEnd(ls[k])
    ensures TrimLines(Unlines(ls)) == Unlines(ts)
  {
    if ls != [] {
      TrimEndIsTrimLines(ls[0]);
      if |ls| > 1 {
        TrimLinesOfLines(ls[1..], ts[1..]);
        TrimLinesOfCons(ls[0], Unlines(ls[1..]));
      }
    }
  }

  method Normalize(text: string) returns (r: string)
    ensures r == Normalized(text)
  {
    hide TrimSpace, Crlf, TrimEnd, TrimLines;
    var lines := Lines(Crlf(text));
    ghost var before := lines;
    var i := 0;
    while i < |lines|
      invariant i <= |lines| == |before|
      invariant forall k :: 0 <= k < i ==> lines[k] == TrimEnd(before[k])
      invariant forall k :: i <= k < |lines| ==> lines[k] == before[k]
    {
      lines := lines[i := TrimEnd(lines[i])];
      i := i + 1;
    }
    LinesAreOneLiners(Crlf(text));
    UnlinesLines(Crlf(text));
    TrimLinesOfLines(before, lines);
    r := TrimSpace(Unlines(lines)) + "\n";
  }

  // ----- The fixed point -----

  /** No blank stands before a newline or at the end. */
  ghost predicate EndClean(t: string) {
    forall k :: 0 <= k < |t| && IsBlank(t[k]) ==> k + 1 < |t| && t[k + 1] != '\n'
  }

  lemma {:induction false} TrimLinesIsClean(t: string)
    ensures EndClean(TrimLines(t))
  {
    if t != "" {
      TrimLinesIsClean(t[1..]);
      var rest := TrimLines(t[1..]);
      var u := TrimLines(t);
      if u != rest {
        assert forall k :: 1 <= k < |u| ==> u[k] == rest[k - 1];
      }
    }
  }

  lemma {:induction false} CleanIsFixed(t: string)
    requires EndClean(t)
    ensures TrimLines(t) == t
  {
    if t != "" {
      assert EndClean(t[1..]) by {
        assert forall k :: 0 <= k < |t| - 1 ==> t[1..][k] == t[k + 1];
      }
      CleanIsFixed(t[1..]);
    }
  }

  lemma {:induction false} CrlfShrinks(t: string)
    ensures |Crlf(t)| <= |t|
    ensures HasCrlf(t) ==> |Crlf(t)| < |t|
    ensures !HasCrlf(t) ==> Crlf(t) == t
  {
    if t == "" {
    } else if |t| >= 2 && t[0] == '\r' && t[1] == '\n' {
      assert IsCrlf(t, 0);
      CrlfShrinks(t[2..]);
    } else {
      CrlfShrinks(t[1..]);
      HasCrlfTail(t);
    }
  }

  lemma HasCrlfTail(t: string)
    requires t != "" && !(|t| >= 2 && t[0] == '\r' && t[1] == '\n')
    ensures HasCrlf(t) <==> HasCrlf(t[1..])
  {
    var u := t[1..];
    if HasCrlf(t) {
      var k :| 0 <= k < |t| - 1 && IsCrlf(t, k);
      assert IsCrlf(u, k - 1);
    }
    if HasCrlf(u) {
      var k :| 0 <= k < |u| - 1 && IsCrlf(u, k);
      assert IsCrlf(t, k + 1);
    }
  }

  lemma {:induction false} TrimLinesShrinks(t: string)
    ensures |TrimLines(t)| <= |t|
  {
    if t != "" { TrimLinesShrinks(t[1..]); }
  }

  predicate EndsLine(t: string) {
    t != "" && t[|t| - 1] == '\n'
  }

  lemma {:induction false} CrlfEnds(t: string)
    requires EndsLine(t)
    ensures EndsLine(Crlf(t))
  {
    if |t| >= 2 && t[0] == '\r' && t[1] == '\n' {
      if |t| > 2 { CrlfEnds(t[2..]); } else { assert t[2..] == ""; }
    } else if |t| > 1 {
      CrlfEnds(t[1..]);
    } else {
      assert t[1..] == "";
    }
  }

  lemma {:induction false} TrimLinesEnds(t: string)
    requires EndsLine(t)
    ensures EndsLine(TrimLines(t))
  {
    if |t| > 1 { TrimLinesEnds(t[1..]); }
  }

  /** What Normalize returns is trimmed, clean at the end of every line, and ends its last line. */
  lemma NormalizedIsClean(t: string)
    ensures var n := Normalized(t);
            n != "" && n[|n| - 1] == '\n' && Trimmed(n[..|n| - 1]) && EndClean(n)
  {
    var u := TrimLines(Crlf(t));
    TrimLinesIsClean(Crlf(t));
    var i, j := TrimSpaceSplits(u);
    var n := Normalized(t);
    assert n[..|n| - 1] == u[i..j];
    TrimSpaceTrims(u);
    hide TrimLines, TrimSpace;
    forall k | 0 <= k < |n| && IsBlank(n[k]) ensures k + 1 < |n| && n[k + 1] != '\n' {
      assert n[k] == u[i + k];
      assert k != j - i - 1;
      assert n[k + 1] == u[i + k + 1];
    }
  }

  /** Normalizing again changes a normalized text exactly when it holds a CR LF, as CR CR LF or
      CR blank LF leaves behind. */
  lemma NormalizedIsFixed(t: string)
    ensures Normalized(Normalized(t)) == Normalized(t) <==> !HasCrlf(Normalized(t))
  {
    var n := Normalized(t);
    NormalizedIsClean(t);
    CrlfShrinks(n);
    if HasCrlf(n) {
      CrlfEnds(n);
      TrimLinesShrinks(Crlf(n));
      TrimLinesEnds(Crlf(n));
      var i, j := TrimSpaceSplits(TrimLines(Crlf(n)));
      assert |Normalized(n)| <= |Crlf(n)|;
    } else {
      CleanIsFixed(n);
      assert n == "" + n[..|n| - 1] + "\n";
      TrimSpaceOf("", n[..|n| - 1], "\n");
    }
  }

  /** Every carriage return is half of a CR LF. */
  predicate CrBeforeLf(t: string) {
    forall k :: 0 <= k < |t| && t[k] == '\r' ==> k + 1 < |t| && t[k + 1] == '\n'
  }

  lemma {:induction false} CrlfClears(t: string)
    requires CrBeforeLf(t)
    ensures '\r' !in Crlf(t)
  {
    if t == "" {
    } else if |t| >= 2 && t[0] == '\r' && t[1] == '\n' {
      assert forall k :: 0 <= k < |t| - 2 ==> t[2..][k] == t[k + 2];
      CrlfClears(t[2..]);
    } else {
      assert forall k :: 0 <= k < |t| - 1 ==> t[1..][k] == t[k + 1];
      CrlfClears(t[1..]);
    }
  }

  lemma {:induction false} TrimLinesTakes(t: string, c: char)
    requires c !in t
    ensures c !in TrimLines(t)
  {
    if t != "" { TrimLinesTakes(t[1..], c); }
  }

  /** The texts Google Docs exports: normalizing one twice is normalizing it once. */
  lemma DocsAreFixed(t: string)
    requires CrBeforeLf(t)
    ensures '\r' !in Normalized(t) && !HasCrlf(Normalized(t)) && Normalized(Normalized(t)) == Normalized(t)
  {
    CrlfClears(t);
    TrimLinesTakes(Crlf(t), '\r');
    var i, j := TrimSpaceSplits(TrimLines(Crlf(t)));
    NormalizedIsFixed(t);
    var n := Normalized(t);
    assert forall k :: 0 <= k < |n| ==> n[k] != '\r';
  }

  lemma {:induction false} CrlfSplit(pre: string, post: string)
    requires !HasCrlf(pre + "\r") && !HasCrlf(post)
    ensures Crlf(pre + "\r\n" + post) == pre + "\n" + post
  {
    var t := pre + "\r\n" + post;
    if pre == "" {
      assert t[2..] == post;
      CrlfShrinks(post);
    } else {
      var u := pre + "\r";
      assert t[1..] == pre[1..] + "\r\n" + post;
      assert u[1..] == pre[1..] + "\r" && t[0] == u[0] && t[1] == u[1];
      if u[0] == '\r' && u[1] == '\n' { assert IsCrlf(u, 0); }
      HasCrlfTail(u);
      CrlfSplit(pre[1..], post);
    }
  }

  lemma NormalizedOf(t: string, pre: string, body: string, post: string)
    requires Crlf(t) == pre + body + post && EndClean(Crlf(t)) && AllSpace(pre) && Trimmed(body) && AllSpace(post)
    ensures Normalized(t) == body + "\n"
  {
    CleanIsFixed(Crlf(t));
    TrimSpaceOf(pre, body, post);
  }

  predicate IsWord(t: string) {
    t != "" && forall k :: 0 <= k < |t| ==> !IsSpace(t[k])
  }

  lemma WordsClean(a: string, b: string)
    requires IsWord(a) && IsWord(b)
    ensures var u := a + "\r\n" + b; Trimmed(u) && EndClean(u) && HasCrlf(u + "\n")
  {
    var u := a + "\r\n" + b;
    assert u[0] == a[0] && u[|u| - 1] == b[|b| - 1];
    assert IsCrlf(u + "\n", |a|);
    forall k | 0 <= k < |u| ensures !IsBlank(u[k]) {
      assert k < |a| ==> u[k] == a[k];
      assert k >= |a| + 2 ==> u[k] == b[k - |a| - 2];
    }
  }

  lemma WordHasNoCrlf(a: string, tail: string)
    requires IsWord(a) && '\n' !in tail
    ensures !HasCrlf(a + tail)
  {
    hide IsSpace;
    assert '\n' !in a by { assert IsSpace('\n') by { NewlineIsSpace(); } }
    forall k | 0 <= k < |a + tail| - 1 ensures !IsCrlf(a + tail, k) {
      assert (a + tail)[k + 1] in a || (a + tail)[k + 1] in tail;
    }
  }

  lemma NewlineIsSpace()
    ensures IsSpace('\n')
  {
  }

  /** Between any two words, CR CR LF is normalized to CR LF, which is not normal. */
  lemma StrayCr(a: string, b: string)
    requires IsWord(a) && IsWord(b)
    ensures var n := Normalized(a + "\r\r\n" + b); n == a + "\r\n" + b + "\n" && Normalized(n) != n
  {
    hide IsWord, HasCrlf, Normalized, Trimmed, EndClean, Crlf;
    var t, u := a + "\r\r\n" + b, a + "\r\n" + b;
    assert t == (a + "\r") + "\r\n" + b && u == (a + "\r") + "\n" + b && u == "" + u + "";
    WordsClean(a, b);
    WordHasNoCrlf(a, "\r\r");
    WordHasNoCrlf(b, "");
    assert a + "\r" + "\r" == a + "\r\r" && b + "" == b;
    CrlfSplit(a + "\r", b);
    NormalizedOf(t, "", u, "");
    NormalizedIsFixed(t);
  }

  // ----- Validate -----

  /** The length of a text in UTF-8. */
  function Bytes(t: string): nat {
    if t == "" then 0
    else
      var c := t[|t| - 1] as int;
      Bytes(t[..|t| - 1]) + if c < 0x80 then 1 else if c < 0x800 then 2 else if c < 0x1_0000 then 3 else 4
  }

  /** The places of characters from `n` on. */
  function From(t: string, n: int): set<nat> {
    set k | 0 <= k < |t| && t[k] as int >= n
  }

  /** A character takes a byte, another from U+0080 on, another from U+0800 on, another beyond the
      first 65536. */
  lemma {:induction false} BytesMean(t: string)
    ensures Bytes(t) == |t| + |From(t, 0x80)| + |From(t, 0x800)| + |From(t, 0x1_0000)|
  {
    if t == "" {
      assert From(t, 0x80) == From(t, 0x800) == From(t, 0x1_0000) == {};
    } else {
      var k := |t| - 1;
      BytesMean(t[..k]);
      OneMore(From(t[..k], 0x80), From(t, 0x80), k, t[k] as int >= 0x80);
      OneMore(From(t[..k], 0x800), From(t, 0x800), k, t[k] as int >= 0x800);
      OneMore(From(t[..k], 0x1_0000), From(t, 0x1_0000), k, t[k] as int >= 0x1_0000);
    }
  }

  const MAX_BYTES := 8192
  const TITLE := "# PREFERENCES"
  const SECTIONS := ["Topics I want", "Topics I skip", "Sources I trust", "Kinds of articles I skip"]
  const EXAMPLE := "(example:"

  /** `strings.EqualFold` against a character of the title: either case, and the long s. */
  predicate Folds(c: char, upper: char) {
    c == upper || ('A' <= upper <= 'Z' && c as int == upper as int + 32) || (upper == 'S' && c as int == 0x17F)
  }

  predicate IsTitle(l: string) {
    |l| == |TITLE| && forall k :: 0 <= k < |l| ==> Folds(l[k], TITLE[k])
  }

  /** What may stand at each place of the title. */
  const SPELLINGS := ["#", " ", "Pp", "Rr", "Ee", "Ff", "Ee", "Rr", "Ee", "Nn", "Cc", "Ee", "Ss\U{17F}"]

  lemma TitleMeans(l: string)
    ensures IsTitle(l) <==> |l| == 13 && forall k :: 0 <= k < 13 ==> l[k] in SPELLINGS[k]
  {
    if |l| == 13 {
      forall k | 0 <= k < 13 ensures Folds(l[k], TITLE[k]) <==> l[k] in SPELLINGS[k] {
        FoldsMeans(l[k], k);
      }
    }
  }

  lemma FoldsMeans(c: char, k: nat)
    requires k < 13
    ensures Folds(c, TITLE[k]) <==> c in SPELLINGS[k]
  {
    var spelling := SPELLINGS[k];
    assert spelling[0] == TITLE[k];
    assert |spelling| > 1 ==> spelling[1] as int == TITLE[k] as int + 32;
    assert |spelling| > 2 ==> spelling[2] as int == 0x17F;
    assert |spelling| > 1 <==> 'A' <= TITLE[k] <= 'Z';
    assert |spelling| > 2 <==> TITLE[k] == 'S';
    assert |spelling| <= 3;
  }

  predicate IsHeading(l: string) {
    HasPrefix(l, "## ")
  }

  function Name(l: string): string
    requires IsHeading(l)
  {
    TrimSpace(l[3..])
  }

  predicate IsBullet(l: string) {
    HasPrefix(l, "- ") || HasPrefix(l, "* ")
  }

  datatype Problem =
    | TooLong(bytes: nat)
    | NoTitle
    | UnknownSection(line: nat, name: string)
    | SectionTwice(line: nat, name: string)
    | StrayHeading(line: nat)
    | Table(line: nat)
    | NotBullet(line: nat, section: string)
    | MissingSection(name: string)

  datatype Checked = Accepted(text: string) | Rejected(problem: Problem)

  /** What the loop knows: the sections it has met, and the one it is in. */
  datatype Reading = Reading(seen: set<string>, section: string) | Stuck(problem: Problem)

  function ReadLine(r: Reading, l: string, n: nat): Reading
    requires r.Reading?
  {
    if IsHeading(l) then
      if Name(l) !in SECTIONS then Stuck(UnknownSection(n, Name(l)))
      else if Name(l) in r.seen then Stuck(SectionTwice(n, Name(l)))
      else Reading(r.seen + {Name(l)}, Name(l))
    else if HasPrefix(l, "#") then Stuck(StrayHeading(n))
    else if HasPrefix(l, "|") then Stuck(Table(n))
    else if l == "" || r.section == "" || IsBullet(l) then r
    else Stuck(NotBullet(n, r.section))
  }

  /** The lines after the first, read in order; line numbers start at 1. */
  function ReadLines(ls: seq<string>): Reading
    requires ls != []
  {
    if |ls| == 1 then Reading({}, "")
    else
      var r := ReadLines(ls[..|ls| - 1]);
      if r.Stuck? then r else ReadLine(r, ls[|ls| - 1], |ls|)
  }

  /** The lines of a normalized text, without the empty one after its last newline. */
  function BodyLines(n: string): seq<string> {
    Lines(if EndsLine(n) then n[..|n| - 1] else n)
  }

  function Missing(seen: set<string>, i: nat): Option<string>
    requires i <= |SECTIONS|
    decreases |SECTIONS| - i
  {
    if i == |SECTIONS| then None else if SECTIONS[i] !in seen then Some(SECTIONS[i]) else Missing(seen, i + 1)
  }

  function Check(n: string): Checked {
    if Bytes(n) > MAX_BYTES then Rejected(TooLong(Bytes(n)))
    else
      var ls := BodyLines(n);
      if !IsTitle(ls[0]) then Rejected(NoTitle)
      else
        var r := ReadLines(ls);
        if r.Stuck? then Rejected(r.problem)
        else match Missing(r.seen, 0)
          case Some(name) => Rejected(MissingSection(name))
          case None => Accepted(n)
  }

  method Validate(text: string) returns (c: Checked)
    ensures c == Check(Normalized(text))
  {
    hide Normalized, SECTIONS, TrimSpace, Missing, Bytes;
    var n := Normalize(text);
    if Bytes(n) > MAX_BYTES { return Rejected(TooLong(Bytes(n))); }
    var lines := BodyLines(n);
    if !IsTitle(lines[0]) { return Rejected(NoTitle); }
    var problem, seen := ReadSections(lines);
    if problem.Some? { return Rejected(problem.value); }
    var missing := FirstMissing(seen);
    return if missing.Some? then Rejected(MissingSection(missing.value)) else Accepted(n);
  }

  method FirstMissing(seen: set<string>) returns (missing: Option<string>)
    ensures missing == Missing(seen, 0)
  {
    var i := 0;
    while i < |SECTIONS|
      invariant i <= |SECTIONS| && Missing(seen, 0) == Missing(seen, i)
    {
      if SECTIONS[i] !in seen { return Some(SECTIONS[i]); }
      i := i + 1;
    }
    return None;
  }

  /** The loop over the lines after the title. */
  method ReadSections(lines: seq<string>) returns (problem: Option<Problem>, seen: set<string>)
    requires lines != []
    ensures match ReadLines(lines)
            case Stuck(p) => problem == Some(p)
            case Reading(names, _) => problem == None && seen == names
  {
    hide SECTIONS, TrimSpace;
    seen, problem := {}, None;
    var section := "";
    var i := 1;
    assert lines[..1] == [lines[0]];
    while i < |lines|
      invariant 1 <= i <= |lines| && ReadLines(lines[..i]) == Reading(seen, section)
    {
      assert lines[..i + 1][..i] == lines[..i];
      StuckStays(lines, i + 1);
      var line, n := lines[i], i + 1;
      if HasPrefix(line, "## ") {
        var name := TrimSpace(line[3..]);
        if name !in SECTIONS { return Some(UnknownSection(n, name)), seen; }
        if name in seen { return Some(SectionTwice(n, name)), seen; }
        seen, section := seen + {name}, name;
      } else if HasPrefix(line, "#") {
        return Some(StrayHeading(n)), seen;
      } else if HasPrefix(line, "|") {
        return Some(Table(n)), seen;
      } else if line == "" || section == "" {
      } else if !IsBullet(line) {
        return Some(NotBullet(n, section)), seen;
      }
      i := i + 1;
    }
    assert lines[..i] == lines;
  }

  lemma {:induction false} StuckStays(ls: seq<string>, i: nat)
    requires 1 <= i <= |ls|
    ensures ReadLines(ls[..i]).Stuck? ==> ReadLines(ls) == ReadLines(ls[..i])
    decreases |ls|
  {
    if i < |ls| {
      var init := ls[..|ls| - 1];
      assert init[..i] == ls[..i];
      StuckStays(init, i);
    } else {
      assert ls[..i] == ls;
    }
  }

  // ----- What is accepted -----

  predicate NameOf(l: string, name: string) {
    IsHeading(l) && Name(l) == name
  }

  ghost predicate NoHeading(ls: seq<string>, k: nat)
    requires k <= |ls|
  {
    forall j :: 1 <= j < k ==> !IsHeading(ls[j])
  }

  lemma NoHeadingInit(ls: seq<string>)
    requires |ls| > 1
    ensures NoHeading(ls[..|ls| - 1], |ls| - 1) <==> NoHeading(ls, |ls| - 1)
    ensures NoHeading(ls, |ls|) <==> NoHeading(ls, |ls| - 1) && !IsHeading(ls[|ls| - 1])
  {
    hide IsHeading;
    forall j | 1 <= j < |ls| - 1 ensures ls[..|ls| - 1][j] == ls[j] {}
  }

  /** Line `i` may stand where it does. */
  ghost predicate Fits(ls: seq<string>, i: nat)
    requires 1 <= i < |ls|
  {
    if IsHeading(ls[i]) then Name(ls[i]) in SECTIONS && forall j :: 1 <= j < i ==> !NameOf(ls[j], Name(ls[i]))
    else
      && !HasPrefix(ls[i], "#") && !HasPrefix(ls[i], "|")
      && (ls[i] == "" || IsBullet(ls[i]) || NoHeading(ls, i))
  }

  ghost predicate HasSection(ls: seq<string>, name: string) {
    exists i :: 1 <= i < |ls| && NameOf(ls[i], name)
  }

  lemma SectionsAreNamed()
    ensures "" !in SECTIONS
  {
  }

  /** What the state of the loop says of the lines read. */
  ghost predicate Describes(r: Reading, ls: seq<string>)
    requires r.Reading?
  {
    && (forall name :: name in r.seen <==> HasSection(ls, name))
    && (r.section == "" <==> NoHeading(ls, |ls|))
  }

  function LineOf(p: Problem): nat {
    if p.UnknownSection? || p.SectionTwice? || p.StrayHeading? || p.Table? || p.NotBullet? then p.line else 0
  }

  /** Reading gets through exactly when every line fits where it is, and then knows the sections. */
  lemma {:induction false} ReadingMeans(ls: seq<string>)
    requires ls != []
    ensures ReadLines(ls).Reading? <==> forall i :: 1 <= i < |ls| ==> Fits(ls, i)
    ensures ReadLines(ls).Reading? ==> Describes(ReadLines(ls), ls)
  {
    hide SECTIONS, TrimSpace, HasPrefix;
    SectionsAreNamed();
    if |ls| > 1 {
      var init, last := ls[..|ls| - 1], |ls| - 1;
      ReadingMeans(init);
      forall i | 1 <= i < last ensures Fits(ls, i) <==> Fits(init, i) {}
      if ReadLines(init).Reading? { LastFits(ls); }
    }
  }

  lemma SectionNext(ls: seq<string>, name: string)
    requires |ls| > 1
    ensures HasSection(ls, name) <==> HasSection(ls[..|ls| - 1], name) || NameOf(ls[|ls| - 1], name)
  {
    hide NameOf;
    var init := ls[..|ls| - 1];
    if i :| 1 <= i < |init| && NameOf(init[i], name) { assert NameOf(ls[i], name); }
    if i :| 1 <= i < |ls| && NameOf(ls[i], name) { assert i < |init| ==> NameOf(init[i], name); }
  }

  lemma SectionMeans(ls: seq<string>, name: string)
    requires |ls| > 1
    ensures HasSection(ls[..|ls| - 1], name) <==> !forall j :: 1 <= j < |ls| - 1 ==> !NameOf(ls[j], name)
  {
    hide NameOf;
    var init := ls[..|ls| - 1];
    if j :| 1 <= j < |ls| - 1 && NameOf(ls[j], name) { assert NameOf(init[j], name); }
  }

  lemma LastFits(ls: seq<string>)
    requires |ls| > 1 && ReadLines(ls[..|ls| - 1]).Reading? && Describes(ReadLines(ls[..|ls| - 1]), ls[..|ls| - 1])
    ensures ReadLines(ls).Reading? <==> Fits(ls, |ls| - 1)
    ensures ReadLines(ls).Reading? ==> Describes(ReadLines(ls), ls)
    ensures ReadLines(ls).Stuck? ==> LineOf(ReadLines(ls).problem) == |ls|
  {
    var init, last := ls[..|ls| - 1], |ls| - 1;
    if IsHeading(ls[last]) { HeadingFits(ls); } else { PlainFits(ls); }
  }

  lemma HeadingFits(ls: seq<string>)
    requires |ls| > 1 && ReadLines(ls[..|ls| - 1]).Reading? && Describes(ReadLines(ls[..|ls| - 1]), ls[..|ls| - 1])
    requires IsHeading(ls[|ls| - 1])
    ensures ReadLines(ls).Reading? <==> Fits(ls, |ls| - 1)
    ensures ReadLines(ls).Reading? ==> Describes(ReadLines(ls), ls)
    ensures ReadLines(ls).Stuck? ==> LineOf(ReadLines(ls).problem) == |ls|
  {
    hide SECTIONS, HasSection, HasPrefix, TrimSpace, NoHeading;
    SectionsAreNamed();
    NoHeadingInit(ls);
    var init, last := ls[..|ls| - 1], ls[|ls| - 1];
    SectionMeans(ls, Name(last));
    forall name ensures HasSection(ls, name) <==> HasSection(init, name) || name == Name(last) {
      SectionNext(ls, name);
    }
  }

  lemma PlainFits(ls: seq<string>)
    requires |ls| > 1 && ReadLines(ls[..|ls| - 1]).Reading? && Describes(ReadLines(ls[..|ls| - 1]), ls[..|ls| - 1])
    requires !IsHeading(ls[|ls| - 1])
    ensures ReadLines(ls).Reading? <==> Fits(ls, |ls| - 1)
    ensures ReadLines(ls).Reading? ==> Describes(ReadLines(ls), ls)
    ensures ReadLines(ls).Stuck? ==> LineOf(ReadLines(ls).problem) == |ls|
  {
    hide SECTIONS, HasSection, HasPrefix, TrimSpace, NoHeading;
    var init := ls[..|ls| - 1];
    NoHeadingInit(ls);
    forall name ensures HasSection(ls, name) <==> HasSection(init, name) {
      SectionNext(ls, name);
    }
  }

  /** When it does not, the problem is the first line that does not fit. */
  lemma {:induction false} StuckAtFirst(ls: seq<string>) returns (i: nat)
    requires ls != [] && ReadLines(ls).Stuck?
    ensures 1 <= i < |ls| && !Fits(ls, i) && LineOf(ReadLines(ls).problem) == i + 1
    ensures forall j :: 1 <= j < i ==> Fits(ls, j)
  {
    var init := ls[..|ls| - 1];
    ReadingMeans(init);
    hide SECTIONS, TrimSpace, HasPrefix;
    forall j | 1 <= j < |init| ensures Fits(ls, j) <==> Fits(init, j) {}
    if ReadLines(init).Stuck? {
      i := StuckAtFirst(init);
    } else {
      LastFits(ls);
      i := |ls| - 1;
    }
  }

  lemma {:induction false} MissingMeans(seen: set<string>, i: nat)
    requires i <= |SECTIONS|
    ensures Missing(seen, i).None? <==> forall k :: i <= k < |SECTIONS| ==> SECTIONS[k] in seen
    ensures Missing(seen, i).Some? ==> Missing(seen, i).value in SECTIONS && Missing(seen, i).value !in seen
    decreases |SECTIONS| - i
  {
    if i < |SECTIONS| { MissingMeans(seen, i + 1); }
  }

  /** A text is accepted exactly when it is short enough, starts with the title, every line fits
      where it is, and each section has its heading. */
  lemma AcceptedMeans(n: string)
    ensures Check(n).Accepted? <==>
            var ls := BodyLines(n);
            && Bytes(n) <= MAX_BYTES && IsTitle(ls[0])
            && (forall i :: 1 <= i < |ls| ==> Fits(ls, i))
            && (forall k :: 0 <= k < |SECTIONS| ==> HasSection(ls, SECTIONS[k]))
    ensures Check(n).Accepted? ==> Check(n) == Accepted(n)
  {
    var ls := BodyLines(n);
    ReadingMeans(ls);
    if ReadLines(ls).Reading? { MissingMeans(ReadLines(ls).seen, 0); }
    hide SECTIONS, Fits, HasSection, BodyLines, Bytes;
  }
}
