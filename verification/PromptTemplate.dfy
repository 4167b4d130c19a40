/** Prompt templates (internal/ai/template.go) and the harness's mirror of their acceptance rule
    (evals/agregado_evals/contract.py). Both search for the regular expression
    `\{\{\s*([A-Za-z_][A-Za-z0-9_]*)\s*\}\}`; they differ in what `\s` is. */
module PromptTemplate {
  import opened Sorting
  import opened Text

  datatype Dialect = Go | Python

  datatype Class = Space(dialect: Dialect) | Word

  predicate IsDigit(c: char) {
    '0' <= c <= '9'
  }

  /** Go's `\s` is five ASCII characters; Python's, on text, is all of Unicode's white space and
      the four ASCII separators. */
  predicate In(cls: Class, c: char) {
    match cls
    case Space(Go) => c in " \t\n\r" || c as int == 12
    case Space(Python) => IsSpace(c) || 28 <= c as int <= 31
    case Word => 'A' <= c <= 'Z' || 'a' <= c <= 'z' || IsDigit(c) || c == '_'
  }

  predicate AllIn(cls: Class, s: string) {
    forall i :: 0 <= i < |s| ==> In(cls, s[i])
  }

  predicate IsName(s: string) {
    s != [] && AllIn(Word, s) && !IsDigit(s[0])
  }

  /** The characters of the classes, one by one. */
  lemma ClassesAre(c: char)
    ensures In(Space(Go), c) <==> c as int in {9, 10, 12, 13, 32}
    ensures In(Space(Python), c) <==>
            || c as int in {9, 10, 11, 12, 13, 28, 29, 30, 31, 32, 0x85, 0xA0, 0x1680}
            || c as int in {0x2000, 0x2001, 0x2002, 0x2003, 0x2004, 0x2005, 0x2006, 0x2007, 0x2008, 0x2009, 0x200A}
            || c as int in {0x2028, 0x2029, 0x202F, 0x205F, 0x3000}
    ensures In(Word, c) <==>
            || c in "ABCDEFGHIJKLMNOPQRSTUVWXYZ" || c in "abcdefghijklmnopqrstuvwxyz" || c in "0123456789_"
    ensures IsDigit(c) <==> c in "0123456789"
  {
    UpperAre(c);
    LowerAre(c);
    DigitsAre(c);
  }

  lemma UpperAre(c: char)
    ensures 'A' <= c <= 'Z' <==> c in "ABCDEFGHIJKLMNOPQRSTUVWXYZ"
  {
    var s := "ABCDEFGHIJKLMNOPQRSTUVWXYZ";
    assert forall i :: 0 <= i < 26 ==> s[i] as int == 65 + i;
    if 'A' <= c <= 'Z' { assert s[c as int - 65] == c; }
  }

  lemma LowerAre(c: char)
    ensures 'a' <= c <= 'z' <==> c in "abcdefghijklmnopqrstuvwxyz"
  {
    var s := "abcdefghijklmnopqrstuvwxyz";
    assert forall i :: 0 <= i < 26 ==> s[i] as int == 97 + i;
    if 'a' <= c <= 'z' { assert s[c as int - 97] == c; }
  }

  lemma DigitsAre(c: char)
    ensures IsDigit(c) <==> c in "0123456789"
  {
    var s := "0123456789";
    assert forall i :: 0 <= i < 10 ==> s[i] as int == 48 + i;
    if IsDigit(c) { assert s[c as int - 48] == c; }
  }

  /** `raw` is a whole match of the expression, with `name` its group. */
  ghost predicate Spells(d: Dialect, raw: string, name: string) {
    exists pre, post :: SpellsWith(d, raw, name, pre, post)
  }

  ghost predicate SpellsWith(d: Dialect, raw: string, name: string, pre: string, post: string) {
    raw == "{{" + pre + name + post + "}}" && AllIn(Space(d), pre) && IsName(name) && AllIn(Space(d), post)
  }

  // ----- Matching at one place -----

  /** The end of the run of the class that starts at `i`. */
  function Skip(t: string, i: nat, cls: Class): (e: nat)
    requires i <= |t|
    ensures i <= e <= |t| && (forall k :: i <= k < e ==> In(cls, t[k])) && (e < |t| ==> !In(cls, t[e]))
    decreases |t| - i
  {
    if i < |t| && In(cls, t[i]) then Skip(t, i + 1, cls) else i
  }

  predicate Twice(t: string, i: nat, c: char) {
    i + 2 <= |t| && t[i] == c && t[i + 1] == c
  }

  datatype Match = Match(end: nat, name: string)

  /** The match that starts at the head of `t`. */
  function MatchAt(d: Dialect, t: string): (m: Option<Match>)
    ensures m.Some? ==> 0 < m.value.end <= |t|
  {
    if !Twice(t, 0, '{') then None
    else
      var a := Skip(t, 2, Space(d));
      var b := Skip(t, a, Word);
      var c := Skip(t, b, Space(d));
      if a == b || IsDigit(t[a]) || !Twice(t, c, '}') then None else Some(Match(c + 2, t[a..b]))
  }

  lemma SliceIn(t: string, i: nat, j: nat, cls: Class)
    requires i <= j <= |t| && forall k :: i <= k < j ==> In(cls, t[k])
    ensures AllIn(cls, t[i..j])
  {
    hide In;
  }

  lemma MatchIsSpelled(d: Dialect, t: string)
    requires MatchAt(d, t).Some?
    ensures var m := MatchAt(d, t).value; 4 < m.end <= |t| && Spells(d, t[..m.end], m.name)
  {
    hide In, IsDigit, AllIn, Skip;
    var a := Skip(t, 2, Space(d));
    var b := Skip(t, a, Word);
    var c := Skip(t, b, Space(d));
    SliceIn(t, 2, a, Space(d));
    SliceIn(t, a, b, Word);
    SliceIn(t, b, c, Space(d));
    var raw := t[..c + 2];
    assert raw == "{{" + t[2..a] + t[a..b] + t[b..c] + "}}";
    assert IsName(t[a..b]);
    assert SpellsWith(d, raw, t[a..b], t[2..a], t[b..c]);
  }

  lemma {:induction false} SkipEnds(t: string, i: nat, e: nat, cls: Class)
    requires i <= e <= |t| && (forall k :: i <= k < e ==> In(cls, t[k])) && (e < |t| ==> !In(cls, t[e]))
    ensures Skip(t, i, cls) == e
    decreases e - i
  {
    if i < e { SkipEnds(t, i + 1, e, cls); }
  }

  /** `t` begins with a match whose name is at `a..b` and whose closing braces are at `c`. */
  ghost predicate Laid(d: Dialect, t: string, a: nat, b: nat, c: nat) {
    && 2 <= a < b <= c && c + 2 <= |t| && Twice(t, 0, '{') && Twice(t, c, '}') && !IsDigit(t[a])
    && (forall k :: 2 <= k < a ==> In(Space(d), t[k]))
    && (forall k :: a <= k < b ==> In(Word, t[k]))
    && (forall k :: b <= k < c ==> In(Space(d), t[k]))
  }

  lemma LaidIsMatched(d: Dialect, t: string, a: nat, b: nat, c: nat)
    requires Laid(d, t, a, b, c)
    ensures MatchAt(d, t) == Some(Match(c + 2, t[a..b]))
  {
    assert In(Word, t[a]) && !In(Space(d), t[a]);
    assert t[b] == '}' || In(Space(d), t[b]);
    assert !In(Word, t[b]) && !In(Space(d), t[c]);
    hide In;
    SkipEnds(t, 2, a, Space(d));
    SkipEnds(t, a, b, Word);
    SkipEnds(t, b, c, Space(d));
  }

  /** The characters of a part of a concatenation. */
  lemma PartIn(t: string, i: nat, part: string, cls: Class)
    requires i + |part| <= |t| && t[i..i + |part|] == part && AllIn(cls, part)
    ensures forall k :: i <= k < i + |part| ==> In(cls, t[k])
  {
    hide In;
    forall k | i <= k < i + |part| ensures In(cls, t[k]) {
      assert t[k] == part[k - i];
    }
  }

  lemma SpelledIsLaid(d: Dialect, t: string, end: nat, name: string, pre: string, post: string)
    requires end <= |t| && SpellsWith(d, t[..end], name, pre, post)
    ensures var a := 2 + |pre|; var b := a + |name|; Laid(d, t, a, b, end - 2) && t[a..b] == name
  {
    hide In, IsDigit, AllIn;
    var a := 2 + |pre|;
    var b := a + |name|;
    var c := b + |post|;
    assert end == c + 2;
    assert t[..end][..2] == t[..2] == "{{" && t[..end][c..] == t[c..end] == "}}";
    assert t[..end][2..a] == t[2..a] == pre;
    assert t[..end][a..b] == t[a..b] == name;
    assert t[..end][b..c] == t[b..c] == post;
    PartIn(t, 2, pre, Space(d));
    PartIn(t, a, name, Word);
    PartIn(t, b, post, Space(d));
    assert t[0] == t[..2][0] && t[1] == t[..2][1] && t[c] == t[c..end][0] && t[c + 1] == t[c..end][1];
    assert t[a] == name[0];
  }

  lemma SpelledLength(d: Dialect, raw: string, name: string, pre: string, post: string)
    requires SpellsWith(d, raw, name, pre, post)
    ensures |raw| == 4 + |pre| + |name| + |post|
  {
    hide AllIn, IsName;
  }

  /** The expression matches in one way at most: whatever spells a variable is what is matched. */
  lemma SpelledIsMatched(d: Dialect, t: string, end: nat, name: string)
    requires end <= |t| && Spells(d, t[..end], name)
    ensures MatchAt(d, t) == Some(Match(end, name))
  {
    hide Laid, MatchAt, SpellsWith;
    var pre, post :| SpellsWith(d, t[..end], name, pre, post);
    SpelledLength(d, t[..end], name, pre, post);
    hide Spells;
    SpelledIsLaid(d, t, end, name, pre, post);
    LaidIsMatched(d, t, 2 + |pre|, 2 + |pre| + |name|, end - 2);
  }

  // ----- Leftmost, non-overlapping matches -----

  datatype Piece = Literal(c: char) | Variable(raw: string, name: string)

  function Raw(p: Piece): string {
    if p.Literal? then [p.c] else p.raw
  }

  function Head(d: Dialect, t: string): (p: Piece)
    requires t != []
    ensures 0 < |Raw(p)| <= |t| && Raw(p) == t[..|Raw(p)|]
  {
    match MatchAt(d, t)
    case Some(m) => Variable(t[..m.end], m.name)
    case None => Literal(t[0])
  }

  /** What a leftmost search cuts `t` into. */
  function Scan(d: Dialect, t: string): seq<Piece>
    decreases |t|
  {
    if t == [] then []
    else
      var p := Head(d, t);
      [p] + Scan(d, t[|Raw(p)|..])
  }

  function Flat(pieces: seq<Piece>): string {
    if pieces == [] then [] else Raw(pieces[0]) + Flat(pieces[1..])
  }

  /** Variables are spelled as the expression asks, and nothing that starts at a literal is. */
  ghost predicate Leftmost(d: Dialect, pieces: seq<Piece>) {
    pieces == [] || (
      && Leftmost(d, pieces[1..])
      && if pieces[0].Variable? then Spells(d, pieces[0].raw, pieces[0].name) else NoneHere(d, Flat(pieces)))
  }

  ghost predicate NoneHere(d: Dialect, t: string) {
    forall end: nat, name :: end <= |t| ==> !Spells(d, t[..end], name)
  }

  lemma NoneIsNoMatch(d: Dialect, t: string)
    ensures NoneHere(d, t) <==> MatchAt(d, t).None?
  {
    if MatchAt(d, t).Some? { MatchIsSpelled(d, t); }
    if MatchAt(d, t).None? {
      forall end: nat, name | end <= |t| ensures !Spells(d, t[..end], name) {
        if Spells(d, t[..end], name) { SpelledIsMatched(d, t, end, name); }
      }
    }
  }

  lemma HeadIsLeftmost(d: Dialect, t: string)
    requires t != []
    ensures var p := Head(d, t); if p.Variable? then Spells(d, p.raw, p.name) else NoneHere(d, t)
  {
    hide Spells, NoneHere;
    NoneIsNoMatch(d, t);
    if MatchAt(d, t).Some? { MatchIsSpelled(d, t); }
  }

  /** The scan loses nothing and finds exactly the leftmost matches. */
  lemma {:induction false} ScanIsLeftmost(d: Dialect, t: string)
    ensures Flat(Scan(d, t)) == t && Leftmost(d, Scan(d, t))
    decreases |t|
  {
    if t != [] {
      hide NoneHere, Head, Spells;
      var p := Head(d, t);
      HeadIsLeftmost(d, t);
      ScanIsLeftmost(d, t[|Raw(p)|..]);
      assert Scan(d, t)[1..] == Scan(d, t[|Raw(p)|..]);
      assert t == Raw(p) + t[|Raw(p)|..];
    }
  }

  lemma HeadOfLeftmost(d: Dialect, pieces: seq<Piece>)
    requires pieces != [] && Leftmost(d, pieces)
    ensures Flat(pieces) != [] && Head(d, Flat(pieces)) == pieces[0]
  {
    hide MatchAt, Spells, Scan;
    var t := Flat(pieces);
    NoneIsNoMatch(d, t);
    hide NoneHere;
    if pieces[0].Variable? {
      var n := |pieces[0].raw|;
      assert t[..n] == pieces[0].raw;
      SpelledIsMatched(d, t, n, pieces[0].name);
    }
  }

  /** And there is no other such cut of a template. */
  lemma {:induction false} LeftmostIsScan(d: Dialect, pieces: seq<Piece>)
    requires Leftmost(d, pieces)
    ensures pieces == Scan(d, Flat(pieces))
  {
    if pieces != [] {
      hide MatchAt, Spells, Head, NoneHere;
      HeadOfLeftmost(d, pieces);
      LeftmostIsScan(d, pieces[1..]);
      assert Flat(pieces)[|Raw(pieces[0])|..] == Flat(pieces[1..]);
    }
  }

  // ----- Compile -----

  function Names(pieces: seq<Piece>): set<string> {
    set k | 0 <= k < |pieces| && pieces[k].Variable? :: pieces[k].name
  }

  /** A variable replaced by its value, unless it has none. */
  function Filled(p: Piece, vars: map<string, string>): string {
    if p.Variable? && p.name in vars then vars[p.name] else Raw(p)
  }

  function Rendered(pieces: seq<Piece>, vars: map<string, string>): string {
    if pieces == [] then [] else Filled(pieces[0], vars) + Rendered(pieces[1..], vars)
  }

  function Undefined(pieces: seq<Piece>, keys: set<string>): seq<string> {
    if pieces == [] then []
    else
      (if pieces[0].Variable? && pieces[0].name !in keys then [pieces[0].name] else []) + Undefined(pieces[1..], keys)
  }

  lemma {:induction false} UndefinedAre(pieces: seq<Piece>, keys: set<string>)
    ensures forall name :: name in Undefined(pieces, keys) <==> name in Names(pieces) && name !in keys
  {
    if pieces != [] {
      UndefinedAre(pieces[1..], keys);
      NamesCons(pieces);
    }
  }

  lemma NamesCons(pieces: seq<Piece>)
    requires pieces != []
    ensures Names(pieces) == (if pieces[0].Variable? then {pieces[0].name} else {}) + Names(pieces[1..])
  {
    var tail := pieces[1..];
    forall k | 0 <= k < |tail| && tail[k].Variable? ensures tail[k].name in Names(pieces) {
      assert pieces[k + 1] == tail[k];
    }
    forall k | 1 <= k < |pieces| && pieces[k].Variable? ensures pieces[k].name in Names(tail) {
      assert pieces[k] == tail[k - 1];
    }
  }

  /** One step of the scan. */
  lemma ScanStep(t: string, vars: map<string, string>)
    requires t != []
    ensures var p := Head(Go, t);
            var rest := Scan(Go, t[|Raw(p)|..]);
            && Rendered(Scan(Go, t), vars) == Filled(p, vars) + Rendered(rest, vars)
            && Names(Scan(Go, t)) == (if p.Variable? then {p.name} else {}) + Names(rest)
            && Undefined(Scan(Go, t), vars.Keys) ==
                 (if p.Variable? && p.name !in vars then [p.name] else []) + Undefined(rest, vars.Keys)
  {
    hide Head, Names;
    var p := Head(Go, t);
    NamesCons(Scan(Go, t));
    assert Scan(Go, t)[1..] == Scan(Go, t[|Raw(p)|..]);
  }

  /** What a message is rendered as, and which names it lacks, from its start: a variable there gives
      its value, which is not looked at again, or stays as it is spelled and is listed; any other
      character gives itself. */
  lemma RenderedMeans(t: string, vars: map<string, string>)
    ensures Rendered(Scan(Go, ""), vars) == "" && Undefined(Scan(Go, ""), vars.Keys) == []
    ensures forall end: nat, name :: end <= |t| && Spells(Go, t[..end], name) ==>
              var rest := Scan(Go, t[end..]);
              && Rendered(Scan(Go, t), vars) == (if name in vars then vars[name] else t[..end]) + Rendered(rest, vars)
              && Undefined(Scan(Go, t), vars.Keys) ==
                   (if name in vars then [] else [name]) + Undefined(rest, vars.Keys)
    ensures t != "" && NoneHere(Go, t) ==>
              && Rendered(Scan(Go, t), vars) == t[..1] + Rendered(Scan(Go, t[1..]), vars)
              && Undefined(Scan(Go, t), vars.Keys) == Undefined(Scan(Go, t[1..]), vars.Keys)
  {
    if t != "" { ScanStep(t, vars); }
    NoneIsNoMatch(Go, t);
    forall end: nat, name | end <= |t| && Spells(Go, t[..end], name)
      ensures MatchAt(Go, t) == Some(Match(end, name)) && t != ""
    {
      SpelledIsMatched(Go, t, end, name);
    }
    hide Spells, NoneHere, MatchAt, Rendered, Undefined;
    assert t != "" && MatchAt(Go, t).None? ==> Raw(Head(Go, t)) == t[..1];
  }

  /** What the loop of a message has done when `rest` is left. */
  ghost predicate Progress(template: string, vars: map<string, string>, rest: string, out: string,
                           used: set<string>, undefined: seq<string>) {
    && Rendered(Scan(Go, template), vars) == out + Rendered(Scan(Go, rest), vars)
    && Names(Scan(Go, template)) * vars.Keys == used + Names(Scan(Go, rest)) * vars.Keys
    && Undefined(Scan(Go, template), vars.Keys) == undefined + Undefined(Scan(Go, rest), vars.Keys)
  }

  lemma ProgressStep(template: string, vars: map<string, string>, rest: string, out: string,
                     used: set<string>, undefined: seq<string>)
    requires rest != [] && Progress(template, vars, rest, out, used, undefined)
    ensures var p := Head(Go, rest);
            Progress(template, vars, rest[|Raw(p)|..], out + Filled(p, vars),
                     if p.Variable? && p.name in vars then used + {p.name} else used,
                     if p.Variable? && p.name !in vars then undefined + [p.name] else undefined)
  {
    hide Scan, Rendered, Undefined, Names, Head;
    ScanStep(rest, vars);
    var p := Head(Go, rest);
    var next := Scan(Go, rest[|Raw(p)|..]);
    assert out + Rendered(Scan(Go, rest), vars) == out + Filled(p, vars) + Rendered(next, vars);
  }

  lemma ProgressEnd(template: string, vars: map<string, string>, out: string, used: set<string>, undefined: seq<string>)
    requires Progress(template, vars, [], out, used, undefined)
    ensures var pieces := Scan(Go, template);
            && out == Rendered(pieces, vars) && used == Names(pieces) * vars.Keys
            && undefined == Undefined(pieces, vars.Keys)
  {
  }

  method CompileMessage(template: string, vars: map<string, string>)
    returns (out: string, used: set<string>, undefined: seq<string>)
    ensures var pieces := Scan(Go, template);
            && out == Rendered(pieces, vars)
            && used == Names(pieces) * vars.Keys
            && undefined == Undefined(pieces, vars.Keys)
  {
    out, used, undefined := "", {}, [];
    var rest := template;
    assert Progress(template, vars, rest, out, used, undefined);
    hide MatchAt, Progress, Scan, Rendered, Undefined, Names;
    while rest != []
      invariant Progress(template, vars, rest, out, used, undefined)
      decreases |rest|
    {
      ProgressStep(template, vars, rest, out, used, undefined);
      match MatchAt(Go, rest)
      case Some(m) =>
        if m.name in vars {
          out, used := out + vars[m.name], used + {m.name};
        } else {
          out, undefined := out + rest[..m.end], undefined + [m.name];
        }
        rest := rest[m.end..];
      case None =>
        out, rest := out + [rest[0]], rest[1..];
    }
    ProgressEnd(template, vars, out, used, undefined);
  }

  // ----- The prompt -----

  datatype Prompt = Prompt(name: string, version: nat, system: string, user: string)

  datatype Compiled = Compiled(system: string, user: string) | Invalid(undefined: seq<string>, unused: seq<string>)

  /** The variables a prompt uses. */
  function Uses(d: Dialect, p: Prompt): set<string> {
    Names(Scan(d, p.system)) + Names(Scan(d, p.user))
  }

  method Unused(keys: set<string>, used: set<string>) returns (unused: seq<string>)
    ensures Ascending(unused) && forall name :: name in unused <==> name in keys - used
  {
    var left, listed := keys, [];
    while left != {}
      invariant left <= keys
      invariant forall name :: name in listed <==> name in keys - left - used
      invariant forall i, j :: 0 <= i < j < |listed| ==> listed[i] != listed[j]
      decreases |left|
    {
      var name :| name in left;
      assert name !in listed;
      left := left - {name};
      if name !in used { listed := listed + [name]; }
    }
    SortedStrings(listed);
    unused := Sort(listed, StrLess);
  }

  lemma NothingListed(uses: set<string>, keys: set<string>,
                      undefined1: seq<string>, undefined2: seq<string>, unused: seq<string>)
    requires forall name :: name in undefined1 || name in undefined2 <==> name in uses - keys
    requires forall name :: name in unused <==> name in keys - uses
    ensures undefined1 + undefined2 == [] && unused == [] <==> uses == keys
  {
    NothingIn(undefined1);
    NothingIn(undefined2);
    NothingIn(unused);
    forall name
      ensures name in uses - keys <==> name in uses && name !in keys
      ensures name in keys - uses <==> name in keys && name !in uses
    {
    }
  }

  lemma NothingIn(s: seq<string>)
    ensures s == [] <==> forall x :: x !in s
  {
    if s != [] { assert s[0] in s; }
  }

  /** A prompt compiles exactly when the variables it uses are the ones it is given, whatever their
      values; each message is then its own text with the values put in, once. Otherwise the error
      names the variables that are missing, in order of use, and those that are not used. */
  method Compile(p: Prompt, vars: map<string, string>) returns (r: Compiled)
    ensures r.Compiled? <==> Uses(Go, p) == vars.Keys
    ensures r.Compiled? ==> r.system == Rendered(Scan(Go, p.system), vars) && r.user == Rendered(Scan(Go, p.user), vars)
    ensures r.Invalid? ==>
              r.undefined == Undefined(Scan(Go, p.system), vars.Keys) + Undefined(Scan(Go, p.user), vars.Keys)
    ensures r.Invalid? ==> Ascending(r.unused) && forall name :: name in r.unused <==> name in vars.Keys - Uses(Go, p)
  {
    hide Scan, Names, Rendered, Undefined, Ascending;
    var system, used1, undefined1 := CompileMessage(p.system, vars);
    var user, used2, undefined2 := CompileMessage(p.user, vars);
    var undefined := undefined1 + undefined2;
    var unused := Unused(vars.Keys, used1 + used2);
    UndefinedAre(Scan(Go, p.system), vars.Keys);
    UndefinedAre(Scan(Go, p.user), vars.Keys);
    NothingListed(Uses(Go, p), vars.Keys, undefined1, undefined2, unused);
    if |undefined| > 0 || |unused| > 0 { return Invalid(undefined, unused); }
    return Compiled(system, user);
  }

  datatype Outcome = Call(prompt: Prompt, system: string, user: string) | NoTemplate | Broken(error: Compiled)

  /** `completeTemplate`: `managed` is the managed prompt when there is a usable one, `fallback` the
      in-code default when the operation has one. A managed prompt that does not compile is never
      what makes the call fail. */
  method CompleteTemplate(managed: Option<Prompt>, fallback: Option<Prompt>, vars: map<string, string>)
    returns (r: Outcome)
    ensures managed.Some? && Uses(Go, managed.value) == vars.Keys ==> r.Call? && r.prompt == managed.value
    ensures !(managed.Some? && Uses(Go, managed.value) == vars.Keys) ==>
              match fallback
              case None => r == NoTemplate
              case Some(p) => if Uses(Go, p) == vars.Keys then r.Call? && r.prompt == p else r.Broken?
    ensures r.Call? ==>
              && r.system == Rendered(Scan(Go, r.prompt.system), vars)
              && r.user == Rendered(Scan(Go, r.prompt.user), vars)
  {
    hide Scan, Uses, Rendered, Ascending;
    if managed.Some? {
      var c := Compile(managed.value, vars);
      if c.Compiled? { return Call(managed.value, c.system, c.user); }
    }
    if fallback.None? { return NoTemplate; }
    var c := Compile(fallback.value, vars);
    return if c.Compiled? then Call(fallback.value, c.system, c.user) else Broken(c);
  }

  // ----- The harness -----

  datatype Message = Message(kind: Option<string>, role: Option<string>, content: string)

  datatype Verdict = Accepted | WrongShape | WrongVariables(unknown: set<string>, unused: set<string>)

  function Used(messages: seq<Message>): set<string> {
    set k, name | 0 <= k < |messages| && name in Names(Scan(Python, messages[k].content)) :: name
  }

  predicate RightShape(messages: seq<Message>) {
    |messages| == 2 && (forall k :: 0 <= k < 2 ==> messages[k].kind == Some("message"))
    && messages[0].role == Some("system") && messages[1].role == Some("user")
  }

  /** `check_prompt`. */
  function CheckPrompt(messages: seq<Message>, variables: set<string>): (v: Verdict)
    ensures v.WrongShape? <==>
              !(&& |messages| == 2
                && messages[0].kind == Some("message") && messages[0].role == Some("system")
                && messages[1].kind == Some("message") && messages[1].role == Some("user"))
    ensures v.Accepted? <==> !v.WrongShape? && Used(messages) == variables
    ensures v.WrongVariables? ==>
              && (forall name :: name in v.unknown <==> name in Used(messages) && name !in variables)
              && (forall name :: name in v.unused <==> name in variables && name !in Used(messages))
  {
    if !RightShape(messages) then WrongShape
    else
      var unknown, unused := Used(messages) - variables, variables - Used(messages);
      if unknown == {} && unused == {} then assert Used(messages) == variables; Accepted
      else WrongVariables(unknown, unused)
  }

  function Chat(p: Prompt): seq<Message> {
    [Message(Some("message"), Some("system"), p.system), Message(Some("message"), Some("user"), p.user)]
  }

  lemma ChatUses(p: Prompt)
    ensures Used(Chat(p)) == Uses(Python, p)
  {
    hide Scan, Names;
    var messages := Chat(p);
    assert messages[0].content == p.system && messages[1].content == p.user;
  }

  // ----- Where the two scans part -----

  /** What the other dialect makes of a piece it cannot spell: its characters. */
  function Letters(t: string): seq<Piece> {
    if t == [] then [] else [Literal(t[0])] + Letters(t[1..])
  }

  /** A Python variable that Go sees too. */
  predicate Plain(p: Piece) {
    p.Variable? && MatchAt(Go, p.raw).Some?
  }

  function Relit(pieces: seq<Piece>): seq<Piece> {
    if pieces == [] then []
    else (if pieces[0].Literal? || Plain(pieces[0]) then [pieces[0]] else Letters(pieces[0].raw)) + Relit(pieces[1..])
  }

  lemma GoSpellsPython(raw: string, name: string)
    requires Spells(Go, raw, name)
    ensures Spells(Python, raw, name)
  {
    var pre, post :| SpellsWith(Go, raw, name, pre, post);
    assert SpellsWith(Python, raw, name, pre, post);
  }

  /** Go matches at a place only what Python matches there, the same way; it misses a match just
      when the text it spans is not one of Go's. */
  lemma GoMatchIsPython(t: string)
    ensures MatchAt(Go, t).Some? ==> MatchAt(Python, t) == MatchAt(Go, t)
    ensures MatchAt(Python, t).Some? ==>
              (MatchAt(Go, t).Some? <==> MatchAt(Go, t[..MatchAt(Python, t).value.end]).Some?)
  {
    hide Spells, MatchAt;
    if MatchAt(Go, t).Some? {
      MatchIsSpelled(Go, t);
      var m := MatchAt(Go, t).value;
      GoSpellsPython(t[..m.end], m.name);
      SpelledIsMatched(Python, t, m.end, m.name);
      assert t[..m.end][..m.end] == t[..m.end];
      SpelledIsMatched(Go, t[..m.end], m.end, m.name);
    }
    if MatchAt(Python, t).Some? {
      var raw := t[..MatchAt(Python, t).value.end];
      if MatchAt(Go, raw).Some? {
        MatchIsSpelled(Go, raw);
        var m := MatchAt(Go, raw).value;
        assert raw[..m.end] == t[..m.end];
        SpelledIsMatched(Go, t, m.end, m.name);
      }
    }
  }

  /** Nothing starts inside a match: it has no second pair of opening braces. */
  lemma NothingInside(t: string, k: nat)
    requires MatchAt(Python, t).Some? && 0 < k < MatchAt(Python, t).value.end
    ensures MatchAt(Go, t[k..]).None?
  {
    var a := Skip(t, 2, Space(Python));
    var b := Skip(t, a, Word);
    var c := Skip(t, b, Space(Python));
    assert !In(Space(Python), '{') && !In(Word, '{');
    assert !Twice(t, k, '{') by {
      if k == 1 { assert t[2] != '{'; }
    }
    assert Twice(t[k..], 0, '{') ==> Twice(t, k, '{');
  }

  lemma HeadIsLetter(t: string)
    requires t != [] && MatchAt(Go, t[0..]).None?
    ensures Head(Go, t) == Literal(t[0])
  {
    assert t[0..] == t;
  }

  lemma {:induction false} LettersOf(t: string, k: nat)
    requires k <= |t| && forall j :: 0 <= j < k ==> MatchAt(Go, t[j..]).None?
    ensures Scan(Go, t) == Letters(t[..k]) + Scan(Go, t[k..])
  {
    hide MatchAt, Head;
    if k == 0 {
      assert t[0..] == t && t[..0] == [];
    } else {
      HeadIsLetter(t);
      forall j | 0 <= j < k - 1 ensures MatchAt(Go, t[1..][j..]).None? {
        assert t[1..][j..] == t[j + 1..];
      }
      LettersOf(t[1..], k - 1);
      assert t[0..] == t;
      assert t[1..][..k - 1] == t[..k][1..];
      assert t[1..][k - 1..] == t[k..];
    }
  }

  /** On any text, Go finds what Python finds except the variables spelled with white space that
      only Python knows: those stay text. */
  lemma {:induction false} GoScanIsRelit(t: string)
    ensures Scan(Go, t) == Relit(Scan(Python, t))
    decreases |t|
  {
    if t != [] {
      hide MatchAt, Letters;
      var p := Head(Python, t);
      var rest := t[|Raw(p)|..];
      GoScanIsRelit(rest);
      GoMatchIsPython(t);
      assert Scan(Python, t)[1..] == Scan(Python, rest);
      if p.Variable? && !Plain(p) {
        forall j | 0 <= j < |p.raw| ensures MatchAt(Go, t[j..]).None? {
          if j > 0 { NothingInside(t, j); } else { assert t[0..] == t; }
        }
        LettersOf(t, |p.raw|);
      }
    }
  }

  /** The names Python finds in a spelling that Go knows. */
  function PlainNames(pieces: seq<Piece>): set<string> {
    set k | 0 <= k < |pieces| && Plain(pieces[k]) :: pieces[k].name
  }

  lemma {:induction false} LettersHaveNoNames(t: string, rest: seq<Piece>)
    ensures Names(Letters(t) + rest) == Names(rest)
  {
    if t == [] {
      assert Letters(t) + rest == rest;
    } else {
      LettersHaveNoNames(t[1..], rest);
      var pieces := Letters(t) + rest;
      NamesCons(pieces);
      assert pieces[1..] == Letters(t[1..]) + rest;
    }
  }

  lemma {:induction false} RelitNames(pieces: seq<Piece>)
    ensures Names(Relit(pieces)) == PlainNames(pieces)
  {
    if pieces != [] {
      RelitNames(pieces[1..]);
      PlainNamesCons(pieces);
      hide Names, PlainNames, Plain;
      var rest := Relit(pieces[1..]);
      if pieces[0].Literal? || Plain(pieces[0]) {
        assert Relit(pieces)[1..] == rest;
        NamesCons(Relit(pieces));
        assert Plain(pieces[0]) ==> pieces[0].Variable? by { PlainIsVariable(pieces[0]); }
        if pieces[0].Literal? { LiteralIsNotPlain(pieces[0]); }
      } else {
        LettersHaveNoNames(pieces[0].raw, rest);
      }
    }
  }

  lemma PlainIsVariable(p: Piece)
    ensures Plain(p) ==> p.Variable?
  {
  }

  lemma LiteralIsNotPlain(p: Piece)
    ensures p.Literal? ==> !Plain(p)
  {
  }

  lemma PlainNamesCons(pieces: seq<Piece>)
    requires pieces != []
    ensures PlainNames(pieces) == (if Plain(pieces[0]) then {pieces[0].name} else {}) + PlainNames(pieces[1..])
  {
    hide MatchAt;
    var tail := pieces[1..];
    forall k | 0 <= k < |tail| && Plain(tail[k]) ensures tail[k].name in PlainNames(pieces) {
      assert pieces[k + 1] == tail[k];
    }
    forall k | 1 <= k < |pieces| && Plain(pieces[k]) ensures pieces[k].name in PlainNames(tail) {
      assert pieces[k] == tail[k - 1];
    }
  }

  function PlainUses(p: Prompt): set<string> {
    PlainNames(Scan(Python, p.system)) + PlainNames(Scan(Python, p.user))
  }

  lemma GoUsesPlain(p: Prompt)
    ensures Uses(Go, p) == PlainUses(p)
  {
    hide Scan, Names, PlainNames;
    GoScanIsRelit(p.system);
    GoScanIsRelit(p.user);
    RelitNames(Scan(Python, p.system));
    RelitNames(Scan(Python, p.user));
  }

  /** The harness and Compile accept the same variables for a prompt exactly when every variable
      Python finds in it is also spelled somewhere with no white space but Go's. */
  lemma HarnessMirrorsCompile(p: Prompt)
    ensures (forall keys :: CheckPrompt(Chat(p), keys).Accepted? <==> Uses(Go, p) == keys) <==>
            Uses(Python, p) == PlainUses(p)
  {
    hide Scan, Uses, PlainUses, Used;
    GoUsesPlain(p);
    ChatUses(p);
    assert CheckPrompt(Chat(p), Uses(Go, p)).Accepted? <==> Uses(Python, p) == Uses(Go, p);
  }

  predicate OnlyPython(c: char) {
    In(Space(Python), c) && !In(Space(Go), c)
  }

  /** The only white space of the text is Go's. */
  predicate GoSpaced(t: string) {
    forall k :: 0 <= k < |t| ==> !OnlyPython(t[k])
  }

  /** A match with no character that only Python takes for white space is one of Go's. */
  lemma SpelledPlainly(raw: string, name: string)
    requires Spells(Python, raw, name) && GoSpaced(raw)
    ensures MatchAt(Go, raw).Some?
  {
    var pre, post :| SpellsWith(Python, raw, name, pre, post);
    var n := |raw|;
    assert forall k :: 0 <= k < |pre| ==> pre[k] == raw[2 + k];
    assert forall k :: 0 <= k < |post| ==> post[k] == raw[n - 2 - |post| + k];
    hide In;
    assert SpellsWith(Go, raw, name, pre, post);
    hide SpellsWith, MatchAt;
    assert raw[..n] == raw;
    SpelledIsMatched(Go, raw, n, name);
  }

  lemma PlainSplit(raw: string, rest: string)
    requires GoSpaced(raw + rest)
    ensures GoSpaced(raw) && GoSpaced(rest)
  {
    var t := raw + rest;
    hide OnlyPython;
    assert forall k :: 0 <= k < |raw| ==> raw[k] == t[k];
    assert forall k :: 0 <= k < |rest| ==> rest[k] == t[|raw| + k];
  }

  lemma {:induction false} PlainPieces(pieces: seq<Piece>)
    requires Leftmost(Python, pieces) && GoSpaced(Flat(pieces))
    ensures Relit(pieces) == pieces
  {
    if pieces != [] {
      hide NoneHere, GoSpaced, Spells, MatchAt;
      PlainSplit(Raw(pieces[0]), Flat(pieces[1..]));
      PlainPieces(pieces[1..]);
      if pieces[0].Variable? { SpelledPlainly(pieces[0].raw, pieces[0].name); }
    }
  }

  /** So on prompts whose only white space is Go's the two read the same variables in the same
      places, and the harness accepts a prompt exactly when it compiles. */
  lemma SameOnPlainText(p: Prompt, keys: set<string>)
    requires GoSpaced(p.system) && GoSpaced(p.user)
    ensures Scan(Python, p.system) == Scan(Go, p.system) && Scan(Python, p.user) == Scan(Go, p.user)
    ensures CheckPrompt(Chat(p), keys).Accepted? <==> Uses(Go, p) == keys
  {
    hide Leftmost, GoSpaced, Names, Used;
    ScanIsLeftmost(Python, p.system);
    PlainPieces(Scan(Python, p.system));
    GoScanIsRelit(p.system);
    ScanIsLeftmost(Python, p.user);
    PlainPieces(Scan(Python, p.user));
    GoScanIsRelit(p.user);
    ChatUses(p);
  }

  /** A message that is one variable only Python sees. */
  lemma ForeignUses(t: string, name: string)
    requires MatchAt(Python, t) == Some(Match(|t|, name)) && MatchAt(Go, t).None?
    ensures var p := Prompt("", 0, "", t); Uses(Python, p) == {name} && Uses(Go, p) == {}
  {
    ScanOne(Python, t, name);
    hide MatchAt, Scan, Names, PlainNames;
    GoUsesPlain(Prompt("", 0, "", t));
    assert !Plain(Variable(t, name));
    NamesCons([Variable(t, name)]);
    PlainNamesCons([Variable(t, name)]);
    NoPieces();
  }

  /** A variable spelled with a character that only Python takes for white space, such as a vertical
      tab: the harness accepts the prompt for it, and Compile takes it for plain text. */
  lemma ForeignSpace(c: char, name: string)
    requires OnlyPython(c) && IsName(name)
    ensures var p := Prompt("", 0, "", "{{" + [c] + name + "}}");
            CheckPrompt(Chat(p), {name}).Accepted? && Uses(Go, p) == {}
  {
    hide OnlyPython, IsName, MatchAt, Uses, Used, RightShape;
    var t := "{{" + [c] + name + "}}";
    var p := Prompt("", 0, "", t);
    ForeignMatches(t, c, name);
    ForeignUses(t, name);
    ChatUses(p);
    ChatIsRight(p);
  }

  lemma ForeignMatches(t: string, c: char, name: string)
    requires OnlyPython(c) && IsName(name) && t == "{{" + [c] + name + "}}"
    ensures MatchAt(Python, t) == Some(Match(|t|, name)) && MatchAt(Go, t).None?
  {
    assert t == "{{" + [c] + name + "" + "}}" && t[..|t|] == t;
    assert t[2] == c && !In(Word, c);
    assert AllIn(Space(Python), [c]);
    SkipEnds(t, 2, 2, Space(Go));
    SkipEnds(t, 2, 2, Word);
    hide In, AllIn, IsName, MatchAt;
    assert SpellsWith(Python, t[..|t|], name, [c], "") by { NothingIsIn(); }
    SpelledIsMatched(Python, t, |t|, name);
    assert MatchAt(Go, t).None? by { GoStops(t); }
  }

  lemma NothingIsIn()
    ensures AllIn(Space(Python), "")
  {
  }

  lemma GoStops(t: string)
    requires |t| > 2 && Skip(t, 2, Space(Go)) == 2 && Skip(t, 2, Word) == 2
    ensures MatchAt(Go, t).None?
  {
  }

  lemma ChatIsRight(p: Prompt)
    ensures RightShape(Chat(p))
  {
  }

  lemma ScanOne(d: Dialect, t: string, name: string)
    requires MatchAt(d, t) == Some(Match(|t|, name))
    ensures Scan(d, t) == [Variable(t, name)] && Scan(d, "") == []
  {
    hide MatchAt;
    assert t[..|t|] == t && t[|t|..] == "";
  }

  lemma NoPieces()
    ensures Names([]) == {} && PlainNames([]) == {}
  {
  }
}
