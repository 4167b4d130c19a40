/** What the Summary functions come to, said of the lists and texts themselves: which claims are
    kept, when a model answer is usable, and what a reader finds in the stored text. */
module SummaryMeaning {
  import opened Summary
  import opened Text

  // ----- The first values that are kept -----

  /** `out` is the first `limit` of the values that are kept, trimmed; `at` says where they stand. */
  ghost predicate PicksAt(values: seq<string>, limit: nat, keep: string -> bool, out: seq<string>, at: seq<nat>) {
    && |at| == |out| <= limit
    && (forall k :: 0 <= k < |at| ==> at[k] < |values| && out[k] == TrimSpace(values[at[k]]) && keep(out[k]))
    && (forall j, k :: 0 <= j < k < |at| ==> at[j] < at[k])
    && (forall i :: 0 <= i < |values| && keep(TrimSpace(values[i])) ==>
          i in at || (|at| == limit && forall k :: 0 <= k < |at| ==> at[k] < i))
  }

  ghost predicate Picks(values: seq<string>, limit: nat, keep: string -> bool, out: seq<string>) {
    exists at :: PicksAt(values, limit, keep, out, at)
  }

  function Kept(values: seq<string>, keep: string -> bool): seq<string> {
    if values == [] then []
    else
      var v := TrimSpace(values[|values| - 1]);
      Kept(values[..|values| - 1], keep) + if keep(v) then [v] else []
  }

  lemma PickOne(values: seq<string>, limit: nat, keep: string -> bool, out: seq<string>, at: seq<nat>)
    requires values != [] && PicksAt(values[..|values| - 1], limit, keep, out, at)
    ensures var v := TrimSpace(values[|values| - 1]);
            if keep(v) && |out| < limit then PicksAt(values, limit, keep, out + [v], at + [|values| - 1])
            else PicksAt(values, limit, keep, out, at)
  {
    hide TrimSpace;
    var n := |values| - 1;
    var init, v := values[..n], TrimSpace(values[n]);
    assert forall i :: 0 <= i < n ==> init[i] == values[i];
    if keep(v) && |out| < limit {
      var at' := at + [n];
      assert n == at'[|at|];
      forall i | 0 <= i < |values| && keep(TrimSpace(values[i])) ensures i in at' {
        if i < n { assert keep(TrimSpace(init[i])) && i in at; }
      }
    }
  }

  lemma {:induction false} KeptPicks(values: seq<string>, limit: nat, keep: string -> bool) returns (at: seq<nat>)
    ensures PicksAt(values, limit, keep, Take(Kept(values, keep), limit), at)
  {
    if values == [] {
      at := [];
    } else {
      var n := |values| - 1;
      at := KeptPicks(values[..n], limit, keep);
      PickOne(values, limit, keep, Take(Kept(values[..n], keep), limit), at);
      hide PicksAt, TrimSpace;
      var v, before := TrimSpace(values[n]), Kept(values[..n], keep);
      if keep(v) && |Take(before, limit)| < limit {
        assert Take(before + [v], limit) == Take(before, limit) + [v];
        at := at + [n];
      } else {
        assert keep(v) ==> Take(before + [v], limit) == Take(before, limit);
        assert before + [] == before;
      }
    }
  }

  predicate NotBlank(v: string) {
    v != ""
  }

  /** Fit for a reader: not blank, not about truncation. */
  function Fit(lib: Library): string -> bool {
    v => v != "" && !IsTruncationClaim(lib, v)
  }

  lemma {:induction false} TrimsAreKept(values: seq<string>)
    ensures Trims(values) == Kept(values, NotBlank)
  {
    if values != [] { TrimsAreKept(values[..|values| - 1]); }
  }

  lemma {:induction false} ShowableAreKept(lib: Library, values: seq<string>)
    ensures Showable(lib, values) == Kept(values, Fit(lib))
  {
    if values != [] { ShowableAreKept(lib, values[..|values| - 1]); }
  }

  /** A reader is shown the first two candidates that are fit, trimmed. */
  lemma ShownAreFirst(lib: Library, candidates: seq<string>)
    ensures Picks(candidates, 2, Fit(lib), Take(Showable(lib, candidates), MAX_SHOWN))
  {
    hide TrimSpace;
    ShowableAreKept(lib, candidates);
    var at := KeptPicks(candidates, 2, Fit(lib));
  }

  /** `part` stands in `t`. */
  ghost predicate Shows(t: string, part: string) {
    exists pre, post :: t == pre + part + post
  }

  lemma ContainsShows(t: string, part: string)
    ensures Contains(t, part) <==> Shows(t, part)
  {
    if Contains(t, part) {
      var i :| 0 <= i <= |t| && HasPrefix(t[i..], part);
      assert t == t[..i] + part + t[i..][|part|..];
    }
    if pre, post :| t == pre + part + post {
      assert t[|pre|..] == part + post && HasPrefix(t[|pre|..], part);
    }
  }

  /** Fit is what is not blank and in which, lower-cased, neither "truncated" nor "stub" stands. */
  lemma FitMeans(lib: Library, claim: string)
    ensures Fit(lib)(claim) <==>
            claim != "" && !Shows(lib.lower(claim), "truncated") && !Shows(lib.lower(claim), "stub")
  {
    hide Contains, Shows;
    ContainsShows(lib.lower(claim), "truncated");
    ContainsShows(lib.lower(claim), "stub");
  }

  // ----- Sentences -----

  /** A sentence may end with `a` when `b` follows. */
  predicate Parts(a: char, b: char) {
    a in ".!?" && b in " \n"
  }

  /** No piece is empty, a sentence may end between any two of them, and nowhere inside one. */
  predicate WellCut(pieces: seq<string>) {
    && (forall k :: 0 <= k < |pieces| ==> pieces[k] != "" && Whole(pieces[k]))
    && (forall k :: 0 <= k < |pieces| - 1 ==> Parts(pieces[k][|pieces[k]| - 1], pieces[k + 1][0]))
  }

  predicate Whole(piece: string) {
    forall i :: 0 < i < |piece| ==> !Parts(piece[i - 1], piece[i])
  }

  lemma CutMeans(t: string, i: nat)
    requires 1 <= i < |t|
    ensures Cut(t, i) <==> Parts(t[i - 1], t[i])
  {
  }

  lemma HeadIsWhole(t: string, n: nat)
    requires n <= |t|
    ensures NoCut(t, 0, n) <==> Whole(t[..n])
  {
    hide Cut, Parts;
    forall i | 0 < i < n ensures Cut(t, i) <==> Parts(t[..n][i - 1], t[..n][i]) { CutMeans(t, i); }
    var piece := t[..n];
    if NoCut(t, 0, n) {
      forall i | 0 < i < n ensures !Parts(piece[i - 1], piece[i]) { assert !Cut(t, i); }
    }
    if Whole(piece) {
      forall i | 0 < i < n ensures !Cut(t, i) { assert !Parts(piece[i - 1], piece[i]); }
    }
  }

  lemma WellCutHead(pieces: seq<string>)
    requires pieces != []
    ensures WellCut(pieces) <==>
            && pieces[0] != "" && Whole(pieces[0]) && WellCut(pieces[1..])
            && (|pieces| > 1 ==> pieces[1] != "" && Parts(pieces[0][|pieces[0]| - 1], pieces[1][0]))
  {
    hide Parts, Whole;
    var tail := pieces[1..];
    assert forall k :: 0 <= k < |tail| ==> tail[k] == pieces[k + 1];
    if WellCut(tail) && pieces[0] != "" && Whole(pieces[0]) {
      assert forall k :: 1 <= k < |pieces| ==> pieces[k] == tail[k - 1];
    }
  }

  lemma SplitHead(t: string, pieces: seq<string>)
    requires pieces != [] && pieces[0] != "" && HasPrefix(t, pieces[0])
    ensures var n := |pieces[0]|;
            Split(t, pieces) <==>
            && Whole(pieces[0]) && Split(t[n..], pieces[1..])
            && (n < |t| ==> Parts(pieces[0][n - 1], t[n]))
  {
    hide Parts, Whole, Cut;
    var n := |pieces[0]|;
    HeadIsWhole(t, n);
    assert t[..n][n - 1] == t[n - 1];
    if n < |t| { CutMeans(t, n); }
    hide NoCut;
  }

  /** The sentences of a text are the pieces it is made of that are cut so. */
  lemma {:induction false} SplitMeans(t: string, pieces: seq<string>)
    ensures Split(t, pieces) <==> Concat(pieces) == t && WellCut(pieces)
    decreases |pieces|
  {
    if pieces == [] {
      assert Concat(pieces) == "";
    } else if Split(t, pieces) {
      SplitConcats(t, pieces);
      SplitHead(t, pieces);
      SplitMeans(t[|pieces[0]|..], pieces[1..]);
      WellCutHead(pieces);
      hide WellCut, Whole, Parts, Split;
      assert |pieces| > 1 ==> t[|pieces[0]|] == pieces[1][0];
    } else if Concat(pieces) == t && WellCut(pieces) {
      WellCutHead(pieces);
      hide WellCut, Whole, Parts, Split;
      var n := |pieces[0]|;
      assert t[..n] == pieces[0] && t[n..] == Concat(pieces[1..]);
      SplitMeans(t[n..], pieces[1..]);
      SplitHead(t, pieces);
    }
  }

  // ----- When a model answer is usable -----

  lemma FirstIs(s: string, c: char, i: nat)
    requires i < |s| && s[i] == c && c !in s[..i]
    ensures FirstIndex(s, c) == i
  {
    var f := FirstIndex(s, c);
    assert forall k :: 0 <= k < i ==> s[..i][k] == s[k];
    hide FirstIndex;
  }

  lemma LastIs(s: string, c: char, j: nat)
    requires j < |s| && s[j] == c && c !in s[j + 1..]
    ensures LastIndex(s, c) == j
  {
    var l := LastIndex(s, c);
    assert forall k :: j < k < |s| ==> s[j + 1..][k - j - 1] == s[k];
    hide LastIndex;
  }

  /** The model's answer is read as the JSON between its first brace, at `i`, and its last, at `j`. */
  lemma AnswerIsBraced(lib: Library, raw: string, i: nat, j: nat)
    requires i < |raw| && raw[i] == '{' && '{' !in raw[..i]
    requires j < |raw| && raw[j] == '}' && '}' !in raw[j + 1..]
    ensures Answered(lib, raw) == if i <= j then lib.decode(raw[i..j + 1]) else None
  {
    hide FirstIndex, LastIndex;
    FirstIs(raw, '{', i);
    LastIs(raw, '}', j);
  }

  lemma UnbracedIsNoAnswer(lib: Library, raw: string)
    requires '{' !in raw || '}' !in raw
    ensures Answered(lib, raw).None?
  {
    hide FirstIndex, LastIndex;
  }

  /** It is usable exactly when that decodes and has a claim that is not blank; what is stored is then
      its first three claims and first six entities, trimmed, and its kind if that is a known one. */
  lemma UsableExactly(lib: Library, raw: string)
    ensures Structure(lib, Some(raw)).Some? <==>
            && Answered(lib, raw).Some?
            && var claims := Answered(lib, raw).value.claims;
               exists k :: 0 <= k < |claims| && TrimSpace(claims[k]) != ""
    ensures Structure(lib, Some(raw)).Some? ==>
              var s, a := Structure(lib, Some(raw)).value, Answered(lib, raw).value;
              && Picks(a.claims, 3, NotBlank, s.claims) && Picks(a.entities, 6, NotBlank, s.entities)
              && s.kind == (if lib.lower(TrimSpace(a.kind)) in KINDS then lib.lower(TrimSpace(a.kind)) else "other")
  {
    hide TrimSpace, Answered, KINDS;
    if Answered(lib, raw).Some? {
      var a := Answered(lib, raw).value;
      TrimsAreKept(a.claims);
      TrimsAreKept(a.entities);
      var at := KeptPicks(a.claims, 3, NotBlank);
      var also := KeptPicks(a.entities, 6, NotBlank);
      hide Trims, Kept;
      var out := Take(Kept(a.claims, NotBlank), 3);
      assert out != [] ==> out[0] == TrimSpace(a.claims[at[0]]) && NotBlank(out[0]);
      assert out == [] ==> forall k :: 0 <= k < |a.claims| ==> !NotBlank(TrimSpace(a.claims[k]));
    }
  }

  // ----- What a lead extract says -----

  /** A text cut at its blanks. */
  function CutAtBlanks(t: string): seq<string> {
    var i := FirstIndex(t, ' ');
    if i < 0 then [t] else [t[..i]] + CutAtBlanks(t[i + 1..])
  }

  lemma CutAtFirst(w: string, rest: string)
    requires ' ' !in w
    ensures CutAtBlanks(w) == [w] && CutAtBlanks(w + " " + rest) == [w] + CutAtBlanks(rest)
  {
    var t := w + " " + rest;
    assert t[|w|] == ' ' && t[..|w|] == w && t[|w| + 1..] == rest;
    FirstIs(t, ' ', |w|);
    assert FirstIndex(w, ' ') == -1;
    hide FirstIndex;
  }

  lemma {:induction false} JoinedIsCut(words: seq<string>)
    requires words != [] && forall k :: 0 <= k < |words| ==> ' ' !in words[k]
    ensures CutAtBlanks(Join(words, " ")) == words
  {
    hide CutAtBlanks;
    if |words| == 1 {
      CutAtFirst(words[0], "");
    } else {
      CutAtFirst(words[0], Join(words[1..], " "));
      JoinedIsCut(words[1..]);
      assert words == [words[0]] + words[1..];
    }
  }

  /** The text of a lead extract is the first 150 words of the content with single blanks between. */
  lemma LeadIsFirstWords(lib: Library, content: string)
    requires Lawful(lib)
    ensures lib.words(content) == [] ==> LeadText(lib, content) == ""
    ensures lib.words(content) != [] ==>
              CutAtBlanks(LeadText(lib, content)) == Take(lib.words(content), 150)
  {
    assert SplitsWell(lib, content);
    hide Lawful;
    var words := Take(lib.words(content), 150);
    assert IsSpace(' ');
    hide CutAtBlanks;
    forall k | 0 <= k < |words| ensures ' ' !in words[k] {
      hide IsSpace;
      assert NoSpace(lib.words(content)[k]);
    }
    if words != [] { JoinedIsCut(words); }
  }

  // ----- What the selection call sees -----

  lemma {:induction false} JoinShows(words: seq<string>, sep: string, k: nat)
    requires k < |words|
    ensures Shows(Join(words, sep), words[k])
  {
    var t := Join(words, sep);
    if k == 0 {
      var rest := if |words| == 1 then "" else sep + Join(words[1..], sep);
      assert t == "" + words[0] + rest;
    } else {
      JoinShows(words[1..], sep, k - 1);
      var pre, post :| Join(words[1..], sep) == pre + words[k] + post;
      assert t == (words[0] + sep + pre) + words[k] + post;
    }
  }

  lemma ShowsWithin(t: string, part: string, pre: string, post: string)
    requires Shows(t, part)
    ensures Shows(pre + t + post, part)
  {
    var a, b :| t == a + part + b;
    assert pre + t + post == (pre + a) + part + (b + post);
  }

  /** The line of a structured Summary starts with its kind and shows every claim and entity. */
  lemma LineShowsAll(s: Structured, k: nat)
    ensures HasPrefix(Line(s), s.kind + ": ")
    ensures k < |s.claims| ==> Shows(Line(s), s.claims[k])
    ensures k < |s.entities| ==> Shows(Line(s), s.entities[k])
  {
    var tail := if s.entities != [] then " (entities: " + Join(s.entities, ", ") + ")" else "";
    var head := s.kind + ": " + Join(s.claims, "; ");
    assert Line(s) == head + tail;
    hide Join;
    if k < |s.claims| {
      JoinShows(s.claims, "; ", k);
      ShowsWithin(Join(s.claims, "; "), s.claims[k], s.kind + ": ", tail);
    }
    if k < |s.entities| {
      JoinShows(s.entities, ", ", k);
      ShowsWithin(Join(s.entities, ", "), s.entities[k], head + " (entities: ", ")");
      assert head + " (entities: " + Join(s.entities, ", ") + ")" == Line(s);
    }
  }

  lemma PrefixAfter(t: string, prefix: string, mark: string)
    requires HasPrefix(t, prefix)
    ensures HasPrefix(mark + t, mark + prefix)
  {
    assert (mark + t)[..|mark + prefix|] == mark + t[..|prefix|];
  }

  /** So what the selection call sees of a structured Summary is its kind, claims and entities, after
      the marker when the content was partial. */
  lemma FlattenShowsAll(lib: Library, title: string, content: string, partial: bool, raw: Option<string>, k: nat)
    requires Lawful(lib) && Structure(lib, raw).Some?
    ensures var s, text := Structure(lib, raw).value, Flatten(lib, Stored(lib, title, content, partial, raw));
            && HasPrefix(text, (if partial then MARKER + " " else "") + (s.kind + ": "))
            && (k < |s.claims| ==> Shows(text, s.claims[k]))
            && (k < |s.entities| ==> Shows(text, s.entities[k]))
  {
    var s := Structure(lib, raw).value;
    StructureIsUsable(lib, raw);
    assert EncodesWell(lib, s);
    assert Stored(lib, title, content, partial, raw) == Marked(partial, lib.encode(s));
    hide Structure, Lawful, Usable, EncodesWell, Line, MARKER, Flatten, Marked, Stored;
    FlattenIsLine(lib, s, partial);
    LineShowsAll(s, k);
    var mark := if partial then MARKER + " " else "";
    PrefixAfter(Line(s), s.kind + ": ", mark);
    assert mark + Line(s) + "" == mark + Line(s);
    if k < |s.claims| { ShowsWithin(Line(s), s.claims[k], mark, ""); }
    if k < |s.entities| { ShowsWithin(Line(s), s.entities[k], mark, ""); }
  }
}
