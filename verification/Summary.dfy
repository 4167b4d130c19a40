/** Stored Summaries: how Enrichment writes them (internal/articleindex/summary.go and service.go)
    and how the Digest page (internal/digestartifact/claims.go) and the selection call
    (internal/ai/cloudflare.go) read them back. */
module Summary {
  import opened Text

  /** The model's structured Summary. */
  datatype Structured = Structured(kind: string, claims: seq<string>, entities: seq<string>)

  /** The library calls involved: JSON both ways, `strings.ToLower`, and the words of the cleaned
      content. */
  datatype Library = Library(
    decode: string -> Option<Structured>, decodeClaims: string -> Option<seq<string>>,
    encode: Structured -> string, lower: string -> string,
    words: string -> seq<string>)

  predicate NoSpace(s: string) {
    forall i :: 0 <= i < |s| ==> !IsSpace(s[i])
  }

  predicate Braced(s: string) {
    HasPrefix(TrimSpace(s), "{")
  }

  /** Starts as an object with a member does: a brace, then a quote. */
  predicate Object(s: string) {
    Braced(s) && HasPrefix(TrimLeft(TrimSpace(s)[1..]), "\"")
  }

  predicate EncodesWell(lib: Library, s: Structured) {
    var e := lib.encode(s);
    lib.decode(e) == Some(s) && lib.decodeClaims(e) == Some(s.claims) && |e| >= 2 && e[0] == '{' && e[|e| - 1] == '}'
  }

  predicate HasClaims(lib: Library, t: string) {
    lib.decode(t).Some? && lib.decode(t).value.claims != []
  }

  predicate DecodesWell(lib: Library, t: string) {
    && (HasClaims(lib, t) ==> Object(t))
    && (lib.decodeClaims(t).Some? && lib.decodeClaims(t).value != [] ==> Object(t))
    && lib.decode(t + "\n") == lib.decode(t)
  }

  predicate SplitsWell(lib: Library, t: string) {
    forall k :: 0 <= k < |lib.words(t)| ==> lib.words(t)[k] != "" && NoSpace(lib.words(t)[k])
  }

  /** What is relied on: decoding undoes encoding, only an object decodes to claims, a newline after
      it does not matter, words are words. */
  ghost predicate Lawful(lib: Library) {
    (forall s :: EncodesWell(lib, s)) && (forall t :: DecodesWell(lib, t)) && (forall t :: SplitsWell(lib, t))
  }

  const MARKER := "[content: partial]"
  const MAX_CLAIMS := 3
  const MAX_ENTITIES := 6
  const LEAD_WORDS := 150
  const MAX_SHOWN := 2
  const KINDS := ["news", "analysis", "tutorial", "opinion", "announcement", "newsletter", "other"]

  // ----- Lists of claims -----

  /** The values that are not blank, trimmed. */
  function Trims(values: seq<string>): seq<string> {
    if values == [] then []
    else
      var v := TrimSpace(values[|values| - 1]);
      Trims(values[..|values| - 1]) + if v != "" then [v] else []
  }

  function Take<T>(s: seq<T>, n: nat): seq<T> {
    if |s| <= n then s else s[..n]
  }

  method NonEmpty(values: seq<string>, limit: nat) returns (out: seq<string>)
    ensures out == Take(Trims(values), limit)
  {
    out := [];
    var i := 0;
    while i < |values|
      invariant i <= |values| && out == Take(Trims(values[..i]), limit)
    {
      assert values[..i + 1][..i] == values[..i];
      var v := TrimSpace(values[i]);
      if v != "" && |out| < limit { out := out + [v]; }
      i := i + 1;
    }
    assert values[..i] == values;
  }

  lemma {:induction false} TrimsAreTrimmed(values: seq<string>)
    ensures forall k :: 0 <= k < |Trims(values)| ==>
              Trims(values)[k] != "" && TrimSpace(Trims(values)[k]) == Trims(values)[k]
  {
    if values != [] {
      TrimsAreTrimmed(values[..|values| - 1]);
      TrimSpaceIdempotent(values[|values| - 1]);
    }
  }

  // ----- Writing -----

  function FirstIndex(s: string, c: char): (i: int)
    ensures -1 <= i < |s| && (i >= 0 ==> s[i] == c) && (forall k :: 0 <= k < |s| && s[k] == c ==> 0 <= i <= k)
  {
    if s == [] then -1
    else if s[0] == c then 0
    else
      var i := FirstIndex(s[1..], c);
      if i < 0 then assert forall k :: 1 <= k < |s| ==> s[k] == s[1..][k - 1]; -1
      else assert forall k :: 1 <= k < |s| ==> s[k] == s[1..][k - 1]; i + 1
  }

  function LastIndex(s: string, c: char): (i: int)
    ensures -1 <= i < |s| && (i >= 0 ==> s[i] == c) && (forall k :: 0 <= k < |s| && s[k] == c ==> k <= i)
  {
    if s == [] then -1 else if s[|s| - 1] == c then |s| - 1 else LastIndex(s[..|s| - 1], c)
  }

  /** The model's answer as JSON, from its first brace to its last. */
  function Answered(lib: Library, raw: string): Option<Structured> {
    var start, end := FirstIndex(raw, '{'), LastIndex(raw, '}');
    if start < 0 || end < start then None else lib.decode(raw[start..end + 1])
  }

  function Normalized(lib: Library, s: Structured): Structured {
    var kind := lib.lower(TrimSpace(s.kind));
    Structured(if kind in KINDS then kind else "other",
               Take(Trims(s.claims), MAX_CLAIMS), Take(Trims(s.entities), MAX_ENTITIES))
  }

  /** A structured Summary Enrichment may store: one to three claims, at most six entities, none
      blank, of a known kind. */
  predicate Usable(s: Structured) {
    && s.kind in KINDS && 1 <= |s.claims| <= MAX_CLAIMS && |s.entities| <= MAX_ENTITIES
    && (forall k :: 0 <= k < |s.claims| ==> s.claims[k] != "" && TrimSpace(s.claims[k]) == s.claims[k])
    && (forall k :: 0 <= k < |s.entities| ==> s.entities[k] != "" && TrimSpace(s.entities[k]) == s.entities[k])
  }

  /** The structured Summary a model answer is worth; nothing when it must fall back. */
  function Structure(lib: Library, raw: Option<string>): Option<Structured> {
    if raw.None? || Answered(lib, raw.value).None? then None
    else
      var s := Normalized(lib, Answered(lib, raw.value).value);
      if s.claims == [] then None else Some(s)
  }

  lemma StructureIsUsable(lib: Library, raw: Option<string>)
    ensures Structure(lib, raw).Some? ==> Usable(Structure(lib, raw).value)
  {
    hide FirstIndex, LastIndex, Trims;
    if Structure(lib, raw).Some? {
      var s := Answered(lib, raw.value).value;
      TrimsAreTrimmed(s.claims);
      TrimsAreTrimmed(s.entities);
      assert "other" == KINDS[6];
    }
  }

  method NormalizeSummary(lib: Library, raw: string) returns (r: Option<string>)
    ensures r == match Structure(lib, Some(raw)) case None => None case Some(s) => Some(lib.encode(s))
  {
    hide FirstIndex, LastIndex, Trims, TrimSpace, Take, KINDS;
    var start, end := FirstIndex(raw, '{'), LastIndex(raw, '}');
    if start < 0 || end < start { return None; }
    var parsed := lib.decode(raw[start..end + 1]);
    if parsed.None? { return None; }
    var s := parsed.value;
    var claims := NonEmpty(s.claims, MAX_CLAIMS);
    if |claims| == 0 { return None; }
    var entities := NonEmpty(s.entities, MAX_ENTITIES);
    var kind := lib.lower(TrimSpace(s.kind));
    if kind !in KINDS { kind := "other"; }
    return Some(lib.encode(Structured(kind, claims, entities)));
  }

  function Join(words: seq<string>, sep: string): string {
    if words == [] then "" else if |words| == 1 then words[0] else words[0] + sep + Join(words[1..], sep)
  }

  function LeadText(lib: Library, content: string): string {
    Join(Take(lib.words(content), LEAD_WORDS), " ")
  }

  function Marked(partial: bool, s: string): string {
    if partial then MARKER + "\n" + s else s
  }

  function LeadExtract(lib: Library, title: string, content: string, partial: bool): string {
    Marked(partial, title + "\n" + LeadText(lib, content))
  }

  /** `summarize`: `raw` is the model's answer, nothing when the call failed. */
  function Stored(lib: Library, title: string, content: string, partial: bool, raw: Option<string>): string {
    match Structure(lib, raw)
    case Some(s) => Marked(partial, lib.encode(s))
    case None => LeadExtract(lib, title, content, partial)
  }

  method Summarize(lib: Library, title: string, content: string, partial: bool, raw: Option<string>)
    returns (summary: string, valid: bool)
    ensures summary == Stored(lib, title, content, partial, raw)
    ensures valid <==> Structure(lib, raw).Some?
  {
    hide Structure;
    if raw.Some? {
      var normalized := NormalizeSummary(lib, raw.value);
      if normalized.Some? { return Marked(partial, normalized.value), true; }
    } else {
      assert Structure(lib, raw).None? by { NothingStructured(lib); }
    }
    return LeadExtract(lib, title, content, partial), false;
  }

  lemma NothingStructured(lib: Library)
    ensures Structure(lib, None).None?
  {
  }

  // ----- The selection call -----

  /** A structured Summary as one line of text. */
  function Line(s: Structured): string {
    s.kind + ": " + Join(s.claims, "; ")
    + if s.entities != [] then " (entities: " + Join(s.entities, ", ") + ")" else ""
  }

  function Flatten(lib: Library, summary: string): string {
    var partial := HasPrefix(summary, MARKER + "\n");
    var body := if partial then summary[|MARKER| + 1..] else summary;
    if !HasClaims(lib, body) then summary
    else (if partial then MARKER + " " else "") + Line(lib.decode(body).value)
  }

  /** The title starts with the marker, or the title and what is under it decode to a Summary whose
      line does. */
  predicate LooksPartial(lib: Library, title: string, content: string) {
    var lead := title + "\n" + LeadText(lib, content);
    HasPrefix(title, MARKER) || (HasClaims(lib, lead) && HasPrefix(Line(lib.decode(lead).value), MARKER))
  }

  lemma JoinedIsPlain(words: seq<string>)
    requires forall k :: 0 <= k < |words| ==> words[k] != "" && NoSpace(words[k])
    ensures var t := Join(words, " "); Trimmed(t) && '\n' !in t && (t == "" <==> words == [])
  {
    if |words| > 1 {
      JoinedIsPlain(words[1..]);
      assert Join(words, " ") == words[0] + " " + Join(words[1..], " ");
    }
  }

  lemma LeadTextIsPlain(lib: Library, content: string)
    requires Lawful(lib)
    ensures var t := LeadText(lib, content); Trimmed(t) && '\n' !in t
  {
    assert SplitsWell(lib, content);
    JoinedIsPlain(Take(lib.words(content), LEAD_WORDS));
  }

  /** For any title: what the selection call sees starts with the marker exactly when the content
      was partial, but for a fetched Article that falls back under a title that looks partial. */
  lemma FlattenKeepsMarker(lib: Library, title: string, content: string, partial: bool, raw: Option<string>)
    requires Lawful(lib)
    ensures (HasPrefix(Flatten(lib, Stored(lib, title, content, partial, raw)), MARKER) <==> partial) <==>
            Structure(lib, raw).Some? || partial || !LooksPartial(lib, title, content)
  {
    hide Structure, LeadText, Line;
    match Structure(lib, raw)
    case Some(s) =>
      StructureIsUsable(lib, raw);
      assert EncodesWell(lib, s);
      FlattenStructured(lib, s, partial);
    case None =>
      if partial { FlattenPartial(lib, title + "\n" + LeadText(lib, content)); }
      else { FlattenLead(lib, title, LeadText(lib, content)); }
  }

  lemma FlattenPartial(lib: Library, lead: string)
    ensures HasPrefix(Flatten(lib, Marked(true, lead)), MARKER)
  {
    hide Line;
    var m := MARKER + "\n";
    assert (m + lead)[..|m|] == m && (m + lead)[|m|..] == lead;
    assert (m + lead)[..|MARKER|] == MARKER;
    if HasClaims(lib, lead) {
      var line := Line(lib.decode(lead).value);
      assert (MARKER + " " + line)[..|MARKER|] == MARKER;
    }
  }

  lemma FlattenLead(lib: Library, title: string, text: string)
    requires Lawful(lib)
    ensures var lead := title + "\n" + text;
            HasPrefix(Flatten(lib, lead), MARKER) <==>
            HasPrefix(title, MARKER) || (HasClaims(lib, lead) && HasPrefix(Line(lib.decode(lead).value), MARKER))
  {
    hide Line;
    var lead := title + "\n" + text;
    LeadMarked(title, text);
    LongerPrefix(lead, MARKER, "\n");
    if HasPrefix(lead, MARKER + "\n") {
      var body := lead[|MARKER| + 1..];
      assert lead == Marked(true, body);
      FlattenPartial(lib, body);
    } else if HasPrefix(lead, MARKER) {
      assert DecodesWell(lib, lead);
      MarkedIsNotObject(lead);
    } else if HasClaims(lib, lead) {
      assert "" + Line(lib.decode(lead).value) == Line(lib.decode(lead).value);
    }
  }

  /** The marker is one line, so a lead extract starts with it exactly when its title does. */
  lemma LeadMarked(title: string, text: string)
    ensures HasPrefix(title + "\n" + text, MARKER) <==> HasPrefix(title, MARKER)
  {
    var lead := title + "\n" + text;
    if |MARKER| <= |title| {
      assert lead[..|MARKER|] == title[..|MARKER|];
    } else if HasPrefix(lead, MARKER) {
      assert lead[..|MARKER|][|title|] == '\n';
      NoNewlineInMarker(|title|);
    }
  }

  lemma MarkedIsNotObject(t: string)
    requires HasPrefix(t, MARKER)
    ensures !Object(t)
  {
    PrefixHead(t, MARKER);
    assert t[0] == '[' && !IsSpace(t[0]);
    TrimKeepsHead(t);
    if Braced(t) { PrefixHead(TrimSpace(t), "{"); }
  }

  lemma TrimKeepsHead(t: string)
    requires t != "" && !IsSpace(t[0])
    ensures TrimSpace(t) != "" && TrimSpace(t)[0] == t[0]
  {
    var i, j := TrimSpaceSplits(t);
  }

  /** A stored structured Summary is seen as its line, after the marker when it is marked. */
  lemma FlattenIsLine(lib: Library, s: Structured, partial: bool)
    requires EncodesWell(lib, s) && s.claims != []
    ensures Flatten(lib, Marked(partial, lib.encode(s))) == (if partial then MARKER + " " else "") + Line(s)
  {
    hide Line;
    var e := lib.encode(s);
    var m := MARKER + "\n";
    assert MARKER[0] == '[';
    if partial {
      assert (m + e)[..|m|] == m && (m + e)[|m|..] == e;
    } else {
      assert e[0] != m[0];
    }
  }

  lemma FlattenStructured(lib: Library, s: Structured, partial: bool)
    requires EncodesWell(lib, s) && Usable(s)
    ensures HasPrefix(Flatten(lib, Marked(partial, lib.encode(s))), MARKER) <==> partial
  {
    FlattenIsLine(lib, s, partial);
    hide Flatten, Marked;
    if !partial { assert MARKER[0] == '[' && s.kind[0] != '['; }
  }

  lemma NoNewlineInMarker(k: nat)
    requires k < |MARKER|
    ensures MARKER[k] != '\n'
  {
  }

  lemma LongerPrefix(t: string, a: string, b: string)
    ensures HasPrefix(t, a + b) ==> HasPrefix(t, a)
  {
    if HasPrefix(t, a + b) { assert t[..|a|] == (a + b)[..|a|]; }
  }

  const DISGUISE := Structured(MARKER, ["x"], [])

  /** Such a title: the JSON of a Summary whose kind spells the marker. Over an Article whose content
      cleans to nothing it is shown as partial, though the content was fetched. */
  lemma JsonTitleMisleads(lib: Library, content: string)
    requires Lawful(lib) && lib.words(content) == []
    ensures var title := lib.encode(DISGUISE);
            && LooksPartial(lib, title, content)
            && HasPrefix(Flatten(lib, Stored(lib, title, content, false, None)), MARKER)
  {
    var title := lib.encode(DISGUISE);
    assert EncodesWell(lib, DISGUISE) && DecodesWell(lib, title);
    assert LeadText(lib, content) == "" && title + "\n" + "" == title + "\n";
    LineShowsKind(DISGUISE);
    NothingStructured(lib);
    FlattenKeepsMarker(lib, title, content, false, None);
  }

  lemma LineShowsKind(s: Structured)
    ensures HasPrefix(Line(s), s.kind)
  {
    hide Join;
  }

  // ----- The Digest page -----

  /** A sentence may end before `i`: the character there ends one, and white space or nothing
      follows. */
  predicate Cut(t: string, i: nat) {
    && 1 <= i <= |t| && (t[i - 1] == '.' || t[i - 1] == '!' || t[i - 1] == '?')
    && (i == |t| || t[i] == ' ' || t[i] == '\n')
  }

  predicate NoCut(t: string, from: nat, to: nat) {
    forall i :: from < i < to ==> !Cut(t, i)
  }

  /** `out` is `t` cut at every such place and at no other. */
  ghost predicate Split(t: string, out: seq<string>) {
    if t == "" then out == []
    else
      && out != [] && out[0] != "" && HasPrefix(t, out[0])
      && NoCut(t, 0, |out[0]|)
      && (|out[0]| == |t| || Cut(t, |out[0]|))
      && Split(t[|out[0]|..], out[1..])
  }

  function Concat(parts: seq<string>): string {
    if parts == [] then "" else parts[0] + Concat(parts[1..])
  }

  lemma {:induction false} SplitConcats(t: string, out: seq<string>)
    requires Split(t, out)
    ensures Concat(out) == t
    decreases |t|
  {
    if t != "" {
      SplitConcats(t[|out[0]|..], out[1..]);
      assert t == out[0] + t[|out[0]|..];
    }
  }

  /** The cuts decide the sentences. */
  lemma {:induction false} SplitIsUnique(t: string, a: seq<string>, b: seq<string>)
    requires Split(t, a) && Split(t, b)
    ensures a == b
    decreases |t|
  {
    if t != "" {
      assert |a[0]| == |b[0]|;
      assert a[0] == b[0];
      SplitIsUnique(t[|a[0]|..], a[1..], b[1..]);
      assert a == [a[0]] + a[1..] && b == [b[0]] + b[1..];
    }
  }

  lemma NoCutInTail(t: string, n: nat, from: nat, to: nat)
    requires n <= |t| && NoCut(t, n + from, n + to)
    ensures NoCut(t[n..], from, to)
  {
    forall i | from < i < to ensures !Cut(t[n..], i) {
      assert !Cut(t, n + i);
    }
  }

  lemma CutInHead(t: string, piece: string, i: nat)
    requires i < |t|
    ensures Cut(t + piece, i) <==> Cut(t, i)
  {
  }

  lemma NoCutInHead(t: string, piece: string, from: nat, to: nat)
    requires to <= |t|
    ensures NoCut(t + piece, from, to) <==> NoCut(t, from, to)
  {
    hide Cut;
    forall i | from < i < to ensures Cut(t + piece, i) <==> Cut(t, i) {
      CutInHead(t, piece, i);
    }
  }

  lemma {:induction false} SplitAppend(t: string, out: seq<string>, piece: string)
    requires Split(t, out) && piece != "" && (t != "" ==> Cut(t + piece, |t|))
    requires NoCut(t + piece, |t|, |t| + |piece|)
    ensures Split(t + piece, out + [piece])
    decreases |t|
  {
    hide Cut, NoCut;
    var u := t + piece;
    if t == "" {
      assert u == piece && u[|piece|..] == "";
      assert out + [piece] == [piece];
      assert [piece][1..] == [];
    } else {
      var n := |out[0]|;
      assert u[n..] == t[n..] + piece;
      NoCutInHead(t, piece, 0, n);
      if n < |t| { CutInHead(t, piece, n); TailCut(u, n, |t| - n); }
      NoCutInTail(u, n, |t| - n, |t| - n + |piece|);
      SplitAppend(t[n..], out[1..], piece);
      assert (out + [piece])[1..] == out[1..] + [piece] && (out + [piece])[0] == out[0];
      assert u[..n] == t[..n];
    }
  }

  lemma TailCut(t: string, n: nat, i: nat)
    requires n + i <= |t| && 1 <= i
    ensures Cut(t[n..], i) <==> Cut(t, n + i)
  {
  }

  method Sentences(text: string) returns (out: seq<string>)
    ensures Split(text, out)
  {
    out := [];
    var start := 0;
    var i := 0;
    assert text[..0] == "";
    while i < |text|
      invariant start <= i <= |text| && Split(text[..start], out)
      invariant start > 0 ==> Cut(text, start)
      invariant NoCut(text, start, i + 1)
    {
      var r := text[i];
      if (r == '.' || r == '!' || r == '?') && (i + 1 == |text| || text[i + 1] == ' ' || text[i + 1] == '\n') {
        AddPiece(text, start, i + 1, out);
        out := out + [text[start..i + 1]];
        start := i + 1;
      }
      i := i + 1;
    }
    if start < |text| {
      AddPiece(text, start, |text|, out);
      out := out + [text[start..]];
      assert text[start..|text|] == text[start..];
    }
    assert text[..|text|] == text;
  }

  lemma AddPiece(text: string, start: nat, end: nat, out: seq<string>)
    requires start < end <= |text| && Split(text[..start], out) && (start > 0 ==> Cut(text, start))
    requires NoCut(text, start, end)
    ensures Split(text[..end], out + [text[start..end]])
  {
    hide Split, Cut, NoCut;
    assert text[..start] + text[start..end] == text[..end];
    assert text[..end] + text[end..] == text;
    NoCutInHead(text[..end], text[end..], start, end);
    CutInHead(text[..end], text[end..], start);
    SplitAppend(text[..start], out, text[start..end]);
  }

  predicate Contains(s: string, sub: string) {
    exists i :: 0 <= i <= |s| && HasPrefix(s[i..], sub)
  }

  /** The claim the model spends on a stub or truncated Article. */
  predicate IsTruncationClaim(lib: Library, claim: string) {
    Contains(lib.lower(claim), "truncated") || Contains(lib.lower(claim), "stub")
  }

  /** The candidates a reader may see, trimmed: not blank, not about truncation. */
  function Showable(lib: Library, candidates: seq<string>): seq<string> {
    if candidates == [] then []
    else
      var c := TrimSpace(candidates[|candidates| - 1]);
      Showable(lib, candidates[..|candidates| - 1]) + if c != "" && !IsTruncationClaim(lib, c) then [c] else []
  }

  lemma {:induction false} ShowableGrows(lib: Library, candidates: seq<string>, i: nat)
    requires i <= |candidates|
    ensures Showable(lib, candidates[..i]) <= Showable(lib, candidates)
  {
    if i < |candidates| {
      var init := candidates[..|candidates| - 1];
      ShowableGrows(lib, init, i);
      assert init[..i] == candidates[..i];
    } else {
      assert candidates[..i] == candidates;
    }
  }

  /** The body of a stored Summary, as `claims` reads it. */
  function Body(summary: string): string {
    TrimSpace(if HasPrefix(summary, MARKER) then summary[|MARKER|..] else summary)
  }

  /** The text after the first line, nothing when there is one line. */
  function AfterFirstLine(t: string): string {
    var i := FirstIndex(t, '\n');
    if i < 0 then "" else t[i + 1..]
  }

  /** The candidate claims of a stored Summary: `split` is how its text falls into sentences. */
  ghost predicate Candidates(lib: Library, summary: string, candidates: seq<string>) {
    var parsed := lib.decodeClaims(Body(summary));
    if parsed.Some? && parsed.value != [] then candidates == parsed.value
    else if HasPrefix(Body(summary), "{") then candidates == []
    else Split(AfterFirstLine(Body(summary)), candidates)
  }

  method FindCandidates(lib: Library, summary: string) returns (candidates: seq<string>)
    ensures Candidates(lib, summary, candidates)
  {
    hide Split, FirstIndex;
    var body := Body(summary);
    var parsed := lib.decodeClaims(body);
    if parsed.Some? && |parsed.value| > 0 { return parsed.value; }
    if HasPrefix(body, "{") { return []; }
    candidates := Sentences(AfterFirstLine(body));
  }

  /** A stored Summary has one list of candidates. */
  lemma CandidatesAreUnique(lib: Library, summary: string, a: seq<string>, b: seq<string>)
    requires Candidates(lib, summary, a) && Candidates(lib, summary, b)
    ensures a == b
  {
    hide Split, TrimSpace;
    var parsed := lib.decodeClaims(Body(summary));
    if !(parsed.Some? && parsed.value != []) && !HasPrefix(Body(summary), "{") {
      SplitIsUnique(AfterFirstLine(Body(summary)), a, b);
    }
  }

  method Claims(lib: Library, summary: string) returns (out: seq<string>)
    ensures exists candidates :: Candidates(lib, summary, candidates)
    ensures forall candidates :: Candidates(lib, summary, candidates) ==>
              out == Take(Showable(lib, candidates), MAX_SHOWN)
  {
    var cs := FindCandidates(lib, summary);
    out := ShowFirst(lib, cs);
    hide Candidates, Showable;
    forall candidates | Candidates(lib, summary, candidates) ensures candidates == cs {
      CandidatesAreUnique(lib, summary, candidates, cs);
    }
  }

  /** The loop over the candidates. */
  method ShowFirst(lib: Library, cs: seq<string>) returns (out: seq<string>)
    ensures out == Take(Showable(lib, cs), MAX_SHOWN)
  {
    hide IsTruncationClaim, TrimSpace;
    out := [];
    var i := 0;
    while i < |cs|
      invariant i <= |cs| && out == Showable(lib, cs[..i]) && |out| < MAX_SHOWN
    {
      assert cs[..i + 1][..i] == cs[..i];
      ShowableGrows(lib, cs, i + 1);
      var c := TrimSpace(cs[i]);
      if c != "" && !IsTruncationClaim(lib, c) {
        out := out + [c];
        if |out| == MAX_SHOWN { return; }
      }
      i := i + 1;
    }
    assert cs[..i] == cs;
  }

  /** The title as `claims` meets it: without a marker it takes for the writer's. */
  function Under(title: string, partial: bool): string {
    if !partial && HasPrefix(title, MARKER) then title[|MARKER|..] else title
  }

  /** When the candidates of a lead extract are the sentences of its text. What decodes to claims
      shows those. Otherwise, with no text, the title must show nothing: it starts with a brace or is
      one line. With text, it must be a line of its own, not blank and not starting with a brace. */
  ghost predicate ReadsAs(lib: Library, title: string, text: string) {
    var parsed := lib.decodeClaims(TrimSpace(title + "\n" + text));
    if parsed.Some? && parsed.value != [] then Split(text, parsed.value)
    else if text == "" then HasPrefix(TrimSpace(title), "{") || '\n' !in TrimSpace(title)
    else TrimSpace(title) != "" && !HasPrefix(TrimSpace(title), "{") && '\n' !in TrimLeft(title)
  }

  /** What a stored Summary should offer: its own claims, or the sentences of the first words. */
  ghost predicate Offers(lib: Library, content: string, raw: Option<string>, candidates: seq<string>) {
    match Structure(lib, raw)
    case Some(s) => candidates == s.claims
    case None => Split(LeadText(lib, content), candidates)
  }

  /** Reading a stored Summary back, for any title: a structured one offers its own claims, and a lead
      extract the sentences of the first words of the content exactly when its title reads so. */
  lemma ReadsBack(lib: Library, title: string, content: string, partial: bool, raw: Option<string>)
    requires Lawful(lib)
    ensures Structure(lib, raw).Some? || ReadsAs(lib, Under(title, partial), LeadText(lib, content)) <==>
            forall c :: Candidates(lib, Stored(lib, title, content, partial, raw), c) <==> Offers(lib, content, raw, c)
  {
    hide Structure, LeadText, Split, Lawful, TrimSpace, Candidates;
    match Structure(lib, raw)
    case Some(s) =>
      StructureIsUsable(lib, raw);
      assert EncodesWell(lib, s) by { LawfulEncode(lib, s); }
      forall c ensures Candidates(lib, Marked(partial, lib.encode(s)), c) <==> c == s.claims {
        CandidatesOfStructured(lib, s, partial, c);
      }
    case None =>
      LeadTextIsPlain(lib, content);
      var text := LeadText(lib, content);
      LeadReadsBack(lib, title, text, partial);
      assert Stored(lib, title, content, partial, raw) == Marked(partial, title + "\n" + text);
      assert forall c :: Offers(lib, content, raw, c) <==> Split(text, c);
  }

  lemma CandidatesOfStructured(lib: Library, s: Structured, partial: bool, c: seq<string>)
    requires EncodesWell(lib, s) && s.claims != []
    ensures Candidates(lib, Marked(partial, lib.encode(s)), c) <==> c == s.claims
  {
    hide Split;
    BodyOfStructured(lib, s, partial);
  }

  lemma LeadReadsBack(lib: Library, title: string, text: string, partial: bool)
    requires Trimmed(text) && '\n' !in text
    ensures (forall c :: Candidates(lib, Marked(partial, title + "\n" + text), c) <==> Split(text, c)) <==>
            ReadsAs(lib, Under(title, partial), text)
  {
    hide Split, TrimSpace, TrimLeft, FirstIndex;
    var summary, line := Marked(partial, title + "\n" + text), Under(title, partial);
    var body := Body(summary);
    BodyOfLead(title, text, partial);
    var parsed := lib.decodeClaims(body);
    if parsed.Some? && parsed.value != [] {
      OnlySplit(text, parsed.value);
      assert forall c :: Candidates(lib, summary, c) <==> c == parsed.value;
    } else {
      LeadHead(line, text);
      if HasPrefix(body, "{") {
        OnlySplit(text, []);
        assert forall c :: Candidates(lib, summary, c) <==> c == [];
        EmptySplits(text);
      } else {
        LeadTail(line, text);
        SameSplits(AfterFirstLine(body), text);
        assert forall c :: Candidates(lib, summary, c) <==> Split(AfterFirstLine(body), c);
      }
    }
  }

  /** A text has one cut, so comparing all with it is comparing one. */
  lemma OnlySplit(text: string, only: seq<string>)
    ensures (forall c :: c == only <==> Split(text, c)) <==> Split(text, only)
  {
    hide Split;
    if Split(text, only) {
      forall c | Split(text, c) ensures c == only { SplitIsUnique(text, c, only); }
    }
  }

  lemma EmptySplits(text: string)
    ensures Split(text, []) <==> text == ""
  {
  }

  ghost predicate SplitAlike(a: string, b: string) {
    forall c :: Split(a, c) <==> Split(b, c)
  }

  lemma SameSplits(a: string, b: string)
    ensures SplitAlike(a, b) <==> a == b
  {
    if SplitAlike(a, b) {
      var c := SplitExists(a);
      assert Split(b, c);
      SplitConcats(a, c);
      SplitConcats(b, c);
    }
  }

  lemma {:induction false} SplitExists(t: string) returns (out: seq<string>)
    ensures Split(t, out)
    decreases |t|
  {
    out := [];
    if t != "" {
      var n := 1;
      while n < |t| && !Cut(t, n)
        invariant 1 <= n <= |t| && NoCut(t, 0, n)
      {
        n := n + 1;
      }
      var rest := SplitExists(t[n..]);
      out := [t[..n]] + rest;
      assert out[1..] == rest;
    }
  }

  lemma BodyOfLead(title: string, text: string, partial: bool)
    ensures Body(Marked(partial, title + "\n" + text)) == TrimSpace(Under(title, partial) + "\n" + text)
  {
    hide TrimRight;
    var lead := title + "\n" + text;
    if partial {
      var m := MARKER + "\n" + lead;
      assert m[..|MARKER|] == MARKER && m[|MARKER|..] == "\n" + lead;
      assert ("\n" + lead)[1..] == lead;
    } else {
      LeadMarked(title, text);
      if HasPrefix(title, MARKER) {
        assert lead[|MARKER|..] == title[|MARKER|..] + "\n" + text;
      }
    }
  }

  /** What trimming leaves of a lead extract: the title alone, the text alone, or the title from its
      first full character and the text under it. */
  lemma TrimmedLead(title: string, text: string)
    requires Trimmed(text)
    ensures TrimSpace(title + "\n" + text) ==
            if text == "" then TrimSpace(title)
            else if TrimSpace(title) == "" then text
            else TrimLeft(title) + "\n" + text
    ensures TrimSpace(title) != "" ==> TrimLeft(title) != "" && TrimLeft(title)[0] == TrimSpace(title)[0]
  {
    hide TrimSpace, TrimLeft;
    if text == "" {
      TrimmedBare(title);
    } else if TrimSpace(title) == "" {
      TrimmedBlank(title, text);
    } else {
      TrimmedUnder(title, text);
    }
    HeadStays(title);
  }

  lemma TrimmedBare(title: string)
    ensures TrimSpace(title + "\n" + "") == TrimSpace(title)
  {
    var i, j := TrimSpaceSplits(title);
    var tail := title[j..] + "\n";
    assert AllSpace(title[..i]) && AllSpace(tail) && Trimmed(title[i..j]);
    hide TrimSpace, IsSpace;
    assert title + "\n" + "" == title[..i] + title[i..j] + tail;
    TrimSpaceOf(title[..i], title[i..j], tail);
  }

  lemma TrimmedBlank(title: string, text: string)
    requires TrimSpace(title) == "" && Trimmed(text)
    ensures TrimSpace(title + "\n" + text) == text
  {
    var i, j := TrimSpaceSplits(title);
    assert AllSpace(title + "\n");
    hide TrimSpace, IsSpace;
    assert (title + "\n") + text + "" == title + "\n" + text;
    TrimSpaceOf(title + "\n", text, "");
  }

  lemma TrimmedUnder(title: string, text: string)
    requires TrimSpace(title) != "" && Trimmed(text) && text != ""
    ensures TrimSpace(title + "\n" + text) == TrimLeft(title) + "\n" + text
  {
    var i, j := TrimSpaceSplits(title);
    var k := TrimLeftSplits(title);
    SameStart(title, i, k);
    assert AllSpace(title[..i]);
    hide TrimSpace, TrimLeft, IsSpace, AllSpace, Trimmed;
    TrimmedAround(title[..i], title[i..], "\n", text);
    assert title == title[..i] + title[i..];
  }

  lemma TrimmedAround(pre: string, line: string, sep: string, text: string)
    requires AllSpace(pre) && line != "" && !IsSpace(line[0]) && Trimmed(text) && text != ""
    ensures TrimSpace(pre + line + sep + text) == line + sep + text
  {
    assert !IsSpace(text[|text| - 1]);
    hide TrimSpace, IsSpace, AllSpace, Trimmed;
    var body := line + sep + text;
    assert pre + line + sep + text == pre + body + "";
    assert body[0] == line[0] && body[|body| - 1] == text[|text| - 1];
    assert AllSpace("") by { NothingIsSpace(); }
    TrimSpaceOf(pre, body, "");
  }

  lemma NothingIsSpace()
    ensures AllSpace("")
  {
  }

  lemma HeadStays(t: string)
    ensures TrimSpace(t) != "" ==> TrimLeft(t) != "" && TrimLeft(t)[0] == TrimSpace(t)[0]
  {
    var i, j := TrimSpaceSplits(t);
    var k := TrimLeftSplits(t);
    if i < j { SameStart(t, i, k); }
  }

  lemma SameStart(t: string, i: nat, k: nat)
    requires i < |t| && !IsSpace(t[i]) && (forall m :: 0 <= m < i ==> IsSpace(t[m]))
    requires k <= |t| && AllSpace(t[..k]) && (k < |t| ==> !IsSpace(t[k]))
    ensures i == k
  {
    assert forall m :: 0 <= m < k ==> t[..k][m] == t[m];
  }

  lemma LeadHead(title: string, text: string)
    requires Trimmed(text)
    ensures HasPrefix(TrimSpace(title + "\n" + text), "{") <==>
            if TrimSpace(title) != "" then HasPrefix(TrimSpace(title), "{") else HasPrefix(text, "{")
  {
    TrimmedLead(title, text);
    hide TrimSpace, TrimLeft;
    StartsWithBrace(TrimSpace(title + "\n" + text));
    StartsWithBrace(TrimSpace(title));
  }

  lemma StartsWithBrace(t: string)
    ensures HasPrefix(t, "{") <==> t != "" && t[0] == '{'
  {
    if t != "" { assert t[..1] == [t[0]]; }
  }

  /** What follows the first line of a lead extract is its text exactly when the title takes up one
      line, the first. */
  lemma LeadTail(title: string, text: string)
    requires Trimmed(text) && '\n' !in text
    ensures AfterFirstLine(TrimSpace(title + "\n" + text)) == text <==>
            if text == "" then '\n' !in TrimSpace(title) else TrimSpace(title) != "" && '\n' !in TrimLeft(title)
  {
    TrimmedLead(title, text);
    TrimSpaceTrims(title);
    hide TrimSpace, TrimLeft;
    if text == "" {
      OneLineLeft(TrimSpace(title));
    } else if TrimSpace(title) == "" {
      OneLineLeft(text);
    } else {
      TailUnder(TrimLeft(title), text);
    }
  }

  lemma OneLineLeft(t: string)
    requires Trimmed(t)
    ensures AfterFirstLine(t) == "" <==> '\n' !in t
  {
    assert t != "" ==> t[|t| - 1] != '\n';
    var i := FirstIndex(t, '\n');
    assert '\n' in t ==> 0 <= i < |t| - 1;
  }

  lemma TailUnder(line: string, text: string)
    ensures AfterFirstLine(line + "\n" + text) == text <==> '\n' !in line
  {
    var t := line + "\n" + text;
    assert t[|line|] == '\n';
    assert forall k :: 0 <= k < |line| ==> t[k] == line[k];
    var i := FirstIndex(t, '\n');
    hide FirstIndex;
    if '\n' in line {
      var k :| 0 <= k < |line| && line[k] == '\n';
      assert t[k] == '\n' && i <= k;
      assert |t[i + 1..]| > |text|;
    } else {
      assert i == |line|;
      assert t[|line| + 1..] == text;
    }
  }

  lemma LawfulEncode(lib: Library, s: Structured)
    requires Lawful(lib)
    ensures EncodesWell(lib, s)
  {
  }

  lemma BodyOfStructured(lib: Library, s: Structured, partial: bool)
    requires EncodesWell(lib, s)
    ensures Body(Marked(partial, lib.encode(s))) == lib.encode(s)
  {
    var e := lib.encode(s);
    assert Trimmed(e);
    if partial {
      var m := MARKER + "\n" + e;
      assert m[..|MARKER|] == MARKER && m[|MARKER|..] == "\n" + e + "";
      TrimSpaceOf("\n", e, "");
    } else {
      assert MARKER[0] == '[';
      TrimmedIsFixed(e);
    }
  }

  // ----- Titles -----

  /** A title that reads back safely: one line, not blank, no brace in front, not the marker. */
  predicate PlainTitle(title: string) {
    '\n' !in title && TrimSpace(title) != "" && !HasPrefix(TrimSpace(title), "{") && !HasPrefix(title, MARKER)
  }

  lemma PlainTitleIsSafe(lib: Library, title: string, content: string, partial: bool)
    requires Lawful(lib) && PlainTitle(title)
    ensures !LooksPartial(lib, title, content) && ReadsAs(lib, Under(title, partial), LeadText(lib, content))
  {
    LeadTextIsPlain(lib, content);
    var text := LeadText(lib, content);
    var lead := title + "\n" + text;
    LeadHead(title, text);
    assert DecodesWell(lib, lead) && DecodesWell(lib, TrimSpace(lead));
    TrimSpaceIdempotent(lead);
    TrimSpaceTakes(title);
    hide LeadText, Lawful, TrimSpace, TrimLeft, Line;
  }

  lemma TrimSpaceTakes(t: string)
    ensures '\n' !in t ==> '\n' !in TrimSpace(t) && '\n' !in TrimLeft(t)
  {
    var i, j := TrimSpaceSplits(t);
    var k := TrimLeftSplits(t);
  }

  /** A brace and then neither white space nor a quote: whatever is under such a title, the Summary is
      taken for JSON that does not decode, and nothing is shown. */
  lemma BracedTitleShowsNothing(lib: Library, title: string, content: string, partial: bool, c: seq<string>)
    requires Lawful(lib) && |title| >= 2 && title[0] == '{' && !IsSpace(title[1]) && title[1] != '"'
    ensures Candidates(lib, LeadExtract(lib, title, content, partial), c) <==> c == []
  {
    var text := LeadText(lib, content);
    var body := TrimSpace(title + "\n" + text);
    hide LeadText, Split;
    assert MARKER[0] == '[' && Under(title, partial) == title;
    BodyOfLead(title, text, partial);
    TwoStay(title + "\n" + text);
    assert DecodesWell(lib, body);
    TrimSpaceIdempotent(title + "\n" + text);
    NotObject(body);
    StartsWithBrace(body);
  }

  lemma TwoStay(t: string)
    requires |t| >= 2 && !IsSpace(t[0]) && !IsSpace(t[1])
    ensures |TrimSpace(t)| >= 2 && TrimSpace(t)[0] == t[0] && TrimSpace(t)[1] == t[1]
  {
    var i, j := TrimSpaceSplits(t);
  }

  lemma NotObject(t: string)
    requires TrimSpace(t) == t && |t| >= 2 && !IsSpace(t[1]) && t[1] != '"'
    ensures !Object(t)
  {
    var rest := t[1..];
    assert TrimLeft(rest) == rest;
    if HasPrefix(rest, "\"") { PrefixHead(rest, "\""); }
  }

  /** Such a title is not far to seek. */
  lemma FmtReleaseShowsNothing(lib: Library, content: string, c: seq<string>)
    requires Lawful(lib)
    ensures Candidates(lib, LeadExtract(lib, "{fmt} 11 released", content, false), c) <==> c == []
  {
    BracedTitleShowsNothing(lib, "{fmt} 11 released", content, false, c);
  }

  /** A title that is the marker itself is taken for it: the text under it, which then stands on the
      first line, is dropped and nothing is shown. */
  lemma MarkerTitleDropsText(lib: Library, content: string, c: seq<string>)
    requires Lawful(lib) && !Braced(LeadText(lib, content))
    ensures Candidates(lib, LeadExtract(lib, MARKER, content, false), c) <==> c == []
  {
    LeadTextIsPlain(lib, content);
    var text := LeadText(lib, content);
    hide LeadText, Split;
    BodyOfLead(MARKER, text, false);
    assert Under(MARKER, false) == "";
    TrimmedLead("", text);
    TrimmedIsFixed(text);
    assert DecodesWell(lib, text);
    hide Lawful;
    OneLineLeft(text);
    EmptySplits("");
    OnlySplit("", []);
  }
}
