/** When normalizing a profile twice is not normalizing it once (internal/preferences/profile.go,
    `Normalize`): a carriage return that the first pass brings next to a newline, which the second
    then takes for CR LF. Said of the text as it is handed in. */
module StrayReturns {
  import opened Profile
  import opened Text

  ghost predicate HasInk(t: string) {
    exists k :: 0 <= k < |t| && !IsSpace(t[k])
  }

  predicate Blanks(t: string, from: nat, to: nat)
    requires to <= |t|
  {
    forall k :: from <= k < to ==> IsBlank(t[k])
  }

  predicate IsNewline(t: string, j: nat) {
    j < |t| && t[j] == '\n'
  }

  predicate IsPair(t: string, j: nat) {
    j + 1 < |t| && t[j] == '\r' && t[j + 1] == '\n'
  }

  /** The carriage return at `i` has blanks and then a line end at `j` after it, but is no half of a
      CR LF itself, and there is something to keep before and after. */
  ghost predicate Strays(t: string, i: nat, j: nat) {
    && i < j < |t| && t[i] == '\r' && Blanks(t, i + 1, j)
    && (IsPair(t, j) || (IsNewline(t, j) && j > i + 1))
    && HasInk(t[..i]) && HasInk(t[j + 1..])
  }

  ghost predicate StrayReturn(t: string) {
    exists i: nat, j: nat :: Strays(t, i, j)
  }

  // ----- Ink -----

  lemma InkCons(t: string)
    requires t != ""
    ensures HasInk(t) <==> !IsSpace(t[0]) || HasInk(t[1..])
  {
    hide IsSpace;
    if HasInk(t[1..]) {
      var k :| 0 <= k < |t| - 1 && !IsSpace(t[1..][k]);
      assert t[k + 1] == t[1..][k];
    }
    if HasInk(t) {
      var k :| 0 <= k < |t| && !IsSpace(t[k]);
      assert k > 0 ==> t[1..][k - 1] == t[k];
    }
  }

  /** Taking up to `i` one character on. */
  lemma InkBefore(t: string, i: nat)
    requires i < |t|
    ensures HasInk(t[..i + 1]) <==> !IsSpace(t[0]) || HasInk(t[1..][..i])
  {
    InkCons(t[..i + 1]);
    assert t[..i + 1][1..] == t[1..][..i];
  }

  lemma {:induction false} TrimLinesInk(t: string)
    ensures HasInk(TrimLines(t)) <==> HasInk(t)
  {
    if t != "" {
      TrimLinesInk(t[1..]);
      InkCons(t);
      InkCons([t[0]] + TrimLines(t[1..]));
      assert ([t[0]] + TrimLines(t[1..]))[1..] == TrimLines(t[1..]);
    }
  }

  lemma {:induction false} CrlfInk(t: string)
    ensures HasInk(Crlf(t)) <==> HasInk(t)
  {
    if t != "" {
      InkCons(t);
      InkCons(Crlf(t));
      if IsPair(t, 0) {
        CrlfInk(t[2..]);
        InkCons(t[1..]);
        assert t[1..][1..] == t[2..] && Crlf(t)[1..] == Crlf(t[2..]);
      } else {
        CrlfInk(t[1..]);
        assert Crlf(t)[1..] == Crlf(t[1..]);
      }
    }
  }

  // ----- Trimming the text -----

  /** A CR LF with something to keep before and after. */
  ghost predicate Inner(u: string, k: nat) {
    IsPair(u, k) && HasInk(u[..k]) && HasInk(u[k + 2..])
  }

  ghost predicate HasInner(u: string) {
    exists k: nat :: Inner(u, k)
  }

  lemma TrimmedPairs(u: string)
    ensures HasCrlf(TrimSpace(u) + "\n") <==> HasInner(u)
  {
    hide IsSpace, TrimSpace, Inner, IsCrlf;
    var i, j := TrimSpaceSplits(u);
    var n := u[i..j] + "\n";
    if HasCrlf(n) {
      var k :| 0 <= k < |n| - 1 && IsCrlf(n, k);
      PairIsInner(u, i, j, k);
    }
    if HasInner(u) {
      var k: nat :| Inner(u, k);
      InnerIsPair(u, i, j, k);
    }
  }

  lemma PairIsInner(u: string, i: nat, j: nat, k: nat)
    requires i <= j <= |u| && k < j - i && IsCrlf(u[i..j] + "\n", k)
    requires i < j ==> !IsSpace(u[i]) && !IsSpace(u[j - 1])
    ensures Inner(u, i + k)
  {
    var n := u[i..j] + "\n";
    assert n[k] == u[i + k] == '\r' && i + k + 1 < j && n[k + 1] == u[i + k + 1];
    assert u[..i + k][i] == u[i];
    assert u[i + k + 2..][j - 1 - (i + k + 2)] == u[j - 1];
  }

  lemma InnerIsPair(u: string, i: nat, j: nat, k: nat)
    requires i <= j <= |u| && Inner(u, k)
    requires forall m :: 0 <= m < i || j <= m < |u| ==> IsSpace(u[m])
    ensures i <= k && k - i + 1 < |u[i..j] + "\n"| && IsCrlf(u[i..j] + "\n", k - i)
  {
    hide IsSpace;
    var n := u[i..j] + "\n";
    var p :| 0 <= p < k && !IsSpace(u[..k][p]);
    var q :| 0 <= q < |u| - k - 2 && !IsSpace(u[k + 2..][q]);
    assert u[..k][p] == u[p] && u[k + 2..][q] == u[k + 2 + q];
    assert i <= p && k + 2 + q < j;
    assert n[k - i] == u[k] && n[k - i + 1] == u[k + 1];
  }

  // ----- Trimming the lines -----

  /** A carriage return with blanks and then a newline after it. */
  predicate Reaches(v: string, i: nat, j: nat) {
    i < j < |v| && v[i] == '\r' && Blanks(v, i + 1, j) && v[j] == '\n'
  }

  lemma ReachesFrom(v: string, i: nat, j: nat)
    requires v != ""
    ensures Reaches(v, i + 1, j + 1) <==> Reaches(v[1..], i, j)
    ensures j < |v| - 1 ==> v[1..][j + 1..] == v[j + 2..]
  {
    assert forall l :: 1 <= l < |v| ==> v[l] == v[1..][l - 1];
    if Reaches(v, i + 1, j + 1) {
      assert forall l :: i < l < j ==> v[1..][l] == v[l + 1];
    }
  }

  /** The same ink before and after a place in two texts. */
  ghost predicate SameInk(u: string, k: nat, k': nat, v: string, i: nat, i': nat)
    requires k <= |u| && k' <= |u| && i <= |v| && i' <= |v|
  {
    (HasInk(u[..k]) <==> HasInk(v[..i])) && (HasInk(u[k'..]) <==> HasInk(v[i'..]))
  }

  lemma {:induction false} BlanksThenNewline(w: string, m: nat)
    requires m < |w| && Blanks(w, 0, m) && w[m] == '\n'
    ensures TrimLines(w) == "\n" + TrimLines(w[m + 1..])
  {
    if m > 0 {
      assert forall k :: 0 <= k < m - 1 ==> w[1..][k] == w[k + 1];
      BlanksThenNewline(w[1..], m - 1);
      assert w[1..][m..] == w[m + 1..];
    }
  }

  lemma {:induction false} FirstNewline(w: string) returns (m: nat)
    requires TrimLines(w) != "" && TrimLines(w)[0] == '\n'
    ensures m < |w| && Blanks(w, 0, m) && w[m] == '\n'
  {
    m := 0;
    if w[0] != '\n' {
      var m' := FirstNewline(w[1..]);
      m := m' + 1;
      assert forall k :: 1 <= k < m ==> w[k] == w[1..][k - 1];
    }
  }

  lemma {:induction false} TrimLinesBack(v: string, k: nat) returns (i: nat, j: nat)
    requires IsPair(TrimLines(v), k)
    ensures Reaches(v, i, j) && SameInk(TrimLines(v), k, k + 2, v, i, j + 1)
  {
    var u, rest := TrimLines(v), TrimLines(v[1..]);
    if u == rest {
      i, j := TrimLinesBack(v[1..], k);
      BackOne(v, u, i, j, k);
      i, j := i + 1, j + 1;
    } else if k > 0 {
      assert u[0] == v[0] && u[1..] == rest;
      hide TrimLines, HasInk, SameInk;
      i, j := TrimLinesBack(v[1..], k - 1);
      BackKept(v, u, i, j, k);
      i, j := i + 1, j + 1;
    } else {
      var m := FirstNewline(v[1..]);
      i, j := 0, m + 1;
      assert forall l :: 1 <= l < |v| ==> v[l] == v[1..][l - 1];
      HeadTrims(v, j);
    }
  }

  /** One blank more at the front that is dropped. */
  lemma BackOne(v: string, u: string, i: nat, j: nat, k: nat)
    requires v != "" && IsBlank(v[0]) && k + 2 <= |u|
    requires Reaches(v[1..], i, j) && SameInk(u, k, k + 2, v[1..], i, j + 1)
    ensures Reaches(v, i + 1, j + 1) && SameInk(u, k, k + 2, v, i + 1, j + 2)
  {
    InkBefore(v, i);
    ReachesFrom(v, i, j);
    hide Reaches, HasInk;
  }

  /** One character more at the front that is kept. */
  lemma BackKept(v: string, u: string, i: nat, j: nat, k: nat)
    requires v != "" && u != "" && u[0] == v[0] && 1 <= k && k + 2 <= |u|
    requires Reaches(v[1..], i, j) && SameInk(u[1..], k - 1, k + 1, v[1..], i, j + 1)
    ensures Reaches(v, i + 1, j + 1) && SameInk(u, k, k + 2, v, i + 1, j + 2)
  {
    InkBefore(v, i);
    InkBefore(u, k - 1);
    ReachesFrom(v, i, j);
    assert u[1..][k + 1..] == u[k + 2..];
    hide Reaches, HasInk;
  }

  lemma {:induction false} TrimLinesForth(v: string, i: nat, j: nat) returns (k: nat)
    requires Reaches(v, i, j)
    ensures IsPair(TrimLines(v), k) && SameInk(TrimLines(v), k, k + 2, v, i, j + 1)
  {
    var u, rest := TrimLines(v), TrimLines(v[1..]);
    if i > 0 {
      assert u == rest || (u != "" && u[0] == v[0] && u[1..] == rest);
      assert u == rest ==> IsBlank(v[0]) || (u != "" && u[0] == v[0] && u[1..] == rest);
      hide TrimLines, HasInk, SameInk;
      ReachesFrom(v, i - 1, j - 1);
      k := TrimLinesForth(v[1..], i - 1, j - 1);
      if u == rest && IsBlank(v[0]) {
        BackOne(v, u, i - 1, j - 1, k);
      } else {
        BackKept(v, u, i - 1, j - 1, k + 1);
        k := k + 1;
      }
    } else {
      k := 0;
      HeadTrims(v, j);
    }
  }

  lemma HeadTrims(v: string, j: nat)
    requires Reaches(v, 0, j)
    ensures IsPair(TrimLines(v), 0) && SameInk(TrimLines(v), 0, 2, v, 0, j + 1)
  {
    var u, rest := TrimLines(v), v[1..];
    assert forall l :: 1 <= l < |v| ==> v[l] == rest[l - 1];
    BlanksThenNewline(rest, j - 1);
    assert rest[j..] == v[j + 1..] && u == "\r\n" + TrimLines(v[j + 1..]);
    assert u[2..] == TrimLines(v[j + 1..]) && u[..0] == v[..0];
    TrimLinesInk(v[j + 1..]);
  }

  /** A carriage return that trimming the lines brings next to a newline. */
  ghost predicate Lurks(v: string, i: nat, j: nat) {
    Reaches(v, i, j) && HasInk(v[..i]) && HasInk(v[j + 1..])
  }

  ghost predicate Lurking(v: string) {
    exists i: nat, j: nat :: Lurks(v, i, j)
  }

  lemma TrimLinesPairs(v: string)
    ensures HasInner(TrimLines(v)) <==> Lurking(v)
  {
    hide TrimLines, HasInk, Reaches;
    if HasInner(TrimLines(v)) {
      var k: nat :| Inner(TrimLines(v), k);
      var i, j := TrimLinesBack(v, k);
      assert Lurks(v, i, j);
    }
    if Lurking(v) {
      var i: nat, j: nat :| Lurks(v, i, j);
      var k := TrimLinesForth(v, i, j);
      assert Inner(TrimLines(v), k);
    }
  }

  // ----- Replacing CR LF -----

  /** The carriage return at `i` of a text that still has its CR LFs. */
  predicate Leads(t: string, i: nat, j: nat) {
    && i < j < |t| && t[i] == '\r' && Blanks(t, i + 1, j)
    && (IsPair(t, j) || (IsNewline(t, j) && j > i + 1))
  }

  lemma LeadsFrom(t: string, d: nat, i: nat, j: nat)
    requires d <= |t|
    ensures Leads(t, i + d, j + d) <==> Leads(t[d..], i, j)
    ensures j < |t| - d ==> t[d..][j + 1..] == t[j + d + 1..]
  {
    var u := t[d..];
    assert forall k :: d <= k < |t| ==> t[k] == u[k - d];
    if Leads(t, i + d, j + d) {
      assert forall k :: i < k < j ==> u[k] == t[k + d];
    }
  }

  /** A line end at `m` after blanks, before and after the replacing. */
  lemma {:induction false} NewlineIn(w: string, m: nat)
    requires m < |Crlf(w)| && Blanks(Crlf(w), 0, m) && Crlf(w)[m] == '\n'
    ensures m < |w| && Blanks(w, 0, m) && (w[m] == '\n' || IsPair(w, m))
    ensures HasInk(Crlf(w)[m + 1..]) <==> HasInk(w[m + 1..])
  {
    if m == 0 {
      LineEndInk(w);
    } else {
      var rest := w[1..];
      assert IsBlank(Crlf(w)[0]);
      assert Crlf(w) == [w[0]] + Crlf(rest);
      assert Crlf(w)[1..] == Crlf(rest);
      assert forall k :: 1 <= k <= m ==> Crlf(w)[k] == Crlf(rest)[k - 1];
      NewlineIn(rest, m - 1);
      assert Crlf(rest)[m..] == Crlf(w)[m + 1..] && rest[m..] == w[m + 1..];
      assert forall k :: 1 <= k < |w| ==> w[k] == rest[k - 1];
    }
  }

  lemma {:induction false} NewlineOut(w: string, m: nat)
    requires m < |w| && Blanks(w, 0, m) && (w[m] == '\n' || IsPair(w, m))
    ensures m < |Crlf(w)| && Blanks(Crlf(w), 0, m) && Crlf(w)[m] == '\n'
    ensures HasInk(Crlf(w)[m + 1..]) <==> HasInk(w[m + 1..])
  {
    if m == 0 {
      LineEndInk(w);
    } else {
      var rest := w[1..];
      assert !IsPair(w, 0) && Crlf(w)[1..] == Crlf(rest);
      assert forall k :: 1 <= k < |w| ==> w[k] == rest[k - 1];
      NewlineOut(rest, m - 1);
      assert forall k :: 1 <= k < |Crlf(w)| ==> Crlf(w)[k] == Crlf(rest)[k - 1];
      assert Crlf(rest)[m..] == Crlf(w)[m + 1..] && rest[m..] == w[m + 1..];
    }
  }

  lemma LineEndInk(w: string)
    requires w != "" && (w[0] == '\n' || IsPair(w, 0))
    ensures Crlf(w) != "" && Crlf(w)[0] == '\n'
    ensures HasInk(Crlf(w)[1..]) <==> HasInk(w[1..])
  {
    if IsPair(w, 0) {
      CrlfInk(w[2..]);
      InkCons(w[1..]);
      assert w[1..][1..] == w[2..] && Crlf(w)[1..] == Crlf(w[2..]);
    } else {
      CrlfInk(w[1..]);
      assert Crlf(w)[1..] == Crlf(w[1..]);
    }
  }

  /** A CR LF more at the front. */
  lemma PairStep(t: string, v: string, a: nat, b: nat, i: nat, j: nat)
    requires IsPair(t, 0) && v != "" && v[0] == '\n'
    requires Leads(t[2..], a, b) && Reaches(v[1..], i, j) && SameInk(v[1..], i, j + 1, t[2..], a, b + 1)
    ensures Leads(t, a + 2, b + 2) && Reaches(v, i + 1, j + 1) && SameInk(v, i + 1, j + 2, t, a + 2, b + 3)
  {
    assert t[1..][1..] == t[2..] && IsSpace(t[0]) && IsSpace(t[1]) && IsSpace(v[0]);
    LeadsFrom(t, 2, a, b);
    ReachesFrom(v, i, j);
    hide HasInk, IsSpace, Leads, Reaches;
    InkBefore(v, i);
    InkBefore(t, a + 1);
    InkBefore(t[1..], a);
  }

  /** Any other character more at the front. */
  lemma CharStep(t: string, v: string, a: nat, b: nat, i: nat, j: nat)
    requires t != "" && v != "" && v[0] == t[0]
    requires Leads(t[1..], a, b) && Reaches(v[1..], i, j) && SameInk(v[1..], i, j + 1, t[1..], a, b + 1)
    ensures Leads(t, a + 1, b + 1) && Reaches(v, i + 1, j + 1) && SameInk(v, i + 1, j + 2, t, a + 1, b + 2)
  {
    LeadsFrom(t, 1, a, b);
    ReachesFrom(v, i, j);
    hide HasInk, IsSpace, Leads, Reaches;
    InkBefore(v, i);
    InkBefore(t, a);
  }

  /** One step of the replacing. */
  lemma CrlfStep(t: string)
    requires t != ""
    ensures var n := if IsPair(t, 0) then 2 else 1;
            && Crlf(t) != "" && Crlf(t)[1..] == Crlf(t[n..])
            && Crlf(t)[0] == if IsPair(t, 0) then '\n' else t[0]
  {
  }

  lemma {:induction false} CrlfBack(t: string, i: nat, j: nat) returns (a: nat, b: nat)
    requires Reaches(Crlf(t), i, j)
    ensures Leads(t, a, b) && SameInk(Crlf(t), i, j + 1, t, a, b + 1)
  {
    assert t != "";
    hide Crlf, HasInk, Leads, SameInk;
    var v, n := Crlf(t), if IsPair(t, 0) then 2 else 1;
    CrlfStep(t);
    if i > 0 {
      hide IsPair;
      ReachesFrom(v, i - 1, j - 1);
      a, b := CrlfBack(t[n..], i - 1, j - 1);
      if n == 2 { PairStep(t, v, a, b, i - 1, j - 1); } else { CharStep(t, v, a, b, i - 1, j - 1); }
      a, b := a + n, b + n;
    } else {
      a, b := 0, j;
      HeadBack(t, j);
    }
  }

  lemma HeadBack(t: string, j: nat)
    requires Reaches(Crlf(t), 0, j) && !IsPair(t, 0)
    ensures Leads(t, 0, j) && SameInk(Crlf(t), 0, j + 1, t, 0, j + 1)
  {
    var v, rest := Crlf(t), t[1..];
    assert v[1..] == Crlf(rest);
    assert forall k :: 1 <= k < |v| ==> v[k] == Crlf(rest)[k - 1];
    NewlineIn(rest, j - 1);
    assert forall k :: 1 <= k < |t| ==> t[k] == rest[k - 1];
    assert Crlf(rest)[j..] == v[j + 1..] && rest[j..] == t[j + 1..];
    assert v[..0] == t[..0];
  }

  lemma {:induction false} CrlfForth(t: string, a: nat, b: nat) returns (i: nat, j: nat)
    requires Leads(t, a, b)
    ensures Reaches(Crlf(t), i, j) && SameInk(Crlf(t), i, j + 1, t, a, b + 1)
  {
    hide Crlf, HasInk, Reaches, SameInk;
    var v, n := Crlf(t), if IsPair(t, 0) then 2 else 1;
    if n == 2 { LeadsLate(t, a, b); }
    CrlfStep(t);
    if a > 0 {
      LeadsFrom(t, n, a - n, b - n);
      hide Leads, IsPair;
      i, j := CrlfForth(t[n..], a - n, b - n);
      if n == 2 { PairStep(t, v, a - 2, b - 2, i, j); } else { CharStep(t, v, a - 1, b - 1, i, j); }
      i, j := i + 1, j + 1;
    } else {
      i, j := 0, b;
      HeadForth(t, b);
    }
  }

  /** A carriage return that leads is not the first half of a CR LF, nor its second. */
  lemma LeadsLate(t: string, a: nat, b: nat)
    requires IsPair(t, 0) && Leads(t, a, b)
    ensures a >= 2
  {
    assert a == 0 ==> b == 1 || IsBlank(t[1]);
  }

  lemma HeadForth(t: string, b: nat)
    requires Leads(t, 0, b) && !IsPair(t, 0)
    ensures Reaches(Crlf(t), 0, b) && SameInk(Crlf(t), 0, b + 1, t, 0, b + 1)
  {
    var v, rest := Crlf(t), t[1..];
    assert v[1..] == Crlf(rest);
    assert forall k :: 1 <= k < |t| ==> t[k] == rest[k - 1];
    NewlineOut(rest, b - 1);
    assert forall k :: 1 <= k < |v| ==> v[k] == Crlf(rest)[k - 1];
    assert Crlf(rest)[b..] == v[b + 1..] && rest[b..] == t[b + 1..];
    assert v[..0] == t[..0];
  }

  lemma CrlfPairs(t: string)
    ensures Lurking(Crlf(t)) <==> StrayReturn(t)
  {
    hide Crlf, HasInk;
    if Lurking(Crlf(t)) {
      var i: nat, j: nat :| Lurks(Crlf(t), i, j);
      var a, b := CrlfBack(t, i, j);
      assert Strays(t, a, b);
    }
    if StrayReturn(t) {
      var a: nat, b: nat :| Strays(t, a, b);
      var i, j := CrlfForth(t, a, b);
      assert Lurks(Crlf(t), i, j);
    }
  }

  // ----- The fixed point, on the text handed in -----

  /** A normalized text holds a CR LF exactly when the text had a stray carriage return. */
  lemma NormalizedHasCrlf(t: string)
    ensures HasCrlf(Normalized(t)) <==> StrayReturn(t)
  {
    hide Crlf, TrimLines, TrimSpace, HasCrlf, StrayReturn, HasInner, Lurking;
    TrimmedPairs(TrimLines(Crlf(t)));
    TrimLinesPairs(Crlf(t));
    CrlfPairs(t);
  }

  /** Normalizing a text twice is normalizing it once exactly when it has no stray carriage return. */
  lemma NormalizeTwice(t: string)
    ensures Normalized(Normalized(t)) == Normalized(t) <==> !StrayReturn(t)
  {
    hide Normalized, HasCrlf, StrayReturn;
    NormalizedIsFixed(t);
    NormalizedHasCrlf(t);
  }

  /** The texts Google Docs exports have none. */
  lemma DocsDoNotStray(t: string)
    requires CrBeforeLf(t)
    ensures !StrayReturn(t)
  {
    hide Normalized, HasCrlf, StrayReturn;
    DocsAreFixed(t);
    NormalizeTwice(t);
  }
}
