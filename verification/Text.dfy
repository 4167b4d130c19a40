/** Strings as sequences of Unicode scalar values: the few string operations of Go's
    `strings` package the programs use. Comparing code points orders valid UTF-8 text
    exactly as comparing its bytes does. */
module Text {
  import opened Sorting

  datatype Option<+T> = None | Some(value: T)

  /** `unicode.IsSpace`. */
  predicate IsSpace(c: char) {
    var n := c as int;
    || 9 <= n <= 13 || n == 32 || n == 0x85 || n == 0xA0 || n == 0x1680
    || 0x2000 <= n <= 0x200A || n == 0x2028 || n == 0x2029 || n == 0x202F || n == 0x205F
    || n == 0x3000
  }

  predicate AllSpace(s: string) {
    forall i :: 0 <= i < |s| ==> IsSpace(s[i])
  }

  function TrimLeft(s: string): string {
    if s != [] && IsSpace(s[0]) then TrimLeft(s[1..]) else s
  }

  function TrimRight(s: string): string {
    if s != [] && IsSpace(s[|s| - 1]) then TrimRight(s[..|s| - 1]) else s
  }

  /** `strings.TrimSpace`. */
  function TrimSpace(s: string): string {
    TrimRight(TrimLeft(s))
  }

  /** Neither end is white space: what `TrimSpace` returns. */
  predicate Trimmed(s: string) {
    s != [] ==> !IsSpace(s[0]) && !IsSpace(s[|s| - 1])
  }

  lemma {:induction false} TrimLeftSplits(s: string) returns (k: nat)
    ensures k <= |s| && TrimLeft(s) == s[k..] && AllSpace(s[..k])
    ensures k < |s| ==> !IsSpace(s[k])
  {
    k := 0;
    if s != [] && IsSpace(s[0]) {
      var k' := TrimLeftSplits(s[1..]);
      k := k' + 1;
      assert s[..k] == [s[0]] + s[1..][..k'];
      assert s[1..][k'..] == s[k..];
      assert k < |s| ==> s[k] == s[1..][k'];
    }
  }

  lemma {:induction false} TrimRightSplits(s: string) returns (k: nat)
    ensures k <= |s| && TrimRight(s) == s[..k] && AllSpace(s[k..])
    ensures k > 0 ==> !IsSpace(s[k - 1])
  {
    k := |s|;
    if s != [] && IsSpace(s[|s| - 1]) {
      var t := s[..|s| - 1];
      k := TrimRightSplits(t);
      assert t[..k] == s[..k];
      assert s[k..] == t[k..] + [s[|s| - 1]];
    }
  }

  /** Where `TrimRight` cuts, index by index. */
  lemma TrimRightAt(s: string) returns (k: nat)
    ensures k <= |s| && TrimRight(s) == s[..k] && AllSpace(s[k..])
    ensures forall m :: k <= m < |s| ==> IsSpace(s[m])
    ensures k > 0 ==> !IsSpace(s[k - 1])
  {
    k := TrimRightSplits(s);
    assert forall m :: k <= m < |s| ==> s[k..][m - k] == s[m];
  }

  /** `TrimSpace` cuts `s` into white space, the result and white space. */
  lemma TrimSpaceSplits(s: string) returns (i: nat, j: nat)
    ensures i <= j <= |s| && TrimSpace(s) == s[i..j]
    ensures forall k :: 0 <= k < i || j <= k < |s| ==> IsSpace(s[k])
    ensures i < j ==> !IsSpace(s[i]) && !IsSpace(s[j - 1])
  {
    i := TrimLeftSplits(s);
    var m := TrimRightSplits(s[i..]);
    j := i + m;
    assert s[i..][..m] == s[i..j];
    assert forall k :: 0 <= k < i ==> s[..i][k] == s[k];
    assert forall k :: j <= k < |s| ==> s[i..][m..][k - j] == s[k];
  }

  lemma TrimmedIsFixed(s: string)
    requires Trimmed(s)
    ensures TrimSpace(s) == s
  {
  }

  lemma TrimSpaceTrims(s: string)
    ensures Trimmed(TrimSpace(s))
  {
    var _, _ := TrimSpaceSplits(s);
  }

  lemma TrimSpaceIdempotent(s: string)
    ensures TrimSpace(TrimSpace(s)) == TrimSpace(s)
  {
    TrimSpaceTrims(s);
    TrimmedIsFixed(TrimSpace(s));
  }

  /** What is left after trimming is decided by the decomposition alone. */
  lemma TrimSpaceOf(pre: string, body: string, post: string)
    requires AllSpace(pre) && AllSpace(post) && Trimmed(body)
    ensures TrimSpace(pre + body + post) == body
  {
    var s := pre + body + post;
    var p, q := |pre|, |pre| + |body|;
    var i, j := TrimSpaceSplits(s);
    assert forall k :: 0 <= k < p ==> s[k] == pre[k];
    assert forall k :: q <= k < |s| ==> s[k] == post[k - q];
    assert p < q ==> s[p] == body[0] && s[q - 1] == body[|body| - 1];
    assert s[p..q] == body;
    if p < q {
      assert i <= p && q <= j;
      assert i == p && j == q;
    } else {
      assert i == j;
    }
  }

  predicate HasPrefix(s: string, prefix: string) {
    |prefix| <= |s| && s[..|prefix|] == prefix
  }

  lemma PrefixHead(s: string, prefix: string)
    requires prefix != "" && HasPrefix(s, prefix)
    ensures s != "" && s[0] == prefix[0]
  {
    assert s[..|prefix|][0] == s[0];
  }

  /** Go's `<` on strings. */
  predicate StrLess(a: string, b: string) {
    b != [] && (a == [] || a[0] < b[0] || (a[0] == b[0] && StrLess(a[1..], b[1..])))
  }

  /** The strings agree up to `k`, where `a` ends or has the smaller character. */
  predicate PartsAt(a: string, b: string, k: nat) {
    k <= |a| && k < |b| && a[..k] == b[..k] && (k < |a| ==> a[k] < b[k])
  }

  lemma {:induction false} StrLessMeans(a: string, b: string)
    ensures StrLess(a, b) <==> exists k: nat :: PartsAt(a, b, k)
  {
    if b != [] && (a == [] || a[0] < b[0]) {
      assert PartsAt(a, b, 0);
    } else if a != [] && b != [] && a[0] == b[0] {
      StrLessMeans(a[1..], b[1..]);
      if k: nat :| PartsAt(a[1..], b[1..], k) {
        assert a[..k + 1] == [a[0]] + a[1..][..k] && b[..k + 1] == [b[0]] + b[1..][..k];
        assert PartsAt(a, b, k + 1);
      }
      if k: nat :| PartsAt(a, b, k) {
        assert k > 0;
        assert a[1..][..k - 1] == a[..k][1..] && b[1..][..k - 1] == b[..k][1..];
        assert PartsAt(a[1..], b[1..], k - 1);
      }
    } else if b != [] {
      forall k: nat { PartsFromHead(a, b, k); }
    }
  }

  lemma PartsFromHead(a: string, b: string, k: nat)
    requires a != [] && b != []
    ensures PartsAt(a, b, k) ==> a[0] < b[0] || (k > 0 && a[0] == b[0])
  {
    assert k <= |a| && k <= |b| ==> forall i :: 0 <= i < k ==> a[..k][i] == a[i] && b[..k][i] == b[i];
  }

  lemma {:induction false} StrLessTotal(a: string, b: string)
    ensures a != b ==> StrLess(a, b) || StrLess(b, a)
    ensures !(StrLess(a, b) && StrLess(b, a))
  {
    if a != [] && b != [] && a[0] == b[0] {
      StrLessTotal(a[1..], b[1..]);
      assert a == [a[0]] + a[1..] && b == [b[0]] + b[1..];
    }
  }

  lemma {:induction false} StrLessTransitive(a: string, b: string, c: string)
    requires StrLess(a, b) && StrLess(b, c)
    ensures StrLess(a, c)
  {
    if a != [] && a[0] == b[0] && b[0] == c[0] {
      StrLessTransitive(a[1..], b[1..], c[1..]);
    }
  }

  predicate Ascending(s: seq<string>) {
    forall i, j :: 0 <= i < j < |s| ==> StrLess(s[i], s[j])
  }

  /** A set of strings has one ascending listing. */
  lemma {:induction false} AscendingIsUnique(a: seq<string>, b: seq<string>)
    requires Ascending(a) && Ascending(b)
    requires forall x :: x in a <==> x in b
    ensures a == b
  {
    assert a != [] ==> a[0] in b;
    assert b != [] ==> b[0] in a;
    if a != [] {
      var i :| 0 <= i < |b| && b[i] == a[0];
      var j :| 0 <= j < |a| && a[j] == b[0];
      if a[0] != b[0] {
        assert StrLess(b[0], b[i]) && StrLess(a[0], a[j]);
        StrLessTotal(a[0], b[0]);
      }
      assert forall k :: 0 < k < |a| ==> StrLess(a[0], a[k]);
      assert forall k :: 0 < k < |b| ==> StrLess(b[0], b[k]);
      StrLessTotal(a[0], a[0]);
      forall x ensures x in a[1..] <==> x in b[1..] {
        if x in a[1..] { assert x in a && x != a[0]; assert x in b; }
        if x in b[1..] { assert x in b && x != b[0]; assert x in a; }
      }
      AscendingIsUnique(a[1..], b[1..]);
    }
  }

  lemma StrLessIsStrictWeakOrder()
    ensures StrictWeakOrder(StrLess)
  {
    forall x { StrLessTotal(x, x); }
    forall x, y, z | StrLess(x, y) && StrLess(y, z) ensures StrLess(x, z) {
      StrLessTransitive(x, y, z);
    }
    forall x, y, z | StrLess(x, z) ensures StrLess(x, y) || StrLess(y, z) {
      StrLessTotal(x, y);
      if x != y && StrLess(y, x) { StrLessTransitive(y, x, z); }
    }
  }

  /** Sorting a repetition-free list of strings lists them in ascending order. */
  lemma SortedStrings(s: seq<string>)
    requires forall i, j :: 0 <= i < j < |s| ==> s[i] != s[j]
    ensures Ascending(Sort(s, StrLess))
    ensures forall x :: x in Sort(s, StrLess) <==> x in s
  {
    StrLessIsStrictWeakOrder();
    SortSorts(s, StrLess);
    SortKeepsMembers(s, StrLess);
    var t := Sort(s, StrLess);
    DistinctSurvives(s, t, StrLess);
    forall i, j | 0 <= i < j < |t| ensures StrLess(t[i], t[j]) {
      StrLessTotal(t[i], t[j]);
    }
  }

  /** Sorting by a string key that tells the elements apart lists the keys in ascending order. */
  lemma SortedByKey<T(!new)>(s: seq<T>, less: (T, T) -> bool, key: T -> string)
    requires forall x, y :: less(x, y) <==> StrLess(key(x), key(y))
    requires forall x, y :: x in s && y in s && key(x) == key(y) ==> x == y
    requires forall i, j :: 0 <= i < j < |s| ==> s[i] != s[j]
    ensures var t := Sort(s, less);
            && (forall i, j :: 0 <= i < j < |t| ==> StrLess(key(t[i]), key(t[j])))
            && (forall x :: x in t <==> x in s)
  {
    StrLessIsStrictWeakOrder();
    var t := Sort(s, less);
    SortSorts(s, less);
    SortKeepsMembers(s, less);
    DistinctSurvives(s, t, less);
    forall i, j | 0 <= i < j < |t| ensures StrLess(key(t[i]), key(t[j])) {
      assert t[i] in s && t[j] in s;
      assert !less(t[j], t[i]);
      StrLessTotal(key(t[i]), key(t[j]));
    }
  }
}
