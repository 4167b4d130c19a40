/** The preference profile as state (internal/preferences/service.go over
    internal/storage/preference_profile_repo.go): a log of accepted versions, and the evidence a
    rewrite is made from. */
module Preferences {
  import opened ModelProfile
  import opened Outcomes
  import opened Profile
  import opened Sorting
  import StoredReturn
  import opened StrayReturns
  import opened Text

  type Time = int

  // ----- Evidence -----

  /** One Article's evidence: its vote ("" for none) and its first Open. */
  datatype Signal = Signal(articleID: string, vote: string, openedAt: Option<Time>)

  const MAX_SIGNALS := 300

  predicate IsVote(s: Signal) {
    s.vote != ""
  }

  /** The order of `boundSignals`: votes first, then the newest Open. */
  predicate Stronger(a: Signal, b: Signal) {
    if IsVote(a) != IsVote(b) then IsVote(a)
    else if a.openedAt.None? || b.openedAt.None? then a.openedAt.Some?
    else a.openedAt.value > b.openedAt.value
  }

  lemma StrongerIsStrictWeakOrder()
    ensures StrictWeakOrder(Stronger)
  {
  }

  predicate Tied(a: Signal, b: Signal) {
    !Stronger(a, b) && !Stronger(b, a)
  }

  function TiedWith(x: Signal): Signal -> bool {
    y => Tied(y, x)
  }

  /** The Signals as strong as `x`, in their order. */
  function Peers(s: seq<Signal>, x: Signal): seq<Signal> {
    Filter(s, TiedWith(x))
  }

  /** Of equally strong Signals the first are kept, in their order, and the rest dropped; nothing
      dropped is stronger than anything kept. */
  ghost predicate Parts(signals: seq<Signal>, kept: seq<Signal>, dropped: seq<Signal>) {
    && (forall x :: Peers(kept, x) + Peers(dropped, x) == Peers(signals, x))
    && (forall x, y :: x in kept && y in dropped ==> !Stronger(y, x))
  }

  /** How many Signals a regeneration is given. */
  function Fitting(signals: seq<Signal>): nat {
    if |signals| > MAX_SIGNALS then MAX_SIGNALS else |signals|
  }

  /** What a regeneration is given: as many Signals as fit, the strongest, in order of strength. */
  ghost predicate KeepsBest(signals: seq<Signal>, kept: seq<Signal>) {
    && |kept| == Fitting(signals)
    && SortedBy(kept, Stronger)
    && exists dropped :: Parts(signals, kept, dropped)
  }

  method BoundSignals(signals: seq<Signal>) returns (r: seq<Signal>)
    ensures KeepsBest(signals, r)
  {
    hide Sort, KeepsBest;
    var sorted := Sort(signals, Stronger);
    SortedKeepsBest(signals, sorted);
    if |sorted| > MAX_SIGNALS { sorted := sorted[..MAX_SIGNALS]; }
    return sorted;
  }

  lemma SortedKeepsBest(signals: seq<Signal>, sorted: seq<Signal>)
    requires sorted == Sort(signals, Stronger)
    ensures KeepsBest(signals, if |sorted| > MAX_SIGNALS then sorted[..MAX_SIGNALS] else sorted)
  {
    hide Sort, Stronger;
    StrongerIsStrictWeakOrder();
    SortSorts(signals, Stronger);
    SortKeepsElements(signals, Stronger);
    assert |sorted| == |multiset(sorted)| == |multiset(signals)| == |signals|;
    var kept := if |sorted| > MAX_SIGNALS then sorted[..MAX_SIGNALS] else sorted;
    var dropped := sorted[|kept|..];
    assert sorted == kept + dropped;
    forall x ensures Peers(kept, x) + Peers(dropped, x) == Peers(signals, x) {
      FilterAdds(kept, dropped, TiedWith(x));
      SortedPeers(signals, x);
    }
    forall x, y | x in kept && y in dropped ensures !Stronger(y, x) {
      var i :| 0 <= i < |kept| && kept[i] == x;
      var j :| 0 <= j < |dropped| && dropped[j] == y;
      assert sorted[i] == x && sorted[|kept| + j] == y;
    }
    assert Parts(signals, kept, dropped);
  }

  lemma SortedPeers(s: seq<Signal>, x: Signal)
    ensures Peers(Sort(s, Stronger), x) == Peers(s, x)
  {
    hide Sort;
    SortIsStable(s, Stronger, TiedWith(x));
  }

  lemma {:induction false} FilterAdds<T>(a: seq<T>, b: seq<T>, keep: T -> bool)
    ensures Filter(a + b, keep) == Filter(a, keep) + Filter(b, keep)
  {
    if a == [] {
      assert a + b == b;
    } else {
      FilterAdds(a[1..], b, keep);
      assert (a + b)[1..] == a[1..] + b && (a + b)[0] == a[0];
      var head := if keep(a[0]) then [a[0]] else [];
      assert head + Filter(a[1..], keep) + Filter(b, keep) == head + (Filter(a[1..], keep) + Filter(b, keep));
    }
  }

  lemma {:induction false} FilterCounts<T>(s: seq<T>, keep: T -> bool, x: T)
    ensures multiset(Filter(s, keep))[x] == if keep(x) then multiset(s)[x] else 0
  {
    if s != [] {
      FilterCounts(s[1..], keep, x);
      assert s == [s[0]] + s[1..];
      assert multiset(s) == multiset{s[0]} + multiset(s[1..]);
    }
  }

  lemma PeersCount(s: seq<Signal>, x: Signal)
    ensures multiset(Peers(s, x))[x] == multiset(s)[x]
  {
    FilterCounts(s, TiedWith(x), x);
  }

  lemma PeersHead(s: seq<Signal>, x: Signal)
    requires s != []
    ensures Peers(s, x) == (if Tied(s[0], x) then [s[0]] else []) + Peers(s[1..], x)
    ensures Tied(s[0], s[0])
  {
  }

  lemma {:induction false} PeersAreIn(s: seq<Signal>, x: Signal)
    ensures forall y :: y in Peers(s, x) ==> y in s
  {
    hide Tied;
    if s != [] {
      PeersHead(s, x);
      PeersAreIn(s[1..], x);
    }
  }

  /** A sequence in order of strength is known by its peers. */
  lemma {:induction false} PeersDecide(a: seq<Signal>, b: seq<Signal>)
    requires SortedBy(a, Stronger) && SortedBy(b, Stronger)
    requires forall x :: Peers(a, x) == Peers(b, x)
    ensures a == b
  {
    if a == [] || b == [] {
      BothNone(a, b);
    } else {
      SameHead(a, b);
      hide Stronger, Tied, Peers;
      forall x ensures Peers(a[1..], x) == Peers(b[1..], x) {
        PeersHead(a, x);
        PeersHead(b, x);
        var h := if Tied(a[0], x) then [a[0]] else [];
        assert (h + Peers(a[1..], x))[|h|..] == Peers(a[1..], x);
        assert (h + Peers(b[1..], x))[|h|..] == Peers(b[1..], x);
      }
      TailSorted(a, Stronger);
      TailSorted(b, Stronger);
      PeersDecide(a[1..], b[1..]);
      assert a == [a[0]] + a[1..] && b == [b[0]] + b[1..];
    }
  }

  lemma NoPeers(s: seq<Signal>)
    ensures s == [] <==> forall x :: Peers(s, x) == []
  {
    if s != [] { PeersHead(s, s[0]); }
  }

  lemma BothNone(a: seq<Signal>, b: seq<Signal>)
    requires (a == [] || b == []) && forall x :: Peers(a, x) == Peers(b, x)
    ensures a == b
  {
    hide Peers;
    NoPeers(a);
    NoPeers(b);
  }

  lemma SameHead(a: seq<Signal>, b: seq<Signal>)
    requires a != [] && b != [] && SortedBy(a, Stronger) && SortedBy(b, Stronger)
    requires forall x :: Peers(a, x) == Peers(b, x)
    ensures a[0] == b[0]
  {
    hide Stronger, Peers;
    PeersHead(a, a[0]);
    PeersHead(b, b[0]);
    PeersAreIn(b, a[0]);
    PeersAreIn(a, b[0]);
    assert Peers(a, a[0])[0] == a[0] && Peers(b, b[0])[0] == b[0];
    assert a[0] in b && b[0] in a;
    var i :| 0 <= i < |b| && b[i] == a[0];
    var j :| 0 <= j < |a| && a[j] == b[0];
    assert Tied(b[0], a[0]) by {
      assert i > 0 ==> !Stronger(b[i], b[0]);
      assert j > 0 ==> !Stronger(a[j], a[0]);
    }
    PeersHead(b, a[0]);
    assert Peers(b, a[0])[0] == b[0];
  }

  /** What is kept, and what is dropped in order of strength, is the evidence in that order. */
  lemma PartsRank(signals: seq<Signal>, kept: seq<Signal>, dropped: seq<Signal>)
    requires SortedBy(kept, Stronger) && Parts(signals, kept, dropped)
    ensures var all := kept + Sort(dropped, Stronger);
            SortedBy(all, Stronger) && forall x :: Peers(all, x) == Peers(signals, x)
  {
    StrongerIsStrictWeakOrder();
    hide Sort, Stronger, Peers;
    var rest := Sort(dropped, Stronger);
    SortSorts(dropped, Stronger);
    SortKeepsMembers(dropped, Stronger);
    forall i, j | 0 <= i < |kept| && 0 <= j < |rest| ensures !Stronger(rest[j], kept[i]) {
      assert rest[j] in dropped;
    }
    forall x ensures Peers(kept + rest, x) == Peers(signals, x) {
      PeersAdd(kept, rest, x);
      SortedPeers(dropped, x);
    }
  }

  lemma PeersAdd(a: seq<Signal>, b: seq<Signal>, x: Signal)
    ensures Peers(a + b, x) == Peers(a, x) + Peers(b, x)
  {
    FilterAdds(a, b, TiedWith(x));
  }

  /** There is one such choice. */
  lemma BestIsUnique(signals: seq<Signal>, p: seq<Signal>, q: seq<Signal>)
    requires KeepsBest(signals, p) && KeepsBest(signals, q)
    ensures p == q
  {
    hide Sort, Stronger, Peers;
    var d :| Parts(signals, p, d);
    var e :| Parts(signals, q, e);
    PartsRank(signals, p, d);
    PartsRank(signals, q, e);
    var all, also := p + Sort(d, Stronger), q + Sort(e, Stronger);
    PeersDecide(all, also);
    assert all[..|p|] == p && also[..|q|] == q;
  }

  /** What is kept and what is dropped make up the evidence; while a vote is dropped only votes are
      kept, and of the Opens the newest. */
  lemma BestIsStrongest(signals: seq<Signal>, kept: seq<Signal>) returns (dropped: seq<Signal>)
    requires KeepsBest(signals, kept)
    ensures multiset(kept) + multiset(dropped) == multiset(signals)
    ensures forall x, y :: x in kept && y in dropped && y.vote != "" ==> x.vote != ""
    ensures forall x, y :: x in kept && y in dropped && (x.vote != "" <==> y.vote != "") && y.openedAt.Some? ==>
              x.openedAt.Some? && x.openedAt.value >= y.openedAt.value
  {
    dropped :| Parts(signals, kept, dropped);
    forall x ensures (multiset(kept) + multiset(dropped))[x] == multiset(signals)[x] {
      hide Stronger, Peers;
      PeersCount(kept, x);
      PeersCount(dropped, x);
      PeersCount(signals, x);
      assert Peers(kept, x) + Peers(dropped, x) == Peers(signals, x);
    }
  }

  // ----- The version log -----

  datatype Source = Manual | Regenerated

  datatype Version = Version(content: string, source: Source)

  /** `INSERT … WHERE $1 IS DISTINCT FROM` the newest content. */
  function Saved(log: seq<Version>, text: string, source: Source): seq<Version> {
    if log != [] && log[|log| - 1].content == text then log else log + [Version(text, source)]
  }

  class Store {
    var log: seq<Version>

    constructor (log: seq<Version>)
      ensures this.log == log
    {
      this.log := log;
    }

    method Save(text: string, source: Source, fault: Fault) returns (changed: Reply<bool>)
      modifies this
      ensures log == if fault.Dropped? then old(log) else Saved(old(log), text, source)
      ensures fault.Clean? ==> changed == Ok(log != old(log))
      ensures !fault.Clean? ==> changed.Err?
    {
      var inserted := log == [] || log[|log| - 1].content != text;
      if inserted && !fault.Dropped? { log := log + [Version(text, source)]; }
      return if fault.Clean? then Ok(inserted) else Err(STORE_ERROR);
    }
  }

  datatype Outcome =
    | Kept(profile: string, changed: bool, signals: nat)
    | Invalid(problem: Problem)
    | NoProfile
    | Failed(error: string)

  /** What one call does to the log. `signals` is the evidence when it loads, `proposed` the model's
      rewrite when it answers. */
  datatype Event =
    | Replace(text: string, fault: Fault)
    | Regenerate(signals: Option<seq<Signal>>, proposed: Option<string>, fault: Fault)

  /** The text a call hands to the store, if it gets that far. */
  function Offered(log: seq<Version>, e: Event): Option<string> {
    match e
    case Replace(text, _) => ValidText(text)
    case Regenerate(signals, proposed, _) =>
      if log == [] || signals.None? || signals.value == [] || proposed.None? then None else ValidText(proposed.value)
  }

  function ValidText(text: string): Option<string> {
    match Check(Normalized(text))
    case Accepted(v) => Some(v)
    case Rejected(_) => None
  }

  function After(log: seq<Version>, e: Event): seq<Version> {
    match Offered(log, e)
    case None => log
    case Some(v) => if e.fault.Dropped? then log else Saved(log, v, if e.Replace? then Manual else Regenerated)
  }

  class Service {
    const store: Store

    constructor (store: Store)
      ensures this.store == store
    {
      this.store := store;
    }

    method Read() returns (text: Option<string>)
      ensures store.log == [] ==> text == None
      ensures store.log != [] ==> text == Some(Stripped(store.log[|store.log| - 1].content))
    {
      if store.log == [] { return None; }
      var stripped := ForModel(store.log[|store.log| - 1].content);
      return Some(stripped);
    }

    method ReplaceProfile(text: string, fault: Fault) returns (r: Outcome)
      modifies store
      ensures store.log == After(old(store.log), Replace(text, fault))
      ensures r.Invalid? <==> ValidText(text).None?
      ensures r.Kept? <==> ValidText(text).Some? && fault.Clean?
      ensures r.Kept? ==> Some(r.profile) == ValidText(text) && r.changed == (store.log != old(store.log))
    {
      hide Check, Normalized;
      var c := Validate(text);
      if c.Rejected? { return Invalid(c.problem); }
      var changed := store.Save(c.text, Manual, fault);
      return if changed.Ok? then Kept(c.text, changed.value, 0) else Failed(changed.error);
    }

    method RegenerateProfile(signals: Option<seq<Signal>>, proposed: Option<string>, fault: Fault)
      returns (r: Outcome)
      modifies store
      ensures store.log == After(old(store.log), Regenerate(signals, proposed, fault))
      ensures r.NoProfile? <==> old(store.log) == []
      ensures old(store.log) != [] && signals == Some([]) ==>
                r == Kept(old(store.log)[|old(store.log)| - 1].content, false, 0)
      ensures r.Kept? && signals != Some([]) ==>
                && signals.Some? && r.signals == Fitting(signals.value) && proposed.Some?
                && Some(r.profile) == ValidText(proposed.value) && r.changed == (store.log != old(store.log))
    {
      hide Check, Normalized, SortedBy, Parts;
      if store.log == [] { return NoProfile; }
      var current := store.log[|store.log| - 1].content;
      if signals.None? { return Failed("load signals"); }
      if |signals.value| == 0 { return Kept(current, false, 0); }
      var evidence := BoundSignals(signals.value);
      if proposed.None? { return Failed("regenerate"); }
      var c := Validate(proposed.value);
      if c.Rejected? { return Invalid(c.problem); }
      var changed := store.Save(c.text, Regenerated, fault);
      return if changed.Ok? then Kept(c.text, changed.value, |evidence|) else Failed(changed.error);
    }
  }

  // ----- Runs -----

  ghost predicate IsRun(logs: seq<seq<Version>>, events: seq<Event>) {
    && |logs| == |events| + 1 && logs[0] == []
    && forall i :: 0 <= i < |events| ==> logs[i + 1] == After(logs[i], events[i])
  }

  /** No text offered holds a stray carriage return, as no text from Docs does. */
  ghost predicate FromDocs(e: Event) {
    match e
    case Replace(text, _) => !StrayReturn(text)
    case Regenerate(_, proposed, _) => proposed.Some? ==> !StrayReturn(proposed.value)
  }

  /** A stored text: it passes the checks Validate makes after normalizing, and Validate itself
      returns it as it is exactly when it holds no CR LF. */
  ghost predicate Sound(v: string) {
    && Check(v) == Accepted(v)
    && (ValidText(v) == Some(v) <==> !HasCrlf(v))
  }

  /** Version `k` is sound, and is not the version before it. */
  ghost predicate VersionOK(log: seq<Version>, k: nat)
    requires k < |log|
  {
    && Sound(log[k].content)
    && (k > 0 ==> log[k].content != log[k - 1].content)
  }

  /** Validate returns a text that passes the checks as it is exactly when normalizing changes
      nothing. */
  lemma ValidAsItIs(v: string)
    requires Check(v) == Accepted(v)
    ensures ValidText(v) == Some(v) <==> Normalized(v) == v
  {
    AcceptedMeans(Normalized(v));
    hide Check, Normalized;
  }

  lemma OfferedIsValid(text: string)
    ensures ValidText(text).Some? ==> ValidText(text).value == Normalized(text) && Sound(Normalized(text))
  {
    AcceptedMeans(Normalized(text));
    NormalizedIsFixed(text);
    hide Check, Normalized, HasCrlf;
    if ValidText(text).Some? { ValidAsItIs(Normalized(text)); }
  }

  lemma SavedKeepsVersions(log: seq<Version>, v: string, source: Source, k: nat)
    requires forall j :: 0 <= j < |log| ==> VersionOK(log, j)
    requires Sound(v) && k < |Saved(log, v, source)|
    ensures VersionOK(Saved(log, v, source), k)
  {
    hide Sound;
    if k < |log| { assert VersionOK(log, k); }
  }

  lemma OfferIsSound(log: seq<Version>, e: Event)
    requires Offered(log, e).Some?
    ensures Sound(Offered(log, e).value)
  {
    hide Sound, ValidText;
    OfferedIsValid(if e.Replace? then e.text else e.proposed.value);
  }

  lemma AfterKeepsVersions(log: seq<Version>, e: Event, k: nat)
    requires forall j :: 0 <= j < |log| ==> VersionOK(log, j)
    requires k < |After(log, e)|
    ensures VersionOK(After(log, e), k)
  {
    hide VersionOK, Sound, Offered, Saved;
    if Offered(log, e).Some? && !e.fault.Dropped? {
      OfferIsSound(log, e);
      SavedKeepsVersions(log, Offered(log, e).value, if e.Replace? then Manual else Regenerated, k);
    }
  }

  /** A valid text offered without a failure is the newest version, once: unless it was so already,
      it is appended. A regeneration offers the model's rewrite when there is a profile, evidence and an
      answer. */
  lemma OfferedIsNewest(log: seq<Version>, e: Event)
    ensures var after := After(log, e);
            match e
            case Replace(text, fault) =>
              ValidText(text).Some? && !fault.Dropped? ==> IsNewest(log, after, ValidText(text).value, Manual)
            case Regenerate(signals, proposed, fault) =>
              log != [] && signals.Some? && signals.value != [] && proposed.Some? && !fault.Dropped? ==>
                ValidText(proposed.value).Some? ==>
                  IsNewest(log, after, ValidText(proposed.value).value, Regenerated)
  {
    hide ValidText;
  }

  ghost predicate IsNewest(log: seq<Version>, after: seq<Version>, text: string, source: Source) {
    && after != [] && after[|after| - 1].content == text
    && (after == log || after == log + [Version(text, source)])
    && (after == log ==> log != [] && log[|log| - 1].content == text)
  }

  /** Over any run of replacements and rewrites every stored version passes the checks, Validate
      returns it as it is exactly when it holds no CR LF, and no two in a row are equal. */
  lemma {:induction false} EveryVersionIsSound(logs: seq<seq<Version>>, events: seq<Event>, i: nat, k: nat)
    requires IsRun(logs, events) && i < |logs| && k < |logs[i]|
    ensures VersionOK(logs[i], k)
    decreases i
  {
    hide VersionOK, After;
    if i > 0 {
      var log := logs[i - 1];
      forall j | 0 <= j < |log| ensures VersionOK(log, j) {
        EveryVersionIsSound(logs, events, i - 1, j);
      }
      AfterKeepsVersions(log, events[i - 1], k);
    }
  }

  /** Validate may reject what the log holds: this text is stored with its bullet cut to a dash and
      one return, and offered again it is normalized to a bare dash. */
  lemma StoredVersionIsRejected()
    ensures var t, v := Ended(StoredReturn.WithBullet(StoredReturn.TWO_RETURNS)),
                        Ended(StoredReturn.WithBullet(StoredReturn.ONE_RETURN));
            After([], Replace(t, Clean)) == [Version(v, Manual)] && ValidText(v).None?
  {
    hide Check, Normalized, Ended, StoredReturn.WithBullet;
    StoredReturn.StoredReturnIsRejected();
  }

  /** The log is only ever appended to. */
  lemma {:induction false} VersionsStay(logs: seq<seq<Version>>, events: seq<Event>, i: nat, j: nat)
    requires IsRun(logs, events) && i <= j < |logs|
    ensures logs[i] <= logs[j]
    decreases j
  {
    if i < j {
      VersionsStay(logs, events, i, j - 1);
      hide ValidText;
    }
  }

  /** When the texts offered come from Docs every stored version is a fixed point of Validate. */
  lemma {:induction false} EveryVersionIsFixed(logs: seq<seq<Version>>, events: seq<Event>, i: nat, k: nat)
    requires IsRun(logs, events) && i < |logs| && k < |logs[i]|
    requires forall j :: 0 <= j < |events| ==> FromDocs(events[j])
    ensures Normalized(logs[i][k].content) == logs[i][k].content
    ensures ValidText(logs[i][k].content) == Some(logs[i][k].content)
    decreases i
  {
    hide ValidText, Normalized, StrayReturn;
    if i > 0 {
      var e := events[i - 1];
      assert FromDocs(e) && logs[i] == After(logs[i - 1], e);
      if k < |logs[i - 1]| {
        VersionsStay(logs, events, i - 1, i);
        EveryVersionIsFixed(logs, events, i - 1, k);
      } else {
        StraightIsFixed(if e.Replace? then e.text else e.proposed.value);
      }
    }
  }

  lemma StraightIsFixed(text: string)
    requires !StrayReturn(text) && ValidText(text).Some?
    ensures var v := ValidText(text).value; Normalized(v) == v && ValidText(v) == Some(v)
  {
    hide Check, Normalized, StrayReturn;
    NormalizeTwice(text);
    OfferedIsValid(text);
    ValidAsItIs(Normalized(text));
  }

  /** A rejected text, and a call that fails before the store, leave the log as it was; offering the
      same text again, as the nightly sync of an unedited Doc does, adds nothing. */
  lemma UneditedDocAddsNothing(log: seq<Version>, text: string, fault: Fault, again: Fault)
    ensures ValidText(text).None? ==> After(log, Replace(text, fault)) == log
    ensures !fault.Dropped? ==>
              After(After(log, Replace(text, fault)), Replace(text, again)) == After(log, Replace(text, fault))
  {
    hide Check, Normalized;
  }

  /** Handing the stored profile back adds nothing, unless it holds a CR LF and is accepted without
      it. */
  lemma HandingBack(logs: seq<seq<Version>>, events: seq<Event>, i: nat)
    requires IsRun(logs, events) && i < |logs| && logs[i] != []
    ensures var v := logs[i][|logs[i]| - 1].content;
            After(logs[i], Replace(v, Clean)) == logs[i] <==> !(HasCrlf(v) && Check(Normalized(v)).Accepted?)
  {
    var log := logs[i];
    var v := log[|log| - 1].content;
    EveryVersionIsSound(logs, events, i, |log| - 1);
    OfferedIsValid(v);
    hide Check, Normalized, HasCrlf;
  }
}
