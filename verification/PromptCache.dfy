/** The prompt cache (internal/langfuse/prompts.go): stale copies are served while one background
    fetch per name refreshes them. Fetches complete in any order and at any time. */
module PromptCache {
  import opened Text

  type Time = int

  datatype Prompt = Prompt(name: string, version: int, system: string, user: string)

  const BLANK := Prompt("", 0, "", "")

  /** `checked` is when the last fetch completed; none is always stale, like Go's zero time. */
  datatype Entry = Entry(prompt: Prompt, ok: bool, checked: Option<Time>, refreshing: bool)

  const NEW_ENTRY := Entry(BLANK, false, None, false)

  type Cache = map<string, Entry>

  /** What has happened, in order: a fetch started by Template, one started by Warm, one done. */
  datatype Note =
    | Asked(name: string, at: Time)
    | Warmed(name: string)
    | Stored(name: string, at: Time, fetched: Option<Prompt>)

  /** `fetching` counts the fetch goroutines that have not stored yet. */
  datatype State = State(cache: Cache, fetching: multiset<string>, history: seq<Note>, clock: Time)

  function EntryOf(cache: Cache, name: string): Entry {
    if name in cache then cache[name] else NEW_ENTRY
  }

  predicate Stale(e: Entry, now: Time, ttl: Time) {
    e.checked.None? || now - e.checked.value >= ttl
  }

  /** `entry` followed by `refreshLocked`, when `refresh` holds. */
  function Touch(s: State, name: string, refresh: bool, note: Note): State {
    var e := EntryOf(s.cache, name);
    if refresh && !e.refreshing then
      s.(cache := s.cache[name := e.(refreshing := true)],
         fetching := s.fetching + multiset{name}, history := s.history + [note])
    else s.(cache := s.cache[name := e])
  }

  function AfterTemplate(s: State, ttl: Time, name: string, now: Time): State {
    Touch(s, name, Stale(EntryOf(s.cache, name), now, ttl), Asked(name, now)).(clock := now)
  }

  function Served(cache: Cache, name: string): Option<Prompt> {
    if EntryOf(cache, name).ok then Some(cache[name].prompt) else None
  }

  function AfterWarm(s: State, names: seq<string>): State {
    if names == [] then s
    else
      var s1, name := AfterWarm(s, names[..|names| - 1]), names[|names| - 1];
      Touch(s1, name, !EntryOf(s1.cache, name).ok, Warmed(name))
  }

  function AfterStore(s: State, name: string, now: Time, fetched: Option<Prompt>): State
    requires name in s.cache
  {
    var e := s.cache[name].(checked := Some(now), refreshing := false);
    State(s.cache[name := if fetched.Some? then e.(prompt := fetched.value, ok := true) else e],
          s.fetching - multiset{name}, s.history + [Stored(name, now, fetched)], now)
  }

  lemma Revisit(cache: Cache, name: string, e: Entry, e': Entry)
    ensures cache[name := e][name := e'] == cache[name := e']
  {
  }

  const DEFAULT_TTL: Time := 60

  class Prompts {
    const enabled: bool
    const ttl: Time
    var cache: Cache
    ghost var fetching: multiset<string>
    ghost var history: seq<Note>
    ghost var clock: Time

    ghost function View(): State
      reads this
    {
      State(cache, fetching, history, clock)
    }

    constructor (enabled: bool, ttl: Time)
      ensures this.enabled == enabled && this.ttl == if ttl > 0 then ttl else 60
      ensures View() == Begin(0)
    {
      this.enabled, this.ttl := enabled, if ttl <= 0 then DEFAULT_TTL else ttl;
      cache, fetching, history, clock := map[], multiset{}, [], 0;
    }

    /** Start a fetch unless one is running. */
    method RefreshLocked(name: string, ghost note: Note)
      requires name in cache
      modifies this`cache, this`fetching, this`history
      ensures View() == Touch(old(View()), name, true, note)
    {
      if cache[name].refreshing { return; }
      cache := cache[name := cache[name].(refreshing := true)];
      fetching, history := fetching + multiset{name}, history + [note];
    }

    method Find(name: string)
      modifies this`cache
      ensures cache == old(cache)[name := EntryOf(old(cache), name)]
    {
      if name !in cache { cache := cache[name := NEW_ENTRY]; }
    }

    method Template(name: string, now: Time) returns (served: Option<Prompt>)
      modifies this`cache, this`fetching, this`history, this`clock
      ensures !enabled ==> served.None? && View() == old(View())
      ensures enabled ==> View() == AfterTemplate(old(View()), ttl, name, now) && served == Served(old(cache), name)
    {
      if !enabled { return None; }
      clock := now;
      Find(name);
      ghost var e := EntryOf(old(cache), name);
      Revisit(old(cache), name, e, e.(refreshing := true));
      if Stale(cache[name], now, ttl) { RefreshLocked(name, Asked(name, now)); }
      return if cache[name].ok then Some(cache[name].prompt) else None;
    }

    method Warm(names: seq<string>)
      modifies this`cache, this`fetching, this`history
      ensures View() == if enabled then AfterWarm(old(View()), names) else old(View())
    {
      if !enabled { return; }
      var i := 0;
      while i < |names|
        invariant i <= |names| && View() == AfterWarm(old(View()), names[..i])
      {
        assert names[..i + 1][..i] == names[..i];
        ghost var before := cache;
        Find(names[i]);
        ghost var e := EntryOf(before, names[i]);
        Revisit(before, names[i], e, e.(refreshing := true));
        if !cache[names[i]].ok { RefreshLocked(names[i], Warmed(names[i])); }
        i := i + 1;
      }
      assert names[..i] == names;
    }

    /** A failed fetch keeps the copy in place. */
    method Store(name: string, now: Time, fetched: Option<Prompt>)
      requires name in cache
      modifies this`cache, this`fetching, this`history, this`clock
      ensures View() == AfterStore(old(View()), name, now, fetched)
    {
      clock, history, fetching := now, history + [Stored(name, now, fetched)], fetching - multiset{name};
      ghost var e := cache[name].(checked := Some(now), refreshing := false);
      cache := cache[name := cache[name].(checked := Some(now), refreshing := false)];
      if fetched.None? { return; }
      Revisit(old(cache), name, e, e.(prompt := fetched.value, ok := true));
      cache := cache[name := cache[name].(prompt := fetched.value, ok := true)];
    }
  }

  // ----- Runs -----

  datatype Event =
    | Template(name: string, now: Time)
    | Warm(names: seq<string>)
    | Store(name: string, now: Time, fetched: Option<Prompt>)

  function Begin(now: Time): State {
    State(map[], multiset{}, [], now)
  }

  /** Calls come at any time, a fetch stores when it is outstanding, and the clock does not run
      backwards. */
  ghost predicate Step(ttl: Time, s: State, e: Event, s': State) {
    match e
    case Template(name, now) => now >= s.clock && s' == AfterTemplate(s, ttl, name, now)
    case Warm(names) => s' == AfterWarm(s, names)
    case Store(name, now, fetched) =>
      now >= s.clock && name in s.fetching && (name in s.cache ==> s' == AfterStore(s, name, now, fetched))
  }

  ghost predicate IsRun(ttl: Time, states: seq<State>, events: seq<Event>) {
    && ttl > 0 && |states| == |events| + 1 && states[0] == Begin(states[0].clock)
    && forall i :: 0 <= i < |events| ==> Step(ttl, states[i], events[i], states[i + 1])
  }

  // ----- What the history says of a name -----

  /** The last fetch of `name` that succeeded. */
  function LastGood(history: seq<Note>, name: string): Option<Prompt> {
    if history == [] then None
    else
      var note := history[|history| - 1];
      if note.Stored? && note.name == name && note.fetched.Some? then note.fetched
      else LastGood(history[..|history| - 1], name)
  }

  /** When the last fetch of `name` completed. */
  function LastDone(history: seq<Note>, name: string): Option<Time> {
    if history == [] then None
    else
      var note := history[|history| - 1];
      if note.Stored? && note.name == name then Some(note.at) else LastDone(history[..|history| - 1], name)
  }

  /** When Template started fetches of `name`. */
  function Starts(history: seq<Note>, name: string): seq<Time> {
    if history == [] then []
    else
      var note := history[|history| - 1];
      Starts(history[..|history| - 1], name) + if note.Asked? && note.name == name then [note.at] else []
  }

  lemma Noted(history: seq<Note>, note: Note, name: string)
    ensures LastGood(history + [note], name) ==
            if note.Stored? && note.name == name && note.fetched.Some? then note.fetched else LastGood(history, name)
    ensures LastDone(history + [note], name) ==
            if note.Stored? && note.name == name then Some(note.at) else LastDone(history, name)
    ensures Starts(history + [note], name) ==
            Starts(history, name) + if note.Asked? && note.name == name then [note.at] else []
  {
    assert (history + [note])[..|history|] == history;
  }

  ghost predicate Spaced(starts: seq<Time>, ttl: Time) {
    forall i :: 0 <= i < |starts| - 1 ==> starts[i + 1] - starts[i] >= ttl
  }

  /** The cache knows of a name what its history says, and one fetch at most is out. */
  ghost predicate NameOK(s: State, ttl: Time, name: string) {
    var e, starts := EntryOf(s.cache, name), Starts(s.history, name);
    && s.fetching[name] == (if e.refreshing then 1 else 0)
    && e.checked == LastDone(s.history, name)
    && (if e.ok then Some(e.prompt) else None) == LastGood(s.history, name)
    && Spaced(starts, ttl)
    && (starts != [] ==> starts[|starts| - 1] <= s.clock)
    && (starts != [] && !e.refreshing ==> e.checked.Some? && e.checked.value >= starts[|starts| - 1])
    && (e.checked.Some? ==> e.checked.value <= s.clock)
  }

  lemma TouchKeepsName(s: State, ttl: Time, name: string, refresh: bool, note: Note, other: string)
    requires ttl > 0 && NameOK(s, ttl, name) && NameOK(s, ttl, other)
    requires note == Warmed(name) || note == Asked(name, s.clock)
    requires note.Asked? && refresh ==> Stale(EntryOf(s.cache, name), s.clock, ttl)
    ensures NameOK(Touch(s, name, refresh, note), ttl, other)
  {
    hide LastGood, LastDone, Starts;
    Noted(s.history, note, other);
  }

  lemma LaterKeepsName(s: State, ttl: Time, now: Time, name: string)
    requires NameOK(s, ttl, name) && now >= s.clock
    ensures NameOK(s.(clock := now), ttl, name)
  {
  }

  lemma {:induction false} WarmKeepsName(s: State, ttl: Time, names: seq<string>, other: string)
    requires ttl > 0 && forall name :: NameOK(s, ttl, name)
    ensures NameOK(AfterWarm(s, names), ttl, other)
  {
    if names != [] {
      hide NameOK;
      var s1, name := AfterWarm(s, names[..|names| - 1]), names[|names| - 1];
      WarmKeepsName(s, ttl, names[..|names| - 1], name);
      WarmKeepsName(s, ttl, names[..|names| - 1], other);
      TouchKeepsName(s1, ttl, name, !EntryOf(s1.cache, name).ok, Warmed(name), other);
    }
  }

  lemma StoreKeepsName(s: State, ttl: Time, name: string, now: Time, fetched: Option<Prompt>, other: string)
    requires now >= s.clock && name in s.fetching && name in s.cache
    requires NameOK(s, ttl, name) && NameOK(s, ttl, other)
    ensures NameOK(AfterStore(s, name, now, fetched), ttl, other)
  {
    hide LastGood, LastDone, Starts;
    Noted(s.history, Stored(name, now, fetched), other);
  }

  lemma {:induction false} RunKeepsNames(ttl: Time, states: seq<State>, events: seq<Event>, i: nat, name: string)
    requires IsRun(ttl, states, events) && i < |states|
    ensures NameOK(states[i], ttl, name)
    decreases i
  {
    if i > 0 {
      hide NameOK;
      var s := states[i - 1];
      forall other ensures NameOK(s, ttl, other) {
        RunKeepsNames(ttl, states, events, i - 1, other);
      }
      assert Step(ttl, s, events[i - 1], states[i]);
      match events[i - 1] {
        case Template(asked, now) =>
          var later := s.(clock := now);
          LaterKeepsName(s, ttl, now, asked);
          LaterKeepsName(s, ttl, now, name);
          TouchKeepsName(later, ttl, asked, Stale(EntryOf(later.cache, asked), now, ttl), Asked(asked, now), name);
        case Warm(names) => WarmKeepsName(s, ttl, names, name);
        case Store(stored, now, fetched) =>
          OutIsCached(s, ttl, stored);
          StoreKeepsName(s, ttl, stored, now, fetched, name);
      }
    } else {
      assert EntryOf(map[], name) == NEW_ENTRY;
    }
  }

  lemma OutIsCached(s: State, ttl: Time, name: string)
    requires NameOK(s, ttl, name) && name in s.fetching
    ensures name in s.cache
  {
  }

  // ----- What every run keeps -----

  /** A name is marked refreshing exactly while one fetch of it is out, and never are two: so a
      fetch that stores always finds its entry. */
  lemma OneFetchPerName(ttl: Time, states: seq<State>, events: seq<Event>, i: nat, name: string)
    requires IsRun(ttl, states, events) && i < |states|
    ensures states[i].fetching[name] <= 1
    ensures name in states[i].fetching <==> EntryOf(states[i].cache, name).refreshing
    ensures name in states[i].fetching ==> name in states[i].cache
  {
    RunKeepsNames(ttl, states, events, i, name);
  }

  /** Template serves the last fetch that succeeded, and errors only when none has. */
  lemma ServesLastGood(ttl: Time, states: seq<State>, events: seq<Event>, i: nat, name: string)
    requires IsRun(ttl, states, events) && i < |states|
    ensures Served(states[i].cache, name) == LastGood(states[i].history, name)
  {
    RunKeepsNames(ttl, states, events, i, name);
  }

  lemma {:induction false} TouchesExtend(s: State, names: seq<string>)
    ensures s.history <= AfterWarm(s, names).history
  {
    if names != [] { TouchesExtend(s, names[..|names| - 1]); }
  }

  lemma {:induction false} HistoryGrows(ttl: Time, states: seq<State>, events: seq<Event>, i: nat, j: nat)
    requires IsRun(ttl, states, events) && i <= j < |states|
    ensures states[i].history <= states[j].history
    decreases j
  {
    if i < j {
      HistoryGrows(ttl, states, events, i, j - 1);
      hide AfterWarm;
      assert Step(ttl, states[j - 1], events[j - 1], states[j]);
      match events[j - 1] {
        case Template(_, _) =>
        case Warm(names) => TouchesExtend(states[j - 1], names);
        case Store(name, _, _) => OneFetchPerName(ttl, states, events, j - 1, name);
      }
    }
  }

  lemma {:induction false} GoodStays(h: seq<Note>, h': seq<Note>, name: string)
    requires h <= h' && LastGood(h, name).Some?
    ensures LastGood(h', name).Some?
  {
    if |h'| > |h| { GoodStays(h, h'[..|h'| - 1], name); } else { assert h == h'; }
  }

  /** Once a name has been served it always is: no failed fetch takes the copy away. */
  lemma NeverReverts(ttl: Time, states: seq<State>, events: seq<Event>, i: nat, j: nat, name: string)
    requires IsRun(ttl, states, events) && i <= j < |states|
    requires Served(states[i].cache, name).Some?
    ensures Served(states[j].cache, name).Some?
  {
    ServesLastGood(ttl, states, events, i, name);
    ServesLastGood(ttl, states, events, j, name);
    HistoryGrows(ttl, states, events, i, j);
    GoodStays(states[i].history, states[j].history, name);
  }

  /** A fetch that Template starts begins a TTL or more after any fetch of the name completed, and is
      one of its starts. */
  lemma StartsAfterTTL(ttl: Time, states: seq<State>, events: seq<Event>, i: nat, name: string, now: Time)
    requires IsRun(ttl, states, events) && i < |events| && events[i] == Template(name, now)
    requires name !in states[i].fetching && name in states[i + 1].fetching
    ensures LastDone(states[i].history, name).Some? ==> now - LastDone(states[i].history, name).value >= ttl
    ensures Starts(states[i + 1].history, name) == Starts(states[i].history, name) + [now]
  {
    RunKeepsNames(ttl, states, events, i, name);
    assert Step(ttl, states[i], events[i], states[i + 1]);
    Noted(states[i].history, Asked(name, now), name);
  }

  /** A stale copy is refreshed: after Template a fetch of the name is out, unless the last one
      completed less than a TTL ago. */
  lemma StaleIsRefreshed(ttl: Time, states: seq<State>, events: seq<Event>, i: nat, name: string, now: Time)
    requires IsRun(ttl, states, events) && i < |events| && events[i] == Template(name, now)
    ensures || name in states[i + 1].fetching
            || (var done := LastDone(states[i].history, name); done.Some? && now - done.value < ttl)
  {
    RunKeepsNames(ttl, states, events, i, name);
    assert Step(ttl, states[i], events[i], states[i + 1]);
  }

  ghost predicate OutAre(s: State) {
    forall n :: EntryOf(s.cache, n).refreshing ==> n in s.fetching
  }

  predicate Covered(s: State, name: string) {
    name in s.fetching || Served(s.cache, name).Some?
  }

  lemma TouchCovers(s: State, name: string, note: Note, other: string)
    requires OutAre(s)
    ensures var s' := Touch(s, name, !EntryOf(s.cache, name).ok, note);
            OutAre(s') && Covered(s', name) && (Covered(s, other) ==> Covered(s', other))
  {
  }

  lemma {:induction false} WarmCovers(s: State, names: seq<string>, name: string)
    requires OutAre(s)
    ensures OutAre(AfterWarm(s, names)) && (name in names || Covered(s, name) ==> Covered(AfterWarm(s, names), name))
  {
    if names != [] {
      hide OutAre, Covered;
      var init, last := names[..|names| - 1], names[|names| - 1];
      WarmCovers(s, init, name);
      TouchCovers(AfterWarm(s, init), last, Warmed(last), name);
      assert names == init + [last];
    }
  }

  /** After Warm every name given is served or being fetched. */
  lemma WarmWarms(ttl: Time, states: seq<State>, events: seq<Event>, i: nat, names: seq<string>, name: string)
    requires IsRun(ttl, states, events) && i < |events| && events[i] == Warm(names) && name in names
    ensures name in states[i + 1].fetching || Served(states[i + 1].cache, name).Some?
  {
    forall n ensures EntryOf(states[i].cache, n).refreshing ==> n in states[i].fetching {
      OneFetchPerName(ttl, states, events, i, n);
    }
    assert Step(ttl, states[i], events[i], states[i + 1]);
    hide IsRun;
    WarmCovers(states[i], names, name);
  }

  /** How many of the times fall within `span` of `from`. */
  function Within(starts: seq<Time>, from: Time, span: nat): nat {
    if starts == [] then 0
    else Within(starts[..|starts| - 1], from, span) + if from <= starts[|starts| - 1] <= from + span then 1 else 0
  }

  /** `n` spaced times in a span need `n - 1` TTLs of it. */
  lemma {:induction false} SpacedFill(starts: seq<Time>, ttl: Time, from: Time, span: nat)
    requires ttl > 0 && Spaced(starts, ttl)
    ensures var n := Within(starts, from, span);
            n > 0 ==> starts != [] && from + (n - 1) * ttl <= starts[|starts| - 1] && (n - 1) * ttl <= span
  {
    if starts != [] {
      var init, last := starts[..|starts| - 1], starts[|starts| - 1];
      SpacedFill(init, ttl, from, span);
      var n := Within(init, from, span);
      if n > 0 {
        assert init[|init| - 1] == starts[|starts| - 2];
        assert n * ttl == (n - 1) * ttl + ttl;
      }
    }
  }

  lemma SpacedFit(starts: seq<Time>, ttl: Time, from: Time, span: nat)
    requires ttl > 0 && Spaced(starts, ttl)
    ensures Within(starts, from, span) <= span / ttl + 1
  {
    SpacedFill(starts, ttl, from, span);
    hide Within;
    var n := Within(starts, from, span);
    if n > 1 { FitsIn(n - 1, ttl, span); }
  }

  /** So a span of time holds at most one more Template-started fetch than it has whole TTLs. */
  lemma FewFetches(ttl: Time, states: seq<State>, events: seq<Event>, i: nat, name: string, from: Time, span: nat)
    requires IsRun(ttl, states, events) && ttl > 0 && i < |states|
    ensures Within(Starts(states[i].history, name), from, span) <= span / ttl + 1
  {
    hide Starts, NameOK, IsRun, Within;
    RunKeepsNames(ttl, states, events, i, name);
    SpacedStarts(states[i], ttl, name);
    SpacedFit(Starts(states[i].history, name), ttl, from, span);
  }

  lemma SpacedStarts(s: State, ttl: Time, name: string)
    requires NameOK(s, ttl, name)
    ensures Spaced(Starts(s.history, name), ttl)
  {
  }

  lemma FitsIn(n: nat, ttl: Time, span: nat)
    requires ttl > 0 && n * ttl <= span
    ensures n <= span / ttl
  {
    var q := span / ttl;
    assert span < (q + 1) * ttl;
    assert n >= q + 1 ==> n * ttl >= (q + 1) * ttl;
  }
}
