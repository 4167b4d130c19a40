/** The single-flight Digest compute (internal/digest/scheduler.go): a dated cache and one compute
    at a time, shared by any number of concurrent Today, TodayOrTrigger and Refresh calls. The
    class holds the critical sections; the machine below interleaves them. */
module SingleFlight {
  import opened Counting
  import opened Text

  type Day = int
  type Digest = string
  /** Channels are numbered in the order they are made. */
  type Chan = nat
  type Tid = nat

  /** What `mu` guards, and the channels closed so far in order. `owners[c]` is the call that made
      channel `c`. */
  datatype Shared = Shared(
    cached: Option<Digest>, cachedDate: Day, inFlight: Option<Chan>, owners: seq<Tid>, closed: seq<Chan>)

  function Fresh(): Shared {
    Shared(None, 0, None, [], [])
  }

  predicate Hit(s: Shared, day: Day) {
    s.cached.Some? && s.cachedDate == day
  }

  /** How `awaitCompute` goes on after looking under the lock. */
  datatype Entry = Serve(digest: Digest) | Join(done: Chan) | Start(done: Chan)

  function EntryOf(s: Shared, day: Day): Entry {
    if Hit(s, day) then Serve(s.cached.value)
    else if s.inFlight.Some? then Join(s.inFlight.value)
    else Start(|s.owners|)
  }

  function Entered(s: Shared, day: Day, t: Tid): Shared {
    if EntryOf(s, day).Start? then s.(inFlight := Some(|s.owners|), owners := s.owners + [t]) else s
  }

  function Published(s: Shared, day: Day, computed: Option<Digest>): Shared {
    if computed.Some? then s.(cached := computed, cachedDate := day, inFlight := None) else s.(inFlight := None)
  }

  class Scheduler {
    var cached: Option<Digest>
    var cachedDate: Day
    var inFlight: Option<Chan>
    var closed: seq<Chan>
    ghost var owners: seq<Tid>
    var made: nat

    ghost predicate Valid()
      reads this
    {
      made == |owners|
    }

    ghost function View(): Shared
      reads this
    {
      Shared(cached, cachedDate, inFlight, owners, closed)
    }

    constructor ()
      ensures Valid() && View() == Fresh()
    {
      cached, cachedDate, inFlight, closed, owners, made := None, 0, None, [], [], 0;
    }

    /** The lookup of TodayOrTrigger. */
    method Peek(today: Day) returns (hit: Option<Digest>, alreadyRunning: bool)
      requires Valid()
      ensures hit == if Hit(View(), today) then cached else None
      ensures hit.None? ==> (alreadyRunning <==> inFlight.Some?)
    {
      if cached.Some? && cachedDate == today { return cached, false; }
      return None, inFlight.Some?;
    }

    /** The drop of Refresh: the date stays, the copy goes. */
    method Drop()
      requires Valid()
      modifies this`cached
      ensures Valid() && View() == old(View()).(cached := None)
    {
      cached := None;
    }

    /** The first critical section of `awaitCompute`, for call `t`. */
    method Enter(today: Day, ghost t: Tid) returns (entry: Entry)
      requires Valid()
      modifies this`inFlight, this`owners, this`made
      ensures Valid() && entry == EntryOf(old(View()), today) && View() == Entered(old(View()), today, t)
    {
      if cached.Some? && cachedDate == today { return Serve(cached.value); }
      if inFlight.Some? { return Join(inFlight.value); }
      var done := made;
      made, owners := made + 1, owners + [t];
      inFlight := Some(done);
      return Start(done);
    }

    /** Its second critical section. */
    method Publish(today: Day, computed: Option<Digest>)
      requires Valid()
      modifies this`cached, this`cachedDate, this`inFlight
      ensures Valid() && View() == Published(old(View()), today, computed)
    {
      if computed.Some? { cached, cachedDate := computed, today; }
      inFlight := None;
    }

    /** `close(done)`: it panics on a closed channel, which `EachChannelClosesOnce` rules out. */
    method Close(done: Chan)
      requires Valid() && done !in closed
      modifies this`closed
      ensures Valid() && View() == old(View()).(closed := old(closed) + [done])
    {
      closed := closed + [done];
    }
  }

  // ----- The interleaving machine -----

  /** `Background(of)` is the call that TodayOrTrigger `of` makes and does not wait for. */
  datatype Call = Today | TodayOrTrigger | Refresh | Background(of: Tid)

  datatype PC =
    | Checking
    | Triggering
    | Dropping
    | Entering
    | Waiting(on: Chan)
    | Computing(own: Chan)
    | Closing(own: Chan, computed: Option<Digest>)
    | Done(answer: Option<Digest>)

  /** One call, with what it has done so far: the channels it waited on, the compute it started,
      and the number of steps it took. */
  datatype Thread = Thread(call: Call, day: Day, pc: PC, waits: seq<Chan>, mine: Option<Chan>, steps: nat)

  /** A compute that succeeded, with the date it was started for. */
  datatype Compute = Compute(day: Day, digest: Digest)

  datatype State = State(shared: Shared, threads: seq<Thread>, computes: seq<Compute>, failures: nat, drops: nat)

  datatype Event = Arrive(call: Call, day: Day) | Advance(t: Tid, computed: Option<Digest>)

  function Start0(): State {
    State(Fresh(), [], [], 0, 0)
  }

  function Begin(call: Call): PC {
    match call
    case Today => Entering
    case TodayOrTrigger => Checking
    case Refresh => Dropping
    case Background(_) => Entering
  }

  function NewThread(call: Call, day: Day): Thread {
    Thread(call, day, Begin(call), [], None, 0)
  }

  /** A call can take its next step: it has not returned, and what it waits on is closed. */
  predicate Enabled(s: State, t: Tid) {
    && t < |s.threads| && !s.threads[t].pc.Done?
    && (s.threads[t].pc.Waiting? ==> s.threads[t].pc.on in s.shared.closed)
  }

  function Goto(s: State, t: Tid, pc: PC): (s': State)
    requires t < |s.threads|
  {
    s.(threads := s.threads[t := s.threads[t].(pc := pc, steps := s.threads[t].steps + 1)])
  }

  function Enter(s: State, t: Tid): State
    requires t < |s.threads|
  {
    var th := s.threads[t];
    match EntryOf(s.shared, th.day)
    case Serve(digest) => Goto(s, t, Done(Some(digest)))
    case Join(done) =>
      s.(threads := s.threads[t := th.(pc := Waiting(done), waits := th.waits + [done], steps := th.steps + 1)])
    case Start(done) =>
      s.(shared := Entered(s.shared, th.day, t),
         threads := s.threads[t := th.(pc := Computing(done), mine := Some(done), steps := th.steps + 1)])
  }

  function Publish(s: State, t: Tid, computed: Option<Digest>): State
    requires t < |s.threads| && s.threads[t].pc.Computing?
  {
    Goto(s, t, Closing(s.threads[t].pc.own, computed)).(
      shared := Published(s.shared, s.threads[t].day, computed),
      computes := if computed.Some? then s.computes + [Compute(s.threads[t].day, computed.value)] else s.computes,
      failures := if computed.Some? then s.failures else s.failures + 1)
  }

  function Move(s: State, t: Tid, computed: Option<Digest>): State
    requires Enabled(s, t)
  {
    var th := s.threads[t];
    match th.pc
    case Checking =>
      if Hit(s.shared, th.day) then Goto(s, t, Done(s.shared.cached))
      else if s.shared.inFlight.Some? then Goto(s, t, Done(None))
      else Goto(s, t, Triggering)
    case Triggering =>
      var s1 := Goto(s, t, Done(None));
      s1.(threads := s1.threads + [NewThread(Background(t), th.day)])
    case Dropping => Goto(s, t, Entering).(shared := s.shared.(cached := None), drops := s.drops + 1)
    case Entering => Enter(s, t)
    case Waiting(_) => Goto(s, t, Entering)
    case Computing(_) => Publish(s, t, computed)
    case Closing(own, result) =>
      Goto(s, t, Done(result)).(shared := s.shared.(closed := s.shared.closed + [own]))
  }

  ghost predicate Step(s: State, e: Event, s': State) {
    match e
    case Arrive(call, day) => !call.Background? && s' == s.(threads := s.threads + [NewThread(call, day)])
    case Advance(t, computed) => Enabled(s, t) && s' == Move(s, t, computed)
  }

  ghost predicate IsRun(states: seq<State>, events: seq<Event>) {
    && |states| == |events| + 1 && states[0] == Start0()
    && forall i :: 0 <= i < |events| ==> Step(states[i], events[i], states[i + 1])
  }

  // ----- The invariant -----

  /** Channel `c` belongs to one call, which closes it in its last step. */
  ghost predicate ChannelOK(s: State, c: Chan)
    requires c < |s.shared.owners|
  {
    var t := s.shared.owners[c];
    && t < |s.threads| && s.threads[t].mine == Some(c)
    && match s.threads[t].pc
       case Computing(own) => own == c && s.shared.inFlight == Some(c) && c !in s.shared.closed
       case Closing(own, _) => own == c && s.shared.inFlight != Some(c) && c !in s.shared.closed
       case Done(_) => s.shared.inFlight != Some(c) && c in s.shared.closed
       case _ => false
  }

  ghost predicate Increasing(waits: seq<Chan>, below: nat) {
    && (forall i :: 0 <= i < |waits| ==> waits[i] < below)
    && (forall i, j :: 0 <= i < j < |waits| ==> waits[i] < waits[j])
  }

  function Stage(pc: PC): nat {
    match pc
    case Triggering => 1
    case Entering => 1
    case Computing(_) => 2
    case Closing(_, _) => 3
    case Done(_) => 4
    case _ => 0
  }

  ghost predicate HasAnswer(s: State, day: Day, digest: Digest) {
    Compute(day, digest) in s.computes
  }

  ghost predicate ThreadOK(s: State, th: Thread) {
    && Increasing(th.waits, |s.shared.owners|)
    && (forall i :: 0 <= i < |th.waits| - 1 ==> th.waits[i] in s.shared.closed)
    && (th.waits != [] && !th.pc.Waiting? ==> th.waits[|th.waits| - 1] in s.shared.closed)
    && th.steps <= 2 * |th.waits| + Stage(th.pc)
    && (th.mine.Some? ==> th.mine.value < |s.shared.owners|)
    && match th.pc
       case Waiting(on) => th.mine.None? && th.waits != [] && th.waits[|th.waits| - 1] == on
       case Computing(own) => th.mine == Some(own)
       case Closing(own, computed) => th.mine == Some(own) && (computed.Some? ==> HasAnswer(s, th.day, computed.value))
       case Done(answer) => answer.Some? ==> HasAnswer(s, th.day, answer.value)
       case _ => th.mine.None?
  }

  ghost predicate Inv(s: State) {
    && (forall c :: 0 <= c < |s.shared.owners| ==> ChannelOK(s, c))
    && (forall t :: 0 <= t < |s.threads| ==> ThreadOK(s, s.threads[t]))
    && (forall t :: 0 <= t < |s.threads| && s.threads[t].mine.Some? && s.threads[t].mine.value < |s.shared.owners| ==>
          s.shared.owners[s.threads[t].mine.value] == t)
    && (s.shared.inFlight.Some? ==> s.shared.inFlight.value == |s.shared.owners| - 1)
    && (forall i :: 0 <= i < |s.shared.closed| ==> s.shared.closed[i] < |s.shared.owners|)
    && (forall i, j :: 0 <= i < j < |s.shared.closed| ==> s.shared.closed[i] != s.shared.closed[j])
    && (s.shared.cached.Some? ==> HasAnswer(s, s.shared.cachedDate, s.shared.cached.value))
  }

  /** What a thread has done so far stays true as the channels and computes only grow. */
  lemma ThreadStaysOK(s: State, s': State, th: Thread)
    requires ThreadOK(s, th)
    requires |s.shared.owners| <= |s'.shared.owners|
    requires forall c :: c in s.shared.closed ==> c in s'.shared.closed
    requires forall x :: x in s.computes ==> x in s'.computes
    ensures ThreadOK(s', th)
  {
  }

  lemma OthersStayOK(s: State, t: Tid, s': State)
    requires t < |s.threads| && (forall u :: 0 <= u < |s.threads| ==> ThreadOK(s, s.threads[u]))
    requires |s'.threads| == |s.threads| && s'.threads == s.threads[t := s'.threads[t]] && ThreadOK(s', s'.threads[t])
    requires |s.shared.owners| <= |s'.shared.owners|
    requires forall c :: c in s.shared.closed ==> c in s'.shared.closed
    requires forall x :: x in s.computes ==> x in s'.computes
    ensures forall u :: 0 <= u < |s'.threads| ==> ThreadOK(s', s'.threads[u])
  {
    forall u | 0 <= u < |s'.threads| ensures ThreadOK(s', s'.threads[u]) {
      hide ThreadOK;
      if u != t { ThreadStaysOK(s, s', s.threads[u]); }
    }
  }

  lemma ArriveKeepsInv(s: State, th: Thread)
    requires Inv(s) && th.waits == [] && th.mine.None? && th.steps == 0
    requires th.pc.Checking? || th.pc.Dropping? || th.pc.Entering?
    ensures Inv(s.(threads := s.threads + [th]))
  {
    var s' := s.(threads := s.threads + [th]);
    forall t | 0 <= t < |s'.threads| ensures ThreadOK(s', s'.threads[t]) {
      if t < |s.threads| { ThreadStaysOK(s, s', s.threads[t]); }
    }
    forall c | 0 <= c < |s'.shared.owners| ensures ChannelOK(s', c) {
      assert ChannelOK(s, c);
    }
  }

  /** A step of a call that owns no channel, changing at most the cached copy. */
  lemma LocalStepKeepsInv(s: State, t: Tid, th: Thread, s': State)
    requires Inv(s) && t < |s.threads| && s.threads[t].mine.None? && th.mine.None?
    requires s'.threads == s.threads[t := th] && s'.computes == s.computes
    requires s'.shared == s.shared || s'.shared == s.shared.(cached := None)
    requires ThreadOK(s, th)
    ensures Inv(s')
  {
    forall u | 0 <= u < |s'.threads| ensures ThreadOK(s', s'.threads[u]) {
      ThreadStaysOK(s, s', s'.threads[u]);
    }
    hide ThreadOK;
    forall c | 0 <= c < |s'.shared.owners| ensures ChannelOK(s', c) {
      assert ChannelOK(s, c);
    }
  }

  lemma StartKeepsInv(s: State, t: Tid)
    requires Inv(s) && t < |s.threads| && s.threads[t].pc.Entering?
    requires EntryOf(s.shared, s.threads[t].day).Start?
    ensures Inv(Enter(s, t))
  {
    var s' := Enter(s, t);
    assert ThreadOK(s, s.threads[t]);
    OthersStayOK(s, t, s');
    hide ThreadOK;
    forall c | 0 <= c < |s'.shared.owners| ensures ChannelOK(s', c) {
      if c < |s.shared.owners| { assert ChannelOK(s, c); }
    }
  }

  lemma JoinKeepsInv(s: State, t: Tid)
    requires Inv(s) && t < |s.threads| && s.threads[t].pc.Entering?
    requires EntryOf(s.shared, s.threads[t].day).Join?
    ensures Inv(Enter(s, t))
  {
    var c := s.shared.inFlight.value;
    var th := Enter(s, t).threads[t];
    assert ThreadOK(s, s.threads[t]);
    assert ChannelOK(s, c);
    assert ThreadOK(s, th) by {
      forall i | 0 <= i < |th.waits| - 1 ensures th.waits[i] < c {
        assert th.waits[i] in s.shared.closed;
      }
    }
    LocalStepKeepsInv(s, t, th, Enter(s, t));
  }

  lemma PublishKeepsInv(s: State, t: Tid, computed: Option<Digest>)
    requires Inv(s) && t < |s.threads| && s.threads[t].pc.Computing?
    ensures Inv(Publish(s, t, computed))
  {
    var s' := Publish(s, t, computed);
    assert ThreadOK(s, s.threads[t]);
    assert ChannelOK(s, s.threads[t].pc.own);
    if computed.Some? {
      assert s'.computes[|s.computes|] == Compute(s.threads[t].day, computed.value);
    }
    OthersStayOK(s, t, s');
    hide ThreadOK;
    forall c | 0 <= c < |s'.shared.owners| ensures ChannelOK(s', c) {
      assert ChannelOK(s, c);
    }
  }

  lemma CloseKeepsInv(s: State, t: Tid)
    requires Inv(s) && Enabled(s, t) && s.threads[t].pc.Closing?
    ensures Inv(Move(s, t, None))
    ensures s.threads[t].pc.own !in s.shared.closed
  {
    var s' := Move(s, t, None);
    assert ThreadOK(s, s.threads[t]);
    assert ChannelOK(s, s.threads[t].pc.own);
    assert s'.shared.closed[|s.shared.closed|] == s.threads[t].pc.own;
    OthersStayOK(s, t, s');
    hide ThreadOK;
    forall c | 0 <= c < |s'.shared.owners| ensures ChannelOK(s', c) {
      assert ChannelOK(s, c);
    }
  }

  lemma MoveKeepsInv(s: State, t: Tid, computed: Option<Digest>)
    requires Inv(s) && Enabled(s, t)
    ensures Inv(Move(s, t, computed))
  {
    var th, s' := s.threads[t], Move(s, t, computed);
    assert ThreadOK(s, th);
    hide Inv;
    match th.pc
    case Entering =>
      match EntryOf(s.shared, th.day) {
        case Start(_) => StartKeepsInv(s, t);
        case Join(_) => JoinKeepsInv(s, t);
        case Serve(_) => ServeKeepsInv(s, t, s');
      }
    case Computing(_) => PublishKeepsInv(s, t, computed);
    case Closing(_, _) => CloseKeepsInv(s, t);
    case Triggering =>
      var s1 := Goto(s, t, Done(None));
      LocalStepKeepsInv(s, t, s1.threads[t], s1);
      ArriveKeepsInv(s1, NewThread(Background(t), th.day));
    case Checking => ServeKeepsInv(s, t, s');
    case Dropping => LocalStepKeepsInv(s, t, s'.threads[t], s');
    case Waiting(_) => LocalStepKeepsInv(s, t, s'.threads[t], s');
  }

  /** Steps that may answer from the cache. */
  lemma ServeKeepsInv(s: State, t: Tid, s': State)
    requires Inv(s) && t < |s.threads| && ThreadOK(s, s.threads[t]) && s.threads[t].mine.None?
    requires !s.threads[t].pc.Waiting?
    requires s.threads[t].pc.Checking? || s.threads[t].pc.Entering?
    requires || s' == Goto(s, t, Done(None))
             || (Hit(s.shared, s.threads[t].day) && s' == Goto(s, t, Done(s.shared.cached)))
             || (s.threads[t].pc.Checking? && s' == Goto(s, t, Triggering))
    ensures Inv(s')
  {
    LocalStepKeepsInv(s, t, s'.threads[t], s');
  }

  lemma {:induction false} RunKeepsInv(states: seq<State>, events: seq<Event>, i: nat)
    requires IsRun(states, events) && i < |states|
    ensures Inv(states[i])
  {
    if i > 0 {
      hide Inv, Move;
      RunKeepsInv(states, events, i - 1);
      assert Step(states[i - 1], events[i - 1], states[i]);
      match events[i - 1] {
        case Arrive(call, day) => ArriveKeepsInv(states[i - 1], NewThread(call, day));
        case Advance(t, computed) => MoveKeepsInv(states[i - 1], t, computed);
      }
    }
  }

  // ----- What every run keeps -----

  /** At most one compute runs, exactly while its channel is in flight. */
  lemma AtMostOneCompute(states: seq<State>, events: seq<Event>, i: nat, t: Tid, u: Tid)
    requires IsRun(states, events) && i < |states|
    requires t < |states[i].threads| && u < |states[i].threads| && states[i].threads[t].pc.Computing?
    ensures states[i].shared.inFlight == Some(states[i].threads[t].pc.own)
    ensures states[i].threads[u].pc.Computing? ==> t == u
  {
    RunKeepsInv(states, events, i);
    var s := states[i];
    assert ThreadOK(s, s.threads[t]) && ThreadOK(s, s.threads[u]);
    assert ChannelOK(s, s.threads[t].pc.own);
    if s.threads[u].pc.Computing? { assert ChannelOK(s, s.threads[u].pc.own); }
  }

  /** And whatever is in flight is being computed. */
  lemma InFlightIsComputing(states: seq<State>, events: seq<Event>, i: nat)
    requires IsRun(states, events) && i < |states| && states[i].shared.inFlight.Some?
    ensures exists t ::
              0 <= t < |states[i].threads| && states[i].threads[t].pc == Computing(states[i].shared.inFlight.value)
  {
    RunKeepsInv(states, events, i);
    var s := states[i];
    var c := s.shared.inFlight.value;
    assert ChannelOK(s, c);
    assert s.threads[s.shared.owners[c]].pc == Computing(c);
  }

  /** No channel is closed twice, each is closed by the call that made it, and by the time that
      call has returned it has been. */
  lemma EachChannelClosesOnce(states: seq<State>, events: seq<Event>, i: nat)
    requires IsRun(states, events) && i < |states|
    ensures forall j, k :: 0 <= j < k < |states[i].shared.closed| ==>
              states[i].shared.closed[j] != states[i].shared.closed[k]
    ensures forall t :: 0 <= t < |states[i].threads| && states[i].threads[t].pc.Closing? ==>
              states[i].threads[t].pc.own !in states[i].shared.closed
    ensures forall t ::
              0 <= t < |states[i].threads| && states[i].threads[t].mine.Some? && states[i].threads[t].pc.Done? ==>
                states[i].threads[t].mine.value in states[i].shared.closed
  {
    RunKeepsInv(states, events, i);
    var s := states[i];
    forall t | 0 <= t < |s.threads| && s.threads[t].mine.Some?
      ensures s.threads[t].pc.Closing? ==> s.threads[t].pc.own !in s.shared.closed
      ensures s.threads[t].pc.Done? ==> s.threads[t].mine.value in s.shared.closed
    {
      assert ThreadOK(s, s.threads[t]);
      assert ChannelOK(s, s.threads[t].mine.value);
    }
    forall t | 0 <= t < |s.threads| && s.threads[t].pc.Closing? ensures s.threads[t].mine.Some? {
      assert ThreadOK(s, s.threads[t]);
    }
  }

  /** What a waiter waits on is closed, or belongs to a call that is about to close it. */
  lemma EveryWaiterWakes(states: seq<State>, events: seq<Event>, i: nat, t: Tid)
    requires IsRun(states, events) && i < |states|
    requires t < |states[i].threads| && states[i].threads[t].pc.Waiting?
    ensures var s := states[i];
            var c := s.threads[t].pc.on;
            || c in s.shared.closed
            || (&& c < |s.shared.owners| && s.shared.owners[c] < |s.threads|
                && var owner := s.threads[s.shared.owners[c]].pc;
                   (owner.Computing? || owner.Closing?) && owner.own == c)
  {
    RunKeepsInv(states, events, i);
    var s := states[i];
    assert ThreadOK(s, s.threads[t]);
    assert ChannelOK(s, s.threads[t].pc.on);
  }

  /** So the protocol cannot get stuck: while a call has not returned, some call can move. */
  lemma NeverStuck(states: seq<State>, events: seq<Event>, i: nat, t: Tid)
    requires IsRun(states, events) && i < |states|
    requires t < |states[i].threads| && !states[i].threads[t].pc.Done?
    ensures exists u :: Enabled(states[i], u)
  {
    var s := states[i];
    if s.threads[t].pc.Waiting? && s.threads[t].pc.on !in s.shared.closed {
      EveryWaiterWakes(states, events, i, t);
      assert Enabled(s, s.shared.owners[s.threads[t].pc.on]);
    } else {
      assert Enabled(s, t);
    }
  }

  /** A digest returned for a date was computed by a call for that date, its own or an earlier one. */
  lemma AnswersAreOfTheDay(states: seq<State>, events: seq<Event>, i: nat, t: Tid)
    requires IsRun(states, events) && i < |states| && t < |states[i].threads|
    requires states[i].threads[t].pc.Done? && states[i].threads[t].pc.answer.Some?
    ensures Compute(states[i].threads[t].day, states[i].threads[t].pc.answer.value) in states[i].computes
  {
    RunKeepsInv(states, events, i);
    assert ThreadOK(states[i], states[i].threads[t]);
  }

  // ----- Every call returns -----

  function Started(threads: seq<Thread>): nat {
    if threads == [] then 0
    else Started(threads[..|threads| - 1]) + Flag(threads[|threads| - 1])
  }

  function Steps(threads: seq<Thread>): nat {
    if threads == [] then 0
    else Steps(threads[..|threads| - 1]) + threads[|threads| - 1].steps
  }

  lemma {:induction false} UpdateCounts(threads: seq<Thread>, t: Tid, th: Thread)
    requires t < |threads|
    ensures Steps(threads[t := th]) == Steps(threads) - threads[t].steps + th.steps
    ensures Started(threads[t := th]) == Started(threads) - Flag(threads[t]) + Flag(th)
  {
    var n := |threads| - 1;
    if t == n {
      assert threads[t := th][..n] == threads[..n];
    } else {
      UpdateCounts(threads[..n], t, th);
      assert threads[t := th][..n] == threads[..n][t := th];
    }
  }

  lemma AppendCounts(threads: seq<Thread>, th: Thread)
    ensures Steps(threads + [th]) == Steps(threads) + th.steps
    ensures Started(threads + [th]) == Started(threads) + Flag(th)
  {
    assert (threads + [th])[..|threads|] == threads;
  }

  lemma {:induction false} StartedBound(threads: seq<Thread>)
    ensures Started(threads) <= |threads|
  {
    if threads != [] { StartedBound(threads[..|threads| - 1]); }
  }

  lemma {:induction false} StepsBound(threads: seq<Thread>, most: nat)
    requires forall t :: 0 <= t < |threads| ==> threads[t].steps <= most
    ensures Steps(threads) <= |threads| * most
  {
    if threads != [] {
      var n := |threads| - 1;
      StepsBound(threads[..n], most);
      assert |threads| * most == n * most + most;
    }
  }

  /** Each compute is started by its own call; an event makes a call or is a step of one. */
  ghost predicate Tallies(s: State, events: nat) {
    Started(s.threads) == |s.shared.owners| && events <= |s.threads| + Steps(s.threads)
  }

  /** What a step does to the counts: one more step of its call, and a compute only when the call
      had started none. */
  lemma MoveCounts(s: State, t: Tid, computed: Option<Digest>)
    requires Enabled(s, t) && (s.threads[t].pc.Entering? ==> s.threads[t].mine.None?)
    ensures var s' := Move(s, t, computed);
            && t < |s'.threads|
            && s'.threads[t].steps == s.threads[t].steps + 1
            && (|| s'.threads == s.threads[t := s'.threads[t]]
                || s'.threads == s.threads[t := s'.threads[t]] + [NewThread(Background(t), s.threads[t].day)])
            && |s'.shared.owners| - |s.shared.owners| == Flag(s'.threads[t]) - Flag(s.threads[t])
  {
  }

  function Flag(th: Thread): nat {
    if th.mine.Some? then 1 else 0
  }

  lemma MoveTallies(s: State, t: Tid, computed: Option<Digest>, events: nat)
    requires Inv(s) && Enabled(s, t) && Tallies(s, events)
    ensures Tallies(Move(s, t, computed), events + 1)
  {
    if s.threads[t].pc.Entering? { StartsOnce(s, t); }
    hide Inv, Move, Enabled;
    MoveCounts(s, t, computed);
    var s' := Move(s, t, computed);
    var th := s'.threads[t];
    UpdateCounts(s.threads, t, th);
    AppendCounts(s.threads[t := th], NewThread(Background(t), s.threads[t].day));
  }

  /** A call that is about to look has started nothing yet. */
  lemma StartsOnce(s: State, t: Tid)
    requires Inv(s) && t < |s.threads| && s.threads[t].pc.Entering?
    ensures s.threads[t].mine.None?
  {
    assert ThreadOK(s, s.threads[t]);
  }

  lemma {:induction false} RunTallies(states: seq<State>, events: seq<Event>, i: nat)
    requires IsRun(states, events) && i < |states|
    ensures Tallies(states[i], i)
  {
    if i > 0 {
      RunTallies(states, events, i - 1);
      RunKeepsInv(states, events, i - 1);
      hide Inv, Move, Enabled;
      assert Step(states[i - 1], events[i - 1], states[i]);
      match events[i - 1] {
        case Arrive(call, day) => AppendCounts(states[i - 1].threads, NewThread(call, day));
        case Advance(t, computed) => MoveTallies(states[i - 1], t, computed, i - 1);
      }
    }
  }

  /** Waits climb through the channels, so there are no more of them than channels. */
  lemma {:induction false} FewWaits(waits: seq<Chan>, below: nat)
    requires Increasing(waits, below)
    ensures |waits| <= below
  {
    if waits != [] {
      FewWaits(waits[..|waits| - 1], waits[|waits| - 1]);
    }
  }

  /** A call starts one compute at most, however often it has waited and looked again. */
  lemma OneComputePerCall(states: seq<State>, events: seq<Event>, i: nat, c: Chan, d: Chan)
    requires IsRun(states, events) && i < |states|
    requires c < |states[i].shared.owners| && d < |states[i].shared.owners|
    requires states[i].shared.owners[c] == states[i].shared.owners[d]
    ensures c == d
  {
    RunKeepsInv(states, events, i);
    assert ChannelOK(states[i], c) && ChannelOK(states[i], d);
  }

  /** No call waits twice on a channel or for ever: with `n` calls made, background ones included,
      at most `n` computes are started, no call waits more often than that, and whatever the
      interleaving the run is over within `n * (2 * n + 5)` events. */
  lemma EveryRunEnds(states: seq<State>, events: seq<Event>)
    requires IsRun(states, events)
    ensures var s := states[|events|];
            var n := |s.threads|;
            && |s.shared.owners| <= n
            && (forall t :: 0 <= t < n ==> |s.threads[t].waits| <= |s.shared.owners|)
            && |events| <= n * (2 * n + 5)
  {
    var s := states[|events|];
    var n := |s.threads|;
    RunKeepsInv(states, events, |events|);
    RunTallies(states, events, |events|);
    StartedBound(s.threads);
    forall t | 0 <= t < n
      ensures |s.threads[t].waits| <= |s.shared.owners| && s.threads[t].steps <= 2 * n + 4
    {
      assert ThreadOK(s, s.threads[t]);
      FewWaits(s.threads[t].waits, |s.shared.owners|);
    }
    hide Inv, IsRun, ThreadOK;
    StepsBound(s.threads, 2 * n + 4);
    assert n + n * (2 * n + 4) == n * (2 * n + 5);
  }

  // ----- Every call does its work -----

  /** Call `t` takes its step from `pc` at event `k`. */
  ghost predicate StepsAt(states: seq<State>, events: seq<Event>, k: nat, t: Tid) {
    k < |events| && k + 1 < |states| && events[k].Advance? && events[k].t == t && t < |states[k].threads|
  }

  lemma LastStep(states: seq<State>, events: seq<Event>, i: nat)
    requires IsRun(states, events) && i < |states|
    ensures |states| == |events| + 1
    ensures i > 0 ==> Step(states[i - 1], events[i - 1], states[i])
    ensures i == 0 ==> states[i].threads == []
  {
  }

  ghost predicate HasBackground(s: State, t: Tid) {
    exists u :: t < u < |s.threads| && s.threads[u].call == Background(t)
  }

  /** Calls stay at the steps of their kind, and a background call belongs to one lookup that has
      returned with nothing, for the same date. */
  ghost predicate KindOK(s: State, t: Tid)
    requires t < |s.threads|
  {
    var th := s.threads[t];
    && (th.call.TodayOrTrigger? ==> th.pc.Checking? || th.pc.Triggering? || th.pc.Done?)
    && (!th.call.TodayOrTrigger? ==> !th.pc.Checking? && !th.pc.Triggering?)
    && (!th.call.Refresh? ==> !th.pc.Dropping?)
    && (th.pc == Done(None) ==> th.call.TodayOrTrigger? || th.mine.Some?)
    && (th.call.Background? ==>
          && th.call.of < t && s.threads[th.call.of].call.TodayOrTrigger?
          && s.threads[th.call.of].pc == Done(None) && s.threads[th.call.of].day == th.day)
  }

  ghost predicate KindsOK(s: State) {
    && (forall t :: 0 <= t < |s.threads| ==> KindOK(s, t))
    && (forall t, u :: 0 <= t < u < |s.threads| && s.threads[t].call.Background? ==>
          s.threads[t].call != s.threads[u].call)
  }

  /** What a step does to the calls: its own moves on, and one may be added for it. */
  lemma MoveCalls(s: State, t: Tid, computed: Option<Digest>)
    requires Enabled(s, t)
    ensures var s', th := Move(s, t, computed), s.threads[t];
            && t < |s'.threads|
            && (s'.threads[t].call, s'.threads[t].day) == (th.call, th.day)
            && s'.threads == s.threads[t := s'.threads[t]]
                             + if th.pc.Triggering? then [NewThread(Background(t), th.day)] else []
  {
  }

  lemma MoveKeepsKind(s: State, t: Tid, computed: Option<Digest>)
    requires Enabled(s, t) && ThreadOK(s, s.threads[t]) && KindOK(s, t)
    ensures t < |Move(s, t, computed).threads| && KindOK(Move(s, t, computed), t)
  {
    assert s.threads[t].mine.Some? ==> s.threads[t].pc.Computing? || s.threads[t].pc.Closing?;
    assert s.threads[t].pc.Closing? ==> s.threads[t].mine.Some?;
    MoveCalls(s, t, computed);
    hide ThreadOK;
  }

  lemma MoveKeepsKinds(s: State, t: Tid, computed: Option<Digest>)
    requires Inv(s) && KindsOK(s) && Enabled(s, t)
    ensures KindsOK(Move(s, t, computed))
  {
    var s' := Move(s, t, computed);
    assert ThreadOK(s, s.threads[t]) && KindOK(s, t);
    MoveCalls(s, t, computed);
    MoveKeepsKind(s, t, computed);
    assert s.threads[t].pc.Triggering? ==> s'.threads[t].pc == Done(None);
    assert s.threads[t].pc.Done? ==> false;
    hide Inv, ThreadOK, Move, Enabled;
    forall u | 0 <= u < |s'.threads| && u != t ensures KindOK(s', u) {
      if u < |s.threads| { assert KindOK(s, u); }
    }
    forall u | 0 <= u < |s.threads| && s.threads[t].pc.Triggering? ensures s.threads[u].call != Background(t) {
      assert KindOK(s, u);
    }
  }

  lemma {:induction false} RunKeepsKinds(states: seq<State>, events: seq<Event>, i: nat)
    requires IsRun(states, events) && i < |states|
    ensures KindsOK(states[i])
  {
    if i > 0 {
      RunKeepsKinds(states, events, i - 1);
      RunKeepsInv(states, events, i - 1);
      hide Inv, Move, Enabled;
      var s := states[i - 1];
      assert Step(s, events[i - 1], states[i]);
      match events[i - 1] {
        case Arrive(call, day) =>
          forall u | 0 <= u < |states[i].threads| ensures KindOK(states[i], u) {
            if u < |s.threads| { assert KindOK(s, u); }
          }
        case Advance(t, computed) => MoveKeepsKinds(s, t, computed);
      }
    }
  }
  lemma SameBackground(s: State, s': State, t: Tid)
    requires |s.threads| <= |s'.threads|
    requires forall u :: 0 <= u < |s.threads| ==> s'.threads[u].call == s.threads[u].call
    requires forall u :: |s.threads| <= u < |s'.threads| ==> s'.threads[u].call != Background(t)
    ensures HasBackground(s, t) <==> HasBackground(s', t)
  {
    if HasBackground(s, t) {
      var u :| t < u < |s.threads| && s.threads[u].call == Background(t);
      assert s'.threads[u].call == Background(t);
    }
  }

  lemma NoBackgroundYet(s: State, t: Tid)
    requires KindsOK(s) && t < |s.threads| && s.threads[t].pc != Done(None)
    ensures !HasBackground(s, t)
  {
    forall u | t < u < |s.threads| ensures s.threads[u].call != Background(t) { assert KindOK(s, u); }
  }

  /** What one step does to a lookup of the copy that is not the one moving. */
  lemma OtherStep(s: State, e: Event, s': State, t: Tid)
    requires Step(s, e, s') && t < |s.threads| && !(e.Advance? && e.t == t)
    ensures |s.threads| <= |s'.threads| && s'.threads[t] == s.threads[t]
    ensures HasBackground(s, t) <==> HasBackground(s', t)
  {
    if e.Advance? { MoveCalls(s, e.t, e.computed); }
    hide Move;
    SameBackground(s, s', t);
  }

  lemma StepLooks(s: State, e: Event, s': State, t: Tid)
    requires Inv(s) && KindsOK(s) && Step(s, e, s') && e.Advance? && e.t == t && t < |s.threads|
    requires s.threads[t].call.TodayOrTrigger?
    ensures s.threads[t].pc.Checking? ==> Looked(s, s', t)
    ensures !s.threads[t].pc.Checking? ==>
              s.threads[t].pc.Triggering? && s'.threads[t].pc == Done(None) && HasBackground(s', t)
    ensures t < |s'.threads| && s'.threads[t].day == s.threads[t].day
  {
    assert KindOK(s, t);
    if s.threads[t].pc.Checking? {
      NoBackgroundYet(s, t);
      SameBackground(s, s', t);
    } else {
      assert s'.threads[|s.threads|].call == Background(t);
    }
  }

  /** `s` is the state TodayOrTrigger `t` looked at, `now` what has become of it: it returned the
      copy of its date if there was one; with a compute in flight it returned nothing and made no
      call; otherwise a background call is made before it returns. */
  ghost predicate Looked(s: State, now: State, t: Tid) {
    && t < |s.threads| && t < |now.threads|
    && var copy, th := s.shared.cached, now.threads[t];
       if copy.Some? && s.shared.cachedDate == th.day then th.pc == Done(copy) && !HasBackground(now, t)
       else if s.shared.inFlight.Some? then th.pc == Done(None) && !HasBackground(now, t)
       else th.pc == (if HasBackground(now, t) then Done(None) else Triggering)
  }

  lemma LookedOn(look: State, s: State, s': State, t: Tid)
    requires Looked(look, s, t) && t < |s'.threads| && s'.threads[t].day == s.threads[t].day
    requires || (s'.threads[t].pc == s.threads[t].pc && (HasBackground(s', t) <==> HasBackground(s, t)))
             || (s.threads[t].pc.Triggering? && s'.threads[t].pc == Done(None) && HasBackground(s', t))
    ensures Looked(look, s', t)
  {
    hide HasBackground;
  }

  /** A cold TodayOrTrigger leaves a compute behind: one in flight when it looked, or a background
      call of its own, which `BackgroundIsOfTheDay` says is for the same date. */
  lemma {:induction false} ColdLookupComputes(states: seq<State>, events: seq<Event>, i: nat, t: Tid)
    returns (k: nat)
    requires IsRun(states, events) && i < |states| && t < |states[i].threads|
    requires states[i].threads[t].call.TodayOrTrigger? && !states[i].threads[t].pc.Checking?
    ensures k < i && StepsAt(states, events, k, t) && states[k].threads[t].pc.Checking?
    ensures Looked(states[k], states[i], t)
    decreases i
  {
    LastStep(states, events, i);
    var s, e := states[i - 1], events[i - 1];
    RunKeepsKinds(states, events, i - 1);
    RunKeepsInv(states, events, i - 1);
    hide IsRun, Inv, Move, Step, KindsOK, Looked, HasBackground;
    if t >= |s.threads| {
      NewCalls(s, e, states[i], t);
    } else if e.Advance? && e.t == t {
      StepLooks(s, e, states[i], t);
      if s.threads[t].pc.Checking? {
        k := i - 1;
      } else {
        k := ColdLookupComputes(states, events, i - 1, t);
        LookedOn(states[k], s, states[i], t);
      }
    } else {
      OtherStep(s, e, states[i], t);
      k := ColdLookupComputes(states, events, i - 1, t);
      LookedOn(states[k], s, states[i], t);
    }
  }

  lemma NewCalls(s: State, e: Event, s': State, t: Tid)
    requires Step(s, e, s') && |s.threads| <= t < |s'.threads|
    ensures s'.threads[t].pc == Begin(s'.threads[t].call)
  {
    if e.Advance? { MoveCalls(s, e.t, e.computed); }
    hide Move;
  }

  /** A TodayOrTrigger makes one background call at most, for its own date, and makes it to compute:
      it starts where Today does. */
  lemma BackgroundIsOfTheDay(states: seq<State>, events: seq<Event>, i: nat, t: Tid, u: Tid)
    requires IsRun(states, events) && i < |states| && u < |states[i].threads|
    requires states[i].threads[u].call == Background(t)
    ensures t < u && states[i].threads[t].call.TodayOrTrigger? && states[i].threads[t].day == states[i].threads[u].day
    ensures forall v :: 0 <= v < |states[i].threads| && states[i].threads[v].call == Background(t) ==> v == u
    ensures Begin(Background(t)) == Begin(Today)
  {
    RunKeepsKinds(states, events, i);
    assert KindOK(states[i], u);
  }

  /** A call that waits for its answer gives one up only when its own compute failed: whoever made a
      channel returns what its compute came to, and whoever made none returns a copy it found. */
  lemma {:induction false} OwnAnswer(states: seq<State>, events: seq<Event>, i: nat, t: Tid) returns (k: nat)
    requires IsRun(states, events) && i < |states| && t < |states[i].threads|
    requires states[i].threads[t].pc.Closing? || (states[i].threads[t].pc.Done? && states[i].threads[t].mine.Some?)
    ensures k < i && StepsAt(states, events, k, t)
    ensures states[i].threads[t].mine.Some? && states[k].threads[t].pc == Computing(states[i].threads[t].mine.value)
    ensures var pc := states[i].threads[t].pc; events[k].computed == if pc.Done? then pc.answer else pc.computed
    decreases i
  {
    LastStep(states, events, i);
    var s, e := states[i - 1], events[i - 1];
    RunKeepsInv(states, events, i - 1);
    StepEnabled(s, e, states[i]);
    hide IsRun, Inv, Step, Enabled, Move;
    if t >= |s.threads| {
      NewCalls(s, e, states[i], t);
      assert false;
    } else if e.Advance? && e.t == t {
      ComputeSteps(s, t, e.computed);
      if s.threads[t].pc.Computing? { k := i - 1; } else { k := OwnAnswer(states, events, i - 1, t); }
    } else {
      OtherStep(s, e, states[i], t);
      k := OwnAnswer(states, events, i - 1, t);
    }
  }

  lemma StepEnabled(s: State, e: Event, s': State)
    requires Step(s, e, s')
    ensures e.Advance? ==> Enabled(s, e.t) && s' == Move(s, e.t, e.computed)
  {
  }

  lemma ComputeSteps(s: State, t: Tid, computed: Option<Digest>)
    requires Inv(s) && Enabled(s, t)
    ensures var th, th' := s.threads[t], Move(s, t, computed).threads[t];
            && (th'.pc.Closing? ==>
                  th.pc == Computing(th'.pc.own) && th'.mine == Some(th'.pc.own) && th'.pc.computed == computed)
            && (th'.pc.Done? && th'.mine.Some? ==>
                  th.pc.Closing? && th.mine == th'.mine && th.pc.computed == th'.pc.answer)
  {
    assert ThreadOK(s, s.threads[t]);
    hide Inv;
  }

  /** Today, Refresh and a background call return nothing only when their own compute failed. */
  lemma NothingMeansFailed(states: seq<State>, events: seq<Event>, i: nat, t: Tid) returns (k: nat)
    requires IsRun(states, events) && i < |states| && t < |states[i].threads|
    requires states[i].threads[t].pc == Done(None) && !states[i].threads[t].call.TodayOrTrigger?
    ensures k < i && StepsAt(states, events, k, t)
    ensures states[k].threads[t].pc.Computing? && events[k].computed.None?
  {
    RunKeepsKinds(states, events, i);
    assert KindOK(states[i], t);
    k := OwnAnswer(states, events, i, t);
  }

  /** The copy is the last compute that succeeded, and one found after a drop was published since. */
  lemma {:induction false} CopyIsLast(states: seq<State>, events: seq<Event>, k: nat, i: nat)
    requires IsRun(states, events) && k <= i < |states| && states[k].shared.cached.None?
    ensures |states[k].computes| <= |states[i].computes|
    ensures var copy, log := states[i].shared, states[i].computes;
            copy.cached.Some? ==>
              |log| > |states[k].computes| && log[|log| - 1] == Compute(copy.cachedDate, copy.cached.value)
    decreases i
  {
    if k < i {
      CopyIsLast(states, events, k, i - 1);
      assert Step(states[i - 1], events[i - 1], states[i]);
      hide IsRun;
    }
  }

  /** The digest was published for that date between the two states. */
  ghost predicate PublishedSince(before: State, now: State, day: Day, digest: Digest) {
    exists m :: |before.computes| <= m < |now.computes| && now.computes[m] == Compute(day, digest)
  }

  lemma {:induction false} ComputesGrow(states: seq<State>, events: seq<Event>, k: nat, i: nat)
    requires IsRun(states, events) && k <= i < |states|
    ensures states[k].computes <= states[i].computes
    decreases i
  {
    if k < i {
      ComputesGrow(states, events, k, i - 1);
      assert Step(states[i - 1], events[i - 1], states[i]);
      hide IsRun;
    }
  }

  function ResultOf(pc: PC): Option<Digest> {
    match pc
    case Closing(_, computed) => computed
    case Done(answer) => answer
    case _ => None
  }

  /** What call `t` has come to, if anything, was published since `before`. */
  ghost predicate IsFresh(before: State, now: State, t: Tid) {
    t < |now.threads| &&
    var th := now.threads[t];
    ResultOf(th.pc).Some? ==> PublishedSince(before, now, th.day, ResultOf(th.pc).value)
  }

  /** Event `k` is the drop of Refresh `t`. */
  ghost predicate DropsAt(states: seq<State>, events: seq<Event>, k: nat, t: Tid) {
    && StepsAt(states, events, k, t) && states[k].threads[t].pc.Dropping?
    && states[k + 1].shared.cached.None? && states[k + 1].computes == states[k].computes
  }

  /** What Refresh returns was published after its drop. */
  lemma {:induction false} RefreshIsFresh(states: seq<State>, events: seq<Event>, i: nat, t: Tid) returns (k: nat)
    requires IsRun(states, events) && i < |states| && t < |states[i].threads|
    requires states[i].threads[t].call.Refresh? && !states[i].threads[t].pc.Dropping?
    ensures k < i && DropsAt(states, events, k, t) && IsFresh(states[k], states[i], t)
    decreases i
  {
    LastStep(states, events, i);
    var s, e := states[i - 1], events[i - 1];
    RunKeepsKinds(states, events, i - 1);
    assert t < |s.threads| ==> KindOK(s, t);
    hide IsRun, Step, KindsOK, KindOK, IsFresh;
    if t >= |s.threads| {
      NewCalls(s, e, states[i], t);
      assert false;
    } else if e.Advance? && e.t == t && s.threads[t].pc.Dropping? {
      k := i - 1;
      DropDrops(s, e, states[i], t);
    } else {
      SameCall(s, e, states[i], t);
      k := RefreshIsFresh(states, events, i - 1, t);
      ComputesGrow(states, events, i - 1, i);
      CopyIsLast(states, events, k + 1, i - 1);
      hide StepsAt;
      StaysPublished(states[k], s, e, states[i], t);
    }
  }

  lemma SameCall(s: State, e: Event, s': State, t: Tid)
    requires Step(s, e, s') && t < |s.threads|
    ensures t < |s'.threads| && s'.threads[t].call == s.threads[t].call && s'.threads[t].day == s.threads[t].day
    ensures s.threads[t].pc.Dropping? && !(e.Advance? && e.t == t) ==> s'.threads[t].pc.Dropping?
  {
    if e.Advance? && e.t == t { MoveCalls(s, t, e.computed); } else { OtherStep(s, e, s', t); }
    hide Move;
  }

  lemma DropDrops(s: State, e: Event, s': State, t: Tid)
    requires Step(s, e, s') && e.Advance? && e.t == t && t < |s.threads| && s.threads[t].pc.Dropping?
    ensures s'.shared.cached.None? && s'.computes == s.computes && IsFresh(s, s', t)
  {
  }

  lemma StaysPublished(before: State, s: State, e: Event, s': State, t: Tid)
    requires Step(s, e, s') && t < |s.threads| && t < |s'.threads| && s.computes <= s'.computes
    requires s.threads[t].call.Refresh? && KindOK(s, t) && |before.computes| <= |s.computes|
    requires IsFresh(before, s, t)
    requires s.shared.cached.Some? ==>
               && |s.computes| > |before.computes|
               && s.computes[|s.computes| - 1] == Compute(s.shared.cachedDate, s.shared.cached.value)
    ensures IsFresh(before, s', t)
  {
    var th, th' := s.threads[t], s'.threads[t];
    if ResultOf(th.pc).Some? {
      var m :| |before.computes| <= m < |s.computes| && s.computes[m] == Compute(th.day, ResultOf(th.pc).value);
      assert s'.computes[m] == s.computes[m];
    }
    if e.Advance? && e.t == t {
      MoveCalls(s, t, e.computed);
      if th.pc.Computing? && e.computed.Some? {
        assert s'.computes[|s.computes|] == Compute(th.day, e.computed.value);
      }
    } else {
      OtherStep(s, e, s', t);
    }
  }

  // ----- No compute is wasted -----

  ghost predicate Paid(s: State, day: Day) {
    && (forall t :: 0 <= t < |s.threads| ==> s.threads[t].day == day)
    && (s.shared.cached.Some? ==> s.shared.cachedDate == day)
    && |s.shared.owners| <= s.failures + s.drops + if s.shared.cached.Some? || s.shared.inFlight.Some? then 1 else 0
  }

  lemma {:induction false} RunPaid(states: seq<State>, events: seq<Event>, day: Day, i: nat)
    requires IsRun(states, events) && i < |states|
    requires forall j :: 0 <= j < |events| && events[j].Arrive? ==> events[j].day == day
    ensures Paid(states[i], day)
  {
    if i > 0 {
      RunPaid(states, events, day, i - 1);
      assert Step(states[i - 1], events[i - 1], states[i]);
    }
  }

  /** Event `k` is a compute that fails. */
  ghost predicate FailsAt(states: seq<State>, events: seq<Event>, k: nat) {
    && k < |events| && events[k].Advance? && StepsAt(states, events, k, events[k].t)
    && events[k].computed.None? && states[k].threads[events[k].t].pc.Computing?
  }

  /** Event `k` is a Refresh dropping the copy. */
  ghost predicate ForgetsAt(states: seq<State>, events: seq<Event>, k: nat) {
    && k < |events| && events[k].Advance? && StepsAt(states, events, k, events[k].t)
    && states[k].threads[events[k].t].pc.Dropping?
  }

  ghost function Failures(states: seq<State>, events: seq<Event>, i: nat): set<nat> {
    set k | 0 <= k < i && FailsAt(states, events, k)
  }

  ghost function Drops(states: seq<State>, events: seq<Event>, i: nat): set<nat> {
    set k | 0 <= k < i && ForgetsAt(states, events, k)
  }

  lemma StepCounts(states: seq<State>, events: seq<Event>, i: nat)
    requires 0 < i && |states| == |events| + 1 && i < |states| && Step(states[i - 1], events[i - 1], states[i])
    ensures states[i].failures - states[i - 1].failures == if FailsAt(states, events, i - 1) then 1 else 0
    ensures states[i].drops - states[i - 1].drops == if ForgetsAt(states, events, i - 1) then 1 else 0
  {
  }

  lemma {:induction false} CountersAreTrue(states: seq<State>, events: seq<Event>, i: nat)
    requires IsRun(states, events) && i < |states|
    ensures states[i].failures == |Failures(states, events, i)| && states[i].drops == |Drops(states, events, i)|
  {
    LastStep(states, events, i);
    hide Step, FailsAt, ForgetsAt;
    if i > 0 {
      CountersAreTrue(states, events, i - 1);
      hide IsRun;
      StepCounts(states, events, i);
      var k := i - 1;
      OneMore(Failures(states, events, k), Failures(states, events, i), k, FailsAt(states, events, k));
      OneMore(Drops(states, events, k), Drops(states, events, i), k, ForgetsAt(states, events, k));
    } else {
      assert states[0] == Start0();
    }
  }

  /** Among calls for one date, a compute after the first is paid for by a failure or a Refresh. */
  lemma NoComputeWasted(states: seq<State>, events: seq<Event>, day: Day, i: nat)
    requires IsRun(states, events) && i < |states|
    requires forall j :: 0 <= j < |events| && events[j].Arrive? ==> events[j].day == day
    ensures |states[i].shared.owners| <=
            1 + |Failures(states, events, i)| + |Drops(states, events, i)|
  {
    RunPaid(states, events, day, i);
    CountersAreTrue(states, events, i);
  }
}
