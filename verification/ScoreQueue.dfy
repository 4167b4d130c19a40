/** The score sink (internal/langfuse/scores.go): Emit sends on a bounded queue under a read lock,
    Shutdown closes it under the write lock, one worker posts what was accepted. The class runs
    the operations alone; the machine below interleaves their steps. */
module ScoreQueue {
  import opened Text

  type Score = string
  type Tid = nat

  /** A queued score, with the Emit call that queued it. */
  datatype Item = Item(from: Tid, score: Score)

  datatype Worker =
    | Receiving
    | Holding(item: Item)
    | Posting(item: Item)
    | Ending
    | Ended
    | Gone

  datatype EmitPC = RLocking | Checking | Sending | RUnlocking(ok: bool) | Emitted(ok: bool)

  datatype Emitter = Emitter(score: Score, pc: EmitPC)

  datatype StopPC = Locking | Marking | Closing | Unlocking | Selecting | GivingUp | Stopped(ok: bool)

  /** `readers` and `writer` are the lock; the last three fields are what has happened to scores:
      taken by an Emit, posted, and finished with by the worker, each in order. */
  datatype State = State(
    capacity: nat, readers: set<Tid>, writer: Option<Tid>, closed: bool, queueClosed: bool,
    queue: seq<Item>, worker: Worker, cancelled: bool,
    emitters: seq<Emitter>, stops: seq<StopPC>,
    accepted: seq<Item>, posted: seq<Item>, handled: seq<Item>)


  function Begin(capacity: nat): State {
    State(capacity, {}, None, false, false, [], Receiving, false, [], [], [], [], [])
  }

  /** `fits` resolves Emit's select; `done` Shutdown's. */
  datatype Event =
    | EmitCall(score: Score)
    | EmitStep(t: Tid, fits: bool)
    | StopCall
    | StopStep(t: Tid, done: bool)
    | WorkerStep

  /** A send goes through when the buffer has room, or straight to the worker when it has none;
      whether the worker is already waiting then is a matter of timing. */
  predicate CanSend(s: State) {
    |s.queue| < s.capacity || (s.capacity == 0 && s.worker.Receiving?)
  }

  predicate MustSend(s: State) {
    |s.queue| < s.capacity
  }

  function Send(s: State, item: Item): State {
    var s1 := s.(accepted := s.accepted + [item]);
    if |s.queue| < s.capacity then s1.(queue := s.queue + [item]) else s1.(worker := Holding(item))
  }

  function EmitGoto(s: State, t: Tid, pc: EmitPC): State
    requires t < |s.emitters|
  {
    s.(emitters := s.emitters[t := s.emitters[t].(pc := pc)])
  }

  predicate EmitEnabled(s: State, t: Tid, fits: bool) {
    && t < |s.emitters| && !s.emitters[t].pc.Emitted?
    && (s.emitters[t].pc.RLocking? ==> s.writer.None?)
    && (s.emitters[t].pc.Sending? ==> (fits ==> CanSend(s)) && (MustSend(s) ==> fits))
  }

  function EmitMove(s: State, t: Tid, fits: bool): State
    requires EmitEnabled(s, t, fits)
  {
    match s.emitters[t].pc
    case RLocking => EmitGoto(s, t, Checking).(readers := s.readers + {t})
    case Checking => EmitGoto(s, t, if s.closed then RUnlocking(false) else Sending)
    case Sending =>
      if fits then EmitGoto(Send(s, Item(t, s.emitters[t].score)), t, RUnlocking(true))
      else EmitGoto(s, t, RUnlocking(false))
    case RUnlocking(ok) => EmitGoto(s, t, Emitted(ok)).(readers := s.readers - {t})
  }

  function StopGoto(s: State, t: Tid, pc: StopPC): State
    requires t < |s.stops|
  {
    s.(stops := s.stops[t := pc])
  }

  predicate StopEnabled(s: State, t: Tid, done: bool) {
    && t < |s.stops| && !s.stops[t].Stopped?
    && (s.stops[t].Locking? ==> s.writer.None? && s.readers == {})
    && (s.stops[t].Selecting? && done ==> s.worker.Gone?)
  }

  function StopMove(s: State, t: Tid, done: bool): State
    requires StopEnabled(s, t, done)
  {
    match s.stops[t]
    case Locking => StopGoto(s, t, Marking).(writer := Some(t))
    case Marking => if s.closed then StopGoto(s, t, Unlocking) else StopGoto(s, t, Closing).(closed := true)
    case Closing => StopGoto(s, t, Unlocking).(queueClosed := true)
    case Unlocking => StopGoto(s, t, Selecting).(writer := None)
    case Selecting => StopGoto(s, t, if done then Stopped(true) else GivingUp)
    case GivingUp => StopGoto(s, t, Stopped(false)).(cancelled := true)
  }

  predicate WorkerEnabled(s: State) {
    && !s.worker.Gone?
    && (s.worker.Receiving? ==> s.queue != [] || s.queueClosed)
  }

  function WorkerMove(s: State): State
    requires WorkerEnabled(s)
  {
    match s.worker
    case Receiving =>
      if s.queue != [] then s.(worker := Holding(s.queue[0]), queue := s.queue[1..]) else s.(worker := Ending)
    case Holding(item) =>
      if s.cancelled then s.(worker := Receiving, handled := s.handled + [item])
      else s.(worker := Posting(item), posted := s.posted + [item])
    case Posting(item) => s.(worker := Receiving, handled := s.handled + [item])
    case Ending => s.(worker := Ended, cancelled := true)
    case Ended => s.(worker := Gone)
  }

  ghost predicate Step(s: State, e: Event, s': State) {
    match e
    case EmitCall(score) => s' == s.(emitters := s.emitters + [Emitter(score, RLocking)])
    case EmitStep(t, fits) => EmitEnabled(s, t, fits) && s' == EmitMove(s, t, fits)
    case StopCall => s' == s.(stops := s.stops + [Locking])
    case StopStep(t, done) => StopEnabled(s, t, done) && s' == StopMove(s, t, done)
    case WorkerStep => WorkerEnabled(s) && s' == WorkerMove(s)
  }

  ghost predicate IsRun(states: seq<State>, events: seq<Event>) {
    && |states| == |events| + 1 && states[0] == Begin(states[0].capacity)
    && forall i :: 0 <= i < |events| ==> Step(states[i], events[i], states[i + 1])
  }

  lemma RunStep(states: seq<State>, events: seq<Event>, i: nat)
    requires IsRun(states, events) && i < |events|
    ensures Step(states[i], events[i], states[i + 1])
  {
    hide Step;
  }

  lemma RunLength(states: seq<State>, events: seq<Event>)
    requires IsRun(states, events)
    ensures |states| == |events| + 1
  {
  }

  // ----- The invariant -----

  predicate HoldsRead(pc: EmitPC) {
    pc.Checking? || pc.Sending? || pc.RUnlocking?
  }

  predicate HoldsWrite(pc: StopPC) {
    pc.Marking? || pc.Closing? || pc.Unlocking?
  }

  /** The lock does its work: readers and a writer exclude each other. */
  ghost predicate LockOK(s: State) {
    && (forall t :: t in s.readers ==> t < |s.emitters|)
    && (forall t :: 0 <= t < |s.emitters| ==> (t in s.readers <==> HoldsRead(s.emitters[t].pc)))
    && (forall t :: 0 <= t < |s.stops| ==> (s.writer == Some(t) <==> HoldsWrite(s.stops[t])))
    && (s.writer.Some? ==> s.writer.value < |s.stops| && s.readers == {})
  }

  ghost predicate ClosingOK(s: State) {
    && (forall t :: 0 <= t < |s.emitters| && s.emitters[t].pc.Sending? ==> !s.closed)
    && (forall t :: 0 <= t < |s.stops| && s.stops[t].Closing? ==> s.closed && !s.queueClosed)
    && (s.queueClosed ==> s.closed)
    && (s.closed && !s.queueClosed ==> s.writer.Some? && s.writer.value < |s.stops| && s.stops[s.writer.value].Closing?)
    && (forall t :: 0 <= t < |s.stops| && (s.stops[t].Unlocking? || Past(s.stops[t])) ==> s.queueClosed)
  }

  /** Shutdown has left its critical section. */
  predicate Past(pc: StopPC) {
    pc.Selecting? || pc.GivingUp? || pc.Stopped?
  }

  function InHand(w: Worker): seq<Item> {
    if w.Holding? || w.Posting? then [w.item] else []
  }

  function Pending(w: Worker, queue: seq<Item>): seq<Item> {
    InHand(w) + queue
  }

  predicate OutOfLoop(w: Worker) {
    w.Ending? || w.Ended? || w.Gone?
  }

  ghost predicate QueueOK(s: State) {
    && |s.queue| <= s.capacity
    && s.accepted == s.handled + Pending(s.worker, s.queue)
    && (OutOfLoop(s.worker) ==> s.queueClosed && s.queue == [])
    && (forall t :: 0 <= t < |s.stops| && s.stops[t] == Stopped(true) ==> s.worker.Gone?)
  }

  /** Whether some Shutdown has given up. */
  predicate GaveUp(s: State) {
    exists t :: 0 <= t < |s.stops| && s.stops[t] == Stopped(false)
  }

  ghost predicate PostedOK(s: State) {
    && (s.cancelled ==> GaveUp(s) || s.worker.Ended? || s.worker.Gone?)
    && (!s.cancelled ==> s.posted == s.handled + if s.worker.Posting? then [s.worker.item] else [])
    && s.posted <= s.handled + InHand(s.worker)
    && (!GaveUp(s) ==> s.handled <= s.posted)
  }

  predicate SaysYes(pc: EmitPC) {
    pc == RUnlocking(true) || pc == Emitted(true)
  }

  /** An Emit that said yes has its score accepted, once; one that has not said so does not. */
  ghost predicate Answered(accepted: seq<Item>, emitters: seq<Emitter>) {
    && (forall k :: 0 <= k < |accepted| ==>
          accepted[k].from < |emitters| && accepted[k].score == emitters[accepted[k].from].score)
    && (forall k :: 0 <= k < |accepted| ==> SaysYes(emitters[accepted[k].from].pc))
    && (forall k, l :: 0 <= k < l < |accepted| ==> accepted[k].from != accepted[l].from)
    && (forall t :: 0 <= t < |emitters| && SaysYes(emitters[t].pc) ==> Item(t, emitters[t].score) in accepted)
  }

  ghost predicate AnswersOK(s: State) {
    Answered(s.accepted, s.emitters)
  }

  ghost predicate Inv(s: State) {
    LockOK(s) && ClosingOK(s) && QueueOK(s) && PostedOK(s) && AnswersOK(s)
  }

  lemma EmitKeepsLock(s: State, t: Tid, fits: bool)
    requires LockOK(s) && EmitEnabled(s, t, fits)
    ensures LockOK(EmitMove(s, t, fits))
  {
    var s' := EmitMove(s, t, fits);
    var pc, pc' := s.emitters[t].pc, s'.emitters[t].pc;
    assert s'.stops == s.stops && s'.writer == s.writer && s'.emitters == s.emitters[t := s'.emitters[t]];
    assert s'.readers ==
      if pc.RLocking? then s.readers + {t} else if pc.RUnlocking? then s.readers - {t} else s.readers;
    assert HoldsRead(pc') <==> pc.RLocking? || (HoldsRead(pc) && !pc.RUnlocking?);
    assert pc.RLocking? ==> s.writer.None?;
    assert HoldsRead(pc) ==> t in s.readers;
    hide EmitMove, EmitEnabled, HoldsWrite, HoldsRead;
  }

  lemma EmitKeepsClosing(s: State, t: Tid, fits: bool)
    requires LockOK(s) && ClosingOK(s) && EmitEnabled(s, t, fits)
    ensures ClosingOK(EmitMove(s, t, fits))
  {
  }

  lemma SendKeepsQueue(s: State, item: Item)
    requires QueueOK(s) && CanSend(s) && !s.queueClosed
    ensures QueueOK(Send(s, item))
  {
    if |s.queue| < s.capacity {
      assert Pending(s.worker, s.queue + [item]) == Pending(s.worker, s.queue) + [item];
    } else {
      assert s.queue == [];
      assert Pending(Holding(item), []) == Pending(Receiving, []) + [item];
    }
    assert s.handled + Pending(s.worker, s.queue) + [item] == s.handled + (Pending(s.worker, s.queue) + [item]);
  }

  lemma EmitKeepsQueue(s: State, t: Tid, fits: bool)
    requires ClosingOK(s) && QueueOK(s) && EmitEnabled(s, t, fits)
    ensures QueueOK(EmitMove(s, t, fits))
  {
    if s.emitters[t].pc.Sending? && fits {
      SendKeepsQueue(s, Item(t, s.emitters[t].score));
    }
    hide Pending, Send;
  }

  lemma EmitKeepsPosted(s: State, t: Tid, fits: bool)
    requires PostedOK(s) && EmitEnabled(s, t, fits)
    ensures PostedOK(EmitMove(s, t, fits))
  {
    var s' := EmitMove(s, t, fits);
    assert s'.stops == s.stops && s'.cancelled == s.cancelled && (s'.posted, s'.handled) == (s.posted, s.handled);
    assert s'.worker == s.worker || (s.worker.Receiving? && s'.worker.Holding?);
    assert GaveUp(s') == GaveUp(s);
    hide GaveUp, EmitMove, EmitEnabled;
  }

  lemma SendAnswers(accepted: seq<Item>, emitters: seq<Emitter>, t: Tid)
    requires Answered(accepted, emitters) && t < |emitters| && emitters[t].pc.Sending?
    ensures Answered(accepted + [Item(t, emitters[t].score)], emitters[t := emitters[t].(pc := RUnlocking(true))])
  {
    var item := Item(t, emitters[t].score);
    var more := accepted + [item];
    assert more[|accepted|] == item;
    forall u | 0 <= u < |emitters| && SaysYes(emitters[u].pc) ensures Item(u, emitters[u].score) in more {
      assert Item(u, emitters[u].score) in accepted;
    }
  }

  lemma SendKeepsAnswers(s: State, t: Tid)
    requires AnswersOK(s) && t < |s.emitters| && s.emitters[t].pc.Sending?
    ensures AnswersOK(EmitGoto(Send(s, Item(t, s.emitters[t].score)), t, RUnlocking(true)))
  {
    hide Answered;
    SendAnswers(s.accepted, s.emitters, t);
  }

  /** Any other step of an Emit keeps its answer. */
  lemma QuietKeepsAnswers(s: State, t: Tid, pc: EmitPC, readers: set<Tid>)
    requires AnswersOK(s) && t < |s.emitters|
    requires SaysYes(pc) <==> SaysYes(s.emitters[t].pc)
    ensures AnswersOK(EmitGoto(s, t, pc).(readers := readers))
  {
  }

  lemma EmitKeepsAnswers(s: State, t: Tid, fits: bool)
    requires AnswersOK(s) && EmitEnabled(s, t, fits)
    ensures AnswersOK(EmitMove(s, t, fits))
  {
    hide AnswersOK, Send;
    match s.emitters[t].pc
    case RLocking => QuietKeepsAnswers(s, t, Checking, s.readers + {t});
    case Checking => QuietKeepsAnswers(s, t, if s.closed then RUnlocking(false) else Sending, s.readers);
    case Sending => if fits { SendKeepsAnswers(s, t); } else { QuietKeepsAnswers(s, t, RUnlocking(false), s.readers); }
    case RUnlocking(ok) => QuietKeepsAnswers(s, t, Emitted(ok), s.readers - {t});
  }

  lemma StopKeepsLock(s: State, t: Tid, done: bool)
    requires LockOK(s) && StopEnabled(s, t, done)
    ensures LockOK(StopMove(s, t, done))
  {
    var s' := StopMove(s, t, done);
    var pc, pc' := s.stops[t], s'.stops[t];
    assert s'.emitters == s.emitters && s'.readers == s.readers && s'.stops == s.stops[t := pc'];
    assert s'.writer == if pc.Locking? then Some(t) else if pc.Unlocking? then None else s.writer;
    assert HoldsWrite(pc') <==> pc.Locking? || (HoldsWrite(pc) && !pc.Unlocking?);
    assert pc.Locking? ==> s.writer.None? && s.readers == {};
    hide StopMove, StopEnabled, HoldsWrite, HoldsRead;
  }

  lemma StopKeepsClosing(s: State, t: Tid, done: bool)
    requires LockOK(s) && ClosingOK(s) && StopEnabled(s, t, done)
    ensures ClosingOK(StopMove(s, t, done))
  {
    if HoldsWrite(s.stops[t]) { assert s.writer == Some(t); }
  }

  lemma StopKeepsQueue(s: State, t: Tid, done: bool)
    requires QueueOK(s) && StopEnabled(s, t, done)
    ensures QueueOK(StopMove(s, t, done))
  {
    var s' := StopMove(s, t, done);
    assert (s'.queue, s'.capacity, s'.worker) == (s.queue, s.capacity, s.worker);
    assert (s'.accepted, s'.handled) == (s.accepted, s.handled);
    assert s.queueClosed ==> s'.queueClosed;
    assert s'.stops == s.stops[t := s'.stops[t]] && (s'.stops[t] == Stopped(true) ==> s.worker.Gone?);
    hide StopMove, StopEnabled;
  }

  lemma StopKeepsPosted(s: State, t: Tid, done: bool)
    requires PostedOK(s) && StopEnabled(s, t, done)
    ensures PostedOK(StopMove(s, t, done))
  {
    var s' := StopMove(s, t, done);
    assert s'.cancelled ==> s.cancelled || s'.stops[t] == Stopped(false);
    assert (s'.posted, s'.handled, s'.worker) == (s.posted, s.handled, s.worker);
    assert s.stops[t] != Stopped(false) && s'.stops == s.stops[t := s'.stops[t]];
    assert !s'.cancelled ==> !s.cancelled;
    hide StopMove, StopEnabled;
    if GaveUp(s) {
      var u :| 0 <= u < |s.stops| && s.stops[u] == Stopped(false);
      assert s'.stops[u] == Stopped(false);
    }
  }

  lemma WorkerKeepsQueue(s: State)
    requires QueueOK(s) && WorkerEnabled(s)
    ensures QueueOK(WorkerMove(s))
  {
    var s' := WorkerMove(s);
    match s.worker
    case Receiving =>
      if s.queue != [] {
        assert s.queue == [s.queue[0]] + s.queue[1..];
        assert Pending(s'.worker, s'.queue) == Pending(s.worker, s.queue);
      }
    case Holding(item) => HandledNext(s, item);
    case Posting(item) => HandledNext(s, item);
    case _ =>
  }

  lemma HandledNext(s: State, item: Item)
    requires InHand(s.worker) == [item]
    ensures s.handled + Pending(s.worker, s.queue) == s.handled + [item] + Pending(Receiving, s.queue)
  {
    assert Pending(Receiving, s.queue) == s.queue;
  }

  lemma WorkerKeepsPosted(s: State)
    requires PostedOK(s) && WorkerEnabled(s)
    ensures PostedOK(WorkerMove(s))
  {
  }

  lemma StepKeepsInv(s: State, e: Event, s': State)
    requires Inv(s) && Step(s, e, s')
    ensures Inv(s')
  {
    match e
    case EmitStep(t, fits) =>
      hide LockOK, ClosingOK, QueueOK, PostedOK, AnswersOK, EmitMove;
      EmitKeepsLock(s, t, fits);
      EmitKeepsClosing(s, t, fits);
      EmitKeepsQueue(s, t, fits);
      EmitKeepsPosted(s, t, fits);
      EmitKeepsAnswers(s, t, fits);
    case StopStep(t, done) => StopKeepsInv(s, t, done);
    case WorkerStep => WorkerKeepsInv(s);
    case EmitCall(score) => CallKeepsInv(s, s', [Emitter(score, RLocking)], []);
    case StopCall => CallKeepsInv(s, s', [], [Locking]);
  }

  lemma StopKeepsInv(s: State, t: Tid, done: bool)
    requires Inv(s) && StopEnabled(s, t, done)
    ensures Inv(StopMove(s, t, done))
  {
    var s' := StopMove(s, t, done);
    assert s'.emitters == s.emitters && s'.accepted == s.accepted;
    assert AnswersOK(s');
    hide LockOK, ClosingOK, QueueOK, PostedOK, AnswersOK, StopMove;
    StopKeepsLock(s, t, done);
    StopKeepsClosing(s, t, done);
    StopKeepsQueue(s, t, done);
    StopKeepsPosted(s, t, done);
  }

  lemma WorkerKeepsInv(s: State)
    requires Inv(s) && WorkerEnabled(s)
    ensures Inv(WorkerMove(s))
  {
    var s' := WorkerMove(s);
    assert s'.emitters == s.emitters && s'.stops == s.stops && s'.accepted == s.accepted;
    assert AnswersOK(s') && LockOK(s') && ClosingOK(s');
    hide LockOK, ClosingOK, QueueOK, PostedOK, AnswersOK, WorkerMove;
    WorkerKeepsQueue(s);
    WorkerKeepsPosted(s);
  }

  lemma CallKeepsInv(s: State, s': State, emitters: seq<Emitter>, stops: seq<StopPC>)
    requires Inv(s) && s' == s.(emitters := s.emitters + emitters, stops := s.stops + stops)
    requires forall k :: 0 <= k < |emitters| ==> emitters[k].pc.RLocking?
    requires forall k :: 0 <= k < |stops| ==> stops[k].Locking?
    ensures Inv(s')
  {
    assert GaveUp(s') == GaveUp(s) by {
      if GaveUp(s) {
        var u :| 0 <= u < |s.stops| && s.stops[u] == Stopped(false);
        assert s'.stops[u] == Stopped(false);
      }
    }
    hide GaveUp;
    assert PostedOK(s') && QueueOK(s');
    hide PostedOK, QueueOK;
    assert LockOK(s');
    assert ClosingOK(s');
  }

  lemma {:induction false} RunKeepsInv(states: seq<State>, events: seq<Event>, i: nat)
    requires IsRun(states, events) && i < |states|
    ensures Inv(states[i])
  {
    if i > 0 {
      hide Inv, Step;
      RunKeepsInv(states, events, i - 1);
      StepKeepsInv(states[i - 1], events[i - 1], states[i]);
    } else {
      BeginOK(states[0].capacity);
    }
  }

  lemma BeginOK(capacity: nat)
    ensures Inv(Begin(capacity))
  {
  }

  // ----- What every run keeps -----

  /** Nothing is sent on a closed queue, it is closed once, and it never holds more than fits. */
  lemma NoSendOnClosed(states: seq<State>, events: seq<Event>, i: nat)
    requires IsRun(states, events) && i < |states|
    ensures forall t :: 0 <= t < |states[i].emitters| && states[i].emitters[t].pc.Sending? ==> !states[i].queueClosed
    ensures forall t :: 0 <= t < |states[i].stops| && states[i].stops[t].Closing? ==> !states[i].queueClosed
    ensures |states[i].queue| <= states[i].capacity
  {
    RunKeepsInv(states, events, i);
    hide LockOK, PostedOK, AnswersOK;
  }

  /** What was accepted is what the worker is done with, then what it has in hand, then the queue,
      in the order of acceptance; and what was posted is a first part of it. */
  lemma FirstInFirstOut(states: seq<State>, events: seq<Event>, i: nat)
    requires IsRun(states, events) && i < |states|
    ensures states[i].accepted == states[i].handled + InHand(states[i].worker) + states[i].queue
    ensures states[i].posted <= states[i].accepted
  {
    RunKeepsInv(states, events, i);
    var s := states[i];
    hide LockOK, ClosingOK, AnswersOK, IsRun;
    assert s.accepted == s.handled + InHand(s.worker) + s.queue;
  }

  /** An Emit is told yes exactly when its score was accepted, and then it was accepted once. */
  lemma YesIsAccepted(states: seq<State>, events: seq<Event>, i: nat, t: Tid)
    requires IsRun(states, events) && i < |states|
    requires t < |states[i].emitters| && states[i].emitters[t].pc.Emitted?
    ensures states[i].emitters[t].pc.ok <==> Item(t, states[i].emitters[t].score) in states[i].accepted
    ensures forall k, l :: 0 <= k < l < |states[i].accepted| ==>
              states[i].accepted[k].from != states[i].accepted[l].from
  {
    RunKeepsInv(states, events, i);
    hide LockOK, ClosingOK, QueueOK, PostedOK;
    if SaysYes(states[i].emitters[t].pc) {
      assert Item(t, states[i].emitters[t].score) in states[i].accepted;
    }
  }

  /** A Shutdown that returns nil, when none has given up, has seen every accepted score posted,
      each once and in order. */
  lemma CleanShutdown(states: seq<State>, events: seq<Event>, i: nat, t: Tid)
    requires IsRun(states, events) && i < |states|
    requires t < |states[i].stops| && states[i].stops[t] == Stopped(true) && !GaveUp(states[i])
    ensures states[i].posted == states[i].handled == states[i].accepted && states[i].queue == []
  {
    RunKeepsInv(states, events, i);
    hide LockOK, ClosingOK, AnswersOK, IsRun;
    assert states[i].worker.Gone?;
    assert states[i].accepted == states[i].handled;
    assert states[i].handled <= states[i].posted <= states[i].handled;
  }

  lemma ClosedAcceptsNothing(s: State, e: Event, s': State)
    requires Inv(s) && Step(s, e, s') && s.queueClosed
    ensures s'.queueClosed && s'.accepted == s.accepted
    ensures !e.WorkerStep? ==> s'.queue == s.queue && s'.worker == s.worker
    ensures s'.capacity == s.capacity
  {
    hide LockOK, QueueOK, PostedOK, AnswersOK;
  }

  /** After a Shutdown has left its critical section nothing more is ever accepted. */
  lemma {:induction false} AcceptedIsFinal(states: seq<State>, events: seq<Event>, i: nat, j: nat)
    requires IsRun(states, events) && i <= j < |states| && states[i].queueClosed
    ensures states[j].queueClosed && states[j].accepted == states[i].accepted
    ensures states[j].capacity == states[i].capacity
    decreases j
  {
    hide Inv, Step, IsRun;
    if i < j {
      assert j <= |events| by { RunLength(states, events); }
      AcceptedIsFinal(states, events, i, j - 1);
      RunKeepsInv(states, events, j - 1);
      RunStep(states, events, j - 1);
      ClosedAcceptsNothing(states[j - 1], events[j - 1], states[j]);
    }
  }

  lemma PastMeansClosed(states: seq<State>, events: seq<Event>, i: nat, t: Tid)
    requires IsRun(states, events) && i < |states| && t < |states[i].stops| && Past(states[i].stops[t])
    ensures states[i].queueClosed
  {
    RunKeepsInv(states, events, i);
    hide LockOK, QueueOK, PostedOK, AnswersOK;
  }

  /** An Emit is refused only when the sink is closed or the buffer full. */
  lemma RefusedMeans(states: seq<State>, events: seq<Event>, i: nat, t: Tid)
    requires IsRun(states, events) && i < |events| && |states| == |events| + 1
    requires t < |states[i].emitters| && t < |states[i + 1].emitters|
    requires !states[i].emitters[t].pc.RUnlocking? && states[i + 1].emitters[t].pc == RUnlocking(false)
    ensures states[i].closed || |states[i].queue| == states[i].capacity
  {
    RunStep(states, events, i);
    RunKeepsInv(states, events, i);
    hide IsRun;
    StepRefuses(states[i], events[i], states[i + 1], t);
  }

  lemma EmitRefuses(s: State, u: Tid, fits: bool, t: Tid)
    requires EmitEnabled(s, u, fits) && t < |s.emitters| && |s.queue| <= s.capacity
    ensures var was, pc := s.emitters[t].pc, EmitMove(s, u, fits).emitters[t].pc;
            pc == RUnlocking(false) && was != pc ==> s.closed || |s.queue| == s.capacity
  {
  }

  lemma StepRefuses(s: State, e: Event, s': State, t: Tid)
    requires QueueOK(s) && Step(s, e, s') && t < |s.emitters| && t < |s'.emitters|
    requires !s.emitters[t].pc.RUnlocking? && s'.emitters[t].pc == RUnlocking(false)
    ensures s.closed || |s.queue| == s.capacity
  {
    assert |s.queue| <= s.capacity;
    hide QueueOK, EmitMove;
    if e.EmitStep? { EmitRefuses(s, e.t, e.fits, t); }
  }

  ghost predicate GivenUp(s: State) {
    GaveUp(s) ==> s.cancelled
  }

  /** A Shutdown that has returned stays so, and no cancelling is taken back. */
  ghost predicate Moves(s: State, s': State) {
    && |s.stops| <= |s'.stops| && (s.cancelled ==> s'.cancelled && s'.posted == s.posted)
    && (forall u :: 0 <= u < |s.stops| && s.stops[u].Stopped? ==> s'.stops[u] == s.stops[u])
    && (forall u :: 0 <= u < |s'.stops| && s'.stops[u] == Stopped(false) ==>
          s'.cancelled || (u < |s.stops| && s.stops[u] == Stopped(false)))
  }

  lemma EmitMoves(s: State, t: Tid, fits: bool)
    requires EmitEnabled(s, t, fits)
    ensures Moves(s, EmitMove(s, t, fits))
  {
  }

  lemma StopMoves(s: State, t: Tid, done: bool)
    requires StopEnabled(s, t, done)
    ensures Moves(s, StopMove(s, t, done))
  {
  }

  lemma StepMoves(s: State, e: Event, s': State)
    requires Step(s, e, s')
    ensures Moves(s, s')
  {
    match e
    case EmitStep(t, fits) => hide Moves, EmitMove, EmitEnabled; EmitMoves(s, t, fits);
    case StopStep(t, done) => hide Moves, StopMove, StopEnabled; StopMoves(s, t, done);
    case _ =>
  }

  lemma StepKeepsGivenUp(s: State, e: Event, s': State)
    requires GivenUp(s) && Step(s, e, s')
    ensures GivenUp(s') && (GaveUp(s) ==> GaveUp(s') && s'.posted == s.posted)
  {
    hide Step;
    StepMoves(s, e, s');
    if GaveUp(s) {
      var u :| 0 <= u < |s.stops| && s.stops[u] == Stopped(false);
      assert s'.stops[u] == Stopped(false);
    }
  }

  lemma {:induction false} RunKeepsGivenUp(states: seq<State>, events: seq<Event>, i: nat)
    requires IsRun(states, events) && i < |states|
    ensures GivenUp(states[i])
  {
    if i > 0 {
      hide IsRun, Step, GivenUp;
      RunLength(states, events);
      RunKeepsGivenUp(states, events, i - 1);
      RunStep(states, events, i - 1);
      StepKeepsGivenUp(states[i - 1], events[i - 1], states[i]);
    }
  }

  /** Once a Shutdown has given up nothing more is handed to Langfuse: what the worker was posting
      then is the last. */
  lemma {:induction false} GivingUpStopsPosting(states: seq<State>, events: seq<Event>, i: nat, j: nat)
    requires IsRun(states, events) && i <= j < |states| && GaveUp(states[i])
    ensures GaveUp(states[j]) && states[j].posted == states[i].posted
    decreases j
  {
    hide IsRun, Step, GaveUp, GivenUp;
    RunLength(states, events);
    if i < j {
      GivingUpStopsPosting(states, events, i, j - 1);
      RunKeepsGivenUp(states, events, j - 1);
      RunStep(states, events, j - 1);
      StepKeepsGivenUp(states[j - 1], events[j - 1], states[j]);
    }
  }

  // ----- Shutdown is not left waiting -----

  function Stage(w: Worker): nat {
    match w
    case Gone => 0
    case Ended => 1
    case Ending => 2
    case Receiving => 3
    case Posting(_) => 4
    case Holding(_) => 5
  }

  function Left(s: State): nat {
    3 * |s.queue| + Stage(s.worker)
  }

  function WorkerSteps(events: seq<Event>): nat {
    if events == [] then 0
    else WorkerSteps(events[..|events| - 1]) + if events[|events| - 1].WorkerStep? then 1 else 0
  }

  lemma LeftShrinks(s: State, e: Event, s': State)
    requires Inv(s) && Step(s, e, s') && s.queueClosed
    ensures Left(s') + (if e.WorkerStep? then 1 else 0) <= Left(s)
  {
    ClosedAcceptsNothing(s, e, s');
    hide LockOK, ClosingOK, QueueOK, PostedOK, AnswersOK, EmitMove, StopMove;
  }

  lemma LeftIsBounded(s: State)
    requires Inv(s)
    ensures Left(s) <= 3 * s.capacity + 5
  {
    hide LockOK, ClosingOK, PostedOK, AnswersOK;
  }

  lemma SliceInit<T>(s: seq<T>, i: nat, j: nat)
    requires i < j <= |s|
    ensures s[i..j][..j - 1 - i] == s[i..j - 1]
  {
  }

  /** Once the queue is closed the worker can always move until it is gone, and is gone within
      `3 * capacity + 5` steps of its own, whatever else happens meanwhile. */
  lemma {:induction false} WorkerFinishes(states: seq<State>, events: seq<Event>, i: nat, j: nat)
    requires IsRun(states, events) && i <= j <= |events| && |states| == |events| + 1 && states[i].queueClosed
    ensures WorkerSteps(events[i..j]) + Left(states[j]) <= Left(states[i]) <= 3 * states[i].capacity + 5
    ensures !states[j].worker.Gone? ==> WorkerEnabled(states[j])
    decreases j
  {
    hide Inv, Step, IsRun, Left;
    RunLength(states, events);
    RunKeepsInv(states, events, i);
    LeftIsBounded(states[i]);
    AcceptedIsFinal(states, events, i, j);
    if i < j {
      WorkerFinishes(states, events, i, j - 1);
      AcceptedIsFinal(states, events, i, j - 1);
      RunKeepsInv(states, events, j - 1);
      SliceInit(events, i, j);
      RunStep(states, events, j - 1);
      LeftShrinks(states[j - 1], events[j - 1], states[j]);
    }
  }

  // ----- The operations alone -----

  /** An Emit nobody disturbs, with the worker elsewhere: in, checked, perhaps sent, and out. */
  function EmitAlone(s: State, score: Score): State
    requires s.writer.None?
  {
    var t, fits := |s.emitters|, |s.queue| < s.capacity;
    var checked := EmitMove(EmitMove(s.(emitters := s.emitters + [Emitter(score, RLocking)]), t, fits), t, fits);
    var answered := if s.closed then checked else EmitMove(checked, t, fits);
    EmitMove(answered, t, fits)
  }

  /** The critical section of a new Shutdown. */
  function CloseAlone(s: State): (r: State)
    requires s.writer.None? && s.readers == {}
    ensures r.stops == s.stops + [Selecting] && (s.closed == s.queueClosed ==> r.queueClosed)
  {
    var t := |s.stops|;
    var marked := StopMove(StopMove(s.(stops := s.stops + [Locking]), t, false), t, false);
    var shut := if s.closed then marked else StopMove(marked, t, false);
    StopMove(shut, t, false)
  }

  /** The rest of Shutdown `t`: the worker is gone, or its own time is up. */
  function StopAlone(s: State, t: Tid, done: bool): State
    requires t < |s.stops| && s.stops[t].Selecting? && (done ==> s.worker.Gone?)
  {
    if done then StopMove(s, t, true) else StopMove(StopMove(s, t, false), t, false)
  }

  /** The worker, for as long as it can move. */
  function WorkerAlone(s: State): (r: State)
    ensures r.stops == s.stops && (s.queueClosed ==> r.worker.Gone?)
    decreases Left(s)
  {
    if WorkerEnabled(s) then WorkerAlone(WorkerMove(s)) else s
  }

  /** A whole Shutdown, with the worker let run to its end, or with the caller's time up. */
  function ShutdownAlone(s: State, expired: bool): State
    requires s.writer.None? && s.readers == {} && s.closed == s.queueClosed
  {
    var shut := CloseAlone(s);
    if expired then StopAlone(shut, |s.stops|, false) else StopAlone(WorkerAlone(shut), |s.stops|, true)
  }

  /** The first queued score dealt with: posted, or dropped when Shutdown has given up. */
  function Turned(s: State): State
    requires s.queue != []
  {
    s.(queue := s.queue[1..], handled := s.handled + [s.queue[0]],
       posted := if s.cancelled then s.posted else s.posted + [s.queue[0]])
  }

  /** Every queued score dealt with so, in order, and the worker gone. */
  function Emptied(s: State): State {
    s.(worker := Gone, cancelled := true, queue := [], handled := s.handled + s.queue,
       posted := if s.cancelled then s.posted else s.posted + s.queue)
  }

  lemma EmptiedTurned(s: State)
    requires s.queue != []
    ensures Emptied(Turned(s)) == Emptied(s)
  {
    var head, tail := [s.queue[0]], s.queue[1..];
    assert s.queue == head + tail;
    assert s.handled + head + tail == s.handled + (head + tail);
    assert s.posted + head + tail == s.posted + (head + tail);
  }

  /** One turn of the worker's loop. */
  lemma WorkerTurns(s: State)
    requires s.worker.Receiving? && s.queue != []
    ensures WorkerAlone(s) == WorkerAlone(Turned(s))
  {
    var taken := WorkerMove(s);
    assert WorkerAlone(s) == WorkerAlone(taken);
    var next := WorkerMove(taken);
    assert WorkerAlone(taken) == WorkerAlone(next);
    if !s.cancelled { assert WorkerAlone(next) == WorkerAlone(WorkerMove(next)); }
  }

  /** Its end, once the queue is closed and empty. */
  lemma WorkerLeaves(s: State)
    requires s.worker.Receiving? && s.queue == [] && s.queueClosed
    ensures WorkerAlone(s) == s.(worker := Gone, cancelled := true)
  {
    var ending := WorkerMove(s);
    var ended := WorkerMove(ending);
    assert WorkerAlone(ending) == WorkerAlone(ended);
    assert WorkerAlone(ended) == WorkerMove(ended);
  }

  /** On a closed queue the worker alone posts everything queued, in order, or nothing of it when
      Shutdown has given up; either way it is done with all of it, and gone. */
  lemma {:induction false} WorkerDrains(s: State)
    requires s.worker.Receiving? && s.queueClosed
    ensures WorkerAlone(s) == Emptied(s)
    decreases |s.queue|
  {
    hide WorkerAlone;
    if s.queue == [] {
      WorkerLeaves(s);
      assert s.posted + s.queue == s.posted && s.handled + s.queue == s.handled;
    } else {
      WorkerTurns(s);
      WorkerDrains(Turned(s));
      hide Emptied;
      EmptiedTurned(s);
    }
  }

  /** The sink. `emitters` to `handled` are the machine's record of it, kept by nobody but the
      proof. */
  class Scores {
    const enabled: bool
    const capacity: nat
    var closed: bool
    var queue: seq<Item>
    var cancelled: bool
    var done: bool
    ghost var emitters: seq<Emitter>
    ghost var stops: seq<StopPC>
    ghost var accepted: seq<Item>
    ghost var posted: seq<Item>
    ghost var handled: seq<Item>

    /** The sink between calls: nobody is in the lock, and the worker waits or is gone. */
    ghost function View(): State
      reads this
    {
      State(capacity, {}, None, closed, closed, queue, if done then Gone else Receiving, cancelled,
            emitters, stops, accepted, posted, handled)
    }

    constructor (enabled: bool, capacity: nat)
      ensures this.enabled == enabled && View() == Begin(capacity)
    {
      this.enabled, this.capacity := enabled, capacity;
      closed, cancelled, done, queue := false, false, false, [];
      emitters, stops, accepted, posted, handled := [], [], [], [], [];
    }

    /** `t` is the number of the call. */
    method Emit(t: Tid, score: Score) returns (ok: bool)
      requires enabled ==> t == |emitters|
      modifies this`queue, this`emitters, this`accepted
      ensures View() == if enabled then EmitAlone(old(View()), score) else old(View())
      ensures ok <==> !enabled || (!closed && |old(queue)| < capacity)
      ensures queue == if enabled && ok then old(queue) + [Item(t, score)] else old(queue)
    {
      if !enabled { return true; }
      ok := false;
      if !closed {
        if |queue| < capacity {
          queue, accepted := queue + [Item(t, score)], accepted + [Item(t, score)];
          ok := true;
        }
      }
      emitters := emitters + [Emitter(score, Emitted(ok))];
    }

    /** The worker, on a queue that has been closed. */
    method Run()
      requires enabled && closed && !done
      modifies this`queue, this`cancelled, this`done, this`posted, this`handled
      ensures View() == WorkerAlone(old(View()))
      ensures done && queue == [] && posted == old(posted) + if old(cancelled) then [] else old(queue)
    {
      hide WorkerAlone, WorkerMove;
      WorkerDrains(View());
      while |queue| > 0
        invariant !done && cancelled == old(cancelled) && WorkerAlone(View()) == WorkerAlone(old(View()))
        decreases |queue|
      {
        WorkerTurns(View());
        var item := queue[0];
        queue, handled := queue[1..], handled + [item];
        if cancelled { continue; }
        posted := posted + [item];
      }
      WorkerLeaves(View());
      cancelled, done := true, true;
    }

    method Close()
      requires enabled
      modifies this`closed, this`stops
      ensures View() == CloseAlone(old(View()))
      ensures closed && stops == old(stops) + [Selecting]
    {
      if !closed { closed := true; }
      stops := stops + [Selecting];
    }

    /** Shutdown: the queue is closed, and either the worker is waited for or, with the caller's time
        up, it is told to drop what is left. */
    method Shutdown(expired: bool) returns (ok: bool)
      modifies this
      ensures !enabled ==> ok && View() == old(View())
      ensures enabled ==> View() == ShutdownAlone(old(View()), expired)
      ensures enabled ==> (ok <==> !expired) && closed && stops == old(stops) + [Stopped(ok)]
      ensures enabled && ok && !old(done) ==>
                done && queue == [] && posted == old(posted) + if old(cancelled) then [] else old(queue)
      ensures enabled && !ok ==> cancelled && queue == old(queue) && posted == old(posted)
    {
      if !enabled { return true; }
      ghost var t := |stops|;
      Close();
      if expired {
        cancelled, stops := true, stops[t := Stopped(false)];
        return false;
      }
      if !done { Run(); }
      stops := stops[t := Stopped(true)];
      return true;
    }
  }
}
