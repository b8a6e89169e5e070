/** The way of a notification from SM's log to the platform: the connection loop with its reader and pinger, the
    resync timer, the bounded queue, and the reconciler that consumes it. Each atomic action of the goroutines is
    one step, so a run is any interleaving of them. */
module Pipeline {
  import opened Types

  /** A notification is known by its position in SM's log. */
  datatype Message = ResyncMessage | Note(index: nat)

  datatype LoopAt = Idle | HandingOver | Streaming | LoopStopped

  datatype ReaderAt = Off | Reading | Got(index: nat) | Enqueued(index: nat)

  datatype TimerAt = Waiting | Sending | TimerStopped

  /** `Applying(n)`: the resync has seen the first `n` changes of SM and is still at work. */
  datatype ConsumerAt = Ready | Consuming(index: nat) | Draining | Resyncing | Applying(seen: nat) | ConsumerStopped

  /** The log holds the revisions of SM's changes. `last` is the last notification revision, None standing for the
      invalid one; `cursor` is the position that the server sends next on the present connection.

      The rest is history: `sent` is all that was ever put into the queue, `base` the position at which the present
      stretch of notifications began and `mark` how much had been sent by then, `front` the position of the next
      notification to be sent, `consumed` and `discarded` the notifications handled and drained, `covered` how many
      changes a finished resync had seen. `exposed` are the changes that were left to nobody when a connection attempt
      failed after it adopted a revision, or when a resync was given up, since a resync last looked at SM. */
  datatype System = System(
    log: seq<int>, last: Option<int>, loop: LoopAt, cursor: nat, reader: ReaderAt, pinging: bool,
    childrenCancelled: bool,
    timer: TimerAt, queue: seq<Message>, capacity: nat, consumer: ConsumerAt, cancelled: bool,
    sent: seq<Message>, base: nat, mark: nat, front: nat, consumed: set<nat>, discarded: set<nat>, covered: nat,
    exposed: set<nat>)

  datatype LoopAction = Refuse(gone: bool) | AdoptThenFail(position: nat) | Connect(position: nat, header: bool)
                      | HandOver | CancelChildren | Close | StopLoop

  datatype ReaderAction = Receive | Enqueue | Drop | Advance | ReaderFails | PingerEnds

  datatype TimerAction = Fire | SendResync | StopTimer

  datatype ReconcilerAction = TakeResync | TakeNote | EndConsume | DrainOne | DrainEnd | LookAtSM | GiveUp | EndResync
                            | StopConsumer

  datatype Action = Append(revision: int) | Cancel | Loop(loop: LoopAction) | Read(reader: ReaderAction)
                  | Time(timer: TimerAction) | Reconcile(reconciler: ReconcilerAction)

  function Init(capacity: nat): System {
    System([], None, Idle, 0, Off, false, false, Waiting, [], capacity, Ready, false, [], 0, 0, 0, {}, {}, 0, {})
  }

  /** There is room in the queue, or, if it has none at all, somebody is there to receive; draining receives too. */
  predicate CanSend(s: System) {
    |s.queue| < s.capacity || (s.queue == [] && (s.consumer == Ready || s.consumer == Draining))
  }

  /** `r` is the revision of the last of the first `n` changes. */
  predicate IsRevisionAt(log: seq<int>, r: int, n: nat) {
    0 < n <= |log| && log[n - 1] == r
  }

  // ---- Who takes care of a change ----

  /** A resync is on its way and has not looked at SM yet. */
  predicate ResyncPending(s: System) {
    || s.loop == HandingOver || s.timer == Sending || ResyncMessage in s.queue
    || s.consumer == Draining || s.consumer == Resyncing
  }

  /** The change is in the queue or in the reconciler's hands, has been consumed, or is covered by a resync: one
      that is on its way, one at work that has seen it, or a finished one that had seen it. */
  predicate Safe(s: System, i: nat) {
    || Note(i) in s.queue || s.consumer == Consuming(i) || i in s.consumed
    || ResyncPending(s) || (s.consumer.Applying? && i < s.consumer.seen) || i < s.covered
  }

  function Unsafe(s: System, n: nat): set<nat> {
    set i | 0 <= i < n && !Safe(s, i)
  }

  /** Of the changes before the front those that are now left to nobody are remembered. */
  function Expose(s: System): System {
    s.(exposed := s.exposed + Unsafe(s, s.front))
  }

  // ---- The connection loop ----

  /** SM answers a known revision by sending everything above it, or by saying that it is gone. Without one it names
      some revision of its own in a header, or none, and sends what comes after. */
  predicate LoopEnabled(s: System, a: LoopAction) {
    match a
    case Refuse(_) => s.loop == Idle
    case AdoptThenFail(n) => s.loop == Idle && s.last == None && 0 < n <= |s.log|
    case Connect(n, header) =>
      && s.loop == Idle
      && if s.last == None then n <= |s.log| && (header ==> n > 0) else IsRevisionAt(s.log, s.last.value, n)
    case HandOver => s.loop == HandingOver && s.timer == Waiting
    case CancelChildren => s.loop == Streaming && (s.reader == Off || !s.pinging)
    case Close => s.loop == Streaming && s.childrenCancelled && s.reader == Off && !s.pinging
    case StopLoop => s.loop == Idle && s.cancelled
  }

  function LoopStep(s: System, a: LoopAction): System
    requires LoopEnabled(s, a)
  {
    match a
    case Refuse(gone) => if gone then s.(last := None) else s
    case AdoptThenFail(n) => Expose(s.(last := Some(s.log[n - 1]), base := n, mark := |s.sent|, front := n))
    case Connect(n, header) =>
      if s.last == None
      then s.(last := if header then Some(s.log[n - 1]) else None, base := n, mark := |s.sent|, front := n, cursor := n,
              loop := HandingOver)
      else Stream(s.(cursor := n))
    case HandOver => Stream(s.(timer := Sending))
    case CancelChildren => s.(childrenCancelled := true)
    case Close => s.(loop := Idle)
    case StopLoop => s.(loop := LoopStopped)
  }

  function Stream(s: System): System {
    s.(loop := Streaming, reader := Reading, pinging := true, childrenCancelled := false)
  }

  function Send(s: System, m: Message): System {
    s.(queue := s.queue + [m], sent := s.sent + [m])
  }

  // ---- The reader and the pinger ----

  predicate ReaderEnabled(s: System, a: ReaderAction) {
    match a
    case Receive => s.reader == Reading && s.cursor < |s.log|
    case Enqueue => s.reader.Got? && CanSend(s)
    case Drop => s.reader.Got? && (s.childrenCancelled || s.cancelled)
    case Advance => s.reader.Enqueued? && s.reader.index < |s.log|
    case ReaderFails => s.reader == Reading
    case PingerEnds => s.pinging
  }

  function ReaderStep(s: System, a: ReaderAction): System
    requires ReaderEnabled(s, a)
  {
    match a
    case Receive => s.(reader := Got(s.cursor), cursor := s.cursor + 1)
    case Enqueue => Send(s, Note(s.reader.index)).(reader := Enqueued(s.reader.index), front := s.reader.index + 1)
    case Drop => s.(reader := Off)
    case Advance => s.(reader := Reading, last := Some(s.log[s.reader.index]))
    case ReaderFails => s.(reader := Off)
    case PingerEnds => s.(pinging := false)
  }

  // ---- The resync timer ----

  predicate TimerEnabled(s: System, a: TimerAction) {
    match a
    case Fire => s.timer == Waiting
    case SendResync => s.timer == Sending && CanSend(s)
    case StopTimer => s.timer != TimerStopped && s.cancelled
  }

  function TimerStep(s: System, a: TimerAction): System
    requires TimerEnabled(s, a)
  {
    match a
    case Fire => s.(timer := Sending)
    case SendResync => Send(s, ResyncMessage).(timer := Waiting)
    case StopTimer => s.(timer := TimerStopped)
  }

  // ---- The reconciler ----

  predicate ReconcilerEnabled(s: System, a: ReconcilerAction) {
    match a
    case TakeResync => s.consumer == Ready && s.queue != [] && s.queue[0] == ResyncMessage
    case TakeNote => s.consumer == Ready && s.queue != [] && s.queue[0].Note?
    case EndConsume => s.consumer.Consuming?
    case DrainOne => s.consumer == Draining && s.queue != []
    case DrainEnd => s.consumer == Draining && s.queue == []
    case LookAtSM => s.consumer == Resyncing
    case GiveUp => s.consumer == Resyncing || s.consumer.Applying?
    case EndResync => s.consumer.Applying?
    case StopConsumer => s.consumer == Ready && s.cancelled
  }

  function IndexOf(m: Message): set<nat> {
    if m.Note? then {m.index} else {}
  }

  function ReconcilerStep(s: System, a: ReconcilerAction): System
    requires ReconcilerEnabled(s, a)
  {
    match a
    case TakeResync => s.(consumer := Draining, queue := s.queue[1..])
    case TakeNote => s.(consumer := Consuming(s.queue[0].index), queue := s.queue[1..])
    case EndConsume => s.(consumer := Ready, consumed := s.consumed + {s.consumer.index})
    case DrainOne => s.(queue := s.queue[1..], discarded := s.discarded + IndexOf(s.queue[0]))
    case DrainEnd => s.(consumer := Resyncing)
    case LookAtSM => s.(consumer := Applying(|s.log|), exposed := {})
    case GiveUp => Expose(s.(consumer := Ready))
    case EndResync =>
      s.(consumer := Ready, covered := if s.consumer.seen > s.covered then s.consumer.seen else s.covered)
    case StopConsumer => s.(consumer := ConsumerStopped)
  }

  // ---- All of them ----

  predicate Enabled(s: System, a: Action) {
    match a
    case Append(r) => r > 0 && forall i | 0 <= i < |s.log| :: s.log[i] < r
    case Cancel => true
    case Loop(l) => LoopEnabled(s, l)
    case Read(r) => ReaderEnabled(s, r)
    case Time(t) => TimerEnabled(s, t)
    case Reconcile(r) => ReconcilerEnabled(s, r)
  }

  function Apply(s: System, a: Action): System
    requires Enabled(s, a)
  {
    match a
    case Append(r) => s.(log := s.log + [r])
    case Cancel => s.(cancelled := true)
    case Loop(l) => LoopStep(s, l)
    case Read(r) => ReaderStep(s, r)
    case Time(t) => TimerStep(s, t)
    case Reconcile(r) => ReconcilerStep(s, r)
  }

  ghost predicate Step(s: System, s': System) {
    exists a :: Enabled(s, a) && s' == Apply(s, a)
  }

  ghost predicate IsRun(capacity: nat, run: seq<System>) {
    && run != [] && run[0] == Init(capacity)
    && forall n :: 0 <= n < |run| - 1 ==> Step(run[n], run[n + 1])
  }

  lemma StepTaken(capacity: nat, run: seq<System>, n: nat) returns (a: Action)
    requires IsRun(capacity, run) && 0 < n < |run|
    ensures Enabled(run[n - 1], a) && run[n] == Apply(run[n - 1], a)
  {
    assert Step(run[n - 1], run[n - 1 + 1]);
    a :| Enabled(run[n - 1], a) && run[n] == Apply(run[n - 1], a);
  }

  // ---- What each actor leaves alone ----

  predicate LoopSpares(s: System, s': System) {
    && s'.log == s.log && s'.queue == s.queue && s'.sent == s.sent && s'.cancelled == s.cancelled
    && s'.consumer == s.consumer && s'.consumed == s.consumed && s'.covered == s.covered && s'.discarded == s.discarded
  }

  predicate ReaderSpares(s: System, s': System) {
    && s'.log == s.log && s'.loop == s.loop && s'.timer == s.timer && s'.cancelled == s.cancelled
    && s'.base == s.base && s'.mark == s.mark && s'.exposed == s.exposed && s'.discarded == s.discarded
    && s'.consumer == s.consumer && s'.consumed == s.consumed && s'.covered == s.covered
  }

  predicate TimerSpares(s: System, s': System) {
    SameConnection(s, s') && s'.cancelled == s.cancelled && s'.exposed == s.exposed && s'.discarded == s.discarded
    && s'.consumer == s.consumer && s'.consumed == s.consumed && s'.covered == s.covered
  }

  predicate ReconcilerSpares(s: System, s': System) {
    SameConnection(s, s') && s'.cancelled == s.cancelled && s'.timer == s.timer && s'.sent == s.sent
  }

  /** The connection and the position on it. */
  predicate SameConnection(s: System, s': System) {
    && s'.loop == s.loop && s'.reader == s.reader && s'.cursor == s.cursor && s'.last == s.last && s'.front == s.front
    && s'.base == s.base && s'.mark == s.mark && s'.log == s.log
  }

  lemma LoopFrame(s: System, l: LoopAction)
    requires LoopEnabled(s, l)
    ensures LoopSpares(s, LoopStep(s, l))
  {
  }

  lemma ReaderFrame(s: System, r: ReaderAction)
    requires ReaderEnabled(s, r)
    ensures ReaderSpares(s, ReaderStep(s, r))
  {
  }

  lemma TimerFrame(s: System, t: TimerAction)
    requires TimerEnabled(s, t)
    ensures TimerSpares(s, TimerStep(s, t))
  {
  }

  lemma ReconcilerFrame(s: System, r: ReconcilerAction)
    requires ReconcilerEnabled(s, r)
    ensures ReconcilerSpares(s, ReconcilerStep(s, r))
  {
  }

  // ---- Positions ----

  predicate IncreasingLog(log: seq<int>) {
    (forall i | 0 <= i < |log| :: log[i] > 0) && forall i, j | 0 <= i < j < |log| :: log[i] < log[j]
  }

  /** Where the reader stands on a connection. */
  predicate ReaderInStep(s: System) {
    match s.reader
    case Off => true
    case Reading => s.cursor == s.front
    case Got(i) => i == s.front && s.cursor == i + 1 <= |s.log|
    case Enqueued(i) => i + 1 == s.front == s.cursor
  }

  /** The revision is that of the last notification sent, except right after a notification went into the queue. */
  predicate RevisionInStep(s: System) {
    s.last.Some? ==> IsRevisionAt(s.log, s.last.value, if s.reader.Enqueued? then s.reader.index else s.front)
  }

  predicate InStep(s: System) {
    && s.front <= |s.log|
    && (s.reader != Off ==> s.loop == Streaming)
    && (s.loop == HandingOver ==> s.cursor == s.front)
    && ReaderInStep(s) && RevisionInStep(s)
  }

  lemma RevisionIsUnique(log: seq<int>, r: int, m: nat, n: nat)
    requires IncreasingLog(log) && IsRevisionAt(log, r, m) && IsRevisionAt(log, r, n)
    ensures m == n
  {
  }

  lemma AppendKeepsLog(log: seq<int>, r: int)
    requires IncreasingLog(log) && r > 0 && forall i | 0 <= i < |log| :: log[i] < r
    ensures IncreasingLog(log + [r])
  {
  }

  lemma StepKeepsLog(s: System, a: Action)
    requires IncreasingLog(s.log) && Enabled(s, a)
    ensures IncreasingLog(Apply(s, a).log)
  {
    match a
    case Append(r) => AppendKeepsLog(s.log, r);
    case Loop(l) => LoopFrame(s, l);
    case Read(r) => ReaderFrame(s, r);
    case Time(t) => TimerFrame(s, t);
    case Reconcile(r) => ReconcilerFrame(s, r);
    case Cancel =>
  }

  lemma LoopKeepsInStep(s: System, l: LoopAction)
    requires InStep(s) && IncreasingLog(s.log) && LoopEnabled(s, l)
    ensures InStep(LoopStep(s, l))
  {
    if l.Connect? && s.last.Some? {
      RevisionIsUnique(s.log, s.last.value, l.position, s.front);
    }
  }

  lemma ReaderKeepsInStep(s: System, r: ReaderAction)
    requires InStep(s) && ReaderEnabled(s, r)
    ensures InStep(ReaderStep(s, r))
  {
  }

  lemma SameConnectionInStep(s: System, s': System)
    requires InStep(s) && SameConnection(s, s')
    ensures InStep(s')
  {
  }

  lemma StepKeepsInStep(s: System, a: Action)
    requires InStep(s) && IncreasingLog(s.log) && Enabled(s, a)
    ensures InStep(Apply(s, a))
  {
    match a
    case Loop(l) => LoopKeepsInStep(s, l);
    case Read(r) => ReaderKeepsInStep(s, r);
    case Time(t) =>
      TimerFrame(s, t);
      SameConnectionInStep(s, TimerStep(s, t));
    case Reconcile(r) =>
      ReconcilerFrame(s, r);
      SameConnectionInStep(s, ReconcilerStep(s, r));
    case Append(r) => AppendKeepsInStep(s, r);
    case Cancel =>
  }

  lemma AppendKeepsInStep(s: System, r: int)
    requires InStep(s)
    ensures InStep(s.(log := s.log + [r]))
  {
  }

  lemma {:induction false} RunIsInStep(capacity: nat, run: seq<System>, n: nat)
    requires IsRun(capacity, run) && n < |run|
    ensures InStep(run[n]) && IncreasingLog(run[n].log)
  {
    if n > 0 {
      RunIsInStep(capacity, run, n - 1);
      var a := StepTaken(capacity, run, n);
      StepKeepsInStep(run[n - 1], a);
      StepKeepsLog(run[n - 1], a);
    }
  }

  // ---- No update is lost ----

  /** The loop holds a revision, or a connection on which it will learn one. */
  predicate Counting(s: System) {
    s.last.Some? || s.loop == HandingOver || s.loop == Streaming
  }

  ghost predicate NothingLost(s: System) {
    !s.cancelled && Counting(s) ==> forall i: nat :: i < s.front && i !in s.exposed ==> Safe(s, i)
  }

  /** The reconciler has done nothing, and no message has been taken out. */
  predicate OnlyAdds(s: System, s': System) {
    s'.consumer == s.consumer && s'.consumed == s.consumed && s'.covered == s.covered && s.queue <= s'.queue
  }

  /** A resync that was asked for or being sent still is, or is in the queue by now. */
  predicate KeepsRequest(s: System, s': System) {
    s.loop == HandingOver || s.timer == Sending ==>
      s'.loop == HandingOver || s'.timer == Sending || ResyncMessage in s'.queue
  }

  lemma LoopKeepsRequest(s: System, l: LoopAction)
    requires LoopEnabled(s, l)
    ensures KeepsRequest(s, LoopStep(s, l))
  {
  }

  lemma ReaderOnlyAdds(s: System, r: ReaderAction)
    requires ReaderEnabled(s, r)
    ensures s.queue <= ReaderStep(s, r).queue
  {
  }

  lemma OthersOnlyAdd(s: System, a: Action)
    requires Enabled(s, a) && !a.Reconcile? && a != Time(StopTimer)
    ensures OnlyAdds(s, Apply(s, a)) && KeepsRequest(s, Apply(s, a))
  {
    match a
    case Loop(l) =>
      LoopFrame(s, l);
      LoopKeepsRequest(s, l);
    case Read(r) =>
      ReaderFrame(s, r);
      ReaderOnlyAdds(s, r);
    case Time(t) =>
      TimerFrame(s, t);
      assert t == SendResync ==> TimerStep(s, t).queue[|s.queue|] == ResyncMessage;
    case _ =>
  }

  lemma AddingKeepsSafe(s: System, s': System, i: nat)
    requires OnlyAdds(s, s') && KeepsRequest(s, s') && Safe(s, i)
    ensures Safe(s', i)
  {
  }

  lemma ReconcilerKeepsSafe(s: System, r: ReconcilerAction, i: nat)
    requires ReconcilerEnabled(s, r) && Safe(s, i) && r != GiveUp && i < |s.log|
    ensures Safe(ReconcilerStep(s, r), i)
  {
  }

  /** What keeps a change safe before a step keeps it safe after it, unless a resync is given up or the timer stops. */
  lemma StepKeepsSafe(s: System, a: Action, i: nat)
    requires Enabled(s, a) && Safe(s, i) && a != Reconcile(GiveUp) && a != Time(StopTimer) && i < |s.log|
    ensures Safe(Apply(s, a), i)
  {
    if a.Reconcile? {
      ReconcilerKeepsSafe(s, a.reconciler, i);
    } else {
      OthersOnlyAdd(s, a);
      AddingKeepsSafe(s, Apply(s, a), i);
    }
  }

  /** Every change before the front that is not exposed is safe after the step: it was before, or the step itself
      makes it so. */
  lemma ChangeStaysSafe(s: System, a: Action, i: nat)
    requires InStep(s) && NothingLost(s) && Enabled(s, a)
    requires a != Time(StopTimer) && !s.cancelled
    requires Counting(Apply(s, a)) && i < Apply(s, a).front && i !in Apply(s, a).exposed
    ensures Safe(Apply(s, a), i)
  {
    if a == Read(Enqueue) && i == s.front {
      assert Apply(s, a).queue[|s.queue|] == Note(i);
    } else if !(a == Reconcile(GiveUp) || a == Reconcile(LookAtSM) || BeginsAnew(s, a)) {
      CountedBefore(s, a, i);
      ExposedStays(s, a);
      StepKeepsSafe(s, a, i);
    }
  }

  predicate BeginsAnew(s: System, a: Action) {
    a.Loop? && (a.loop.AdoptThenFail? || (a.loop.Connect? && s.last == None))
  }

  lemma ExposedStays(s: System, a: Action)
    requires Enabled(s, a) && a != Reconcile(LookAtSM)
    ensures s.exposed <= Apply(s, a).exposed
  {
    match a
    case Loop(l) => LoopKeepsExposed(s, l);
    case Read(r) => ReaderFrame(s, r);
    case Time(t) => TimerFrame(s, t);
    case _ =>
  }

  lemma LoopKeepsExposed(s: System, l: LoopAction)
    requires LoopEnabled(s, l)
    ensures s.exposed <= LoopStep(s, l).exposed && (!l.AdoptThenFail? ==> LoopStep(s, l).exposed == s.exposed)
  {
  }

  lemma CountedBefore(s: System, a: Action, i: nat)
    requires InStep(s) && Enabled(s, a) && Counting(Apply(s, a)) && i < Apply(s, a).front
    requires !(a.Loop? && a.loop.AdoptThenFail?) && !(a.Loop? && a.loop.Connect? && s.last == None)
    requires !(a == Read(Enqueue) && i == s.front)
    ensures Counting(s) && i < s.front
  {
    match a
    case Time(t) => TimerFrame(s, t);
    case Reconcile(r) => ReconcilerFrame(s, r);
    case Loop(l) => LoopCountedBefore(s, l);
    case Read(r) => ReaderCountedBefore(s, r);
    case _ =>
  }

  lemma LoopCountedBefore(s: System, l: LoopAction)
    requires LoopEnabled(s, l) && !l.AdoptThenFail? && !(l.Connect? && s.last == None)
    ensures LoopStep(s, l).front == s.front && (Counting(LoopStep(s, l)) ==> Counting(s))
  {
  }

  lemma ReaderCountedBefore(s: System, r: ReaderAction)
    requires InStep(s) && ReaderEnabled(s, r)
    ensures ReaderStep(s, r).front == (if r == Enqueue then s.front + 1 else s.front)
    ensures Counting(ReaderStep(s, r)) ==> Counting(s)
  {
  }

  lemma CancelShows(s: System, a: Action)
    requires Enabled(s, a) && !Apply(s, a).cancelled
    ensures a != Time(StopTimer) && !s.cancelled
  {
    match a
    case Loop(l) => LoopFrame(s, l);
    case Read(r) => ReaderFrame(s, r);
    case Time(t) => TimerFrame(s, t);
    case Reconcile(r) => ReconcilerFrame(s, r);
    case _ =>
  }

  lemma StepKeepsNothingLost(s: System, a: Action)
    requires InStep(s) && NothingLost(s) && Enabled(s, a)
    ensures NothingLost(Apply(s, a))
  {
    var s' := Apply(s, a);
    if !s'.cancelled && Counting(s') {
      CancelShows(s, a);
      forall i: nat | i < s'.front && i !in s'.exposed ensures Safe(s', i) {
        ChangeStaysSafe(s, a, i);
      }
    }
  }

  lemma NothingLostAtStart(capacity: nat)
    ensures NothingLost(Init(capacity))
  {
  }

  lemma {:induction false} RunLosesNothing(capacity: nat, run: seq<System>, n: nat)
    requires IsRun(capacity, run) && n < |run|
    ensures NothingLost(run[n])
  {
    if n == 0 {
      NothingLostAtStart(capacity);
    } else {
      RunLosesNothing(capacity, run, n - 1);
      RunIsInStep(capacity, run, n - 1);
      var a := StepTaken(capacity, run, n);
      StepKeepsNothingLost(run[n - 1], a);
    }
  }

  /** In every run, for every interleaving, until the program is told to stop: while the loop holds a valid
      revision, every change of SM up to it has been consumed, is in the queue, or is covered by a resync, unless it
      is exposed. */
  lemma NoUpdateIsLost(capacity: nat, run: seq<System>, n: nat, i: nat)
    requires IsRun(capacity, run) && n < |run|
    requires !run[n].cancelled && run[n].last.Some?
    requires i < |run[n].log| && run[n].log[i] <= run[n].last.value && i !in run[n].exposed
    ensures Safe(run[n], i)
  {
    RunLosesNothing(capacity, run, n);
    RunIsInStep(capacity, run, n);
  }

  // ---- What exposes a change ----

  /** The notification is in the queue or in the reconciler's hands, or has been consumed or drained. */
  predicate Delivered(s: System, i: nat) {
    Note(i) in s.queue || s.consumer == Consuming(i) || i in s.consumed || i in s.discarded
  }

  /** So is every notification of the present stretch that was sent. */
  ghost predicate Accounted(s: System) {
    forall i: nat :: s.base <= i < s.front ==> Delivered(s, i)
  }

  lemma ReconcilerKeepsDelivered(s: System, r: ReconcilerAction, i: nat)
    requires ReconcilerEnabled(s, r) && Delivered(s, i)
    ensures Delivered(ReconcilerStep(s, r), i)
  {
  }

  lemma ReaderKeepsDelivered(s: System, r: ReaderAction, i: nat)
    requires InStep(s) && ReaderEnabled(s, r) && i < ReaderStep(s, r).front
    requires i < s.front ==> Delivered(s, i)
    ensures Delivered(ReaderStep(s, r), i)
  {
    if r == Enqueue {
      assert ReaderStep(s, r).queue[|s.queue|] == Note(s.front);
    }
  }

  lemma TimerKeepsDelivered(s: System, t: TimerAction, i: nat)
    requires TimerEnabled(s, t) && Delivered(s, i)
    ensures Delivered(TimerStep(s, t), i)
  {
    TimerFrame(s, t);
    var q, q' := s.queue, TimerStep(s, t).queue;
    assert q <= q';
    assert forall k :: 0 <= k < |q| ==> q'[k] == q[k];
  }

  /** The stretch stays as it is, or begins anew and is empty. */
  lemma LoopKeepsDelivered(s: System, l: LoopAction, i: nat)
    requires LoopEnabled(s, l) && LoopStep(s, l).base <= i < LoopStep(s, l).front
    ensures s.base <= i < s.front && (Delivered(s, i) ==> Delivered(LoopStep(s, l), i))
  {
    LoopFrame(s, l);
  }

  lemma StepKeepsDelivered(s: System, a: Action, i: nat)
    requires InStep(s) && Accounted(s) && Enabled(s, a) && Apply(s, a).base <= i < Apply(s, a).front
    ensures Delivered(Apply(s, a), i)
  {
    match a
    case Loop(l) => LoopKeepsDelivered(s, l, i);
    case Read(r) =>
      ReaderFrame(s, r);
      ReaderKeepsDelivered(s, r, i);
    case Time(t) =>
      TimerFrame(s, t);
      TimerKeepsDelivered(s, t, i);
    case Reconcile(r) =>
      ReconcilerFrame(s, r);
      ReconcilerKeepsDelivered(s, r, i);
    case _ => assert Delivered(s, i);
  }

  lemma {:induction false} RunIsAccounted(capacity: nat, run: seq<System>, n: nat)
    requires IsRun(capacity, run) && n < |run|
    ensures Accounted(run[n])
  {
    if n > 0 {
      RunIsAccounted(capacity, run, n - 1);
      RunIsInStep(capacity, run, n - 1);
      var a := StepTaken(capacity, run, n);
      forall i: nat | run[n].base <= i < run[n].front ensures Delivered(run[n], i) {
        StepKeepsDelivered(run[n - 1], a, i);
      }
    }
  }

  /** So a notification that was sent in the present stretch and not drained is safe whatever else happened, even
      after the program was told to stop. */
  lemma SentIsSafe(capacity: nat, run: seq<System>, n: nat, i: nat)
    requires IsRun(capacity, run) && n < |run| && run[n].base <= i < run[n].front && i !in run[n].discarded
    ensures Safe(run[n], i)
  {
    RunIsAccounted(capacity, run, n);
    assert Delivered(run[n], i);
  }

  /** Giving a resync up exposes exactly the changes that it alone had to cover: no other resync is on its way, no
      finished one had seen them, they are neither queued nor consumed, and they were drained or came before the
      present stretch. */
  lemma GivingUpExposes(capacity: nat, run: seq<System>, n: nat, i: nat)
    requires IsRun(capacity, run) && n < |run| && Enabled(run[n], Reconcile(GiveUp)) && i < run[n].front
    ensures var s, s' := run[n], Apply(run[n], Reconcile(GiveUp));
            i in s'.exposed <==>
              i in s.exposed
              || (!ResyncPending(s') && s.covered <= i && Note(i) !in s.queue && i !in s.consumed
                  && (i in s.discarded || i < s.base))
  {
    RunIsAccounted(capacity, run, n);
    assert run[n].base <= i ==> Delivered(run[n], i);
  }

  lemma AdoptingExposesUnsafe(s: System, n: nat, i: nat)
    requires LoopEnabled(s, AdoptThenFail(n)) && i < n
    ensures i in LoopStep(s, AdoptThenFail(n)).exposed <==> i in s.exposed || !Safe(s, i)
  {
  }

  /** Adopting a revision and failing exposes exactly those changes up to it that no resync has seen or is on its
      way to see, that are neither queued, being handled nor consumed, and that were drained, came before the
      present stretch, or had not been sent yet. */
  lemma AdoptingExposes(capacity: nat, run: seq<System>, n: nat, position: nat, i: nat)
    requires IsRun(capacity, run) && n < |run| && Enabled(run[n], Loop(AdoptThenFail(position))) && i < position
    ensures var s, s' := run[n], Apply(run[n], Loop(AdoptThenFail(position)));
            i in s'.exposed <==>
              i in s.exposed
              || (!ResyncPending(s) && !(s.consumer.Applying? && i < s.consumer.seen) && s.covered <= i
                  && Note(i) !in s.queue && s.consumer != Consuming(i) && i !in s.consumed
                  && (i in s.discarded || i < s.base || s.front <= i))
  {
    AdoptingExposesUnsafe(run[n], position, i);
    RunIsAccounted(capacity, run, n);
    assert run[n].base <= i < run[n].front ==> Delivered(run[n], i);
  }

  lemma ExposedByStep(s: System, a: Action, i: nat)
    requires Enabled(s, a) && i in Apply(s, a).exposed && i !in s.exposed
    ensures a == Reconcile(GiveUp) || (a.Loop? && a.loop.AdoptThenFail?)
    ensures i < Apply(s, a).front && !Safe(Apply(s, a), i)
  {
    match a
    case Loop(l) => LoopKeepsExposed(s, l);
    case Read(r) => ReaderFrame(s, r);
    case Time(t) => TimerFrame(s, t);
    case _ =>
  }

  /** Nothing else exposes a change. */
  lemma {:induction false} ExposureHasCause(capacity: nat, run: seq<System>, n: nat, i: nat) returns (m: nat, a: Action)
    requires IsRun(capacity, run) && n < |run| && i in run[n].exposed
    ensures m < n && Enabled(run[m], a) && run[m + 1] == Apply(run[m], a)
    ensures a == Reconcile(GiveUp) || (a.Loop? && a.loop.AdoptThenFail?)
    ensures i < run[m + 1].front && !Safe(run[m + 1], i)
    ensures forall k :: m < k <= n ==> i in run[k].exposed
  {
    a := StepTaken(capacity, run, n);
    if i in run[n - 1].exposed {
      m, a := ExposureHasCause(capacity, run, n - 1, i);
    } else {
      ExposedByStep(run[n - 1], a, i);
      m := n - 1;
    }
  }

  // ---- Order ----

  function NotesOf(messages: seq<Message>): seq<nat> {
    if messages == [] then []
    else
      var init, last := NotesOf(messages[..|messages| - 1]), messages[|messages| - 1];
      if last.Note? then init + [last.index] else init
  }

  function Stretch(from: nat, to: nat): seq<nat>
    requires from <= to
  {
    seq(to - from, k requires 0 <= k < to - from => from + k)
  }

  /** The notifications sent since the present stretch began are those from its base up to the front. */
  ghost predicate Contiguous(s: System) {
    s.mark <= |s.sent| && s.base <= s.front && NotesOf(s.sent[s.mark..]) == Stretch(s.base, s.front)
  }

  /** The queue is the last of what was sent, in the same order. */
  ghost predicate FirstInFirstOut(s: System) {
    |s.queue| <= |s.sent| && s.queue == s.sent[|s.sent| - |s.queue|..]
  }

  lemma SendExtends(s: System, m: Message)
    requires Contiguous(s) && m == Note(s.front)
    ensures NotesOf((s.sent + [m])[s.mark..]) == Stretch(s.base, s.front + 1)
  {
    var part, longer := s.sent[s.mark..], (s.sent + [m])[s.mark..];
    assert longer == part + [m] && longer[..|longer| - 1] == part;
  }

  lemma ResyncDoesNotExtend(s: System)
    requires s.mark <= |s.sent|
    ensures NotesOf((s.sent + [ResyncMessage])[s.mark..]) == NotesOf(s.sent[s.mark..])
  {
    var part, longer := s.sent[s.mark..], (s.sent + [ResyncMessage])[s.mark..];
    assert longer == part + [ResyncMessage] && longer[..|longer| - 1] == part;
  }

  /** Nothing is sent and no stretch begins. */
  predicate SameStretch(s: System, s': System) {
    s'.sent == s.sent && s'.mark == s.mark && s'.base == s.base && s'.front == s.front
  }

  predicate BeginsStretch(s': System) {
    s'.mark == |s'.sent| && s'.base == s'.front
  }

  lemma SameStretchIsContiguous(s: System, s': System)
    requires Contiguous(s) && SameStretch(s, s')
    ensures Contiguous(s')
  {
  }

  lemma LoopKeepsContiguous(s: System, l: LoopAction)
    requires Contiguous(s) && LoopEnabled(s, l)
    ensures Contiguous(LoopStep(s, l))
  {
    var s' := LoopStep(s, l);
    assert SameStretch(s, s') || BeginsStretch(s');
    if SameStretch(s, s') {
      SameStretchIsContiguous(s, s');
    }
  }

  lemma ReaderKeepsContiguous(s: System, r: ReaderAction)
    requires InStep(s) && Contiguous(s) && ReaderEnabled(s, r)
    ensures Contiguous(ReaderStep(s, r))
  {
    if r == Enqueue {
      SendExtends(s, Note(s.front));
    } else {
      SameStretchIsContiguous(s, ReaderStep(s, r));
    }
  }

  lemma TimerKeepsContiguous(s: System, t: TimerAction)
    requires Contiguous(s) && TimerEnabled(s, t)
    ensures Contiguous(TimerStep(s, t))
  {
    if t == SendResync {
      ResyncDoesNotExtend(s);
    } else {
      SameStretchIsContiguous(s, TimerStep(s, t));
    }
  }

  lemma StepKeepsContiguous(s: System, a: Action)
    requires InStep(s) && Contiguous(s) && Enabled(s, a)
    ensures Contiguous(Apply(s, a))
  {
    match a
    case Loop(l) => LoopKeepsContiguous(s, l);
    case Read(r) => ReaderKeepsContiguous(s, r);
    case Time(t) => TimerKeepsContiguous(s, t);
    case Reconcile(r) =>
      ReconcilerFrame(s, r);
      SameStretchIsContiguous(s, ReconcilerStep(s, r));
    case _ => SameStretchIsContiguous(s, Apply(s, a));
  }

  /** A step adds a message at the end of the queue, takes one from its head, or leaves it alone. */
  ghost predicate MovesQueue(s: System, s': System) {
    || (s'.queue == s.queue && s'.sent == s.sent)
    || (s.queue != [] && s'.queue == s.queue[1..] && s'.sent == s.sent)
    || (exists m :: s'.queue == s.queue + [m] && s'.sent == s.sent + [m])
  }

  lemma ReconcilerMovesQueue(s: System, r: ReconcilerAction)
    requires ReconcilerEnabled(s, r)
    ensures MovesQueue(s, ReconcilerStep(s, r))
  {
  }

  lemma QueueMoves(s: System, a: Action)
    requires Enabled(s, a)
    ensures MovesQueue(s, Apply(s, a))
  {
    match a
    case Loop(l) => LoopFrame(s, l);
    case Read(r) => assert r == Enqueue ==> ReaderStep(s, r).queue == s.queue + [Note(s.reader.index)];
    case Time(t) => assert t == SendResync ==> TimerStep(s, t).queue == s.queue + [ResyncMessage];
    case Reconcile(r) => ReconcilerMovesQueue(s, r);
    case _ =>
  }

  lemma MovedQueueKeepsOrder(s: System, s': System)
    requires FirstInFirstOut(s) && MovesQueue(s, s')
    ensures FirstInFirstOut(s') && s.sent <= s'.sent
  {
  }

  lemma StepKeepsOrder(s: System, a: Action)
    requires FirstInFirstOut(s) && Enabled(s, a)
    ensures FirstInFirstOut(Apply(s, a)) && s.sent <= Apply(s, a).sent
  {
    QueueMoves(s, a);
    MovedQueueKeepsOrder(s, Apply(s, a));
  }

  lemma {:induction false} RunIsOrdered(capacity: nat, run: seq<System>, n: nat)
    requires IsRun(capacity, run) && n < |run|
    ensures Contiguous(run[n]) && FirstInFirstOut(run[n])
  {
    if n > 0 {
      RunIsOrdered(capacity, run, n - 1);
      RunIsInStep(capacity, run, n - 1);
      var a := StepTaken(capacity, run, n);
      StepKeepsContiguous(run[n - 1], a);
      StepKeepsOrder(run[n - 1], a);
    }
  }

  lemma NextSendsMore(capacity: nat, run: seq<System>, n: nat)
    requires IsRun(capacity, run) && n + 1 < |run|
    ensures run[n].sent <= run[n + 1].sent
  {
    RunIsOrdered(capacity, run, n);
    var a := StepTaken(capacity, run, n + 1);
    StepKeepsOrder(run[n], a);
  }

  lemma {:induction false} PrefixChain(lists: seq<seq<Message>>, m: nat, n: nat)
    requires m <= n < |lists|
    requires forall k :: 0 <= k < |lists| - 1 ==> lists[k] <= lists[k + 1]
    ensures lists[m] <= lists[n]
    decreases n - m
  {
    if m < n {
      PrefixChain(lists, m, n - 1);
      assert lists[n - 1] <= lists[n - 1 + 1];
    }
  }

  lemma SentOnlyGrows(capacity: nat, run: seq<System>, m: nat, n: nat)
    requires IsRun(capacity, run) && m <= n < |run|
    ensures run[m].sent <= run[n].sent
  {
    var lists := seq(|run|, k requires 0 <= k < |run| => run[k].sent);
    forall k | 0 <= k < |lists| - 1 ensures lists[k] <= lists[k + 1] {
      NextSendsMore(capacity, run, k);
    }
    PrefixChain(lists, m, n);
  }

  lemma {:induction false} NotesOfConcat(a: seq<Message>, b: seq<Message>)
    ensures NotesOf(a + b) == NotesOf(a) + NotesOf(b)
    decreases |b|
  {
    if b == [] {
      assert a + b == a;
    } else {
      var k := |b| - 1;
      NotesOfConcat(a, b[..k]);
      assert (a + b)[..|a + b| - 1] == a + b[..k] && (a + b)[|a + b| - 1] == b[k];
    }
  }

  /** Over any number of reconnects within one stretch, what goes into the queue is exactly the next stretch of SM's
      log: no gap, no repetition, in order. */
  lemma ForwardingIsContiguous(capacity: nat, run: seq<System>, m: nat, n: nat)
    requires IsRun(capacity, run) && m <= n < |run|
    requires run[m].mark == run[n].mark && run[m].base == run[n].base
    ensures run[m].sent <= run[n].sent && run[m].front <= run[n].front <= |run[n].log|
    ensures NotesOf(run[n].sent[|run[m].sent|..]) == Stretch(run[m].front, run[n].front)
  {
    SentOnlyGrows(capacity, run, m, n);
    RunIsInStep(capacity, run, n);
    RunIsOrdered(capacity, run, m);
    RunIsOrdered(capacity, run, n);
    ForwardedSince(run[m], run[n]);
  }

  lemma RestOfStretch(a: nat, b: nat, c: nat)
    requires a <= b <= c
    ensures Stretch(a, c)[b - a..] == Stretch(b, c)
  {
  }

  lemma ForwardedSince(s: System, s': System)
    requires s.sent <= s'.sent && s.mark == s'.mark && s.base == s'.base && Contiguous(s) && Contiguous(s')
    ensures s.front <= s'.front && NotesOf(s'.sent[|s.sent|..]) == Stretch(s.front, s'.front)
  {
    var first, more := s.sent[s.mark..], s'.sent[|s.sent|..];
    assert s'.sent[s'.mark..] == first + more;
    NotesOfConcat(first, more);
    RestOfStretch(s.base, s.front, s'.front);
    assert (NotesOf(first) + NotesOf(more))[|NotesOf(first)|..] == NotesOf(more);
  }

  // ---- What the code does not give ----

  lemma Extend(capacity: nat, run: seq<System>, a: Action) returns (longer: seq<System>)
    requires IsRun(capacity, run) && Enabled(Back(run), a)
    ensures IsRun(capacity, longer) && Back(longer) == Apply(Back(run), a)
    ensures run <= longer && |longer| == |run| + 1
  {
    longer := run + [Apply(Back(run), a)];
    forall n | 0 <= n < |longer| - 1 ensures Step(longer[n], longer[n + 1]) {
      if n < |run| - 1 {
        assert Step(run[n], run[n + 1]);
      } else {
        assert longer[n + 1] == Apply(longer[n], a);
      }
    }
  }

  lemma AppendAll(capacity: nat, log: seq<int>) returns (run: seq<System>)
    requires IncreasingLog(log)
    ensures IsRun(capacity, run) && Back(run) == Init(capacity).(log := log)
  {
    run := [Init(capacity)];
    for n := 0 to |log|
      invariant IsRun(capacity, run) && Back(run) == Init(capacity).(log := log[..n])
    {
      run := Extend(capacity, run, Append(log[n]));
      assert log[..n] + [log[n]] == log[..n + 1];
    }
    assert log[..|log|] == log;
  }

  /** The program follows all of SM's log, and nothing of it is safe. */
  ghost predicate AllLost(s: System, log: seq<int>) {
    && s.log == log && log != [] && s.last == Some(log[|log| - 1]) && s.loop == Streaming && !s.cancelled
    && forall i: nat :: i < |log| ==> !Safe(s, i)
  }

  /** Whatever SM's log: if the first connection attempt adopts the revision of the last change and then fails, the
      next one succeeds without a resync, and all the changes are lost on the platform. */
  lemma AdoptThenFailLosesUpdates(capacity: nat, log: seq<int>) returns (run: seq<System>)
    requires IncreasingLog(log) && log != []
    ensures IsRun(capacity, run) && AllLost(Back(run), log)
  {
    run := AppendAll(capacity, log);
    run := Extend(capacity, run, Loop(AdoptThenFail(|log|)));
    run := Extend(capacity, run, Loop(Connect(|log|, false)));
  }

  /** A connection that starts with all of SM's log behind it, and its resync in the reconciler's hands. */
  lemma ConnectAndResync(capacity: nat, log: seq<int>) returns (run: seq<System>)
    requires IncreasingLog(log) && log != []
    ensures IsRun(capacity, run)
    ensures var s := Back(run);
            && s.log == log && s.last == Some(log[|log| - 1]) && s.loop == Streaming && !s.cancelled
            && s.consumer == Draining && s.queue == [] && s.timer == Waiting && s.consumed == {} && s.covered == 0
  {
    run := AppendAll(capacity, log);
    run := Extend(capacity, run, Loop(Connect(|log|, true)));
    run := Extend(capacity, run, Loop(HandOver));
    run := Extend(capacity, run, Time(SendResync));
    assert Back(run).queue == [ResyncMessage];
    run := Extend(capacity, run, Reconcile(TakeResync));
  }

  /** The same when the resync that the first connection asks for is given up. */
  lemma GivenUpResyncLosesUpdates(capacity: nat, log: seq<int>) returns (run: seq<System>)
    requires IncreasingLog(log) && log != []
    ensures IsRun(capacity, run) && AllLost(Back(run), log)
  {
    run := ConnectAndResync(capacity, log);
    run := Extend(capacity, run, Reconcile(DrainEnd));
    run := Extend(capacity, run, Reconcile(GiveUp));
  }

  /** The first message in the queue need not be a resync: the reader may be faster than the timer. */
  lemma FirstMessageMayBeNotification(capacity: nat, revision: int) returns (run: seq<System>)
    requires revision > 0
    ensures IsRun(capacity, run) && Back(run).sent == [Note(0)]
  {
    run := [Init(capacity)];
    run := Extend(capacity, run, Loop(Connect(0, false)));
    run := Extend(capacity, run, Loop(HandOver));
    run := Extend(capacity, run, Append(revision));
    run := Extend(capacity, run, Read(Receive));
    run := Extend(capacity, run, Read(Enqueue));
  }

  predicate Stuck(s: System) {
    s.loop == HandingOver && s.timer == TimerStopped
  }

  /** The loop waits for a timer goroutine that has stopped, or that cannot do anything but stop: it waits itself,
      for room in a queue that nobody empties any more. */
  predicate Doomed(s: System) {
    && s.loop == HandingOver
    && (s.timer == TimerStopped || (s.timer == Sending && s.consumer == ConsumerStopped && |s.queue| >= s.capacity))
  }

  /** The request for a resync does not watch the context: if the timer goroutine stops first, the loop hangs. */
  lemma ShutdownCanHang(capacity: nat) returns (run: seq<System>)
    ensures IsRun(capacity, run) && Stuck(Back(run)) && InStep(Back(run))
  {
    run := [Init(capacity)];
    run := Extend(capacity, run, Loop(Connect(0, false)));
    run := Extend(capacity, run, Cancel);
    run := Extend(capacity, run, Time(StopTimer));
    RunIsInStep(capacity, run, |run| - 1);
  }

  /** And no step of anyone gets it on. */
  lemma StuckForGood(s: System, a: Action)
    requires InStep(s) && Enabled(s, a)
    ensures Stuck(s) ==> Stuck(Apply(s, a))
    ensures Doomed(s) ==> Doomed(Apply(s, a))
  {
    match a
    case Read(r) => assert s.loop == HandingOver ==> r == PingerEnds;
    case Time(t) => TimerFrame(s, t);
    case Reconcile(r) => ReconcilerFrame(s, r);
    case _ =>
  }
}
