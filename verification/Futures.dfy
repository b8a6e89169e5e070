/** What a run of the Pipeline can still come to: whether the connection loop can stop, and whether the first
    message in the queue is going to be a resync. */
module Futures {
  import opened Types
  import opened Pipeline

  /** `longer` goes on from where `run` has come to. */
  ghost predicate Continues(capacity: nat, run: seq<System>, longer: seq<System>) {
    IsRun(capacity, longer) && run <= longer
  }

  lemma StepsTo(capacity: nat, run: seq<System>, a: Action) returns (longer: seq<System>)
    requires IsRun(capacity, run) && Enabled(Back(run), a)
    ensures Continues(capacity, run, longer) && Back(longer) == Apply(Back(run), a)
    ensures InStep(Back(longer)) && IncreasingLog(Back(longer).log)
  {
    longer := Extend(capacity, run, a);
    RunIsInStep(capacity, longer, |longer| - 1);
  }

  // ---- Stopping ----

  /** What the reconciler does by itself leaves the others as they are. */
  predicate OnlyReconciled(s: System, s': System) {
    && s'.loop == s.loop && s'.timer == s.timer && s'.cancelled == s.cancelled && s'.reader == s.reader
    && s'.capacity == s.capacity
  }

  /** The reconciler finishes what it is at, giving up a resync if there is one. */
  lemma FinishWork(capacity: nat, run: seq<System>) returns (longer: seq<System>)
    requires IsRun(capacity, run) && Back(run).consumer != ConsumerStopped
    ensures Continues(capacity, run, longer) && OnlyReconciled(Back(run), Back(longer))
    ensures Back(longer).consumer == Ready && |Back(longer).queue| <= |Back(run).queue|
  {
    longer := run;
    if Back(longer).consumer == Draining {
      longer := DrainAll(capacity, longer);
    }
    if Back(longer).consumer == Resyncing || Back(longer).consumer.Applying? {
      longer := StepsTo(capacity, longer, Reconcile(GiveUp));
    } else if Back(longer).consumer.Consuming? {
      longer := StepsTo(capacity, longer, Reconcile(EndConsume));
    }
  }

  lemma {:induction false} DrainAll(capacity: nat, run: seq<System>) returns (longer: seq<System>)
    requires IsRun(capacity, run) && Back(run).consumer == Draining
    ensures Continues(capacity, run, longer) && OnlyReconciled(Back(run), Back(longer))
    ensures Back(longer).consumer == Resyncing && Back(longer).queue == []
    decreases |Back(run).queue|
  {
    if Back(run).queue == [] {
      longer := StepsTo(capacity, run, Reconcile(DrainEnd));
    } else {
      var next := StepsTo(capacity, run, Reconcile(DrainOne));
      longer := DrainAll(capacity, next);
    }
  }

  /** As long as it has not stopped, the reconciler can empty the queue. */
  lemma {:induction false} EmptyQueue(capacity: nat, run: seq<System>) returns (longer: seq<System>)
    requires IsRun(capacity, run) && Back(run).consumer != ConsumerStopped
    ensures Continues(capacity, run, longer) && OnlyReconciled(Back(run), Back(longer))
    ensures Back(longer).consumer == Ready && Back(longer).queue == []
    decreases |Back(run).queue|
  {
    longer := FinishWork(capacity, run);
    if Back(longer).queue != [] {
      var a := if Back(longer).queue[0] == ResyncMessage then TakeResync else TakeNote;
      longer := StepsTo(capacity, longer, Reconcile(a));
      longer := EmptyQueue(capacity, longer);
    }
  }

  /** At every point of every run a connection can be ended, whatever the queue: the pinger goes, which tells the
      reader to go too, and the loop closes the connection. */
  lemma EndConnection(capacity: nat, run: seq<System>) returns (longer: seq<System>)
    requires IsRun(capacity, run) && Back(run).loop == Streaming
    ensures Continues(capacity, run, longer) && Back(longer).loop == Idle
            && Back(longer).cancelled == Back(run).cancelled
    ensures Back(longer).sent == Back(run).sent && Back(longer).consumer == Back(run).consumer
    ensures Back(longer).capacity == Back(run).capacity
  {
    RunIsInStep(capacity, run, |run| - 1);
    longer := run;
    if Back(longer).pinging {
      longer := StepsTo(capacity, longer, Read(PingerEnds));
    }
    longer := StepsTo(capacity, longer, Loop(CancelChildren));
    longer := EndReader(capacity, longer);
    longer := StepsTo(capacity, longer, Loop(Close));
  }

  /** What the reader does once its context is cancelled. */
  predicate OnlyRead(s: System, s': System) {
    && s'.loop == s.loop && s'.sent == s.sent && s'.consumer == s.consumer && s'.cancelled == s.cancelled
    && s'.capacity == s.capacity && s'.pinging == s.pinging && s'.childrenCancelled == s.childrenCancelled
  }

  lemma EndReader(capacity: nat, run: seq<System>) returns (longer: seq<System>)
    requires IsRun(capacity, run) && Back(run).loop == Streaming && Back(run).childrenCancelled
    ensures Continues(capacity, run, longer) && Back(longer).reader == Off && OnlyRead(Back(run), Back(longer))
  {
    RunIsInStep(capacity, run, |run| - 1);
    longer := run;
    if Back(longer).reader.Enqueued? {
      longer := StepsTo(capacity, longer, Read(Advance));
    }
    if Back(longer).reader.Got? {
      longer := StepsTo(capacity, longer, Read(Drop));
    } else if Back(longer).reader == Reading {
      longer := StepsTo(capacity, longer, Read(ReaderFails));
    }
  }

  /** The request for a resync can be handed over unless the loop is doomed. */
  lemma HandItOver(capacity: nat, run: seq<System>) returns (longer: seq<System>)
    requires IsRun(capacity, run) && Back(run).loop == HandingOver && !Doomed(Back(run))
    ensures Continues(capacity, run, longer) && Back(longer).loop == Streaming && Back(longer).reader == Reading
    ensures Back(longer).cancelled == Back(run).cancelled
  {
    longer := run;
    if Back(longer).timer == Sending {
      if |Back(longer).queue| >= Back(longer).capacity {
        longer := EmptyQueue(capacity, longer);
      }
      longer := StepsTo(capacity, longer, Time(SendResync));
    }
    longer := StepsTo(capacity, longer, Loop(HandOver));
  }

  lemma Stops(capacity: nat, run: seq<System>) returns (longer: seq<System>)
    requires IsRun(capacity, run) && Back(run).cancelled && !Doomed(Back(run))
    ensures Continues(capacity, run, longer) && Back(longer).loop == LoopStopped && Back(longer).cancelled
  {
    longer := run;
    if Back(longer).loop == HandingOver {
      longer := HandItOver(capacity, longer);
    }
    if Back(longer).loop == Streaming {
      longer := EndConnection(capacity, longer);
    }
    if Back(longer).loop == Idle {
      longer := StepsTo(capacity, longer, Loop(StopLoop));
    }
  }

  lemma {:induction false} StaysTrue(flags: seq<bool>, m: nat, n: nat)
    requires m <= n < |flags| && flags[m] && forall k :: 0 <= k < |flags| - 1 && flags[k] ==> flags[k + 1]
    ensures flags[n]
    decreases n - m
  {
    if m < n {
      StaysTrue(flags, m, n - 1);
      assert flags[n - 1] ==> flags[n - 1 + 1];
    }
  }

  lemma DoomedStays(capacity: nat, longer: seq<System>, m: nat)
    requires IsRun(capacity, longer) && m < |longer| && Doomed(longer[m])
    ensures Doomed(Back(longer))
  {
    var flags := seq(|longer|, k requires 0 <= k < |longer| => Doomed(longer[k]));
    forall k | 0 <= k < |flags| - 1 && flags[k] ensures flags[k + 1] {
      NextIsDoomed(capacity, longer, k);
    }
    StaysTrue(flags, m, |flags| - 1);
  }

  lemma NextIsDoomed(capacity: nat, run: seq<System>, n: nat)
    requires IsRun(capacity, run) && n < |run| - 1 && Doomed(run[n])
    ensures Doomed(run[n + 1])
  {
    RunIsInStep(capacity, run, n);
    DoomedStep(run[n], run[n + 1]);
  }

  lemma DoomedStep(s: System, s': System)
    requires Step(s, s') && InStep(s) && Doomed(s)
    ensures Doomed(s')
  {
    var a :| Enabled(s, a) && s' == Apply(s, a);
    StuckForGood(s, a);
  }

  ghost predicate CanStop(capacity: nat, run: seq<System>) {
    exists longer :: Continues(capacity, run, longer) && Back(longer).loop == LoopStopped
  }

  predicate AllStopped(s: System) {
    s.loop == LoopStopped && s.timer == TimerStopped && s.consumer == ConsumerStopped
  }

  /** The loop, the timer and the reconciler can all come to their ends. */
  ghost predicate CanEnd(capacity: nat, run: seq<System>) {
    exists longer :: Continues(capacity, run, longer) && AllStopped(Back(longer))
  }

  /** After the program was told to stop, at any point of any run, the connection loop can still stop, and with it
      the timer and the reconciler, if and only if it is not doomed. */
  lemma CanStopUnlessDoomed(capacity: nat, run: seq<System>)
    requires IsRun(capacity, run) && Back(run).cancelled
    ensures CanStop(capacity, run) <==> !Doomed(Back(run))
    ensures CanEnd(capacity, run) <==> !Doomed(Back(run))
  {
    if Doomed(Back(run)) {
      forall longer | Continues(capacity, run, longer) ensures Back(longer).loop != LoopStopped {
        assert longer[|run| - 1] == Back(run);
        DoomedStays(capacity, longer, |run| - 1);
      }
    } else {
      var longer := Stops(capacity, run);
      longer := OthersStop(capacity, longer);
    }
  }

  lemma OthersStop(capacity: nat, run: seq<System>) returns (longer: seq<System>)
    requires IsRun(capacity, run) && Back(run).cancelled && Back(run).loop == LoopStopped
    ensures Continues(capacity, run, longer) && AllStopped(Back(longer))
  {
    longer := run;
    if Back(longer).consumer != ConsumerStopped {
      longer := FinishWork(capacity, longer);
      longer := StepsTo(capacity, longer, Reconcile(StopConsumer));
    }
    if Back(longer).timer != TimerStopped {
      longer := StepsTo(capacity, longer, Time(StopTimer));
    }
  }

  // ---- The next resync ----

  /** Nobody requests a resync any more, or nobody makes room for the request. */
  predicate NoMoreResyncs(s: System) {
    s.timer == TimerStopped || (s.consumer == ConsumerStopped && |s.queue| >= s.capacity)
  }

  predicate SendsResync(s: System, s': System) {
    s'.sent == s.sent + [ResyncMessage]
  }

  lemma LoopSendsNothing(s: System, l: LoopAction)
    requires LoopEnabled(s, l) && NoMoreResyncs(s)
    ensures NoMoreResyncs(LoopStep(s, l)) && !SendsResync(s, LoopStep(s, l))
  {
  }

  lemma ReaderSendsNotes(s: System, r: ReaderAction)
    requires ReaderEnabled(s, r) && NoMoreResyncs(s)
    ensures NoMoreResyncs(ReaderStep(s, r)) && !SendsResync(s, ReaderStep(s, r))
  {
    if r == Enqueue {
      assert Back(ReaderStep(s, r).sent).Note?;
    }
  }

  lemma TimerIsHeld(s: System, t: TimerAction)
    requires TimerEnabled(s, t) && NoMoreResyncs(s)
    ensures NoMoreResyncs(TimerStep(s, t)) && !SendsResync(s, TimerStep(s, t))
  {
  }

  lemma ReconcilerSendsNothing(s: System, r: ReconcilerAction)
    requires ReconcilerEnabled(s, r) && NoMoreResyncs(s)
    ensures NoMoreResyncs(ReconcilerStep(s, r)) && !SendsResync(s, ReconcilerStep(s, r))
  {
  }

  lemma NoMoreResyncsStep(s: System, a: Action)
    requires Enabled(s, a) && NoMoreResyncs(s)
    ensures NoMoreResyncs(Apply(s, a)) && !SendsResync(s, Apply(s, a))
  {
    match a
    case Append(_) =>
    case Cancel =>
    case Loop(l) => LoopSendsNothing(s, l);
    case Read(r) => ReaderSendsNotes(s, r);
    case Time(t) => TimerIsHeld(s, t);
    case Reconcile(r) => ReconcilerSendsNothing(s, r);
  }

  lemma NoMoreResyncsNext(capacity: nat, run: seq<System>, n: nat)
    requires IsRun(capacity, run) && n < |run| - 1 && NoMoreResyncs(run[n])
    ensures NoMoreResyncs(run[n + 1]) && !SendsResync(run[n], run[n + 1])
  {
    var a := StepTaken(capacity, run, n + 1);
    NoMoreResyncsStep(run[n], a);
  }

  lemma NoMoreResyncsStays(capacity: nat, run: seq<System>, m: nat, n: nat)
    requires IsRun(capacity, run) && m <= n < |run| && NoMoreResyncs(run[m])
    ensures NoMoreResyncs(run[n])
  {
    var flags := seq(|run|, k requires 0 <= k < |run| => NoMoreResyncs(run[k]));
    forall k | 0 <= k < |flags| - 1 && flags[k] ensures flags[k + 1] {
      NoMoreResyncsNext(capacity, run, k);
    }
    StaysTrue(flags, m, n);
  }

  /** Some continuation ends with the request for a resync entering the queue. */
  ghost predicate ResyncFollows(capacity: nat, run: seq<System>) {
    exists longer ::
      Continues(capacity, run, longer) && 0 < |run| < |longer| && SendsResync(longer[|longer| - 2], Back(longer))
  }

  /** The timer fires if it waits, and there is room or the reconciler makes some. */
  lemma ResyncCanBeSent(capacity: nat, run: seq<System>) returns (longer: seq<System>)
    requires IsRun(capacity, run) && !NoMoreResyncs(Back(run))
    ensures Continues(capacity, run, longer) && TimerEnabled(Back(longer), SendResync)
  {
    longer := run;
    if Back(longer).consumer != ConsumerStopped && !CanSend(Back(longer)) {
      longer := EmptyQueue(capacity, longer);
    }
    if Back(longer).timer == TimerAt.Waiting {
      longer := StepsTo(capacity, longer, Time(Fire));
    }
  }

  lemma ResyncIsSent(capacity: nat, run: seq<System>) returns (longer: seq<System>)
    requires IsRun(capacity, run) && !NoMoreResyncs(Back(run))
    ensures Continues(capacity, run, longer) && |run| < |longer|
    ensures SendsResync(longer[|longer| - 2], Back(longer))
  {
    var ready := ResyncCanBeSent(capacity, run);
    longer := Extend(capacity, ready, Time(SendResync));
    assert longer[|longer| - 2] == Back(ready);
  }

  lemma NoneFollows(capacity: nat, run: seq<System>, m: nat, n: nat)
    requires IsRun(capacity, run) && m <= n < |run| - 1 && NoMoreResyncs(run[m])
    ensures !SendsResync(run[n], run[n + 1])
  {
    NoMoreResyncsStays(capacity, run, m, n);
    NoMoreResyncsNext(capacity, run, n);
  }

  lemma NotThisOne(capacity: nat, run: seq<System>, longer: seq<System>)
    requires Continues(capacity, run, longer) && 0 < |run| < |longer| && NoMoreResyncs(Back(run))
    ensures !SendsResync(longer[|longer| - 2], Back(longer))
  {
    var m, n := |run| - 1, |longer| - 2;
    assert longer[m] == Back(run);
    NoneFollows(capacity, longer, m, n);
  }

  lemma NothingFollows(capacity: nat, run: seq<System>)
    requires IsRun(capacity, run) && NoMoreResyncs(Back(run))
    ensures !ResyncFollows(capacity, run)
  {
    forall longer | Continues(capacity, run, longer) && 0 < |run| < |longer| {
      NotThisOne(capacity, run, longer);
    }
  }

  /** At every point of every run, told to stop or not, another resync can follow if and only if the timer goroutine
      has not stopped and the queue has room or a reconciler that has not stopped. */
  lemma ResyncFollowsIff(capacity: nat, run: seq<System>)
    requires IsRun(capacity, run)
    ensures ResyncFollows(capacity, run) <==> !NoMoreResyncs(Back(run))
  {
    if NoMoreResyncs(Back(run)) {
      NothingFollows(capacity, run);
    } else {
      var longer := ResyncIsSent(capacity, run);
    }
  }

  // ---- The first message ----

  ghost predicate ResyncFirst(s: System) {
    s.sent == [] || s.sent[0] == ResyncMessage
  }

  /** No notification can be the first message any more: the loop has stopped, or it is waiting behind a request for a
      resync, or nobody takes anything out of a queue without room. */
  predicate Settled(s: System) {
    || s.loop == LoopStopped || (s.loop == HandingOver && s.timer != Waiting)
    || (s.capacity == 0 && s.consumer == ConsumerStopped)
  }

  /** While nothing has been sent there is nothing to work on. */
  predicate Untouched(s: System) {
    s.sent == [] ==> s.queue == [] && (s.consumer == Ready || s.consumer == ConsumerStopped)
  }

  lemma ReconcilerKeepsUntouched(s: System, r: ReconcilerAction)
    requires Untouched(s) && ReconcilerEnabled(s, r)
    ensures Untouched(ReconcilerStep(s, r))
  {
    ReconcilerFrame(s, r);
  }

  lemma StepKeepsUntouched(s: System, a: Action)
    requires Untouched(s) && Enabled(s, a)
    ensures Untouched(Apply(s, a))
  {
    match a
    case Loop(l) => LoopFrame(s, l);
    case Read(r) => ReaderFrame(s, r);
    case Time(t) => TimerFrame(s, t);
    case Reconcile(r) => ReconcilerKeepsUntouched(s, r);
    case _ =>
  }

  lemma {:induction false} RunIsUntouched(capacity: nat, run: seq<System>, n: nat)
    requires IsRun(capacity, run) && n < |run|
    ensures Untouched(run[n])
  {
    if n > 0 {
      RunIsUntouched(capacity, run, n - 1);
      var a := StepTaken(capacity, run, n);
      StepKeepsUntouched(run[n - 1], a);
    }
  }

  /** Either nothing has been sent and that is settled, or a resync was sent first. */
  predicate ResyncOrNothing(s: System) {
    if s.sent == [] then Settled(s) else s.sent[0] == ResyncMessage
  }

  lemma SettledLoopStep(s: System, l: LoopAction)
    requires Settled(s) && s.sent == [] && LoopEnabled(s, l)
    ensures ResyncOrNothing(LoopStep(s, l))
  {
    LoopFrame(s, l);
  }

  lemma SettledReaderStep(s: System, r: ReaderAction)
    requires InStep(s) && Untouched(s) && Settled(s) && s.sent == [] && ReaderEnabled(s, r)
    ensures ResyncOrNothing(ReaderStep(s, r))
  {
    assert r != Enqueue;
  }

  lemma SettledTimerStep(s: System, t: TimerAction)
    requires Settled(s) && s.sent == [] && TimerEnabled(s, t)
    ensures ResyncOrNothing(TimerStep(s, t))
  {
  }

  lemma SettledStep(s: System, a: Action)
    requires InStep(s) && Untouched(s) && Settled(s) && s.sent == [] && Enabled(s, a)
    ensures ResyncOrNothing(Apply(s, a))
  {
    match a
    case Loop(l) => SettledLoopStep(s, l);
    case Read(r) => SettledReaderStep(s, r);
    case Time(t) => SettledTimerStep(s, t);
    case Reconcile(r) => ReconcilerFrame(s, r);
    case _ =>
  }

  lemma StepKeepsResyncOrNothing(s: System, s': System)
    requires Step(s, s') && InStep(s) && Untouched(s) && FirstInFirstOut(s) && ResyncOrNothing(s)
    ensures ResyncOrNothing(s')
  {
    var a :| Enabled(s, a) && s' == Apply(s, a);
    if s.sent == [] {
      SettledStep(s, a);
    } else {
      StepKeepsOrder(s, a);
    }
  }

  lemma SettledStays(capacity: nat, longer: seq<System>, m: nat)
    requires IsRun(capacity, longer) && m < |longer| && ResyncOrNothing(longer[m])
    ensures ResyncOrNothing(Back(longer))
  {
    var flags := seq(|longer|, k requires 0 <= k < |longer| => ResyncOrNothing(longer[k]));
    forall k | 0 <= k < |flags| - 1 && flags[k] ensures flags[k + 1] {
      RunIsInStep(capacity, longer, k);
      RunIsUntouched(capacity, longer, k);
      RunIsOrdered(capacity, longer, k);
      StepKeepsResyncOrNothing(longer[k], longer[k + 1]);
    }
    StaysTrue(flags, m, |flags| - 1);
  }

  /** A revision above all that SM has given out. */
  lemma NextRevision(log: seq<int>) returns (r: int)
    requires IncreasingLog(log)
    ensures r > 0 && forall i | 0 <= i < |log| :: log[i] < r
  {
    r := if log == [] then 1 else Back(log) + 1;
  }

  lemma AppendOne(capacity: nat, run: seq<System>) returns (longer: seq<System>)
    requires IsRun(capacity, run)
    ensures Continues(capacity, run, longer) && |Back(longer).log| == |Back(run).log| + 1
    ensures Back(longer) == Back(run).(log := Back(longer).log) && InStep(Back(longer))
  {
    RunIsInStep(capacity, run, |run| - 1);
    var r := NextRevision(Back(run).log);
    longer := StepsTo(capacity, run, Append(r));
  }

  /** What the way to a first notification must not change. */
  predicate StillFree(s: System, s': System) {
    s'.sent == s.sent && s'.consumer == s.consumer && s'.capacity == s.capacity
  }

  lemma ConnectKnown(capacity: nat, run: seq<System>) returns (longer: seq<System>)
    requires IsRun(capacity, run) && Back(run).loop == Idle
    ensures Continues(capacity, run, longer) && StillFree(Back(run), Back(longer))
    ensures Back(longer).loop == Streaming && Back(longer).reader == Reading
  {
    longer := AppendOne(capacity, run);
    if Back(longer).last == None {
      longer := StepsTo(capacity, longer, Loop(AdoptThenFail(|Back(longer).log|)));
    }
    longer := StepsTo(capacity, longer, Loop(Connect(Back(longer).front, false)));
  }

  lemma ReachReader(capacity: nat, run: seq<System>) returns (longer: seq<System>)
    requires IsRun(capacity, run) && !Settled(Back(run))
    ensures Continues(capacity, run, longer) && StillFree(Back(run), Back(longer))
    ensures Back(longer).loop == Streaming && (Back(longer).reader == Reading || Back(longer).reader.Got?)
  {
    RunIsInStep(capacity, run, |run| - 1);
    longer := run;
    if Back(longer).loop == HandingOver {
      longer := StepsTo(capacity, longer, Loop(HandOver));
    } else if Back(longer).loop == Idle {
      longer := ConnectKnown(capacity, longer);
    } else if Back(longer).reader == Off {
      longer := EndConnection(capacity, longer);
      longer := ConnectKnown(capacity, longer);
    } else if Back(longer).reader.Enqueued? {
      longer := StepsTo(capacity, longer, Read(Advance));
    }
  }

  lemma NotificationFirst(capacity: nat, run: seq<System>) returns (longer: seq<System>)
    requires IsRun(capacity, run) && !Settled(Back(run)) && Back(run).sent == []
    ensures Continues(capacity, run, longer) && !ResyncFirst(Back(longer))
  {
    longer := ReachReader(capacity, run);
    RunIsInStep(capacity, longer, |longer| - 1);
    if Back(longer).reader == Reading {
      longer := AppendOne(capacity, longer);
      longer := StepsTo(capacity, longer, Read(Receive));
    }
    RunIsUntouched(capacity, longer, |longer| - 1);
    longer := StepsTo(capacity, longer, Read(Enqueue));
  }

  /** At any point of any run at which nothing has been sent yet: a resync will be the first message in every
      continuation that sends one if and only if that is settled. */
  lemma ResyncIsFirstIffSettled(capacity: nat, run: seq<System>)
    requires IsRun(capacity, run) && Back(run).sent == []
    ensures (forall longer :: Continues(capacity, run, longer) ==> ResyncFirst(Back(longer))) <==> Settled(Back(run))
  {
    if Settled(Back(run)) {
      forall longer | Continues(capacity, run, longer) ensures ResyncFirst(Back(longer)) {
        assert longer[|run| - 1] == Back(run);
        SettledStays(capacity, longer, |run| - 1);
      }
    } else {
      var longer := NotificationFirst(capacity, run);
    }
  }
}
