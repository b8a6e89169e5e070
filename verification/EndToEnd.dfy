/** From SM's log to the platform: a run of the Pipeline together with the registrations and the rights on the platform.
    Whatever happened before, and however connections, notifications, periodic resyncs and their drains interleave
    from then on, once a resync is on its way the platform ends with exactly the proxies and rights that SM wants
    whenever everything has been worked off. */
module EndToEnd {
  import opened Types
  import opened Pipeline
  import opened Stories
  import Futures

  // ---- The platform along a run ----

  /** The handler of a notification succeeds, and a finished resync establishes what SM wanted when it looked;
      nothing else touches the platform. No resync is given up, and no connection attempt fails after it adopted a
      revision. */
  ghost predicate Acts(w: Story, s: System, a: Action, before: Platform, after: Platform) {
    match a
    case Reconcile(EndConsume) => s.consumer.Consuming? && Consumed(w, s.consumer.index, before, after)
    case Reconcile(EndResync) => s.consumer.Applying? && ResyncedTo(w, s.consumer.seen, after)
    case Reconcile(GiveUp) => false
    case Loop(AdoptThenFail(_)) => false
    case _ => after == before
  }

  ghost predicate ActsTo(w: Story, s: System, s': System, before: Platform, after: Platform) {
    exists a :: Enabled(s, a) && s' == Apply(s, a) && Acts(w, s, a, before, after)
  }

  /** From step `m` of the run on. */
  ghost predicate GoesWell(w: Story, run: seq<System>, platform: seq<Platform>, m: nat) {
    && |platform| == |run|
    && forall n :: m <= n < |run| - 1 ==> ActsTo(w, run[n], run[n + 1], platform[n], platform[n + 1])
  }

  // ---- The invariant ----

  /** A resync is on its way that will empty the queue first. */
  predicate Waits(s: System) {
    s.loop == HandingOver || s.timer == Sending || ResyncMessage in s.queue || s.consumer == Draining
  }

  /** The queue holds the last notifications before the front, all of them and in order. */
  predicate IsTail(queue: seq<Message>, front: nat) {
    |queue| <= front && forall j | 0 <= j < |queue| :: queue[j] == Note(front - |queue| + j)
  }

  ghost predicate InHand(w: Story, s: System, p: Platform) {
    && IsTail(s.queue, s.front)
    && match s.consumer
       case Resyncing => true
       case Applying(seen) => s.front - |s.queue| <= seen
       case Ready => Reached(w, s.front - |s.queue|, s.covered, p)
       case Consuming(i) => i + 1 == s.front - |s.queue| && Reached(w, i, s.covered, p)
       case _ => false
  }

  ghost predicate Agrees(w: Story, s: System, p: Platform) {
    s.cancelled || Waits(s) || InHand(w, s, p)
  }

  // ---- Steps while a resync is on its way ----

  lemma LoopWaits(s: System, l: LoopAction)
    requires Waits(s) && LoopEnabled(s, l)
    ensures Waits(LoopStep(s, l))
  {
    LoopFrame(s, l);
  }

  lemma ReaderWaits(s: System, r: ReaderAction)
    requires Waits(s) && ReaderEnabled(s, r)
    ensures Waits(ReaderStep(s, r))
  {
    ReaderFrame(s, r);
    ReaderOnlyAdds(s, r);
    MemberStays(s.queue, ReaderStep(s, r).queue);
  }

  lemma MemberStays(q: seq<Message>, q': seq<Message>)
    requires q <= q'
    ensures ResyncMessage in q ==> ResyncMessage in q'
  {
    assert forall j :: 0 <= j < |q| ==> q'[j] == q[j];
  }

  lemma TimerWaits(s: System, t: TimerAction)
    requires Waits(s) && TimerEnabled(s, t) && !s.cancelled
    ensures Waits(TimerStep(s, t))
  {
    TimerFrame(s, t);
    if t == SendResync {
      assert TimerStep(s, t).queue[|s.queue|] == ResyncMessage;
    }
  }

  lemma ReconcilerWaits(s: System, r: ReconcilerAction)
    requires Waits(s) && ReconcilerEnabled(s, r)
    ensures Waits(ReconcilerStep(s, r)) || (r == DrainEnd && ReconcilerStep(s, r).queue == [])
  {
    ReconcilerFrame(s, r);
    if r == TakeNote {
      assert s.queue == [s.queue[0]] + s.queue[1..];
    }
  }

  lemma StepWaits(w: Story, s: System, a: Action, p: Platform)
    requires Waits(s) && Enabled(s, a) && !s.cancelled
    ensures Waits(Apply(s, a)) || InHand(w, Apply(s, a), p)
  {
    match a
    case Loop(l) => LoopWaits(s, l);
    case Read(r) => ReaderWaits(s, r);
    case Time(t) => TimerWaits(s, t);
    case Reconcile(r) => ReconcilerWaits(s, r);
    case _ =>
  }

  // ---- Steps otherwise ----

  lemma SameInHand(w: Story, s: System, s': System, p: Platform)
    requires InHand(w, s, p)
    requires s'.queue == s.queue && s'.front == s.front && s'.consumer == s.consumer && s'.covered == s.covered
    ensures InHand(w, s', p)
  {
  }

  lemma LoopInHand(w: Story, s: System, l: LoopAction, p: Platform)
    requires InHand(w, s, p) && LoopEnabled(s, l) && !l.AdoptThenFail?
    ensures Waits(LoopStep(s, l)) || InHand(w, LoopStep(s, l), p)
  {
    LoopFrame(s, l);
    if !(l.Connect? && s.last == None) {
      LoopCountedBefore(s, l);
      SameInHand(w, s, LoopStep(s, l), p);
    }
  }

  lemma TailGrows(queue: seq<Message>, front: nat)
    requires IsTail(queue, front)
    ensures IsTail(queue + [Note(front)], front + 1)
  {
  }

  lemma ReaderInHand(w: Story, s: System, r: ReaderAction, p: Platform)
    requires InHand(w, s, p) && InStep(s) && ReaderEnabled(s, r)
    ensures InHand(w, ReaderStep(s, r), p)
  {
    ReaderFrame(s, r);
    if r == Enqueue {
      TailGrows(s.queue, s.front);
    } else {
      SameInHand(w, s, ReaderStep(s, r), p);
    }
  }

  lemma TimerInHand(w: Story, s: System, t: TimerAction, p: Platform)
    requires InHand(w, s, p) && TimerEnabled(s, t) && !s.cancelled && !Waits(s)
    ensures Waits(TimerStep(s, t))
  {
  }

  lemma TailShrinks(queue: seq<Message>, front: nat)
    requires IsTail(queue, front) && queue != []
    ensures queue[0] == Note(front - |queue|) && IsTail(queue[1..], front)
  {
  }

  lemma TakenInHand(w: Story, s: System, r: ReconcilerAction, p: Platform)
    requires InHand(w, s, p) && InStep(s) && ReconcilerEnabled(s, r) && !s.cancelled && !Waits(s)
    requires r != GiveUp && r != EndConsume && r != EndResync
    ensures InHand(w, ReconcilerStep(s, r), p)
  {
    if s.queue != [] {
      TailShrinks(s.queue, s.front);
    }
  }

  lemma ConsumedInHand(w: Story, s: System, p: Platform, p': Platform)
    requires IsStory(w) && InHand(w, s, p) && s.consumer.Consuming? && Consumed(w, s.consumer.index, p, p')
    ensures InHand(w, ReconcilerStep(s, EndConsume), p')
  {
    EntryGoesOn(w, s.consumer.index, s.covered, p, p');
  }

  lemma ResyncedInHand(w: Story, s: System, p: Platform, p': Platform)
    requires IsStory(w) && InHand(w, s, p) && s.consumer.Applying? && ResyncedTo(w, s.consumer.seen, p')
    ensures InHand(w, ReconcilerStep(s, EndResync), p')
  {
    ReplayBegins(w, s.front - |s.queue|, s.consumer.seen, ReconcilerStep(s, EndResync).covered, p');
  }

  lemma StepInHand(w: Story, s: System, a: Action, p: Platform, p': Platform)
    requires IsStory(w) && InHand(w, s, p) && InStep(s) && !s.cancelled && !Waits(s) && Enabled(s, a)
             && Acts(w, s, a, p, p')
    ensures Agrees(w, Apply(s, a), p')
  {
    match a
    case Loop(l) => LoopInHand(w, s, l, p);
    case Read(r) => ReaderInHand(w, s, r, p);
    case Time(t) => TimerInHand(w, s, t, p);
    case Reconcile(r) =>
      if r == EndConsume {
        ConsumedInHand(w, s, p, p');
      } else if r == EndResync {
        ResyncedInHand(w, s, p, p');
      } else {
        TakenInHand(w, s, r, p);
      }
    case Append(v) => SameInHand(w, s, Apply(s, a), p);
    case Cancel =>
  }

  lemma CancelledStays(s: System, a: Action)
    requires Enabled(s, a) && s.cancelled
    ensures Apply(s, a).cancelled
  {
    match a
    case Loop(l) => LoopFrame(s, l);
    case Read(r) => ReaderFrame(s, r);
    case Time(t) => TimerFrame(s, t);
    case Reconcile(r) => ReconcilerFrame(s, r);
    case _ =>
  }

  lemma StepKeepsAgreement(w: Story, s: System, s': System, p: Platform, p': Platform)
    requires IsStory(w) && Agrees(w, s, p) && InStep(s) && ActsTo(w, s, s', p, p')
    ensures Agrees(w, s', p')
  {
    var a :| Enabled(s, a) && s' == Apply(s, a) && Acts(w, s, a, p, p');
    if s.cancelled {
      CancelledStays(s, a);
    } else if Waits(s) {
      StepWaits(w, s, a, p');
    } else {
      StepInHand(w, s, a, p, p');
    }
  }

  ghost predicate IsStep(w: Story, s: System, s': System, p: Platform, p': Platform) {
    exists x, x', y :: x == s && x' == s' && y == p' && InStep(x) && ActsTo(w, x, x', p, y)
  }

  lemma IsStepKeepsAgreement(w: Story, s: System, s': System, p: Platform, p': Platform)
    requires IsStory(w) && IsStep(w, s, s', p, p')
    ensures Agrees(w, s, p) ==> Agrees(w, s', p')
  {
    if Agrees(w, s, p) {
      StepKeepsAgreement(w, s, s', p, p');
    }
  }

  lemma StepsOf(w: Story, capacity: nat, run: seq<System>, platform: seq<Platform>, m: nat, k: nat)
    requires IsRun(capacity, run) && GoesWell(w, run, platform, m) && m <= k < |run| - 1
    ensures IsStep(w, run[k], run[k + 1], platform[k], platform[k + 1])
  {
    RunIsInStep(capacity, run, k);
  }

  /** At which points from `m` on log and platform agree. */
  ghost function Agreements(w: Story, run: seq<System>, platform: seq<Platform>, m: nat): seq<bool>
    requires |platform| == |run|
  {
    seq(|run|, k requires 0 <= k < |run| => k >= m && Agrees(w, run[k], platform[k]))
  }

  lemma NextAgrees(w: Story, capacity: nat, run: seq<System>, platform: seq<Platform>, m: nat, k: nat)
    requires IsStory(w) && IsRun(capacity, run) && GoesWell(w, run, platform, m) && k < |run| - 1
    ensures Agreements(w, run, platform, m)[k] ==> Agreements(w, run, platform, m)[k + 1]
  {
    if k >= m {
      StepsOf(w, capacity, run, platform, m, k);
      IsStepKeepsAgreement(w, run[k], run[k + 1], platform[k], platform[k + 1]);
    }
  }

  lemma AgreementLasts(w: Story, capacity: nat, run: seq<System>, platform: seq<Platform>, m: nat, n: nat)
    requires IsStory(w) && IsRun(capacity, run) && GoesWell(w, run, platform, m) && m <= n < |run| && Waits(run[m])
    ensures Agreements(w, run, platform, m)[n]
  {
    var flags := Agreements(w, run, platform, m);
    forall k | 0 <= k < |flags| - 1 && flags[k] ensures flags[k + 1] {
      NextAgrees(w, capacity, run, platform, m, k);
    }
    Futures.StaysTrue(flags, m, n);
  }

  // ---- What has been worked off ----

  /** Everything sent has been worked off and no resync is on its way or at work. */
  predicate AtRest(s: System) {
    s.consumer == Ready && s.queue == [] && !Waits(s) && !s.cancelled
  }

  /** Over any run, from any point at which a resync is on its way: if from there on all goes well, then at every
      point of rest at which the notifications have caught up with what the resyncs saw, the platform has exactly
      the proxies and the rights that SM wanted after the last entry that was sent. */
  lemma PlatformAgreesAtRest(w: Story, capacity: nat, run: seq<System>, platform: seq<Platform>, m: nat, n: nat)
    requires IsStory(w) && IsRun(capacity, run) && GoesWell(w, run, platform, m)
    requires m <= n < |run| && Waits(run[m]) && AtRest(run[n])
    requires run[n].covered <= run[n].front <= |w.entries|
    ensures Agree(w, run[n].front, platform[n])
  {
    AgreementLasts(w, capacity, run, platform, m, n);
    CaughtUp(w, run[n].front, run[n].covered, platform[n]);
  }

  // ---- When all of SM's log has been sent ----

  /** A resync has seen no more than there is. */
  predicate SeenIsThere(s: System) {
    s.covered <= |s.log| && (s.consumer.Applying? ==> s.consumer.seen <= |s.log|)
  }

  lemma ReconcilerKeepsSeen(s: System, r: ReconcilerAction)
    requires SeenIsThere(s) && ReconcilerEnabled(s, r)
    ensures SeenIsThere(ReconcilerStep(s, r))
  {
    ReconcilerFrame(s, r);
  }

  lemma StepKeepsSeen(s: System, a: Action)
    requires SeenIsThere(s) && Enabled(s, a)
    ensures SeenIsThere(Apply(s, a))
  {
    match a
    case Loop(l) => LoopFrame(s, l);
    case Read(r) => ReaderFrame(s, r);
    case Time(t) => TimerFrame(s, t);
    case Reconcile(r) => ReconcilerKeepsSeen(s, r);
    case _ =>
  }

  lemma {:induction false} RunKeepsSeen(capacity: nat, run: seq<System>, n: nat)
    requires IsRun(capacity, run) && n < |run|
    ensures SeenIsThere(run[n])
  {
    if n > 0 {
      RunKeepsSeen(capacity, run, n - 1);
      var a := StepTaken(capacity, run, n);
      StepKeepsSeen(run[n - 1], a);
    }
  }

  /** So at a point of rest at which all of SM's log has been sent, the platform has exactly the proxies and the
      rights that SM wants. */
  lemma PlatformAgreesWithSM(w: Story, capacity: nat, run: seq<System>, platform: seq<Platform>, m: nat, n: nat)
    requires IsStory(w) && IsRun(capacity, run) && GoesWell(w, run, platform, m)
    requires m <= n < |run| && Waits(run[m]) && AtRest(run[n])
    requires run[n].front == |run[n].log| <= |w.entries|
    ensures Agree(w, |run[n].log|, platform[n])
  {
    RunKeepsSeen(capacity, run, n);
    PlatformAgreesAtRest(w, capacity, run, platform, m, n);
  }

  // ---- Such runs exist ----

  lemma GoOn(w: Story, capacity: nat, run: seq<System>, platform: seq<Platform>, m: nat, a: Action, p: Platform)
    returns (run': seq<System>, platform': seq<Platform>)
    requires IsRun(capacity, run) && GoesWell(w, run, platform, m)
    requires Enabled(Back(run), a) && Acts(w, Back(run), a, Back(platform), p)
    ensures IsRun(capacity, run') && GoesWell(w, run', platform', m) && |run'| == |run| + 1 && run <= run'
    ensures Back(run') == Apply(Back(run), a) && Back(platform') == p
  {
    run' := Extend(capacity, run, a);
    platform' := platform + [p];
    forall n | m <= n < |run'| - 1 ensures ActsTo(w, run'[n], run'[n + 1], platform'[n], platform'[n + 1]) {
      if n < |run| - 1 {
        assert ActsTo(w, run[n], run[n + 1], platform[n], platform[n + 1]);
      } else {
        assert run'[n] == Back(run) && platform'[n] == Back(platform);
      }
    }
  }

  lemma ResyncIsTaken(w: Story, capacity: nat, before: Platform)
    returns (run: seq<System>, platform: seq<Platform>)
    ensures IsRun(capacity, run) && GoesWell(w, run, platform, 1) && 1 < |run| && Waits(run[1])
    ensures Back(platform) == before && Back(run).consumer == Draining && Back(run).queue == []
    ensures var s := Back(run);
            s.loop == Streaming && s.timer == Waiting && s.reader == Reading && !s.cancelled && s.log == []
            && s.front == s.cursor == s.covered == 0
  {
    run, platform := [Init(capacity)], [before];
    run, platform := GoOn(w, capacity, run, platform, 1, Loop(Connect(0, false)), before);
    ghost var first := run;
    run, platform := GoOn(w, capacity, run, platform, 1, Loop(HandOver), before);
    run, platform := GoOn(w, capacity, run, platform, 1, Time(SendResync), before);
    assert Back(run).queue == [ResyncMessage];
    run, platform := GoOn(w, capacity, run, platform, 1, Reconcile(TakeResync), before);
    assert run[1] == Back(first);
  }

  /** Rest, on a connection on which the first `n` entries of the log have come and been handled. */
  predicate Forwarded(s: System, log: seq<int>, n: nat) {
    && n <= |log| && s.log == log[..n] && s.front == n && s.cursor == n && s.reader == Reading && s.loop == Streaming
    && s.timer == Waiting && s.consumer == Ready && s.queue == [] && !s.cancelled
  }

  /** Whatever was on the platform: the first connection and its resync lead to rest. */
  lemma RestAtStart(w: Story, capacity: nat, before: Platform, log: seq<int>, p: Platform)
    returns (run: seq<System>, platform: seq<Platform>)
    requires ResyncedTo(w, 0, p)
    ensures IsRun(capacity, run) && GoesWell(w, run, platform, 1) && 1 < |run| && Waits(run[1])
    ensures Forwarded(Back(run), log, 0) && Back(platform) == p
  {
    run, platform := ResyncIsTaken(w, capacity, before);
    run, platform := GoOn(w, capacity, run, platform, 1, Reconcile(DrainEnd), before);
    run, platform := GoOn(w, capacity, run, platform, 1, Reconcile(LookAtSM), before);
    run, platform := GoOn(w, capacity, run, platform, 1, Reconcile(EndResync), p);
  }

  lemma NextIsAbove(log: seq<int>, n: nat)
    requires IncreasingLog(log) && n < |log|
    ensures log[n] > 0 && forall i | 0 <= i < n :: log[..n][i] < log[n]
  {
  }

  lemma EntryArrives(w: Story, capacity: nat, run: seq<System>, platform: seq<Platform>, log: seq<int>, n: nat,
                     p: Platform)
    returns (run': seq<System>, platform': seq<Platform>)
    requires IsRun(capacity, run) && GoesWell(w, run, platform, 1) && Forwarded(Back(run), log, n)
             && Back(platform) == p
    requires IncreasingLog(log) && n < |log|
    ensures IsRun(capacity, run') && GoesWell(w, run', platform', 1) && run <= run' && Back(platform') == p
    ensures var s := Back(run');
            s == Back(run).(log := log[..n + 1], cursor := n + 1, reader := Enqueued(n), front := n
                            + 1, queue := [Note(n)],
                            sent := s.sent)
  {
    NextIsAbove(log, n);
    run', platform' := GoOn(w, capacity, run, platform, 1, Append(log[n]), p);
    assert log[..n] + [log[n]] == log[..n + 1];
    run', platform' := GoOn(w, capacity, run', platform', 1, Read(Receive), p);
    run', platform' := GoOn(w, capacity, run', platform', 1, Read(Enqueue), p);
  }

  lemma EntryIsForwarded(w: Story, capacity: nat, run: seq<System>, platform: seq<Platform>, log: seq<int>, n: nat,
                         p: Platform, p': Platform)
    returns (run': seq<System>, platform': seq<Platform>)
    requires IsRun(capacity, run) && GoesWell(w, run, platform, 1) && Forwarded(Back(run), log, n)
             && Back(platform) == p
    requires IncreasingLog(log) && n < |log| && Consumed(w, n, p, p')
    ensures IsRun(capacity, run') && GoesWell(w, run', platform', 1) && run <= run'
    ensures Forwarded(Back(run'), log, n + 1) && Back(platform') == p'
  {
    run', platform' := EntryArrives(w, capacity, run, platform, log, n, p);
    run', platform' := GoOn(w, capacity, run', platform', 1, Reconcile(TakeNote), p);
    run', platform' := GoOn(w, capacity, run', platform', 1, Reconcile(EndConsume), p');
    run', platform' := GoOn(w, capacity, run', platform', 1, Read(Advance), p');
  }

  /** For every log, every story that it tells and every way in which its entries can be handled one after another:
      a run that meets all these conditions, forwards the whole log, has each entry handled, and comes to rest. */
  lemma RestIsReached(w: Story, capacity: nat, before: Platform, log: seq<int>, p: seq<Platform>)
    returns (run: seq<System>, platform: seq<Platform>)
    requires IncreasingLog(log) && |log| == |w.entries| && |p| == |log| + 1 && ResyncedTo(w, 0, p[0])
    requires forall t :: 0 <= t < |log| ==> Consumed(w, t, p[t], p[t + 1])
    ensures IsRun(capacity, run) && GoesWell(w, run, platform, 1) && 1 < |run| && Waits(run[1])
    ensures AtRest(Back(run)) && Back(run).log == log && Back(run).front == |log| && Back(platform) == p[|log|]
  {
    run, platform := RestAtStart(w, capacity, before, log, p[0]);
    for n := 0 to |log|
      invariant IsRun(capacity, run) && GoesWell(w, run, platform, 1) && 1 < |run| && Waits(run[1])
      invariant Forwarded(Back(run), log, n) && Back(platform) == p[n]
    {
      run, platform := EntryIsForwarded(w, capacity, run, platform, log, n, p[n], p[n + 1]);
    }
    assert log[..|log|] == log;
  }
}
