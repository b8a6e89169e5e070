/** The task scheduler that every resync runs its platform calls through: a semaphore, a wait group and an error
    counter shared by one scheduling goroutine and one goroutine per accepted task. Each atomic action of the code is
    one step here, so a run is any interleaving that the semaphore admits. */
module TaskPool {
  import opened Types

  /** A call to the platform: it gives `key` the value `value` (or removes it). Whether the call reports success and
      whether its effect took hold are fixed in advance, so that interleavings can be compared; a call that reports
      an error may or may not have had its effect. */
  datatype Task<K, V> = Task(key: K, value: Option<V>, ok: bool, applied: bool)

  datatype Job<K, V> = Job(tasks: seq<Task<K, V>>, limit: nat, before: map<K, V>)

  datatype Phase =
    | Waiting               // not yet passed to Schedule
    | Refused               // Schedule returned the context's error
    | Holding               // its token is in the channel, the wait group does not know it yet
    | Running               // launched; the call has not returned
    | Failing               // the call returned an error that is not counted yet
    | Returned(ok: bool)    // about to run the deferred function
    | Released(ok: bool)    // the token is given back
    | Ended(ok: bool)       // the wait group is told

  /** `errors` is the 32-bit counter; `result` is what Await reported. */
  datatype Pool<K, V> = Pool(
    phases: seq<Phase>, next: nat, tokens: nat, wg: nat, errors: nat,
    result: Option<nat>, cancelled: bool, platform: map<K, V>)

  datatype Action =
    | Cancel | Acquire | Refuse | Launch | Await
    | Call(i: nat) | CountError(i: nat) | Release(i: nat) | Finish(i: nat)

  const COUNTER_RANGE: nat := 0x1_0000_0000

  function Wrap(n: nat): nat {
    n % COUNTER_RANGE
  }

  function Init<K, V>(j: Job<K, V>): Pool<K, V> {
    Pool(seq(|j.tasks|, i => Waiting), 0, 0, 0, 0, None, false, j.before)
  }

  function Put<K, V>(m: map<K, V>, k: K, v: Option<V>): map<K, V> {
    match v
    case Some(x) => m[k := x]
    case None => m - {k}
  }

  function Lookup<K, V>(m: map<K, V>, k: K): Option<V> {
    if k in m then Some(m[k]) else None
  }

  predicate Enabled<K, V>(j: Job<K, V>, s: Pool<K, V>, a: Action) {
    |s.phases| == |j.tasks| &&
    match a
    case Cancel => !s.cancelled
    // Both branches of the select can be ready at once.
    case Acquire => s.next < |s.phases| && s.phases[s.next] == Waiting && s.tokens < j.limit
    case Refuse => s.next < |s.phases| && s.phases[s.next] == Waiting && s.cancelled
    case Launch => s.next < |s.phases| && s.phases[s.next] == Holding
    case Await => s.next == |s.phases| && s.wg == 0 && s.result == None
    case Call(i) => i < |s.phases| && s.phases[i] == Running
    case CountError(i) => i < |s.phases| && s.phases[i] == Failing
    case Release(i) => i < |s.phases| && s.phases[i].Returned? && s.tokens > 0
    case Finish(i) => i < |s.phases| && s.phases[i].Released? && s.wg > 0
  }

  function Apply<K, V>(j: Job<K, V>, s: Pool<K, V>, a: Action): Pool<K, V>
    requires Enabled(j, s, a)
  {
    match a
    case Cancel => s.(cancelled := true)
    case Acquire => s.(phases := s.phases[s.next := Holding], tokens := s.tokens + 1)
    case Refuse => s.(phases := s.phases[s.next := Refused], next := s.next + 1)
    case Launch => s.(phases := s.phases[s.next := Running], next := s.next + 1, wg := s.wg + 1)
    case Await => s.(result := Some(s.errors))
    case Call(i) =>
      var t := j.tasks[i];
      s.(phases := s.phases[i := if t.ok then Returned(true) else Failing],
         platform := if t.applied then Put(s.platform, t.key, t.value) else s.platform)
    case CountError(i) =>
      s.(phases := s.phases[i := Returned(false)], errors := Wrap(s.errors + 1))
    case Release(i) => s.(phases := s.phases[i := Released(s.phases[i].ok)], tokens := s.tokens - 1)
    case Finish(i) => s.(phases := s.phases[i := Ended(s.phases[i].ok)], wg := s.wg - 1)
  }

  ghost predicate Step<K, V>(j: Job<K, V>, s: Pool<K, V>, s': Pool<K, V>) {
    exists a :: Enabled(j, s, a) && s' == Apply(j, s, a)
  }

  ghost predicate IsRun<K, V>(j: Job<K, V>, run: seq<Pool<K, V>>) {
    && |run| > 0
    && run[0] == Init(j)
    && forall n :: 0 <= n < |run| - 1 ==> Step(j, run[n], run[n + 1])
  }

  // ---- Counting ----

  /** How many phases satisfy `f`. */
  function Count(f: Phase -> bool, phases: seq<Phase>): nat {
    if phases == [] then 0
    else Count(f, phases[..|phases| - 1]) + One(f(phases[|phases| - 1]))
  }

  function One(b: bool): nat {
    if b then 1 else 0
  }

  predicate HoldsToken(p: Phase) {
    p == Holding || p == Running || p == Failing || p.Returned?
  }

  /** Launched, and the wait group is not yet told of its end. */
  predicate Unfinished(p: Phase) {
    p == Running || p == Failing || p.Returned? || p.Released?
  }

  predicate Reported(p: Phase) {
    p.Returned? || p.Released? || p.Ended?
  }

  predicate CountedFailure(p: Phase) {
    Reported(p) && !p.ok
  }

  lemma {:induction false} CountUpdate(f: Phase -> bool, phases: seq<Phase>, i: nat, p: Phase)
    requires i < |phases|
    ensures Count(f, phases[i := p]) + One(f(phases[i])) == Count(f, phases) + One(f(p))
    ensures Count(f, phases) >= One(f(phases[i]))
    decreases |phases|
  {
    var k := |phases| - 1;
    if i == k {
      assert phases[i := p][..k] == phases[..k];
    } else {
      assert phases[i := p][..k] == phases[..k][i := p];
      CountUpdate(f, phases[..k], i, p);
    }
  }

  lemma {:induction false} CountNone(f: Phase -> bool, phases: seq<Phase>)
    requires forall i :: 0 <= i < |phases| ==> !f(phases[i])
    ensures Count(f, phases) == 0
    decreases |phases|
  {
    if phases != [] {
      CountNone(f, phases[..|phases| - 1]);
    }
  }

  // ---- The invariant of every run ----

  /** Where each task can be, given how far the scheduling goroutine got. */
  ghost predicate Shaped<K, V>(j: Job<K, V>, s: Pool<K, V>) {
    && |s.phases| == |j.tasks|
    && s.next <= |j.tasks|
    && (forall i :: 0 <= i < s.next ==> s.phases[i] != Waiting && s.phases[i] != Holding)
    && (forall i :: s.next < i < |j.tasks| ==> s.phases[i] == Waiting)
    && (s.next < |j.tasks| ==> s.phases[s.next] == Waiting || s.phases[s.next] == Holding)
    && (forall i :: 0 <= i < |j.tasks| ==> MatchesOutcome(j.tasks[i], s.phases[i]))
  }

  predicate MatchesOutcome<K, V>(t: Task<K, V>, p: Phase) {
    (Reported(p) ==> p.ok == t.ok) && (p == Failing ==> !t.ok)
  }

  /** The three counters say what the phases say. */
  ghost predicate Accounted(limit: nat, phases: seq<Phase>, tokens: nat, wg: nat, errors: nat) {
    && tokens == Count(HoldsToken, phases) <= limit
    && wg == Count(Unfinished, phases)
    && errors == Wrap(Count(CountedFailure, phases))
  }

  ghost predicate Consistent<K, V>(j: Job<K, V>, s: Pool<K, V>) {
    && Shaped(j, s)
    && Accounted(j.limit, s.phases, s.tokens, s.wg, s.errors)
    && (s.result.Some? ==> s.next == |j.tasks| && s.wg == 0 && s.result == Some(s.errors))
  }

  lemma StepKeepsConsistent<K, V>(j: Job<K, V>, s: Pool<K, V>, a: Action)
    requires Consistent(j, s) && Enabled(j, s, a)
    ensures Consistent(j, Apply(j, s, a))
  {
    if s.result.Some? {
      OnlyCancelAfterAwait(j, s, a);
    } else {
      StepKeepsShaped(j, s, a);
      StepKeepsAccounted(j, s, a);
    }
  }

  lemma OnlyCancelAfterAwait<K, V>(j: Job<K, V>, s: Pool<K, V>, a: Action)
    requires Consistent(j, s) && Enabled(j, s, a) && s.result.Some?
    ensures a == Cancel
  {
    AllEnded(j, s);
  }

  lemma StepKeepsShaped<K, V>(j: Job<K, V>, s: Pool<K, V>, a: Action)
    requires Shaped(j, s) && Enabled(j, s, a)
    ensures Shaped(j, Apply(j, s, a))
  {
    if a.Call? || a.CountError? || a.Release? || a.Finish? {
      TaskKeepsShaped(j, s, a);
    }
  }

  lemma TaskKeepsShaped<K, V>(j: Job<K, V>, s: Pool<K, V>, a: Action)
    requires Shaped(j, s) && Enabled(j, s, a) && (a.Call? || a.CountError? || a.Release? || a.Finish?)
    ensures Shaped(j, Apply(j, s, a))
  {
    var s' := Apply(j, s, a);
    assert s'.next == s.next && a.i < s.next;
    assert forall i :: 0 <= i < |s.phases| && i != a.i ==> s'.phases[i] == s.phases[i];
  }

  lemma StepKeepsAccounted<K, V>(j: Job<K, V>, s: Pool<K, V>, a: Action)
    requires Accounted(j.limit, s.phases, s.tokens, s.wg, s.errors) && Enabled(j, s, a)
    ensures var s' := Apply(j, s, a); Accounted(j.limit, s'.phases, s'.tokens, s'.wg, s'.errors)
  {
    if a.Acquire? || a.Refuse? || a.Launch? {
      SchedulingKeepsAccounted(j, s, a);
    } else if a.Call? || a.CountError? {
      CallKeepsAccounted(j, s, a);
    } else if a.Release? || a.Finish? {
      EndKeepsAccounted(j, s, a);
    }
  }

  lemma SchedulingKeepsAccounted<K, V>(j: Job<K, V>, s: Pool<K, V>, a: Action)
    requires Accounted(j.limit, s.phases, s.tokens, s.wg, s.errors) && Enabled(j, s, a)
    requires a.Acquire? || a.Refuse? || a.Launch?
    ensures var s' := Apply(j, s, a); Accounted(j.limit, s'.phases, s'.tokens, s'.wg, s'.errors)
  {
    var p := if a.Acquire? then Holding else if a.Refuse? then Refused else Running;
    AccountFor(j.limit, s.phases, s.tokens, s.wg, s.errors, s.next, p);
  }

  lemma CallKeepsAccounted<K, V>(j: Job<K, V>, s: Pool<K, V>, a: Action)
    requires Accounted(j.limit, s.phases, s.tokens, s.wg, s.errors) && Enabled(j, s, a)
    requires a.Call? || a.CountError?
    ensures var s' := Apply(j, s, a); Accounted(j.limit, s'.phases, s'.tokens, s'.wg, s'.errors)
  {
    var p := if a.CountError? then Returned(false) else if j.tasks[a.i].ok then Returned(true) else Failing;
    AccountFor(j.limit, s.phases, s.tokens, s.wg, s.errors, a.i, p);
  }

  lemma EndKeepsAccounted<K, V>(j: Job<K, V>, s: Pool<K, V>, a: Action)
    requires Accounted(j.limit, s.phases, s.tokens, s.wg, s.errors) && Enabled(j, s, a)
    requires a.Release? || a.Finish?
    ensures var s' := Apply(j, s, a); Accounted(j.limit, s'.phases, s'.tokens, s'.wg, s'.errors)
  {
    var p := if a.Release? then Released(s.phases[a.i].ok) else Ended(s.phases[a.i].ok);
    AccountFor(j.limit, s.phases, s.tokens, s.wg, s.errors, a.i, p);
  }

  /** The counters follow one task from one phase to another. */
  lemma AccountFor(limit: nat, phases: seq<Phase>, tokens: nat, wg: nat, errors: nat, i: nat, p: Phase)
    requires Accounted(limit, phases, tokens, wg, errors) && i < |phases|
    requires CountedFailure(phases[i]) ==> CountedFailure(p)
    ensures tokens + One(HoldsToken(p)) >= One(HoldsToken(phases[i]))
            && wg + One(Unfinished(p)) >= One(Unfinished(phases[i]))
    ensures var tokens', wg' := tokens + One(HoldsToken(p)) - One(HoldsToken(phases[i])),
                                wg + One(Unfinished(p)) - One(Unfinished(phases[i]));
            var errors' := if CountedFailure(p) && !CountedFailure(phases[i]) then Wrap(errors + 1) else errors;
            tokens' <= limit ==> Accounted(limit, phases[i := p], tokens', wg', errors')
  {
    ShiftCounts(phases, i, p);
    WrapNext(Count(CountedFailure, phases));
  }

  lemma WrapNext(n: nat)
    ensures Wrap(Wrap(n) + 1) == Wrap(n + 1)
  {
  }

  lemma ShiftCounts(phases: seq<Phase>, i: nat, p: Phase)
    requires i < |phases|
    ensures Count(HoldsToken, phases[i := p]) + One(HoldsToken(phases[i]))
            == Count(HoldsToken, phases) + One(HoldsToken(p))
    ensures Count(Unfinished, phases[i := p]) + One(Unfinished(phases[i]))
            == Count(Unfinished, phases) + One(Unfinished(p))
    ensures Count(CountedFailure, phases[i := p]) + One(CountedFailure(phases[i]))
         == Count(CountedFailure, phases) + One(CountedFailure(p))
  {
    CountUpdate(HoldsToken, phases, i, p);
    CountUpdate(Unfinished, phases, i, p);
    CountUpdate(CountedFailure, phases, i, p);
  }

  lemma AllEnded<K, V>(j: Job<K, V>, s: Pool<K, V>)
    requires Consistent(j, s) && s.next == |j.tasks| && s.wg == 0
    ensures forall i :: 0 <= i < |s.phases| ==> s.phases[i] == Refused || s.phases[i] == Ended(j.tasks[i].ok)
  {
    forall i | 0 <= i < |s.phases|
      ensures s.phases[i] == Refused || s.phases[i] == Ended(j.tasks[i].ok)
    {
      CountUpdate(Unfinished, s.phases, i, s.phases[i]);
    }
  }

  lemma {:induction false} RunIsConsistent<K, V>(j: Job<K, V>, run: seq<Pool<K, V>>, n: nat)
    requires IsRun(j, run) && n < |run|
    ensures Consistent(j, run[n])
  {
    if n == 0 {
      InitIsConsistent(j);
    } else {
      RunIsConsistent(j, run, n - 1);
      assert Step(j, run[n - 1], run[n - 1 + 1]);
      var a :| Enabled(j, run[n - 1], a) && run[n] == Apply(j, run[n - 1], a);
      StepKeepsConsistent(j, run[n - 1], a);
    }
  }

  lemma InitIsConsistent<K, V>(j: Job<K, V>)
    ensures Consistent(j, Init(j))
  {
    var phases := Init(j).phases;
    CountNone(HoldsToken, phases);
    CountNone(Unfinished, phases);
    CountNone(CountedFailure, phases);
  }

  /** At every point of every run: tasks inside their call hold tokens, no more than `limit` tokens are out, and the
      wait group knows exactly the launched tasks that have not ended. */
  lemma SchedulerInvariant<K, V>(j: Job<K, V>, run: seq<Pool<K, V>>, n: nat)
    requires IsRun(j, run) && n < |run|
    ensures Count(p => p == Running, run[n].phases) <= run[n].tokens <= j.limit
    ensures run[n].tokens == Count(HoldsToken, run[n].phases)
    ensures run[n].wg == Count(Unfinished, run[n].phases)
  {
    RunIsConsistent(j, run, n);
    CountMonotone(p => p == Running, HoldsToken, run[n].phases);
  }

  lemma {:induction false} CountMonotone(f: Phase -> bool, g: Phase -> bool, phases: seq<Phase>)
    requires forall p :: f(p) ==> g(p)
    ensures Count(f, phases) <= Count(g, phases)
    decreases |phases|
  {
    if phases != [] {
      CountMonotone(f, g, phases[..|phases| - 1]);
    }
  }

  lemma Extend<K, V>(j: Job<K, V>, run: seq<Pool<K, V>>, a: Action) returns (longer: seq<Pool<K, V>>)
    requires IsRun(j, run) && Enabled(j, run[|run| - 1], a)
    ensures IsRun(j, longer) && longer == run + [Apply(j, run[|run| - 1], a)]
  {
    longer := run + [Apply(j, run[|run| - 1], a)];
    forall n | 0 <= n < |longer| - 1 ensures Step(j, longer[n], longer[n + 1]) {
      if n < |run| - 1 {
        assert Step(j, run[n], run[n + 1]);
      }
    }
  }

  /** The token goes back before the wait group is told, so the wait group can exceed the limit. */
  lemma WaitGroupMayExceedLimit() returns (j: Job<int, int>, run: seq<Pool<int, int>>)
    ensures IsRun(j, run) && run[|run| - 1].wg > j.limit
  {
    var t := Task(0, Some(0), true, true);
    j := Job([t, t], 1, map[]);
    run := [Init(j)];
    run := Extend(j, run, Acquire);
    run := Extend(j, run, Launch);
    run := Extend(j, run, Call(0));
    run := Extend(j, run, Release(0));
    run := Extend(j, run, Acquire);
    run := Extend(j, run, Launch);
  }

  // ---- What Await reports ----

  predicate Fails<K, V>(t: Task<K, V>, p: Phase) {
    !t.ok && p != Refused
  }

  /** The failures among the tasks that were not refused. */
  function NumFailed<K, V>(tasks: seq<Task<K, V>>, phases: seq<Phase>): (n: nat)
    requires |tasks| == |phases|
    ensures n <= |tasks|
    ensures n == 0 <==> forall i :: 0 <= i < |tasks| ==> !Fails(tasks[i], phases[i])
  {
    if tasks == [] then 0
    else
      var k := |tasks| - 1;
      NumFailed(tasks[..k], phases[..k]) + One(Fails(tasks[k], phases[k]))
  }

  /** The failures if no task is refused. */
  function AllFailures<K, V>(tasks: seq<Task<K, V>>): nat {
    NumFailed(tasks, seq(|tasks|, i => Waiting))
  }

  lemma {:induction false} CountedAreFailed<K, V>(tasks: seq<Task<K, V>>, phases: seq<Phase>)
    requires |tasks| == |phases|
    requires forall i :: 0 <= i < |tasks| ==> phases[i] == Refused || phases[i] == Ended(tasks[i].ok)
    ensures Count(CountedFailure, phases) == NumFailed(tasks, phases)
    decreases |tasks|
  {
    if tasks != [] {
      CountedAreFailed(tasks[..|tasks| - 1], phases[..|tasks| - 1]);
    }
  }

  /** Await returns only when every accepted task has ended, and it reports their failures modulo the range of the
      counter: it says "no error" exactly when the failures are a multiple of that range. */
  lemma AwaitReportsFailures<K, V>(j: Job<K, V>, run: seq<Pool<K, V>>, n: nat)
    requires IsRun(j, run) && n < |run| && run[n].result.Some?
    ensures |run[n].phases| == |j.tasks|
    ensures forall i :: 0 <= i < |j.tasks| ==> run[n].phases[i] == Refused || run[n].phases[i].Ended?
    ensures run[n].result.value == Wrap(NumFailed(j.tasks, run[n].phases))
    ensures |j.tasks| < COUNTER_RANGE ==>
              (run[n].result == Some(0)
               <==> forall i :: 0 <= i < |j.tasks| ==> j.tasks[i].ok || run[n].phases[i] == Refused)
  {
    RunIsConsistent(j, run, n);
    AllEnded(j, run[n]);
    CountedAreFailed(j.tasks, run[n].phases);
    assert forall i :: 0 <= i < |j.tasks| ==>
             Fails(j.tasks[i], run[n].phases[i]) == !(j.tasks[i].ok || run[n].phases[i] == Refused);
  }

  // ---- What the platform sees ----

  /** The call of the task has returned and had its effect. */
  predicate TookEffect<K, V>(t: Task<K, V>, p: Phase) {
    t.applied && (p == Failing || Reported(p))
  }

  ghost predicate Wrote<K, V>(j: Job<K, V>, s: Pool<K, V>, i: int, k: K) {
    && 0 <= i < |j.tasks| && i < |s.phases|
    && TookEffect(j.tasks[i], s.phases[i]) && j.tasks[i].key == k
    && j.tasks[i].value == Lookup(s.platform, k)
  }

  /** Whatever is on the platform was there before or was put there by a task that took effect. */
  ghost predicate OnlyTaskEffects<K(!new), V>(j: Job<K, V>, s: Pool<K, V>) {
    && |s.phases| == |j.tasks|
    && forall k: K :: Lookup(s.platform, k) == Lookup(j.before, k) || exists i :: Wrote(j, s, i, k)
  }

  /** Tasks with one key want one value for it. Tasks with pairwise distinct keys agree, and so do repeated ones. */
  ghost predicate Agreeing<K, V>(tasks: seq<Task<K, V>>) {
    forall i, j :: 0 <= i < |tasks| && 0 <= j < |tasks| && tasks[i].key == tasks[j].key ==>
      tasks[i].value == tasks[j].value
  }

  /** No effect that took hold is undone. */
  ghost predicate EffectsStand<K, V>(j: Job<K, V>, s: Pool<K, V>) {
    && |s.phases| == |j.tasks|
    && forall i :: 0 <= i < |j.tasks| && TookEffect(j.tasks[i], s.phases[i]) ==>
         Lookup(s.platform, j.tasks[i].key) == j.tasks[i].value
  }

  lemma StepKeepsOnlyTaskEffects<K(!new), V>(j: Job<K, V>, s: Pool<K, V>, a: Action)
    requires OnlyTaskEffects(j, s) && Enabled(j, s, a)
    ensures OnlyTaskEffects(j, Apply(j, s, a))
  {
    var s' := Apply(j, s, a);
    forall k: K
      ensures Lookup(s'.platform, k) == Lookup(j.before, k) || exists i :: Wrote(j, s', i, k)
    {
      if a.Call? && TookEffect(j.tasks[a.i], s'.phases[a.i]) && j.tasks[a.i].key == k {
        assert Wrote(j, s', a.i, k);
      } else if Lookup(s.platform, k) != Lookup(j.before, k) {
        var i :| Wrote(j, s, i, k);
        assert Wrote(j, s', i, k);
      }
    }
  }

  lemma StepKeepsEffectsStand<K, V>(j: Job<K, V>, s: Pool<K, V>, a: Action)
    requires Agreeing(j.tasks) && EffectsStand(j, s) && Enabled(j, s, a)
    ensures EffectsStand(j, Apply(j, s, a))
  {
  }

  lemma {:induction false} RunShowsOnlyTaskEffects<K(!new), V>(j: Job<K, V>, run: seq<Pool<K, V>>, n: nat)
    requires IsRun(j, run) && n < |run|
    ensures OnlyTaskEffects(j, run[n])
    ensures Agreeing(j.tasks) ==> EffectsStand(j, run[n])
  {
    if n > 0 {
      RunShowsOnlyTaskEffects(j, run, n - 1);
      assert Step(j, run[n - 1], run[n - 1 + 1]);
      var a :| Enabled(j, run[n - 1], a) && run[n] == Apply(j, run[n - 1], a);
      StepKeepsOnlyTaskEffects(j, run[n - 1], a);
      if Agreeing(j.tasks) {
        StepKeepsEffectsStand(j, run[n - 1], a);
      }
    }
  }

  // ---- Confluence ----

  /** The tasks one after another, in the order in which they were scheduled. */
  function RunInOrder<K, V>(tasks: seq<Task<K, V>>, before: map<K, V>): map<K, V> {
    if tasks == [] then before
    else
      var t := tasks[|tasks| - 1];
      var m := RunInOrder(tasks[..|tasks| - 1], before);
      if t.applied then Put(m, t.key, t.value) else m
  }

  lemma {:induction false} InOrderEffects<K(!new), V>(tasks: seq<Task<K, V>>, before: map<K, V>)
    requires Agreeing(tasks)
    ensures forall i :: 0 <= i < |tasks| && tasks[i].applied ==>
              Lookup(RunInOrder(tasks, before), tasks[i].key) == tasks[i].value
    ensures forall k: K :: (forall i :: 0 <= i < |tasks| && tasks[i].applied ==> tasks[i].key != k) ==>
              Lookup(RunInOrder(tasks, before), k) == Lookup(before, k)
    decreases |tasks|
  {
    if tasks != [] {
      var init := tasks[..|tasks| - 1];
      InOrderEffects(init, before);
      forall k: K | forall i :: 0 <= i < |tasks| && tasks[i].applied ==> tasks[i].key != k
        ensures Lookup(RunInOrder(tasks, before), k) == Lookup(before, k)
      {
        assert forall i :: 0 <= i < |init| && init[i].applied ==> tasks[i].key != k;
      }
    }
  }

  ghost predicate Completed<K, V>(j: Job<K, V>, s: Pool<K, V>) {
    s.result.Some? && |s.phases| == |j.tasks| && forall i :: 0 <= i < |j.tasks| ==> s.phases[i] != Refused
  }

  /** Every interleaving of agreeing tasks leaves the platform that running them one after another leaves, and Await
      reports the same. */
  lemma Confluence<K(!new), V>(j: Job<K, V>, run: seq<Pool<K, V>>, n: nat)
    requires IsRun(j, run) && n < |run| && Completed(j, run[n]) && Agreeing(j.tasks)
    ensures run[n].platform == RunInOrder(j.tasks, j.before)
    ensures run[n].result == Some(Wrap(AllFailures(j.tasks)))
  {
    var s := run[n];
    RunShowsOnlyTaskEffects(j, run, n);
    AwaitReportsFailures(j, run, n);
    InOrderEffects(j.tasks, j.before);
    var m := RunInOrder(j.tasks, j.before);
    RunIsConsistent(j, run, n);
    forall k: K ensures Lookup(s.platform, k) == Lookup(m, k) {
      if i :| 0 <= i < |j.tasks| && j.tasks[i].applied && j.tasks[i].key == k {
        assert TookEffect(j.tasks[i], s.phases[i]);
      } else {
        assert forall i :: !Wrote(j, s, i, k);
      }
    }
    MapsWithSameLookups(s.platform, m);
    FailuresOnlyDependOnRefusal(j.tasks, s.phases, seq(|j.tasks|, i => Waiting));
  }

  lemma MapsWithSameLookups<K(!new), V>(m: map<K, V>, m': map<K, V>)
    requires forall k: K :: Lookup(m, k) == Lookup(m', k)
    ensures m == m'
  {
    assert forall k: K :: (k in m <==> Lookup(m, k).Some?) && (k in m' <==> Lookup(m', k).Some?);
    assert forall k: K | k in m :: m[k] == Lookup(m, k).value && m'[k] == Lookup(m', k).value;
  }

  lemma {:induction false} FailuresOnlyDependOnRefusal<K, V>(tasks: seq<Task<K, V>>, p: seq<Phase>, q: seq<Phase>)
    requires |tasks| == |p| == |q|
    requires forall i :: 0 <= i < |tasks| ==> (p[i] == Refused <==> q[i] == Refused)
    ensures NumFailed(tasks, p) == NumFailed(tasks, q)
    decreases |tasks|
  {
    if tasks != [] {
      var k := |tasks| - 1;
      FailuresOnlyDependOnRefusal(tasks[..k], p[..k], q[..k]);
    }
  }
}
