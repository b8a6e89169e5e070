/** The scheduler uses its whole limit, is never stuck and always comes to an end. */
module PoolProgress {
  import opened Types
  import opened TaskPool

  // ---- Tasks run side by side ----

  /** The first `m` tasks are inside their calls, and nothing else has happened. */
  function Launched<K, V>(j: Job<K, V>, m: nat): Pool<K, V> {
    Pool(seq(|j.tasks|, i => if i < m then Running else Waiting), m, m, m, 0, None, false, j.before)
  }

  /** As many tasks as there are, or as the limit admits, can be inside their calls at once. */
  lemma {:induction false} TasksRunTogether<K, V>(j: Job<K, V>, m: nat) returns (run: seq<Pool<K, V>>)
    requires m <= j.limit && m <= |j.tasks|
    ensures IsRun(j, run) && Back(run) == Launched(j, m)
  {
    run := [Init(j)];
    assert Init(j).phases == Launched(j, 0).phases;
    for i := 0 to m
      invariant IsRun(j, run) && Back(run) == Launched(j, i)
    {
      run := Extend(j, run, Acquire);
      run := Extend(j, run, Launch);
      assert Back(run).phases == Launched(j, i + 1).phases;
    }
  }

  // ---- No deadlock ----

  lemma {:induction false} SomeCounted(f: Phase -> bool, phases: seq<Phase>) returns (i: nat)
    requires Count(f, phases) > 0
    ensures i < |phases| && f(phases[i])
    decreases |phases|
  {
    var k := |phases| - 1;
    if f(phases[k]) {
      i := k;
    } else {
      i := SomeCounted(f, phases[..k]);
    }
  }

  /** What a launched task does next. */
  function NextOf(p: Phase, i: nat): Action
    requires Unfinished(p)
  {
    if p == Running then Call(i)
    else if p == Failing then CountError(i)
    else if p.Returned? then Release(i)
    else Finish(i)
  }

  lemma LaunchedGoesOn<K, V>(j: Job<K, V>, s: Pool<K, V>, i: nat)
    requires Consistent(j, s) && i < |s.phases| && Unfinished(s.phases[i])
    ensures Enabled(j, s, NextOf(s.phases[i], i))
  {
    CountUpdate(HoldsToken, s.phases, i, s.phases[i]);
    CountUpdate(Unfinished, s.phases, i, s.phases[i]);
  }

  /** Until Await has reported, something can go on without anyone cancelling, unless the limit lets no task start
      and a task waits to. */
  lemma SomethingGoesOn<K, V>(j: Job<K, V>, run: seq<Pool<K, V>>) returns (a: Action)
    requires IsRun(j, run) && Back(run).result == None
    requires j.limit > 0 || Back(run).cancelled || j.tasks == []
    ensures Enabled(j, Back(run), a) && a != Cancel
  {
    var s := Back(run);
    RunIsConsistent(j, run, |run| - 1);
    if s.next < |s.phases| {
      if s.phases[s.next] == Holding {
        a := Launch;
      } else if s.tokens < j.limit {
        a := Acquire;
      } else if s.cancelled {
        a := Refuse;
      } else {
        var i := SomeCounted(HoldsToken, s.phases);
        LaunchedGoesOn(j, s, i);
        a := NextOf(s.phases[i], i);
      }
    } else if s.wg == 0 {
      a := Await;
    } else {
      var i := SomeCounted(Unfinished, s.phases);
      LaunchedGoesOn(j, s, i);
      a := NextOf(s.phases[i], i);
    }
  }

  // ---- No run goes on for ever ----

  function Ahead(p: Phase): nat {
    match p
    case Waiting => 6
    case Holding => 5
    case Running => 4
    case Failing => 3
    case Returned(_) => 2
    case Released(_) => 1
    case Refused => 0
    case Ended(_) => 0
  }

  function AheadOfAll(phases: seq<Phase>): nat {
    if phases == [] then 0 else AheadOfAll(phases[..|phases| - 1]) + Ahead(phases[|phases| - 1])
  }

  /** A bound on the steps that are still to come. */
  function Remaining<K, V>(s: Pool<K, V>): nat {
    AheadOfAll(s.phases) + (if s.result == None then 1 else 0) + if s.cancelled then 0 else 1
  }

  lemma {:induction false} AheadUpdate(phases: seq<Phase>, i: nat, p: Phase)
    requires i < |phases|
    ensures AheadOfAll(phases[i := p]) + Ahead(phases[i]) == AheadOfAll(phases) + Ahead(p)
    decreases |phases|
  {
    var k := |phases| - 1;
    if i == k {
      assert phases[i := p][..k] == phases[..k];
    } else {
      assert phases[i := p][..k] == phases[..k][i := p];
      AheadUpdate(phases[..k], i, p);
    }
  }

  lemma StepUsesUp<K, V>(j: Job<K, V>, s: Pool<K, V>, a: Action)
    requires Enabled(j, s, a)
    ensures Remaining(Apply(j, s, a)) < Remaining(s)
  {
    if a.Acquire? || a.Refuse? || a.Launch? {
      SchedulingUsesUp(j, s, a);
    } else if a.Call? || a.CountError? || a.Release? || a.Finish? {
      var p := PhaseAfter(j, s, a);
      assert Apply(j, s, a).phases == s.phases[a.i := p];
      AheadUpdate(s.phases, a.i, p);
    }
  }

  /** The phase to which the action takes its task. */
  function PhaseAfter<K, V>(j: Job<K, V>, s: Pool<K, V>, a: Action): (p: Phase)
    requires Enabled(j, s, a) && (a.Call? || a.CountError? || a.Release? || a.Finish?)
    ensures Ahead(p) < Ahead(s.phases[a.i])
  {
    match a
    case Call(i) => if j.tasks[i].ok then Returned(true) else Failing
    case CountError(_) => Returned(false)
    case Release(i) => Released(s.phases[i].ok)
    case Finish(i) => Ended(s.phases[i].ok)
  }

  lemma SchedulingUsesUp<K, V>(j: Job<K, V>, s: Pool<K, V>, a: Action)
    requires Enabled(j, s, a) && (a.Acquire? || a.Refuse? || a.Launch?)
    ensures Remaining(Apply(j, s, a)) < Remaining(s)
  {
    var p := if a.Acquire? then Holding else if a.Refuse? then Refused else Running;
    AheadUpdate(s.phases, s.next, p);
  }

  lemma {:induction false} AllWaiting(phases: seq<Phase>)
    requires forall i :: 0 <= i < |phases| ==> phases[i] == Waiting
    ensures AheadOfAll(phases) == 6 * |phases|
    decreases |phases|
  {
    if phases != [] {
      AllWaiting(phases[..|phases| - 1]);
    }
  }

  /** The run up to the last step, and that step. */
  lemma LastStep<K, V>(j: Job<K, V>, run: seq<Pool<K, V>>) returns (a: Action)
    requires IsRun(j, run) && |run| > 1
    ensures IsRun(j, run[..|run| - 1])
    ensures Enabled(j, run[|run| - 2], a) && Back(run) == Apply(j, run[|run| - 2], a)
  {
    var n, init := |run| - 2, run[..|run| - 1];
    forall i | 0 <= i < n ensures Step(j, init[i], init[i + 1]) {
      assert Step(j, run[i], run[i + 1]);
    }
    assert Step(j, run[n], run[n + 1]);
    a :| Enabled(j, run[n], a) && run[n + 1] == Apply(j, run[n], a);
  }

  /** Every run ends after at most six steps for each task and two more. */
  lemma {:induction false} RunsEnd<K, V>(j: Job<K, V>, run: seq<Pool<K, V>>)
    requires IsRun(j, run)
    ensures |run| + Remaining(Back(run)) <= 6 * |j.tasks| + 3
    decreases |run|
  {
    if |run| == 1 {
      AllWaiting(Init(j).phases);
    } else {
      var a := LastStep(j, run);
      RunsEnd(j, run[..|run| - 1]);
      StepUsesUp(j, run[|run| - 2], a);
    }
  }

  /** From every point of every run Await is reached without anyone cancelling, under the same condition. */
  lemma {:induction false} AwaitIsReached<K, V>(j: Job<K, V>, run: seq<Pool<K, V>>) returns (longer: seq<Pool<K, V>>)
    requires IsRun(j, run) && (j.limit > 0 || Back(run).cancelled || j.tasks == [])
    ensures IsRun(j, longer) && run <= longer
    ensures Back(longer).result.Some? && Back(longer).cancelled == Back(run).cancelled
    decreases Remaining(Back(run))
  {
    longer := run;
    if Back(run).result == None {
      var a := SomethingGoesOn(j, run);
      StepUsesUp(j, Back(run), a);
      var next := Extend(j, run, a);
      longer := AwaitIsReached(j, next);
    }
  }
}
