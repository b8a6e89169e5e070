/** The parallel calls of one visibility pass: a run of the task pool that disables what is obsolete and then, if Await
    reported no error, a run that enables what is missing. */
module VisibilityRuns {
  import opened Types
  import opened Naming
  import opened World
  import opened Visibilities
  import opened TaskPool

  /** `removals` is the order in which the obsolete visibilities are scheduled. The second run is empty if the pass
      ended with the first one, because a call failed or was refused, or because it is still going on. */
  datatype Reconciliation = Reconciliation(
    platformVis: seq<Visibility>, smVis: seq<Visibility>,
    obsolete: map<string, Visibility>, missing: seq<Visibility>, removals: seq<Visibility>,
    disabling: Job<Grant, ()>, disableRun: seq<Pool<Grant, ()>>,
    enabling: Job<Grant, ()>, enableRun: seq<Pool<Grant, ()>>)

  /** One task per visibility, about the grant it stands for. */
  ghost predicate AreTasks(cfg: Config, tasks: seq<Task<Grant, ()>>, list: seq<Visibility>, value: Option<()>) {
    && |tasks| == |list|
    && forall i :: 0 <= i < |tasks| ==>
         tasks[i].key == GrantOf(cfg, list[i]) && tasks[i].value == value && (tasks[i].ok ==> tasks[i].applied)
  }

  ghost predicate IsReconciliation(cfg: Config, r: Reconciliation) {
    && IsDiff(cfg, r.platformVis, r.smVis, r.obsolete, r.missing)
    && |r.removals| == |r.obsolete| && (forall v :: v in r.removals <==> v in r.obsolete.Values)
    && AreTasks(cfg, r.disabling.tasks, r.removals, None)
    && IsRun(r.disabling, r.disableRun)
    && (r.enableRun != [] ==>
          && Completed(r.disabling, Back(r.disableRun)) && Back(r.disableRun).result == Some(0)
          && r.enabling.before == Back(r.disableRun).platform
          && AreTasks(cfg, r.enabling.tasks, r.missing, Some(()))
          && IsRun(r.enabling, r.enableRun))
  }

  /** The grants on the platform at the n-th point of the pass. */
  function GrantsAt(r: Reconciliation, n: nat): set<Grant>
    requires n < |r.disableRun| + |r.enableRun|
  {
    if n < |r.disableRun| then r.disableRun[n].platform.Keys else r.enableRun[n - |r.disableRun|].platform.Keys
  }

  lemma RemovedGrants(cfg: Config, obsolete: map<string, Visibility>, removals: seq<Visibility>)
    requires forall v :: v in removals <==> v in obsolete.Values
    ensures GrantsOf(cfg, removals) == ObsoleteGrants(cfg, obsolete)
  {
    forall i | 0 <= i < |removals| ensures GrantOf(cfg, removals[i]) in ObsoleteGrants(cfg, obsolete) {
      assert removals[i] in obsolete.Values;
    }
    forall k | k in obsolete ensures GrantOf(cfg, obsolete[k]) in GrantsOf(cfg, removals) {
      assert obsolete[k] in obsolete.Values;
      InGrantsOf(cfg, removals, obsolete[k]);
    }
  }

  lemma DisablesOnlyRemove(cfg: Config, j: Job<Grant, ()>, run: seq<Pool<Grant, ()>>, list: seq<Visibility>, n: nat)
    requires AreTasks(cfg, j.tasks, list, None) && IsRun(j, run) && n < |run|
    ensures j.before.Keys - GrantsOf(cfg, list) <= run[n].platform.Keys <= j.before.Keys
  {
    RunShowsOnlyTaskEffects(j, run, n);
    forall x: Grant
      ensures x in run[n].platform ==> x in j.before
      ensures x in j.before && x !in GrantsOf(cfg, list) ==> x in run[n].platform
    {
      if TaskPool.Lookup(run[n].platform, x) != TaskPool.Lookup(j.before, x) {
        var i :| Wrote(j, run[n], i, x);
        assert GrantOf(cfg, list[i]) == x;
      }
    }
  }

  lemma EnablesOnlyAdd(cfg: Config, j: Job<Grant, ()>, run: seq<Pool<Grant, ()>>, list: seq<Visibility>, n: nat)
    requires AreTasks(cfg, j.tasks, list, Some(())) && IsRun(j, run) && n < |run|
    ensures j.before.Keys <= run[n].platform.Keys <= j.before.Keys + GrantsOf(cfg, list)
  {
    RunShowsOnlyTaskEffects(j, run, n);
    forall x: Grant
      ensures x in j.before ==> x in run[n].platform
      ensures x in run[n].platform && x !in GrantsOf(cfg, list) ==> x in j.before
    {
      if TaskPool.Lookup(run[n].platform, x) != TaskPool.Lookup(j.before, x) {
        var i :| Wrote(j, run[n], i, x);
        assert GrantOf(cfg, list[i]) == x;
      }
    }
  }

  /** When every call succeeded, every task has had its effect. */
  lemma AllTasksTakeEffect(cfg: Config, j: Job<Grant, ()>, run: seq<Pool<Grant, ()>>, list: seq<Visibility>,
                           value: Option<()>, n: nat)
    requires AreTasks(cfg, j.tasks, list, value) && IsRun(j, run) && n < |run|
    requires Completed(j, run[n]) && run[n].result == Some(0) && |j.tasks| < COUNTER_RANGE
    ensures forall i :: 0 <= i < |j.tasks| ==> j.tasks[i].ok
    ensures forall x :: x in GrantsOf(cfg, list) ==> (x in run[n].platform <==> value.Some?)
  {
    RunShowsOnlyTaskEffects(j, run, n);
    AwaitReportsFailures(j, run, n);
    RunIsConsistent(j, run, n);
    assert Agreeing(j.tasks);
    forall x | x in GrantsOf(cfg, list) ensures x in run[n].platform <==> value.Some? {
      var i :| 0 <= i < |list| && GrantOf(cfg, list[i]) == x;
      assert TookEffect(j.tasks[i], run[n].phases[i]);
      assert TaskPool.Lookup(run[n].platform, x) == value;
    }
  }

  /** The effect of the disable calls at the n-th point of their run, for a pass that has come so far. */
  lemma DisabledSoFar(cfg: Config, r: Reconciliation, n: nat)
    requires IsReconciliation(cfg, r) && n < |r.disableRun|
    ensures GrantsAt(r, 0) == r.disabling.before.Keys
    ensures GrantsAt(r, 0) - ObsoleteGrants(cfg, r.obsolete) <= GrantsAt(r, n) <= GrantsAt(r, 0)
  {
    RemovedGrants(cfg, r.obsolete, r.removals);
    DisablesOnlyRemove(cfg, r.disabling, r.disableRun, r.removals, n);
  }

  /** The grants at the end of the disable calls. */
  function Middle(r: Reconciliation): set<Grant>
    requires r.disableRun != []
  {
    Back(r.disableRun).platform.Keys
  }

  lemma EnabledSoFar(cfg: Config, r: Reconciliation, n: nat)
    requires IsReconciliation(cfg, r) && n < |r.enableRun|
    ensures r.enabling.before.Keys == Middle(r)
    ensures Middle(r) <= r.enableRun[n].platform.Keys <= Middle(r) + GrantsOf(cfg, r.missing)
  {
    EnablesOnlyAdd(cfg, r.enabling, r.enableRun, r.missing, n);
  }

  /** At every point of every interleaving, whatever fails: what the platform has and SM wants is there, and nothing is
      there that was not there before and that SM does not want. */
  lemma SafeAtEveryPoint(cfg: Config, r: Reconciliation, n: nat)
    requires IsReconciliation(cfg, r) && n < |r.disableRun| + |r.enableRun|
    ensures var before, P, S := GrantsAt(r, 0), GrantsOf(cfg, r.platformVis), GrantsOf(cfg, r.smVis);
            before - (P - S) <= GrantsAt(r, n) <= before + S
  {
    CallsSoFar(cfg, r, n);
    DiffGrants(cfg, r.platformVis, r.smVis, r.obsolete, r.missing);
    PassEffect(GrantsAt(r, 0), GrantsAt(r, n), false, GrantsOf(cfg, r.platformVis), GrantsOf(cfg, r.smVis),
               ObsoleteGrants(cfg, r.obsolete), GrantsOf(cfg, r.missing));
  }

  lemma CallsSoFar(cfg: Config, r: Reconciliation, n: nat)
    requires IsReconciliation(cfg, r) && n < |r.disableRun| + |r.enableRun|
    ensures GrantsAt(r, 0) - ObsoleteGrants(cfg, r.obsolete) <= GrantsAt(r, n) <= GrantsAt(r, 0)
            + GrantsOf(cfg, r.missing)
  {
    RemovedGrants(cfg, r.obsolete, r.removals);
    var k := if n < |r.disableRun| then n else |r.disableRun| - 1;
    DisablesOnlyRemove(cfg, r.disabling, r.disableRun, r.removals, k);
    if n >= |r.disableRun| {
      EnablesOnlyAdd(cfg, r.enabling, r.enableRun, r.missing, n - |r.disableRun|);
    }
  }

  lemma NoErrorMeansAllOk(j: Job<Grant, ()>, run: seq<Pool<Grant, ()>>)
    requires IsRun(j, run) && Completed(j, Back(run)) && Back(run).result == Some(0) && |j.tasks| < COUNTER_RANGE
    ensures forall i :: 0 <= i < |j.tasks| ==> j.tasks[i].ok
  {
    AwaitReportsFailures(j, run, |run| - 1);
  }

  /** If a disable call fails, no enable call is made. */
  lemma NoEnableAfterFailure(cfg: Config, r: Reconciliation)
    requires IsReconciliation(cfg, r) && |r.disabling.tasks| < COUNTER_RANGE
    requires exists i :: 0 <= i < |r.disabling.tasks| && !r.disabling.tasks[i].ok
    ensures r.enableRun == []
  {
    if r.enableRun != [] {
      NoErrorMeansAllOk(r.disabling, r.disableRun);
    }
  }

  /** Every interleaving without a failure ends with the same platform: what was reported for these brokers is replaced
      by what SM wants. */
  lemma EveryInterleavingConverges(cfg: Config, r: Reconciliation)
    requires IsReconciliation(cfg, r) && r.enableRun != []
    requires |r.disabling.tasks| < COUNTER_RANGE && |r.enabling.tasks| < COUNTER_RANGE
    requires Completed(r.enabling, Back(r.enableRun)) && Back(r.enableRun).result == Some(0)
    requires AllPipeFree(cfg, r.platformVis + r.smVis) && GrantsOf(cfg, r.platformVis) <= GrantsAt(r, 0)
    ensures var before, P, S := GrantsAt(r, 0), GrantsOf(cfg, r.platformVis), GrantsOf(cfg, r.smVis);
            Back(r.enableRun).platform.Keys == before - (P - S) + S
  {
    DiffGrants(cfg, r.platformVis, r.smVis, r.obsolete, r.missing);
    RemovedGrants(cfg, r.obsolete, r.removals);
    var d, m := |r.disableRun| - 1, |r.enableRun| - 1;
    DisabledSoFar(cfg, r, d);
    EnabledSoFar(cfg, r, m);
    AllTasksTakeEffect(cfg, r.disabling, r.disableRun, r.removals, None, d);
    AllTasksTakeEffect(cfg, r.enabling, r.enableRun, r.missing, Some(()), m);
    var before, after := GrantsAt(r, 0), r.enableRun[m].platform.Keys;
    var D, E := ObsoleteGrants(cfg, r.obsolete), GrantsOf(cfg, r.missing);
    RemovedAndAdded(before, Middle(r), after, D, E);
    PassEffect(before, after, true, GrantsOf(cfg, r.platformVis), GrantsOf(cfg, r.smVis), D, E);
  }

  lemma RemovedAndAdded<T>(before: set<T>, middle: set<T>, after: set<T>, D: set<T>, E: set<T>)
    requires before - D <= middle <= before && D !! middle
    requires middle <= after <= middle + E && E <= after
    ensures after == before - D + E
  {
  }
}
