/** The loop that schedules the deletion of orphaned proxies. Its tasks all capture the loop variable itself, and
    with the language version that the module declares there is only one such variable for the whole loop: a task
    deletes whichever orphan the variable holds when the task gets to run. */
module SharedCapture {
  import opened Types

  /** `begun` iterations have started, so the variable holds orphan `begun - 1`; `launched` calls of Schedule have
      returned; `waiting` are the tasks that have a token and have not read the variable yet. */
  datatype Loop = Loop(begun: nat, launched: nat, waiting: set<nat>, deleted: seq<nat>)

  datatype Action = Assign | Launch | Delete(task: nat)

  predicate Enabled(n: nat, limit: nat, s: Loop, a: Action) {
    match a
    case Assign => s.begun == s.launched && s.begun < n
    case Launch => s.launched < s.begun && |s.waiting| < limit
    case Delete(i) => i in s.waiting && s.begun > 0
  }

  function Apply(n: nat, limit: nat, s: Loop, a: Action): Loop
    requires Enabled(n, limit, s, a)
  {
    match a
    case Assign => s.(begun := s.begun + 1)
    case Launch => s.(launched := s.launched + 1, waiting := s.waiting + {s.launched})
    case Delete(i) => s.(waiting := s.waiting - {i}, deleted := s.deleted + [s.begun - 1])
  }

  const START := Loop(0, 0, {}, [])

  ghost predicate Step(n: nat, limit: nat, s: Loop, s': Loop) {
    exists a :: Enabled(n, limit, s, a) && s' == Apply(n, limit, s, a)
  }

  ghost predicate IsRun(n: nat, limit: nat, run: seq<Loop>) {
    && run != [] && run[0] == START
    && forall k :: 0 <= k < |run| - 1 ==> Step(n, limit, run[k], run[k + 1])
  }

  ghost predicate IsComplete(n: nat, s: Loop) {
    s.begun == n && s.launched == n && s.waiting == {}
  }

  ghost predicate EachOnce(n: nat, deleted: seq<nat>) {
    |deleted| == n && forall i :: 0 <= i < n ==> i in deleted
  }

  /** Every task deletes one orphan, though not necessarily its own. */
  lemma {:induction false} EveryTaskDeletesAnOrphan(n: nat, limit: nat, run: seq<Loop>, k: nat)
    requires IsRun(n, limit, run) && k < |run|
    ensures run[k].launched <= run[k].begun <= n
    ensures |run[k].deleted| + |run[k].waiting| == run[k].launched
    ensures forall t :: t in run[k].waiting ==> t < run[k].launched
    ensures forall d :: d in run[k].deleted ==> d < n
  {
    if k > 0 {
      EveryTaskDeletesAnOrphan(n, limit, run, k - 1);
      assert Step(n, limit, run[k - 1], run[k - 1 + 1]);
    }
  }

  lemma Extend(n: nat, limit: nat, run: seq<Loop>, a: Action) returns (longer: seq<Loop>)
    requires IsRun(n, limit, run) && Enabled(n, limit, Back(run), a)
    ensures IsRun(n, limit, longer) && Back(longer) == Apply(n, limit, Back(run), a)
  {
    longer := run + [Apply(n, limit, Back(run), a)];
  }

  /** With two orphans or more, however small the pool, the first can be skipped: the variable moves on before the first
      task reads it. */
  lemma SkippingRun(n: nat, limit: nat) returns (run: seq<Loop>)
    requires n >= 2 && limit >= 1
    ensures IsRun(n, limit, run) && IsComplete(n, Back(run)) && 0 !in Back(run).deleted
  {
    run := [START];
    run := Extend(n, limit, run, Assign);
    run := Extend(n, limit, run, Launch);
    run := Extend(n, limit, run, Assign);
    run := Extend(n, limit, run, Delete(0));
    run := Extend(n, limit, run, Launch);
    run := Extend(n, limit, run, Delete(1));
    for k := 2 to n
      invariant IsRun(n, limit, run)
      invariant Back(run).begun == k && Back(run).launched == k && Back(run).waiting == {}
      invariant 0 !in Back(run).deleted
    {
      run := Extend(n, limit, run, Assign);
      run := Extend(n, limit, run, Launch);
      run := Extend(n, limit, run, Delete(k));
    }
  }

  /** So the loop deletes every orphan once, in every interleaving, exactly when there is at most one orphan. */
  lemma SharedVariableIsExact(n: nat, limit: nat)
    requires limit >= 1
    ensures (forall run: seq<Loop> :: IsRun(n, limit, run) && IsComplete(n, Back(run)) ==>
               EachOnce(n, Back(run).deleted))
       <==> n <= 1
  {
    if n <= 1 {
      forall run: seq<Loop> | IsRun(n, limit, run) && IsComplete(n, Back(run)) ensures EachOnce(n, Back(run).deleted) {
        EveryTaskDeletesAnOrphan(n, limit, run, |run| - 1);
        var deleted := Back(run).deleted;
        assert n == 1 ==> deleted[0] in deleted;
      }
    } else {
      var run := SkippingRun(n, limit);
    }
  }
}
