/** What the shared loop variable does to a whole broker resync: it converges, when all its calls succeed, exactly
    if every orphan was deleted, and with the shared variable that is sure only for a single orphan. */
module SharedDeletion {
  import opened Types
  import Naming
  import opened World
  import opened TaskPool
  import opened Brokers
  import opened BrokerConvergence
  import S = SharedCapture

  /** Only orphans are deleted, perhaps not all of them. */
  ghost predicate DeletesOnly(orphans: map<string, ServiceBroker>, deletions: seq<BrokerTask>) {
    forall t :: t in deletions ==> t.DeleteTask? && t.registered in orphans.Values
  }

  lemma OtherOrphan(cfg: Config, regs: map<string, Registration>, existing: seq<ServiceBroker>,
                    desired: seq<ServiceBroker>, e: ServiceBroker, f: ServiceBroker)
    requires IsListing(regs, existing) && e != f
    requires e in Orphans(cfg, existing, desired).Values && f in Orphans(cfg, existing, desired).Values
    ensures e.guid != f.guid
  {
    OrphanIsTouchable(cfg, existing, desired, e);
    OrphanIsTouchable(cfg, existing, desired, f);
    SameGuidSameBroker(regs, existing, e, f);
  }

  /** No call of the resync is about an orphan that is not among the deletions. */
  lemma SkippedIsNotCalled(cfg: Config, existing: seq<ServiceBroker>, desired: seq<ServiceBroker>,
                           deletions: seq<BrokerTask>, newGuid: string -> string, j: Job<string, Registration>,
                           e: ServiceBroker, i: nat)
    requires Fit(cfg, j.before, existing, desired, newGuid) && DeletesOnly(Orphans(cfg, existing, desired), deletions)
    requires AreCalls(cfg, j.before, newGuid, Plan(cfg, existing, desired) + deletions, j.tasks) && i < |j.tasks|
    requires e in Orphans(cfg, existing, desired).Values && DeleteTask(e) !in deletions
    ensures j.tasks[i].key != e.guid
  {
    var plan := Plan(cfg, existing, desired);
    PlanLength(cfg, existing, desired);
    forall k: nat | k < |plan| ensures TargetOf(newGuid, plan[k]) != e.guid {
      OrphanIsNotPlanned(cfg, j.before, existing, desired, newGuid, e, k);
    }
    forall t | t in deletions ensures t.DeleteTask? && t.registered.guid != e.guid {
      OtherOrphan(cfg, j.before, existing, desired, e, t.registered);
    }
    NoCallAbout(cfg, j.before, newGuid, plan, deletions, j.tasks, e.guid, i);
  }

  lemma NoCallAbout(cfg: Config, regs: map<string, Registration>, newGuid: string -> string, plan: seq<BrokerTask>,
                    deletions: seq<BrokerTask>, calls: seq<Task<string, Registration>>, g: string, i: nat)
    requires AreCalls(cfg, regs, newGuid, plan + deletions, calls) && i < |calls|
    requires forall k: nat :: k < |plan| ==> TargetOf(newGuid, plan[k]) != g
    requires forall t :: t in deletions ==> t.DeleteTask? && t.registered.guid != g
    ensures calls[i].key != g
  {
    assert calls[i].key == TargetOf(newGuid, (plan + deletions)[i]);
    if i < |plan| {
      assert (plan + deletions)[i] == plan[i];
    } else {
      var t := deletions[i - |plan|];
      assert (plan + deletions)[i] == t && t in deletions;
    }
  }

  lemma PlanLength(cfg: Config, existing: seq<ServiceBroker>, desired: seq<ServiceBroker>)
    requires DistinctGuids(desired) && cfg.takeoverEnabled
    ensures |Plan(cfg, existing, desired)| == |desired|
  {
    PlanIsPerBroker(cfg, Proxies(cfg, existing), TakeoverCandidates(existing), desired);
  }

  lemma OrphanIsNotPlanned(cfg: Config, regs: map<string, Registration>, existing: seq<ServiceBroker>,
                           desired: seq<ServiceBroker>, newGuid: string -> string, e: ServiceBroker, i: nat)
    requires Fit(cfg, regs, existing, desired, newGuid) && e in Orphans(cfg, existing, desired).Values && i < |desired|
    ensures i < |Plan(cfg, existing, desired)| && TargetOf(newGuid, Plan(cfg, existing, desired)[i]) != e.guid
  {
    PlanIsPerBroker(cfg, Proxies(cfg, existing), TakeoverCandidates(existing), desired);
    assert desired[i] in desired;
    TaskHitsTarget(cfg, existing, newGuid, desired[i], Plan(cfg, existing, desired)[i]);
    OrphanIsNoTarget(cfg, regs, existing, desired, newGuid, e, desired[i]);
  }

  /** When all calls succeed, the resync converges if and only if it deleted every orphan. */
  lemma ConvergesIffAllDeleted(cfg: Config, existing: seq<ServiceBroker>, desired: seq<ServiceBroker>,
      deletions: seq<BrokerTask>, newGuid: string -> string, j: Job<string, Registration>,
      after: map<string, Registration>)
    requires Fit(cfg, j.before, existing, desired, newGuid) && DeletesOnly(Orphans(cfg, existing, desired), deletions)
    requires AreCalls(cfg, j.before, newGuid, Plan(cfg, existing, desired) + deletions, j.tasks) && Brought(j, after)
    ensures Converged(cfg, after, desired) <==> Deletes(Orphans(cfg, existing, desired), deletions)
  {
    if Deletes(Orphans(cfg, existing, desired), deletions) {
      BroughtConverges(cfg, existing, desired, deletions, newGuid, j, after);
    } else {
      var e := SkippedOrphan(Orphans(cfg, existing, desired), deletions);
      SkippedPreventsConvergence(cfg, existing, desired, deletions, newGuid, j, after, e);
    }
  }

  lemma SkippedOrphan(orphans: map<string, ServiceBroker>, deletions: seq<BrokerTask>) returns (e: ServiceBroker)
    requires DeletesOnly(orphans, deletions) && !Deletes(orphans, deletions)
    ensures e in orphans.Values && DeleteTask(e) !in deletions
  {
    e :| e in orphans.Values && DeleteTask(e) !in deletions;
  }

  lemma SkippedPreventsConvergence(cfg: Config, existing: seq<ServiceBroker>, desired: seq<ServiceBroker>,
      deletions: seq<BrokerTask>, newGuid: string -> string, j: Job<string, Registration>,
      after: map<string, Registration>, e: ServiceBroker)
    requires Fit(cfg, j.before, existing, desired, newGuid) && DeletesOnly(Orphans(cfg, existing, desired), deletions)
    requires AreCalls(cfg, j.before, newGuid, Plan(cfg, existing, desired) + deletions, j.tasks) && Brought(j, after)
    requires e in Orphans(cfg, existing, desired).Values && DeleteTask(e) !in deletions
    ensures !Converged(cfg, after, desired)
  {
    forall i | 0 <= i < |j.tasks| ensures j.tasks[i].key != e.guid {
      SkippedIsNotCalled(cfg, existing, desired, deletions, newGuid, j, e, i);
    }
    LeftOverShows(cfg, existing, desired, j, after, e);
  }

  lemma LeftOverShows(cfg: Config, existing: seq<ServiceBroker>, desired: seq<ServiceBroker>,
                      j: Job<string, Registration>, after: map<string, Registration>, e: ServiceBroker)
    requires IsListing(j.before, existing) && Brought(j, after) && e in Orphans(cfg, existing, desired).Values
    requires forall i :: 0 <= i < |j.tasks| ==> j.tasks[i].key != e.guid
    ensures !Converged(cfg, after, desired)
  {
    OrphanIsTouchable(cfg, existing, desired, e);
    ListedIsRegistered(j.before, existing, e);
    assert TaskPool.Lookup(after, e.guid) == TaskPool.Lookup(j.before, e.guid);
    assert IsProxyOf(cfg, after, e.guid, Naming.BrokerIDFromURL(e.url));
  }

  // ---- The deletions of the loop ----

  /** The orphans in the order in which the loop ranges over them. */
  ghost predicate Enumerates(list: seq<ServiceBroker>, orphans: map<string, ServiceBroker>) {
    && (forall e :: e in list <==> e in orphans.Values)
    && (forall i, k :: 0 <= i < k < |list| ==> list[i] != list[k])
  }

  function DeletionsOf(list: seq<ServiceBroker>, deleted: seq<nat>): seq<BrokerTask>
    requires forall d :: d in deleted ==> d < |list|
  {
    seq(|deleted|, k requires 0 <= k < |deleted| =>
      assert deleted[k] in deleted;
      DeleteTask(list[deleted[k]]))
  }

  lemma DeletedIff(list: seq<ServiceBroker>, orphans: map<string, ServiceBroker>, deleted: seq<nat>, i: nat)
    requires Enumerates(list, orphans) && i < |list| && forall d :: d in deleted ==> d < |list|
    ensures DeleteTask(list[i]) in DeletionsOf(list, deleted) <==> i in deleted
  {
    var deletions := DeletionsOf(list, deleted);
    if i in deleted {
      var k :| 0 <= k < |deleted| && deleted[k] == i;
      assert deletions[k] == DeleteTask(list[i]);
    }
    if DeleteTask(list[i]) in deletions {
      var k :| 0 <= k < |deletions| && deletions[k] == DeleteTask(list[i]);
      assert deleted[k] in deleted;
    }
  }

  /** The loop has finished, and these are the deletions that its tasks made. */
  ghost predicate IsLoop(list: seq<ServiceBroker>, limit: nat, run: seq<S.Loop>, deletions: seq<BrokerTask>) {
    && S.IsRun(|list|, limit, run) && S.IsComplete(|list|, Back(run))
    && (forall d :: d in Back(run).deleted ==> d < |list|)
    && deletions == DeletionsOf(list, Back(run).deleted)
  }

  lemma LoopDeletesOnly(list: seq<ServiceBroker>, orphans: map<string, ServiceBroker>, limit: nat, run: seq<S.Loop>,
                        deletions: seq<BrokerTask>)
    requires Enumerates(list, orphans) && IsLoop(list, limit, run, deletions)
    ensures DeletesOnly(orphans, deletions)
  {
    var deleted := Back(run).deleted;
    forall t | t in deletions ensures t.DeleteTask? && t.registered in orphans.Values {
      var k :| 0 <= k < |deletions| && deletions[k] == t;
      assert deleted[k] in deleted && list[deleted[k]] in list;
    }
  }

  /** What the loop deletes is every orphan, in all interleavings, if and only if there is at most one. */
  lemma SharedLoopDeletesAllIff(list: seq<ServiceBroker>, orphans: map<string, ServiceBroker>, limit: nat)
    requires Enumerates(list, orphans) && limit >= 1
    ensures (forall run, deletions :: IsLoop(list, limit, run, deletions) ==> Deletes(orphans, deletions))
         <==> |list| <= 1
  {
    if |list| <= 1 {
      forall run, deletions | IsLoop(list, limit, run, deletions) ensures Deletes(orphans, deletions) {
        S.SharedVariableIsExact(|list|, limit);
        LoopDeletesOnly(list, orphans, limit, run, deletions);
        forall e | e in orphans.Values ensures DeleteTask(e) in deletions {
          var i :| 0 <= i < |list| && list[i] == e;
          DeletedIff(list, orphans, Back(run).deleted, i);
        }
      }
    } else {
      var run := S.SkippingRun(|list|, limit);
      S.EveryTaskDeletesAnOrphan(|list|, limit, run, |run| - 1);
      DeletedIff(list, orphans, Back(run).deleted, 0);
      assert list[0] in list;
      assert IsLoop(list, limit, run, DeletionsOf(list, Back(run).deleted));
    }
  }

  /** So a whole resync in which every call succeeds converges with the shared variable if there is at most one
      orphan, and otherwise exactly in the interleavings in which the loop happened to delete all of them. */
  lemma SharedResyncConverges(cfg: Config, existing: seq<ServiceBroker>, desired: seq<ServiceBroker>,
      list: seq<ServiceBroker>, limit: nat, run: seq<S.Loop>, deletions: seq<BrokerTask>, newGuid: string -> string,
      j: Job<string, Registration>, after: map<string, Registration>)
    requires Fit(cfg, j.before, existing, desired, newGuid) && limit >= 1
    requires Enumerates(list, Orphans(cfg, existing, desired)) && IsLoop(list, limit, run, deletions)
    requires AreCalls(cfg, j.before, newGuid, Plan(cfg, existing, desired) + deletions, j.tasks) && Brought(j, after)
    ensures |list| <= 1 ==> Converged(cfg, after, desired)
    ensures Converged(cfg, after, desired) <==> forall i: nat :: i < |list| ==> i in Back(run).deleted
  {
    var orphans := Orphans(cfg, existing, desired);
    LoopDeletesOnly(list, orphans, limit, run, deletions);
    ConvergesIffAllDeleted(cfg, existing, desired, deletions, newGuid, j, after);
    AllDeletedIff(list, orphans, Back(run).deleted);
    SharedLoopDeletesAllIff(list, orphans, limit);
  }

  lemma AllDeletedIff(list: seq<ServiceBroker>, orphans: map<string, ServiceBroker>, deleted: seq<nat>)
    requires Enumerates(list, orphans) && forall d :: d in deleted ==> d < |list|
    requires DeletesOnly(orphans, DeletionsOf(list, deleted))
    ensures Deletes(orphans, DeletionsOf(list, deleted)) <==> forall i: nat :: i < |list| ==> i in deleted
  {
    forall i: nat | i < |list|
      ensures list[i] in orphans.Values && (DeleteTask(list[i]) in DeletionsOf(list, deleted) <==> i in deleted)
    {
      DeletedIff(list, orphans, deleted, i);
    }
  }
}
