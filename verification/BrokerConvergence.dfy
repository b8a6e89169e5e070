/** What a broker resync achieves when its calls succeed, in whatever order they run. */
module BrokerConvergence {
  import opened Types
  import opened Naming
  import opened World
  import opened Indexing
  import opened TaskPool
  import opened Brokers

  // ---- Convergence ----

  predicate IsProxyOf(cfg: Config, regs: map<string, Registration>, g: string, id: string) {
    g in regs && IsProxyURL(cfg, regs[g].url) && BrokerIDFromURL(regs[g].url) == id
  }

  /** No two registrations are proxies of one broker. */
  ghost predicate OneProxyEach(cfg: Config, regs: map<string, Registration>) {
    forall g, h, id :: IsProxyOf(cfg, regs, g, id) && IsProxyOf(cfg, regs, h, id) ==> g == h
  }

  /** The proxies on the platform correspond one to one to the brokers of SM. */
  ghost predicate Converged(cfg: Config, regs: map<string, Registration>, desired: seq<ServiceBroker>) {
    && (forall d :: d in desired ==> exists g :: g in regs && Hosts(cfg, regs[g], d))
    && (forall g, id :: IsProxyOf(cfg, regs, g, id) ==> id in Guids(desired))
    && OneProxyEach(cfg, regs)
  }

  // ---- What the indexes hold ----

  lemma ProxyIsListed(cfg: Config, regs: map<string, Registration>, existing: seq<ServiceBroker>, g: string,
                      id: string) returns (i: nat)
    requires IsListing(regs, existing) && IsProxyOf(cfg, regs, g, id)
    ensures i < |existing| && existing[i] == ServiceBroker(g, regs[g].name, regs[g].url)
  {
    assert g in Guids(existing);
    i :| 0 <= i < |existing| && existing[i].guid == g;
  }

  lemma ProxyIsIndexed(cfg: Config, regs: map<string, Registration>, existing: seq<ServiceBroker>, g: string,
                       id: string)
    requires IsListing(regs, existing) && OneProxyEach(cfg, regs) && IsProxyOf(cfg, regs, g, id)
    ensures id in Proxies(cfg, existing)
    ensures Proxies(cfg, existing)[id] == ServiceBroker(g, regs[g].name, regs[g].url)
    ensures Proxies(cfg, existing)[id] in existing
  {
    var i := ProxyIsListed(cfg, regs, existing, g, id);
    var key := ProxyIDOf(cfg);
    assert key(existing[i]) == Some(id);
    forall k | 0 <= k < |existing| && k != i ensures key(existing[k]) != key(existing[i]) {
      if key(existing[k]) == Some(id) {
        assert IsProxyOf(cfg, regs, existing[k].guid, id);
      }
    }
    IndexOfDistinct(existing, key, i);
  }

  lemma IndexedIsProxy(cfg: Config, regs: map<string, Registration>, existing: seq<ServiceBroker>, id: string)
    requires IsListing(regs, existing) && id in Proxies(cfg, existing)
    ensures var e := Proxies(cfg, existing)[id];
            e in existing && IsProxyOf(cfg, regs, e.guid, id) && regs[e.guid] == Registration(e.name, e.url)
  {
    ProxyIsTouchable(cfg, existing, [], id);
    ListedIsRegistered(regs, existing, Proxies(cfg, existing)[id]);
  }

  lemma ListedIsRegistered(regs: map<string, Registration>, existing: seq<ServiceBroker>, e: ServiceBroker)
    requires IsListing(regs, existing) && e in existing
    ensures e.guid in regs && regs[e.guid] == Registration(e.name, e.url)
  {
  }

  lemma CandidateIsListed(existing: seq<ServiceBroker>, key: string)
    requires key in TakeoverCandidates(existing)
    ensures TakeoverCandidates(existing)[key] in existing && BrokerKey(TakeoverCandidates(existing)[key]) == key
  {
    IndexHoldsTheLast(existing, TakeoverKeyOf());
    var i :| IsLast(existing, TakeoverKeyOf(), key, i) && TakeoverCandidates(existing)[key] == existing[i];
    assert TakeoverKeyOf()(existing[i]) == Some(key);
  }

  // ---- The plan, broker by broker ----

  /** With distinct ids a proxy is still there when its broker's turn comes. */
  lemma {:induction false} PlanIsPerBroker(cfg: Config, proxies: map<string, ServiceBroker>,
                                           candidates: map<string, ServiceBroker>, desired: seq<ServiceBroker>)
    requires DistinctGuids(desired)
    requires cfg.takeoverEnabled
    ensures |DesiredTasks(cfg, proxies, candidates, desired)| == |desired|
    ensures forall i :: 0 <= i < |desired| ==>
              TaskFor(cfg, proxies, candidates, desired[i]) == Some(DesiredTasks(cfg, proxies, candidates, desired)[i])
    decreases |desired|
  {
    if desired != [] {
      var n := |desired| - 1;
      PlanIsPerBroker(cfg, proxies, candidates, desired[..n]);
      LastIsStillThere(cfg, proxies, candidates, desired);
    }
  }

  lemma LastIsStillThere(cfg: Config, proxies: map<string, ServiceBroker>, candidates: map<string, ServiceBroker>,
                         desired: seq<ServiceBroker>)
    requires DistinctGuids(desired) && desired != []
    ensures var n := |desired| - 1;
            TaskFor(cfg, proxies - Guids(desired[..n]), candidates, desired[n])
            == TaskFor(cfg, proxies, candidates, desired[n])
  {
    var n := |desired| - 1;
    assert forall k :: 0 <= k < n ==> desired[..n][k] == desired[k];
    assert desired[n].guid !in Guids(desired[..n]);
  }

  // ---- Idempotence ----

  /** A resync that only makes the platform read catalogs again: nothing to update, create or delete. */
  ghost predicate OnlyFetches(cfg: Config, existing: seq<ServiceBroker>, desired: seq<ServiceBroker>) {
    && (forall t :: t in Plan(cfg, existing, desired) ==> t.FetchTask?)
    && Orphans(cfg, existing, desired) == map[]
  }

  lemma ConvergedNeedsNoTask(cfg: Config, regs: map<string, Registration>, existing: seq<ServiceBroker>,
                             desired: seq<ServiceBroker>)
    requires IsListing(regs, existing) && DistinctGuids(desired) && cfg.takeoverEnabled
    requires Converged(cfg, regs, desired)
    ensures OnlyFetches(cfg, existing, desired)
  {
    var plan := Plan(cfg, existing, desired);
    PlanIsPerBroker(cfg, Proxies(cfg, existing), TakeoverCandidates(existing), desired);
    forall i | 0 <= i < |plan| ensures plan[i].FetchTask? {
      var d := desired[i];
      assert d in desired;
      var g :| g in regs && Hosts(cfg, regs[g], d);
      ProxyIsIndexed(cfg, regs, existing, g, d.guid);
    }
    forall id | id in Proxies(cfg, existing) ensures id in Guids(desired) {
      IndexedIsProxy(cfg, regs, existing, id);
    }
  }

  lemma OnlyFetchesMeansConverged(cfg: Config, regs: map<string, Registration>, existing: seq<ServiceBroker>,
                                  desired: seq<ServiceBroker>)
    requires IsListing(regs, existing) && DistinctGuids(desired) && cfg.takeoverEnabled
    requires OneProxyEach(cfg, regs) && OnlyFetches(cfg, existing, desired)
    ensures Converged(cfg, regs, desired)
  {
    var plan, proxies := Plan(cfg, existing, desired), Proxies(cfg, existing);
    PlanIsPerBroker(cfg, proxies, TakeoverCandidates(existing), desired);
    forall d | d in desired ensures exists g :: g in regs && Hosts(cfg, regs[g], d) {
      var i :| 0 <= i < |desired| && desired[i] == d;
      assert plan[i].FetchTask?;
      IndexedIsProxy(cfg, regs, existing, d.guid);
      assert Hosts(cfg, regs[proxies[d.guid].guid], d);
    }
    forall g, id | IsProxyOf(cfg, regs, g, id) ensures id in Guids(desired) {
      ProxyIsIndexed(cfg, regs, existing, g, id);
      assert id !in Orphans(cfg, existing, desired);
    }
  }

  /** A resync has nothing to update, create or delete exactly when the platform has converged. */
  lemma ConvergedIffOnlyFetches(cfg: Config, regs: map<string, Registration>, existing: seq<ServiceBroker>,
                                desired: seq<ServiceBroker>)
    requires IsListing(regs, existing) && DistinctGuids(desired) && cfg.takeoverEnabled && OneProxyEach(cfg, regs)
    ensures Converged(cfg, regs, desired) <==> OnlyFetches(cfg, existing, desired)
  {
    if Converged(cfg, regs, desired) {
      ConvergedNeedsNoTask(cfg, regs, existing, desired);
    }
    if OnlyFetches(cfg, existing, desired) {
      OnlyFetchesMeansConverged(cfg, regs, existing, desired);
    }
  }

  // ---- Convergence of one resync ----

  datatype Claim = OwnProxy | Takeover | Fresh

  function ClaimOf(cfg: Config, existing: seq<ServiceBroker>, d: ServiceBroker): Claim {
    if d.guid in Proxies(cfg, existing) then OwnProxy
    else if BrokerKey(d) in TakeoverCandidates(existing) then Takeover
    else Fresh
  }

  /** Desired brokers with distinct slash-free ids and distinct takeover keys, none of which is the key of a proxy. */
  ghost predicate Distinguishable(cfg: Config, existing: seq<ServiceBroker>, desired: seq<ServiceBroker>) {
    && cfg.takeoverEnabled && DistinctGuids(desired)
    && (forall d :: d in desired ==> '/' !in d.guid)
    && (forall i, k :: 0 <= i < |desired| && 0 <= k < |desired| && BrokerKey(desired[i]) == BrokerKey(desired[k]) ==>
          i == k)
    && (forall d, e :: d in desired && e in existing && IsProxyURL(cfg, e.url) ==> BrokerKey(e) != BrokerKey(d))
  }

  /** What a resync starts from: such brokers, and at most one proxy for each. */
  ghost predicate Ready(cfg: Config, regs: map<string, Registration>, existing: seq<ServiceBroker>,
                        desired: seq<ServiceBroker>)
  {
    IsListing(regs, existing) && OneProxyEach(cfg, regs) && Distinguishable(cfg, existing, desired)
  }

  ghost predicate Fit(cfg: Config, regs: map<string, Registration>, existing: seq<ServiceBroker>,
                      desired: seq<ServiceBroker>, newGuid: string -> string)
  {
    Ready(cfg, regs, existing, desired) && NewGuids(cfg, regs, existing, desired, newGuid)
  }

  predicate NeedsGuid(cfg: Config, existing: seq<ServiceBroker>, desired: seq<ServiceBroker>, d: ServiceBroker) {
    d in desired && ClaimOf(cfg, existing, d) == Fresh
  }

  /** The platform gives the brokers that have to be registered ids of their own. */
  ghost predicate NewGuids(cfg: Config, regs: map<string, Registration>, existing: seq<ServiceBroker>,
                           desired: seq<ServiceBroker>, newGuid: string -> string)
  {
    && (forall d :: NeedsGuid(cfg, existing, desired, d) ==> newGuid(d.guid) !in regs)
    && (forall d, d' ::
          NeedsGuid(cfg, existing, desired, d) && NeedsGuid(cfg, existing, desired, d') && d.guid != d'.guid ==>
            newGuid(d.guid) != newGuid(d'.guid))
  }

  /** The platform id that a broker's task is about, by what the maps hold for it. */
  function TargetIn(proxies: map<string, ServiceBroker>, candidates: map<string, ServiceBroker>,
                    newGuid: string -> string, id: string, key: string): string {
    if id in proxies then proxies[id].guid
    else if key in candidates then candidates[key].guid
    else newGuid(id)
  }

  /** Which platform id the task of a desired broker is about. */
  function Target(cfg: Config, existing: seq<ServiceBroker>, newGuid: string -> string, d: ServiceBroker): string {
    TargetIn(Proxies(cfg, existing), TakeoverCandidates(existing), newGuid, d.guid, BrokerKey(d))
  }

  /** What a target is in the platform's terms. */
  predicate ClaimHolds(cfg: Config, regs: map<string, Registration>, d: ServiceBroker, claim: Claim, g: string) {
    match claim
    case OwnProxy => IsProxyOf(cfg, regs, g, d.guid)
    case Takeover =>
      g in regs && !IsProxyURL(cfg, regs[g].url)
      && BrokerKey(ServiceBroker(g, regs[g].name, regs[g].url)) == BrokerKey(d)
    case Fresh => g !in regs
  }

  lemma TakeoverTarget(cfg: Config, regs: map<string, Registration>, existing: seq<ServiceBroker>,
                       desired: seq<ServiceBroker>, newGuid: string -> string, d: ServiceBroker)
    requires Fit(cfg, regs, existing, desired, newGuid) && d in desired && BrokerKey(d) in TakeoverCandidates(existing)
    ensures ClaimHolds(cfg, regs, d, Takeover, TakeoverCandidates(existing)[BrokerKey(d)].guid)
  {
    var e := TakeoverCandidates(existing)[BrokerKey(d)];
    CandidateIsListed(existing, BrokerKey(d));
    ListedIsRegistered(regs, existing, e);
    assert e == ServiceBroker(e.guid, regs[e.guid].name, regs[e.guid].url);
  }

  lemma TargetByClaim(cfg: Config, regs: map<string, Registration>, existing: seq<ServiceBroker>,
                      desired: seq<ServiceBroker>, newGuid: string -> string, d: ServiceBroker)
    requires Fit(cfg, regs, existing, desired, newGuid) && d in desired
    ensures ClaimHolds(cfg, regs, d, ClaimOf(cfg, existing, d), Target(cfg, existing, newGuid, d))
  {
    var claim := ClaimOf(cfg, existing, d);
    if claim == OwnProxy {
      IndexedIsProxy(cfg, regs, existing, d.guid);
    } else if claim == Takeover {
      TakeoverTarget(cfg, regs, existing, desired, newGuid, d);
    } else {
      assert NeedsGuid(cfg, existing, desired, d);
    }
  }

  lemma SameClaimHolds(cfg: Config, regs: map<string, Registration>, d: ServiceBroker, d': ServiceBroker, claim: Claim,
                       claim': Claim, g: string)
    requires ClaimHolds(cfg, regs, d, claim, g) && ClaimHolds(cfg, regs, d', claim', g)
    ensures claim == claim'
    ensures claim == OwnProxy ==> d.guid == d'.guid
    ensures claim == Takeover ==> BrokerKey(d) == BrokerKey(d')
  {
  }

  lemma SameTargetSameBroker(cfg: Config, regs: map<string, Registration>, existing: seq<ServiceBroker>,
                             desired: seq<ServiceBroker>, newGuid: string -> string, d: ServiceBroker,
                             d': ServiceBroker)
    requires Fit(cfg, regs, existing, desired, newGuid) && d in desired && d' in desired
    requires Target(cfg, existing, newGuid, d) == Target(cfg, existing, newGuid, d')
    ensures d.guid == d'.guid || BrokerKey(d) == BrokerKey(d')
  {
    TargetByClaim(cfg, regs, existing, desired, newGuid, d);
    TargetByClaim(cfg, regs, existing, desired, newGuid, d');
    SameClaimHolds(cfg, regs, d, d', ClaimOf(cfg, existing, d), ClaimOf(cfg, existing, d'),
                   Target(cfg, existing, newGuid, d));
    if ClaimOf(cfg, existing, d) == Fresh {
      assert NeedsGuid(cfg, existing, desired, d) && NeedsGuid(cfg, existing, desired, d');
    }
  }

  lemma TargetsAreDistinct(cfg: Config, regs: map<string, Registration>, existing: seq<ServiceBroker>,
                           desired: seq<ServiceBroker>, newGuid: string -> string, i: nat, k: nat)
    requires Fit(cfg, regs, existing, desired, newGuid) && i < |desired| && k < |desired|
    requires Target(cfg, existing, newGuid, desired[i]) == Target(cfg, existing, newGuid, desired[k])
    ensures i == k
  {
    SameTargetSameBroker(cfg, regs, existing, desired, newGuid, desired[i], desired[k]);
  }

  lemma OrphanIsNoTarget(cfg: Config, regs: map<string, Registration>, existing: seq<ServiceBroker>,
                         desired: seq<ServiceBroker>, newGuid: string -> string, e: ServiceBroker, d: ServiceBroker)
    requires Fit(cfg, regs, existing, desired, newGuid) && d in desired
    requires e in Orphans(cfg, existing, desired).Values
    ensures e.guid != Target(cfg, existing, newGuid, d)
  {
    OrphanIsTouchable(cfg, existing, desired, e);
    ListedIsRegistered(regs, existing, e);
    TargetByClaim(cfg, regs, existing, desired, newGuid, d);
    var i :| 0 <= i < |desired| && desired[i] == d;
    assert d.guid in Guids(desired);
  }

  /** The setting of one resync whose calls are `j`. */
  ghost predicate IsResync(cfg: Config, existing: seq<ServiceBroker>, desired: seq<ServiceBroker>,
                           deletions: seq<BrokerTask>, newGuid: string -> string, j: Job<string, Registration>)
  {
    && Fit(cfg, j.before, existing, desired, newGuid)
    && Deletes(Orphans(cfg, existing, desired), deletions)
    && AreCalls(cfg, j.before, newGuid, Plan(cfg, existing, desired) + deletions, j.tasks)
  }

  lemma OwnTaskHits(cfg: Config, regs: map<string, Registration>, existing: seq<ServiceBroker>, d: ServiceBroker)
    requires IsListing(regs, existing) && '/' !in d.guid && d.guid in Proxies(cfg, existing)
    ensures var e := Proxies(cfg, existing)[d.guid];
            var outcome := OutcomeOf(cfg, regs, TaskIfTakenOver(cfg, d, e));
            outcome.Some? && Hosts(cfg, outcome.value, d)
  {
    IndexedIsProxy(cfg, regs, existing, d.guid);
    ProxyPathHosts(cfg, d);
  }

  lemma TaskIsAbout(cfg: Config, proxies: map<string, ServiceBroker>, candidates: map<string, ServiceBroker>,
                    newGuid: string -> string, d: ServiceBroker, key: string, t: BrokerTask)
    requires TaskFor(cfg, proxies, candidates, d) == Some(t) && key == BrokerKey(d)
    ensures TargetOf(newGuid, t) == TargetIn(proxies, candidates, newGuid, d.guid, key)
  {
  }

  lemma TaskHitsTarget(cfg: Config, existing: seq<ServiceBroker>, newGuid: string -> string, d: ServiceBroker,
                       t: BrokerTask)
    requires TaskFor(cfg, Proxies(cfg, existing), TakeoverCandidates(existing), d) == Some(t)
    ensures TargetOf(newGuid, t) == Target(cfg, existing, newGuid, d)
  {
    TaskIsAbout(cfg, Proxies(cfg, existing), TakeoverCandidates(existing), newGuid, d, BrokerKey(d), t);
  }

  lemma TaskMakesHost(cfg: Config, regs: map<string, Registration>, existing: seq<ServiceBroker>, d: ServiceBroker,
                      t: BrokerTask)
    requires IsListing(regs, existing) && '/' !in d.guid
    requires TaskFor(cfg, Proxies(cfg, existing), TakeoverCandidates(existing), d) == Some(t)
    ensures OutcomeOf(cfg, regs, t).Some? && Hosts(cfg, OutcomeOf(cfg, regs, t).value, d)
  {
    if d.guid in Proxies(cfg, existing) {
      OwnTaskHits(cfg, regs, existing, d);
    } else {
      ProxyPathHosts(cfg, d);
    }
  }

  /** The calls of the resync: one for each desired broker, about its target, then the deletions. */
  lemma CallOfBroker(cfg: Config, existing: seq<ServiceBroker>, desired: seq<ServiceBroker>, deletions: seq<BrokerTask>,
                     newGuid: string -> string, j: Job<string, Registration>, i: nat)
    requires IsResync(cfg, existing, desired, deletions, newGuid, j) && i < |desired|
    ensures i < |j.tasks| && j.tasks[i].key == Target(cfg, existing, newGuid, desired[i])
    ensures j.tasks[i].value.Some? && Hosts(cfg, j.tasks[i].value.value, desired[i])
  {
    var plan := Plan(cfg, existing, desired);
    PlanIsPerBroker(cfg, Proxies(cfg, existing), TakeoverCandidates(existing), desired);
    assert (plan + deletions)[i] == plan[i];
    assert desired[i] in desired;
    TaskHitsTarget(cfg, existing, newGuid, desired[i], plan[i]);
    TaskMakesHost(cfg, j.before, existing, desired[i], plan[i]);
  }

  lemma CallOfDeletion(cfg: Config, existing: seq<ServiceBroker>, desired: seq<ServiceBroker>,
                       deletions: seq<BrokerTask>, newGuid: string -> string, j: Job<string, Registration>,
                       i: nat) returns (e: ServiceBroker)
    requires IsResync(cfg, existing, desired, deletions, newGuid, j) && |desired| <= i < |j.tasks|
    ensures j.tasks[i].value == None
    ensures e in Orphans(cfg, existing, desired).Values && e.guid == j.tasks[i].key
  {
    PlanIsPerBroker(cfg, Proxies(cfg, existing), TakeoverCandidates(existing), desired);
    e := DeletionAmongCalls(cfg, j.before, newGuid, Plan(cfg, existing, desired), deletions,
                            Orphans(cfg, existing, desired), j.tasks, i);
  }

  lemma DeletionAmongCalls(cfg: Config, regs: map<string, Registration>, newGuid: string -> string,
                           plan: seq<BrokerTask>, deletions: seq<BrokerTask>, orphans: map<string, ServiceBroker>,
                           calls: seq<Task<string, Registration>>, i: nat)
    returns (e: ServiceBroker)
    requires AreCalls(cfg, regs, newGuid, plan + deletions, calls) && Deletes(orphans, deletions)
    requires |plan| <= i < |calls|
    ensures calls[i].value == None && e in orphans.Values && e.guid == calls[i].key
  {
    var t := deletions[i - |plan|];
    assert (plan + deletions)[i] == t && t in deletions;
    e := t.registered;
  }

  lemma ProxyPathHosts(cfg: Config, d: ServiceBroker)
    requires '/' !in d.guid
    ensures Hosts(cfg, Registration(ProxyNameOf(cfg, d), ProxyPath(cfg, d.guid)), d)
  {
    ProxyPathIsProxyURL(cfg, d.guid);
    assert cfg.smPath <= ProxyPath(cfg, d.guid);
  }

  lemma ResyncCallsAgree(cfg: Config, existing: seq<ServiceBroker>, desired: seq<ServiceBroker>,
                         deletions: seq<BrokerTask>, newGuid: string -> string, j: Job<string, Registration>)
    requires IsResync(cfg, existing, desired, deletions, newGuid, j)
    ensures Agreeing(j.tasks)
  {
    forall i, k | 0 <= i < |j.tasks| && 0 <= k < |j.tasks| && j.tasks[i].key == j.tasks[k].key
      ensures j.tasks[i].value == j.tasks[k].value
    {
      if i < |desired| && k < |desired| {
        CallOfBroker(cfg, existing, desired, deletions, newGuid, j, i);
        CallOfBroker(cfg, existing, desired, deletions, newGuid, j, k);
        TargetsAreDistinct(cfg, j.before, existing, desired, newGuid, i, k);
      } else if i < |desired| {
        BrokerAndDeletionDiffer(cfg, existing, desired, deletions, newGuid, j, i, k);
      } else if k < |desired| {
        BrokerAndDeletionDiffer(cfg, existing, desired, deletions, newGuid, j, k, i);
      } else {
        var e := CallOfDeletion(cfg, existing, desired, deletions, newGuid, j, i);
        var e' := CallOfDeletion(cfg, existing, desired, deletions, newGuid, j, k);
      }
    }
  }

  lemma BrokerAndDeletionDiffer(cfg: Config, existing: seq<ServiceBroker>, desired: seq<ServiceBroker>,
      deletions: seq<BrokerTask>, newGuid: string -> string, j: Job<string, Registration>, i: nat, k: nat)
    requires IsResync(cfg, existing, desired, deletions, newGuid, j) && i < |desired| <= k < |j.tasks|
    ensures i < |j.tasks| && j.tasks[i].key != j.tasks[k].key
  {
    CallOfBroker(cfg, existing, desired, deletions, newGuid, j, i);
    var e := CallOfDeletion(cfg, existing, desired, deletions, newGuid, j, k);
    OrphanIsNoTarget(cfg, j.before, existing, desired, newGuid, e, desired[i]);
  }

  /** All calls have returned, and Await reported no error. */
  ghost predicate CallsSucceeded(j: Job<string, Registration>, run: seq<Pool<string, Registration>>, n: nat) {
    IsRun(j, run) && n < |run| && Completed(j, run[n]) && run[n].result == Some(0) && |j.tasks| < COUNTER_RANGE
  }

  /** Every call has had its effect, and nothing else has changed. */
  ghost predicate Brought(j: Job<string, Registration>, after: map<string, Registration>) {
    && (forall i :: 0 <= i < |j.tasks| ==> TaskPool.Lookup(after, j.tasks[i].key) == j.tasks[i].value)
    && (forall g :: TaskPool.Lookup(after, g) == TaskPool.Lookup(j.before, g) || Keyed(j.tasks, g))
  }

  ghost predicate Keyed(tasks: seq<Task<string, Registration>>, g: string) {
    exists i :: 0 <= i < |tasks| && tasks[i].key == g
  }

  lemma SuccessBrings(j: Job<string, Registration>, run: seq<Pool<string, Registration>>, n: nat)
    requires CallsSucceeded(j, run, n) && Agreeing(j.tasks)
    requires forall i :: 0 <= i < |j.tasks| ==> j.tasks[i].ok ==> j.tasks[i].applied
    ensures Brought(j, run[n].platform)
  {
    RunShowsOnlyTaskEffects(j, run, n);
    AwaitReportsFailures(j, run, n);
    RunIsConsistent(j, run, n);
    forall i | 0 <= i < |j.tasks| ensures TaskPool.Lookup(run[n].platform, j.tasks[i].key) == j.tasks[i].value {
      assert TookEffect(j.tasks[i], run[n].phases[i]);
    }
    forall g ensures TaskPool.Lookup(run[n].platform, g) == TaskPool.Lookup(j.before, g) || Keyed(j.tasks, g) {
      if i :| Wrote(j, run[n], i, g) {
        assert j.tasks[i].key == g;
      }
    }
  }

  lemma TargetHosts(cfg: Config, existing: seq<ServiceBroker>, desired: seq<ServiceBroker>, deletions: seq<BrokerTask>,
      newGuid: string -> string, j: Job<string, Registration>, after: map<string, Registration>, i: nat)
    requires IsResync(cfg, existing, desired, deletions, newGuid, j) && Brought(j, after) && i < |desired|
    ensures var g := Target(cfg, existing, newGuid, desired[i]);
            g in after && Hosts(cfg, after[g], desired[i])
  {
    CallOfBroker(cfg, existing, desired, deletions, newGuid, j, i);
  }

  lemma ProxyIsSomeTarget(cfg: Config, existing: seq<ServiceBroker>, desired: seq<ServiceBroker>,
                          deletions: seq<BrokerTask>, newGuid: string -> string, j: Job<string, Registration>,
                          after: map<string, Registration>, g: string, id: string)
    returns (i: nat)
    requires IsResync(cfg, existing, desired, deletions, newGuid, j) && Brought(j, after)
    requires IsProxyOf(cfg, after, g, id)
    ensures i < |desired| && desired[i].guid == id && g == Target(cfg, existing, newGuid, desired[i])
  {
    if k :| 0 <= k < |j.tasks| && j.tasks[k].key == g {
      if k >= |desired| {
        var e := CallOfDeletion(cfg, existing, desired, deletions, newGuid, j, k);
      }
      CallOfBroker(cfg, existing, desired, deletions, newGuid, j, k);
      i := k;
    } else {
      assert TaskPool.Lookup(after, g) == TaskPool.Lookup(j.before, g);
      ProxyIsIndexed(cfg, j.before, existing, g, id);
      if id !in Guids(desired) {
        OrphanIsGone(cfg, existing, desired, deletions, newGuid, j, after, id);
      }
      i :| 0 <= i < |desired| && desired[i].guid == id;
    }
  }

  lemma DeletionIsCall(cfg: Config, regs: map<string, Registration>, newGuid: string -> string, plan: seq<BrokerTask>,
      deletions: seq<BrokerTask>, calls: seq<Task<string, Registration>>, e: ServiceBroker) returns (i: nat)
    requires AreCalls(cfg, regs, newGuid, plan + deletions, calls) && DeleteTask(e) in deletions
    ensures i < |calls| && calls[i].key == e.guid && calls[i].value == None
  {
    var k :| 0 <= k < |deletions| && deletions[k] == DeleteTask(e);
    i := |plan| + k;
    assert (plan + deletions)[i] == DeleteTask(e);
  }

  lemma OrphanIsGone(cfg: Config, existing: seq<ServiceBroker>, desired: seq<ServiceBroker>, deletions: seq<BrokerTask>,
      newGuid: string -> string, j: Job<string, Registration>, after: map<string, Registration>, id: string)
    requires IsResync(cfg, existing, desired, deletions, newGuid, j) && Brought(j, after)
    requires id in Proxies(cfg, existing) && id !in Guids(desired)
    ensures Proxies(cfg, existing)[id].guid !in after
  {
    var e := Proxies(cfg, existing)[id];
    assert Orphans(cfg, existing, desired)[id] == e;
    var i := DeletionIsCall(cfg, j.before, newGuid, Plan(cfg, existing, desired), deletions, j.tasks, e);
    assert TaskPool.Lookup(after, j.tasks[i].key) == None;
  }

  lemma BroughtConverges(cfg: Config, existing: seq<ServiceBroker>, desired: seq<ServiceBroker>,
      deletions: seq<BrokerTask>, newGuid: string -> string, j: Job<string, Registration>,
      after: map<string, Registration>)
    requires IsResync(cfg, existing, desired, deletions, newGuid, j) && Brought(j, after)
    ensures Converged(cfg, after, desired)
  {
    forall d | d in desired ensures exists g :: g in after && Hosts(cfg, after[g], d) {
      var i :| 0 <= i < |desired| && desired[i] == d;
      TargetHosts(cfg, existing, desired, deletions, newGuid, j, after, i);
    }
    forall g, id | IsProxyOf(cfg, after, g, id) ensures id in Guids(desired) {
      var i := ProxyIsSomeTarget(cfg, existing, desired, deletions, newGuid, j, after, g, id);
    }
    forall g, h, id | IsProxyOf(cfg, after, g, id) && IsProxyOf(cfg, after, h, id) ensures g == h {
      var i := ProxyIsSomeTarget(cfg, existing, desired, deletions, newGuid, j, after, g, id);
      var k := ProxyIsSomeTarget(cfg, existing, desired, deletions, newGuid, j, after, h, id);
      assert i == k;
    }
  }

  /** Whatever the interleaving: if no call fails, the proxies on the platform are afterwards exactly the brokers of SM,
      and another resync finds nothing to update, create or delete. */
  lemma BrokerResyncConverges(cfg: Config, existing: seq<ServiceBroker>, desired: seq<ServiceBroker>,
      deletions: seq<BrokerTask>, newGuid: string -> string, j: Job<string, Registration>,
      run: seq<Pool<string, Registration>>, n: nat, existing': seq<ServiceBroker>)
    requires IsResync(cfg, existing, desired, deletions, newGuid, j) && CallsSucceeded(j, run, n)
    requires IsListing(run[n].platform, existing')
    ensures Converged(cfg, run[n].platform, desired)
    ensures OnlyFetches(cfg, existing', desired)
  {
    ResyncCallsAgree(cfg, existing, desired, deletions, newGuid, j);
    SuccessBrings(j, run, n);
    BroughtConverges(cfg, existing, desired, deletions, newGuid, j, run[n].platform);
    ConvergedNeedsNoTask(cfg, run[n].platform, existing', desired);
  }
}
