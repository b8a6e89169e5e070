/** What a resync makes of several registrations that are proxies of one broker: it sees only the one that is listed
    last, so it converges, even if every call succeeds, exactly if there were none. */
module DuplicateProxies {
  import opened Types
  import opened Naming
  import opened World
  import opened TaskPool
  import opened Brokers
  import opened BrokerConvergence
  import Indexing
  import SharedDeletion

  /** The setting of one resync whose calls are `j`, on a platform that may hold several proxies for one broker. */
  ghost predicate IsResyncOfAny(cfg: Config, existing: seq<ServiceBroker>, desired: seq<ServiceBroker>,
                                deletions: seq<BrokerTask>, newGuid: string -> string, j: Job<string, Registration>)
  {
    && IsListing(j.before, existing) && Distinguishable(cfg, existing, desired)
    && NewGuids(cfg, j.before, existing, desired, newGuid) && Deletes(Orphans(cfg, existing, desired), deletions)
    && AreCalls(cfg, j.before, newGuid, Plan(cfg, existing, desired) + deletions, j.tasks)
  }

  /** A proxy that the resync does not see, because another one for the same id is listed after it. */
  ghost predicate Hidden(cfg: Config, regs: map<string, Registration>, existing: seq<ServiceBroker>, g: string,
                         id: string)
  {
    IsProxyOf(cfg, regs, g, id) && id in Proxies(cfg, existing) && Proxies(cfg, existing)[id].guid != g
  }

  lemma SomeProxyIsIndexed(cfg: Config, regs: map<string, Registration>, existing: seq<ServiceBroker>, g: string,
                           id: string)
    requires IsListing(regs, existing) && IsProxyOf(cfg, regs, g, id)
    ensures id in Proxies(cfg, existing)
  {
    var i := ProxyIsListed(cfg, regs, existing, g, id);
    assert ProxyIDOf(cfg)(existing[i]) == Some(id);
    Indexing.IndexHoldsTheLast(existing, ProxyIDOf(cfg));
  }

  lemma HiddenIsNotIndexed(cfg: Config, regs: map<string, Registration>, existing: seq<ServiceBroker>, g: string,
                           id: string, id': string)
    requires IsListing(regs, existing) && Hidden(cfg, regs, existing, g, id) && id' in Proxies(cfg, existing)
    ensures Proxies(cfg, existing)[id'].guid != g
  {
    IndexedIsProxy(cfg, regs, existing, id');
  }

  lemma HiddenIsNoCandidate(cfg: Config, regs: map<string, Registration>, existing: seq<ServiceBroker>,
                            desired: seq<ServiceBroker>, g: string, id: string, d: ServiceBroker)
    requires IsListing(regs, existing) && Distinguishable(cfg, existing, desired) && d in desired
    requires Hidden(cfg, regs, existing, g, id) && BrokerKey(d) in TakeoverCandidates(existing)
    ensures TakeoverCandidates(existing)[BrokerKey(d)].guid != g
  {
    CandidateIsListed(existing, BrokerKey(d));
    ListedIsRegistered(regs, existing, TakeoverCandidates(existing)[BrokerKey(d)]);
  }

  lemma HiddenIsNoTarget(cfg: Config, regs: map<string, Registration>, existing: seq<ServiceBroker>,
                         desired: seq<ServiceBroker>, newGuid: string -> string, g: string, id: string,
                         d: ServiceBroker)
    requires IsListing(regs, existing) && Distinguishable(cfg, existing, desired) && d in desired
    requires NewGuids(cfg, regs, existing, desired, newGuid) && Hidden(cfg, regs, existing, g, id)
    ensures Target(cfg, existing, newGuid, d) != g
  {
    if d.guid in Proxies(cfg, existing) {
      HiddenIsNotIndexed(cfg, regs, existing, g, id, d.guid);
    } else if BrokerKey(d) in TakeoverCandidates(existing) {
      HiddenIsNoCandidate(cfg, regs, existing, desired, g, id, d);
    } else {
      assert NeedsGuid(cfg, existing, desired, d);
    }
  }

  lemma HiddenIsNotPlanned(cfg: Config, regs: map<string, Registration>, existing: seq<ServiceBroker>,
                           desired: seq<ServiceBroker>, newGuid: string -> string, g: string, id: string, k: nat)
    requires IsListing(regs, existing) && Distinguishable(cfg, existing, desired)
    requires NewGuids(cfg, regs, existing, desired, newGuid) && Hidden(cfg, regs, existing, g, id)
    requires k < |Plan(cfg, existing, desired)|
    ensures TargetOf(newGuid, Plan(cfg, existing, desired)[k]) != g
  {
    PlanIsPerBroker(cfg, Proxies(cfg, existing), TakeoverCandidates(existing), desired);
    assert desired[k] in desired;
    TaskHitsTarget(cfg, existing, newGuid, desired[k], Plan(cfg, existing, desired)[k]);
    HiddenIsNoTarget(cfg, regs, existing, desired, newGuid, g, id, desired[k]);
  }

  lemma HiddenIsNotCalled(cfg: Config, existing: seq<ServiceBroker>, desired: seq<ServiceBroker>,
                          deletions: seq<BrokerTask>, newGuid: string -> string, j: Job<string, Registration>,
                          g: string, id: string, i: nat)
    requires IsResyncOfAny(cfg, existing, desired, deletions, newGuid, j) && i < |j.tasks|
    requires Hidden(cfg, j.before, existing, g, id)
    ensures j.tasks[i].key != g
  {
    var plan := Plan(cfg, existing, desired);
    forall k: nat | k < |plan| ensures TargetOf(newGuid, plan[k]) != g {
      HiddenIsNotPlanned(cfg, j.before, existing, desired, newGuid, g, id, k);
    }
    forall t | t in deletions ensures t.DeleteTask? && t.registered.guid != g {
      var id' :| id' in Orphans(cfg, existing, desired) && Orphans(cfg, existing, desired)[id'] == t.registered;
      HiddenIsNotIndexed(cfg, j.before, existing, g, id, id');
    }
    SharedDeletion.NoCallAbout(cfg, j.before, newGuid, plan, deletions, j.tasks, g, i);
  }

  lemma HiddenStays(cfg: Config, existing: seq<ServiceBroker>, desired: seq<ServiceBroker>, deletions: seq<BrokerTask>,
      newGuid: string -> string, j: Job<string, Registration>, after: map<string, Registration>, g: string, id: string)
    requires IsResyncOfAny(cfg, existing, desired, deletions, newGuid, j) && Brought(j, after)
    requires Hidden(cfg, j.before, existing, g, id)
    ensures IsProxyOf(cfg, after, g, id)
  {
    forall i | 0 <= i < |j.tasks| ensures j.tasks[i].key != g {
      HiddenIsNotCalled(cfg, existing, desired, deletions, newGuid, j, g, id, i);
    }
    assert TaskPool.Lookup(after, g) == TaskPool.Lookup(j.before, g);
  }

  /** The one that is listed last becomes, or stays, the registration that hosts the broker. */
  lemma IndexedStays(cfg: Config, existing: seq<ServiceBroker>, desired: seq<ServiceBroker>, deletions: seq<BrokerTask>,
      newGuid: string -> string, j: Job<string, Registration>, after: map<string, Registration>, i: nat)
    requires IsResyncOfAny(cfg, existing, desired, deletions, newGuid, j) && Brought(j, after)
    requires i < |desired| && desired[i].guid in Proxies(cfg, existing)
    ensures IsProxyOf(cfg, after, Proxies(cfg, existing)[desired[i].guid].guid, desired[i].guid)
  {
    var plan := Plan(cfg, existing, desired);
    PlanIsPerBroker(cfg, Proxies(cfg, existing), TakeoverCandidates(existing), desired);
    assert (plan + deletions)[i] == plan[i];
    TaskHitsTarget(cfg, existing, newGuid, desired[i], plan[i]);
    TaskMakesHost(cfg, j.before, existing, desired[i], plan[i]);
  }

  /** Each proxy of a desired broker is still one after the resync. */
  lemma ProxyOfDesiredStays(cfg: Config, existing: seq<ServiceBroker>, desired: seq<ServiceBroker>,
      deletions: seq<BrokerTask>, newGuid: string -> string, j: Job<string, Registration>,
      after: map<string, Registration>, g: string, id: string)
    requires IsResyncOfAny(cfg, existing, desired, deletions, newGuid, j) && Brought(j, after)
    requires IsProxyOf(cfg, j.before, g, id) && id in Guids(desired)
    ensures IsProxyOf(cfg, after, g, id)
  {
    SomeProxyIsIndexed(cfg, j.before, existing, g, id);
    if Proxies(cfg, existing)[id].guid == g {
      var i :| 0 <= i < |desired| && desired[i].guid == id;
      IndexedStays(cfg, existing, desired, deletions, newGuid, j, after, i);
    } else {
      HiddenStays(cfg, existing, desired, deletions, newGuid, j, after, g, id);
    }
  }

  lemma DuplicatePreventsConvergence(cfg: Config, existing: seq<ServiceBroker>, desired: seq<ServiceBroker>,
      deletions: seq<BrokerTask>, newGuid: string -> string, j: Job<string, Registration>,
      after: map<string, Registration>, g: string, h: string, id: string)
    requires IsResyncOfAny(cfg, existing, desired, deletions, newGuid, j) && Brought(j, after)
    requires IsProxyOf(cfg, j.before, g, id) && IsProxyOf(cfg, j.before, h, id) && g != h
    ensures !Converged(cfg, after, desired)
  {
    if id in Guids(desired) {
      ProxyOfDesiredStays(cfg, existing, desired, deletions, newGuid, j, after, g, id);
      ProxyOfDesiredStays(cfg, existing, desired, deletions, newGuid, j, after, h, id);
    } else {
      SomeProxyIsIndexed(cfg, j.before, existing, g, id);
      var hidden := if Proxies(cfg, existing)[id].guid == g then h else g;
      HiddenStays(cfg, existing, desired, deletions, newGuid, j, after, hidden, id);
    }
  }

  /** When all calls succeed, a resync that deletes every orphan it sees converges if and only if no two
      registrations were proxies of one broker. */
  lemma ConvergesIffOneProxyEach(cfg: Config, existing: seq<ServiceBroker>, desired: seq<ServiceBroker>,
      deletions: seq<BrokerTask>, newGuid: string -> string, j: Job<string, Registration>,
      after: map<string, Registration>)
    requires IsResyncOfAny(cfg, existing, desired, deletions, newGuid, j) && Brought(j, after)
    ensures Converged(cfg, after, desired) <==> OneProxyEach(cfg, j.before)
  {
    if OneProxyEach(cfg, j.before) {
      BroughtConverges(cfg, existing, desired, deletions, newGuid, j, after);
    } else {
      var g, h, id :| IsProxyOf(cfg, j.before, g, id) && IsProxyOf(cfg, j.before, h, id) && g != h;
      DuplicatePreventsConvergence(cfg, existing, desired, deletions, newGuid, j, after, g, h, id);
    }
  }

  // ---- Resync after resync ----

  /** One resync in which every call succeeded led from one state of the platform to the other. */
  ghost predicate Resynced(cfg: Config, desired: seq<ServiceBroker>, before: map<string, Registration>,
                           after: map<string, Registration>)
  {
    exists existing, deletions, newGuid, j ::
      IsResyncOfAny(cfg, existing, desired, deletions, newGuid, j) && j.before == before && Brought(j, after)
  }

  ghost predicate TwoProxies(cfg: Config, regs: map<string, Registration>, g: string, h: string, id: string) {
    IsProxyOf(cfg, regs, g, id) && IsProxyOf(cfg, regs, h, id) && g != h
  }

  lemma TwoProxiesStay(cfg: Config, desired: seq<ServiceBroker>, before: map<string, Registration>,
                       after: map<string, Registration>, g: string, h: string, id: string)
    requires Resynced(cfg, desired, before, after) && TwoProxies(cfg, before, g, h, id) && id in Guids(desired)
    ensures TwoProxies(cfg, after, g, h, id) && !Converged(cfg, after, desired)
  {
    var existing, deletions, newGuid, j :|
      IsResyncOfAny(cfg, existing, desired, deletions, newGuid, j) && j.before == before && Brought(j, after);
    ProxyOfDesiredStays(cfg, existing, desired, deletions, newGuid, j, after, g, id);
    ProxyOfDesiredStays(cfg, existing, desired, deletions, newGuid, j, after, h, id);
    DuplicatePreventsConvergence(cfg, existing, desired, deletions, newGuid, j, after, g, h, id);
  }

  /** A second proxy of a broker survives every number of resyncs without a failing call, whatever else SM does, as
      long as SM wants the broker; and none of them converges. */
  lemma {:induction false} DuplicateSurvivesResyncs(cfg: Config, states: seq<map<string, Registration>>,
      desired: seq<seq<ServiceBroker>>, g: string, h: string, id: string, n: nat)
    requires |states| == |desired| + 1 && n < |states|
    requires forall k :: 0 <= k < |desired| ==> Resynced(cfg, desired[k], states[k], states[k + 1])
    requires forall k :: 0 <= k < |desired| ==> id in Guids(desired[k])
    requires TwoProxies(cfg, states[0], g, h, id)
    ensures TwoProxies(cfg, states[n], g, h, id) && (n > 0 ==> !Converged(cfg, states[n], desired[n - 1]))
  {
    if n > 0 {
      DuplicateSurvivesResyncs(cfg, states, desired, g, h, id, n - 1);
      TwoProxiesStay(cfg, desired[n - 1], states[n - 1], states[n], g, h, id);
    }
  }
}
