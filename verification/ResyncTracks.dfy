/** What a broker resync in which every call succeeds leaves, in the terms in which the handlers go on from it. */
module ResyncTracks {
  import opened Types
  import opened Naming
  import opened World
  import opened TaskPool
  import opened Registrations
  import opened Brokers
  import opened BrokerConvergence
  import Resync
  import Stories
  import VisibilityResync
  import R = BrokerReplay

  /** A registration is as before, or it is that of a desired broker. */
  ghost predicate Explained(cfg: Config, before: map<string, Registration>, desired: seq<ServiceBroker>, g: string,
                            r: Registration)
  {
    (g in before && before[g] == r) || exists d :: d in desired && r == ProxyRegistration(cfg, d)
  }

  lemma TaskWrites(cfg: Config, regs: map<string, Registration>, proxies: map<string, ServiceBroker>,
                   candidates: map<string, ServiceBroker>, newGuid: string -> string, d: ServiceBroker, t: BrokerTask)
    requires TaskFor(cfg, proxies, candidates, d) == Some(t)
    ensures OutcomeOf(cfg, regs, t) == TaskPool.Lookup(regs, TargetOf(newGuid, t))
            || OutcomeOf(cfg, regs, t) == Some(ProxyRegistration(cfg, d))
  {
  }

  lemma CallWrites(cfg: Config, existing: seq<ServiceBroker>, desired: seq<ServiceBroker>, deletions: seq<BrokerTask>,
                   newGuid: string -> string, j: Job<string, Registration>, i: nat)
    requires IsResync(cfg, existing, desired, deletions, newGuid, j) && i < |j.tasks|
    ensures j.tasks[i].value.Some? ==> Explained(cfg, j.before, desired, j.tasks[i].key, j.tasks[i].value.value)
  {
    var plan := Plan(cfg, existing, desired);
    PlanIsPerBroker(cfg, Proxies(cfg, existing), TakeoverCandidates(existing), desired);
    if i < |desired| {
      assert (plan + deletions)[i] == plan[i] && desired[i] in desired;
      TaskWrites(cfg, j.before, Proxies(cfg, existing), TakeoverCandidates(existing), newGuid, desired[i], plan[i]);
    } else {
      var e := CallOfDeletion(cfg, existing, desired, deletions, newGuid, j, i);
    }
  }

  lemma AllExplained(cfg: Config, existing: seq<ServiceBroker>, desired: seq<ServiceBroker>, deletions: seq<BrokerTask>,
      newGuid: string -> string, j: Job<string, Registration>, after: map<string, Registration>, g: string)
    requires IsResync(cfg, existing, desired, deletions, newGuid, j) && Brought(j, after) && g in after
    ensures Explained(cfg, j.before, desired, g, after[g])
  {
    if Keyed(j.tasks, g) {
      var i :| 0 <= i < |j.tasks| && j.tasks[i].key == g;
      CallWrites(cfg, existing, desired, deletions, newGuid, j, i);
    } else {
      assert TaskPool.Lookup(after, g) == TaskPool.Lookup(j.before, g);
    }
  }

  lemma ExplainedIsCurrent(cfg: Config, before: map<string, Registration>, desired: seq<ServiceBroker>, g: string,
                           r: Registration)
    requires R.CurrentURLs(cfg, before) && Explained(cfg, before, desired, g, r)
    requires forall d :: d in desired ==> '/' !in d.guid
    ensures IsProxyURL(cfg, r.url) ==> r.url == ProxyPath(cfg, BrokerIDFromURL(r.url))
  {
    if d :| d in desired && r == ProxyRegistration(cfg, d) {
      ProxyPathIsProxyURL(cfg, d.guid);
    }
  }

  lemma ExplainedIsGenuine(cfg: Config, before: map<string, Registration>, desired: seq<ServiceBroker>,
                           brokers: set<ServiceBroker>, length: nat, g: string, r: Registration, b: ServiceBroker)
    requires R.Genuine(cfg, before, brokers) && R.SameLengthIDs(brokers, length) && b in brokers
    requires forall d :: d in desired ==> |d.guid| == length
    requires Explained(cfg, before, desired, g, r) && r.name == ProxyNameOf(cfg, b)
    ensures r.url == ProxyPath(cfg, b.guid)
  {
    if d :| d in desired && r == ProxyRegistration(cfg, d) {
      ProxyNameIdentifiesBroker(cfg, d.name, d.guid, b.name, b.guid);
    } else {
      assert R.ProxyAt(cfg, before, g, b.guid);
    }
  }

  /** From a platform that is ready, whose proxies have present URLs and which gives the proxy names of brokers to their
      proxies only: after a resync in which every call succeeds all this holds again, and the platform has exactly the
      proxies that SM wants. */
  lemma ResyncLeavesTracks(cfg: Config, existing: seq<ServiceBroker>, desired: seq<ServiceBroker>,
      deletions: seq<BrokerTask>, newGuid: string -> string, j: Job<string, Registration>,
      after: map<string, Registration>, wanted: R.SMBrokers, brokers: set<ServiceBroker>, length: nat)
    requires IsResync(cfg, existing, desired, deletions, newGuid, j) && Brought(j, after)
    requires R.CurrentURLs(cfg, j.before) && R.Genuine(cfg, j.before, brokers) && R.SameLengthIDs(brokers, length)
    requires R.Lists(wanted, desired) && R.KeyedByID(wanted) && forall d :: d in desired ==> |d.guid| == length
    ensures R.CurrentURLs(cfg, after) && R.Genuine(cfg, after, brokers) && R.Tracks(cfg, after, wanted)
  {
    forall g | g in after ensures Explained(cfg, j.before, desired, g, after[g]) {
      AllExplained(cfg, existing, desired, deletions, newGuid, j, after, g);
    }
    forall g | g in after && IsProxyURL(cfg, after[g].url)
      ensures after[g].url == ProxyPath(cfg, BrokerIDFromURL(after[g].url))
    {
      ExplainedIsCurrent(cfg, j.before, desired, g, after[g]);
    }
    ExplainedMeansGenuine(cfg, j.before, desired, brokers, length, after);
    BroughtConverges(cfg, existing, desired, deletions, newGuid, j, after);
    R.TracksIffConverged(cfg, after, wanted, desired);
  }

  lemma ExplainedMeansGenuine(cfg: Config, before: map<string, Registration>, desired: seq<ServiceBroker>,
                              brokers: set<ServiceBroker>, length: nat, after: map<string, Registration>)
    requires R.Genuine(cfg, before, brokers) && R.SameLengthIDs(brokers, length)
    requires forall d :: d in desired ==> |d.guid| == length
    requires forall g :: g in after ==> Explained(cfg, before, desired, g, after[g])
    ensures R.Genuine(cfg, after, brokers)
  {
    forall g, b | b in brokers && g in after && after[g].name == ProxyNameOf(cfg, b)
      ensures R.ProxyAt(cfg, after, g, b.guid)
    {
      ExplainedIsGenuine(cfg, before, desired, brokers, length, g, after[g], b);
    }
  }

  /** The same for every interleaving of the calls through the task pool. */
  lemma RunLeavesTracks(cfg: Config, existing: seq<ServiceBroker>, desired: seq<ServiceBroker>,
      deletions: seq<BrokerTask>, newGuid: string -> string, j: Job<string, Registration>,
      run: seq<Pool<string, Registration>>, n: nat, wanted: R.SMBrokers, brokers: set<ServiceBroker>, length: nat)
    requires IsResync(cfg, existing, desired, deletions, newGuid, j) && CallsSucceeded(j, run, n)
    requires R.CurrentURLs(cfg, j.before) && R.Genuine(cfg, j.before, brokers) && R.SameLengthIDs(brokers, length)
    requires R.Lists(wanted, desired) && R.KeyedByID(wanted) && forall d :: d in desired ==> |d.guid| == length
    ensures var after := run[n].platform;
            R.CurrentURLs(cfg, after) && R.Genuine(cfg, after, brokers) && R.Tracks(cfg, after, wanted)
  {
    ResyncCallsAgree(cfg, existing, desired, deletions, newGuid, j);
    SuccessBrings(j, run, n);
    ResyncLeavesTracks(cfg, existing, desired, deletions, newGuid, j, run[n].platform, wanted, brokers, length);
  }

  // ---- A whole resync behind which a story goes on ----

  /** SM as the resync saw it is where the story is after `seen` entries. */
  ghost predicate IsSeen(w: Stories.Story, seen: nat, sm: SMState) {
    && Stories.IsStory(w) && seen <= |w.entries| && seen < |w.visibilities|
    && sm.visibilities == w.visibilities[seen]
    && var cfg := w.catalog.cfg;
       var desired := Resync.Allowed(cfg, sm.brokers);
       && R.Lists(R.Wanted(cfg, Stories.BrokersAfter(w, seen)), desired)
       && R.KeyedByID(R.Wanted(cfg, Stories.BrokersAfter(w, seen)))
       && w.catalog.plans == VisibilityResync.SMPlans(sm, desired)
          && w.catalog.names == VisibilityResync.Names(cfg, desired)
       && forall d :: d in desired ==> |d.guid| == w.ofBrokers.length
  }

  /** What the story takes of a finished resync is what one without a failing call achieves: from a ready platform
      with present URLs and genuine proxy names, whatever the interleaving of the broker calls and whatever the
      chunks of the other half. */
  lemma ResyncGoesWell(w: Stories.Story, seen: nat, sm: SMState, existing: seq<ServiceBroker>,
                       deletions: seq<BrokerTask>, newGuid: string -> string, j: Job<string, Registration>,
                       before: set<Grant>, r: Resync.Report, states: seq<set<Grant>>, after: Stories.Platform)
    requires IsSeen(w, seen, sm) && R.CurrentURLs(w.catalog.cfg, j.before)
    requires R.Genuine(w.catalog.cfg, j.before, w.ofBrokers.brokers)
    requires IsResync(w.catalog.cfg, existing, Resync.Allowed(w.catalog.cfg, sm.brokers), deletions, newGuid, j)
    requires Brought(j, after.regs)
    requires r.Report? && forall c :: 0 <= c < |r.chunkOk| ==> r.chunkOk[c]
    requires Resync.VisibilitiesResynced(w.catalog.cfg, sm, before, r, Resync.Allowed(w.catalog.cfg, sm.brokers),
                                         states,
                                         after.grants)
    requires VisibilityResync.Separate(w.catalog.cfg, Resync.Allowed(w.catalog.cfg, sm.brokers))
    requires Resync.ClearAccess(w.catalog.cfg, sm, before)
    ensures Stories.ResyncedTo(w, seen, after) && R.CurrentURLs(w.catalog.cfg, after.regs)
  {
    var cfg := w.catalog.cfg;
    var desired := Resync.Allowed(cfg, sm.brokers);
    ResyncLeavesTracks(cfg, existing, desired, deletions, newGuid, j, after.regs,
                       R.Wanted(cfg, Stories.BrokersAfter(w, seen)), w.ofBrokers.brokers, w.ofBrokers.length);
    Resync.VisibilitiesEstablished(cfg, sm, before, after.grants, r, states);
    Stories.CountInRange(w, seen);
  }
}
