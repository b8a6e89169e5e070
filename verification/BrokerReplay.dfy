/** Notifications about brokers against what a full resync would produce: one notification handled in time, and
    notifications replayed although a resync has already seen what they announce. */
module BrokerReplay {
  import opened Types
  import opened Naming
  import opened World
  import opened Registrations
  import opened BrokerHandler
  import Brokers
  import opened BrokerConvergence

  /** The brokers that SM holds, by id. */
  type SMBrokers = map<string, ServiceBroker>

  /** The change that SM announces is the step from one of its states to the next. */
  predicate Steps(s: SMBrokers, c: Change, s': SMBrokers) {
    match c
    case Created(d) => d.guid !in s && s' == s[d.guid := d]
    case Modified(b, a) => b.guid == a.guid && b.guid in s && s[b.guid] == b && s' == s[a.guid := a]
    case Deleted(b) => b.guid in s && s[b.guid] == b && s' == s - {b.guid}
  }

  predicate ProxyAt(cfg: Config, regs: map<string, Registration>, g: string, id: string) {
    g in regs && regs[g].url == ProxyPath(cfg, id)
  }

  lemma ProxyPathIdentifies(cfg: Config, id: string, id': string)
    ensures ProxyPath(cfg, id) == ProxyPath(cfg, id') <==> id == id'
  {
    assert ProxyPath(cfg, id)[|cfg.smPath| + 1..] == id;
    assert ProxyPath(cfg, id')[|cfg.smPath| + 1..] == id';
  }

  // ---- Where the platform stands between two states of SM ----

  ghost predicate OneEach(cfg: Config, regs: map<string, Registration>) {
    forall g, h, id :: ProxyAt(cfg, regs, g, id) && ProxyAt(cfg, regs, h, id) ==> g == h
  }

  predicate NameFits(cfg: Config, name: string, id: string, now: SMBrokers, ahead: SMBrokers) {
    || (id in ahead && name == ProxyNameOf(cfg, ahead[id]))
    || (id in now && name == ProxyNameOf(cfg, now[id]))
  }

  ghost predicate HasProxy(cfg: Config, regs: map<string, Registration>, id: string) {
    exists g :: ProxyAt(cfg, regs, g, id)
  }

  /** The platform has one proxy for each of these ids and no other, each under the name that the broker has in
      `ahead` or under the one it has in `now`. */
  ghost predicate Follows(cfg: Config, regs: map<string, Registration>, ids: set<string>, now: SMBrokers,
                          ahead: SMBrokers)
  {
    && OneEach(cfg, regs)
    && (forall id :: HasProxy(cfg, regs, id) <==> id in ids)
    && (forall g, id :: ProxyAt(cfg, regs, g, id) ==> NameFits(cfg, regs[g].name, id, now, ahead))
  }

  /** The platform has one proxy for each of the brokers, under its name, and no other. */
  ghost predicate Tracks(cfg: Config, regs: map<string, Registration>, brokers: SMBrokers) {
    Follows(cfg, regs, brokers.Keys, brokers, brokers)
  }

  /** Whatever bears the proxy name of one of the brokers is a proxy of that broker. */
  ghost predicate Genuine(cfg: Config, regs: map<string, Registration>, brokers: set<ServiceBroker>) {
    forall g, b :: b in brokers && Named(regs, g, ProxyNameOf(cfg, b)) ==> ProxyAt(cfg, regs, g, b.guid)
  }

  predicate SameLengthIDs(brokers: set<ServiceBroker>, length: nat) {
    forall b | b in brokers :: |b.guid| == length
  }

  function BrokersIn(c: Change): set<ServiceBroker> {
    match c
    case Created(d) => {d}
    case Modified(b, a) => {b, a}
    case Deleted(b) => {b}
  }

  /** Nothing on the platform has the broker's own name, unless it is that very broker and takeover is enabled. */
  ghost predicate NoClash(cfg: Config, regs: map<string, Registration>, d: ServiceBroker) {
    forall g :: Named(regs, g, d.name) ==> cfg.takeoverEnabled && regs[g].url == d.url && !IsProxyURL(cfg, d.url)
  }

  ghost predicate Calm(cfg: Config, regs: map<string, Registration>, c: Change) {
    !Blacklisted(cfg, c) && (c.Created? ==> NoClash(cfg, regs, c.after))
  }

  // ---- The effect of one change ----

  function Renamed(cfg: Config, r: Registration, b: ServiceBroker, a: ServiceBroker): Registration {
    if r.url == ProxyPath(cfg, b.guid) && r.name == ProxyNameOf(cfg, b) then ProxyRegistration(cfg, a) else r
  }

  lemma EffectOfModified(cfg: Config, regs: map<string, Registration>, b: ServiceBroker, a: ServiceBroker,
                         brokers: set<ServiceBroker>, regs': map<string, Registration>)
    requires OneEach(cfg, regs) && Genuine(cfg, regs, brokers) && b in brokers && b.guid == a.guid
    requires !Blacklisted(cfg, Modified(b, a)) && Handled(cfg, regs, Modified(b, a), regs')
    ensures regs'.Keys == regs.Keys && forall g :: g in regs ==> regs'[g] == Renamed(cfg, regs[g], b, a)
  {
    if !Missing(regs, ProxyNameOf(cfg, b)) {
      var g :| Named(regs, g, ProxyNameOf(cfg, b)) && regs' == WhenFound(cfg, regs, Modified(b, a), g);
      assert ProxyAt(cfg, regs, g, b.guid);
      forall h | h in regs ensures regs'[h] == Renamed(cfg, regs[h], b, a) {
        assert ProxyAt(cfg, regs, h, b.guid) ==> h == g;
      }
    } else {
      forall h | h in regs ensures regs'[h] == Renamed(cfg, regs[h], b, a) {
        assert !Named(regs, h, ProxyNameOf(cfg, b));
      }
    }
  }

  lemma EffectOfDeleted(cfg: Config, regs: map<string, Registration>, b: ServiceBroker, brokers: set<ServiceBroker>,
                        regs': map<string, Registration>)
    requires OneEach(cfg, regs) && Genuine(cfg, regs, brokers) && b in brokers
    requires !Blacklisted(cfg, Deleted(b)) && Handled(cfg, regs, Deleted(b), regs')
    ensures forall g ::
              g in regs' <==> g in regs && !(ProxyAt(cfg, regs, g, b.guid) && regs[g].name == ProxyNameOf(cfg, b))
    ensures forall g :: g in regs' ==> regs'[g] == regs[g]
  {
    if !Missing(regs, ProxyNameOf(cfg, b)) {
      var g :| Named(regs, g, ProxyNameOf(cfg, b)) && regs' == WhenFound(cfg, regs, Deleted(b), g);
      assert ProxyAt(cfg, regs, g, b.guid);
      assert forall h :: ProxyAt(cfg, regs, h, b.guid) ==> h == g;
    } else {
      assert forall h :: h in regs ==> !Named(regs, h, ProxyNameOf(cfg, b));
    }
  }

  lemma ProxyURLOfPath(cfg: Config, id: string)
    ensures IsProxyURL(cfg, ProxyPath(cfg, id))
  {
  }

  /** A creation puts one registration in place, over nothing or over a broker that is no proxy. */
  lemma EffectOfCreated(cfg: Config, regs: map<string, Registration>, d: ServiceBroker,
                        regs': map<string, Registration>)
    returns (g: string)
    requires Calm(cfg, regs, Created(d)) && Handled(cfg, regs, Created(d), regs')
    ensures regs' == regs[g := ProxyRegistration(cfg, d)]
    ensures g in regs ==> !IsProxyURL(cfg, regs[g].url)
  {
    if Missing(regs, d.name) {
      g :| g !in regs && regs' == regs[g := ProxyRegistration(cfg, d)];
    } else {
      g :| Named(regs, g, d.name) && regs' == WhenFound(cfg, regs, Created(d), g);
    }
  }

  // ---- Steps ----

  lemma GenuineStep(cfg: Config, regs: map<string, Registration>, c: Change, brokers: set<ServiceBroker>, length: nat,
                    regs': map<string, Registration>)
    requires Genuine(cfg, regs, brokers) && SameLengthIDs(brokers, length) && BrokersIn(c) <= brokers
    requires Handled(cfg, regs, c, regs')
    ensures Genuine(cfg, regs', brokers)
  {
    forall g, b | b in brokers && Named(regs', g, ProxyNameOf(cfg, b)) ensures ProxyAt(cfg, regs', g, b.guid) {
      if g in regs && regs'[g] == regs[g] {
        assert Named(regs, g, ProxyNameOf(cfg, b));
      } else {
        var a := c.after;
        assert regs'[g] == ProxyRegistration(cfg, a);
        ProxyNameIdentifiesBroker(cfg, b.name, b.guid, a.name, a.guid);
      }
    }
  }

  lemma ModifiedStep(cfg: Config, regs: map<string, Registration>, b: ServiceBroker, a: ServiceBroker,
                     brokers: set<ServiceBroker>, regs': map<string, Registration>, ids: set<string>, now: SMBrokers,
                     now': SMBrokers, ahead: SMBrokers, ahead': SMBrokers)
    requires Follows(cfg, regs, ids, now, ahead) && Genuine(cfg, regs, brokers) && b in brokers
    requires !Blacklisted(cfg, Modified(b, a)) && Handled(cfg, regs, Modified(b, a), regs')
    requires Steps(now, Modified(b, a), now')
    requires ahead' == ahead || (ahead == now && ahead' == now')
    ensures Follows(cfg, regs', ids, now', ahead')
  {
    EffectOfModified(cfg, regs, b, a, brokers, regs');
    forall g, id ensures ProxyAt(cfg, regs', g, id) <==> ProxyAt(cfg, regs, g, id) {
    }
    forall id ensures HasProxy(cfg, regs', id) <==> HasProxy(cfg, regs, id) {
      if g :| ProxyAt(cfg, regs, g, id) {
        assert ProxyAt(cfg, regs', g, id);
      }
      if g :| ProxyAt(cfg, regs', g, id) {
        assert ProxyAt(cfg, regs, g, id);
      }
    }
    forall g, id | ProxyAt(cfg, regs', g, id) ensures NameFits(cfg, regs'[g].name, id, now', ahead') {
      assert NameFits(cfg, regs[g].name, id, now, ahead);
      ProxyPathIdentifies(cfg, id, b.guid);
    }
  }

  /** The proxy is found and deleted because it bears its present name, unless there is none. */
  lemma DeletedStep(cfg: Config, regs: map<string, Registration>, b: ServiceBroker, brokers: set<ServiceBroker>,
                    regs': map<string, Registration>, ids: set<string>, now: SMBrokers, now': SMBrokers,
                    ahead: SMBrokers, ahead': SMBrokers)
    requires Follows(cfg, regs, ids, now, ahead) && Genuine(cfg, regs, brokers) && b in brokers
    requires !Blacklisted(cfg, Deleted(b)) && Handled(cfg, regs, Deleted(b), regs')
    requires Steps(now, Deleted(b), now')
    requires (ahead' == ahead && b.guid !in ahead) || (ahead == now && ahead' == now')
    ensures Follows(cfg, regs', ids - {b.guid}, now', ahead')
  {
    EffectOfDeleted(cfg, regs, b, brokers, regs');
    forall g, id | ProxyAt(cfg, regs', g, id)
      ensures ProxyAt(cfg, regs, g, id) && id != b.guid && regs'[g] == regs[g]
    {
      assert ProxyAt(cfg, regs, g, id);
      assert NameFits(cfg, regs[g].name, id, now, ahead);
    }
    forall id ensures HasProxy(cfg, regs', id) <==> id in ids - {b.guid} {
      if id in ids - {b.guid} {
        assert HasProxy(cfg, regs, id);
        var g :| ProxyAt(cfg, regs, g, id);
        ProxyPathIdentifies(cfg, id, b.guid);
        assert ProxyAt(cfg, regs', g, id);
      } else if g :| ProxyAt(cfg, regs', g, id) {
        assert HasProxy(cfg, regs, id);
      }
    }
    forall g, id | ProxyAt(cfg, regs', g, id) ensures NameFits(cfg, regs'[g].name, id, now', ahead') {
      assert NameFits(cfg, regs[g].name, id, now, ahead);
    }
  }

  lemma ProxiesAfterCreate(cfg: Config, regs: map<string, Registration>, d: ServiceBroker, h: string, g: string,
                           id: string)
    requires h in regs ==> !IsProxyURL(cfg, regs[h].url)
    ensures ProxyAt(cfg, regs[h := ProxyRegistration(cfg, d)], g, id)
         <==> ProxyAt(cfg, regs, g, id) || (g == h && id == d.guid)
    ensures ProxyAt(cfg, regs, g, id) ==> g != h
  {
    ProxyPathIdentifies(cfg, id, d.guid);
    ProxyURLOfPath(cfg, id);
  }

  lemma HasProxyAfterCreate(cfg: Config, regs: map<string, Registration>, d: ServiceBroker, h: string, id: string)
    requires h in regs ==> !IsProxyURL(cfg, regs[h].url)
    ensures HasProxy(cfg, regs[h := ProxyRegistration(cfg, d)], id) <==> HasProxy(cfg, regs, id) || id == d.guid
  {
    var regs' := regs[h := ProxyRegistration(cfg, d)];
    if g :| ProxyAt(cfg, regs, g, id) {
      ProxiesAfterCreate(cfg, regs, d, h, g, id);
      assert ProxyAt(cfg, regs', g, id);
    } else if id == d.guid {
      assert ProxyAt(cfg, regs', h, id);
    } else if g :| ProxyAt(cfg, regs', g, id) {
      ProxiesAfterCreate(cfg, regs, d, h, g, id);
    }
  }

  lemma OneEachAfterCreate(cfg: Config, regs: map<string, Registration>, d: ServiceBroker, h: string)
    requires OneEach(cfg, regs) && !HasProxy(cfg, regs, d.guid)
    requires h in regs ==> !IsProxyURL(cfg, regs[h].url)
    ensures OneEach(cfg, regs[h := ProxyRegistration(cfg, d)])
  {
    var regs' := regs[h := ProxyRegistration(cfg, d)];
    forall g, g', id | ProxyAt(cfg, regs', g, id) && ProxyAt(cfg, regs', g', id) ensures g == g' {
      ProxiesAfterCreate(cfg, regs, d, h, g, id);
      ProxiesAfterCreate(cfg, regs, d, h, g', id);
    }
  }

  lemma NamesAfterCreate(cfg: Config, regs: map<string, Registration>, d: ServiceBroker, h: string, ids: set<string>,
                         now: SMBrokers, ahead: SMBrokers, ahead': SMBrokers, g: string, id: string)
    requires Follows(cfg, regs, ids, now, ahead) && (h in regs ==> !IsProxyURL(cfg, regs[h].url))
    requires ProxyAt(cfg, regs[h := ProxyRegistration(cfg, d)], g, id) && d.guid !in now
    requires ahead' == ahead || (ahead == now && ahead' == now[d.guid := d])
    ensures NameFits(cfg, regs[h := ProxyRegistration(cfg, d)][g].name, id, now[d.guid := d], ahead')
  {
    ProxiesAfterCreate(cfg, regs, d, h, g, id);
    if ProxyAt(cfg, regs, g, id) {
      assert NameFits(cfg, regs[g].name, id, now, ahead);
    }
  }

  lemma CreatedStep(cfg: Config, regs: map<string, Registration>, d: ServiceBroker, regs': map<string, Registration>,
                    ids: set<string>, now: SMBrokers, now': SMBrokers, ahead: SMBrokers, ahead': SMBrokers)
    requires Follows(cfg, regs, ids, now, ahead) && d.guid !in ids
    requires Calm(cfg, regs, Created(d)) && Handled(cfg, regs, Created(d), regs')
    requires Steps(now, Created(d), now')
    requires ahead' == ahead || (ahead == now && ahead' == now')
    ensures Follows(cfg, regs', ids + {d.guid}, now', ahead')
  {
    var h := EffectOfCreated(cfg, regs, d, regs');
    OneEachAfterCreate(cfg, regs, d, h);
    forall id ensures HasProxy(cfg, regs', id) <==> id in ids + {d.guid} {
      HasProxyAfterCreate(cfg, regs, d, h, id);
    }
    forall g, id | ProxyAt(cfg, regs', g, id) ensures NameFits(cfg, regs'[g].name, id, now', ahead') {
      NamesAfterCreate(cfg, regs, d, h, ids, now, ahead, ahead', g, id);
    }
  }

  // ---- Incremental against full ----

  /** The proxies on the platform all have the URL that the program gives them today. */
  ghost predicate CurrentURLs(cfg: Config, regs: map<string, Registration>) {
    forall g :: g in regs && IsProxyURL(cfg, regs[g].url) ==>
      regs[g].url == ProxyPath(cfg, BrokerIDFromURL(regs[g].url))
  }

  ghost predicate Lists(brokers: SMBrokers, desired: seq<ServiceBroker>) {
    && DistinctGuids(desired)
    && (forall d :: d in desired <==> d.guid in brokers && brokers[d.guid] == d)
  }

  ghost predicate KeyedByID(brokers: SMBrokers) {
    forall id :: id in brokers ==> brokers[id].guid == id && '/' !in id
  }

  lemma GuidsOfListed(brokers: SMBrokers, desired: seq<ServiceBroker>)
    requires Lists(brokers, desired) && KeyedByID(brokers)
    ensures Guids(desired) == brokers.Keys
  {
  }

  lemma ProxiesAreAtPaths(cfg: Config, regs: map<string, Registration>)
    requires CurrentURLs(cfg, regs)
    ensures forall g, id :: IsProxyOf(cfg, regs, g, id) ==> ProxyAt(cfg, regs, g, id)
    ensures forall g, id :: ProxyAt(cfg, regs, g, id) && '/' !in id ==>
              IsProxyOf(cfg, regs, g, id) && cfg.smPath <= regs[g].url
  {
  }

  /** A platform whose proxies have current URLs has converged exactly when it tracks SM. */
  lemma TracksIffConverged(cfg: Config, regs: map<string, Registration>, brokers: SMBrokers,
                           desired: seq<ServiceBroker>)
    requires Lists(brokers, desired) && KeyedByID(brokers) && CurrentURLs(cfg, regs)
    ensures Tracks(cfg, regs, brokers) <==> Converged(cfg, regs, desired)
  {
    GuidsOfListed(brokers, desired);
    ProxiesAreAtPaths(cfg, regs);
    if Tracks(cfg, regs, brokers) {
      TracksMeansConverged(cfg, regs, brokers, desired);
    }
    if Converged(cfg, regs, desired) {
      ConvergedMeansTracks(cfg, regs, brokers, desired);
    }
  }

  lemma TracksMeansConverged(cfg: Config, regs: map<string, Registration>, brokers: SMBrokers,
                             desired: seq<ServiceBroker>)
    requires Lists(brokers, desired) && KeyedByID(brokers) && CurrentURLs(cfg, regs)
    requires Tracks(cfg, regs, brokers)
    ensures Converged(cfg, regs, desired)
  {
    GuidsOfListed(brokers, desired);
    ProxiesAreAtPaths(cfg, regs);
    forall d | d in desired ensures exists g :: g in regs && Brokers.Hosts(cfg, regs[g], d) {
      assert HasProxy(cfg, regs, d.guid);
      var g :| ProxyAt(cfg, regs, g, d.guid);
      assert NameFits(cfg, regs[g].name, d.guid, brokers, brokers);
      assert IsProxyOf(cfg, regs, g, d.guid);
      assert Brokers.Hosts(cfg, regs[g], d);
    }
    forall g, id | IsProxyOf(cfg, regs, g, id) ensures id in Guids(desired) {
      assert HasProxy(cfg, regs, id);
    }
  }

  lemma ConvergedMeansTracks(cfg: Config, regs: map<string, Registration>, brokers: SMBrokers,
                             desired: seq<ServiceBroker>)
    requires Lists(brokers, desired) && KeyedByID(brokers) && CurrentURLs(cfg, regs)
    requires Converged(cfg, regs, desired)
    ensures Tracks(cfg, regs, brokers)
  {
    GuidsOfListed(brokers, desired);
    ProxiesAreAtPaths(cfg, regs);
    forall g, id | ProxyAt(cfg, regs, g, id) ensures IsProxyOf(cfg, regs, g, id) {
      ProxyURLOfPath(cfg, id);
      ProxyPathIdentifies(cfg, id, BrokerIDFromURL(regs[g].url));
    }
    forall id | id in brokers ensures HasProxy(cfg, regs, id) {
      var d := brokers[id];
      assert d in desired;
      var g :| g in regs && Brokers.Hosts(cfg, regs[g], d);
      assert IsProxyOf(cfg, regs, g, id);
      assert ProxyAt(cfg, regs, g, id);
    }
    forall g, id | ProxyAt(cfg, regs, g, id) ensures NameFits(cfg, regs[g].name, id, brokers, brokers) {
      assert IsProxyOf(cfg, regs, g, id);
      var d := brokers[id];
      assert d in desired;
      var h :| h in regs && Brokers.Hosts(cfg, regs[h], d);
      assert IsProxyOf(cfg, regs, h, id);
    }
  }

  lemma CurrentURLsStep(cfg: Config, regs: map<string, Registration>, c: Change, regs': map<string, Registration>)
    requires CurrentURLs(cfg, regs) && Handled(cfg, regs, c, regs')
    requires !c.Deleted? ==> '/' !in c.after.guid
    ensures CurrentURLs(cfg, regs')
  {
    if !c.Deleted? {
      BrokerIDRoundTrip(cfg.smPath, c.after.guid);
    }
    assert forall g :: g in regs' ==>
             (g in regs && regs'[g] == regs[g]) || (!c.Deleted? && regs'[g] == ProxyRegistration(cfg, c.after));
  }

  lemma TrackedStep(cfg: Config, regs: map<string, Registration>, c: Change, regs': map<string, Registration>,
                    brokers: set<ServiceBroker>, length: nat, now: SMBrokers, now': SMBrokers)
    requires Tracks(cfg, regs, now) && Steps(now, c, now') && Calm(cfg, regs, c) && Handled(cfg, regs, c, regs')
    requires Genuine(cfg, regs, brokers) && SameLengthIDs(brokers, length) && BrokersIn(c) <= brokers
    ensures Tracks(cfg, regs', now')
  {
    var ids := now.Keys;
    match c
    case Created(d) =>
      CreatedStep(cfg, regs, d, regs', ids, now, now', now, now');
      assert now'.Keys == ids + {d.guid};
    case Modified(b, a) =>
      ModifiedStep(cfg, regs, b, a, brokers, regs', ids, now, now', now, now');
      assert now'.Keys == ids;
    case Deleted(b) =>
      DeletedStep(cfg, regs, b, brokers, regs', ids, now, now', now, now');
      assert now'.Keys == ids - {b.guid};
  }

  // The exact condition under which a notification handler and a full resync agree.

  /** The brokers that a resync wants on the platform. */
  function Wanted(cfg: Config, brokers: SMBrokers): SMBrokers {
    map id | id in brokers && brokers[id].name !in cfg.brokerBlacklist :: brokers[id]
  }

  /** A modified broker does not move into the blacklist or out of it; a created one finds no other broker of its
      name. */
  ghost predicate Agreeable(cfg: Config, regs: map<string, Registration>, c: Change) {
    match c
    case Created(d) => d.name in cfg.brokerBlacklist || NoClash(cfg, regs, d)
    case Modified(b, a) => b.name in cfg.brokerBlacklist <==> a.name in cfg.brokerBlacklist
    case Deleted(_) => true
  }

  ghost predicate UniqueName(regs: map<string, Registration>, name: string) {
    forall g, h :: Named(regs, g, name) && Named(regs, h, name) ==> g == h
  }

  /** The setting: one change handled on a platform that had converged. */
  ghost predicate OneChange(cfg: Config, regs: map<string, Registration>, c: Change, regs': map<string, Registration>,
                            brokers: set<ServiceBroker>, length: nat, sm: SMBrokers, sm': SMBrokers)
  {
    && KeyedByID(sm) && KeyedByID(sm') && Steps(sm, c, sm') && Handled(cfg, regs, c, regs')
    && Tracks(cfg, regs, Wanted(cfg, sm)) && CurrentURLs(cfg, regs) && cfg.takeoverEnabled
    && Genuine(cfg, regs, brokers) && SameLengthIDs(brokers, length) && BrokersIn(c) <= brokers
    && (c.Created? ==> UniqueName(regs, c.after.name))
  }

  lemma WantedStep(cfg: Config, sm: SMBrokers, c: Change, sm': SMBrokers)
    requires Steps(sm, c, sm') && !Blacklisted(cfg, c)
    requires c.Modified? ==> c.after.name !in cfg.brokerBlacklist
    ensures Steps(Wanted(cfg, sm), c, Wanted(cfg, sm'))
  {
  }

  lemma BlacklistedStep(cfg: Config, sm: SMBrokers, c: Change, sm': SMBrokers)
    requires Steps(sm, c, sm') && Blacklisted(cfg, c)
    requires c.Modified? ==> c.after.name in cfg.brokerBlacklist
    ensures Wanted(cfg, sm') == Wanted(cfg, sm)
  {
  }

  lemma AgreeableTracks(cfg: Config, regs: map<string, Registration>, c: Change, regs': map<string, Registration>,
                        brokers: set<ServiceBroker>, length: nat, sm: SMBrokers, sm': SMBrokers)
    requires OneChange(cfg, regs, c, regs', brokers, length, sm, sm') && Agreeable(cfg, regs, c)
    ensures Tracks(cfg, regs', Wanted(cfg, sm'))
  {
    if Blacklisted(cfg, c) {
      BlacklistedStep(cfg, sm, c, sm');
    } else {
      WantedStep(cfg, sm, c, sm');
      TrackedStep(cfg, regs, c, regs', brokers, length, Wanted(cfg, sm), Wanted(cfg, sm'));
    }
  }

  lemma CrossingDiffers(cfg: Config, regs: map<string, Registration>, b: ServiceBroker, a: ServiceBroker,
      regs': map<string, Registration>, brokers: set<ServiceBroker>, sm: SMBrokers, sm': SMBrokers)
    requires Tracks(cfg, regs, Wanted(cfg, sm)) && Genuine(cfg, regs, brokers) && b in brokers
    requires Steps(sm, Modified(b, a), sm') && Handled(cfg, regs, Modified(b, a), regs')
    requires !(b.name in cfg.brokerBlacklist <==> a.name in cfg.brokerBlacklist)
    ensures HasProxy(cfg, regs', b.guid) <==> b.guid !in Wanted(cfg, sm')
    ensures OneEach(cfg, regs')
  {
    assert HasProxy(cfg, regs, b.guid) <==> b.guid in Wanted(cfg, sm);
    if b.name !in cfg.brokerBlacklist {
      EffectOfModified(cfg, regs, b, a, brokers, regs');
      forall g, i ensures ProxyAt(cfg, regs', g, i) <==> ProxyAt(cfg, regs, g, i) {
      }
      var g :| ProxyAt(cfg, regs, g, b.guid);
      assert ProxyAt(cfg, regs', g, b.guid);
    }
  }

  lemma ClashDiffers(cfg: Config, regs: map<string, Registration>, d: ServiceBroker, regs': map<string, Registration>,
                     sm: SMBrokers, sm': SMBrokers) returns (id: string)
    requires Tracks(cfg, regs, Wanted(cfg, sm)) && cfg.takeoverEnabled && UniqueName(regs, d.name)
    requires Steps(sm, Created(d), sm') && Handled(cfg, regs, Created(d), regs')
    requires d.name !in cfg.brokerBlacklist && !NoClash(cfg, regs, d)
    requires CurrentURLs(cfg, regs)
    ensures HasProxy(cfg, regs', id) <==> id !in Wanted(cfg, sm')
    ensures OneEach(cfg, regs')
  {
    assert !HasProxy(cfg, regs, d.guid);
    var g :| Named(regs, g, d.name) && !(regs[g].url == d.url && !IsProxyURL(cfg, d.url));
    assert regs' == WhenFound(cfg, regs, Created(d), g);
    if regs[g].url != d.url {
      id := d.guid;
      assert id in Wanted(cfg, sm');
    } else {
      id := BrokerIDFromURL(d.url);
      assert ProxyAt(cfg, regs, g, id);
      ReplacedProxy(cfg, regs, d, g, id);
      assert HasProxy(cfg, regs, id);
      assert id in Wanted(cfg, sm);
    }
  }

  /** Otherwise SM wants a broker that has no proxy afterwards, or a proxy is left that SM does not want. */
  lemma DisagreeableDiffers(cfg: Config, regs: map<string, Registration>, c: Change, regs': map<string, Registration>,
                            brokers: set<ServiceBroker>, length: nat, sm: SMBrokers,
                            sm': SMBrokers) returns (id: string)
    requires OneChange(cfg, regs, c, regs', brokers, length, sm, sm') && !Agreeable(cfg, regs, c)
    ensures HasProxy(cfg, regs', id) <==> id !in Wanted(cfg, sm')
    ensures OneEach(cfg, regs')
  {
    match c
    case Modified(b, a) =>
      id := b.guid;
      CrossingDiffers(cfg, regs, b, a, regs', brokers, sm, sm');
    case Created(d) =>
      id := ClashDiffers(cfg, regs, d, regs', sm, sm');
  }

  lemma ReplacedProxy(cfg: Config, regs: map<string, Registration>, d: ServiceBroker, g: string, id: string)
    requires OneEach(cfg, regs) && !HasProxy(cfg, regs, d.guid) && ProxyAt(cfg, regs, g, id)
    ensures !HasProxy(cfg, regs[g := ProxyRegistration(cfg, d)], id)
            && OneEach(cfg, regs[g := ProxyRegistration(cfg, d)])
  {
    var regs' := regs[g := ProxyRegistration(cfg, d)];
    forall h, i | ProxyAt(cfg, regs', h, i)
      ensures (h == g && i == d.guid) || (h != g && i != id && ProxyAt(cfg, regs, h, i))
    {
      ProxyPathIdentifies(cfg, i, d.guid);
      if h != g {
        assert ProxyAt(cfg, regs, h, i) && HasProxy(cfg, regs, i);
      }
    }
    assert HasProxy(cfg, regs, id);
  }

  /** Handling one change on a converged platform leaves nothing for a full resync but to read catalogs again,
      exactly when the change is agreeable. */
  lemma IncrementalAgreesWithFull(cfg: Config, regs: map<string, Registration>, c: Change,
                                  regs': map<string, Registration>, brokers: set<ServiceBroker>, length: nat,
                                  sm: SMBrokers, sm': SMBrokers, desired': seq<ServiceBroker>,
                                  existing': seq<ServiceBroker>)
    requires OneChange(cfg, regs, c, regs', brokers, length, sm, sm')
    requires Lists(Wanted(cfg, sm'), desired') && IsListing(regs', existing')
    ensures OnlyFetches(cfg, existing', desired') <==> Agreeable(cfg, regs, c)
    ensures Converged(cfg, regs', desired') <==> Agreeable(cfg, regs, c)
    ensures CurrentURLs(cfg, regs') && Genuine(cfg, regs', brokers)
  {
    assert !c.Deleted? ==> c.after.guid in sm';
    CurrentURLsStep(cfg, regs, c, regs');
    GenuineStep(cfg, regs, c, brokers, length, regs');
    TracksIffConverged(cfg, regs', Wanted(cfg, sm'), desired');
    if Agreeable(cfg, regs, c) {
      AgreeableTracks(cfg, regs, c, regs', brokers, length, sm, sm');
    } else {
      var id := DisagreeableDiffers(cfg, regs, c, regs', brokers, length, sm, sm');
    }
    OneEachMeansOneProxyEach(cfg, regs');
    ConvergedIffOnlyFetches(cfg, regs', existing', desired');
  }

  lemma OneEachMeansOneProxyEach(cfg: Config, regs: map<string, Registration>)
    requires OneEach(cfg, regs) && CurrentURLs(cfg, regs)
    ensures OneProxyEach(cfg, regs)
  {
    ProxiesAreAtPaths(cfg, regs);
  }

  // ---- Replay ----

  /** The t-th change as SM made it and as it was handled. */
  ghost predicate ReplayedAt(cfg: Config, sm: seq<SMBrokers>, changes: seq<Change>,
                             regs: seq<map<string, Registration>>, t: nat)
  {
    t < |changes| && t + 1 < |sm| && t + 1 < |regs|
    && Steps(sm[t], changes[t], sm[t + 1]) && Handled(cfg, regs[t], changes[t], regs[t + 1])
  }

  /** A stretch of SM's history, and the platform while the changes are handled one after another. */
  ghost predicate IsReplay(cfg: Config, sm: seq<SMBrokers>, changes: seq<Change>, regs: seq<map<string, Registration>>)
  {
    && |sm| == |changes| + 1 && |regs| == |changes| + 1
    && forall t: nat :: t < |changes| ==> ReplayedAt(cfg, sm, changes, regs, t)
  }

  // ---- A creation that is replayed ----

  /** Some registration has the broker's own name, and none that has it would be taken over, unless it is the
      broker's proxy already. */
  ghost predicate Harmless(cfg: Config, regs: map<string, Registration>, d: ServiceBroker) {
    && !Missing(regs, d.name)
    && forall g :: Named(regs, g, d.name) && cfg.takeoverEnabled && regs[g].url == d.url ==>
         ProxyAt(cfg, regs, g, d.guid)
  }

  lemma HarmlessKeepsOneEach(cfg: Config, regs: map<string, Registration>, d: ServiceBroker,
                             regs': map<string, Registration>)
    requires OneEach(cfg, regs) && Harmless(cfg, regs, d) && Handled(cfg, regs, Created(d), regs')
    ensures forall g, id :: ProxyAt(cfg, regs', g, id) <==> ProxyAt(cfg, regs, g, id)
    ensures forall g :: g in regs' ==> g in regs && (regs'[g] == regs[g] || regs'[g] == ProxyRegistration(cfg, d))
    ensures OneEach(cfg, regs')
  {
    forall g, id ensures ProxyAt(cfg, regs', g, id) <==> ProxyAt(cfg, regs, g, id) {
      ProxyPathIdentifies(cfg, id, d.guid);
    }
  }

  /** What the handler does to some registration, or to a new one, if the creation is not harmless. */
  lemma HarmfulOutcome(cfg: Config, regs: map<string, Registration>, d: ServiceBroker, g: string, unused: string)
    returns (h: string, regs': map<string, Registration>)
    requires ProxyAt(cfg, regs, g, d.guid) && unused !in regs && d.name !in cfg.brokerBlacklist
    requires OneEach(cfg, regs) && !Harmless(cfg, regs, d)
    ensures Handled(cfg, regs, Created(d), regs')
    ensures h != g && ProxyAt(cfg, regs', h, d.guid) && ProxyAt(cfg, regs', g, d.guid)
  {
    if Missing(regs, d.name) {
      h, regs' := unused, regs[unused := ProxyRegistration(cfg, d)];
      assert Registered(cfg, regs, d, regs');
    } else {
      h :| Named(regs, h, d.name) && cfg.takeoverEnabled && regs[h].url == d.url && !ProxyAt(cfg, regs, h, d.guid);
      regs' := WhenFound(cfg, regs, Created(d), h);
    }
  }

  /** On a platform that has the broker's proxy already, a creation can give it a second one exactly if it is not
      harmless. */
  lemma StaleCreateDuplicates(cfg: Config, regs: map<string, Registration>, d: ServiceBroker, g: string, unused: string)
    requires ProxyAt(cfg, regs, g, d.guid) && unused !in regs && d.name !in cfg.brokerBlacklist
    requires OneEach(cfg, regs)
    ensures (forall regs' :: Handled(cfg, regs, Created(d), regs') ==> OneEach(cfg, regs')) <==> Harmless(cfg, regs, d)
  {
    if Harmless(cfg, regs, d) {
      forall regs' | Handled(cfg, regs, Created(d), regs') ensures OneEach(cfg, regs') {
        HarmlessKeepsOneEach(cfg, regs, d, regs');
      }
    } else {
      var h, regs' := HarmfulOutcome(cfg, regs, d, g, unused);
    }
  }

  lemma StaleCreatedStep(cfg: Config, regs: map<string, Registration>, d: ServiceBroker,
                         regs': map<string, Registration>, ids: set<string>, now: SMBrokers, now': SMBrokers,
                         ahead: SMBrokers)
    requires Follows(cfg, regs, ids, now, ahead) && Harmless(cfg, regs, d) && Handled(cfg, regs, Created(d), regs')
    requires Steps(now, Created(d), now')
    ensures Follows(cfg, regs', ids, now', ahead)
  {
    HarmlessKeepsOneEach(cfg, regs, d, regs');
    forall id ensures HasProxy(cfg, regs', id) <==> HasProxy(cfg, regs, id) {
      if g :| ProxyAt(cfg, regs, g, id) {
        assert ProxyAt(cfg, regs', g, id);
      }
      if g :| ProxyAt(cfg, regs', g, id) {
        assert ProxyAt(cfg, regs, g, id);
      }
    }
    forall g, id | ProxyAt(cfg, regs', g, id) ensures NameFits(cfg, regs'[g].name, id, now', ahead) {
      assert NameFits(cfg, regs[g].name, id, now, ahead);
      ProxyPathIdentifies(cfg, id, d.guid);
    }
  }

  // ---- A whole replay ----

  /** The handler can be trusted with the change on this platform: a modified broker does not move into the
      blacklist or out of it; a created one finds no other broker of its name, or, if it has its proxy already, is
      harmless. */
  ghost predicate Replayable(cfg: Config, regs: map<string, Registration>, c: Change) {
    if c.Created? && c.after.name !in cfg.brokerBlacklist && HasProxy(cfg, regs, c.after.guid)
    then Harmless(cfg, regs, c.after)
    else Agreeable(cfg, regs, c)
  }

  /** SM gives no id twice. */
  predicate NoReuse(changes: seq<Change>) {
    forall t, u | 0 <= t < u < |changes| ::
      changes[t].Deleted? && changes[u].Created? ==> changes[t].before.guid != changes[u].after.guid
  }

  /** The resync that preceded the replay saw SM as it was after `m` of the changes, and established what SM wants
      then. */
  ghost predicate StartsAhead(cfg: Config, sm: seq<SMBrokers>, changes: seq<Change>,
                              regs: seq<map<string, Registration>>, m: nat, brokers: set<ServiceBroker>, length: nat)
  {
    && |sm| == |changes| + 1 && |regs| == |changes| + 1 && m <= |changes|
    && Tracks(cfg, regs[0], Wanted(cfg, sm[m])) && Genuine(cfg, regs[0], brokers) && SameLengthIDs(brokers, length)
    && (forall t :: 0 <= t < |changes| ==> BrokersIn(changes[t]) <= brokers && Replayable(cfg, regs[t], changes[t]))
    && NoReuse(changes)
  }

  ghost predicate IsStaleReplay(cfg: Config, sm: seq<SMBrokers>, changes: seq<Change>,
                                regs: seq<map<string, Registration>>, m: nat, brokers: set<ServiceBroker>, length: nat)
  {
    IsReplay(cfg, sm, changes, regs) && StartsAhead(cfg, sm, changes, regs, m, brokers, length)
  }

  /** A broker that is deleted stays away. */
  lemma {:induction false} GoneForGood(cfg: Config, sm: seq<SMBrokers>, changes: seq<Change>,
                                       regs: seq<map<string, Registration>>, t: nat, u: nat)
    requires IsReplay(cfg, sm, changes, regs) && NoReuse(changes) && t < u <= |changes| && changes[t].Deleted?
    ensures changes[t].before.guid !in sm[u]
    decreases u
  {
    assert ReplayedAt(cfg, sm, changes, regs, u - 1);
    if t < u - 1 {
      GoneForGood(cfg, sm, changes, regs, t, u - 1);
    }
  }

  /** A broker that is created has never been there. */
  lemma {:induction false} NeverBefore(cfg: Config, sm: seq<SMBrokers>, changes: seq<Change>,
                                       regs: seq<map<string, Registration>>, s: nat, t: nat)
    requires IsReplay(cfg, sm, changes, regs) && NoReuse(changes) && s <= t < |changes| && changes[t].Created?
    ensures changes[t].after.guid !in sm[s]
    decreases t - s
  {
    assert ReplayedAt(cfg, sm, changes, regs, s);
    if s < t {
      NeverBefore(cfg, sm, changes, regs, s + 1, t);
    }
  }

  /** The brokers that have a proxy at a point of the replay that the resync was ahead of: those that the resync
      gave one, and those that have been created since. */
  function ProxiedAhead(cfg: Config, first: SMBrokers, now: SMBrokers, ahead: SMBrokers): set<string> {
    Wanted(cfg, ahead).Keys + (Wanted(cfg, now).Keys - first.Keys)
  }

  function IDsAfter(ids: set<string>, c: Change): set<string> {
    match c
    case Created(d) => ids + {d.guid}
    case Modified(_, _) => ids
    case Deleted(b) => ids - {b.guid}
  }

  /** One step behind the resync. */
  lemma FollowedStep(cfg: Config, regs: map<string, Registration>, c: Change, regs': map<string, Registration>,
                     brokers: set<ServiceBroker>, ids: set<string>, now: SMBrokers, now': SMBrokers, ahead: SMBrokers)
    requires Follows(cfg, regs, ids, now, ahead) && Genuine(cfg, regs, brokers) && BrokersIn(c) <= brokers
    requires !Blacklisted(cfg, c) && Replayable(cfg, regs, c) && Handled(cfg, regs, c, regs') && Steps(now, c, now')
    requires c.Deleted? ==> c.before.guid !in ahead
    ensures Follows(cfg, regs', IDsAfter(ids, c), now', ahead)
  {
    match c
    case Modified(b, a) => ModifiedStep(cfg, regs, b, a, brokers, regs', ids, now, now', ahead, ahead);
    case Deleted(b) => DeletedStep(cfg, regs, b, brokers, regs', ids, now, now', ahead, ahead);
    case Created(d) =>
      if HasProxy(cfg, regs, d.guid) {
        StaleCreatedStep(cfg, regs, d, regs', ids, now, now', ahead);
        assert ids + {d.guid} == ids;
      } else {
        CreatedStep(cfg, regs, d, regs', ids, now, now', ahead, ahead);
      }
  }

  lemma ProxiedAfter(cfg: Config, first: SMBrokers, sm: SMBrokers, c: Change, sm': SMBrokers, ahead: SMBrokers)
    requires Steps(sm, c, sm') && Steps(Wanted(cfg, sm), c, Wanted(cfg, sm'))
    requires c.Created? ==> c.after.guid !in first
    requires c.Deleted? ==> c.before.guid !in ahead
    ensures ProxiedAhead(cfg, first, sm', ahead) == IDsAfter(ProxiedAhead(cfg, first, sm, ahead), c)
  {
  }

  lemma StaleStep(cfg: Config, sm: seq<SMBrokers>, changes: seq<Change>, regs: seq<map<string, Registration>>, m: nat,
                  brokers: set<ServiceBroker>, length: nat, k: nat)
    requires IsStaleReplay(cfg, sm, changes, regs, m, brokers, length) && k < m && Genuine(cfg, regs[k], brokers)
    requires Follows(cfg, regs[k], ProxiedAhead(cfg, sm[0], sm[k], sm[m]), Wanted(cfg, sm[k]), Wanted(cfg, sm[m]))
    ensures Follows(cfg, regs[k + 1], ProxiedAhead(cfg, sm[0], sm[k + 1], sm[m]), Wanted(cfg, sm[k + 1]),
                    Wanted(cfg, sm[m]))
  {
    assert ReplayedAt(cfg, sm, changes, regs, k);
    var c := changes[k];
    if Blacklisted(cfg, c) {
      BlacklistedStep(cfg, sm[k], c, sm[k + 1]);
    } else {
      if c.Deleted? {
        GoneForGood(cfg, sm, changes, regs, k, m);
      } else if c.Created? {
        NeverBefore(cfg, sm, changes, regs, 0, k);
      }
      WantedStep(cfg, sm[k], c, sm[k + 1]);
      ProxiedAfter(cfg, sm[0], sm[k], c, sm[k + 1], sm[m]);
      FollowedStep(cfg, regs[k], c, regs[k + 1], brokers, ProxiedAhead(cfg, sm[0], sm[k], sm[m]),
                   Wanted(cfg, sm[k]), Wanted(cfg, sm[k + 1]), Wanted(cfg, sm[m]));
    }
  }

  lemma LiveStep(cfg: Config, sm: seq<SMBrokers>, changes: seq<Change>, regs: seq<map<string, Registration>>, m: nat,
                 brokers: set<ServiceBroker>, length: nat, k: nat)
    requires IsStaleReplay(cfg, sm, changes, regs, m, brokers, length) && k < |changes|
             && Genuine(cfg, regs[k], brokers)
    requires Tracks(cfg, regs[k], Wanted(cfg, sm[k]))
    ensures Tracks(cfg, regs[k + 1], Wanted(cfg, sm[k + 1]))
  {
    assert ReplayedAt(cfg, sm, changes, regs, k);
    if Blacklisted(cfg, changes[k]) {
      BlacklistedStep(cfg, sm[k], changes[k], sm[k + 1]);
    } else {
      WantedStep(cfg, sm[k], changes[k], sm[k + 1]);
      assert changes[k].Created? ==> !HasProxy(cfg, regs[k], changes[k].after.guid);
      TrackedStep(cfg, regs[k], changes[k], regs[k + 1], brokers, length, Wanted(cfg, sm[k]), Wanted(cfg, sm[k + 1]));
    }
  }

  lemma {:induction false} ReplayIsGenuine(cfg: Config, sm: seq<SMBrokers>, changes: seq<Change>,
      regs: seq<map<string, Registration>>, m: nat, brokers: set<ServiceBroker>, length: nat, t: nat)
    requires IsStaleReplay(cfg, sm, changes, regs, m, brokers, length) && t <= |changes|
    ensures Genuine(cfg, regs[t], brokers)
  {
    if t > 0 {
      ReplayIsGenuine(cfg, sm, changes, regs, m, brokers, length, t - 1);
      assert ReplayedAt(cfg, sm, changes, regs, t - 1);
      GenuineStep(cfg, regs[t - 1], changes[t - 1], brokers, length, regs[t]);
    }
  }

  /** While the resync is ahead, each proxy bears its broker's name at that point of the history or the one that the
      resync gave it; the brokers that have one are those that the resync gave one and those created since. */
  lemma {:induction false} ReplayFollows(cfg: Config, sm: seq<SMBrokers>, changes: seq<Change>,
      regs: seq<map<string, Registration>>, m: nat, brokers: set<ServiceBroker>, length: nat, t: nat)
    requires IsStaleReplay(cfg, sm, changes, regs, m, brokers, length) && t <= m
    ensures Follows(cfg, regs[t], ProxiedAhead(cfg, sm[0], sm[t], sm[m]), Wanted(cfg, sm[t]), Wanted(cfg, sm[m]))
  {
    if t == 0 {
      assert ProxiedAhead(cfg, sm[0], sm[0], sm[m]) == Wanted(cfg, sm[m]).Keys;
    } else {
      ReplayFollows(cfg, sm, changes, regs, m, brokers, length, t - 1);
      ReplayIsGenuine(cfg, sm, changes, regs, m, brokers, length, t - 1);
      StaleStep(cfg, sm, changes, regs, m, brokers, length, t - 1);
    }
  }

  /** From there on the platform has exactly what SM wants at each point. */
  lemma {:induction false} ReplayTracks(cfg: Config, sm: seq<SMBrokers>, changes: seq<Change>,
      regs: seq<map<string, Registration>>, m: nat, brokers: set<ServiceBroker>, length: nat, t: nat)
    requires IsStaleReplay(cfg, sm, changes, regs, m, brokers, length) && m <= t <= |changes|
    ensures Tracks(cfg, regs[t], Wanted(cfg, sm[t]))
  {
    if t == m {
      ReplayFollows(cfg, sm, changes, regs, m, brokers, length, m);
      assert ProxiedAhead(cfg, sm[0], sm[m], sm[m]) == Wanted(cfg, sm[m]).Keys;
    } else {
      ReplayTracks(cfg, sm, changes, regs, m, brokers, length, t - 1);
      ReplayIsGenuine(cfg, sm, changes, regs, m, brokers, length, t - 1);
      LiveStep(cfg, sm, changes, regs, m, brokers, length, t - 1);
    }
  }

  /** However far the resync was ahead of the queue, whatever the brokers were called in between and whichever are
      blacklisted, replaying the rest of the queue ends with exactly what SM wants in its last state. */
  lemma StaleReplayConverges(cfg: Config, sm: seq<SMBrokers>, changes: seq<Change>,
                             regs: seq<map<string, Registration>>, m: nat, brokers: set<ServiceBroker>, length: nat,
                             desired: seq<ServiceBroker>)
    requires IsStaleReplay(cfg, sm, changes, regs, m, brokers, length)
    requires CurrentURLs(cfg, regs[0]) && SlashFree(changes)
    requires KeyedByID(sm[|changes|]) && Lists(Wanted(cfg, sm[|changes|]), desired)
    ensures Tracks(cfg, regs[|changes|], Wanted(cfg, sm[|changes|]))
    ensures Converged(cfg, regs[|changes|], desired)
  {
    var n := |changes|;
    ReplayTracks(cfg, sm, changes, regs, m, brokers, length, n);
    ReplayKeepsURLs(cfg, sm, changes, regs, n);
    TracksIffConverged(cfg, regs[n], Wanted(cfg, sm[n]), desired);
  }

  /** A broker renamed there and back, replayed from a resync that saw it back under its first name: the proxy takes
      both names in turn and ends as it was. */
  lemma RenameThereAndBack(cfg: Config, first: ServiceBroker, second: ServiceBroker, g: string)
    returns (sm: seq<SMBrokers>, changes: seq<Change>, regs: seq<map<string, Registration>>)
    requires first.guid == second.guid
    requires first.name !in cfg.brokerBlacklist && second.name !in cfg.brokerBlacklist
    ensures changes == [Modified(first, second), Modified(second, first)]
    ensures IsStaleReplay(cfg, sm, changes, regs, 2, {first, second}, |first.guid|)
    ensures regs == [map[g := ProxyRegistration(cfg, first)], map[g := ProxyRegistration(cfg, second)],
                     map[g := ProxyRegistration(cfg, first)]]
  {
    var id := first.guid;
    var before, after := map[g := ProxyRegistration(cfg, first)], map[g := ProxyRegistration(cfg, second)];
    sm := [map[id := first], map[id := second], map[id := first]];
    changes := [Modified(first, second), Modified(second, first)];
    regs := [before, after, before];
    assert Named(before, g, ProxyNameOf(cfg, first)) && WhenFound(cfg, before, changes[0], g) == after;
    assert Named(after, g, ProxyNameOf(cfg, second)) && WhenFound(cfg, after, changes[1], g) == before;
    assert ReplayedAt(cfg, sm, changes, regs, 0) && ReplayedAt(cfg, sm, changes, regs, 1);
    assert ProxyAt(cfg, before, g, id);
    forall h, i | ProxyAt(cfg, before, h, i) ensures h == g && i == id {
      ProxyPathIdentifies(cfg, i, id);
    }
  }

  predicate SlashFree(changes: seq<Change>) {
    forall c | c in changes :: !c.Deleted? ==> '/' !in c.after.guid
  }

  lemma {:induction false} HoldsAlong(good: seq<bool>, n: nat)
    requires n < |good| && good[0] && forall t :: 0 <= t < |good| - 1 && good[t] ==> good[t + 1]
    ensures good[n]
  {
    if n > 0 {
      HoldsAlong(good, n - 1);
      assert good[n - 1 + 1];
    }
  }

  lemma ReplayKeepsURLs(cfg: Config, sm: seq<SMBrokers>, changes: seq<Change>, regs: seq<map<string, Registration>>,
                        n: nat)
    requires IsReplay(cfg, sm, changes, regs) && n <= |changes| && CurrentURLs(cfg, regs[0]) && SlashFree(changes)
    ensures CurrentURLs(cfg, regs[n])
  {
    ghost var good := seq(|regs|, t requires 0 <= t < |regs| => CurrentURLs(cfg, regs[t]));
    forall t | 0 <= t < |good| - 1 && good[t] ensures good[t + 1] {
      assert ReplayedAt(cfg, sm, changes, regs, t);
      assert changes[t] in changes;
      CurrentURLsStep(cfg, regs[t], changes[t], regs[t + 1]);
    }
    HoldsAlong(good, n);
  }
}
