/** Reconciling the visibilities of all brokers, in one pass or in chunks of brokers. */
module VisibilityResync {
  import opened Types
  import opened Naming
  import opened World
  import opened Visibilities
  import Indexing

  // ---- One pass ----

  /** No failed disable call is followed by an enable call. */
  ghost predicate NoEnableAfterFailedDisable(events: seq<Event>) {
    forall i, j :: 0 <= i < j < |events| && events[i].Disable? && !events[i].ok ==> !events[j].Enable?
  }

  predicate OnlyAccess(calls: seq<Event>) {
    forall i | 0 <= i < |calls| :: calls[i].Disable? || calls[i].Enable?
  }

  /** The calls of one pass: the removals, by key in some order, and the additions. */
  datatype Calls = Calls(order: seq<string>, removals: seq<Event>, additions: seq<Event>)

  /** Nothing is asked for but the difference, and that once each; nothing is added unless everything was removed. A
      pass that is not cut short asks for all of it, whatever fails, except for the additions after a failing
      removal. */
  ghost predicate AsksOnce(obsolete: map<string, Visibility>, missing: seq<Visibility>, c: Calls, cutShort: bool) {
    && IsOrder(obsolete, c.order)
    && DisablesOf(ValuesOf(obsolete, c.order), c.removals) && EnablesOf(missing, c.additions)
    && (c.additions != [] ==> |c.removals| == |obsolete| && AllSucceeded(c.removals))
    && (!cutShort ==> |c.removals| == |obsolete| && (AllSucceeded(c.removals) ==> |c.additions| == |missing|))
  }

  lemma CallsOfPass(obsolete: map<string, Visibility>, missing: seq<Visibility>, c: Calls, cutShort: bool)
    requires AsksOnce(obsolete, missing, c, cutShort)
    ensures OnlyAccess(c.removals + c.additions) && NoEnableAfterFailedDisable(c.removals + c.additions)
  {
    if c.additions != [] {
      assert forall i :: 0 <= i < |c.removals| ==> Succeeded(c.removals[i]);
    }
  }

  lemma Regroup<T>(a: seq<T>, b: seq<T>, c: seq<T>)
    ensures a + b + c == a + (b + c)
  {
  }

  /** From how the removals and then the additions went, if they were come to, to the whole pass. */
  lemma PassIsAskedOnce(obsolete: map<string, Visibility>, missing: seq<Visibility>, c: Calls, cutFirst: bool,
                        failedFirst: bool, cutNext: bool, failed: bool)
    requires IsOrder(obsolete, c.order)
    requires DisablesOf(ValuesOf(obsolete, c.order), c.removals) && EnablesOf(missing, c.additions)
    requires failedFirst <==> cutFirst || !AllSucceeded(c.removals)
    requires !cutFirst ==> |c.removals| == |obsolete|
    requires if failedFirst then c.additions == [] && failed && !cutNext
             else (failed <==> cutNext || !AllSucceeded(c.additions)) && (!cutNext ==> |c.additions| == |missing|)
    ensures AsksOnce(obsolete, missing, c, cutFirst || cutNext)
    ensures NoEnableAfterFailedDisable(c.removals + c.additions)
    ensures failed <==> cutFirst || cutNext || !AllSucceeded(c.removals + c.additions)
  {
    AllSucceededConcat(c.removals, c.additions);
    CallsOfPass(obsolete, missing, c, cutFirst || cutNext);
  }

  /** For any listings: only the requests of the difference have an effect, all of it if no call fails. Only a failing
      call or the cancellation of the context makes the pass fail. */
  method ReconcileServiceVisibilities(e: Endpoints, platformVis: seq<Visibility>, smVis: seq<Visibility>)
    returns (errorOccurred: bool, obsolete: map<string, Visibility>, missing: seq<Visibility>, ghost c: Calls)
    modifies e`grants, e`trace, e`cancellations
    ensures IsDiff(e.cfg, platformVis, smVis, obsolete, missing)
    ensures old(e.grants) - RequestedByAll(obsolete) <= e.grants <= old(e.grants) + RequestedByEach(missing)
    ensures !errorOccurred ==> e.grants == old(e.grants) - RequestedByAll(obsolete) + RequestedByEach(missing)
    ensures e.trace == old(e.trace) + (c.removals + c.additions) && e.cancellations >= old(e.cancellations)
    ensures AsksOnce(obsolete, missing, c, e.cancellations > old(e.cancellations))
    ensures NoEnableAfterFailedDisable(c.removals + c.additions)
    ensures errorOccurred
       <==> e.cancellations > old(e.cancellations) || !AllSucceeded(c.removals + c.additions)
  {
    obsolete, missing := DiffVisibilities(e.cfg, platformVis, smVis);
    ghost var order, removals, additions := [], [], [];
    errorOccurred, order, removals := DeleteVisibilities(e, obsolete);
    ghost var failedFirst, between := errorOccurred, e.cancellations;
    if !errorOccurred {
      errorOccurred, additions := CreateVisibilities(e, missing);
    }
    c := Calls(order, removals, additions);
    Regroup(old(e.trace), removals, additions);
    PassIsAskedOnce(obsolete, missing, c, between > old(e.cancellations), failedFirst, e.cancellations > between,
                    errorOccurred);
  }

  /** For listings in the form in which the proxy itself creates visibilities: whatever fails, what both sides have
      stays and only what SM wants comes; without failure, and without the separator of keys in them, the difference
      is exact. */
  lemma CanonicalPass(cfg: Config, platformVis: seq<Visibility>, smVis: seq<Visibility>,
                      obsolete: map<string, Visibility>, missing: seq<Visibility>, ok: bool, before: set<Grant>,
                      after: set<Grant>)
    requires forall v :: v in platformVis + smVis ==> Canonical(cfg, v)
    requires IsDiff(cfg, platformVis, smVis, obsolete, missing)
    requires before - RequestedByAll(obsolete) <= after <= before + RequestedByEach(missing)
    requires ok ==> after == before - RequestedByAll(obsolete) + RequestedByEach(missing)
    ensures var P, S := GrantsOf(cfg, platformVis), GrantsOf(cfg, smVis);
            && before - (P - S) <= after <= before + S
            && (ok && AllPipeFree(cfg, platformVis + smVis) && P <= before ==> after == before - (P - S) + S)
  {
    DiffGrants(cfg, platformVis, smVis, obsolete, missing);
    CanonicalRequests(cfg, platformVis, smVis, obsolete, missing);
    PassEffect(before, after, ok, GrantsOf(cfg, platformVis), GrantsOf(cfg, smVis), ObsoleteGrants(cfg, obsolete),
               GrantsOf(cfg, missing));
  }

  lemma CanonicalRequests(cfg: Config, platformVis: seq<Visibility>, smVis: seq<Visibility>,
                          obsolete: map<string, Visibility>, missing: seq<Visibility>)
    requires IsDiff(cfg, platformVis, smVis, obsolete, missing)
    requires forall v :: v in platformVis + smVis ==> Canonical(cfg, v)
    ensures RequestedByAll(obsolete) == ObsoleteGrants(cfg, obsolete)
    ensures RequestedByEach(missing) == GrantsOf(cfg, missing)
  {
    forall k | k in obsolete ensures Requested(obsolete[k]) == {GrantOf(cfg, obsolete[k])} {
      assert obsolete[k] in platformVis + smVis;
      CanonicalRequest(cfg, obsolete[k]);
    }
    forall v | v in missing ensures Requested(v) == {GrantOf(cfg, v)} && GrantOf(cfg, v) in GrantsOf(cfg, missing) {
      assert v in platformVis + smVis;
      CanonicalRequest(cfg, v);
      InGrantsOf(cfg, missing, v);
    }
    assert forall i :: 0 <= i < |missing| ==> missing[i] in missing;
  }

  /** No scope and no broker name of these grants contains the separator of visibility keys. */
  ghost predicate Clear(grants: set<Grant>) {
    forall x :: x in grants ==> '|' !in x.brokerName && (x.audience.Holder? ==> '|' !in x.audience.value)
  }

  function Names(cfg: Config, brokers: seq<ServiceBroker>): set<string> {
    set b | b in brokers :: ProxyNameOf(cfg, b)
  }

  /** What a pass over the brokers with these proxy names may have done to the platform when SM wants `desired` for
      them, whether or not calls failed: what both sides had is still there, nothing came that SM does not want. If the
      pass succeeded, what the platform lists for these brokers is what SM wants. */
  ghost predicate Settled(cfg: Config, before: set<Grant>, names: set<string>, desired: set<Grant>, ok: bool,
                          after: set<Grant>)
  {
    && Listed(cfg, before, names) * desired <= Listed(cfg, after, names) <= Listed(cfg, before, names) + desired
    && (ok ==> Listed(cfg, after, names) == desired)
  }

  ghost predicate SameOutside(cfg: Config, before: set<Grant>, names: set<string>, after: set<Grant>) {
    before - Listed(cfg, before, names) == after - Listed(cfg, after, names)
  }

  ghost predicate Pass(cfg: Config, before: set<Grant>, names: set<string>, desired: set<Grant>, ok: bool,
                       after: set<Grant>)
  {
    Settled(cfg, before, names, desired, ok, after) && SameOutside(cfg, before, names, after)
  }

  ghost predicate Within(cfg: Config, desired: set<Grant>, names: set<string>) {
    forall x :: x in desired ==> x.brokerName in names && Listable(cfg, x)
  }

  /** The calls were those for the difference between what the platform listed for the brokers and what SM grants on
      the plans. */
  ghost predicate PassMade(cfg: Config, sm: SMState, plans: map<string, BrokerPlan>, brokers: seq<ServiceBroker>,
                           before: set<Grant>, calls: seq<Event>)
  {
    exists platformVis, obsolete, missing, c ::
      PassMadeFor(cfg, sm, plans, Listed(cfg, before, Names(cfg, brokers)), platformVis, obsolete, missing, c)
      && calls == c.removals + c.additions
  }

  ghost predicate PassMadeFor(cfg: Config, sm: SMState, plans: map<string, BrokerPlan>, listed: set<Grant>,
      platformVis: seq<Visibility>, obsolete: map<string, Visibility>, missing: seq<Visibility>, c: Calls)
  {
    && GrantsOf(cfg, platformVis) == listed
    && IsDiff(cfg, platformVis, ConvertedAll(cfg, sm.visibilities, plans), obsolete, missing)
    && AsksOnce(obsolete, missing, c, false)
  }

  /** The pass once both sides are listed. */
  method ReconcileListed(e: Endpoints, platformVis: seq<Visibility>, smVis: seq<Visibility>,
                         plans: map<string, BrokerPlan>, brokers: seq<ServiceBroker>)
    returns (ok: bool, ghost calls: seq<Event>)
    requires smVis == ConvertedAll(e.cfg, e.sm.visibilities, plans)
    requires GrantsOf(e.cfg, platformVis) == Listed(e.cfg, e.grants, Names(e.cfg, brokers))
    requires forall i :: 0 <= i < |platformVis| ==> Canonical(e.cfg, platformVis[i])
    modifies e`grants, e`trace, e`cancellations
    ensures PlansPassed(e.cfg, e.sm, plans, brokers, old(e.grants), ok, e.grants)
    ensures e.trace == old(e.trace) + calls && OnlyAccess(calls) && NoEnableAfterFailedDisable(calls)
    ensures e.cancellations >= old(e.cancellations)
    ensures !ok <==> e.cancellations > old(e.cancellations) || !AllSucceeded(calls)
    ensures e.cancellations == old(e.cancellations) ==> PassMade(e.cfg, e.sm, plans, brokers, old(e.grants), calls)
  {
    ConvertedAllMeansDesiredAll(e.cfg, e.sm.visibilities, plans);
    var errorOccurred, obsolete, missing, c := ReconcileServiceVisibilities(e, platformVis, smVis);
    ok, calls := !errorOccurred, c.removals + c.additions;
    CanonicalPass(e.cfg, platformVis, smVis, obsolete, missing, ok, old(e.grants), e.grants);
    PassFromDiff(e.cfg, old(e.grants), Names(e.cfg, brokers), platformVis, smVis, ok, e.grants);
    CallsOfPass(obsolete, missing, c, e.cancellations > old(e.cancellations));
    if e.cancellations == old(e.cancellations) {
      PassIsMade(e.cfg, e.sm, plans, brokers, old(e.grants), platformVis, obsolete, missing, c);
    }
  }

  lemma PassIsMade(cfg: Config, sm: SMState, plans: map<string, BrokerPlan>, brokers: seq<ServiceBroker>,
      before: set<Grant>, platformVis: seq<Visibility>, obsolete: map<string, Visibility>, missing: seq<Visibility>,
      c: Calls)
    requires GrantsOf(cfg, platformVis) == Listed(cfg, before, Names(cfg, brokers))
    requires IsDiff(cfg, platformVis, ConvertedAll(cfg, sm.visibilities, plans), obsolete, missing)
    requires AsksOnce(obsolete, missing, c, false)
    ensures PassMade(cfg, sm, plans, brokers, before, c.removals + c.additions)
  {
    assert PassMadeFor(cfg, sm, plans, Listed(cfg, before, Names(cfg, brokers)), platformVis, obsolete, missing, c);
  }

  /** A pass over these brokers and plans went this far. */
  ghost predicate PlansPassed(cfg: Config, sm: SMState, plans: map<string, BrokerPlan>, brokers: seq<ServiceBroker>,
                              before: set<Grant>, ok: bool, after: set<Grant>)
  {
    var names, desired := Names(cfg, brokers), DesiredAll(cfg, sm.visibilities, plans);
    Within(cfg, desired, names) ==>
      Pass(cfg, before, names, desired, ok && Clear(Listed(cfg, before, names) + desired), after)
  }

  lemma NothingPassed(cfg: Config, sm: SMState, plans: map<string, BrokerPlan>, brokers: seq<ServiceBroker>,
                      before: set<Grant>)
    ensures PlansPassed(cfg, sm, plans, brokers, before, false, before)
  {
  }

  /** Only a failed listing, a failing call or the cancellation of the context makes the pass fail; without the first
      and the last of these the calls are those for the difference. */
  method ReconcilePlansVisibilities(e: Endpoints, byPlans: bool, plans: map<string, BrokerPlan>,
                                    brokers: seq<ServiceBroker>)
    returns (ok: bool, ghost calls: seq<Event>)
    modifies e`grants, e`trace, e`cancellations, e`failedListings
    ensures PlansPassed(e.cfg, e.sm, plans, brokers, old(e.grants), ok, e.grants)
    ensures e.trace == old(e.trace) + calls && OnlyAccess(calls) && NoEnableAfterFailedDisable(calls)
    ensures e.cancellations >= old(e.cancellations) && e.failedListings >= old(e.failedListings)
    ensures !ok <==> e.cancellations > old(e.cancellations) || e.failedListings > old(e.failedListings)
                     || !AllSucceeded(calls)
    ensures e.cancellations == old(e.cancellations) && e.failedListings == old(e.failedListings) ==>
              PassMade(e.cfg, e.sm, plans, brokers, old(e.grants), calls)
  {
    ok, calls := false, [];
    NothingPassed(e.cfg, e.sm, plans, brokers, e.grants);
    var smVis := GetVisibilitiesFromSM(e, byPlans, plans);
    if smVis.Some? {
      var platformVis := e.GetVisibilitiesByBrokers(Names(e.cfg, brokers));
      if platformVis.Some? {
        ok, calls := ReconcileListed(e, platformVis.value, smVis.value, plans, brokers);
      }
    }
  }

  lemma PassFromDiff(cfg: Config, before: set<Grant>, names: set<string>, platformVis: seq<Visibility>,
                     smVis: seq<Visibility>, ok: bool, after: set<Grant>)
    requires GrantsOf(cfg, platformVis) == Listed(cfg, before, names)
    requires var P, S := GrantsOf(cfg, platformVis), GrantsOf(cfg, smVis);
             && before - (P - S) <= after <= before + S
             && (ok && AllPipeFree(cfg, platformVis + smVis) && P <= before ==> after == before - (P - S) + S)
    requires forall v :: v in platformVis + smVis ==> Canonical(cfg, v)
    ensures var desired := GrantsOf(cfg, smVis);
            Within(cfg, desired, names) ==>
              Pass(cfg, before, names, desired, ok && Clear(Listed(cfg, before, names) + desired), after)
  {
    var seen := Listed(cfg, before, names) + GrantsOf(cfg, smVis);
    if Clear(seen) {
      ClearMeansPipeFree(cfg, platformVis, seen);
      ClearMeansPipeFree(cfg, smVis, seen);
    }
  }

  lemma ClearMeansPipeFree(cfg: Config, list: seq<Visibility>, grants: set<Grant>)
    requires Clear(grants) && GrantsOf(cfg, list) <= grants
    requires forall v :: v in list ==> Canonical(cfg, v)
    ensures AllPipeFree(cfg, list)
  {
    forall v | v in list ensures PipeFree(cfg, v) {
      InGrantsOf(cfg, list, v);
    }
  }

  // ---- Plans and chunks ----

  function LinkedPlans(plans: seq<ServicePlan>, offerings: map<string, ServiceOffering>,
                       brokers: map<string, ServiceBroker>): (r: map<string, BrokerPlan>)
    ensures forall id :: id in r ==> r[id].plan.id == id && r[id].broker in brokers.Values
  {
    if plans == [] then map[]
    else
      var init, plan := LinkedPlans(plans[..|plans| - 1], offerings, brokers), plans[|plans| - 1];
      if plan.offeringID in offerings && offerings[plan.offeringID].brokerID in brokers
      then init[plan.id := BrokerPlan(plan, brokers[offerings[plan.offeringID].brokerID])]
      else init
  }

  function BrokersByID(brokers: seq<ServiceBroker>): map<string, ServiceBroker> {
    Indexing.Index(brokers, (b: ServiceBroker) => Some(b.guid))
  }

  function OfferingsByID(offerings: seq<ServiceOffering>): map<string, ServiceOffering> {
    Indexing.Index(offerings, (o: ServiceOffering) => Some(o.id))
  }

  /** The plans of SM that lead through an offering to one of the given brokers. */
  function SMPlans(sm: SMState, brokers: seq<ServiceBroker>): map<string, BrokerPlan> {
    LinkedPlans(sm.plans, OfferingsByID(sm.offerings), BrokersByID(brokers))
  }

  method GetSMBrokerPlans(smOfferings: seq<ServiceOffering>, smPlans: seq<ServicePlan>, smBrokers: seq<ServiceBroker>)
    returns (r: map<string, BrokerPlan>)
    ensures r == LinkedPlans(smPlans, OfferingsByID(smOfferings), BrokersByID(smBrokers))
    ensures forall id :: id in r ==> r[id].plan.id == id && r[id].broker in smBrokers
  {
    var offerings := Indexing.IndexBy(smOfferings, (o: ServiceOffering) => Some(o.id));
    var brokers := Indexing.IndexBy(smBrokers, (b: ServiceBroker) => Some(b.guid));
    r := map[];
    for i := 0 to |smPlans|
      invariant r == LinkedPlans(smPlans[..i], offerings, brokers)
    {
      assert smPlans[..i + 1][..i] == smPlans[..i];
      var plan := smPlans[i];
      if plan.offeringID in offerings && offerings[plan.offeringID].brokerID in brokers {
        r := r[plan.id := BrokerPlan(plan, brokers[offerings[plan.offeringID].brokerID])];
      }
    }
    assert smPlans[..|smPlans|] == smPlans;
    Indexing.IndexHoldsTheLast(smBrokers, (b: ServiceBroker) => Some(b.guid));
  }

  // What the join holds, in terms of the lists alone.

  predicate Linked(p: ServicePlan, offerings: map<string, ServiceOffering>, brokers: map<string, ServiceBroker>) {
    p.offeringID in offerings && offerings[p.offeringID].brokerID in brokers
  }

  ghost predicate DistinctPlans(plans: seq<ServicePlan>) {
    forall i, j :: 0 <= i < j < |plans| ==> plans[i].id != plans[j].id
  }

  /** The map holds the linked plans of the list under their ids, each with the broker that its offering names. */
  ghost predicate HoldsLinked(plans: seq<ServicePlan>, offerings: map<string, ServiceOffering>,
                              brokers: map<string, ServiceBroker>, m: map<string, BrokerPlan>)
  {
    && (forall p :: p in plans && Linked(p, offerings, brokers) ==>
          p.id in m && m[p.id] == BrokerPlan(p, brokers[offerings[p.offeringID].brokerID]))
    && (forall id :: id in m ==>
          && m[id].plan in plans && m[id].plan.id == id && Linked(m[id].plan, offerings, brokers)
          && m[id].broker == brokers[offerings[m[id].plan.offeringID].brokerID])
  }

  lemma HoldsOneMore(init: seq<ServicePlan>, last: ServicePlan, offerings: map<string, ServiceOffering>,
                     brokers: map<string, ServiceBroker>, m: map<string, BrokerPlan>)
    requires HoldsLinked(init, offerings, brokers, m) && forall p :: p in init ==> p.id != last.id
    ensures HoldsLinked(init + [last], offerings, brokers,
                        if Linked(last, offerings, brokers)
                        then m[last.id := BrokerPlan(last, brokers[offerings[last.offeringID].brokerID])] else m)
  {
  }

  lemma {:induction false} LinkedPlansHold(plans: seq<ServicePlan>, offerings: map<string, ServiceOffering>,
                                           brokers: map<string, ServiceBroker>)
    requires DistinctPlans(plans)
    ensures HoldsLinked(plans, offerings, brokers, LinkedPlans(plans, offerings, brokers))
    decreases |plans|
  {
    if plans != [] {
      var init, last := plans[..|plans| - 1], plans[|plans| - 1];
      assert plans == init + [last];
      LinkedPlansHold(init, offerings, brokers);
      HoldsOneMore(init, last, offerings, brokers, LinkedPlans(init, offerings, brokers));
    }
  }

  ghost predicate DistinctOfferings(offerings: seq<ServiceOffering>) {
    forall i, j :: 0 <= i < j < |offerings| ==> offerings[i].id != offerings[j].id
  }

  /** The ids that SM gives out are distinct. */
  ghost predicate DistinctIDs(sm: SMState, brokers: seq<ServiceBroker>) {
    DistinctPlans(sm.plans) && DistinctOfferings(sm.offerings) && DistinctGuids(brokers)
  }

  lemma OfferingIsIndexed(offerings: seq<ServiceOffering>, id: string)
    requires DistinctOfferings(offerings)
    ensures id in OfferingsByID(offerings) <==> exists o :: o in offerings && o.id == id
    ensures forall o :: o in offerings && o.id == id ==>
              id in OfferingsByID(offerings) && OfferingsByID(offerings)[id] == o
  {
    var key := (o: ServiceOffering) => Some(o.id);
    Indexing.IndexHoldsTheLast(offerings, key);
    if id in OfferingsByID(offerings) {
      var i :| Indexing.IsLast(offerings, key, id, i) && OfferingsByID(offerings)[id] == offerings[i];
      assert offerings[i] in offerings && offerings[i].id == id;
    }
    forall o | o in offerings && o.id == id
      ensures id in OfferingsByID(offerings) && OfferingsByID(offerings)[id] == o
    {
      var i :| 0 <= i < |offerings| && offerings[i] == o;
      Indexing.IndexOfDistinct(offerings, key, i);
    }
  }

  lemma BrokerIsIndexed(brokers: seq<ServiceBroker>, id: string)
    requires DistinctGuids(brokers)
    ensures id in BrokersByID(brokers) <==> exists b :: b in brokers && b.guid == id
    ensures forall b :: b in brokers && b.guid == id ==> id in BrokersByID(brokers) && BrokersByID(brokers)[id] == b
  {
    var key := (b: ServiceBroker) => Some(b.guid);
    Indexing.IndexHoldsTheLast(brokers, key);
    if id in BrokersByID(brokers) {
      var i :| Indexing.IsLast(brokers, key, id, i) && BrokersByID(brokers)[id] == brokers[i];
      assert brokers[i] in brokers && brokers[i].guid == id;
    }
    forall b | b in brokers && b.guid == id ensures id in BrokersByID(brokers) && BrokersByID(brokers)[id] == b {
      var i :| 0 <= i < |brokers| && brokers[i] == b;
      Indexing.IndexOfDistinct(brokers, key, i);
    }
  }

  ghost predicate OfferedBy(sm: SMState, p: ServicePlan, b: ServiceBroker) {
    exists o :: o in sm.offerings && o.id == p.offeringID && o.brokerID == b.guid
  }

  lemma LinkedIsOffered(sm: SMState, brokers: seq<ServiceBroker>, p: ServicePlan, b: ServiceBroker)
    requires DistinctOfferings(sm.offerings) && DistinctGuids(brokers)
    ensures var offerings, byID := OfferingsByID(sm.offerings), BrokersByID(brokers);
            (Linked(p, offerings, byID) && byID[offerings[p.offeringID].brokerID] == b
             <==> b in brokers && OfferedBy(sm, p, b))
  {
    OfferingIsIndexed(sm.offerings, p.offeringID);
    BrokerIsIndexed(brokers, b.guid);
    if Linked(p, OfferingsByID(sm.offerings), BrokersByID(brokers)) {
      BrokerIsIndexed(brokers, OfferingsByID(sm.offerings)[p.offeringID].brokerID);
    }
  }

  /** A plan is joined to a broker exactly if SM lists the plan, the broker is one of those given, and an offering
      of the broker has the plan. */
  lemma PlanIsJoinedIff(sm: SMState, brokers: seq<ServiceBroker>, p: ServicePlan, b: ServiceBroker)
    requires DistinctIDs(sm, brokers)
    ensures p.id in SMPlans(sm, brokers) && SMPlans(sm, brokers)[p.id] == BrokerPlan(p, b)
       <==> p in sm.plans && b in brokers && OfferedBy(sm, p, b)
  {
    LinkedPlansHold(sm.plans, OfferingsByID(sm.offerings), BrokersByID(brokers));
    LinkedIsOffered(sm, brokers, p, b);
  }

  function Flatten<T>(chunks: seq<seq<T>>): seq<T> {
    if chunks == [] then [] else Flatten(chunks[..|chunks| - 1]) + chunks[|chunks| - 1]
  }

  /** The chunk size is not validated anywhere, and no negative one works. */
  method GetBrokerChunks(brokers: seq<ServiceBroker>, chunkSize: int) returns (chunks: seq<seq<ServiceBroker>>)
    requires chunkSize > 0 || brokers == []
    ensures Flatten(chunks) == brokers
    ensures forall c :: 0 <= c < |chunks| ==> 0 < |chunks[c]| <= chunkSize
    ensures forall c :: 0 <= c < |chunks| - 1 ==> |chunks[c]| == chunkSize
  {
    chunks := [];
    var i := 0;
    while i < |brokers|
      invariant 0 <= i
      invariant Flatten(chunks) == brokers[..if i < |brokers| then i else |brokers|]
      invariant forall c :: 0 <= c < |chunks| ==> 0 < |chunks[c]| <= chunkSize
      invariant forall c :: 0 <= c < |chunks| && (c < |chunks| - 1 || i < |brokers|) ==> |chunks[c]| == chunkSize
    {
      var end := i + chunkSize;
      if end > |brokers| {
        end := |brokers|;
      }
      assert (chunks + [brokers[i..end]])[..|chunks|] == chunks;
      chunks := chunks + [brokers[i..end]];
      assert brokers[..i] + brokers[i..end] == brokers[..end];
      i := i + chunkSize;
    }
    assert brokers[..|brokers|] == brokers;
  }

  predicate HasID(brokers: seq<ServiceBroker>, id: string) {
    exists i | 0 <= i < |brokers| :: brokers[i].guid == id
  }

  function PlansOf(brokers: seq<ServiceBroker>, plans: map<string, BrokerPlan>): map<string, BrokerPlan> {
    map id | id in plans && HasID(brokers, plans[id].broker.guid) :: plans[id]
  }

  method GetBrokersPlans(brokers: seq<ServiceBroker>, brokersPlans: map<string, BrokerPlan>)
    returns (plans: map<string, BrokerPlan>)
    ensures plans == PlansOf(brokers, brokersPlans)
  {
    plans := map[];
    for i := 0 to |brokers|
      invariant plans == PlansOf(brokers[..i], brokersPlans)
    {
      plans := AddOwnPlans(brokers[i], brokersPlans, plans);
      PlansOfOneMore(brokers, i, brokersPlans);
    }
    assert brokers[..|brokers|] == brokers;
  }

  /** The inner loop of GetBrokersPlans. */
  method AddOwnPlans(b: ServiceBroker, brokersPlans: map<string, BrokerPlan>, before: map<string, BrokerPlan>)
    returns (plans: map<string, BrokerPlan>)
    ensures plans == before + OwnPlans(b, brokersPlans, brokersPlans.Keys)
  {
    plans := before;
    var todo := brokersPlans.Keys;
    while todo != {}
      invariant todo <= brokersPlans.Keys
      invariant plans == before + OwnPlans(b, brokersPlans, brokersPlans.Keys - todo)
      decreases |todo|
    {
      var id :| id in todo;
      OwnPlansOneMore(b, brokersPlans, todo, id);
      if brokersPlans[id].broker.guid == b.guid {
        plans := plans[id := brokersPlans[id]];
      }
      todo := todo - {id};
    }
    assert brokersPlans.Keys - todo == brokersPlans.Keys;
  }

  function OwnPlans(b: ServiceBroker, plans: map<string, BrokerPlan>, ids: set<string>): map<string, BrokerPlan> {
    map id | id in ids && id in plans && plans[id].broker.guid == b.guid :: plans[id]
  }

  lemma OwnPlansOneMore(b: ServiceBroker, plans: map<string, BrokerPlan>, todo: set<string>, id: string)
    requires id in todo && todo <= plans.Keys
    ensures var own := OwnPlans(b, plans, plans.Keys - todo);
            OwnPlans(b, plans, plans.Keys - (todo - {id}))
            == if plans[id].broker.guid == b.guid then own[id := plans[id]] else own
  {
  }

  lemma PlansOfOneMore(brokers: seq<ServiceBroker>, i: nat, plans: map<string, BrokerPlan>)
    requires i < |brokers|
    ensures PlansOf(brokers[..i + 1], plans) == PlansOf(brokers[..i], plans) + OwnPlans(brokers[i], plans, plans.Keys)
  {
  }

  // ---- All brokers ----

  /** One pass after another, each over the brokers of one chunk and their plans. */
  ghost predicate PassChain(cfg: Config, sm: SMState, plans: map<string, BrokerPlan>, chunks: seq<seq<ServiceBroker>>,
                            states: seq<set<Grant>>, ok: seq<bool>)
  {
    && |states| == |chunks| + 1 && |ok| == |chunks|
    && forall c :: 0 <= c < |chunks| ==> ChunkPass(cfg, sm, plans, chunks[c], states[c], ok[c], states[c + 1])
  }

  ghost predicate ChunkPass(cfg: Config, sm: SMState, plans: map<string, BrokerPlan>, chunk: seq<ServiceBroker>,
                            before: set<Grant>, ok: bool, after: set<Grant>)
  {
    PlansPassed(cfg, sm, PlansOf(chunk, plans), chunk, before, ok, after)
  }

  /** The calls of a chunk's pass that was not disturbed: it failed exactly if one of them did, and they are those for
      the difference. */
  ghost predicate ChunkCalls(cfg: Config, sm: SMState, plans: map<string, BrokerPlan>, chunk: seq<ServiceBroker>,
                             before: set<Grant>, whole: bool, ok: bool, calls: seq<Event>)
  {
    whole ==> (ok <==> AllSucceeded(calls)) && PassMade(cfg, sm, PlansOf(chunk, plans), chunk, before, calls)
  }

  ghost predicate CallsOfChunks(cfg: Config, sm: SMState, plans: map<string, BrokerPlan>,
      chunks: seq<seq<ServiceBroker>>, states: seq<set<Grant>>, whole: seq<bool>, ok: seq<bool>, calls: seq<seq<Event>>)
  {
    && |states| == |chunks| + 1 && |whole| == |ok| == |chunks| == |calls|
    && forall c :: 0 <= c < |chunks| ==> ChunkCalls(cfg, sm, plans, chunks[c], states[c], whole[c], ok[c], calls[c])
  }

  /** The log of all passes. No more of them were disturbed than there were disturbances. */
  ghost predicate ChunksLogged(cfg: Config, sm: SMState, plans: map<string, BrokerPlan>,
      chunks: seq<seq<ServiceBroker>>, states: seq<set<Grant>>, ok: seq<bool>, log: seq<Event>, disturbances: nat)
  {
    exists whole, calls ::
      CallsOfChunks(cfg, sm, plans, chunks, states, whole, ok, calls) && NumFalse(whole) <= disturbances
      && log == Flatten(calls)
  }

  lemma UndisturbedChunks(cfg: Config, sm: SMState, plans: map<string, BrokerPlan>, chunks: seq<seq<ServiceBroker>>,
                          states: seq<set<Grant>>, ok: seq<bool>, log: seq<Event>)
    requires ChunksLogged(cfg, sm, plans, chunks, states, ok, log, 0) && AllSucceeded(log)
    ensures |ok| == |chunks| && forall c :: 0 <= c < |ok| ==> ok[c]
  {
    var whole, calls :| CallsOfChunks(cfg, sm, plans, chunks, states, whole, ok, calls) && NumFalse(whole) <= 0
                        && log == Flatten(calls);
    AllSucceededFlatten(calls);
    forall c | 0 <= c < |ok| ensures ok[c] {
      NoneFalse(whole, c);
      assert ChunkCalls(cfg, sm, plans, chunks[c], states[c], whole[c], ok[c], calls[c]);
    }
  }

  lemma {:induction false} AllSucceededFlatten(parts: seq<seq<Event>>)
    ensures AllSucceeded(Flatten(parts)) <==> forall c :: 0 <= c < |parts| ==> AllSucceeded(parts[c])
  {
    if parts != [] {
      var n := |parts| - 1;
      AllSucceededFlatten(parts[..n]);
      AllSucceededConcat(Flatten(parts[..n]), parts[n]);
      assert forall c :: 0 <= c < n ==> parts[..n][c] == parts[c];
    }
  }

  lemma OneMorePass(cfg: Config, sm: SMState, plans: map<string, BrokerPlan>, chunks: seq<seq<ServiceBroker>>,
                    states: seq<set<Grant>>, ok: seq<bool>, chunk: seq<ServiceBroker>, passed: bool, after: set<Grant>)
    requires PassChain(cfg, sm, plans, chunks, states, ok)
    requires ChunkPass(cfg, sm, plans, chunk, Back(states), passed, after)
    ensures PassChain(cfg, sm, plans, chunks + [chunk], states + [after], ok + [passed])
  {
    var chunks', states', ok' := chunks + [chunk], states + [after], ok + [passed];
    forall c | 0 <= c < |chunks'| ensures ChunkPass(cfg, sm, plans, chunks'[c], states'[c], ok'[c], states'[c + 1]) {
      if c < |chunks| {
        assert ChunkPass(cfg, sm, plans, chunks[c], states[c], ok[c], states[c + 1]);
      }
    }
  }

  lemma OneMoreCalls(cfg: Config, sm: SMState, plans: map<string, BrokerPlan>, chunks: seq<seq<ServiceBroker>>,
      states: seq<set<Grant>>, whole: seq<bool>, ok: seq<bool>, calls: seq<seq<Event>>, chunk: seq<ServiceBroker>,
      undisturbed: bool, passed: bool, after: set<Grant>, more: seq<Event>)
    requires CallsOfChunks(cfg, sm, plans, chunks, states, whole, ok, calls)
    requires ChunkCalls(cfg, sm, plans, chunk, Back(states), undisturbed, passed, more)
    ensures CallsOfChunks(cfg, sm, plans, chunks + [chunk], states + [after], whole + [undisturbed], ok + [passed],
                          calls + [more])
  {
    var chunks', states', whole' := chunks + [chunk], states + [after], whole + [undisturbed];
    var ok', calls' := ok + [passed], calls + [more];
    forall c | 0 <= c < |chunks| {
      SameCalls(cfg, sm, plans, chunks[c], states[c], whole[c], ok[c], calls[c],
                chunks'[c], states'[c], whole'[c], ok'[c], calls'[c]);
    }
    var n := |chunks|;
    SameCalls(cfg, sm, plans, chunk, Back(states), undisturbed, passed, more,
              chunks'[n], states'[n], whole'[n], ok'[n], calls'[n]);
  }

  lemma SameCalls(cfg: Config, sm: SMState, plans: map<string, BrokerPlan>, chunk: seq<ServiceBroker>,
      before: set<Grant>, whole: bool, ok: bool, calls: seq<Event>, chunk': seq<ServiceBroker>, before': set<Grant>,
      whole': bool, ok': bool, calls': seq<Event>)
    requires ChunkCalls(cfg, sm, plans, chunk, before, whole, ok, calls)
    requires chunk' == chunk && before' == before && whole' == whole && ok' == ok && calls' == calls
    ensures ChunkCalls(cfg, sm, plans, chunk', before', whole', ok', calls')
  {
  }

  /** One more chunk's calls at the end of the log. */
  lemma LogOfChunks(before: seq<Event>, calls: seq<seq<Event>>, more: seq<Event>)
    requires OnlyAccess(Flatten(calls)) && OnlyAccess(more)
    ensures before + Flatten(calls + [more]) == before + Flatten(calls) + more && OnlyAccess(Flatten(calls + [more]))
  {
    FlattenOneMore(calls, more);
    Regroup(before, Flatten(calls), more);
  }

  lemma FlattenOne<T>(part: seq<T>)
    ensures Flatten([part]) == part
  {
    assert Flatten([part][..0]) == [];
    assert [] + part == part;
  }

  lemma FlattenOneMore<T>(parts: seq<seq<T>>, part: seq<T>)
    ensures Flatten(parts + [part]) == Flatten(parts) + part
  {
    assert (parts + [part])[..|parts|] == parts;
  }

  /** The next chunk's pass, after those of the chunks so far. */
  method ReconcileNext(e: Endpoints, smPlans: map<string, BrokerPlan>, chunk: seq<ServiceBroker>,
      ghost chunks: seq<seq<ServiceBroker>>, ghost states: seq<set<Grant>>, ghost whole: seq<bool>, ok: seq<bool>,
      ghost calls: seq<seq<Event>>)
    returns (ghost whole': seq<bool>, ok': seq<bool>, ghost more: seq<Event>)
    requires PassChain(e.cfg, e.sm, smPlans, chunks, states, ok) && Back(states) == e.grants
    requires CallsOfChunks(e.cfg, e.sm, smPlans, chunks, states, whole, ok, calls)
    modifies e`grants, e`trace, e`cancellations, e`failedListings
    ensures |ok'| == |ok| + 1
    ensures PassChain(e.cfg, e.sm, smPlans, chunks + [chunk], states + [e.grants], ok')
    ensures CallsOfChunks(e.cfg, e.sm, smPlans, chunks + [chunk], states + [e.grants], whole', ok', calls + [more])
    ensures NumFalse(whole') - NumFalse(whole) <= e.Disturbances() - old(e.Disturbances())
    ensures e.trace == old(e.trace) + more && OnlyAccess(more)
  {
    var plansChunk := GetBrokersPlans(chunk, smPlans);
    var passed;
    passed, more := ReconcilePlansVisibilities(e, true, plansChunk, chunk);
    ghost var undisturbed := e.cancellations == old(e.cancellations) && e.failedListings == old(e.failedListings);
    NumFalseOneMore(whole, undisturbed);
    OneMorePass(e.cfg, e.sm, smPlans, chunks, states, ok, chunk, passed, e.grants);
    OneMoreCalls(e.cfg, e.sm, smPlans, chunks, states, whole, ok, calls, chunk, undisturbed, passed, e.grants, more);
    whole', ok' := whole + [undisturbed], ok + [passed];
  }

  /** One pass for each chunk, whatever fails in the others. */
  method ReconcileChunks(e: Endpoints, smPlans: map<string, BrokerPlan>, chunks: seq<seq<ServiceBroker>>)
    returns (ok: seq<bool>, ghost states: seq<set<Grant>>, ghost log: seq<Event>)
    modifies e`grants, e`trace, e`cancellations, e`failedListings
    ensures PassChain(e.cfg, e.sm, smPlans, chunks, states, ok)
    ensures states[0] == old(e.grants) && states[|chunks|] == e.grants
    ensures e.trace == old(e.trace) + log && OnlyAccess(log) && e.Disturbances() >= old(e.Disturbances())
    ensures ChunksLogged(e.cfg, e.sm, smPlans, chunks, states, ok, log, e.Disturbances() - old(e.Disturbances()))
  {
    ghost var whole, calls := [], [];
    ok, states := [], [e.grants];
    for c := 0 to |chunks|
      invariant PassChain(e.cfg, e.sm, smPlans, chunks[..c], states, ok)
      invariant states[0] == old(e.grants) && states[c] == e.grants
      invariant e.trace == old(e.trace) + Flatten(calls) && OnlyAccess(Flatten(calls))
      invariant CallsOfChunks(e.cfg, e.sm, smPlans, chunks[..c], states, whole, ok, calls)
      invariant NumFalse(whole) <= e.Disturbances() - old(e.Disturbances())
    {
      ghost var more;
      whole, ok, more := ReconcileNext(e, smPlans, chunks[c], chunks[..c], states, whole, ok, calls);
      LogOfChunks(old(e.trace), calls, more);
      assert chunks[..c + 1] == chunks[..c] + [chunks[c]];
      states, calls := states + [e.grants], calls + [more];
    }
    assert chunks[..|chunks|] == chunks;
    log := Flatten(calls);
  }

  lemma OneChunk(cfg: Config, sm: SMState, plans: map<string, BrokerPlan>, chunk: seq<ServiceBroker>,
                 states: seq<set<Grant>>, whole: bool, ok: bool, calls: seq<Event>, disturbances: nat)
    requires |states| == 2 && ChunkPass(cfg, sm, plans, chunk, states[0], ok, states[1])
    requires ChunkCalls(cfg, sm, plans, chunk, states[0], whole, ok, calls) && (!whole ==> disturbances > 0)
    ensures Flatten([chunk]) == chunk && PassChain(cfg, sm, plans, [chunk], states, [ok])
    ensures ChunksLogged(cfg, sm, plans, [chunk], states, [ok], calls, disturbances)
  {
    FlattenOne(chunk);
    FlattenOne(calls);
    NumFalseOneMore([], whole);
    assert [] + [whole] == [whole];
    forall c | 0 <= c < 1 {
      SameCalls(cfg, sm, plans, chunk, states[0], whole, ok, calls,
                [chunk][c], states[c], [whole][c], [ok][c], [calls][c]);
    }
    assert CallsOfChunks(cfg, sm, plans, [chunk], states, [whole], [ok], [calls]);
  }

  /** `ok` tells the passes that succeeded; with chunk size 0 there is one pass, over everything. */
  method ReconcileVisibilities(e: Endpoints, chunkSize: int, smPlans: map<string, BrokerPlan>,
                               smBrokers: seq<ServiceBroker>)
    returns (chunks: seq<seq<ServiceBroker>>, ok: seq<bool>, ghost states: seq<set<Grant>>, ghost log: seq<Event>)
    requires chunkSize >= 0 || smBrokers == []
    requires forall id :: id in smPlans ==> smPlans[id].broker in smBrokers
    modifies e`grants, e`trace, e`cancellations, e`failedListings
    ensures chunkSize == 0 ==> chunks == [smBrokers]
    ensures Flatten(chunks) == smBrokers
    ensures PassChain(e.cfg, e.sm, smPlans, chunks, states, ok)
    ensures states[0] == old(e.grants) && states[|chunks|] == e.grants
    ensures e.trace == old(e.trace) + log && OnlyAccess(log) && e.Disturbances() >= old(e.Disturbances())
    ensures ChunksLogged(e.cfg, e.sm, smPlans, chunks, states, ok, log, e.Disturbances() - old(e.Disturbances()))
  {
    if chunkSize == 0 {
      var passed;
      passed, log := ReconcilePlansVisibilities(e, false, smPlans, smBrokers);
      PlansOfAll(smBrokers, smPlans);
      chunks, ok, states := [smBrokers], [passed], [old(e.grants), e.grants];
      ghost var whole := e.cancellations == old(e.cancellations) && e.failedListings == old(e.failedListings);
      OneChunk(e.cfg, e.sm, smPlans, smBrokers, states, whole, passed, log, e.Disturbances() - old(e.Disturbances()));
    } else {
      chunks := GetBrokerChunks(smBrokers, chunkSize);
      ok, states, log := ReconcileChunks(e, smPlans, chunks);
    }
  }

  lemma PlansOfAll(brokers: seq<ServiceBroker>, plans: map<string, BrokerPlan>)
    requires forall id :: id in plans ==> plans[id].broker in brokers
    ensures PlansOf(brokers, plans) == plans
  {
  }

  /** SM's ids are unique, and no two brokers share a proxy name. */
  ghost predicate Separate(cfg: Config, brokers: seq<ServiceBroker>) {
    forall i, j :: 0 <= i < |brokers| && 0 <= j < |brokers| && i != j ==>
      brokers[i].guid != brokers[j].guid && ProxyNameOf(cfg, brokers[i]) != ProxyNameOf(cfg, brokers[j])
  }

  function ChunkNames(cfg: Config, chunks: seq<seq<ServiceBroker>>, c: nat): set<string>
    requires c < |chunks|
  {
    Names(cfg, chunks[c])
  }

  function ChunkDesired(cfg: Config, sm: SMState, plans: map<string, BrokerPlan>, chunks: seq<seq<ServiceBroker>>,
                        c: nat): set<Grant>
    requires c < |chunks|
  {
    DesiredAll(cfg, sm.visibilities, PlansOf(chunks[c], plans))
  }

  /** Where in the flattened list the elements of a chunk are. */
  lemma {:induction false} ChunkOffset<T>(chunks: seq<seq<T>>, c: nat) returns (start: nat)
    requires c < |chunks|
    ensures start + |chunks[c]| <= |Flatten(chunks)|
    ensures forall i :: 0 <= i < |chunks[c]| ==> Flatten(chunks)[start + i] == chunks[c][i]
    ensures start == |Flatten(chunks[..c])|
    decreases |chunks|
  {
    var k := |chunks| - 1;
    if c == k {
      start := |Flatten(chunks[..k])|;
    } else {
      start := ChunkOffset(chunks[..k], c);
      assert chunks[..k][..c] == chunks[..c];
    }
  }

  lemma {:induction false} FlattenPrefix<T>(chunks: seq<seq<T>>, c: nat, d: nat)
    requires c < d <= |chunks|
    ensures |Flatten(chunks[..c])| + |chunks[c]| <= |Flatten(chunks[..d])|
    decreases d - c
  {
    assert chunks[..d][..d - 1] == chunks[..d - 1];
    if c < d - 1 {
      FlattenPrefix(chunks, c, d - 1);
    }
  }

  lemma InSomeChunk<T>(chunks: seq<seq<T>>, x: T) returns (c: nat)
    requires x in Flatten(chunks)
    ensures c < |chunks| && x in chunks[c]
    decreases |chunks|
  {
    var k := |chunks| - 1;
    if x in chunks[k] {
      c := k;
    } else {
      c := InSomeChunk(chunks[..k], x);
    }
  }

  /** Two brokers of different chunks have different ids and different names; two of one chunk too. */
  lemma ChunksSeparate(cfg: Config, chunks: seq<seq<ServiceBroker>>, c: nat, d: nat, b: ServiceBroker,
                       b': ServiceBroker)
    requires Separate(cfg, Flatten(chunks)) && c < |chunks| && d < |chunks|
    requires b in chunks[c] && b' in chunks[d]
    ensures b.guid == b'.guid || ProxyNameOf(cfg, b) == ProxyNameOf(cfg, b') ==> b == b' && c == d
  {
    var all := Flatten(chunks);
    var s := ChunkOffset(chunks, c);
    var t := ChunkOffset(chunks, d);
    var i :| 0 <= i < |chunks[c]| && chunks[c][i] == b;
    var j :| 0 <= j < |chunks[d]| && chunks[d][j] == b';
    assert all[s + i] == b && all[t + j] == b';
    if c < d {
      FlattenPrefix(chunks, c, d);
    } else if d < c {
      FlattenPrefix(chunks, d, c);
    }
  }

  /** What is desired for some plans is about the brokers of these plans. */
  lemma DesiredIsOfPlans(cfg: Config, visibilities: seq<SMVisibility>, plans: map<string, BrokerPlan>, x: Grant)
    returns (id: string)
    requires x in DesiredAll(cfg, visibilities, plans)
    ensures id in plans && x.brokerName == ProxyNameOf(cfg, plans[id].broker) && Listable(cfg, x)
  {
    var i :| 0 <= i < |visibilities| && visibilities[i].planID in plans
             && x in Desired(cfg, visibilities[i], plans[visibilities[i].planID]);
    id := visibilities[i].planID;
  }

  lemma ChunkIsWithin(cfg: Config, sm: SMState, plans: map<string, BrokerPlan>, chunks: seq<seq<ServiceBroker>>, c: nat)
    requires Separate(cfg, Flatten(chunks)) && c < |chunks|
    requires forall id :: id in plans ==> plans[id].broker in Flatten(chunks)
    ensures Within(cfg, ChunkDesired(cfg, sm, plans, chunks, c), ChunkNames(cfg, chunks, c))
  {
    forall x | x in ChunkDesired(cfg, sm, plans, chunks, c)
      ensures x.brokerName in ChunkNames(cfg, chunks, c) && Listable(cfg, x)
    {
      var id := DesiredIsOfPlans(cfg, sm.visibilities, PlansOf(chunks[c], plans), x);
      OwnerIsInChunk(cfg, chunks, c, plans[id].broker);
    }
  }

  lemma OwnerIsInChunk(cfg: Config, chunks: seq<seq<ServiceBroker>>, c: nat, b: ServiceBroker)
    requires Separate(cfg, Flatten(chunks)) && c < |chunks|
    requires b in Flatten(chunks) && HasID(chunks[c], b.guid)
    ensures b in chunks[c]
  {
    var i :| 0 <= i < |chunks[c]| && chunks[c][i].guid == b.guid;
    var d := InSomeChunk(chunks, b);
    ChunksSeparate(cfg, chunks, c, d, chunks[c][i], b);
  }

  lemma ChunkNamesDisjoint(cfg: Config, chunks: seq<seq<ServiceBroker>>, c: nat, d: nat)
    requires Separate(cfg, Flatten(chunks)) && c < |chunks| && d < |chunks| && c != d
    ensures ChunkNames(cfg, chunks, c) !! ChunkNames(cfg, chunks, d)
  {
    forall b, b' | b in chunks[c] && b' in chunks[d] ensures ProxyNameOf(cfg, b) != ProxyNameOf(cfg, b') {
      ChunksSeparate(cfg, chunks, c, d, b, b');
    }
  }

  ghost predicate ChainSetting(cfg: Config, sm: SMState, plans: map<string, BrokerPlan>,
                               chunks: seq<seq<ServiceBroker>>, states: seq<set<Grant>>, ok: seq<bool>)
  {
    && PassChain(cfg, sm, plans, chunks, states, ok)
    && Separate(cfg, Flatten(chunks))
    && (forall id :: id in plans ==> plans[id].broker in Flatten(chunks))
  }

  /** The brokers and plans of a chunk fit together, so its step of the chain is a pass. */
  lemma ChunkPassed(cfg: Config, sm: SMState, plans: map<string, BrokerPlan>, chunks: seq<seq<ServiceBroker>>,
                    states: seq<set<Grant>>, ok: seq<bool>, c: nat)
    requires ChainSetting(cfg, sm, plans, chunks, states, ok) && c < |chunks|
    ensures var names, desired := ChunkNames(cfg, chunks, c), ChunkDesired(cfg, sm, plans, chunks, c);
            && Within(cfg, desired, names)
            && Settled(cfg, states[c], names, desired, ok[c]
                       && Clear(Listed(cfg, states[c], names) + desired), states[c + 1])
            && SameOutside(cfg, states[c], names, states[c + 1])
  {
    ChunkIsWithin(cfg, sm, plans, chunks, c);
    assert ChunkPass(cfg, sm, plans, chunks[c], states[c], ok[c], states[c + 1]);
  }

  lemma PassLeavesOthers(cfg: Config, before: set<Grant>, names: set<string>, after: set<Grant>, others: set<string>)
    requires SameOutside(cfg, before, names, after) && others !! names
    ensures Listed(cfg, before, others) == Listed(cfg, after, others)
  {
    forall x: Grant | x.brokerName in others ensures x in before <==> x in after {
      assert x in before - Listed(cfg, before, names) <==> x in after - Listed(cfg, after, names);
    }
  }

  lemma OtherPassLeavesChunk(cfg: Config, sm: SMState, plans: map<string, BrokerPlan>, chunks: seq<seq<ServiceBroker>>,
      states: seq<set<Grant>>, ok: seq<bool>, c: nat, d: nat)
    requires ChainSetting(cfg, sm, plans, chunks, states, ok)
    requires c < |chunks| && d < |chunks| && c != d
    ensures Listed(cfg, states[d], ChunkNames(cfg, chunks, c)) == Listed(cfg, states[d + 1], ChunkNames(cfg, chunks, c))
  {
    ChunkNamesDisjoint(cfg, chunks, c, d);
    ChunkPassed(cfg, sm, plans, chunks, states, ok, d);
    PassLeavesOthers(cfg, states[d], ChunkNames(cfg, chunks, d), states[d + 1], ChunkNames(cfg, chunks, c));
  }

  /** A chunk's grants stand still from one state of the chain to a later one unless the chunk's own pass is between. */
  lemma {:induction false} OthersLeaveChunk(cfg: Config, sm: SMState, plans: map<string, BrokerPlan>,
      chunks: seq<seq<ServiceBroker>>, states: seq<set<Grant>>, ok: seq<bool>, c: nat, n: nat, m: nat)
    requires ChainSetting(cfg, sm, plans, chunks, states, ok)
    requires c < |chunks| && n <= m <= |chunks| && (m <= c || c < n)
    ensures Listed(cfg, states[n], ChunkNames(cfg, chunks, c)) == Listed(cfg, states[m], ChunkNames(cfg, chunks, c))
    decreases m - n
  {
    if n < m {
      OthersLeaveChunk(cfg, sm, plans, chunks, states, ok, c, n, m - 1);
      OtherPassLeavesChunk(cfg, sm, plans, chunks, states, ok, c, m - 1);
    }
  }

  lemma ChunkDesiresPart(cfg: Config, sm: SMState, plans: map<string, BrokerPlan>, brokers: seq<ServiceBroker>)
    ensures DesiredAll(cfg, sm.visibilities, PlansOf(brokers, plans)) <= DesiredAll(cfg, sm.visibilities, plans)
  {
  }

  /** Nothing appears that SM does not want, and brokers that SM does not list are left alone. */
  lemma {:induction false} ChainAddsOnlyDesired(cfg: Config, sm: SMState, plans: map<string, BrokerPlan>,
      chunks: seq<seq<ServiceBroker>>, states: seq<set<Grant>>, ok: seq<bool>, n: nat)
    requires ChainSetting(cfg, sm, plans, chunks, states, ok) && n <= |chunks|
    ensures states[n] <= states[0] + DesiredAll(cfg, sm.visibilities, plans)
    ensures forall x :: x in states[0] && !(Listable(cfg, x) && x.brokerName in Names(cfg, Flatten(chunks))) ==>
              x in states[n]
    ensures forall x :: x in states[n] && !(Listable(cfg, x) && x.brokerName in Names(cfg, Flatten(chunks))) ==>
              x in states[0]
  {
    if n > 0 {
      ChainAddsOnlyDesired(cfg, sm, plans, chunks, states, ok, n - 1);
      ChunkPassed(cfg, sm, plans, chunks, states, ok, n - 1);
      ChunkDesiresPart(cfg, sm, plans, chunks[n - 1]);
      ChunkNamesAreNames(cfg, chunks, n - 1);
      StepOutside(cfg, states[n - 1], ChunkNames(cfg, chunks, n - 1), states[n], Names(cfg, Flatten(chunks)));
    }
  }

  lemma StepOutside(cfg: Config, before: set<Grant>, names: set<string>, after: set<Grant>, all: set<string>)
    requires SameOutside(cfg, before, names, after) && names <= all
    ensures forall x :: !(Listable(cfg, x) && x.brokerName in all) ==> (x in before <==> x in after)
    ensures after <= before + Listed(cfg, after, names)
  {
    forall x: Grant ensures !(Listable(cfg, x) && x.brokerName in names) ==> (x in before <==> x in after) {
      assert x in before - Listed(cfg, before, names) <==> x in after - Listed(cfg, after, names);
    }
  }

  lemma ChunkNamesAreNames(cfg: Config, chunks: seq<seq<ServiceBroker>>, c: nat)
    requires c < |chunks|
    ensures ChunkNames(cfg, chunks, c) <= Names(cfg, Flatten(chunks))
  {
  }

  /** No scope and no broker name contains the separator of keys, among what the platform lists for the chunk's brokers
      before and what SM wants for them. */
  ghost predicate ClearChunk(cfg: Config, sm: SMState, plans: map<string, BrokerPlan>, chunks: seq<seq<ServiceBroker>>,
                             before: set<Grant>, c: nat)
    requires c < |chunks|
  {
    Clear(Listed(cfg, before, ChunkNames(cfg, chunks, c)) + ChunkDesired(cfg, sm, plans, chunks, c))
  }

  /** Whatever the other chunks did, and whether or not they failed: at the end each chunk is where its own pass
      left it, converged if that pass succeeded and the separator of keys is nowhere in the chunk. Grants of brokers
      that SM does not list never change. */
  lemma ChunkIsolation(cfg: Config, sm: SMState, plans: map<string, BrokerPlan>, chunks: seq<seq<ServiceBroker>>,
      states: seq<set<Grant>>, ok: seq<bool>, c: nat)
    requires ChainSetting(cfg, sm, plans, chunks, states, ok) && c < |chunks|
    ensures Settled(cfg, states[0], ChunkNames(cfg, chunks, c), ChunkDesired(cfg, sm, plans, chunks, c),
                    ok[c] && ClearChunk(cfg, sm, plans, chunks, states[0], c), states[|chunks|])
    ensures SameOutside(cfg, states[0], Names(cfg, Flatten(chunks)), states[|chunks|])
  {
    OthersLeaveChunk(cfg, sm, plans, chunks, states, ok, c, 0, c);
    OthersLeaveChunk(cfg, sm, plans, chunks, states, ok, c, c + 1, |chunks|);
    ChunkPassed(cfg, sm, plans, chunks, states, ok, c);
    SettledSame(cfg, states[c], states[0], ChunkNames(cfg, chunks, c), ChunkDesired(cfg, sm, plans, chunks, c),
                ok[c], states[c + 1], states[|chunks|]);
    ChainLeavesOthers(cfg, sm, plans, chunks, states, ok);
  }

  lemma SettledSame(cfg: Config, before: set<Grant>, before': set<Grant>, names: set<string>, desired: set<Grant>,
                    ok: bool, after: set<Grant>, after': set<Grant>)
    requires Settled(cfg, before, names, desired, ok && Clear(Listed(cfg, before, names) + desired), after)
    requires Listed(cfg, before, names) == Listed(cfg, before', names)
    requires Listed(cfg, after, names) == Listed(cfg, after', names)
    ensures Settled(cfg, before', names, desired, ok && Clear(Listed(cfg, before', names) + desired), after')
  {
  }

  /** What is clear for all brokers is clear for the brokers of each chunk. */
  lemma ChunksAreClear(cfg: Config, sm: SMState, plans: map<string, BrokerPlan>, chunks: seq<seq<ServiceBroker>>,
                       before: set<Grant>, c: nat)
    requires c < |chunks|
    requires Clear(Listed(cfg, before, Names(cfg, Flatten(chunks))) + DesiredAll(cfg, sm.visibilities, plans))
    ensures ClearChunk(cfg, sm, plans, chunks, before, c)
  {
    ChunkNamesAreNames(cfg, chunks, c);
    ChunkDesiresPart(cfg, sm, plans, chunks[c]);
    PartIsClear(Listed(cfg, before, ChunkNames(cfg, chunks, c)) + ChunkDesired(cfg, sm, plans, chunks, c),
                Listed(cfg, before, Names(cfg, Flatten(chunks))) + DesiredAll(cfg, sm.visibilities, plans));
  }

  lemma PartIsClear(part: set<Grant>, all: set<Grant>)
    requires Clear(all) && part <= all
    ensures Clear(part)
  {
  }

  lemma ChainLeavesOthers(cfg: Config, sm: SMState, plans: map<string, BrokerPlan>, chunks: seq<seq<ServiceBroker>>,
      states: seq<set<Grant>>, ok: seq<bool>)
    requires ChainSetting(cfg, sm, plans, chunks, states, ok)
    ensures SameOutside(cfg, states[0], Names(cfg, Flatten(chunks)), states[|chunks|])
  {
    ChainAddsOnlyDesired(cfg, sm, plans, chunks, states, ok, |chunks|);
    var all, before, after := Names(cfg, Flatten(chunks)), states[0], states[|chunks|];
    forall x: Grant ensures x in before - Listed(cfg, before, all) <==> x in after - Listed(cfg, after, all) {
    }
  }

  /** The platform after a full success: what it lists for these brokers replaced by what SM wants for them. */
  function Reconciled(cfg: Config, before: set<Grant>, names: set<string>, desired: set<Grant>): set<Grant> {
    before - Listed(cfg, before, names) + desired
  }

  lemma DesiredInSomeChunk(cfg: Config, sm: SMState, plans: map<string, BrokerPlan>, chunks: seq<seq<ServiceBroker>>,
                           x: Grant)
    returns (c: nat)
    requires x in DesiredAll(cfg, sm.visibilities, plans)
    requires forall id :: id in plans ==> plans[id].broker in Flatten(chunks)
    ensures c < |chunks| && x in ChunkDesired(cfg, sm, plans, chunks, c)
  {
    var vs := sm.visibilities;
    var i :| 0 <= i < |vs| && vs[i].planID in plans && x in Desired(cfg, vs[i], plans[vs[i].planID]);
    var b := plans[vs[i].planID].broker;
    c := InSomeChunk(chunks, b);
    var k :| 0 <= k < |chunks[c]| && chunks[c][k] == b;
    assert HasID(chunks[c], b.guid);
    assert vs[i].planID in PlansOf(chunks[c], plans);
  }

  lemma ChainConverges(cfg: Config, sm: SMState, plans: map<string, BrokerPlan>, chunks: seq<seq<ServiceBroker>>,
      states: seq<set<Grant>>, ok: seq<bool>)
    requires ChainSetting(cfg, sm, plans, chunks, states, ok)
    requires Clear(Listed(cfg, states[0], Names(cfg, Flatten(chunks))) + DesiredAll(cfg, sm.visibilities, plans))
    requires forall c :: 0 <= c < |chunks| ==> ok[c]
    ensures states[|chunks|]
         == Reconciled(cfg, states[0], Names(cfg, Flatten(chunks)), DesiredAll(cfg, sm.visibilities, plans))
  {
    var all, desired, final := Names(cfg, Flatten(chunks)), DesiredAll(cfg, sm.visibilities, plans), states[|chunks|];
    forall x: Grant ensures x in final <==> x in Reconciled(cfg, states[0], all, desired) {
      if x in desired {
        var c := DesiredInSomeChunk(cfg, sm, plans, chunks, x);
        ChunksAreClear(cfg, sm, plans, chunks, states[0], c);
        ChunkIsolation(cfg, sm, plans, chunks, states, ok, c);
        assert x in Listed(cfg, final, ChunkNames(cfg, chunks, c));
      } else if Listable(cfg, x) && x.brokerName in all {
        var b :| b in Flatten(chunks) && ProxyNameOf(cfg, b) == x.brokerName;
        var c := InSomeChunk(chunks, b);
        ChunksAreClear(cfg, sm, plans, chunks, states[0], c);
        ChunkIsolation(cfg, sm, plans, chunks, states, ok, c);
        ChunkDesiresPart(cfg, sm, plans, chunks[c]);
        assert x !in Listed(cfg, final, ChunkNames(cfg, chunks, c));
      } else {
        ChainAddsOnlyDesired(cfg, sm, plans, chunks, states, ok, |chunks|);
      }
    }
  }

  /** Chunk by chunk or all at once, for any two ways to cut the brokers into chunks: if no pass fails, the platform
      ends up the same. */
  lemma ChunkedEqualsUnchunked(cfg: Config, sm: SMState, plans: map<string, BrokerPlan>,
      chunks: seq<seq<ServiceBroker>>, states: seq<set<Grant>>, ok: seq<bool>, chunks': seq<seq<ServiceBroker>>,
      states': seq<set<Grant>>, ok': seq<bool>)
    requires ChainSetting(cfg, sm, plans, chunks, states, ok) && ChainSetting(cfg, sm, plans, chunks', states', ok')
    requires Flatten(chunks) == Flatten(chunks') && states[0] == states'[0]
    requires Clear(Listed(cfg, states[0], Names(cfg, Flatten(chunks))) + DesiredAll(cfg, sm.visibilities, plans))
    requires (forall c :: 0 <= c < |chunks| ==> ok[c]) && (forall c :: 0 <= c < |chunks'| ==> ok'[c])
    ensures states[|chunks|] == states'[|chunks'|]
  {
    ChainConverges(cfg, sm, plans, chunks, states, ok);
    ChainConverges(cfg, sm, plans, chunks', states', ok');
  }
}
