/** Notifications about visibilities against a full resync, over the whole state: when the platform shows exactly
    what SM grants and one notification is handled without a failing call, does it still? */
module VisibilityTracking {
  import opened Types
  import opened Naming
  import opened World
  import opened LabelChanges
  import opened Visibilities
  import opened VisibilityHandler
  import opened VisibilityUpdates

  /** What the platform lists for the brokers with these names is what SM's visibilities grant; a resync establishes
      it. */
  ghost predicate Tracks(cfg: Config, grants: set<Grant>, names: set<string>, visibilities: seq<SMVisibility>,
                         plans: map<string, BrokerPlan>)
  {
    Listed(cfg, grants, names) == DesiredAll(cfg, visibilities, plans)
  }

  /** The payload describes this visibility, whose plan belongs to a broker under one of the names. */
  ghost predicate Describes(cfg: Config, d: Details, v: SMVisibility, plans: map<string, BrokerPlan>,
                            names: set<string>)
  {
    && d.resource.Some? && v.planID in plans
    && v == SMVisibility(d.resource.value.planID, d.resource.value.platformID, d.resource.value.labels)
    && d.catalogPlanID == plans[v.planID].plan.catalogID
    && NamesBroker(d, plans[v.planID].broker) && ProxyNameOf(cfg, plans[v.planID].broker) in names
  }

  // ---- What a listing shows of an access request ----

  function ScopeRights(cfg: Config, name: string, planID: string, labels: Labels): set<Grant> {
    set a | a in Pairs(labels) && a.key == cfg.scopeKey :: Grant(name, planID, a)
  }

  function ForEveryone(name: string, planID: string): set<Grant> {
    {Grant(name, planID, Everyone)}
  }

  /** The platform can show rights for everyone and those by scope. */
  function Shown(cfg: Config, name: string, planID: string, labels: Labels): set<Grant> {
    if labels == map[] then ForEveryone(name, planID) else ScopeRights(cfg, name, planID, labels)
  }

  lemma ShownIsListed(cfg: Config, name: string, planID: string, labels: Labels, names: set<string>)
    requires name in names
    ensures Listed(cfg, GrantsFor(name, planID, labels), names) == Shown(cfg, name, planID, labels)
  {
    forall x | x in Shown(cfg, name, planID, labels) ensures x in Listed(cfg, GrantsFor(name, planID, labels), names) {
      assert x.audience in Audiences(labels);
    }
  }

  lemma ListedAfter(cfg: Config, grants: set<Grant>, more: set<Grant>, less: set<Grant>, names: set<string>)
    ensures Listed(cfg, grants + more, names) == Listed(cfg, grants, names) + Listed(cfg, more, names)
    ensures Listed(cfg, grants - less, names) == Listed(cfg, grants, names) - Listed(cfg, less, names)
  {
  }

  /** An access request for this visibility is about what a resync grants for it. */
  predicate Faithful(cfg: Config, v: SMVisibility) {
    v.labels == map[] || !ShouldBePublic(cfg, v)
  }

  lemma DesiredRights(cfg: Config, v: SMVisibility, plan: BrokerPlan)
    ensures var name, planID := ProxyNameOf(cfg, plan.broker), plan.plan.catalogID;
            Desired(cfg, v, plan)
            == if ShouldBePublic(cfg, v) then ForEveryone(name, planID) else ScopeRights(cfg, name, planID, v.labels)
  {
    var name, planID := ProxyNameOf(cfg, plan.broker), plan.plan.catalogID;
    if !ShouldBePublic(cfg, v) {
      var scopes := v.labels[cfg.scopeKey];
      forall s | s in scopes ensures Holder(cfg.scopeKey, s) in Pairs(v.labels) {
        var i :| 0 <= i < |scopes| && scopes[i] == s;
        assert Holder(cfg.scopeKey, v.labels[cfg.scopeKey][i]) in Pairs(v.labels);
      }
    }
  }

  lemma DesiredWithOne(cfg: Config, a: seq<SMVisibility>, v: SMVisibility, b: seq<SMVisibility>,
                       plans: map<string, BrokerPlan>)
    requires v.planID in plans
    ensures DesiredAll(cfg, a + [v] + b, plans) == DesiredAll(cfg, a + b, plans) + Desired(cfg, v, plans[v.planID])
  {
    DesiredOfConcat(cfg, a + [v], b, plans);
    DesiredOfConcat(cfg, a, [v], plans);
    DesiredOfConcat(cfg, a, b, plans);
    assert DesiredAll(cfg, [v], plans) == Desired(cfg, v, plans[v.planID]) by {
      assert [v][0] == v;
    }
  }

  lemma DesiredOfConcat(cfg: Config, a: seq<SMVisibility>, b: seq<SMVisibility>, plans: map<string, BrokerPlan>)
    ensures DesiredAll(cfg, a + b, plans) == DesiredAll(cfg, a, plans) + DesiredAll(cfg, b, plans)
  {
    var c := a + b;
    assert forall i :: 0 <= i < |a| ==> c[i] == a[i];
    assert forall i :: 0 <= i < |b| ==> c[|a| + i] == b[i];
  }

  // ---- Creation and deletion ----

  /** A visibility comes anywhere in SM's list. After the handler has enabled it, the platform shows what SM grants
      if and only if the visibility has no labels or belongs to a platform and has a scope, or all that handler and
      resync would grant for it is granted by other visibilities already. */
  lemma CreationKeepsTracking(cfg: Config, grants: set<Grant>, names: set<string>, a: seq<SMVisibility>,
                              v: SMVisibility, b: seq<SMVisibility>, plans: map<string, BrokerPlan>, d: Details)
    requires Tracks(cfg, grants, names, a + b, plans) && Describes(cfg, d, v, plans, names)
    ensures var name := PlatformBroker(cfg, d);
            (Tracks(cfg, grants + GrantsOfDetails(cfg, d), names, a + [v] + b, plans)
             <==> Faithful(cfg, v)
                  || ScopeRights(cfg, name, d.catalogPlanID, v.labels) + ForEveryone(name, d.catalogPlanID)
                     <= DesiredAll(cfg, a + b, plans))
  {
    var name := PlatformBroker(cfg, d);
    ListedAfter(cfg, grants, GrantsOfDetails(cfg, d), {}, names);
    ShownIsListed(cfg, name, d.catalogPlanID, v.labels, names);
    DesiredWithOne(cfg, a, v, b, plans);
    DesiredRights(cfg, v, plans[v.planID]);
    SameAdded(DesiredAll(cfg, a + b, plans), ScopeRights(cfg, name, d.catalogPlanID, v.labels),
              Grant(name, d.catalogPlanID, Everyone));
  }

  lemma SameAdded(rest: set<Grant>, scopes: set<Grant>, e: Grant)
    requires e !in scopes
    ensures rest + scopes == rest + {e} <==> scopes + {e} <= rest
  {
    assert e in rest + {e};
  }

  /** A visibility goes from anywhere in SM's list. After the handler has disabled it, the platform shows what SM
      grants if and only if no other visibility grants what was disabled, and what a resync had granted for it was
      disabled or is granted by another. */
  lemma DeletionKeepsTracking(cfg: Config, grants: set<Grant>, names: set<string>, a: seq<SMVisibility>,
                              v: SMVisibility, b: seq<SMVisibility>, plans: map<string, BrokerPlan>, d: Details)
    requires Tracks(cfg, grants, names, a + [v] + b, plans) && Describes(cfg, d, v, plans, names)
    ensures var name, rest := PlatformBroker(cfg, d), DesiredAll(cfg, a + b, plans);
            (Tracks(cfg, grants - GrantsOfDetails(cfg, d), names, a + b, plans)
             <==> Shown(cfg, name, d.catalogPlanID, v.labels) !! rest
                  && (Faithful(cfg, v) || Grant(name, d.catalogPlanID, Everyone) in rest))
  {
    var name := PlatformBroker(cfg, d);
    ListedAfter(cfg, grants, {}, GrantsOfDetails(cfg, d), names);
    ShownIsListed(cfg, name, d.catalogPlanID, v.labels, names);
    DesiredWithOne(cfg, a, v, b, plans);
    DesiredRights(cfg, v, plans[v.planID]);
    LeftAfterRemoval(DesiredAll(cfg, a + b, plans), Desired(cfg, v, plans[v.planID]),
                     Shown(cfg, name, d.catalogPlanID, v.labels));
  }

  lemma LeftAfterRemoval(rest: set<Grant>, own: set<Grant>, gone: set<Grant>)
    ensures rest + own - gone == rest <==> gone !! rest && own - gone <= rest
  {
    if rest + own - gone == rest {
      forall x | x in own - gone ensures x in rest {
        assert x in rest + own - gone;
      }
    }
  }

  // ---- Modification ----

  /** The payload is about a visibility of one platform that had a scope, and stays with its broker; its labels
      change as the payload says. */
  ghost predicate IsUpdateOf(cfg: Config, p: Payload, v: SMVisibility, v': SMVisibility, plans: map<string, BrokerPlan>,
                             names: set<string>)
  {
    && Describes(cfg, p.before, v, plans, names) && Describes(cfg, p.after, v', plans, names) && LabelsFollow(p)
    && PlatformBroker(cfg, p.before) == PlatformBroker(cfg, p.after)
    && v'.platformID != "" && !ShouldBePublic(cfg, v)
  }

  lemma ScopeRightsFollow(cfg: Config, p: Payload, add: Labels, remove: Labels, name: string, planID: string)
    requires LabelsFollow(p) && Collects(p.labelChanges, true, add) && Collects(p.labelChanges, false, remove)
    ensures ScopeRights(cfg, name, planID, p.after.resource.value.labels)
         == ScopeRights(cfg, name, planID, p.before.resource.value.labels) - ScopeRights(cfg, name, planID, remove)
            + ScopeRights(cfg, name, planID, add)
    ensures ScopeRights(cfg, name, planID, add) !! ScopeRights(cfg, name, planID, remove)
  {
    forall a ensures a in Pairs(add) <==> Carries(p.labelChanges, true, a) {
      PairsAreCarried(p.labelChanges, true, add, a);
    }
    forall a ensures a in Pairs(remove) <==> Carries(p.labelChanges, false, a) {
      PairsAreCarried(p.labelChanges, false, remove, a);
    }
  }

  /** What the platform shows after the update, from what it showed before. */
  function ShownAfter(cfg: Config, shown: set<Grant>, name: string, p: Payload, add: Labels, remove: Labels): set<Grant>
    requires WellFormed(p)
  {
    var planID := p.after.catalogPlanID;
    (if !Moves(p) then shown
     else shown - Shown(cfg, name, p.before.catalogPlanID, p.before.resource.value.labels)
          + Shown(cfg, name, planID, p.after.resource.value.labels))
    + ScopeRights(cfg, name, planID, add) - ScopeRights(cfg, name, planID, remove)
  }

  lemma ListedAfterMove(cfg: Config, grants: set<Grant>, names: set<string>, name: string, p: Payload)
    requires WellFormed(p) && name in names && Moves(p)
    ensures Listed(cfg, Moved(grants, name, p), names)
         == Listed(cfg, grants, names) - Shown(cfg, name, p.before.catalogPlanID, p.before.resource.value.labels)
            + Shown(cfg, name, p.after.catalogPlanID, p.after.resource.value.labels)
  {
    var less := GrantsFor(name, p.before.catalogPlanID, p.before.resource.value.labels);
    var more := GrantsFor(name, p.after.catalogPlanID, p.after.resource.value.labels);
    ListedAfter(cfg, grants, {}, less, names);
    ListedAfter(cfg, grants - less, more, {}, names);
    ShownIsListed(cfg, name, p.before.catalogPlanID, p.before.resource.value.labels, names);
    ShownIsListed(cfg, name, p.after.catalogPlanID, p.after.resource.value.labels, names);
  }

  /** The access that is requested for labels, if there are any. */
  function RequestedIfAny(name: string, planID: string, labels: Labels): set<Grant> {
    if labels == map[] then {} else GrantsFor(name, planID, labels)
  }

  lemma RequestedIsListed(cfg: Config, name: string, planID: string, labels: Labels, names: set<string>)
    requires name in names
    ensures Listed(cfg, RequestedIfAny(name, planID, labels), names) == ScopeRights(cfg, name, planID, labels)
  {
    if labels != map[] {
      ShownIsListed(cfg, name, planID, labels, names);
    }
  }

  lemma ListedAfterUpdate(cfg: Config, grants: set<Grant>, names: set<string>, name: string, p: Payload, add: Labels,
                          remove: Labels)
    requires WellFormed(p) && name in names && p.after.resource.value.platformID != ""
    ensures Listed(cfg, Updated(grants, name, p, add, remove), names)
         == ShownAfter(cfg, Listed(cfg, grants, names), name, p, add, remove)
  {
    var moved, planID := Moved(grants, name, p), p.after.catalogPlanID;
    var more, less := RequestedIfAny(name, planID, add), RequestedIfAny(name, planID, remove);
    if Moves(p) {
      ListedAfterMove(cfg, grants, names, name, p);
    }
    ListedAfter(cfg, moved, more, {}, names);
    ListedAfter(cfg, moved + more, {}, less, names);
    RequestedIsListed(cfg, name, planID, add, names);
    RequestedIsListed(cfg, name, planID, remove, names);
  }

  /** What the handler disables, as far as the platform shows it. */
  function Withdrawn(cfg: Config, name: string, p: Payload, remove: Labels): set<Grant>
    requires WellFormed(p)
  {
    ScopeRights(cfg, name, p.after.catalogPlanID, remove)
    + if Moves(p) then ScopeRights(cfg, name, p.before.catalogPlanID, p.before.resource.value.labels) else {}
  }

  /** A visibility of one platform changes in SM's list, and the handler updates the access. The platform shows what
      SM grants if and only if no other visibility grants what was disabled, and if no scope is left, so that a
      resync opens the plan to everyone, another visibility does that too or the update moves the visibility and no
      label at all is left. */
  lemma UpdateKeepsTracking(cfg: Config, grants: set<Grant>, names: set<string>, a: seq<SMVisibility>, v: SMVisibility,
                            v': SMVisibility, b: seq<SMVisibility>, plans: map<string, BrokerPlan>, p: Payload,
                            add: Labels, remove: Labels)
    requires Tracks(cfg, grants, names, a + [v] + b, plans) && IsUpdateOf(cfg, p, v, v', plans, names)
    requires Collects(p.labelChanges, true, add) && Collects(p.labelChanges, false, remove)
    ensures var name, rest := PlatformBroker(cfg, p.before), DesiredAll(cfg, a + b, plans);
            (Tracks(cfg, Updated(grants, name, p, add, remove), names, a + [v'] + b, plans)
             <==> Withdrawn(cfg, name, p, remove) !! rest
                  && (ShouldBePublic(cfg, v') ==>
                        Grant(name, p.after.catalogPlanID, Everyone) in rest || (Moves(p) && v'.labels == map[])))
  {
    var name, rest := PlatformBroker(cfg, p.before), DesiredAll(cfg, a + b, plans);
    DesiredWithOne(cfg, a, v, b, plans);
    DesiredWithOne(cfg, a, v', b, plans);
    DesiredRights(cfg, v, plans[v.planID]);
    DesiredRights(cfg, v', plans[v'.planID]);
    ListedAfterUpdate(cfg, grants, names, name, p, add, remove);
    NoScopeNoRights(cfg, v', name, p.after.catalogPlanID);
    ShownMatches(cfg, rest, name, p, add, remove, ShouldBePublic(cfg, v'));
  }

  lemma NoScopeNoRights(cfg: Config, v: SMVisibility, name: string, planID: string)
    ensures v.platformID != "" && ShouldBePublic(cfg, v) ==> ScopeRights(cfg, name, planID, v.labels) == {}
  {
  }

  /** The same about the sets alone. `open` tells that a resync opens the plan to everyone. */
  lemma ShownMatches(cfg: Config, rest: set<Grant>, name: string, p: Payload, add: Labels, remove: Labels, open: bool)
    requires LabelsFollow(p) && Collects(p.labelChanges, true, add) && Collects(p.labelChanges, false, remove)
    requires p.before.resource.value.labels != map[] && (p.after.resource.value.labels == map[] ==> open)
    requires open ==> ScopeRights(cfg, name, p.after.catalogPlanID, p.after.resource.value.labels) == {}
    ensures var was := ScopeRights(cfg, name, p.before.catalogPlanID, p.before.resource.value.labels);
            var wanted := if open then ForEveryone(name, p.after.catalogPlanID)
                          else ScopeRights(cfg, name, p.after.catalogPlanID, p.after.resource.value.labels);
            (ShownAfter(cfg, rest + was, name, p, add, remove) == rest + wanted
             <==> Withdrawn(cfg, name, p, remove) !! rest
                  && (open ==> Grant(name, p.after.catalogPlanID, Everyone) in rest
                               || (Moves(p) && p.after.resource.value.labels == map[])))
  {
    var before, after := p.before.catalogPlanID, p.after.catalogPlanID;
    var oldLabels, newLabels := p.before.resource.value.labels, p.after.resource.value.labels;
    ScopeRightsFollow(cfg, p, add, remove, name, after);
    var was, now := ScopeRights(cfg, name, before, oldLabels), ScopeRights(cfg, name, after, newLabels);
    var plus, minus := ScopeRights(cfg, name, after, add), ScopeRights(cfg, name, after, remove);
    if Moves(p) {
      MovedMatches(rest, was, now, plus, minus, Grant(name, after, Everyone), newLabels == map[], open);
    } else {
      StayedMatches(rest, was, now, plus, minus, Grant(name, after, Everyone), open);
    }
  }

  lemma StayedMatches(rest: set<Grant>, was: set<Grant>, now: set<Grant>, plus: set<Grant>, minus: set<Grant>,
                      everyone: Grant, open: bool)
    requires now == was - minus + plus && plus !! minus && everyone !in was + plus + minus && (open ==> now == {})
    ensures rest + was + plus - minus == rest + (if open then {everyone} else now)
       <==> minus !! rest && (open ==> everyone in rest)
  {
    var result, wanted := rest + was + plus - minus, rest + if open then {everyone} else now;
    assert everyone in result <==> everyone in rest;
    if result == wanted {
      forall x | x in minus ensures x !in rest {
        assert x !in result;
      }
    }
  }

  lemma MovedMatches(rest: set<Grant>, was: set<Grant>, now: set<Grant>, plus: set<Grant>, minus: set<Grant>,
                     everyone: Grant, bare: bool, open: bool)
    requires plus <= now && now !! minus && was !! now && everyone !in was + now + minus
    requires (bare ==> open) && (open ==> now == {})
    ensures rest + was - was + (if bare then {everyone} else now) + plus - minus
            == rest + (if open then {everyone} else now)
       <==> minus + was !! rest && (open ==> everyone in rest || bare)
  {
    var result := rest + was - was + (if bare then {everyone} else now) + plus - minus;
    var wanted := rest + if open then {everyone} else now;
    assert everyone in result <==> everyone in rest || bare;
    if result == wanted {
      forall x | x in minus + was ensures x !in rest {
        assert x !in result;
      }
    }
  }

  // ---- Any modification ----

  /** What a listing shows of a request that the handler makes only if the labels and the platform id fit. */
  function ShownIfConcerned(cfg: Config, name: string, p: Payload, labels: Labels): set<Grant>
    requires WellFormed(p)
  {
    if Concerns(labels, p.after.resource.value.platformID) then Shown(cfg, name, p.after.catalogPlanID, labels) else {}
  }

  /** All that the handler disables, as far as the platform shows it. */
  function Disabled(cfg: Config, name: string, p: Payload, remove: Labels): set<Grant>
    requires WellFormed(p)
  {
    ShownIfConcerned(cfg, name, p, remove)
    + if Moves(p) then Shown(cfg, name, p.before.catalogPlanID, p.before.resource.value.labels) else {}
  }

  /** What the platform shows after the handler's calls, from what it showed before. */
  function ShownAfterCalls(cfg: Config, shown: set<Grant>, name: string, p: Payload, add: Labels,
                           remove: Labels): set<Grant>
    requires WellFormed(p)
  {
    (if !Moves(p) then shown
     else shown - Shown(cfg, name, p.before.catalogPlanID, p.before.resource.value.labels)
          + Shown(cfg, name, p.after.catalogPlanID, p.after.resource.value.labels))
    + ShownIfConcerned(cfg, name, p, add) - ShownIfConcerned(cfg, name, p, remove)
  }

  lemma ConcernedIsListed(cfg: Config, name: string, p: Payload, labels: Labels, names: set<string>)
    requires WellFormed(p) && name in names
    ensures var after := p.after;
            ShownIfConcerned(cfg, name, p, labels)
            == Listed(cfg, if Concerns(labels, after.resource.value.platformID)
                           then GrantsFor(name, after.catalogPlanID, labels) else {}, names)
  {
    ShownIsListed(cfg, name, p.after.catalogPlanID, labels, names);
  }

  lemma ListedAfterCalls(cfg: Config, grants: set<Grant>, names: set<string>, name: string, p: Payload, add: Labels,
                         remove: Labels)
    requires WellFormed(p) && name in names
    ensures Listed(cfg, Updated(grants, name, p, add, remove), names)
         == ShownAfterCalls(cfg, Listed(cfg, grants, names), name, p, add, remove)
  {
    var moved, planID, platformID := Moved(grants, name, p), p.after.catalogPlanID, p.after.resource.value.platformID;
    var more := if Concerns(add, platformID) then GrantsFor(name, planID, add) else {};
    var less := if Concerns(remove, platformID) then GrantsFor(name, planID, remove) else {};
    if Moves(p) {
      ListedAfterMove(cfg, grants, names, name, p);
    }
    ListedAfter(cfg, moved, more, {}, names);
    ListedAfter(cfg, moved + more, {}, less, names);
    ConcernedIsListed(cfg, name, p, add, names);
    ConcernedIsListed(cfg, name, p, remove, names);
  }

  /** Any update that leaves the visibility with its broker, public or of one platform, with scopes before and after or
      without: the platform shows what SM grants afterwards if and only if no other visibility grants what the handler
      disables, and other visibilities grant all that handler and resync disagree on for this one alone. */
  lemma AnyUpdateKeepsTracking(cfg: Config, grants: set<Grant>, names: set<string>, a: seq<SMVisibility>,
                               v: SMVisibility, v': SMVisibility, b: seq<SMVisibility>, plans: map<string, BrokerPlan>,
                               p: Payload, add: Labels, remove: Labels)
    requires Tracks(cfg, grants, names, a + [v] + b, plans)
    requires Describes(cfg, p.before, v, plans, names) && Describes(cfg, p.after, v', plans, names)
    requires PlatformBroker(cfg, p.before) == PlatformBroker(cfg, p.after)
    ensures var name, rest := PlatformBroker(cfg, p.before), DesiredAll(cfg, a + b, plans);
            var alone := ShownAfterCalls(cfg, Desired(cfg, v, plans[v.planID]), name, p, add, remove);
            var wanted := Desired(cfg, v', plans[v'.planID]);
            (Tracks(cfg, Updated(grants, name, p, add, remove), names, a + [v'] + b, plans)
             <==> Disabled(cfg, name, p, remove) !! rest && (wanted - alone) + (alone - wanted) <= rest)
  {
    var name, rest := PlatformBroker(cfg, p.before), DesiredAll(cfg, a + b, plans);
    DesiredWithOne(cfg, a, v, b, plans);
    DesiredWithOne(cfg, a, v', b, plans);
    ListedAfterCalls(cfg, grants, names, name, p, add, remove);
    CallsOnUnion(cfg, rest, Desired(cfg, v, plans[v.planID]), Desired(cfg, v', plans[v'.planID]), name, p, add, remove);
  }

  lemma CallsOnUnion(cfg: Config, rest: set<Grant>, own: set<Grant>, wanted: set<Grant>, name: string, p: Payload,
                     add: Labels, remove: Labels)
    requires WellFormed(p)
    ensures var alone := ShownAfterCalls(cfg, own, name, p, add, remove);
            (ShownAfterCalls(cfg, rest + own, name, p, add, remove) == rest + wanted
             <==> Disabled(cfg, name, p, remove) !! rest && (wanted - alone) + (alone - wanted) <= rest)
  {
    var was := Shown(cfg, name, p.before.catalogPlanID, p.before.resource.value.labels);
    var now := Shown(cfg, name, p.after.catalogPlanID, p.after.resource.value.labels);
    var plus, minus := ShownIfConcerned(cfg, name, p, add), ShownIfConcerned(cfg, name, p, remove);
    if Moves(p) {
      OtherPlanApart(cfg, name, p.before.catalogPlanID, p.after.catalogPlanID, p.before.resource.value.labels,
                     p.after.resource.value.labels);
      OtherPlanApart(cfg, name, p.before.catalogPlanID, p.after.catalogPlanID, p.before.resource.value.labels, add);
      MovedUnion(rest, own, wanted, was, now, plus, minus);
    } else {
      ChangedUnion(rest, own, wanted, {}, plus, minus);
    }
  }

  lemma OtherPlanApart(cfg: Config, name: string, planID: string, planID': string, labels: Labels, labels': Labels)
    requires planID != planID'
    ensures Shown(cfg, name, planID, labels) !! Shown(cfg, name, planID', labels')
  {
  }

  lemma MovedUnion(rest: set<Grant>, own: set<Grant>, wanted: set<Grant>, was: set<Grant>, now: set<Grant>,
                   plus: set<Grant>, minus: set<Grant>)
    requires was !! now && was !! plus
    ensures var alone := own - was + now + plus - minus;
            (rest + own - was + now + plus - minus == rest + wanted
             <==> minus + was !! rest && (wanted - alone) + (alone - wanted) <= rest)
  {
    ChangedUnion(rest, own, wanted, was, now + plus, minus);
    assert rest + own - was + now + plus - minus == rest + own - was + (now + plus) - minus;
    assert own - was + now + plus - minus == own - was + (now + plus) - minus;
  }

  lemma ChangedUnion(rest: set<Grant>, own: set<Grant>, wanted: set<Grant>, less: set<Grant>, more: set<Grant>,
                     minus: set<Grant>)
    requires less !! more
    ensures var alone := own - less + more - minus;
            (rest + own - less + more - minus == rest + wanted
             <==> minus + less !! rest && (wanted - alone) + (alone - wanted) <= rest)
  {
    var result, alone := rest + own - less + more - minus, own - less + more - minus;
    assert result == (rest - less - minus) + alone;
    if result == rest + wanted {
      forall x | x in minus + less ensures x !in rest {
        assert x in rest ==> x in result;
      }
      forall x | x in (wanted - alone) + (alone - wanted) ensures x in rest {
        assert x in result <==> x in rest + wanted;
      }
    }
  }

  /** So an update of a public visibility that names no labels to remove never leaves the platform as SM wants it,
      whatever else SM holds. */
  lemma PublicUpdateLosesTrack(cfg: Config, grants: set<Grant>, names: set<string>, a: seq<SMVisibility>,
                               v: SMVisibility, v': SMVisibility, b: seq<SMVisibility>, plans: map<string, BrokerPlan>,
                               p: Payload, add: Labels)
    requires Tracks(cfg, grants, names, a + [v] + b, plans)
    requires Describes(cfg, p.before, v, plans, names) && Describes(cfg, p.after, v', plans, names)
    requires PlatformBroker(cfg, p.before) == PlatformBroker(cfg, p.after) && v'.platformID == ""
    ensures !Tracks(cfg, Updated(grants, PlatformBroker(cfg, p.before), p, add, map[]), names, a + [v'] + b, plans)
  {
    var name := PlatformBroker(cfg, p.before);
    AnyUpdateKeepsTracking(cfg, grants, names, a, v, v', b, plans, p, add, map[]);
    DesiredRights(cfg, v', plans[v'.planID]);
    assert Grant(name, p.after.catalogPlanID, Everyone) in Disabled(cfg, name, p, map[]);
  }
}
