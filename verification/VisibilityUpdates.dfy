/** What the visibility handlers achieve: an update against the label changes it announces, and each handler against
    what a full resync would want. */
module VisibilityUpdates {
  import opened Types
  import opened Naming
  import opened World
  import opened LabelChanges
  import opened Visibilities
  import opened VisibilityHandler

  /** Who sees the catalog plan of this registered broker. */
  function Visible(grants: set<Grant>, name: string, planID: string): set<Audience> {
    set x | x in grants && x.brokerName == name && x.planID == planID :: x.audience
  }

  lemma VisibleIff(grants: set<Grant>, name: string, planID: string, a: Audience)
    ensures a in Visible(grants, name, planID) <==> Grant(name, planID, a) in grants
  {
  }

  lemma VisibleAfterEnable(grants: set<Grant>, name: string, planID: string, labels: Labels, planID': string)
    ensures Visible(grants + GrantsFor(name, planID, labels), name, planID')
         == Visible(grants, name, planID') + if planID' == planID then Audiences(labels) else {}
  {
    var after := grants + GrantsFor(name, planID, labels);
    forall a ensures a in Visible(after, name, planID') <==>
                     a in Visible(grants, name, planID') || (planID' == planID && a in Audiences(labels))
    {
      VisibleIff(after, name, planID', a);
      VisibleIff(grants, name, planID', a);
    }
  }

  lemma VisibleAfterDisable(grants: set<Grant>, name: string, planID: string, labels: Labels, planID': string)
    ensures Visible(grants - GrantsFor(name, planID, labels), name, planID')
         == Visible(grants, name, planID') - if planID' == planID then Audiences(labels) else {}
  {
  }

  predicate WellFormed(p: Payload) {
    p.before.resource.Some? && p.after.resource.Some?
  }

  lemma VisibleAfterMove(grants: set<Grant>, name: string, p: Payload, planID: string)
    requires WellFormed(p)
    ensures Visible(Moved(grants, name, p), name, planID)
         == if !Moves(p) then Visible(grants, name, planID)
            else Visible(grants, name, planID)
                 - (if planID == p.before.catalogPlanID then Audiences(p.before.resource.value.labels) else {})
                 + (if planID == p.after.catalogPlanID then Audiences(p.after.resource.value.labels) else {})
  {
    if Moves(p) {
      var left := grants - GrantsFor(name, p.before.catalogPlanID, p.before.resource.value.labels);
      VisibleAfterDisable(grants, name, p.before.catalogPlanID, p.before.resource.value.labels, planID);
      VisibleAfterEnable(left, name, p.after.catalogPlanID, p.after.resource.value.labels, planID);
    }
  }

  /** A visibility of one platform: after the move the pairs to add come and the pairs to remove go, on the new plan
      only. */
  lemma VisibleAfterUpdate(grants: set<Grant>, name: string, p: Payload, add: Labels, remove: Labels, planID: string)
    requires WellFormed(p) && p.after.resource.value.platformID != ""
    ensures Visible(Updated(grants, name, p, add, remove), name, planID)
         == if planID == p.after.catalogPlanID
            then Visible(Moved(grants, name, p), name, planID) + Pairs(add) - Pairs(remove)
            else Visible(Moved(grants, name, p), name, planID)
  {
    var moved := Moved(grants, name, p);
    var added := moved + if add != map[] then GrantsFor(name, p.after.catalogPlanID, add) else {};
    if add != map[] {
      VisibleAfterEnable(moved, name, p.after.catalogPlanID, add, planID);
    }
    if remove != map[] {
      VisibleAfterDisable(added, name, p.after.catalogPlanID, remove, planID);
    }
  }

  /** The grant is about another broker, or about a plan that the update does not mention. */
  predicate Elsewhere(name: string, p: Payload, x: Grant) {
    x.brokerName != name || (x.planID != p.before.catalogPlanID && x.planID != p.after.catalogPlanID)
  }

  lemma OthersUntouched(grants: set<Grant>, name: string, p: Payload, add: Labels, remove: Labels, x: Grant)
    requires WellFormed(p) && Elsewhere(name, p, x)
    ensures x in Updated(grants, name, p, add, remove) <==> x in grants
  {
  }

  /** SM's own bookkeeping: the labels of the visibility change by what the notification carries, and no pair is
      both added and removed. */
  ghost predicate LabelsFollow(p: Payload) {
    && WellFormed(p)
    && (forall a :: a in Pairs(p.after.resource.value.labels) <==>
          Carries(p.labelChanges, true, a)
          || (a in Pairs(p.before.resource.value.labels) && !Carries(p.labelChanges, false, a)))
    && (forall a :: Carries(p.labelChanges, true, a) ==> !Carries(p.labelChanges, false, a))
  }

  /** The old visibility is on the platform, and if the update moves it, nothing is on the new plan yet. */
  ghost predicate InPlace(grants: set<Grant>, name: string, p: Payload)
    requires WellFormed(p)
  {
    && Visible(grants, name, p.before.catalogPlanID) == Pairs(p.before.resource.value.labels)
    && (Moves(p) ==> Visible(grants, name, p.after.catalogPlanID) == {})
  }

  /** For a visibility of one platform, the holders that see the new plan after the update are exactly the new label
      pairs, unless it is moved with no labels left, which opens the new plan to everyone. None of the old pairs is
      left on an old plan, and nothing else changes. */
  lemma ScopedUpdateAppliesChanges(grants: set<Grant>, name: string, p: Payload, add: Labels, remove: Labels)
    requires LabelsFollow(p) && InPlace(grants, name, p) && p.after.resource.value.platformID != ""
    requires Collects(p.labelChanges, true, add) && Collects(p.labelChanges, false, remove)
    ensures var after := Updated(grants, name, p, add, remove);
            && (Visible(after, name, p.after.catalogPlanID) == Pairs(p.after.resource.value.labels)
                <==> (Moves(p) ==> p.after.resource.value.labels != map[]))
            && (Moves(p) ==> Visible(after, name, p.before.catalogPlanID) == {})
            && forall x :: Elsewhere(name, p, x) ==> (x in after <==> x in grants)
  {
    var was, now := p.before.resource.value.labels, p.after.resource.value.labels;
    var after := Updated(grants, name, p, add, remove);
    VisibleAfterUpdate(grants, name, p, add, remove, p.before.catalogPlanID);
    VisibleAfterUpdate(grants, name, p, add, remove, p.after.catalogPlanID);
    VisibleAfterMove(grants, name, p, p.before.catalogPlanID);
    VisibleAfterMove(grants, name, p, p.after.catalogPlanID);
    forall a ensures a in Pairs(now) <==> a in Pairs(add) || (a in Pairs(was) && a !in Pairs(remove)) {
      PairsAreCarried(p.labelChanges, true, add, a);
      PairsAreCarried(p.labelChanges, false, remove, a);
    }
    forall a | a in Pairs(add) ensures a !in Pairs(remove) {
      PairsAreCarried(p.labelChanges, true, add, a);
      PairsAreCarried(p.labelChanges, false, remove, a);
    }
    if Moves(p) && now == map[] {
      assert Everyone in Audiences(now) && Everyone !in Pairs(now) && Everyone !in Pairs(remove);
    }
    forall x | Elsewhere(name, p, x) ensures x in after <==> x in grants {
      OthersUntouched(grants, name, p, add, remove, x);
    }
  }

  /** An update within one plan lets go exactly of the pairs that the changes name for removal. So a label that is
      removed without its values stays as it is, whatever SM makes of that. */
  lemma OnlyNamedPairsGo(grants: set<Grant>, name: string, p: Payload, add: Labels, remove: Labels, a: Audience)
    requires WellFormed(p) && p.after.resource.value.platformID != "" && !Moves(p)
    requires Collects(p.labelChanges, true, add) && Collects(p.labelChanges, false, remove)
    ensures a in Visible(Updated(grants, name, p, add, remove), name, p.after.catalogPlanID)
       <==> (a in Visible(grants, name, p.after.catalogPlanID) || Carries(p.labelChanges, true, a))
            && !Carries(p.labelChanges, false, a)
  {
    VisibleAfterUpdate(grants, name, p, add, remove, p.after.catalogPlanID);
    PairsAreCarried(p.labelChanges, true, add, a);
    PairsAreCarried(p.labelChanges, false, remove, a);
  }

  /** A public visibility: enabling for everyone is followed by disabling for everyone unless the changes carry
      labels to remove. So an update that changes no labels always revokes the access. */
  lemma PublicUpdateRevokes(grants: set<Grant>, name: string, p: Payload, add: Labels, remove: Labels)
    requires WellFormed(p) && p.after.resource.value.platformID == ""
    ensures Grant(name, p.after.catalogPlanID, Everyone) in Updated(grants, name, p, add, remove)
       <==> remove != map[] && (add == map[] || Grant(name, p.after.catalogPlanID, Everyone) in Moved(grants, name, p))
  {
  }

  // ---- Against a full resync ----

  /** All the labels are scopes, and there is one. */
  ghost predicate OnlyScopes(cfg: Config, v: SMVisibility) {
    && !ShouldBePublic(cfg, v)
    && forall k :: k in v.labels && k != cfg.scopeKey ==> v.labels[k] == []
  }

  lemma ScopesArePairs(cfg: Config, v: SMVisibility)
    requires OnlyScopes(cfg, v)
    ensures Pairs(v.labels) == set s | s in v.labels[cfg.scopeKey] :: Holder(cfg.scopeKey, s)
  {
  }

  function OnPlan(name: string, planID: string, audiences: set<Audience>): set<Grant> {
    set a | a in audiences :: Grant(name, planID, a)
  }

  lemma OnPlanIff(name: string, planID: string, audiences: set<Audience>, a: Audience)
    ensures Grant(name, planID, a) in OnPlan(name, planID, audiences) <==> a in audiences
  {
  }

  /** The label pairs of a visibility are what a resync grants for it exactly when all its labels are scopes and
      there is one. In particular, when the last scope of a visibility is removed the handler leaves the plan to
      nobody and a resync opens it to everyone. */
  lemma PairsAreDesiredIffOnlyScopes(cfg: Config, v: SMVisibility, plan: BrokerPlan)
    ensures OnPlan(ProxyNameOf(cfg, plan.broker), plan.plan.catalogID, Pairs(v.labels)) == Desired(cfg, v, plan)
       <==> OnlyScopes(cfg, v)
  {
    var name, planID := ProxyNameOf(cfg, plan.broker), plan.plan.catalogID;
    if OnlyScopes(cfg, v) {
      ScopesArePairs(cfg, v);
    } else if ShouldBePublic(cfg, v) {
      OnPlanIff(name, planID, Pairs(v.labels), Everyone);
      assert Grant(name, planID, Everyone) in Desired(cfg, v, plan);
    } else {
      var k :| k in v.labels && k != cfg.scopeKey && v.labels[k] != [];
      var a := Holder(k, v.labels[k][0]);
      assert a in Pairs(v.labels);
      OnPlanIff(name, planID, Pairs(v.labels), a);
      assert Grant(name, planID, a) !in Desired(cfg, v, plan);
    }
  }

  /** A created visibility is enabled for exactly those for whom a resync would enable it, if and only if it has no
      labels or all its labels are scopes and there is one. */
  lemma CreationAgreesWithResync(cfg: Config, v: SMVisibility, plan: BrokerPlan)
    ensures GrantsFor(ProxyNameOf(cfg, plan.broker), plan.plan.catalogID, v.labels) == Desired(cfg, v, plan)
       <==> v.labels == map[] || OnlyScopes(cfg, v)
  {
    var name, planID := ProxyNameOf(cfg, plan.broker), plan.plan.catalogID;
    assert GrantsFor(name, planID, v.labels) == OnPlan(name, planID, Audiences(v.labels));
    if v.labels != map[] {
      PairsAreDesiredIffOnlyScopes(cfg, v, plan);
    }
  }
}
