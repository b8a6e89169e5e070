/** The visibility half of a resync: what SM wants visible is compared with what the platform reports, through string
    keys, and the difference is disabled and enabled on the platform. */
module Visibilities {
  import opened Types
  import opened Naming
  import opened World

  // ---- What SM wants ----

  predicate ShouldBePublic(cfg: Config, v: SMVisibility) {
    v.platformID == "" || cfg.scopeKey !in v.labels || v.labels[cfg.scopeKey] == []
  }

  function PublicVisibility(cfg: Config, plan: BrokerPlan): Visibility {
    Visibility(true, plan.plan.catalogID, ProxyNameOf(cfg, plan.broker), map[])
  }

  function ScopedVisibility(cfg: Config, plan: BrokerPlan, scope: string): Visibility {
    Visibility(false, plan.plan.catalogID, ProxyNameOf(cfg, plan.broker), map[cfg.scopeKey := scope])
  }

  function Converted(cfg: Config, v: SMVisibility, plan: BrokerPlan): (r: seq<Visibility>)
    ensures forall i :: 0 <= i < |r| ==> Canonical(cfg, r[i]) && r[i].brokerName == ProxyNameOf(cfg, plan.broker)
  {
    if ShouldBePublic(cfg, v) then [PublicVisibility(cfg, plan)]
    else
      var scopes := v.labels[cfg.scopeKey];
      seq(|scopes|, i requires 0 <= i < |scopes| => ScopedVisibility(cfg, plan, scopes[i]))
  }

  method ConvertSMVisibility(cfg: Config, v: SMVisibility, plan: BrokerPlan) returns (result: seq<Visibility>)
    ensures result == Converted(cfg, v, plan)
  {
    if ShouldBePublic(cfg, v) {
      return [PublicVisibility(cfg, plan)];
    }
    var scopes := v.labels[cfg.scopeKey];
    result := [];
    for i := 0 to |scopes|
      invariant result == Converted(cfg, v, plan)[..i]
    {
      result := result + [ScopedVisibility(cfg, plan, scopes[i])];
    }
  }

  /** The visibilities of the given plans, in the platform's terms and in the order in which SM lists them. */
  function ConvertedAll(cfg: Config, visibilities: seq<SMVisibility>, plans: map<string, BrokerPlan>): seq<Visibility> {
    if visibilities == [] then []
    else
      var v := visibilities[|visibilities| - 1];
      ConvertedAll(cfg, visibilities[..|visibilities| - 1], plans)
      + if v.planID in plans then Converted(cfg, v, plans[v.planID]) else []
  }

  /** The grants that one SM visibility stands for. */
  function Desired(cfg: Config, v: SMVisibility, plan: BrokerPlan): set<Grant> {
    var name := ProxyNameOf(cfg, plan.broker);
    if ShouldBePublic(cfg, v) then {Grant(name, plan.plan.catalogID, Everyone)}
    else set s | s in v.labels[cfg.scopeKey] :: Grant(name, plan.plan.catalogID, Holder(cfg.scopeKey, s))
  }

  function DesiredAll(cfg: Config, visibilities: seq<SMVisibility>, plans: map<string, BrokerPlan>): set<Grant> {
    set i, x | 0 <= i < |visibilities| && visibilities[i].planID in plans
               && x in Desired(cfg, visibilities[i], plans[visibilities[i].planID]) :: x
  }

  lemma ConvertedMeansDesired(cfg: Config, v: SMVisibility, plan: BrokerPlan)
    ensures GrantsOf(cfg, Converted(cfg, v, plan)) == Desired(cfg, v, plan)
  {
    var r, d := Converted(cfg, v, plan), Desired(cfg, v, plan);
    if ShouldBePublic(cfg, v) {
      assert GrantOf(cfg, r[0]) in GrantsOf(cfg, r);
    } else {
      var scopes := v.labels[cfg.scopeKey];
      assert forall i :: 0 <= i < |r| ==> scopes[i] in scopes && GrantOf(cfg, r[i]).audience.value == scopes[i];
      forall x | x in d ensures x in GrantsOf(cfg, r) {
        var i :| 0 <= i < |scopes| && scopes[i] == x.audience.value;
        assert GrantOf(cfg, r[i]) == x;
      }
    }
  }

  lemma {:induction false} ConvertedAllMeansDesiredAll(cfg: Config, visibilities: seq<SMVisibility>,
      plans: map<string, BrokerPlan>)
    ensures GrantsOf(cfg, ConvertedAll(cfg, visibilities, plans)) == DesiredAll(cfg, visibilities, plans)
    ensures forall v :: v in ConvertedAll(cfg, visibilities, plans) ==> Canonical(cfg, v)
    decreases |visibilities|
  {
    if visibilities != [] {
      var k := |visibilities| - 1;
      var v := visibilities[k];
      var init := visibilities[..k];
      ConvertedAllMeansDesiredAll(cfg, init, plans);
      DesiredAllAppend(cfg, init, v, plans);
      assert visibilities == init + [v];
      if v.planID in plans {
        ConvertedMeansDesired(cfg, v, plans[v.planID]);
        GrantsOfConcat(cfg, ConvertedAll(cfg, init, plans), Converted(cfg, v, plans[v.planID]));
      } else {
        assert ConvertedAll(cfg, visibilities, plans) == ConvertedAll(cfg, init, plans);
      }
    }
  }

  lemma DesiredAllAppend(cfg: Config, init: seq<SMVisibility>, v: SMVisibility, plans: map<string, BrokerPlan>)
    ensures DesiredAll(cfg, init + [v], plans)
         == DesiredAll(cfg, init, plans) + if v.planID in plans then Desired(cfg, v, plans[v.planID]) else {}
  {
    var all := init + [v];
    assert all[|init|] == v;
    assert forall i :: 0 <= i < |init| ==> all[i] == init[i];
  }

  lemma GrantsOfConcat(cfg: Config, a: seq<Visibility>, b: seq<Visibility>)
    ensures GrantsOf(cfg, a + b) == GrantsOf(cfg, a) + GrantsOf(cfg, b)
  {
    var c := a + b;
    assert forall i :: 0 <= i < |a| ==> c[i] == a[i];
    forall x | x in GrantsOf(cfg, b) ensures x in GrantsOf(cfg, c) {
      var i :| 0 <= i < |b| && GrantOf(cfg, b[i]) == x;
      assert c[|a| + i] == b[i];
    }
  }

  /** Asking SM for the visibilities of these plans only, instead of for all, changes nothing. */
  lemma {:induction false} QueryIsOnlyAFilter(cfg: Config, visibilities: seq<SMVisibility>,
      plans: map<string, BrokerPlan>)
    ensures ConvertedAll(cfg, PlansWanted(visibilities, Some(plans.Keys)), plans)
            == ConvertedAll(cfg, visibilities, plans)
    ensures PlansWanted(visibilities, None) == visibilities
    decreases |visibilities|
  {
    if visibilities != [] {
      var k := |visibilities| - 1;
      QueryIsOnlyAFilter(cfg, visibilities[..k], plans);
      QueryOneMore(cfg, visibilities[..k], visibilities[k], plans);
      PlansWantedAppend(visibilities[..k], visibilities[k], None);
      assert visibilities == visibilities[..k] + [visibilities[k]];
    }
  }

  lemma QueryOneMore(cfg: Config, init: seq<SMVisibility>, v: SMVisibility, plans: map<string, BrokerPlan>)
    requires ConvertedAll(cfg, PlansWanted(init, Some(plans.Keys)), plans) == ConvertedAll(cfg, init, plans)
    ensures ConvertedAll(cfg, PlansWanted(init + [v], Some(plans.Keys)), plans) == ConvertedAll(cfg, init + [v], plans)
  {
    PlansWantedAppend(init, v, Some(plans.Keys));
    ConvertedAllAppend(cfg, init, v, plans);
    ConvertedAllAppend(cfg, PlansWanted(init, Some(plans.Keys)), v, plans);
  }

  lemma PlansWantedAppend(init: seq<SMVisibility>, v: SMVisibility, planIDs: Option<set<string>>)
    ensures PlansWanted(init + [v], planIDs)
         == PlansWanted(init, planIDs) + if planIDs == None || v.planID in planIDs.value then [v] else []
  {
    assert (init + [v])[..|init + [v]| - 1] == init;
  }

  lemma ConvertedAllAppend(cfg: Config, init: seq<SMVisibility>, v: SMVisibility, plans: map<string, BrokerPlan>)
    ensures ConvertedAll(cfg, init + [v], plans)
         == ConvertedAll(cfg, init, plans) + if v.planID in plans then Converted(cfg, v, plans[v.planID]) else []
  {
    assert (init + [v])[..|init + [v]| - 1] == init;
  }

  method ConvertAll(cfg: Config, visibilities: seq<SMVisibility>, plans: map<string, BrokerPlan>)
    returns (result: seq<Visibility>)
    ensures result == ConvertedAll(cfg, visibilities, plans)
  {
    result := [];
    for i := 0 to |visibilities|
      invariant result == ConvertedAll(cfg, visibilities[..i], plans)
    {
      assert visibilities[..i + 1][..i] == visibilities[..i];
      var v := visibilities[i];
      if v.planID in plans {
        var converted := ConvertSMVisibility(cfg, v, plans[v.planID]);
        result := result + converted;
      }
    }
    assert visibilities[..|visibilities|] == visibilities;
  }

  method GetVisibilitiesFromSM(e: Endpoints, byPlans: bool, plans: map<string, BrokerPlan>)
    returns (r: Option<seq<Visibility>>)
    modifies e`failedListings
    ensures r.Some? ==> r.value == ConvertedAll(e.cfg, e.sm.visibilities, plans)
    ensures e.failedListings == old(e.failedListings) + if r.Some? then 0 else 1
  {
    var planIDs := if byPlans then Some(plans.Keys) else None;
    var fetched := e.GetVisibilities(planIDs);
    r := None;
    if fetched.Some? {
      var result := ConvertAll(e.cfg, fetched.value, plans);
      QueryIsOnlyAFilter(e.cfg, e.sm.visibilities, plans);
      r := Some(result);
    }
  }

  // ---- The difference ----
  //
  // The comparison is the same whatever the keys are, so everything up to DiffVisibilities takes them as a parameter.

  function Keys(keyOf: Visibility -> string, list: seq<Visibility>): (r: seq<string>)
    ensures |r| == |list| && forall i :: 0 <= i < |list| ==> r[i] == keyOf(list[i])
  {
    seq(|list|, i requires 0 <= i < |list| => keyOf(list[i]))
  }

  function KeySet(keyOf: Visibility -> string, list: seq<Visibility>): set<string> {
    set v | v in list :: keyOf(v)
  }

  /** `v` is the last one in the list with this key. */
  ghost predicate LastWithKey(keyOf: Visibility -> string, list: seq<Visibility>, key: string, v: Visibility) {
    exists i :: 0 <= i < |list| && list[i] == v && keyOf(list[i]) == key
             && forall j :: i < j < |list| ==> keyOf(list[j]) != key
  }

  ghost predicate IsKeyMap(keyOf: Visibility -> string, list: seq<Visibility>, m: map<string, Visibility>) {
    m.Keys == KeySet(keyOf, list) && forall k :: k in m ==> LastWithKey(keyOf, list, k, m[k])
  }

  method ConvertVisListToMap(keyOf: Visibility -> string, list: seq<Visibility>)
    returns (result: map<string, Visibility>)
    ensures IsKeyMap(keyOf, list, result)
  {
    result := map[];
    for i := 0 to |list|
      invariant IsKeyMap(keyOf, list[..i], result)
    {
      KeyMapAppend(keyOf, list[..i], result, list[i]);
      assert list[..i + 1] == list[..i] + [list[i]];
      result := result[keyOf(list[i]) := list[i]];
    }
    assert list[..|list|] == list;
  }

  lemma KeyMapAppend(keyOf: Visibility -> string, list: seq<Visibility>, m: map<string, Visibility>, v: Visibility)
    requires IsKeyMap(keyOf, list, m)
    ensures IsKeyMap(keyOf, list + [v], m[keyOf(v) := v])
  {
    var longer, key := list + [v], keyOf(v);
    var m' := m[key := v];
    assert longer[|list|] == v;
    assert forall i :: 0 <= i < |list| ==> longer[i] == list[i];
    forall k | k in m' ensures LastWithKey(keyOf, longer, k, m'[k]) {
      if k != key {
        var i :| 0 <= i < |list| && list[i] == m[k] && keyOf(list[i]) == k
               && forall j :: i < j < |list| ==> keyOf(list[j]) != k;
        assert longer[i] == m[k];
      }
    }
  }

  /** `obsolete` holds each key that only the platform has, once, with what the platform reported last under it. */
  ghost predicate OnlyOnPlatform(keyOf: Visibility -> string, platformVis: seq<Visibility>, smVis: seq<Visibility>,
                                 obsolete: map<string, Visibility>)
  {
    && obsolete.Keys == KeySet(keyOf, platformVis) - KeySet(keyOf, smVis)
    && forall k :: k in obsolete ==> LastWithKey(keyOf, platformVis, k, obsolete[k])
  }

  /** `missing` comes from SM's list and has, for each key, as many entries as that list, less one if the platform has
      the key. */
  ghost predicate MissingOnPlatform(keyOf: Visibility -> string, platformVis: seq<Visibility>, smVis: seq<Visibility>,
                                    missing: seq<Visibility>)
  {
    && (forall v :: v in missing ==> v in smVis)
    && OnlyExcess(KeySet(keyOf, platformVis), Keys(keyOf, smVis), Keys(keyOf, missing))
  }

  function Excess(n: nat, present: bool): nat {
    if present && n > 0 then n - 1 else n
  }

  ghost predicate OnlyExcess(present: set<string>, wanted: seq<string>, missing: seq<string>) {
    forall k :: multiset(missing)[k] == Excess(multiset(wanted)[k], k in present)
  }

  lemma ExcessStep(present: set<string>, wanted: seq<string>, missing: seq<string>, key: string)
    requires OnlyExcess(present, wanted, missing)
    ensures OnlyExcess(present, wanted + [key], if key in present && key !in wanted then missing else missing + [key])
  {
  }

  method DiffByKey(keyOf: Visibility -> string, platformVis: seq<Visibility>, smVis: seq<Visibility>)
    returns (obsolete: map<string, Visibility>, missing: seq<Visibility>)
    ensures OnlyOnPlatform(keyOf, platformVis, smVis, obsolete)
    ensures MissingOnPlatform(keyOf, platformVis, smVis, missing)
  {
    obsolete := ConvertVisListToMap(keyOf, platformVis);
    missing := [];
    DiffStart(keyOf, platformVis, obsolete);
    assert smVis[..0] == [];
    for i := 0 to |smVis|
      invariant OnlyOnPlatform(keyOf, platformVis, smVis[..i], obsolete)
      invariant MissingOnPlatform(keyOf, platformVis, smVis[..i], missing)
    {
      assert smVis[..i + 1] == smVis[..i] + [smVis[i]];
      DiffStep(keyOf, platformVis, smVis[..i], smVis[i], smVis[..i + 1], obsolete, missing);
      var key := keyOf(smVis[i]);
      var matched := key in obsolete;
      obsolete := obsolete - {key};
      if !matched {
        missing := missing + [smVis[i]];
      }
    }
    assert smVis[..|smVis|] == smVis;
  }

  lemma DiffStep(keyOf: Visibility -> string, platformVis: seq<Visibility>, smVis: seq<Visibility>, v: Visibility,
                 longer: seq<Visibility>, obsolete: map<string, Visibility>, missing: seq<Visibility>)
    requires OnlyOnPlatform(keyOf, platformVis, smVis, obsolete)
    requires MissingOnPlatform(keyOf, platformVis, smVis, missing)
    requires longer == smVis + [v]
    ensures OnlyOnPlatform(keyOf, platformVis, longer, obsolete - {keyOf(v)})
    ensures MissingOnPlatform(keyOf, platformVis, longer, if keyOf(v) in obsolete then missing else missing + [v])
  {
    ObsoleteStep(keyOf, platformVis, smVis, obsolete, v);
    MissingStep(keyOf, platformVis, smVis, missing, v);
    assert keyOf(v) in obsolete <==> keyOf(v) in KeySet(keyOf, platformVis) - KeySet(keyOf, smVis);
  }

  lemma DiffStart(keyOf: Visibility -> string, platformVis: seq<Visibility>, m: map<string, Visibility>)
    requires IsKeyMap(keyOf, platformVis, m)
    ensures OnlyOnPlatform(keyOf, platformVis, [], m) && MissingOnPlatform(keyOf, platformVis, [], [])
  {
  }

  lemma ObsoleteStep(keyOf: Visibility -> string, platformVis: seq<Visibility>, smVis: seq<Visibility>,
                     obsolete: map<string, Visibility>, v: Visibility)
    requires OnlyOnPlatform(keyOf, platformVis, smVis, obsolete)
    ensures OnlyOnPlatform(keyOf, platformVis, smVis + [v], obsolete - {keyOf(v)})
  {
  }

  lemma MissingStep(keyOf: Visibility -> string, platformVis: seq<Visibility>, smVis: seq<Visibility>,
                    missing: seq<Visibility>, v: Visibility)
    requires MissingOnPlatform(keyOf, platformVis, smVis, missing)
    ensures var matched := keyOf(v) in KeySet(keyOf, platformVis) - KeySet(keyOf, smVis);
            MissingOnPlatform(keyOf, platformVis, smVis + [v], if matched then missing else missing + [v])
  {
    var key := keyOf(v);
    KeySetAppend(keyOf, smVis, v);
    assert Keys(keyOf, smVis + [v]) == Keys(keyOf, smVis) + [key];
    assert Keys(keyOf, missing + [v]) == Keys(keyOf, missing) + [key];
    KeysAreKeySet(keyOf, smVis);
    ExcessStep(KeySet(keyOf, platformVis), Keys(keyOf, smVis), Keys(keyOf, missing), key);
  }

  lemma KeySetAppend(keyOf: Visibility -> string, list: seq<Visibility>, v: Visibility)
    ensures KeySet(keyOf, list + [v]) == KeySet(keyOf, list) + {keyOf(v)}
    ensures v in list + [v] && forall w :: w in list ==> w in list + [v]
  {
  }

  lemma KeysAreKeySet(keyOf: Visibility -> string, list: seq<Visibility>)
    ensures forall k :: k in Keys(keyOf, list) <==> k in KeySet(keyOf, list)
  {
  }

  function KeyOf(cfg: Config): Visibility -> string {
    v => VisibilityKey(cfg, v)
  }

  ghost predicate IsDiff(cfg: Config, platformVis: seq<Visibility>, smVis: seq<Visibility>,
                         obsolete: map<string, Visibility>, missing: seq<Visibility>)
  {
    && OnlyOnPlatform(KeyOf(cfg), platformVis, smVis, obsolete)
    && MissingOnPlatform(KeyOf(cfg), platformVis, smVis, missing)
  }

  method DiffVisibilities(cfg: Config, platformVis: seq<Visibility>, smVis: seq<Visibility>)
    returns (obsolete: map<string, Visibility>, missing: seq<Visibility>)
    ensures IsDiff(cfg, platformVis, smVis, obsolete, missing)
  {
    obsolete, missing := DiffByKey(KeyOf(cfg), platformVis, smVis);
  }

  // ---- The difference in terms of grants ----

  function ObsoleteGrants(cfg: Config, obsolete: map<string, Visibility>): set<Grant> {
    set k | k in obsolete :: GrantOf(cfg, obsolete[k])
  }

  ghost predicate AllPipeFree(cfg: Config, list: seq<Visibility>) {
    forall v :: v in list ==> PipeFree(cfg, v)
  }

  lemma KeyDependsOnGrant(cfg: Config, v: Visibility, w: Visibility)
    requires GrantOf(cfg, v) == GrantOf(cfg, w)
    ensures VisibilityKey(cfg, v) == VisibilityKey(cfg, w)
  {
  }

  /** What both sides have is never disabled and what SM does not want is never enabled, whatever the keys are. If no
      scope and no broker name contains the separator of the keys, the difference is exact. */
  lemma DiffGrants(cfg: Config, platformVis: seq<Visibility>, smVis: seq<Visibility>, obsolete: map<string, Visibility>,
                   missing: seq<Visibility>)
    requires IsDiff(cfg, platformVis, smVis, obsolete, missing)
    ensures ObsoleteGrants(cfg, obsolete) <= GrantsOf(cfg, platformVis) - GrantsOf(cfg, smVis)
    ensures GrantsOf(cfg, missing) <= GrantsOf(cfg, smVis)
    ensures AllPipeFree(cfg, platformVis + smVis) ==>
              && ObsoleteGrants(cfg, obsolete) == GrantsOf(cfg, platformVis) - GrantsOf(cfg, smVis)
              && GrantsOf(cfg, smVis) - GrantsOf(cfg, platformVis) <= GrantsOf(cfg, missing)
  {
    forall k | k in obsolete
      ensures GrantOf(cfg, obsolete[k]) in GrantsOf(cfg, platformVis)
      ensures GrantOf(cfg, obsolete[k]) !in GrantsOf(cfg, smVis)
    {
      ObsoleteIsUnwanted(cfg, platformVis, smVis, obsolete, k);
    }
    forall v | v in missing ensures GrantOf(cfg, v) in GrantsOf(cfg, smVis) {
      InGrantsOf(cfg, smVis, v);
    }
    if AllPipeFree(cfg, platformVis + smVis) {
      forall x | x in GrantsOf(cfg, platformVis) - GrantsOf(cfg, smVis) ensures x in ObsoleteGrants(cfg, obsolete) {
        UnwantedIsObsolete(cfg, platformVis, smVis, obsolete, x);
      }
      forall x | x in GrantsOf(cfg, smVis) - GrantsOf(cfg, platformVis) ensures x in GrantsOf(cfg, missing) {
        NewIsMissing(cfg, platformVis, smVis, missing, x);
      }
    }
  }

  /** Once the platform reports exactly the rights that SM grants, a diff disables nothing and enables only what is
      there, and it enables each right once less than SM lists it under its key: nothing at all if and only if SM
      lists no key twice. */
  lemma SecondDiff(cfg: Config, platformVis: seq<Visibility>, smVis: seq<Visibility>, obsolete: map<string, Visibility>,
                   missing: seq<Visibility>)
    requires IsDiff(cfg, platformVis, smVis, obsolete, missing) && GrantsOf(cfg, platformVis) == GrantsOf(cfg, smVis)
    ensures obsolete == map[] && GrantsOf(cfg, missing) <= GrantsOf(cfg, platformVis)
    ensures forall k :: multiset(Keys(KeyOf(cfg), missing))[k] == Excess(multiset(Keys(KeyOf(cfg), smVis))[k], true)
    ensures missing == [] <==> DistinctKeys(KeyOf(cfg), smVis)
  {
    DiffGrants(cfg, platformVis, smVis, obsolete, missing);
    SameGrantsSameKeys(cfg, platformVis, smVis);
    SameGrantsSameKeys(cfg, smVis, platformVis);
    KeysAreKeySet(KeyOf(cfg), smVis);
    var wanted, excess := Keys(KeyOf(cfg), smVis), Keys(KeyOf(cfg), missing);
    forall k ensures multiset(excess)[k] == Excess(multiset(wanted)[k], true) {
      assert k in wanted <==> k in KeySet(KeyOf(cfg), platformVis);
    }
    NoExcessIff(wanted, excess);
  }

  ghost predicate DistinctKeys(keyOf: Visibility -> string, list: seq<Visibility>) {
    NoneTwice(Keys(keyOf, list))
  }

  ghost predicate NoneTwice(list: seq<string>) {
    forall i, j :: 0 <= i < j < |list| ==> list[i] != list[j]
  }

  lemma SameGrantsSameKeys(cfg: Config, a: seq<Visibility>, b: seq<Visibility>)
    requires GrantsOf(cfg, a) <= GrantsOf(cfg, b)
    ensures KeySet(KeyOf(cfg), a) <= KeySet(KeyOf(cfg), b)
  {
    forall v | v in a ensures VisibilityKey(cfg, v) in KeySet(KeyOf(cfg), b) {
      InGrantsOf(cfg, a, v);
      var i :| 0 <= i < |b| && GrantOf(cfg, b[i]) == GrantOf(cfg, v);
      KeyDependsOnGrant(cfg, v, b[i]);
      assert KeyOf(cfg)(b[i]) in KeySet(KeyOf(cfg), b);
    }
  }

  lemma NoExcessIff(wanted: seq<string>, excess: seq<string>)
    requires forall k :: multiset(excess)[k] == Excess(multiset(wanted)[k], true)
    ensures excess == [] <==> NoneTwice(wanted)
  {
    forall k ensures multiset(wanted)[k] > 1 <==> k in excess {
      assert k in multiset(excess) <==> k in excess;
    }
    TwiceIff(wanted);
    if excess != [] {
      assert excess[0] in excess;
    }
  }

  lemma {:induction false} TwiceIff(list: seq<string>)
    ensures NoneTwice(list) <==> forall k :: multiset(list)[k] <= 1
  {
    if list != [] {
      var init, last := list[..|list| - 1], list[|list| - 1];
      assert list == init + [last];
      TwiceIff(init);
      assert last in init <==> last in multiset(init);
      assert NoneTwice(list) <==> NoneTwice(init) && last !in init;
      assert forall k :: multiset(list)[k] == multiset(init)[k] + if k == last then 1 else 0;
    }
  }

  /** From the effect of the calls to the effect in terms of what both sides have. */
  lemma PassEffect<T>(before: set<T>, after: set<T>, ok: bool, P: set<T>, S: set<T>, D: set<T>, E: set<T>)
    requires D <= P - S && E <= S
    requires before - D <= after <= before + E && (ok ==> after == before - D + E)
    ensures before - (P - S) <= after <= before + S
    ensures ok && D == P - S && S - P <= E && P <= before ==> after == before - (P - S) + S
  {
  }

  lemma InGrantsOf(cfg: Config, list: seq<Visibility>, v: Visibility)
    requires v in list
    ensures GrantOf(cfg, v) in GrantsOf(cfg, list)
  {
  }

  lemma ObsoleteIsUnwanted(cfg: Config, platformVis: seq<Visibility>, smVis: seq<Visibility>,
                           obsolete: map<string, Visibility>, k: string)
    requires OnlyOnPlatform(KeyOf(cfg), platformVis, smVis, obsolete) && k in obsolete
    ensures GrantOf(cfg, obsolete[k]) in GrantsOf(cfg, platformVis) - GrantsOf(cfg, smVis)
  {
    InGrantsOf(cfg, platformVis, obsolete[k]);
    forall i | 0 <= i < |smVis| ensures GrantOf(cfg, smVis[i]) != GrantOf(cfg, obsolete[k]) {
      assert smVis[i] in smVis;
      assert KeyOf(cfg)(smVis[i]) != KeyOf(cfg)(obsolete[k]);
      if GrantOf(cfg, smVis[i]) == GrantOf(cfg, obsolete[k]) {
        KeyDependsOnGrant(cfg, smVis[i], obsolete[k]);
      }
    }
  }

  lemma UnwantedIsObsolete(cfg: Config, platformVis: seq<Visibility>, smVis: seq<Visibility>,
                           obsolete: map<string, Visibility>, x: Grant)
    requires OnlyOnPlatform(KeyOf(cfg), platformVis, smVis, obsolete)
    requires AllPipeFree(cfg, platformVis + smVis) && x in GrantsOf(cfg, platformVis) - GrantsOf(cfg, smVis)
    ensures x in ObsoleteGrants(cfg, obsolete)
  {
    var i :| 0 <= i < |platformVis| && GrantOf(cfg, platformVis[i]) == x;
    var v := platformVis[i];
    var k := KeyOf(cfg)(v);
    assert v in platformVis && k in KeySet(KeyOf(cfg), platformVis);
    forall w | w in smVis ensures KeyOf(cfg)(w) != k {
      InGrantsOf(cfg, smVis, w);
      assert w in platformVis + smVis && v in platformVis + smVis;
      VisibilityKeyIdentifiesGrant(cfg, v, w);
    }
    assert k in obsolete;
    assert obsolete[k] in platformVis + smVis && v in platformVis + smVis;
    VisibilityKeyIdentifiesGrant(cfg, obsolete[k], v);
  }

  lemma NewIsMissing(cfg: Config, platformVis: seq<Visibility>, smVis: seq<Visibility>, missing: seq<Visibility>,
                     x: Grant)
    requires MissingOnPlatform(KeyOf(cfg), platformVis, smVis, missing)
    requires AllPipeFree(cfg, platformVis + smVis) && x in GrantsOf(cfg, smVis) - GrantsOf(cfg, platformVis)
    ensures x in GrantsOf(cfg, missing)
  {
    var keyOf := KeyOf(cfg);
    var i :| 0 <= i < |smVis| && GrantOf(cfg, smVis[i]) == x;
    var v := smVis[i];
    var k := keyOf(v);
    forall w | w in platformVis ensures keyOf(w) != k {
      InGrantsOf(cfg, platformVis, w);
      assert w in platformVis + smVis && v in platformVis + smVis;
      VisibilityKeyIdentifiesGrant(cfg, v, w);
    }
    assert Keys(keyOf, smVis)[i] == k;
    assert multiset(Keys(keyOf, smVis))[k] > 0;
    assert k in multiset(Keys(keyOf, missing)) && k in Keys(keyOf, missing);
    var n :| 0 <= n < |missing| && keyOf(missing[n]) == k;
    assert missing[n] in platformVis + smVis && v in platformVis + smVis;
    VisibilityKeyIdentifiesGrant(cfg, missing[n], v);
  }

  // ---- Changing the platform ----

  function MapToLabels(m: map<string, string>): Labels {
    map k | k in m :: [m[k]]
  }

  /** The grants that a request made from this visibility is about. */
  function Requested(v: Visibility): set<Grant> {
    GrantsFor(v.brokerName, v.planID, MapToLabels(v.labels))
  }

  lemma CanonicalRequest(cfg: Config, v: Visibility)
    requires Canonical(cfg, v)
    ensures Requested(v) == {GrantOf(cfg, v)}
  {
    var labels := MapToLabels(v.labels);
    if v.public {
      assert labels == map[];
    } else {
      assert labels == map[cfg.scopeKey := [ScopeOf(cfg, v)]];
      assert Audiences(labels) == {Holder(cfg.scopeKey, labels[cfg.scopeKey][0])};
    }
  }

  function RequestedByAll(m: map<string, Visibility>): set<Grant> {
    set v, x | v in m.Values && x in Requested(v) :: x
  }

  function RequestedByEach(list: seq<Visibility>): set<Grant> {
    set v, x | v in list && x in Requested(v) :: x
  }

  lemma RequestedByNext(list: seq<Visibility>, i: nat)
    requires i < |list|
    ensures RequestedByEach(list[..i + 1]) == RequestedByEach(list[..i]) + Requested(list[i])
    ensures Requested(list[i]) <= RequestedByEach(list)
  {
  }

  method DeleteVisibility(e: Endpoints, v: Visibility) returns (ok: bool)
    modifies e`grants, e`trace
    ensures old(e.grants) - Requested(v) <= e.grants <= old(e.grants)
    ensures ok ==> e.grants == old(e.grants) - Requested(v)
    ensures e.trace == old(e.trace) + [Disable(Requested(v), ok)]
  {
    ok := e.DisableAccessForPlan(v.brokerName, v.planID, MapToLabels(v.labels));
  }

  method CreateVisibility(e: Endpoints, v: Visibility) returns (ok: bool)
    modifies e`grants, e`trace
    ensures old(e.grants) <= e.grants <= old(e.grants) + Requested(v)
    ensures ok ==> e.grants == old(e.grants) + Requested(v)
    ensures e.trace == old(e.trace) + [Enable(Requested(v), ok)]
  {
    ok := e.EnableAccessForPlan(v.brokerName, v.planID, MapToLabels(v.labels));
  }

  /** Each key of the map once. */
  ghost predicate IsOrder(m: map<string, Visibility>, order: seq<string>) {
    && |order| == |m| && (forall k :: k in order <==> k in m)
    && (forall i, j :: 0 <= i < j < |order| ==> order[i] != order[j])
  }

  lemma OrderOneMore(keys: set<string>, todo: set<string>, order: seq<string>, k: string)
    requires k in todo && todo <= keys && forall x :: x in order <==> x in keys - todo
    ensures forall x :: x in order + [k] <==> x in keys - (todo - {k})
    ensures forall i :: 0 <= i < |order| ==> order[i] != k
  {
    forall i | 0 <= i < |order| ensures order[i] != k {
      assert order[i] in order;
    }
    forall x ensures x in order + [k] <==> x in keys - (todo - {k}) {
      assert (order + [k])[|order|] == k;
      if x in order {
        var i :| 0 <= i < |order| && order[i] == x;
        assert (order + [k])[i] == x;
      }
    }
  }

  /** The keys of the map in the order in which ranging over it happens to find them. */
  method KeysInSomeOrder(m: map<string, Visibility>) returns (order: seq<string>)
    ensures IsOrder(m, order)
  {
    order := [];
    var todo := m.Keys;
    while todo != {}
      invariant todo <= m.Keys
      invariant forall k :: k in order <==> k in m.Keys - todo
      invariant forall i, j :: 0 <= i < j < |order| ==> order[i] != order[j]
      invariant |order| + |todo| == |m.Keys|
      decreases |todo|
    {
      var k :| k in todo;
      OrderOneMore(m.Keys, todo, order, k);
      order := order + [k];
      todo := todo - {k};
    }
    assert |m.Keys| == |m|;
  }

  function ValuesOf(m: map<string, Visibility>, order: seq<string>): seq<Visibility>
    requires forall k :: k in order ==> k in m
  {
    seq(|order|, i requires 0 <= i < |order| => m[order[i]])
  }

  lemma RequestedInOrder(m: map<string, Visibility>, order: seq<string>)
    requires IsOrder(m, order)
    ensures RequestedByAll(m) == RequestedByEach(ValuesOf(m, order))
  {
    var list := ValuesOf(m, order);
    forall v ensures v in list <==> v in m.Values {
      if v in m.Values {
        var k :| k in m && m[k] == v;
        var i :| 0 <= i < |order| && order[i] == k;
        assert list[i] == v;
      }
    }
  }

  /** Each call asked for what the list says at its place: calls to disable, or calls to enable. */
  predicate DisablesOf(list: seq<Visibility>, calls: seq<Event>) {
    |calls| <= |list| && forall i | 0 <= i < |calls| :: calls[i].Disable? && calls[i].grants == Requested(list[i])
  }

  predicate EnablesOf(list: seq<Visibility>, calls: seq<Event>) {
    |calls| <= |list| && forall i | 0 <= i < |calls| :: calls[i].Enable? && calls[i].grants == Requested(list[i])
  }

  lemma OneMoreDisable(list: seq<Visibility>, calls: seq<Event>, ok: bool)
    requires |calls| < |list| && DisablesOf(list, calls)
    ensures DisablesOf(list, calls + [Disable(Requested(list[|calls|]), ok)])
    ensures AllSucceeded(calls + [Disable(Requested(list[|calls|]), ok)]) <==> AllSucceeded(calls) && ok
  {
    var e := Disable(Requested(list[|calls|]), ok);
    AllSucceededConcat(calls, [e]);
    assert AllSucceeded([e]) <==> Succeeded([e][0]);
  }

  lemma OneMoreEnable(list: seq<Visibility>, calls: seq<Event>, ok: bool)
    requires |calls| < |list| && EnablesOf(list, calls)
    ensures EnablesOf(list, calls + [Enable(Requested(list[|calls|]), ok)])
    ensures AllSucceeded(calls + [Enable(Requested(list[|calls|]), ok)]) <==> AllSucceeded(calls) && ok
  {
    var e := Enable(Requested(list[|calls|]), ok);
    AllSucceededConcat(calls, [e]);
    assert AllSucceeded([e]) <==> Succeeded([e][0]);
  }

  /** All removals are attempted once, in any order and whatever fails, unless the context is found cancelled; only a
      failing call or the cancellation makes it fail. The code makes the calls in parallel: module VisibilityRuns
      shows that this makes no difference. */
  method DeleteVisibilities(e: Endpoints, obsolete: map<string, Visibility>)
    returns (failed: bool, ghost order: seq<string>, ghost calls: seq<Event>)
    modifies e`grants, e`trace, e`cancellations
    ensures old(e.grants) - RequestedByAll(obsolete) <= e.grants <= old(e.grants)
    ensures !failed ==> e.grants == old(e.grants) - RequestedByAll(obsolete)
    ensures e.trace == old(e.trace) + calls && e.cancellations >= old(e.cancellations)
    ensures IsOrder(obsolete, order) && DisablesOf(ValuesOf(obsolete, order), calls)
    ensures failed <==> e.cancellations > old(e.cancellations) || !AllSucceeded(calls)
    ensures e.cancellations == old(e.cancellations) ==> |calls| == |obsolete|
  {
    var keys := KeysInSomeOrder(obsolete);
    RequestedInOrder(obsolete, keys);
    var list := ValuesOf(obsolete, keys);
    failed, order, calls := false, keys, [];
    for i := 0 to |list|
      invariant old(e.grants) - RequestedByEach(list) <= e.grants <= old(e.grants)
      invariant !failed ==> RequestedByEach(list[..i]) !! e.grants
      invariant e.trace == old(e.trace) + calls && |calls| == i && DisablesOf(list, calls)
      invariant e.cancellations == old(e.cancellations) && (failed <==> !AllSucceeded(calls))
    {
      var cancelled := e.IsCancelled();
      if cancelled {
        return true, order, calls;
      }
      var ok := DeleteVisibility(e, list[i]);
      OneMoreDisable(list, calls, ok);
      failed, calls := failed || !ok, calls + [Disable(Requested(list[i]), ok)];
      RequestedByNext(list, i);
    }
    assert list[..|list|] == list;
  }

  /** All additions are attempted once, in the given order, under the same condition. */
  method CreateVisibilities(e: Endpoints, missing: seq<Visibility>) returns (failed: bool, ghost calls: seq<Event>)
    modifies e`grants, e`trace, e`cancellations
    ensures old(e.grants) <= e.grants <= old(e.grants) + RequestedByEach(missing)
    ensures !failed ==> e.grants == old(e.grants) + RequestedByEach(missing)
    ensures e.trace == old(e.trace) + calls && e.cancellations >= old(e.cancellations)
    ensures EnablesOf(missing, calls)
    ensures failed <==> e.cancellations > old(e.cancellations) || !AllSucceeded(calls)
    ensures e.cancellations == old(e.cancellations) ==> |calls| == |missing|
  {
    failed, calls := false, [];
    for i := 0 to |missing|
      invariant old(e.grants) <= e.grants <= old(e.grants) + RequestedByEach(missing)
      invariant !failed ==> RequestedByEach(missing[..i]) <= e.grants
      invariant e.trace == old(e.trace) + calls && |calls| == i && EnablesOf(missing, calls)
      invariant e.cancellations == old(e.cancellations) && (failed <==> !AllSucceeded(calls))
    {
      var cancelled := e.IsCancelled();
      if cancelled {
        return true, calls;
      }
      var ok := CreateVisibility(e, missing[i]);
      OneMoreEnable(missing, calls, ok);
      failed, calls := failed || !ok, calls + [Enable(Requested(missing[i]), ok)];
      RequestedByNext(missing, i);
    }
    assert missing[..|missing|] == missing;
  }
}
