/** SM and the platform as the proxy's calls see them. Every call may fail, and a failing call to the platform may or
    may not have had its effect. */
module World {
  import opened Types
  import opened Naming

  datatype Credentials = Credentials(username: string, password: string)

  /** The hash of a password, known by the password it was made from. */
  datatype PasswordHash = HashOf(password: string)

  datatype PutResult = Accepted(credentialID: string) | Conflict | Failed

  datatype CallKind = CreateCall | UpdateCall | FetchCall

  datatype Event =
    | Generate(ok: bool)
    | Put(brokerID: string, username: string, hash: PasswordHash, force: bool, result: PutResult)
    | BrokerCall(kind: CallKind, brokerID: string, credentials: Credentials, ok: bool)
    | Activate(credentialID: string)
    | DeleteCall(guid: string, ok: bool)
    | Lookup(name: string, ok: bool)
    | Enable(grants: set<Grant>, ok: bool)
    | Disable(grants: set<Grant>, ok: bool)

  /** Activation is only ever logged by the proxy, so it counts as succeeding. */
  predicate Succeeded(e: Event) {
    match e
    case Generate(ok) => ok
    case Put(_, _, _, _, r) => r.Accepted?
    case BrokerCall(_, _, _, ok) => ok
    case Activate(_) => true
    case DeleteCall(_, ok) => ok
    case Lookup(_, ok) => ok
    case Enable(_, ok) => ok
    case Disable(_, ok) => ok
  }

  predicate AllSucceeded(events: seq<Event>) {
    forall i :: 0 <= i < |events| ==> Succeeded(events[i])
  }

  lemma AllSucceededConcat(a: seq<Event>, b: seq<Event>)
    ensures AllSucceeded(a + b) <==> AllSucceeded(a) && AllSucceeded(b)
  {
    assert forall i :: 0 <= i < |a| ==> (a + b)[i] == a[i];
    assert forall i :: 0 <= i < |b| ==> (a + b)[|a| + i] == b[i];
  }

  function NumFalse(flags: seq<bool>): nat {
    if flags == [] then 0 else NumFalse(flags[..|flags| - 1]) + if flags[|flags| - 1] then 0 else 1
  }

  lemma NumFalseOneMore(flags: seq<bool>, b: bool)
    ensures NumFalse(flags + [b]) == NumFalse(flags) + if b then 0 else 1
  {
    assert (flags + [b])[..|flags|] == flags;
  }

  lemma {:induction false} NoneFalse(flags: seq<bool>, i: nat)
    requires NumFalse(flags) == 0 && i < |flags|
    ensures flags[i]
  {
    if i < |flags| - 1 {
      NoneFalse(flags[..|flags| - 1], i);
    }
  }

  /** What SM holds: all of it ready, each visibility naming its plan. */
  datatype SMState = SMState(
    brokers: seq<ServiceBroker>,
    offerings: seq<ServiceOffering>,
    plans: seq<ServicePlan>,
    visibilities: seq<SMVisibility>)

  function Pairs(labels: Labels): set<Audience> {
    set k, i | k in labels && 0 <= i < |labels[k]| :: Holder(k, labels[k][i])
  }

  /** Whom an access request is about: everyone if it carries no labels, else the holders of each label value. */
  function Audiences(labels: Labels): set<Audience> {
    if labels == map[] then {Everyone} else Pairs(labels)
  }

  function GrantsFor(brokerName: string, planID: string, labels: Labels): set<Grant> {
    set a | a in Audiences(labels) :: Grant(brokerName, planID, a)
  }

  function PlansWanted(visibilities: seq<SMVisibility>, planIDs: Option<set<string>>): seq<SMVisibility> {
    if visibilities == [] then []
    else
      var rest := PlansWanted(visibilities[..|visibilities| - 1], planIDs);
      var v := visibilities[|visibilities| - 1];
      if planIDs == None || v.planID in planIDs.value then rest + [v] else rest
  }

  /** Whether the platform can report the grant as a visibility at all. */
  predicate Listable(cfg: Config, x: Grant) {
    x.audience == Everyone || x.audience.key == cfg.scopeKey
  }

  function VisibilityOf(x: Grant): Visibility {
    Visibility(x.audience == Everyone, x.planID, x.brokerName,
               if x.audience == Everyone then map[] else map[x.audience.key := x.audience.value])
  }

  function GrantsOf(cfg: Config, list: seq<Visibility>): set<Grant> {
    set i | 0 <= i < |list| :: GrantOf(cfg, list[i])
  }

  /** The grants that a listing for these broker names reports. */
  function Listed(cfg: Config, grants: set<Grant>, names: set<string>): set<Grant> {
    set x | x in grants && x.brokerName in names && Listable(cfg, x)
  }

  function Guids(list: seq<ServiceBroker>): set<string> {
    set i | 0 <= i < |list| :: list[i].guid
  }

  predicate DistinctGuids(list: seq<ServiceBroker>) {
    forall i, j | 0 <= i < |list| && 0 <= j < |list| :: list[i].guid == list[j].guid ==> i == j
  }

  /** `list` reports every registered broker once. */
  ghost predicate IsListing(regs: map<string, Registration>, list: seq<ServiceBroker>) {
    && Guids(list) == regs.Keys
    && (forall i :: 0 <= i < |list| ==>
          list[i].guid in regs && regs[list[i].guid] == Registration(list[i].name, list[i].url))
    && (forall i, j :: 0 <= i < j < |list| ==> list[i].guid != list[j].guid)
  }

  class Endpoints {
    const cfg: Config
    var sm: SMState
    var regs: map<string, Registration>
    var grants: set<Grant>
    var trace: seq<Event>
    ghost var cancellations: nat   // how often a caller found the context cancelled
    ghost var failedListings: nat  // how often something could not be listed

    constructor (cfg: Config, sm: SMState, regs: map<string, Registration>, grants: set<Grant>)
      ensures this.cfg == cfg && this.sm == sm && this.regs == regs && this.grants == grants && trace == []
      ensures cancellations == 0 && failedListings == 0
    {
      this.cfg, this.sm, this.regs, this.grants, this.trace := cfg, sm, regs, grants, [];
      cancellations, failedListings := 0, 0;
    }

    /** What can keep a caller from making a call. */
    ghost function Disturbances(): nat
      reads this`cancellations, this`failedListings
    {
      cancellations + failedListings
    }

    /** Whether the caller finds the context cancelled. */
    method IsCancelled() returns (cancelled: bool)
      modifies this`cancellations
      ensures cancellations == old(cancellations) + if cancelled then 1 else 0
    {
      cancelled := *;
      if cancelled {
        cancellations := cancellations + 1;
      }
    }

    /** Whether a call that lists something succeeds. */
    method CanList() returns (ok: bool)
      modifies this`failedListings
      ensures failedListings == old(failedListings) + if ok then 0 else 1
    {
      ok := *;
      if !ok {
        failedListings := failedListings + 1;
      }
    }

    // ---- SM ----

    /** Others change what SM holds, in any way. */
    method OthersChangeSM()
      modifies this`sm
    {
      sm := *;
    }

    method GenerateCredentials() returns (r: Option<Credentials>)
      modifies this`trace
      ensures r.Some? ==> r.value.username != "" && r.value.password != ""
      ensures trace == old(trace) + [Generate(r.Some?)]
    {
      var u: string, p: string := *, *;
      r := if u == "" || p == "" then None else Some(Credentials(u, p));
      trace := trace + [Generate(r.Some?)];
    }

    method PutCredentials(brokerID: string, c: Credentials, force: bool) returns (r: PutResult)
      modifies this`trace
      ensures trace == old(trace) + [Put(brokerID, c.username, HashOf(c.password), force, r)]
    {
      r := *;
      trace := trace + [Put(brokerID, c.username, HashOf(c.password), force, r)];
    }

    method ActivateCredentials(credentialID: string)
      modifies this`trace
      ensures trace == old(trace) + [Activate(credentialID)]
    {
      trace := trace + [Activate(credentialID)];
    }

    method ListBrokers() returns (r: Option<seq<ServiceBroker>>)
      modifies this`failedListings
      ensures r.Some? ==> r.value == sm.brokers
      ensures failedListings == old(failedListings) + if r.Some? then 0 else 1
    {
      var ok := CanList();
      r := if ok then Some(sm.brokers) else None;
    }

    method ListOfferings() returns (r: Option<seq<ServiceOffering>>)
      modifies this`failedListings
      ensures r.Some? ==> r.value == sm.offerings
      ensures failedListings == old(failedListings) + if r.Some? then 0 else 1
    {
      var ok := CanList();
      r := if ok then Some(sm.offerings) else None;
    }

    method ListPlans() returns (r: Option<seq<ServicePlan>>)
      modifies this`failedListings
      ensures r.Some? ==> r.value == sm.plans
      ensures failedListings == old(failedListings) + if r.Some? then 0 else 1
    {
      var ok := CanList();
      r := if ok then Some(sm.plans) else None;
    }

    /** Nothing is filtered out when `planIDs` is None; an empty set asks for no plan at all. */
    method GetVisibilities(planIDs: Option<set<string>>) returns (r: Option<seq<SMVisibility>>)
      modifies this`failedListings
      ensures r.Some? ==> r.value == PlansWanted(sm.visibilities, planIDs)
      ensures failedListings == old(failedListings) + if r.Some? then 0 else 1
    {
      var ok := CanList();
      r := if ok then Some(PlansWanted(sm.visibilities, planIDs)) else None;
    }

    // ---- Brokers on the platform ----

    method GetBrokers() returns (r: Option<seq<ServiceBroker>>)
      modifies this`failedListings
      ensures r.Some? ==> IsListing(regs, r.value)
      ensures failedListings == old(failedListings) + if r.Some? then 0 else 1
    {
      r := None;
      var ok := CanList();
      if ok {
        var list := ListRegistrations();
        r := Some(list);
      }
    }

    method ListRegistrations() returns (list: seq<ServiceBroker>)
      ensures IsListing(regs, list)
    {
      list := [];
      var todo := regs.Keys;
      while todo != {}
        invariant todo <= regs.Keys
        invariant IsListing(regs - todo, list)
        decreases |todo|
      {
        var g :| g in todo;
        ListingAppend(regs - todo, list, ServiceBroker(g, regs[g].name, regs[g].url));
        assert regs - (todo - {g}) == (regs - todo)[g := Registration(regs[g].name, regs[g].url)];
        list := list + [ServiceBroker(g, regs[g].name, regs[g].url)];
        todo := todo - {g};
      }
      assert regs - todo == regs;
    }

    predicate Found(b: ServiceBroker, name: string)
      reads this`regs
    {
      b.name == name && b.guid in regs && regs[b.guid] == Registration(name, b.url)
    }

    /** Finds nothing when there is no such broker, and also when the call fails. */
    method GetBrokerByName(name: string) returns (r: Option<ServiceBroker>, ok: bool)
      modifies this`trace
      ensures r.Some? ==> ok && Found(r.value, name)
      ensures r == None && ok ==> forall g :: g in regs ==> regs[g].name != name
      ensures trace == old(trace) + [Lookup(name, ok)]
    {
      ok := *;
      r := None;
      if ok {
        var todo := regs.Keys;
        while todo != {} && r == None
          invariant todo <= regs.Keys
          invariant r == None ==> forall g :: g in regs && g !in todo ==> regs[g].name != name
          invariant r.Some? ==> Found(r.value, name)
          decreases |todo|
        {
          var g :| g in todo;
          if regs[g].name == name {
            r := Some(ServiceBroker(g, name, regs[g].url));
          }
          todo := todo - {g};
        }
      }
      trace := trace + [Lookup(name, ok)];
    }

    /** The platform chooses an id for the new broker that it has not given out. */
    method CreateBroker(brokerID: string, name: string, url: string, c: Credentials) returns (ok: bool, guid: string)
      modifies this`regs, this`trace
      ensures guid !in old(regs) || (!ok && regs == old(regs))
      ensures regs == old(regs)[guid := Registration(name, url)] || (!ok && regs == old(regs))
      ensures trace == old(trace) + [BrokerCall(CreateCall, brokerID, c, ok)]
    {
      guid := *;
      ok := *;
      var applied: bool := *;
      ok := ok && guid !in regs;
      if guid !in regs && (ok || applied) {
        regs := regs[guid := Registration(name, url)];
      }
      trace := trace + [BrokerCall(CreateCall, brokerID, c, ok)];
    }

    method UpdateBroker(brokerID: string, guid: string, name: string, url: string, c: Credentials) returns (ok: bool)
      modifies this`regs, this`trace
      ensures ok ==> guid in old(regs)
      ensures regs == old(regs)[guid := Registration(name, url)] || (!ok && regs == old(regs))
      ensures regs.Keys == old(regs).Keys
      ensures trace == old(trace) + [BrokerCall(UpdateCall, brokerID, c, ok)]
    {
      ok := *;
      var applied: bool := *;
      ok := ok && guid in regs;
      if guid in regs && (ok || applied) {
        regs := regs[guid := Registration(name, url)];
      }
      trace := trace + [BrokerCall(UpdateCall, brokerID, c, ok)];
    }

    /** Makes the platform read the catalog again; the registration stays as it is. */
    method Fetch(brokerID: string, c: Credentials) returns (ok: bool)
      modifies this`trace
      ensures trace == old(trace) + [BrokerCall(FetchCall, brokerID, c, ok)]
    {
      ok := *;
      trace := trace + [BrokerCall(FetchCall, brokerID, c, ok)];
    }

    method DeleteBroker(guid: string) returns (ok: bool)
      modifies this`regs, this`trace
      ensures regs == old(regs) - {guid} || (!ok && regs == old(regs))
      ensures trace == old(trace) + [DeleteCall(guid, ok)]
    {
      ok := *;
      var applied: bool := *;
      if ok || applied {
        regs := regs - {guid};
      }
      trace := trace + [DeleteCall(guid, ok)];
    }

    // ---- Access on the platform ----

    method GetVisibilitiesByBrokers(names: set<string>) returns (r: Option<seq<Visibility>>)
      modifies this`failedListings
      ensures r.Some? ==> GrantsOf(cfg, r.value) == Listed(cfg, grants, names)
      ensures r.Some? ==> forall i :: 0 <= i < |r.value| ==> Canonical(cfg, r.value[i])
      ensures failedListings == old(failedListings) + if r.Some? then 0 else 1
    {
      r := None;
      var ok := CanList();
      if ok {
        var list := VisibilitiesOf(Listed(cfg, grants, names));
        r := Some(list);
      }
    }

    method VisibilitiesOf(rights: set<Grant>) returns (list: seq<Visibility>)
      requires forall x :: x in rights ==> Listable(cfg, x)
      ensures GrantsOf(cfg, list) == rights
      ensures forall i :: 0 <= i < |list| ==> Canonical(cfg, list[i])
    {
      list := [];
      var todo := rights;
      while todo != {}
        invariant todo <= rights
        invariant GrantsOf(cfg, list) == rights - todo
        invariant forall i :: 0 <= i < |list| ==> Canonical(cfg, list[i])
        decreases |todo|
      {
        var x :| x in todo;
        ListableAsVisibility(cfg, x);
        GrantsOfAppend(cfg, list, VisibilityOf(x));
        assert rights - (todo - {x}) == rights - todo + {x};
        list := list + [VisibilityOf(x)];
        todo := todo - {x};
      }
    }

    method EnableAccessForPlan(brokerName: string, planID: string, labels: Labels) returns (ok: bool)
      modifies this`grants, this`trace
      ensures old(grants) <= grants <= old(grants) + GrantsFor(brokerName, planID, labels)
      ensures ok ==> grants == old(grants) + GrantsFor(brokerName, planID, labels)
      ensures trace == old(trace) + [Enable(GrantsFor(brokerName, planID, labels), ok)]
    {
      ok := *;
      var part: set<Grant> := *;
      var wanted := GrantsFor(brokerName, planID, labels);
      grants := grants + if ok then wanted else part * wanted;
      trace := trace + [Enable(wanted, ok)];
    }

    method DisableAccessForPlan(brokerName: string, planID: string, labels: Labels) returns (ok: bool)
      modifies this`grants, this`trace
      ensures old(grants) - GrantsFor(brokerName, planID, labels) <= grants <= old(grants)
      ensures ok ==> grants == old(grants) - GrantsFor(brokerName, planID, labels)
      ensures trace == old(trace) + [Disable(GrantsFor(brokerName, planID, labels), ok)]
    {
      ok := *;
      var part: set<Grant> := *;
      var unwanted := GrantsFor(brokerName, planID, labels);
      grants := grants - if ok then unwanted else part * unwanted;
      trace := trace + [Disable(unwanted, ok)];
    }
  }

  lemma ListingAppend(regs: map<string, Registration>, list: seq<ServiceBroker>, b: ServiceBroker)
    requires IsListing(regs, list) && b.guid !in regs
    ensures IsListing(regs[b.guid := Registration(b.name, b.url)], list + [b])
  {
    var longer := list + [b];
    GuidsAppend(list, b);
    assert longer[|list|] == b && forall i :: 0 <= i < |list| ==> longer[i] == list[i];
    forall i | 0 <= i < |list| ensures list[i].guid in regs && list[i].guid != b.guid {
    }
  }

  lemma GuidsAppend(list: seq<ServiceBroker>, b: ServiceBroker)
    ensures Guids(list + [b]) == Guids(list) + {b.guid}
  {
    var longer := list + [b];
    assert longer[|list|] == b;
    assert forall i :: 0 <= i < |list| ==> longer[i] == list[i];
  }

  lemma ListableAsVisibility(cfg: Config, x: Grant)
    requires Listable(cfg, x)
    ensures Canonical(cfg, VisibilityOf(x)) && GrantOf(cfg, VisibilityOf(x)) == x
  {
  }

  lemma GrantsOfAppend(cfg: Config, list: seq<Visibility>, v: Visibility)
    ensures GrantsOf(cfg, list + [v]) == GrantsOf(cfg, list) + {GrantOf(cfg, v)}
  {
    var longer := list + [v];
    assert longer[|list|] == v;
    assert forall i :: 0 <= i < |list| ==> longer[i] == list[i];
  }
}
