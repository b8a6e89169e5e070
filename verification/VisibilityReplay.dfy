/** Handling notifications about visibilities on a platform that a resync has taken ahead of them: each of them
    writes some rights and leaves the others alone, so replaying all that the resync had already seen does no harm. */
module VisibilityReplay {
  import opened Types
  import opened Naming
  import opened World
  import opened LabelChanges
  import opened Visibilities
  import opened VisibilityHandler
  import opened VisibilityUpdates
  import opened VisibilityTracking

  /** The plans of SM with their brokers, and the names of these on the platform. */
  datatype Catalog = Catalog(cfg: Config, plans: map<string, BrokerPlan>, names: set<string>)

  /** A visibility comes into SM's list at a position, changes there, or goes from there. */
  datatype Change =
    | Created(at: nat, v: SMVisibility, d: Details)
    | Modified(at: nat, v: SMVisibility, v': SMVisibility, p: Payload, add: Labels, remove: Labels)
    | Deleted(at: nat, v: SMVisibility, d: Details)

  function Granted(k: Catalog, vs: seq<SMVisibility>): set<Grant> {
    DesiredAll(k.cfg, vs, k.plans)
  }

  ghost predicate IsCatalog(k: Catalog) {
    forall id :: id in k.plans ==> ProxyNameOf(k.cfg, k.plans[id].broker) in k.names
  }

  /** The payload tells of the change, and what is added and removed is read from it. */
  ghost predicate Announces(k: Catalog, c: Change) {
    match c
    case Created(_, v, d) => Describes(k.cfg, d, v, k.plans, k.names)
    case Modified(_, v, v', p, add, remove) =>
      && Describes(k.cfg, p.before, v, k.plans, k.names) && Describes(k.cfg, p.after, v', k.plans, k.names)
      && PlatformBroker(k.cfg, p.before) == PlatformBroker(k.cfg, p.after)
      && Collects(p.labelChanges, true, add) && Collects(p.labelChanges, false, remove)
    case Deleted(_, v, d) => Describes(k.cfg, d, v, k.plans, k.names)
  }

  predicate Steps(vs: seq<SMVisibility>, c: Change, vs': seq<SMVisibility>) {
    match c
    case Created(i, v, _) => i <= |vs| && vs' == vs[..i] + [v] + vs[i..]
    case Modified(i, v, v', _, _, _) => i < |vs| && vs[i] == v && vs' == vs[..i] + [v'] + vs[i + 1..]
    case Deleted(i, v, _) => i < |vs| && vs[i] == v && vs' == vs[..i] + vs[i + 1..]
  }

  /** What all other visibilities grant. */
  function Others(k: Catalog, vs: seq<SMVisibility>, c: Change): set<Grant> {
    if c.Created? || c.at >= |vs| then Granted(k, vs) else Granted(k, vs[..c.at] + vs[c.at + 1..])
  }

  /** The condition under which the handler keeps the platform as SM wants it, about SM's list alone. */
  ghost predicate Agreeable(k: Catalog, vs: seq<SMVisibility>, c: Change)
    requires Announces(k, c)
  {
    var rest := Others(k, vs, c);
    match c
    case Created(_, v, d) =>
      var name := PlatformBroker(k.cfg, d);
      || Faithful(k.cfg, v)
      || ScopeRights(k.cfg, name, d.catalogPlanID, v.labels) + ForEveryone(name, d.catalogPlanID) <= rest
    case Modified(_, v, v', p, add, remove) =>
      var name := PlatformBroker(k.cfg, p.before);
      var alone := ShownAfterCalls(k.cfg, Desired(k.cfg, v, k.plans[v.planID]), name, p, add, remove);
      var wanted := Desired(k.cfg, v', k.plans[v'.planID]);
      Disabled(k.cfg, name, p, remove) !! rest && (wanted - alone) + (alone - wanted) <= rest
    case Deleted(_, v, d) =>
      var name := PlatformBroker(k.cfg, d);
      && Shown(k.cfg, name, d.catalogPlanID, v.labels) !! rest
      && (Faithful(k.cfg, v) || Grant(name, d.catalogPlanID, Everyone) in rest)
  }

  /** What the handler leaves if no call fails. */
  function Handle(k: Catalog, grants: set<Grant>, c: Change): set<Grant>
    requires c.Modified? ==> WellFormed(c.p)
    requires !c.Modified? ==> c.d.resource.Some?
  {
    match c
    case Created(_, _, d) => grants + GrantsOfDetails(k.cfg, d)
    case Modified(_, _, _, p, add, remove) => Updated(grants, PlatformBroker(k.cfg, p.before), p, add, remove)
    case Deleted(_, _, d) => grants - GrantsOfDetails(k.cfg, d)
  }

  // ---- The effect on what the platform shows ----

  /** Some rights are withdrawn, some given, and some withdrawn at last. */
  datatype Effect = Effect(less: set<Grant>, more: set<Grant>, last: set<Grant>)

  function Put(f: Effect, s: set<Grant>): set<Grant> {
    s - f.less + f.more - f.last
  }

  predicate Touches(f: Effect, x: Grant) {
    x in f.less || x in f.more || x in f.last
  }

  /** An effect writes the rights that it touches, whatever was there, and leaves the others. */
  lemma EffectWrites(f: Effect, s: set<Grant>, s': set<Grant>, x: Grant)
    ensures Touches(f, x) ==> (x in Put(f, s) <==> x in Put(f, s'))
    ensures !Touches(f, x) ==> (x in Put(f, s) <==> x in s)
  {
  }

  function EffectOf(k: Catalog, c: Change): Effect
    requires c.Modified? ==> WellFormed(c.p)
  {
    match c
    case Created(_, v, d) => Effect({}, Shown(k.cfg, PlatformBroker(k.cfg, d), d.catalogPlanID, v.labels), {})
    case Deleted(_, v, d) => Effect(Shown(k.cfg, PlatformBroker(k.cfg, d), d.catalogPlanID, v.labels), {}, {})
    case Modified(_, v, v', p, add, remove) =>
      var name := PlatformBroker(k.cfg, p.before);
      var plus, minus := ShownIfConcerned(k.cfg, name, p, add), ShownIfConcerned(k.cfg, name, p, remove);
      if !Moves(p) then Effect({}, plus, minus)
      else Effect(Shown(k.cfg, name, p.before.catalogPlanID, p.before.resource.value.labels),
                  Shown(k.cfg, name, p.after.catalogPlanID, p.after.resource.value.labels) + plus, minus)
  }

  lemma CallsAreEffect(k: Catalog, c: Change, shown: set<Grant>)
    requires c.Modified? && WellFormed(c.p)
    ensures ShownAfterCalls(k.cfg, shown, PlatformBroker(k.cfg, c.p.before), c.p, c.add, c.remove)
            == Put(EffectOf(k, c), shown)
  {
  }

  lemma HandleShows(k: Catalog, grants: set<Grant>, c: Change)
    requires Announces(k, c)
    ensures Listed(k.cfg, Handle(k, grants, c), k.names) == Put(EffectOf(k, c), Listed(k.cfg, grants, k.names))
  {
    match c
    case Created(_, v, d) =>
      ListedAfter(k.cfg, grants, GrantsOfDetails(k.cfg, d), {}, k.names);
      ShownIsListed(k.cfg, PlatformBroker(k.cfg, d), d.catalogPlanID, v.labels, k.names);
    case Modified(_, _, _, p, add, remove) =>
      ListedAfterCalls(k.cfg, grants, k.names, PlatformBroker(k.cfg, p.before), p, add, remove);
      CallsAreEffect(k, c, Listed(k.cfg, grants, k.names));
    case Deleted(_, v, d) =>
      ListedAfter(k.cfg, grants, {}, GrantsOfDetails(k.cfg, d), k.names);
      ShownIsListed(k.cfg, PlatformBroker(k.cfg, d), d.catalogPlanID, v.labels, k.names);
  }

  lemma GrantedIsListed(k: Catalog, vs: seq<SMVisibility>)
    requires IsCatalog(k)
    ensures Listed(k.cfg, Granted(k, vs), k.names) == Granted(k, vs)
  {
  }

  lemma CreatedEffect(k: Catalog, vs: seq<SMVisibility>, c: Change, vs': seq<SMVisibility>)
    requires c.Created? && Announces(k, c) && Steps(vs, c, vs') && Agreeable(k, vs, c)
    requires Listed(k.cfg, Granted(k, vs), k.names) == Granted(k, vs)
    ensures Listed(k.cfg, Handle(k, Granted(k, vs), c), k.names) == Granted(k, vs')
  {
    assert vs == vs[..c.at] + vs[c.at..];
    CreationKeepsTracking(k.cfg, Granted(k, vs), k.names, vs[..c.at], c.v, vs[c.at..], k.plans, c.d);
  }

  lemma ModifiedEffect(k: Catalog, vs: seq<SMVisibility>, c: Change, vs': seq<SMVisibility>)
    requires c.Modified? && Announces(k, c) && Steps(vs, c, vs') && Agreeable(k, vs, c)
    requires Listed(k.cfg, Granted(k, vs), k.names) == Granted(k, vs)
    ensures Listed(k.cfg, Handle(k, Granted(k, vs), c), k.names) == Granted(k, vs')
  {
    assert vs == vs[..c.at] + [c.v] + vs[c.at + 1..];
    AnyUpdateKeepsTracking(k.cfg, Granted(k, vs), k.names, vs[..c.at], c.v, c.v', vs[c.at + 1..], k.plans, c.p, c.add,
                           c.remove);
  }

  lemma DeletedEffect(k: Catalog, vs: seq<SMVisibility>, c: Change, vs': seq<SMVisibility>)
    requires c.Deleted? && Announces(k, c) && Steps(vs, c, vs') && Agreeable(k, vs, c)
    requires Listed(k.cfg, Granted(k, vs), k.names) == Granted(k, vs)
    ensures Listed(k.cfg, Handle(k, Granted(k, vs), c), k.names) == Granted(k, vs')
  {
    assert vs == vs[..c.at] + [c.v] + vs[c.at + 1..];
    DeletionKeepsTracking(k.cfg, Granted(k, vs), k.names, vs[..c.at], c.v, vs[c.at + 1..], k.plans, c.d);
  }

  /** On a platform that shows what SM grants, an agreeable change has just the effect of SM's own step. */
  lemma AgreeableEffect(k: Catalog, vs: seq<SMVisibility>, c: Change, vs': seq<SMVisibility>)
    requires IsCatalog(k) && Announces(k, c) && Steps(vs, c, vs') && Agreeable(k, vs, c)
    ensures Put(EffectOf(k, c), Granted(k, vs)) == Granted(k, vs')
  {
    GrantedIsListed(k, vs);
    HandleShows(k, Granted(k, vs), c);
    match c
    case Created(_, _, _) => CreatedEffect(k, vs, c, vs');
    case Modified(_, _, _, _, _, _) => ModifiedEffect(k, vs, c, vs');
    case Deleted(_, _, _) => DeletedEffect(k, vs, c, vs');
  }

  // ---- Replay ----

  /** One entry of SM's log: a change of a visibility, or something that leaves all visibilities as they are. */
  ghost predicate Fits(k: Catalog, vs: seq<SMVisibility>, c: Option<Change>, vs': seq<SMVisibility>) {
    match c
    case None => vs' == vs
    case Some(change) => Announces(k, change) && Steps(vs, change, vs') && Agreeable(k, vs, change)
  }

  ghost predicate IsHistory(k: Catalog, history: seq<seq<SMVisibility>>, changes: seq<Option<Change>>) {
    && IsCatalog(k) && |history| == |changes| + 1
    && forall t: nat :: t < |changes| ==> Fits(k, history[t], changes[t], history[t + 1])
  }

  ghost function EffectAt(k: Catalog, c: Option<Change>): Effect {
    if c.Some? && (c.value.Modified? ==> WellFormed(c.value.p)) then EffectOf(k, c.value) else Effect({}, {}, {})
  }

  lemma HistoryEffect(k: Catalog, history: seq<seq<SMVisibility>>, changes: seq<Option<Change>>, t: nat)
    requires IsHistory(k, history, changes) && t < |changes|
    ensures Put(EffectAt(k, changes[t]), Granted(k, history[t])) == Granted(k, history[t + 1])
  {
    assert Fits(k, history[t], changes[t], history[t + 1]);
    if changes[t].Some? {
      AgreeableEffect(k, history[t], changes[t].value, history[t + 1]);
    }
  }

  ghost predicate Untouched(k: Catalog, changes: seq<Option<Change>>, a: nat, c: nat, x: Grant)
    requires c <= |changes|
  {
    forall t :: a <= t < c ==> !Touches(EffectAt(k, changes[t]), x)
  }

  /** The platform shows each right as SM had it after `c` changes, or, if no change from `a` on has touched it, as
      SM has it after `seen` changes. */
  ghost predicate ShowsBetween(k: Catalog, history: seq<seq<SMVisibility>>, changes: seq<Option<Change>>, a: nat,
                               c: nat, seen: nat, shown: set<Grant>)
    requires c <= |changes| && seen <= |changes| && |history| == |changes| + 1
  {
    forall x ::
      || (x in shown <==> x in Granted(k, history[c]))
      || (Untouched(k, changes, a, c, x) && (x in shown <==> x in Granted(k, history[seen])))
  }

  /** The changes from `a` to before `c` were handled on a platform that a resync had taken to where SM was after
      `seen`. */
  ghost predicate Shows(k: Catalog, history: seq<seq<SMVisibility>>, changes: seq<Option<Change>>, a: nat, c: nat,
                        seen: nat, shown: set<Grant>)
  {
    && c <= |changes| && seen <= |changes| && |history| == |changes| + 1
    && if c < seen then ShowsBetween(k, history, changes, a, c, seen, shown) else shown == Granted(k, history[c])
  }

  lemma ReplayStarts(k: Catalog, history: seq<seq<SMVisibility>>, changes: seq<Option<Change>>, a: nat, seen: nat)
    requires a <= seen <= |changes| && |history| == |changes| + 1
    ensures Shows(k, history, changes, a, a, seen, Granted(k, history[seen]))
  {
  }

  lemma RightAfterStep(k: Catalog, history: seq<seq<SMVisibility>>, changes: seq<Option<Change>>, a: nat, c: nat,
                       seen: nat, shown: set<Grant>, x: Grant)
    requires IsHistory(k, history, changes) && a <= c < seen <= |changes|
    requires ShowsBetween(k, history, changes, a, c, seen, shown)
    ensures var shown' := Put(EffectAt(k, changes[c]), shown);
            || (x in shown' <==> x in Granted(k, history[c + 1]))
            || (Untouched(k, changes, a, c + 1, x) && (x in shown' <==> x in Granted(k, history[seen])))
  {
    var f := EffectAt(k, changes[c]);
    HistoryEffect(k, history, changes, c);
    EffectWrites(f, shown, Granted(k, history[c]), x);
    EffectWrites(f, Granted(k, history[c]), shown, x);
  }

  /** One more change: from before the resync's view the replay comes ever closer to it, and from there on the
      platform shows what SM grants at each point. */
  lemma ReplayGoesOn(k: Catalog, history: seq<seq<SMVisibility>>, changes: seq<Option<Change>>, a: nat, c: nat,
                     seen: nat, shown: set<Grant>)
    requires IsHistory(k, history, changes) && a <= c < |changes| && Shows(k, history, changes, a, c, seen, shown)
    ensures Shows(k, history, changes, a, c + 1, seen, Put(EffectAt(k, changes[c]), shown))
  {
    var shown' := Put(EffectAt(k, changes[c]), shown);
    if c < seen {
      forall x
        ensures || (x in shown' <==> x in Granted(k, history[c + 1]))
                || (Untouched(k, changes, a, c + 1, x) && (x in shown' <==> x in Granted(k, history[seen])))
      {
        RightAfterStep(k, history, changes, a, c, seen, shown, x);
      }
      if c + 1 == seen {
        assert forall x :: x in shown' <==> x in Granted(k, history[seen]);
      }
    } else {
      HistoryEffect(k, history, changes, c);
    }
  }
}
