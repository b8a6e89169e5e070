/** What SM's log tells, entry by entry, and what becomes of the platform when its entries are handled one after
    another behind a resync. */
module Stories {
  import opened Types
  import World
  import B = BrokerHandler
  import R = BrokerReplay
  import V = VisibilityReplay

  type Registrations = map<string, Registration>

  // ---- Brokers ----

  /** SM's brokers: change `t` leads from state `t` to the next. */
  datatype BrokerStory = BrokerStory(cfg: Config, sm: seq<R.SMBrokers>, changes: seq<B.Change>,
                                     brokers: set<ServiceBroker>, length: nat)

  ghost predicate ChangeFits(w: BrokerStory, t: nat)
    requires |w.sm| == |w.changes| + 1 && t < |w.changes|
  {
    R.Steps(w.sm[t], w.changes[t], w.sm[t + 1]) && R.BrokersIn(w.changes[t]) <= w.brokers
  }

  ghost predicate IsBrokerStory(w: BrokerStory) {
    && |w.sm| == |w.changes| + 1 && (forall t: nat :: t < |w.changes| ==> ChangeFits(w, t))
    && R.SameLengthIDs(w.brokers, w.length) && R.NoReuse(w.changes)
  }

  ghost predicate HandledAs(w: BrokerStory, t: nat, before: Registrations, after: Registrations) {
    t < |w.changes| && B.Handled(w.cfg, before, w.changes[t], after) && R.Replayable(w.cfg, before, w.changes[t])
  }

  ghost predicate BrokersResyncedTo(w: BrokerStory, seen: nat, after: Registrations) {
    seen < |w.sm| && R.Tracks(w.cfg, after, R.Wanted(w.cfg, w.sm[seen])) && R.Genuine(w.cfg, after, w.brokers)
  }

  ghost predicate HandledAt(w: BrokerStory, a: nat, regs: seq<Registrations>, t: nat) {
    a <= t && t - a + 1 < |regs| && HandledAs(w, t, regs[t - a], regs[t - a + 1])
  }

  /** The changes from `a` to before `c` were handled one after another, from what a resync left that had seen `k`. */
  ghost predicate IsReplayFrom(w: BrokerStory, a: nat, c: nat, k: nat, regs: seq<Registrations>) {
    && a <= k && a <= c && |regs| == c - a + 1 && BrokersResyncedTo(w, k, regs[0])
    && forall t: nat :: a <= t < c ==> HandledAt(w, a, regs, t)
  }

  lemma HandledOneMore(w: BrokerStory, a: nat, c: nat, k: nat, regs: seq<Registrations>, after: Registrations)
    requires IsReplayFrom(w, a, c, k, regs) && HandledAs(w, c, Back(regs), after)
    ensures IsReplayFrom(w, a, c + 1, k, regs + [after])
  {
    var longer := regs + [after];
    forall t: nat | a <= t < c + 1 ensures HandledAt(w, a, longer, t) {
      if t < c {
        assert HandledAt(w, a, regs, t);
        assert longer[t - a] == regs[t - a] && longer[t - a + 1] == regs[t - a + 1];
      } else {
        assert longer[t - a] == Back(regs) && longer[t - a + 1] == after;
      }
    }
  }

  /** These are the states and changes of SM from `a` on. */
  predicate IsSlice(w: BrokerStory, a: nat, sm: seq<R.SMBrokers>, changes: seq<B.Change>) {
    && |sm| == |changes| + 1 && a + |sm| <= |w.sm| && a + |changes| <= |w.changes|
    && sm == w.sm[a..a + |sm|] && changes == w.changes[a..a + |changes|]
  }

  lemma SliceIsReplay(w: BrokerStory, a: nat, k: nat, regs: seq<Registrations>, sm: seq<R.SMBrokers>,
                      changes: seq<B.Change>)
    requires IsBrokerStory(w) && IsSlice(w, a, sm, changes) && IsReplayFrom(w, a, a + |changes|, k, regs)
    ensures R.IsReplay(w.cfg, sm, changes, regs)
  {
    forall t: nat | t < |changes| ensures R.ReplayedAt(w.cfg, sm, changes, regs, t) {
      assert ChangeFits(w, a + t) && HandledAt(w, a, regs, a + t);
    }
  }

  lemma SliceIsReplayable(w: BrokerStory, a: nat, k: nat, regs: seq<Registrations>, sm: seq<R.SMBrokers>,
                          changes: seq<B.Change>, t: nat)
    requires IsBrokerStory(w) && IsSlice(w, a, sm, changes) && IsReplayFrom(w, a, a + |changes|, k, regs)
             && t < |changes|
    ensures R.BrokersIn(changes[t]) <= w.brokers && R.Replayable(w.cfg, regs[t], changes[t])
  {
    assert ChangeFits(w, a + t) && HandledAt(w, a, regs, a + t);
  }

  lemma SliceReusesNothing(w: BrokerStory, a: nat, sm: seq<R.SMBrokers>, changes: seq<B.Change>)
    requires IsBrokerStory(w) && IsSlice(w, a, sm, changes)
    ensures R.NoReuse(changes)
  {
  }

  lemma SliceStartsAhead(w: BrokerStory, a: nat, k: nat, regs: seq<Registrations>, sm: seq<R.SMBrokers>,
                         changes: seq<B.Change>)
    requires IsBrokerStory(w) && IsSlice(w, a, sm, changes) && IsReplayFrom(w, a, a + |changes|, k, regs)
    requires k <= a + |changes|
    ensures R.StartsAhead(w.cfg, sm, changes, regs, k - a, w.brokers, w.length)
  {
    forall t | 0 <= t < |changes|
      ensures R.BrokersIn(changes[t]) <= w.brokers && R.Replayable(w.cfg, regs[t], changes[t])
    {
      SliceIsReplayable(w, a, k, regs, sm, changes, t);
    }
    SliceReusesNothing(w, a, sm, changes);
    assert sm[k - a] == w.sm[k];
  }

  lemma ReplayedTracks(w: BrokerStory, a: nat, c: nat, k: nat, regs: seq<Registrations>)
    requires IsBrokerStory(w) && IsReplayFrom(w, a, c, k, regs) && k <= c <= |w.changes|
    ensures R.Tracks(w.cfg, Back(regs), R.Wanted(w.cfg, w.sm[c]))
  {
    var sm, changes := w.sm[a..c + 1], w.changes[a..c];
    SliceIsReplay(w, a, k, regs, sm, changes);
    SliceStartsAhead(w, a, k, regs, sm, changes);
    R.ReplayTracks(w.cfg, sm, changes, regs, k - a, w.brokers, w.length, c - a);
  }

  // ---- The log ----

  /** What SM announces with one revision: a change of a broker, a change of a visibility, or something that has no
      handler. */
  datatype Entry = OfBroker(broker: B.Change) | OfVisibility(visibility: V.Change) | Other

  datatype Platform = Platform(regs: Registrations, grants: set<Grant>)

  function BrokerChanges(entries: seq<Entry>): seq<B.Change> {
    if entries == [] then []
    else
      var last := entries[|entries| - 1];
      BrokerChanges(entries[..|entries| - 1]) + if last.OfBroker? then [last.broker] else []
  }

  function VisibilityChanges(entries: seq<Entry>): seq<Option<V.Change>> {
    seq(|entries|, t requires 0 <= t < |entries| =>
      if entries[t].OfVisibility? then Some(entries[t].visibility) else None)
  }

  /** SM's brokers change with the entries about brokers, its visibilities with those about visibilities; the plans
      of its brokers and their names on the platform, which the catalog holds, stay as they are. */
  datatype Story = Story(entries: seq<Entry>, ofBrokers: BrokerStory, catalog: V.Catalog,
                         visibilities: seq<seq<SMVisibility>>)

  ghost predicate IsStory(w: Story) {
    && IsBrokerStory(w.ofBrokers) && w.ofBrokers.changes == BrokerChanges(w.entries) && w.catalog.cfg == w.ofBrokers.cfg
    && V.IsHistory(w.catalog, w.visibilities, VisibilityChanges(w.entries))
  }

  /** How many of the first `n` entries are about brokers. */
  function Count(w: Story, n: nat): nat
    requires n <= |w.entries|
  {
    |BrokerChanges(w.entries[..n])|
  }

  /** SM's brokers after the first `n` entries. */
  function BrokersAfter(w: Story, n: nat): R.SMBrokers
    requires IsStory(w) && n <= |w.entries|
  {
    CountInRange(w, n);
    w.ofBrokers.sm[Count(w, n)]
  }

  lemma CountStep(entries: seq<Entry>, n: nat)
    requires n < |entries|
    ensures BrokerChanges(entries[..n + 1])
         == BrokerChanges(entries[..n]) + if entries[n].OfBroker? then [entries[n].broker] else []
  {
    assert entries[..n + 1][..n] == entries[..n];
  }

  lemma {:induction false} CountGrows(entries: seq<Entry>, m: nat, n: nat)
    requires m <= n <= |entries|
    ensures BrokerChanges(entries[..m]) <= BrokerChanges(entries[..n])
    decreases n - m
  {
    if m < n {
      CountGrows(entries, m, n - 1);
      CountStep(entries, n - 1);
    }
  }

  lemma CountInRange(w: Story, n: nat)
    requires IsStory(w) && n <= |w.entries|
    ensures Count(w, n) < |w.ofBrokers.sm|
  {
    CountGrows(w.entries, n, |w.entries|);
    assert w.entries[..|w.entries|] == w.entries;
  }

  // ---- The platform ----

  ghost function GrantedAfter(w: Story, n: nat): set<Grant>
    requires n < |w.visibilities|
  {
    V.Granted(w.catalog, w.visibilities[n])
  }

  function ShownFor(w: Story, p: Platform): set<Grant> {
    World.Listed(w.catalog.cfg, p.grants, w.catalog.names)
  }

  /** Entry `t` was handled without a failing call. */
  ghost predicate Consumed(w: Story, t: nat, before: Platform, after: Platform) {
    && t < |w.entries|
    && match w.entries[t]
       case OfBroker(_) => HandledAs(w.ofBrokers, Count(w, t), before.regs, after.regs) && after.grants == before.grants
       case OfVisibility(c) =>
         V.Announces(w.catalog, c) && after.grants == V.Handle(w.catalog, before.grants, c) && after.regs == before.regs
       case Other => after == before
  }

  /** A resync left what SM wanted after `seen` entries: its brokers' proxies and the rights of its visibilities. */
  ghost predicate ResyncedTo(w: Story, seen: nat, after: Platform) {
    && seen <= |w.entries| && seen < |w.visibilities|
    && BrokersResyncedTo(w.ofBrokers, Count(w, seen), after.regs) && ShownFor(w, after) == GrantedAfter(w, seen)
  }

  /** The entries from `a` to before `c` were handled one after another, from what a resync left that had seen
      `seen`. */
  ghost predicate ReachedProxies(w: Story, a: nat, c: nat, seen: nat, regs: Registrations) {
    && a <= seen <= |w.entries| && a <= c <= |w.entries|
    && exists all :: IsReplayFrom(w.ofBrokers, Count(w, a), Count(w, c), Count(w, seen), all) && Back(all) == regs
  }

  ghost predicate ReachedRights(w: Story, a: nat, c: nat, seen: nat, shown: set<Grant>) {
    V.Shows(w.catalog, w.visibilities, VisibilityChanges(w.entries), a, c, seen, shown)
  }

  ghost predicate ReachedFrom(w: Story, a: nat, c: nat, seen: nat, p: Platform) {
    ReachedProxies(w, a, c, seen, p.regs) && ReachedRights(w, a, c, seen, ShownFor(w, p))
  }

  ghost predicate Reached(w: Story, c: nat, covered: nat, p: Platform) {
    exists a: nat, seen: nat :: ReachedFrom(w, a, c, seen, p) && seen <= covered
  }

  lemma ReplayBegins(w: Story, a: nat, seen: nat, covered: nat, p: Platform)
    requires IsStory(w) && a <= seen <= covered && ResyncedTo(w, seen, p)
    ensures Reached(w, a, covered, p)
  {
    CountGrows(w.entries, a, seen);
    assert IsReplayFrom(w.ofBrokers, Count(w, a), Count(w, a), Count(w, seen), [p.regs]) && Back([p.regs]) == p.regs;
    V.ReplayStarts(w.catalog, w.visibilities, VisibilityChanges(w.entries), a, seen);
    assert ReachedFrom(w, a, a, seen, p);
  }

  lemma ProxiesGoOn(w: Story, a: nat, c: nat, seen: nat, p: Platform, p': Platform)
    requires IsStory(w) && ReachedProxies(w, a, c, seen, p.regs) && Consumed(w, c, p, p')
    ensures ReachedProxies(w, a, c + 1, seen, p'.regs)
  {
    var all :| IsReplayFrom(w.ofBrokers, Count(w, a), Count(w, c), Count(w, seen), all) && Back(all) == p.regs;
    CountStep(w.entries, c);
    if w.entries[c].OfBroker? {
      HandledOneMore(w.ofBrokers, Count(w, a), Count(w, c), Count(w, seen), all, p'.regs);
      assert Back(all + [p'.regs]) == p'.regs;
    }
  }

  lemma RightsGoOn(w: Story, a: nat, c: nat, seen: nat, p: Platform, p': Platform)
    requires IsStory(w) && a <= c && ReachedRights(w, a, c, seen, ShownFor(w, p)) && Consumed(w, c, p, p')
    ensures ReachedRights(w, a, c + 1, seen, ShownFor(w, p'))
  {
    var changes := VisibilityChanges(w.entries);
    V.ReplayGoesOn(w.catalog, w.visibilities, changes, a, c, seen, ShownFor(w, p));
    if w.entries[c].OfVisibility? {
      V.HandleShows(w.catalog, p.grants, w.entries[c].visibility);
      EffectOfEntry(w, c);
    }
  }

  lemma EffectOfEntry(w: Story, c: nat)
    requires c < |w.entries| && w.entries[c].OfVisibility? && V.Announces(w.catalog, w.entries[c].visibility)
    ensures V.EffectAt(w.catalog, VisibilityChanges(w.entries)[c]) == V.EffectOf(w.catalog, w.entries[c].visibility)
  {
  }

  lemma EntryGoesOn(w: Story, c: nat, covered: nat, p: Platform, p': Platform)
    requires IsStory(w) && Reached(w, c, covered, p) && Consumed(w, c, p, p')
    ensures Reached(w, c + 1, covered, p')
  {
    var a: nat, seen: nat :| ReachedFrom(w, a, c, seen, p) && seen <= covered;
    ProxiesGoOn(w, a, c, seen, p, p');
    RightsGoOn(w, a, c, seen, p, p');
    assert ReachedFrom(w, a, c + 1, seen, p');
  }

  /** The proxies and the rights on the platform are those that SM wants after `n` entries. */
  ghost predicate Agree(w: Story, n: nat, p: Platform)
    requires IsStory(w) && n <= |w.entries|
  {
    && R.Tracks(w.catalog.cfg, p.regs, R.Wanted(w.catalog.cfg, BrokersAfter(w, n)))
    && ShownFor(w, p) == GrantedAfter(w, n)
  }

  lemma CaughtUp(w: Story, c: nat, covered: nat, p: Platform)
    requires IsStory(w) && Reached(w, c, covered, p) && covered <= c <= |w.entries|
    ensures Agree(w, c, p)
  {
    var a: nat, seen: nat :| ReachedFrom(w, a, c, seen, p) && seen <= covered;
    var all :| IsReplayFrom(w.ofBrokers, Count(w, a), Count(w, c), Count(w, seen), all) && Back(all) == p.regs;
    CountGrows(w.entries, seen, c);
    CountInRange(w, c);
    ReplayedTracks(w.ofBrokers, Count(w, a), Count(w, c), Count(w, seen), all);
  }
}
