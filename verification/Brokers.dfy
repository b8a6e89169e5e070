/** The broker half of a resync: the brokers on the platform are indexed, compared with what SM wants, and brought in
    line by update, fetch, create and delete tasks. */
module Brokers {
  import opened Types
  import opened Naming
  import opened World
  import opened Indexing
  import opened TaskPool

  datatype BrokerTask =
    | UpdateTask(guid: string, broker: ServiceBroker, proxyName: string)
    | FetchTask(guid: string, broker: ServiceBroker, proxyName: string)
    | CreateTask(broker: ServiceBroker, proxyName: string)
    | DeleteTask(registered: ServiceBroker)

  /** The registration is the proxy of this broker, under its proxy name and the current URL of the proxy. */
  predicate Hosts(cfg: Config, r: Registration, d: ServiceBroker) {
    cfg.smPath <= r.url && BrokerIDFromURL(r.url) == d.guid && r.name == ProxyNameOf(cfg, d)
  }

  // ---- Planning ----

  function ProxyIDOf(cfg: Config): ServiceBroker -> Option<string> {
    (b: ServiceBroker) => if IsProxyURL(cfg, b.url) then Some(BrokerIDFromURL(b.url)) else None
  }

  function TakeoverKeyOf(): ServiceBroker -> Option<string> {
    (b: ServiceBroker) => Some(BrokerKey(b))
  }

  /** The proxies on the platform by the id of the broker they stand for. */
  function Proxies(cfg: Config, existing: seq<ServiceBroker>): map<string, ServiceBroker> {
    Index(existing, ProxyIDOf(cfg))
  }

  function TakeoverCandidates(existing: seq<ServiceBroker>): map<string, ServiceBroker> {
    Index(existing, TakeoverKeyOf())
  }

  function TaskIfTakenOver(cfg: Config, d: ServiceBroker, e: ServiceBroker): BrokerTask {
    if e.name != ProxyNameOf(cfg, d) || !(cfg.smPath <= e.url) then UpdateTask(e.guid, d, ProxyNameOf(cfg, d))
    else FetchTask(e.guid, d, ProxyNameOf(cfg, d))
  }

  function TaskIfNotTakenOver(cfg: Config, d: ServiceBroker, candidates: map<string, ServiceBroker>)
    : Option<BrokerTask>
  {
    if BrokerKey(d) !in candidates then Some(CreateTask(d, ProxyNameOf(cfg, d)))
    else if cfg.takeoverEnabled then Some(UpdateTask(candidates[BrokerKey(d)].guid, d, ProxyNameOf(cfg, d)))
    else None
  }

  /** What is to be done for a broker of SM; nothing if it could be taken over but that is disabled. */
  function TaskFor(cfg: Config, proxies: map<string, ServiceBroker>, candidates: map<string, ServiceBroker>,
                   d: ServiceBroker): Option<BrokerTask>
  {
    if d.guid in proxies then Some(TaskIfTakenOver(cfg, d, proxies[d.guid])) else TaskIfNotTakenOver(cfg, d, candidates)
  }

  /** A proxy is used up by the first desired broker that claims it. */
  function DesiredTasks(cfg: Config, proxies: map<string, ServiceBroker>, candidates: map<string, ServiceBroker>,
                        desired: seq<ServiceBroker>): seq<BrokerTask>
  {
    if desired == [] then []
    else
      var init, d := desired[..|desired| - 1], desired[|desired| - 1];
      DesiredTasks(cfg, proxies, candidates, init) + AsList(TaskFor(cfg, proxies - Guids(init), candidates, d))
  }

  /** The proxies that no desired broker claims. */
  function Orphans(cfg: Config, existing: seq<ServiceBroker>, desired: seq<ServiceBroker>): map<string, ServiceBroker> {
    Proxies(cfg, existing) - Guids(desired)
  }

  function Plan(cfg: Config, existing: seq<ServiceBroker>, desired: seq<ServiceBroker>): seq<BrokerTask> {
    DesiredTasks(cfg, Proxies(cfg, existing), TakeoverCandidates(existing), desired)
  }

  /** Whatever else is on the platform, after the task the broker has its proxy there. */
  ghost predicate MakesHosted(cfg: Config, t: BrokerTask, d: ServiceBroker) {
    forall regs: map<string, Registration> ::
      var outcome := OutcomeOf(cfg, regs, t); outcome.Some? ==> Hosts(cfg, outcome.value, d)
  }

  lemma WrittenIsHosted(cfg: Config, d: ServiceBroker)
    requires '/' !in d.guid
    ensures Hosts(cfg, Registration(ProxyNameOf(cfg, d), ProxyPath(cfg, d.guid)), d)
  {
    BrokerIDRoundTrip(cfg.smPath, d.guid);
    assert ProxyPath(cfg, d.guid)[..|cfg.smPath|] == cfg.smPath;
  }

  /** A proxy that already hosts its broker only gets its catalog read again; any other becomes one that does. */
  method ResyncTakenOverBroker(cfg: Config, d: ServiceBroker, e: ServiceBroker) returns (task: BrokerTask)
    ensures task == TaskIfTakenOver(cfg, d, e)
    ensures (task.FetchTask? || task.UpdateTask?) && task.guid == e.guid
    ensures BrokerIDFromURL(e.url) == d.guid ==> (task.FetchTask? <==> Hosts(cfg, Registration(e.name, e.url), d))
    ensures '/' !in d.guid && task.UpdateTask? ==> MakesHosted(cfg, task, d)
  {
    var proxyName := ProxyNameOf(cfg, d);
    if e.name != proxyName || !(cfg.smPath <= e.url) {
      task := UpdateTask(e.guid, d, proxyName);
    } else {
      task := FetchTask(e.guid, d, proxyName);
    }
    if '/' !in d.guid {
      WrittenIsHosted(cfg, d);
    }
  }

  /** A broker without a proxy takes over the registration with its key, if that is enabled; it gets a new one only
      if there is none with its key. */
  method ResyncNotTakenOverBroker(cfg: Config, d: ServiceBroker, brokerKeyMap: map<string, ServiceBroker>)
    returns (tasks: seq<BrokerTask>)
    ensures tasks == AsList(TaskIfNotTakenOver(cfg, d, brokerKeyMap))
    ensures |tasks| <= 1 && (tasks == [] <==> BrokerKey(d) in brokerKeyMap && !cfg.takeoverEnabled)
    ensures tasks != [] ==> (tasks[0].CreateTask? <==> BrokerKey(d) !in brokerKeyMap)
    ensures tasks != [] && !tasks[0].CreateTask? ==>
              tasks[0].UpdateTask? && tasks[0].guid == brokerKeyMap[BrokerKey(d)].guid
    ensures '/' !in d.guid && tasks != [] ==> MakesHosted(cfg, tasks[0], d)
  {
    var key, proxyName := BrokerKey(d), ProxyNameOf(cfg, d);
    tasks := [];
    if key in brokerKeyMap {
      if cfg.takeoverEnabled {
        tasks := [UpdateTask(brokerKeyMap[key].guid, d, proxyName)];
      }
    } else {
      tasks := [CreateTask(d, proxyName)];
    }
    if '/' !in d.guid {
      WrittenIsHosted(cfg, d);
    }
  }

  function AsList(t: Option<BrokerTask>): seq<BrokerTask> {
    if t.Some? then [t.value] else []
  }

  method ResyncBroker(cfg: Config, d: ServiceBroker, proxyBrokerIDMap: map<string, ServiceBroker>,
                      brokerKeyMap: map<string, ServiceBroker>) returns (tasks: seq<BrokerTask>)
    ensures tasks == AsList(TaskFor(cfg, proxyBrokerIDMap, brokerKeyMap, d))
  {
    var alreadyTakenOver := d.guid in proxyBrokerIDMap;
    if alreadyTakenOver {
      var task := ResyncTakenOverBroker(cfg, d, proxyBrokerIDMap[d.guid]);
      tasks := [task];
    } else {
      tasks := ResyncNotTakenOverBroker(cfg, d, brokerKeyMap);
    }
  }

  /** The tasks in the order in which they are scheduled, and the proxies that are left over to be deleted. */
  method PlanBrokers(cfg: Config, existing: seq<ServiceBroker>, desired: seq<ServiceBroker>)
    returns (tasks: seq<BrokerTask>, orphans: map<string, ServiceBroker>)
    ensures tasks == Plan(cfg, existing, desired)
    ensures orphans == Orphans(cfg, existing, desired)
  {
    var brokerKeyMap := IndexBy(existing, TakeoverKeyOf());
    var proxyBrokerIDMap := IndexBy(existing, ProxyIDOf(cfg));
    ghost var proxies := proxyBrokerIDMap;
    tasks := [];
    for i := 0 to |desired|
      invariant proxyBrokerIDMap == proxies - Guids(desired[..i])
      invariant tasks == DesiredTasks(cfg, proxies, brokerKeyMap, desired[..i])
    {
      var d := desired[i];
      var more := ResyncBroker(cfg, d, proxyBrokerIDMap, brokerKeyMap);
      PlanNext(cfg, proxies, brokerKeyMap, desired, i);
      proxyBrokerIDMap := proxyBrokerIDMap - {d.guid};
      tasks := tasks + more;
    }
    assert desired[..|desired|] == desired;
    orphans := proxyBrokerIDMap;
  }

  lemma PlanNext(cfg: Config, proxies: map<string, ServiceBroker>, candidates: map<string, ServiceBroker>,
                 desired: seq<ServiceBroker>, i: nat)
    requires i < |desired|
    ensures DesiredTasks(cfg, proxies, candidates, desired[..i + 1])
         == DesiredTasks(cfg, proxies, candidates, desired[..i])
            + AsList(TaskFor(cfg, proxies - Guids(desired[..i]), candidates, desired[i]))
    ensures proxies - Guids(desired[..i + 1]) == proxies - Guids(desired[..i]) - {desired[i].guid}
  {
    assert desired[..i + 1][..i] == desired[..i];
    GuidsOneMore(desired, i);
  }

  lemma GuidsOneMore(list: seq<ServiceBroker>, i: nat)
    requires i < |list|
    ensures Guids(list[..i + 1]) == Guids(list[..i]) + {list[i].guid}
  {
  }

  // ---- The tasks as calls to the platform ----

  /** The platform id that a task is about. `newGuid` gives the id that the platform will choose for a new broker. */
  function TargetOf(newGuid: string -> string, t: BrokerTask): string {
    match t
    case UpdateTask(guid, _, _) => guid
    case FetchTask(guid, _, _) => guid
    case CreateTask(d, _) => newGuid(d.guid)
    case DeleteTask(e) => e.guid
  }

  /** What the platform holds under that id once the task has had its effect; a fetch leaves it as it is. */
  function OutcomeOf(cfg: Config, regs: map<string, Registration>, t: BrokerTask): Option<Registration> {
    match t
    case UpdateTask(_, d, name) => Some(Registration(name, ProxyPath(cfg, d.guid)))
    case FetchTask(guid, _, _) => TaskPool.Lookup(regs, guid)
    case CreateTask(d, name) => Some(Registration(name, ProxyPath(cfg, d.guid)))
    case DeleteTask(_) => None
  }

  ghost predicate AreCalls(cfg: Config, regs: map<string, Registration>, newGuid: string -> string,
                           tasks: seq<BrokerTask>, calls: seq<Task<string, Registration>>)
  {
    && |calls| == |tasks|
    && forall i :: 0 <= i < |tasks| ==>
         && calls[i].key == TargetOf(newGuid, tasks[i])
         && calls[i].value == OutcomeOf(cfg, regs, tasks[i])
         && (calls[i].ok ==> calls[i].applied)
  }

  /** `deletions` schedules every orphan, in some order. */
  ghost predicate Deletes(orphans: map<string, ServiceBroker>, deletions: seq<BrokerTask>) {
    && (forall t :: t in deletions ==> t.DeleteTask? && t.registered in orphans.Values)
    && (forall e :: e in orphans.Values ==> DeleteTask(e) in deletions)
  }

  ghost predicate Known(existing: seq<ServiceBroker>, key: string) {
    exists e :: e in existing && BrokerKey(e) == key
  }

  lemma KnownIsIndexed(existing: seq<ServiceBroker>, key: string)
    ensures Known(existing, key) <==> key in TakeoverCandidates(existing)
  {
    IndexHoldsTheLast(existing, TakeoverKeyOf());
    if key in TakeoverCandidates(existing) {
      var i :| IsLast(existing, TakeoverKeyOf(), key, i);
      assert existing[i] in existing && BrokerKey(existing[i]) == key;
    }
  }

  /** The proxy of the broker that is listed last hosts it. */
  ghost predicate HostedByLast(cfg: Config, existing: seq<ServiceBroker>, d: ServiceBroker) {
    exists i :: IsLast(existing, ProxyIDOf(cfg), d.guid, i)
         && Hosts(cfg, Registration(existing[i].name, existing[i].url), d)
  }

  lemma HostIsIndexed(cfg: Config, existing: seq<ServiceBroker>, d: ServiceBroker)
    requires d.guid in Proxies(cfg, existing)
    ensures HostedByLast(cfg, existing, d) <==> TaskIfTakenOver(cfg, d, Proxies(cfg, existing)[d.guid]).FetchTask?
  {
    IndexHoldsTheLast(existing, ProxyIDOf(cfg));
    var i :| IsLast(existing, ProxyIDOf(cfg), d.guid, i) && Proxies(cfg, existing)[d.guid] == existing[i];
    assert ProxyIDOf(cfg)(existing[i]) == Some(d.guid);
    assert forall j :: IsLast(existing, ProxyIDOf(cfg), d.guid, j) ==> j == i;
  }

  lemma TaskCases(cfg: Config, d: ServiceBroker, proxies: map<string, ServiceBroker>,
                  candidates: map<string, ServiceBroker>, alone: bool, known: bool, hosted: bool)
    requires alone <==> d.guid !in proxies
    requires known <==> BrokerKey(d) in candidates
    requires !alone ==> (hosted <==> TaskIfTakenOver(cfg, d, proxies[d.guid]).FetchTask?)
    ensures var t := TaskFor(cfg, proxies, candidates, d);
            && (t.Some? && t.value.CreateTask? <==> alone && !known)
            && (t.None? <==> alone && known && !cfg.takeoverEnabled)
            && (t.Some? && t.value.FetchTask? <==> !alone && hosted)
  {
  }

  /** What is planned for a broker, in terms of what the platform lists: its catalog is read again if the last of
      its proxies hosts it, it is created if it has no proxy left and nothing is registered under its key, nothing
      happens if something is but takeover is disabled, and in all other cases a registration is updated. */
  lemma TaskFollowsPlatform(cfg: Config, existing: seq<ServiceBroker>, desired: seq<ServiceBroker>, k: nat)
    requires k < |desired|
    ensures var d := desired[k];
            var t := TaskFor(cfg, Proxies(cfg, existing) - Guids(desired[..k]), TakeoverCandidates(existing), d);
            var alone, known := NotTakenOver(cfg, existing, desired, k), Known(existing, BrokerKey(d));
            && (t.Some? && t.value.CreateTask? <==> alone && !known)
            && (t.None? <==> alone && known && !cfg.takeoverEnabled)
            && (t.Some? && t.value.FetchTask? <==> !alone && HostedByLast(cfg, existing, d))
  {
    KnownIsIndexed(existing, BrokerKey(desired[k]));
    if !NotTakenOver(cfg, existing, desired, k) {
      HostIsIndexed(cfg, existing, desired[k]);
    }
    TaskCases(cfg, desired[k], Proxies(cfg, existing) - Guids(desired[..k]), TakeoverCandidates(existing),
              NotTakenOver(cfg, existing, desired, k), Known(existing, BrokerKey(desired[k])),
              HostedByLast(cfg, existing, desired[k]));
  }

  // ---- Frame ----

  /** The desired broker has no proxy left when its turn comes. */
  ghost predicate NotTakenOver(cfg: Config, existing: seq<ServiceBroker>, desired: seq<ServiceBroker>, i: int) {
    0 <= i < |desired| && desired[i].guid !in Proxies(cfg, existing) - Guids(desired[..i])
  }

  ghost predicate IsCandidate(existing: seq<ServiceBroker>, d: ServiceBroker, e: ServiceBroker) {
    exists i :: IsLast(existing, TakeoverKeyOf(), BrokerKey(d), i) && existing[i] == e
  }

  /** The brokers that a resync may change: a proxy, and of several for one id only the last one listed; or, with
      takeover enabled, the last one listed under the key of a desired broker that is not taken over yet. */
  ghost predicate Touchable(cfg: Config, existing: seq<ServiceBroker>, desired: seq<ServiceBroker>, e: ServiceBroker) {
    || (IsProxyURL(cfg, e.url)
        && exists i :: IsLast(existing, ProxyIDOf(cfg), BrokerIDFromURL(e.url), i) && existing[i] == e)
    || (cfg.takeoverEnabled
        && exists k :: NotTakenOver(cfg, existing, desired, k) && IsCandidate(existing, desired[k], e))
  }

  lemma ProxyIsTouchable(cfg: Config, existing: seq<ServiceBroker>, desired: seq<ServiceBroker>, id: string)
    requires id in Proxies(cfg, existing)
    ensures var e := Proxies(cfg, existing)[id];
            e in existing && IsProxyURL(cfg, e.url) && BrokerIDFromURL(e.url) == id
            && Touchable(cfg, existing, desired, e)
  {
    IndexHoldsTheLast(existing, ProxyIDOf(cfg));
    var i :| IsLast(existing, ProxyIDOf(cfg), id, i) && Proxies(cfg, existing)[id] == existing[i];
    assert ProxyIDOf(cfg)(existing[i]) == Some(id);
  }

  /** Every planned task was made for one of the desired brokers. */
  lemma {:induction false} WhoseTask(cfg: Config, proxies: map<string, ServiceBroker>,
                                     candidates: map<string, ServiceBroker>, desired: seq<ServiceBroker>,
                                     t: BrokerTask) returns (k: nat)
    requires t in DesiredTasks(cfg, proxies, candidates, desired)
    ensures k < |desired| && TaskFor(cfg, proxies - Guids(desired[..k]), candidates, desired[k]) == Some(t)
    decreases |desired|
  {
    var n := |desired| - 1;
    if t in DesiredTasks(cfg, proxies, candidates, desired[..n]) {
      k := WhoseTask(cfg, proxies, candidates, desired[..n], t);
      assert desired[..n][..k] == desired[..k];
    } else {
      k := n;
    }
  }

  lemma CandidateIsTouchable(cfg: Config, existing: seq<ServiceBroker>, desired: seq<ServiceBroker>, k: nat)
    requires NotTakenOver(cfg, existing, desired, k) && cfg.takeoverEnabled
    requires BrokerKey(desired[k]) in TakeoverCandidates(existing)
    ensures var e := TakeoverCandidates(existing)[BrokerKey(desired[k])];
            e in existing && IsCandidate(existing, desired[k], e) && Touchable(cfg, existing, desired, e)
  {
    var key := BrokerKey(desired[k]);
    IndexHoldsTheLast(existing, TakeoverKeyOf());
    var i :| IsLast(existing, TakeoverKeyOf(), key, i) && TakeoverCandidates(existing)[key] == existing[i];
    assert IsCandidate(existing, desired[k], existing[i]);
  }

  lemma PlannedTaskIsTouchable(cfg: Config, existing: seq<ServiceBroker>, desired: seq<ServiceBroker>, t: BrokerTask)
    requires t in Plan(cfg, existing, desired)
    ensures !t.DeleteTask?
    ensures t.CreateTask? ==> t.broker in desired
    ensures !t.CreateTask? ==> exists e :: e in existing && e.guid == t.guid && Touchable(cfg, existing, desired, e)
  {
    var proxies, candidates := Proxies(cfg, existing), TakeoverCandidates(existing);
    var k := WhoseTask(cfg, proxies, candidates, desired, t);
    if desired[k].guid in proxies - Guids(desired[..k]) {
      ProxyIsTouchable(cfg, existing, desired, desired[k].guid);
    } else if BrokerKey(desired[k]) in candidates {
      CandidateIsTouchable(cfg, existing, desired, k);
    }
  }

  lemma OrphanIsTouchable(cfg: Config, existing: seq<ServiceBroker>, desired: seq<ServiceBroker>, e: ServiceBroker)
    requires e in Orphans(cfg, existing, desired).Values
    ensures e in existing && Touchable(cfg, existing, desired, e)
    ensures IsProxyURL(cfg, e.url) && BrokerIDFromURL(e.url) !in Guids(desired)
  {
    var id :| id in Orphans(cfg, existing, desired) && Orphans(cfg, existing, desired)[id] == e;
    ProxyIsTouchable(cfg, existing, desired, id);
  }

  /** For any inputs, any interleaving and any failures, at every point: a broker that may not be touched is on the
      platform exactly as before. The deletions may be any of orphans, with repetitions or gaps. */
  lemma BrokerFrame(cfg: Config, existing: seq<ServiceBroker>, desired: seq<ServiceBroker>, deletions: seq<BrokerTask>,
                    newGuid: string -> string, j: Job<string, Registration>, run: seq<Pool<string, Registration>>,
                    n: nat, e: ServiceBroker)
    requires IsListing(j.before, existing) && e in existing && !Touchable(cfg, existing, desired, e)
    requires forall t :: t in deletions ==> t.DeleteTask? && t.registered in Orphans(cfg, existing, desired).Values
    requires forall d :: d in desired ==> newGuid(d.guid) !in j.before
    requires AreCalls(cfg, j.before, newGuid, Plan(cfg, existing, desired) + deletions, j.tasks)
    requires IsRun(j, run) && n < |run|
    ensures e.guid in run[n].platform && run[n].platform[e.guid] == Registration(e.name, e.url)
  {
    RunShowsOnlyTaskEffects(j, run, n);
    var tasks := Plan(cfg, existing, desired) + deletions;
    var m :| 0 <= m < |existing| && existing[m] == e;
    forall i | 0 <= i < |tasks| ensures TargetOf(newGuid, tasks[i]) != e.guid {
      var t := tasks[i];
      if t in deletions {
        OrphanIsTouchable(cfg, existing, desired, t.registered);
        SameGuidSameBroker(j.before, existing, t.registered, e);
      } else {
        PlannedTaskIsTouchable(cfg, existing, desired, t);
        if !t.CreateTask? {
          var e' :| e' in existing && e'.guid == t.guid && Touchable(cfg, existing, desired, e');
          SameGuidSameBroker(j.before, existing, e', e);
        }
      }
    }
    assert forall i :: !Wrote(j, run[n], i, e.guid);
    assert TaskPool.Lookup(run[n].platform, e.guid) == TaskPool.Lookup(j.before, e.guid);
  }

  lemma SameGuidSameBroker(regs: map<string, Registration>, list: seq<ServiceBroker>, b: ServiceBroker,
                           c: ServiceBroker)
    requires IsListing(regs, list) && b in list && c in list
    ensures b.guid == c.guid ==> b == c
  {
  }
}
