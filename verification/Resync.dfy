/** A whole resync: brokers first, then visibilities if they are asked for. The tasks run one after another here; module
    TaskPool shows that every interleaving of agreeing tasks leaves the same platform. */
module Resync {
  import opened Types
  import opened Naming
  import opened World
  import opened Credentials
  import opened Registrations
  import opened TaskPool
  import opened Brokers
  import opened BrokerConvergence
  import opened VisibilityResync
  import Visibilities
  import Indexing

  // ---- What SM wants on the platform ----

  function Allowed(cfg: Config, brokers: seq<ServiceBroker>): seq<ServiceBroker> {
    if brokers == [] then []
    else
      var init, b := Allowed(cfg, brokers[..|brokers| - 1]), brokers[|brokers| - 1];
      if b.name in cfg.brokerBlacklist then init else init + [b]
  }

  /** Exactly the blacklisted brokers are dropped; the others keep their number. */
  lemma {:induction false} AllowedKeepsTheRest(cfg: Config, brokers: seq<ServiceBroker>, b: ServiceBroker)
    ensures multiset(Allowed(cfg, brokers))[b] == if b.name in cfg.brokerBlacklist then 0 else multiset(brokers)[b]
    decreases |brokers|
  {
    if brokers != [] {
      var n := |brokers| - 1;
      AllowedKeepsTheRest(cfg, brokers[..n], b);
      assert brokers == brokers[..n] + [brokers[n]];
    }
  }

  method DropBlacklisted(cfg: Config, all: seq<ServiceBroker>) returns (list: seq<ServiceBroker>)
    ensures list == Allowed(cfg, all)
  {
    list := [];
    for i := 0 to |all|
      invariant list == Allowed(cfg, all[..i])
    {
      assert all[..i + 1][..i] == all[..i];
      if !(all[i].name in cfg.brokerBlacklist) {
        list := list + [all[i]];
      }
    }
    assert all[..|all|] == all;
  }

  method GetBrokersFromSM(e: Endpoints) returns (r: Option<seq<ServiceBroker>>)
    modifies e`failedListings
    ensures r.Some? ==> r.value == Allowed(e.cfg, e.sm.brokers)
    ensures e.failedListings == old(e.failedListings) + if r.Some? then 0 else 1
  {
    r := e.ListBrokers();
    if r.Some? {
      var list := DropBlacklisted(e.cfg, r.value);
      r := Some(list);
    }
  }

  method GetSMPlans(e: Endpoints, smBrokers: seq<ServiceBroker>) returns (r: Option<map<string, BrokerPlan>>)
    modifies e`failedListings
    ensures r.Some? ==> r.value == SMPlans(e.sm, smBrokers)
    ensures r.Some? ==> forall id :: id in r.value ==> r.value[id].broker in smBrokers
    ensures e.failedListings == old(e.failedListings) + if r.Some? then 0 else 1
  {
    var offerings := e.ListOfferings();
    if offerings == None {
      return None;
    }
    var plans := e.ListPlans();
    if plans == None {
      return None;
    }
    var joined := GetSMBrokerPlans(offerings.value, plans.value, smBrokers);
    r := Some(joined);
  }

  // ---- Running the broker tasks ----

  /** `call` records the call that a task made on this platform, or did not make because it was not scheduled. */
  ghost predicate IsCallOf(cfg: Config, regs: map<string, Registration>, t: BrokerTask,
                           call: Task<string, Registration>)
  {
    && (call.ok ==> call.applied) && call.value == OutcomeOf(cfg, regs, t)
    && if t.CreateTask? then call.applied ==> call.key !in regs
       else call.key == GuidOf(t)
  }

  predicate WellNamed(cfg: Config, t: BrokerTask) {
    !t.DeleteTask? ==> t.proxyName == ProxyNameOf(cfg, t.broker)
  }

  /** What a task that was scheduled shows: one attempt of its kind for its broker, or the call that deletes. Only
      reading a catalog again shows nothing where the platform cannot do that. */
  predicate IsTaskLog(cfg: Config, t: BrokerTask, log: seq<Event>) {
    match t
    case UpdateTask(_, d, _) => IsAttempt(cfg, UpdateCall, d.guid, false, true, log)
    case FetchTask(_, d, _) =>
      if cfg.catalogFetcher then IsAttempt(cfg, FetchCall, d.guid, false, true, log) else log == []
    case CreateTask(d, _) => IsAttempt(cfg, CreateCall, d.guid, true, false, log)
    case DeleteTask(b) => |log| == 1 && log[0].DeleteCall? && log[0].guid == b.guid
  }

  lemma TaskLogIsDisciplined(cfg: Config, t: BrokerTask, log: seq<Event>)
    requires IsTaskLog(cfg, t, log)
    ensures Disciplined(cfg, log) && AboutBrokers(log)
  {
    match t
    case UpdateTask(_, d, _) =>
      AttemptIsDisciplined(cfg, UpdateCall, d.guid, false, true, log);
      AttemptIsAboutBrokers(cfg, UpdateCall, d.guid, false, true, log);
    case FetchTask(_, d, _) =>
      if cfg.catalogFetcher {
        AttemptIsDisciplined(cfg, FetchCall, d.guid, false, true, log);
        AttemptIsAboutBrokers(cfg, FetchCall, d.guid, false, true, log);
      }
    case CreateTask(d, _) =>
      AttemptIsDisciplined(cfg, CreateCall, d.guid, true, false, log);
      AttemptIsAboutBrokers(cfg, CreateCall, d.guid, true, false, log);
    case DeleteTask(_) =>
  }

  /** The task once the scheduler has taken it. */
  method Perform(e: Endpoints, t: BrokerTask)
    returns (ok: bool, ghost call: Task<string, Registration>, ghost log: seq<Event>)
    requires WellNamed(e.cfg, t)
    modifies e`regs, e`trace
    ensures e.trace == old(e.trace) + log && IsTaskLog(e.cfg, t, log) && (AllSucceeded(log) ==> ok)
    ensures IsCallOf(e.cfg, old(e.regs), t, call) && call.ok == ok
    ensures e.regs == After(old(e.regs), call)
  {
    ghost var before, value := e.regs, OutcomeOf(e.cfg, e.regs, t);
    var guid := "";
    match t {
      case UpdateTask(g, d, _) =>
        guid := g;
        ok, log := UpdateBrokerRegistration(e, guid, d);
      case FetchTask(g, d, _) =>
        guid := g;
        ok, log := FetchBrokerCatalog(e, d);
        FetchChangesNothing(e.regs, guid);
      case CreateTask(d, _) =>
        ok, guid, log := CreateBrokerRegistration(e, d);
      case DeleteTask(b) =>
        guid := b.guid;
        ok, log := DeleteBrokerRegistration(e, b);
        assert log[0] == DeleteCall(b.guid, ok);
    }
    call := Task(guid, value, ok, ok || e.regs != before);
  }

  /** The task is made unless the scheduler refuses it because the context is cancelled; it fails only then or if a
      call of its own failed. */
  method RunTask(e: Endpoints, t: BrokerTask)
    returns (ok: bool, ghost call: Task<string, Registration>, ghost log: seq<Event>)
    requires WellNamed(e.cfg, t)
    modifies e`regs, e`trace, e`cancellations
    ensures e.trace == old(e.trace) + log && Disciplined(e.cfg, log) && AboutBrokers(log)
    ensures IsCallOf(e.cfg, old(e.regs), t, call) && call.ok == ok
    ensures e.regs == After(old(e.regs), call)
    ensures if e.cancellations == old(e.cancellations) then IsTaskLog(e.cfg, t, log) && (AllSucceeded(log) ==> ok)
            else e.cancellations == old(e.cancellations) + 1 && log == [] && !ok
  {
    var cancelled := e.IsCancelled();
    if cancelled {
      ok, log, call := false, [], Refused(e.cfg, e.regs, t);
    } else {
      ok, call, log := Perform(e, t);
      TaskLogIsDisciplined(e.cfg, t, log);
    }
  }

  ghost function Refused(cfg: Config, regs: map<string, Registration>, t: BrokerTask): (c: Task<string, Registration>)
    ensures IsCallOf(cfg, regs, t, c) && !c.ok && !c.applied
  {
    Task(if t.CreateTask? then "" else GuidOf(t), OutcomeOf(cfg, regs, t), false, false)
  }

  lemma FetchChangesNothing(regs: map<string, Registration>, guid: string)
    ensures TaskPool.Put(regs, guid, TaskPool.Lookup(regs, guid)) == regs
  {
  }

  /** The calls that the tasks made in this order, each on the platform that the earlier ones left. */
  ghost predicate Ran(cfg: Config, before: map<string, Registration>, tasks: seq<BrokerTask>,
                      calls: seq<Task<string, Registration>>)
  {
    && |calls| == |tasks|
    && forall i :: 0 <= i < |tasks| ==> IsCallOf(cfg, RunInOrder(calls[..i], before), tasks[i], calls[i])
  }

  lemma RanOneMore(cfg: Config, before: map<string, Registration>, tasks: seq<BrokerTask>,
                   calls: seq<Task<string, Registration>>, t: BrokerTask, call: Task<string, Registration>)
    requires Ran(cfg, before, tasks, calls) && IsCallOf(cfg, RunInOrder(calls, before), t, call)
    ensures Ran(cfg, before, tasks + [t], calls + [call])
  {
    var longer := calls + [call];
    forall i | 0 <= i <= |tasks| ensures IsCallOf(cfg, RunInOrder(longer[..i], before), (tasks + [t])[i], longer[i]) {
      if i < |tasks| {
        assert longer[..i] == calls[..i];
      } else {
        assert longer[..i] == calls;
      }
    }
  }

  /** The tasks came in this order, and those that were not refused were made. */
  ghost predicate Logged(cfg: Config, tasks: seq<BrokerTask>, made: seq<bool>, logs: seq<seq<Event>>) {
    && |logs| == |made| == |tasks|
    && forall i :: 0 <= i < |tasks| ==> if made[i] then IsTaskLog(cfg, tasks[i], logs[i]) else logs[i] == []
  }

  lemma LoggedOneMore(cfg: Config, tasks: seq<BrokerTask>, made: seq<bool>, logs: seq<seq<Event>>, t: BrokerTask,
                      b: bool, log: seq<Event>)
    requires Logged(cfg, tasks, made, logs) && if b then IsTaskLog(cfg, t, log) else log == []
    ensures Logged(cfg, tasks + [t], made + [b], logs + [log])
    ensures NumFalse(made + [b]) == NumFalse(made) + if b then 0 else 1
  {
    NumFalseOneMore(made, b);
  }

  /** The next task, after those so far. */
  method RunNext(e: Endpoints, t: BrokerTask, ghost before: map<string, Registration>, ghost tasks: seq<BrokerTask>,
                 ghost calls: seq<Task<string, Registration>>, ghost made: seq<bool>, ghost logs: seq<seq<Event>>)
    returns (done: bool, ghost call: Task<string, Registration>, ghost made': seq<bool>, ghost more: seq<Event>)
    requires WellNamed(e.cfg, t) && Logged(e.cfg, tasks, made, logs)
    requires RanSoFar(e.cfg, before, tasks, calls, Flatten(logs), e.regs)
    modifies e`regs, e`trace, e`cancellations
    ensures RanSoFar(e.cfg, before, tasks + [t], calls + [call], Flatten(logs + [more]), e.regs)
    ensures Logged(e.cfg, tasks + [t], made', logs + [more]) && e.trace == old(e.trace) + more
    ensures NumFalse(made') - NumFalse(made) == e.cancellations - old(e.cancellations) >= 0
    ensures call.ok == done && (e.cancellations == old(e.cancellations) && AllSucceeded(more) ==> done)
  {
    ghost var regs := e.regs;
    done, call, more := RunTask(e, t);
    RanFurther(e.cfg, before, tasks, calls, Flatten(logs), regs, t, call, more);
    FlattenOneMore(logs, more);
    ghost var b := e.cancellations == old(e.cancellations);
    LoggedOneMore(e.cfg, tasks, made, logs, t, b, more);
    made' := made + [b];
  }

  /** Each task is made, whatever happens to the others, unless the scheduler refuses it because the context is found
      cancelled then; all succeed if none is refused and no call in the log failed. */
  method RunTasks(e: Endpoints, tasks: seq<BrokerTask>)
    returns (ok: bool, ghost calls: seq<Task<string, Registration>>, ghost made: seq<bool>,
             ghost logs: seq<seq<Event>>)
    requires forall t :: t in tasks ==> WellNamed(e.cfg, t)
    modifies e`regs, e`trace, e`cancellations
    ensures e.trace == old(e.trace) + Flatten(logs) && Disciplined(e.cfg, Flatten(logs)) && AboutBrokers(Flatten(logs))
    ensures Ran(e.cfg, old(e.regs), tasks, calls) && e.regs == RunInOrder(calls, old(e.regs))
    ensures ok ==> forall i :: 0 <= i < |calls| ==> calls[i].ok
    ensures Logged(e.cfg, tasks, made, logs) && e.cancellations == old(e.cancellations) + NumFalse(made)
    ensures e.cancellations == old(e.cancellations) && AllSucceeded(Flatten(logs)) ==> ok
  {
    ok, calls, made, logs := true, [], [], [];
    for i := 0 to |tasks|
      invariant e.trace == old(e.trace) + Flatten(logs)
      invariant RanSoFar(e.cfg, old(e.regs), tasks[..i], calls, Flatten(logs), e.regs)
      invariant ok ==> forall k :: 0 <= k < |calls| ==> calls[k].ok
      invariant Logged(e.cfg, tasks[..i], made, logs) && e.cancellations == old(e.cancellations) + NumFalse(made)
      invariant e.cancellations == old(e.cancellations) && AllSucceeded(Flatten(logs)) ==> ok
    {
      ghost var call, more;
      var done;
      done, call, made, more := RunNext(e, tasks[i], old(e.regs), tasks[..i], calls, made, logs);
      assert tasks[..i + 1] == tasks[..i] + [tasks[i]];
      FlattenOneMore(logs, more);
      Regroup(old(e.trace), Flatten(logs), more);
      AllSucceededConcat(Flatten(logs), more);
      ok, calls, logs := ok && done, calls + [call], logs + [more];
    }
    assert tasks[..|tasks|] == tasks;
  }

  ghost predicate RanSoFar(cfg: Config, before: map<string, Registration>, tasks: seq<BrokerTask>,
                           calls: seq<Task<string, Registration>>, log: seq<Event>, after: map<string, Registration>)
  {
    && Ran(cfg, before, tasks, calls) && after == RunInOrder(calls, before)
    && Disciplined(cfg, log) && AboutBrokers(log)
  }

  lemma RanFurther(cfg: Config, before: map<string, Registration>, tasks: seq<BrokerTask>,
                   calls: seq<Task<string, Registration>>, log: seq<Event>, regs: map<string, Registration>,
                   t: BrokerTask, call: Task<string, Registration>, more: seq<Event>)
    requires RanSoFar(cfg, before, tasks, calls, log, regs) && IsCallOf(cfg, regs, t, call)
    requires Disciplined(cfg, more) && AboutBrokers(more)
    ensures RanSoFar(cfg, before, tasks + [t], calls + [call], log + more, After(regs, call))
  {
    DisciplinedConcat(cfg, log, more);
    RanOneMore(cfg, before, tasks, calls, t, call);
    OneMoreCall(calls + [call], |calls|, before);
    assert (calls + [call])[..|calls|] == calls && (calls + [call])[..|calls| + 1] == calls + [call];
  }

  /** The orphans in the order in which ranging over the map happens to find them. */
  method ScheduleDeletions(orphans: map<string, ServiceBroker>) returns (deletions: seq<BrokerTask>)
    ensures Deletes(orphans, deletions)
  {
    deletions := [];
    var todo := orphans.Keys;
    while todo != {}
      invariant todo <= orphans.Keys
      invariant forall t :: t in deletions ==> t.DeleteTask? && t.registered in orphans.Values
      invariant forall id :: id in orphans.Keys - todo ==> DeleteTask(orphans[id]) in deletions
      decreases |todo|
    {
      var id :| id in todo;
      deletions := deletions + [DeleteTask(orphans[id])];
      todo := todo - {id};
    }
  }

  lemma PlanIsWellNamed(cfg: Config, existing: seq<ServiceBroker>, desired: seq<ServiceBroker>, t: BrokerTask)
    requires t in Plan(cfg, existing, desired)
    ensures WellNamed(cfg, t)
  {
    var k := WhoseTask(cfg, Proxies(cfg, existing), TakeoverCandidates(existing), desired, t);
  }

  ghost predicate UntouchableStay(cfg: Config, existing: seq<ServiceBroker>, desired: seq<ServiceBroker>,
                                  after: map<string, Registration>)
  {
    forall b :: b in existing && !Touchable(cfg, existing, desired, b) ==>
      b.guid in after && after[b.guid] == Registration(b.name, b.url)
  }

  /** The log shows each task of the plan and each deletion of a proxy left over, but for at most this many that were
      refused. */
  ghost predicate WorkLogged(cfg: Config, existing: seq<ServiceBroker>, desired: seq<ServiceBroker>, log: seq<Event>,
                             refused: nat)
  {
    exists deletions, made, logs ::
      Deletes(Orphans(cfg, existing, desired), deletions)
      && Logged(cfg, Plan(cfg, existing, desired) + deletions, made, logs) && NumFalse(made) <= refused
      && log == Flatten(logs)
  }

  /** Whatever fails, every task is made unless the context is found cancelled when it is its turn; if it never is, and
      no call failed, SM's brokers are what the platform ends with. */
  method ReconcileBrokers(e: Endpoints, existing: seq<ServiceBroker>, desired: seq<ServiceBroker>)
    returns (ok: bool, ghost log: seq<Event>)
    requires IsListing(e.regs, existing)
    modifies e`regs, e`trace, e`cancellations
    ensures e.trace == old(e.trace) + log && Disciplined(e.cfg, log) && AboutBrokers(log)
    ensures UntouchableStay(e.cfg, existing, desired, e.regs) && e.cancellations >= old(e.cancellations)
    ensures WorkLogged(e.cfg, existing, desired, log, e.cancellations - old(e.cancellations))
    ensures ok && Ready(e.cfg, old(e.regs), existing, desired) ==> Converged(e.cfg, e.regs, desired)
    ensures e.cancellations == old(e.cancellations) && AllSucceeded(log) ==>
              ok && (Ready(e.cfg, old(e.regs), existing, desired) ==> Converged(e.cfg, e.regs, desired))
  {
    var plan, orphans := PlanBrokers(e.cfg, existing, desired);
    var deletions := ScheduleDeletions(orphans);
    forall t | t in plan ensures WellNamed(e.cfg, t) {
      PlanIsWellNamed(e.cfg, existing, desired, t);
    }
    ghost var calls, made, logs;
    ok, calls, made, logs := RunTasks(e, plan + deletions);
    log := Flatten(logs);
    SequentialResync(e.cfg, old(e.regs), existing, desired, deletions, calls, ok);
  }

  lemma SequentialResync(cfg: Config, before: map<string, Registration>, existing: seq<ServiceBroker>,
      desired: seq<ServiceBroker>, deletions: seq<BrokerTask>, calls: seq<Task<string, Registration>>, ok: bool)
    requires IsListing(before, existing) && Deletes(Orphans(cfg, existing, desired), deletions)
    requires Ran(cfg, before, Plan(cfg, existing, desired) + deletions, calls)
    requires ok ==> forall i :: 0 <= i < |calls| ==> calls[i].ok
    ensures UntouchableStay(cfg, existing, desired, RunInOrder(calls, before))
    ensures ok && Ready(cfg, before, existing, desired) ==> Converged(cfg, RunInOrder(calls, before), desired)
  {
    SequentialStay(cfg, before, existing, desired, deletions, calls);
    if ok && Ready(cfg, before, existing, desired) {
      SequentialConverges(cfg, before, existing, desired, deletions, calls);
    }
  }

  lemma SequentialStay(cfg: Config, before: map<string, Registration>, existing: seq<ServiceBroker>,
      desired: seq<ServiceBroker>, deletions: seq<BrokerTask>, calls: seq<Task<string, Registration>>)
    requires IsListing(before, existing) && Deletes(Orphans(cfg, existing, desired), deletions)
    requires Ran(cfg, before, Plan(cfg, existing, desired) + deletions, calls)
    ensures UntouchableStay(cfg, existing, desired, RunInOrder(calls, before))
  {
    assert calls[..|calls|] == calls;
    var tasks := Plan(cfg, existing, desired) + deletions;
    forall b | b in existing && !Touchable(cfg, existing, desired, b)
      ensures TaskPool.Lookup(RunInOrder(calls, before), b.guid) == Some(Registration(b.name, b.url))
    {
      forall t | t in tasks && !t.CreateTask? ensures GuidOf(t) != b.guid {
        TaskSparesUntouchable(cfg, before, existing, desired, deletions, t, b);
      }
      ListedIsRegistered(before, existing, b);
      OthersStay(cfg, before, tasks, calls, b.guid, |calls|);
    }
  }

  function GuidOf(t: BrokerTask): string
    requires !t.CreateTask?
  {
    if t.DeleteTask? then t.registered.guid else t.guid
  }

  lemma {:induction false} OthersStay(cfg: Config, before: map<string, Registration>, tasks: seq<BrokerTask>,
                                      calls: seq<Task<string, Registration>>, g: string, n: nat)
    requires Ran(cfg, before, tasks, calls) && n <= |calls| && g in before
    requires forall t :: t in tasks && !t.CreateTask? ==> GuidOf(t) != g
    ensures TaskPool.Lookup(RunInOrder(calls[..n], before), g) == TaskPool.Lookup(before, g)
  {
    if n > 0 {
      OthersStay(cfg, before, tasks, calls, g, n - 1);
      OneMoreCall(calls, n - 1, before);
      assert IsCallOf(cfg, RunInOrder(calls[..n - 1], before), tasks[n - 1], calls[n - 1]);
      assert tasks[n - 1] in tasks;
    }
  }

  function After(regs: map<string, Registration>, call: Task<string, Registration>): map<string, Registration> {
    if call.applied then TaskPool.Put(regs, call.key, call.value) else regs
  }

  lemma OneMoreCall(calls: seq<Task<string, Registration>>, n: nat, before: map<string, Registration>)
    requires n < |calls|
    ensures RunInOrder(calls[..n + 1], before) == After(RunInOrder(calls[..n], before), calls[n])
  {
    assert calls[..n + 1][..n] == calls[..n];
  }

  lemma TaskSparesUntouchable(cfg: Config, before: map<string, Registration>, existing: seq<ServiceBroker>,
      desired: seq<ServiceBroker>, deletions: seq<BrokerTask>, t: BrokerTask, b: ServiceBroker)
    requires IsListing(before, existing) && b in existing && !Touchable(cfg, existing, desired, b)
    requires Deletes(Orphans(cfg, existing, desired), deletions)
    requires t in Plan(cfg, existing, desired) + deletions && !t.CreateTask?
    ensures GuidOf(t) != b.guid
  {
    if t in deletions {
      OrphanIsTouchable(cfg, existing, desired, t.registered);
      SameGuidSameBroker(before, existing, t.registered, b);
    } else {
      PlannedTaskIsTouchable(cfg, existing, desired, t);
      var b' :| b' in existing && b'.guid == t.guid && Touchable(cfg, existing, desired, b');
      SameGuidSameBroker(before, existing, b', b);
    }
  }

  // ---- Success ----

  /** The platform id that a broker's task turned out to be about. */
  ghost function KeyFor(desired: seq<ServiceBroker>, calls: seq<Task<string, Registration>>, id: string): string {
    if HasCall(desired, calls, id)
    then var i :| 0 <= i < |desired| && i < |calls| && desired[i].guid == id; calls[i].key
    else ""
  }

  ghost predicate HasCall(desired: seq<ServiceBroker>, calls: seq<Task<string, Registration>>, id: string) {
    exists i :: 0 <= i < |desired| && i < |calls| && desired[i].guid == id
  }

  lemma KeyForBroker(desired: seq<ServiceBroker>, calls: seq<Task<string, Registration>>, i: nat)
    requires DistinctGuids(desired) && i < |desired| && i < |calls|
    ensures KeyFor(desired, calls, desired[i].guid) == calls[i].key
  {
  }

  /** What the calls do to the platform, put in terms of the platform before the resync. */
  function Intended(cfg: Config, before: map<string, Registration>, tasks: seq<BrokerTask>,
                    calls: seq<Task<string, Registration>>): seq<Task<string, Registration>>
    requires |tasks| == |calls|
  {
    seq(|calls|, i requires 0 <= i < |calls| => calls[i].(value := OutcomeOf(cfg, before, tasks[i])))
  }

  /** While no deletion runs, registrations only come and stay. */
  lemma {:induction false} KeysOnlyGrow(cfg: Config, before: map<string, Registration>, tasks: seq<BrokerTask>,
                                        calls: seq<Task<string, Registration>>, m: nat, n: nat)
    requires Ran(cfg, before, tasks, calls) && m <= n <= |calls|
    requires forall i :: 0 <= i < n ==> !tasks[i].DeleteTask?
    ensures RunInOrder(calls[..m], before).Keys <= RunInOrder(calls[..n], before).Keys
    decreases n - m
  {
    if m < n {
      KeysOnlyGrow(cfg, before, tasks, calls, m, n - 1);
      OneMoreCall(calls, n - 1, before);
      CallAddsKeys(cfg, RunInOrder(calls[..n - 1], before), tasks[n - 1], calls[n - 1]);
    }
  }

  lemma CallAddsKeys(cfg: Config, regs: map<string, Registration>, t: BrokerTask, call: Task<string, Registration>)
    requires IsCallOf(cfg, regs, t, call) && !t.DeleteTask?
    ensures regs.Keys <= After(regs, call).Keys
  {
  }

  lemma CreatedIsNew(cfg: Config, before: map<string, Registration>, tasks: seq<BrokerTask>,
                     calls: seq<Task<string, Registration>>, n: nat)
    requires Ran(cfg, before, tasks, calls) && n < |calls| && calls[n].ok && tasks[n].CreateTask?
    requires forall i :: 0 <= i < n ==> !tasks[i].DeleteTask?
    ensures calls[n].key !in before
    ensures forall m :: 0 <= m < n && tasks[m].CreateTask? && calls[m].ok ==> calls[m].key != calls[n].key
  {
    assert calls[..0] == [];
    KeysOnlyGrow(cfg, before, tasks, calls, 0, n);
    CreatedBy(cfg, RunInOrder(calls[..n], before), tasks[n], calls[n]);
    forall m | 0 <= m < n && tasks[m].CreateTask? && calls[m].ok ensures calls[m].key != calls[n].key {
      OneMoreCall(calls, m, before);
      CreatedBy(cfg, RunInOrder(calls[..m], before), tasks[m], calls[m]);
      KeysOnlyGrow(cfg, before, tasks, calls, m + 1, n);
    }
  }

  lemma CreatedBy(cfg: Config, regs: map<string, Registration>, t: BrokerTask, call: Task<string, Registration>)
    requires IsCallOf(cfg, regs, t, call) && call.ok && t.CreateTask?
    ensures call.key !in regs && call.key in After(regs, call)
  {
  }

  /** A fetch puts back what is there, so the calls have the effect they were intended to have. */
  lemma {:induction false} IntentionMet(cfg: Config, before: map<string, Registration>, tasks: seq<BrokerTask>,
                                        calls: seq<Task<string, Registration>>, n: nat)
    requires Ran(cfg, before, tasks, calls) && n <= |calls|
    requires Agreeing(Intended(cfg, before, tasks, calls)) && forall i :: 0 <= i < |calls| ==> calls[i].ok
    ensures RunInOrder(calls[..n], before) == RunInOrder(Intended(cfg, before, tasks, calls)[..n], before)
  {
    if n > 0 {
      var intended := Intended(cfg, before, tasks, calls);
      IntentionMet(cfg, before, tasks, calls, n - 1);
      OneMoreCall(calls, n - 1, before);
      OneMoreCall(intended, n - 1, before);
      assert IsCallOf(cfg, RunInOrder(calls[..n - 1], before), tasks[n - 1], calls[n - 1]);
      if tasks[n - 1].FetchTask? {
        FetchSeesBefore(cfg, before, tasks, calls, n - 1);
      }
      SameEffect(cfg, before, RunInOrder(calls[..n - 1], before), tasks[n - 1], calls[n - 1]);
    }
  }

  lemma SameEffect(cfg: Config, before: map<string, Registration>, regs: map<string, Registration>, t: BrokerTask,
                   call: Task<string, Registration>)
    requires IsCallOf(cfg, regs, t, call)
    requires t.FetchTask? ==> TaskPool.Lookup(regs, call.key) == TaskPool.Lookup(before, call.key)
    ensures After(regs, call.(value := OutcomeOf(cfg, before, t))) == After(regs, call)
  {
  }

  lemma FetchSeesBefore(cfg: Config, before: map<string, Registration>, tasks: seq<BrokerTask>,
                        calls: seq<Task<string, Registration>>, n: nat)
    requires Ran(cfg, before, tasks, calls) && n < |calls| && tasks[n].FetchTask?
    requires Agreeing(Intended(cfg, before, tasks, calls))
    ensures TaskPool.Lookup(RunInOrder(Intended(cfg, before, tasks, calls)[..n], before), calls[n].key)
         == TaskPool.Lookup(before, calls[n].key)
  {
    var intended := Intended(cfg, before, tasks, calls);
    var first := intended[..n];
    InOrderEffects(first, before);
    assert intended[n].key == calls[n].key && intended[n].value == TaskPool.Lookup(before, calls[n].key) by {
      assert IsCallOf(cfg, RunInOrder(calls[..n], before), tasks[n], calls[n]);
    }
    if i :| 0 <= i < |first| && first[i].applied && first[i].key == calls[n].key {
      assert first[i] == intended[i];
    }
  }

  lemma SequentialConverges(cfg: Config, before: map<string, Registration>, existing: seq<ServiceBroker>,
      desired: seq<ServiceBroker>, deletions: seq<BrokerTask>, calls: seq<Task<string, Registration>>)
    requires Ready(cfg, before, existing, desired) && Deletes(Orphans(cfg, existing, desired), deletions)
    requires Ran(cfg, before, Plan(cfg, existing, desired) + deletions, calls)
    requires forall i :: 0 <= i < |calls| ==> calls[i].ok
    ensures Converged(cfg, RunInOrder(calls, before), desired)
  {
    var tasks := Plan(cfg, existing, desired) + deletions;
    var newGuid := (id: string) => KeyFor(desired, calls, id);
    var j := Job(Intended(cfg, before, tasks, calls), 1, before);
    PlanIsPerBroker(cfg, Proxies(cfg, existing), TakeoverCandidates(existing), desired);
    CallsAreIntended(cfg, before, existing, desired, deletions, calls, newGuid);
    GuidsAreNew(cfg, before, existing, desired, deletions, calls, newGuid);
    ResyncCallsAgree(cfg, existing, desired, deletions, newGuid, j);
    IntentionMet(cfg, before, tasks, calls, |calls|);
    assert calls[..|calls|] == calls && j.tasks[..|calls|] == j.tasks;
    InOrderBrings(j);
    BroughtConverges(cfg, existing, desired, deletions, newGuid, j, RunInOrder(calls, before));
  }

  lemma InOrderBrings(j: Job<string, Registration>)
    requires Agreeing(j.tasks) && forall i :: 0 <= i < |j.tasks| ==> j.tasks[i].applied
    ensures Brought(j, RunInOrder(j.tasks, j.before))
  {
    InOrderEffects(j.tasks, j.before);
    forall g
      ensures TaskPool.Lookup(RunInOrder(j.tasks, j.before), g) == TaskPool.Lookup(j.before, g) || Keyed(j.tasks, g)
    {
      if !Keyed(j.tasks, g) {
        assert forall i :: 0 <= i < |j.tasks| ==> j.tasks[i].key != g;
      }
    }
  }

  lemma TaskForIsAbout(cfg: Config, proxies: map<string, ServiceBroker>, candidates: map<string, ServiceBroker>,
                       d: ServiceBroker, t: BrokerTask)
    requires TaskFor(cfg, proxies, candidates, d) == Some(t)
    ensures !t.DeleteTask? && t.broker == d
  {
  }

  lemma DeletionsComeLast(plan: seq<BrokerTask>, deletions: seq<BrokerTask>, i: nat)
    requires |plan| <= i < |plan + deletions| && forall t :: t in deletions ==> t.DeleteTask?
    ensures (plan + deletions)[i].DeleteTask?
  {
  }

  /** The creations come in the plan, one for each broker that needs one. */
  lemma CreationIsPlanned(cfg: Config, existing: seq<ServiceBroker>, desired: seq<ServiceBroker>,
                          deletions: seq<BrokerTask>, i: nat)
    requires DistinctGuids(desired) && cfg.takeoverEnabled && forall t :: t in deletions ==> t.DeleteTask?
    requires i < |Plan(cfg, existing, desired) + deletions|
    ensures var t := (Plan(cfg, existing, desired) + deletions)[i];
            t.CreateTask? ==> i < |desired| && t.broker == desired[i]
  {
    var plan := Plan(cfg, existing, desired);
    PlanIsPerBroker(cfg, Proxies(cfg, existing), TakeoverCandidates(existing), desired);
    if i < |desired| {
      TaskForIsAbout(cfg, Proxies(cfg, existing), TakeoverCandidates(existing), desired[i], plan[i]);
    } else {
      DeletionsComeLast(plan, deletions, i);
    }
  }

  lemma KeyIsTarget(newGuid: string -> string, desired: seq<ServiceBroker>, calls: seq<Task<string, Registration>>,
                    cfg: Config, regs: map<string, Registration>, t: BrokerTask, i: nat)
    requires i < |calls| && IsCallOf(cfg, regs, t, calls[i]) && DistinctGuids(desired)
    requires t.CreateTask? ==> i < |desired| && t.broker == desired[i]
    requires forall id :: newGuid(id) == KeyFor(desired, calls, id)
    ensures calls[i].key == TargetOf(newGuid, t)
  {
  }

  lemma CallsAreIntended(cfg: Config, before: map<string, Registration>, existing: seq<ServiceBroker>,
      desired: seq<ServiceBroker>, deletions: seq<BrokerTask>, calls: seq<Task<string, Registration>>,
      newGuid: string -> string)
    requires DistinctGuids(desired) && cfg.takeoverEnabled && Deletes(Orphans(cfg, existing, desired), deletions)
    requires Ran(cfg, before, Plan(cfg, existing, desired) + deletions, calls)
    requires forall id :: newGuid(id) == KeyFor(desired, calls, id)
    ensures var tasks := Plan(cfg, existing, desired) + deletions;
            AreCalls(cfg, before, newGuid, tasks, Intended(cfg, before, tasks, calls))
  {
    var tasks := Plan(cfg, existing, desired) + deletions;
    forall i | 0 <= i < |tasks|
      ensures calls[i].key == TargetOf(newGuid, tasks[i]) && (calls[i].ok ==> calls[i].applied)
    {
      assert IsCallOf(cfg, RunInOrder(calls[..i], before), tasks[i], calls[i]);
      CreationIsPlanned(cfg, existing, desired, deletions, i);
      KeyIsTarget(newGuid, desired, calls, cfg, RunInOrder(calls[..i], before), tasks[i], i);
    }
  }

  lemma GuidsAreNew(cfg: Config, before: map<string, Registration>, existing: seq<ServiceBroker>,
      desired: seq<ServiceBroker>, deletions: seq<BrokerTask>, calls: seq<Task<string, Registration>>,
      newGuid: string -> string)
    requires Ready(cfg, before, existing, desired)
    requires Ran(cfg, before, Plan(cfg, existing, desired) + deletions, calls)
    requires forall id :: newGuid(id) == KeyFor(desired, calls, id)
    requires forall i :: 0 <= i < |calls| ==> calls[i].ok
    ensures NewGuids(cfg, before, existing, desired, newGuid)
  {
    forall d | NeedsGuid(cfg, existing, desired, d) ensures newGuid(d.guid) !in before {
      var i :| 0 <= i < |desired| && desired[i] == d;
      CreationOf(cfg, before, existing, desired, deletions, calls, i);
      KeyForBroker(desired, calls, i);
    }
    forall d, d' | NeedsGuid(cfg, existing, desired, d) && NeedsGuid(cfg, existing, desired, d') && d.guid != d'.guid
      ensures newGuid(d.guid) != newGuid(d'.guid)
    {
      var i :| 0 <= i < |desired| && desired[i] == d;
      var k :| 0 <= k < |desired| && desired[k] == d';
      CreationOf(cfg, before, existing, desired, deletions, calls, i);
      CreationOf(cfg, before, existing, desired, deletions, calls, k);
      KeyForBroker(desired, calls, i);
      KeyForBroker(desired, calls, k);
    }
  }

  lemma CreationOf(cfg: Config, before: map<string, Registration>, existing: seq<ServiceBroker>,
      desired: seq<ServiceBroker>, deletions: seq<BrokerTask>, calls: seq<Task<string, Registration>>, i: nat)
    requires Ready(cfg, before, existing, desired) && i < |desired| && ClaimOf(cfg, existing, desired[i]) == Fresh
    requires Ran(cfg, before, Plan(cfg, existing, desired) + deletions, calls)
    requires forall i :: 0 <= i < |calls| ==> calls[i].ok
    ensures i < |calls| && (Plan(cfg, existing, desired) + deletions)[i].CreateTask?
    ensures calls[i].key !in before
    ensures forall m :: 0 <= m < i && (Plan(cfg, existing, desired) + deletions)[m].CreateTask? ==>
              calls[m].key != calls[i].key
  {
    var tasks := Plan(cfg, existing, desired) + deletions;
    PlanFirst(cfg, existing, desired, deletions);
    CreatedIsNew(cfg, before, tasks, calls, i);
  }

  lemma PlanFirst(cfg: Config, existing: seq<ServiceBroker>, desired: seq<ServiceBroker>, deletions: seq<BrokerTask>)
    requires DistinctGuids(desired) && cfg.takeoverEnabled
    ensures |Plan(cfg, existing, desired)| == |desired|
    ensures forall i :: 0 <= i < |desired| ==>
              var t := (Plan(cfg, existing, desired) + deletions)[i];
              !t.DeleteTask? && (t.CreateTask? <==> ClaimOf(cfg, existing, desired[i]) == Fresh)
  {
    var plan := Plan(cfg, existing, desired);
    PlanIsPerBroker(cfg, Proxies(cfg, existing), TakeoverCandidates(existing), desired);
    forall i | 0 <= i < |desired|
      ensures !plan[i].DeleteTask? && (plan[i].CreateTask? <==> ClaimOf(cfg, existing, desired[i]) == Fresh)
    {
      assert TaskFor(cfg, Proxies(cfg, existing), TakeoverCandidates(existing), desired[i]) == Some(plan[i]);
    }
  }

  // ---- The whole resync ----

  /** What one resync did. It has not started if the platform cannot handle both brokers and visibilities, or something
      that it needs could not be listed. */
  datatype Report = NotStarted | Report(existing: seq<ServiceBroker>, brokersOk: bool, chunks: seq<seq<ServiceBroker>>,
                                        chunkOk: seq<bool>)

  /** The broker half: frame and convergence. */
  ghost predicate BrokersResynced(cfg: Config, before: map<string, Registration>, r: Report,
                                  desired: seq<ServiceBroker>, after: map<string, Registration>)
    requires r.Report?
  {
    && IsListing(before, r.existing) && UntouchableStay(cfg, r.existing, desired, after)
    && (r.brokersOk && Ready(cfg, before, r.existing, desired) ==> Converged(cfg, after, desired))
  }

  /** The visibility half: one pass for each chunk of the brokers. */
  ghost predicate VisibilitiesResynced(cfg: Config, sm: SMState, before: set<Grant>, r: Report,
                                       desired: seq<ServiceBroker>, states: seq<set<Grant>>, after: set<Grant>)
    requires r.Report?
  {
    && Flatten(r.chunks) == desired && PassChain(cfg, sm, SMPlans(sm, desired), r.chunks, states, r.chunkOk)
    && states[0] == before && states[|r.chunks|] == after
  }

  /** Nothing unless visibilities are to be resynced. */
  method ResyncVisibilities(e: Endpoints, wanted: bool, chunkSize: int, smPlans: map<string, BrokerPlan>,
                            smBrokers: seq<ServiceBroker>)
    returns (chunks: seq<seq<ServiceBroker>>, ok: seq<bool>, ghost states: seq<set<Grant>>, ghost log: seq<Event>)
    requires chunkSize >= 0 || !wanted || smBrokers == []
    requires forall id :: id in smPlans ==> smPlans[id].broker in smBrokers
    modifies e`grants, e`trace, e`cancellations, e`failedListings
    ensures e.trace == old(e.trace) + log && Disciplined(e.cfg, log) && OnlyAccess(log)
    ensures !wanted ==> log == [] && chunks == [] && e.grants == old(e.grants)
    ensures wanted ==> Flatten(chunks) == smBrokers && PassChain(e.cfg, e.sm, smPlans, chunks, states, ok)
    ensures wanted ==> states[0] == old(e.grants) && states[|chunks|] == e.grants
    ensures e.Disturbances() >= old(e.Disturbances())
    ensures ChunksLogged(e.cfg, e.sm, smPlans, chunks, states, ok, log, e.Disturbances() - old(e.Disturbances()))
  {
    if wanted {
      chunks, ok, states, log := ReconcileVisibilities(e, chunkSize, smPlans, smBrokers);
    } else {
      chunks, ok, states, log := [], [], [{}], [];
      NoChunks(e.cfg, e.sm, smPlans);
    }
    AccessIsDisciplined(e.cfg, log);
  }

  predicate IsAccess(e: Event) {
    e.Enable? || e.Disable?
  }

  /** No call about a registration comes after the first call about access. */
  predicate BrokersFirst(log: seq<Event>) {
    forall i, k | 0 <= i < k < |log| :: IsAccess(log[i]) ==> IsAccess(log[k])
  }

  lemma AccessComesLast(cfg: Config, brokers: seq<Event>, access: seq<Event>)
    requires Disciplined(cfg, brokers) && Disciplined(cfg, access)
    requires AboutBrokers(brokers) && OnlyAccess(access)
    ensures Disciplined(cfg, brokers + access) && BrokersFirst(brokers + access)
  {
    DisciplinedConcat(cfg, brokers, access);
    assert forall i :: 0 <= i < |brokers| ==> brokers[i] in brokers;
  }

  /** What a resync works on. */
  datatype Inputs = Inputs(smBrokers: seq<ServiceBroker>, smPlans: map<string, BrokerPlan>,
                           existing: seq<ServiceBroker>)

  ghost predicate AreInputs(e: Endpoints, i: Inputs)
    reads e
  {
    && i.smBrokers == Allowed(e.cfg, e.sm.brokers) && IsListing(e.regs, i.existing)
    && i.smPlans == SMPlans(e.sm, i.smBrokers)
  }

  /** Nothing starts before everything is listed. */
  method Gather(e: Endpoints, handlesBoth: bool) returns (r: Option<Inputs>)
    modifies e`failedListings
    ensures r.Some? ==> handlesBoth && AreInputs(e, r.value)
    ensures e.failedListings == old(e.failedListings) + if handlesBoth && r == None then 1 else 0
  {
    if !handlesBoth {
      return None;
    }
    var smBrokers := GetBrokersFromSM(e);
    if smBrokers == None {
      return None;
    }
    var smPlans := GetSMPlans(e, smBrokers.value);
    if smPlans == None {
      return None;
    }
    var existing := e.GetBrokers();
    if existing == None {
      return None;
    }
    r := Some(Inputs(smBrokers.value, smPlans.value, existing.value));
  }

  /** The calls of a resync: those of every broker task, and then those of the pass over each chunk. No more tasks were
      refused and passes cut short than there were disturbances. */
  ghost predicate FullyLogged(cfg: Config, sm: SMState, r: Report, desired: seq<ServiceBroker>, states: seq<set<Grant>>,
                              log: seq<Event>, disturbances: nat)
    requires r.Report?
  {
    exists brokerLog, access, refused: nat, cut: nat ::
      refused + cut <= disturbances && LoggedAs(cfg, sm, r, desired, states, log, brokerLog, access, refused, cut)
  }

  ghost predicate LoggedAs(cfg: Config, sm: SMState, r: Report, desired: seq<ServiceBroker>, states: seq<set<Grant>>,
                           log: seq<Event>, brokerLog: seq<Event>, access: seq<Event>, refused: nat, cut: nat)
    requires r.Report?
  {
    && WorkLogged(cfg, r.existing, desired, brokerLog, refused)
    && (refused == 0 && AllSucceeded(brokerLog) ==> r.brokersOk)
    && ChunksLogged(cfg, sm, SMPlans(sm, desired), r.chunks, states, r.chunkOk, access, cut)
    && log == brokerLog + access
  }

  lemma LoggedInFull(cfg: Config, sm: SMState, r: Report, desired: seq<ServiceBroker>, states: seq<set<Grant>>,
                     brokerLog: seq<Event>, access: seq<Event>, refused: nat, cut: nat, disturbances: nat)
    requires r.Report? && WorkLogged(cfg, r.existing, desired, brokerLog, refused) && refused + cut <= disturbances
    requires refused == 0 && AllSucceeded(brokerLog) ==> r.brokersOk
    requires ChunksLogged(cfg, sm, SMPlans(sm, desired), r.chunks, states, r.chunkOk, access, cut)
    ensures FullyLogged(cfg, sm, r, desired, states, brokerLog + access, disturbances)
  {
    var log := brokerLog + access;
    assert LoggedAs(cfg, sm, r, desired, states, log, brokerLog, access, refused, cut);
  }

  /** The two halves of the resync, once everything is listed, with their logs and what each was disturbed by. */
  method ReconcileHalves(e: Endpoints, i: Inputs, chunkSize: int, resyncVisibilities: bool)
    returns (r: Report, ghost states: seq<set<Grant>>, ghost brokerLog: seq<Event>, ghost access: seq<Event>,
             ghost refused: nat, ghost cut: nat)
    requires AreInputs(e, i) && (chunkSize >= 0 || !resyncVisibilities || i.smBrokers == [])
    modifies e`regs, e`grants, e`trace, e`cancellations, e`failedListings
    ensures e.trace == old(e.trace) + brokerLog + access && r.Report?
    ensures Disciplined(e.cfg, brokerLog) && AboutBrokers(brokerLog)
    ensures Disciplined(e.cfg, access) && OnlyAccess(access)
    ensures !resyncVisibilities ==> e.grants == old(e.grants) && access == [] && r.chunks == []
    ensures r.existing == i.existing && UntouchableStay(e.cfg, i.existing, i.smBrokers, e.regs)
    ensures r.brokersOk && Ready(e.cfg, old(e.regs), i.existing, i.smBrokers) ==> Converged(e.cfg, e.regs, i.smBrokers)
    ensures resyncVisibilities ==>
              && Flatten(r.chunks) == i.smBrokers && PassChain(e.cfg, e.sm, i.smPlans, r.chunks, states, r.chunkOk)
              && states[0] == old(e.grants) && states[|r.chunks|] == e.grants
    ensures refused + cut == e.Disturbances() - old(e.Disturbances())
    ensures WorkLogged(e.cfg, r.existing, i.smBrokers, brokerLog, refused)
    ensures refused == 0 && AllSucceeded(brokerLog) ==> r.brokersOk
    ensures ChunksLogged(e.cfg, e.sm, i.smPlans, r.chunks, states, r.chunkOk, access, cut)
  {
    var brokersOk;
    PlansHaveListedBrokers(e.sm, i.smBrokers);
    brokersOk, brokerLog := ReconcileBrokers(e, i.existing, i.smBrokers);
    refused := e.Disturbances() - old(e.Disturbances());
    var chunks, ok;
    chunks, ok, states, access := ResyncVisibilities(e, resyncVisibilities, chunkSize, i.smPlans, i.smBrokers);
    cut := e.Disturbances() - old(e.Disturbances()) - refused;
    r := Report(i.existing, brokersOk, chunks, ok);
  }

  /** The two halves as one. */
  method Reconcile(e: Endpoints, i: Inputs, chunkSize: int, resyncVisibilities: bool)
    returns (r: Report, ghost states: seq<set<Grant>>, ghost log: seq<Event>)
    requires AreInputs(e, i) && (chunkSize >= 0 || !resyncVisibilities || i.smBrokers == [])
    modifies e`regs, e`grants, e`trace, e`cancellations, e`failedListings
    ensures e.trace == old(e.trace) + log && Disciplined(e.cfg, log) && BrokersFirst(log) && r.Report?
    ensures !resyncVisibilities ==> e.grants == old(e.grants) && AboutBrokers(log) && r.chunks == []
    ensures BrokersResynced(e.cfg, old(e.regs), r, i.smBrokers, e.regs)
    ensures resyncVisibilities ==> VisibilitiesResynced(e.cfg, e.sm, old(e.grants), r, i.smBrokers, states, e.grants)
    ensures e.Disturbances() >= old(e.Disturbances())
    ensures FullyLogged(e.cfg, e.sm, r, i.smBrokers, states, log, e.Disturbances() - old(e.Disturbances()))
  {
    ghost var brokerLog, access, refused, cut;
    r, states, brokerLog, access, refused, cut := ReconcileHalves(e, i, chunkSize, resyncVisibilities);
    LoggedInFull(e.cfg, e.sm, r, i.smBrokers, states, brokerLog, access, refused, cut, refused + cut);
    AccessComesLast(e.cfg, brokerLog, access);
    Regroup(old(e.trace), brokerLog, access);
    log := brokerLog + access;
  }

  lemma NoChunks(cfg: Config, sm: SMState, plans: map<string, BrokerPlan>)
    ensures ChunksLogged(cfg, sm, plans, [], [{}], [], [], 0)
  {
    assert CallsOfChunks(cfg, sm, plans, [], [{}], [], [], []);
  }

  /** A resync without a disturbance whose calls all succeeded reports nothing else. */
  lemma SuccessIsReported(cfg: Config, sm: SMState, r: Report, desired: seq<ServiceBroker>, states: seq<set<Grant>>,
                          log: seq<Event>)
    requires r.Report? && FullyLogged(cfg, sm, r, desired, states, log, 0) && AllSucceeded(log)
    ensures r.brokersOk && forall c :: 0 <= c < |r.chunkOk| ==> r.chunkOk[c]
  {
    var brokerLog, access, refused: nat, cut: nat :|
      refused + cut <= 0 && LoggedAs(cfg, sm, r, desired, states, log, brokerLog, access, refused, cut);
    AllSucceededConcat(brokerLog, access);
    UndisturbedChunks(cfg, sm, SMPlans(sm, desired), r.chunks, states, r.chunkOk, access);
  }

  /** The platform has come to SM's brokers, if it was ready for them, and, if visibilities were resynced, to what SM
      grants, if no key is ambiguous. */
  ghost predicate CameToSM(cfg: Config, sm: SMState, regs: map<string, Registration>, grants: set<Grant>, r: Report,
                           visibilities: bool, regs': map<string, Registration>, grants': set<Grant>)
    requires r.Report?
  {
    var desired := Allowed(cfg, sm.brokers);
    && (Ready(cfg, regs, r.existing, desired) ==> Converged(cfg, regs', desired))
    && (visibilities && Separate(cfg, desired) && ClearAccess(cfg, sm, grants) ==>
          Listed(cfg, grants', Names(cfg, desired)) == SMGrants(cfg, sm))
  }

  lemma SuccessfulResync(cfg: Config, sm: SMState, regs: map<string, Registration>, grants: set<Grant>, r: Report,
      visibilities: bool, states: seq<set<Grant>>, log: seq<Event>, regs': map<string, Registration>,
      grants': set<Grant>)
    requires r.Report? && FullyLogged(cfg, sm, r, Allowed(cfg, sm.brokers), states, log, 0) && AllSucceeded(log)
    requires BrokersResynced(cfg, regs, r, Allowed(cfg, sm.brokers), regs')
    requires visibilities ==> VisibilitiesResynced(cfg, sm, grants, r, Allowed(cfg, sm.brokers), states, grants')
    ensures CameToSM(cfg, sm, regs, grants, r, visibilities, regs', grants')
  {
    SuccessIsReported(cfg, sm, r, Allowed(cfg, sm.brokers), states, log);
    if visibilities && Separate(cfg, Allowed(cfg, sm.brokers)) && ClearAccess(cfg, sm, grants) {
      VisibilitiesEstablished(cfg, sm, grants, grants', r, states);
    }
  }

  /** Nothing is done only if something could not be listed or the platform cannot handle both. The calls are those of
      every task and every chunk, but for those that met a disturbance: a cancellation or a failed listing. If there
      was none and no call failed, the platform has come to what SM wants. */
  method Process(e: Endpoints, handlesBoth: bool, chunkSize: int, resyncVisibilities: bool)
    returns (r: Report, ghost states: seq<set<Grant>>, ghost log: seq<Event>)
    requires chunkSize >= 0 || !resyncVisibilities || Allowed(e.cfg, e.sm.brokers) == []
    modifies e`regs, e`grants, e`trace, e`cancellations, e`failedListings
    ensures e.trace == old(e.trace) + log && Disciplined(e.cfg, log) && BrokersFirst(log)
    ensures r == NotStarted ==> e.regs == old(e.regs) && e.grants == old(e.grants) && log == []
    ensures !resyncVisibilities ==> e.grants == old(e.grants) && AboutBrokers(log) && (r.Report? ==> r.chunks == [])
    ensures r.Report? ==> handlesBoth && BrokersResynced(e.cfg, old(e.regs), r, Allowed(e.cfg, e.sm.brokers), e.regs)
    ensures r.Report? && resyncVisibilities ==>
              VisibilitiesResynced(e.cfg, e.sm, old(e.grants), r, Allowed(e.cfg, e.sm.brokers), states, e.grants)
    ensures e.Disturbances() >= old(e.Disturbances())
    ensures r == NotStarted ==>
              && (!handlesBoth || e.failedListings == old(e.failedListings) + 1)
              && e.cancellations == old(e.cancellations)
    ensures r.Report? ==> FullyLogged(e.cfg, e.sm, r, Allowed(e.cfg, e.sm.brokers), states, log,
                                      e.Disturbances() - old(e.Disturbances()))
    ensures r.Report? && e.Disturbances() == old(e.Disturbances()) && AllSucceeded(log) ==>
              CameToSM(e.cfg, e.sm, old(e.regs), old(e.grants), r, resyncVisibilities, e.regs, e.grants)
  {
    r, states, log := NotStarted, [{}], [];
    var inputs := Gather(e, handlesBoth);
    if inputs.Some? {
      r, states, log := Reconcile(e, inputs.value, chunkSize, resyncVisibilities);
      if e.Disturbances() == old(e.Disturbances()) && AllSucceeded(log) {
        SuccessfulResync(e.cfg, e.sm, old(e.regs), old(e.grants), r, resyncVisibilities, states, log, e.regs, e.grants);
      }
    }
  }

  /** A resync of the brokers alone: whether it was started, and if so what it came to. */
  ghost predicate BrokersDone(cfg: Config, sm: SMState, handlesBoth: bool, disturbances: nat,
                              before: map<string, Registration>, r: Report, log: seq<Event>,
                              after: map<string, Registration>)
  {
    if r == NotStarted then log == [] && after == before && (!handlesBoth || disturbances > 0)
    else
      && handlesBoth && BrokersResynced(cfg, before, r, Allowed(cfg, sm.brokers), after)
      && WorkLogged(cfg, r.existing, Allowed(cfg, sm.brokers), log, disturbances)
      && (disturbances == 0 && AllSucceeded(log) ==> r.brokersOk)
  }

  lemma BrokersAloneLogged(cfg: Config, sm: SMState, r: Report, desired: seq<ServiceBroker>, states: seq<set<Grant>>,
                           log: seq<Event>, disturbances: nat)
    requires r.Report? && r.chunks == [] && FullyLogged(cfg, sm, r, desired, states, log, disturbances)
    ensures WorkLogged(cfg, r.existing, desired, log, disturbances)
    ensures disturbances == 0 && AllSucceeded(log) ==> r.brokersOk
  {
    var brokerLog, access, refused: nat, cut: nat :|
      refused + cut <= disturbances && LoggedAs(cfg, sm, r, desired, states, log, brokerLog, access, refused, cut);
    NothingWithoutChunks(cfg, sm, SMPlans(sm, desired), states, r.chunkOk, access, cut);
    assert log == brokerLog;
    MoreMayBeRefused(cfg, r.existing, desired, log, refused, disturbances);
  }

  lemma NothingWithoutChunks(cfg: Config, sm: SMState, plans: map<string, BrokerPlan>, states: seq<set<Grant>>,
                             ok: seq<bool>, access: seq<Event>, cut: nat)
    requires ChunksLogged(cfg, sm, plans, [], states, ok, access, cut)
    ensures access == []
  {
  }

  lemma MoreMayBeRefused(cfg: Config, existing: seq<ServiceBroker>, desired: seq<ServiceBroker>, log: seq<Event>,
                         refused: nat, more: nat)
    requires WorkLogged(cfg, existing, desired, log, refused) && refused <= more
    ensures WorkLogged(cfg, existing, desired, log, more)
  {
  }

  method ProcessBrokers(e: Endpoints, handlesBoth: bool, chunkSize: int) returns (r: Report, ghost log: seq<Event>)
    requires chunkSize >= 0
    modifies e`regs, e`grants, e`trace, e`cancellations, e`failedListings
    ensures e.trace == old(e.trace) + log && Disciplined(e.cfg, log) && AboutBrokers(log) && e.grants == old(e.grants)
    ensures e.Disturbances() >= old(e.Disturbances())
    ensures BrokersDone(e.cfg, e.sm, handlesBoth, e.Disturbances() - old(e.Disturbances()), old(e.regs), r, log, e.regs)
  {
    ghost var states;
    r, states, log := Process(e, handlesBoth, chunkSize, false);
    if r.Report? {
      BrokersAloneLogged(e.cfg, e.sm, r, Allowed(e.cfg, e.sm.brokers), states, log,
                         e.Disturbances() - old(e.Disturbances()));
    }
  }

  lemma AccessIsDisciplined(cfg: Config, calls: seq<Event>)
    requires OnlyAccess(calls)
    ensures Disciplined(cfg, calls)
  {
  }

  function SMGrants(cfg: Config, sm: SMState): set<Grant> {
    Visibilities.DesiredAll(cfg, sm.visibilities, SMPlans(sm, Allowed(cfg, sm.brokers)))
  }

  /** The right lets those see the catalog plan whom the visibility names: everyone if it belongs to no platform or
      has no scope, else the holders of its scopes. */
  predicate GrantedBy(cfg: Config, v: SMVisibility, p: ServicePlan, b: ServiceBroker, x: Grant) {
    && v.planID == p.id && x.brokerName == ProxyNameOf(cfg, b) && x.planID == p.catalogID
    && if v.platformID == "" || cfg.scopeKey !in v.labels || v.labels[cfg.scopeKey] == [] then x.audience == Everyone
       else x.audience.Holder? && x.audience.key == cfg.scopeKey && x.audience.value in v.labels[cfg.scopeKey]
  }

  /** Some visibility of SM grants the right on a plan of a broker that is not blacklisted. */
  ghost predicate GrantedBySM(cfg: Config, sm: SMState, x: Grant) {
    exists v, p, b ::
      && v in sm.visibilities && p in sm.plans && b in sm.brokers && b.name !in cfg.brokerBlacklist
      && OfferedBy(sm, p, b) && GrantedBy(cfg, v, p, b, x)
  }

  /** What SM grants, without the joins that the code makes. */
  lemma SMGrantsIff(cfg: Config, sm: SMState, x: Grant)
    requires DistinctIDs(sm, Allowed(cfg, sm.brokers))
    ensures x in SMGrants(cfg, sm) <==> GrantedBySM(cfg, sm, x)
  {
    var brokers := Allowed(cfg, sm.brokers);
    var plans := SMPlans(sm, brokers);
    if x in SMGrants(cfg, sm) {
      var i :| 0 <= i < |sm.visibilities| && sm.visibilities[i].planID in plans
               && x in Visibilities.Desired(cfg, sm.visibilities[i], plans[sm.visibilities[i].planID]);
      var v := sm.visibilities[i];
      var p, b := plans[v.planID].plan, plans[v.planID].broker;
      PlanIsJoinedIff(sm, brokers, p, b);
      AllowedKeepsTheRest(cfg, sm.brokers, b);
      DesiredIsGranted(cfg, v, p, b, x);
      assert GrantedBySM(cfg, sm, x);
    }
    if GrantedBySM(cfg, sm, x) {
      var v, p, b :| v in sm.visibilities && p in sm.plans && b in sm.brokers && b.name !in cfg.brokerBlacklist
                     && OfferedBy(sm, p, b) && GrantedBy(cfg, v, p, b, x);
      PlanIsJoinedIff(sm, brokers, p, b);
      AllowedKeepsTheRest(cfg, sm.brokers, b);
      DesiredIsGranted(cfg, v, p, b, x);
      var i :| 0 <= i < |sm.visibilities| && sm.visibilities[i] == v;
      assert x in Visibilities.Desired(cfg, sm.visibilities[i], plans[sm.visibilities[i].planID]);
    }
  }

  lemma DesiredIsGranted(cfg: Config, v: SMVisibility, p: ServicePlan, b: ServiceBroker, x: Grant)
    requires v.planID == p.id
    ensures x in Visibilities.Desired(cfg, v, BrokerPlan(p, b)) <==> GrantedBy(cfg, v, p, b, x)
  {
  }

  /** No scope and no broker name contains the separator of visibility keys, among the rights that the platform
      lists for the brokers of SM and those that SM grants. */
  ghost predicate ClearAccess(cfg: Config, sm: SMState, grants: set<Grant>) {
    Clear(Listed(cfg, grants, Names(cfg, Allowed(cfg, sm.brokers))) + SMGrants(cfg, sm))
  }

  /** The visibility half without a failing call, whatever the chunk size: what the platform lists for the brokers
      is what SM grants, and the rest is as before. */
  lemma VisibilitiesEstablished(cfg: Config, sm: SMState, grants: set<Grant>, grants': set<Grant>, r: Report,
                                states: seq<set<Grant>>)
    requires r.Report? && forall c :: 0 <= c < |r.chunkOk| ==> r.chunkOk[c]
    requires VisibilitiesResynced(cfg, sm, grants, r, Allowed(cfg, sm.brokers), states, grants')
    requires Separate(cfg, Allowed(cfg, sm.brokers)) && ClearAccess(cfg, sm, grants)
    ensures grants' == Reconciled(cfg, grants, Names(cfg, Allowed(cfg, sm.brokers)), SMGrants(cfg, sm))
    ensures Listed(cfg, grants', Names(cfg, Allowed(cfg, sm.brokers))) == SMGrants(cfg, sm)
    ensures DistinctIDs(sm, Allowed(cfg, sm.brokers)) ==> ShowsSM(cfg, sm, grants')
  {
    var desired := Allowed(cfg, sm.brokers);
    PlansHaveListedBrokers(sm, desired);
    ChainConverges(cfg, sm, SMPlans(sm, desired), r.chunks, states, r.chunkOk);
    WantedIsListed(cfg, sm, desired);
    ReconciledIsListed(cfg, grants, Names(cfg, desired), SMGrants(cfg, sm));
    if DistinctIDs(sm, desired) {
      ListedIsGranted(cfg, sm, grants');
    }
  }

  /** The rights that the platform lists for the brokers of SM are exactly those that a visibility of SM grants. */
  ghost predicate ShowsSM(cfg: Config, sm: SMState, grants: set<Grant>) {
    forall x :: x in Listed(cfg, grants, Names(cfg, Allowed(cfg, sm.brokers))) <==> GrantedBySM(cfg, sm, x)
  }

  lemma ListedIsGranted(cfg: Config, sm: SMState, grants: set<Grant>)
    requires DistinctIDs(sm, Allowed(cfg, sm.brokers))
    requires Listed(cfg, grants, Names(cfg, Allowed(cfg, sm.brokers))) == SMGrants(cfg, sm)
    ensures ShowsSM(cfg, sm, grants)
  {
    forall x ensures x in SMGrants(cfg, sm) <==> GrantedBySM(cfg, sm, x) {
      SMGrantsIff(cfg, sm, x);
    }
  }

  lemma ReconciledIsListed(cfg: Config, before: set<Grant>, names: set<string>, desired: set<Grant>)
    requires Within(cfg, desired, names)
    ensures Listed(cfg, Reconciled(cfg, before, names, desired), names) == desired
  {
  }

  /** A resync without a failing call, from a platform that is ready for it: the proxies are SM's brokers, what the
      platform lists for them is what SM grants, and another resync would find no broker to update, create or
      delete. */
  lemma ResyncEstablishesSM(cfg: Config, sm: SMState, regs: map<string, Registration>, regs': map<string, Registration>,
                            grants: set<Grant>, grants': set<Grant>, r: Report, states: seq<set<Grant>>,
                            existing': seq<ServiceBroker>)
    requires r.Report? && r.brokersOk && forall c :: 0 <= c < |r.chunkOk| ==> r.chunkOk[c]
    requires BrokersResynced(cfg, regs, r, Allowed(cfg, sm.brokers), regs')
    requires VisibilitiesResynced(cfg, sm, grants, r, Allowed(cfg, sm.brokers), states, grants')
    requires Ready(cfg, regs, r.existing, Allowed(cfg, sm.brokers)) && Separate(cfg, Allowed(cfg, sm.brokers))
    requires ClearAccess(cfg, sm, grants) && IsListing(regs', existing')
    ensures Converged(cfg, regs', Allowed(cfg, sm.brokers)) && OnlyFetches(cfg, existing', Allowed(cfg, sm.brokers))
    ensures Listed(cfg, grants', Names(cfg, Allowed(cfg, sm.brokers))) == SMGrants(cfg, sm)
    ensures DistinctIDs(sm, Allowed(cfg, sm.brokers)) ==> ShowsSM(cfg, sm, grants')
  {
    ConvergedNeedsNoTask(cfg, regs', existing', Allowed(cfg, sm.brokers));
    VisibilitiesEstablished(cfg, sm, grants, grants', r, states);
  }

  lemma PlansHaveListedBrokers(sm: SMState, brokers: seq<ServiceBroker>)
    ensures forall id :: id in SMPlans(sm, brokers) ==> SMPlans(sm, brokers)[id].broker in brokers
  {
    Indexing.IndexHoldsTheLast(brokers, (b: ServiceBroker) => Some(b.guid));
  }

  lemma WantedIsListed(cfg: Config, sm: SMState, desired: seq<ServiceBroker>)
    ensures Within(cfg, Visibilities.DesiredAll(cfg, sm.visibilities, SMPlans(sm, desired)), Names(cfg, desired))
  {
    PlansHaveListedBrokers(sm, desired);
  }
}
