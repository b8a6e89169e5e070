/** The reconciler: one goroutine that takes messages from the queue and works them off one at a time. */
module Reconciler {
  import opened Types
  import opened World
  import opened Credentials
  import B = BrokerHandler
  import V = VisibilityHandler
  import L = LabelChanges
  import Resync
  import R = BrokerReplay
  import BrokerConvergence
  import P = Pipeline

  /** Notifications about anything but brokers and visibilities have no handler. */
  datatype Notification =
    | OfBroker(operation: B.Operation, broker: Option<B.BrokerPayload>)
    | OfVisibility(operation: B.Operation, visibility: Option<V.Payload>)
    | OfOther

  datatype Message = ResyncMessage | Note(notification: Notification)

  /** What the platform's clients can do, and the size of the chunks of a visibility resync. */
  datatype Setup = Setup(hasVisibilityClient: bool, handlesBoth: bool, chunkSize: nat)

  // ---- The queue ----

  class Queue {
    var messages: seq<Message>
    ghost var arrived: seq<Message>  // all that ever came in

    constructor ()
      ensures messages == [] && arrived == []
    {
      messages, arrived := [], [];
    }

    /** Other goroutines add messages at the end. */
    method Arrivals()
      modifies this
      ensures old(messages) <= messages
      ensures arrived == old(arrived) + messages[|old(messages)|..]
    {
      var more: seq<Message> := *;
      messages, arrived := messages + more, arrived + more;
    }

    method Receive() returns (m: Message)
      requires messages != []
      modifies this`messages
      ensures old(messages) == [m] + messages
    {
      m := messages[0];
      messages := messages[1..];
    }

    /** Discards what is in the queue and what comes in meanwhile, and returns when it finds the queue empty. */
    method Drain() returns (discarded: seq<Message>)
      modifies this
      ensures messages == [] && old(arrived) <= arrived
      ensures discarded == old(messages) + arrived[|old(arrived)|..]
    {
      discarded := [];
      var bursts: nat := *;
      while messages != []
        invariant old(arrived) <= arrived
        invariant discarded + messages == old(messages) + arrived[|old(arrived)|..]
        decreases bursts, |messages|
      {
        var m := Receive();
        assert discarded + ([m] + messages) == discarded + [m] + messages;
        discarded := discarded + [m];
        if bursts > 0 {
          bursts := bursts - 1;
          ghost var waiting, came := messages, arrived;
          Arrivals();
          ghost var more := messages[|waiting|..];
          assert messages == waiting + more && arrived[|old(arrived)|..] == came[|old(arrived)|..] + more;
          assert discarded + (waiting + more) == discarded + waiting + more;
        }
      }
    }
  }

  // ---- What one message does ----

  datatype Platform = Platform(regs: map<string, Registration>, grants: set<Grant>)

  /** One message worked off, with what SM held then and the calls it led to. A resync takes the place of the
      messages it discards, and reports what it did. `disturbances` counts the listings that failed and the
      times the context was found cancelled. */
  datatype Work =
    | Consumed(notification: Notification, sm: SMState, disturbances: nat, log: seq<Event>)
    | Resynced(discarded: seq<Message>, sm: SMState, disturbances: nat, report: Resync.Report, log: seq<Event>)

  ghost predicate BrokerWorked(cfg: Config, op: B.Operation, payload: Option<B.BrokerPayload>, log: seq<Event>,
                               before: Platform, after: Platform)
  {
    && after.grants == before.grants
    && exists found :: B.Outcome(cfg, B.ChangeOf(op, payload), before.regs, found, log, after.regs)
  }

  ghost predicate CreationWorked(cfg: Config, sm: SMState, handlesBoth: bool, disturbances: nat, v: V.Details,
                                 log: seq<Event>, before: Platform, after: Platform)
    requires v.resource.Some?
  {
    var wanted := V.GrantsOfDetails(cfg, v);
    && before.grants <= after.grants <= before.grants + wanted
    && exists report, resyncLog :: V.IsCreateLog(wanted, V.PlatformBroker(cfg, v), resyncLog, log)
         && V.ResyncedInBetween(cfg, sm, handlesBoth, disturbances, before.regs, report, resyncLog, log, after.regs)
         && (Back(log).Enable? && Back(log).ok ==> after.grants == before.grants + wanted)
  }

  ghost predicate UpdateWorked(cfg: Config, p: V.Payload, log: seq<Event>, before: Platform, after: Platform)
    requires p.before.resource.Some? && p.after.resource.Some?
  {
    && after.regs == before.regs
    && exists add, remove, g :: L.Collects(p.labelChanges, true, add) && L.Collects(p.labelChanges, false, remove)
         && V.IsUpdateLog(V.PlatformBroker(cfg, p.before), p, add, remove, g, log)
         && (AllSucceeded(log) ==>
               after.grants == V.Updated(before.grants, V.PlatformBroker(cfg, p.before), p, add, remove))
  }

  ghost predicate DeletionWorked(cfg: Config, v: V.Details, log: seq<Event>, before: Platform, after: Platform)
    requires v.resource.Some?
  {
    var unwanted := V.GrantsOfDetails(cfg, v);
    && after.regs == before.regs && before.grants - unwanted <= after.grants <= before.grants
    && exists ok: bool :: log == [Disable(unwanted, ok)] && (ok ==> after.grants == before.grants - unwanted)
  }

  ghost predicate VisibilityWorked(cfg: Config, sm: SMState, setup: Setup, disturbances: nat, op: B.Operation,
                                   payload: Option<V.Payload>, log: seq<Event>, before: Platform, after: Platform)
  {
    var acts := setup.hasVisibilityClient && payload.Some?
                && match op
                   case CREATED => V.Proceeds(cfg, payload.value.after)
                   case MODIFIED => V.ProceedsWithUpdate(cfg, payload.value)
                   case DELETED => V.Proceeds(cfg, payload.value.before);
    if !acts then log == [] && after == before
    else
      match op
      case CREATED => CreationWorked(cfg, sm, setup.handlesBoth, disturbances, payload.value.after, log, before, after)
      case MODIFIED => UpdateWorked(cfg, payload.value, log, before, after)
      case DELETED => DeletionWorked(cfg, payload.value.before, log, before, after)
  }

  ghost predicate ResyncWorked(cfg: Config, sm: SMState, handlesBoth: bool, disturbances: nat, r: Resync.Report,
                               log: seq<Event>, before: Platform, after: Platform)
  {
    var desired := Resync.Allowed(cfg, sm.brokers);
    if r == Resync.NotStarted then log == [] && after == before && (!handlesBoth || disturbances > 0)
    else
      && Resync.BrokersResynced(cfg, before.regs, r, desired, after.regs)
      && exists states ::
           && Resync.VisibilitiesResynced(cfg, sm, before.grants, r, desired, states, after.grants)
           && Resync.FullyLogged(cfg, sm, r, desired, states, log, disturbances)
  }

  ghost predicate Worked(cfg: Config, setup: Setup, w: Work, before: Platform, after: Platform) {
    match w
    case Consumed(OfBroker(op, payload), _, _, log) => BrokerWorked(cfg, op, payload, log, before, after)
    case Consumed(OfVisibility(op, payload), sm, disturbances, log) =>
      VisibilityWorked(cfg, sm, setup, disturbances, op, payload, log, before, after)
    case Consumed(OfOther, _, _, log) => log == [] && after == before
    case Resynced(_, sm, disturbances, r, log) =>
      ResyncWorked(cfg, sm, setup.handlesBoth, disturbances, r, log, before, after)
  }

  // ---- Consuming a notification ----

  method Consume(e: Endpoints, setup: Setup, n: Notification) returns (ghost log: seq<Event>)
    modifies e`regs, e`grants, e`trace, e`cancellations, e`failedListings
    ensures e.trace == old(e.trace) + log && Disciplined(e.cfg, log)
    ensures e.Disturbances() >= old(e.Disturbances())
    ensures var disturbances := e.Disturbances() - old(e.Disturbances());
            Worked(e.cfg, setup, Consumed(n, e.sm, disturbances, log), Platform(old(e.regs), old(e.grants)),
                   Platform(e.regs, e.grants))
  {
    match n
    case OfBroker(op, payload) => log := ConsumeBroker(e, op, payload);
    case OfVisibility(op, payload) => log := ConsumeVisibility(e, setup, op, payload);
    case OfOther => log := [];
  }

  method ConsumeBroker(e: Endpoints, op: B.Operation, payload: Option<B.BrokerPayload>) returns (ghost log: seq<Event>)
    modifies e`regs, e`trace
    ensures e.trace == old(e.trace) + log && Disciplined(e.cfg, log)
    ensures BrokerWorked(e.cfg, op, payload, log, Platform(old(e.regs), e.grants), Platform(e.regs, e.grants))
  {
    ghost var found;
    match op {
      case CREATED => found, log := B.OnCreate(e, payload);
      case MODIFIED => found, log := B.OnUpdate(e, payload);
      case DELETED => found, log := B.OnDelete(e, payload);
    }
    if B.ChangeOf(op, payload).Some? {
      B.HandlerIsDisciplined(e.cfg, B.ChangeOf(op, payload).value, found, log);
    }
  }

  method ConsumeVisibility(e: Endpoints, setup: Setup, op: B.Operation, payload: Option<V.Payload>)
    returns (ghost log: seq<Event>)
    modifies e`regs, e`grants, e`trace, e`cancellations, e`failedListings
    ensures e.trace == old(e.trace) + log && Disciplined(e.cfg, log)
    ensures e.Disturbances() >= old(e.Disturbances())
    ensures var disturbances := e.Disturbances() - old(e.Disturbances());
            VisibilityWorked(e.cfg, e.sm, setup, disturbances, op, payload, log,
                             Platform(old(e.regs), old(e.grants)), Platform(e.regs, e.grants))
  {
    match op {
      case CREATED => log := CreateVisibility(e, setup, payload);
      case MODIFIED => log := UpdateVisibility(e, setup, payload);
      case DELETED => log := DeleteVisibility(e, setup, payload);
    }
  }

  method CreateVisibility(e: Endpoints, setup: Setup, payload: Option<V.Payload>) returns (ghost log: seq<Event>)
    modifies e`regs, e`grants, e`trace, e`cancellations, e`failedListings
    ensures e.trace == old(e.trace) + log && Disciplined(e.cfg, log)
    ensures e.Disturbances() >= old(e.Disturbances())
    ensures var disturbances := e.Disturbances() - old(e.Disturbances());
            VisibilityWorked(e.cfg, e.sm, setup, disturbances, B.CREATED, payload, log,
                             Platform(old(e.regs), old(e.grants)), Platform(e.regs, e.grants))
  {
    ghost var report, resyncLog;
    report, resyncLog, log := V.OnCreate(e, setup.hasVisibilityClient, setup.handlesBoth, setup.chunkSize, payload);
    if setup.hasVisibilityClient && payload.Some? && V.Proceeds(e.cfg, payload.value.after) {
      var v := payload.value.after;
      V.CreateIsDisciplined(e.cfg, V.GrantsOfDetails(e.cfg, v), V.PlatformBroker(e.cfg, v), resyncLog, log);
    }
  }

  method UpdateVisibility(e: Endpoints, setup: Setup, payload: Option<V.Payload>) returns (ghost log: seq<Event>)
    modifies e`grants, e`trace
    ensures e.trace == old(e.trace) + log && Disciplined(e.cfg, log)
    ensures VisibilityWorked(e.cfg, e.sm, setup, 0, B.MODIFIED, payload, log,
                             Platform(e.regs, old(e.grants)), Platform(e.regs, e.grants))
  {
    ghost var add, remove, g;
    add, remove, g, log := V.OnUpdate(e, setup.hasVisibilityClient, payload);
    if setup.hasVisibilityClient && payload.Some? && V.ProceedsWithUpdate(e.cfg, payload.value) {
      var p := payload.value;
      V.UpdateIsDisciplined(e.cfg, V.PlatformBroker(e.cfg, p.before), p, add, remove, g, log);
    }
  }

  method DeleteVisibility(e: Endpoints, setup: Setup, payload: Option<V.Payload>) returns (ghost log: seq<Event>)
    modifies e`grants, e`trace
    ensures e.trace == old(e.trace) + log && Disciplined(e.cfg, log)
    ensures VisibilityWorked(e.cfg, e.sm, setup, 0, B.DELETED, payload, log,
                             Platform(e.regs, old(e.grants)), Platform(e.regs, e.grants))
  {
    log := V.OnDelete(e, setup.hasVisibilityClient, payload);
    assert log != [] ==> log == [Disable(log[0].grants, log[0].ok)];
  }

  // ---- Working off the queue ----

  method ResyncAll(e: Endpoints, setup: Setup) returns (r: Resync.Report, ghost log: seq<Event>)
    modifies e`regs, e`grants, e`trace, e`cancellations, e`failedListings
    ensures e.trace == old(e.trace) + log && Disciplined(e.cfg, log)
    ensures e.Disturbances() >= old(e.Disturbances())
    ensures var disturbances := e.Disturbances() - old(e.Disturbances());
            ResyncWorked(e.cfg, e.sm, setup.handlesBoth, disturbances, r, log, Platform(old(e.regs), old(e.grants)),
                         Platform(e.regs, e.grants))
  {
    ghost var states;
    r, states, log := Resync.Process(e, setup.handlesBoth, setup.chunkSize, true);
  }

  function LogOf(work: seq<Work>): seq<Event> {
    if work == [] then [] else LogOf(work[..|work| - 1]) + work[|work| - 1].log
  }

  /** The messages that were taken from the queue, in the order in which they were in it. */
  function Taken(work: seq<Work>): seq<Message> {
    if work == [] then []
    else
      var w := work[|work| - 1];
      Taken(work[..|work| - 1])
      + match w
        case Consumed(n, _, _, _) => [Note(n)]
        case Resynced(discarded, _, _, _, _) => [ResyncMessage] + discarded
  }

  function DisturbancesOf(work: seq<Work>): nat {
    if work == [] then 0 else DisturbancesOf(work[..|work| - 1]) + work[|work| - 1].disturbances
  }

  ghost predicate WorkedAt(cfg: Config, setup: Setup, work: seq<Work>, platforms: seq<Platform>, k: nat) {
    k < |work| && k + 1 < |platforms| && Worked(cfg, setup, work[k], platforms[k], platforms[k + 1])
  }

  /** Each message was worked off on the platform that the one before left. */
  ghost predicate IsHistory(cfg: Config, setup: Setup, work: seq<Work>, platforms: seq<Platform>) {
    |platforms| == |work| + 1 && forall k: nat :: k < |work| ==> WorkedAt(cfg, setup, work, platforms, k)
  }

  lemma WorkGoesOn(cfg: Config, setup: Setup, work: seq<Work>, platforms: seq<Platform>, w: Work, p: Platform)
    requires IsHistory(cfg, setup, work, platforms) && Worked(cfg, setup, w, Back(platforms), p)
    requires Disciplined(cfg, LogOf(work)) && Disciplined(cfg, w.log)
    ensures IsHistory(cfg, setup, work + [w], platforms + [p])
    ensures LogOf(work + [w]) == LogOf(work) + w.log && Disciplined(cfg, LogOf(work + [w]))
    ensures Taken(work + [w]) == Taken(work) + Taken([w])
    ensures DisturbancesOf(work + [w]) == DisturbancesOf(work) + w.disturbances
  {
    var work', platforms' := work + [w], platforms + [p];
    assert work'[..|work|] == work && [w][..0] == [];
    forall k: nat | k < |work'| ensures WorkedAt(cfg, setup, work', platforms', k) {
      if k < |work| {
        assert WorkedAt(cfg, setup, work, platforms, k);
      }
    }
    DisciplinedConcat(cfg, LogOf(work), w.log);
  }

  /** A request for a resync, once taken. */
  method DrainAndResync(e: Endpoints, setup: Setup, queue: Queue) returns (ghost w: Work)
    modifies e`regs, e`grants, e`trace, e`cancellations, e`failedListings, queue
    ensures w.Resynced? && e.trace == old(e.trace) + w.log && Disciplined(e.cfg, w.log) && w.sm == e.sm
    ensures e.Disturbances() == old(e.Disturbances()) + w.disturbances
    ensures queue.messages == [] && old(queue.arrived) <= queue.arrived
    ensures w.discarded == old(queue.messages) + queue.arrived[|old(queue.arrived)|..]
    ensures Worked(e.cfg, setup, w, Platform(old(e.regs), old(e.grants)), Platform(e.regs, e.grants))
  {
    var discarded := queue.Drain();
    var report;
    ghost var log;
    report, log := ResyncAll(e, setup);
    ghost var disturbances := e.Disturbances() - old(e.Disturbances());
    w := Resynced(discarded, e.sm, disturbances, report, log);
  }

  /** The messages that one piece of work took, those still waiting, and those that were there or came in. */
  lemma TakenByOne(w: Work, m: Message, rest: seq<Message>, came: seq<Message>, waiting: seq<Message>)
    requires match w
             case Consumed(n, _, _, _) => m == Note(n) && came == [] && waiting == rest
             case Resynced(discarded, _, _, _, _) => m == ResyncMessage && discarded == rest + came && waiting == []
    ensures Taken([w]) + waiting == [m] + rest + came
  {
    assert Taken([w][..0]) == [];
    assert [m] + (rest + came) == [m] + rest + came;
  }

  /** Takes one message and works it off. */
  method WorkOff(e: Endpoints, setup: Setup, queue: Queue) returns (ghost w: Work)
    requires queue.messages != []
    modifies e`regs, e`grants, e`trace, e`cancellations, e`failedListings, queue
    ensures e.trace == old(e.trace) + w.log && Disciplined(e.cfg, w.log) && w.sm == e.sm
    ensures e.Disturbances() == old(e.Disturbances()) + w.disturbances
    ensures w.Resynced? <==> old(queue.messages)[0].ResyncMessage?
    ensures old(queue.arrived) <= queue.arrived
    ensures Taken([w]) + queue.messages == old(queue.messages) + queue.arrived[|old(queue.arrived)|..]
    ensures Worked(e.cfg, setup, w, Platform(old(e.regs), old(e.grants)), Platform(e.regs, e.grants))
  {
    var m := queue.Receive();
    ghost var rest := queue.messages;
    if m.ResyncMessage? {
      w := DrainAndResync(e, setup, queue);
    } else {
      ghost var log := Consume(e, setup, m.notification);
      ghost var disturbances := e.Disturbances() - old(e.Disturbances());
      w := Consumed(m.notification, e.sm, disturbances, log);
    }
    TakenByOne(w, m, rest, queue.arrived[|old(queue.arrived)|..], queue.messages);
  }

  /** What has come in has been taken in order or is still there, and the calls so far kept the order of credentials. */
  ghost predicate InOrder(cfg: Config, work: seq<Work>, waiting: seq<Message>, arrived: seq<Message>) {
    Taken(work) + waiting == arrived && Disciplined(cfg, LogOf(work))
  }

  lemma TakenGoesOn(taken: seq<Message>, more: seq<Message>, waiting: seq<Message>, waiting': seq<Message>,
                    arrived: seq<Message>, arrived': seq<Message>)
    requires taken + waiting == arrived <= arrived' && more + waiting' == waiting + arrived'[|arrived|..]
    ensures taken + more + waiting' == arrived'
  {
    assert taken + more + waiting' == taken + (more + waiting');
    assert taken + (waiting + arrived'[|arrived|..]) == arrived + arrived'[|arrived|..];
  }

  /** One round: takes a message if there is one. */
  method Round(e: Endpoints, setup: Setup, queue: Queue, ghost work: seq<Work>, ghost platforms: seq<Platform>)
    returns (ghost work': seq<Work>, ghost platforms': seq<Platform>)
    requires IsHistory(e.cfg, setup, work, platforms) && Back(platforms) == Platform(e.regs, e.grants)
    requires InOrder(e.cfg, work, queue.messages, queue.arrived)
    modifies e`regs, e`grants, e`trace, e`cancellations, e`failedListings, queue
    ensures IsHistory(e.cfg, setup, work', platforms') && Back(platforms') == Platform(e.regs, e.grants)
    ensures if old(queue.messages) == [] then work' == work else |work'| == |work| + 1 && Taken(work) <= Taken(work')
    ensures old(queue.arrived) <= queue.arrived
    ensures DisturbancesOf(work') - DisturbancesOf(work) == e.Disturbances() - old(e.Disturbances())
    ensures platforms <= platforms' && InOrder(e.cfg, work', queue.messages, queue.arrived)
    ensures exists more :: LogOf(work') == LogOf(work) + more && e.trace == old(e.trace) + more
  {
    work', platforms' := work, platforms;
    ghost var more := [];
    if queue.messages != [] {
      ghost var w := WorkOff(e, setup, queue);
      WorkGoesOn(e.cfg, setup, work, platforms, w, Platform(e.regs, e.grants));
      TakenGoesOn(Taken(work), Taken([w]), old(queue.messages), queue.messages, old(queue.arrived), queue.arrived);
      work', platforms' := work + [w], platforms + [Platform(e.regs, e.grants)];
      more := w.log;
    }
    assert LogOf(work') == LogOf(work) + more && e.trace == old(e.trace) + more;
  }

  /** What others do before the next round, unless there is none because the context is cancelled, and the round. */
  method Turn(e: Endpoints, setup: Setup, queue: Queue, ghost work: seq<Work>, ghost platforms: seq<Platform>)
    returns (cancelled: bool, ghost work': seq<Work>, ghost platforms': seq<Platform>)
    requires IsHistory(e.cfg, setup, work, platforms) && Back(platforms) == Platform(e.regs, e.grants)
    requires InOrder(e.cfg, work, queue.messages, queue.arrived)
    modifies e`sm, e`regs, e`grants, e`trace, e`cancellations, e`failedListings, queue
    ensures IsHistory(e.cfg, setup, work', platforms') && Back(platforms') == Platform(e.regs, e.grants)
    ensures platforms <= platforms' && InOrder(e.cfg, work', queue.messages, queue.arrived)
    ensures exists more :: LogOf(work') == LogOf(work) + more && e.trace == old(e.trace) + more
    ensures DisturbancesOf(work') - DisturbancesOf(work) + (if cancelled then 1 else 0)
         == e.Disturbances() - old(e.Disturbances())
    ensures |Taken(work')| >= |Taken(work)| && |queue.arrived| >= |old(queue.arrived)|
    ensures !cancelled ==> |work'| == |work| + 1 || |Taken(work')| >= |old(queue.arrived)|
  {
    queue.Arrivals();
    e.OthersChangeSM();
    cancelled := e.IsCancelled();
    work', platforms' := work, platforms;
    ghost var arrived := queue.arrived;
    if cancelled {
      assert LogOf(work') == LogOf(work) + [] && e.trace == old(e.trace) + [];
    } else {
      work', platforms' := Round(e, setup, queue, work, platforms);
      assert work' == work ==> |Taken(work)| == |arrived|;
    }
  }

  /** Works on until the context is cancelled, here for at most the given number of rounds. Whatever arrives,
      whatever fails and however SM changes between the messages: every message that came in is, in order, consumed,
      a resync, discarded by the resync before it, or still in the queue; the platform goes from one handler or
      resync to the next; and over all of them every call carries credentials that SM has accepted for its broker,
      or empty ones after a conflict, and only such are activated, after the call. Unless the loop itself finds the
      context cancelled, each round works off a message as long as one of those at the beginning is still there; and
      every disturbance belongs to one message, but for the cancellation that stops the loop. */
  method Process(e: Endpoints, setup: Setup, queue: Queue, rounds: nat)
    returns (ghost work: seq<Work>, ghost platforms: seq<Platform>, ghost stopped: bool)
    requires queue.arrived == queue.messages
    modifies e`sm, e`regs, e`grants, e`trace, e`cancellations, e`failedListings, queue
    ensures !stopped ==> |work| == rounds || |Taken(work)| >= |old(queue.messages)|
    ensures e.Disturbances() == old(e.Disturbances()) + DisturbancesOf(work) + if stopped then 1 else 0
    ensures InOrder(e.cfg, work, queue.messages, queue.arrived) && e.trace == old(e.trace) + LogOf(work)
    ensures IsHistory(e.cfg, setup, work, platforms)
    ensures platforms[0] == Platform(old(e.regs), old(e.grants)) && Back(platforms) == Platform(e.regs, e.grants)
  {
    work, platforms, stopped := [], [Platform(e.regs, e.grants)], false;
    for i := 0 to rounds
      invariant InOrder(e.cfg, work, queue.messages, queue.arrived) && e.trace == old(e.trace) + LogOf(work)
      invariant IsHistory(e.cfg, setup, work, platforms)
      invariant platforms[0] == Platform(old(e.regs), old(e.grants)) && Back(platforms) == Platform(e.regs, e.grants)
      invariant !stopped && e.Disturbances() == old(e.Disturbances()) + DisturbancesOf(work)
      invariant |old(queue.messages)| <= |queue.arrived|
      invariant |work| == i || |Taken(work)| >= |old(queue.messages)|
    {
      var cancelled;
      cancelled, work, platforms := Turn(e, setup, queue, work, platforms);
      if cancelled {
        stopped := true;
        return;
      }
    }
  }

  // ---- A queue of broker notifications ----

  /** The work consumed exactly these changes of brokers, and no call failed. */
  ghost predicate ConsumedChanges(work: seq<Work>, changes: seq<B.Change>) {
    |work| == |changes|
    && forall k :: 0 <= k < |work| ==> ConsumedChange(work[k], changes[k])
  }

  predicate ConsumedChange(w: Work, c: B.Change) {
    w.Consumed? && w.notification.OfBroker? && AllSucceeded(w.log)
    && B.ChangeOf(w.notification.operation, w.notification.broker) == Some(c)
  }

  function RegistrationsOf(platforms: seq<Platform>): seq<map<string, Registration>> {
    seq(|platforms|, k requires 0 <= k < |platforms| => platforms[k].regs)
  }

  /** The states of SM between these changes. */
  ghost predicate IsSMHistory(history: seq<R.SMBrokers>, changes: seq<B.Change>) {
    |history| == |changes| + 1 && forall k :: 0 <= k < |changes| ==> R.Steps(history[k], changes[k], history[k + 1])
  }

  lemma QueueIsReplay(cfg: Config, setup: Setup, work: seq<Work>, platforms: seq<Platform>, changes: seq<B.Change>,
                      history: seq<R.SMBrokers>)
    requires IsHistory(cfg, setup, work, platforms) && ConsumedChanges(work, changes) && IsSMHistory(history, changes)
    ensures R.IsReplay(cfg, history, changes, RegistrationsOf(platforms))
  {
    forall t: nat | t < |changes| {
      ConsumedIsReplayed(cfg, setup, work, platforms, changes, history, t);
    }
  }

  lemma ConsumedIsReplayed(cfg: Config, setup: Setup, work: seq<Work>, platforms: seq<Platform>, changes: seq<B.Change>,
                           history: seq<R.SMBrokers>, t: nat)
    requires IsHistory(cfg, setup, work, platforms) && ConsumedChanges(work, changes) && IsSMHistory(history, changes)
    requires t < |changes|
    ensures R.ReplayedAt(cfg, history, changes, RegistrationsOf(platforms), t)
  {
    assert WorkedAt(cfg, setup, work, platforms, t);
    assert ConsumedChange(work[t], changes[t]);
    ConsumedIsHandled(cfg, setup, work[t], changes[t], platforms[t], platforms[t + 1]);
  }

  /** The reconciler, working off such a queue after a resync that was ahead of it, ends with exactly the brokers
      that SM has after the last of the changes. */
  lemma StaleQueueConverges(cfg: Config, setup: Setup, work: seq<Work>, platforms: seq<Platform>,
      changes: seq<B.Change>, history: seq<R.SMBrokers>, m: nat, brokers: set<ServiceBroker>, length: nat,
      desired: seq<ServiceBroker>)
    requires IsHistory(cfg, setup, work, platforms) && ConsumedChanges(work, changes) && IsSMHistory(history, changes)
    requires R.StartsAhead(cfg, history, changes, RegistrationsOf(platforms), m, brokers, length)
    requires R.CurrentURLs(cfg, platforms[0].regs) && R.SlashFree(changes)
    requires R.KeyedByID(history[|changes|]) && R.Lists(R.Wanted(cfg, history[|changes|]), desired)
    ensures BrokerConvergence.Converged(cfg, Back(platforms).regs, desired)
  {
    QueueIsReplay(cfg, setup, work, platforms, changes, history);
    R.StaleReplayConverges(cfg, history, changes, RegistrationsOf(platforms), m, brokers, length, desired);
  }

  lemma ConsumedIsHandled(cfg: Config, setup: Setup, w: Work, c: B.Change, before: Platform, after: Platform)
    requires Worked(cfg, setup, w, before, after) && ConsumedChange(w, c)
    ensures B.Handled(cfg, before.regs, c, after.regs)
  {
  }

  // ---- One message as steps of the Pipeline ----

  /** The queue of the Pipeline, where a notification is only a position in SM's log, has the same kinds of messages. */
  ghost predicate SameKinds(ms: seq<Message>, queue: seq<P.Message>) {
    |ms| == |queue| && forall i :: 0 <= i < |ms| ==> (ms[i].ResyncMessage? <==> queue[i].ResyncMessage?)
  }

  lemma DrainIsSteps(capacity: nat, run: seq<P.System>, k: nat) returns (longer: seq<P.System>)
    requires P.IsRun(capacity, run) && Back(run).consumer == P.Draining && k <= |Back(run).queue|
    ensures P.IsRun(capacity, longer)
    ensures var s := Back(run);
            exists more :: Back(longer) == s.(queue := s.queue[k..], discarded := more)
  {
    longer := run;
    ghost var s, more := Back(run), Back(run).discarded;
    for i := 0 to k
      invariant P.IsRun(capacity, longer) && Back(longer) == s.(queue := s.queue[i..], discarded := more)
    {
      more := more + P.IndexOf(s.queue[i]);
      longer := P.Extend(capacity, longer, P.Reconcile(P.DrainOne));
    }
  }

  /** Where the reconciler is after one message, with the Pipeline's queue without the messages that were taken. */
  ghost predicate TookMessage(w: Work, taken: nat, s: P.System, s': P.System) {
    && s'.consumer == P.Ready && s'.log == s.log && 0 < taken <= |s.queue| && s'.queue == s.queue[taken..]
    && match w
       case Consumed(_, _, _, _) => s.queue[0].Note? && s'.consumed == s.consumed + {s.queue[0].index}
       && s'.covered == s.covered
       case Resynced(_, _, _, report, _) =>
         s.queue[0].ResyncMessage? && s'.consumed == s.consumed
         && if report.Report? then s'.covered >= |s.log| else s'.covered == s.covered
  }

  lemma ConsumedIsSteps(capacity: nat, run: seq<P.System>, w: Work) returns (longer: seq<P.System>)
    requires P.IsRun(capacity, run) && Back(run).consumer == P.Ready && w.Consumed?
    requires Back(run).queue != [] && Back(run).queue[0].Note?
    ensures P.IsRun(capacity, longer) && TookMessage(w, 1, Back(run), Back(longer))
  {
    longer := P.Extend(capacity, run, P.Reconcile(P.TakeNote));
    longer := P.Extend(capacity, longer, P.Reconcile(P.EndConsume));
  }

  lemma ResyncedIsSteps(capacity: nat, run: seq<P.System>, w: Work) returns (longer: seq<P.System>)
    requires P.IsRun(capacity, run) && Back(run).consumer == P.Ready && w.Resynced?
    requires Back(run).queue != [] && Back(run).queue[0].ResyncMessage?
    ensures P.IsRun(capacity, longer) && TookMessage(w, |Back(run).queue|, Back(run), Back(longer))
  {
    var s := Back(run);
    longer := P.Extend(capacity, run, P.Reconcile(P.TakeResync));
    longer := DrainIsSteps(capacity, longer, |s.queue| - 1);
    longer := P.Extend(capacity, longer, P.Reconcile(P.DrainEnd));
    if w.report.Report? {
      longer := P.Extend(capacity, longer, P.Reconcile(P.LookAtSM));
      longer := P.Extend(capacity, longer, P.Reconcile(P.EndResync));
    } else {
      longer := P.Extend(capacity, longer, P.Reconcile(P.GiveUp));
    }
  }

  /** Whatever run of the Pipeline has come to a queue like this one: working off a message, here with what it
      drains already in the queue, goes on with steps of the Pipeline's reconciler, which take the same messages. A
      resync that reports has seen all of SM; one that did not start was given up. */
  lemma WorkIsSteps(capacity: nat, run: seq<P.System>, w: Work, waiting: seq<Message>)
    returns (longer: seq<P.System>)
    requires P.IsRun(capacity, run) && Back(run).consumer == P.Ready
    requires SameKinds(Taken([w]) + waiting, Back(run).queue) && (w.Resynced? ==> waiting == [])
    ensures P.IsRun(capacity, longer) && SameKinds(waiting, Back(longer).queue)
    ensures TookMessage(w, |Taken([w])|, Back(run), Back(longer))
  {
    assert [w][..0] == [];
    if w.Consumed? {
      assert (Taken([w]) + waiting)[0] == Note(w.notification);
      longer := ConsumedIsSteps(capacity, run, w);
    } else {
      assert (Taken([w]) + waiting)[0] == ResyncMessage;
      longer := ResyncedIsSteps(capacity, run, w);
    }
  }
}
