/** Handling one notification that a visibility was created, modified or deleted in SM. */
module VisibilityHandler {
  import opened Types
  import opened Naming
  import opened World
  import opened Credentials
  import opened LabelChanges
  import opened Visibilities
  import Resync

  // ---- Payloads ----

  datatype Resource = Resource(id: string, planID: string, platformID: string, labels: Labels)

  datatype Details = Details(resource: Option<Resource>, brokerID: string, brokerName: string, catalogPlanID: string,
                             additionalValid: bool)

  datatype Payload = Payload(before: Details, after: Details, labelChanges: seq<LabelChange>)

  predicate ValidDetails(v: Details) {
    v.resource.Some? && v.resource.value.id != "" && v.resource.value.planID != "" && v.additionalValid
  }

  /** The handler goes on with this visibility, which decides about the blacklist, and names the broker. */
  predicate Proceeds(cfg: Config, v: Details) {
    ValidDetails(v) && v.brokerName !in cfg.brokerBlacklist
  }

  predicate ProceedsWithUpdate(cfg: Config, p: Payload) {
    Proceeds(cfg, p.before) && ValidDetails(p.after)
  }

  function PlatformBroker(cfg: Config, v: Details): string {
    BrokerProxyName(cfg, v.brokerName, v.brokerID)
  }

  function GrantsOfDetails(cfg: Config, v: Details): set<Grant>
    requires v.resource.Some?
  {
    GrantsFor(PlatformBroker(cfg, v), v.catalogPlanID, v.resource.value.labels)
  }

  // ---- The calls of a handler, over the fields of a payload ----

  /** The details name this resource and lack nothing that a handler needs. */
  predicate Announces(v: Details, r: Resource) {
    v.resource == Some(r) && v.additionalValid && r.id != "" && r.planID != ""
  }

  predicate NamesBroker(v: Details, b: ServiceBroker) {
    v.brokerName == b.name && v.brokerID == b.guid
  }

  predicate AsksToCreate(cfg: Config, hasClient: bool, payload: Option<Payload>, r: Resource) {
    && hasClient && payload.Some? && Announces(payload.value.after, r)
    && payload.value.after.brokerName !in cfg.brokerBlacklist
  }

  /** Of the visibility before and after, only the broker of the former is compared with the blacklist. */
  predicate AsksToUpdate(cfg: Config, hasClient: bool, payload: Option<Payload>, o: Resource, n: Resource) {
    && hasClient && payload.Some? && Announces(payload.value.before, o) && Announces(payload.value.after, n)
    && payload.value.before.brokerName !in cfg.brokerBlacklist
  }

  predicate AsksToDelete(cfg: Config, hasClient: bool, payload: Option<Payload>, r: Resource) {
    && hasClient && payload.Some? && Announces(payload.value.before, r)
    && payload.value.before.brokerName !in cfg.brokerBlacklist
  }

  /** A right on this plan of this broker for one of the label values, or for everyone if there are no labels. */
  predicate IsRight(x: Grant, cfg: Config, b: ServiceBroker, planID: string, labels: Labels) {
    && x.brokerName == ProxyNameOf(cfg, b) && x.planID == planID
    && if labels == map[] then x.audience == Everyone
       else x.audience.Holder? && x.audience.key in labels && x.audience.value in labels[x.audience.key]
  }

  ghost predicate AreRights(grants: set<Grant>, cfg: Config, b: ServiceBroker, planID: string, labels: Labels) {
    forall x :: x in grants <==> IsRight(x, cfg, b, planID, labels)
  }

  lemma RequestIsForRights(cfg: Config, v: Details, b: ServiceBroker, planID: string, labels: Labels)
    requires NamesBroker(v, b)
    ensures AreRights(GrantsFor(PlatformBroker(cfg, v), planID, labels), cfg, b, planID, labels)
    ensures PlatformBroker(cfg, v) == ProxyNameOf(cfg, b)
  {
    var grants := GrantsFor(PlatformBroker(cfg, v), planID, labels);
    forall x | IsRight(x, cfg, b, planID, labels) ensures x in grants {
      assert x.audience in Audiences(labels);
    }
  }

  /** Access is enabled for the rights; if that fails, the broker is looked up by the name of its proxy; if that fails
      too, the calls of a resync follow, and access is enabled once more. */
  ghost predicate CreationAsks(cfg: Config, b: ServiceBroker, planID: string, labels: Labels, resyncLog: seq<Event>,
                               log: seq<Event>)
  {
    && log != [] && log[0].Enable? && AreRights(log[0].grants, cfg, b, planID, labels)
    && if log[0].ok then |log| == 1
       else
         && |log| > 1 && log[1] == Lookup(ProxyNameOf(cfg, b), |log| == 2)
         && (|log| > 2 ==>
               && log[2..|log| - 1] == resyncLog && Back(log).Enable?
               && AreRights(Back(log).grants, cfg, b, planID, labels))
  }

  ghost predicate HandledAsCreation(cfg: Config, hasClient: bool, payload: Option<Payload>, resyncLog: seq<Event>,
                                    log: seq<Event>)
  {
    && (log != [] <==> exists r :: AsksToCreate(cfg, hasClient, payload, r))
    && forall b, r :: AsksToCreate(cfg, hasClient, payload, r) && NamesBroker(payload.value.after, b) ==>
         CreationAsks(cfg, b, payload.value.after.catalogPlanID, r.labels, resyncLog, log)
  }

  lemma CreationOfPayload(cfg: Config, hasClient: bool, payload: Option<Payload>, resyncLog: seq<Event>,
                          log: seq<Event>)
    requires if !hasClient || payload == None || !Proceeds(cfg, payload.value.after) then log == []
             else IsCreateLog(GrantsOfDetails(cfg, payload.value.after), PlatformBroker(cfg, payload.value.after),
                              resyncLog, log)
    ensures HandledAsCreation(cfg, hasClient, payload, resyncLog, log)
  {
    if hasClient && payload.Some? && Proceeds(cfg, payload.value.after) {
      var v := payload.value.after;
      assert AsksToCreate(cfg, hasClient, payload, v.resource.value);
      forall b | NamesBroker(v, b)
        ensures CreationAsks(cfg, b, v.catalogPlanID, v.resource.value.labels, resyncLog, log)
      {
        RequestIsForRights(cfg, v, b, v.catalogPlanID, v.resource.value.labels);
      }
    }
  }

  ghost predicate HandledAsDeletion(cfg: Config, hasClient: bool, payload: Option<Payload>, log: seq<Event>) {
    && (log != [] <==> exists r :: AsksToDelete(cfg, hasClient, payload, r))
    && forall b, r :: AsksToDelete(cfg, hasClient, payload, r) && NamesBroker(payload.value.before, b) ==>
         && |log| == 1 && log[0].Disable?
         && AreRights(log[0].grants, cfg, b, payload.value.before.catalogPlanID, r.labels)
  }

  lemma DeletionOfPayload(cfg: Config, hasClient: bool, payload: Option<Payload>, log: seq<Event>)
    requires if !hasClient || payload == None || !Proceeds(cfg, payload.value.before) then log == []
             else |log| == 1 && log[0].Disable? && log[0].grants == GrantsOfDetails(cfg, payload.value.before)
    ensures HandledAsDeletion(cfg, hasClient, payload, log)
  {
    if hasClient && payload.Some? && Proceeds(cfg, payload.value.before) {
      var v := payload.value.before;
      assert AsksToDelete(cfg, hasClient, payload, v.resource.value);
      forall b | NamesBroker(v, b)
        ensures AreRights(GrantsOfDetails(cfg, v), cfg, b, v.catalogPlanID, v.resource.value.labels)
      {
        RequestIsForRights(cfg, v, b, v.catalogPlanID, v.resource.value.labels);
      }
    }
  }

  // ---- Creation ----

  /** When enabling fails, the broker is looked up; only if the lookup itself fails are the brokers resynced and the
      access enabled once more. `resyncLog` is what that resync did. */
  predicate IsCreateLog(wanted: set<Grant>, name: string, resyncLog: seq<Event>, log: seq<Event>) {
    && log != [] && log[0].Enable? && log[0].grants == wanted
    && if log[0].ok then |log| == 1
       else
         && |log| >= 2 && log[1].Lookup? && log[1].name == name
         && if log[1].ok then |log| == 2
            else |log| == |resyncLog| + 3 && log[2..|log| - 1] == resyncLog
                 && log[|log| - 1].Enable? && log[|log| - 1].grants == wanted
  }

  /** Resyncs the brokers, leaving the visibilities as they are, and tries again. */
  method RetryAfterResync(e: Endpoints, handlesBoth: bool, chunkSize: nat, v: Details)
    returns (ok: bool, ghost report: Resync.Report, ghost resyncLog: seq<Event>)
    requires v.resource.Some?
    modifies e`regs, e`grants, e`trace, e`cancellations, e`failedListings
    ensures e.trace == old(e.trace) + resyncLog + [Enable(GrantsOfDetails(e.cfg, v), ok)]
    ensures Disciplined(e.cfg, resyncLog) && AboutBrokers(resyncLog)
    ensures e.Disturbances() >= old(e.Disturbances())
    ensures Resync.BrokersDone(e.cfg, e.sm, handlesBoth, e.Disturbances() - old(e.Disturbances()), old(e.regs), report,
                               resyncLog, e.regs)
    ensures old(e.grants) <= e.grants <= old(e.grants) + GrantsOfDetails(e.cfg, v)
    ensures ok ==> e.grants == old(e.grants) + GrantsOfDetails(e.cfg, v)
  {
    var r;
    r, resyncLog := Resync.ProcessBrokers(e, handlesBoth, chunkSize);
    report := r;
    ok := e.EnableAccessForPlan(PlatformBroker(e.cfg, v), v.catalogPlanID, v.resource.value.labels);
  }

  /** The resync that a creation contains: there is one exactly if the lookup after a failed call failed too, and
      the registrations are as it left them. */
  ghost predicate ResyncedInBetween(cfg: Config, sm: SMState, handlesBoth: bool, disturbances: nat,
                                    before: map<string, Registration>, report: Option<Resync.Report>,
                                    resyncLog: seq<Event>, log: seq<Event>, after: map<string, Registration>)
  {
    && (report.Some? <==> |log| > 1 && !Succeeded(log[1])) && AboutBrokers(resyncLog)
    && if report == None then resyncLog == [] && after == before
       else Resync.BrokersDone(cfg, sm, handlesBoth, disturbances, before, report.value, resyncLog, after)
  }

  /** However the creation went, the resync that it may contain keeps the order of credentials, and so does the
      whole. */
  lemma CreateIsDisciplined(cfg: Config, wanted: set<Grant>, name: string, resyncLog: seq<Event>, log: seq<Event>)
    requires IsCreateLog(wanted, name, resyncLog, log) && Disciplined(cfg, resyncLog)
    ensures Disciplined(cfg, log)
  {
    if |log| > 2 {
      var head, last := log[..2], log[|log| - 1..];
      assert log == head + resyncLog + last;
      AboutAccessIsDisciplined(cfg, head);
      AboutAccessIsDisciplined(cfg, last);
      DisciplinedConcat(cfg, head, resyncLog);
      DisciplinedConcat(cfg, head + resyncLog, last);
    } else {
      AboutAccessIsDisciplined(cfg, log);
    }
  }

  predicate IsAboutAccess(e: Event) {
    e.Enable? || e.Disable? || e.Lookup?
  }

  lemma AboutAccessIsDisciplined(cfg: Config, log: seq<Event>)
    requires forall i :: 0 <= i < |log| ==> IsAboutAccess(log[i])
    ensures Disciplined(cfg, log)
  {
  }

  lemma LongCreateLog(before: seq<Event>, wanted: set<Grant>, name: string, resyncLog: seq<Event>, ok: bool)
    ensures var head, last := [Enable(wanted, false), Lookup(name, false)], [Enable(wanted, ok)];
            var log := head + resyncLog + last;
            && IsCreateLog(wanted, name, resyncLog, log) && !Succeeded(log[1]) && Back(log) == last[0]
            && before + head + resyncLog + last == before + log
            && before + [head[0]] + [head[1]] == before + head
  {
    var head, last := [Enable(wanted, false), Lookup(name, false)], [Enable(wanted, ok)];
    assert head + resyncLog + last == head + (resyncLog + last);
    assert before + (head + resyncLog + last) == before + head + resyncLog + last;
  }

  /** The creation proper. */
  method Create(e: Endpoints, handlesBoth: bool, chunkSize: nat, v: Details)
    returns (ghost report: Option<Resync.Report>, ghost resyncLog: seq<Event>, ghost log: seq<Event>)
    requires v.resource.Some?
    modifies e`regs, e`grants, e`trace, e`cancellations, e`failedListings
    ensures e.trace == old(e.trace) + log && Disciplined(e.cfg, resyncLog)
    ensures e.Disturbances() >= old(e.Disturbances())
    ensures ResyncedInBetween(e.cfg, e.sm, handlesBoth, e.Disturbances() - old(e.Disturbances()), old(e.regs), report,
                              resyncLog, log, e.regs)
    ensures IsCreateLog(GrantsOfDetails(e.cfg, v), PlatformBroker(e.cfg, v), resyncLog, log)
    ensures old(e.grants) <= e.grants <= old(e.grants) + GrantsOfDetails(e.cfg, v)
    ensures Back(log).Enable? && Back(log).ok ==> e.grants == old(e.grants) + GrantsOfDetails(e.cfg, v)
  {
    report, resyncLog := None, [];
    var name := PlatformBroker(e.cfg, v);
    var ok := e.EnableAccessForPlan(name, v.catalogPlanID, v.resource.value.labels);
    log := [Enable(GrantsOfDetails(e.cfg, v), ok)];
    if !ok {
      var broker, found := e.GetBrokerByName(name);
      log := [Enable(GrantsOfDetails(e.cfg, v), false), Lookup(name, found)];
      if !found {
        ghost var r;
        ok, r, resyncLog := RetryAfterResync(e, handlesBoth, chunkSize, v);
        report := Some(r);
        LongCreateLog(old(e.trace), GrantsOfDetails(e.cfg, v), name, resyncLog, ok);
        log := log + resyncLog + [Enable(GrantsOfDetails(e.cfg, v), ok)];
      }
    }
  }

  method OnCreate(e: Endpoints, hasClient: bool, handlesBoth: bool, chunkSize: nat, payload: Option<Payload>)
    returns (ghost report: Option<Resync.Report>, ghost resyncLog: seq<Event>, ghost log: seq<Event>)
    modifies e`regs, e`grants, e`trace, e`cancellations, e`failedListings
    ensures e.trace == old(e.trace) + log && Disciplined(e.cfg, resyncLog)
    ensures e.Disturbances() >= old(e.Disturbances())
    ensures ResyncedInBetween(e.cfg, e.sm, handlesBoth, e.Disturbances() - old(e.Disturbances()), old(e.regs), report,
                              resyncLog, log, e.regs)
    ensures !hasClient || payload == None || !Proceeds(e.cfg, payload.value.after) ==>
              log == [] && e.grants == old(e.grants)
    ensures hasClient && payload.Some? && Proceeds(e.cfg, payload.value.after) ==>
              var wanted := GrantsOfDetails(e.cfg, payload.value.after);
              && IsCreateLog(wanted, PlatformBroker(e.cfg, payload.value.after), resyncLog, log)
              && old(e.grants) <= e.grants <= old(e.grants) + wanted
              && (Back(log).Enable? && Back(log).ok ==> e.grants == old(e.grants) + wanted)
    ensures HandledAsCreation(e.cfg, hasClient, payload, resyncLog, log)
  {
    report, resyncLog, log := None, [], [];
    if hasClient && payload.Some? && ValidDetails(payload.value.after)
       && payload.value.after.brokerName !in e.cfg.brokerBlacklist
    {
      report, resyncLog, log := Create(e, handlesBoth, chunkSize, payload.value.after);
    }
    CreationOfPayload(e.cfg, hasClient, payload, resyncLog, log);
  }

  // ---- Update ----

  /** Access is enabled or disabled for labels if there are any and the visibility belongs to a platform, and for
      everyone if there are none and it belongs to all. */
  predicate Concerns(labels: Labels, platformID: string) {
    labels == map[] <==> platformID == ""
  }

  method DisableServiceAccess(e: Endpoints, labels: Labels, after: Details, name: string)
    returns (ok: bool, ghost log: seq<Event>)
    requires after.resource.Some?
    modifies e`grants, e`trace
    ensures var unwanted := GrantsFor(name, after.catalogPlanID, labels);
            if Concerns(labels, after.resource.value.platformID)
            then log == [Disable(unwanted, ok)] && old(e.grants) - unwanted <= e.grants <= old(e.grants)
                 && (ok ==> e.grants == old(e.grants) - unwanted)
            else log == [] && ok && e.grants == old(e.grants)
    ensures e.trace == old(e.trace) + log
  {
    ok, log := true, [];
    if (labels == map[] && after.resource.value.platformID == "")
       || (labels != map[] && after.resource.value.platformID != "") {
      ok := e.DisableAccessForPlan(name, after.catalogPlanID, labels);
      log := [Disable(GrantsFor(name, after.catalogPlanID, labels), ok)];
    }
  }

  method EnableServiceAccess(e: Endpoints, labels: Labels, after: Details, name: string)
    returns (ok: bool, ghost log: seq<Event>)
    requires after.resource.Some?
    modifies e`grants, e`trace
    ensures var wanted := GrantsFor(name, after.catalogPlanID, labels);
            if Concerns(labels, after.resource.value.platformID)
            then log == [Enable(wanted, ok)] && old(e.grants) <= e.grants <= old(e.grants) + wanted
                 && (ok ==> e.grants == old(e.grants) + wanted)
            else log == [] && ok && e.grants == old(e.grants)
    ensures e.trace == old(e.trace) + log
  {
    ok, log := true, [];
    if (labels == map[] && after.resource.value.platformID == "")
       || (labels != map[] && after.resource.value.platformID != "") {
      ok := e.EnableAccessForPlan(name, after.catalogPlanID, labels);
      log := [Enable(GrantsFor(name, after.catalogPlanID, labels), ok)];
    }
  }

  predicate Moves(p: Payload) {
    p.before.catalogPlanID != p.after.catalogPlanID
  }

  /** The grants after the move to another catalog plan, if the update is one. */
  function Moved(grants: set<Grant>, name: string, p: Payload): set<Grant>
    requires p.before.resource.Some? && p.after.resource.Some?
  {
    if Moves(p) then
      grants - GrantsFor(name, p.before.catalogPlanID, p.before.resource.value.labels)
      + GrantsFor(name, p.after.catalogPlanID, p.after.resource.value.labels)
    else grants
  }

  /** The grants that an update leaves if no call fails: first the move, then what is added, then what is removed. */
  function Updated(grants: set<Grant>, name: string, p: Payload, add: Labels, remove: Labels): set<Grant>
    requires p.before.resource.Some? && p.after.resource.Some?
  {
    Relabelled(Moved(grants, name, p), name, p, add, remove)
  }

  function Relabelled(grants: set<Grant>, name: string, p: Payload, add: Labels, remove: Labels): set<Grant>
    requires p.after.resource.Some?
  {
    var platformID, planID := p.after.resource.value.platformID, p.after.catalogPlanID;
    grants
    + (if Concerns(add, platformID) then GrantsFor(name, planID, add) else {})
    - if Concerns(remove, platformID) then GrantsFor(name, planID, remove) else {}
  }

  /** The calls of the move; the second is made only if the first succeeded. */
  predicate IsMoveLog(name: string, p: Payload, ok: bool, log: seq<Event>)
    requires p.before.resource.Some? && p.after.resource.Some?
  {
    if !Moves(p) then log == [] && ok
    else
      var unwanted := GrantsFor(name, p.before.catalogPlanID, p.before.resource.value.labels);
      var wanted := GrantsFor(name, p.after.catalogPlanID, p.after.resource.value.labels);
      if log == [Disable(unwanted, false)] then !ok
      else log == [Disable(unwanted, true), Enable(wanted, ok)]
  }

  /** Moves the access to another catalog plan. A failure ends the handling of the update. */
  method MoveAccess(e: Endpoints, name: string, p: Payload) returns (ok: bool, ghost log: seq<Event>)
    requires p.before.resource.Some? && p.after.resource.Some?
    modifies e`grants, e`trace
    ensures e.trace == old(e.trace) + log && IsMoveLog(name, p, ok, log)
    ensures ok ==> e.grants == Moved(old(e.grants), name, p)
    ensures old(e.grants) - GrantsFor(name, p.before.catalogPlanID, p.before.resource.value.labels) <= e.grants
    ensures e.grants <= old(e.grants) + GrantsFor(name, p.after.catalogPlanID, p.after.resource.value.labels)
  {
    ok, log := true, [];
    if p.before.catalogPlanID != p.after.catalogPlanID {
      ok := e.DisableAccessForPlan(name, p.before.catalogPlanID, p.before.resource.value.labels);
      log := [Disable(GrantsFor(name, p.before.catalogPlanID, p.before.resource.value.labels), ok)];
      if ok {
        ok := e.EnableAccessForPlan(name, p.after.catalogPlanID, p.after.resource.value.labels);
        log := log + [Enable(GrantsFor(name, p.after.catalogPlanID, p.after.resource.value.labels), ok)];
      }
    }
  }

  function When(b: bool, e: Event): seq<Event> {
    if b then [e] else []
  }

  /** The calls after the move: adding comes before removing, and its failure does not stop the removal. */
  function LabelCalls(name: string, p: Payload, add: Labels, remove: Labels, enabled: bool, disabled: bool): seq<Event>
    requires p.after.resource.Some?
  {
    var platformID, planID := p.after.resource.value.platformID, p.after.catalogPlanID;
    When(Concerns(add, platformID), Enable(GrantsFor(name, planID, add), enabled))
    + When(Concerns(remove, platformID), Disable(GrantsFor(name, planID, remove), disabled))
  }

  /** What the handling of an update went through: whether the move succeeded and its calls, and whether the access
      that is added and removed was enabled and disabled. */
  datatype Progress = Progress(moved: bool, move: seq<Event>, enabled: bool, disabled: bool)

  predicate IsUpdateLog(name: string, p: Payload, add: Labels, remove: Labels, g: Progress, log: seq<Event>)
    requires p.before.resource.Some? && p.after.resource.Some?
  {
    IsMoveLog(name, p, g.moved, g.move)
    && log == g.move + if g.moved then LabelCalls(name, p, add, remove, g.enabled, g.disabled) else []
  }

  lemma FailedMoveShows(name: string, p: Payload, log: seq<Event>)
    requires p.before.resource.Some? && p.after.resource.Some? && IsMoveLog(name, p, false, log)
    ensures !AllSucceeded(log)
  {
    assert !Succeeded(log[|log| - 1]);
  }

  lemma WhenSucceeds(b: bool, e: Event)
    ensures AllSucceeded(When(b, e)) <==> (b ==> Succeeded(e))
  {
    assert b ==> When(b, e)[0] == e;
  }

  lemma SuccessOfUpdate(name: string, p: Payload, add: Labels, remove: Labels, g: Progress, log: seq<Event>)
    requires p.before.resource.Some? && p.after.resource.Some?
    requires IsUpdateLog(name, p, add, remove, g, log)
    ensures AllSucceeded(log) ==>
              && g.moved && (Concerns(add, p.after.resource.value.platformID) ==> g.enabled)
              && (Concerns(remove, p.after.resource.value.platformID) ==> g.disabled)
  {
    if g.moved {
      var platformID, planID := p.after.resource.value.platformID, p.after.catalogPlanID;
      var enable := Enable(GrantsFor(name, planID, add), g.enabled);
      var disable := Disable(GrantsFor(name, planID, remove), g.disabled);
      var first, last := When(Concerns(add, platformID), enable), When(Concerns(remove, platformID), disable);
      AllSucceededConcat(g.move, first + last);
      AllSucceededConcat(first, last);
      WhenSucceeds(Concerns(add, platformID), enable);
      WhenSucceeds(Concerns(remove, platformID), disable);
    } else {
      assert log == g.move;
      FailedMoveShows(name, p, g.move);
    }
  }

  /** What an update adds, and then what it removes. */
  method Relabel(e: Endpoints, name: string, p: Payload, add: Labels, remove: Labels)
    returns (ghost enabled: bool, ghost disabled: bool, ghost log: seq<Event>)
    requires p.after.resource.Some?
    modifies e`grants, e`trace
    ensures e.trace == old(e.trace) + log && log == LabelCalls(name, p, add, remove, enabled, disabled)
    ensures (Concerns(add, p.after.resource.value.platformID) ==> enabled)
            && (Concerns(remove, p.after.resource.value.platformID) ==> disabled)
            ==> e.grants == Relabelled(old(e.grants), name, p, add, remove)
  {
    ghost var first, last;
    var ok, done;
    ok, first := EnableServiceAccess(e, add, p.after, name);
    done, last := DisableServiceAccess(e, remove, p.after, name);
    enabled, disabled, log := ok, done, first + last;
  }

  /** The update proper. */
  method Update(e: Endpoints, name: string, p: Payload, add: Labels, remove: Labels)
    returns (ghost g: Progress, ghost log: seq<Event>)
    requires p.before.resource.Some? && p.after.resource.Some?
    modifies e`grants, e`trace
    ensures e.trace == old(e.trace) + log
    ensures IsUpdateLog(name, p, add, remove, g, log)
    ensures AllSucceeded(log) ==> e.grants == Updated(old(e.grants), name, p, add, remove)
  {
    var ok;
    ghost var move, more, enabled, disabled := [], [], true, true;
    ok, move := MoveAccess(e, name, p);
    if ok {
      enabled, disabled, more := Relabel(e, name, p, add, remove);
    }
    log := move + more;
    g := Progress(ok, move, enabled, disabled);
    SuccessOfUpdate(name, p, add, remove, g, log);
  }

  predicate OnPlan(grants: set<Grant>, name: string, planID: string) {
    forall x | x in grants :: x.brokerName == name && x.planID == planID
  }

  /** If the catalog plan changes, the old rights are disabled on the old plan and the new ones enabled on the new plan;
      everything after that is about the new plan. All of it is about the broker before the update. */
  ghost predicate UpdateAsks(cfg: Config, b: ServiceBroker, p: Payload, o: Resource, n: Resource, log: seq<Event>) {
    var moves := p.before.catalogPlanID != p.after.catalogPlanID;
    && (moves ==> log != [] && log[0].Disable? && AreRights(log[0].grants, cfg, b, p.before.catalogPlanID, o.labels))
    && (moves && |log| > 1 ==> log[1].Enable? && AreRights(log[1].grants, cfg, b, p.after.catalogPlanID, n.labels))
    && forall i :: (if moves then 1 else 0) <= i < |log| ==>
         (log[i].Enable? || log[i].Disable?) && OnPlan(log[i].grants, ProxyNameOf(cfg, b), p.after.catalogPlanID)
  }

  ghost predicate HandledAsUpdate(cfg: Config, hasClient: bool, payload: Option<Payload>, log: seq<Event>) {
    && (hasClient && payload.Some? && ProceedsWithUpdate(cfg, payload.value)
        <==> exists o, n :: AsksToUpdate(cfg, hasClient, payload, o, n))
    && forall b, o, n :: AsksToUpdate(cfg, hasClient, payload, o, n) && NamesBroker(payload.value.before, b) ==>
         UpdateAsks(cfg, b, payload.value, o, n, log)
  }

  lemma CallsOfUpdate(cfg: Config, b: ServiceBroker, p: Payload, add: Labels, remove: Labels, g: Progress,
                      log: seq<Event>)
    requires p.before.resource.Some? && p.after.resource.Some? && NamesBroker(p.before, b)
    requires IsUpdateLog(PlatformBroker(cfg, p.before), p, add, remove, g, log)
    ensures UpdateAsks(cfg, b, p, p.before.resource.value, p.after.resource.value, log)
  {
    var o, n := p.before.resource.value, p.after.resource.value;
    RequestIsForRights(cfg, p.before, b, p.before.catalogPlanID, o.labels);
    RequestIsForRights(cfg, p.before, b, p.after.catalogPlanID, n.labels);
    RequestIsForRights(cfg, p.before, b, p.after.catalogPlanID, add);
    RequestIsForRights(cfg, p.before, b, p.after.catalogPlanID, remove);
  }

  lemma UpdateOfPayload(cfg: Config, hasClient: bool, payload: Option<Payload>, add: Labels, remove: Labels,
                        g: Progress, log: seq<Event>)
    requires hasClient && payload.Some? && ProceedsWithUpdate(cfg, payload.value) ==>
               IsUpdateLog(PlatformBroker(cfg, payload.value.before), payload.value, add, remove, g, log)
    ensures HandledAsUpdate(cfg, hasClient, payload, log)
  {
    if hasClient && payload.Some? && ProceedsWithUpdate(cfg, payload.value) {
      var p := payload.value;
      assert AsksToUpdate(cfg, hasClient, payload, p.before.resource.value, p.after.resource.value);
      forall b | NamesBroker(p.before, b)
        ensures UpdateAsks(cfg, b, p, p.before.resource.value, p.after.resource.value, log)
      {
        CallsOfUpdate(cfg, b, p, add, remove, g, log);
      }
    }
  }

  method OnUpdate(e: Endpoints, hasClient: bool, payload: Option<Payload>)
    returns (ghost add: Labels, ghost remove: Labels, ghost g: Progress, ghost log: seq<Event>)
    modifies e`grants, e`trace
    ensures e.trace == old(e.trace) + log
    ensures !hasClient || payload == None || !ProceedsWithUpdate(e.cfg, payload.value) ==>
              log == [] && e.grants == old(e.grants)
    ensures hasClient && payload.Some? && ProceedsWithUpdate(e.cfg, payload.value) ==>
              var p := payload.value;
              var name := PlatformBroker(e.cfg, p.before);
              && Collects(p.labelChanges, true, add) && Collects(p.labelChanges, false, remove)
              && IsUpdateLog(name, p, add, remove, g, log)
              && (AllSucceeded(log) ==> e.grants == Updated(old(e.grants), name, p, add, remove))
    ensures HandledAsUpdate(e.cfg, hasClient, payload, log)
  {
    add, remove, g, log := map[], map[], Progress(false, [], false, false), [];
    if hasClient && payload.Some? && ValidDetails(payload.value.before) && ValidDetails(payload.value.after)
       && payload.value.before.brokerName !in e.cfg.brokerBlacklist
    {
      var p := payload.value;
      var labelsToAdd, labelsToRemove := LabelChangesToLabels(p.labelChanges);
      add, remove := labelsToAdd, labelsToRemove;
      g, log := Update(e, PlatformBroker(e.cfg, p.before), p, labelsToAdd, labelsToRemove);
    }
    UpdateOfPayload(e.cfg, hasClient, payload, add, remove, g, log);
  }

  lemma UpdateIsDisciplined(cfg: Config, name: string, p: Payload, add: Labels, remove: Labels, g: Progress,
                            log: seq<Event>)
    requires p.before.resource.Some? && p.after.resource.Some?
    requires IsUpdateLog(name, p, add, remove, g, log)
    ensures Disciplined(cfg, log)
  {
    MoveIsAboutAccess(name, p, g.moved, g.move);
    if g.moved {
      LabelCallsAreAboutAccess(name, p, add, remove, g.enabled, g.disabled);
    }
    AboutAccessIsDisciplined(cfg, log);
  }

  lemma MoveIsAboutAccess(name: string, p: Payload, ok: bool, log: seq<Event>)
    requires p.before.resource.Some? && p.after.resource.Some? && IsMoveLog(name, p, ok, log)
    ensures forall i :: 0 <= i < |log| ==> IsAboutAccess(log[i])
  {
  }

  lemma LabelCallsAreAboutAccess(name: string, p: Payload, add: Labels, remove: Labels, enabled: bool, disabled: bool)
    requires p.after.resource.Some?
    ensures var log := LabelCalls(name, p, add, remove, enabled, disabled);
            forall i :: 0 <= i < |log| ==> IsAboutAccess(log[i])
  {
  }

  // ---- Deletion ----

  method OnDelete(e: Endpoints, hasClient: bool, payload: Option<Payload>) returns (ghost log: seq<Event>)
    modifies e`grants, e`trace
    ensures e.trace == old(e.trace) + log
    ensures if !hasClient || payload == None || !Proceeds(e.cfg, payload.value.before)
            then log == [] && e.grants == old(e.grants)
            else
              var unwanted := GrantsOfDetails(e.cfg, payload.value.before);
              && |log| == 1 && log[0].Disable? && log[0].grants == unwanted
              && old(e.grants) - unwanted <= e.grants <= old(e.grants)
              && (log[0].ok ==> e.grants == old(e.grants) - unwanted)
    ensures HandledAsDeletion(e.cfg, hasClient, payload, log)
  {
    log := [];
    if hasClient && payload.Some? && ValidDetails(payload.value.before)
       && payload.value.before.brokerName !in e.cfg.brokerBlacklist
    {
      var v := payload.value.before;
      var ok := e.DisableAccessForPlan(PlatformBroker(e.cfg, v), v.catalogPlanID, v.resource.value.labels);
      log := [Disable(GrantsOfDetails(e.cfg, v), ok)];
    }
    DeletionOfPayload(e.cfg, hasClient, payload, log);
  }
}
