/** Handling one notification that a broker was created, modified or deleted in SM. Every handler looks the
    registration up by name and tells what it found, and what it added to the log of calls. */
module BrokerHandler {
  import opened Types
  import opened Naming
  import opened World
  import opened Credentials
  import opened Registrations

  // ---- Payloads ----

  datatype Operation = CREATED | MODIFIED | DELETED

  datatype BrokerDetails = BrokerDetails(resource: Option<ServiceBroker>, additionalValid: bool)

  datatype BrokerPayload = BrokerPayload(before: BrokerDetails, after: BrokerDetails)

  datatype Change = Created(after: ServiceBroker) | Modified(before: ServiceBroker, after: ServiceBroker)
                  | Deleted(before: ServiceBroker)

  predicate ValidDetails(b: BrokerDetails) {
    b.resource.Some? && b.resource.value.guid != "" && b.resource.value.url != "" && b.resource.value.name != ""
    && b.additionalValid
  }

  /** What a payload announces; nothing if it cannot be parsed or what the operation needs is not valid in it. */
  function ChangeOf(op: Operation, payload: Option<BrokerPayload>): (c: Option<Change>)
    ensures c.Some? ==> (c.value.Created? <==> op == CREATED) && (c.value.Deleted? <==> op == DELETED)
    ensures c.Some? && !c.value.Created? ==>
              c.value.before.guid != "" && c.value.before.url != "" && c.value.before.name != ""
    ensures c.Some? && !c.value.Deleted? ==>
              c.value.after.guid != "" && c.value.after.url != "" && c.value.after.name != ""
  {
    if payload == None then None
    else
      var p := payload.value;
      match op
      case CREATED => if ValidDetails(p.after) then Some(Created(p.after.resource.value)) else None
      case MODIFIED =>
        if ValidDetails(p.before) && ValidDetails(p.after)
        then Some(Modified(p.before.resource.value, p.after.resource.value)) else None
      case DELETED => if ValidDetails(p.before) then Some(Deleted(p.before.resource.value)) else None
  }

  /** Of a modified broker only the old name is compared with the blacklist. */
  predicate Blacklisted(cfg: Config, c: Change) {
    (if c.Created? then c.after.name else c.before.name) in cfg.brokerBlacklist
  }

  function NameToFind(cfg: Config, c: Change): string {
    match c
    case Created(d) => d.name
    case Modified(b, _) => ProxyNameOf(cfg, b)
    case Deleted(b) => ProxyNameOf(cfg, b)
  }

  function DetermineBrokerNameToFind(oldName: string, newName: string): (r: string)
    ensures r == oldName
  {
    if oldName != newName then oldName else newName
  }

  predicate ShouldBeTakenOver(fromPlatform: ServiceBroker, fromSM: ServiceBroker) {
    fromPlatform.url == fromSM.url && fromPlatform.name == fromSM.name
  }

  // ---- What handling a change means ----

  predicate Named(regs: map<string, Registration>, g: string, name: string) {
    g in regs && regs[g].name == name
  }

  /** The effect of a change when some registration has the name that is looked for. */
  function WhenFound(cfg: Config, regs: map<string, Registration>, c: Change, g: string): map<string, Registration>
    requires g in regs
  {
    match c
    case Created(d) =>
      if regs[g].url == d.url && cfg.takeoverEnabled then regs[g := ProxyRegistration(cfg, d)] else regs
    case Modified(_, a) =>
      if regs[g].url == ProxyPath(cfg, a.guid) then regs[g := ProxyRegistration(cfg, a)] else regs
    case Deleted(b) =>
      if regs[g].url == ProxyPath(cfg, b.guid) then regs - {g} else regs
  }

  ghost predicate Registered(cfg: Config, regs: map<string, Registration>, d: ServiceBroker,
                             regs': map<string, Registration>)
  {
    exists g :: g !in regs && regs' == regs[g := ProxyRegistration(cfg, d)]
  }

  ghost predicate HandledWhenMissing(cfg: Config, regs: map<string, Registration>, c: Change,
                                     regs': map<string, Registration>)
  {
    if c.Created? then Registered(cfg, regs, c.after, regs') else regs' == regs
  }

  ghost predicate Missing(regs: map<string, Registration>, name: string) {
    forall g :: !Named(regs, g, name)
  }

  /** The change has been handled and no call failed. Of several registrations with the name looked for any may have
      been found. */
  ghost predicate Handled(cfg: Config, regs: map<string, Registration>, c: Change, regs': map<string, Registration>) {
    if Blacklisted(cfg, c) then regs' == regs
    else
      || (Missing(regs, NameToFind(cfg, c)) && HandledWhenMissing(cfg, regs, c, regs'))
      || (exists g :: Named(regs, g, NameToFind(cfg, c)) && regs' == WhenFound(cfg, regs, c, g))
  }

  /** What may have happened although calls failed. A failed lookup counts as finding nothing, so that a new proxy
      may be registered next to a broker that should have been taken over. */
  ghost predicate HandledOrFailed(cfg: Config, regs: map<string, Registration>, c: Change,
                                  regs': map<string, Registration>)
  {
    regs' == regs || Handled(cfg, regs, c, regs') || (c.Created? && HandledWhenMissing(cfg, regs, c, regs'))
  }

  // ---- The log of one handler ----

  function CallFor(cfg: Config, c: Change): CallKind
    requires c.Modified?
  {
    if ProxyNameOf(cfg, c.before) != ProxyNameOf(cfg, c.after) then UpdateCall else FetchCall
  }

  /** The credentials are generated and not used. */
  predicate OnlyGenerates(cfg: Config, s: seq<Event>) {
    if cfg.credentialsEnabled then |s| == 1 && s[0].Generate? else s == []
  }

  predicate AfterLookup(cfg: Config, c: Change, found: Option<ServiceBroker>, s: seq<Event>) {
    match c
    case Created(d) =>
      if found == None then IsAttempt(cfg, CreateCall, d.guid, true, false, s)
      else if ShouldBeTakenOver(found.value, d) && cfg.takeoverEnabled
      then IsAttempt(cfg, UpdateCall, d.guid, true, false, s)
      else OnlyGenerates(cfg, s)
    case Modified(_, a) =>
      if found == None || found.value.url != ProxyPath(cfg, a.guid) then s == []
      else if CallFor(cfg, c) == FetchCall && !cfg.catalogFetcher then OnlyGenerates(cfg, s)
      else IsAttempt(cfg, CallFor(cfg, c), a.guid, false, false, s)
    case Deleted(b) =>
      if found == None || found.value.url != ProxyPath(cfg, b.guid) then s == []
      else |s| == 1 && s[0].DeleteCall? && s[0].guid == found.value.guid
  }

  predicate IsHandlerLog(cfg: Config, c: Change, found: Option<ServiceBroker>, log: seq<Event>) {
    if Blacklisted(cfg, c) then log == []
    else log != [] && log[0].Lookup? && log[0].name == NameToFind(cfg, c) && AfterLookup(cfg, c, found, log[1..])
  }

  /** `found` is what the lookup at the head of the log answered. */
  ghost predicate IsAnswer(regs: map<string, Registration>, name: string, found: Option<ServiceBroker>, ok: bool) {
    && (found.Some? ==> ok && found.value.name == name && found.value.guid in regs
                        && regs[found.value.guid] == Registration(name, found.value.url))
    && (found == None && ok ==> Missing(regs, name))
  }

  ghost predicate AnswersLookup(cfg: Config, regs: map<string, Registration>, c: Change, found: Option<ServiceBroker>,
                                log: seq<Event>)
  {
    !Blacklisted(cfg, c) ==> log != [] && log[0].Lookup? && IsAnswer(regs, NameToFind(cfg, c), found, log[0].ok)
  }

  /** The contract of all three handlers. */
  ghost predicate Outcome(cfg: Config, c: Option<Change>, regs: map<string, Registration>, found: Option<ServiceBroker>,
                          log: seq<Event>, regs': map<string, Registration>)
  {
    if c == None then log == [] && regs' == regs
    else
      && IsHandlerLog(cfg, c.value, found, log) && AnswersLookup(cfg, regs, c.value, found, log)
      && (AllSucceeded(log) ==> Handled(cfg, regs, c.value, regs'))
      && HandledOrFailed(cfg, regs, c.value, regs')
  }

  lemma HandlerIsDisciplined(cfg: Config, c: Change, found: Option<ServiceBroker>, log: seq<Event>)
    requires IsHandlerLog(cfg, c, found, log)
    ensures Disciplined(cfg, log)
    ensures forall i :: 0 <= i < |log| && log[i].BrokerCall? && cfg.credentialsEnabled ==>
              && IsProper(log[i].credentials)
              && exists p :: p in Events(log[..i]) && Backs(p, log[i])
  {
    if log != [] {
      var head, rest := log[..1], log[1..];
      assert log == head + rest;
      RestIsDisciplined(cfg, c, found, rest);
      DisciplinedConcat(cfg, head, rest);
      forall i | 0 <= i < |log| && log[i].BrokerCall? && cfg.credentialsEnabled
        ensures IsProper(log[i].credentials) && exists p :: p in Events(log[..i]) && Backs(p, log[i])
      {
        assert rest[i - 1] == log[i];
        assert rest[1] == log[2] && log[2] == log[..i][2];
        assert log[2] in Events(log[..i]);
      }
    }
  }

  lemma RestIsDisciplined(cfg: Config, c: Change, found: Option<ServiceBroker>, s: seq<Event>)
    requires AfterLookup(cfg, c, found, s)
    ensures Disciplined(cfg, s)
    ensures forall i :: 0 <= i < |s| && s[i].BrokerCall? && cfg.credentialsEnabled ==> i == 2 && Backs(s[1], s[2])
  {
    match c
    case Created(d) =>
      if found == None {
        AttemptIsDisciplined(cfg, CreateCall, d.guid, true, false, s);
      } else if ShouldBeTakenOver(found.value, d) && cfg.takeoverEnabled {
        AttemptIsDisciplined(cfg, UpdateCall, d.guid, true, false, s);
      }
    case Modified(_, a) =>
      if IsAttempt(cfg, CallFor(cfg, c), a.guid, false, false, s) {
        AttemptIsDisciplined(cfg, CallFor(cfg, c), a.guid, false, false, s);
      }
    case Deleted(_) =>
  }

  // ---- The same, over the fields of a payload ----

  /** The details name this broker and lack nothing that a handler needs. */
  predicate Announces(b: BrokerDetails, d: ServiceBroker) {
    b == BrokerDetails(Some(d), true) && d.guid != "" && d.name != "" && d.url != ""
  }

  /** What each payload announces: the new broker from the details after the change, the old one from those before. */
  lemma ChangeIsAnnounced(payload: BrokerPayload, o: ServiceBroker, n: ServiceBroker)
    ensures ChangeOf(CREATED, Some(payload)) == Some(Created(n)) <==> Announces(payload.after, n)
    ensures ChangeOf(MODIFIED, Some(payload)) == Some(Modified(o, n))
       <==> Announces(payload.before, o) && Announces(payload.after, n)
    ensures ChangeOf(DELETED, Some(payload)) == Some(Deleted(o)) <==> Announces(payload.before, o)
    ensures forall op :: ChangeOf(op, None) == None
  {
  }

  predicate AsksToCreate(cfg: Config, payload: Option<BrokerPayload>, d: ServiceBroker) {
    payload.Some? && Announces(payload.value.after, d) && d.name !in cfg.brokerBlacklist
  }

  /** Of `o`, which becomes `n`, only the old name is compared with the blacklist. */
  predicate AsksToUpdate(cfg: Config, payload: Option<BrokerPayload>, o: ServiceBroker, n: ServiceBroker) {
    && payload.Some? && Announces(payload.value.before, o) && Announces(payload.value.after, n)
    && o.name !in cfg.brokerBlacklist
  }

  predicate AsksToDelete(cfg: Config, payload: Option<BrokerPayload>, d: ServiceBroker) {
    payload.Some? && Announces(payload.value.before, d) && d.name !in cfg.brokerBlacklist
  }

  ghost predicate OnlyNamed(regs: map<string, Registration>, g: string, name: string) {
    Named(regs, g, name) && forall h :: Named(regs, h, name) ==> h == g
  }

  predicate LooksUpFirst(log: seq<Event>, name: string) {
    log != [] && log[0].Lookup? && log[0].name == name
  }

  /** Every call about a registration is of this kind and for this broker. */
  predicate CallsAre(log: seq<Event>, kind: CallKind, id: string) {
    forall i | 0 <= i < |log| && log[i].BrokerCall? :: log[i].kind == kind && log[i].brokerID == id
  }

  predicate HasCall(log: seq<Event>) {
    exists i | 0 <= i < |log| :: log[i].BrokerCall?
  }

  /** Without a failing call: a broker of this name is taken over if its URL is that of the new one, and left alone
      if not; where there is none a proxy is registered. */
  ghost predicate CreationHandled(cfg: Config, d: ServiceBroker, regs: map<string, Registration>, log: seq<Event>,
                                  regs': map<string, Registration>)
  {
    var proxy := Registration(ProxyNameOf(cfg, d), ProxyPath(cfg, d.guid));
    && LooksUpFirst(log, d.name)
    && (AllSucceeded(log) ==>
          && (Missing(regs, d.name) ==>
                HasCall(log) && CallsAre(log, CreateCall, d.guid)
                && exists g :: g !in regs && regs' == regs[g := proxy])
          && (forall g :: OnlyNamed(regs, g, d.name) && regs[g].url == d.url && cfg.takeoverEnabled ==>
                HasCall(log) && CallsAre(log, UpdateCall, d.guid) && regs' == regs[g := proxy])
          && (forall g :: OnlyNamed(regs, g, d.name) && !(regs[g].url == d.url && cfg.takeoverEnabled) ==>
                !HasCall(log) && regs' == regs))
  }

  /** Without a failing call: the proxy under the old name, if its URL is that of the broker, is given the new name
      in a call for an update, or, if its name stays, its catalog is read again. */
  ghost predicate UpdateHandled(cfg: Config, o: ServiceBroker, n: ServiceBroker, regs: map<string, Registration>,
                                log: seq<Event>, regs': map<string, Registration>)
  {
    && LooksUpFirst(log, ProxyNameOf(cfg, o))
    && CallsAre(log, if ProxyNameOf(cfg, o) == ProxyNameOf(cfg, n) then FetchCall else UpdateCall, n.guid)
    && (AllSucceeded(log) ==>
          && (Missing(regs, ProxyNameOf(cfg, o)) ==> !HasCall(log) && regs' == regs)
          && (forall g :: OnlyNamed(regs, g, ProxyNameOf(cfg, o)) && regs[g].url == ProxyPath(cfg, n.guid) ==>
                && (HasCall(log) <==> ProxyNameOf(cfg, o) != ProxyNameOf(cfg, n) || cfg.catalogFetcher)
                && regs' == regs[g := Registration(ProxyNameOf(cfg, n), ProxyPath(cfg, n.guid))])
          && (forall g :: OnlyNamed(regs, g, ProxyNameOf(cfg, o)) && regs[g].url != ProxyPath(cfg, n.guid) ==>
                !HasCall(log) && regs' == regs))
  }

  /** Without a failing call: the broker under the proxy name goes if its URL is that of the proxy. */
  ghost predicate DeletionHandled(cfg: Config, d: ServiceBroker, regs: map<string, Registration>, log: seq<Event>,
                                  regs': map<string, Registration>)
  {
    && LooksUpFirst(log, ProxyNameOf(cfg, d)) && !HasCall(log)
    && (AllSucceeded(log) ==>
          && (Missing(regs, ProxyNameOf(cfg, d)) ==> regs' == regs)
          && (forall g :: OnlyNamed(regs, g, ProxyNameOf(cfg, d)) ==>
                regs' == if regs[g].url == ProxyPath(cfg, d.guid) then regs - {g} else regs))
  }

  /** The call is the third event of an attempt, or the only one without credentials of the proxy's own. */
  lemma CallInAttempt(cfg: Config, kind: CallKind, id: string, force: bool, s: seq<Event>)
    requires IsAttempt(cfg, kind, id, force, false, s)
    ensures var n := if cfg.credentialsEnabled then 2 else 0;
            && (forall i :: 0 <= i < |s| && s[i].BrokerCall? ==> i == n && s[i].kind == kind && s[i].brokerID == id)
            && (AllSucceeded(s) ==> n < |s| && s[n].BrokerCall?)
  {
    if AllSucceeded(s) && cfg.credentialsEnabled {
      assert Succeeded(s[0]);
      assert Succeeded(s[1]);
    }
  }

  lemma CallsOfAttempt(cfg: Config, kind: CallKind, id: string, force: bool, head: Event, s: seq<Event>)
    requires IsAttempt(cfg, kind, id, force, false, s) && !head.BrokerCall?
    ensures CallsAre([head] + s, kind, id) && (AllSucceeded([head] + s) ==> HasCall([head] + s))
  {
    CallInAttempt(cfg, kind, id, force, s);
    CallsAfter(kind, id, head, s, if cfg.credentialsEnabled then 2 else 0);
  }

  lemma CallsAfter(kind: CallKind, id: string, head: Event, s: seq<Event>, n: nat)
    requires !head.BrokerCall?
    requires forall i :: 0 <= i < |s| && s[i].BrokerCall? ==> s[i].kind == kind && s[i].brokerID == id
    requires AllSucceeded(s) ==> n < |s| && s[n].BrokerCall?
    ensures CallsAre([head] + s, kind, id) && (AllSucceeded([head] + s) ==> HasCall([head] + s))
  {
    var log := [head] + s;
    AllSucceededConcat([head], s);
    assert AllSucceeded(s) ==> log[n + 1].BrokerCall?;
  }

  lemma NoCall(head: Event, s: seq<Event>)
    requires !head.BrokerCall? && forall i :: 0 <= i < |s| ==> !s[i].BrokerCall?
    ensures !HasCall([head] + s)
  {
  }

  /** The found registration is the one that alone has the name. */
  lemma FoundIsOnly(regs: map<string, Registration>, name: string, found: Option<ServiceBroker>, g: string)
    requires IsAnswer(regs, name, found, true) && OnlyNamed(regs, g, name)
    ensures found.Some? && found.value.guid == g && regs[g] == Registration(name, found.value.url)
  {
    if found.Some? {
      assert Named(regs, found.value.guid, name);
    }
  }

  lemma MissingIsNotFound(regs: map<string, Registration>, name: string, found: Option<ServiceBroker>, ok: bool)
    requires IsAnswer(regs, name, found, ok) && Missing(regs, name)
    ensures found == None
  {
    if found.Some? {
      assert Named(regs, found.value.guid, name);
    }
  }

  /** The change was handled, `found` is what the lookup answered, and the log is that of a handler. */
  ghost predicate Finished(cfg: Config, c: Change, regs: map<string, Registration>, found: Option<ServiceBroker>,
                           log: seq<Event>, regs': map<string, Registration>)
  {
    && !Blacklisted(cfg, c) && IsHandlerLog(cfg, c, found, log) && AnswersLookup(cfg, regs, c, found, log)
    && (AllSucceeded(log) ==> Handled(cfg, regs, c, regs'))
  }

  lemma CallsOfCreation(cfg: Config, d: ServiceBroker, regs: map<string, Registration>, found: Option<ServiceBroker>,
                        log: seq<Event>, regs': map<string, Registration>)
    requires Finished(cfg, Created(d), regs, found, log, regs')
    ensures found == None ==> CallsAre(log, CreateCall, d.guid) && (AllSucceeded(log) ==> HasCall(log))
    ensures found.Some? ==>
              if ShouldBeTakenOver(found.value, d) && cfg.takeoverEnabled
              then CallsAre(log, UpdateCall, d.guid) && (AllSucceeded(log) ==> HasCall(log))
              else !HasCall(log)
  {
    var head, s := log[0], log[1..];
    assert log == [head] + s;
    if found == None {
      CallsOfAttempt(cfg, CreateCall, d.guid, true, head, s);
    } else if ShouldBeTakenOver(found.value, d) && cfg.takeoverEnabled {
      CallsOfAttempt(cfg, UpdateCall, d.guid, true, head, s);
    } else {
      NoCall(head, s);
    }
  }

  lemma CreationMeans(cfg: Config, d: ServiceBroker, regs: map<string, Registration>, found: Option<ServiceBroker>,
                      log: seq<Event>, regs': map<string, Registration>)
    requires Finished(cfg, Created(d), regs, found, log, regs')
    ensures CreationHandled(cfg, d, regs, log, regs')
  {
    CallsOfCreation(cfg, d, regs, found, log, regs');
    if AllSucceeded(log) {
      assert Succeeded(log[0]);
      if Missing(regs, d.name) {
        MissingIsNotFound(regs, d.name, found, true);
      }
      forall g | OnlyNamed(regs, g, d.name)
        ensures found.Some? && ShouldBeTakenOver(found.value, d) == (regs[g].url == d.url)
      {
        FoundIsOnly(regs, d.name, found, g);
      }
    }
  }

  lemma CallsOfUpdate(cfg: Config, o: ServiceBroker, n: ServiceBroker, regs: map<string, Registration>,
                      found: Option<ServiceBroker>, log: seq<Event>, regs': map<string, Registration>)
    requires Finished(cfg, Modified(o, n), regs, found, log, regs')
    ensures CallsAre(log, if ProxyNameOf(cfg, o) == ProxyNameOf(cfg, n) then FetchCall else UpdateCall, n.guid)
    ensures found == None || found.value.url != ProxyPath(cfg, n.guid) ==> !HasCall(log)
    ensures AllSucceeded(log) && found.Some? && found.value.url == ProxyPath(cfg, n.guid) ==>
              (HasCall(log) <==> ProxyNameOf(cfg, o) != ProxyNameOf(cfg, n) || cfg.catalogFetcher)
  {
    var head, s := log[0], log[1..];
    var kind := if ProxyNameOf(cfg, o) == ProxyNameOf(cfg, n) then FetchCall else UpdateCall;
    assert log == [head] + s;
    if found.Some? && found.value.url == ProxyPath(cfg, n.guid) && (kind == UpdateCall || cfg.catalogFetcher) {
      CallsOfAttempt(cfg, kind, n.guid, false, head, s);
    } else {
      NoCall(head, s);
    }
  }

  lemma UpdateMeans(cfg: Config, o: ServiceBroker, n: ServiceBroker, regs: map<string, Registration>,
                    found: Option<ServiceBroker>, log: seq<Event>, regs': map<string, Registration>)
    requires Finished(cfg, Modified(o, n), regs, found, log, regs')
    ensures UpdateHandled(cfg, o, n, regs, log, regs')
  {
    CallsOfUpdate(cfg, o, n, regs, found, log, regs');
    if AllSucceeded(log) {
      assert Succeeded(log[0]);
      if Missing(regs, ProxyNameOf(cfg, o)) {
        MissingIsNotFound(regs, ProxyNameOf(cfg, o), found, true);
      }
      forall g | OnlyNamed(regs, g, ProxyNameOf(cfg, o)) ensures found.Some? && found.value.url == regs[g].url {
        FoundIsOnly(regs, ProxyNameOf(cfg, o), found, g);
      }
    }
  }

  lemma DeletionMeans(cfg: Config, d: ServiceBroker, regs: map<string, Registration>, found: Option<ServiceBroker>,
                      log: seq<Event>, regs': map<string, Registration>)
    requires Finished(cfg, Deleted(d), regs, found, log, regs')
    ensures DeletionHandled(cfg, d, regs, log, regs')
  {
    var head, s := log[0], log[1..];
    assert log == [head] + s;
    NoCall(head, s);
  }

  /** Exactly the payloads that ask for it are acted on, and then as the payload says. */
  ghost predicate HandledAsCreation(cfg: Config, payload: Option<BrokerPayload>, regs: map<string, Registration>,
                                    log: seq<Event>, regs': map<string, Registration>)
  {
    && (log != [] <==> exists d :: AsksToCreate(cfg, payload, d)) && (log == [] ==> regs' == regs)
    && forall d :: AsksToCreate(cfg, payload, d) ==> CreationHandled(cfg, d, regs, log, regs')
  }

  ghost predicate HandledAsUpdate(cfg: Config, payload: Option<BrokerPayload>, regs: map<string, Registration>,
                                  log: seq<Event>, regs': map<string, Registration>)
  {
    && (log != [] <==> exists o, n :: AsksToUpdate(cfg, payload, o, n)) && (log == [] ==> regs' == regs)
    && forall o, n :: AsksToUpdate(cfg, payload, o, n) ==> UpdateHandled(cfg, o, n, regs, log, regs')
  }

  ghost predicate HandledAsDeletion(cfg: Config, payload: Option<BrokerPayload>, regs: map<string, Registration>,
                                    log: seq<Event>, regs': map<string, Registration>)
  {
    && (log != [] <==> exists d :: AsksToDelete(cfg, payload, d)) && (log == [] ==> regs' == regs)
    && forall d :: AsksToDelete(cfg, payload, d) ==> DeletionHandled(cfg, d, regs, log, regs')
  }

  lemma CreationOfPayload(cfg: Config, payload: Option<BrokerPayload>, regs: map<string, Registration>,
                          found: Option<ServiceBroker>, log: seq<Event>, regs': map<string, Registration>)
    requires Outcome(cfg, ChangeOf(CREATED, payload), regs, found, log, regs')
    ensures HandledAsCreation(cfg, payload, regs, log, regs')
  {
    var change := ChangeOf(CREATED, payload);
    if change.Some? && !Blacklisted(cfg, change.value) {
      var d := change.value.after;
      assert AsksToCreate(cfg, payload, d);
      CreationMeans(cfg, d, regs, found, log, regs');
    }
  }

  lemma UpdateOfPayload(cfg: Config, payload: Option<BrokerPayload>, regs: map<string, Registration>,
                        found: Option<ServiceBroker>, log: seq<Event>, regs': map<string, Registration>)
    requires Outcome(cfg, ChangeOf(MODIFIED, payload), regs, found, log, regs')
    ensures HandledAsUpdate(cfg, payload, regs, log, regs')
  {
    var change := ChangeOf(MODIFIED, payload);
    if change.Some? && !Blacklisted(cfg, change.value) {
      var o, n := change.value.before, change.value.after;
      assert AsksToUpdate(cfg, payload, o, n);
      UpdateMeans(cfg, o, n, regs, found, log, regs');
    }
  }

  lemma DeletionOfPayload(cfg: Config, payload: Option<BrokerPayload>, regs: map<string, Registration>,
                          found: Option<ServiceBroker>, log: seq<Event>, regs': map<string, Registration>)
    requires Outcome(cfg, ChangeOf(DELETED, payload), regs, found, log, regs')
    ensures HandledAsDeletion(cfg, payload, regs, log, regs')
  {
    var change := ChangeOf(DELETED, payload);
    if change.Some? && !Blacklisted(cfg, change.value) {
      var d := change.value.before;
      assert AsksToDelete(cfg, payload, d);
      DeletionMeans(cfg, d, regs, found, log, regs');
    }
  }

  // ---- The handlers ----

  /** The effect that the handler means to have, given what it found. */
  ghost predicate Applied(cfg: Config, regs: map<string, Registration>, c: Change, found: Option<ServiceBroker>,
                          regs': map<string, Registration>)
  {
    if found == None then HandledWhenMissing(cfg, regs, c, regs')
    else found.value.guid in regs && regs' == WhenFound(cfg, regs, c, found.value.guid)
  }

  lemma HandlerEnds(cfg: Config, c: Change, regs: map<string, Registration>, found: Option<ServiceBroker>, ok: bool,
                    tail: seq<Event>, regs': map<string, Registration>)
    requires !Blacklisted(cfg, c) && IsAnswer(regs, NameToFind(cfg, c), found, ok)
    requires AfterLookup(cfg, c, found, tail)
    requires regs' == regs || Applied(cfg, regs, c, found, regs')
    requires AllSucceeded(tail) ==> (found == None && !ok) || Applied(cfg, regs, c, found, regs')
    ensures Outcome(cfg, Some(c), regs, found, [Lookup(NameToFind(cfg, c), ok)] + tail, regs')
  {
    var log := [Lookup(NameToFind(cfg, c), ok)] + tail;
    assert log[1..] == tail;
    if AllSucceeded(log) {
      assert Succeeded(log[0]);
      assert forall i :: 0 <= i < |tail| ==> tail[i] == log[i + 1];
      AppliedIsHandled(cfg, c, regs, found, regs');
    }
    if regs' != regs && found.Some? {
      AppliedIsHandled(cfg, c, regs, found, regs');
    }
  }

  lemma AppliedIsHandled(cfg: Config, c: Change, regs: map<string, Registration>, found: Option<ServiceBroker>,
                         regs': map<string, Registration>)
    requires !Blacklisted(cfg, c) && IsAnswer(regs, NameToFind(cfg, c), found, true)
    requires Applied(cfg, regs, c, found, regs')
    ensures Handled(cfg, regs, c, regs')
  {
  }

  // The credential steps, which are the same in every branch of the handlers.

  predicate IsStart(cfg: Config, c: Option<World.Credentials>, s: seq<Event>) {
    if cfg.credentialsEnabled then s == [Generate(c.Some?)] && (c.Some? ==> IsProper(c.value))
    else s == [] && c == Some(DefaultCredentials(cfg))
  }

  predicate IsProper(c: World.Credentials) {
    c.username != "" && c.password != ""
  }

  method GenerateCredentials(e: Endpoints) returns (c: Option<World.Credentials>, ghost log: seq<Event>)
    modifies e`trace
    ensures e.trace == old(e.trace) + log
    ensures IsStart(e.cfg, c, log)
  {
    c, log := Some(DefaultCredentials(e.cfg)), [];
    if e.cfg.credentialsEnabled {
      c := e.GenerateCredentials();
      log := [Generate(c.Some?)];
    }
  }

  /** `usable` unless SM did not accept the credentials. */
  predicate IsOffer(cfg: Config, brokerID: string, force: bool, c: World.Credentials, usable: bool, id: string,
                    s: seq<Event>)
  {
    if !cfg.credentialsEnabled then s == [] && usable
    else
      && |s| == 1 && s[0].Put? && s[0] == Put(brokerID, c.username, HashOf(c.password), force, s[0].result)
      && usable == s[0].result.Accepted? && (usable ==> s[0].result == Accepted(id))
  }

  method PutCredentials(e: Endpoints, brokerID: string, force: bool, c: World.Credentials)
    returns (usable: bool, id: string, ghost log: seq<Event>)
    modifies e`trace
    ensures e.trace == old(e.trace) + log
    ensures IsOffer(e.cfg, brokerID, force, c, usable, id, log)
  {
    usable, id, log := true, "", [];
    if e.cfg.credentialsEnabled {
      var put := e.PutCredentials(brokerID, c, force);
      log := [Put(brokerID, c.username, HashOf(c.password), force, put)];
      usable := put.Accepted?;
      if usable {
        id := put.credentialID;
      }
    }
  }

  method ActivateCredentials(e: Endpoints, id: string) returns (ghost log: seq<Event>)
    modifies e`trace
    ensures e.trace == old(e.trace) + log
    ensures log == if e.cfg.credentialsEnabled then [Activate(id)] else []
  {
    log := [];
    if e.cfg.credentialsEnabled {
      e.ActivateCredentials(id);
      log := [Activate(id)];
    }
  }

  lemma RefusedIsAttempt(cfg: Config, kind: CallKind, brokerID: string, force: bool, c: World.Credentials, id: string,
                         start: seq<Event>, offer: seq<Event>)
    requires IsStart(cfg, Some(c), start) && IsOffer(cfg, brokerID, force, c, false, id, offer)
    ensures IsAttempt(cfg, kind, brokerID, force, false, start + offer) && !AllSucceeded(start + offer)
  {
  }

  lemma UsedIsAttempt(cfg: Config, kind: CallKind, brokerID: string, force: bool, c: World.Credentials, id: string,
                      start: seq<Event>, offer: seq<Event>, ok: bool)
    requires IsStart(cfg, Some(c), start) && IsOffer(cfg, brokerID, force, c, true, id, offer)
    ensures var s := start + offer + [BrokerCall(kind, brokerID, c, ok)];
            var done := s + if cfg.credentialsEnabled then [Activate(id)] else [];
            && IsAttempt(cfg, kind, brokerID, force, false, if ok then done else s)
            && (!ok ==> !AllSucceeded(s))
  {
  }

  method CreateProxy(e: Endpoints, d: ServiceBroker, c: World.Credentials, ghost start: seq<Event>)
    returns (ghost log: seq<Event>)
    requires IsStart(e.cfg, Some(c), start)
    modifies e`regs, e`trace
    ensures e.trace == old(e.trace) + log
    ensures IsAttempt(e.cfg, CreateCall, d.guid, true, false, start + log)
    ensures e.regs == old(e.regs) || Registered(e.cfg, old(e.regs), d, e.regs)
    ensures AllSucceeded(start + log) ==> Registered(e.cfg, old(e.regs), d, e.regs)
  {
    var usable, id, offer := PutCredentials(e, d.guid, true, c);
    log := offer;
    if !usable {
      RefusedIsAttempt(e.cfg, CreateCall, d.guid, true, c, id, start, offer);
      return;
    }
    var ok, guid := e.CreateBroker(d.guid, ProxyNameOf(e.cfg, d), ProxyPath(e.cfg, d.guid), c);
    UsedIsAttempt(e.cfg, CreateCall, d.guid, true, c, id, start, offer, ok);
    log := log + [BrokerCall(CreateCall, d.guid, c, ok)];
    assert start + log == start + offer + [BrokerCall(CreateCall, d.guid, c, ok)];
    if ok {
      var last := ActivateCredentials(e, id);
      assert start + (log + last) == start + log + last;
      log := log + last;
    }
  }

  method UpdateProxy(e: Endpoints, guid: string, b: ServiceBroker, force: bool, c: World.Credentials,
                     ghost start: seq<Event>)
    returns (ghost log: seq<Event>)
    requires IsStart(e.cfg, Some(c), start)
    modifies e`regs, e`trace
    ensures e.trace == old(e.trace) + log
    ensures IsAttempt(e.cfg, UpdateCall, b.guid, force, false, start + log)
    ensures e.regs == old(e.regs) || e.regs == old(e.regs)[guid := ProxyRegistration(e.cfg, b)]
    ensures AllSucceeded(start + log) ==> e.regs == old(e.regs)[guid := ProxyRegistration(e.cfg, b)]
  {
    var usable, id, offer := PutCredentials(e, b.guid, force, c);
    log := offer;
    if !usable {
      RefusedIsAttempt(e.cfg, UpdateCall, b.guid, force, c, id, start, offer);
      return;
    }
    var ok := e.UpdateBroker(b.guid, guid, ProxyNameOf(e.cfg, b), ProxyPath(e.cfg, b.guid), c);
    UsedIsAttempt(e.cfg, UpdateCall, b.guid, force, c, id, start, offer, ok);
    log := log + [BrokerCall(UpdateCall, b.guid, c, ok)];
    assert start + log == start + offer + [BrokerCall(UpdateCall, b.guid, c, ok)];
    if ok {
      var last := ActivateCredentials(e, id);
      assert start + (log + last) == start + log + last;
      log := log + last;
    }
  }

  method RefetchCatalog(e: Endpoints, b: ServiceBroker, c: World.Credentials, ghost start: seq<Event>)
    returns (ghost log: seq<Event>)
    requires IsStart(e.cfg, Some(c), start)
    modifies e`trace
    ensures e.trace == old(e.trace) + log
    ensures IsAttempt(e.cfg, FetchCall, b.guid, false, false, start + log)
  {
    var usable, id, offer := PutCredentials(e, b.guid, false, c);
    log := offer;
    if !usable {
      RefusedIsAttempt(e.cfg, FetchCall, b.guid, false, c, id, start, offer);
      return;
    }
    var ok := e.Fetch(b.guid, c);
    UsedIsAttempt(e.cfg, FetchCall, b.guid, false, c, id, start, offer, ok);
    log := log + [BrokerCall(FetchCall, b.guid, c, ok)];
    assert start + log == start + offer + [BrokerCall(FetchCall, b.guid, c, ok)];
    if ok {
      var last := ActivateCredentials(e, id);
      assert start + (log + last) == start + log + last;
      log := log + last;
    }
  }

  /** Registers a proxy if nothing was found; else takes over what was found, if that is the same broker. */
  method CreateOrTakeOver(e: Endpoints, d: ServiceBroker, existing: Option<ServiceBroker>)
    returns (ghost log: seq<Event>)
    requires existing.Some? ==> existing.value.guid in e.regs && existing.value.name == d.name
    requires existing.Some? ==> e.regs[existing.value.guid] == Registration(d.name, existing.value.url)
    modifies e`regs, e`trace
    ensures e.trace == old(e.trace) + log
    ensures AfterLookup(e.cfg, Created(d), existing, log)
    ensures e.regs == old(e.regs) || Applied(e.cfg, old(e.regs), Created(d), existing, e.regs)
    ensures AllSucceeded(log) ==> Applied(e.cfg, old(e.regs), Created(d), existing, e.regs)
  {
    var generated, start := GenerateCredentials(e);
    log := start;
    if generated == None {
      assert !Succeeded(log[0]);
      return;
    }
    ghost var rest := [];
    if existing == None {
      rest := CreateProxy(e, d, generated.value, start);
    } else if ShouldBeTakenOver(existing.value, d) {
      if !e.cfg.takeoverEnabled {
        return;
      }
      rest := UpdateProxy(e, existing.value.guid, d, true, generated.value, start);
    }
    log := start + rest;
  }

  method Create(e: Endpoints, d: ServiceBroker) returns (ghost found: Option<ServiceBroker>, ghost log: seq<Event>)
    requires d.name !in e.cfg.brokerBlacklist
    modifies e`regs, e`trace
    ensures e.trace == old(e.trace) + log
    ensures Outcome(e.cfg, Some(Created(d)), old(e.regs), found, log, e.regs)
  {
    var existing, lookedUp := e.GetBrokerByName(d.name);
    var rest := CreateOrTakeOver(e, d, existing);
    HandlerEnds(e.cfg, Created(d), old(e.regs), existing, lookedUp, rest, e.regs);
    found, log := existing, [Lookup(d.name, lookedUp)] + rest;
  }

  method OnCreate(e: Endpoints, payload: Option<BrokerPayload>)
    returns (ghost found: Option<ServiceBroker>, ghost log: seq<Event>)
    modifies e`regs, e`trace
    ensures e.trace == old(e.trace) + log
    ensures Outcome(e.cfg, ChangeOf(CREATED, payload), old(e.regs), found, log, e.regs)
    ensures HandledAsCreation(e.cfg, payload, old(e.regs), log, e.regs)
  {
    found, log := None, [];
    var change := ChangeOf(CREATED, payload);
    if change.Some? && change.value.after.name !in e.cfg.brokerBlacklist {
      found, log := Create(e, change.value.after);
    }
    CreationOfPayload(e.cfg, payload, old(e.regs), found, log, e.regs);
  }

  /** Renames the registration if its proxy name changes; else only has its catalog read again. */
  method RenameOrRefetch(e: Endpoints, before: ServiceBroker, after: ServiceBroker, existing: ServiceBroker)
    returns (ghost log: seq<Event>)
    requires existing.guid in e.regs && existing.url == ProxyPath(e.cfg, after.guid)
    requires e.regs[existing.guid] == Registration(ProxyNameOf(e.cfg, before), existing.url)
    modifies e`regs, e`trace
    ensures e.trace == old(e.trace) + log
    ensures AfterLookup(e.cfg, Modified(before, after), Some(existing), log)
    ensures e.regs == old(e.regs) || Applied(e.cfg, old(e.regs), Modified(before, after), Some(existing), e.regs)
    ensures AllSucceeded(log) ==> Applied(e.cfg, old(e.regs), Modified(before, after), Some(existing), e.regs)
  {
    var generated, start := GenerateCredentials(e);
    log := start;
    if generated == None {
      assert !Succeeded(log[0]);
      return;
    }
    ghost var rest := [];
    if ProxyNameOf(e.cfg, before) != ProxyNameOf(e.cfg, after) {
      rest := UpdateProxy(e, existing.guid, after, false, generated.value, start);
    } else {
      assert e.regs == e.regs[existing.guid := ProxyRegistration(e.cfg, after)];
      if !e.cfg.catalogFetcher {
        return;
      }
      rest := RefetchCatalog(e, after, generated.value, start);
    }
    log := start + rest;
  }

  method Update(e: Endpoints, before: ServiceBroker, after: ServiceBroker)
    returns (ghost found: Option<ServiceBroker>, ghost log: seq<Event>)
    requires before.name !in e.cfg.brokerBlacklist
    modifies e`regs, e`trace
    ensures e.trace == old(e.trace) + log
    ensures Outcome(e.cfg, Some(Modified(before, after)), old(e.regs), found, log, e.regs)
  {
    var brokerToFind := DetermineBrokerNameToFind(ProxyNameOf(e.cfg, before), ProxyNameOf(e.cfg, after));
    var existing, lookedUp := e.GetBrokerByName(brokerToFind);
    ghost var rest := [];
    if existing.Some? && existing.value.url == ProxyPath(e.cfg, after.guid) {
      rest := RenameOrRefetch(e, before, after, existing.value);
    }
    HandlerEnds(e.cfg, Modified(before, after), old(e.regs), existing, lookedUp, rest, e.regs);
    found, log := existing, [Lookup(brokerToFind, lookedUp)] + rest;
  }

  method OnUpdate(e: Endpoints, payload: Option<BrokerPayload>)
    returns (ghost found: Option<ServiceBroker>, ghost log: seq<Event>)
    modifies e`regs, e`trace
    ensures e.trace == old(e.trace) + log
    ensures Outcome(e.cfg, ChangeOf(MODIFIED, payload), old(e.regs), found, log, e.regs)
    ensures HandledAsUpdate(e.cfg, payload, old(e.regs), log, e.regs)
  {
    found, log := None, [];
    var change := ChangeOf(MODIFIED, payload);
    if change.Some? && change.value.before.name !in e.cfg.brokerBlacklist {
      found, log := Update(e, change.value.before, change.value.after);
    }
    UpdateOfPayload(e.cfg, payload, old(e.regs), found, log, e.regs);
  }

  method OnDelete(e: Endpoints, payload: Option<BrokerPayload>)
    returns (ghost found: Option<ServiceBroker>, ghost log: seq<Event>)
    modifies e`regs, e`trace
    ensures e.trace == old(e.trace) + log
    ensures Outcome(e.cfg, ChangeOf(DELETED, payload), old(e.regs), found, log, e.regs)
    ensures HandledAsDeletion(e.cfg, payload, old(e.regs), log, e.regs)
  {
    found, log := None, [];
    var change := ChangeOf(DELETED, payload);
    if change.Some? && change.value.before.name !in e.cfg.brokerBlacklist {
      var before := change.value.before;
      var proxyName := ProxyNameOf(e.cfg, before);
      var existing, lookedUp := e.GetBrokerByName(proxyName);
      ghost var rest := [];
      if existing.Some? && existing.value.url == ProxyPath(e.cfg, before.guid) {
        var ok := e.DeleteBroker(existing.value.guid);
        rest := [DeleteCall(existing.value.guid, ok)];
      }
      HandlerEnds(e.cfg, change.value, old(e.regs), existing, lookedUp, rest, e.regs);
      found, log := existing, [Lookup(proxyName, lookedUp)] + rest;
    }
    DeletionOfPayload(e.cfg, payload, old(e.regs), found, log, e.regs);
  }
}
