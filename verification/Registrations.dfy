/** Creating, updating, fetching and deleting one broker registration during a resync. Each method tells in `log`
    what it added to the log of calls. */
module Registrations {
  import opened Types
  import opened Naming
  import opened World
  import opened Credentials

  function ProxyRegistration(cfg: Config, d: ServiceBroker): Registration {
    Registration(ProxyNameOf(cfg, d), ProxyPath(cfg, d.guid))
  }

  method CreateBrokerRegistration(e: Endpoints, d: ServiceBroker)
    returns (ok: bool, guid: string, ghost log: seq<Event>)
    modifies e`regs, e`trace
    ensures e.trace == old(e.trace) + log
    ensures IsAttempt(e.cfg, CreateCall, d.guid, true, false, log)
    ensures ok <==> AllSucceeded(log)
    ensures ok ==> guid !in old(e.regs) && e.regs == old(e.regs)[guid := ProxyRegistration(e.cfg, d)]
    ensures e.regs == old(e.regs)
            || (guid !in old(e.regs) && e.regs == old(e.regs)[guid := ProxyRegistration(e.cfg, d)])
  {
    guid := "";
    log := [];
    var c := DefaultCredentials(e.cfg);
    var credentialID := "";
    if e.cfg.credentialsEnabled {
      var generated := e.GenerateCredentials();
      log := [Generate(generated.Some?)];
      if generated == None {
        assert !Succeeded(log[0]);
        return false, guid, log;
      }
      c := generated.value;
      var put := e.PutCredentials(d.guid, c, true);
      log := log + [Put(d.guid, c.username, HashOf(c.password), true, put)];
      if !put.Accepted? {
        assert !Succeeded(log[1]);
        return false, guid, log;
      }
      credentialID := put.credentialID;
    }
    ok, guid := e.CreateBroker(d.guid, ProxyNameOf(e.cfg, d), ProxyPath(e.cfg, d.guid), c);
    log := log + [BrokerCall(CreateCall, d.guid, c, ok)];
    if !ok {
      assert !Succeeded(log[|log| - 1]);
      return;
    }
    if e.cfg.credentialsEnabled {
      e.ActivateCredentials(credentialID);
      log := log + [Activate(credentialID)];
    }
  }

  /** A conflict over the credentials does not stop the update: it goes on with empty ones. */
  method UpdateBrokerRegistration(e: Endpoints, guid: string, d: ServiceBroker)
    returns (ok: bool, ghost log: seq<Event>)
    modifies e`regs, e`trace
    ensures e.trace == old(e.trace) + log
    ensures IsAttempt(e.cfg, UpdateCall, d.guid, false, true, log)
    ensures AllSucceeded(log) ==> ok
    ensures ok ==> guid in old(e.regs) && e.regs == old(e.regs)[guid := ProxyRegistration(e.cfg, d)]
    ensures e.regs == old(e.regs) || (guid in old(e.regs) && e.regs == old(e.regs)[guid := ProxyRegistration(e.cfg, d)])
  {
    log := [];
    var c := DefaultCredentials(e.cfg);
    var response: Option<string> := None;
    if e.cfg.credentialsEnabled {
      var generated := e.GenerateCredentials();
      log := [Generate(generated.Some?)];
      if generated == None {
        assert !Succeeded(log[0]);
        return false, log;
      }
      c := generated.value;
      var put := e.PutCredentials(d.guid, c, false);
      log := log + [Put(d.guid, c.username, HashOf(c.password), false, put)];
      if put == Failed {
        assert !Succeeded(log[1]);
        return false, log;
      }
      if put == Conflict {
        c := NO_CREDENTIALS;
      } else {
        response := Some(put.credentialID);
      }
    }
    ok := e.UpdateBroker(d.guid, guid, ProxyNameOf(e.cfg, d), ProxyPath(e.cfg, d.guid), c);
    log := log + [BrokerCall(UpdateCall, d.guid, c, ok)];
    if !ok {
      assert !Succeeded(log[|log| - 1]);
      return;
    }
    if e.cfg.credentialsEnabled && |c.username| > 0 && |c.password| > 0 {
      e.ActivateCredentials(response.value);
      log := log + [Activate(response.value)];
    }
  }

  /** Does nothing if the platform cannot fetch catalogs on demand. */
  method FetchBrokerCatalog(e: Endpoints, d: ServiceBroker) returns (ok: bool, ghost log: seq<Event>)
    modifies e`trace
    ensures e.trace == old(e.trace) + log
    ensures if e.cfg.catalogFetcher then IsAttempt(e.cfg, FetchCall, d.guid, false, true, log) else log == []
    ensures AllSucceeded(log) ==> ok
  {
    log := [];
    if !e.cfg.catalogFetcher {
      return true, log;
    }
    var c := DefaultCredentials(e.cfg);
    var response: Option<string> := None;
    if e.cfg.credentialsEnabled {
      var generated := e.GenerateCredentials();
      log := [Generate(generated.Some?)];
      if generated == None {
        assert !Succeeded(log[0]);
        return false, log;
      }
      c := generated.value;
      var put := e.PutCredentials(d.guid, c, false);
      log := log + [Put(d.guid, c.username, HashOf(c.password), false, put)];
      if put == Failed {
        assert !Succeeded(log[1]);
        return false, log;
      }
      if put == Conflict {
        c := NO_CREDENTIALS;
      } else {
        response := Some(put.credentialID);
      }
    }
    ok := e.Fetch(d.guid, c);
    log := log + [BrokerCall(FetchCall, d.guid, c, ok)];
    if !ok {
      assert !Succeeded(log[|log| - 1]);
      return;
    }
    if e.cfg.credentialsEnabled && |c.username| > 0 && |c.password| > 0 {
      e.ActivateCredentials(response.value);
      log := log + [Activate(response.value)];
    }
  }

  method DeleteBrokerRegistration(e: Endpoints, registered: ServiceBroker) returns (ok: bool, ghost log: seq<Event>)
    modifies e`regs, e`trace
    ensures e.trace == old(e.trace) + log && log == [DeleteCall(registered.guid, ok)]
    ensures e.regs == old(e.regs) - {registered.guid} || (!ok && e.regs == old(e.regs))
  {
    ok := e.DeleteBroker(registered.guid);
    log := [DeleteCall(registered.guid, ok)];
  }
}
