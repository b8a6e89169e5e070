/** The order in which credentials are offered to SM, used on the platform and activated. */
module Credentials {
  import opened Types
  import opened World

  const NO_CREDENTIALS := World.Credentials("", "")

  function DefaultCredentials(cfg: Config): World.Credentials {
    World.Credentials(cfg.defaultUser, cfg.defaultPassword)
  }

  /** SM has accepted exactly the credentials of the call, for the same broker. */
  predicate Backs(p: Event, c: Event) {
    && p.Put? && p.result.Accepted? && c.BrokerCall?
    && p.brokerID == c.brokerID && p.username == c.credentials.username && p.hash == HashOf(c.credentials.password)
  }

  predicate Refused(p: Event, brokerID: string) {
    p.Put? && p.brokerID == brokerID && !p.force && p.result == Conflict
  }

  // ---- One registration ----

  /** Credentials with a name and a password are put. */
  predicate IsProperPut(e: Event) {
    e.Put? && e.username != "" && e.hash.password != ""
  }

  /** What the log shows of one attempt to create, update or fetch: proper credentials are put, used in the call if SM
      accepted them, and activated, under the id that SM answered, if the call succeeded. On a conflict the attempt
      ends, unless it may go on with empty credentials, which are never activated. */
  predicate IsAttempt(cfg: Config, kind: CallKind, brokerID: string, force: bool, emptyOnConflict: bool, s: seq<Event>)
  {
    if !cfg.credentialsEnabled then
      |s| == 1 && s[0].BrokerCall? && s[0] == BrokerCall(kind, brokerID, DefaultCredentials(cfg), s[0].ok)
    else
      && |s| >= 1 && s[0].Generate?
      && if !s[0].ok then |s| == 1
         else
           && |s| >= 2 && IsProperPut(s[1]) && s[1].brokerID == brokerID && s[1].force == force
           && match s[1].result
              case Failed => |s| == 2
              case Conflict =>
                if emptyOnConflict
                then |s| == 3 && s[2].BrokerCall? && s[2] == BrokerCall(kind, brokerID, NO_CREDENTIALS, s[2].ok)
                else |s| == 2
              case Accepted(id) =>
                && |s| >= 3 && Backs(s[1], s[2]) && s[2].kind == kind
                && if s[2].ok then |s| == 4 && s[3] == Activate(id) else |s| == 3
  }

  /** No access is enabled or disabled. */
  predicate AboutBrokers(s: seq<Event>) {
    forall e | e in s :: !e.Enable? && !e.Disable?
  }

  lemma AttemptIsAboutBrokers(cfg: Config, kind: CallKind, brokerID: string, force: bool, emptyOnConflict: bool,
                              s: seq<Event>)
    requires IsAttempt(cfg, kind, brokerID, force, emptyOnConflict, s)
    ensures AboutBrokers(s)
  {
    forall e | e in s ensures !e.Enable? && !e.Disable? {
      var i :| 0 <= i < |s| && s[i] == e;
    }
  }

  // ---- All of them, interleaved ----

  ghost predicate Justified(cfg: Config, before: set<Event>, e: Event) {
    match e
    case BrokerCall(kind, brokerID, c, _) =>
      if !cfg.credentialsEnabled then c == DefaultCredentials(cfg)
      else (exists p :: p in before && Backs(p, e))
           || (c == NO_CREDENTIALS && kind != CreateCall && exists p :: p in before && Refused(p, brokerID))
    case Activate(id) =>
      && cfg.credentialsEnabled
      && exists p, c :: p in before && c in before && Backs(p, c) && c.ok && p.result == Accepted(id)
    case _ => true
  }

  function Events(s: seq<Event>): set<Event> {
    set e | e in s
  }

  /** Every call carries credentials that SM accepted before for that broker, or empty ones after a conflict; every
      activation follows a successful call with the credentials that SM accepted under the activated id. */
  ghost predicate Disciplined(cfg: Config, log: seq<Event>) {
    forall n :: 0 <= n < |log| ==> Justified(cfg, Events(log[..n]), log[n])
  }

  /** Without credentials of its own the proxy uses those of the configuration in every call, and activates none. */
  lemma DefaultsAreUsed(cfg: Config, log: seq<Event>, n: nat)
    requires Disciplined(cfg, log) && !cfg.credentialsEnabled && n < |log|
    ensures log[n].BrokerCall? ==>
              log[n].credentials.username == cfg.defaultUser && log[n].credentials.password == cfg.defaultPassword
    ensures !log[n].Activate?
  {
    assert Justified(cfg, Events(log[..n]), log[n]);
  }

  /** With credentials of its own every call carries what SM accepted before for its broker, or, after a conflict and
      not for a creation, an empty name and an empty password. */
  lemma AcceptedOrEmpty(cfg: Config, log: seq<Event>, n: nat)
    requires Disciplined(cfg, log) && cfg.credentialsEnabled && n < |log| && log[n].BrokerCall?
    ensures (exists m :: 0 <= m < n && Backs(log[m], log[n]))
            || (log[n].credentials.username == "" && log[n].credentials.password == "" && log[n].kind != CreateCall
                && exists m :: 0 <= m < n && Refused(log[m], log[n].brokerID))
  {
    assert Justified(cfg, Events(log[..n]), log[n]);
    if p :| p in Events(log[..n]) && Backs(p, log[n]) {
      var m :| 0 <= m < n && log[m] == p;
    } else {
      var p :| p in Events(log[..n]) && Refused(p, log[n].brokerID);
      var m :| 0 <= m < n && log[m] == p;
    }
  }

  lemma JustifiedGrows(cfg: Config, before: set<Event>, more: set<Event>, e: Event)
    requires Justified(cfg, before, e) && before <= more
    ensures Justified(cfg, more, e)
  {
  }

  lemma AttemptIsDisciplined(cfg: Config, kind: CallKind, brokerID: string, force: bool, emptyOnConflict: bool,
                             s: seq<Event>)
    requires IsAttempt(cfg, kind, brokerID, force, emptyOnConflict, s)
    requires emptyOnConflict ==> !force && kind != CreateCall
    ensures Disciplined(cfg, s)
  {
    forall n | 0 <= n < |s| ensures Justified(cfg, Events(s[..n]), s[n]) {
      if n == 2 {
        assert s[..2][1] == s[1];
        assert s[1] in Events(s[..2]);
      } else if n == 3 {
        assert s[..3][1] == s[1] && s[..3][2] == s[2];
        assert s[1] in Events(s[..3]) && s[2] in Events(s[..3]);
      }
    }
  }

  lemma DisciplinedConcat(cfg: Config, a: seq<Event>, b: seq<Event>)
    requires Disciplined(cfg, a) && Disciplined(cfg, b)
    ensures Disciplined(cfg, a + b)
  {
    var ab := a + b;
    forall n | 0 <= n < |ab| ensures Justified(cfg, Events(ab[..n]), ab[n]) {
      if n < |a| {
        assert ab[..n] == a[..n];
      } else {
        var k := n - |a|;
        assert ab[..n] == a + b[..k];
        assert Events(b[..k]) <= Events(ab[..n]);
        JustifiedGrows(cfg, Events(b[..k]), Events(ab[..n]), b[k]);
      }
    }
  }

  function Front<T>(s: seq<T>): seq<T>
    requires s != []
  {
    s[..|s| - 1]
  }

  /** `log` is some interleaving of the parts. */
  ghost predicate Interleaves(parts: seq<seq<Event>>, log: seq<Event>)
    decreases |log|
  {
    if log == [] then forall i :: 0 <= i < |parts| ==> parts[i] == []
    else exists i :: EndsWithBackOf(parts, log, i) && Interleaves(parts[i := Front(parts[i])], Front(log))
  }

  predicate EndsWithBackOf(parts: seq<seq<Event>>, log: seq<Event>, i: int)
    requires log != []
  {
    0 <= i < |parts| && parts[i] != [] && Back(parts[i]) == Back(log)
  }

  lemma {:induction false} PartsAreInLog(parts: seq<seq<Event>>, log: seq<Event>, k: nat)
    requires Interleaves(parts, log) && k < |parts|
    ensures Events(parts[k]) <= Events(log)
    decreases |log|
  {
    if log != [] {
      var i :| EndsWithBackOf(parts, log, i) && Interleaves(parts[i := Front(parts[i])], Front(log));
      PartsAreInLog(parts[i := Front(parts[i])], Front(log), k);
      forall e | e in parts[k] ensures e in log {
        if k == i && e !in Front(parts[k]) {
          assert e == Back(log);
        } else {
          assert e in Events(Front(log));
        }
      }
    }
  }

  /** However the attempts of a resync interleave, the log as a whole keeps the order. */
  lemma {:induction false} InterleavingIsDisciplined(cfg: Config, parts: seq<seq<Event>>, log: seq<Event>)
    requires Interleaves(parts, log)
    requires forall i :: 0 <= i < |parts| ==> Disciplined(cfg, parts[i])
    ensures Disciplined(cfg, log)
    decreases |log|
  {
    if log != [] {
      var i :| EndsWithBackOf(parts, log, i) && Interleaves(parts[i := Front(parts[i])], Front(log));
      var rest := parts[i := Front(parts[i])];
      FrontIsDisciplined(cfg, parts[i]);
      InterleavingIsDisciplined(cfg, rest, Front(log));
      PartsAreInLog(rest, Front(log), i);
      JustifiedGrows(cfg, Events(Front(parts[i])), Events(Front(log)), Back(log));
      forall n | 0 <= n < |log| ensures Justified(cfg, Events(log[..n]), log[n]) {
        if n < |log| - 1 {
          assert log[..n] == Front(log)[..n];
        }
      }
    }
  }

  lemma FrontIsDisciplined(cfg: Config, s: seq<Event>)
    requires s != [] && Disciplined(cfg, s)
    ensures Disciplined(cfg, Front(s)) && Justified(cfg, Events(Front(s)), Back(s))
  {
    forall n | 0 <= n < |s| - 1 ensures Justified(cfg, Events(Front(s)[..n]), Front(s)[n]) {
      assert Front(s)[..n] == s[..n];
    }
  }
}
