/** The producer's side of a connection attempt: the settings, the response headers, the ping arithmetic in 64 bits,
    and how an attempt looks in the Pipeline. */
module Producer {
  import opened Types
  import P = Pipeline

  newtype int64 = x: int | -0x8000_0000_0000_0000 <= x < 0x8000_0000_0000_0000

  const MAX_INT64: int := 0x7fff_ffff_ffff_ffff
  const INVALID_REVISION: int64 := -1

  /** The value that a 64-bit machine keeps of `n`. */
  function Wrap(n: int): int64 {
    var m := n % 0x1_0000_0000_0000_0000;
    (if m > MAX_INT64 then m - 0x1_0000_0000_0000_0000 else m) as int64
  }

  /** Division that truncates toward zero. */
  function Quotient(a: int, b: int): int
    requires b > 0
  {
    if a >= 0 then a / b else -(-a / b)
  }

  // ---- Settings ----

  /** Durations in nanoseconds. */
  datatype Settings = Settings(minPingPeriod: int64, reconnectDelay: int64, pongTimeout: int64,
                               pingPeriodPercentage: int64,
                               messagesQueueSize: int64, resyncPeriod: int64)

  datatype SettingsError = MinPingPeriod | ReconnectDelay | PongTimeout | PingPeriodPercentage | ResyncPeriod

  predicate Acceptable(s: Settings) {
    s.minPingPeriod > 0 && s.reconnectDelay >= 0 && s.pongTimeout > 0 && 0 < s.pingPeriodPercentage < 100
    && s.resyncPeriod > 0
  }

  /** The first setting that is out of range; the size of the queue is not looked at. */
  method Validate(s: Settings) returns (r: Option<SettingsError>)
    ensures r == None <==> Acceptable(s)
    ensures r == None <==> s.minPingPeriod > 0 && s.reconnectDelay >= 0 && s.pongTimeout > 0
                           && 0 < s.pingPeriodPercentage < 100 && s.resyncPeriod > 0
    ensures r == Some(MinPingPeriod) <==> s.minPingPeriod <= 0
    ensures r == Some(ReconnectDelay) <==> s.minPingPeriod > 0 && s.reconnectDelay < 0
    ensures r == Some(PongTimeout) <==> s.minPingPeriod > 0 && s.reconnectDelay >= 0 && s.pongTimeout <= 0
    ensures r == Some(PingPeriodPercentage)
       <==> s.minPingPeriod > 0 && s.reconnectDelay >= 0 && s.pongTimeout > 0 && !(0 < s.pingPeriodPercentage < 100)
    ensures r == Some(ResyncPeriod) <==> Acceptable(s.(resyncPeriod := 1)) && s.resyncPeriod <= 0
  {
    if s.minPingPeriod <= 0 {
      return Some(MinPingPeriod);
    }
    if s.reconnectDelay < 0 {
      return Some(ReconnectDelay);
    }
    if s.pongTimeout <= 0 {
      return Some(PongTimeout);
    }
    if s.pingPeriodPercentage <= 0 || s.pingPeriodPercentage >= 100 {
      return Some(PingPeriodPercentage);
    }
    if s.resyncPeriod <= 0 {
      return Some(ResyncPeriod);
    }
    return None;
  }

  // ---- Ping arithmetic ----

  function PingPeriodOf(maxPingPeriod: int64, percentage: int64): int64 {
    Wrap(Quotient(Wrap(maxPingPeriod as int * percentage as int) as int, 100))
  }

  function ReadTimeoutOf(pingPeriod: int64, pongTimeout: int64): int64 {
    Wrap(pingPeriod as int + pongTimeout as int)
  }

  lemma WrapIsIdentityInRange(n: int)
    ensures Wrap(n) as int == n <==> -MAX_INT64 - 1 <= n <= MAX_INT64
  {
  }

  /** The exact threshold: the product fits 64 bits as long as the period is at most the largest integer divided by the
      percentage. */
  lemma OverflowThreshold(maxPingPeriod: int64, percentage: int64)
    requires maxPingPeriod > 0 && 0 < percentage < 100
    ensures Wrap(maxPingPeriod as int * percentage as int) as int == maxPingPeriod as int * percentage as int
       <==> maxPingPeriod as int <= MAX_INT64 / percentage as int
  {
    var m, q := maxPingPeriod as int, percentage as int;
    WrapIsIdentityInRange(m * q);
    ProductBound(m, q, MAX_INT64);
    assert m * q > 0;
  }

  lemma ProductBound(m: int, q: int, bound: int)
    requires q > 0 && bound >= 0
    ensures m * q <= bound <==> m <= bound / q
  {
    var t := bound / q;
    assert t * q <= bound < (t + 1) * q;
    if m <= t {
      assert m * q <= t * q;
    } else {
      assert m * q >= (t + 1) * q;
    }
  }

  /** Below the threshold the ping period is shorter than the period that SM allows, and it is positive, as a ticker
      needs, exactly when a hundredth of the product does not vanish. */
  lemma PingPeriodIsShorter(s: Settings, maxPingPeriod: int64)
    requires Acceptable(s) && maxPingPeriod >= s.minPingPeriod
    requires maxPingPeriod as int <= MAX_INT64 / s.pingPeriodPercentage as int
    ensures 0 <= PingPeriodOf(maxPingPeriod, s.pingPeriodPercentage) < maxPingPeriod
    ensures PingPeriodOf(maxPingPeriod, s.pingPeriodPercentage) > 0
       <==> maxPingPeriod as int * s.pingPeriodPercentage as int >= 100
  {
    var m, q := maxPingPeriod as int, s.pingPeriodPercentage as int;
    OverflowThreshold(maxPingPeriod, s.pingPeriodPercentage);
    PartOfWhole(m, q);
    Hundredth(m * q, m);
    WrapIsIdentityInRange(m * q / 100);
  }

  lemma PartOfWhole(m: int, q: int)
    requires m > 0 && 0 < q < 100
    ensures 0 < m * q < m * 100
  {
  }

  lemma Hundredth(x: int, m: int)
    requires 0 < x < m * 100
    ensures 0 <= x / 100 < m && (x / 100 > 0 <==> x >= 100)
  {
  }

  /** The ping period is the configured part of the period that SM allows exactly up to the threshold: above it, however
      far, the value that is left is another one. */
  lemma PingPeriodIsExact(s: Settings, maxPingPeriod: int64)
    requires Acceptable(s) && maxPingPeriod >= s.minPingPeriod
    ensures PingPeriodOf(maxPingPeriod, s.pingPeriodPercentage) as int
            == maxPingPeriod as int * s.pingPeriodPercentage as int / 100
       <==> maxPingPeriod as int <= MAX_INT64 / s.pingPeriodPercentage as int
  {
    var m, q := maxPingPeriod as int, s.pingPeriodPercentage as int;
    OverflowThreshold(maxPingPeriod, s.pingPeriodPercentage);
    PartOfWhole(m, q);
    ProductBound(m, q, MAX_INT64);
    WrappedQuotient(m * q);
  }

  lemma WrappedQuotient(x: int)
    requires x > 0
    ensures Wrap(Quotient(Wrap(x) as int, 100)) as int == x / 100 <==> x <= MAX_INT64
  {
    WrapIsIdentityInRange(x);
    WrapIsIdentityInRange(Quotient(Wrap(x) as int, 100));
  }

  /** Just above the threshold, up to twice as far, the product wraps to a negative one and the ping period is not
      positive. */
  lemma PingPeriodIsWrongAboveThreshold(s: Settings, maxPingPeriod: int64)
    requires Acceptable(s) && maxPingPeriod >= s.minPingPeriod
    requires MAX_INT64 < maxPingPeriod as int * s.pingPeriodPercentage as int <= 2 * MAX_INT64 + 1
    ensures PingPeriodOf(maxPingPeriod, s.pingPeriodPercentage) <= 0
  {
    WrappedIsNegative(maxPingPeriod as int * s.pingPeriodPercentage as int);
  }

  lemma WrappedIsNegative(x: int)
    requires MAX_INT64 < x <= 2 * MAX_INT64 + 1
    ensures Wrap(Quotient(Wrap(x) as int, 100)) <= 0
  {
  }

  /** The read timeout is longer than the ping period exactly when their sum fits 64 bits. */
  lemma ReadTimeoutIsLonger(s: Settings, pingPeriod: int64)
    requires Acceptable(s)
    ensures ReadTimeoutOf(pingPeriod, s.pongTimeout) > pingPeriod
         <==> pingPeriod as int + s.pongTimeout as int <= MAX_INT64
    ensures 0 <= pingPeriod && pingPeriod as int + s.pongTimeout as int <= MAX_INT64 ==>
              ReadTimeoutOf(pingPeriod, s.pongTimeout) - pingPeriod == s.pongTimeout
  {
  }

  // ---- A connection attempt ----

  datatype RevisionHeader = Absent | Malformed | Revision(value: int64)

  /** What dialing came to: no connection, with the status of the response if there was one, or the headers. A
      maximal ping period that cannot be parsed is None. */
  datatype Dial = NoConnection(status: Option<int>) | Connection(revision: RevisionHeader, maxPingPeriod: Option<int64>)

  datatype Outcome = Connected | Gone | Failed

  const STATUS_GONE := 410

  predicate PingPeriodAccepted(s: Settings, maxPingPeriod: Option<int64>) {
    maxPingPeriod.Some? && maxPingPeriod.value >= s.minPingPeriod
  }

  predicate HeaderAccepted(last: int64, h: RevisionHeader) {
    last != INVALID_REVISION || h == Absent || (h.Revision? && h.value > 0)
  }

  /** A revision is taken from the header only if there was none before. */
  function RevisionAfterHeaders(last: int64, h: RevisionHeader): int64 {
    if last == INVALID_REVISION && h.Revision? && h.value > 0 then h.value else last
  }

  /** There are certificates, SM answers with a connection, the ping period that it allows is not below the least
      one, and the proxy has a revision, or SM names a positive one or none. */
  predicate Connects(s: Settings, last: int64, certificatesOk: bool, dial: Dial) {
    && certificatesOk && dial.Connection?
    && dial.maxPingPeriod.Some? && dial.maxPingPeriod.value >= s.minPingPeriod
    && (last != -1 || dial.revision.Absent? || (dial.revision.Revision? && dial.revision.value > 0))
  }

  class Connector {
    const settings: Settings
    var lastNotificationRevision: int64
    var pingPeriod: int64
    var readTimeout: int64

    constructor (settings: Settings)
      ensures this.settings == settings && lastNotificationRevision == INVALID_REVISION
    {
      this.settings := settings;
      lastNotificationRevision := INVALID_REVISION;
      pingPeriod, readTimeout := 0, 0;
    }

    /** The revision is adopted before the ping period is checked, so it can stay although the attempt fails. */
    method ReadResponseHeaders(h: RevisionHeader, maxPingPeriod: Option<int64>) returns (ok: bool)
      modifies this
      ensures ok <==> HeaderAccepted(old(lastNotificationRevision), h) && PingPeriodAccepted(settings, maxPingPeriod)
      ensures lastNotificationRevision == RevisionAfterHeaders(old(lastNotificationRevision), h)
      ensures ok ==> pingPeriod == PingPeriodOf(maxPingPeriod.value, settings.pingPeriodPercentage)
                     && readTimeout == ReadTimeoutOf(pingPeriod, settings.pongTimeout)
      ensures !ok ==> pingPeriod == old(pingPeriod) && readTimeout == old(readTimeout)
    {
      if lastNotificationRevision == INVALID_REVISION {
        if h != Absent {
          if h == Malformed || h.value <= 0 {
            return false;
          }
          lastNotificationRevision := h.value;
        }
      }
      if maxPingPeriod == None || maxPingPeriod.value < settings.minPingPeriod {
        return false;
      }
      pingPeriod := PingPeriodOf(maxPingPeriod.value, settings.pingPeriodPercentage);
      readTimeout := ReadTimeoutOf(pingPeriod, settings.pongTimeout);
      return true;
    }

    /** `asked` is the revision that is sent to SM. */
    method Connect(certificatesOk: bool, dial: Dial) returns (outcome: Outcome, asked: Option<int64>)
      modifies this
      ensures outcome == OutcomeOf(settings, old(lastNotificationRevision), certificatesOk, dial)
      ensures lastNotificationRevision == RevisionAfterConnect(old(lastNotificationRevision), certificatesOk, dial)
      ensures asked == if certificatesOk && old(lastNotificationRevision) != INVALID_REVISION
                       then Some(old(lastNotificationRevision)) else None
      ensures outcome == Gone <==> certificatesOk && dial == NoConnection(Some(410))
      ensures outcome == Connected <==> Connects(settings, old(lastNotificationRevision), certificatesOk, dial)
    {
      asked := None;
      if !certificatesOk {
        return Failed, asked;
      }
      if lastNotificationRevision != INVALID_REVISION {
        asked := Some(lastNotificationRevision);
      }
      if dial.NoConnection? {
        return if dial.status == Some(STATUS_GONE) then Gone else Failed, asked;
      }
      var ok := ReadResponseHeaders(dial.revision, dial.maxPingPeriod);
      outcome := if ok then Connected else Failed;
    }

    /** One round of the connection loop up to the point where the goroutines of the connection start. `resync`
        tells that a resync is requested. */
    method Attempt(certificatesOk: bool, dial: Dial) returns (outcome: Outcome, resync: bool)
      modifies this
      ensures outcome == OutcomeOf(settings, old(lastNotificationRevision), certificatesOk, dial)
      ensures lastNotificationRevision
              == RevisionAfterAttempt(settings, old(lastNotificationRevision), certificatesOk, dial)
      ensures resync <==> outcome == Connected && old(lastNotificationRevision) == INVALID_REVISION
      ensures outcome == Gone <==> certificatesOk && dial == NoConnection(Some(410))
      ensures outcome == Connected <==> Connects(settings, old(lastNotificationRevision), certificatesOk, dial)
      ensures outcome == Gone ==> lastNotificationRevision == -1
      ensures outcome != Gone && (!certificatesOk || dial.NoConnection?) ==>
                lastNotificationRevision == old(lastNotificationRevision)
      ensures outcome == Connected && old(lastNotificationRevision) == -1 && dial.revision.Revision? ==>
                lastNotificationRevision == dial.revision.value
      ensures outcome == Connected && old(lastNotificationRevision) == -1 ==> resync
      ensures old(lastNotificationRevision) != -1 ==>
                lastNotificationRevision in {-1, old(lastNotificationRevision)} && !resync
    {
      var needResync := lastNotificationRevision == INVALID_REVISION;
      var asked;
      outcome, asked := Connect(certificatesOk, dial);
      resync := false;
      if outcome == Gone {
        lastNotificationRevision := INVALID_REVISION;
      } else if outcome == Connected {
        resync := needResync;
      }
    }
  }

  function OutcomeOf(s: Settings, last: int64, certificatesOk: bool, dial: Dial): Outcome {
    if !certificatesOk then Failed
    else
      match dial
      case NoConnection(status) => if status == Some(STATUS_GONE) then Gone else Failed
      case Connection(h, max) => if HeaderAccepted(last, h) && PingPeriodAccepted(s, max) then Connected else Failed
  }

  function RevisionAfterConnect(last: int64, certificatesOk: bool, dial: Dial): int64 {
    if certificatesOk && dial.Connection? then RevisionAfterHeaders(last, dial.revision) else last
  }

  function RevisionAfterAttempt(s: Settings, last: int64, certificatesOk: bool, dial: Dial): int64 {
    if OutcomeOf(s, last, certificatesOk, dial) == Gone then INVALID_REVISION
    else RevisionAfterConnect(last, certificatesOk, dial)
  }

  /** A failed attempt keeps a revision that it has just adopted, so that the next one asks for no resync, exactly
      when the header names a revision, there was none before, and the ping period is missing, malformed or too
      short. */
  lemma AdoptsAndFailsIff(s: Settings, last: int64, certificatesOk: bool, dial: Dial)
    ensures OutcomeOf(s, last, certificatesOk, dial) == Failed
            && RevisionAfterAttempt(s, last, certificatesOk, dial) != last
       <==> certificatesOk && last == INVALID_REVISION && dial.Connection? && dial.revision.Revision?
            && dial.revision.value > 0 && !PingPeriodAccepted(s, dial.maxPingPeriod)
  {
  }

  // ---- The attempt as a step of the Pipeline ----

  function Known(last: int64): Option<int> {
    if last == INVALID_REVISION then None else Some(last as int)
  }

  /** SM names a revision of its own, of its first `n` changes the last, or continues after the revision it was
      asked for. */
  predicate Honest(s: P.System, last: int64, dial: Dial, n: nat) {
    dial.Connection? ==>
      if last != INVALID_REVISION then P.IsRevisionAt(s.log, last as int, n)
      else if dial.revision.Revision? && dial.revision.value > 0
      then P.IsRevisionAt(s.log, dial.revision.value as int, n)
      else n <= |s.log|
  }

  function ActionOf(settings: Settings, last: int64, certificatesOk: bool, dial: Dial, n: nat): P.Action {
    match OutcomeOf(settings, last, certificatesOk, dial)
    case Gone => P.Loop(P.Refuse(true))
    case Connected => P.Loop(P.Connect(n, last == INVALID_REVISION && dial.revision.Revision?))
    case Failed =>
      P.Loop(if RevisionAfterAttempt(settings, last, certificatesOk, dial) != last then P.AdoptThenFail(n)
             else P.Refuse(false))
  }

  /** Every attempt of the code is a step of the connection loop in the Pipeline: the revision, the resync request
      and the stream agree. */
  lemma AttemptIsStep(settings: Settings, s: P.System, last: int64, certificatesOk: bool, dial: Dial, n: nat)
    requires s.loop == P.Idle && s.last == Known(last) && Honest(s, last, dial, n)
    ensures var a := ActionOf(settings, last, certificatesOk, dial, n);
            var outcome := OutcomeOf(settings, last, certificatesOk, dial);
            && P.Enabled(s, a)
            && var s' := P.Apply(s, a);
               && s'.last == Known(RevisionAfterAttempt(settings, last, certificatesOk, dial))
               && (s'.loop == P.HandingOver <==> outcome == Connected && last == INVALID_REVISION)
               && (s'.loop == P.Streaming <==> outcome == Connected && last != INVALID_REVISION)
               && (outcome == Connected ==> s'.cursor == n)
  {
  }
}
