/** The names, paths and lookup keys that tie a broker or visibility of SM to its counterpart on the platform. */
module Naming {
  import opened Types
  import opened Text

  /** The name under which the platform knows the proxy of a broker. */
  function BrokerProxyName(cfg: Config, name: string, id: string): string {
    cfg.brokerPrefix + cfg.platformName(name) + "-" + id
  }

  function ProxyNameOf(cfg: Config, b: ServiceBroker): string {
    BrokerProxyName(cfg, b.name, b.guid)
  }

  /** The URL under which the proxy serves a broker. */
  function ProxyPath(cfg: Config, id: string): string {
    cfg.smPath + "/" + id
  }

  function BrokerIDFromURL(url: string): string {
    url[LastIndex(url, '/') + 1..]
  }

  /** Whether a platform broker with this URL is a proxy registered by this program, now or under its old URL. */
  predicate IsProxyURL(cfg: Config, url: string) {
    cfg.smPath <= url || (cfg.legacyPath <= url && LastIndex(url, '/') == |cfg.legacyPath|)
  }

  /** The second case is that of the URL being the old path, a slash and the id that is read from it. */
  lemma OldProxyURL(cfg: Config, url: string)
    ensures IsProxyURL(cfg, url) <==> cfg.smPath <= url || url == cfg.legacyPath + "/" + BrokerIDFromURL(url)
  {
    var k := LastIndex(url, '/');
    LastIndexIsLast(url, '/');
    if cfg.legacyPath <= url && k == |cfg.legacyPath| {
      assert url == url[..k] + "/" + url[k + 1..];
    }
    if url == cfg.legacyPath + "/" + BrokerIDFromURL(url) {
      assert url[|cfg.legacyPath|] == '/';
      BrokerIDRoundTrip(cfg.legacyPath, BrokerIDFromURL(url));
    }
  }

  function KeyText(name: string, url: string): string {
    "name:" + name + URL_MARK + url
  }

  function BrokerKey(b: ServiceBroker): string {
    KeyText(b.name, TrimRight(b.url, '/'))
  }

  const URL_MARK := "|url:"

  function ScopeOf(cfg: Config, v: Visibility): string {
    if cfg.scopeKey in v.labels then v.labels[cfg.scopeKey] else ""
  }

  /** The four fields with a '|' between each two. */
  function JoinFields(tag: string, scope: string, brokerName: string, planID: string): string {
    tag + "|" + (scope + "|" + (brokerName + "|" + planID))
  }

  function VisibilityKey(cfg: Config, v: Visibility): string {
    if v.public then JoinFields("public", "", v.brokerName, v.planID)
    else JoinFields("!public", ScopeOf(cfg, v), v.brokerName, v.planID)
  }

  /** The labels of a public visibility are empty, those of any other name exactly its scope. SM's visibilities are
      converted to this form, and the platform is taken to report its own in it. */
  predicate Canonical(cfg: Config, v: Visibility) {
    v.labels == if v.public then map[] else map[cfg.scopeKey := ScopeOf(cfg, v)]
  }

  predicate PipeFree(cfg: Config, v: Visibility) {
    '|' !in ScopeOf(cfg, v) && '|' !in v.brokerName
  }

  /** The grant that a canonical visibility stands for. */
  function GrantOf(cfg: Config, v: Visibility): Grant {
    Grant(v.brokerName, v.planID, if v.public then Everyone else Holder(cfg.scopeKey, ScopeOf(cfg, v)))
  }

  // ---- Proxy names and paths ----

  /** Read from left to right: the configured prefix, what the platform makes of the broker's name, a dash and the
      id. The path is SM's, a slash and the id. */
  lemma ProxyNameInParts(cfg: Config, b: ServiceBroker)
    ensures var prefix, name, s := cfg.brokerPrefix, cfg.platformName(b.name), ProxyNameOf(cfg, b);
            && |s| == |prefix| + |name| + 1 + |b.guid|
            && prefix <= s && name <= s[|prefix|..] && s[|prefix| + |name|] == '-'
            && s[|prefix| + |name| + 1..] == b.guid
    ensures var path := ProxyPath(cfg, b.guid);
            && |path| == |cfg.smPath| + 1 + |b.guid|
            && cfg.smPath <= path && path[|cfg.smPath|] == '/' && path[|cfg.smPath| + 1..] == b.guid
  {
    var prefix, name, s := cfg.brokerPrefix, cfg.platformName(b.name), ProxyNameOf(cfg, b);
    assert s == prefix + (name + ("-" + b.guid));
    assert s[|prefix|..] == name + ("-" + b.guid);
    assert s[|prefix| + |name|..] == "-" + b.guid;
  }

  /** SM ids all have one length, so proxy names never confuse two brokers, whatever the platform does to names. */
  lemma ProxyNameIdentifiesBroker(cfg: Config, name: string, id: string, name': string, id': string)
    requires |id| == |id'|
    ensures BrokerProxyName(cfg, name, id) == BrokerProxyName(cfg, name', id')
       <==> id == id' && cfg.platformName(name) == cfg.platformName(name')
  {
    var s, t := BrokerProxyName(cfg, name, id), BrokerProxyName(cfg, name', id');
    if s == t {
      assert id == s[|s| - |id|..] && id' == t[|t| - |id|..];
      assert cfg.platformName(name) == s[|cfg.brokerPrefix|..|s| - |id| - 1];
      assert cfg.platformName(name') == t[|cfg.brokerPrefix|..|t| - |id| - 1];
    }
  }

  /** Ids of different lengths collide exactly when the longer one is something, a dash and the shorter one, and that
      something stands after a dash at the end of the name that comes with the shorter one. */
  lemma ProxyNamesCollideForUnequalIDs(cfg: Config, name: string, id: string, name': string, id': string)
    requires |id| < |id'|
    ensures BrokerProxyName(cfg, name, id) == BrokerProxyName(cfg, name', id')
       <==> var k := |id'| - |id| - 1;
            id'[k..] == "-" + id && cfg.platformName(name) == cfg.platformName(name') + "-" + id'[..k]
  {
    var n, n' := cfg.platformName(name), cfg.platformName(name');
    var s, t := BrokerProxyName(cfg, name, id), BrokerProxyName(cfg, name', id');
    assert s == cfg.brokerPrefix + (n + "-" + id) && s[|cfg.brokerPrefix|..] == n + "-" + id;
    assert t == cfg.brokerPrefix + (n' + "-" + id') && t[|cfg.brokerPrefix|..] == n' + "-" + id';
    SplitsTwice(n, id, n', id');
  }

  lemma SplitsTwice(n: string, id: string, n': string, id': string)
    requires |id| < |id'|
    ensures n + "-" + id == n' + "-" + id'
       <==> var k := |id'| - |id| - 1; id'[k..] == "-" + id && n == n' + "-" + id'[..k]
  {
    var k, whole := |id'| - |id| - 1, n' + "-" + id';
    assert whole == n' + "-" + id'[..k] + id'[k..];
    if n + "-" + id == whole {
      assert whole[..|n|] == n && whole[|n|..] == "-" + id;
    }
  }

  lemma BrokerIDRoundTrip(path: string, id: string)
    ensures BrokerIDFromURL(path + "/" + id) == id <==> '/' !in id
  {
    var url := path + "/" + id;
    var k := LastIndex(url, '/');
    LastIndexIsLast(url, '/');
    assert url[|path|] == '/';
    assert forall i :: 0 <= i < |id| ==> url[|path| + 1 + i] == id[i];
    if '/' !in id {
      assert k == |path|;
      assert url[k + 1..] == id;
    } else {
      assert '/' !in url[k + 1..];
    }
  }

  lemma ProxyPathIsProxyURL(cfg: Config, id: string)
    requires '/' !in id
    ensures IsProxyURL(cfg, ProxyPath(cfg, id)) && BrokerIDFromURL(ProxyPath(cfg, id)) == id
  {
    BrokerIDRoundTrip(cfg.smPath, id);
    assert ProxyPath(cfg, id)[..|cfg.smPath|] == cfg.smPath;
  }

  // ---- Takeover keys ----

  /** As long as no broker name contains the mark, a takeover key identifies the name, and the URL up to slashes at its
      end. */
  lemma BrokerKeyIdentifiesBroker(b: ServiceBroker, c: ServiceBroker)
    requires !Contains(b.name, URL_MARK) && !Contains(c.name, URL_MARK)
    ensures BrokerKey(b) == BrokerKey(c) <==> b.name == c.name && TrimRight(b.url, '/') == TrimRight(c.url, '/')
  {
    var x, y := TrimRight(b.url, '/'), TrimRight(c.url, '/');
    KeyTextEnds(b.name, x);
    KeyTextEnds(c.name, y);
    SplitAtMark(b.name, x, c.name, y, URL_MARK);
  }

  /** With a mark inside a name, two different brokers share a key, whatever their ids and URLs. */
  lemma BrokerKeysCollide(a: string, rest: string, url: string, id: string, id': string)
    ensures var b := ServiceBroker(id, a + URL_MARK + rest, url);
            var c := ServiceBroker(id', a, rest + URL_MARK + TrimRight(url, '/'));
            BrokerKey(b) == BrokerKey(c) && b.name != c.name
  {
    var x := TrimRight(url, '/');
    TrimRightTrims(url, '/');
    TrimmedStays(rest + URL_MARK, x);
    KeyTextShifts(a, rest, x);
  }

  lemma KeyTextShifts(name: string, rest: string, url: string)
    ensures KeyText(name + URL_MARK + rest, url) == KeyText(name, rest + URL_MARK + url)
  {
    assert name + URL_MARK + rest + URL_MARK + url == name + URL_MARK + (rest + URL_MARK + url);
  }

  lemma KeyTextEnds(name: string, url: string)
    ensures KeyText(name, url)[5..] == name + URL_MARK + url
  {
    assert KeyText(name, url) == "name:" + (name + URL_MARK + url);
  }

  /** A text that ends in one without slashes at its end, or in a mark, has nothing to trim. */
  lemma TrimmedStays(a: string, x: string)
    requires a != [] && a[|a| - 1] != '/' && (x == [] || x[|x| - 1] != '/')
    ensures TrimRight(a + x, '/') == a + x
  {
    if x == [] {
      assert a + x == a;
    } else {
      assert (a + x)[|a + x| - 1] == x[|x| - 1];
    }
  }

  /** Every broker with this key has this name, and this URL up to slashes at its end. */
  ghost predicate KeyIsOwn(b: ServiceBroker) {
    forall c :: BrokerKey(c) == BrokerKey(b) ==> c.name == b.name && TrimRight(c.url, '/') == TrimRight(b.url, '/')
  }

  /** The exact condition for one broker: neither its name nor its URL holds a mark. */
  lemma BrokerKeyIsOwnIff(b: ServiceBroker)
    ensures KeyIsOwn(b) <==> !Contains(b.name, URL_MARK) && !Contains(TrimRight(b.url, '/'), URL_MARK)
  {
    var x := TrimRight(b.url, '/');
    if Contains(b.name, URL_MARK) {
      var a, rest := SplitContains(b.name, URL_MARK);
      BrokerKeysCollide(a, rest, b.url, b.guid, b.guid);
      assert ServiceBroker(b.guid, a, rest + URL_MARK + x).name != b.name;
    } else if Contains(x, URL_MARK) {
      var a, rest := SplitContains(x, URL_MARK);
      MarkInURL(b, a, rest);
    } else {
      forall c | BrokerKey(c) == BrokerKey(b) ensures c.name == b.name && TrimRight(c.url, '/') == x {
        OwnKeyTellsBroker(b, c);
      }
    }
  }

  lemma OwnKeyTellsBroker(b: ServiceBroker, c: ServiceBroker)
    requires !Contains(b.name, URL_MARK) && !Contains(TrimRight(b.url, '/'), URL_MARK) && BrokerKey(c) == BrokerKey(b)
    ensures c.name == b.name && TrimRight(c.url, '/') == TrimRight(b.url, '/')
  {
    OnlyThatMark(b.name, TrimRight(b.url, '/'), c.name, TrimRight(c.url, '/'), URL_MARK);
    KeyTextEnds(b.name, TrimRight(b.url, '/'));
    KeyTextEnds(c.name, TrimRight(c.url, '/'));
  }

  lemma MarkInURL(b: ServiceBroker, a: string, rest: string)
    requires TrimRight(b.url, '/') == a + URL_MARK + rest
    ensures var c := ServiceBroker(b.guid, b.name + URL_MARK + a, rest);
            BrokerKey(c) == BrokerKey(b) && c.name != b.name
  {
    TrimRightTrims(b.url, '/');
    assert rest != [] ==> rest[|rest| - 1] == (a + URL_MARK + rest)[|a + URL_MARK + rest| - 1];
    KeyTextShifts(b.name, a, rest);
  }

  /** A broker whose URL is that of a proxy under the old path with a slash at its end is no proxy itself, yet
      shares its takeover key. So it takes more than URLs of their own to keep desired brokers apart from the
      proxies. */
  lemma SlashedProxyURLSharesKey(cfg: Config, id: string, name: string)
    requires '/' !in id && !(cfg.smPath <= cfg.legacyPath + "/" + id + "/")
    ensures var proxy, url := cfg.legacyPath + "/" + id, cfg.legacyPath + "/" + id + "/";
            && IsProxyURL(cfg, proxy) && !IsProxyURL(cfg, url)
            && BrokerKey(ServiceBroker("1", name, proxy)) == BrokerKey(ServiceBroker("2", name, url))
  {
    var proxy, url := cfg.legacyPath + "/" + id, cfg.legacyPath + "/" + id + "/";
    BrokerIDRoundTrip(cfg.legacyPath, id);
    BrokerIDRoundTrip(proxy, "");
    assert url == proxy + "/" + "";
    assert BrokerIDFromURL(url) == "" && |cfg.legacyPath + "/" + ""| <= |proxy| < |url|;
    assert url[..|url| - 1] == proxy;
  }

  // ---- Visibility keys ----

  lemma VisibilityKeyIdentifiesGrant(cfg: Config, v: Visibility, w: Visibility)
    requires PipeFree(cfg, v) && PipeFree(cfg, w)
    ensures VisibilityKey(cfg, v) == VisibilityKey(cfg, w) <==> GrantOf(cfg, v) == GrantOf(cfg, w)
  {
    JoinIsInjective(
      if v.public then "public" else "!public", if v.public then "" else ScopeOf(cfg, v), v.brokerName, v.planID,
      if w.public then "public" else "!public", if w.public then "" else ScopeOf(cfg, w), w.brokerName, w.planID);
  }

  lemma JoinIsInjective(a: string, b: string, c: string, d: string, a': string, b': string, c': string, d': string)
    requires '|' !in a && '|' !in b && '|' !in c && '|' !in a' && '|' !in b' && '|' !in c'
    ensures JoinFields(a, b, c, d) == JoinFields(a', b', c', d') <==> a == a' && b == b' && c == c' && d == d'
  {
    SplitAtSeparator(a, b + "|" + (c + "|" + d), a', b' + "|" + (c' + "|" + d'), '|');
    SplitAtSeparator(b, c + "|" + d, b', c' + "|" + d', '|');
    SplitAtSeparator(c, d, c', d', '|');
  }

  /** A '|' in a scope makes its key that of another grant: the broker name takes over the rest of the scope. */
  lemma VisibilityKeysCollide(cfg: Config, scope: string, rest: string, brokerName: string, planID: string)
    ensures var v := Visibility(false, planID, brokerName, map[cfg.scopeKey := scope + "|" + rest]);
            var w := Visibility(false, planID, rest + "|" + brokerName, map[cfg.scopeKey := scope]);
            VisibilityKey(cfg, v) == VisibilityKey(cfg, w) && GrantOf(cfg, v) != GrantOf(cfg, w)
  {
    JoinShiftsScope("!public", scope, rest, brokerName, planID);
    assert |scope + "|" + rest| > |scope|;
  }

  lemma JoinShiftsScope(tag: string, scope: string, rest: string, brokerName: string, planID: string)
    ensures JoinFields(tag, scope + "|" + rest, brokerName, planID)
            == JoinFields(tag, scope, rest + "|" + brokerName, planID)
  {
    assert scope + "|" + rest + "|" + (brokerName + "|" + planID)
           == scope + "|" + (rest + "|" + brokerName + "|" + planID);
  }

  lemma JoinShiftsName(tag: string, scope: string, brokerName: string, rest: string, planID: string)
    ensures JoinFields(tag, scope, brokerName + "|" + rest, planID)
            == JoinFields(tag, scope, brokerName, rest + "|" + planID)
  {
    assert brokerName + "|" + rest + "|" + planID == brokerName + "|" + (rest + "|" + planID);
  }

  /** No other visibility in canonical form that has this key stands for another grant. */
  ghost predicate Unshared(cfg: Config, v: Visibility) {
    forall w: Visibility :: Canonical(cfg, w) && VisibilityKey(cfg, w) == VisibilityKey(cfg, v) ==>
      GrantOf(cfg, w) == GrantOf(cfg, v)
  }

  function Pipes(s: string): nat {
    multiset(s)['|']
  }

  lemma JoinCountsPipes(tag: string, scope: string, brokerName: string, planID: string)
    requires '|' !in tag
    ensures Pipes(JoinFields(tag, scope, brokerName, planID)) == 3
       <==> '|' !in scope && '|' !in brokerName && '|' !in planID
  {
    PipesAdd(brokerName, planID);
    PipesAdd(scope, brokerName + "|" + planID);
    PipesAdd(tag, scope + "|" + (brokerName + "|" + planID));
  }

  lemma PipesAdd(a: string, b: string)
    ensures Pipes(a + "|" + b) == Pipes(a) + 1 + Pipes(b)
  {
    assert Pipes("|") == 1;
  }

  function TagOf(v: Visibility): string {
    if v.public then "public" else "!public"
  }

  lemma PipesOfKey(cfg: Config, v: Visibility)
    requires Canonical(cfg, v)
    ensures VisibilityKey(cfg, v) == JoinFields(TagOf(v), ScopeOf(cfg, v), v.brokerName, v.planID)
    ensures Pipes(VisibilityKey(cfg, v)) == 3 <==> PipeFree(cfg, v) && '|' !in v.planID
  {
    JoinCountsPipes(TagOf(v), ScopeOf(cfg, v), v.brokerName, v.planID);
  }

  /** The exact condition for one visibility: its key is its own if and only if none of its fields holds a '|'. */
  lemma VisibilityKeyIsUnshared(cfg: Config, v: Visibility)
    requires Canonical(cfg, v)
    ensures Unshared(cfg, v) <==> PipeFree(cfg, v) && '|' !in v.planID
  {
    PipesOfKey(cfg, v);
    if PipeFree(cfg, v) && '|' !in v.planID {
      forall w: Visibility | Canonical(cfg, w) && VisibilityKey(cfg, w) == VisibilityKey(cfg, v)
        ensures GrantOf(cfg, w) == GrantOf(cfg, v)
      {
        PipesOfKey(cfg, w);
        VisibilityKeyIdentifiesGrant(cfg, v, w);
      }
    } else {
      var w := Twin(cfg, v);
    }
  }

  /** Another visibility with the key of one that holds a '|': the text around it moves from one field to the next. */
  lemma Twin(cfg: Config, v: Visibility) returns (w: Visibility)
    requires Canonical(cfg, v) && !(PipeFree(cfg, v) && '|' !in v.planID)
    ensures Canonical(cfg, w) && VisibilityKey(cfg, w) == VisibilityKey(cfg, v) && GrantOf(cfg, w) != GrantOf(cfg, v)
  {
    var scope := ScopeOf(cfg, v);
    if '|' in scope {
      var i :| 0 <= i < |scope| && scope[i] == '|';
      assert scope == scope[..i] + "|" + scope[i + 1..];
      VisibilityKeysCollide(cfg, scope[..i], scope[i + 1..], v.brokerName, v.planID);
      w := Visibility(false, v.planID, scope[i + 1..] + "|" + v.brokerName, map[cfg.scopeKey := scope[..i]]);
    } else if '|' in v.brokerName {
      var i :| 0 <= i < |v.brokerName| && v.brokerName[i] == '|';
      var a, b := v.brokerName[..i], v.brokerName[i + 1..];
      assert v.brokerName == a + "|" + b;
      JoinShiftsName(TagOf(v), scope, a, b, v.planID);
      w := v.(brokerName := a, planID := b + "|" + v.planID);
    } else {
      var i :| 0 <= i < |v.planID| && v.planID[i] == '|';
      var a, b := v.planID[..i], v.planID[i + 1..];
      assert v.planID == a + "|" + b;
      JoinShiftsName(TagOf(v), scope, v.brokerName, a, b);
      assert |v.brokerName + "|" + a| > |v.brokerName|;
      w := v.(brokerName := v.brokerName + "|" + a, planID := b);
    }
  }
}
