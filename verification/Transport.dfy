/** Round trippers and trippers: how apicore.Chain composes them, what the identity and
    unix trippers do to a request, and what therefore reaches the base transport. */
module Transport {
  import opened Domain
  import opened Protocol
  import opened World

  /** One round trip: the identity afterwards, the request that reached the base
      transport, and what came back. */
  datatype Hop = Hop(identity: AuthState, seen: Request, resp: Option<Response>, err: Option<ForeignError>)

  type RoundTripper = (AuthState, Request) -> Hop

  type Tripper = RoundTripper -> RoundTripper

  // ------------------------------------------------------------------- Chain

  function NotSupported(): RoundTripper {
    (s: AuthState, r: Request) => Hop(s, r, None, Some(Leaf(Opaque)))
  }

  /** The first tripper is the outermost one. */
  function Compose(base: RoundTripper, trippers: seq<Tripper>): RoundTripper {
    if trippers == [] then base else trippers[0](Compose(base, trippers[1..]))
  }

  /** apicore.Chain: a downward loop of reassignments. */
  method Chain(base: Option<RoundTripper>, trippers: seq<Tripper>) returns (rt: RoundTripper)
    ensures rt == Compose(if base.Some? then base.value else NotSupported(), trippers)
  {
    rt := if base.Some? then base.value else NotSupported();
    ghost var start := rt;
    var i := |trippers|;
    while i > 0
      invariant 0 <= i <= |trippers|
      invariant rt == Compose(start, trippers[i..])
    {
      i := i - 1;
      assert trippers[i..][1..] == trippers[i + 1..];
      rt := trippers[i](rt);
    }
    assert trippers[0..] == trippers;
  }

  /** Chaining a chain is one chain, outer trippers first. */
  lemma {:induction false} ChainOfChain(base: RoundTripper, inner: seq<Tripper>, outer: seq<Tripper>)
    ensures Compose(Compose(base, inner), outer) == Compose(base, outer + inner)
  {
    if outer == [] {
      assert outer + inner == inner;
    } else {
      ChainOfChain(base, inner, outer[1..]);
      assert (outer + inner)[1..] == outer[1..] + inner;
    }
  }

  // ---------------------------------------------------------------- trippers

  const UNIX_PATH := "/api/system/unix"
  const AUTHORIZATION := "Authorization"
  const DID := "Did"
  const VISITOR_ID := "visitorid"
  const COOKIE_SCOPE := "mteam"

  type Headers = map<string, string>

  function Without(h: Headers, key: string): (r: Headers)
    ensures forall k :: k in r <==> k in h && !EqualFold(k, key)
    ensures forall k :: k in r ==> r[k] == h[k]
  {
    map k | k in h && !EqualFold(k, key) :: h[k]
  }

  /** mttransport.deleteHeader: removes entries while ranging over the map. */
  method DeleteHeader(h: Headers, key: string) returns (out: Headers)
    ensures out == Without(h, key)
  {
    out := h;
    var rest := h.Keys;
    while rest != {}
      invariant rest <= h.Keys
      invariant forall k :: k in out <==> k in h && (k in rest || !EqualFold(k, key))
      invariant forall k :: k in out ==> out[k] == h[k]
    {
      var candidate :| candidate in rest;
      if EqualFold(candidate, key) { out := out - {candidate}; }
      rest := rest - {candidate};
    }
  }

  function Stripped(r: Request): Request {
    r.(headers := Without(Without(r.headers, AUTHORIZATION), DID))
  }

  function UnixNoAuth(): Tripper {
    (next: RoundTripper) => (s: AuthState, r: Request) =>
      next(s, if Contains(r.url, UNIX_PATH) then Stripped(r) else r)
  }

  function SetIfBlank(h: Headers, key: string, value: string): Headers {
    if key in h && h[key] != "" then h else h[key := value]
  }

  datatype HeadersConfig = HeadersConfig(referer: string, userAgent: string, version: string, webVersion: string)

  function WithCommonHeaders(r: Request, cfg: HeadersConfig, ts: string): Request {
    var h1 := SetIfBlank(r.headers, "referer", cfg.referer);
    var h2 := SetIfBlank(h1, "Accept", "application/json;charset=UTF-8");
    var h3 := SetIfBlank(h2, "Ts", ts);
    var h4 := SetIfBlank(h3, "version", cfg.version);
    var h5 := SetIfBlank(h4, "webversion", cfg.webVersion);
    r.(headers := h5, userAgent := if r.userAgent == "" then cfg.userAgent else r.userAgent)
  }

  function HeadersTripper(cfg: HeadersConfig, ts: string): Tripper {
    (next: RoundTripper) => (s: AuthState, r: Request) => next(s, WithCommonHeaders(r, cfg, ts))
  }

  function CookieScope(): Tripper {
    (next: RoundTripper) => (s: AuthState, r: Request) => next(s, r.(cookieScope := COOKIE_SCOPE))
  }

  /** A proxy of the context fills in a missing one; session contexts carry none. */
  function Proxy(contextProxy: string): Tripper {
    (next: RoundTripper) => (s: AuthState, r: Request) =>
      next(s, if r.proxy == "" then r.(proxy := contextProxy) else r)
  }

  function Injected(r: Request, s: AuthState): Request {
    var h1 := if s.token != "" then r.headers[AUTHORIZATION := s.token] else r.headers;
    var h2 := if s.did != "" then h1[DID := s.did] else h1;
    var h3 := if s.visitorID != "" then h2[VISITOR_ID := s.visitorID] else h2;
    r.(headers := h3)
  }

  /** The value of the first header, in the order the map is ranged over, whose key is Did. */
  function FirstDid(headers: seq<Header>): string {
    if headers == [] then ""
    else if EqualFold(headers[0].key, DID) then headers[0].value
    else FirstDid(headers[1..])
  }

  /** The device id of a response: the value of its first header of that name in any spelling. */
  lemma {:induction false} FirstDidMeaning(headers: seq<Header>, k: nat)
    requires k <= |headers| && (forall j :: 0 <= j < k ==> !EqualFold(headers[j].key, DID))
    requires k < |headers| ==> EqualFold(headers[k].key, DID)
    ensures FirstDid(headers) == if k < |headers| then headers[k].value else ""
  {
    if k > 0 {
      assert forall j :: 0 <= j < k - 1 ==> headers[1..][j] == headers[j + 1];
      FirstDidMeaning(headers[1..], k - 1);
    }
  }

  /** The device id after a response: the one it carries, unless it carries none. */
  function Rotated(did: string, resp: Option<Response>): string {
    if resp.None? || FirstDid(resp.value.headers) == "" then did else FirstDid(resp.value.headers)
  }

  function IdentityHeaders(): Tripper {
    (next: RoundTripper) => (s: AuthState, r: Request) =>
      var hop := next(s, Injected(r, s));
      hop.(identity := hop.identity.(did := Rotated(hop.identity.did, hop.resp)))
  }

  // ---------------------------------------------------- the imperative tripper

  /** mttransport.State */
  class State {
    var state: AuthState

    constructor (state: AuthState)
      ensures this.state == state
    {
      this.state := state;
    }

    method Snapshot() returns (s: AuthState)
      ensures s == state
    {
      s := state;
    }

    method UpdateDID(did: string)
      modifies this
      ensures state == if did == "" then old(state) else old(state).(did := did)
    {
      if did == "" { return; }
      state := state.(did := did);
    }
  }

  /** What IdentityHeaders returns: writes the request headers, calls on, then scans the
      response headers for a Did and stops at the first one. */
  method RoundTripWithIdentity(identity: State, next: RoundTripper, r: Request) returns (hop: Hop)
    requires forall s, q :: next(s, q).identity == s
    modifies identity
    ensures hop == IdentityHeaders()(next)(old(identity.state), r)
    ensures identity.state == hop.identity
  {
    var snapshot := identity.Snapshot();
    var headers := r.headers;
    if snapshot.token != "" { headers := headers[AUTHORIZATION := snapshot.token]; }
    if snapshot.did != "" { headers := headers[DID := snapshot.did]; }
    if snapshot.visitorID != "" { headers := headers[VISITOR_ID := snapshot.visitorID]; }
    hop := next(snapshot, r.(headers := headers));
    if hop.resp.Some? {
      var received := hop.resp.value.headers;
      var i := 0;
      while i < |received|
        invariant 0 <= i <= |received|
        invariant FirstDid(received) == FirstDid(received[i..])
        invariant identity.state == snapshot
        invariant i == |received| ==> FirstDid(received) == ""
      {
        assert received[i..][0] == received[i];
        if EqualFold(received[i].key, DID) {
          identity.UpdateDID(received[i].value);
          break;
        }
        assert received[i..][1..] == received[i + 1..];
        i := i + 1;
      }
    }
    assert identity.state == snapshot.(did := Rotated(snapshot.did, hop.resp));
    assert r.(headers := headers) == Injected(r, snapshot);
    hop := hop.(identity := identity.state);
  }

  // ------------------------------------------------------- the session's chain

  /** What the login client and the browse client are configured with. */
  datatype ClientConfig = ClientConfig(apiHost: string, headers: HeadersConfig, proxy: string, timeout: int)

  function Base(d: Draw): RoundTripper {
    (s: AuthState, r: Request) => Hop(s, r, d.resp, d.err)
  }

  /** The client's own trippers, outermost first. Logging only observes. */
  function ClientTrippers(cfg: HeadersConfig, d: Draw): seq<Tripper> {
    [Proxy(""), CookieScope(), HeadersTripper(cfg, d.text), UnixNoAuth()]
  }

  function ClientChain(cfg: HeadersConfig, d: Draw): RoundTripper {
    Compose(Base(d), ClientTrippers(cfg, d))
  }

  function Prepared(r: Request, cfg: HeadersConfig, ts: string): Request {
    var q := WithCommonHeaders(r.(cookieScope := COOKIE_SCOPE), cfg, ts);
    if Contains(r.url, UNIX_PATH) then Stripped(q) else q
  }

  /** What the whole client chain amounts to. */
  lemma ClientChainMeaning(cfg: HeadersConfig, d: Draw, s: AuthState, r: Request)
    ensures ClientChain(cfg, d)(s, r) == Hop(s, Prepared(r, cfg, d.text), d.resp, d.err)
  {
    var ts := ClientTrippers(cfg, d);
    assert ts[1..] == [CookieScope(), HeadersTripper(cfg, d.text), UnixNoAuth()];
    assert ts[1..][1..] == [HeadersTripper(cfg, d.text), UnixNoAuth()];
    assert ts[1..][1..][1..] == [UnixNoAuth()];
    assert ts[1..][1..][1..][1..] == [];
    assert Compose(Base(d), []) == Base(d);
    assert Compose(Base(d), [UnixNoAuth()]) == UnixNoAuth()(Base(d));
    assert Compose(Base(d), ts[1..][1..]) == HeadersTripper(cfg, d.text)(UnixNoAuth()(Base(d)));
    assert Compose(Base(d), ts[1..]) == CookieScope()(HeadersTripper(cfg, d.text)(UnixNoAuth()(Base(d))));
  }

  function SessionChain(cfg: HeadersConfig, d: Draw): RoundTripper {
    Compose(ClientChain(cfg, d), [IdentityHeaders()])
  }

  /** No authorization and no device id, in any spelling. */
  ghost predicate Hides(seen: Request) {
    forall k :: k in seen.headers ==> !EqualFold(k, AUTHORIZATION) && !EqualFold(k, DID)
  }

  /** All non-empty parts of the identity. */
  ghost predicate Bears(seen: Request, s: AuthState) {
    && (s.token != "" ==> AUTHORIZATION in seen.headers && seen.headers[AUTHORIZATION] == s.token)
    && (s.did != "" ==> DID in seen.headers && seen.headers[DID] == s.did)
    && (s.visitorID != "" ==> VISITOR_ID in seen.headers && seen.headers[VISITOR_ID] == s.visitorID)
  }

  /** What the base transport must see of an identity: nothing of it on the unix endpoint,
      in any spelling, and all of its non-empty parts everywhere else. */
  ghost predicate Shows(seen: Request, s: AuthState) {
    if Contains(seen.url, UNIX_PATH) then Hides(seen) else Bears(seen, s)
  }

  const COMMON_KEYS := {"referer", "Accept", "Ts", "version", "webversion"}

  /** The header has the request's own value, or the given one where that is blank. */
  predicate Furnished(seen: Headers, own: Headers, key: string, value: string) {
    key in seen && seen[key] == if key in own && own[key] != "" then own[key] else value
  }

  /** The five common headers. */
  predicate CommonOnes(seen: Headers, own: Headers, cfg: HeadersConfig, ts: string) {
    && Furnished(seen, own, "referer", cfg.referer)
    && Furnished(seen, own, "Accept", "application/json;charset=UTF-8")
    && Furnished(seen, own, "Ts", ts)
    && Furnished(seen, own, "version", cfg.version)
    && Furnished(seen, own, "webversion", cfg.webVersion)
  }

  /** A header that neither the identity nor the common headers are about. */
  predicate Ordinary(key: string) {
    && !EqualFold(key, AUTHORIZATION) && !EqualFold(key, DID) && key != VISITOR_ID
    && key !in COMMON_KEYS
  }

  /** What the client chain adds to a request, and that it leaves all else alone. */
  ghost predicate Dressed(seen: Request, r: Request, cfg: HeadersConfig, ts: string) {
    && seen.(headers := r.headers, userAgent := r.userAgent, cookieScope := r.cookieScope) == r
    && seen.cookieScope == COOKIE_SCOPE
    && seen.userAgent == (if r.userAgent == "" then cfg.userAgent else r.userAgent)
    && CommonOnes(seen.headers, r.headers, cfg, ts)
    && (forall k | Ordinary(k) :: (k in seen.headers <==> k in r.headers) && (k in r.headers ==> seen.headers[k] == r.headers[k]))
  }

  /** For every request, identity and answer: the whole stack, viewed as one chain, shows the
      base transport the right identity with the common headers, and rotates only the device id. */
  lemma SessionChainMeaning(cfg: HeadersConfig, d: Draw, s: AuthState, r: Request)
    ensures SessionChain(cfg, d) == Compose(Base(d), [IdentityHeaders()] + ClientTrippers(cfg, d))
    ensures var hop := SessionChain(cfg, d)(s, r);
            && hop.resp == d.resp && hop.err == d.err
            && hop.identity == s.(did := Rotated(s.did, d.resp))
            && Dressed(hop.seen, r, cfg, d.text)
            && Shows(hop.seen, s)
  {
    ChainOfChain(Base(d), ClientTrippers(cfg, d), [IdentityHeaders()]);
    assert [IdentityHeaders()][1..] == [];
    assert SessionChain(cfg, d) == IdentityHeaders()(ClientChain(cfg, d));
    ClientChainMeaning(cfg, d, s, Injected(r, s));
    PreparedShows(r, s, cfg, d.text);
    InjectedDressed(r, s, cfg, d.text);
  }

  lemma PreparedShows(r: Request, s: AuthState, cfg: HeadersConfig, ts: string)
    ensures Shows(Prepared(Injected(r, s), cfg, ts), s)
  {
    var q := Injected(r, s);
    CommonHeadersMeaning(q.(cookieScope := COOKIE_SCOPE), cfg, ts);
    IdentityKeysDiffer();
  }

  lemma PreparedDressed(r: Request, cfg: HeadersConfig, ts: string)
    ensures Dressed(Prepared(r, cfg, ts), r, cfg, ts)
  {
    CommonHeadersMeaning(r.(cookieScope := COOKIE_SCOPE), cfg, ts);
    IdentityKeysDiffer();
  }

  /** Injecting the identity touches neither the common nor the ordinary headers. */
  lemma InjectedDressed(r: Request, s: AuthState, cfg: HeadersConfig, ts: string)
    ensures Dressed(Prepared(Injected(r, s), cfg, ts), r, cfg, ts)
  {
    PreparedDressed(Injected(r, s), cfg, ts);
    IdentityKeysDiffer();
  }

  lemma IdentityKeysDiffer()
    ensures AUTHORIZATION != DID && AUTHORIZATION != VISITOR_ID && DID != VISITOR_ID
    ensures AUTHORIZATION !in COMMON_KEYS && DID !in COMMON_KEYS && VISITOR_ID !in COMMON_KEYS
    ensures !EqualFold(VISITOR_ID, AUTHORIZATION) && !EqualFold(VISITOR_ID, DID) && !EqualFold(DID, AUTHORIZATION)
    ensures forall k :: k in COMMON_KEYS ==> !EqualFold(k, AUTHORIZATION) && !EqualFold(k, DID)
  {
    assert |AUTHORIZATION| == 13 && |DID| == 3 && |VISITOR_ID| == 9;
    assert |"referer"| == 7 && |"Accept"| == 6 && |"Ts"| == 2 && |"version"| == 7 && |"webversion"| == 10;
    assert |Fold(AUTHORIZATION)| == 13 && |Fold(DID)| == 3 && |Fold(VISITOR_ID)| == 9;
    forall k | k in COMMON_KEYS ensures !EqualFold(k, AUTHORIZATION) && !EqualFold(k, DID) { assert |Fold(k)| == |k|; }
  }

  /** Filling in five different headers. */
  lemma FiveFilled(h: Headers, k1: string, v1: string, k2: string, v2: string, k3: string, v3: string,
                   k4: string, v4: string, k5: string, v5: string)
    requires k1 != k2 && k1 != k3 && k1 != k4 && k1 != k5 && k2 != k3 && k2 != k4 && k2 != k5 && k3 != k4 && k3 != k5 && k4 != k5
    ensures var z := SetIfBlank(SetIfBlank(SetIfBlank(SetIfBlank(SetIfBlank(h, k1, v1), k2, v2), k3, v3), k4, v4), k5, v5);
            && Furnished(z, h, k1, v1) && Furnished(z, h, k2, v2) && Furnished(z, h, k3, v3) && Furnished(z, h, k4, v4)
            && Furnished(z, h, k5, v5)
            && (forall k | k !in {k1, k2, k3, k4, k5} :: (k in z <==> k in h) && (k in h ==> z[k] == h[k]))
  {}

  lemma CommonHeadersMeaning(r: Request, cfg: HeadersConfig, ts: string)
    ensures var seen := WithCommonHeaders(r, cfg, ts).headers;
            && CommonOnes(seen, r.headers, cfg, ts)
            && (forall k | k !in COMMON_KEYS :: (k in seen <==> k in r.headers) && (k in r.headers ==> seen[k] == r.headers[k]))
  {
    assert |"referer"| == 7 && |"Accept"| == 6 && |"Ts"| == 2 && |"version"| == 7 && |"webversion"| == 10;
    assert "referer"[0] == 'r' && "version"[0] == 'v';
    FiveFilled(r.headers, "referer", cfg.referer, "Accept", "application/json;charset=UTF-8", "Ts", ts,
               "version", cfg.version, "webversion", cfg.webVersion);
  }

  /** The same without a session identity: the login client's chain. Its own headers reach the
      server wherever the address is not the unix one. */
  lemma LoginChainMeaning(cfg: HeadersConfig, d: Draw, s: AuthState, r: Request)
    ensures var hop := ClientChain(cfg, d)(s, r);
            && hop.resp == d.resp && hop.err == d.err && hop.identity == s
            && Dressed(hop.seen, r, cfg, d.text)
            && (VISITOR_ID in r.headers ==> VISITOR_ID in hop.seen.headers && hop.seen.headers[VISITOR_ID] == r.headers[VISITOR_ID])
            && (DID in r.headers ==>
                  if Contains(r.url, UNIX_PATH) then DID !in hop.seen.headers
                  else DID in hop.seen.headers && hop.seen.headers[DID] == r.headers[DID])
  {
    ClientChainMeaning(cfg, d, s, r);
    PreparedDressed(r, cfg, d.text);
    CommonHeadersMeaning(r.(cookieScope := COOKIE_SCOPE), cfg, d.text);
    IdentityKeysDiffer();
  }

  // ----------------------------------------------------------------- addresses

  /** A path in which the unix one cannot be found, not even across the end of a host. */
  predicate Plain(path: string) {
    && |path| > 1 && path[0] == '/' && path[1] != 's'
    && (forall k :: 0 < k < |path| - 1 ==> !(path[k] == '/' && path[k + 1] == 'a'))
    && (path[1] != 'a' || (|path| > 5 && path[5] != 's') || (|path| > 12 && path[12] != 'u'))
  }

  lemma UnixPathAt(s: string, i: nat)
    ensures OccursAt(s, UNIX_PATH, i) ==>
              && s[i] == '/' && s[i + 1] == 'a' && s[i + 2] == 'p' && s[i + 3] == 'i' && s[i + 4] == '/'
              && s[i + 5] == 's' && s[i + 12] == 'u'
  {
    var u := UNIX_PATH;
    assert |u| == 16 && u[0] == '/' && u[1] == 'a' && u[2] == 'p' && u[3] == 'i' && u[4] == '/' && u[5] == 's' && u[12] == 'u';
    assert OccursAt(s, u, i) ==> forall j :: 0 <= j < 16 ==> s[i + j] == s[i..i + 16][j] == u[j];
  }

  /** Whatever the host, unless it has a slash, the address of a plain path is not the unix one,
      nor is it with a query that has no slash. */
  lemma PlainIsNotUnix(host: string, path: string, query: string)
    requires '/' !in host && Plain(path) && '/' !in query && (query == "" || query[0] == '?')
    ensures !Contains("https://" + host + path + query, UNIX_PATH)
  {
    var url := "https://" + host + path + query;
    forall i: nat ensures !OccursAt(url, UNIX_PATH, i) { UnixPathAt(url, i); }
  }

  lemma UnixIsUnix(host: string, url: string)
    requires "https://" + host + UNIX_PATH <= url
    ensures Contains(url, UNIX_PATH)
  {
    var i := |"https://" + host|;
    assert url[..|"https://" + host + UNIX_PATH|] == "https://" + host + UNIX_PATH;
    assert OccursAt(url, UNIX_PATH, i);
  }
}
