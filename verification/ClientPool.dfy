/** The pool of TLS clients (apicore.TLSClient.acquire): every request is served by a client
    with exactly the options that a client built for that request alone would have. */
module ClientPool {
  import opened Domain
  import opened World

  // ----------------------------------------------------------------- profiles

  datatype Profile = Firefox148 | Safari160 | Chrome146 | DefaultProfile

  const DEFAULT_USER_AGENT := "Mozilla/5.0 (Windows NT 10.0; Win64; x64) AppleWebKit/537.36 (KHTML, like Gecko) Chrome/146.0.0.0 Safari/537.36"

  function NameOf(p: Profile): string {
    match p
    case Firefox148 => "firefox_148"
    case Safari160 => "safari_16_0"
    case Chrome146 => "chrome_146"
    case DefaultProfile => "default"
  }

  lemma NamesDiffer(p: Profile, q: Profile)
    ensures NameOf(p) == NameOf(q) ==> p == q
  {
    assert NameOf(Firefox148)[0] == 'f' && NameOf(Safari160)[0] == 's';
    assert NameOf(Chrome146)[0] == 'c' && NameOf(DefaultProfile)[0] == 'd';
  }

  /** profileForUserAgent */
  function ProfileFor(userAgent: string): Profile {
    var normalized := ToLower(userAgent);
    if Contains(normalized, "firefox/") then Firefox148
    else if Contains(normalized, "safari/") && !Contains(normalized, "chrome/") && !Contains(normalized, "chromium/") then
      Safari160
    else if Contains(normalized, "chrome/") || Contains(normalized, "chromium/") || Contains(normalized, "edg/") then Chrome146
    else DefaultProfile
  }

  /** The character is this lower-case letter in some spelling, or the same. */
  predicate Spells(c: char, b: char) {
    || c == b
    || ('a' <= b <= 'z' && c as int + 32 == b as int)
    || (b == 'i' && c == '\U{130}') || (b == 'k' && c == '\U{212A}')
  }

  /** The brand occurs in the user agent, in any spelling of its letters. */
  ghost predicate Mentions(userAgent: string, brand: string) {
    exists i: nat :: i + |brand| <= |userAgent| && SpelledAt(userAgent, brand, i)
  }

  predicate SpelledAt(userAgent: string, brand: string, i: nat)
    requires i + |brand| <= |userAgent|
  {
    forall j :: 0 <= j < |brand| ==> Spells(userAgent[i + j], brand[j])
  }

  predicate IsBrand(brand: string) { forall j :: 0 <= j < |brand| ==> 'a' <= brand[j] <= 'z' || brand[j] == '/' }

  lemma SpelledOccurs(userAgent: string, brand: string, i: nat)
    requires IsBrand(brand) && i + |brand| <= |userAgent|
    ensures OccursAt(ToLower(userAgent), brand, i) <==> SpelledAt(userAgent, brand, i)
  {
    var part := ToLower(userAgent)[i..i + |brand|];
    assert forall j :: 0 <= j < |brand| ==> part[j] == LowerChar(userAgent[i + j]);
    if SpelledAt(userAgent, brand, i) {
      assert part == brand;
    }
  }

  lemma MentionsIsContains(userAgent: string, brand: string)
    requires IsBrand(brand)
    ensures Contains(ToLower(userAgent), brand) <==> Mentions(userAgent, brand)
  {
    forall i: nat | i + |brand| <= |userAgent|
      ensures OccursAt(ToLower(userAgent), brand, i) <==> SpelledAt(userAgent, brand, i)
    {
      SpelledOccurs(userAgent, brand, i);
    }
    if Mentions(userAgent, brand) {
      var i: nat :| i + |brand| <= |userAgent| && SpelledAt(userAgent, brand, i);
      assert i <= |ToLower(userAgent)| && OccursAt(ToLower(userAgent), brand, i);
    }
  }

  /** Which browser a user agent is served as, by the brands it mentions in any spelling: Firefox
      first; Safari only without a mention of Chrome, which names itself Safari too; then Chrome
      and Edge. */
  lemma ProfileByBrand(userAgent: string)
    ensures var p := ProfileFor(userAgent);
            var firefox, safari := Mentions(userAgent, "firefox/"), Mentions(userAgent, "safari/");
            var chrome := Mentions(userAgent, "chrome/") || Mentions(userAgent, "chromium/");
            && (p == Firefox148 <==> firefox)
            && (p == Safari160 <==> !firefox && safari && !chrome)
            && (p == Chrome146 <==> !firefox && (chrome || (Mentions(userAgent, "edg/") && !safari)))
  {
    MentionsIsContains(userAgent, "firefox/");
    MentionsIsContains(userAgent, "safari/");
    MentionsIsContains(userAgent, "chrome/");
    MentionsIsContains(userAgent, "chromium/");
    MentionsIsContains(userAgent, "edg/");
  }

  /** effectiveUserAgent: the request's own field, else any non-empty header of that name in
      the order the map happens to be ranged over, else the default. */
  method EffectiveUserAgent(req: Request) returns (userAgent: string)
    ensures userAgent != ""
    ensures req.userAgent != "" ==> userAgent == req.userAgent
    ensures req.userAgent == "" ==>
              if exists k :: k in req.headers && EqualFold(k, "User-Agent") && req.headers[k] != ""
              then exists k :: k in req.headers && EqualFold(k, "User-Agent") && req.headers[k] == userAgent
              else userAgent == DEFAULT_USER_AGENT
  {
    if req.userAgent != "" { return req.userAgent; }
    var rest := req.headers.Keys;
    while rest != {}
      invariant rest <= req.headers.Keys
      invariant forall k :: k in req.headers && k !in rest ==> !(EqualFold(k, "User-Agent") && req.headers[k] != "")
    {
      var key :| key in rest;
      if EqualFold(key, "User-Agent") && req.headers[key] != "" { return req.headers[key]; }
      rest := rest - {key};
    }
    return DEFAULT_USER_AGENT;
  }

  // ----------------------------------------------------------------- timeouts

  const NANOS := 1_000_000

  /** timeoutMilliseconds, with the exact ceiling. */
  function Millis(ns: int): nat {
    if ns <= 0 then 0 else (ns + NANOS - 1) / NANOS
  }

  /** Rounded up by less than one millisecond, and zero only for no timeout. */
  lemma MillisRoundsUp(ns: int)
    ensures ns > 0 ==> 0 <= Millis(ns) * NANOS - ns < NANOS && Millis(ns) > 0
    ensures ns <= 0 <==> Millis(ns) == 0
  {}

  function Ceil(x: real): int { -((-x).Floor) }

  const TWO_53 := 9_007_199_254_740_992

  const TWO_63 := 9_223_372_036_854_775_808

  /** x is within a relative error of 2^-53 of what it stands for. */
  predicate Rounds(exact: real, x: real) {
    exact - exact / TWO_53 as real <= x <= exact + exact / TWO_53 as real
  }

  lemma CeilBetween(x: real, k: int)
    ensures k as real < x <= k as real + 1.0 ==> Ceil(x) == k + 1
    ensures k as real - 1.0 < x <= k as real + 1.0 ==> k <= Ceil(x) <= k + 1
  {}

  /** Below 2^53 a quotient that is not whole stays away from whole numbers by more than its error. */
  lemma SmallQuotient(ns: int, rounded: real)
    requires 0 < ns < TWO_53 && Rounds(ns as real / NANOS as real, rounded)
    requires ns % NANOS == 0 ==> rounded == ns as real / NANOS as real
    ensures Ceil(rounded) == Millis(ns)
  {
    var k, r := ns / NANOS, ns % NANOS;
    assert ns == k * NANOS + r;
    assert ns as real == k as real * NANOS as real + r as real;
    if r > 0 { CeilBetween(rounded, k); } else { assert rounded == k as real; }
  }

  /** The program divides the timeout, converted to a float, and takes the ceiling; both the
      conversion and the quotient are rounded. For every rounding with a relative error of at most
      2^-53 that keeps whole numbers below 2^53, and for every timeout of 64 bits: the result is
      off by at most one millisecond, and is the exact ceiling below 2^53 nanoseconds (104 days)
      and wherever the timeout is not within 2100 nanoseconds of a whole millisecond. */
  lemma FloatCeilIsClose(ns: int, converted: real, rounded: real)
    requires 0 < ns < TWO_63 && Rounds(ns as real, converted) && Rounds(converted / NANOS as real, rounded)
    requires ns < TWO_53 ==> converted == ns as real
    requires ns < TWO_53 && ns % NANOS == 0 ==> rounded == converted / NANOS as real
    ensures Millis(ns) - 1 <= Ceil(rounded) <= Millis(ns) + 1 && rounded > 0.0
    ensures ns < TWO_53 || 2100 <= ns % NANOS <= NANOS - 2100 ==> Ceil(rounded) == Millis(ns)
  {
    var k, r := ns / NANOS, ns % NANOS;
    assert ns == k * NANOS + r;
    assert ns as real == k as real * NANOS as real + r as real;
    var off := 0.0021;
    assert ns as real / NANOS as real - off < rounded < ns as real / NANOS as real + off;
    CeilBetween(rounded, k);
    CeilBetween(rounded, k + 1);
    if ns < TWO_53 { SmallQuotient(ns, rounded); }
  }

  /** From 2^53 nanoseconds on the last millisecond can get lost: the conversion of this timeout
      drops its one nanosecond above a whole number of milliseconds. */
  lemma FloatCeilLosesOne()
    ensures var ns, converted := 9_007_199_255_000_001, 9_007_199_255_000_000.0;
            && Rounds(ns as real, converted) && Rounds(converted / NANOS as real, 9_007_199_255.0)
            && Ceil(9_007_199_255.0) == Millis(ns) - 1
  {
    CeilBetween(9_007_199_255.0, 9_007_199_254);
  }

  // ------------------------------------------------------------------ clients

  type Jar = nat

  /** clientConfig */
  datatype Config = Config(profile: Profile, proxy: string, timeout: int, disableRedirect: bool, jar: Option<Jar>)

  /** What the options given to the TLS library set; None stands for the library's default. */
  datatype Options = Options(
    profile: Profile,
    randomExtensionOrder: bool,
    followRedirects: bool,
    timeoutMillis: Option<nat>,
    proxyUrl: Option<string>,
    cookieJar: Option<Jar>)

  /** defaultNewClient */
  function DefaultNewClient(c: Config): Options {
    Options(c.profile, true, !c.disableRedirect,
            if c.timeout > 0 then Some(Millis(c.timeout)) else None,
            if c.proxy != "" then Some(c.proxy) else None,
            c.jar)
  }

  /** A client: its identity, and what it was built with. */
  datatype Client = Client(id: nat, options: Options)

  /** clientKey */
  datatype Key = Key(profile: string, proxy: string, timeoutMillis: nat, disableRedirect: bool, cookieScope: string)

  function KeyOf(req: Request, userAgent: string): Key {
    Key(NameOf(ProfileFor(userAgent)), req.proxy, Millis(req.timeout), req.disableRedirect, req.cookieScope)
  }

  function ConfigOf(req: Request, userAgent: string, jar: Option<Jar>): Config {
    Config(ProfileFor(userAgent), req.proxy, req.timeout, req.disableRedirect, jar)
  }

  function ProfileNamed(name: string): Profile {
    if name == NameOf(Firefox148) then Firefox148
    else if name == NameOf(Safari160) then Safari160
    else if name == NameOf(Chrome146) then Chrome146
    else DefaultProfile
  }

  /** The options, read off a key. */
  function OptionsOf(k: Key, jar: Option<Jar>): Options {
    Options(ProfileNamed(k.profile), true, !k.disableRedirect,
            if k.timeoutMillis > 0 then Some(k.timeoutMillis) else None,
            if k.proxy != "" then Some(k.proxy) else None,
            jar)
  }

  /** The key forgets the nanoseconds and the profile itself, and loses nothing by it: it
      determines the options. */
  lemma KeyDeterminesOptions(req: Request, userAgent: string, jar: Option<Jar>)
    ensures DefaultNewClient(ConfigOf(req, userAgent, jar)) == OptionsOf(KeyOf(req, userAgent), jar)
  {
    var p := ProfileFor(userAgent);
    NamesDiffer(p, ProfileNamed(NameOf(p)));
    MillisRoundsUp(req.timeout);
  }

  // --------------------------------------------------------------------- pool

  /** The maps under the mutex; made counts the clients built and tins the jars. */
  datatype Pool = Pool(clients: map<Key, Client>, jars: map<string, Jar>, closed: bool, inflight: nat, made: nat, tins: nat)

  datatype AcquireError = ErrTLSClientClosed | FactoryFailed

  function JarFor(jars: map<string, Jar>, scope: string): Option<Jar> {
    if scope in jars then Some(jars[scope]) else None
  }

  /** The pool with a jar for the request's scope, if it has one. */
  function WithJar(p: Pool, scope: string): Pool {
    if scope == "" || scope in p.jars then p else p.(jars := p.jars[scope := p.tins], tins := p.tins + 1)
  }

  /** Building the missing client of a key, unless the factory fails. */
  function Built(q: Pool, key: Key, options: Options, fails: bool): (Pool, Result<Client, AcquireError>) {
    if fails then (q, Failure(FactoryFailed))
    else
      var client := Client(q.made, options);
      (q.(clients := q.clients[key := client], made := q.made + 1, inflight := q.inflight + 1), Success(client))
  }

  /** One acquire, given whether the factory would fail. */
  function Acquired(p: Pool, req: Request, userAgent: string, fails: bool): (Pool, Result<Client, AcquireError>) {
    var key := KeyOf(req, userAgent);
    if p.closed then (p, Failure(ErrTLSClientClosed))
    else if key in p.clients then (p.(inflight := p.inflight + 1), Success(p.clients[key]))
    else
      var q := WithJar(p, req.cookieScope);
      Built(q, key, DefaultNewClient(ConfigOf(req, userAgent, JarFor(q.jars, req.cookieScope))), fails)
  }

  const NEW_POOL := Pool(map[], map[], false, 0, 0, 0)

  class TLSClient {
    var clients: map<Key, Client>
    var jars: map<string, Jar>
    var closed: bool
    var inflight: nat
    var made: nat
    var tins: nat

    ghost function View(): Pool
      reads this
    {
      Pool(clients, jars, closed, inflight, made, tins)
    }

    constructor ()
      ensures View() == NEW_POOL
    {
      clients, jars, closed, inflight, made, tins := map[], map[], false, 0, 0, 0;
    }

    method NewCookieJar() returns (jar: Jar)
      modifies this`tins
      ensures jar == old(tins) && tins == old(tins) + 1
    {
      jar := tins;
      tins := tins + 1;
    }

    method NewClient(cfg: Config, fails: bool) returns (client: Option<Client>)
      modifies this`made
      ensures client == if fails then None else Some(Client(old(made), DefaultNewClient(cfg)))
      ensures made == old(made) + if fails then 0 else 1
    {
      if fails { return None; }
      var options := Options(cfg.profile, true, true, None, None, None);
      if cfg.disableRedirect { options := options.(followRedirects := false); }
      if cfg.timeout > 0 { options := options.(timeoutMillis := Some(Millis(cfg.timeout))); }
      if cfg.proxy != "" { options := options.(proxyUrl := Some(cfg.proxy)); }
      if cfg.jar.Some? { options := options.(cookieJar := cfg.jar); }
      client := Some(Client(made, options));
      made := made + 1;
    }

    method Acquire(req: Request, userAgent: string, fails: bool) returns (r: Result<Client, AcquireError>)
      requires "" !in jars
      modifies this
      ensures (View(), r) == Acquired(old(View()), req, userAgent, fails)
      ensures "" !in jars
    {
      var key := KeyOf(req, userAgent);
      if closed { return Failure(ErrTLSClientClosed); }
      if key in clients {
        inflight := inflight + 1;
        return Success(clients[key]);
      }
      var jar: Option<Jar> := None;
      if req.cookieScope != "" {
        if req.cookieScope in jars {
          jar := Some(jars[req.cookieScope]);
        } else {
          var created := NewCookieJar();
          jar := Some(created);
          jars := jars[req.cookieScope := created];
        }
      }
      var client := NewClient(ConfigOf(req, userAgent, jar), fails);
      if client.None? { return Failure(FactoryFailed); }
      clients := clients[key := client.value];
      inflight := inflight + 1;
      return Success(client.value);
    }
  }

  // ------------------------------------------------- any sequence of requests

  datatype Ask = Ask(req: Request, userAgent: string, fails: bool)

  /** The pool after the first n requests. */
  function Serve(asks: seq<Ask>, n: nat): Pool
    requires n <= |asks|
  {
    if n == 0 then NEW_POOL
    else Acquired(Serve(asks, n - 1), asks[n - 1].req, asks[n - 1].userAgent, asks[n - 1].fails).0
  }

  /** The answer to the i-th request. */
  function Answer(asks: seq<Ask>, i: nat): Result<Client, AcquireError>
    requires i < |asks|
  {
    Acquired(Serve(asks, i), asks[i].req, asks[i].userAgent, asks[i].fails).1
  }

  function AskKey(a: Ask): Key { KeyOf(a.req, a.userAgent) }

  /** Jars are numbered apart and never given to the empty scope; clients are numbered apart;
      each client has the options of every request that its key serves. */
  ghost predicate Orderly(p: Pool) {
    && !p.closed && "" !in p.jars
    && (forall s :: s in p.jars ==> p.jars[s] < p.tins)
    && (forall s, t :: s in p.jars && t in p.jars && p.jars[s] == p.jars[t] ==> s == t)
    && (forall k :: k in p.clients ==> p.clients[k].id < p.made && (k.cookieScope == "" || k.cookieScope in p.jars))
    && (forall k, l :: k in p.clients && l in p.clients && p.clients[k].id == p.clients[l].id ==> k == l)
    && (forall k :: k in p.clients ==> p.clients[k].options == OptionsOf(k, JarFor(p.jars, k.cookieScope)))
  }

  /** Nothing in a pool is ever replaced. */
  ghost predicate Extends(p: Pool, q: Pool) {
    && (forall k :: k in p.clients ==> k in q.clients && q.clients[k] == p.clients[k])
    && (forall s :: s in p.jars ==> s in q.jars && q.jars[s] == p.jars[s])
  }

  lemma JarAdded(p: Pool, scope: string)
    requires Orderly(p)
    ensures Orderly(WithJar(p, scope)) && Extends(p, WithJar(p, scope))
    ensures scope == "" || scope in WithJar(p, scope).jars
  {}

  lemma ClientAdded(q: Pool, key: Key, fails: bool)
    requires Orderly(q) && key !in q.clients && (key.cookieScope == "" || key.cookieScope in q.jars)
    ensures var (z, r) := Built(q, key, OptionsOf(key, JarFor(q.jars, key.cookieScope)), fails);
            Orderly(z) && Extends(q, z) && (r.Success? ==> key in z.clients && z.clients[key] == r.value)
  {}

  /** One acquire keeps the pool in order; it is refused exactly when the factory fails for a
      key that has no client yet, and otherwise its client is the key's from now on. */
  lemma AcquireKeepsOrder(p: Pool, a: Ask)
    requires Orderly(p)
    ensures var (q, r) := Acquired(p, a.req, a.userAgent, a.fails);
            && Orderly(q) && Extends(p, q)
            && (r.Success? ==> AskKey(a) in q.clients && q.clients[AskKey(a)] == r.value)
            && (r.Failure? <==> AskKey(a) !in p.clients && a.fails)
            && (forall k :: k in q.clients <==> k in p.clients || (k == AskKey(a) && r.Success?))
  {
    var q := WithJar(p, a.req.cookieScope);
    if AskKey(a) !in p.clients {
      JarAdded(p, a.req.cookieScope);
      KeyDeterminesOptions(a.req, a.userAgent, JarFor(q.jars, a.req.cookieScope));
      ClientAdded(q, AskKey(a), a.fails);
    }
  }

  lemma {:induction false} ServedInOrder(asks: seq<Ask>, n: nat)
    requires n <= |asks|
    ensures Orderly(Serve(asks, n))
    decreases n
  {
    if n > 0 {
      ServedInOrder(asks, n - 1);
      AcquireKeepsOrder(Serve(asks, n - 1), asks[n - 1]);
    }
  }

  lemma ExtendsThen(p: Pool, q: Pool, r: Pool)
    requires Extends(p, q) && Extends(q, r)
    ensures Extends(p, r)
  {}

  lemma ServeOne(asks: seq<Ask>, n: nat)
    requires 0 < n <= |asks|
    ensures Extends(Serve(asks, n - 1), Serve(asks, n))
  {
    ServedInOrder(asks, n - 1);
    AcquireKeepsOrder(Serve(asks, n - 1), asks[n - 1]);
  }

  lemma {:induction false} NothingReplaced(asks: seq<Ask>, i: nat, n: nat)
    requires i <= n <= |asks|
    ensures Extends(Serve(asks, i), Serve(asks, n))
    decreases n
  {
    if i < n {
      NothingReplaced(asks, i, n - 1);
      ServeOne(asks, n);
      ExtendsThen(Serve(asks, i), Serve(asks, n - 1), Serve(asks, n));
    }
  }

  /** The client of a served request is in the pool right after it. */
  lemma AnswerIsPooled(asks: seq<Ask>, i: nat)
    requires i < |asks| && Answer(asks, i).Success?
    ensures Holds(Serve(asks, i + 1), AskKey(asks[i]), Answer(asks, i).value)
  {
    ServedInOrder(asks, i);
    AcquireKeepsOrder(Serve(asks, i), asks[i]);
  }

  /** The pool's client for a key is this one. */
  ghost predicate Holds(p: Pool, key: Key, client: Client) { key in p.clients && p.clients[key] == client }

  lemma HoldsOn(p: Pool, q: Pool, key: Key, client: Client)
    requires Extends(p, q) && Holds(p, key, client)
    ensures Holds(q, key, client)
  {}

  lemma AnswerIsKept(asks: seq<Ask>, i: nat)
    requires i < |asks| && Answer(asks, i).Success?
    ensures Holds(Serve(asks, |asks|), AskKey(asks[i]), Answer(asks, i).value)
  {
    NothingReplaced(asks, i + 1, |asks|);
    AnswerIsPooled(asks, i);
    HoldsOn(Serve(asks, i + 1), Serve(asks, |asks|), AskKey(asks[i]), Answer(asks, i).value);
  }

  lemma FreshOptions(p: Pool, a: Ask, client: Client)
    requires Orderly(p) && Holds(p, AskKey(a), client)
    ensures client.options == DefaultNewClient(ConfigOf(a.req, a.userAgent, JarFor(p.jars, a.req.cookieScope)))
    ensures a.req.cookieScope == "" || a.req.cookieScope in p.jars
  {
    KeyDeterminesOptions(a.req, a.userAgent, JarFor(p.jars, a.req.cookieScope));
  }

  /** For every sequence of requests, with factory failures anywhere: each served request gets
      a client with exactly the options a client built for it alone would have, its jar being
      the one jar of its scope. */
  lemma PoolAgreesWithFreshClients(asks: seq<Ask>, i: nat)
    requires i < |asks| && Answer(asks, i).Success?
    ensures Answer(asks, i).value.options
         == DefaultNewClient(ConfigOf(asks[i].req, asks[i].userAgent, JarFor(Serve(asks, |asks|).jars, asks[i].req.cookieScope)))
  {
    ServedInOrder(asks, |asks|);
    AnswerIsKept(asks, i);
    FreshOptions(Serve(asks, |asks|), asks[i], Answer(asks, i).value);
  }

  lemma SameKeySameClient(p: Pool, k: Key, l: Key, c: Client, d: Client)
    requires Orderly(p) && Holds(p, k, c) && Holds(p, l, d)
    ensures c.id == d.id <==> k == l
  {}

  /** Two served requests get the same client exactly when their keys are equal. */
  lemma OneClientPerKey(asks: seq<Ask>, i: nat, j: nat)
    requires i < |asks| && j < |asks| && Answer(asks, i).Success? && Answer(asks, j).Success?
    ensures Answer(asks, i).value.id == Answer(asks, j).value.id <==> AskKey(asks[i]) == AskKey(asks[j])
  {
    ServedInOrder(asks, |asks|);
    AnswerIsKept(asks, i);
    AnswerIsKept(asks, j);
    SameKeySameClient(Serve(asks, |asks|), AskKey(asks[i]), AskKey(asks[j]), Answer(asks, i).value, Answer(asks, j).value);
  }

  lemma JarsApart(p: Pool, a: Ask, b: Ask, c: Client, d: Client)
    requires Orderly(p) && Holds(p, AskKey(a), c) && Holds(p, AskKey(b), d)
    ensures c.options.cookieJar.Some? && c.options.cookieJar == d.options.cookieJar
       <==> a.req.cookieScope == b.req.cookieScope != ""
  {
    FreshOptions(p, a, c);
    FreshOptions(p, b, d);
  }

  /** Two served requests share a cookie jar exactly when they have the same non-empty scope. */
  lemma JarsFollowScopes(asks: seq<Ask>, i: nat, j: nat)
    requires i < |asks| && j < |asks| && Answer(asks, i).Success? && Answer(asks, j).Success?
    ensures var a, b := Answer(asks, i).value.options.cookieJar, Answer(asks, j).value.options.cookieJar;
            a.Some? && a == b <==> asks[i].req.cookieScope == asks[j].req.cookieScope != ""
  {
    ServedInOrder(asks, |asks|);
    AnswerIsKept(asks, i);
    AnswerIsKept(asks, j);
    JarsApart(Serve(asks, |asks|), asks[i], asks[j], Answer(asks, i).value, Answer(asks, j).value);
  }
}
