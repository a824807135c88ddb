/** What a session leaves in the trace, for every behaviour of the server: the rotation of the
    device id, the number of requests, which updates were accepted, and which failures were
    critical. */
module SessionTrace {
  import opened Domain
  import opened Protocol
  import opened World
  import opened Transport
  import opened BrowseSpec

  // ------------------------------------------------------- reading the trace

  predicate IsCall(e: Entry, path: string) {
    e.Sent? && e.req.form.Call? && e.req.form.path == path
  }

  function Verdict(e: Entry): Class
    requires e.Sent?
  {
    ClassOf(e.resp, e.err, !IsCall(e, PING))
  }

  /** The request was sent and the server accepted it. */
  predicate Passes(e: Entry, path: string) { IsCall(e, path) && Verdict(e).Accepted? }

  /** The context was over, or the server denied the identity. */
  predicate IsCritical(e: Entry) {
    || e.Refused?
    || Verdict(e) == Denied(MTAuthFailed)
    || (e.err.Some? && (e.err.value.Is(Canceled) || e.err.value.Is(DeadlineExceeded)))
  }

  predicate AnyUpdate(seg: seq<Entry>) { exists e :: e in seg && Passes(e, UPDATE_LAST_BROWSE) }

  predicate AnyCritical(seg: seq<Entry>) { exists e :: e in seg && IsCritical(e) }

  // --------------------------------------------------------- the device id

  function AfterEntry(s: AuthState, e: Entry): AuthState {
    match e
    case Refused(_) => s
    case Sent(_, resp, _) => s.(did := Rotated(s.did, resp))
  }

  /** The identity after a series of responses. */
  function Replay(s: AuthState, seg: seq<Entry>): AuthState {
    if seg == [] then s else AfterEntry(Replay(s, seg[..|seg| - 1]), seg[|seg| - 1])
  }

  /** The last device id the server sent, or the given one. */
  function LastDid(did: string, seg: seq<Entry>): string {
    if seg == [] then did
    else
      match seg[|seg| - 1]
      case Sent(_, Some(r), _) =>
        if FirstDid(r.headers) != "" then FirstDid(r.headers) else LastDid(did, seg[..|seg| - 1])
      case _ => LastDid(did, seg[..|seg| - 1])
  }

  /** Rotation changes the device id only, to the last one received. */
  lemma {:induction false} ReplayMeaning(s: AuthState, seg: seq<Entry>)
    ensures Replay(s, seg) == s.(did := LastDid(s.did, seg))
  {
    if seg != [] { ReplayMeaning(s, seg[..|seg| - 1]); }
  }

  lemma {:induction false} ReplayConcat(s: AuthState, a: seq<Entry>, b: seq<Entry>)
    ensures Replay(s, a + b) == Replay(Replay(s, a), b)
  {
    if b == [] {
      assert a + b == a;
    } else {
      assert (a + b)[..|a + b| - 1] == a + b[..|b| - 1];
      ReplayConcat(s, a, b[..|b| - 1]);
    }
  }

  /** Request k carries the identity that responses before k left behind. */
  ghost predicate CarriesRotation(s: AuthState, seg: seq<Entry>) {
    forall k :: 0 <= k < |seg| && seg[k].Sent? ==> Shows(seg[k].req, Replay(s, seg[..k]))
  }

  // --------------------------------------------------- what every step keeps

  /** A session step from (w, s) to (w', s'): it appends at most limit entries, touches no
      store and sends no message, rotates the identity along its own responses, and its
      entries contain an accepted update, or a critical failure, exactly as said. */
  ghost predicate Steps(w: World, s: AuthState, w': World, s': AuthState,
                        seg: seq<Entry>, limit: nat, updated: bool, critical: bool) {
    && w' == w.(t := w'.t, log := w.log + seg)
    && w.t <= w'.t
    && |seg| <= limit
    && (forall e :: e in seg && e.Sent? ==> e.req.form.Call?)
    && s' == Replay(s, seg)
    && CarriesRotation(s, seg)
    && (updated <==> AnyUpdate(seg))
    && (critical <==> AnyCritical(seg))
  }

  lemma StepsNothing(w: World, s: AuthState)
    ensures Steps(w, s, w, s, [], 0, false, false)
    ensures Steps(w, s, w.Tick(), s, [], 0, false, false)
  {
    assert w.log + [] == w.log;
  }

  lemma StepsThen(w0: World, s0: AuthState, w1: World, s1: AuthState, w2: World, s2: AuthState,
                  a: seq<Entry>, b: seq<Entry>, m: nat, n: nat, ua: bool, ub: bool, ca: bool, cb: bool)
    requires Steps(w0, s0, w1, s1, a, m, ua, ca)
    requires Steps(w1, s1, w2, s2, b, n, ub, cb)
    ensures Steps(w0, s0, w2, s2, a + b, m + n, ua || ub, ca || cb)
  {
    ReplayConcat(s0, a, b);
    assert w0.log + (a + b) == (w0.log + a) + b;
    forall k | 0 <= k < |a + b| && (a + b)[k].Sent? ensures Shows((a + b)[k].req, Replay(s0, (a + b)[..k])) {
      if k < |a| {
        assert (a + b)[..k] == a[..k];
      } else {
        assert (a + b)[..k] == a + b[..k - |a|];
        ReplayConcat(s0, a, b[..k - |a|]);
      }
    }
    AnySplits(a, b);
  }

  /** Two steps in a row, the first without an accepted update or a critical failure. */
  lemma Quietly(w0: World, s0: AuthState, w1: World, s1: AuthState, w2: World, s2: AuthState,
                a: seq<Entry>, b: seq<Entry>, m: nat, n: nat, updated: bool, critical: bool)
    requires Steps(w0, s0, w1, s1, a, m, false, false)
    requires Steps(w1, s1, w2, s2, b, n, updated, critical)
    ensures Steps(w0, s0, w2, s2, a + b, m + n, updated, critical)
  {
    StepsThen(w0, s0, w1, s1, w2, s2, a, b, m, n, false, updated, false, critical);
  }

  lemma AnySplits(a: seq<Entry>, b: seq<Entry>)
    ensures AnyUpdate(a + b) <==> AnyUpdate(a) || AnyUpdate(b)
    ensures AnyCritical(a + b) <==> AnyCritical(a) || AnyCritical(b)
  {
    assert forall e :: e in a + b <==> e in a || e in b;
  }

  // ------------------------------------------------------- errors of a session

  /** The kit never produces a coded domain error. */
  predicate Uncoded(e: Error) {
    match e
    case Leaf(_) => true
    case Wrap(f) => Uncoded(f)
    case Coded(_, _) => false
  }

  lemma {:induction false} UncodedHasNoCode(e: Error, c: Code)
    requires Uncoded(e)
    ensures !e.IsCode(c)
  {
    if e.Wrap? { UncodedHasNoCode(e.cause, c); }
  }

  lemma {:induction false} ForeignUncoded(e: Error)
    requires e.Foreign()
    ensures Uncoded(e)
  {
    if e.Wrap? { ForeignUncoded(e.cause); }
  }

  /** The class of a failure at this entry: an accepted answer fails only when its payload
      does not decode, which counts as a business failure. */
  function Reason(e: Entry): Class {
    if e.Refused? then Transport
    else if Verdict(e).Accepted? then Denied(MTBusinessFailed)
    else Verdict(e)
  }

  function Cause(e: Entry): Option<Error> {
    if e.Refused? then Some(InterruptError(e.interrupt)) else e.err
  }

  /** A kit error that says about the entry what the server and the transport said. */
  ghost predicate Blamed(e: Entry, err: Error) {
    && Uncoded(err)
    && (forall k: Kind :: err.Is(BrowseKit(k)) <==> Reason(e) == Denied(CodeOf(k)))
    && (forall s: Sentinel | s == Canceled || s == DeadlineExceeded ::
          err.Is(s) <==> Cause(e).Some? && Cause(e).value.Is(s))
  }

  /** The error says what the last attempt came to. */
  ghost predicate BlamesLast(seg: seq<Entry>, err: Error) { seg != [] && Blamed(seg[|seg| - 1], err) }

  /** The same of an error as the refresh service sees it. */
  ghost predicate Explains(e: Entry, err: Error) { Carries(err, Reason(e), Cause(e)) }

  lemma BlameStays(a: seq<Entry>, b: seq<Entry>, err: Error)
    requires BlamesLast(b, err)
    ensures BlamesLast(a + b, err)
  {
    assert (a + b)[|a + b| - 1] == b[|b| - 1];
  }

  /** The domain mapping keeps criticality and reason: what the service tests, and the code it
      returns, are what the kit's error says. */
  lemma MappingKeepsBlame(e: Entry, err: Error)
    requires Blamed(e, err)
    ensures Explains(e, MapBrowseError(err))
    ensures MapBrowseError(err).IsCode(MTAuthFailed) <==> err.Is(BrowseKit(AuthFailed))
    ensures MapBrowseError(err).Is(Canceled) <==> err.Is(Canceled)
    ensures MapBrowseError(err).Is(DeadlineExceeded) <==> err.Is(DeadlineExceeded)
  {
    forall c: Code ensures !err.IsCode(c) { UncodedHasNoCode(err, c); }
  }

  // --------------------------------------------------------------- one request

  /** The address of an endpoint on the host: with a query exactly for GET. */
  predicate AddressedTo(req: Request, host: string, p: Endpoint) {
    var address := "https://" + host + p.path;
    if p.verb.GET? then address + "?" <= req.url else req.url == address
  }

  /** The body's type: none for GET, else the multipart or the JSON one. */
  predicate Typed(req: Request, p: Endpoint, enc: Encoding) {
    if p.verb.GET? then "Content-Type" !in req.headers
    else
      && "Content-Type" in req.headers
      && if enc.JsonBody? then req.headers["Content-Type"] == "application/json; charset=UTF-8"
         else "multipart/form-data; boundary=" <= req.headers["Content-Type"]
  }

  /** If it was sent, the attempt asks this endpoint, by its own address, as the client is configured. */
  predicate Asks(e: Entry, cfg: ClientConfig, p: Endpoint, enc: Encoding) {
    e.Sent? ==>
      && e.req.form == Call(p.path, p.args) && e.req.verb == p.verb
      && AddressedTo(e.req, cfg.apiHost, p) && Typed(e.req, p, enc)
      && e.req.proxy == cfg.proxy && e.req.timeout == cfg.timeout && e.req.disableRedirect
      && e.req.cookieScope == COOKIE_SCOPE
      && "origin" in e.req.headers && e.req.headers["origin"] == cfg.headers.referer
  }

  lemma OrdinaryHeaders()
    ensures Ordinary("Content-Type") && Ordinary("origin") && "Content-Type" != "origin"
  {
    assert |"Content-Type"| == 12 && |"origin"| == 6 && |AUTHORIZATION| == 13 && |DID| == 3 && |VISITOR_ID| == 9;
    assert |Fold("Content-Type")| == 12 && |Fold("origin")| == 6 && |Fold(AUTHORIZATION)| == 13 && |Fold(DID)| == 3;
    assert |"referer"| == 7 && |"Accept"| == 6 && |"Ts"| == 2 && |"version"| == 7 && |"webversion"| == 10;
    assert "Accept"[0] == 'A' && "origin"[0] == 'o';
  }

  lemma BuiltTyped(cfg: ClientConfig, p: Endpoint, enc: Encoding, d: Draw, seen: Request)
    requires Dressed(seen, BuildRequest(cfg, p, enc, d), cfg.headers, d.text)
    ensures Typed(seen, p, enc)
    ensures "origin" in seen.headers && seen.headers["origin"] == cfg.headers.referer
  {
    OrdinaryHeaders();
  }

  lemma BuiltAddress(cfg: ClientConfig, p: Endpoint, enc: Encoding, d: Draw)
    ensures AddressedTo(BuildRequest(cfg, p, enc, d), cfg.apiHost, p)
  {
    var address := "https://" + cfg.apiHost + p.path;
    assert address + "" == address;
    assert address + ("?" + d.query) == address + "?" + d.query;
  }

  lemma BuiltAsks(cfg: ClientConfig, p: Endpoint, enc: Encoding, d: Draw, seen: Request, resp: Option<Response>,
                  err: Option<ForeignError>)
    requires Dressed(seen, BuildRequest(cfg, p, enc, d), cfg.headers, d.text)
    ensures Asks(Sent(seen, resp, err), cfg, p, enc)
  {
    BuiltTyped(cfg, p, enc, d, seen);
    BuiltAddress(cfg, p, enc, d);
  }

  lemma JudgeMeaning(e: Entry, path: string)
    requires IsCall(e, path)
    ensures Judge(path, e.resp, e.err).Success? <==> Passes(e, path)
    ensures Judge(path, e.resp, e.err).Success? && path != PING ==>
              e.resp.Some? && e.resp.value.body.Json? && Judge(path, e.resp, e.err).value == e.resp.value.body.payload
    ensures Judge(path, e.resp, e.err).Failure? ==> Blamed(e, Judge(path, e.resp, e.err).error)
  {
    if e.err.Some? {
      ForeignIsUntouched(e.err.value);
      ForeignUncoded(e.err.value);
    }
  }

  /** Criticality of an error is criticality of the entry it blames. */
  lemma BlameIsCritical(e: Entry, err: Error)
    requires Blamed(e, err)
    ensures Critical(err) <==> IsCritical(e)
  {}

  /** One request appends one entry, which asks the endpoint; it fails exactly when that entry does not pass, and
      critically exactly when that entry is critical. */
  lemma DoFacts(w: World, s: AuthState, cfg: ClientConfig, p: Endpoint, enc: Encoding) returns (e: Entry)
    ensures var r := Do(w, s, cfg, p, enc);
            && Steps(w, s, r.w, r.s, [e], 1, p.path == UPDATE_LAST_BROWSE && r.out.Success?,
                     r.out.Failure? && Critical(r.out.error))
            && (r.out.Failure? ==> Blamed(e, r.out.error))
            && (r.out.Success? <==> Passes(e, p.path))
            && Asks(e, cfg, p, enc)
            && (r.out.Success? && p.path != PING ==>
                  e.resp.Some? && e.resp.value.body.Json? && r.out.value == e.resp.value.body.payload)
            && r.w.t == w.t + 1
  {
    var d := w.Here();
    if d.ctx.Some? {
      e := Refused(d.ctx.value);
    } else {
      var req := BuildRequest(cfg, p, enc, d);
      var hop := SessionChain(cfg.headers, d)(s, req);
      SessionChainMeaning(cfg.headers, d, s, req);
      e := Sent(hop.seen, hop.resp, hop.err);
      BuiltAsks(cfg, p, enc, d, hop.seen, hop.resp, hop.err);
      JudgeMeaning(e, p.path);
    }
    var r := Do(w, s, cfg, p, enc);
    if r.out.Failure? { BlameIsCritical(e, r.out.error); }
    OneEntry(s, e);
  }

  lemma OneEntry(s: AuthState, e: Entry)
    ensures Replay(s, [e]) == AfterEntry(s, e)
    ensures e.Refused? || Shows(e.req, s) ==> CarriesRotation(s, [e])
    ensures AnyUpdate([e]) <==> Passes(e, UPDATE_LAST_BROWSE)
    ensures AnyCritical([e]) <==> IsCritical(e)
  {
    assert [e][..0] == [];
    assert e in [e];
  }

  // ------------------------------------------------------------------- warmup

  lemma WarmupNeverUpdates(i: nat)
    requires i < WARMUP_COUNT
    ensures WARMUP_ENDPOINTS[i].path != UPDATE_LAST_BROWSE
  {
    assert |UPDATE_LAST_BROWSE| == 28 && UPDATE_LAST_BROWSE[5] == 'm';
    assert i < 14 ==> |WARMUP_ENDPOINTS[i].path| < 28;
    assert WARMUP_ENDPOINTS[14].path[5] == 'e';
  }

  /** The entries are answers to the endpoints i, i+1, ... in order, each accepted. */
  ghost predicate WarmsUp(seg: seq<Entry>, i: nat) {
    i + |seg| == WARMUP_COUNT && forall k :: 0 <= k < |seg| ==> Passes(seg[k], WARMUP_ENDPOINTS[i + k].path)
  }

  /** The series ends with an entry that its endpoint did not pass. */
  ghost predicate BreaksOff(seg: seq<Entry>, i: nat) {
    && 0 < |seg| <= WARMUP_COUNT - i
    && !Passes(seg[|seg| - 1], WARMUP_ENDPOINTS[i + |seg| - 1].path)
  }

  lemma WarmsUpMore(e: Entry, rest: seq<Entry>, i: nat)
    requires i < WARMUP_COUNT && Passes(e, WARMUP_ENDPOINTS[i].path) && WarmsUp(rest, i + 1)
    ensures WarmsUp([e] + rest, i)
  {
    var seg := [e] + rest;
    forall k | 0 <= k < |seg| ensures Passes(seg[k], WARMUP_ENDPOINTS[i + k].path) {
      if k > 0 {
        assert seg[k] == rest[k - 1];
        assert Passes(rest[k - 1], WARMUP_ENDPOINTS[i + 1 + (k - 1)].path);
      }
    }
  }

  lemma BreaksOffLater(e: Entry, rest: seq<Entry>, i: nat)
    requires i < WARMUP_COUNT && BreaksOff(rest, i + 1)
    ensures BreaksOff([e] + rest, i)
  {
    var seg := [e] + rest;
    assert seg[|seg| - 1] == rest[|rest| - 1];
    assert i + |seg| - 1 == i + 1 + |rest| - 1;
  }

  lemma TurnFacts(w: World, s: AuthState, cfg: ClientConfig, i: nat) returns (e: Entry)
    requires i < WARMUP_COUNT
    ensures var r := WarmupTurn(w, s, cfg, i);
            && Steps(w, s, r.w, r.s, [e], 1, false, r.out.Failure? && Critical(r.out.error))
            && (r.out.Failure? ==> Blamed(e, r.out.error))
            && (r.out.Success? <==> Passes(e, WARMUP_ENDPOINTS[i].path))
            && Asks(e, cfg, WARMUP_ENDPOINTS[i], Multipart)
  {
    var ctx := w.Here().ctx;
    if ctx.Some? {
      e := Refused(ctx.value);
      OneEntry(s, e);
    } else {
      WarmupNeverUpdates(i);
      e := DoFacts(w.Tick(), s, cfg, WARMUP_ENDPOINTS[i], Multipart);
    }
  }

  /** What the warmup loop from endpoint i on does. */
  ghost predicate WarmupDoes(w: World, s: AuthState, r: Ret<()>, seg: seq<Entry>, i: nat)
    requires i <= WARMUP_COUNT
  {
    && Steps(w, s, r.w, r.s, seg, WARMUP_COUNT - i, false, r.out.Failure? && Critical(r.out.error))
    && (r.out.Failure? ==> BlamesLast(seg, r.out.error) && BreaksOff(seg, i))
    && (r.out.Success? ==> WarmsUp(seg, i))
  }

  lemma WarmupThen(w: World, s: AuthState, w1: World, s1: AuthState, r: Ret<()>, e: Entry, rest: seq<Entry>, i: nat)
    requires i < WARMUP_COUNT
    requires Steps(w, s, w1, s1, [e], 1, false, false) && Passes(e, WARMUP_ENDPOINTS[i].path)
    requires WarmupDoes(w1, s1, r, rest, i + 1)
    ensures WarmupDoes(w, s, r, [e] + rest, i)
  {
    if r.out.Failure? {
      BlameStays([e], rest, r.out.error);
      BreaksOffLater(e, rest, i);
    } else {
      WarmsUpMore(e, rest, i);
    }
    Quietly(w, s, w1, s1, r.w, r.s, [e], rest, 1, WARMUP_COUNT - i - 1, false, r.out.Failure? && Critical(r.out.error));
  }

  lemma {:induction false} WarmupFacts(w: World, s: AuthState, cfg: ClientConfig, i: nat) returns (seg: seq<Entry>)
    requires i <= WARMUP_COUNT
    ensures WarmupDoes(w, s, WarmupFrom(w, s, cfg, i), seg, i)
    decreases WARMUP_COUNT - i
  {
    if i == WARMUP_COUNT {
      StepsNothing(w, s);
      seg := [];
    } else {
      var r := WarmupTurn(w, s, cfg, i);
      var e := TurnFacts(w, s, cfg, i);
      seg := [e];
      assert e in seg;
      if r.out.Success? {
        var rest := WarmupFacts(r.w, r.s, cfg, i + 1);
        WarmupThen(w, s, r.w, r.s, WarmupFrom(r.w, r.s, cfg, i + 1), e, rest, i);
        seg := seg + rest;
      }
    }
  }

  // ------------------------------------------------------------------- phases

  lemma PathsDiffer()
    ensures UPDATE_LAST_BROWSE !in {PING, PROFILE, FORUMS, MEMBER_BASES, TOPIC_SEARCH, VIEW_HITS, TOPIC_DETAIL}
    ensures PING !in {UPDATE_LAST_BROWSE, PROFILE, FORUMS, MEMBER_BASES, TOPIC_SEARCH, VIEW_HITS, TOPIC_DETAIL}
  {
    assert |UPDATE_LAST_BROWSE| == 28 && |PING| == 5 && |PROFILE| == 19 && |FORUMS| == 17 && |MEMBER_BASES| == 17;
    assert |TOPIC_SEARCH| == 23 && |VIEW_HITS| == 25 && |TOPIC_DETAIL| == 23;
  }

  /** A phase that makes one request, whatever it decodes from the answer. */
  ghost predicate OnePhase<T>(w: World, s: AuthState, r: Ret<T>, seg: seq<Entry>, limit: nat) {
    && Steps(w, s, r.w, r.s, seg, limit, false, r.out.Failure? && Critical(r.out.error))
    && (r.out.Failure? ==> BlamesLast(seg, r.out.error))
  }

  /** A phase built on one request: it passes the request's failure on, wrapped or not, or
      fails to decode an accepted answer. */
  lemma PhaseOf<T>(w: World, s: AuthState, r: Ret<Payload>, q: Ret<T>, e: Entry, path: string)
    requires Steps(w, s, r.w, r.s, [e], 1, false, r.out.Failure? && Critical(r.out.error))
    requires r.out.Failure? ==> Blamed(e, r.out.error)
    requires r.out.Success? ==> Passes(e, path)
    requires q.w == r.w && q.s == r.s
    requires r.out.Failure? ==> q.out.Failure? && (q.out.error == Wrap(r.out.error) || q.out.error == r.out.error)
    requires r.out.Success? && q.out.Failure? ==> q.out.error == DECODE_ERROR
    ensures OnePhase(w, s, q, [e], 1)
  {
    if q.out.Failure? {
      assert Blamed(e, q.out.error);
      assert e in [e];
    }
  }

  lemma ProfileFacts(w: World, s: AuthState, cfg: ClientConfig) returns (e: Entry)
    ensures OnePhase(w, s, Profile(w, s, cfg), [e], 1)
    ensures Profile(w, s, cfg).out.Success? <==>
              Passes(e, PROFILE) && e.resp.Some? && e.resp.value.body.Json? && e.resp.value.body.payload.profileDecode
  {
    PathsDiffer();
    var p := Endpoint(POST, PROFILE, NoArgs);
    e := DoFacts(w, s, cfg, p, Multipart);
    PhaseOf(w, s, Do(w, s, cfg, p, Multipart), Profile(w, s, cfg), e, PROFILE);
  }

  lemma UpdateFacts(w: World, s: AuthState, cfg: ClientConfig) returns (e: Entry)
    ensures var r := UpdateLastBrowse(w, s, cfg);
            && Steps(w, s, r.w, r.s, [e], 1, r.out.Success?, r.out.Failure? && Critical(r.out.error))
            && (r.out.Failure? ==> BlamesLast([e], r.out.error))
  {
    e := DoFacts(w, s, cfg, Endpoint(POST, UPDATE_LAST_BROWSE, NoArgs), Multipart);
    assert e in [e];
  }

  lemma ForumsFacts(w: World, s: AuthState, cfg: ClientConfig) returns (seg: seq<Entry>)
    ensures OnePhase(w, s, VisitForums(w, s, cfg), seg, 1)
  {
    PathsDiffer();
    var p := Endpoint(POST, FORUMS, NoArgs);
    var e := DoFacts(w, s, cfg, p, Multipart);
    PhaseOf(w, s, Do(w, s, cfg, p, Multipart), VisitForums(w, s, cfg), e, FORUMS);
    seg := [e];
  }

  lemma SearchFacts(w: World, s: AuthState, cfg: ClientConfig, fid: int) returns (seg: seq<Entry>)
    ensures OnePhase(w, s, SearchTopics(w, s, cfg, fid), seg, 1)
  {
    PathsDiffer();
    var p := Endpoint(POST, TOPIC_SEARCH, ForumRef(fid));
    var e := DoFacts(w, s, cfg, p, JsonBody);
    PhaseOf(w, s, Do(w, s, cfg, p, JsonBody), SearchTopics(w, s, cfg, fid), e, TOPIC_SEARCH);
    seg := [e];
  }

  lemma ResolveFacts(w: World, s: AuthState, cfg: ClientConfig, ids: seq<int>) returns (seg: seq<Entry>)
    ensures OnePhase(w, s, ResolveIfAny(w, s, cfg, ids), seg, 1)
  {
    if ids == [] {
      StepsNothing(w, s);
      seg := [];
    } else {
      PathsDiffer();
      var p := Endpoint(POST, MEMBER_BASES, Members(ids));
      var e := DoFacts(w, s, cfg, p, JsonBody);
      PhaseOf(w, s, Do(w, s, cfg, p, JsonBody), ResolveMembers(w, s, cfg, ids), e, MEMBER_BASES);
      seg := [e];
    }
  }

  /** A phase that goes on after a successful request. */
  lemma PhaseThen<T>(w: World, s: AuthState, r: Ret<Payload>, rest: Ret<T>, e: Entry, seg: seq<Entry>, limit: nat)
    requires Steps(w, s, r.w, r.s, [e], 1, false, false)
    requires OnePhase(r.w, r.s, rest, seg, limit)
    ensures OnePhase(w, s, rest, [e] + seg, limit + 1)
  {
    Quietly(w, s, r.w, r.s, rest.w, rest.s, [e], seg, 1, limit, false, rest.out.Failure? && Critical(rest.out.error));
    if rest.out.Failure? { BlameStays([e], seg, rest.out.error); }
  }

  lemma DetailFacts(w: World, s: AuthState, cfg: ClientConfig, tid: int) returns (e: Entry)
    ensures OnePhase(w, s, ViewDetail(w, s, cfg, tid), [e], 1)
  {
    PathsDiffer();
    var p := Endpoint(POST, TOPIC_DETAIL, TopicRef(tid));
    e := DoFacts(w, s, cfg, p, JsonBody);
    PhaseOf(w, s, Do(w, s, cfg, p, JsonBody), ViewDetail(w, s, cfg, tid), e, TOPIC_DETAIL);
  }

  lemma ViewPostsFacts(w: World, s: AuthState, cfg: ClientConfig, tid: int) returns (seg: seq<Entry>)
    ensures OnePhase(w, s, ViewPosts(w, s, cfg, tid), seg, 2)
  {
    PathsDiffer();
    var p := Endpoint(POST, FORUMS, NoArgs);
    var e := DoFacts(w, s, cfg, p, Multipart);
    var b := Do(w, s, cfg, p, Multipart);
    if b.out.Failure? {
      PhaseOf(w, s, b, ViewPosts(w, s, cfg, tid), e, FORUMS);
      seg := [e];
    } else {
      var d := DetailFacts(b.w, b.s, cfg, tid);
      PhaseThen(w, s, b, ViewDetail(b.w, b.s, cfg, tid), e, [d], 1);
      seg := [e] + [d];
    }
  }

  lemma ViewFacts(w: World, s: AuthState, cfg: ClientConfig, tid: int) returns (seg: seq<Entry>)
    ensures OnePhase(w, s, ViewTopic(w, s, cfg, tid), seg, 3)
  {
    PathsDiffer();
    var p := Endpoint(POST, VIEW_HITS, TopicRef(tid));
    var e := DoFacts(w, s, cfg, p, Multipart);
    var a := Do(w, s, cfg, p, Multipart);
    if a.out.Failure? {
      PhaseOf(w, s, a, ViewTopic(w, s, cfg, tid), e, VIEW_HITS);
      seg := [e];
    } else {
      var rest := ViewPostsFacts(a.w, a.s, cfg, tid);
      PhaseThen(w, s, a, ViewPosts(a.w, a.s, cfg, tid), e, rest, 2);
      seg := [e] + rest;
    }
  }

  // ----------------------------------------------------------------- the walk

  ghost predicate WalkSteps(w: World, s: AuthState, r: Walk, seg: seq<Entry>, limit: nat, before: bool) {
    && (before ==> r.updated)
    && Steps(w, s, r.w, r.s, seg, limit, AnyUpdate(seg), r.err.Some?)
    && (r.updated <==> before || AnyUpdate(seg))
    && (r.err.Some? ==> Critical(r.err.value) && BlamesLast(seg, r.err.value))
  }

  lemma RefreshFacts(w: World, s: AuthState, cfg: ClientConfig) returns (seg: seq<Entry>)
    ensures WalkSteps(w, s, RefreshPage(w, s, cfg), seg, 16, false)
  {
    seg := WarmupFacts(w, s, cfg, 0);
    var m := Warmup(w, s, cfg);
    if !Stops(m.out) {
      var e := UpdateFacts(m.w, m.s, cfg);
      var u := UpdateLastBrowse(m.w, m.s, cfg);
      Quietly(w, s, m.w, m.s, u.w, u.s, seg, [e], 15, 1, u.out.Success?, u.out.Failure? && Critical(u.out.error));
      if u.out.Failure? { BlameStays(seg, [e], u.out.error); }
      seg := seg + [e];
    }
  }

  lemma TopicFacts(w: World, s: AuthState, cfg: ClientConfig, tids: seq<int>, before: bool) returns (seg: seq<Entry>)
    requires tids != []
    ensures WalkSteps(w, s, VisitRandomTopic(w, s, cfg, tids, before), seg, 19, before)
  {
    StepsNothing(w, s);
    var page := RefreshPage(w.Tick(), s, cfg);
    var a := RefreshFacts(w.Tick(), s, cfg);
    Quietly(w, s, w.Tick(), s, page.w, page.s, [], a, 0, 16, AnyUpdate(a), page.err.Some?);
    assert [] + a == a;
    seg := a;
    if page.err.None? {
      var tid := tids[w.Here().pick % |tids|];
      var b := ViewFacts(page.w, page.s, cfg, tid);
      var v := ViewTopic(page.w, page.s, cfg, tid);
      StepsThen(w, s, page.w, page.s, v.w, v.s, a, b, 16, 3, AnyUpdate(a), false, false, v.out.Failure? && Critical(v.out.error));
      if v.out.Failure? { BlameStays(a, b, v.out.error); }
      seg := a + b;
    }
  }

  lemma ResolveFoundFacts(w: World, s: AuthState, cfg: ClientConfig, found: Found) returns (seg: seq<Entry>)
    ensures var r := ResolveTopicMembers(w, s, cfg, found);
            OnePhase(w, s, r, seg, 2) && (r.out.Failure? ==> Critical(r.out.error))
  {
    var a := ResolveIfAny(w, s, cfg, found.authors);
    seg := ResolveFacts(w, s, cfg, found.authors);
    if !Stops(a.out) {
      var b := ResolveIfAny(a.w, a.s, cfg, found.lastPosters);
      var rest := ResolveFacts(a.w, a.s, cfg, found.lastPosters);
      Quietly(w, s, a.w, a.s, b.w, b.s, seg, rest, 1, 1, false, b.out.Failure? && Critical(b.out.error));
      if b.out.Failure? { BlameStays(seg, rest, b.out.error); }
      seg := seg + rest;
    }
  }

  lemma ForumFacts(w: World, s: AuthState, cfg: ClientConfig, fids: seq<int>) returns (seg: seq<Entry>)
    requires fids != []
    ensures WalkSteps(w, s, VisitRandomForum(w, s, cfg, fids), seg, 38, false)
  {
    StepsNothing(w, s);
    var page := RefreshPage(w.Tick(), s, cfg);
    var a := RefreshFacts(w.Tick(), s, cfg);
    Quietly(w, s, w.Tick(), s, page.w, page.s, [], a, 0, 16, AnyUpdate(a), page.err.Some?);
    assert [] + a == a;
    seg := a;
    if page.err.None? {
      var fid := fids[w.Here().pick % |fids|];
      var b := SearchFacts(page.w, page.s, cfg, fid);
      var t := SearchTopics(page.w, page.s, cfg, fid);
      StepsThen(w, s, page.w, page.s, t.w, t.s, a, b, 16, 1, AnyUpdate(a), false, false, t.out.Failure? && Critical(t.out.error));
      if t.out.Failure? { BlameStays(a, b, t.out.error); }
      seg := a + b;
      if t.out.Success? && t.out.value.topicIDs != [] {
        var m := ResolveTopicMembers(t.w, t.s, cfg, t.out.value);
        var c := ResolveFoundFacts(t.w, t.s, cfg, t.out.value);
        StepsThen(w, s, t.w, t.s, m.w, m.s, seg, c, 17, 2, AnyUpdate(seg), false, false, m.out.Failure?);
        if m.out.Failure? { BlameStays(seg, c, m.out.error); }
        seg := seg + c;
        if m.out.Success? {
          var v := VisitRandomTopic(m.w, m.s, cfg, t.out.value.topicIDs, page.updated);
          var z := TopicFacts(m.w, m.s, cfg, t.out.value.topicIDs, page.updated);
          StepsThen(w, s, m.w, m.s, v.w, v.s, seg, z, 19, 19, AnyUpdate(seg), AnyUpdate(z), false, v.err.Some?);
          if v.err.Some? { BlameStays(seg, z, v.err.value); }
          seg := seg + z;
        }
      }
    }
  }

  /** BrowseForum, for every server: at most 40 requests; it reports an update exactly when
      one of its own UpdateLastBrowse requests was accepted; it returns an error exactly when
      one of its attempts failed critically, and then a critical one. */
  lemma BrowseForumMeaning(w: World, s: AuthState, cfg: ClientConfig) returns (seg: seq<Entry>)
    ensures var r := BrowseForum(w, s, cfg);
            && Steps(w, s, r.w, r.s, seg, 40, r.updated, r.err.Some?)
            && (r.updated <==> AnyUpdate(seg))
            && (r.err.Some? <==> AnyCritical(seg))
            && (r.err.Some? ==> Critical(r.err.value) && BlamesLast(seg, r.err.value))
  {
    var v := VisitForums(w, s, cfg);
    seg := ForumsFacts(w, s, cfg);
    if v.out.Success? && v.out.value.forumIDs != [] {
      var m := ResolveIfAny(v.w, v.s, cfg, v.out.value.authors);
      var a := ResolveFacts(v.w, v.s, cfg, v.out.value.authors);
      Quietly(w, s, v.w, v.s, m.w, m.s, seg, a, 1, 1, false, m.out.Failure? && Critical(m.out.error));
      if m.out.Failure? { BlameStays(seg, a, m.out.error); }
      seg := seg + a;
      if !Stops(m.out) {
        var f := VisitRandomForum(m.w, m.s, cfg, v.out.value.forumIDs);
        var b := ForumFacts(m.w, m.s, cfg, v.out.value.forumIDs);
        Quietly(w, s, m.w, m.s, f.w, f.s, seg, b, 2, 38, AnyUpdate(b), f.err.Some?);
        if f.err.Some? { BlameStays(seg, b, f.err.value); }
        seg := seg + b;
      }
    }
  }
}
