/** The login client (apimtauth): one login with its single step into the OTP variant, as a
    function of the outside world and as a method. */
module AuthSpec {
  import opened Domain
  import opened Protocol
  import opened World
  import opened Transport

  datatype LoginRequest = LoginRequest(username: string, password: string, totpSecret: string, visitorID: string)

  datatype Ret = Ret(w: World, out: Result<AuthState, Error>)

  predicate IsSpace(c: char) {
    || '\t' <= c <= '\r' || c == ' ' || c == '\U{85}' || c == '\U{A0}' || c == '\U{1680}'
    || '\U{2000}' <= c <= '\U{200A}' || c == '\U{2028}' || c == '\U{2029}'
    || c == '\U{202F}' || c == '\U{205F}' || c == '\U{3000}'
  }

  /** strings.TrimSpace(s) == "" */
  predicate Blank(s: string) { forall i :: 0 <= i < |s| ==> IsSpace(s[i]) }

  function OrElse(a: string, b: string): string { if a != "" then a else b }

  /** The token of a login response: the canonical header spelling, else the lower-case one. */
  function TokenOf(headers: seq<Header>): string {
    OrElse(Lookup(headers, "Authorization"), Lookup(headers, "authorization"))
  }

  function DidOf(headers: seq<Header>, sentDid: string): string {
    OrElse(OrElse(Lookup(headers, "Did"), Lookup(headers, "did")), sentDid)
  }

  function BuildLogin(cfg: ClientConfig, req: LoginRequest, otp: bool, d: Draw): Request {
    Request(
      "https://" + cfg.apiHost + "/api/login", POST,
      Login(req.username, req.password, otp),
      map["Content-Type" := "application/x-www-form-urlencoded; charset=UTF-8",
          "Did" := d.text, "visitorid" := req.visitorID],
      cfg.timeout, cfg.proxy, true, "", "")
  }

  function FromHeaders(headers: seq<Header>, sentDid: string, visitorID: string): Result<AuthState, Error> {
    var token := TokenOf(headers);
    if Blank(token) then Failure(Wrap(Leaf(AuthKit(AuthFailed))))
    else Success(AuthState(token, DidOf(headers, sentDid), visitorID))
  }

  /** One attempt, and whether it ended with "TOTP required" before a code was sent. */
  datatype Attempt = Tried(w: World, again: bool, out: Result<AuthState, Error>)

  function TryLogin(w: World, cfg: ClientConfig, req: LoginRequest, otp: bool): Attempt {
    var d := w.Here();
    if d.ctx.Some? then Tried(w.Tick().Record(Refused(d.ctx.value)), false, Failure(InterruptError(d.ctx.value)))
    else if otp && d.totpFault.Some? then Tried(w.Tick(), false, Failure(d.totpFault.value))
    else if d.randomFault.Some? then Tried(w.Tick(), false, Failure(d.randomFault.value))
    else
      var hop := ClientChain(cfg.headers, d)(NoAuth, BuildLogin(cfg, req, otp, d));
      var w1 := w.Tick().Record(Sent(hop.seen, hop.resp, hop.err));
      match ParseResponse(hop.resp, hop.err)
      case Failure(e) => Tried(w1, e.Is(Proto(TOTPRequired)) && !otp, Failure(TranslateAuth(e)))
      case Success(_) => Tried(w1, false, FromHeaders(hop.resp.value.headers, d.text, req.visitorID))
  }

  /** Client.login: on "TOTP required" it calls itself once more with a code. */
  function LoginStep(w: World, cfg: ClientConfig, req: LoginRequest, otp: bool): Ret
    decreases if otp then 0 else 1
  {
    var a := TryLogin(w, cfg, req, otp);
    if a.again then LoginStep(a.w, cfg, req, true) else Ret(a.w, a.out)
  }

  /** Client.Login */
  function LoginWith(w: World, cfg: ClientConfig, req: LoginRequest): Ret {
    if req.visitorID == "" then Ret(w, Failure(Leaf(Opaque))) else LoginStep(w, cfg, req, false)
  }

  /** The identity that a login response carries in its headers. */
  method ReadHeaders(headers: seq<Header>, sentDid: string, visitorID: string) returns (out: Result<AuthState, Error>)
    ensures out == FromHeaders(headers, sentDid, visitorID)
  {
    var responseDID := Lookup(headers, "Did");
    if responseDID == "" { responseDID := Lookup(headers, "did"); }
    var token := Lookup(headers, "Authorization");
    if token == "" { token := Lookup(headers, "authorization"); }
    if Blank(token) { return Failure(Wrap(Leaf(AuthKit(AuthFailed)))); }
    var state := AuthState(token, responseDID, visitorID);
    if state.did == "" { state := state.(did := sentDid); }
    out := Success(state);
  }

  class Client {
    const cfg: ClientConfig
    const process: Process

    constructor (cfg: ClientConfig, process: Process)
      ensures this.cfg == cfg && this.process == process
    {
      this.cfg, this.process := cfg, process;
    }

    /** A random string, or the clock when the random source fails: never empty. */
    method GenerateVisitorID() returns (id: NonEmptyString)
      modifies process`t
      ensures id == old(process.View()).Here().text
      ensures process.View() == old(process.View()).Tick()
    {
      var d := process.Next();
      id := d.text;
    }

    method Login(req: LoginRequest) returns (out: Result<AuthState, Error>)
      modifies process`t, process`log
      ensures Ret(process.View(), out) == LoginWith(old(process.View()), cfg, req)
    {
      if req.visitorID == "" { return Failure(Leaf(Opaque)); }
      out := LoginOnce(req, false);
    }

    method LoginOnce(req: LoginRequest, otp: bool) returns (out: Result<AuthState, Error>)
      modifies process`t, process`log
      ensures Ret(process.View(), out) == LoginStep(old(process.View()), cfg, req, otp)
      decreases if otp then 0 else 1
    {
      var wantsCode;
      wantsCode, out := Try(req, otp);
      if wantsCode { out := LoginOnce(req, true); }
    }

    /** One request, with a code or without. */
    method Try(req: LoginRequest, otp: bool) returns (wantsCode: bool, out: Result<AuthState, Error>)
      modifies process`t, process`log
      ensures Tried(process.View(), wantsCode, out) == TryLogin(old(process.View()), cfg, req, otp)
    {
      wantsCode := false;
      var d := process.Next();
      if d.ctx.Some? {
        process.Record(Refused(d.ctx.value));
        return false, Failure(InterruptError(d.ctx.value));
      }
      if otp && d.totpFault.Some? { return false, Failure(d.totpFault.value); }
      if d.randomFault.Some? { return false, Failure(d.randomFault.value); }
      var rt := Chain(Some(Base(d)), ClientTrippers(cfg.headers, d));
      var hop := rt(NoAuth, BuildLogin(cfg, req, otp, d));
      process.Record(Sent(hop.seen, hop.resp, hop.err));
      var parsed := ParseResponse(hop.resp, hop.err);
      if parsed.Failure? {
        return parsed.error.Is(Proto(TOTPRequired)) && !otp, Failure(TranslateAuth(parsed.error));
      }
      out := ReadHeaders(hop.resp.value.headers, d.text, req.visitorID);
    }
  }

  // ------------------------------------------------------ what a login leaves

  predicate IsLogin(e: Entry, user: string) {
    e.Sent? && e.req.form.Login? && e.req.form.username == user
  }

  /** The value under one key or, when that is blank, under the other. */
  predicate Finds(headers: seq<Header>, key: string, other: string, value: string) {
    if Lookup(headers, key) != "" then value == Lookup(headers, key) else value == Lookup(headers, other)
  }

  /** The server answered a login of this user with this token. */
  predicate Issues(e: Entry, token: string, user: string) {
    && IsLogin(e, user)
    && ClassOf(e.resp, e.err, true).Accepted?
    && e.resp.Some? && Finds(e.resp.value.headers, "Authorization", "authorization", token)
  }

  predicate IssuedIn(log: seq<Entry>, token: string, user: string) {
    exists e :: e in log && Issues(e, token, user)
  }

  /** The attempt logs in with these credentials at the login address of the host, under this
      visitor id and, unless the host hides it, a device id of its own; with a code or without. */
  predicate Submits(e: Entry, cfg: ClientConfig, req: LoginRequest, otp: bool) {
    e.Sent? ==>
      && e.req.form == Login(req.username, req.password, otp) && e.req.verb.POST?
      && e.req.url == "https://" + cfg.apiHost + "/api/login"
      && e.req.proxy == cfg.proxy && e.req.timeout == cfg.timeout && e.req.disableRedirect
      && VISITOR_ID in e.req.headers && e.req.headers[VISITOR_ID] == req.visitorID
      && ('/' !in cfg.apiHost ==> DID in e.req.headers && e.req.headers[DID] != "")
  }

  /** The device id of a login: the one the answer carries, else the one its own request carried. */
  predicate Names(e: Entry, did: string)
    requires e.Sent? && e.resp.Some?
  {
    var h := e.resp.value.headers;
    if Lookup(h, "Did") != "" || Lookup(h, "did") != "" then Finds(h, "Did", "did", did)
    else DID in e.req.headers ==> did == e.req.headers[DID]
  }

  /** An accepted answer without a token counts as a denial. */
  function LoginClass(e: Entry): Class
    requires e.Sent?
  {
    var verdict := ClassOf(e.resp, e.err, true);
    if verdict.Accepted? && e.resp.Some? && Blank(TokenOf(e.resp.value.headers)) then Denied(MTAuthFailed) else verdict
  }

  /** How an attempt ends, read off its entry: the identity that the answer granted, or the class
      of the failure; an attempt that was not even made ends with a fault from outside. */
  ghost predicate Concludes(out: Result<AuthState, Error>, seg: seq<Entry>, req: LoginRequest) {
    if seg == [] then out.Failure? && out.error.Foreign()
    else
      var e := seg[|seg| - 1];
      if e.Refused? then out == Failure(InterruptError(e.interrupt))
      else if LoginClass(e).Accepted? then
        && out.Success? && out.value.Complete() && out.value.visitorID == req.visitorID
        && Issues(e, out.value.token, req.username) && Names(e, out.value.did)
      else out.Failure? && Carries(MapAuthError(out.error), LoginClass(e), e.err)
  }

  predicate AsksForCode(e: Entry) { e.Sent? && ClassOf(e.resp, e.err, true) == Denied(MTTOTPRequired) }

  /** One attempt. */
  ghost predicate AttemptDoes(w: World, a: Attempt, seg: seq<Entry>, cfg: ClientConfig, req: LoginRequest, otp: bool) {
    && a.w == w.(t := a.w.t, log := w.log + seg)
    && |seg| <= 1 && (forall e :: e in seg ==> Submits(e, cfg, req, otp))
    && Concludes(a.out, seg, req)
    && (a.again <==> !otp && seg != [] && AsksForCode(seg[0]))
  }

  lemma TryLoginFacts(w: World, cfg: ClientConfig, req: LoginRequest, otp: bool) returns (seg: seq<Entry>)
    requires req.visitorID != ""
    ensures AttemptDoes(w, TryLogin(w, cfg, req, otp), seg, cfg, req, otp)
  {
    var d := w.Here();
    seg := [];
    assert w.log + seg == w.log;
    if d.ctx.Some? {
      seg := [Refused(d.ctx.value)];
    } else if !(otp && d.totpFault.Some?) && d.randomFault.None? {
      var hop := ClientChain(cfg.headers, d)(NoAuth, BuildLogin(cfg, req, otp, d));
      seg := [Sent(hop.seen, hop.resp, hop.err)];
      LoginSubmits(cfg, req, otp, d);
      AnswerConcludes(cfg, req, otp, d);
    }
  }

  lemma LoginPathIsPlain()
    ensures Plain("/api/login")
  {}

  lemma LoginSubmits(cfg: ClientConfig, req: LoginRequest, otp: bool, d: Draw)
    ensures var hop := ClientChain(cfg.headers, d)(NoAuth, BuildLogin(cfg, req, otp, d));
            && hop.resp == d.resp && hop.err == d.err
            && Submits(Sent(hop.seen, hop.resp, hop.err), cfg, req, otp)
            && (DID in hop.seen.headers ==> hop.seen.headers[DID] == d.text)
  {
    var r := BuildLogin(cfg, req, otp, d);
    LoginChainMeaning(cfg.headers, d, NoAuth, r);
    IdentityKeysDiffer();
    assert r.headers[VISITOR_ID] == req.visitorID && r.headers[DID] == d.text;
    if '/' !in cfg.apiHost {
      LoginPathIsPlain();
      PlainIsNotUnix(cfg.apiHost, "/api/login", "");
      assert "https://" + cfg.apiHost + "/api/login" + "" == r.url;
    }
  }

  /** The answer to an attempt, and what is made of it. */
  lemma AnswerConcludes(cfg: ClientConfig, req: LoginRequest, otp: bool, d: Draw)
    requires req.visitorID != ""
    ensures var hop := ClientChain(cfg.headers, d)(NoAuth, BuildLogin(cfg, req, otp, d));
            var e := Sent(hop.seen, hop.resp, hop.err);
            var parsed := ParseResponse(hop.resp, hop.err);
            && (parsed.Failure? ==> Concludes(Failure(TranslateAuth(parsed.error)), [e], req))
            && (parsed.Success? ==> Concludes(FromHeaders(hop.resp.value.headers, d.text, req.visitorID), [e], req))
            && (AsksForCode(e) <==> parsed.Failure? && parsed.error.Is(Proto(TOTPRequired)))
  {
    LoginSubmits(cfg, req, otp, d);
    var hop := ClientChain(cfg.headers, d)(NoAuth, BuildLogin(cfg, req, otp, d));
    EntryConcludes(Sent(hop.seen, hop.resp, hop.err), req, d.text);
  }

  lemma EntryConcludes(e: Entry, req: LoginRequest, sentDid: NonEmptyString)
    requires req.visitorID != "" && IsLogin(e, req.username)
    requires DID in e.req.headers ==> e.req.headers[DID] == sentDid
    ensures var parsed := ParseResponse(e.resp, e.err);
            && (parsed.Failure? ==> Concludes(Failure(TranslateAuth(parsed.error)), [e], req))
            && (parsed.Success? ==> Concludes(FromHeaders(e.resp.value.headers, sentDid, req.visitorID), [e], req))
            && (AsksForCode(e) <==> parsed.Failure? && parsed.error.Is(Proto(TOTPRequired)))
  {
    AuthClassSurvives(e.resp, e.err);
    ParseMeaning(e.resp, e.err);
    if e.err.Some? { ForeignIsUntouched(e.err.value); }
  }

  /** A login: one attempt without a code and, exactly when the server asks for one and none was
      sent, a second one with it; its end is that of the last attempt. It touches nothing else. */
  ghost predicate LoginDoes(w: World, r: Ret, seg: seq<Entry>, cfg: ClientConfig, req: LoginRequest) {
    && r.w == w.(t := r.w.t, log := w.log + seg)
    && |seg| <= 2
    && (forall k :: 0 <= k < |seg| ==> Submits(seg[k], cfg, req, k == 1))
    && (|seg| == 2 ==> AsksForCode(seg[0]))
    && if |seg| == 1 && AsksForCode(seg[0]) then r.out.Failure? && r.out.error.Foreign() else Concludes(r.out, seg, req)
  }

  lemma LoginAgain(w: World, a: Attempt, b: Attempt, first: seq<Entry>, second: seq<Entry>, cfg: ClientConfig, req: LoginRequest)
    requires AttemptDoes(w, a, first, cfg, req, false) && a.again && AttemptDoes(a.w, b, second, cfg, req, true)
    ensures LoginDoes(w, Ret(b.w, b.out), first + second, cfg, req)
  {
    assert w.log + (first + second) == a.w.log + second;
    if second == [] { assert first + second == first; }
  }

  /** For every tape and any credentials. */
  lemma LoginStepFacts(w: World, cfg: ClientConfig, req: LoginRequest) returns (seg: seq<Entry>)
    requires req.visitorID != ""
    ensures LoginDoes(w, LoginStep(w, cfg, req, false), seg, cfg, req)
  {
    var a := TryLogin(w, cfg, req, false);
    seg := TryLoginFacts(w, cfg, req, false);
    if a.again {
      var rest := TryLoginFacts(a.w, cfg, req, true);
      LoginAgain(w, a, TryLogin(a.w, cfg, req, true), seg, rest, cfg, req);
      seg := seg + rest;
    }
  }
}
