/** Tapes of answers for single runs: one that asks 148 times, and two for which the message
    about a failed re-login is wrong about the store. */
module BusiestRun {
  import opened Domain
  import opened Protocol
  import opened Store
  import opened World
  import opened Transport
  import opened BrowseSpec
  import opened RefreshSpec
  import opened RunMeaning
  import Auth = AuthSpec

  const PAYLOAD := Payload(Some(ForumsData([1], [1])), Some([Topic(1, 1, 1)]), true, true)

  function Answer(status: int, code: string): Option<Response> {
    Some(Response(status, Json(code, PAYLOAD), [Header("Authorization", "T")]))
  }

  const GOOD := Draw(None, Answer(200, "0"), None, None, None, "x", "", 0, DiskDraw(0, Fine, {}, Leaf(Opaque)))
  const DENIAL := GOOD.(resp := Answer(401, "0"))
  const CODE_WANTED := GOOD.(resp := Answer(200, "1001"))

  /** Everything goes well, except that the first login asks for a code, the very last request
      of the first session is denied, and the answers to the second login and to the very last
      request of the second session are the given ones. */
  function Tape(relogin: Draw, last: Draw): nat -> Draw {
    (t: nat) => if t == 5 then CODE_WANTED else if t == 141 then DENIAL
                else if t == 146 then relogin else if t == 282 then last else GOOD
  }

  /** What the tape holds for the first session, and for the second login after it. */
  lemma OnTape(w: World, relogin: Draw, last: Draw)
    requires w.tape == Tape(relogin, last)
    ensures w.t == 8 ==> AllGood(w, 133) && w.tape(w.t + 133) == DENIAL
    ensures w.t == 142 ==> AllGood(w, 4) && w.tape(w.t + 4) == relogin && w.tape(w.t + 5) == w.tape(w.t + 6) == GOOD
    ensures w.t == 149 ==> AllGood(w, 133) && w.tape(w.t + 133) == last
  {}

  ghost predicate AllGood(w: World, n: nat) { forall i: nat :: w.t <= i < w.t + n ==> w.tape(i) == GOOD }

  function SentCount(log: seq<Entry>): nat {
    if log == [] then 0 else SentCount(log[..|log| - 1]) + if log[|log| - 1].Sent? then 1 else 0
  }

  /** Only draws and requests were added, this many of each, and all requests were sent. */
  ghost predicate Moved(w: World, w': World, draws: nat, requests: nat) {
    && w' == w.(t := w.t + draws, log := w'.log)
    && |w'.log| == |w.log| + requests && SentCount(w'.log) == SentCount(w.log) + requests
  }

  lemma SentOne(log: seq<Entry>, e: Entry)
    requires e.Sent?
    ensures SentCount(log + [e]) == SentCount(log) + 1
  {
    assert (log + [e])[..|log|] == log;
  }

  lemma {:induction false} SentConcat(a: seq<Entry>, b: seq<Entry>)
    ensures SentCount(a + b) == SentCount(a) + SentCount(b) && SentCount(b) <= |b|
  {
    if b == [] {
      assert a + b == a;
    } else {
      assert (a + b)[..|a + b| - 1] == a + b[..|b| - 1];
      SentConcat(a, b[..|b| - 1]);
    }
  }

  lemma {:induction false} AllSent(log: seq<Entry>, i: nat)
    requires SentCount(log) == |log| && i < |log|
    ensures log[i].Sent?
  {
    SentConcat([], log[..|log| - 1]);
    assert [] + log[..|log| - 1] == log[..|log| - 1];
    if i < |log| - 1 { AllSent(log[..|log| - 1], i); }
  }

  lemma NoDidHere()
    ensures forall status, code :: Rotated("x", Answer(status, code)) == "x"
  {
    assert |Fold("Authorization")| == 13 && |Fold(DID)| == 3;
    forall status, code ensures FirstDid(Answer(status, code).value.headers) == "" {
      var headers := Answer(status, code).value.headers;
      assert headers[1..] == [];
      assert FirstDid(headers[1..]) == "";
    }
  }

  /** A request whose answer carries no device id. */
  lemma Answered(w: World, s: AuthState, cfg: ClientConfig, e: Endpoint, enc: Encoding)
    requires w.Here().ctx.None? && Rotated(s.did, w.Here().resp) == s.did
    ensures var r := Do(w, s, cfg, e, enc);
            Moved(w, r.w, 1, 1) && r.s == s && r.out == Judge(e.path, w.Here().resp, w.Here().err)
  {
    var d := w.Here();
    var hop := SessionChain(cfg.headers, d)(s, BuildRequest(cfg, e, enc, d));
    SessionChainMeaning(cfg.headers, d, s, BuildRequest(cfg, e, enc, d));
    SentOne(w.log, Sent(hop.seen, hop.resp, hop.err));
  }

  lemma Judged(path: string)
    ensures Judge(path, Answer(200, "0"), None) == Success(if path == PING then NO_PAYLOAD else PAYLOAD)
    ensures path != PING ==> Judge(path, Answer(401, "0"), None) == Failure(Wrap(Leaf(BrowseKit(AuthFailed))))
  {}

  lemma GoodRequest(w: World, s: AuthState, cfg: ClientConfig, e: Endpoint, enc: Encoding)
    requires w.Here() == GOOD && s.did == "x"
    ensures var r := Do(w, s, cfg, e, enc);
            Moved(w, r.w, 1, 1) && r.s == s && r.out == Success(if e.path == PING then NO_PAYLOAD else PAYLOAD)
  {
    NoDidHere();
    Answered(w, s, cfg, e, enc);
    Judged(e.path);
  }

  lemma DeniedRequest(w: World, s: AuthState, cfg: ClientConfig, e: Endpoint, enc: Encoding)
    requires w.Here() == DENIAL && s.did == "x" && e.path != PING
    ensures var r := Do(w, s, cfg, e, enc);
            Moved(w, r.w, 1, 1) && r.s == s && r.out == Failure(Wrap(Leaf(BrowseKit(AuthFailed))))
  {
    NoDidHere();
    Answered(w, s, cfg, e, enc);
    Judged(e.path);
  }

  lemma {:induction false} GoodWarmup(w: World, s: AuthState, cfg: ClientConfig, i: nat)
    requires i <= WARMUP_COUNT && AllGood(w, 2 * (WARMUP_COUNT - i)) && s.did == "x"
    ensures var r := WarmupFrom(w, s, cfg, i);
            Moved(w, r.w, 2 * (WARMUP_COUNT - i), WARMUP_COUNT - i) && r.s == s && r.out == Success(())
    decreases WARMUP_COUNT - i
  {
    if i < WARMUP_COUNT {
      assert w.Tick().Here() == GOOD;
      GoodRequest(w.Tick(), s, cfg, WARMUP_ENDPOINTS[i], Multipart);
      GoodWarmup(WarmupTurn(w, s, cfg, i).w, s, cfg, i + 1);
    }
  }

  lemma GoodRefresh(w: World, s: AuthState, cfg: ClientConfig)
    requires AllGood(w, 31) && s.did == "x"
    ensures var r := RefreshPage(w, s, cfg);
            Moved(w, r.w, 31, 16) && r.s == s && r.updated && r.err.None?
  {
    GoodWarmup(w, s, cfg, 0);
    GoodRequest(Warmup(w, s, cfg).w, s, cfg, Endpoint(POST, UPDATE_LAST_BROWSE, NoArgs), Multipart);
  }

  /** The last request of a session, and what its answer makes of the walk. */
  ghost predicate LastAnswer(w: World, i: nat, denied: bool) {
    w.tape(i) == if denied then DENIAL else GOOD
  }

  lemma BusyView(w: World, s: AuthState, cfg: ClientConfig, denied: bool)
    requires AllGood(w, 2) && LastAnswer(w, w.t + 2, denied) && s.did == "x"
    ensures var r := ViewTopic(w, s, cfg, 1);
            Moved(w, r.w, 3, 3) && r.s == s
            && r.out == if denied then Failure(Wrap(Wrap(Leaf(BrowseKit(AuthFailed))))) else Success(())
  {
    GoodRequest(w, s, cfg, Endpoint(POST, VIEW_HITS, TopicRef(1)), Multipart);
    var w1 := Do(w, s, cfg, Endpoint(POST, VIEW_HITS, TopicRef(1)), Multipart).w;
    GoodRequest(w1, s, cfg, Endpoint(POST, FORUMS, NoArgs), Multipart);
    var w2 := Do(w1, s, cfg, Endpoint(POST, FORUMS, NoArgs), Multipart).w;
    if denied { DeniedRequest(w2, s, cfg, Endpoint(POST, TOPIC_DETAIL, TopicRef(1)), JsonBody); }
    else { GoodRequest(w2, s, cfg, Endpoint(POST, TOPIC_DETAIL, TopicRef(1)), JsonBody); }
  }

  ghost predicate WalkEnds(w: World, s: AuthState, r: Walk, draws: nat, requests: nat, denied: bool) {
    && Moved(w, r.w, draws, requests) && r.s == s && r.updated
    && r.err == if denied then Some(Wrap(Wrap(Leaf(BrowseKit(AuthFailed))))) else None
  }

  /** A page refreshed without trouble. */
  ghost predicate Refreshed(w: World, s: AuthState, page: Walk, draws: nat, requests: nat) {
    Moved(w, page.w, draws, requests) && page.s == s && page.updated && page.err.None?
  }

  lemma BusyViewAfter(w: World, s: AuthState, cfg: ClientConfig, page: Walk, denied: bool)
    requires AllGood(w, 34) && LastAnswer(w, w.t + 34, denied) && s.did == "x"
    requires Refreshed(w, s, page, 32, 16)
    ensures WalkEnds(w, s, ViewAfter(page, cfg, 1, true), 35, 19, denied)
  {
    BusyView(page.w, s, cfg, denied);
  }

  lemma BusyTopic(w: World, s: AuthState, cfg: ClientConfig, denied: bool)
    requires AllGood(w, 34) && LastAnswer(w, w.t + 34, denied) && s.did == "x"
    ensures WalkEnds(w, s, VisitRandomTopic(w, s, cfg, [1], true), 35, 19, denied)
  {
    GoodRefresh(w.Tick(), s, cfg);
    BusyViewAfter(w, s, cfg, RefreshPage(w.Tick(), s, cfg), denied);
    assert w.tape(w.t) == GOOD;
  }

  lemma GoodLists()
    ensures Positive([1]) == [1] && Distinct([1]) == [1]
    ensures TopicIDs([Topic(1, 1, 1)]) == [1] && TopicAuthors([Topic(1, 1, 1)]) == [1] && LastPosters([Topic(1, 1, 1)]) == [1]
  {
    assert [1][..0] == [];
    assert Positive([1][..0]) == [] && Distinct([1][..0]) == [];
  }

  lemma GoodMembers(w: World, s: AuthState, cfg: ClientConfig)
    requires AllGood(w, 1) && s.did == "x"
    ensures var r := ResolveIfAny(w, s, cfg, [1]); Moved(w, r.w, 1, 1) && r.s == s && r.out == Success(())
  {
    GoodRequest(w, s, cfg, Endpoint(POST, MEMBER_BASES, Members([1])), JsonBody);
  }

  lemma GoodTopicMembers(w: World, s: AuthState, cfg: ClientConfig)
    requires AllGood(w, 2) && s.did == "x"
    ensures var r := ResolveTopicMembers(w, s, cfg, Found([1], [1], [1]));
            Moved(w, r.w, 2, 2) && r.s == s && r.out == Success(())
  {
    GoodMembers(w, s, cfg);
    GoodMembers(ResolveIfAny(w, s, cfg, [1]).w, s, cfg);
  }

  lemma BusyFound(w: World, s: AuthState, cfg: ClientConfig, denied: bool)
    requires AllGood(w, 36) && LastAnswer(w, w.t + 36, denied) && s.did == "x"
    ensures WalkEnds(w, s, VisitFound(w, s, cfg, Found([1], [1], [1]), true), 37, 21, denied)
  {
    GoodTopicMembers(w, s, cfg);
    BusyTopic(ResolveTopicMembers(w, s, cfg, Found([1], [1], [1])).w, s, cfg, denied);
  }

  lemma GoodSearch(w: World, s: AuthState, cfg: ClientConfig)
    requires AllGood(w, 1) && s.did == "x"
    ensures var r := SearchTopics(w, s, cfg, 1); Moved(w, r.w, 1, 1) && r.s == s && r.out == Success(Found([1], [1], [1]))
  {
    GoodLists();
    GoodRequest(w, s, cfg, Endpoint(POST, TOPIC_SEARCH, ForumRef(1)), JsonBody);
  }

  lemma GoodForums(w: World, s: AuthState, cfg: ClientConfig)
    requires AllGood(w, 1) && s.did == "x"
    ensures var r := VisitForums(w, s, cfg); Moved(w, r.w, 1, 1) && r.s == s && r.out == Success(Visit([1], [1]))
  {
    GoodLists();
    GoodRequest(w, s, cfg, Endpoint(POST, FORUMS, NoArgs), Multipart);
  }

  lemma GoodProfile(w: World, s: AuthState, cfg: ClientConfig)
    requires AllGood(w, 1) && s.did == "x"
    ensures var r := Profile(w, s, cfg); Moved(w, r.w, 1, 1) && r.s == s && r.out == Success(())
  {
    GoodRequest(w, s, cfg, Endpoint(POST, PROFILE, NoArgs), Multipart);
  }

  lemma BusySearchAfter(w: World, s: AuthState, cfg: ClientConfig, page: Walk, denied: bool)
    requires AllGood(w, 69) && LastAnswer(w, w.t + 69, denied) && s.did == "x"
    requires Refreshed(w, s, page, 32, 16)
    ensures WalkEnds(w, s, SearchAfter(page, cfg, 1), 70, 38, denied)
  {
    GoodSearch(page.w, s, cfg);
    BusyFound(SearchTopics(page.w, s, cfg, 1).w, s, cfg, denied);
  }

  lemma BusyForum(w: World, s: AuthState, cfg: ClientConfig, denied: bool)
    requires AllGood(w, 69) && LastAnswer(w, w.t + 69, denied) && s.did == "x"
    ensures WalkEnds(w, s, VisitRandomForum(w, s, cfg, [1]), 70, 38, denied)
  {
    GoodRefresh(w.Tick(), s, cfg);
    BusySearchAfter(w, s, cfg, RefreshPage(w.Tick(), s, cfg), denied);
    assert w.tape(w.t) == GOOD;
  }

  /** The forum list and its authors, before the walk goes into one forum. */
  lemma WalkOpens(w: World, s: AuthState, cfg: ClientConfig) returns (w2: World)
    requires AllGood(w, 2) && s.did == "x"
    ensures Moved(w, w2, 2, 2) && BrowseForum(w, s, cfg) == VisitRandomForum(w2, s, cfg, [1])
  {
    GoodForums(w, s, cfg);
    var w1 := VisitForums(w, s, cfg).w;
    GoodMembers(w1, s, cfg);
    w2 := ResolveIfAny(w1, s, cfg, [1]).w;
  }

  lemma WalkGoesOn(w: World, w2: World, s: AuthState, r: Walk, denied: bool)
    requires Moved(w, w2, 2, 2) && WalkEnds(w2, s, r, 70, 38, denied)
    ensures WalkEnds(w, s, r, 72, 40, denied)
  {}

  lemma BusyWalk(w: World, s: AuthState, cfg: ClientConfig, denied: bool)
    requires AllGood(w, 71) && LastAnswer(w, w.t + 71, denied) && s.did == "x"
    ensures WalkEnds(w, s, BrowseForum(w, s, cfg), 72, 40, denied)
  {
    var w2 := WalkOpens(w, s, cfg);
    BusyForum(w2, s, cfg, denied);
    WalkGoesOn(w, w2, s, VisitRandomForum(w2, s, cfg, [1]), denied);
  }

  /** The checks make 72 requests with 134 draws and fail exactly when the last one is denied. */
  ghost predicate ChecksEnd(w: World, s: AuthState, r: Checks, draws: nat, requests: nat, denied: bool) {
    && Moved(w, r.w, draws, requests) && r.s == s
    && (if denied then IsAuthFailure(r.err) else r.err.None?)
  }

  lemma BusyDecision(w: World, s: AuthState, u: Ret<Payload>, f: Walk, denied: bool)
    requires Moved(w, u.w, 1, 1) && u.s == s && u.out.Success? && WalkEnds(u.w, s, f, 72, 40, denied)
    ensures ChecksEnd(w, s, Decide(u, f), 73, 41, denied)
  {}

  lemma BusyKeepAlive(w: World, s: AuthState, cfg: ClientConfig, denied: bool)
    requires AllGood(w, 72) && LastAnswer(w, w.t + 72, denied) && s.did == "x"
    ensures ChecksEnd(w, s, KeepAlive(w, s, cfg), 73, 41, denied)
  {
    GoodRequest(w, s, cfg, Endpoint(POST, UPDATE_LAST_BROWSE, NoArgs), Multipart);
    var u := UpdateLastBrowse(w, s, cfg);
    BusyWalk(u.w, s, cfg, denied);
    BusyDecision(w, s, u, BrowseForum(u.w, s, cfg), denied);
  }

  lemma BusyReload(w: World, s: AuthState, cfg: ClientConfig, denied: bool)
    requires AllGood(w, 102) && LastAnswer(w, w.t + 102, denied) && s.did == "x"
    ensures ChecksEnd(w, s, ChecksFromReload(w, s, cfg), 103, 56, denied)
  {
    GoodWarmup(w, s, cfg, 0);
    BusyKeepAlive(Warmup(w, s, cfg).w, s, cfg, denied);
  }

  lemma BusyFromProfile(w: World, s: AuthState, cfg: ClientConfig, denied: bool)
    requires AllGood(w, 103) && LastAnswer(w, w.t + 103, denied) && s.did == "x"
    ensures ChecksEnd(w, s, ChecksFromProfile(w, s, cfg), 104, 57, denied)
  {
    GoodProfile(w, s, cfg);
    BusyReload(Profile(w, s, cfg).w, s, cfg, denied);
  }

  lemma BusyChecks(w: World, s: AuthState, cfg: ClientConfig, denied: bool)
    requires AllGood(w, 133) && LastAnswer(w, w.t + 133, denied) && s.did == "x"
    ensures ChecksEnd(w, s, RunChecks(w, s, cfg), 134, 72, denied)
  {
    GoodWarmup(w, s, cfg, 0);
    BusyFromProfile(Warmup(w, s, cfg).w, s, cfg, denied);
  }

  // ------------------------------------------------------------------ the run

  lemma LoginAnswered(w: World, cfg: ClientConfig, req: Auth.LoginRequest, otp: bool)
    requires var d := w.Here(); d.ctx.None? && d.totpFault.None? && d.randomFault.None? && d.text == "x"
    ensures var a := Auth.TryLogin(w, cfg, req, otp);
            var parsed := ParseResponse(w.Here().resp, w.Here().err);
            && Moved(w, a.w, 1, 1)
            && (parsed.Failure? ==> a.again == (parsed.error.Is(Proto(TOTPRequired)) && !otp) && a.out == Failure(TranslateAuth(parsed.error)))
            && (parsed.Success? ==> !a.again && a.out == Auth.FromHeaders(w.Here().resp.value.headers, "x", req.visitorID))
  {
    var d := w.Here();
    var r := Auth.BuildLogin(cfg, req, otp, d);
    var hop := ClientChain(cfg.headers, d)(NoAuth, r);
    LoginChainMeaning(cfg.headers, d, NoAuth, r);
    SentOne(w.log, Sent(hop.seen, hop.resp, hop.err));
  }

  /** A login attempt that the server answers: with the token, by asking for a code, or denied. */
  lemma Granted(w: World, cfg: ClientConfig, req: Auth.LoginRequest, otp: bool)
    requires w.Here() == GOOD
    ensures var a := Auth.TryLogin(w, cfg, req, otp);
            Moved(w, a.w, 1, 1) && !a.again && a.out == Success(AuthState("T", "x", req.visitorID))
  {
    LoginAnswered(w, cfg, req, otp);
    HeadersRead(req.visitorID);
  }

  lemma AskedForCode(w: World, cfg: ClientConfig, req: Auth.LoginRequest)
    requires w.Here() == CODE_WANTED
    ensures var a := Auth.TryLogin(w, cfg, req, false); Moved(w, a.w, 1, 1) && a.again
  {
    LoginAnswered(w, cfg, req, false);
  }

  lemma Refused(w: World, cfg: ClientConfig, req: Auth.LoginRequest)
    requires w.Here() == DENIAL
    ensures var a := Auth.TryLogin(w, cfg, req, false);
            Moved(w, a.w, 1, 1) && !a.again && a.out == Failure(Wrap(Leaf(AuthKit(AuthFailed))))
  {
    LoginAnswered(w, cfg, req, false);
  }

  lemma HeadersRead(visitorID: string)
    ensures Auth.FromHeaders([Header("Authorization", "T")], "x", visitorID) == Success(AuthState("T", "x", visitorID))
  {
    var headers := [Header("Authorization", "T")];
    assert headers[1..] == [];
    assert |"Authorization"| == 13 && |"Did"| == 3 && |"did"| == 3;
    assert Lookup(headers, "Did") == Lookup(headers[1..], "Did") == "";
    assert Lookup(headers, "did") == Lookup(headers[1..], "did") == "";
    assert !Auth.IsSpace("T"[0]);
  }

  function Credentials(cfg: Config, visitorID: string): Auth.LoginRequest {
    Auth.LoginRequest(cfg.auth.username, cfg.auth.password, cfg.auth.totpSecret, visitorID)
  }

  lemma BusyLogin(w: World, cfg: Config, visitorID: string)
    requires w.Here() == CODE_WANTED && w.tape(w.t + 1) == GOOD && visitorID != ""
    ensures var l := LoginAs(w, cfg, visitorID);
            Moved(w, l.w, 2, 2) && l.out == Success(AuthState("T", "x", visitorID))
  {
    var req := Credentials(cfg, visitorID);
    AskedForCode(w, cfg.login, req);
    Granted(Auth.TryLogin(w, cfg.login, req, false).w, cfg.login, req, true);
  }

  lemma RefusedLogin(w: World, cfg: Config, visitorID: string)
    requires w.Here() == DENIAL && visitorID != ""
    ensures var l := LoginAs(w, cfg, visitorID);
            Moved(w, l.w, 1, 1) && l.out == Failure(Coded(MTAuthFailed, Wrap(Leaf(AuthKit(AuthFailed)))))
  {
    Refused(w, cfg.login, Credentials(cfg, visitorID));
  }

  /** This many draws and requests later. */
  ghost predicate Later(w: World, w': World, draws: nat, requests: nat) {
    && w'.tape == w.tape && w'.t == w.t + draws && w'.notes == w.notes
    && |w'.log| == |w.log| + requests && SentCount(w'.log) == SentCount(w.log) + requests
  }

  lemma GoodWrite(w: World, who: Who, write: Write)
    requires w.Here() == GOOD && !write.Reset? && write.epoch == w.disk.epoch
    ensures var (w1, err) := Guarded(w, who, write);
            Later(w, w1, 1, 0) && err.None? && w1.disk == Disk(Landing(w.disk.db, write), w.disk.epoch)
  {
    assert w.Tick().Interfered(0) == w.Tick();
  }

  lemma BusyLoginAndSave(w: World, cfg: Config, who: Who, visitorID: string)
    requires w.Here() == CODE_WANTED && w.tape(w.t + 1) == GOOD && w.tape(w.t + 2) == GOOD && visitorID != ""
    ensures var r := LoginAndSave(w, cfg, who, visitorID, w.disk.epoch);
            && Later(w, r.w, 3, 2) && r.w.disk.epoch == w.disk.epoch
            && r.out == Success(Identity(AuthState("T", "x", visitorID), w.disk.epoch))
            && r.w.disk.db.State() == AuthState("T", "x", visitorID)
  {
    BusyLogin(w, cfg, visitorID);
    var l := LoginAs(w, cfg, visitorID);
    GoodWrite(l.w, who, PutState(l.out.value, w.disk.epoch));
  }

  lemma BusyBind(w: World, cfg: Config)
    requires w.Here() == GOOD && w.tape(w.t + 1) == GOOD && w.tape(w.t + 2) == GOOD
    requires w.tape(w.t + 3) == CODE_WANTED && w.tape(w.t + 4) == GOOD && w.tape(w.t + 5) == GOOD
    ensures var r := BindAccount(w, cfg, NoAuth, w.disk.epoch);
            && Later(w, r.w, 6, 2) && !r.tokenMode
            && r.out == Success(Identity(AuthState("T", "x", "x"), w.disk.epoch))
  {
    var bind := PutAccount(cfg.auth.username, w.disk.epoch);
    GoodWrite(w, Resolving, bind);
    BusyName(Guarded(w, Resolving, bind).0, cfg);
  }

  lemma BusyName(w: World, cfg: Config)
    requires w.Here() == GOOD && w.tape(w.t + 1) == GOOD
    requires w.tape(w.t + 2) == CODE_WANTED && w.tape(w.t + 3) == GOOD && w.tape(w.t + 4) == GOOD
    ensures var r := EnsureVisitor(w, cfg, NoAuth, w.disk.epoch);
            && Later(w, r.w, 5, 2) && !r.tokenMode
            && r.out == Success(Identity(AuthState("T", "x", "x"), w.disk.epoch))
  {
    var named := AuthState("", "", "x");
    GoodWrite(w.Tick(), Resolving, PutState(named, w.disk.epoch));
    BusyLoginAndSave(Guarded(w.Tick(), Resolving, PutState(named, w.disk.epoch)).0, cfg, Resolving, "x");
  }

  /** A fresh process in password mode that logs in again when it is denied. */
  ghost predicate FreshStart(w: World, cfg: Config, relogin: Draw, last: Draw) {
    && w.tape == Tape(relogin, last) && w.t == 0 && w.disk.db == EMPTY
    && cfg.auth.tokenAuth.Empty() && cfg.auth.username != "" && cfg.auth.retryOnAuthFailure
  }

  lemma BusyResolve(w: World, cfg: Config, relogin: Draw, last: Draw)
    requires FreshStart(w, cfg, relogin, last)
    ensures var r := Resolve(w, cfg);
            && Later(w, r.w, 8, 2) && !r.tokenMode
            && r.out == Success(Identity(AuthState("T", "x", "x"), w.disk.epoch))
  {
    assert GOOD.disk.bad * STATE_KEYS == {} && GOOD.disk.bad * {ACCOUNT_KEY} == {};
    var w2 := w.Locked().Locked();
    assert w.Locked() == w.Tick() && w2 == w.(t := 2);
    BusyBind(w2, cfg);
  }

  lemma BusySession(w: World, cfg: Config, state: AuthState, epoch: nat, tokenMode: bool, denied: bool)
    requires AllGood(w, 133) && LastAnswer(w, w.t + 133, denied) && state.did == "x"
    ensures var r := RunWithSession(w, cfg, state, epoch, tokenMode);
            && r.w.tape == w.tape && r.w.t == w.t + 134 && r.w.disk == w.disk
            && |r.w.log| == |w.log| + 72 && SentCount(r.w.log) == SentCount(w.log) + 72
            && (if denied then IsAuthFailure(r.err) else r.err.None?)
            && (denied && !tokenMode ==> r.w.notes == w.notes)
  {
    BusyChecks(OpenSession(w), state, cfg.browse, denied);
  }

  lemma FirstSession(w: World, cfg: Config, id: Identity) returns (s: Ran)
    requires AllGood(w, 133) && w.tape(w.t + 133) == DENIAL && id.state.did == "x"
    ensures s == RunWithSession(w, cfg, id.state, id.epoch, false)
    ensures IsAuthFailure(s.err) && Later(w, s.w, 134, 72)
  {
    BusySession(w, cfg, id.state, id.epoch, false, true);
    s := RunWithSession(w, cfg, id.state, id.epoch, false);
  }

  lemma AfterDenial(w: World, cfg: Config, s: Ran)
    requires Resolve(w, cfg).out.Success? && !Resolve(w, cfg).tokenMode
    requires var r := Resolve(w, cfg); s == RunWithSession(r.w, cfg, r.out.value.state, r.out.value.epoch, false)
    ensures Run(w, cfg) == AfterSession(s, cfg, false)
  {}

  /** The world after the first session of such a run: it was denied, after 74 requests. */
  lemma FirstDenied(w: World, cfg: Config, relogin: Draw, last: Draw) returns (s: Ran)
    requires FreshStart(w, cfg, relogin, last)
    ensures IsAuthFailure(s.err) && Run(w, cfg) == AfterSession(s, cfg, false)
    ensures Later(w, s.w, 142, 74)
  {
    BusyResolve(w, cfg, relogin, last);
    var r := Resolve(w, cfg);
    OnTape(r.w, relogin, last);
    s := FirstSession(r.w, cfg, r.out.value);
    AfterDenial(w, cfg, s);
  }

  /** The purge and the two writes before the second login. */
  lemma BusyPurge(w: World, cfg: Config) returns (z: World)
    requires AllGood(w, 4)
    requires cfg.auth.retryOnAuthFailure
    ensures HandleAuthExpired(w, cfg) == AsRenewal(LoginAndSave(z, cfg, Expiring, "x", z.disk.epoch))
    ensures Later(w, z, 4, 0) && z.disk.db.State() == AuthState("", "", "x")
  {
    assert w.Tick().Interfered(0) == w.Tick();
    var (w1, err) := ResetIdentity(w, Expiring);
    assert err.None? && Later(w, w1, 1, 0);
    var bind := PutAccount(cfg.auth.username, w1.disk.epoch);
    GoodWrite(w1.Tick(), Expiring, bind);
    var w2 := Guarded(w1.Tick(), Expiring, bind).0;
    var name := PutState(AuthState("", "", "x"), w1.disk.epoch);
    GoodWrite(w2, Expiring, name);
    z := Guarded(w2, Expiring, name).0;
  }

  lemma BusyRelogin(w: World, cfg: Config, last: Draw) returns (h: Expired)
    requires w.tape == Tape(CODE_WANTED, last) && w.t == 142 && cfg.auth.retryOnAuthFailure
    ensures h == HandleAuthExpired(w, cfg) && h.out.Success? && h.out.value.retried
    ensures h.out.value.state == AuthState("T", "x", "x") == h.w.disk.db.State()
    ensures Later(w, h.w, 7, 2)
  {
    OnTape(w, CODE_WANTED, last);
    var z := BusyPurge(w, cfg);
    h := LogsInAgain(z, cfg);
  }

  lemma LogsInAgain(z: World, cfg: Config) returns (h: Expired)
    requires z.Here() == CODE_WANTED && z.tape(z.t + 1) == GOOD && z.tape(z.t + 2) == GOOD
    ensures h == AsRenewal(LoginAndSave(z, cfg, Expiring, "x", z.disk.epoch)) && h.out.Success? && h.out.value.retried
    ensures h.out.value.state == AuthState("T", "x", "x") == h.w.disk.db.State()
    ensures Later(z, h.w, 3, 2)
  {
    BusyLoginAndSave(z, cfg, Expiring, "x");
    h := AsRenewal(LoginAndSave(z, cfg, Expiring, "x", z.disk.epoch));
  }

  /** The second session of such a run. */
  lemma SecondSession(w: World, cfg: Config, renewal: Renewal, last: Draw, denied: bool) returns (r: Ran)
    requires w.tape == Tape(CODE_WANTED, last) && w.t == 149 && renewal.state == AuthState("T", "x", "x")
    requires last == if denied then DENIAL else GOOD
    ensures r == RunWithSession(Notify(w, cfg, PasswordAuthExpiredRetry), cfg, renewal.state, renewal.epoch, false)
    ensures r.w.disk == w.disk
    ensures |r.w.log| == |w.log| + 72 && SentCount(r.w.log) == SentCount(w.log) + 72
    ensures if denied then IsAuthFailure(r.err) && r.w.notes == Notify(w, cfg, PasswordAuthExpiredRetry).notes else r.err.None?
  {
    OnTape(w, CODE_WANTED, last);
    var w0 := Notify(w, cfg, PasswordAuthExpiredRetry);
    BusySession(w0, cfg, renewal.state, renewal.epoch, false, denied);
    r := RunWithSession(w0, cfg, renewal.state, renewal.epoch, false);
  }

  lemma SentAll(log: seq<Entry>, added: seq<Entry>)
    requires SentCount(log + added) == SentCount(log) + |added|
    ensures forall i :: 0 <= i < |added| ==> added[i].Sent?
  {
    SentConcat(log, added);
    forall i | 0 <= i < |added| ensures added[i].Sent? { AllSent(added, i); }
  }

  lemma Busiest(w: World, cfg: Config)
    requires FreshStart(w, cfg, CODE_WANTED, GOOD)
    ensures var r := Run(w, cfg);
            r.err.None? && |r.w.log| == |w.log| + 148 && SentCount(r.w.log) == SentCount(w.log) + 148
  {
    var s := FirstDenied(w, cfg, CODE_WANTED, GOOD);
    var h := BusyRelogin(s.w, cfg, GOOD);
    var r := SecondSession(h.w, cfg, h.out.value, GOOD, false);
  }

  /** From a fresh store, one run that sends 148 requests and succeeds. */
  lemma BoundAttained(w: World, cfg: Config) returns (added: seq<Entry>)
    requires FreshStart(w, cfg, CODE_WANTED, GOOD)
    ensures Run(w, cfg).w.log == w.log + added && Run(w, cfg).err.None?
    ensures |added| == 148 && forall i :: 0 <= i < |added| ==> added[i].Sent?
  {
    Busiest(w, cfg);
    var st := RequestBound(w, cfg);
    added := st.Log();
    SentAll(w.log, added);
  }

  /** With a token from the configuration, a run that sends 72 requests and succeeds. */
  lemma TokenBoundAttained(w: World, cfg: Config) returns (added: seq<Entry>)
    requires AllGood(w, 134) && cfg.auth.tokenAuth.Complete() && cfg.auth.tokenAuth.did == "x"
    ensures Run(w, cfg).w.log == w.log + added && Run(w, cfg).err.None?
    ensures |added| == 72 && forall i :: 0 <= i < |added| ==> added[i].Sent?
  {
    BusySession(w, cfg, cfg.auth.tokenAuth, 0, true, false);
    var st := RequestBound(w, cfg);
    added := st.Log();
    SentAll(w.log, added);
  }

  lemma DeniedAgain(w: World, cfg: Config, err: Error)
    requires w.tape == Tape(CODE_WANTED, DENIAL) && w.t == 142 && cfg.auth.retryOnAuthFailure && cfg.hasNotifier
    ensures var r := HandlePasswordAuthExpired(w, cfg, err);
            && r.w.notes == w.notes + [PasswordAuthExpiredRetry, ReloginFailed]
            && r.w.disk.db.State() == AuthState("T", "x", "x")
  {
    var h := BusyRelogin(w, cfg, DENIAL);
    var r := SecondSession(h.w, cfg, h.out.value, DENIAL, true);
  }

  /** A second session that is denied: the message says that everything is cleared, and the
      store holds the whole new identity. */
  lemma WrongAfterSecondDenial(w: World, cfg: Config)
    requires FreshStart(w, cfg, CODE_WANTED, DENIAL) && cfg.hasNotifier
    ensures Run(w, cfg).w.notes == w.notes + [PasswordAuthExpiredRetry, ReloginFailed]
    ensures Run(w, cfg).w.disk.db.State() == AuthState("T", "x", "x")
  {
    var s := FirstDenied(w, cfg, CODE_WANTED, DENIAL);
    DeniedAgain(s.w, cfg, s.err.value);
  }

  lemma RefusedRelogin(w: World, cfg: Config, last: Draw) returns (h: Expired)
    requires w.tape == Tape(DENIAL, last) && w.t == 142 && cfg.auth.retryOnAuthFailure
    ensures h == HandleAuthExpired(w, cfg) && h.out.Failure? && ExpiryMessage(h.out.error) == ReloginFailed
    ensures h.w.notes == w.notes && h.w.disk.db.State() == AuthState("", "", "x")
  {
    OnTape(w, DENIAL, last);
    var z := BusyPurge(w, cfg);
    RefusedLogin(z, cfg, "x");
    h := AsRenewal(LoginAndSave(z, cfg, Expiring, "x", z.disk.epoch));
  }

  /** A second login that is refused: the message says that everything is cleared, and the store
      holds the new visitor id. */
  lemma WrongAfterRefusedLogin(w: World, cfg: Config)
    requires FreshStart(w, cfg, DENIAL, GOOD) && cfg.hasNotifier
    ensures Run(w, cfg).w.notes == w.notes + [ReloginFailed]
    ensures Run(w, cfg).w.disk.db.State() == AuthState("", "", "x")
  {
    var s := FirstDenied(w, cfg, DENIAL, GOOD);
    var h := RefusedRelogin(s.w, cfg, GOOD);
  }
}
