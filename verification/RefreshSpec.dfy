/** The refresh run as a function of the outside world: resolving the identity, handling an
    expired one, one session with its checks, persistence and messages, and the whole run. */
module RefreshSpec {
  import opened Domain
  import opened Protocol
  import opened Store
  import opened World
  import opened Transport
  import opened BrowseSpec
  import Auth = AuthSpec

  datatype AuthConfig = AuthConfig(
    username: string,
    password: string,
    totpSecret: string,
    tokenAuth: AuthState,
    retryOnAuthFailure: bool)

  datatype Config = Config(auth: AuthConfig, login: ClientConfig, browse: ClientConfig, hasNotifier: bool)

  /** apimtauth.Config.Validate, on the fields that a run depends on. */
  predicate Validate(auth: AuthConfig, apiHost: string, timeout: int) {
    var hasPassword := auth.username != "" && auth.password != "";
    var hasPasswordPartial := auth.username != "" || auth.password != "" || auth.totpSecret != "";
    var hasToken := auth.tokenAuth.token != "" && auth.tokenAuth.did != "" && auth.tokenAuth.visitorID != "";
    var hasTokenPartial := auth.tokenAuth.token != "" || auth.tokenAuth.did != "" || auth.tokenAuth.visitorID != "";
    if apiHost == "" then false
    else if timeout <= 0 then false
    else if hasPasswordPartial && !hasPassword then false
    else if hasTokenPartial && !hasToken then false
    else hasPassword || hasToken
  }

  const IDENTITY_CHANGED: Error := Coded(RefreshIdentityChanged, Leaf(Opaque))
  const INCOMPLETE_TOKEN_AUTH: Error := Coded(ConfigInvalid, Leaf(Opaque))

  // ------------------------------------------------------ resolving an identity

  datatype Identity = Identity(state: AuthState, epoch: nat)

  datatype Resolved = Resolved(w: World, tokenMode: bool, out: Result<Identity, Error>)

  /** authClientAdapter.Login */
  function LoginAs(w: World, cfg: Config, visitorID: string): Auth.Ret {
    var r := Auth.LoginWith(w, cfg.login,
                            Auth.LoginRequest(cfg.auth.username, cfg.auth.password, cfg.auth.totpSecret, visitorID));
    match r.out
    case Success(_) => r
    case Failure(e) => Auth.Ret(r.w, Failure(MapAuthError(e)))
  }

  /** What a guarded write means to its caller: carry on, or the error to return. */
  function WriteError(w: World, outcome: Outcome): Option<Error> {
    match outcome
    case Saved => None
    case Stale => Some(IDENTITY_CHANGED)
    case Failed => Some(w.Here().disk.err)
  }

  /** A SaveAuthState or SaveAuthAccount with its two error returns. */
  function Guarded(w: World, who: Who, write: Write): (World, Option<Error>) {
    var (w1, outcome) := w.Written(who, write);
    (w1, WriteError(w, outcome))
  }

  function SaveLogin(l: Auth.Ret, who: Who, epoch: nat): Resolved {
    match l.out
    case Failure(e) => Resolved(l.w, false, Failure(e))
    case Success(state) =>
      var (w1, err) := Guarded(l.w, who, PutState(state, epoch));
      Resolved(w1, false, if err.Some? then Failure(err.value) else Success(Identity(state, epoch)))
  }

  /** authManager.loginAndSave */
  function LoginAndSave(w: World, cfg: Config, who: Who, visitorID: string, epoch: nat): Resolved {
    SaveLogin(LoginAs(w, cfg, visitorID), who, epoch)
  }

  function EnsureToken(w: World, cfg: Config, state: AuthState, epoch: nat): Resolved {
    if state.token == "" || state.did == "" then LoginAndSave(w, cfg, Resolving, state.visitorID, epoch)
    else Resolved(w, false, Success(Identity(state, epoch)))
  }

  function EnsureVisitor(w: World, cfg: Config, state: AuthState, epoch: nat): Resolved {
    if state.visitorID == "" then
      var named := state.(visitorID := w.Here().text);
      var (w1, err) := Guarded(w.Tick(), Resolving, PutState(named, epoch));
      if err.Some? then Resolved(w1, false, Failure(err.value)) else EnsureToken(w1, cfg, named, epoch)
    else EnsureToken(w, cfg, state, epoch)
  }

  function BindAccount(w: World, cfg: Config, state: AuthState, epoch: nat): Resolved {
    var (w1, err) := Guarded(w, Resolving, PutAccount(cfg.auth.username, epoch));
    if err.Some? then Resolved(w1, false, Failure(err.value)) else EnsureVisitor(w1, cfg, state, epoch)
  }

  /** A successful reset, or the coded error both callers return for a failed one. */
  function ResetIdentity(w: World, who: Who): (World, Option<Error>) {
    var (w1, outcome) := w.Written(who, Reset);
    (w1, if outcome.Failed? then Some(Coded(RefreshIdentityResetFailed, w.Here().disk.err)) else None)
  }

  /** Resolve once state, epoch and account have been read. */
  function Adopt(w: World, cfg: Config, state: AuthState, epoch: nat, account: string): Resolved {
    if account != cfg.auth.username then
      if state.Empty() then BindAccount(w, cfg, state, epoch)
      else
        var (w1, err) := ResetIdentity(w, Resolving);
        if err.Some? then Resolved(w1, false, Failure(err.value))
        else BindAccount(w1, cfg, NoAuth, w1.disk.epoch)
    else EnsureVisitor(w, cfg, state, epoch)
  }

  /** authManager.Resolve */
  function Resolve(w: World, cfg: Config): Resolved {
    if !cfg.auth.tokenAuth.Empty() then
      Resolved(w, true, if cfg.auth.tokenAuth.Complete() then Success(Identity(cfg.auth.tokenAuth, 0))
                        else Failure(INCOMPLETE_TOKEN_AUTH))
    else
      var w1 := w.Locked();
      if w.LoadFails(STATE_KEYS) then Resolved(w1, false, Failure(w.Here().disk.err))
      else
        var w2 := w1.Locked();
        if w1.LoadFails({ACCOUNT_KEY}) then Resolved(w2, false, Failure(w1.Here().disk.err))
        else Adopt(w2, cfg, w1.disk.db.State(), w1.disk.epoch, w2.disk.db.account)
  }

  // ------------------------------------------------------- an expired identity

  datatype Renewal = Renewal(state: AuthState, epoch: nat, retried: bool)

  datatype Expired = Expired(w: World, out: Result<Renewal, Error>)

  function AsRenewal(l: Resolved): Expired {
    Expired(l.w, match l.out
                 case Failure(e) => Failure(e)
                 case Success(id) => Success(Renewal(id.state, id.epoch, true)))
  }

  function NameRenewed(w: World, cfg: Config, visitorID: string, epoch: nat): Expired {
    var (w1, err) := Guarded(w, Expiring, PutState(AuthState("", "", visitorID), epoch));
    if err.Some? then Expired(w1, Failure(err.value)) else AsRenewal(LoginAndSave(w1, cfg, Expiring, visitorID, epoch))
  }

  /** The re-login part of HandleAuthExpired. */
  function Relogin(w: World, cfg: Config, epoch: nat): Expired {
    var (w1, err) := Guarded(w.Tick(), Expiring, PutAccount(cfg.auth.username, epoch));
    if err.Some? then Expired(w1, Failure(err.value)) else NameRenewed(w1, cfg, w.Here().text, epoch)
  }

  /** authManager.HandleAuthExpired: the epoch the run started with is not consulted. */
  function HandleAuthExpired(w: World, cfg: Config): Expired {
    var (w1, err) := ResetIdentity(w, Expiring);
    if err.Some? then Expired(w1, Failure(err.value))
    else if !cfg.auth.retryOnAuthFailure then Expired(w1, Success(Renewal(NoAuth, w1.disk.epoch, false)))
    else Relogin(w1, cfg, w1.disk.epoch)
  }

  // -------------------------------------------------------------- the checks

  datatype Checks = Checks(w: World, s: AuthState, err: Option<Error>)

  /** refresh.shouldPropagateForumError */
  predicate ShouldPropagate(e: Error) { e.Is(Canceled) || e.Is(DeadlineExceeded) || e.IsCode(MTAuthFailed) }

  function Mapped<T>(out: Result<T, Error>): Option<Error> {
    if out.Failure? then Some(MapBrowseError(out.error)) else None
  }

  /** How runChecks decides, given its first update and the walk that followed. */
  function Decide(u: Ret<Payload>, f: Walk): Checks {
    var forumErr := if f.err.Some? then Some(MapBrowseError(f.err.value)) else None;
    Checks(f.w, f.s,
           if forumErr.Some? && ShouldPropagate(forumErr.value) then forumErr
           else if u.out.Failure? && !f.updated then Mapped(u.out)
           else None)
  }

  function KeepAlive(w: World, s: AuthState, cfg: ClientConfig): Checks {
    var u := UpdateLastBrowse(w, s, cfg);
    Decide(u, BrowseForum(u.w, u.s, cfg))
  }

  function ChecksFromReload(w: World, s: AuthState, cfg: ClientConfig): Checks {
    var b := Warmup(w, s, cfg);
    if b.out.Failure? then Checks(b.w, b.s, Mapped(b.out)) else KeepAlive(b.w, b.s, cfg)
  }

  function ChecksFromProfile(w: World, s: AuthState, cfg: ClientConfig): Checks {
    var p := Profile(w, s, cfg);
    if p.out.Failure? then Checks(p.w, p.s, Mapped(p.out)) else ChecksFromReload(p.w, p.s, cfg)
  }

  /** runChecks */
  function RunChecks(w: World, s: AuthState, cfg: ClientConfig): Checks {
    var a := Warmup(w, s, cfg);
    if a.out.Failure? then Checks(a.w, a.s, Mapped(a.out)) else ChecksFromProfile(a.w, a.s, cfg)
  }

  // ------------------------------------------------------------------ the run

  datatype Ran = Ran(w: World, err: Option<Error>)

  function Notify(w: World, cfg: Config, kind: MessageKind): World {
    if cfg.hasNotifier then w.(notes := w.notes + [kind]) else w
  }

  predicate IsAuthFailure(err: Option<Error>) { err.Some? && err.value.IsCode(MTAuthFailed) }

  /** The message and the result of a session whose identity needed no saving any more. */
  function Report(w: World, cfg: Config, err: Option<Error>, tokenMode: bool): Ran {
    if err.None? then Ran(Notify(w, cfg, RefreshSucceeded), None)
    else if IsAuthFailure(err) then Ran(if tokenMode then Notify(w, cfg, TokenAuthExpired) else w, err)
    else Ran(Notify(w, cfg, RefreshFailed), err)
  }

  /** Persisting the rotated identity before reporting. */
  function Persist(w: World, cfg: Config, c: Checks, epoch: nat): Ran {
    var (w1, outcome) := w.Written(Snapshotting, PutState(c.s, epoch));
    match outcome
    case Failed => Ran(w1, Some(w.Here().disk.err))
    case Stale => Ran(Notify(w1, cfg, IdentityChanged), Some(IDENTITY_CHANGED))
    case Saved => Report(w1, cfg, c.err, false)
  }

  function OpenSession(w: World): World { w.(sessions := w.sessions + 1) }

  /** After the checks: save a changed identity unless authentication failed, then report. */
  function Finish(c: Checks, cfg: Config, state: AuthState, epoch: nat, tokenMode: bool): Ran {
    if !tokenMode && !IsAuthFailure(c.err) && c.s != state then Persist(c.w, cfg, c, epoch)
    else Report(c.w, cfg, c.err, tokenMode)
  }

  /** runWithSession */
  function RunWithSession(w: World, cfg: Config, state: AuthState, epoch: nat, tokenMode: bool): Ran {
    Finish(RunChecks(OpenSession(w), state, cfg.browse), cfg, state, epoch, tokenMode)
  }

  function ExpiryMessage(e: Error): MessageKind {
    if e.IsCode(RefreshIdentityResetFailed) then IdentityResetFailed
    else if e.IsCode(RefreshIdentityChanged) then IdentityChanged
    else ReloginFailed
  }

  /** The second session of a run, after a re-login. */
  function Retry(w: World, cfg: Config, renewal: Renewal): Ran {
    var r := RunWithSession(Notify(w, cfg, PasswordAuthExpiredRetry), cfg, renewal.state, renewal.epoch, false);
    if IsAuthFailure(r.err) then Ran(Notify(r.w, cfg, ReloginFailed), r.err) else r
  }

  /** handlePasswordAuthExpired */
  function HandlePasswordAuthExpired(w: World, cfg: Config, authErr: Error): Ran {
    var h := HandleAuthExpired(w, cfg);
    match h.out
    case Failure(e) => Ran(Notify(h.w, cfg, ExpiryMessage(e)), Some(e))
    case Success(renewal) =>
      if renewal.retried then Retry(h.w, cfg, renewal)
      else Ran(Notify(h.w, cfg, PasswordAuthExpiredNextRun), Some(authErr))
  }

  /** Run once its first session is over. */
  function AfterSession(s: Ran, cfg: Config, tokenMode: bool): Ran {
    if IsAuthFailure(s.err) && !tokenMode then HandlePasswordAuthExpired(s.w, cfg, s.err.value) else s
  }

  /** Run once the identity is resolved. */
  function Proceed(r: Resolved, cfg: Config): Ran {
    match r.out
    case Failure(e) => Ran(Notify(r.w, cfg, RefreshFailed), Some(e))
    case Success(id) => AfterSession(RunWithSession(r.w, cfg, id.state, id.epoch, r.tokenMode), cfg, r.tokenMode)
  }

  /** Service.Run */
  function Run(w: World, cfg: Config): Ran { Proceed(Resolve(w, cfg), cfg) }
}
