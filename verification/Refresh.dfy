/** The auth manager and the refresh service in the form the program has them, proved to be
    the functions of RefreshSpec for every tape of answers. */
module Refresh {
  import opened Domain
  import opened Protocol
  import opened World
  import opened Transport
  import opened RefreshSpec
  import Spec = RefreshSpec
  import Auth = AuthSpec
  import Browse

  class AuthManager {
    const cfg: Config
    const client: Auth.Client
    const process: Process

    constructor (cfg: Config, client: Auth.Client, process: Process)
      requires client.process == process && client.cfg == cfg.login
      ensures this.cfg == cfg && this.client == client && this.process == process
    {
      this.cfg, this.client, this.process := cfg, client, process;
    }

    ghost predicate Wired()
    {
      client.process == process && client.cfg == cfg.login
    }

    method Resolve() returns (id: Identity, tokenMode: bool, err: Option<Error>)
      requires Wired()
      modifies process, process.store
      ensures Resolved(process.View(), tokenMode, if err.Some? then Failure(err.value) else Success(id))
           == Spec.Resolve(old(process.View()), cfg)
    {
      id := Identity(NoAuth, 0);
      if !cfg.auth.tokenAuth.Empty() {
        if !cfg.auth.tokenAuth.Complete() { return id, true, Some(INCOMPLETE_TOKEN_AUTH); }
        return Identity(cfg.auth.tokenAuth, 0), true, None;
      }
      tokenMode := false;
      var state, epoch, loadErr := process.LoadAuthState();
      if loadErr.Some? { return id, false, loadErr; }
      var account, accountErr := process.LoadAuthAccount();
      if accountErr.Some? { return id, false, accountErr; }
      id, err := Adopt(state, epoch, account);
    }

    /** The rest of Resolve: rebind, complete and if necessary log in. */
    method Adopt(loaded: AuthState, at: nat, account: string) returns (id: Identity, err: Option<Error>)
      requires Wired()
      modifies process, process.store
      ensures Resolved(process.View(), false, if err.Some? then Failure(err.value) else Success(id))
           == Spec.Adopt(old(process.View()), cfg, loaded, at, account)
    {
      var state, epoch := loaded, at;
      id := Identity(NoAuth, 0);
      if account != cfg.auth.username && !state.Empty() {
        var resetErr;
        epoch, resetErr := process.ResetAuthState(Resolving);
        if resetErr.Some? { return id, Some(Coded(RefreshIdentityResetFailed, resetErr.value)); }
        state := NoAuth;
      }
      if account != cfg.auth.username {
        var saved, saveErr := process.SaveAuthAccount(Resolving, cfg.auth.username, epoch);
        if saveErr.Some? { return id, saveErr; }
        if !saved { return id, Some(IDENTITY_CHANGED); }
      }
      id, err := Complete(state, epoch);
    }

    /** The visitor id and the token that a usable identity needs. */
    method Complete(loaded: AuthState, epoch: nat) returns (id: Identity, err: Option<Error>)
      requires Wired()
      modifies process, process.store
      ensures Resolved(process.View(), false, if err.Some? then Failure(err.value) else Success(id))
           == EnsureVisitor(old(process.View()), cfg, loaded, epoch)
    {
      var state := loaded;
      id := Identity(NoAuth, 0);
      if state.visitorID == "" {
        var visitorID := client.GenerateVisitorID();
        state := state.(visitorID := visitorID);
        var saved, saveErr := process.SaveAuthState(Resolving, state, epoch);
        if saveErr.Some? { return id, saveErr; }
        if !saved { return id, Some(IDENTITY_CHANGED); }
      }
      if state.token == "" || state.did == "" {
        state, err := LoginAndSave(Resolving, state.visitorID, epoch);
        if err.Some? { return; }
      }
      return Identity(state, epoch), None;
    }

    method LoginAndSave(who: Who, visitorID: string, epoch: nat) returns (state: AuthState, err: Option<Error>)
      requires Wired()
      modifies process, process.store
      ensures Resolved(process.View(), false, if err.Some? then Failure(err.value) else Success(Identity(state, epoch)))
           == Spec.LoginAndSave(old(process.View()), cfg, who, visitorID, epoch)
    {
      var l := client.Login(Auth.LoginRequest(cfg.auth.username, cfg.auth.password, cfg.auth.totpSecret, visitorID));
      if l.Failure? { return NoAuth, Some(MapAuthError(l.error)); }
      state := l.value;
      var saved, saveErr := process.SaveAuthState(who, state, epoch);
      if saveErr.Some? { return NoAuth, saveErr; }
      if !saved { return NoAuth, Some(IDENTITY_CHANGED); }
      err := None;
    }

    /** The epoch of the expired session is passed in and not used. */
    method HandleAuthExpired(epoch: nat) returns (renewal: Renewal, err: Option<Error>)
      requires Wired()
      modifies process, process.store
      ensures Expired(process.View(), if err.Some? then Failure(err.value) else Success(renewal))
           == Spec.HandleAuthExpired(old(process.View()), cfg)
    {
      renewal := Renewal(NoAuth, 0, false);
      var newEpoch, resetErr := process.ResetAuthState(Expiring);
      if resetErr.Some? { return renewal, Some(Coded(RefreshIdentityResetFailed, resetErr.value)); }
      if !cfg.auth.retryOnAuthFailure { return Renewal(NoAuth, newEpoch, false), None; }
      var visitorID := client.GenerateVisitorID();
      var saved, saveErr := process.SaveAuthAccount(Expiring, cfg.auth.username, newEpoch);
      if saveErr.Some? { return renewal, saveErr; }
      if !saved { return renewal, Some(IDENTITY_CHANGED); }
      saved, saveErr := process.SaveAuthState(Expiring, AuthState("", "", visitorID), newEpoch);
      if saveErr.Some? { return renewal, saveErr; }
      if !saved { return renewal, Some(IDENTITY_CHANGED); }
      var state;
      state, err := LoginAndSave(Expiring, visitorID, newEpoch);
      if err.None? { renewal := Renewal(state, newEpoch, true); }
    }
  }

  /** runChecks over a session. */
  method CheckSession(session: Browse.Session) returns (err: Option<Error>)
    modifies session.process`t, session.process`log, session.identity
    ensures Checks(session.process.View(), session.identity.state, err)
         == Spec.RunChecks(old(session.process.View()), old(session.identity.state), session.cfg)
  {
    var a := session.Warmup();
    if a.Failure? { return Some(MapBrowseError(a.error)); }
    var p := session.Profile();
    if p.Failure? { return Some(MapBrowseError(p.error)); }
    var b := session.Warmup();
    if b.Failure? { return Some(MapBrowseError(b.error)); }
    var u := session.UpdateLastBrowse();
    var forumUpdated, e := session.BrowseForum();
    var forumErr := if e.Some? then Some(MapBrowseError(e.value)) else None;
    if forumErr.Some? && ShouldPropagate(forumErr.value) { return forumErr; }
    if u.Failure? && !forumUpdated { return Some(MapBrowseError(u.error)); }
    err := None;
  }

  class Service {
    const cfg: Config
    const auth: AuthManager
    const process: Process

    constructor (cfg: Config, auth: AuthManager, process: Process)
      requires auth.Wired() && auth.cfg == cfg && auth.process == process
      ensures Wired() && this.cfg == cfg && this.auth == auth && this.process == process
    {
      this.cfg, this.auth, this.process := cfg, auth, process;
    }

    ghost predicate Wired()
    {
      auth.Wired() && auth.cfg == cfg && auth.process == process
    }

    method Notify(kind: MessageKind)
      modifies process`notes
      ensures process.View() == Spec.Notify(old(process.View()), cfg, kind)
    {
      if !cfg.hasNotifier { return; }
      process.notes := process.notes + [kind];
    }

    method RunWithSession(state: AuthState, epoch: nat, tokenMode: bool) returns (err: Option<Error>)
      modifies process, process.store
      ensures Ran(process.View(), err) == Spec.RunWithSession(old(process.View()), cfg, state, epoch, tokenMode)
    {
      process.sessions := process.sessions + 1;
      var identity := new State(state);
      var session := new Browse.Session(cfg.browse, process, identity);
      assert process.View() == OpenSession(old(process.View()));
      err := CheckSession(session);
      var snapshot := session.Snapshot();
      if !tokenMode && !IsAuthFailure(err) && snapshot != state {
        var saved, saveErr := process.SaveAuthState(Snapshotting, snapshot, epoch);
        if saveErr.Some? { return saveErr; }
        if !saved {
          Notify(IdentityChanged);
          return Some(IDENTITY_CHANGED);
        }
      }
      if err.Some? {
        if IsAuthFailure(err) && tokenMode {
          Notify(TokenAuthExpired);
          return;
        }
        if IsAuthFailure(err) { return; }
        Notify(RefreshFailed);
        return;
      }
      Notify(RefreshSucceeded);
    }

    method HandlePasswordAuthExpired(epoch: nat, authErr: Error) returns (err: Option<Error>)
      requires Wired()
      modifies process, process.store
      ensures Ran(process.View(), err) == Spec.HandlePasswordAuthExpired(old(process.View()), cfg, authErr)
    {
      var renewal, resetErr := auth.HandleAuthExpired(epoch);
      if resetErr.Some? {
        if resetErr.value.IsCode(RefreshIdentityResetFailed) { Notify(IdentityResetFailed); }
        else if resetErr.value.IsCode(RefreshIdentityChanged) { Notify(IdentityChanged); }
        else { Notify(ReloginFailed); }
        return resetErr;
      }
      if renewal.retried {
        Notify(PasswordAuthExpiredRetry);
        err := RunWithSession(renewal.state, renewal.epoch, false);
        if IsAuthFailure(err) { Notify(ReloginFailed); }
        return;
      }
      Notify(PasswordAuthExpiredNextRun);
      err := Some(authErr);
    }

    method Run() returns (err: Option<Error>)
      requires Wired()
      modifies process, process.store
      ensures Ran(process.View(), err) == Spec.Run(old(process.View()), cfg)
    {
      var id, tokenMode, resolveErr := auth.Resolve();
      if resolveErr.Some? {
        Notify(RefreshFailed);
        return resolveErr;
      }
      err := RunWithSession(id.state, id.epoch, tokenMode);
      if err.None? { return; }
      if tokenMode { return; }
      if IsAuthFailure(err) {
        err := HandlePasswordAuthExpired(id.epoch, err.value);
      }
    }
  }
}
