/** Account binding: whatever the server, the disk and other clients do, and wherever a process
    dies, a token stored under an account was issued by a login of that account. */
module Binding {
  import opened Domain
  import opened Protocol
  import opened Store
  import opened World
  import opened Transport
  import opened RefreshSpec
  import Auth = AuthSpec
  import opened SessionTrace
  import opened RunTrace

  // -------------------------------------------------------------- invariants

  /** A token under a non-empty account was issued by a login of that account. */
  ghost predicate Bound(db: Db, log: seq<Entry>) {
    db.account != "" && db.token != "" ==> Auth.IssuedIn(log, db.token, db.account)
  }

  /** Bound now, and right after every critical section so far: the states a crash can leave. */
  ghost predicate Safe(w: World) {
    && Bound(w.disk.db, w.log)
    && (forall ev :: ev in w.events ==> ev.sent <= |w.log| && Bound(ev.disk.db, w.log[..ev.sent]))
    && (forall i, j :: 0 <= i < j < |w.events| ==> w.events[i].sent <= w.events[j].sent)
  }

  /** This identity's token, if any, was issued for the user. */
  ghost predicate Mine(log: seq<Entry>, state: AuthState, user: string) {
    state.token == "" || Auth.IssuedIn(log, state.token, user)
  }

  /** As long as the epoch stands, the store holds exactly this identity for this user. */
  ghost predicate Holds(w: World, state: AuthState, user: string, epoch: nat) {
    && epoch <= w.disk.epoch
    && (w.disk.epoch == epoch ==> w.disk.db.State() == state && w.disk.db.account == user)
  }

  /** Only the trace grew. */
  ghost predicate Talked(w: World, w': World, seg: seq<Entry>) {
    w'.log == w.log + seg && w'.disk == w.disk && w'.events == w.events
  }

  lemma IssuedGrows(log: seq<Entry>, seg: seq<Entry>, token: string, user: string)
    requires Auth.IssuedIn(log, token, user)
    ensures Auth.IssuedIn(log + seg, token, user)
  {
    var e :| e in log && Auth.Issues(e, token, user);
    assert e in log + seg;
  }

  lemma TalkKeepsSafe(w: World, w': World, seg: seq<Entry>)
    requires Safe(w) && Talked(w, w', seg)
    ensures Safe(w')
  {
    if w.disk.db.account != "" && w.disk.db.token != "" {
      IssuedGrows(w.log, seg, w.disk.db.token, w.disk.db.account);
    }
    forall ev | ev in w'.events ensures ev.sent <= |w'.log| && Bound(ev.disk.db, w'.log[..ev.sent]) {
      assert w'.log[..ev.sent] == w.log[..ev.sent];
    }
  }

  // --------------------------------------------------------- store operations

  /** A critical section that leaves a bound database behind keeps everything safe. */
  lemma CommitKeepsSafe(w: World, who: Who, write: Write, fate: Fate)
    requires Safe(w)
    requires Current(write, w.disk.epoch) ==> Bound(Landing(w.disk.db, write), w.log)
    ensures var (w1, _) := w.Commit(who, write, fate);
            Safe(w1) && w1.log == w.log && w.disk.epoch <= w1.disk.epoch
  {
    var (w1, outcome) := w.Commit(who, write, fate);
    assert w1.log[..|w.log|] == w.log;
  }

  /** Other clients' resets: the epoch tells whether there were any, and if so the store is empty. */
  lemma {:induction false} InterferedKeeps(w: World, n: nat)
    requires Safe(w)
    ensures var w1 := w.Interfered(n);
            && Safe(w1) && w1.log == w.log && w1.tape == w.tape && w1.t == w.t
            && w1.disk.epoch == w.disk.epoch + n
            && w1.disk.db == if n == 0 then w.disk.db else EMPTY
  {
    if n > 0 {
      InterferedKeeps(w, n - 1);
      CommitKeepsSafe(w.Interfered(n - 1), Elsewhere, Reset, Fine);
    }
  }

  lemma LockedKeeps(w: World)
    requires Safe(w)
    ensures var w1 := w.Locked();
            && Safe(w1) && w1.log == w.log && w.disk.epoch <= w1.disk.epoch
            && w1.disk.db == if w1.disk.epoch == w.disk.epoch then w.disk.db else EMPTY
  {
    InterferedKeeps(w.Tick(), w.Here().disk.resets);
  }

  /** Saving an identity of the user at an epoch that still stands for the user. */
  lemma PutStateKeeps(w: World, who: Who, state: AuthState, before: AuthState, user: string, epoch: nat)
    requires Safe(w) && Holds(w, before, user, epoch) && Mine(w.log, state, user)
    ensures var (w1, outcome) := w.Written(who, PutState(state, epoch));
            && Safe(w1) && w1.log == w.log
            && (outcome == Saved ==> Holds(w1, state, user, epoch))
  {
    LockedKeeps(w);
    CommitKeepsSafe(w.Locked(), who, PutState(state, epoch), w.Here().disk.fate);
  }

  /** Binding the user at an epoch at which the store holds no identity. */
  lemma PutAccountKeeps(w: World, who: Who, user: string, epoch: nat)
    requires Safe(w) && epoch <= w.disk.epoch
    requires w.disk.epoch == epoch ==> w.disk.db.State() == NoAuth
    ensures var (w1, outcome) := w.Written(who, PutAccount(user, epoch));
            && Safe(w1) && w1.log == w.log
            && (outcome == Saved ==> Holds(w1, NoAuth, user, epoch))
  {
    LockedKeeps(w);
    CommitKeepsSafe(w.Locked(), who, PutAccount(user, epoch), w.Here().disk.fate);
  }

  lemma ResetKeeps(w: World, who: Who)
    requires Safe(w)
    ensures var (w1, outcome) := w.Written(who, Reset);
            && Safe(w1) && w1.log == w.log
            && (outcome == Saved ==> w1.disk.db == EMPTY && w.disk.epoch < w1.disk.epoch)
            && outcome != Stale
  {
    LockedKeeps(w);
    CommitKeepsSafe(w.Locked(), who, Reset, w.Here().disk.fate);
  }

  // -------------------------------------------------------- resolving, safely

  /** What a password-mode resolution guarantees. */
  ghost predicate Adopted(w: World, cfg: Config, r: Resolved) {
    && Safe(r.w)
    && !r.tokenMode
    && |w.log| <= |r.w.log|
    && (r.out.Success? ==>
          var id := r.out.value;
          && id.state.Complete()
          && Auth.IssuedIn(r.w.log, id.state.token, cfg.auth.username)
          && Holds(r.w, id.state, cfg.auth.username, id.epoch))
  }

  function Credentials(cfg: Config, visitorID: string): Auth.LoginRequest {
    Auth.LoginRequest(cfg.auth.username, cfg.auth.password, cfg.auth.totpSecret, visitorID)
  }

  /** Login attempts with the configured credentials under this visitor id, the second with a code. */
  ghost predicate LogsIn(seg: seq<Entry>, cfg: Config, visitorID: string) {
    && |seg| <= 2
    && (forall k :: 0 <= k < |seg| ==> Auth.Submits(seg[k], cfg.login, Credentials(cfg, visitorID), k == 1))
    && (|seg| == 2 ==> Auth.AsksForCode(seg[0]))
  }

  lemma LoginFacts(w: World, cfg: Config, visitorID: string) returns (seg: seq<Entry>)
    requires visitorID != ""
    ensures var l := LoginAs(w, cfg, visitorID);
            && l.w == w.(t := l.w.t, log := w.log + seg)
            && LogsIn(seg, cfg, visitorID)
            && (forall e :: e in seg ==> e.Refused? || Auth.IsLogin(e, cfg.auth.username))
            && (l.out.Success? ==>
                  && l.out.value.Complete() && l.out.value.visitorID == visitorID
                  && Auth.IssuedIn(seg, l.out.value.token, cfg.auth.username)
                  && Auth.IssuedIn(l.w.log, l.out.value.token, cfg.auth.username))
            && (l.out.Failure? ==> ExpiryMessage(l.out.error) == ReloginFailed && !l.out.error.IsCode(RefreshIdentityChanged))
  {
    var req := Credentials(cfg, visitorID);
    seg := Auth.LoginStepFacts(w, cfg.login, req);
    var l := LoginAs(w, cfg, visitorID);
    if l.out.Success? {
      assert seg[|seg| - 1] in w.log + seg;
    } else {
      LoginErrorCodes(Auth.LoginStep(w, cfg.login, req, false), seg, w, cfg.login, req);
    }
  }

  /** A failed login has none of the codes of the store. */
  lemma LoginErrorCodes(r: Auth.Ret, seg: seq<Entry>, w: World, cfg: ClientConfig, req: Auth.LoginRequest)
    requires Auth.LoginDoes(w, r, seg, cfg, req) && r.out.Failure?
    ensures var e := MapAuthError(r.out.error); !e.IsCode(RefreshIdentityChanged) && !e.IsCode(RefreshIdentityResetFailed)
  {
    if r.out.error.Foreign() { ForeignIsUntouched(r.out.error); }
  }

  lemma LoginAndSaveKeeps(w: World, cfg: Config, who: Who, state: AuthState, epoch: nat)
    requires Safe(w) && Holds(w, state, cfg.auth.username, epoch) && state.visitorID != ""
    ensures Adopted(w, cfg, LoginAndSave(w, cfg, who, state.visitorID, epoch))
    ensures var r := LoginAndSave(w, cfg, who, state.visitorID, epoch); r.out.Success? ==> r.out.value.epoch == epoch
  {
    var l := LoginAs(w, cfg, state.visitorID);
    var seg := LoginFacts(w, cfg, state.visitorID);
    TalkKeepsSafe(w, l.w, seg);
    if l.out.Success? {
      PutStateKeeps(l.w, who, l.out.value, state, cfg.auth.username, epoch);
    }
  }

  lemma EnsureVisitorKeeps(w: World, cfg: Config, state: AuthState, epoch: nat)
    requires Safe(w) && Holds(w, state, cfg.auth.username, epoch) && Mine(w.log, state, cfg.auth.username)
    ensures Adopted(w, cfg, EnsureVisitor(w, cfg, state, epoch))
  {
    var named, w1 := state, w;
    if state.visitorID == "" {
      named := state.(visitorID := w.Here().text);
      PutStateKeeps(w.Tick(), Resolving, named, state, cfg.auth.username, epoch);
      w1 := Guarded(w.Tick(), Resolving, PutState(named, epoch)).0;
    }
    if Holds(w1, named, cfg.auth.username, epoch) && (named.token == "" || named.did == "") {
      LoginAndSaveKeeps(w1, cfg, Resolving, named, epoch);
    }
  }

  lemma BindAccountKeeps(w: World, cfg: Config, epoch: nat)
    requires Safe(w) && epoch <= w.disk.epoch
    requires w.disk.epoch == epoch ==> w.disk.db.State() == NoAuth
    ensures Adopted(w, cfg, BindAccount(w, cfg, NoAuth, epoch))
  {
    PutAccountKeeps(w, Resolving, cfg.auth.username, epoch);
    var (w1, err) := Guarded(w, Resolving, PutAccount(cfg.auth.username, epoch));
    if err.None? { EnsureVisitorKeeps(w1, cfg, NoAuth, epoch); }
  }

  /** Resolve in password mode, for every tape: the store stays safe at every step, and a
      success is a complete identity whose token a login of the configured user obtained,
      which the store holds under that user as long as the returned epoch stands. */
  lemma ResolveMeaning(w: World, cfg: Config)
    requires Safe(w)
    requires cfg.auth.tokenAuth.Empty() && cfg.auth.username != ""
    ensures Adopted(w, cfg, Resolve(w, cfg))
  {
    var w1 := w.Locked();
    var w2 := w1.Locked();
    LockedKeeps(w);
    LockedKeeps(w1);
    var state, epoch := w1.disk.db.State(), w1.disk.epoch;
    if !w.LoadFails(STATE_KEYS) && !w1.LoadFails({ACCOUNT_KEY}) {
      if w2.disk.db.account == cfg.auth.username {
        EnsureVisitorKeeps(w2, cfg, state, epoch);
      } else if state.Empty() {
        BindAccountKeeps(w2, cfg, epoch);
      } else {
        ResetKeeps(w2, Resolving);
        var (w3, err) := ResetIdentity(w2, Resolving);
        if err.None? { BindAccountKeeps(w3, cfg, w3.disk.epoch); }
      }
    }
  }

  lemma EnsureVisitorCompletes(w: World, cfg: Config, state: AuthState, epoch: nat)
    ensures var r := EnsureVisitor(w, cfg, state, epoch); r.out.Success? ==> r.out.value.state.Complete()
  {
    var named, w1 := state, w;
    if state.visitorID == "" {
      named := state.(visitorID := w.Here().text);
      w1 := Guarded(w.Tick(), Resolving, PutState(named, epoch)).0;
    }
    var seg := LoginFacts(w1, cfg, named.visitorID);
  }

  lemma AdoptCompletes(w: World, cfg: Config, state: AuthState, epoch: nat, account: string)
    ensures var r := Adopt(w, cfg, state, epoch, account); r.out.Success? ==> r.out.value.state.Complete()
  {
    var bind := PutAccount(cfg.auth.username, epoch);
    if account == cfg.auth.username {
      EnsureVisitorCompletes(w, cfg, state, epoch);
    } else if state.Empty() {
      EnsureVisitorCompletes(Guarded(w, Resolving, bind).0, cfg, state, epoch);
    } else {
      var w1 := ResetIdentity(w, Resolving).0;
      EnsureVisitorCompletes(Guarded(w1, Resolving, PutAccount(cfg.auth.username, w1.disk.epoch)).0, cfg, NoAuth, w1.disk.epoch);
    }
  }

  /** Whatever the configuration, the store and the server: an identity that Resolve returns
      without an error has all of its three parts. */
  lemma ResolvedIsComplete(w: World, cfg: Config)
    ensures Resolve(w, cfg).out.Success? ==> Resolve(w, cfg).out.value.state.Complete()
  {
    var w1 := w.Locked();
    var w2 := w1.Locked();
    AdoptCompletes(w2, cfg, w1.disk.db.State(), w1.disk.epoch, w2.disk.db.account);
  }

  /** All of these texts are given, or none of them. */
  predicate HasAll(parts: seq<string>) { forall i :: 0 <= i < |parts| ==> parts[i] != "" }
  predicate HasNone(parts: seq<string>) { forall i :: 0 <= i < |parts| ==> parts[i] == "" }

  /** What validation accepts: a host, a positive timeout, and at least one way to authenticate,
      each given in full or not at all; the code secret is optional, but only beside a password. */
  lemma ValidatedIff(auth: AuthConfig, apiHost: string, timeout: int)
    ensures var token := [auth.tokenAuth.token, auth.tokenAuth.did, auth.tokenAuth.visitorID];
            var login := [auth.username, auth.password];
            Validate(auth, apiHost, timeout) <==>
              && apiHost != "" && timeout > 0
              && (HasAll(token) || HasAll(login))
              && (HasAll(token) || HasNone(token))
              && (HasAll(login) || HasNone(login + [auth.totpSecret]))
  {
    var token := [auth.tokenAuth.token, auth.tokenAuth.did, auth.tokenAuth.visitorID];
    var login := [auth.username, auth.password];
    assert token[0] == auth.tokenAuth.token && token[1] == auth.tokenAuth.did && token[2] == auth.tokenAuth.visitorID;
    assert login[0] == auth.username && login[1] == auth.password;
    var all := login + [auth.totpSecret];
    assert all[0] == auth.username && all[1] == auth.password && all[2] == auth.totpSecret;
  }

  /** With a configuration that passed validation a run never meets the invalid-configuration
      branch, and password mode has a user to bind to. */
  lemma ValidatedConfig(w: World, cfg: Config, apiHost: string, timeout: int)
    requires Validate(cfg.auth, apiHost, timeout)
    ensures cfg.auth.tokenAuth.Empty() ==> cfg.auth.username != "" && cfg.auth.password != ""
    ensures !cfg.auth.tokenAuth.Empty() ==>
              Resolve(w, cfg) == Resolved(w, true, Success(Identity(cfg.auth.tokenAuth, 0))) && cfg.auth.tokenAuth.Complete()
  {}

  // ------------------------------------------------------------ the whole run

  lemma SessionKeeps(w: World, cfg: Config, state: AuthState, epoch: nat, tokenMode: bool)
    requires Safe(w)
    requires tokenMode || (Holds(w, state, cfg.auth.username, epoch) && Mine(w.log, state, cfg.auth.username))
    ensures Safe(RunWithSession(w, cfg, state, epoch, tokenMode).w)
  {
    var w0 := OpenSession(w);
    var seg := RunChecksMeaning(w0, state, cfg.browse);
    ReplayMeaning(state, seg);
    SavingKeeps(w, cfg, state, epoch, tokenMode, RunChecks(w0, state, cfg.browse), seg);
  }

  /** Whatever the checks came to: the session changed nothing of the identity but its device
      id, so saving and reporting are safe. */
  lemma SavingKeeps(w: World, cfg: Config, state: AuthState, epoch: nat, tokenMode: bool, c: Checks, seg: seq<Entry>)
    requires Safe(w) && Talked(w, c.w, seg)
    requires tokenMode || (Holds(w, state, cfg.auth.username, epoch) && Mine(w.log, state, cfg.auth.username))
    requires c.s == state.(did := c.s.did)
    ensures Safe(Finish(c, cfg, state, epoch, tokenMode).w)
  {
    TalkKeepsSafe(w, c.w, seg);
    if !tokenMode && !IsAuthFailure(c.err) && c.s != state {
      if state.token != "" { IssuedGrows(w.log, seg, state.token, cfg.auth.username); }
      PersistKeeps(c.w, cfg, c, state, epoch);
    } else {
      ReportKeeps(c.w, cfg, c.err, tokenMode);
    }
  }

  lemma ReportKeeps(w: World, cfg: Config, err: Option<Error>, tokenMode: bool)
    requires Safe(w)
    ensures Safe(Report(w, cfg, err, tokenMode).w)
  {}

  lemma PersistKeeps(w: World, cfg: Config, c: Checks, before: AuthState, epoch: nat)
    requires Safe(w) && Holds(w, before, cfg.auth.username, epoch) && Mine(w.log, c.s, cfg.auth.username)
    ensures Safe(Persist(w, cfg, c, epoch).w)
  {
    PutStateKeeps(w, Snapshotting, c.s, before, cfg.auth.username, epoch);
    ReportKeeps(w.Written(Snapshotting, PutState(c.s, epoch)).0, cfg, c.err, false);
  }

  lemma ReloginKeeps(w: World, cfg: Config, epoch: nat)
    requires Safe(w) && epoch <= w.disk.epoch
    requires w.disk.epoch == epoch ==> w.disk.db.State() == NoAuth
    ensures var h := Relogin(w, cfg, epoch);
            && Safe(h.w)
            && (h.out.Success? ==> Mine(h.w.log, h.out.value.state, cfg.auth.username)
                                   && Holds(h.w, h.out.value.state, cfg.auth.username, h.out.value.epoch))
  {
    var named := AuthState("", "", w.Here().text);
    PutAccountKeeps(w.Tick(), Expiring, cfg.auth.username, epoch);
    var (w1, e1) := Guarded(w.Tick(), Expiring, PutAccount(cfg.auth.username, epoch));
    if e1.None? {
      PutStateKeeps(w1, Expiring, named, NoAuth, cfg.auth.username, epoch);
      var (w2, e2) := Guarded(w1, Expiring, PutState(named, epoch));
      if e2.None? { LoginAndSaveKeeps(w2, cfg, Expiring, named, epoch); }
    }
  }

  lemma RenewalKeeps(w: World, cfg: Config)
    requires Safe(w)
    ensures var h := HandleAuthExpired(w, cfg);
            && Safe(h.w)
            && (h.out.Success? && h.out.value.retried ==>
                  Mine(h.w.log, h.out.value.state, cfg.auth.username)
                  && Holds(h.w, h.out.value.state, cfg.auth.username, h.out.value.epoch))
  {
    ResetKeeps(w, Expiring);
    var (w1, err) := ResetIdentity(w, Expiring);
    if err.None? && cfg.auth.retryOnAuthFailure { ReloginKeeps(w1, cfg, w1.disk.epoch); }
  }

  lemma ExpiredKeeps(w: World, cfg: Config, authErr: Error)
    requires Safe(w)
    ensures Safe(HandlePasswordAuthExpired(w, cfg, authErr).w)
  {
    var h := HandleAuthExpired(w, cfg);
    RenewalKeeps(w, cfg);
    if h.out.Success? && h.out.value.retried {
      SessionKeeps(Notify(h.w, cfg, PasswordAuthExpiredRetry), cfg, h.out.value.state, h.out.value.epoch, false);
    }
  }

  lemma RunKeeps(w: World, cfg: Config)
    requires Safe(w)
    requires cfg.auth.tokenAuth.Empty() ==> cfg.auth.username != ""
    ensures Safe(Run(w, cfg).w)
  {
    var r := Resolve(w, cfg);
    if cfg.auth.tokenAuth.Empty() { ResolveMeaning(w, cfg); }
    if r.out.Success? {
      var id := r.out.value;
      SessionKeeps(r.w, cfg, id.state, id.epoch, r.tokenMode);
      var s := RunWithSession(r.w, cfg, id.state, id.epoch, r.tokenMode);
      if IsAuthFailure(s.err) && !r.tokenMode { ExpiredKeeps(s.w, cfg, s.err.value); }
    }
  }

  // ------------------------------------------- many lifetimes, with crashes

  /** One process: its configuration, its tape, how many runs it completes, and whether it
      dies right after one of its critical sections (counted from its start) instead. */
  datatype Life = Life(cfg: Config, apiHost: string, timeout: int, tape: nat -> Draw, runs: nat, crash: Option<nat>)

  predicate Legitimate(l: Life) { Validate(l.cfg.auth, l.apiHost, l.timeout) }

  /** A new process opens the same database: the epoch starts again at 0. */
  function Start(w: World, l: Life): World {
    World(l.tape, 0, w.log, Disk(w.disk.db, 0), w.events, [], 0)
  }

  function Runs(w: World, cfg: Config, n: nat): World {
    if n == 0 then w else Run(Runs(w, cfg, n - 1), cfg).w
  }

  /** The world as the k-th critical section since the start left it, if there were that many. */
  function Crash(start: World, w: World, crash: Option<nat>): World {
    if crash.Some? && |start.events| + crash.value < |w.events| then
      var ev := w.events[|start.events| + crash.value];
      if ev.sent <= |w.log| then
        w.(disk := ev.disk, log := w.log[..ev.sent], events := w.events[..|start.events| + crash.value + 1])
      else w
    else w
  }

  function Live(w: World, l: Life): World {
    var start := Start(w, l);
    Crash(start, Runs(start, l.cfg, l.runs), l.crash)
  }

  function History(w: World, lives: seq<Life>): World {
    if lives == [] then w else Live(History(w, lives[..|lives| - 1]), lives[|lives| - 1])
  }

  /** A database of any older version: a token may be there without an account. */
  predicate Legacy(w: World) {
    w.log == [] && w.events == [] && (w.disk.db.token == "" || w.disk.db.account == "")
  }

  lemma {:induction false} RunsKeep(w: World, cfg: Config, n: nat)
    requires Safe(w)
    requires cfg.auth.tokenAuth.Empty() ==> cfg.auth.username != ""
    ensures Safe(Runs(w, cfg, n))
  {
    if n > 0 {
      RunsKeep(w, cfg, n - 1);
      RunKeeps(Runs(w, cfg, n - 1), cfg);
    }
  }

  lemma CrashKeeps(start: World, w: World, crash: Option<nat>)
    requires Safe(w)
    ensures Safe(Crash(start, w, crash))
  {
    if crash.Some? && |start.events| + crash.value < |w.events| {
      var k := |start.events| + crash.value;
      var w1 := Crash(start, w, crash);
      assert w.events[k] in w.events;
      forall ev | ev in w1.events ensures ev.sent <= |w1.log| && Bound(ev.disk.db, w1.log[..ev.sent]) {
        assert ev in w.events;
        assert w1.log[..ev.sent] == w.log[..ev.sent];
      }
    }
  }

  lemma LegacyIsSafe(w: World)
    requires Legacy(w)
    ensures Safe(w)
  {}

  /** The binding theorem. Start from any safe world, such as any database of any older version;
      let any sequence of processes with valid configurations, possibly of different users, run
      any number of times against any servers, disks and resetting clients, each dying after any
      of its critical sections or not at all: at the end, and after every critical section on the
      way, a token stored under a non-empty account was issued by a login of that account. */
  lemma {:induction false} AccountBinding(w: World, lives: seq<Life>)
    requires Safe(w)
    requires forall l :: l in lives ==> Legitimate(l)
    ensures Safe(History(w, lives))
  {
    if lives != [] {
      var l := lives[|lives| - 1];
      var before := lives[..|lives| - 1];
      AccountBinding(w, before);
      assert l in lives;
      var start := Start(History(w, before), l);
      RunsKeep(start, l.cfg, l.runs);
      CrashKeeps(start, Runs(start, l.cfg, l.runs), l.crash);
    }
  }

  /** In every such history, at the start of any run of any password-mode process, a successful
      Resolve returns a token that a login of the configured user obtained. */
  lemma NoForeignToken(w: World, lives: seq<Life>, l: Life, n: nat)
    requires Safe(w) && Legitimate(l) && l.cfg.auth.tokenAuth.Empty()
    requires forall k :: k in lives ==> Legitimate(k)
    ensures var r := Resolve(Runs(Start(History(w, lives), l), l.cfg, n), l.cfg);
            r.out.Success? ==> Auth.IssuedIn(r.w.log, r.out.value.state.token, l.cfg.auth.username)
  {
    AccountBinding(w, lives);
    var start := Start(History(w, lives), l);
    RunsKeep(start, l.cfg, n);
    ResolveMeaning(Runs(start, l.cfg, n), l.cfg);
  }
}
