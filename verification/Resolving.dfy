/** Resolving an identity: which parts of the stored one are kept, which writes follow in which
    order, when a login is made and under which visitor id, and how it ends. */
module Resolving {
  import opened Domain
  import opened Protocol
  import opened Store
  import opened World
  import opened RefreshSpec
  import Auth = AuthSpec
  import opened Binding
  import opened RunGrowth

  ghost predicate OnlyLogins(seg: seq<Entry>, user: string) {
    |seg| <= 2 && forall e :: e in seg ==> e.Refused? || Auth.IsLogin(e, user)
  }

  /** Own writes of one stage: at most one reset, which is then the first write; only when it
      succeeds do others follow, and they carry the epoch it started. */
  ghost predicate ResetFirst(own: seq<StoreEvent>, who: Who) {
    && AllBy(own, who)
    && (|own| > 1 && own[0].write.Reset? ==> own[0].outcome == Saved)
    && (forall i :: 0 < i < |own| ==>
          !own[i].write.Reset? && (own[0].write.Reset? ==> own[i].write.epoch == own[0].disk.epoch))
  }

  /** How a stage that wrote this fails: by the write that was refused or met a fault, or else by
      something that is neither a refusal nor a failed reset. */
  ghost predicate FailsAs(own: seq<StoreEvent>, err: Error) {
    if own != [] && own[|own| - 1].outcome == Stale then err == IDENTITY_CHANGED
    else if own != [] && own[|own| - 1].outcome == Failed && own[|own| - 1].write.Reset? then
      err.IsCode(RefreshIdentityResetFailed)
    else if own != [] && own[|own| - 1].outcome == Failed then err.Foreign()
    else !err.IsCode(RefreshIdentityResetFailed) && !err.IsCode(RefreshIdentityChanged)
  }

  /** A stage with a plan: its own writes follow the plan, it succeeds with the final identity
      exactly when all of them are saved, and it makes requests only if it has to log in, between
      the last write and those before it. */
  ghost predicate Settles(w: World, r: Resolved, cfg: Config, seg: seq<Entry>, evs: seq<StoreEvent>, who: Who,
                          plan: seq<Write>, login: bool, visitorID: string, final: Identity) {
    && Grows(w, r.w, seg, evs, [], 0) && !r.tokenMode
    && LogsIn(seg, cfg, visitorID) && OnlyLogins(seg, cfg.auth.username) && (!login ==> seg == [])
    && AllBy(Own(evs), who) && Follows(Own(evs), plan) && AsksLast(seg, Own(evs), plan)
    && (r.out.Success? <==> Done(Own(evs), plan))
    && (r.out.Success? ==> r.out.value == final)
    && (r.out.Failure? ==> FailsAs(Own(evs), r.out.error))
    && (login && |Own(evs)| == |plan| ==> Obtained(seg, cfg, visitorID, final.state))
  }

  /** What a login of the configured user gave: a complete identity under this visitor id. */
  ghost predicate Obtained(seg: seq<Entry>, cfg: Config, visitorID: string, state: AuthState) {
    state.Complete() && state.visitorID == visitorID && Auth.IssuedIn(seg, state.token, cfg.auth.username)
  }

  // ------------------------------------------------------- a login and its save

  /** What is in the store after a login and its save: the new identity; or the store is as
      before; or, after a fault, one of the two. */
  ghost predicate SavesLogin(w: World, r: Resolved, own: seq<StoreEvent>, renewed: AuthState, epoch: nat) {
    && (own != [] ==> r.w.disk == own[0].disk)
    && (r.out.Success? ==> r.w.disk.epoch == epoch && r.w.disk.db.State() == renewed)
    && (r.out.Failure? && own == [] ==> r.w.disk == w.disk)
    && (r.out.Failure? && own != [] && own[0].outcome == Failed && w.disk.epoch == epoch ==>
          r.w.disk.db.State() == w.disk.db.State() || r.w.disk.db.State() == renewed)
  }

  /** A write, saved or not, as the last of its stage. */
  ghost predicate Closes(w1: World, w2: World, evs: seq<StoreEvent>, who: Who, write: Write, outcome: Outcome, err: Option<Error>) {
    && Grows(w1, w2, [], evs, [], 0)
    && |Own(evs)| == 1 && Own(evs)[0].who == who && Own(evs)[0].write == write && Own(evs)[0].outcome == outcome
    && Own(evs)[0].disk == w2.disk
    && (err.None? <==> outcome == Saved)
    && (err.Some? ==> FailsAs(Own(evs), err.value))
  }

  lemma ForeignHasNoCode(e: ForeignError)
    ensures !e.IsCode(RefreshIdentityResetFailed) && !e.IsCode(RefreshIdentityChanged)
  {
    ForeignIsUntouched(e);
  }

  lemma GuardedCloses(w: World, who: Who, write: Write) returns (evs: seq<StoreEvent>)
    requires !who.Elsewhere? && !write.Reset?
    ensures var (w1, outcome) := w.Written(who, write);
            && Guarded(w, who, write) == (w1, WriteError(w, outcome))
            && Closes(w, w1, evs, who, write, outcome, WriteError(w, outcome))
  {
    evs := WrittenFacts(w, who, write);
    ForeignHasNoCode(w.Here().disk.err);
  }

  lemma SavedLogin(w: World, w1: World, w2: World, outcome: Outcome, cfg: Config, seg: seq<Entry>, evs: seq<StoreEvent>,
                   who: Who, visitorID: string, renewed: AuthState, epoch: nat, err: Option<Error>)
    requires Grows(w, w1, seg, [], [], 0) && LogsIn(seg, cfg, visitorID) && OnlyLogins(seg, cfg.auth.username)
    requires Obtained(seg, cfg, visitorID, renewed) && Closes(w1, w2, evs, who, PutState(renewed, epoch), outcome, err)
    ensures var r := Resolved(w2, false, if err.Some? then Failure(err.value) else Success(Identity(renewed, epoch)));
            Settles(w, r, cfg, seg, evs, who, [PutState(renewed, epoch)], true, visitorID, Identity(renewed, epoch))
  {
    WriteGrows(w, w1, w2, seg, evs);
  }

  lemma SavedDisk(w: World, w1: World, outcome: Outcome, seg: seq<Entry>, own: seq<StoreEvent>, renewed: AuthState, epoch: nat,
                  w2: World, err: Option<Error>)
    requires w1.disk == w.disk && |own| == 1 && own[0].outcome == outcome && own[0].disk == w2.disk
    requires err.None? <==> outcome == Saved
    requires outcome == Saved ==> w2.disk.epoch == epoch && w2.disk.db.State() == renewed
    requires w2.disk.epoch == w.disk.epoch ==> w2.disk.db.State() == w.disk.db.State() || w2.disk.db.State() == renewed
    requires outcome != Stale && w.disk.epoch == epoch ==> w2.disk.epoch == epoch
    ensures var r := Resolved(w2, false, if err.Some? then Failure(err.value) else Success(Identity(renewed, epoch)));
            SavesLogin(w, r, own, renewed, epoch)
  {}

  lemma LoginAndSaveFacts(w: World, cfg: Config, who: Who, visitorID: string, epoch: nat)
    returns (seg: seq<Entry>, evs: seq<StoreEvent>, renewed: AuthState)
    requires visitorID != "" && !who.Elsewhere?
    ensures var r := LoginAndSave(w, cfg, who, visitorID, epoch);
            && Settles(w, r, cfg, seg, evs, who, [PutState(renewed, epoch)], true, visitorID, Identity(renewed, epoch))
            && SavesLogin(w, r, Own(evs), renewed, epoch)
  {
    seg := LoginFacts(w, cfg, visitorID);
    var l := LoginAs(w, cfg, visitorID);
    TalkGrows(w, l.w, seg);
    evs, renewed := [], NoAuth;
    if l.out.Success? {
      renewed := l.out.value;
      var write := PutState(renewed, epoch);
      var (w1, outcome) := l.w.Written(who, write);
      evs := WrittenFacts(l.w, who, write);
      ForeignHasNoCode(l.w.Here().disk.err);
      SavedLogin(w, l.w, w1, outcome, cfg, seg, evs, who, visitorID, renewed, epoch, WriteError(l.w, outcome));
      SavedDisk(w, l.w, outcome, seg, Own(evs), renewed, epoch, w1, WriteError(l.w, outcome));
    }
  }

  // ------------------------------------------------------------------ the plan

  function Named(state: AuthState, made: string): AuthState {
    if state.visitorID == "" then state.(visitorID := made) else state
  }

  predicate MustLogIn(state: AuthState) { state.token == "" || state.did == "" }

  function Final(state: AuthState, renewed: AuthState): AuthState { if MustLogIn(state) then renewed else state }

  function TokenPlan(state: AuthState, renewed: AuthState, epoch: nat): seq<Write> {
    if MustLogIn(state) then [PutState(renewed, epoch)] else []
  }

  /** A missing visitor id is made up and saved with the rest; a missing token or device id takes
      a login and its save. */
  function VisitorPlan(state: AuthState, made: string, renewed: AuthState, epoch: nat): seq<Write> {
    (if state.visitorID == "" then [PutState(Named(state, made), epoch)] else [])
    + TokenPlan(state, renewed, epoch)
  }

  function BindPlan(user: string, state: AuthState, made: string, renewed: AuthState, epoch: nat): seq<Write> {
    [PutAccount(user, epoch)] + VisitorPlan(state, made, renewed, epoch)
  }

  /** What is kept of the stored identity: all of it under the user's own account, else nothing. */
  function Kept(state: AuthState, account: string, user: string): AuthState { if account == user then state else NoAuth }

  /** Another account's identity is reset first, and any other account replaced. */
  function ResolvePlan(user: string, account: string, state: AuthState, made: string, renewed: AuthState, epoch: nat): seq<Write> {
    if account == user then VisitorPlan(state, made, renewed, epoch)
    else (if state.Empty() then [] else [Reset]) + BindPlan(user, NoAuth, made, renewed, epoch)
  }

  // -------------------------------------------------------- every stage has one

  /** A write that opens a stage. When it is saved the rest of the stage follows; otherwise the
      stage is over. */
  lemma WriteThenSettle(w: World, w1: World, r: Resolved, cfg: Config, ev: StoreEvent, v: seq<StoreEvent>, seg: seq<Entry>,
                        evs: seq<StoreEvent>, who: Who, plan: seq<Write>, login: bool, visitorID: string, final: Identity)
    requires plan != [] && ev.write == plan[0] && ev.who == who && ev.outcome == Saved
    requires Grows(w, w1, [], v, [], 0) && Own(v) == [ev]
    requires Settles(w1, r, cfg, seg, evs, who, plan[1..], login, visitorID, final)
    ensures Settles(w, r, cfg, seg, v + evs, who, plan, login, visitorID, final)
  {
    GrowsAfterWrites(w, w1, r.w, seg, v, evs);
    FollowsMore(ev, Own(evs), plan);
    FailsLater(ev, Own(evs), r);
  }

  lemma FailsLater(ev: StoreEvent, own: seq<StoreEvent>, r: Resolved)
    requires ev.outcome == Saved && (r.out.Failure? ==> FailsAs(own, r.out.error))
    ensures r.out.Failure? ==> FailsAs([ev] + own, r.out.error)
    ensures own != [] ==> ([ev] + own)[|own|] == own[|own| - 1]
  {
    assert own != [] ==> ([ev] + own)[|own|] == own[|own| - 1];
  }

  lemma WriteThenStop(w: World, w1: World, cfg: Config, v: seq<StoreEvent>, who: Who, err: Error,
                      plan: seq<Write>, login: bool, visitorID: string, final: Identity)
    requires |plan| > 1 || (|plan| == 1 && !login)
    requires Grows(w, w1, [], v, [], 0) && |Own(v)| == 1 && Own(v)[0].write == plan[0] && Own(v)[0].who == who
    requires Own(v)[0].outcome != Saved && FailsAs(Own(v), err)
    ensures Settles(w, Resolved(w1, false, Failure(err)), cfg, [], v, who, plan, login, visitorID, final)
  {}

  lemma NothingToSettle(w: World, cfg: Config, who: Who, state: AuthState, epoch: nat)
    ensures Settles(w, Resolved(w, false, Success(Identity(state, epoch))), cfg, [], [], who, [], false, state.visitorID,
                    Identity(state, epoch))
  {
    GrowsNothing(w);
  }

  lemma EnsureTokenFacts(w: World, cfg: Config, state: AuthState, epoch: nat)
    returns (seg: seq<Entry>, evs: seq<StoreEvent>, renewed: AuthState)
    requires state.visitorID != ""
    ensures Settles(w, EnsureToken(w, cfg, state, epoch), cfg, seg, evs, Resolving, TokenPlan(state, renewed, epoch),
                    MustLogIn(state), state.visitorID, Identity(Final(state, renewed), epoch))
  {
    if MustLogIn(state) {
      seg, evs, renewed := LoginAndSaveFacts(w, cfg, Resolving, state.visitorID, epoch);
    } else {
      NothingToSettle(w, cfg, Resolving, state, epoch);
      seg, evs, renewed := [], [], NoAuth;
    }
  }

  lemma EnsureVisitorFacts(w: World, cfg: Config, state: AuthState, epoch: nat)
    returns (seg: seq<Entry>, evs: seq<StoreEvent>, made: NonEmptyString, renewed: AuthState)
    ensures Drawn(w, made)
    ensures var named := Named(state, made);
            Settles(w, EnsureVisitor(w, cfg, state, epoch), cfg, seg, evs, Resolving, VisitorPlan(state, made, renewed, epoch),
                    MustLogIn(state), named.visitorID, Identity(Final(named, renewed), epoch))
  {
    made := w.Here().text;
    assert w.tape(w.t).text == made;
    var named := Named(state, made);
    if state.visitorID != "" {
      seg, evs, renewed := EnsureTokenFacts(w, cfg, state, epoch);
      assert [] + TokenPlan(state, renewed, epoch) == TokenPlan(state, renewed, epoch);
    } else {
      seg, evs, renewed := NamedFacts(w, cfg, state, named, epoch);
    }
  }

  lemma NamedFacts(w: World, cfg: Config, state: AuthState, named: AuthState, epoch: nat)
    returns (seg: seq<Entry>, evs: seq<StoreEvent>, renewed: AuthState)
    requires state.visitorID == "" && named == Named(state, w.Here().text)
    ensures Settles(w, EnsureVisitor(w, cfg, state, epoch), cfg, seg, evs, Resolving,
                    [PutState(named, epoch)] + TokenPlan(state, renewed, epoch),
                    MustLogIn(state), named.visitorID, Identity(Final(named, renewed), epoch))
  {
    var write := PutState(named, epoch);
    var (w1, outcome) := w.Tick().Written(Resolving, write);
    var v := GuardedCloses(w.Tick(), Resolving, write);
    seg, evs, renewed := [], [], NoAuth;
    if outcome == Saved {
      seg, evs, renewed := EnsureTokenFacts(w1, cfg, named, epoch);
      var plan := [write] + TokenPlan(state, renewed, epoch);
      assert plan[1..] == TokenPlan(named, renewed, epoch);
      WriteThenSettle(w, w1, EnsureToken(w1, cfg, named, epoch), cfg, Own(v)[0], v, seg, evs, Resolving, plan,
                      MustLogIn(state), named.visitorID, Identity(Final(named, renewed), epoch));
      evs := v + evs;
    } else {
      WriteThenStop(w, w1, cfg, v, Resolving, WriteError(w.Tick(), outcome).value, [write] + TokenPlan(state, renewed, epoch),
                    MustLogIn(state), named.visitorID, Identity(Final(named, renewed), epoch));
      evs := v;
    }
  }

  lemma BindAccountFacts(w: World, cfg: Config, state: AuthState, epoch: nat)
    returns (seg: seq<Entry>, evs: seq<StoreEvent>, made: NonEmptyString, renewed: AuthState)
    ensures Drawn(w, made)
    ensures var named := Named(state, made);
            Settles(w, BindAccount(w, cfg, state, epoch), cfg, seg, evs, Resolving,
                    BindPlan(cfg.auth.username, state, made, renewed, epoch),
                    MustLogIn(state), named.visitorID, Identity(Final(named, renewed), epoch))
  {
    var write := PutAccount(cfg.auth.username, epoch);
    var (w1, outcome) := w.Written(Resolving, write);
    var v := GuardedCloses(w, Resolving, write);
    seg, evs, made, renewed := [], [], w.Here().text, NoAuth;
    assert w.tape(w.t).text == made;
    if outcome == Saved {
      seg, evs, made, renewed := EnsureVisitorFacts(w1, cfg, state, epoch);
      var plan := BindPlan(cfg.auth.username, state, made, renewed, epoch);
      assert plan[1..] == VisitorPlan(state, made, renewed, epoch);
      var named := Named(state, made);
      WriteThenSettle(w, w1, EnsureVisitor(w1, cfg, state, epoch), cfg, Own(v)[0], v, seg, evs, Resolving, plan,
                      MustLogIn(state), named.visitorID, Identity(Final(named, renewed), epoch));
      evs := v + evs;
    } else {
      var named := Named(state, made);
      WriteThenStop(w, w1, cfg, v, Resolving, WriteError(w, outcome).value, BindPlan(cfg.auth.username, state, made, renewed, epoch),
                    MustLogIn(state), named.visitorID, Identity(Final(named, renewed), epoch));
      evs := v;
    }
  }

  /** The epoch of a plan: the one that was read or, after a successful reset, its own. */
  ghost predicate AtEpoch(own: seq<StoreEvent>, read: nat, epoch: nat) {
    if own != [] && own[0].write.Reset? then own[0].outcome == Saved ==> own[0].disk == Disk(EMPTY, epoch) else epoch == read
  }

  /** Resolve, once state, epoch and account have been read. */
  ghost predicate Adopts(w: World, r: Resolved, cfg: Config, state: AuthState, read: nat, account: string,
                         seg: seq<Entry>, evs: seq<StoreEvent>, made: string, renewed: AuthState, epoch: nat) {
    var kept := Kept(state, account, cfg.auth.username);
    var named := Named(kept, made);
    && Drawn(w, made)
    && Settles(w, r, cfg, seg, evs, Resolving, ResolvePlan(cfg.auth.username, account, state, made, renewed, epoch),
               MustLogIn(kept), named.visitorID, Identity(Final(named, renewed), epoch))
    && AtEpoch(Own(evs), read, epoch)
  }

  lemma PlanHead(own: seq<StoreEvent>, plan: seq<Write>, read: nat)
    requires Follows(own, plan) && (plan == [] || !plan[0].Reset?)
    ensures AtEpoch(own, read, read)
  {}

  lemma ResetThenBind(w: World, w1: World, cfg: Config, v: seq<StoreEvent>)
    returns (seg: seq<Entry>, evs: seq<StoreEvent>, made: NonEmptyString, renewed: AuthState)
    requires Grows(w, w1, [], v, [], 0) && |Own(v)| == 1 && Own(v)[0].who == Resolving
    requires Own(v)[0].write == Reset && Own(v)[0].outcome == Saved
    ensures Drawn(w, made) && Own(evs) != [] && Own(evs)[0] == Own(v)[0]
    ensures Settles(w, BindAccount(w1, cfg, NoAuth, w1.disk.epoch), cfg, seg, evs, Resolving,
                    [Reset] + BindPlan(cfg.auth.username, NoAuth, made, renewed, w1.disk.epoch),
                    true, made, Identity(renewed, w1.disk.epoch))
  {
    var epoch := w1.disk.epoch;
    seg, evs, made, renewed := BindAccountFacts(w1, cfg, NoAuth, epoch);
    var plan := [Reset] + BindPlan(cfg.auth.username, NoAuth, made, renewed, epoch);
    assert plan[1..] == BindPlan(cfg.auth.username, NoAuth, made, renewed, epoch);
    WriteThenSettle(w, w1, BindAccount(w1, cfg, NoAuth, epoch), cfg, Own(v)[0], v, seg, evs, Resolving, plan,
                    true, made, Identity(renewed, epoch));
    OwnConcat(v, evs);
    evs := v + evs;
  }

  lemma ResetFacts(w: World, cfg: Config, state: AuthState, read: nat, account: string)
    returns (seg: seq<Entry>, evs: seq<StoreEvent>, made: NonEmptyString, renewed: AuthState, epoch: nat)
    requires account != cfg.auth.username && !state.Empty()
    ensures Adopts(w, Adopt(w, cfg, state, read, account), cfg, state, read, account, seg, evs, made, renewed, epoch)
  {
    evs := WrittenFacts(w, Resolving, Reset);
    var (w1, outcome) := w.Written(Resolving, Reset);
    seg, made, renewed, epoch := [], w.Here().text, NoAuth, w1.disk.epoch;
    assert w.tape(w.t).text == made;
    if outcome == Saved {
      seg, evs, made, renewed := ResetThenBind(w, w1, cfg, evs);
    } else {
      WriteThenStop(w, w1, cfg, evs, Resolving, Coded(RefreshIdentityResetFailed, w.Here().disk.err),
                    [Reset] + BindPlan(cfg.auth.username, NoAuth, made, renewed, epoch),
                    true, made, Identity(renewed, epoch));
    }
  }

  lemma AdoptFacts(w: World, cfg: Config, state: AuthState, read: nat, account: string)
    returns (seg: seq<Entry>, evs: seq<StoreEvent>, made: NonEmptyString, renewed: AuthState, epoch: nat)
    ensures Adopts(w, Adopt(w, cfg, state, read, account), cfg, state, read, account, seg, evs, made, renewed, epoch)
  {
    epoch := read;
    if account == cfg.auth.username {
      seg, evs, made, renewed := EnsureVisitorFacts(w, cfg, state, read);
      PlanHead(Own(evs), VisitorPlan(state, made, renewed, read), read);
    } else if state.Empty() {
      seg, evs, made, renewed := BindAccountFacts(w, cfg, NoAuth, read);
      var plan := BindPlan(cfg.auth.username, NoAuth, made, renewed, read);
      assert [] + plan == plan;
      PlanHead(Own(evs), plan, read);
    } else {
      seg, evs, made, renewed, epoch := ResetFacts(w, cfg, state, read, account);
    }
  }

  // -------------------------------------------------------------- all of Resolve

  predicate ReadsFail(w: World) { w.LoadFails(STATE_KEYS) || w.Locked().LoadFails({ACCOUNT_KEY}) }

  /** The identity, the epoch and the account that Resolve reads, in two critical sections. */
  function ReadState(w: World): AuthState { w.Locked().disk.db.State() }
  function ReadEpoch(w: World): nat { w.Locked().disk.epoch }
  function ReadAccount(w: World): string { w.Locked().Locked().disk.db.account }

  /** Resolve in password mode: a failing read ends it; otherwise the plan for what was read decides. */
  ghost predicate Resolves(w: World, r: Resolved, cfg: Config, seg: seq<Entry>, evs: seq<StoreEvent>,
                           made: string, renewed: AuthState, epoch: nat) {
    if ReadsFail(w) then
      Grows(w, r.w, [], evs, [], 0) && !r.tokenMode && seg == [] && Own(evs) == [] && r.out.Failure? && r.out.error.Foreign()
    else Adopts(w, r, cfg, ReadState(w), ReadEpoch(w), ReadAccount(w), seg, evs, made, renewed, epoch)
  }

  lemma ReadThenAdopt(w: World, w2: World, r: Resolved, cfg: Config, state: AuthState, read: nat, account: string,
                      v: seq<StoreEvent>, seg: seq<Entry>, evs: seq<StoreEvent>, made: string, renewed: AuthState, epoch: nat)
    requires Grows(w, w2, [], v, [], 0) && Own(v) == []
    requires Adopts(w2, r, cfg, state, read, account, seg, evs, made, renewed, epoch)
    ensures Adopts(w, r, cfg, state, read, account, seg, v + evs, made, renewed, epoch)
  {
    GrowsAfterWrites(w, w2, r.w, seg, v, evs);
    assert Own(v + evs) == Own(evs);
  }

  lemma ReadFacts(w: World) returns (first: seq<StoreEvent>, both: seq<StoreEvent>)
    ensures Grows(w, w.Locked(), [], first, [], 0) && Own(first) == []
    ensures Grows(w, w.Locked().Locked(), [], both, [], 0) && Own(both) == []
  {
    first := LockedFacts(w);
    var v := LockedFacts(w.Locked());
    GrowsAfterWrites(w, w.Locked(), w.Locked().Locked(), [], first, v);
    both := first + v;
  }

  /** For every tape and any stored identity: what Resolve keeps of it, writes, asks and returns. Under
      the user's own account the identity is kept, and only what is missing is made up or logged in
      for; another account's is reset first. It succeeds exactly when all writes are saved. */
  lemma ResolveFacts(w: World, cfg: Config)
    returns (seg: seq<Entry>, evs: seq<StoreEvent>, made: NonEmptyString, renewed: AuthState, epoch: nat)
    requires cfg.auth.tokenAuth.Empty()
    ensures Resolves(w, Resolve(w, cfg), cfg, seg, evs, made, renewed, epoch)
  {
    var first, both := ReadFacts(w);
    seg, made, renewed, epoch := [], w.Here().text, NoAuth, 0;
    if w.LoadFails(STATE_KEYS) {
      evs := first;
    } else if w.Locked().LoadFails({ACCOUNT_KEY}) {
      evs := both;
    } else {
      var w2 := w.Locked().Locked();
      seg, evs, made, renewed, epoch := AdoptFacts(w2, cfg, ReadState(w), ReadEpoch(w), ReadAccount(w));
      ReadThenAdopt(w, w2, Resolve(w, cfg), cfg, ReadState(w), ReadEpoch(w), ReadAccount(w), both, seg, evs, made, renewed, epoch);
      evs := both + evs;
    }
  }

  // ------------------------------------------------------------------- corollaries

  /** Under the user's own account a stored visitor id survives: a success has it, no own write puts
      another one, none is a reset or an account, and a login is made under it. */
  lemma StoredVisitorIsKept(w: World, cfg: Config) returns (seg: seq<Entry>, evs: seq<StoreEvent>)
    requires cfg.auth.tokenAuth.Empty() && !ReadsFail(w)
    requires ReadAccount(w) == cfg.auth.username && ReadState(w).visitorID != ""
    ensures var r := Resolve(w, cfg);
            && r.w.log == w.log + seg && r.w.events == w.events + evs
            && (r.out.Success? ==> r.out.value.state.visitorID == ReadState(w).visitorID)
            && |Own(evs)| <= 1
            && (forall i :: 0 <= i < |Own(evs)| ==>
                  Own(evs)[i].write.PutState? && Own(evs)[i].write.state.visitorID == ReadState(w).visitorID)
            && LogsIn(seg, cfg, ReadState(w).visitorID)
  {
    var made, renewed, epoch;
    seg, evs, made, renewed, epoch := ResolveFacts(w, cfg);
    var state := ReadState(w);
    assert [] + TokenPlan(state, renewed, epoch) == TokenPlan(state, renewed, epoch);
  }

  /** A complete identity under the user's own account is taken as it is: no request, no write. */
  lemma CompleteIdentityIsTaken(w: World, cfg: Config)
    requires cfg.auth.tokenAuth.Empty() && !ReadsFail(w)
    requires ReadAccount(w) == cfg.auth.username && ReadState(w).Complete()
    ensures Resolve(w, cfg) == Resolved(w.Locked().Locked(), false, Success(Identity(ReadState(w), ReadEpoch(w))))
  {}

  lemma LongerIsOnly(own: seq<StoreEvent>, plan: seq<Write>, epoch: nat)
    requires Follows(own, plan) && AllBy(own, Resolving)
    requires forall i :: 0 < i < |plan| ==> !plan[i].Reset? && plan[i].epoch == epoch
    requires own != [] && own[0].write.Reset? && own[0].outcome == Saved ==> own[0].disk.epoch == epoch
    ensures ResetFirst(own, Resolving)
  {}

  lemma PlansResetFirst(user: string, account: string, state: AuthState, made: string, renewed: AuthState, epoch: nat)
    ensures var plan := ResolvePlan(user, account, state, made, renewed, epoch);
            forall i :: 0 < i < |plan| ==> !plan[i].Reset? && plan[i].epoch == epoch
  {}

  /** What a run needs of a resolution: its logins, and its writes after at most one reset. */
  ghost predicate Renews(w: World, w': World, user: string, seg: seq<Entry>, evs: seq<StoreEvent>, who: Who) {
    && Grows(w, w', seg, evs, [], 0)
    && OnlyLogins(seg, user)
    && ResetFirst(Own(evs), who)
  }

  lemma ResolvesRenews(w: World, r: Resolved, cfg: Config, seg: seq<Entry>, evs: seq<StoreEvent>,
                       made: string, renewed: AuthState, epoch: nat)
    requires Resolves(w, r, cfg, seg, evs, made, renewed, epoch)
    ensures Renews(w, r.w, cfg.auth.username, seg, evs, Resolving)
  {
    if !ReadsFail(w) {
      var plan := ResolvePlan(cfg.auth.username, ReadAccount(w), ReadState(w), made, renewed, epoch);
      PlansResetFirst(cfg.auth.username, ReadAccount(w), ReadState(w), made, renewed, epoch);
      LongerIsOnly(Own(evs), plan, epoch);
    }
  }

  /** What Resolve adds to the traces; in token mode it adds nothing. */
  lemma ResolvingFacts(w: World, cfg: Config) returns (seg: seq<Entry>, evs: seq<StoreEvent>)
    ensures var r := Resolve(w, cfg);
            && Renews(w, r.w, cfg.auth.username, seg, evs, Resolving)
            && (r.tokenMode <==> !cfg.auth.tokenAuth.Empty())
            && (r.tokenMode ==> r.w == w && seg == [] && evs == [])
  {
    if cfg.auth.tokenAuth.Empty() {
      var made, renewed, epoch;
      seg, evs, made, renewed, epoch := ResolveFacts(w, cfg);
      ResolvesRenews(w, Resolve(w, cfg), cfg, seg, evs, made, renewed, epoch);
    } else {
      GrowsNothing(w);
      seg, evs := [], [];
    }
  }
}
