/** What one session leaves behind, for every tape: requests, own store writes and messages, and
    which of them, read off its trace. */
module RunOutcome {
  import opened Domain
  import opened Store
  import Transport
  import opened World
  import opened RefreshSpec
  import opened SessionTrace
  import opened RunTrace
  import opened SessionIdentity
  import opened RunGrowth

  ghost predicate NoLogins(seg: seq<Entry>) {
    forall e :: e in seg && e.Sent? ==> e.req.form.Call?
  }

  // ---------------------------------------------------------------- a session

  /** The last own write was the rotated identity, and the disk reported a fault. */
  ghost predicate Lost(own: seq<StoreEvent>) {
    own != [] && own[|own| - 1].who.Snapshotting? && own[|own| - 1].outcome == Failed
  }

  /** One terminal message, missing only when the rotated identity was lost or there is no
      notifier; it is the success message exactly when there is no error. */
  ghost predicate Ends(own: seq<StoreEvent>, msgs: seq<MessageKind>, err: Option<Error>, hasNotifier: bool) {
    && |msgs| <= 1 && PasswordAuthExpiredRetry !in msgs
    && (msgs == [] <==> !hasNotifier || Lost(own))
    && (msgs == [RefreshSucceeded] <==> hasNotifier && err.None?)
  }

  /** The message about checks that needed no saving any more. */
  function Closing(cfg: Config, err: Option<Error>, tokenMode: bool): seq<MessageKind> {
    if err.None? then Mail(cfg, RefreshSucceeded)
    else if !IsAuthFailure(err) then Mail(cfg, RefreshFailed)
    else if tokenMode then Mail(cfg, TokenAuthExpired)
    else []
  }

  /** How a session concludes after its checks: its rotated identity is written unless it is in
      token mode, denied or unchanged; a fault of that write ends it without a message, a refusal
      with "identity changed", and otherwise the checks decide. */
  ghost predicate Concludes(c: Checks, cfg: Config, state: AuthState, epoch: nat, tokenMode: bool, r: Ran,
                            evs: seq<StoreEvent>, msgs: seq<MessageKind>) {
    var own := Own(evs);
    && Grows(c.w, r.w, [], evs, msgs, 0)
    && (own == [] <==> tokenMode || IsAuthFailure(c.err) || c.s == state)
    && (own != [] ==> |own| == 1 && own[0].who.Snapshotting? && own[0].write == PutState(c.s, epoch))
    && (if own != [] && own[0].outcome == Failed then msgs == [] && r.err.Some? && r.err.value.Foreign()
        else if own != [] && own[0].outcome == Stale then msgs == Mail(cfg, IdentityChanged) && r.err == Some(IDENTITY_CHANGED)
        else msgs == Closing(cfg, c.err, tokenMode) && r.err == c.err)
    && (own == [] ==> evs == [] && r.w.disk == c.w.disk)
    && (own != [] && own[0].outcome == Stale ==> r.w.disk.epoch != epoch)
    && (own != [] && own[0].outcome == Saved && c.w.disk.epoch == epoch == r.w.disk.epoch ==>
          r.w.disk.db == Landing(c.w.disk.db, PutState(c.s, epoch)))
  }

  lemma ForeignNoAuthFailure(e: ForeignError)
    ensures !IsAuthFailure(Some(e))
  {
    ForeignCarriesNothing(e, Opaque, MTAuthFailed);
  }

  function Mail(cfg: Config, kind: MessageKind): seq<MessageKind> { if cfg.hasNotifier then [kind] else [] }

  lemma NotifyFacts(w: World, cfg: Config, kind: MessageKind)
    ensures Grows(w, Notify(w, cfg, kind), [], [], Mail(cfg, kind), 0)
  {
    GrowsNothing(w);
  }

  lemma ReportFacts(w: World, cfg: Config, err: Option<Error>, tokenMode: bool)
    ensures var r := Report(w, cfg, err, tokenMode);
            Grows(w, r.w, [], [], Closing(cfg, err, tokenMode), 0) && r.w.disk == w.disk && r.err == err
  {
    GrowsNothing(w);
    var kind := if err.None? then RefreshSucceeded else if IsAuthFailure(err) then TokenAuthExpired else RefreshFailed;
    NotifyFacts(w, cfg, kind);
  }

  lemma PersistFacts(c: Checks, cfg: Config, state: AuthState, epoch: nat) returns (evs: seq<StoreEvent>, msgs: seq<MessageKind>)
    requires !IsAuthFailure(c.err) && c.s != state
    ensures Concludes(c, cfg, state, epoch, false, Persist(c.w, cfg, c, epoch), evs, msgs)
  {
    var write := PutState(c.s, epoch);
    evs := WrittenFacts(c.w, Snapshotting, write);
    var (w1, outcome) := c.w.Written(Snapshotting, write);
    GrowsNothing(w1);
    match outcome
    case Failed => {
      msgs := [];
      NoteGrows(c.w, w1, w1, evs, msgs);
    }
    case Stale => {
      NotifyFacts(w1, cfg, IdentityChanged);
      msgs := Mail(cfg, IdentityChanged);
      NoteGrows(c.w, w1, Notify(w1, cfg, IdentityChanged), evs, msgs);
    }
    case Saved => {
      ReportFacts(w1, cfg, c.err, false);
      msgs := Closing(cfg, c.err, false);
      NoteGrows(c.w, w1, Report(w1, cfg, c.err, false).w, evs, msgs);
    }
  }

  lemma FinishFacts(c: Checks, cfg: Config, state: AuthState, epoch: nat, tokenMode: bool)
    returns (evs: seq<StoreEvent>, msgs: seq<MessageKind>)
    ensures Concludes(c, cfg, state, epoch, tokenMode, Finish(c, cfg, state, epoch, tokenMode), evs, msgs)
  {
    if !tokenMode && !IsAuthFailure(c.err) && c.s != state {
      evs, msgs := PersistFacts(c, cfg, state, epoch);
    } else {
      evs := [];
      ReportFacts(c.w, cfg, c.err, tokenMode);
      msgs := Closing(cfg, c.err, tokenMode);
    }
  }

  /** What a session writes of its own: the identity as its responses rotated it, and exactly when
      they did, except in token mode and after a denial. */
  ghost predicate Snapshots(own: seq<StoreEvent>, state: AuthState, seg: seq<Entry>, epoch: nat, tokenMode: bool) {
    && (own == [] <==> tokenMode || DeniedSession(seg) || Replay(state, seg) == state)
    && (own != [] ==> |own| == 1 && own[0].who.Snapshotting? && own[0].write == PutState(Replay(state, seg), epoch))
  }

  /** The message of a session, by the fate of its write and the verdict of its checks. */
  function Spoken(cfg: Config, tokenMode: bool, kept: bool, denied: bool, own: seq<StoreEvent>): seq<MessageKind> {
    if own != [] && own[0].outcome == Failed then []
    else if own != [] && own[0].outcome == Stale then Mail(cfg, IdentityChanged)
    else if kept then Mail(cfg, RefreshSucceeded)
    else if !denied then Mail(cfg, RefreshFailed)
    else if tokenMode then Mail(cfg, TokenAuthExpired)
    else []
  }

  /** The same, with the verdict read off the trace. */
  ghost function Words(cfg: Config, tokenMode: bool, seg: seq<Entry>, own: seq<StoreEvent>): seq<MessageKind> {
    Spoken(cfg, tokenMode, KeptAlive(seg), DeniedSession(seg), own)
  }

  /** Its error, read off the same. */
  ghost predicate Returns(seg: seq<Entry>, own: seq<StoreEvent>, err: Option<Error>) {
    if own != [] && own[0].outcome == Failed then err.Some? && err.value.Foreign()
    else if own != [] && own[0].outcome == Stale then err == Some(IDENTITY_CHANGED)
    else
      && (err.None? <==> KeptAlive(seg))
      && (err.Some? ==> seg != [] && Explains(Culprit(seg, 31), err.value))
  }

  /** The requests of a session: their number, their endpoints, and the identity they carry. */
  ghost predicate SessionAsks(cfg: Transport.ClientConfig, state: AuthState, seg: seq<Entry>) {
    |seg| <= 72 && NoLogins(seg) && CarriesRotation(state, seg) && AllAsked(seg, cfg)
  }

  /** One session, from the run's point of view. */
  ghost predicate SessionDoes(w: World, cfg: Config, state: AuthState, epoch: nat, tokenMode: bool, r: Ran,
                              seg: seq<Entry>, evs: seq<StoreEvent>, msgs: seq<MessageKind>) {
    && Grows(w, r.w, seg, evs, msgs, 1)
    && SessionAsks(cfg.browse, state, seg)
    && (IsAuthFailure(r.err) <==> DeniedSession(seg))
    && Snapshots(Own(evs), state, seg, epoch, tokenMode)
    && msgs == Words(cfg, tokenMode, seg, Own(evs)) && Returns(seg, Own(evs), r.err)
    && (Own(evs) == [] ==> evs == [] && r.w.disk == w.disk)
    && (Own(evs) != [] && Own(evs)[0].outcome == Stale ==> r.w.disk.epoch != epoch)
    && (Own(evs) != [] && Own(evs)[0].outcome == Saved && w.disk.epoch == epoch == r.w.disk.epoch ==>
          r.w.disk.db == Landing(w.disk.db, PutState(Replay(state, seg), epoch)))
  }

  lemma FinishSays(c: Checks, cfg: Config, state: AuthState, epoch: nat, tokenMode: bool, r: Ran, evs: seq<StoreEvent>,
                   msgs: seq<MessageKind>, kept: bool, denied: bool)
    requires c.err.None? <==> kept
    requires IsAuthFailure(c.err) <==> denied
    requires Concludes(c, cfg, state, epoch, tokenMode, r, evs, msgs)
    ensures msgs == Spoken(cfg, tokenMode, kept, denied, Own(evs))
    ensures IsAuthFailure(r.err) <==> denied
    ensures Own(evs) == [] <==> tokenMode || denied || c.s == state
  {
    if r.err.Some? && r.err.value.Foreign() { ForeignNoAuthFailure(r.err.value); }
  }

  lemma ChecksThenFinish(w: World, cfg: Config, state: AuthState, epoch: nat, tokenMode: bool, c: Checks, r: Ran,
                         seg: seq<Entry>, evs: seq<StoreEvent>, msgs: seq<MessageKind>)
    requires Steps(OpenSession(w), state, c.w, c.s, seg, 72, AnyUpdate(seg), AnyCritical(seg))
    requires c.err.None? <==> KeptAlive(seg)
    requires c.err.Some? ==> seg != [] && Explains(Culprit(seg, 31), c.err.value)
    requires IsAuthFailure(c.err) <==> DeniedSession(seg)
    requires SessionAsks(cfg.browse, state, seg)
    requires Concludes(c, cfg, state, epoch, tokenMode, r, evs, msgs)
    ensures SessionDoes(w, cfg, state, epoch, tokenMode, r, seg, evs, msgs)
  {
    FinishSays(c, cfg, state, epoch, tokenMode, r, evs, msgs, KeptAlive(seg), DeniedSession(seg));
  }

  /** What the checks mean, with every attempt's endpoint. */
  lemma ChecksFacts(w: World, s: AuthState, cfg: Transport.ClientConfig) returns (seg: seq<Entry>)
    ensures var c := RunChecks(w, s, cfg);
            && Steps(w, s, c.w, c.s, seg, 72, AnyUpdate(seg), AnyCritical(seg))
            && (c.err.None? <==> KeptAlive(seg))
            && (c.err.Some? ==> seg != [] && Explains(Culprit(seg, 31), c.err.value))
            && (IsAuthFailure(c.err) <==> DeniedSession(seg))
            && SessionAsks(cfg, s, seg)
  {
    seg := RunChecksMeaning(w, s, cfg);
    ChecksAsked(w, s, cfg, seg);
  }

  lemma SessionFacts(w: World, cfg: Config, state: AuthState, epoch: nat, tokenMode: bool)
    returns (seg: seq<Entry>, evs: seq<StoreEvent>, msgs: seq<MessageKind>)
    ensures SessionDoes(w, cfg, state, epoch, tokenMode, RunWithSession(w, cfg, state, epoch, tokenMode), seg, evs, msgs)
  {
    seg := ChecksFacts(OpenSession(w), state, cfg.browse);
    var c := RunChecks(OpenSession(w), state, cfg.browse);
    evs, msgs := FinishFacts(c, cfg, state, epoch, tokenMode);
    ChecksThenFinish(w, cfg, state, epoch, tokenMode, c, Finish(c, cfg, state, epoch, tokenMode), seg, evs, msgs);
  }

  lemma SpokenEnds(cfg: Config, tokenMode: bool, kept: bool, denied: bool, own: seq<StoreEvent>, err: Option<Error>)
    requires !(kept && denied) && (tokenMode || denied ==> own == [])
    requires own != [] ==> own[0].who.Snapshotting? && |own| == 1
    requires own != [] && own[0].outcome != Saved ==> err.Some?
    requires own == [] || own[0].outcome == Saved ==> (err.None? <==> kept)
    ensures var msgs := Spoken(cfg, tokenMode, kept, denied, own);
            && ReloginFailed !in msgs && PasswordAuthExpiredNextRun !in msgs
            && if !tokenMode && denied then msgs == [] else Ends(own, msgs, err, cfg.hasNotifier)
  {}

  /** What the ends of sessions have in common, for the messages of a whole run. */
  lemma SessionEnds(w: World, cfg: Config, state: AuthState, epoch: nat, tokenMode: bool, r: Ran,
                    seg: seq<Entry>, evs: seq<StoreEvent>, msgs: seq<MessageKind>)
    requires SessionDoes(w, cfg, state, epoch, tokenMode, r, seg, evs, msgs)
    ensures ReloginFailed !in msgs && PasswordAuthExpiredNextRun !in msgs
    ensures tokenMode || IsAuthFailure(r.err) ==> evs == [] && r.w.disk == w.disk
    ensures if !tokenMode && IsAuthFailure(r.err) then msgs == [] else Ends(Own(evs), msgs, r.err, cfg.hasNotifier)
  {
    SpokenEnds(cfg, tokenMode, KeptAlive(seg), DeniedSession(seg), Own(evs), r.err);
  }

  /** A session that is not denied and loses nothing leaves its rotated identity in the store. */
  lemma SessionSaves(w: World, cfg: Config, state: AuthState, epoch: nat, r: Ran,
                     seg: seq<Entry>, evs: seq<StoreEvent>, msgs: seq<MessageKind>)
    requires SessionDoes(w, cfg, state, epoch, false, r, seg, evs, msgs)
    requires !IsAuthFailure(r.err) && !Lost(Own(evs))
    requires w.disk.db.State() == state && w.disk.epoch == epoch == r.w.disk.epoch
    ensures r.w.disk.db.State() == Replay(state, seg) && r.w.disk.db.account == w.disk.db.account
  {}
}
