/** What a denied session leads to, for every tape: purge, re-login, second session, messages,
    and what the store holds in the end. */
module RunAftermath {
  import opened Domain
  import opened Store
  import opened World
  import opened RefreshSpec
  import opened SessionTrace
  import opened RunTrace
  import opened Binding
  import opened RunGrowth
  import opened Resolving
  import opened RunOutcome

  // ------------------------------------------------------ an expired identity

  /** A re-login binds the account, names the visitor, and saves what the login got. */
  function ReloginPlan(user: string, epoch: nat, named: AuthState, renewed: AuthState): seq<Write> {
    [PutAccount(user, epoch), PutState(named, epoch), PutState(renewed, epoch)]
  }

  /** A fault at the last own write kept any identity out of the store: it was the account's, or
      the bare visitor id's and did not land. */
  ghost predicate NothingStored(own: seq<StoreEvent>) {
    && own != []
    && var last := own[|own| - 1];
       && last.outcome == Failed
       && (last.write.PutAccount? || (last.write.PutState? && last.write.state.token == "" && !Lands(last.fate)))
  }

  lemma NothingStoredBefore(before: seq<StoreEvent>, own: seq<StoreEvent>)
    requires own == [] && before != [] ==> before[|before| - 1].outcome == Saved
    ensures NothingStored(before + own) <==> NothingStored(own)
  {
    if own == [] { assert before + own == before; }
  }

  /** How a re-login ends: it succeeds exactly when all its writes are saved, and then the store
      holds the new identity; when it fails with the message that says so, the store holds no
      identity exactly when a fault kept all of them out. */
  ghost predicate Relogs(h: Expired, own: seq<StoreEvent>, count: nat, renewed: AuthState, epoch: nat) {
    && (h.out.Success? <==> |own| == count && own != [] && own[|own| - 1].outcome == Saved)
    && (h.out.Success? ==>
          && h.out.value == Renewal(renewed, epoch, true)
          && h.w.disk.epoch == epoch && h.w.disk.db.State() == renewed)
    && (h.out.Failure? ==> FailsAs(own, h.out.error))
    && (h.out.Failure? && ExpiryMessage(h.out.error) == ReloginFailed ==>
          (h.w.disk.db.State() == NoAuth <==> NothingStored(own)))
  }

  /** One stage of a re-login and all that follow it. */
  ghost predicate RenewSteps(w: World, h: Expired, cfg: Config, seg: seq<Entry>, evs: seq<StoreEvent>,
                             plan: seq<Write>, visitorID: string, renewed: AuthState, epoch: nat) {
    && Grows(w, h.w, seg, evs, [], 0)
    && LogsIn(seg, cfg, visitorID) && OnlyLogins(seg, cfg.auth.username)
    && AllBy(Own(evs), Expiring)
    && Follows(Own(evs), plan) && (|plan| > 1 ==> Own(evs) != []) && AsksLast(seg, Own(evs), plan)
    && (|Own(evs)| == |plan| ==> Obtained(seg, cfg, visitorID, renewed))
    && Relogs(h, Own(evs), |plan|, renewed, epoch)
  }

  lemma WriteThenRenew(w: World, w1: World, h: Expired, cfg: Config, ev: StoreEvent, v: seq<StoreEvent>,
                       seg: seq<Entry>, evs: seq<StoreEvent>, plan: seq<Write>, visitorID: string, renewed: AuthState, epoch: nat)
    requires Grows(w, w1, [], v, [], 0) && Own(v) == [ev] && ev.who.Expiring? && ev.outcome == Saved
    requires |plan| > 1 && ev.write == plan[0]
    requires RenewSteps(w1, h, cfg, seg, evs, plan[1..], visitorID, renewed, epoch)
    ensures RenewSteps(w, h, cfg, seg, v + evs, plan, visitorID, renewed, epoch)
  {
    GrowsAfterWrites(w, w1, h.w, seg, v, evs);
    FollowsMore(ev, Own(evs), plan);
    FailsRenewing(ev, Own(evs), h);
    NothingStoredBefore([ev], Own(evs));
  }

  lemma FailsRenewing(ev: StoreEvent, own: seq<StoreEvent>, h: Expired)
    requires ev.outcome == Saved && (h.out.Failure? ==> FailsAs(own, h.out.error))
    ensures h.out.Failure? ==> FailsAs([ev] + own, h.out.error)
    ensures own != [] ==> ([ev] + own)[|own|] == own[|own| - 1]
  {
    assert own != [] ==> ([ev] + own)[|own|] == own[|own| - 1];
  }

  lemma RenewStops(w: World, w1: World, cfg: Config, v: seq<StoreEvent>, write: Write, outcome: Outcome, err: Option<Error>,
                   plan: seq<Write>, visitorID: string, renewed: AuthState, epoch: nat)
    requires Closes(w, w1, v, Expiring, write, outcome, err) && outcome != Saved
    requires |plan| > 1 && write == plan[0]
    requires outcome == Failed ==> (w1.disk.db.State() == NoAuth <==> NothingStored(Own(v)))
    ensures RenewSteps(w, Expired(w1, Failure(err.value)), cfg, [], v, plan, visitorID, renewed, epoch)
  {
    assert IDENTITY_CHANGED.IsCode(RefreshIdentityChanged) && !IDENTITY_CHANGED.IsCode(RefreshIdentityResetFailed);
  }

  lemma LoginRenews(w: World, r: Resolved, cfg: Config, seg: seq<Entry>, evs: seq<StoreEvent>,
                    visitorID: string, renewed: AuthState, epoch: nat)
    requires w.disk.epoch == epoch && w.disk.db.visitorID != ""
    requires Settles(w, r, cfg, seg, evs, Expiring, [PutState(renewed, epoch)], true, visitorID, Identity(renewed, epoch))
    requires SavesLogin(w, r, Own(evs), renewed, epoch)
    ensures RenewSteps(w, AsRenewal(r), cfg, seg, evs, [PutState(renewed, epoch)], visitorID, renewed, epoch)
  {
    assert IDENTITY_CHANGED.IsCode(RefreshIdentityChanged) && !IDENTITY_CHANGED.IsCode(RefreshIdentityResetFailed);
  }

  lemma NameRenewedFacts(w: World, cfg: Config, named: AuthState, epoch: nat)
    returns (seg: seq<Entry>, evs: seq<StoreEvent>, renewed: AuthState)
    requires named == AuthState("", "", named.visitorID) && named.visitorID != ""
    requires w.disk.epoch == epoch && w.disk.db.State() == NoAuth
    ensures RenewSteps(w, NameRenewed(w, cfg, named.visitorID, epoch), cfg, seg, evs,
                       [PutState(named, epoch), PutState(renewed, epoch)], named.visitorID, renewed, epoch)
  {
    var write := PutState(named, epoch);
    var v := WrittenFacts(w, Expiring, write);
    var (w1, outcome) := w.Written(Expiring, write);
    seg, evs, renewed := [], v, NoAuth;
    if outcome == Saved {
      seg, evs, renewed := LoginAndSaveFacts(w1, cfg, Expiring, named.visitorID, epoch);
      var l := LoginAndSave(w1, cfg, Expiring, named.visitorID, epoch);
      LoginRenews(w1, l, cfg, seg, evs, named.visitorID, renewed, epoch);
      var plan := [write, PutState(renewed, epoch)];
      assert plan[1..] == [PutState(renewed, epoch)];
      WriteThenRenew(w, w1, AsRenewal(l), cfg, Own(v)[0], v, seg, evs, plan, named.visitorID, renewed, epoch);
      evs := v + evs;
    } else {
      ForeignHasNoCode(w.Here().disk.err);
      RenewStops(w, w1, cfg, v, write, outcome, WriteError(w, outcome), [write, PutState(renewed, epoch)],
                 named.visitorID, renewed, epoch);
    }
  }

  /** A re-login from an empty store. */
  lemma ReloginFacts(w: World, cfg: Config, epoch: nat)
    returns (seg: seq<Entry>, evs: seq<StoreEvent>, renewed: AuthState)
    requires w.disk == Disk(EMPTY, epoch)
    ensures var visitorID := w.Here().text;
            RenewSteps(w, Relogin(w, cfg, epoch), cfg, seg, evs,
                       ReloginPlan(cfg.auth.username, epoch, AuthState("", "", visitorID), renewed), visitorID, renewed, epoch)
  {
    var write := PutAccount(cfg.auth.username, epoch);
    var named := AuthState("", "", w.Here().text);
    var v := WrittenFacts(w.Tick(), Expiring, write);
    var (w1, outcome) := w.Tick().Written(Expiring, write);
    seg, evs, renewed := [], v, NoAuth;
    if outcome == Saved {
      seg, evs, renewed := NameRenewedFacts(w1, cfg, named, epoch);
      var plan := ReloginPlan(cfg.auth.username, epoch, named, renewed);
      assert plan[1..] == [PutState(named, epoch), PutState(renewed, epoch)];
      WriteThenRenew(w, w1, NameRenewed(w1, cfg, named.visitorID, epoch), cfg, Own(v)[0], v, seg, evs, plan,
                     named.visitorID, renewed, epoch);
      evs := v + evs;
    } else {
      ForeignHasNoCode(w.Tick().Here().disk.err);
      RenewStops(w, w1, cfg, v, write, outcome, WriteError(w.Tick(), outcome),
                 ReloginPlan(cfg.auth.username, epoch, named, renewed), named.visitorID, renewed, epoch);
    }
  }

  /** What HandleAuthExpired leaves: its first own write is a reset. When the reset fails nothing
      else is written; when it succeeds the store was empty at a higher epoch, and either that
      is all or a re-login follows at that epoch. */
  ghost predicate Expires(w: World, cfg: Config, h: Expired, seg: seq<Entry>, evs: seq<StoreEvent>,
                          named: AuthState, renewed: AuthState) {
    var own := Own(evs);
    && Grows(w, h.w, seg, evs, [], 0) && LogsIn(seg, cfg, named.visitorID) && OnlyLogins(seg, cfg.auth.username)
    && own != [] && own[0].write.Reset? && own[0].outcome != Stale
    && AllBy(own, Expiring)
    && (seg != [] ==> cfg.auth.retryOnAuthFailure && |own| > 2 && own[2].outcome == Saved)
    && (own[0].outcome == Failed ==>
          |own| == 1 && h.out.Failure? && h.out.error.IsCode(RefreshIdentityResetFailed))
    && (own[0].outcome == Saved ==>
          var epoch := own[0].disk.epoch;
          && own[0].disk.db == EMPTY && w.disk.epoch < epoch
          && if !cfg.auth.retryOnAuthFailure
             then |own| == 1 && h.w.disk == own[0].disk && h.out.Success? && !h.out.value.retried
             else Reenters(h, cfg, seg, own[1..], named, renewed, epoch) && Drawn(w, named.visitorID))
  }

  /** The re-login after a successful reset, under a visitor id that was made up for it. */
  ghost predicate Reenters(h: Expired, cfg: Config, seg: seq<Entry>, own: seq<StoreEvent>,
                           named: AuthState, renewed: AuthState, epoch: nat) {
    && named == AuthState("", "", named.visitorID) && named.visitorID != ""
    && own != [] && Follows(own, ReloginPlan(cfg.auth.username, epoch, named, renewed))
    && AsksLast(seg, own, ReloginPlan(cfg.auth.username, epoch, named, renewed))
    && (|own| == 3 ==> Obtained(seg, cfg, named.visitorID, renewed))
    && Relogs(h, own, 3, renewed, epoch)
  }

  lemma ReentersAfter(w1: World, h: Expired, cfg: Config, seg: seq<Entry>, evs: seq<StoreEvent>, named: AuthState,
                      renewed: AuthState, epoch: nat)
    requires named == AuthState("", "", named.visitorID) && named.visitorID != ""
    requires RenewSteps(w1, h, cfg, seg, evs, ReloginPlan(cfg.auth.username, epoch, named, renewed), named.visitorID, renewed, epoch)
    ensures Reenters(h, cfg, seg, Own(evs), named, renewed, epoch)
  {}

  lemma AskedLate(ev: StoreEvent, own: seq<StoreEvent>, seg: seq<Entry>, plan: seq<Write>)
    requires |plan| == 3 && Follows(own, plan) && AsksLast(seg, own, plan) && seg != []
    ensures |[ev] + own| > 2 && ([ev] + own)[2].outcome == Saved
  {
    assert ([ev] + own)[2] == own[1];
  }

  lemma ResetThenRelogin(w: World, cfg: Config, w1: World, h: Expired, ev: StoreEvent, v: seq<StoreEvent>,
                         seg: seq<Entry>, evs: seq<StoreEvent>, named: AuthState, renewed: AuthState)
    requires Grows(w, w1, [], v, [], 0) && Own(v) == [ev] && ev.who.Expiring? && ev.write.Reset? && ev.outcome == Saved
    requires ev.disk == w1.disk && w1.disk.db == EMPTY && w.disk.epoch < w1.disk.epoch && cfg.auth.retryOnAuthFailure
    requires Drawn(w, named.visitorID)
    requires Grows(w1, h.w, seg, evs, [], 0) && LogsIn(seg, cfg, named.visitorID) && OnlyLogins(seg, cfg.auth.username)
    requires AllBy(Own(evs), Expiring) && Reenters(h, cfg, seg, Own(evs), named, renewed, w1.disk.epoch)
    ensures Expires(w, cfg, h, seg, v + evs, named, renewed)
  {
    GrowsAfterWrites(w, w1, h.w, seg, v, evs);
    if seg != [] { AskedLate(ev, Own(evs), seg, ReloginPlan(cfg.auth.username, w1.disk.epoch, named, renewed)); }
    assert ([ev] + Own(evs))[1..] == Own(evs);
  }

  lemma ExpiryFacts(w: World, cfg: Config)
    returns (seg: seq<Entry>, evs: seq<StoreEvent>, named: AuthState, renewed: AuthState)
    ensures Expires(w, cfg, HandleAuthExpired(w, cfg), seg, evs, named, renewed)
  {
    evs := WrittenFacts(w, Expiring, Reset);
    var (w1, outcome) := w.Written(Expiring, Reset);
    seg, named, renewed := [], NoAuth, NoAuth;
    if outcome == Saved && cfg.auth.retryOnAuthFailure {
      var more;
      named := AuthState("", "", w1.Here().text);
      assert w.tape(w1.t).text == named.visitorID;
      seg, more, renewed := ReloginFacts(w1, cfg, w1.disk.epoch);
      ReentersAfter(w1, Relogin(w1, cfg, w1.disk.epoch), cfg, seg, more, named, renewed, w1.disk.epoch);
      ResetThenRelogin(w, cfg, w1, Relogin(w1, cfg, w1.disk.epoch), Own(evs)[0], evs, seg, more, named, renewed);
      evs := evs + more;
    }
  }

  // --------------------------------------------------------- the second session

  /** The messages of a second session: a denied one is a re-login that failed. */
  ghost function RetryWords(cfg: Config, seg: seq<Entry>, own: seq<StoreEvent>): seq<MessageKind> {
    if DeniedSession(seg) then Mail(cfg, ReloginFailed) else Words(cfg, false, seg, own)
  }

  /** The second session of a run. A denied one leaves the new identity where it is. */
  ghost predicate Retries(w: World, cfg: Config, renewal: Renewal, r: Ran, seg: seq<Entry>, evs: seq<StoreEvent>,
                          msgs: seq<MessageKind>) {
    && Grows(w, r.w, seg, evs, Mail(cfg, PasswordAuthExpiredRetry) + msgs, 1)
    && SessionAsks(cfg.browse, renewal.state, seg)
    && msgs == RetryWords(cfg, seg, Own(evs)) && Returns(seg, Own(evs), r.err)
    && Ends(Own(evs), msgs, r.err, cfg.hasNotifier)
    && PasswordAuthExpiredNextRun !in msgs
    && (ReloginFailed in msgs <==> cfg.hasNotifier && DeniedSession(seg))
    && (DeniedSession(seg) ==> evs == [] && r.w.disk == w.disk)
    && Snapshots(Own(evs), renewal.state, seg, renewal.epoch, false)
  }

  lemma RetryEnds(w: World, w0: World, cfg: Config, renewal: Renewal, r: Ran, seg: seq<Entry>, evs: seq<StoreEvent>,
                  msgs: seq<MessageKind>)
    requires Grows(w, w0, [], [], Mail(cfg, PasswordAuthExpiredRetry), 0) && w0.disk == w.disk
    requires SessionDoes(w0, cfg, renewal.state, renewal.epoch, false, r, seg, evs, msgs) && !IsAuthFailure(r.err)
    ensures Retries(w, cfg, renewal, r, seg, evs, msgs)
  {
    SessionEnds(w0, cfg, renewal.state, renewal.epoch, false, r, seg, evs, msgs);
    GrowsThen(w, w0, r.w, [], seg, [], evs, Mail(cfg, PasswordAuthExpiredRetry), msgs, 0, 1);
    assert [] + seg == seg && [] + evs == evs;
  }

  lemma NotedTwice(w: World, w0: World, w1: World, w2: World, seg: seq<Entry>, before: seq<MessageKind>, after: seq<MessageKind>)
    requires Grows(w, w0, [], [], before, 0) && Grows(w0, w1, seg, [], [], 1) && Grows(w1, w2, [], [], after, 0)
    ensures Grows(w, w2, seg, [], before + after, 1)
  {
    GrowsThen(w, w0, w1, [], seg, [], [], before, [], 0, 1);
    assert [] + seg == seg && before + [] == before;
    GrowsThen(w, w1, w2, seg, [], [], [], before, after, 1, 0);
    assert seg + [] == seg;
  }

  lemma RetryDenied(w: World, w0: World, cfg: Config, renewal: Renewal, r: Ran, w2: World, seg: seq<Entry>)
    requires Grows(w, w0, [], [], Mail(cfg, PasswordAuthExpiredRetry), 0) && w0.disk == w.disk
    requires Grows(r.w, w2, [], [], Mail(cfg, ReloginFailed), 0) && w2.disk == r.w.disk
    requires SessionDoes(w0, cfg, renewal.state, renewal.epoch, false, r, seg, [], []) && IsAuthFailure(r.err)
    ensures Retries(w, cfg, renewal, Ran(w2, r.err), seg, [], Mail(cfg, ReloginFailed))
  {
    NotedTwice(w, w0, r.w, w2, seg, Mail(cfg, PasswordAuthExpiredRetry), Mail(cfg, ReloginFailed));
  }

  lemma RetryFacts(w: World, cfg: Config, renewal: Renewal)
    returns (seg: seq<Entry>, evs: seq<StoreEvent>, msgs: seq<MessageKind>)
    ensures Retries(w, cfg, renewal, Retry(w, cfg, renewal), seg, evs, msgs)
  {
    var w0 := Notify(w, cfg, PasswordAuthExpiredRetry);
    NotifyFacts(w, cfg, PasswordAuthExpiredRetry);
    seg, evs, msgs := SessionFacts(w0, cfg, renewal.state, renewal.epoch, false);
    var r := RunWithSession(w0, cfg, renewal.state, renewal.epoch, false);
    if IsAuthFailure(r.err) {
      SessionEnds(w0, cfg, renewal.state, renewal.epoch, false, r, seg, evs, msgs);
      NotifyFacts(r.w, cfg, ReloginFailed);
      RetryDenied(w, w0, cfg, renewal, r, Notify(r.w, cfg, ReloginFailed), seg);
      msgs := Mail(cfg, ReloginFailed);
    } else {
      RetryEnds(w, w0, cfg, renewal, r, seg, evs, msgs);
    }
  }

  // --------------------------------------------- the part after a denied session

  /** All writes after a denied session that follow the reset: the re-login's, and the rotated
      identity of the second session. */
  function PurgePlan(user: string, epoch: nat, named: AuthState, renewed: AuthState, retry: seq<Entry>): seq<Write> {
    ReloginPlan(user, epoch, named, renewed) + [PutState(Replay(renewed, retry), epoch)]
  }

  /** The first own write is a reset. When it fails, the run ends there. When it succeeds, the
      whole database was empty at a higher epoch, and the writes that follow are, in this order
      and as far as each is saved: the user's account, a bare visitor id, the identity that a
      login under that visitor id obtained, and that identity as the second session rotated it,
      all at that epoch. That login is not tried before the first two are saved. Without retry
      there is none, and the database stays empty. */
  ghost predicate Purges(w: World, cfg: Config, r: Ran, own: seq<StoreEvent>, relogin: seq<Entry>, retry: seq<Entry>,
                         named: AuthState, renewed: AuthState) {
    && own != [] && own[0].write.Reset? && own[0].outcome != Stale
    && (forall i :: 0 <= i < |own| ==> own[i].who == if i < 4 then Expiring else Snapshotting)
    && (own[0].outcome == Failed ==> |own| == 1 && r.err.Some? && r.err.value.IsCode(RefreshIdentityResetFailed))
    && LogsIn(relogin, cfg, named.visitorID)
    && (relogin != [] ==> cfg.auth.retryOnAuthFailure && |own| > 2 && own[2].outcome == Saved)
    && (own[0].outcome == Saved ==>
          && own[0].disk.db == EMPTY && w.disk.epoch < own[0].disk.epoch
          && Follows(own[1..], PurgePlan(cfg.auth.username, own[0].disk.epoch, named, renewed, retry))
          && (|own| > 3 ==> Obtained(relogin, cfg, named.visitorID, renewed))
          && (if cfg.auth.retryOnAuthFailure then |own| > 1 && Drawn(w, named.visitorID) && named == AuthState("", "", named.visitorID)
              else |own| == 1 && r.w.disk.db == EMPTY))
  }

  /** Which message ends a run whose denied session was not followed by another. */
  function ExpiryWord(cfg: Config, own: seq<StoreEvent>): MessageKind
    requires own != []
  {
    var last := own[|own| - 1];
    if last.outcome == Stale then IdentityChanged
    else if last.write.Reset? && last.outcome == Failed then IdentityResetFailed
    else if cfg.auth.retryOnAuthFailure then ReloginFailed
    else PasswordAuthExpiredNextRun
  }

  /** The exact messages and result of a run after a denied session. A second session is opened
      exactly when the re-login's writes were all saved. Otherwise the fate of the last write
      decides, and without retry the run returns the first denial. */
  ghost predicate Narrates(cfg: Config, authErr: Error, own: seq<StoreEvent>, retry: seq<Entry>, msgs: seq<MessageKind>,
                           err: Option<Error>, again: bool)
    requires own != []
  {
    && (again <==> cfg.auth.retryOnAuthFailure && |own| > 3 && own[3].outcome == Saved)
    && if again then
         && msgs == Mail(cfg, PasswordAuthExpiredRetry) + RetryWords(cfg, retry, own[4..])
         && Returns(retry, own[4..], err)
       else
         && msgs == Mail(cfg, ExpiryWord(cfg, own)) && err.Some?
         && if cfg.auth.retryOnAuthFailure || own[0].outcome != Saved then FailsAs(own, err.value) else err.value == authErr
  }

  /** The language of a run's messages: at most one terminal message, after "expired, retrying"
      when a second session was opened; none only without a notifier or when the rotated
      identity was lost; the success message exactly for a nil error. */
  ghost predicate Told(own: seq<StoreEvent>, msgs: seq<MessageKind>, err: Option<Error>, hasNotifier: bool, again: bool) {
    if again && hasNotifier then msgs != [] && msgs[0] == PasswordAuthExpiredRetry && Ends(own, msgs[1..], err, true)
    else Ends(own, msgs, err, hasNotifier)
  }

  lemma EndsLonger(before: seq<StoreEvent>, own: seq<StoreEvent>, msgs: seq<MessageKind>, err: Option<Error>, hasNotifier: bool)
    requires Ends(own, msgs, err, hasNotifier)
    requires own == [] ==> !Lost(before)
    ensures Ends(before + own, msgs, err, hasNotifier)
  {
    if own == [] { assert before + own == before; }
  }

  /** What the messages after a denied session say about the store, against what it holds: the
      next-run message is right; the re-login message is right exactly when no second session
      was opened and a fault kept every identity out. */
  ghost predicate Honest(own: seq<StoreEvent>, msgs: seq<MessageKind>, db: Db, again: bool) {
    && (PasswordAuthExpiredNextRun in msgs ==> db == EMPTY)
    && (ReloginFailed in msgs ==> own != [] && (db.State() == NoAuth <==> !again && NothingStored(own)))
  }

  /** What a denied session leads to. */
  ghost predicate Aftermath(w: World, cfg: Config, authErr: Error, r: Ran, relogin: seq<Entry>, retry: seq<Entry>,
                            evs: seq<StoreEvent>, msgs: seq<MessageKind>, named: AuthState, renewed: AuthState, again: bool) {
    && Grows(w, r.w, relogin + retry, evs, msgs, if again then 1 else 0)
    && OnlyLogins(relogin, cfg.auth.username)
    && SessionAsks(cfg.browse, renewed, retry) && (!again ==> retry == [])
    && Purges(w, cfg, r, Own(evs), relogin, retry, named, renewed)
    && Narrates(cfg, authErr, Own(evs), retry, msgs, r.err, again)
    && (again ==> Snapshots(Own(evs)[4..], renewed, retry, Own(evs)[0].disk.epoch, false))
    && Told(Own(evs), msgs, r.err, cfg.hasNotifier, again)
    && Honest(Own(evs), msgs, r.w.disk.db, again)
  }

  lemma ExpiryPurges(w: World, cfg: Config, h: Expired, r: Ran, seg: seq<Entry>, evs: seq<StoreEvent>,
                     named: AuthState, renewed: AuthState)
    requires Expires(w, cfg, h, seg, evs, named, renewed) && r.w.disk == h.w.disk
    requires h.out.Failure? ==> r.err == Some(h.out.error)
    requires h.out.Success? ==> !h.out.value.retried
    ensures Purges(w, cfg, r, Own(evs), seg, [], named, renewed)
  {
    var own := Own(evs);
    if own[0].outcome == Saved {
      var plan := ReloginPlan(cfg.auth.username, own[0].disk.epoch, named, renewed);
      FollowsThen(own[1..], [], plan, PutState(Replay(renewed, []), own[0].disk.epoch));
      assert own[1..] + [] == own[1..];
    }
  }

  /** How an expired identity is reported when no second session follows. */
  ghost predicate Reports(cfg: Config, authErr: Error, h: Expired, kind: MessageKind, err: Error) {
    if h.out.Failure? then err == h.out.error && kind == ExpiryMessage(err)
    else !h.out.value.retried && kind == PasswordAuthExpiredNextRun && err == authErr
  }

  lemma ExpiryTells(w: World, cfg: Config, authErr: Error, h: Expired, err: Error, kind: MessageKind, seg: seq<Entry>,
                    evs: seq<StoreEvent>, named: AuthState, renewed: AuthState)
    requires Expires(w, cfg, h, seg, evs, named, renewed) && Reports(cfg, authErr, h, kind, err)
    ensures Told(Own(evs), Mail(cfg, kind), Some(err), cfg.hasNotifier, false)
    ensures Honest(Own(evs), Mail(cfg, kind), h.w.disk.db, false)
  {
    var own := Own(evs);
    if own[0].outcome == Saved {
      assert [own[0]] + own[1..] == own;
      NothingStoredBefore([own[0]], own[1..]);
    }
  }

  lemma FailureWord(cfg: Config, own: seq<StoreEvent>, err: Error)
    requires own != [] && FailsAs(own, err)
    requires own[|own| - 1].write.Reset? && own[|own| - 1].outcome == Saved ==> cfg.auth.retryOnAuthFailure
    requires !own[|own| - 1].write.Reset? ==> cfg.auth.retryOnAuthFailure
    ensures ExpiryMessage(err) == ExpiryWord(cfg, own)
  {
    assert IDENTITY_CHANGED.IsCode(RefreshIdentityChanged) && !IDENTITY_CHANGED.IsCode(RefreshIdentityResetFailed);
    if err.Foreign() { ForeignHasNoCode(err); }
  }

  lemma ExpiryFails(w: World, cfg: Config, h: Expired, seg: seq<Entry>, evs: seq<StoreEvent>, named: AuthState, renewed: AuthState)
    requires Expires(w, cfg, h, seg, evs, named, renewed) && h.out.Failure?
    ensures FailsAs(Own(evs), h.out.error) && (Own(evs)[0].outcome == Saved ==> cfg.auth.retryOnAuthFailure)
    ensures ExpiryMessage(h.out.error) == ExpiryWord(cfg, Own(evs))
  {
    var own := Own(evs);
    if own[0].outcome == Saved {
      assert [own[0]] + own[1..] == own;
      FailsRenewing(own[0], own[1..], h);
    }
    FailureWord(cfg, own, h.out.error);
  }

  lemma ExpiryNarrates(w: World, cfg: Config, authErr: Error, h: Expired, err: Error, kind: MessageKind, seg: seq<Entry>,
                       evs: seq<StoreEvent>, named: AuthState, renewed: AuthState)
    requires Expires(w, cfg, h, seg, evs, named, renewed) && Reports(cfg, authErr, h, kind, err)
    ensures Narrates(cfg, authErr, Own(evs), [], Mail(cfg, kind), Some(err), false)
  {
    if h.out.Failure? { ExpiryFails(w, cfg, h, seg, evs, named, renewed); }
  }

  lemma StopsAfterExpiry(w: World, cfg: Config, authErr: Error, h: Expired, err: Error, kind: MessageKind, seg: seq<Entry>,
                         evs: seq<StoreEvent>, named: AuthState, renewed: AuthState)
    requires Expires(w, cfg, h, seg, evs, named, renewed) && Reports(cfg, authErr, h, kind, err)
    ensures Aftermath(w, cfg, authErr, Ran(Notify(h.w, cfg, kind), Some(err)), seg, [], evs, Mail(cfg, kind), named, renewed, false)
  {
    ExpiryPurges(w, cfg, h, Ran(Notify(h.w, cfg, kind), Some(err)), seg, evs, named, renewed);
    ExpiryTells(w, cfg, authErr, h, err, kind, seg, evs, named, renewed);
    ExpiryNarrates(w, cfg, authErr, h, err, kind, seg, evs, named, renewed);
    NotifyFacts(h.w, cfg, kind);
    GrowsThen(w, h.w, Notify(h.w, cfg, kind), seg, [], evs, [], [], Mail(cfg, kind), 0, 0);
    assert evs + [] == evs && [] + Mail(cfg, kind) == Mail(cfg, kind);
  }

  lemma SnapshotFollows(own: seq<StoreEvent>, more: seq<StoreEvent>, plan: seq<Write>, extra: Write)
    requires |plan| == 3 && |own| == 4 && Follows(own[1..], plan) && own[3].outcome == Saved && AllBy(own, Expiring)
    requires more == [] || (|more| == 1 && more[0].write == extra && more[0].who == Snapshotting)
    ensures Follows((own + more)[1..], plan + [extra])
    ensures forall i :: 0 <= i < |own + more| ==> (own + more)[i].who == if i < 4 then Expiring else Snapshotting
  {
    assert own[3] == own[1..][2];
    FollowsThen(own[1..], more, plan, extra);
    assert (own + more)[1..] == own[1..] + more;
  }

  lemma RetryPurges(w: World, cfg: Config, h: Expired, r: Ran, seg: seq<Entry>, evs: seq<StoreEvent>, retry: seq<Entry>,
                    more: seq<StoreEvent>, named: AuthState, renewed: AuthState)
    requires Expires(w, cfg, h, seg, evs, named, renewed) && h.out.Success? && h.out.value.retried
    requires Snapshots(Own(more), h.out.value.state, retry, h.out.value.epoch, false)
    ensures Purges(w, cfg, r, Own(evs) + Own(more), seg, retry, named, renewed)
  {
    var own, epoch := Own(evs), Own(evs)[0].disk.epoch;
    assert own[|own| - 1] == own[1..][|own| - 2];
    SnapshotFollows(own, Own(more), ReloginPlan(cfg.auth.username, epoch, named, renewed), PutState(Replay(renewed, retry), epoch));
  }

  lemma RetryTells(w: World, cfg: Config, authErr: Error, h: Expired, r: Ran, seg: seq<Entry>, evs: seq<StoreEvent>,
                   retry: seq<Entry>, more: seq<StoreEvent>, msgs: seq<MessageKind>, named: AuthState, renewed: AuthState)
    requires Expires(w, cfg, h, seg, evs, named, renewed)
    requires h.out.Success? && h.out.value.retried && Retries(h.w, cfg, h.out.value, r, retry, more, msgs)
    ensures var own, all := Own(evs) + Own(more), Mail(cfg, PasswordAuthExpiredRetry) + msgs;
            && Honest(own, all, r.w.disk.db, true)
            && Narrates(cfg, authErr, own, retry, all, r.err, true)
            && own[4..] == Own(more)
            && h.out.value == Renewal(renewed, own[0].disk.epoch, true)
  {
    var own := Own(evs);
    assert [own[0]] + own[1..] == own;
    assert (own + Own(more))[4..] == Own(more);
  }

  lemma RetriesAfterExpiry(w: World, cfg: Config, authErr: Error, h: Expired, r: Ran, seg: seq<Entry>, evs: seq<StoreEvent>,
                           retry: seq<Entry>, more: seq<StoreEvent>, msgs: seq<MessageKind>, named: AuthState, renewed: AuthState)
    requires Expires(w, cfg, h, seg, evs, named, renewed)
    requires h.out.Success? && h.out.value.retried && Retries(h.w, cfg, h.out.value, r, retry, more, msgs)
    ensures Aftermath(w, cfg, authErr, r, seg, retry, evs + more, Mail(cfg, PasswordAuthExpiredRetry) + msgs, named, renewed, true)
  {
    var all := Mail(cfg, PasswordAuthExpiredRetry) + msgs;
    GrowsThen(w, h.w, r.w, seg, retry, evs, more, [], all, 0, 1);
    assert [] + all == all;
    RetryPurges(w, cfg, h, r, seg, evs, retry, more, named, renewed);
    RetryTells(w, cfg, authErr, h, r, seg, evs, retry, more, msgs, named, renewed);
    EndsLonger(Own(evs), Own(more), msgs, r.err, cfg.hasNotifier);
    if cfg.hasNotifier { assert all[1..] == msgs; } else { assert all == msgs; }
  }

  lemma AftermathFacts(w: World, cfg: Config, authErr: Error)
    returns (relogin: seq<Entry>, retry: seq<Entry>, evs: seq<StoreEvent>, msgs: seq<MessageKind>,
             named: AuthState, renewed: AuthState, again: bool)
    ensures Aftermath(w, cfg, authErr, HandlePasswordAuthExpired(w, cfg, authErr), relogin, retry, evs, msgs, named, renewed, again)
  {
    var h := HandleAuthExpired(w, cfg);
    relogin, evs, named, renewed := ExpiryFacts(w, cfg);
    again := h.out.Success? && h.out.value.retried;
    if again {
      var more;
      retry, more, msgs := RetryFacts(h.w, cfg, h.out.value);
      RetriesAfterExpiry(w, cfg, authErr, h, Retry(h.w, cfg, h.out.value), relogin, evs, retry, more, msgs, named, renewed);
      evs, msgs := evs + more, Mail(cfg, PasswordAuthExpiredRetry) + msgs;
    } else {
      var err := if h.out.Failure? then h.out.error else authErr;
      var kind := if h.out.Failure? then ExpiryMessage(err) else PasswordAuthExpiredNextRun;
      StopsAfterExpiry(w, cfg, authErr, h, err, kind, relogin, evs, named, renewed);
      retry, msgs := [], Mail(cfg, kind);
    }
  }
}
