/** The promises of a whole run, for every server, disk and interfering client: how much it
    asks of the server, which messages it sends, what it purges and what it persists. */
module RunMeaning {
  import opened Domain
  import opened Store
  import opened World
  import opened RefreshSpec
  import Auth = AuthSpec
  import opened SessionTrace
  import opened RunTrace
  import opened Binding
  import opened RunGrowth
  import opened Resolving
  import opened RunOutcome
  import opened RunAftermath

  /** The parts of a run: a login, a session and, after a denied session, maybe both again; the
      identities that the sessions started from; and the error that the first session ended with. */
  datatype Story = Story(
    login: seq<Entry>,
    session: seq<Entry>,
    relogin: seq<Entry>,
    retry: seq<Entry>,
    resolving: seq<StoreEvent>,
    rest: seq<StoreEvent>,
    msgs: seq<MessageKind>,
    sessions: nat,
    start: Identity,
    renewed: AuthState,
    first: Option<Error>)
  {
    function Log(): seq<Entry> { login + (session + (relogin + retry)) }

    function Events(): seq<StoreEvent> { resolving + rest }
  }

  /** How a run goes on, read off its traces. Without an identity it says so and ends. A first
      session that the server denied leads, in password mode and only then, to a purge and what
      follows it. Any other first session is the last, and its own trace and write decide. */
  ghost predicate Unfolds(cfg: Config, st: Story, err: Option<Error>) {
    var own, tokenMode := Own(st.rest), !cfg.auth.tokenAuth.Empty();
    if st.sessions == 0 then
      st.msgs == Mail(cfg, RefreshFailed) && err.Some? && own == [] && st.relogin == []
    else if !tokenMode && DeniedSession(st.session) then
      && own != [] && own[0].write.Reset?
      && st.first.Some? && Explains(Culprit(st.session, 31), st.first.value)
      && Narrates(cfg, st.first.value, own, st.retry, st.msgs, err, st.sessions == 2)
    else
      && st.sessions == 1 && st.relogin == []
      && st.msgs == Words(cfg, tokenMode, st.session, own) && Returns(st.session, own, err)
      && Snapshots(own, st.start.state, st.session, st.start.epoch, tokenMode)
  }

  ghost predicate Tells(w: World, cfg: Config, r: Ran, st: Story) {
    && Grows(w, r.w, st.Log(), st.Events(), st.msgs, st.sessions)
    && OnlyLogins(st.login, cfg.auth.username) && OnlyLogins(st.relogin, cfg.auth.username)
    && SessionAsks(cfg.browse, st.start.state, st.session) && SessionAsks(cfg.browse, st.renewed, st.retry)
    && st.sessions <= 2 && (st.sessions < 2 ==> st.retry == []) && (st.sessions == 0 ==> st.session == [])
    && ResetFirst(Own(st.resolving), Resolving)
    && AtMostOneReset(Own(st.rest))
    && Told(Own(st.resolving) + Own(st.rest), st.msgs, r.err, cfg.hasNotifier, st.sessions == 2)
    && (!cfg.auth.tokenAuth.Empty() ==>
          st.login == [] && st.relogin == [] && st.Events() == [] && st.sessions < 2 && r.w.disk == w.disk)
    && Honest(Own(st.rest), st.msgs, r.w.disk.db, st.sessions == 2)
  }

  /** Only the first of these writes may be a reset. */
  ghost predicate AtMostOneReset(own: seq<StoreEvent>) {
    forall i :: 0 < i < |own| ==> !own[i].write.Reset?
  }

  lemma UnresolvedTells(w: World, cfg: Config, r: Resolved, err: Error, login: seq<Entry>, evs: seq<StoreEvent>)
    returns (st: Story)
    requires Renews(w, r.w, cfg.auth.username, login, evs, Resolving)
    requires r.tokenMode <==> !cfg.auth.tokenAuth.Empty()
    requires r.tokenMode ==> r.w == w && login == [] && evs == []
    ensures Tells(w, cfg, Ran(Notify(r.w, cfg, RefreshFailed), Some(err)), st)
    ensures Unfolds(cfg, st, Some(err)) && st.sessions == 0
  {
    var w1 := Notify(r.w, cfg, RefreshFailed);
    st := Story(login, [], [], [], evs, [], Mail(cfg, RefreshFailed), 0, Identity(NoAuth, 0), NoAuth, None);
    NotifyFacts(r.w, cfg, RefreshFailed);
    GrowsThen(w, r.w, w1, login, [], evs, [], [], Mail(cfg, RefreshFailed), 0, 0);
    assert st.Log() == login + [];
    assert [] + st.msgs == st.msgs;
  }

  lemma SessionGrows(w: World, w1: World, w2: World, login: seq<Entry>, session: seq<Entry>, evs: seq<StoreEvent>,
                     more: seq<StoreEvent>, msgs: seq<MessageKind>)
    requires Grows(w, w1, login, evs, [], 0) && Grows(w1, w2, session, more, msgs, 1)
    ensures Grows(w, w2, login + (session + ([] + [])), evs + more, msgs, 1)
  {
    GrowsThen(w, w1, w2, login, session, evs, more, [], msgs, 0, 1);
    assert session + ([] + []) == session && [] + msgs == msgs;
  }

  /** A run that ends with its first session. */
  lemma OneSessionTells(w: World, cfg: Config, r: Resolved, s: Ran, login: seq<Entry>, evs: seq<StoreEvent>,
                        start: Identity, session: seq<Entry>, more: seq<StoreEvent>, msgs: seq<MessageKind>)
    returns (st: Story)
    requires Renews(w, r.w, cfg.auth.username, login, evs, Resolving)
    requires r.tokenMode <==> !cfg.auth.tokenAuth.Empty()
    requires r.tokenMode ==> r.w == w && login == [] && evs == []
    requires SessionDoes(r.w, cfg, start.state, start.epoch, r.tokenMode, s, session, more, msgs)
    requires r.tokenMode || !IsAuthFailure(s.err)
    ensures Tells(w, cfg, s, st)
    ensures Unfolds(cfg, st, s.err) && st.sessions == 1 && st.start == start && st.login == login && st.session == session
  {
    st := Story(login, session, [], [], evs, more, msgs, 1, start, NoAuth, s.err);
    SessionEnds(r.w, cfg, start.state, start.epoch, r.tokenMode, s, session, more, msgs);
    SessionGrows(w, r.w, s.w, login, session, evs, more, msgs);
    EndsLonger(Own(evs), Own(more), msgs, s.err, cfg.hasNotifier);
  }

  lemma ToldLonger(before: seq<StoreEvent>, own: seq<StoreEvent>, msgs: seq<MessageKind>, err: Option<Error>,
                   hasNotifier: bool, again: bool)
    requires Told(own, msgs, err, hasNotifier, again) && own != []
    ensures Told(before + own, msgs, err, hasNotifier, again)
  {
    EndsLonger(before, own, if again && hasNotifier then msgs[1..] else msgs, err, hasNotifier);
  }

  lemma PurgeResetsOnce(w: World, cfg: Config, r: Ran, own: seq<StoreEvent>, relogin: seq<Entry>, retry: seq<Entry>,
                        named: AuthState, renewed: AuthState)
    requires Purges(w, cfg, r, own, relogin, retry, named, renewed)
    ensures AtMostOneReset(own)
  {
    forall i | 0 < i < |own| ensures !own[i].write.Reset? { assert own[i] == own[1..][i - 1]; }
  }

  /** A run whose first session was denied. */
  lemma DeniedTells(w: World, cfg: Config, w1: World, w2: World, z: Ran, login: seq<Entry>, evs: seq<StoreEvent>,
                    start: Identity, authErr: Error, session: seq<Entry>, relogin: seq<Entry>, retry: seq<Entry>,
                    rest: seq<StoreEvent>, msgs: seq<MessageKind>, named: AuthState, renewed: AuthState, again: bool)
    returns (st: Story)
    requires cfg.auth.tokenAuth.Empty()
    requires Renews(w, w1, cfg.auth.username, login, evs, Resolving)
    requires Grows(w1, w2, session, [], [], 1) && SessionAsks(cfg.browse, start.state, session)
    requires Aftermath(w2, cfg, authErr, z, relogin, retry, rest, msgs, named, renewed, again)
    ensures Tells(w, cfg, z, st)
    ensures st == Story(login, session, relogin, retry, evs, rest, msgs, if again then 2 else 1, start, renewed, Some(authErr))
  {
    st := Story(login, session, relogin, retry, evs, rest, msgs, if again then 2 else 1, start, renewed, Some(authErr));
    DeniedGrows(w, w1, w2, z.w, login, evs, session, relogin, retry, rest, msgs, st.sessions);
    ToldLonger(Own(evs), Own(rest), msgs, z.err, cfg.hasNotifier, again);
    PurgeResetsOnce(w2, cfg, z, Own(rest), relogin, retry, named, renewed);
  }

  lemma DeniedGrows(w: World, w1: World, w2: World, w3: World, login: seq<Entry>, evs: seq<StoreEvent>,
                    session: seq<Entry>, relogin: seq<Entry>, retry: seq<Entry>, rest: seq<StoreEvent>,
                    msgs: seq<MessageKind>, sessions: nat)
    requires sessions >= 1
    requires Grows(w, w1, login, evs, [], 0) && Grows(w1, w2, session, [], [], 1)
    requires Grows(w2, w3, relogin + retry, rest, msgs, sessions - 1)
    ensures Grows(w, w3, login + (session + (relogin + retry)), evs + rest, msgs, sessions)
  {
    GrowsThen(w1, w2, w3, session, relogin + retry, [], rest, [], msgs, 1, sessions - 1);
    assert [] + rest == rest && [] + msgs == msgs;
    GrowsThen(w, w1, w3, login, session + (relogin + retry), evs, rest, [], msgs, 0, sessions);
  }

  /** The identities of a story, traced to where they came from. */
  ghost predicate Traced(w: World, cfg: Config, st: Story) {
    var r := Resolve(w, cfg);
    && (st.sessions > 0 <==> r.out.Success?)
    && (st.sessions > 0 ==> st.start == r.out.value && r.w.log == w.log + st.login)
    && (st.sessions == 2 ==> st.renewed.Complete() && Auth.IssuedIn(st.relogin, st.renewed.token, cfg.auth.username))
  }

  lemma DeniedUnfolds(w: World, cfg: Config, w2: World, z: Ran, st: Story, named: AuthState)
    requires cfg.auth.tokenAuth.Empty() && DeniedSession(st.session) && 1 <= st.sessions <= 2
    requires st.first.Some? && Explains(Culprit(st.session, 31), st.first.value)
    requires Aftermath(w2, cfg, st.first.value, z, st.relogin, st.retry, st.rest, st.msgs, named, st.renewed, st.sessions == 2)
    ensures Unfolds(cfg, st, z.err)
    ensures st.sessions == 2 ==> st.renewed.Complete() && Auth.IssuedIn(st.relogin, st.renewed.token, cfg.auth.username)
  {}

  /** A run whose first session ended with an authentication failure. */
  lemma DeniedRunTells(w: World, cfg: Config, r: Resolved, s: Ran, login: seq<Entry>, evs: seq<StoreEvent>, session: seq<Entry>)
    returns (st: Story)
    requires cfg.auth.tokenAuth.Empty() && r.out.Success? && IsAuthFailure(s.err)
    requires Renews(w, r.w, cfg.auth.username, login, evs, Resolving)
    requires Grows(r.w, s.w, session, [], [], 1) && SessionAsks(cfg.browse, r.out.value.state, session)
    requires DeniedSession(session) && Explains(Culprit(session, 31), s.err.value)
    ensures var z := HandlePasswordAuthExpired(s.w, cfg, s.err.value); Tells(w, cfg, z, st) && Unfolds(cfg, st, z.err)
    ensures st.sessions >= 1 && st.start == r.out.value && st.login == login
    ensures st.sessions == 2 ==> st.renewed.Complete() && Auth.IssuedIn(st.relogin, st.renewed.token, cfg.auth.username)
  {
    var z := HandlePasswordAuthExpired(s.w, cfg, s.err.value);
    var relogin, retry, rest, mail, named, renewed, again := AftermathFacts(s.w, cfg, s.err.value);
    st := DeniedTells(w, cfg, r.w, s.w, z, login, evs, r.out.value, s.err.value, session, relogin, retry, rest, mail,
                      named, renewed, again);
    DeniedUnfolds(w, cfg, s.w, z, st, named);
  }

  /** A run once the identity is resolved. */
  lemma ResolvedTells(w: World, cfg: Config, login: seq<Entry>, evs: seq<StoreEvent>) returns (st: Story)
    requires var r := Resolve(w, cfg);
             && r.out.Success? && Renews(w, r.w, cfg.auth.username, login, evs, Resolving)
             && (r.tokenMode <==> !cfg.auth.tokenAuth.Empty())
             && (r.tokenMode ==> r.w == w && login == [] && evs == [])
    ensures Tells(w, cfg, Run(w, cfg), st) && Unfolds(cfg, st, Run(w, cfg).err) && Traced(w, cfg, st)
  {
    var r := Resolve(w, cfg);
    var id := r.out.value;
    var s := RunWithSession(r.w, cfg, id.state, id.epoch, r.tokenMode);
    var session, more, msgs := SessionFacts(r.w, cfg, id.state, id.epoch, r.tokenMode);
    if IsAuthFailure(s.err) && !r.tokenMode {
      SessionEnds(r.w, cfg, id.state, id.epoch, r.tokenMode, s, session, more, msgs);
      st := DeniedRunTells(w, cfg, r, s, login, evs, session);
    } else {
      st := OneSessionTells(w, cfg, r, s, login, evs, id, session, more, msgs);
    }
  }

  /** For every tape: the story of a run. */
  lemma RunTells(w: World, cfg: Config) returns (st: Story)
    ensures Tells(w, cfg, Run(w, cfg), st)
    ensures Unfolds(cfg, st, Run(w, cfg).err)
    ensures Traced(w, cfg, st)
  {
    var r := Resolve(w, cfg);
    var login, evs := ResolvingFacts(w, cfg);
    if r.out.Failure? {
      st := UnresolvedTells(w, cfg, r, r.out.error, login, evs);
    } else {
      st := ResolvedTells(w, cfg, login, evs);
    }
  }

  // -------------------------------------------------------------- how much

  function ResetCount(own: seq<StoreEvent>): nat {
    if own == [] then 0
    else ResetCount(own[..|own| - 1]) + if own[|own| - 1].write.Reset? then 1 else 0
  }

  lemma {:induction false} ResetCountConcat(a: seq<StoreEvent>, b: seq<StoreEvent>)
    ensures ResetCount(a + b) == ResetCount(a) + ResetCount(b)
  {
    if b == [] {
      assert a + b == a;
    } else {
      assert (a + b)[..|a + b| - 1] == a + b[..|b| - 1];
      ResetCountConcat(a, b[..|b| - 1]);
    }
  }

  lemma {:induction false} OneResetCount(own: seq<StoreEvent>)
    requires AtMostOneReset(own)
    ensures ResetCount(own) <= 1
  {
    if own != [] {
      OneResetCount(own[..|own| - 1]);
      if |own| == 1 { assert own[..0] == []; }
    }
  }

  /** Every run ends, and asks the server at most 148 times: two logins of at most two requests
      each and two sessions of at most 72. It resets the store at most twice. With a token
      from the configuration it is at most 72, no login, and no access to the store at all. */
  lemma RequestBound(w: World, cfg: Config) returns (st: Story)
    ensures var r := Run(w, cfg);
            && r.w.log == w.log + st.Log() && r.w.events == w.events + st.Events()
            && OnlyLogins(st.login, cfg.auth.username) && OnlyLogins(st.relogin, cfg.auth.username)
            && |st.session| <= 72 && NoLogins(st.session) && |st.retry| <= 72 && NoLogins(st.retry)
            && |r.w.log| <= |w.log| + 148
            && r.w.sessions <= w.sessions + 2
            && ResetCount(Own(st.Events())) <= 2
            && (!cfg.auth.tokenAuth.Empty() ==>
                  |r.w.log| <= |w.log| + 72 && NoLogins(st.Log()) && r.w.disk == w.disk && r.w.events == w.events)
  {
    st := RunTells(w, cfg);
    OwnConcat(st.resolving, st.rest);
    ResetCountConcat(Own(st.resolving), Own(st.rest));
    OneResetCount(Own(st.resolving));
    OneResetCount(Own(st.rest));
  }

  // -------------------------------------------------------------- the messages

  /** What a story tells of the messages. */
  lemma ToldBy(w: World, cfg: Config, r: Ran, st: Story)
    requires Tells(w, cfg, r, st)
    ensures r.w.notes == w.notes + st.msgs && r.w.sessions == w.sessions + st.sessions
    ensures Told(Own(st.Events()), st.msgs, r.err, cfg.hasNotifier, st.sessions == 2)
  {
    OwnConcat(st.resolving, st.rest);
  }

  lemma WordsOf(notes: seq<MessageKind>, own: seq<StoreEvent>, msgs: seq<MessageKind>, err: Option<Error>, again: bool)
    returns (terminal: seq<MessageKind>)
    requires Told(own, msgs, err, true, again)
    ensures notes + msgs == notes + (if again then [PasswordAuthExpiredRetry] else []) + terminal
    ensures Ends(own, terminal, err, true)
  {
    if again {
      terminal := msgs[1..];
      assert msgs == [PasswordAuthExpiredRetry] + terminal;
      assert notes + [PasswordAuthExpiredRetry] + terminal == notes + msgs;
    } else {
      terminal := msgs;
      assert notes + [] + terminal == notes + msgs;
    }
  }

  lemma SilenceOf(w: World, cfg: Config, r: Ran, st: Story)
    requires Tells(w, cfg, r, st) && !cfg.hasNotifier
    ensures r.w.notes == w.notes
  {
    assert w.notes + [] == w.notes;
  }

  /** The messages of a run. Without a notifier there are none. With one there is exactly one
      terminal message, after "expired, retrying" exactly when a second session was opened; the
      terminal message is missing exactly when the disk reported a fault for a session's
      rotated identity; and the success message is sent exactly when the run returns no error. */
  lemma NotificationLanguage(w: World, cfg: Config) returns (evs: seq<StoreEvent>, terminal: seq<MessageKind>)
    ensures var r := Run(w, cfg);
            && r.w.events == w.events + evs
            && (!cfg.hasNotifier ==> r.w.notes == w.notes)
            && (cfg.hasNotifier ==>
                  && r.w.notes == w.notes + (if r.w.sessions == w.sessions + 2 then [PasswordAuthExpiredRetry] else []) + terminal
                  && |terminal| <= 1 && PasswordAuthExpiredRetry !in terminal
                  && (terminal == [] <==> Lost(Own(evs)))
                  && (terminal == [RefreshSucceeded] <==> r.err.None?))
  {
    var st := RunTells(w, cfg);
    evs, terminal := st.Events(), [];
    if cfg.hasNotifier {
      ToldBy(w, cfg, Run(w, cfg), st);
      terminal := WordsOf(w.notes, Own(evs), st.msgs, Run(w, cfg).err, st.sessions == 2);
    } else {
      SilenceOf(w, cfg, Run(w, cfg), st);
    }
  }

  /** Two closing messages say that token, device id and visitor id are cleared: when that is so. */
  ghost predicate ClearedAsSaid(w: World, r: Ran, own: seq<StoreEvent>) {
    && (r.w.notes == w.notes + [PasswordAuthExpiredNextRun] ==> r.w.disk.db == EMPTY)
    && (r.w.notes == w.notes + [ReloginFailed] || r.w.notes == w.notes + [PasswordAuthExpiredRetry, ReloginFailed] ==>
          (r.w.disk.db.State() == NoAuth <==> r.w.sessions != w.sessions + 2 && NothingStored(own)))
  }

  lemma MessagesOf(w: World, cfg: Config, r: Ran, st: Story, mail: seq<MessageKind>)
    requires Tells(w, cfg, r, st) && r.w.notes == w.notes + mail
    ensures mail == st.msgs
  {
    assert r.w.notes[|w.notes|..] == st.msgs;
  }

  lemma HonestRun(w: World, cfg: Config, r: Ran, st: Story)
    requires Tells(w, cfg, r, st)
    ensures ClearedAsSaid(w, r, Own(st.Events()))
  {
    OwnConcat(st.resolving, st.rest);
    if r.w.notes == w.notes + [PasswordAuthExpiredNextRun] { MessagesOf(w, cfg, r, st, [PasswordAuthExpiredNextRun]); }
    if r.w.notes == w.notes + [ReloginFailed] { MessagesOf(w, cfg, r, st, [ReloginFailed]); }
    if r.w.notes == w.notes + [PasswordAuthExpiredRetry, ReloginFailed] {
      MessagesOf(w, cfg, r, st, [PasswordAuthExpiredRetry, ReloginFailed]);
    }
  }

  /** The message that puts the login off to the next run is always right about that. The one
      that says the re-login failed is right exactly when no second session was opened and the
      last own write met a fault that kept every identity out: the write of the account, or that
      of the bare visitor id without landing. */
  lemma ReloginFailedMessage(w: World, cfg: Config) returns (evs: seq<StoreEvent>)
    ensures Run(w, cfg).w.events == w.events + evs
    ensures ClearedAsSaid(w, Run(w, cfg), Own(evs))
  {
    var st := RunTells(w, cfg);
    evs := st.Events();
    HonestRun(w, cfg, Run(w, cfg), st);
  }

  /** The message "expired, retrying" says that everything is cleared and the login comes next.
      When it is sent, that is behind: the database was empty right after the purge, and now
      holds the identity that the re-login obtained, token included. */
  lemma RetryMessageIsLate(w: World, cfg: Config, authErr: Error) returns (evs: seq<StoreEvent>)
    requires HandleAuthExpired(w, cfg).out.Success? && HandleAuthExpired(w, cfg).out.value.retried
    ensures var h := HandleAuthExpired(w, cfg);
            && HandlePasswordAuthExpired(w, cfg, authErr) == Retry(h.w, cfg, h.out.value)
            && h.w.events == w.events + evs && h.w.notes == w.notes
            && Own(evs) != [] && Own(evs)[0].write.Reset? && Own(evs)[0].disk.db == EMPTY
            && h.w.disk.db.State() == h.out.value.state && h.out.value.state.token != ""
  {
    var seg, named, renewed;
    seg, evs, named, renewed := ExpiryFacts(w, cfg);
    assert w.notes + [] == w.notes;
  }

  // ------------------------------------------------------ purge and persistence

  /** A password session: denied as its trace says, and then it left nothing behind. */
  lemma DenialChangesNothing(w: World, cfg: Config, id: Identity, s: Ran) returns (session: seq<Entry>, evs: seq<StoreEvent>)
    requires s == RunWithSession(w, cfg, id.state, id.epoch, false)
    ensures s.w.log == w.log + session && s.w.events == w.events + evs
    ensures IsAuthFailure(s.err) <==> DeniedSession(session)
    ensures |Own(evs)| <= 1 && (Own(evs) != [] ==> Own(evs)[0].write.PutState?)
    ensures IsAuthFailure(s.err) ==> evs == [] && s.w.disk == w.disk && s.w.notes == w.notes
  {
    var msgs;
    session, evs, msgs := SessionFacts(w, cfg, id.state, id.epoch, false);
    SessionEnds(w, cfg, id.state, id.epoch, false, s, session, evs, msgs);
    assert w.notes + [] == w.notes;
  }

  lemma AfterResolving(w: World, cfg: Config, res: Resolved, s: Ran)
    requires cfg.auth.tokenAuth.Empty()
    requires res == Resolve(w, cfg) && res.out.Success?
    requires s == RunWithSession(res.w, cfg, res.out.value.state, res.out.value.epoch, false)
    ensures Run(w, cfg) == if IsAuthFailure(s.err) then HandlePasswordAuthExpired(s.w, cfg, s.err.value) else s
  {
    var login, resolving := ResolvingFacts(w, cfg);
    assert Run(w, cfg) == AfterSession(s, cfg, res.tokenMode);
  }

  lemma PurgesAfterwards(w: World, cfg: Config, authErr: Error)
    returns (evs: seq<StoreEvent>, relogin: seq<Entry>, retry: seq<Entry>, named: AuthState, renewed: AuthState)
    ensures var r := HandlePasswordAuthExpired(w, cfg, authErr);
            && r.w.events == w.events + evs && r.w.log == w.log + (relogin + retry)
            && Purges(w, cfg, r, Own(evs), relogin, retry, named, renewed)
  {
    var msgs, again;
    relogin, retry, evs, msgs, named, renewed, again := AftermathFacts(w, cfg, authErr);
  }

  /** The purge, read off the trace of a password run's first session. Unless the server denied
      it, the run ends with that session and resets nothing. When it did, nothing of the session
      was written, and the next own write is a reset. When that succeeds, all four keys were empty
      together at a higher epoch, and every later write of the run is the account, a bare visitor
      id, what a login under that visitor id obtained, or that as the second session rotated it,
      at that epoch; without retry the database ends empty. When the reset fails, the run stops
      and says so. */
  lemma PurgeOnDenial(w: World, cfg: Config, res: Resolved, s: Ran)
    returns (session: seq<Entry>, evs: seq<StoreEvent>, relogin: seq<Entry>, retry: seq<Entry>, named: AuthState, renewed: AuthState)
    requires cfg.auth.tokenAuth.Empty()
    requires res == Resolve(w, cfg) && res.out.Success?
    requires s == RunWithSession(res.w, cfg, res.out.value.state, res.out.value.epoch, false)
    ensures s.w.log == res.w.log + session
    ensures !DeniedSession(session) ==>
              Run(w, cfg) == s && s.w.events == res.w.events + evs
              && |Own(evs)| <= 1 && (Own(evs) != [] ==> Own(evs)[0].write.PutState?)
    ensures DeniedSession(session) ==>
              && s.w.events == res.w.events && s.w.disk == res.w.disk && s.w.notes == res.w.notes
              && Run(w, cfg).w.events == s.w.events + evs && Run(w, cfg).w.log == s.w.log + (relogin + retry)
              && Purges(s.w, cfg, Run(w, cfg), Own(evs), relogin, retry, named, renewed)
  {
    session, evs := DenialChangesNothing(res.w, cfg, res.out.value, s);
    relogin, retry, named, renewed := [], [], NoAuth, NoAuth;
    AfterResolving(w, cfg, res, s);
    if DeniedSession(session) {
      assert res.w.events + [] == res.w.events;
      evs, relogin, retry, named, renewed := PurgesAfterwards(s.w, cfg, s.err.value);
    }
  }

  /** A session that started from the identity the store held for the user: unless it was
      denied, or the disk reported a fault, or another client reset, the store ends up holding
      the starting identity with the last device id the server sent. */
  lemma SessionPersists(w: World, cfg: Config, state: AuthState, epoch: nat) returns (seg: seq<Entry>, evs: seq<StoreEvent>)
    requires Holds(w, state, cfg.auth.username, epoch)
    ensures var s := RunWithSession(w, cfg, state, epoch, false);
            && s.w.log == w.log + seg && s.w.events == w.events + evs
            && (!IsAuthFailure(s.err) && !Lost(Own(evs)) && s.w.disk.epoch == epoch ==>
                  s.w.disk.db == Db(state.token, LastDid(state.did, seg), state.visitorID, cfg.auth.username))
  {
    var msgs;
    seg, evs, msgs := SessionFacts(w, cfg, state, epoch, false);
    ReplayMeaning(state, seg);
    var s := RunWithSession(w, cfg, state, epoch, false);
    if !IsAuthFailure(s.err) && !Lost(Own(evs)) && s.w.disk.epoch == epoch {
      SessionSaves(w, cfg, state, epoch, s, seg, evs, msgs);
    }
  }

  /** The last session of a password run persists its rotated identity, be it the first one
      or the one after a re-login. */
  lemma RunPersists(w: World, cfg: Config) returns (state: AuthState, seg: seq<Entry>, evs: seq<StoreEvent>)
    requires Safe(w) && cfg.auth.tokenAuth.Empty() && cfg.auth.username != ""
    ensures var res := Resolve(w, cfg);
            res.out.Success? ==>
              var r := Run(w, cfg);
              var s := RunWithSession(res.w, cfg, res.out.value.state, res.out.value.epoch, false);
              var h := HandleAuthExpired(s.w, cfg);
              var again := IsAuthFailure(s.err) && h.out.Success? && h.out.value.retried;
              var before := if again then h.w else res.w;
              var epoch := if again then h.out.value.epoch else res.out.value.epoch;
              !IsAuthFailure(s.err) || again ==>
                && state == (if again then h.out.value.state else res.out.value.state)
                && r.w.log == before.log + seg && r.w.events == before.events + evs
                && (!IsAuthFailure(r.err) && !Lost(Own(evs)) && r.w.disk.epoch == epoch ==>
                      r.w.disk.db == Db(state.token, LastDid(state.did, seg), state.visitorID, cfg.auth.username))
  {
    var res := Resolve(w, cfg);
    ResolveMeaning(w, cfg);
    state, seg, evs := NoAuth, [], [];
    if res.out.Success? {
      var id := res.out.value;
      state := id.state;
      seg, evs := SessionPersists(res.w, cfg, id.state, id.epoch);
      var s := RunWithSession(res.w, cfg, id.state, id.epoch, false);
      if IsAuthFailure(s.err) {
        SessionKeeps(res.w, cfg, id.state, id.epoch, false);
        RenewalKeeps(s.w, cfg);
        var h := HandleAuthExpired(s.w, cfg);
        if h.out.Success? && h.out.value.retried {
          var w0 := Notify(h.w, cfg, PasswordAuthExpiredRetry);
          state := h.out.value.state;
          seg, evs := SessionPersists(w0, cfg, state, h.out.value.epoch);
        }
      }
    }
  }
}
