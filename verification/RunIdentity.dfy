/** Whose identity a run shows: every request of its sessions goes to its own path on the configured
    host and, away from the unix endpoint, carries a token that belongs to the configured user. */
module RunIdentity {
  import opened Domain
  import opened World
  import opened RefreshSpec
  import Auth = AuthSpec
  import opened SessionTrace
  import opened SessionIdentity
  import opened Binding
  import opened RunOutcome
  import opened RunMeaning

  /** An identity this run may show: the configured one with a device id of its own or, in password
      mode, one whose token a login of the configured user obtained. */
  ghost predicate Genuine(log: seq<Entry>, cfg: Config, s: AuthState) {
    && s.token != "" && s.visitorID != ""
    && if cfg.auth.tokenAuth.Empty() then Auth.IssuedIn(log, s.token, cfg.auth.username)
       else s.token == cfg.auth.tokenAuth.token && s.visitorID == cfg.auth.tokenAuth.visitorID
  }

  /** The request shows such an identity, as its path demands. */
  ghost predicate ShowsGenuine(e: Entry, log: seq<Entry>, cfg: Config) {
    e.Sent? ==> exists s :: Genuine(log, cfg, s) && ShowsByPath(e.req, cfg.browse.apiHost, s)
  }

  lemma SessionIsGenuine(seg: seq<Entry>, log: seq<Entry>, cfg: Config, start: AuthState)
    requires SessionAsks(cfg.browse, start, seg) && Genuine(log, cfg, start) && '/' !in cfg.browse.apiHost
    ensures forall e :: e in seg ==> ShowsGenuine(e, log, cfg)
  {
    forall k | 0 <= k < |seg| && seg[k].Sent? ensures ShowsGenuine(seg[k], log, cfg) {
      var now := Replay(start, seg[..k]);
      ReplayMeaning(start, seg[..k]);
      AskedShows(seg[k], cfg.browse, now);
      assert Genuine(log, cfg, now);
    }
  }

  lemma ResolvedIsGenuine(w: World, cfg: Config)
    requires Safe(w) && (cfg.auth.tokenAuth.Empty() ==> cfg.auth.username != "")
    ensures var r := Resolve(w, cfg); r.out.Success? ==> Genuine(r.w.log, cfg, r.out.value.state)
  {
    ResolvedIsComplete(w, cfg);
    if cfg.auth.tokenAuth.Empty() { ResolveMeaning(w, cfg); }
  }

  /** The identity of a first session. */
  lemma StartIsGenuine(log: seq<Entry>, cfg: Config, st: Story)
    requires Genuine(log + st.login, cfg, st.start.state)
    ensures Genuine(log + st.Log(), cfg, st.start.state)
  {
    var later := st.session + (st.relogin + st.retry);
    if cfg.auth.tokenAuth.Empty() { IssuedGrows(log + st.login, later, st.start.state.token, cfg.auth.username); }
    assert log + st.Log() == log + st.login + later;
  }

  lemma RenewedIsGenuine(log: seq<Entry>, cfg: Config, st: Story)
    requires cfg.auth.tokenAuth.Empty() && st.renewed.Complete()
    requires Auth.IssuedIn(st.relogin, st.renewed.token, cfg.auth.username)
    ensures Genuine(log + st.Log(), cfg, st.renewed)
  {
    var e :| e in st.relogin && Auth.Issues(e, st.renewed.token, cfg.auth.username);
    assert e in log + st.Log();
  }

  /** For every tape, from every safe world: each request of a run is a login of the configured user,
      or it shows by its path an identity of that user: in token mode the configured one, in
      password mode one whose token such a login obtained. */
  lemma NoForeignRequest(w: World, cfg: Config) returns (seg: seq<Entry>)
    requires Safe(w) && (cfg.auth.tokenAuth.Empty() ==> cfg.auth.username != "") && '/' !in cfg.browse.apiHost
    ensures Run(w, cfg).w.log == w.log + seg
    ensures forall e :: e in seg && e.Sent? ==>
              Auth.IsLogin(e, cfg.auth.username) || ShowsGenuine(e, w.log + seg, cfg)
  {
    var st := RunTells(w, cfg);
    seg := st.Log();
    if st.sessions > 0 {
      ResolvedIsGenuine(w, cfg);
      StartIsGenuine(w.log, cfg, st);
      SessionIsGenuine(st.session, w.log + seg, cfg, st.start.state);
    }
    if st.sessions == 2 {
      RenewedIsGenuine(w.log, cfg, st);
      SessionIsGenuine(st.retry, w.log + seg, cfg, st.renewed);
    }
  }
}
