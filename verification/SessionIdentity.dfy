/** Which identity every request of a session shows to the server, by the path it asks: nothing of
    it on the unix endpoint, and everywhere else the token, the device id as the responses so far
    have left it, and the visitor id. */
module SessionIdentity {
  import opened Domain
  import opened World
  import opened Transport
  import opened BrowseSpec
  import opened RefreshSpec
  import opened SessionTrace
  import opened SessionScript
  import opened RunTrace

  /** The unix endpoint, or one with a plain path. */
  predicate InUse(p: Endpoint) { p == Endpoint(GET, UNIX_PATH, NoArgs) || (Plain(p.path) && p.path != UNIX_PATH) }

  /** The attempt asks some such endpoint, as the client is configured. */
  ghost predicate Asked(e: Entry, cfg: ClientConfig) { exists p: Endpoint, enc :: InUse(p) && Asks(e, cfg, p, enc) }

  ghost predicate AllAsked(seg: seq<Entry>, cfg: ClientConfig) { forall k :: 0 <= k < |seg| ==> Asked(seg[k], cfg) }

  lemma UnixIsNotPlain()
    ensures !Plain(UNIX_PATH)
  {
    assert |UNIX_PATH| == 16 && UNIX_PATH[1] == 'a' && UNIX_PATH[5] == 's' && UNIX_PATH[12] == 'u';
  }

  lemma MemberPathsArePlain()
    ensures Plain("/ping") && Plain(PROFILE) && Plain(UPDATE_LAST_BROWSE) && Plain(MEMBER_BASES)
  {}

  lemma ForumPathsArePlain()
    ensures Plain(FORUMS) && Plain(TOPIC_SEARCH) && Plain(VIEW_HITS) && Plain(TOPIC_DETAIL)
  {}

  lemma SystemPathsArePlain()
    ensures Plain("/api/system/state") && Plain("/api/system/sysConf") && Plain("/api/system/promotion/rules")
    ensures Plain("/api/system/getConf")
  {}

  lemma SitePathsArePlain()
    ensures Plain("/api/laboratory/funcState") && Plain("/api/fun/first") && Plain("/api/links/view") && Plain("/api/msg/statistic")
  {}

  lemma OtherPathsArePlain()
    ensures Plain("/api/tracker/myPeerStatus") && Plain("/api/news/list") && Plain("/api/torrent/teamList")
    ensures Plain("/api/examine/getMyActiveList")
  {}

  lemma WarmupInUse(i: nat)
    requires i < WARMUP_COUNT
    ensures InUse(WARMUP_ENDPOINTS[i])
  {
    UnixIsNotPlain();
    MemberPathsArePlain();
    SystemPathsArePlain();
    SitePathsArePlain();
    OtherPathsArePlain();
    if i == 0 { assert WARMUP_ENDPOINTS[0] == Endpoint(GET, UNIX_PATH, NoArgs); }
  }

  // --------------------------------------------------- every attempt of a script

  lemma AskedSplits(a: seq<Entry>, b: seq<Entry>, cfg: ClientConfig)
    requires AllAsked(a, cfg) && AllAsked(b, cfg)
    ensures AllAsked(a + b, cfg)
  {}

  lemma OnceIsAsked(seg: seq<Entry>, cfg: ClientConfig, p: Endpoint, enc: Encoding)
    requires AsksOnce(seg, cfg, p, enc) && InUse(p)
    ensures AllAsked(seg, cfg)
  {}

  lemma TurnIsAsked(seg: seq<Entry>, cfg: ClientConfig, plan: seq<Ask>)
    requires InTurn(seg, cfg, plan) && forall k :: 0 <= k < |plan| ==> InUse(plan[k].to)
    ensures AllAsked(seg, cfg)
  {
    forall k | 0 <= k < |seg| ensures Asked(seg[k], cfg) { assert InUse(plan[k].to) && Asks(seg[k], cfg, plan[k].to, plan[k].enc); }
  }

  lemma WarmIsAsked(seg: seq<Entry>, cfg: ClientConfig)
    requires InTurn(seg, cfg, WarmPlan(0))
    ensures AllAsked(seg, cfg)
  {
    var plan := WarmPlan(0);
    forall k | 0 <= k < |plan| ensures InUse(plan[k].to) { WarmupInUse(k); }
    TurnIsAsked(seg, cfg, plan);
  }

  lemma MembersAreAsked(seg: seq<Entry>, cfg: ClientConfig, ids: seq<int>)
    requires AsksMembers(seg, cfg, ids)
    ensures AllAsked(seg, cfg)
  {
    UnixIsNotPlain();
    MemberPathsArePlain();
    if ids != [] { OnceIsAsked(seg, cfg, Endpoint(POST, MEMBER_BASES, Members(ids)), JsonBody); }
  }

  lemma UpdateIsAsked(seg: seq<Entry>, cfg: ClientConfig)
    requires AsksOnce(seg, cfg, UPDATE, Multipart)
    ensures AllAsked(seg, cfg)
  {
    UnixIsNotPlain();
    MemberPathsArePlain();
    OnceIsAsked(seg, cfg, UPDATE, Multipart);
  }

  lemma PageIsAsked(p: Page, cfg: ClientConfig)
    requires Refreshes(p, cfg)
    ensures AllAsked(p.Log(), cfg)
  {
    WarmIsAsked(p.warm, cfg);
    if p.update != [] { UpdateIsAsked(p.update, cfg); }
    AskedSplits(p.warm, p.update, cfg);
  }

  lemma ViewIsAsked(seg: seq<Entry>, cfg: ClientConfig, tid: int)
    requires InTurn(seg, cfg, ViewPlan(tid))
    ensures AllAsked(seg, cfg)
  {
    UnixIsNotPlain();
    ForumPathsArePlain();
    TurnIsAsked(seg, cfg, ViewPlan(tid));
  }

  lemma TopicIsAsked(v: TopicVisit, cfg: ClientConfig, tids: seq<int>)
    requires VisitsTopic(v, cfg, tids)
    ensures AllAsked(v.Log(), cfg)
  {
    PageIsAsked(v.page, cfg);
    if !AnyCritical(v.page.Log()) {
      var tid :| tid in tids && InTurn(v.view, cfg, ViewPlan(tid));
      ViewIsAsked(v.view, cfg, tid);
    }
    AskedSplits(v.page.Log(), v.view, cfg);
  }

  lemma FoundIsAsked(v: FoundVisit, cfg: ClientConfig, found: Found)
    requires VisitsFound(v, cfg, found)
    ensures AllAsked(v.Log(), cfg)
  {
    NothingMore([]);
    MembersAreAsked(v.authors, cfg, found.authors);
    if !AnyCritical(v.authors) {
      MembersAreAsked(v.posters, cfg, found.lastPosters);
      if !AnyCritical(v.posters) { TopicIsAsked(v.topic, cfg, found.topicIDs); }
    }
    AskedSplits(v.posters, v.topic.Log(), cfg);
    AskedSplits(v.authors, v.posters + v.topic.Log(), cfg);
  }

  lemma SearchIsAsked(v: ForumVisit, cfg: ClientConfig, fids: seq<int>)
    requires VisitsForum(v, cfg, fids) && !AnyCritical(v.page.Log())
    ensures AllAsked(v.search, cfg)
  {
    UnixIsNotPlain();
    ForumPathsArePlain();
    var fid :| fid in fids && AsksOnce(v.search, cfg, Endpoint(POST, TOPIC_SEARCH, ForumRef(fid)), JsonBody);
    OnceIsAsked(v.search, cfg, Endpoint(POST, TOPIC_SEARCH, ForumRef(fid)), JsonBody);
  }

  lemma ForumIsAsked(v: ForumVisit, cfg: ClientConfig, fids: seq<int>)
    requires VisitsForum(v, cfg, fids)
    ensures AllAsked(v.Log(), cfg)
  {
    NothingMore([]);
    PageIsAsked(v.page, cfg);
    if !AnyCritical(v.page.Log()) {
      SearchIsAsked(v, cfg, fids);
      if FindsTopics(v.search[0]) { FoundIsAsked(v.found, cfg, Searched(v.search[0]).value); }
    }
    AskedSplits(v.search, v.found.Log(), cfg);
    AskedSplits(v.page.Log(), v.search + v.found.Log(), cfg);
  }

  lemma TourIsAsked(t: Tour, cfg: ClientConfig)
    requires Tours(t, cfg)
    ensures AllAsked(t.Log(), cfg)
  {
    NothingMore([]);
    UnixIsNotPlain();
    ForumPathsArePlain();
    OnceIsAsked(t.forums, cfg, Endpoint(POST, FORUMS, NoArgs), Multipart);
    if ListsForums(t.forums[0]) {
      var visit := Listed(t.forums[0]).value;
      MembersAreAsked(t.members, cfg, visit.authors);
      if !AnyCritical(t.members) { ForumIsAsked(t.forum, cfg, visit.forumIDs); }
    }
    AskedSplits(t.members, t.forum.Log(), cfg);
    AskedSplits(t.forums, t.members + t.forum.Log(), cfg);
  }

  lemma KeepsIsAsked(sc: Script, cfg: ClientConfig)
    requires Keeps(sc, cfg)
    ensures AllAsked(sc.update + sc.Walked(), cfg)
  {
    UpdateIsAsked(sc.update, cfg);
    TourIsAsked(sc.tour.value, cfg);
    AskedSplits(sc.update, sc.Walked(), cfg);
  }

  lemma ReloadIsAsked(sc: Script, cfg: ClientConfig)
    requires Reloads(sc, cfg)
    ensures AllAsked(sc.second + (sc.update + sc.Walked()), cfg)
  {
    WarmIsAsked(sc.second, cfg);
    if WarmsUp(sc.second, 0) { KeepsIsAsked(sc, cfg); }
    AskedSplits(sc.second, sc.update + sc.Walked(), cfg);
  }

  lemma ProfileIsAsked(sc: Script, cfg: ClientConfig)
    requires Profiles(sc, cfg)
    ensures AllAsked(sc.profile + (sc.second + (sc.update + sc.Walked())), cfg)
  {
    UnixIsNotPlain();
    MemberPathsArePlain();
    OnceIsAsked(sc.profile, cfg, Endpoint(POST, PROFILE, NoArgs), Multipart);
    if ProfileDecodes(sc.profile[0]) { ReloadIsAsked(sc, cfg); }
    AskedSplits(sc.profile, sc.second + (sc.update + sc.Walked()), cfg);
  }

  lemma ScriptIsAsked(sc: Script, cfg: ClientConfig)
    requires Performs(sc, cfg)
    ensures AllAsked(sc.Log(), cfg)
  {
    WarmIsAsked(sc.first, cfg);
    if WarmsUp(sc.first, 0) { ProfileIsAsked(sc, cfg); }
    AskedSplits(sc.first, sc.profile + (sc.second + (sc.update + sc.Walked())), cfg);
  }

  // ------------------------------------------------------ the identity, by path

  /** The request goes to the address of its own path on this host, and shows the identity by that
      path alone. A query that has a slash, which none of the program's has, is left open. */
  ghost predicate ShowsByPath(req: Request, host: string, s: AuthState) {
    && req.form.Call?
    && var address := "https://" + host + req.form.path;
       && address <= req.url && (req.verb.POST? ==> req.url == address)
       && (req.form.path == UNIX_PATH ==> Hides(req))
       && (req.form.path != UNIX_PATH && '/' !in req.url[|address|..] ==> Bears(req, s))
  }

  lemma AskedShows(e: Entry, cfg: ClientConfig, s: AuthState)
    requires e.Sent? && Asked(e, cfg) && Shows(e.req, s) && '/' !in cfg.apiHost
    ensures ShowsByPath(e.req, cfg.apiHost, s)
  {
    var p: Endpoint, enc :| InUse(p) && Asks(e, cfg, p, enc);
    var address := "https://" + cfg.apiHost + p.path;
    var query := e.req.url[|address|..];
    if p.verb.GET? { QueryOf(address, e.req.url); }
    assert e.req.url == address + query;
    if p.path == UNIX_PATH {
      UnixIsUnix(cfg.apiHost, e.req.url);
    } else if '/' !in query {
      PlainIsNotUnix(cfg.apiHost, p.path, query);
    }
  }

  lemma QueryOf(address: string, url: string)
    requires address + "?" <= url
    ensures address <= url && url == address + url[|address|..] && url[|address|..] != "" && url[|address|..][0] == '?'
  {
    assert url[..|address| + 1] == address + "?";
    assert url[..|address|] == address && url[|address|] == '?';
  }

  lemma ChecksAsked(w: World, s: AuthState, cfg: ClientConfig, seg: seq<Entry>)
    requires RunChecks(w, s, cfg).w.log == w.log + seg
    ensures AllAsked(seg, cfg)
  {
    var sc := RunChecksFollows(w, s, cfg);
    SameGrowth(w.log, seg, sc.Log());
    ScriptIsAsked(sc, cfg);
  }

  /** For every server: each request that a session sends goes to its own path on the configured
      host; on the unix endpoint it carries no authorization and no device id; everywhere else it
      carries the token and visitor id of the session and the device id as rotated so far. */
  lemma SessionShowsIdentity(w: World, s: AuthState, cfg: ClientConfig) returns (seg: seq<Entry>)
    requires '/' !in cfg.apiHost
    ensures RunChecks(w, s, cfg).w.log == w.log + seg
    ensures forall k :: 0 <= k < |seg| && seg[k].Sent? ==> ShowsByPath(seg[k].req, cfg.apiHost, Replay(s, seg[..k]))
  {
    seg := RunChecksMeaning(w, s, cfg);
    ChecksAsked(w, s, cfg, seg);
    forall k | 0 <= k < |seg| && seg[k].Sent? ensures ShowsByPath(seg[k].req, cfg.apiHost, Replay(s, seg[..k])) {
      AskedShows(seg[k], cfg, Replay(s, seg[..k]));
    }
  }

  lemma SameGrowth(log: seq<Entry>, a: seq<Entry>, b: seq<Entry>)
    requires log + a == log + b
    ensures a == b
  {
    assert (log + a)[|log|..] == a && (log + b)[|log|..] == b;
  }
}
