/** Which requests a session must make, in which order and with which arguments, read off its
    trace alone: a script that says for every attempt whether another one follows, and which. */
module SessionScript {
  import opened Domain
  import opened Protocol
  import opened World
  import opened Transport
  import opened BrowseSpec
  import opened RefreshSpec
  import opened SessionTrace

  // ------------------------------------------------------- what an answer lists

  predicate Shown(e: Entry, path: string) {
    Passes(e, path) && e.resp.Some? && e.resp.value.body.Json?
  }

  /** The forums of an accepted list, with the authors of their last posts. */
  function Listed(e: Entry): Option<Visit> {
    if Shown(e, FORUMS) && e.resp.value.body.payload.forums.Some? then
      var data := e.resp.value.body.payload.forums.value;
      Some(Visit(Positive(data.forumIDs), Distinct(data.lastPostAuthors)))
    else None
  }

  /** The topics of an accepted search, with their authors and last posters. */
  function Searched(e: Entry): Option<Found> {
    if Shown(e, TOPIC_SEARCH) && e.resp.value.body.payload.topics.Some? then
      var ts := e.resp.value.body.payload.topics.value;
      Some(Found(Positive(TopicIDs(ts)), Distinct(TopicAuthors(ts)), Distinct(LastPosters(ts))))
    else None
  }

  /** Which members a search names, and which topics it offers. */
  lemma SearchedMeaning(e: Entry)
    requires Searched(e).Some?
    ensures var found, ts := Searched(e).value, e.resp.value.body.payload.topics.value;
            && (forall x :: x in found.topicIDs <==> x > 0 && exists t :: t in ts && t.id == x)
            && (forall x :: x in found.authors <==> x > 0 && exists t :: t in ts && t.author == x)
            && (forall x :: x in found.lastPosters <==> x > 0 && exists t :: t in ts && t.lastPostAuthor == x)
  {
    var ts := e.resp.value.body.payload.topics.value;
    DistinctMeaning(TopicAuthors(ts));
    DistinctMeaning(LastPosters(ts));
    var at := PositiveMeaning(TopicIDs(ts));
    PositiveMembers(TopicIDs(ts));
    ColumnMembers(ts);
  }

  lemma PositiveMembers(xs: seq<int>)
    ensures forall x :: x in Positive(xs) <==> x in xs && x > 0
  {
    var at := PositiveMeaning(xs);
    forall x | x in xs && x > 0 ensures x in Positive(xs) {
      var k: nat :| k < |xs| && xs[k] == x;
      assert k in at;
      var i :| 0 <= i < |at| && at[i] == k;
      assert Positive(xs)[i] == x;
    }
  }

  lemma ColumnMembers(ts: seq<Topic>)
    ensures forall x :: x in TopicIDs(ts) <==> exists t :: t in ts && t.id == x
    ensures forall x :: x in TopicAuthors(ts) <==> exists t :: t in ts && t.author == x
    ensures forall x :: x in LastPosters(ts) <==> exists t :: t in ts && t.lastPostAuthor == x
  {
    forall t | t in ts ensures t.id in TopicIDs(ts) && t.author in TopicAuthors(ts) && t.lastPostAuthor in LastPosters(ts) {
      var k :| 0 <= k < |ts| && ts[k] == t;
      assert TopicIDs(ts)[k] == t.id && TopicAuthors(ts)[k] == t.author && LastPosters(ts)[k] == t.lastPostAuthor;
    }
  }

  // ------------------------------------------------------------------ the script

  const UPDATE := Endpoint(POST, UPDATE_LAST_BROWSE, NoArgs)

  /** One attempt at this endpoint. */
  predicate AsksOnce(seg: seq<Entry>, cfg: ClientConfig, p: Endpoint, enc: Encoding) {
    |seg| == 1 && Asks(seg[0], cfg, p, enc)
  }

  /** The members are resolved in one request, if there are any. */
  predicate AsksMembers(seg: seq<Entry>, cfg: ClientConfig, ids: seq<int>) {
    if ids == [] then seg == [] else AsksOnce(seg, cfg, Endpoint(POST, MEMBER_BASES, Members(ids)), JsonBody)
  }

  datatype Ask = Ask(to: Endpoint, enc: Encoding)

  /** The asks of a plan in their order, up to the first that does not pass. */
  ghost predicate InTurn(seg: seq<Entry>, cfg: ClientConfig, plan: seq<Ask>) {
    && |seg| <= |plan|
    && (plan != [] ==> seg != [])
    && (forall k :: 0 <= k < |seg| ==> Asks(seg[k], cfg, plan[k].to, plan[k].enc))
    && (forall k :: 0 <= k < |seg| - 1 ==> Passes(seg[k], plan[k].to.path))
    && (0 < |seg| < |plan| ==> !Passes(seg[|seg| - 1], plan[|seg| - 1].to.path))
  }

  function WarmPlan(i: nat): seq<Ask>
    requires i <= WARMUP_COUNT
  {
    seq(WARMUP_COUNT - i, k requires 0 <= k < WARMUP_COUNT - i => Ask(WARMUP_ENDPOINTS[i + k], Multipart))
  }

  datatype Page = Page(warm: seq<Entry>, update: seq<Entry>)
  {
    function Log(): seq<Entry> { warm + update }
  }

  /** A page refresh: a warmup and then, whatever it came to, an update attempt; only a critical
      failure of the warmup prevents it. */
  ghost predicate Refreshes(p: Page, cfg: ClientConfig) {
    && InTurn(p.warm, cfg, WarmPlan(0))
    && if AnyCritical(p.warm) then p.update == [] else AsksOnce(p.update, cfg, UPDATE, Multipart)
  }

  function ViewPlan(tid: int): seq<Ask> { [Ask(Endpoint(POST, VIEW_HITS, TopicRef(tid)), Multipart)] + PostsPlan(tid) }

  function PostsPlan(tid: int): seq<Ask> {
    [Ask(Endpoint(POST, FORUMS, NoArgs), Multipart), Ask(Endpoint(POST, TOPIC_DETAIL, TopicRef(tid)), JsonBody)]
  }

  datatype TopicVisit = TopicVisit(page: Page, view: seq<Entry>)
  {
    function Log(): seq<Entry> { page.Log() + view }
  }

  const NO_TOPIC := TopicVisit(Page([], []), [])

  ghost predicate VisitsTopic(v: TopicVisit, cfg: ClientConfig, tids: seq<int>) {
    && Refreshes(v.page, cfg)
    && if AnyCritical(v.page.Log()) then v.view == [] else exists tid :: tid in tids && InTurn(v.view, cfg, ViewPlan(tid))
  }

  datatype FoundVisit = FoundVisit(authors: seq<Entry>, posters: seq<Entry>, topic: TopicVisit)
  {
    function Log(): seq<Entry> { authors + (posters + topic.Log()) }
  }

  const NO_FOUND := FoundVisit([], [], NO_TOPIC)

  /** The members seen in a search, and one of its topics. */
  ghost predicate VisitsFound(v: FoundVisit, cfg: ClientConfig, found: Found) {
    && AsksMembers(v.authors, cfg, found.authors)
    && if AnyCritical(v.authors) then v.posters == [] && v.topic == NO_TOPIC
       else
         && AsksMembers(v.posters, cfg, found.lastPosters)
         && if AnyCritical(v.posters) then v.topic == NO_TOPIC else VisitsTopic(v.topic, cfg, found.topicIDs)
  }

  datatype ForumVisit = ForumVisit(page: Page, search: seq<Entry>, found: FoundVisit)
  {
    function Log(): seq<Entry> { page.Log() + (search + found.Log()) }
  }

  const NO_FORUM := ForumVisit(Page([], []), [], NO_FOUND)

  /** A page refresh, a search in one of the forums, and what the search found. */
  ghost predicate VisitsForum(v: ForumVisit, cfg: ClientConfig, fids: seq<int>) {
    && Refreshes(v.page, cfg)
    && if AnyCritical(v.page.Log()) then v.search == [] && v.found == NO_FOUND
       else
         && (exists fid :: fid in fids && AsksOnce(v.search, cfg, Endpoint(POST, TOPIC_SEARCH, ForumRef(fid)), JsonBody))
         && match Searched(v.search[0])
            case None => v.found == NO_FOUND
            case Some(found) => if found.topicIDs == [] then v.found == NO_FOUND else VisitsFound(v.found, cfg, found)
  }

  datatype Tour = Tour(forums: seq<Entry>, members: seq<Entry>, forum: ForumVisit)
  {
    function Log(): seq<Entry> { forums + (members + forum.Log()) }
  }

  /** The forum walk. */
  ghost predicate Tours(t: Tour, cfg: ClientConfig) {
    && AsksOnce(t.forums, cfg, Endpoint(POST, FORUMS, NoArgs), Multipart)
    && match Listed(t.forums[0])
       case None => t.members == [] && t.forum == NO_FORUM
       case Some(visit) =>
         if visit.forumIDs == [] then t.members == [] && t.forum == NO_FORUM
         else
           && AsksMembers(t.members, cfg, visit.authors)
           && if AnyCritical(t.members) then t.forum == NO_FORUM else VisitsForum(t.forum, cfg, visit.forumIDs)
  }

  // ----------------------------------------------------- every session follows it

  /** The trace grew by these entries. */
  ghost predicate Leaves(w: World, w': World, seg: seq<Entry>) { w'.log == w.log + seg }

  lemma LeavesThen(w0: World, w1: World, w2: World, a: seq<Entry>, b: seq<Entry>)
    requires Leaves(w0, w1, a) && Leaves(w1, w2, b)
    ensures Leaves(w0, w2, a + b)
  {
    assert w0.log + (a + b) == w0.log + a + b;
  }

  lemma LeavesNothing(w: World)
    ensures Leaves(w, w, [])
  {
    assert w.log + [] == w.log;
  }

  lemma OnceCritical(e: Entry)
    ensures AnyCritical([e]) <==> IsCritical(e)
  {
    assert e in [e];
  }

  /** One request, with its verdict and its payload as the entry has them. */
  lemma DoScript(w: World, s: AuthState, cfg: ClientConfig, p: Endpoint, enc: Encoding) returns (seg: seq<Entry>)
    ensures var r := Do(w, s, cfg, p, enc);
            && Leaves(w, r.w, seg) && AsksOnce(seg, cfg, p, enc)
            && (r.out.Success? <==> Passes(seg[0], p.path))
            && (r.out.Success? && p.path != PING ==> Shown(seg[0], p.path) && r.out.value == seg[0].resp.value.body.payload)
            && (r.out.Failure? && Critical(r.out.error) <==> AnyCritical(seg))
  {
    var e := DoFacts(w, s, cfg, p, enc);
    seg := [e];
  }

  lemma UpdateScript(w: World, s: AuthState, cfg: ClientConfig) returns (seg: seq<Entry>)
    ensures var r := UpdateLastBrowse(w, s, cfg);
            && Leaves(w, r.w, seg) && AsksOnce(seg, cfg, UPDATE, Multipart)
            && (r.out.Failure? && Critical(r.out.error) <==> AnyCritical(seg))
  {
    seg := DoScript(w, s, cfg, UPDATE, Multipart);
  }

  lemma DecodeIsNotCritical()
    ensures !Critical(DECODE_ERROR)
    ensures forall e: Error :: Critical(Wrap(e)) <==> Critical(e)
  {}

  lemma MembersScript(w: World, s: AuthState, cfg: ClientConfig, ids: seq<int>) returns (seg: seq<Entry>)
    ensures var r := ResolveIfAny(w, s, cfg, ids);
            Leaves(w, r.w, seg) && AsksMembers(seg, cfg, ids) && (Stops(r.out) <==> AnyCritical(seg))
  {
    DecodeIsNotCritical();
    if ids == [] {
      LeavesNothing(w);
      seg := [];
    } else {
      PathsDiffer();
      seg := DoScript(w, s, cfg, Endpoint(POST, MEMBER_BASES, Members(ids)), JsonBody);
    }
  }

  lemma TurnsMore(e: Entry, rest: seq<Entry>, cfg: ClientConfig, plan: seq<Ask>)
    requires plan != [] && Asks(e, cfg, plan[0].to, plan[0].enc) && Passes(e, plan[0].to.path)
    requires InTurn(rest, cfg, plan[1..])
    ensures InTurn([e] + rest, cfg, plan)
  {
    var seg := [e] + rest;
    forall k | 0 < k < |seg| ensures seg[k] == rest[k - 1] && plan[k] == plan[1..][k - 1] {}
  }

  /** Part of a warmup: the endpoints from i on. */
  ghost predicate Warmed(w: World, r: Ret<()>, seg: seq<Entry>, cfg: ClientConfig, i: nat)
    requires i <= WARMUP_COUNT
  {
    && Leaves(w, r.w, seg) && InTurn(seg, cfg, WarmPlan(i))
    && (r.out.Success? <==> WarmsUp(seg, i)) && (Stops(r.out) <==> AnyCritical(seg))
  }

  lemma WarmPlanTail(i: nat)
    requires i < WARMUP_COUNT
    ensures WarmPlan(i) != [] && WarmPlan(i)[0] == Ask(WARMUP_ENDPOINTS[i], Multipart) && WarmPlan(i)[1..] == WarmPlan(i + 1)
  {}

  lemma WarmGoesOn(w: World, w1: World, z: Ret<()>, e: Entry, rest: seq<Entry>, cfg: ClientConfig, i: nat)
    requires i < WARMUP_COUNT && Leaves(w, w1, [e]) && Asks(e, cfg, WARMUP_ENDPOINTS[i], Multipart)
    requires Passes(e, WARMUP_ENDPOINTS[i].path) && !AnyCritical([e]) && Warmed(w1, z, rest, cfg, i + 1)
    ensures Warmed(w, z, [e] + rest, cfg, i)
  {
    LeavesThen(w, w1, z.w, [e], rest);
    WarmPlanTail(i);
    TurnsMore(e, rest, cfg, WarmPlan(i));
    WarmedUp(e, rest, i);
    AnySplits([e], rest);
  }

  lemma WarmStops(w: World, r: Ret<Payload>, e: Entry, cfg: ClientConfig, i: nat)
    requires i < WARMUP_COUNT && Leaves(w, r.w, [e]) && Asks(e, cfg, WARMUP_ENDPOINTS[i], Multipart)
    requires !Passes(e, WARMUP_ENDPOINTS[i].path) && r.out.Failure? && (Critical(r.out.error) <==> AnyCritical([e]))
    ensures Warmed(w, Ret(r.w, r.s, Failure(r.out.error)), [e], cfg, i)
  {
    assert WarmPlan(i)[0] == Ask(WARMUP_ENDPOINTS[i], Multipart);
  }

  lemma {:induction false} WarmScript(w: World, s: AuthState, cfg: ClientConfig, i: nat) returns (seg: seq<Entry>)
    requires i <= WARMUP_COUNT
    ensures Warmed(w, WarmupFrom(w, s, cfg, i), seg, cfg, i)
    decreases WARMUP_COUNT - i
  {
    if i == WARMUP_COUNT {
      LeavesNothing(w);
      seg := [];
    } else {
      var r := WarmupTurn(w, s, cfg, i);
      var e := TurnFacts(w, s, cfg, i);
      if r.out.Success? {
        var rest := WarmScript(r.w, r.s, cfg, i + 1);
        WarmGoesOn(w, r.w, WarmupFrom(r.w, r.s, cfg, i + 1), e, rest, cfg, i);
        seg := [e] + rest;
      } else {
        WarmStops(w, r, e, cfg, i);
        seg := [e];
      }
    }
  }

  lemma WarmedUp(e: Entry, rest: seq<Entry>, i: nat)
    requires i < WARMUP_COUNT && Passes(e, WARMUP_ENDPOINTS[i].path)
    ensures WarmsUp([e] + rest, i) <==> WarmsUp(rest, i + 1)
  {
    var seg := [e] + rest;
    if WarmsUp(rest, i + 1) { WarmsUpMore(e, rest, i); }
    if WarmsUp(seg, i) {
      forall k | 0 <= k < |rest| ensures Passes(rest[k], WARMUP_ENDPOINTS[i + 1 + k].path) {
        assert rest[k] == seg[k + 1] && Passes(seg[k + 1], WARMUP_ENDPOINTS[i + (k + 1)].path);
      }
    }
  }

  lemma PageScript(w: World, s: AuthState, cfg: ClientConfig) returns (p: Page)
    ensures var r := RefreshPage(w, s, cfg);
            Leaves(w, r.w, p.Log()) && Refreshes(p, cfg) && (r.err.Some? <==> AnyCritical(p.Log()))
  {
    var m := Warmup(w, s, cfg);
    var warm := WarmScript(w, s, cfg, 0);
    p := Page(warm, []);
    assert warm + [] == warm;
    if !Stops(m.out) {
      var update := UpdateScript(m.w, m.s, cfg);
      LeavesThen(w, m.w, UpdateLastBrowse(m.w, m.s, cfg).w, warm, update);
      AnySplits(warm, update);
      p := Page(warm, update);
    }
  }

  /** Part of a view: the requests of this plan. */
  ghost predicate Viewed(w: World, r: Ret<()>, seg: seq<Entry>, cfg: ClientConfig, plan: seq<Ask>) {
    Leaves(w, r.w, seg) && InTurn(seg, cfg, plan) && (Stops(r.out) <==> AnyCritical(seg))
  }

  /** One of its requests. */
  ghost predicate Asked(w: World, r: Ret<Payload>, e: Entry, cfg: ClientConfig, a: Ask) {
    && Leaves(w, r.w, [e]) && Asks(e, cfg, a.to, a.enc)
    && (r.out.Success? <==> Passes(e, a.to.path))
    && (r.out.Failure? && Critical(r.out.error) <==> AnyCritical([e]))
  }

  lemma ViewRequest(w: World, s: AuthState, cfg: ClientConfig, a: Ask) returns (e: Entry)
    ensures Asked(w, Do(w, s, cfg, a.to, a.enc), e, cfg, a)
  {
    var seg := DoScript(w, s, cfg, a.to, a.enc);
    e := seg[0];
    assert seg == [e];
  }

  lemma ViewGoesOn(w: World, r: Ret<Payload>, z: Ret<()>, e: Entry, rest: seq<Entry>, cfg: ClientConfig, plan: seq<Ask>)
    requires plan != [] && Asked(w, r, e, cfg, plan[0]) && r.out.Success?
    requires Viewed(r.w, z, rest, cfg, plan[1..])
    ensures Viewed(w, z, [e] + rest, cfg, plan)
  {
    LeavesThen(w, r.w, z.w, [e], rest);
    TurnsMore(e, rest, cfg, plan);
    AnySplits([e], rest);
  }

  lemma ViewStops(w: World, r: Ret<Payload>, z: Ret<()>, e: Entry, cfg: ClientConfig, plan: seq<Ask>)
    requires plan != [] && Asked(w, r, e, cfg, plan[0])
    requires if r.out.Failure? then z == Ret(r.w, r.s, Failure(Wrap(r.out.error))) else |plan| == 1 && z == Ret(r.w, r.s, Success(()))
    ensures Viewed(w, z, [e], cfg, plan)
  {}

  lemma DetailScript(w: World, s: AuthState, cfg: ClientConfig, tid: int) returns (seg: seq<Entry>)
    ensures Viewed(w, ViewDetail(w, s, cfg, tid), seg, cfg, PostsPlan(tid)[1..])
  {
    var plan := PostsPlan(tid)[1..];
    var e := ViewRequest(w, s, cfg, plan[0]);
    ViewStops(w, Do(w, s, cfg, plan[0].to, plan[0].enc), ViewDetail(w, s, cfg, tid), e, cfg, plan);
    seg := [e];
  }

  lemma PostsScript(w: World, s: AuthState, cfg: ClientConfig, tid: int) returns (seg: seq<Entry>)
    ensures Viewed(w, ViewPosts(w, s, cfg, tid), seg, cfg, PostsPlan(tid))
  {
    var plan := PostsPlan(tid);
    var b := Do(w, s, cfg, plan[0].to, plan[0].enc);
    var e := ViewRequest(w, s, cfg, plan[0]);
    if b.out.Success? {
      var rest := DetailScript(b.w, b.s, cfg, tid);
      ViewGoesOn(w, b, ViewDetail(b.w, b.s, cfg, tid), e, rest, cfg, plan);
      seg := [e] + rest;
    } else {
      ViewStops(w, b, ViewPosts(w, s, cfg, tid), e, cfg, plan);
      seg := [e];
    }
  }

  lemma ViewScript(w: World, s: AuthState, cfg: ClientConfig, tid: int) returns (seg: seq<Entry>)
    ensures Viewed(w, ViewTopic(w, s, cfg, tid), seg, cfg, ViewPlan(tid))
  {
    var plan := ViewPlan(tid);
    assert plan[1..] == PostsPlan(tid);
    var a := Do(w, s, cfg, plan[0].to, plan[0].enc);
    var e := ViewRequest(w, s, cfg, plan[0]);
    if a.out.Success? {
      var rest := PostsScript(a.w, a.s, cfg, tid);
      ViewGoesOn(w, a, ViewPosts(a.w, a.s, cfg, tid), e, rest, cfg, plan);
      seg := [e] + rest;
    } else {
      ViewStops(w, a, ViewTopic(w, s, cfg, tid), e, cfg, plan);
      seg := [e];
    }
  }

  lemma TopicScript(w: World, s: AuthState, cfg: ClientConfig, tids: seq<int>, before: bool) returns (v: TopicVisit)
    requires tids != []
    ensures var r := VisitRandomTopic(w, s, cfg, tids, before);
            Leaves(w, r.w, v.Log()) && VisitsTopic(v, cfg, tids) && (r.err.Some? <==> AnyCritical(v.Log()))
  {
    var page := RefreshPage(w.Tick(), s, cfg);
    var p := PageScript(w.Tick(), s, cfg);
    v := TopicVisit(p, []);
    assert p.Log() + [] == p.Log();
    if page.err.None? {
      var tid := tids[w.Here().pick % |tids|];
      var view := ViewScript(page.w, page.s, cfg, tid);
      LeavesThen(w, page.w, ViewTopic(page.w, page.s, cfg, tid).w, p.Log(), view);
      AnySplits(p.Log(), view);
      v := TopicVisit(p, view);
    }
  }

  /** What follows a found topic, as one walk. */
  lemma FoundScript(w: World, s: AuthState, cfg: ClientConfig, found: Found, updated: bool) returns (v: FoundVisit)
    requires found.topicIDs != []
    ensures var r := VisitFound(w, s, cfg, found, updated);
            Leaves(w, r.w, v.Log()) && VisitsFound(v, cfg, found) && (r.err.Some? <==> AnyCritical(v.Log()))
  {
    var a := ResolveIfAny(w, s, cfg, found.authors);
    var authors := MembersScript(w, s, cfg, found.authors);
    v := FoundVisit(authors, [], NO_TOPIC);
    NothingMore(authors);
    if !Stops(a.out) {
      var b := ResolveIfAny(a.w, a.s, cfg, found.lastPosters);
      var posters := MembersScript(a.w, a.s, cfg, found.lastPosters);
      v := FoundVisit(authors, posters, NO_TOPIC);
      NothingMore(posters);
      LeavesThen(w, a.w, b.w, authors, posters);
      AnySplits(authors, posters);
      if !Stops(b.out) {
        var topic := TopicScript(b.w, b.s, cfg, found.topicIDs, updated);
        var z := VisitRandomTopic(b.w, b.s, cfg, found.topicIDs, updated);
        LeavesThen(a.w, b.w, z.w, posters, topic.Log());
        LeavesThen(w, a.w, z.w, authors, posters + topic.Log());
        AnySplits(posters, topic.Log());
        AnySplits(authors, posters + topic.Log());
        v := FoundVisit(authors, posters, topic);
      }
    }
  }

  lemma NothingMore(seg: seq<Entry>)
    ensures NO_TOPIC.Log() == [] && NO_FOUND.Log() == [] && NO_FORUM.Log() == []
    ensures seg + ([] + NO_TOPIC.Log()) == seg && seg + NO_TOPIC.Log() == seg && seg + NO_FOUND.Log() == seg
    ensures seg + ([] + NO_FOUND.Log()) == seg && seg + ([] + NO_FORUM.Log()) == seg && seg + NO_FORUM.Log() == seg
  {}

  lemma SearchScript(w: World, s: AuthState, cfg: ClientConfig, fid: int) returns (seg: seq<Entry>)
    ensures var r := SearchTopics(w, s, cfg, fid);
            && Leaves(w, r.w, seg) && AsksOnce(seg, cfg, Endpoint(POST, TOPIC_SEARCH, ForumRef(fid)), JsonBody)
            && Searched(seg[0]) == (if r.out.Success? then Some(r.out.value) else None)
            && (r.out.Failure? && Critical(r.out.error) <==> AnyCritical(seg))
  {
    PathsDiffer();
    DecodeIsNotCritical();
    seg := DoScript(w, s, cfg, Endpoint(POST, TOPIC_SEARCH, ForumRef(fid)), JsonBody);
  }

  /** Searching after a refreshed page, and what comes of it. */
  lemma AfterPageScript(page: Walk, cfg: ClientConfig, fid: int) returns (search: seq<Entry>, found: FoundVisit)
    requires page.err.None?
    ensures var r := SearchAfter(page, cfg, fid);
            && Leaves(page.w, r.w, search + found.Log())
            && AsksOnce(search, cfg, Endpoint(POST, TOPIC_SEARCH, ForumRef(fid)), JsonBody)
            && (match Searched(search[0])
                case None => found == NO_FOUND
                case Some(f) => if f.topicIDs == [] then found == NO_FOUND else VisitsFound(found, cfg, f))
            && (r.err.Some? <==> AnyCritical(search + found.Log()))
  {
    var t := SearchTopics(page.w, page.s, cfg, fid);
    search := SearchScript(page.w, page.s, cfg, fid);
    found := NO_FOUND;
    NothingMore(search);
    if t.out.Success? && t.out.value.topicIDs != [] {
      found := FoundScript(t.w, t.s, cfg, t.out.value, page.updated);
      LeavesThen(page.w, t.w, VisitFound(t.w, t.s, cfg, t.out.value, page.updated).w, search, found.Log());
      AnySplits(search, found.Log());
    }
  }

  lemma ForumScript(w: World, s: AuthState, cfg: ClientConfig, fids: seq<int>) returns (v: ForumVisit)
    requires fids != []
    ensures var r := VisitRandomForum(w, s, cfg, fids);
            Leaves(w, r.w, v.Log()) && VisitsForum(v, cfg, fids) && (r.err.Some? <==> AnyCritical(v.Log()))
  {
    var page := RefreshPage(w.Tick(), s, cfg);
    var p := PageScript(w.Tick(), s, cfg);
    v := ForumVisit(p, [], NO_FOUND);
    NothingMore(p.Log());
    if page.err.None? {
      var fid := fids[w.Here().pick % |fids|];
      var search, found := AfterPageScript(page, cfg, fid);
      LeavesThen(w, page.w, SearchAfter(page, cfg, fid).w, p.Log(), search + found.Log());
      AnySplits(p.Log(), search + found.Log());
      v := ForumVisit(p, search, found);
    }
  }

  lemma ForumsScript(w: World, s: AuthState, cfg: ClientConfig) returns (seg: seq<Entry>)
    ensures var r := VisitForums(w, s, cfg);
            && Leaves(w, r.w, seg) && AsksOnce(seg, cfg, Endpoint(POST, FORUMS, NoArgs), Multipart)
            && Listed(seg[0]) == (if r.out.Success? then Some(r.out.value) else None)
            && (r.out.Failure? && Critical(r.out.error) <==> AnyCritical(seg))
  {
    PathsDiffer();
    DecodeIsNotCritical();
    seg := DoScript(w, s, cfg, Endpoint(POST, FORUMS, NoArgs), Multipart);
  }

  /** For every server, the forum walk follows the script. */
  lemma BrowseForumFollows(w: World, s: AuthState, cfg: ClientConfig) returns (t: Tour)
    ensures var r := BrowseForum(w, s, cfg);
            Leaves(w, r.w, t.Log()) && Tours(t, cfg) && (r.err.Some? <==> AnyCritical(t.Log()))
  {
    var v := VisitForums(w, s, cfg);
    var forums := ForumsScript(w, s, cfg);
    t := Tour(forums, [], NO_FORUM);
    NothingMore(forums);
    if v.out.Success? && v.out.value.forumIDs != [] {
      var m := ResolveIfAny(v.w, v.s, cfg, v.out.value.authors);
      var members := MembersScript(v.w, v.s, cfg, v.out.value.authors);
      t := Tour(forums, members, NO_FORUM);
      NothingMore(members);
      LeavesThen(w, v.w, m.w, forums, members);
      AnySplits(forums, members);
      if !Stops(m.out) {
        var forum := ForumScript(m.w, m.s, cfg, v.out.value.forumIDs);
        var z := VisitRandomForum(m.w, m.s, cfg, v.out.value.forumIDs);
        LeavesThen(v.w, m.w, z.w, members, forum.Log());
        LeavesThen(w, v.w, z.w, forums, members + forum.Log());
        AnySplits(members, forum.Log());
        AnySplits(forums, members + forum.Log());
        t := Tour(forums, members, forum);
      }
    }
  }

  // ------------------------------------------------------------ the whole session

  /** Warmup, profile, warmup, the first update attempt, and the walk. */
  datatype Script = Script(first: seq<Entry>, profile: seq<Entry>, second: seq<Entry>, update: seq<Entry>, tour: Option<Tour>)
  {
    function Walked(): seq<Entry> { if tour.Some? then tour.value.Log() else [] }

    function Log(): seq<Entry> { first + (profile + (second + (update + Walked()))) }
  }

  predicate ProfileDecodes(e: Entry) { Shown(e, PROFILE) && e.resp.value.body.payload.profileDecode }

  /** After the second warmup, which passed: an update attempt and, whatever it came to, the walk. */
  ghost predicate Keeps(sc: Script, cfg: ClientConfig) {
    AsksOnce(sc.update, cfg, UPDATE, Multipart) && sc.tour.Some? && Tours(sc.tour.value, cfg)
  }

  ghost predicate Reloads(sc: Script, cfg: ClientConfig) {
    && InTurn(sc.second, cfg, WarmPlan(0))
    && if WarmsUp(sc.second, 0) then Keeps(sc, cfg) else sc.update == [] && sc.tour.None?
  }

  ghost predicate Profiles(sc: Script, cfg: ClientConfig) {
    && AsksOnce(sc.profile, cfg, Endpoint(POST, PROFILE, NoArgs), Multipart)
    && if ProfileDecodes(sc.profile[0]) then Reloads(sc, cfg) else sc.second == sc.update == [] && sc.tour.None?
  }

  ghost predicate Performs(sc: Script, cfg: ClientConfig) {
    && InTurn(sc.first, cfg, WarmPlan(0))
    && if WarmsUp(sc.first, 0) then Profiles(sc, cfg) else sc.profile == sc.second == sc.update == [] && sc.tour.None?
  }

  lemma KeepAliveScript(w: World, s: AuthState, cfg: ClientConfig) returns (update: seq<Entry>, t: Tour)
    ensures Leaves(w, KeepAlive(w, s, cfg).w, update + t.Log())
    ensures AsksOnce(update, cfg, UPDATE, Multipart) && Tours(t, cfg)
  {
    var u := UpdateLastBrowse(w, s, cfg);
    update := UpdateScript(w, s, cfg);
    t := BrowseForumFollows(u.w, u.s, cfg);
    LeavesThen(w, u.w, BrowseForum(u.w, u.s, cfg).w, update, t.Log());
  }

  lemma ReloadScript(w: World, s: AuthState, cfg: ClientConfig) returns (sc: Script)
    ensures Leaves(w, ChecksFromReload(w, s, cfg).w, sc.second + (sc.update + sc.Walked())) && Reloads(sc, cfg)
  {
    var b := Warmup(w, s, cfg);
    var second := WarmScript(w, s, cfg, 0);
    sc := Script([], [], second, [], None);
    assert second + ([] + []) == second;
    if b.out.Success? {
      var update, t := KeepAliveScript(b.w, b.s, cfg);
      LeavesThen(w, b.w, KeepAlive(b.w, b.s, cfg).w, second, update + t.Log());
      sc := Script([], [], second, update, Some(t));
    }
  }

  lemma ProfileScript(w: World, s: AuthState, cfg: ClientConfig) returns (seg: seq<Entry>)
    ensures var r := Profile(w, s, cfg);
            && Leaves(w, r.w, seg) && AsksOnce(seg, cfg, Endpoint(POST, PROFILE, NoArgs), Multipart)
            && (r.out.Success? <==> ProfileDecodes(seg[0]))
  {
    PathsDiffer();
    seg := DoScript(w, s, cfg, Endpoint(POST, PROFILE, NoArgs), Multipart);
  }

  lemma FromProfileScript(w: World, s: AuthState, cfg: ClientConfig) returns (sc: Script)
    ensures Leaves(w, ChecksFromProfile(w, s, cfg).w, sc.profile + (sc.second + (sc.update + sc.Walked()))) && Profiles(sc, cfg)
  {
    var p := Profile(w, s, cfg);
    var profile := ProfileScript(w, s, cfg);
    sc := Script([], profile, [], [], None);
    assert profile + ([] + ([] + [])) == profile;
    if p.out.Success? {
      var z := ReloadScript(p.w, p.s, cfg);
      LeavesThen(w, p.w, ChecksFromReload(p.w, p.s, cfg).w, profile, z.second + (z.update + z.Walked()));
      sc := z.(profile := profile);
    }
  }

  /** For every server, the checks of a session follow the script: which requests are made, to
      which endpoints with which arguments, in which order, and where they end. */
  lemma RunChecksFollows(w: World, s: AuthState, cfg: ClientConfig) returns (sc: Script)
    ensures Leaves(w, RunChecks(w, s, cfg).w, sc.Log()) && Performs(sc, cfg)
  {
    var a := Warmup(w, s, cfg);
    var first := WarmScript(w, s, cfg, 0);
    sc := Script(first, [], [], [], None);
    assert first + ([] + ([] + ([] + []))) == first;
    if a.out.Success? {
      var z := FromProfileScript(a.w, a.s, cfg);
      LeavesThen(w, a.w, ChecksFromProfile(a.w, a.s, cfg).w, first, z.profile + (z.second + (z.update + z.Walked())));
      sc := z.(first := first);
    }
  }

  // ------------------------------------------------------- how often it updates

  /** How many requests of this series are update attempts. */
  function UpdatesAsked(seg: seq<Entry>): nat {
    if seg == [] then 0
    else UpdatesAsked(seg[..|seg| - 1]) + if IsCall(seg[|seg| - 1], UPDATE_LAST_BROWSE) then 1 else 0
  }

  lemma {:induction false} UpdatesAdd(a: seq<Entry>, b: seq<Entry>)
    ensures UpdatesAsked(a + b) == UpdatesAsked(a) + UpdatesAsked(b)
  {
    if b == [] {
      assert a + b == a;
    } else {
      assert (a + b)[..|a + b| - 1] == a + b[..|b| - 1];
      UpdatesAdd(a, b[..|b| - 1]);
    }
  }

  lemma {:induction false} NoUpdateAsked(seg: seq<Entry>)
    requires forall k :: 0 <= k < |seg| ==> !IsCall(seg[k], UPDATE_LAST_BROWSE)
    ensures UpdatesAsked(seg) == 0
  {
    if seg != [] { NoUpdateAsked(seg[..|seg| - 1]); }
  }

  lemma TurnsAskNoUpdate(seg: seq<Entry>, cfg: ClientConfig, plan: seq<Ask>)
    requires InTurn(seg, cfg, plan) && forall k :: 0 <= k < |plan| ==> plan[k].to.path != UPDATE_LAST_BROWSE
    ensures UpdatesAsked(seg) == 0
  {
    NoUpdateAsked(seg);
  }

  lemma WarmPlanNeverUpdates()
    ensures forall k :: 0 <= k < WARMUP_COUNT ==> WarmPlan(0)[k].to.path != UPDATE_LAST_BROWSE
  {
    forall k | 0 <= k < WARMUP_COUNT ensures WarmPlan(0)[k].to.path != UPDATE_LAST_BROWSE { WarmupNeverUpdates(k); }
  }

  lemma OnceAsked(seg: seq<Entry>, cfg: ClientConfig, p: Endpoint, enc: Encoding)
    requires AsksOnce(seg, cfg, p, enc) && !AnyCritical(seg)
    ensures UpdatesAsked(seg) == if p.path == UPDATE_LAST_BROWSE then 1 else 0
  {
    assert seg[0] in seg && !IsCritical(seg[0]);
    assert UpdatesAsked(seg[..0]) == 0;
  }

  lemma MembersAsked(seg: seq<Entry>, cfg: ClientConfig, ids: seq<int>)
    requires AsksMembers(seg, cfg, ids) && !AnyCritical(seg)
    ensures UpdatesAsked(seg) == 0
  {
    PathsDiffer();
    if ids != [] { OnceAsked(seg, cfg, Endpoint(POST, MEMBER_BASES, Members(ids)), JsonBody); }
  }

  lemma PageUpdates(p: Page, cfg: ClientConfig)
    requires Refreshes(p, cfg) && !AnyCritical(p.Log())
    ensures UpdatesAsked(p.Log()) == 1
  {
    AnySplits(p.warm, p.update);
    WarmPlanNeverUpdates();
    TurnsAskNoUpdate(p.warm, cfg, WarmPlan(0));
    OnceAsked(p.update, cfg, UPDATE, Multipart);
    UpdatesAdd(p.warm, p.update);
  }

  lemma TopicUpdates(v: TopicVisit, cfg: ClientConfig, tids: seq<int>)
    requires VisitsTopic(v, cfg, tids) && !AnyCritical(v.Log())
    ensures UpdatesAsked(v.Log()) == 1
  {
    AnySplits(v.page.Log(), v.view);
    PageUpdates(v.page, cfg);
    var tid :| tid in tids && InTurn(v.view, cfg, ViewPlan(tid));
    PathsDiffer();
    TurnsAskNoUpdate(v.view, cfg, ViewPlan(tid));
    UpdatesAdd(v.page.Log(), v.view);
  }

  lemma FoundUpdates(v: FoundVisit, cfg: ClientConfig, found: Found)
    requires VisitsFound(v, cfg, found) && !AnyCritical(v.Log())
    ensures UpdatesAsked(v.Log()) == 1
  {
    AnySplits(v.authors, v.posters + v.topic.Log());
    AnySplits(v.posters, v.topic.Log());
    MembersAsked(v.authors, cfg, found.authors);
    MembersAsked(v.posters, cfg, found.lastPosters);
    TopicUpdates(v.topic, cfg, found.topicIDs);
    UpdatesAdd(v.authors, v.posters + v.topic.Log());
    UpdatesAdd(v.posters, v.topic.Log());
  }

  /** An accepted search with a topic to visit. */
  predicate FindsTopics(e: Entry) { Searched(e).Some? && Searched(e).value.topicIDs != [] }

  lemma ForumUpdates(v: ForumVisit, cfg: ClientConfig, fids: seq<int>)
    requires VisitsForum(v, cfg, fids) && !AnyCritical(v.Log())
    ensures |v.search| == 1 && UpdatesAsked(v.Log()) == 1 + if FindsTopics(v.search[0]) then 1 else 0
  {
    AnySplits(v.page.Log(), v.search + v.found.Log());
    AnySplits(v.search, v.found.Log());
    PageUpdates(v.page, cfg);
    var fid :| fid in fids && AsksOnce(v.search, cfg, Endpoint(POST, TOPIC_SEARCH, ForumRef(fid)), JsonBody);
    PathsDiffer();
    OnceAsked(v.search, cfg, Endpoint(POST, TOPIC_SEARCH, ForumRef(fid)), JsonBody);
    UpdatesAdd(v.page.Log(), v.search + v.found.Log());
    UpdatesAdd(v.search, v.found.Log());
    if FindsTopics(v.search[0]) { FoundUpdates(v.found, cfg, Searched(v.search[0]).value); } else { NothingMore([]); }
  }

  /** An accepted forum list with a forum to visit. */
  predicate ListsForums(e: Entry) { Listed(e).Some? && Listed(e).value.forumIDs != [] }

  /** A walk that meets nothing critical tries to update once for the forum that it visits, and
      once more for the topic: whatever else fails on the way, and exactly so often. */
  lemma WalkUpdates(t: Tour, cfg: ClientConfig)
    requires Tours(t, cfg) && !AnyCritical(t.Log())
    ensures UpdatesAsked(t.Log()) ==
              if !ListsForums(t.forums[0]) then 0
              else if |t.forum.search| == 1 && FindsTopics(t.forum.search[0]) then 2 else 1
    ensures ListsForums(t.forums[0]) ==> |t.forum.search| == 1
  {
    AnySplits(t.forums, t.members + t.forum.Log());
    AnySplits(t.members, t.forum.Log());
    PathsDiffer();
    OnceAsked(t.forums, cfg, Endpoint(POST, FORUMS, NoArgs), Multipart);
    UpdatesAdd(t.forums, t.members + t.forum.Log());
    UpdatesAdd(t.members, t.forum.Log());
    if ListsForums(t.forums[0]) {
      var visit := Listed(t.forums[0]).value;
      MembersAsked(t.members, cfg, visit.authors);
      ForumUpdates(t.forum, cfg, visit.forumIDs);
    } else {
      NothingMore([]);
    }
  }
}
