/** What a browse session (apimtbrowse) does, as functions of the outside world: one request
    step, the warmup loop, the phases of the forum walk, and the walk itself. */
module BrowseSpec {
  import opened Domain
  import opened Protocol
  import opened World
  import opened Transport

  const PING := "/ping"
  const PROFILE := "/api/member/profile"
  const UPDATE_LAST_BROWSE := "/api/member/updateLastBrowse"
  const FORUMS := "/api/forum/forums"
  const MEMBER_BASES := "/api/member/bases"
  const TOPIC_SEARCH := "/api/forum/topic/search"
  const VIEW_HITS := "/api/forum/topic/viewHits"
  const TOPIC_DETAIL := "/api/forum/topic/detail"

  datatype Endpoint = Endpoint(verb: Verb, path: string, args: Args)

  const WARMUP_ENDPOINTS: seq<Endpoint> := [
    Endpoint(GET, "/api/system/unix", NoArgs),
    Endpoint(GET, "/ping", NoArgs),
    Endpoint(POST, "/api/laboratory/funcState", NoArgs),
    Endpoint(POST, "/api/fun/first", NoArgs),
    Endpoint(POST, "/api/system/state", NoArgs),
    Endpoint(POST, "/api/links/view", NoArgs),
    Endpoint(POST, "/api/msg/statistic", NoArgs),
    Endpoint(POST, "/api/member/profile", NoArgs),
    Endpoint(POST, "/api/tracker/myPeerStatus", NoArgs),
    Endpoint(POST, "/api/system/sysConf", NoArgs),
    Endpoint(POST, "/api/news/list", NoArgs),
    Endpoint(POST, "/api/torrent/teamList", NoArgs),
    Endpoint(POST, "/api/system/promotion/rules", NoArgs),
    Endpoint(POST, "/api/system/getConf", Items("items", "LeechWarn")),
    Endpoint(POST, "/api/examine/getMyActiveList", NoArgs)
  ]

  const WARMUP_COUNT := 15

  // ------------------------------------------------------------- one request

  /** The world and the session identity after a step, and the step's result. */
  datatype Ret<T> = Ret(w: World, s: AuthState, out: Result<T, Error>)

  const NO_PAYLOAD := Payload(None, None, false, false)

  datatype Encoding = Multipart | JsonBody

  function BuildRequest(cfg: ClientConfig, e: Endpoint, enc: Encoding, d: Draw): Request {
    Request(
      "https://" + cfg.apiHost + e.path + (if e.verb.GET? then "?" + d.query else ""),
      e.verb,
      Call(e.path, e.args),
      if e.verb.GET? then map["origin" := cfg.headers.referer]
      else map["origin" := cfg.headers.referer,
               "Content-Type" := if enc.JsonBody? then "application/json; charset=UTF-8"
                                 else "multipart/form-data; boundary=" + d.text],
      cfg.timeout, cfg.proxy, true, "", "")
  }

  /** How the answer to a path is judged: /ping by its status alone. */
  function Judge(path: string, resp: Option<Response>, err: Option<ForeignError>): Result<Payload, Error> {
    if path == PING then
      match ValidateHTTPResponse(resp, err)
      case None => Success(NO_PAYLOAD)
      case Some(e) => Failure(TranslateBrowse(e))
    else ParseBrowse(resp, err)
  }

  /** Session.do and Session.doJSON */
  function Do(w: World, s: AuthState, cfg: ClientConfig, e: Endpoint, enc: Encoding): Ret<Payload> {
    var d := w.Here();
    if d.ctx.Some? then
      Ret(w.Tick().Record(Refused(d.ctx.value)), s, Failure(InterruptError(d.ctx.value)))
    else
      var hop := SessionChain(cfg.headers, d)(s, BuildRequest(cfg, e, enc, d));
      Ret(w.Tick().Record(Sent(hop.seen, hop.resp, hop.err)), hop.identity, Judge(e.path, hop.resp, hop.err))
  }

  function UpdateLastBrowse(w: World, s: AuthState, cfg: ClientConfig): Ret<Payload> {
    Do(w, s, cfg, Endpoint(POST, UPDATE_LAST_BROWSE, NoArgs), Multipart)
  }

  const DECODE_ERROR: Error := Wrap(Leaf(BrowseKit(Business)))

  /** Session.Profile: the profile itself is only formatted into messages. */
  function Profile(w: World, s: AuthState, cfg: ClientConfig): Ret<()> {
    var r := Do(w, s, cfg, Endpoint(POST, PROFILE, NoArgs), Multipart);
    Ret(r.w, r.s,
        match r.out
        case Failure(e) => Failure(e)
        case Success(p) => if p.profileDecode then Success(()) else Failure(DECODE_ERROR))
  }

  /** One turn of the warmup loop: its own context check, then the request. */
  function WarmupTurn(w: World, s: AuthState, cfg: ClientConfig, i: nat): Ret<Payload>
    requires i < WARMUP_COUNT
  {
    var ctx := w.Here().ctx;
    if ctx.Some? then Ret(w.Tick().Record(Refused(ctx.value)), s, Failure(InterruptError(ctx.value)))
    else Do(w.Tick(), s, cfg, WARMUP_ENDPOINTS[i], Multipart)
  }

  function WarmupFrom(w: World, s: AuthState, cfg: ClientConfig, i: nat): Ret<()>
    requires i <= WARMUP_COUNT
    decreases WARMUP_COUNT - i
  {
    if i == WARMUP_COUNT then Ret(w, s, Success(()))
    else
      var r := WarmupTurn(w, s, cfg, i);
      if r.out.Failure? then Ret(r.w, r.s, Failure(r.out.error)) else WarmupFrom(r.w, r.s, cfg, i + 1)
  }

  function Warmup(w: World, s: AuthState, cfg: ClientConfig): Ret<()> { WarmupFrom(w, s, cfg, 0) }

  // ------------------------------------------------------------------ phases

  function Positive(xs: seq<int>): seq<int> {
    if xs == [] then []
    else Positive(xs[..|xs| - 1]) + if xs[|xs| - 1] > 0 then [xs[|xs| - 1]] else []
  }

  /** The positive elements, each at its first occurrence. */
  function Distinct(xs: seq<int>): seq<int> {
    if xs == [] then []
    else
      var before := Distinct(xs[..|xs| - 1]);
      var x := xs[|xs| - 1];
      if x > 0 && x !in before then before + [x] else before
  }

  lemma {:induction false} DistinctMeaning(xs: seq<int>)
    ensures forall x :: x in Distinct(xs) <==> x in xs && x > 0
    ensures forall i, j :: 0 <= i < j < |Distinct(xs)| ==> Distinct(xs)[i] != Distinct(xs)[j]
  {
    if xs != [] {
      DistinctMeaning(xs[..|xs| - 1]);
      assert xs == xs[..|xs| - 1] + [xs[|xs| - 1]];
    }
  }

  /** The elements of xs at these positions, in their order. */
  predicate Picks(xs: seq<int>, ys: seq<int>, at: seq<nat>) {
    && |at| == |ys|
    && (forall i :: 0 <= i < |at| ==> at[i] < |xs| && ys[i] == xs[at[i]])
    && (forall i, j :: 0 <= i < j < |at| ==> at[i] < at[j])
  }

  lemma PicksMore(xs: seq<int>, x: int, ys: seq<int>, at: seq<nat>)
    requires Picks(xs, ys, at)
    ensures Picks(xs + [x], ys, at) && Picks(xs + [x], ys + [x], at + [|xs|])
  {}

  /** What Positive keeps, and where it stands. */
  lemma {:induction false} PositiveMeaning(xs: seq<int>) returns (at: seq<nat>)
    ensures Picks(xs, Positive(xs), at)
    ensures forall k: nat :: k in at <==> k < |xs| && xs[k] > 0
  {
    at := [];
    if xs != [] {
      var n := |xs| - 1;
      at := PositiveMeaning(xs[..n]);
      PicksMore(xs[..n], xs[n], Positive(xs[..n]), at);
      assert xs == xs[..n] + [xs[n]];
      if xs[n] > 0 { at := at + [n]; }
    }
  }

  /** A positive element that did not occur before. */
  predicate IsFirst(xs: seq<int>, k: nat) { k < |xs| && xs[k] > 0 && xs[k] !in xs[..k] }

  lemma FirstInPrefix(xs: seq<int>, n: nat, k: nat)
    requires k < n <= |xs|
    ensures IsFirst(xs[..n], k) <==> IsFirst(xs, k)
  {
    assert xs[..n][..k] == xs[..k];
  }

  /** What Distinct keeps: of every positive element the first occurrence. */
  lemma {:induction false} DistinctOrder(xs: seq<int>) returns (at: seq<nat>)
    ensures Picks(xs, Distinct(xs), at)
    ensures forall k: nat :: k in at <==> IsFirst(xs, k)
  {
    at := [];
    if xs != [] {
      var n := |xs| - 1;
      var before := DistinctOrder(xs[..n]);
      DistinctMeaning(xs[..n]);
      PicksMore(xs[..n], xs[n], Distinct(xs[..n]), before);
      assert xs == xs[..n] + [xs[n]];
      at := before + if IsFirst(xs, n) then [n] else [];
      forall k: nat ensures k in at <==> IsFirst(xs, k) {
        if k < n { FirstInPrefix(xs, n, k); }
      }
    }
  }

  function TopicIDs(ts: seq<Topic>): seq<int> { seq(|ts|, i requires 0 <= i < |ts| => ts[i].id) }
  function TopicAuthors(ts: seq<Topic>): seq<int> { seq(|ts|, i requires 0 <= i < |ts| => ts[i].author) }
  function LastPosters(ts: seq<Topic>): seq<int> { seq(|ts|, i requires 0 <= i < |ts| => ts[i].lastPostAuthor) }

  datatype Visit = Visit(forumIDs: seq<int>, authors: seq<int>)
  datatype Found = Found(topicIDs: seq<int>, authors: seq<int>, lastPosters: seq<int>)

  function VisitForums(w: World, s: AuthState, cfg: ClientConfig): Ret<Visit> {
    var r := Do(w, s, cfg, Endpoint(POST, FORUMS, NoArgs), Multipart);
    Ret(r.w, r.s,
        match r.out
        case Failure(e) => Failure(Wrap(e))
        case Success(p) =>
          match p.forums
          case None => Failure(DECODE_ERROR)
          case Some(data) => Success(Visit(Positive(data.forumIDs), Distinct(data.lastPostAuthors))))
  }

  function ResolveMembers(w: World, s: AuthState, cfg: ClientConfig, ids: seq<int>): Ret<()> {
    var r := Do(w, s, cfg, Endpoint(POST, MEMBER_BASES, Members(ids)), JsonBody);
    Ret(r.w, r.s,
        match r.out
        case Failure(e) => Failure(Wrap(e))
        case Success(p) => if p.membersDecode then Success(()) else Failure(DECODE_ERROR))
  }

  function SearchTopics(w: World, s: AuthState, cfg: ClientConfig, fid: int): Ret<Found> {
    var r := Do(w, s, cfg, Endpoint(POST, TOPIC_SEARCH, ForumRef(fid)), JsonBody);
    Ret(r.w, r.s,
        match r.out
        case Failure(e) => Failure(Wrap(e))
        case Success(p) =>
          match p.topics
          case None => Failure(DECODE_ERROR)
          case Some(ts) => Success(Found(Positive(TopicIDs(ts)), Distinct(TopicAuthors(ts)), Distinct(LastPosters(ts)))))
  }

  function ViewTopic(w: World, s: AuthState, cfg: ClientConfig, tid: int): Ret<()> {
    var a := Do(w, s, cfg, Endpoint(POST, VIEW_HITS, TopicRef(tid)), Multipart);
    if a.out.Failure? then Ret(a.w, a.s, Failure(Wrap(a.out.error))) else ViewPosts(a.w, a.s, cfg, tid)
  }

  /** The two requests that follow the view counter. */
  function ViewPosts(w: World, s: AuthState, cfg: ClientConfig, tid: int): Ret<()> {
    var b := Do(w, s, cfg, Endpoint(POST, FORUMS, NoArgs), Multipart);
    if b.out.Failure? then Ret(b.w, b.s, Failure(Wrap(b.out.error))) else ViewDetail(b.w, b.s, cfg, tid)
  }

  function ViewDetail(w: World, s: AuthState, cfg: ClientConfig, tid: int): Ret<()> {
    var c := Do(w, s, cfg, Endpoint(POST, TOPIC_DETAIL, TopicRef(tid)), JsonBody);
    Ret(c.w, c.s, if c.out.Failure? then Failure(Wrap(c.out.error)) else Success(()))
  }

  // ---------------------------------------------------------------- the walk

  /** shouldPropagateForumError of the kit. */
  predicate Critical(e: Error) {
    e.Is(Canceled) || e.Is(DeadlineExceeded) || e.Is(BrowseKit(AuthFailed))
  }

  /** BrowseForum's two results, with the world and identity it leaves. */
  datatype Walk = Walk(w: World, s: AuthState, updated: bool, err: Option<Error>)

  predicate Stops(out: Result<(), Error>) { out.Failure? && Critical(out.error) }

  function CriticalOnly(e: Error): Option<Error> { if Critical(e) then Some(e) else None }

  function ResolveIfAny(w: World, s: AuthState, cfg: ClientConfig, ids: seq<int>): Ret<()> {
    if ids == [] then Ret(w, s, Success(())) else ResolveMembers(w, s, cfg, ids)
  }

  /** The page refresh that opens phases 2 and 3: warm up, then try to update. */
  function RefreshPage(w: World, s: AuthState, cfg: ClientConfig): Walk {
    var m := Warmup(w, s, cfg);
    if Stops(m.out) then Walk(m.w, m.s, false, Some(m.out.error))
    else
      var u := UpdateLastBrowse(m.w, m.s, cfg);
      match u.out
      case Failure(e) => Walk(u.w, u.s, false, CriticalOnly(e))
      case Success(_) => Walk(u.w, u.s, true, None)
  }

  /** Viewing a topic on a page that was just refreshed. */
  function ViewAfter(page: Walk, cfg: ClientConfig, tid: int, before: bool): Walk {
    var updated := before || page.updated;
    if page.err.Some? then Walk(page.w, page.s, updated, page.err)
    else
      var v := ViewTopic(page.w, page.s, cfg, tid);
      Walk(v.w, v.s, updated, if v.out.Failure? then CriticalOnly(v.out.error) else None)
  }

  function VisitRandomTopic(w: World, s: AuthState, cfg: ClientConfig, tids: seq<int>, before: bool): Walk
    requires tids != []
  {
    ViewAfter(RefreshPage(w.Tick(), s, cfg), cfg, tids[w.Here().pick % |tids|], before)
  }

  function ResolveTopicMembers(w: World, s: AuthState, cfg: ClientConfig, found: Found): Ret<()> {
    var a := ResolveIfAny(w, s, cfg, found.authors);
    if Stops(a.out) then a
    else
      var b := ResolveIfAny(a.w, a.s, cfg, found.lastPosters);
      Ret(b.w, b.s, if Stops(b.out) then b.out else Success(()))
  }

  /** Searching a forum on a page that was just refreshed, and visiting a topic of it. */
  function SearchAfter(page: Walk, cfg: ClientConfig, fid: int): Walk {
    if page.err.Some? then page
    else
      var t := SearchTopics(page.w, page.s, cfg, fid);
      match t.out
      case Failure(e) => Walk(t.w, t.s, page.updated, CriticalOnly(e))
      case Success(found) =>
        if found.topicIDs == [] then Walk(t.w, t.s, page.updated, None) else VisitFound(t.w, t.s, cfg, found, page.updated)
  }

  function VisitFound(w: World, s: AuthState, cfg: ClientConfig, found: Found, updated: bool): Walk
    requires found.topicIDs != []
  {
    var m := ResolveTopicMembers(w, s, cfg, found);
    if m.out.Failure? then Walk(m.w, m.s, updated, Some(m.out.error))
    else VisitRandomTopic(m.w, m.s, cfg, found.topicIDs, updated)
  }

  function VisitRandomForum(w: World, s: AuthState, cfg: ClientConfig, fids: seq<int>): Walk
    requires fids != []
  {
    SearchAfter(RefreshPage(w.Tick(), s, cfg), cfg, fids[w.Here().pick % |fids|])
  }

  function BrowseForum(w: World, s: AuthState, cfg: ClientConfig): Walk {
    var v := VisitForums(w, s, cfg);
    match v.out
    case Failure(e) => Walk(v.w, v.s, false, CriticalOnly(e))
    case Success(visit) =>
      if visit.forumIDs == [] then Walk(v.w, v.s, false, None)
      else
        var m := ResolveIfAny(v.w, v.s, cfg, visit.authors);
        if Stops(m.out) then Walk(m.w, m.s, false, Some(m.out.error))
        else VisitRandomForum(m.w, m.s, cfg, visit.forumIDs)
  }

  // ------------------------------------------------------------------- chance

  lemma SmallRemainder(k: nat, n: nat)
    requires k < n
    ensures k % n == k
  {}

  /** Every forum of a list may be the one that is visited, and every topic: the draw decides. */
  lemma AnyMayBeVisited(w: World, s: AuthState, cfg: ClientConfig, ids: seq<int>, updated: bool)
    requires w.Here().pick < |ids|
    ensures var page, id := RefreshPage(w.Tick(), s, cfg), ids[w.Here().pick];
            && VisitRandomForum(w, s, cfg, ids) == SearchAfter(page, cfg, id)
            && VisitRandomTopic(w, s, cfg, ids, updated) == ViewAfter(page, cfg, id, updated)
  {
    SmallRemainder(w.Here().pick, |ids|);
  }
}
