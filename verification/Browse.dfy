/** The browse session (apimtbrowse) in the form the program has it: an object over a mutable
    identity whose methods are the functions of BrowseSpec. */
module Browse {
  import opened Domain
  import opened Protocol
  import opened World
  import opened Transport
  import opened BrowseSpec
  import Spec = BrowseSpec

  class Session {
    const cfg: ClientConfig
    const process: Process
    const identity: State

    constructor (cfg: ClientConfig, process: Process, identity: State)
      ensures this.cfg == cfg && this.process == process && this.identity == identity
    {
      this.cfg, this.process, this.identity := cfg, process, identity;
    }

    /** One request through the client's chain with the identity tripper around it. */
    method Do(e: Endpoint, enc: Encoding) returns (out: Result<Payload, Error>)
      modifies process`t, process`log, identity
      ensures Ret(process.View(), identity.state, out)
           == Spec.Do(old(process.View()), old(identity.state), cfg, e, enc)
    {
      var d := process.Next();
      if d.ctx.Some? {
        process.Record(Refused(d.ctx.value));
        return Failure(InterruptError(d.ctx.value));
      }
      var client := Chain(Some(Base(d)), ClientTrippers(cfg.headers, d));
      forall s, q ensures client(s, q).identity == s {
        ClientChainMeaning(cfg.headers, d, s, q);
      }
      assert [IdentityHeaders()][1..] == [];
      var hop := RoundTripWithIdentity(identity, client, BuildRequest(cfg, e, enc, d));
      process.Record(Sent(hop.seen, hop.resp, hop.err));
      out := Judge(e.path, hop.resp, hop.err);
    }

    method UpdateLastBrowse() returns (out: Result<Payload, Error>)
      modifies process`t, process`log, identity
      ensures Ret(process.View(), identity.state, out)
           == Spec.UpdateLastBrowse(old(process.View()), old(identity.state), cfg)
    {
      out := Do(Endpoint(POST, UPDATE_LAST_BROWSE, NoArgs), Multipart);
    }

    method Profile() returns (out: Result<(), Error>)
      modifies process`t, process`log, identity
      ensures Ret(process.View(), identity.state, out)
           == Spec.Profile(old(process.View()), old(identity.state), cfg)
    {
      var r := Do(Endpoint(POST, PROFILE, NoArgs), Multipart);
      match r
      case Failure(e) => out := Failure(e);
      case Success(p) => out := if p.profileDecode then Success(()) else Failure(DECODE_ERROR);
    }

    method Warmup() returns (out: Result<(), Error>)
      modifies process`t, process`log, identity
      ensures Ret(process.View(), identity.state, out)
           == Spec.Warmup(old(process.View()), old(identity.state), cfg)
    {
      for i := 0 to WARMUP_COUNT
        invariant WarmupFrom(process.View(), identity.state, cfg, i)
               == Spec.Warmup(old(process.View()), old(identity.state), cfg)
      {
        var d := process.Next();
        if d.ctx.Some? {
          process.Record(Refused(d.ctx.value));
          return Failure(InterruptError(d.ctx.value));
        }
        var r := Do(WARMUP_ENDPOINTS[i], Multipart);
        if r.Failure? { return Failure(r.error); }
      }
      out := Success(());
    }

    method PhaseVisitForums() returns (out: Result<Visit, Error>)
      modifies process`t, process`log, identity
      ensures Ret(process.View(), identity.state, out)
           == VisitForums(old(process.View()), old(identity.state), cfg)
    {
      var r := Do(Endpoint(POST, FORUMS, NoArgs), Multipart);
      if r.Failure? { return Failure(Wrap(r.error)); }
      if r.value.forums.None? { return Failure(DECODE_ERROR); }
      var data := r.value.forums.value;
      var fids := KeepPositive(data.forumIDs);
      var authors := KeepDistinct(data.lastPostAuthors);
      out := Success(Visit(fids, authors));
    }

    method PhaseResolveMembers(ids: seq<int>) returns (out: Result<(), Error>)
      modifies process`t, process`log, identity
      ensures Ret(process.View(), identity.state, out)
           == ResolveMembers(old(process.View()), old(identity.state), cfg, ids)
    {
      var r := Do(Endpoint(POST, MEMBER_BASES, Members(ids)), JsonBody);
      if r.Failure? { return Failure(Wrap(r.error)); }
      out := if r.value.membersDecode then Success(()) else Failure(DECODE_ERROR);
    }

    method PhaseSearchTopics(fid: int) returns (out: Result<Found, Error>)
      modifies process`t, process`log, identity
      ensures Ret(process.View(), identity.state, out)
           == SearchTopics(old(process.View()), old(identity.state), cfg, fid)
    {
      var r := Do(Endpoint(POST, TOPIC_SEARCH, ForumRef(fid)), JsonBody);
      if r.Failure? { return Failure(Wrap(r.error)); }
      if r.value.topics.None? { return Failure(DECODE_ERROR); }
      var found := CollectTopics(r.value.topics.value);
      out := Success(found);
    }

    method PhaseViewTopic(tid: int) returns (out: Result<(), Error>)
      modifies process`t, process`log, identity
      ensures Ret(process.View(), identity.state, out)
           == ViewTopic(old(process.View()), old(identity.state), cfg, tid)
    {
      var a := Do(Endpoint(POST, VIEW_HITS, TopicRef(tid)), Multipart);
      if a.Failure? { return Failure(Wrap(a.error)); }
      var b := Do(Endpoint(POST, FORUMS, NoArgs), Multipart);
      if b.Failure? { return Failure(Wrap(b.error)); }
      var c := Do(Endpoint(POST, TOPIC_DETAIL, TopicRef(tid)), JsonBody);
      if c.Failure? { return Failure(Wrap(c.error)); }
      out := Success(());
    }

    /** The page refresh the walk performs twice. */
    method Refresh() returns (updated: bool, err: Option<Error>)
      modifies process`t, process`log, identity
      ensures Walk(process.View(), identity.state, updated, err)
           == RefreshPage(old(process.View()), old(identity.state), cfg)
    {
      var m := Warmup();
      if m.Failure? && Critical(m.error) { return false, Some(m.error); }
      var u := UpdateLastBrowse();
      if u.Failure? { return false, CriticalOnly(u.error); }
      updated, err := true, None;
    }

    method BrowseForum() returns (updated: bool, err: Option<Error>)
      modifies process`t, process`log, identity
      ensures Walk(process.View(), identity.state, updated, err)
           == Spec.BrowseForum(old(process.View()), old(identity.state), cfg)
    {
      updated := false;
      var visit := PhaseVisitForums();
      if visit.Failure? { return updated, CriticalOnly(visit.error); }
      var fids := visit.value.forumIDs;
      if fids == [] { return updated, None; }
      if visit.value.authors != [] {
        var m := PhaseResolveMembers(visit.value.authors);
        if m.Failure? && Critical(m.error) { return updated, Some(m.error); }
      }
      updated, err := BrowseRandomForum(fids);
    }

    /** Phase 2 of BrowseForum, from the choice of a forum on. */
    method BrowseRandomForum(fids: seq<int>) returns (updated: bool, err: Option<Error>)
      requires fids != []
      modifies process`t, process`log, identity
      ensures Walk(process.View(), identity.state, updated, err)
           == VisitRandomForum(old(process.View()), old(identity.state), cfg, fids)
    {
      var d := process.Next();
      updated, err := Refresh();
      if err.Some? { return; }
      var found := PhaseSearchTopics(fids[d.pick % |fids|]);
      if found.Failure? { return updated, CriticalOnly(found.error); }
      if found.value.topicIDs == [] { return updated, None; }
      var m := ResolveFound(found.value);
      if m.Failure? { return updated, Some(m.error); }
      updated, err := BrowseRandomTopic(found.value.topicIDs, updated);
    }

    /** Phase 2.5: the members seen in the search; only critical errors come back. */
    method ResolveFound(found: Found) returns (out: Result<(), Error>)
      modifies process`t, process`log, identity
      ensures Ret(process.View(), identity.state, out)
           == ResolveTopicMembers(old(process.View()), old(identity.state), cfg, found)
    {
      if found.authors != [] {
        var m := PhaseResolveMembers(found.authors);
        if m.Failure? && Critical(m.error) { return m; }
      }
      if found.lastPosters != [] {
        var m := PhaseResolveMembers(found.lastPosters);
        if m.Failure? && Critical(m.error) { return m; }
      }
      out := Success(());
    }

    /** Phase 3 of BrowseForum, from the choice of a topic on. */
    method BrowseRandomTopic(tids: seq<int>, before: bool) returns (updated: bool, err: Option<Error>)
      requires tids != []
      modifies process`t, process`log, identity
      ensures Walk(process.View(), identity.state, updated, err)
           == VisitRandomTopic(old(process.View()), old(identity.state), cfg, tids, before)
    {
      var d := process.Next();
      updated, err := Refresh();
      updated := before || updated;
      if err.Some? { return; }
      var v := PhaseViewTopic(tids[d.pick % |tids|]);
      err := if v.Failure? then CriticalOnly(v.error) else None;
    }

    method Snapshot() returns (s: AuthState)
      ensures s == identity.state
    {
      s := identity.Snapshot();
    }
  }

  // ------------------------------------------------- the loops of the phases

  method KeepPositive(xs: seq<int>) returns (out: seq<int>)
    ensures out == Positive(xs)
  {
    out := [];
    for i := 0 to |xs|
      invariant out == Positive(xs[..i])
    {
      assert xs[..i + 1][..i] == xs[..i];
      if xs[i] > 0 { out := out + [xs[i]]; }
    }
    assert xs[..|xs|] == xs;
  }

  method KeepDistinct(xs: seq<int>) returns (out: seq<int>)
    ensures out == Distinct(xs)
  {
    out := [];
    var seen: set<int> := {};
    for i := 0 to |xs|
      invariant out == Distinct(xs[..i])
      invariant forall x :: x in seen <==> x in out
    {
      assert xs[..i + 1][..i] == xs[..i];
      if xs[i] > 0 && xs[i] !in seen {
        seen := seen + {xs[i]};
        out := out + [xs[i]];
      }
    }
    assert xs[..|xs|] == xs;
  }

  /** The single loop of PhaseSearchTopics over all three columns. */
  method CollectTopics(ts: seq<Topic>) returns (found: Found)
    ensures found == Found(Positive(TopicIDs(ts)), Distinct(TopicAuthors(ts)), Distinct(LastPosters(ts)))
  {
    var tids, authors, posters: seq<int> := [], [], [];
    var seenAuthors, seenPosters: set<int> := {}, {};
    for i := 0 to |ts|
      invariant tids == Positive(TopicIDs(ts[..i]))
      invariant authors == Distinct(TopicAuthors(ts[..i]))
      invariant posters == Distinct(LastPosters(ts[..i]))
      invariant forall x :: x in seenAuthors <==> x in authors
      invariant forall x :: x in seenPosters <==> x in posters
    {
      var item := ts[i];
      assert TopicIDs(ts[..i + 1])[..i] == TopicIDs(ts[..i]);
      assert TopicAuthors(ts[..i + 1])[..i] == TopicAuthors(ts[..i]);
      assert LastPosters(ts[..i + 1])[..i] == LastPosters(ts[..i]);
      if item.id > 0 { tids := tids + [item.id]; }
      if item.author > 0 && item.author !in seenAuthors {
        seenAuthors := seenAuthors + {item.author};
        authors := authors + [item.author];
      }
      if item.lastPostAuthor > 0 && item.lastPostAuthor !in seenPosters {
        seenPosters := seenPosters + {item.lastPostAuthor};
        posters := posters + [item.lastPostAuthor];
      }
    }
    assert ts[..|ts|] == ts;
    found := Found(tids, authors, posters);
  }
}
