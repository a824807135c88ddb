/** What the checks of one session mean, read off their trace, for every server. */
module RunTrace {
  import opened Domain
  import opened Protocol
  import opened World
  import opened Transport
  import opened BrowseSpec
  import opened RefreshSpec
  import opened SessionTrace

  /** Which attempt an error is about: the last one; but the first update attempt, at this
      position, when nothing after it was critical. */
  function Culprit(seg: seq<Entry>, update: nat): Entry
    requires seg != []
  {
    if update < |seg| && !AnyCritical(seg[update + 1..]) then seg[update] else seg[|seg| - 1]
  }

  /** The checks so far: their trace, and what their error says of its culprit. */
  ghost predicate ChecksSteps(w: World, s: AuthState, r: Checks, seg: seq<Entry>, limit: nat, update: nat) {
    && Steps(w, s, r.w, r.s, seg, limit, AnyUpdate(seg), AnyCritical(seg))
    && (r.err.Some? ==> seg != [] && Explains(Culprit(seg, update), r.err.value))
  }

  lemma CulpritStays(a: seq<Entry>, b: seq<Entry>, update: nat)
    requires b != []
    ensures Culprit(a + b, |a| + update) == Culprit(b, update)
  {
    assert (a + b)[|a + b| - 1] == b[|b| - 1];
    if update < |b| { assert (a + b)[|a| + update + 1..] == b[update + 1..]; }
  }

  lemma ChecksThen(w0: World, s0: AuthState, w1: World, s1: AuthState, r: Checks,
                   a: seq<Entry>, b: seq<Entry>, m: nat, n: nat, update: nat)
    requires Steps(w0, s0, w1, s1, a, m, AnyUpdate(a), AnyCritical(a))
    requires ChecksSteps(w1, s1, r, b, n, update)
    ensures ChecksSteps(w0, s0, r, a + b, m + n, |a| + update)
  {
    StepsThen(w0, s0, w1, s1, r.w, r.s, a, b, m, n, AnyUpdate(a), AnyUpdate(b), AnyCritical(a), AnyCritical(b));
    AnySplits(a, b);
    if r.err.Some? { CulpritStays(a, b, update); }
  }

  /** A failing browse step ends the checks with its own error, mapped. */
  lemma ChecksFail<T>(w: World, s: AuthState, q: Ret<T>, seg: seq<Entry>, limit: nat, update: nat)
    requires q.out.Failure? && |seg| <= update
    requires Steps(w, s, q.w, q.s, seg, limit, AnyUpdate(seg), AnyCritical(seg))
    requires BlamesLast(seg, q.out.error)
    ensures ChecksSteps(w, s, Checks(q.w, q.s, Mapped(q.out)), seg, limit, update)
  {
    MappingKeepsBlame(seg[|seg| - 1], q.out.error);
  }

  lemma DecideFacts(w: World, s: AuthState, first: Ret<Payload>, f: Walk, u: Entry, walk: seq<Entry>)
    requires Steps(w, s, first.w, first.s, [u], 1, first.out.Success?, first.out.Failure? && Critical(first.out.error))
    requires first.out.Failure? ==> Blamed(u, first.out.error)
    requires Steps(first.w, first.s, f.w, f.s, walk, 40, f.updated, f.err.Some?)
    requires f.err.Some? ==> Critical(f.err.value) && BlamesLast(walk, f.err.value)
    ensures var r := Decide(first, f);
            && ChecksSteps(w, s, r, [u] + walk, 41, 0)
            && (r.err.None? <==> !AnyCritical(walk) && AnyUpdate([u] + walk))
  {
    StepsThen(w, s, first.w, first.s, f.w, f.s, [u], walk, 1, 40, first.out.Success?, f.updated,
              first.out.Failure? && Critical(first.out.error), f.err.Some?);
    CulpritOf(u, walk);
    if f.err.Some? { MappingKeepsBlame(walk[|walk| - 1], f.err.value); }
    if first.out.Failure? { MappingKeepsBlame(u, first.out.error); }
  }

  lemma CulpritOf(u: Entry, walk: seq<Entry>)
    ensures Culprit([u] + walk, 0) == if AnyCritical(walk) then walk[|walk| - 1] else u
  {
    assert ([u] + walk)[1..] == walk;
    assert walk != [] ==> ([u] + walk)[|walk|] == walk[|walk| - 1];
  }

  /** The first update attempt and the walk after it: no error exactly when the walk met no
      critical failure and some update was accepted. The first update may even have been
      denied for authentication. */
  lemma KeepAliveFacts(w: World, s: AuthState, cfg: ClientConfig) returns (u: Entry, walk: seq<Entry>)
    ensures var r := KeepAlive(w, s, cfg);
            && ChecksSteps(w, s, r, [u] + walk, 41, 0)
            && (r.err.None? <==> !AnyCritical(walk) && AnyUpdate([u] + walk))
  {
    u := UpdateFacts(w, s, cfg);
    var first := UpdateLastBrowse(w, s, cfg);
    walk := BrowseForumMeaning(first.w, first.s, cfg);
    DecideFacts(w, s, first, BrowseForum(first.w, first.s, cfg), u, walk);
  }

  // ------------------------------------------------------------- the prelude

  ghost predicate ProfileShown(e: Entry) {
    Passes(e, PROFILE) && e.resp.Some? && e.resp.value.body.Json? && e.resp.value.body.payload.profileDecode
  }

  /** Warmup, profile and warmup again, all accepted, and then at least one more attempt. */
  ghost predicate Prelude(seg: seq<Entry>) {
    |seg| > 31 && WarmsUp(seg[..15], 0) && ProfileShown(seg[15]) && WarmsUp(seg[16..31], 0)
  }

  /** The second warmup passed and the rest went as required. */
  ghost predicate ReloadPasses(tail: seq<Entry>) {
    |tail| > 15 && WarmsUp(tail[..15], 0) && !AnyCritical(tail[16..]) && AnyUpdate(tail)
  }

  lemma ReloadSplits(warm: seq<Entry>, u: Entry, walk: seq<Entry>)
    requires WarmsUp(warm, 0) && |warm| == 15 && !AnyUpdate(warm)
    ensures ReloadPasses(warm + ([u] + walk)) <==> !AnyCritical(walk) && AnyUpdate([u] + walk)
  {
    AnySplits(warm, [u] + walk);
    var tail := warm + ([u] + walk);
    assert tail[..15] == warm;
    assert tail[16..] == walk;
  }

  lemma ReloadThen(w: World, s: AuthState, b: Ret<()>, r: Checks, warm: seq<Entry>, u: Entry, walk: seq<Entry>)
    requires WarmupDoes(w, s, b, warm, 0) && b.out.Success?
    requires ChecksSteps(b.w, b.s, r, [u] + walk, 41, 0)
    requires r.err.None? <==> !AnyCritical(walk) && AnyUpdate([u] + walk)
    ensures ChecksSteps(w, s, r, warm + ([u] + walk), 56, 15)
    ensures r.err.None? <==> ReloadPasses(warm + ([u] + walk))
  {
    ChecksThen(w, s, b.w, b.s, r, warm, [u] + walk, 15, 41, 0);
    ReloadSplits(warm, u, walk);
  }

  lemma ReloadFails(w: World, s: AuthState, b: Ret<()>, warm: seq<Entry>)
    requires WarmupDoes(w, s, b, warm, 0) && b.out.Failure?
    ensures ChecksSteps(w, s, Checks(b.w, b.s, Mapped(b.out)), warm, 56, 15)
    ensures !ReloadPasses(warm)
  {
    ChecksFail(w, s, b, warm, 56, 15);
  }

  lemma FromReloadFacts(w: World, s: AuthState, cfg: ClientConfig) returns (tail: seq<Entry>)
    ensures ChecksSteps(w, s, ChecksFromReload(w, s, cfg), tail, 56, 15)
    ensures ChecksFromReload(w, s, cfg).err.None? <==> ReloadPasses(tail)
  {
    var b := Warmup(w, s, cfg);
    tail := WarmupFacts(w, s, cfg, 0);
    if b.out.Failure? {
      ReloadFails(w, s, b, tail);
    } else {
      var u, walk := KeepAliveFacts(b.w, b.s, cfg);
      ReloadThen(w, s, b, KeepAlive(b.w, b.s, cfg), tail, u, walk);
      tail := tail + ([u] + walk);
    }
  }

  /** The profile was shown and everything after it went as required. */
  ghost predicate ProfilePasses(rest: seq<Entry>) {
    |rest| > 0 && ProfileShown(rest[0]) && ReloadPasses(rest[1..])
  }

  lemma ProfileThen(w: World, s: AuthState, p: Ret<()>, r: Checks, e: Entry, tail: seq<Entry>)
    requires OnePhase(w, s, p, [e], 1) && p.out.Success? && ProfileShown(e)
    requires ChecksSteps(p.w, p.s, r, tail, 56, 15)
    requires r.err.None? <==> ReloadPasses(tail)
    ensures ChecksSteps(w, s, r, [e] + tail, 57, 16)
    ensures r.err.None? <==> ProfilePasses([e] + tail)
  {
    ChecksThen(w, s, p.w, p.s, r, [e], tail, 1, 56, 15);
    assert ([e] + tail)[1..] == tail;
  }

  lemma FromProfileFacts(w: World, s: AuthState, cfg: ClientConfig) returns (rest: seq<Entry>)
    ensures ChecksSteps(w, s, ChecksFromProfile(w, s, cfg), rest, 57, 16)
    ensures ChecksFromProfile(w, s, cfg).err.None? <==> ProfilePasses(rest)
  {
    var p := Profile(w, s, cfg);
    var e := ProfileFacts(w, s, cfg);
    rest := [e];
    if p.out.Failure? {
      ChecksFail(w, s, p, rest, 57, 16);
    } else {
      var tail := FromReloadFacts(p.w, p.s, cfg);
      ProfileThen(w, s, p, ChecksFromReload(p.w, p.s, cfg), e, tail);
      rest := rest + tail;
    }
  }

  lemma PreludeSplits(warm: seq<Entry>, rest: seq<Entry>)
    requires WarmsUp(warm, 0)
    ensures var seg := warm + rest;
            Prelude(seg) && !AnyCritical(seg[32..]) && AnyUpdate(seg) <==> ProfilePasses(rest)
  {
    var seg := warm + rest;
    assert seg[..15] == warm;
    if |rest| > 16 {
      assert seg[15] == rest[0];
      assert seg[16..31] == rest[1..][..15];
      assert seg[32..] == rest[1..][16..];
    }
    AnySplits(warm, rest);
    forall e | e in warm ensures !Passes(e, UPDATE_LAST_BROWSE) {
      var k :| 0 <= k < |warm| && warm[k] == e;
      WarmupNeverUpdates(k);
    }
    if |rest| > 0 {
      assert rest == [rest[0]] + rest[1..];
      AnySplits([rest[0]], rest[1..]);
      PathsDiffer();
    }
  }

  /** The session kept the account alive: the prelude was accepted in full, nothing after the
      first update attempt failed critically, and some update was accepted. */
  ghost predicate KeptAlive(seg: seq<Entry>) { Prelude(seg) && !AnyCritical(seg[32..]) && AnyUpdate(seg) }

  /** The session failed and its culprit is an attempt that the server denied. */
  ghost predicate DeniedSession(seg: seq<Entry>) {
    !KeptAlive(seg) && seg != [] && Reason(Culprit(seg, 31)) == Denied(MTAuthFailed)
  }

  /** The keep-alive verdict. For every server: at most 72 requests; the checks succeed exactly
      when the session kept the account alive. A failure is about the first update attempt when
      there was one and nothing after it was critical, and about the last attempt otherwise: it
      has exactly that attempt's code, and its cancellation or deadline. */
  lemma RunChecksMeaning(w: World, s: AuthState, cfg: ClientConfig) returns (seg: seq<Entry>)
    ensures var r := RunChecks(w, s, cfg);
            && Steps(w, s, r.w, r.s, seg, 72, AnyUpdate(seg), AnyCritical(seg))
            && (r.err.None? <==> KeptAlive(seg))
            && (r.err.Some? ==> seg != [] && Explains(Culprit(seg, 31), r.err.value))
            && (IsAuthFailure(r.err) <==> DeniedSession(seg))
  {
    var a := Warmup(w, s, cfg);
    seg := WarmupFacts(w, s, cfg, 0);
    if a.out.Failure? {
      ChecksFail(w, s, a, seg, 72, 31);
    } else {
      var rest := FromProfileFacts(a.w, a.s, cfg);
      ChecksThen(w, s, a.w, a.s, ChecksFromProfile(a.w, a.s, cfg), seg, rest, 15, 57, 16);
      PreludeSplits(seg, rest);
      AnySplits(seg, rest);
      seg := seg + rest;
    }
  }
}
