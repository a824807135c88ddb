/** TLSClient.RoundTrip and TLSClient.Close as steps of any number of threads: the count of
    round trips in flight, and a close that drains them before it closes the pooled clients. */
module TransportProtocol {
  import opened Domain
  import opened Sums
  import opened Threads

  datatype Pc =
    | Idle
    | Entering                  // RoundTrip: before acquire
    | Doing(client: nat)        //            in Do, with an acquired client
    | Leaving                   //            before the deferred inflight.Done
    | CloseEntering             // Close: before its first critical section
    | AwaitingDone              //        another Close came first
    | Draining                  //        before inflight.Wait returns
    | Relocking                 //        before the second critical section
    | Closing(rest: set<nat>)   //        in it, with these clients still to close

  datatype State = State(
    mu: Option<Thread>,         // held across steps by a closing thread only
    closed: bool,
    done: bool,                 // closeDone is closed
    inflight: int,
    clients: set<nat>,
    made: nat,                  // clients the factory has built
    idleClosed: multiset<nat>,  // CloseIdleConnections calls, by client
    closer: Option<Thread>,     // the Close call that came first
    pc: map<Thread, Pc>,
    returned: bool)             // some Close call has returned
  {
    function At(t: Thread): Pc { if t in pc then pc[t] else Idle }

    function Move(t: Thread, p: Pc): State { this.(pc := pc[t := p]) }
  }

  /** How acquire finds a client. */
  datatype Choice = Pooled(client: nat) | Built | Broken

  datatype Action =
    | Enter(t: Thread)
    | Acquire(t: Thread, choice: Choice)
    | Respond(t: Thread)
    | Leave(t: Thread)
    | CallClose(t: Thread)
    | BeginClose(t: Thread)
    | SeeDone(t: Thread)
    | Drained(t: Thread)
    | Relock(t: Thread)
    | CloseIdle(t: Thread, client: nat)
    | Finish(t: Thread)

  predicate Enabled(s: State, a: Action) {
    match a
    case Enter(t) => s.At(t).Idle?
    case Acquire(t, choice) => s.At(t).Entering? && s.mu.None? && (choice.Pooled? ==> s.closed || choice.client in s.clients)
    case Respond(t) => s.At(t).Doing?
    case Leave(t) => s.At(t).Leaving?
    case CallClose(t) => s.At(t).Idle?
    case BeginClose(t) => s.At(t).CloseEntering? && s.mu.None?
    case SeeDone(t) => s.At(t).AwaitingDone? && s.done
    case Drained(t) => s.At(t).Draining? && s.inflight == 0
    case Relock(t) => s.At(t).Relocking? && s.mu.None?
    case CloseIdle(t, c) => s.At(t).Closing? && c in s.At(t).rest
    case Finish(t) => s.At(t) == Closing({})
  }

  /** Where a step takes its thread. */
  function Target(s: State, a: Action): Pc
    requires Enabled(s, a)
  {
    match a
    case Enter(_) => Entering
    case Acquire(_, choice) =>
      if s.closed || choice.Broken? then Idle else Doing(if choice.Pooled? then choice.client else s.made)
    case Respond(_) => Leaving
    case Leave(_) => Idle
    case CallClose(_) => CloseEntering
    case BeginClose(_) => if s.closed then AwaitingDone else Draining
    case SeeDone(_) => Idle
    case Drained(_) => Relocking
    case Relock(_) => Closing(s.clients)
    case CloseIdle(t, c) => Closing(s.At(t).rest - {c})
    case Finish(_) => Idle
  }

  /** acquire, under the mutex. */
  function Acquired(s: State, choice: Choice): (r: State)
    ensures r.pc == s.pc
  {
    if s.closed then s
    else
      match choice
      case Pooled(_) => s.(inflight := s.inflight + 1)
      case Built => s.(inflight := s.inflight + 1, clients := s.clients + {s.made}, made := s.made + 1)
      case Broken => s
  }

  /** What a step does to the shared fields. */
  function Shared(s: State, a: Action): (r: State)
    ensures r.pc == s.pc
  {
    match a
    case Acquire(_, choice) => Acquired(s, choice)
    case Leave(_) => s.(inflight := s.inflight - 1)
    case BeginClose(t) => if s.closed then s else s.(closed := true, closer := Some(t))
    case SeeDone(_) => s.(returned := true)
    case Relock(t) => s.(mu := Some(t))
    case CloseIdle(_, c) => s.(idleClosed := s.idleClosed + multiset{c})
    case Finish(_) => s.(mu := None, clients := {}, done := true, returned := true)
    case _ => s
  }

  function Apply(s: State, a: Action): (r: State)
    requires Enabled(s, a)
    ensures r.pc == s.pc[a.t := Target(s, a)]
  {
    Shared(s, a).Move(a.t, Target(s, a))
  }

  function Init(): State { State(None, false, false, 0, {}, 0, multiset{}, None, map[], false) }

  predicate Legal(s: State, run: seq<Action>)
    decreases |run|
  {
    run == [] || (Enabled(s, run[0]) && Legal(Apply(s, run[0]), run[1..]))
  }

  function Play(s: State, run: seq<Action>): State
    requires Legal(s, run)
    decreases |run|
  {
    if run == [] then s else Play(Apply(s, run[0]), run[1..])
  }

  // ----------------------------------------------------------------- invariant

  predicate InFlight(p: Pc) { p.Doing? || p.Leaving? }

  /** Past the drain, so no round trip may be under way. */
  predicate PastDrain(p: Pc) { p.Relocking? || p.Closing? }

  /** The threads between acquire and the return of RoundTrip. */
  function Users(s: State): set<Thread> { set t | t in s.pc && InFlight(s.pc[t]) }

  /** How often this client's idle connections have been closed by now. */
  function TimesClosed(s: State, c: nat): nat {
    if s.done then (if c < s.made then 1 else 0)
    else if s.closer.Some? && s.At(s.closer.value).Closing? then
      if c < s.made && c !in s.At(s.closer.value).rest then 1 else 0
    else 0
  }

  ghost predicate Inv(s: State) {
    && Counting(s) && Closers(s) && Pooling(s)
  }

  predicate Drained(s: State) { s.done || (s.closer.Some? && PastDrain(s.At(s.closer.value))) }

  ghost predicate Counting(s: State) {
    && s.inflight == |Users(s)|
    && (Drained(s) ==> Users(s) == {})
  }

  predicate Busy(p: Pc) { p.Draining? || PastDrain(p) }

  /** Exactly one Close call does the work, and holds the mutex while it closes clients. */
  ghost predicate Works(s: State) {
    && (forall t :: Busy(s.At(t)) <==> s.closer == Some(t) && !s.done)
    && (forall t :: s.mu == Some(t) <==> s.At(t).Closing?)
  }

  ghost predicate Flags(s: State) {
    && (s.closed <==> s.closer.Some?)
    && (s.done ==> s.closed)
    && (s.returned ==> s.done)
    && (forall t :: s.At(t).AwaitingDone? ==> s.closed)
  }

  ghost predicate Closers(s: State) { Works(s) && Flags(s) }

  /** Until the close is done, the pool holds every client that was built. */
  ghost predicate Pooled(s: State) {
    && (!s.done ==> forall c: nat :: c in s.clients <==> c < s.made)
    && (forall t :: s.At(t).Doing? ==> s.At(t).client < s.made)
    && (forall t :: s.At(t).Closing? ==> s.At(t).rest <= s.clients)
  }

  ghost predicate ClosedAsDue(s: State) { forall c: nat :: s.idleClosed[c] == TimesClosed(s, c) }

  ghost predicate Pooling(s: State) { Pooled(s) && ClosedAsDue(s) }

  lemma Resized(u: set<Thread>, t: Thread)
    ensures |u + {t}| == |u| + if t in u then 0 else 1
    ensures |u - {t}| == |u| - if t in u then 1 else 0
  {
    if t in u { assert u + {t} == u; } else { assert u - {t} == u; }
  }

  lemma UsersMove(s: State, z: State, t: Thread, p: Pc)
    requires z.pc == s.pc[t := p]
    ensures Users(z) == if InFlight(p) then Users(s) + {t} else Users(s) - {t}
    ensures t in Users(s) <==> InFlight(s.At(t))
  {}

  /** The closing thread's place tells whether the close is done. */
  ghost predicate CloserMoves(s: State, z: State, t: Thread) {
    var p, q := s.At(t), z.At(t);
    && (!Busy(p) && Busy(q) ==> s.closer.None? && !s.done && z.closer == Some(t) && !z.done)
    && (Busy(p) && !Busy(q) ==> z.done && z.closer == s.closer)
    && (Busy(p) == Busy(q) ==> z.done == s.done && z.closer == s.closer)
    && (q.Closing? && !p.Closing? ==> s.mu.None? && z.mu == Some(t))
    && (p.Closing? && !q.Closing? ==> z.mu.None?)
    && (q.Closing? == p.Closing? ==> z.mu == s.mu)
  }

  lemma CloserChange(s: State, a: Action)
    requires Closers(s) && Enabled(s, a)
    ensures CloserMoves(s, Apply(s, a), a.t)
  {}

  lemma WorkKept(s: State, z: State, t: Thread)
    requires Works(s) && CloserMoves(s, z, t) && z.pc == s.pc[t := z.At(t)]
    ensures Works(z)
  {
    assert forall u :: u != t ==> z.At(u) == s.At(u);
  }

  lemma FlagsStep(s: State, a: Action)
    requires Closers(s) && Enabled(s, a)
    ensures Flags(Apply(s, a))
  {
    var z := Apply(s, a);
    assert forall u :: u != a.t ==> z.At(u) == s.At(u);
    assert Busy(s.At(a.t)) ==> s.closer == Some(a.t);
  }

  lemma ClosersStep(s: State, a: Action)
    requires Closers(s) && Enabled(s, a)
    ensures Closers(Apply(s, a))
  {
    CloserChange(s, a);
    WorkKept(s, Apply(s, a), a.t);
    FlagsStep(s, a);
  }

  lemma InflightChange(s: State, a: Action)
    requires Enabled(s, a)
    ensures Apply(s, a).inflight - s.inflight
         == (if InFlight(Target(s, a)) then 1 else 0) - (if InFlight(s.At(a.t)) then 1 else 0)
  {}

  lemma InflightStep(s: State, a: Action)
    requires s.inflight == |Users(s)| && Enabled(s, a)
    ensures Apply(s, a).inflight == |Users(Apply(s, a))|
    ensures Users(Apply(s, a)) == if InFlight(Target(s, a)) then Users(s) + {a.t} else Users(s) - {a.t}
  {
    InflightChange(s, a);
    UsersMove(s, Apply(s, a), a.t, Target(s, a));
    Resized(Users(s), a.t);
  }

  lemma DrainsFirst(s: State, a: Action)
    requires Closers(s) && Enabled(s, a) && Drained(Apply(s, a))
    ensures Drained(s) || (a.Drained? && s.inflight == 0)
  {
    var z := Apply(s, a);
    assert forall u :: u != a.t ==> z.At(u) == s.At(u);
    assert Busy(s.At(a.t)) ==> s.closer == Some(a.t);
  }

  lemma NobodyEnters(s: State, a: Action)
    requires Closers(s) && Enabled(s, a) && !InFlight(s.At(a.t)) && (Drained(s) || a.Drained?)
    ensures !InFlight(Target(s, a))
  {}

  lemma CountingStep(s: State, a: Action)
    requires Closers(s) && Counting(s) && Enabled(s, a)
    ensures Counting(Apply(s, a))
  {
    InflightStep(s, a);
    if Drained(Apply(s, a)) {
      DrainsFirst(s, a);
      assert a.t in Users(s) <==> InFlight(s.At(a.t));
      NobodyEnters(s, a);
    }
  }

  lemma PooledStep(s: State, a: Action)
    requires Closers(s) && Pooled(s) && Enabled(s, a)
    ensures Pooled(Apply(s, a))
  {
    var z := Apply(s, a);
    assert forall u :: u != a.t ==> z.At(u) == s.At(u);
    assert Busy(s.At(a.t)) ==> s.closer == Some(a.t);
  }

  lemma ClosedAsDueStep(s: State, a: Action)
    requires Closers(s) && Pooled(s) && ClosedAsDue(s) && Enabled(s, a)
    ensures ClosedAsDue(Apply(s, a))
  {
    var z := Apply(s, a);
    assert forall u :: u != a.t ==> z.At(u) == s.At(u);
    assert Busy(s.At(a.t)) ==> s.closer == Some(a.t);
  }

  lemma InvStep(s: State, a: Action)
    requires Inv(s) && Enabled(s, a)
    ensures Inv(Apply(s, a))
  {
    ClosersStep(s, a);
    CountingStep(s, a);
    PooledStep(s, a);
    ClosedAsDueStep(s, a);
  }

  lemma InvInit()
    ensures Inv(Init())
  {}

  lemma {:induction false} InvRun(s: State, run: seq<Action>)
    requires Inv(s) && Legal(s, run)
    ensures Inv(Play(s, run))
    decreases |run|
  {
    if run != [] {
      InvStep(s, run[0]);
      InvRun(Apply(s, run[0]), run[1..]);
    }
  }

  // ------------------------------------------------------------------ theorems

  /** The count of round trips in flight is the number of threads between acquire and return,
      so it never goes negative. */
  lemma InflightIsUsers(run: seq<Action>)
    requires Legal(Init(), run)
    ensures Play(Init(), run).inflight == |Users(Play(Init(), run))|
  {
    InvRun(Init(), run);
  }

  /** Once closed is set, whatever happens then: it stays set, nothing is added to the count, and
      no client is built. */
  lemma {:induction false} NoAddAfterClosed(s: State, run: seq<Action>)
    requires Legal(s, run) && s.closed
    ensures Play(s, run).closed && Play(s, run).made == s.made && Play(s, run).inflight <= s.inflight
    decreases |run|
  {
    if run != [] { NoAddAfterClosed(Apply(s, run[0]), run[1..]); }
  }

  /** Closing idle connections never overlaps a round trip. */
  lemma CloseAfterDrain(run: seq<Action>, t: Thread, u: Thread)
    requires Legal(Init(), run)
    requires Play(Init(), run).At(t).Closing?
    ensures !InFlight(Play(Init(), run).At(u))
  {
    InvRun(Init(), run);
    var s := Play(Init(), run);
    assert u in Users(s) <==> InFlight(s.At(u));
  }

  /** When any Close call has returned, every client that was ever built has been closed exactly
      once, nothing is in flight, and it stays so whatever happens next. */
  lemma CloseIsComplete(before: seq<Action>, after: seq<Action>, c: nat)
    requires Legal(Init(), before) && Play(Init(), before).returned
    requires Legal(Play(Init(), before), after)
    ensures var s := Play(Play(Init(), before), after);
            && s.inflight == 0 && s.made == Play(Init(), before).made
            && s.idleClosed[c] == if c < s.made then 1 else 0
  {
    InvRun(Init(), before);
    StaysDone(Play(Init(), before), after);
  }

  lemma {:induction false} StaysDone(s: State, run: seq<Action>)
    requires Inv(s) && Legal(s, run) && s.done
    ensures Inv(Play(s, run)) && Play(s, run).done && Play(s, run).made == s.made
    decreases |run|
  {
    if run != [] {
      InvStep(s, run[0]);
      StaysDone(Apply(s, run[0]), run[1..]);
    }
  }

  lemma {:induction false} LegalSnoc(s: State, run: seq<Action>, a: Action)
    requires Legal(s, run + [a])
    ensures Legal(s, run) && Enabled(Play(s, run), a) && Play(s, run + [a]) == Apply(Play(s, run), a)
    decreases |run|
  {
    if run == [] {
      assert run + [a] == [a];
    } else {
      assert (run + [a])[1..] == run[1..] + [a];
      LegalSnoc(Apply(s, run[0]), run[1..], a);
    }
  }

  lemma {:induction false} ClosedRun(run: seq<Action>)
    requires Legal(Init(), run)
    ensures Play(Init(), run).closed <==> exists t :: BeginClose(t) in run
    decreases |run|
  {
    if run != [] {
      var before, a := run[..|run| - 1], run[|run| - 1];
      assert run == before + [a];
      LegalSnoc(Init(), before, a);
      ClosedRun(before);
      assert forall t :: BeginClose(t) in run <==> BeginClose(t) in before || a == BeginClose(t);
    }
  }

  /** A round trip gets its client exactly when no Close call has set its flag before and the
      factory, if asked, did not fail. */
  lemma AcquiredUntilClose(run: seq<Action>, t: Thread, choice: Choice)
    requires Legal(Init(), run + [Acquire(t, choice)])
    ensures Play(Init(), run + [Acquire(t, choice)]).At(t).Doing? <==>
            !choice.Broken? && forall u :: BeginClose(u) !in run
  {
    LegalSnoc(Init(), run, Acquire(t, choice));
    ClosedRun(run);
  }

  // ------------------------------------------------------------- what is left

  /** At most how many steps a thread has before it is idle, without the clients that it closes;
      a round trip may add a client to close. */
  function Weight(p: Pc): nat {
    match p
    case Idle => 0
    case Entering => 5
    case Doing(_) => 2
    case Leaving => 1
    case CloseEntering => 5
    case Draining => 4
    case Relocking => 3
    case Closing(_) => 2
    case AwaitingDone => 1
  }

  /** The clients that are still to be closed. */
  function ToClose(s: State): set<nat> {
    if s.done then {}
    else if s.closer.Some? && s.At(s.closer.value).Closing? then s.At(s.closer.value).rest
    else s.clients
  }

  ghost function Work(s: State): nat { Sum(s.pc, Weight) + |ToClose(s)| }

  predicate Arrives(a: Action) { a.Enter? || a.CallClose? }

  /** How the steps that do not arrive change the clients to close. */
  lemma ToCloseStep(s: State, a: Action)
    requires Inv(s) && Enabled(s, a)
    ensures var z := Apply(s, a);
            if a.CloseIdle? then ToClose(z) == ToClose(s) - {a.client} && a.client in ToClose(s)
            else if a.Acquire? && a.choice.Built? && !s.closed then ToClose(z) == ToClose(s) + {s.made}
            else ToClose(z) <= ToClose(s)
  {
    var z := Apply(s, a);
    assert forall u :: u != a.t ==> z.At(u) == s.At(u);
    assert Busy(s.At(a.t)) ==> s.closer == Some(a.t);
  }

  lemma ToCloseCount(s: State, a: Action)
    requires Inv(s) && Enabled(s, a)
    ensures |ToClose(Apply(s, a))| <= |ToClose(s)| + if a.CloseIdle? then -1 else if Target(s, a).Doing? then 1 else 0
  {
    ToCloseStep(s, a);
    Shrinks(ToClose(Apply(s, a)), ToClose(s), if a.CloseIdle? then a.client else s.made);
  }

  lemma Shrinks(u: set<nat>, v: set<nat>, c: nat)
    ensures u <= v ==> |u| <= |v|
    ensures u == v + {c} ==> |u| <= |v| + 1
    ensures u == v - {c} && c in v ==> |u| == |v| - 1
  {
    if u <= v { assert v == u + (v - u); }
  }

  lemma Descends(s: State, a: Action)
    requires Enabled(s, a) && !Arrives(a)
    ensures Weight(Target(s, a)) + (if Target(s, a).Doing? then 1 else 0)
          < Weight(s.At(a.t)) + if a.CloseIdle? then 1 else 0
  {}

  /** A step that does not arrive leaves less to do, whatever client it is given. */
  lemma StepWorks(s: State, a: Action)
    requires Inv(s) && Enabled(s, a)
    ensures !Arrives(a) ==> Work(Apply(s, a)) < Work(s)
    ensures Arrives(a) ==> Work(Apply(s, a)) <= Work(s) + 5
  {
    SumUpdate(s.pc, Weight, a.t, Target(s, a));
    ToCloseCount(s, a);
    if !Arrives(a) { Descends(s, a); }
  }

  lemma HolderGoesOn(s: State) returns (a: Action)
    requires Works(s) && s.mu.Some?
    ensures Enabled(s, a) && !Arrives(a)
  {
    var t := s.mu.value;
    assert s.At(t).Closing?;
    if s.At(t).rest == {} {
      a := Finish(t);
    } else {
      var c :| c in s.At(t).rest;
      a := CloseIdle(t, c);
    }
  }

  lemma UserGoesOn(s: State) returns (a: Action)
    requires s.inflight == |Users(s)| && s.inflight != 0
    ensures Enabled(s, a) && !Arrives(a)
  {
    var u :| u in Users(s);
    a := if s.At(u).Doing? then Respond(u) else Leave(u);
  }

  /** The Close call that came first goes on, or a round trip that it waits for does. */
  lemma CloserGoesOn(s: State, t: Thread) returns (a: Action)
    requires Inv(s) && s.mu.None? && Busy(s.At(t))
    ensures Enabled(s, a) && !Arrives(a)
  {
    if s.At(t).Draining? && s.inflight != 0 {
      a := UserGoesOn(s);
    } else {
      assert s.At(t).Closing? ==> s.mu == Some(t);
      a := if s.At(t).Draining? then Action.Drained(t) else Relock(t);
    }
  }

  lemma FreeGoesOn(s: State, t: Thread) returns (a: Action)
    requires Inv(s) && s.mu.None? && !s.At(t).Idle?
    ensures Enabled(s, a) && !Arrives(a)
  {
    match s.At(t)
    case Entering => a := Acquire(t, Broken);
    case Doing(_) => a := Respond(t);
    case Leaving => a := Leave(t);
    case CloseEntering => a := BeginClose(t);
    case AwaitingDone => {
      if s.done {
        a := SeeDone(t);
      } else {
        assert s.closer.Some?;
        a := CloserGoesOn(s, s.closer.value);
      }
    }
    case _ => a := CloserGoesOn(s, t);
  }

  /** As long as some thread is not idle, some thread can go on. */
  lemma NeverStuck(s: State, t: Thread) returns (a: Action)
    requires Inv(s) && !s.At(t).Idle?
    ensures Enabled(s, a) && !Arrives(a)
  {
    if s.mu.Some? { a := HolderGoesOn(s); } else { a := FreeGoesOn(s, t); }
  }
}
