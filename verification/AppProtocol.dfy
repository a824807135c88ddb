/** The whole process: runs, scheduler, notifications, transport, store, and App.Close, as one
    system of steps composed of the component systems. */
module AppProtocol {
  import opened Domain
  import opened Threads
  import R = RuntimeProtocol
  import S = SchedulerProtocol
  import N = NotifyProtocol
  import T = TransportProtocol

  /** Where a thread is in App.Close; called tells whether its stage's call has been made. */
  datatype Stage =
    | Away
    | AtOnce             // before closeOnce lets it in or sees the work done
    | StoppingRuntime(called: bool)
    | StoppingScheduler(called: bool)
    | ClosingNotify(called: bool)
    | ClosingTransport(called: bool)
    | ClosingStore

  datatype State = State(
    rt: R.State,
    sched: S.State,
    nm: N.State,
    tls: T.State,
    storeOpen: bool,
    once: Option<nat>,      // the thread that entered closeOnce
    onceDone: bool,
    stage: map<nat, Stage>,
    calls: map<nat, nat>,   // how many more calls a thread's run, with its senders, will make
    returned: bool)         // some App.Close call has returned
  {
    function At(i: nat): Stage { if i in stage then stage[i] else Away }

    function Calls(i: nat): nat { if i in calls then calls[i] else 0 }

    function Move(i: nat, g: Stage): State { this.(stage := stage[i := g]) }

    /** How far the closing has come. */
    function Progress(): nat {
      if onceDone then 6
      else if once.None? then 0
      else match At(once.value)
        case Away => 0
        case AtOnce => 0
        case StoppingRuntime(_) => 1
        case StoppingScheduler(_) => 2
        case ClosingNotify(_) => 3
        case ClosingTransport(_) => 4
        case ClosingStore => 5
    }
  }

  /** A run body ends: it is given, when its run begins, how many calls it will make. */
  datatype Action =
    | Rt(r: R.Action)
    | Sch(c: S.Action)
    | Nm(n: N.Action)
    | Tls(x: T.Action)
    | RunOnce(i: nat, calls: nat)  // App.RunOnce enters Runtime.TryRun
    | Fire(i: nat, calls: nat)     // cron starts a job
    | JobCalls(i: nat)             // the job enters Runtime.TryRun
    | UseStore(i: nat)             // a store operation of a run
    | BeginNotify(i: nat)          // a run calls Notify
    | BeginTrip(u: Thread)         // a run, or a sender of its Notify call, makes a request
    | CallClose(i: nat)            // App.Close is called
    | EnterOnce(i: nat)
    | SeeOnce(i: nat)
    | Begin(i: nat)                // the closing thread calls the component of its stage
    | Next(i: nat)                 // that call has returned
    | CloseStore(i: nat)

  /** The steps of runs and jobs that several components, or the budgets, take part in. */
  predicate OfRuns(a: Action) { a.RunOnce? || a.Fire? || a.JobCalls? || a.UseStore? || a.BeginNotify? || a.BeginTrip? }

  /** The steps of App.Close. */
  predicate OfClosing(a: Action) { a.CallClose? || a.EnterOnce? || a.SeeOnce? || a.Begin? || a.Next? || a.CloseStore? }

  /** The thread does nothing in any component. */
  predicate Free(s: State, i: nat) {
    s.At(i).Away? && s.rt.At(Main(i)).Idle? && s.sched.At(i).Idle? && s.nm.At(i).Idle? && s.tls.At(Main(i)).Idle?
  }

  /** The thread executes the run body itself, outside of any call it waits for. */
  predicate InBody(s: State, i: nat) {
    s.rt.At(Main(i)).Running? && s.nm.At(i).Idle? && s.tls.At(Main(i)).Idle?
  }

  predicate RtAllowed(s: State, a: R.Action) {
    && R.Enabled(s.rt, a)
    && !a.CallStop? && !a.Enter?
    && (a.Finish? ==> a.t.Main? && InBody(s, a.t.id))
  }

  predicate SchAllowed(s: State, a: S.Action) {
    && S.Enabled(s.sched, a)
    && !a.CallStop? && !a.Call? && !a.Fire?
    && (a.CallStart? ==> Free(s, a.t))
    && (a.EndCall? ==> s.rt.At(Main(a.t)).Idle?)
  }

  predicate NmAllowed(s: State, a: N.Action) {
    && N.Enabled(s.nm, a)
    && !a.CallClose? && !a.CallNotify?
    && (a.EndSend? ==> s.tls.At(Sender(a.t, a.k)).Idle?)
  }

  predicate TlsAllowed(s: State, a: T.Action) {
    T.Enabled(s.tls, a) && !a.CallClose? && !a.Enter?
  }

  function Owner(u: Thread): nat {
    match u
    case Main(i) => i
    case Sender(i, _) => i
  }

  /** Requests are made by a run body and by the senders of its Notify call. */
  predicate MayRequest(s: State, u: Thread) {
    && s.tls.At(u).Idle? && s.Calls(Owner(u)) > 0
    && match u
       case Main(i) => InBody(s, i)
       case Sender(i, k) => N.SenderAt(s.nm, i, k).Sending?
  }

  predicate InCall(g: Stage) { g.StoppingRuntime? || g.StoppingScheduler? || g.ClosingNotify? || g.ClosingTransport? }

  /** The call of the closing thread's stage is over, or not yet begun. */
  predicate CallOver(s: State, i: nat) {
    match s.At(i)
    case StoppingRuntime(_) => s.rt.At(Main(i)).Idle?
    case StoppingScheduler(_) => s.sched.At(i).Idle?
    case ClosingNotify(_) => s.nm.At(i).Idle?
    case ClosingTransport(_) => s.tls.At(Main(i)).Idle?
    case _ => false
  }

  predicate Enabled(s: State, a: Action) {
    match a
    case Rt(r) => RtAllowed(s, r)
    case Sch(c) => SchAllowed(s, c)
    case Nm(n) => NmAllowed(s, n)
    case Tls(x) => TlsAllowed(s, x)
    case RunOnce(i, _) => Free(s, i)
    case Fire(i, _) => Free(s, i) && S.Enabled(s.sched, S.Fire(i))
    case JobCalls(i) => s.sched.At(i).Calling? && s.rt.At(Main(i)).Idle?
    case UseStore(i) => InBody(s, i) && s.Calls(i) > 0
    case BeginNotify(i) => InBody(s, i) && s.Calls(i) > 0
    case BeginTrip(u) => MayRequest(s, u)
    case CallClose(i) => Free(s, i)
    case EnterOnce(i) => s.At(i).AtOnce? && s.once.None?
    case SeeOnce(i) => s.At(i).AtOnce? && s.onceDone
    case Begin(i) => InCall(s.At(i)) && !s.At(i).called && CallOver(s, i)
    case Next(i) => InCall(s.At(i)) && s.At(i).called && CallOver(s, i)
    case CloseStore(i) => s.At(i).ClosingStore?
  }

  function Spend(s: State, i: nat): State { s.(calls := s.calls[i := if s.Calls(i) > 0 then s.Calls(i) - 1 else 0]) }

  function BeginCall(s: State, i: nat): State
    requires InCall(s.At(i)) && CallOver(s, i)
  {
    match s.At(i)
    case StoppingRuntime(_) => s.(rt := R.Apply(s.rt, R.CallStop(Main(i)))).Move(i, StoppingRuntime(true))
    case StoppingScheduler(_) => s.(sched := S.Apply(s.sched, S.CallStop(i))).Move(i, StoppingScheduler(true))
    case ClosingNotify(_) => s.(nm := N.Apply(s.nm, N.CallClose(i))).Move(i, ClosingNotify(true))
    case ClosingTransport(_) => s.(tls := T.Apply(s.tls, T.CallClose(Main(i)))).Move(i, ClosingTransport(true))
  }

  function After(g: Stage): Stage
    requires InCall(g)
  {
    match g
    case StoppingRuntime(_) => StoppingScheduler(false)
    case StoppingScheduler(_) => ClosingNotify(false)
    case ClosingNotify(_) => ClosingTransport(false)
    case ClosingTransport(_) => ClosingStore
  }

  function Apply(s: State, a: Action): (r: State)
    requires Enabled(s, a)
    ensures r.nm.channels == s.nm.channels && (s.returned ==> r.returned)
    ensures !OfClosing(a) ==> r.stage == s.stage
  {
    match a
    case Rt(r) => s.(rt := R.Apply(s.rt, r))
    case Sch(c) => s.(sched := S.Apply(s.sched, c))
    case Nm(n) => s.(nm := N.Apply(s.nm, n))
    case Tls(x) => s.(tls := T.Apply(s.tls, x))
    case RunOnce(i, calls) => s.(rt := R.Apply(s.rt, R.Enter(Main(i))), calls := s.calls[i := calls])
    case Fire(i, calls) => s.(sched := S.Apply(s.sched, S.Fire(i)), calls := s.calls[i := calls])
    case JobCalls(i) => s.(sched := S.Apply(s.sched, S.Call(i)), rt := R.Apply(s.rt, R.Enter(Main(i))))
    case UseStore(i) => Spend(s, i)
    case BeginNotify(i) => Spend(s.(nm := N.Apply(s.nm, N.CallNotify(i))), i)
    case BeginTrip(u) => Spend(s.(tls := T.Apply(s.tls, T.Enter(u))), Owner(u))
    case CallClose(i) => s.Move(i, AtOnce)
    case EnterOnce(i) => s.Move(i, StoppingRuntime(false)).(once := Some(i))
    case SeeOnce(i) => s.Move(i, Away).(returned := true)
    case Begin(i) => BeginCall(s, i)
    case Next(i) => s.Move(i, After(s.At(i)))
    case CloseStore(i) => s.Move(i, Away).(storeOpen := false, onceDone := true, returned := true)
  }

  function Init(published: bool, channels: nat): State {
    State(R.Init(published), S.Init(), N.Init(channels), T.Init(), true, None, false, map[], map[], false)
  }

  predicate Legal(s: State, run: seq<Action>)
    decreases |run|
  {
    run == [] || (Enabled(s, run[0]) && Legal(Apply(s, run[0]), run[1..]))
  }

  function Play(s: State, run: seq<Action>): State
    requires Legal(s, run)
    decreases |run|
  {
    if run == [] then s else Play(Apply(s, run[0]), run[1..])
  }

  // ----------------------------------------------------------------- invariant

  predicate SchedStopping(p: S.Pc) { p.StopEntering? || p.AwaitingDone? || p.AwaitingJobs? || p.Finishing? }

  predicate NmClosing(p: N.Pc) { p.CloseEntering? || p.CloseWaiting? || p.CloseChannels? }

  predicate TlsClosing(p: T.Pc) {
    p.CloseEntering? || p.AwaitingDone? || p.Draining? || p.Relocking? || p.Closing?
  }

  predicate RoundTripping(p: T.Pc) { p.Entering? || p.Doing? || p.Leaving? }

  ghost predicate Components(s: State) { R.Inv(s.rt) && S.Inv(s.sched) && N.Inv(s.nm) && T.Inv(s.tls) }

  /** One thread closes, and only it is in a stop or close call, the one of its stage. */
  ghost predicate Roles(s: State) {
    && (forall i: nat :: !s.At(i).Away? && !s.At(i).AtOnce? <==> s.once == Some(i) && !s.onceDone)
    && (s.onceDone ==> s.once.Some?)
    && (forall u :: R.Stopping(s.rt.At(u)) ==> u.Main? && s.At(u.id) == StoppingRuntime(true))
    && (forall i: nat :: SchedStopping(s.sched.At(i)) ==> s.At(i) == StoppingScheduler(true))
    && (forall i: nat :: NmClosing(s.nm.At(i)) ==> s.At(i) == ClosingNotify(true))
    && (forall u :: TlsClosing(s.tls.At(u)) ==> u.Main? && s.At(u.id) == ClosingTransport(true))
  }

  /** Runs nest: a job around its run, a Notify call and round trips within a run, the round
      trips of senders within their send. */
  ghost predicate Nesting(s: State) {
    && (forall u :: !s.rt.At(u).Idle? ==>
          u.Main? && (R.Stopping(s.rt.At(u)) || (s.At(u.id).Away? && (s.sched.At(u.id).Idle? || s.sched.At(u.id).Inside?))))
    && (forall i: nat :: !s.sched.At(i).Idle? ==> SchedStopping(s.sched.At(i)) || s.At(i).Away?)
    && (forall i: nat :: !s.nm.At(i).Idle? ==> NmClosing(s.nm.At(i)) || s.rt.At(Main(i)).Running?)
    && (forall u :: !s.tls.At(u).Idle? ==> TlsClosing(s.tls.At(u)) || Requests(s, u))
  }

  ghost predicate Requests(s: State, u: Thread) {
    && RoundTripping(s.tls.At(u))
    && match u
       case Main(i) => s.rt.At(u).Running? && s.nm.At(i).Idle?
       case Sender(i, k) => N.SenderAt(s.nm, i, k).Sending?
  }

  /** What each stage leaves behind, and what no stage does too early. */
  ghost predicate Order(s: State) {
    && (s.Progress() >= 2 ==> s.rt.barrier)
    && (s.Progress() >= 3 ==> s.sched.returned)
    && (s.Progress() >= 4 ==> s.nm.returned)
    && (s.Progress() >= 5 ==> s.tls.returned)
    && (forall i: nat :: s.At(i) == StoppingRuntime(true) && s.rt.At(Main(i)).Idle? ==> s.rt.barrier)
    && (forall i: nat :: s.At(i) == StoppingScheduler(true) && s.sched.At(i).Idle? ==> s.sched.returned)
    && (forall i: nat :: s.At(i) == ClosingNotify(true) && s.nm.At(i).Idle? ==> s.nm.returned)
    && (forall i: nat :: s.At(i) == ClosingTransport(true) && s.tls.At(Main(i)).Idle? ==> s.tls.returned)
    && (s.nm.closing ==> s.Progress() >= 3)
    && (s.tls.closed ==> s.Progress() >= 4)
    && (s.onceDone <==> !s.storeOpen)
    && (s.returned ==> s.onceDone)
  }

  /** Roles, order and nesting, without what holds inside the components. */
  ghost predicate Outline(s: State) { Roles(s) && Nesting(s) && Order(s) }

  ghost predicate Inv(s: State) { Components(s) && Outline(s) }

  lemma InvInit(published: bool, channels: nat)
    ensures Inv(Init(published, channels))
  {
    N.InvInit(channels);
    T.InvInit();
    S.InvInit();
  }

  // -------------------------------------------- what component steps can change

  /** What a step of the runtime that is not the call of Stop makes of a place in it. */
  ghost predicate RtEffect(p: R.Pc, q: R.Pc, before: R.State, after: R.State) {
    && (before.barrier ==> after.barrier)
    && (R.Stopping(q) ==> R.Stopping(p))
    && (R.Stopping(p) ==> R.Stopping(q) || (q.Idle? && after.barrier))
  }

  lemma RtStep(p: R.State, a: R.Action)
    requires R.Enabled(p, a) && R.ByThread(a) && !a.CallStop?
    ensures RtEffect(p.At(a.t), R.Target(p, a), p, R.Apply(p, a))
  {}

  /** The same for the scheduler. */
  ghost predicate SchEffect(p: S.Pc, q: S.Pc, before: S.State, after: S.State) {
    && (before.returned ==> after.returned)
    && (SchedStopping(q) ==> SchedStopping(p))
    && (SchedStopping(p) ==> SchedStopping(q) || (q.Idle? && after.returned))
  }

  lemma SchStep(p: S.State, a: S.Action)
    requires S.Enabled(p, a) && S.ByThread(a) && !a.CallStop?
    ensures SchEffect(p.At(a.t), S.Target(p, a), p, S.Apply(p, a))
  {}

  /** The same for the notification manager. */
  ghost predicate NmEffect(p: N.Pc, q: N.Pc, before: N.State, after: N.State) {
    && (before.returned ==> after.returned)
    && (after.closing ==> before.closing || NmClosing(p))
    && (NmClosing(q) ==> NmClosing(p))
    && (NmClosing(p) ==> NmClosing(q) || (q.Idle? && after.returned))
  }

  lemma NmStep(p: N.State, a: N.Action)
    requires N.Enabled(p, a) && !a.CallClose?
    ensures NmEffect(p.At(a.t), N.Target(p, a), p, N.Apply(p, a))
  {}

  /** The same for the transport. */
  ghost predicate TlsEffect(p: T.Pc, q: T.Pc, before: T.State, after: T.State) {
    && (before.returned ==> after.returned)
    && (after.closed ==> before.closed || TlsClosing(p))
    && (TlsClosing(q) ==> TlsClosing(p))
    && (TlsClosing(p) ==> TlsClosing(q) || (q.Idle? && after.returned))
    && (RoundTripping(p) ==> RoundTripping(q) || q.Idle?)
  }

  lemma TlsStep(p: T.State, a: T.Action)
    requires T.Enabled(p, a) && !a.CallClose?
    ensures TlsEffect(p.At(a.t), T.Target(p, a), p, T.Apply(p, a))
  {}

  // ----------------------------------------------------- the invariant is kept

  lemma RtKeepsNesting(s: State, z: State, t: Thread)
    requires Nesting(s) && z == s.(rt := z.rt)
    requires forall u :: u != t ==> z.rt.At(u) == s.rt.At(u)
    requires R.Stopping(s.rt.At(t)) ==> R.Stopping(z.rt.At(t)) || z.rt.At(t).Idle?
    requires s.rt.At(t).Idle? && !z.rt.At(t).Idle? ==>
               t.Main? && s.At(t.id).Away? && (s.sched.At(t.id).Idle? || s.sched.At(t.id).Inside?)
    requires s.rt.At(t).Running? && !z.rt.At(t).Running? ==> t.Main? && InBody(s, t.id)
    ensures Nesting(z)
  {
    assert forall i: nat :: z.At(i) == s.At(i);
    forall u | !z.tls.At(u).Idle? && !TlsClosing(z.tls.At(u)) ensures Requests(z, u) { assert Requests(s, u); }
  }

  lemma RtKeepsOrder(s: State, z: State, t: Thread)
    requires Roles(s) && Order(s) && z == s.(rt := z.rt)
    requires forall u :: u != t ==> z.rt.At(u) == s.rt.At(u)
    requires RtEffect(s.rt.At(t), z.rt.At(t), s.rt, z.rt)
    requires t.Main? && s.At(t.id).StoppingRuntime? ==> s.rt.At(t).Idle? || R.Stopping(s.rt.At(t))
    ensures Roles(z) && Order(z)
  {
    assert z.Progress() == s.Progress();
    assert forall i: nat :: z.At(i) == s.At(i);
  }

  lemma RtKeeps(s: State, q: R.State, t: Thread)
    requires Outline(s) && q.pc == s.rt.pc[t := q.At(t)] && RtEffect(s.rt.At(t), q.At(t), s.rt, q)
    requires s.rt.At(t).Idle? && !q.At(t).Idle? ==>
               t.Main? && s.At(t.id).Away? && (s.sched.At(t.id).Idle? || s.sched.At(t.id).Inside?)
    requires s.rt.At(t).Running? && !q.At(t).Running? ==> t.Main? && InBody(s, t.id)
    ensures Outline(s.(rt := q))
  {
    var z := s.(rt := q);
    assert forall u :: u != t ==> q.At(u) == s.rt.At(u);
    RtKeepsOrder(s, z, t);
    RtKeepsNesting(s, z, t);
  }

  /** Nothing that Outline speaks of differs. */
  ghost predicate SameOutline(s: State, z: State) {
    && z == s.(rt := z.rt, sched := z.sched, calls := z.calls)
    && z.rt.pc == s.rt.pc && z.rt.barrier == s.rt.barrier
    && z.sched.pc == s.sched.pc && z.sched.returned == s.sched.returned
  }

  /** The environment changes flags that Outline does not speak of, and so do budgets. */
  lemma FlagsKeep(s: State, z: State)
    requires Outline(s) && SameOutline(s, z)
    ensures Outline(z)
  {
    assert forall u :: z.rt.At(u) == s.rt.At(u);
    assert forall i: nat :: z.sched.At(i) == s.sched.At(i) && z.At(i) == s.At(i);
    assert z.Progress() == s.Progress();
    forall u | !z.tls.At(u).Idle? && !TlsClosing(z.tls.At(u)) ensures Requests(z, u) { assert Requests(s, u); }
  }

  lemma SchKeepsNesting(s: State, z: State, t: nat)
    requires Nesting(s) && z == s.(sched := z.sched)
    requires forall u: nat :: u != t ==> z.sched.At(u) == s.sched.At(u)
    requires SchedStopping(s.sched.At(t)) ==> SchedStopping(z.sched.At(t)) || z.sched.At(t).Idle?
    requires s.sched.At(t).Idle? && !z.sched.At(t).Idle? ==> s.At(t).Away?
    requires z.sched.At(t).Idle? || z.sched.At(t).Inside? || s.rt.At(Main(t)).Idle? || R.Stopping(s.rt.At(Main(t)))
    ensures Nesting(z)
  {
    assert forall i: nat :: z.At(i) == s.At(i);
    forall u | !z.tls.At(u).Idle? && !TlsClosing(z.tls.At(u)) ensures Requests(z, u) { assert Requests(s, u); }
  }

  lemma SchKeepsOrder(s: State, z: State, t: nat)
    requires Roles(s) && Order(s) && z == s.(sched := z.sched)
    requires forall u: nat :: u != t ==> z.sched.At(u) == s.sched.At(u)
    requires SchEffect(s.sched.At(t), z.sched.At(t), s.sched, z.sched)
    requires s.At(t).StoppingScheduler? ==> s.sched.At(t).Idle? || SchedStopping(s.sched.At(t))
    ensures Roles(z) && Order(z)
  {
    assert z.Progress() == s.Progress();
    assert forall i: nat :: z.At(i) == s.At(i);
  }

  lemma SchKeeps(s: State, q: S.State, t: nat)
    requires Outline(s) && q.pc == s.sched.pc[t := q.At(t)] && SchEffect(s.sched.At(t), q.At(t), s.sched, q)
    requires s.sched.At(t).Idle? && !q.At(t).Idle? ==> s.At(t).Away?
    requires q.At(t).Idle? || q.At(t).Inside? || s.rt.At(Main(t)).Idle? || R.Stopping(s.rt.At(Main(t)))
    ensures Outline(s.(sched := q))
  {
    var z := s.(sched := q);
    assert forall u: nat :: u != t ==> q.At(u) == s.sched.At(u);
    SchKeepsOrder(s, z, t);
    SchKeepsNesting(s, z, t);
  }

  lemma NmKeepsNesting(s: State, z: State, t: nat)
    requires Nesting(s) && z == s.(nm := z.nm)
    requires forall u: nat :: u != t ==> z.nm.At(u) == s.nm.At(u)
    requires NmClosing(s.nm.At(t)) ==> NmClosing(z.nm.At(t)) || z.nm.At(t).Idle?
    requires s.nm.At(t).Idle? && !z.nm.At(t).Idle? ==> InBody(s, t)
    requires forall k: nat :: N.SenderAt(s.nm, t, k).Sending? && !s.tls.At(Sender(t, k)).Idle? ==> N.SenderAt(z.nm, t, k).Sending?
    ensures Nesting(z)
  {
    assert forall i: nat :: z.At(i) == s.At(i);
    forall u | !z.tls.At(u).Idle? && !TlsClosing(z.tls.At(u)) ensures Requests(z, u) {
      assert Requests(s, u);
      match u
      case Main(_) =>
      case Sender(i, k) => assert i != t ==> N.SenderAt(z.nm, i, k) == N.SenderAt(s.nm, i, k);
    }
  }

  lemma NmKeepsOrder(s: State, z: State, t: nat)
    requires Roles(s) && Order(s) && z == s.(nm := z.nm)
    requires forall u: nat :: u != t ==> z.nm.At(u) == s.nm.At(u)
    requires NmEffect(s.nm.At(t), z.nm.At(t), s.nm, z.nm)
    requires s.At(t).ClosingNotify? ==> s.nm.At(t).Idle? || NmClosing(s.nm.At(t))
    ensures Roles(z) && Order(z)
  {
    assert z.Progress() == s.Progress();
    assert NmClosing(s.nm.At(t)) ==> s.once == Some(t);
    assert forall i: nat :: z.At(i) == s.At(i);
  }

  lemma NmKeeps(s: State, q: N.State, t: nat)
    requires Outline(s) && q.pc == s.nm.pc[t := q.At(t)] && NmEffect(s.nm.At(t), q.At(t), s.nm, q)
    requires s.nm.At(t).Idle? && !q.At(t).Idle? ==> InBody(s, t)
    requires forall k: nat :: N.SenderAt(s.nm, t, k).Sending? && !s.tls.At(Sender(t, k)).Idle? ==> N.SenderAt(q, t, k).Sending?
    ensures Outline(s.(nm := q))
  {
    var z := s.(nm := q);
    assert forall u: nat :: u != t ==> q.At(u) == s.nm.At(u);
    NmKeepsOrder(s, z, t);
    NmKeepsNesting(s, z, t);
  }

  lemma TlsKeepsNesting(s: State, z: State, t: Thread)
    requires Nesting(s) && z == s.(tls := z.tls)
    requires forall u :: u != t ==> z.tls.At(u) == s.tls.At(u)
    requires TlsClosing(s.tls.At(t)) ==> TlsClosing(z.tls.At(t)) || z.tls.At(t).Idle?
    requires RoundTripping(s.tls.At(t)) ==> RoundTripping(z.tls.At(t)) || z.tls.At(t).Idle?
    requires s.tls.At(t).Idle? && !z.tls.At(t).Idle? ==> Requests(z, t)
    ensures Nesting(z)
  {
    assert forall i: nat :: z.At(i) == s.At(i);
    forall u | !z.tls.At(u).Idle? && !TlsClosing(z.tls.At(u)) ensures Requests(z, u) {
      if u != t || !s.tls.At(t).Idle? { assert Requests(s, u); }
    }
  }

  lemma TlsKeepsOrder(s: State, z: State, t: Thread)
    requires Roles(s) && Order(s) && z == s.(tls := z.tls)
    requires forall u :: u != t ==> z.tls.At(u) == s.tls.At(u)
    requires TlsEffect(s.tls.At(t), z.tls.At(t), s.tls, z.tls)
    requires t.Main? && s.At(t.id).ClosingTransport? ==> s.tls.At(t).Idle? || TlsClosing(s.tls.At(t))
    ensures Roles(z) && Order(z)
  {
    assert z.Progress() == s.Progress();
    assert TlsClosing(s.tls.At(t)) ==> t.Main? && s.once == Some(t.id);
    assert forall i: nat :: z.At(i) == s.At(i);
  }

  lemma TlsKeeps(s: State, q: T.State, t: Thread)
    requires Outline(s) && q.pc == s.tls.pc[t := q.At(t)] && TlsEffect(s.tls.At(t), q.At(t), s.tls, q)
    requires s.tls.At(t).Idle? && !q.At(t).Idle? ==> Requests(s.(tls := q), t)
    ensures Outline(s.(tls := q))
  {
    var z := s.(tls := q);
    assert forall u :: u != t ==> q.At(u) == s.tls.At(u);
    assert !s.tls.At(t).Idle? && !TlsClosing(s.tls.At(t)) ==> Requests(s, t);
    TlsKeepsOrder(s, z, t);
    TlsKeepsNesting(s, z, t);
  }

  lemma RtCase(s: State, a: R.Action)
    requires Inv(s) && RtAllowed(s, a)
    ensures Inv(s.(rt := R.Apply(s.rt, a)))
  {
    R.InvStep(s.rt, a);
    if R.ByThread(a) {
      RtStep(s.rt, a);
      RtKeeps(s, R.Apply(s.rt, a), a.t);
    } else {
      FlagsKeep(s, s.(rt := R.Apply(s.rt, a)));
    }
  }

  lemma SchCase(s: State, a: S.Action)
    requires Inv(s) && SchAllowed(s, a)
    ensures Inv(s.(sched := S.Apply(s.sched, a)))
  {
    S.InvStep(s.sched, a);
    if S.ByThread(a) {
      SchStep(s.sched, a);
      SchKeeps(s, S.Apply(s.sched, a), a.t);
    } else {
      FlagsKeep(s, s.(sched := S.Apply(s.sched, a)));
    }
  }

  /** A send that waits for its own round trip goes on. */
  lemma SendingStays(p: N.State, a: N.Action, k: nat)
    requires N.GoodPc(p.At(a.t), p.channels) && N.Enabled(p, a)
    requires N.SenderAt(p, a.t, k).Sending? && !(a.EndSend? && a.k == k)
    ensures N.SenderAt(N.Apply(p, a), a.t, k).Sending?
  {
    if a.Join? { N.NoneAlive(p.At(a.t).call.senders, k); }
  }

  lemma SendsStay(s: State, a: N.Action)
    requires N.GoodPc(s.nm.At(a.t), s.nm.channels) && NmAllowed(s, a)
    ensures forall k: nat :: N.SenderAt(s.nm, a.t, k).Sending? && !s.tls.At(Sender(a.t, k)).Idle? ==>
              N.SenderAt(N.Apply(s.nm, a), a.t, k).Sending?
  {
    forall k: nat | N.SenderAt(s.nm, a.t, k).Sending? && !s.tls.At(Sender(a.t, k)).Idle?
      ensures N.SenderAt(N.Apply(s.nm, a), a.t, k).Sending?
    {
      SendingStays(s.nm, a, k);
    }
  }

  lemma NmCase(s: State, a: N.Action)
    requires Inv(s) && NmAllowed(s, a)
    ensures Inv(s.(nm := N.Apply(s.nm, a)))
  {
    N.InvStep(s.nm, a);
    NmStep(s.nm, a);
    assert N.GoodPc(s.nm.At(a.t), s.nm.channels);
    SendsStay(s, a);
    NmKeeps(s, N.Apply(s.nm, a), a.t);
  }

  lemma TlsCase(s: State, a: T.Action)
    requires Inv(s) && TlsAllowed(s, a)
    ensures Inv(s.(tls := T.Apply(s.tls, a)))
  {
    T.InvStep(s.tls, a);
    TlsStep(s.tls, a);
    TlsKeeps(s, T.Apply(s.tls, a), a.t);
  }

  lemma SpendKeeps(s: State, calls: map<nat, nat>)
    requires Inv(s)
    ensures Inv(s.(calls := calls))
  {
    FlagsKeep(s, s.(calls := calls));
  }

  lemma RunOnceCase(s: State, z: State, i: nat)
    requires Inv(s) && Free(s, i) && z == s.(rt := R.Apply(s.rt, R.Enter(Main(i))), calls := z.calls)
    ensures Inv(z)
  {
    R.InvStep(s.rt, R.Enter(Main(i)));
    RtKeeps(s, z.rt, Main(i));
    SpendKeeps(s.(rt := z.rt), z.calls);
  }

  lemma FireCase(s: State, z: State, i: nat)
    requires Inv(s) && Free(s, i) && S.Enabled(s.sched, S.Fire(i))
    requires z == s.(sched := S.Apply(s.sched, S.Fire(i)), calls := z.calls)
    ensures Inv(z)
  {
    S.InvStep(s.sched, S.Fire(i));
    SchKeeps(s, z.sched, i);
    SpendKeeps(s.(sched := z.sched), z.calls);
  }

  lemma JobEntersTryRun(s: State, i: nat)
    requires Inv(s) && s.sched.At(i).Inside? && s.At(i).Away? && s.rt.At(Main(i)).Idle?
    ensures Inv(s.(rt := R.Apply(s.rt, R.Enter(Main(i)))))
  {
    R.InvStep(s.rt, R.Enter(Main(i)));
    RtKeeps(s, R.Apply(s.rt, R.Enter(Main(i))), Main(i));
  }

  lemma JobIsInside(s: State, i: nat)
    requires Inv(s) && Enabled(s, JobCalls(i))
    ensures Inv(s.(sched := S.Apply(s.sched, S.Call(i)))) && s.At(i).Away?
  {
    S.InvStep(s.sched, S.Call(i));
    SchKeeps(s, S.Apply(s.sched, S.Call(i)), i);
  }

  lemma JobCase(s: State, i: nat)
    requires Inv(s) && Enabled(s, JobCalls(i))
    ensures Inv(Apply(s, JobCalls(i)))
  {
    JobIsInside(s, i);
    JobEntersTryRun(s.(sched := S.Apply(s.sched, S.Call(i))), i);
  }

  lemma NotifyCase(s: State, z: State, i: nat)
    requires Inv(s) && InBody(s, i) && z == s.(nm := N.Apply(s.nm, N.CallNotify(i)), calls := z.calls)
    ensures Inv(z)
  {
    N.InvStep(s.nm, N.CallNotify(i));
    NmKeeps(s, z.nm, i);
    SpendKeeps(s.(nm := z.nm), z.calls);
  }

  lemma TripCase(s: State, z: State, u: Thread)
    requires Inv(s) && MayRequest(s, u) && z == s.(tls := T.Apply(s.tls, T.Enter(u)), calls := z.calls)
    ensures Inv(z)
  {
    T.InvStep(s.tls, T.Enter(u));
    TlsKeeps(s, z.tls, u);
    SpendKeeps(s.(tls := z.tls), z.calls);
  }

  // ---------------------------------------------------------------- App.Close

  /** Only the place of thread i in App.Close changes, and how far the closing has come. */
  ghost predicate OnlyStage(s: State, z: State, i: nat, g: Stage) {
    && z == s.(stage := s.stage[i := g], once := z.once, onceDone := z.onceDone, storeOpen := z.storeOpen, returned := z.returned)
  }

  lemma StageKeepsNesting(s: State, z: State, i: nat, g: Stage)
    requires Nesting(s) && OnlyStage(s, z, i, g)
    requires g.Away? || (s.rt.At(Main(i)).Idle? && s.sched.At(i).Idle?)
    ensures Nesting(z)
  {
    assert forall j: nat :: j != i ==> z.At(j) == s.At(j);
    forall u | !z.tls.At(u).Idle? && !TlsClosing(z.tls.At(u)) ensures Requests(z, u) { assert Requests(s, u); }
  }

  lemma WaitCase(s: State, i: nat, g: Stage)
    requires Outline(s) && (Free(s, i) || s.At(i).AtOnce?) && (g.AtOnce? || g.Away?)
    ensures Outline(s.Move(i, g))
  {
    var z := s.Move(i, g);
    assert forall j: nat :: j != i ==> z.At(j) == s.At(j);
    assert z.Progress() == s.Progress();
    if g.AtOnce? && s.At(i).AtOnce? { assert s.stage[i := g] == s.stage; } else { StageKeepsNesting(s, z, i, g); }
  }

  lemma ReturnedCase(s: State)
    requires Outline(s) && s.onceDone
    ensures Outline(s.(returned := true))
  {
    var z := s.(returned := true);
    assert forall j: nat :: z.At(j) == s.At(j);
    assert z.Progress() == s.Progress();
    forall u | !z.tls.At(u).Idle? && !TlsClosing(z.tls.At(u)) ensures Requests(z, u) { assert Requests(s, u); }
  }

  /** A thread that is in App.Close, but in no call from there, is idle everywhere. */
  lemma ClosersIdle(s: State, i: nat)
    requires Roles(s) && Nesting(s) && !s.At(i).Away?
    ensures s.rt.At(Main(i)).Idle? || s.At(i) == StoppingRuntime(true)
    ensures s.sched.At(i).Idle? || s.At(i) == StoppingScheduler(true)
    ensures s.nm.At(i).Idle? || s.At(i) == ClosingNotify(true)
    ensures s.tls.At(Main(i)).Idle? || s.At(i) == ClosingTransport(true)
  {
    assert !s.tls.At(Main(i)).Idle? && !TlsClosing(s.tls.At(Main(i))) ==> Requests(s, Main(i));
  }

  lemma EnterOnceCase(s: State, i: nat)
    requires Outline(s) && s.At(i).AtOnce? && s.once.None?
    ensures Outline(s.Move(i, StoppingRuntime(false)).(once := Some(i)))
  {
    var z := s.Move(i, StoppingRuntime(false)).(once := Some(i));
    assert forall j: nat :: j != i ==> z.At(j) == s.At(j);
    ClosersIdle(s, i);
    StageKeepsNesting(s, z, i, StoppingRuntime(false));
  }

  lemma NextCase(s: State, i: nat)
    requires Outline(s) && InCall(s.At(i)) && s.At(i).called && CallOver(s, i)
    ensures Outline(s.Move(i, After(s.At(i))))
  {
    var z := s.Move(i, After(s.At(i)));
    assert forall j: nat :: j != i ==> z.At(j) == s.At(j);
    ClosersIdle(s, i);
    StageKeepsNesting(s, z, i, After(s.At(i)));
    assert s.once == Some(i) && z.Progress() == s.Progress() + 1;
  }

  lemma CloseStoreCase(s: State, i: nat)
    requires Outline(s) && s.At(i).ClosingStore?
    ensures Outline(s.Move(i, Away).(storeOpen := false, onceDone := true, returned := true))
  {
    var z := s.Move(i, Away).(storeOpen := false, onceDone := true, returned := true);
    assert forall j: nat :: j != i ==> z.At(j) == s.At(j);
    StageKeepsNesting(s, z, i, Away);
    assert s.once == Some(i);
  }

  lemma BeginRuntimeCase(s: State, z: State, i: nat)
    requires Outline(s) && s.At(i) == StoppingRuntime(false)
    requires z == s.(rt := z.rt, stage := s.stage[i := StoppingRuntime(true)])
    requires z.rt.pc == s.rt.pc[Main(i) := R.Swapping] && z.rt.barrier == s.rt.barrier
    ensures Outline(z)
  {
    assert forall j: nat :: j != i ==> z.At(j) == s.At(j);
    assert forall u :: u != Main(i) ==> z.rt.At(u) == s.rt.At(u);
    assert s.once == Some(i) && z.Progress() == s.Progress();
    ClosersIdle(s, i);
    forall u | !z.tls.At(u).Idle? && !TlsClosing(z.tls.At(u)) ensures Requests(z, u) { assert Requests(s, u); }
  }

  lemma BeginSchedulerCase(s: State, z: State, i: nat)
    requires Outline(s) && s.At(i) == StoppingScheduler(false)
    requires z == s.(sched := z.sched, stage := s.stage[i := StoppingScheduler(true)])
    requires z.sched.pc == s.sched.pc[i := S.StopEntering] && z.sched.returned == s.sched.returned
    ensures Outline(z)
  {
    assert forall j: nat :: j != i ==> z.At(j) == s.At(j) && z.sched.At(j) == s.sched.At(j);
    assert s.once == Some(i) && z.Progress() == s.Progress();
    ClosersIdle(s, i);
    forall u | !z.tls.At(u).Idle? && !TlsClosing(z.tls.At(u)) ensures Requests(z, u) { assert Requests(s, u); }
  }

  lemma BeginNotifyCase(s: State, z: State, i: nat)
    requires Outline(s) && s.At(i) == ClosingNotify(false)
    requires z == s.(nm := z.nm, stage := s.stage[i := ClosingNotify(true)])
    requires z.nm.pc == s.nm.pc[i := N.CloseEntering]
    requires z.nm.returned == s.nm.returned && z.nm.closing == s.nm.closing
    ensures Outline(z)
  {
    assert forall j: nat :: j != i ==> z.At(j) == s.At(j) && z.nm.At(j) == s.nm.At(j);
    assert s.once == Some(i) && z.Progress() == s.Progress();
    ClosersIdle(s, i);
    forall u | !z.tls.At(u).Idle? && !TlsClosing(z.tls.At(u)) ensures Requests(z, u) {
      assert Requests(s, u);
      assert u.Sender? ==> N.SenderAt(z.nm, u.owner, u.channel) == N.SenderAt(s.nm, u.owner, u.channel);
    }
  }

  lemma BeginTransportCase(s: State, z: State, i: nat)
    requires Outline(s) && s.At(i) == ClosingTransport(false)
    requires z == s.(tls := z.tls, stage := s.stage[i := ClosingTransport(true)])
    requires z.tls.pc == s.tls.pc[Main(i) := T.CloseEntering]
    requires z.tls.returned == s.tls.returned && z.tls.closed == s.tls.closed
    ensures Outline(z)
  {
    assert forall j: nat :: j != i ==> z.At(j) == s.At(j);
    assert forall u :: u != Main(i) ==> z.tls.At(u) == s.tls.At(u);
    assert s.once == Some(i) && z.Progress() == s.Progress();
    ClosersIdle(s, i);
    forall u | !z.tls.At(u).Idle? && !TlsClosing(z.tls.At(u)) ensures Requests(z, u) { assert Requests(s, u); }
  }

  lemma BeginRuntime(s: State, i: nat)
    requires Inv(s) && s.At(i) == StoppingRuntime(false) && s.rt.At(Main(i)).Idle?
    ensures Inv(s.(rt := R.Apply(s.rt, R.CallStop(Main(i)))).Move(i, StoppingRuntime(true)))
  {
    R.InvStep(s.rt, R.CallStop(Main(i)));
    BeginRuntimeCase(s, s.(rt := R.Apply(s.rt, R.CallStop(Main(i)))).Move(i, StoppingRuntime(true)), i);
  }

  lemma BeginScheduler(s: State, i: nat)
    requires Inv(s) && s.At(i) == StoppingScheduler(false) && s.sched.At(i).Idle?
    ensures Inv(s.(sched := S.Apply(s.sched, S.CallStop(i))).Move(i, StoppingScheduler(true)))
  {
    S.InvStep(s.sched, S.CallStop(i));
    BeginSchedulerCase(s, s.(sched := S.Apply(s.sched, S.CallStop(i))).Move(i, StoppingScheduler(true)), i);
  }

  lemma BeginNotifyClose(s: State, i: nat)
    requires Inv(s) && s.At(i) == ClosingNotify(false) && s.nm.At(i).Idle?
    ensures Inv(s.(nm := N.Apply(s.nm, N.CallClose(i))).Move(i, ClosingNotify(true)))
  {
    N.InvStep(s.nm, N.CallClose(i));
    BeginNotifyCase(s, s.(nm := N.Apply(s.nm, N.CallClose(i))).Move(i, ClosingNotify(true)), i);
  }

  lemma BeginTransport(s: State, i: nat)
    requires Inv(s) && s.At(i) == ClosingTransport(false) && s.tls.At(Main(i)).Idle?
    ensures Inv(s.(tls := T.Apply(s.tls, T.CallClose(Main(i)))).Move(i, ClosingTransport(true)))
  {
    T.InvStep(s.tls, T.CallClose(Main(i)));
    BeginTransportCase(s, s.(tls := T.Apply(s.tls, T.CallClose(Main(i)))).Move(i, ClosingTransport(true)), i);
  }

  lemma BeginCase(s: State, i: nat)
    requires InCall(s.At(i)) && !s.At(i).called && CallOver(s, i) && Inv(s)
    ensures Inv(BeginCall(s, i))
  {
    match s.At(i)
    case StoppingRuntime(_) => BeginRuntime(s, i);
    case StoppingScheduler(_) => BeginScheduler(s, i);
    case ClosingNotify(_) => BeginNotifyClose(s, i);
    case ClosingTransport(_) => BeginTransport(s, i);
  }

  // ------------------------------------------------------------------ all steps

  lemma RunsKeep(s: State, a: Action)
    requires Inv(s) && Enabled(s, a) && OfRuns(a)
    ensures Inv(Apply(s, a))
  {
    match a
    case RunOnce(i, _) => RunOnceCase(s, Apply(s, a), i);
    case Fire(i, _) => FireCase(s, Apply(s, a), i);
    case JobCalls(i) => JobCase(s, i);
    case UseStore(i) => SpendKeeps(s, Apply(s, a).calls);
    case BeginNotify(i) => NotifyCase(s, Apply(s, a), i);
    case BeginTrip(u) => TripCase(s, Apply(s, a), u);
  }

  lemma ClosingKeeps(s: State, a: Action)
    requires Inv(s) && Enabled(s, a) && OfClosing(a)
    ensures Inv(Apply(s, a))
  {
    match a
    case CallClose(i) => WaitCase(s, i, AtOnce);
    case EnterOnce(i) => EnterOnceCase(s, i);
    case SeeOnce(i) => { WaitCase(s, i, Away); ReturnedCase(s.Move(i, Away)); }
    case Begin(i) => BeginCase(s, i);
    case Next(i) => NextCase(s, i);
    case CloseStore(i) => CloseStoreCase(s, i);
  }

  lemma ComponentsKeep(s: State, a: Action)
    requires Inv(s) && Enabled(s, a) && !OfRuns(a) && !OfClosing(a)
    ensures Inv(Apply(s, a))
  {
    match a
    case Rt(r) => RtCase(s, r);
    case Sch(c) => SchCase(s, c);
    case Nm(n) => NmCase(s, n);
    case Tls(x) => TlsCase(s, x);
  }

  lemma InvStep(s: State, a: Action)
    requires Inv(s) && Enabled(s, a)
    ensures Inv(Apply(s, a))
  {
    if OfRuns(a) {
      RunsKeep(s, a);
    } else if OfClosing(a) {
      ClosingKeeps(s, a);
    } else {
      ComponentsKeep(s, a);
    }
  }

  lemma {:induction false} InvRun(s: State, run: seq<Action>)
    requires Inv(s) && Legal(s, run)
    ensures Inv(Play(s, run)) && (s.returned ==> Play(s, run).returned)
    decreases |run|
  {
    if run != [] {
      InvStep(s, run[0]);
      InvRun(Apply(s, run[0]), run[1..]);
    }
  }

  // ------------------------------------------------------------------ theorems

  /** Whenever a thread is in the run body, the store is open and neither the notification
      manager nor the transport has begun to close. */
  lemma RunsUseOpenResources(published: bool, channels: nat, run: seq<Action>, i: nat)
    requires Legal(Init(published, channels), run)
    requires Play(Init(published, channels), run).rt.At(Main(i)).Running?
    ensures var s := Play(Init(published, channels), run); s.storeOpen && !s.nm.closing && !s.tls.closed
  {
    InvInit(published, channels);
    InvRun(Init(published, channels), run);
  }

  lemma OneInBody(s: State, i: nat, j: nat)
    requires R.Locks(s.rt) && s.rt.At(Main(i)).Running? && s.rt.At(Main(j)).Running?
    ensures i == j
  {
    assert s.rt.mu == Some(Main(i));
  }

  /** Runs are serial: whoever calls TryRun, from App.RunOnce or from a job, no two threads are
      ever in the run body. */
  lemma RunsAreSerial(published: bool, channels: nat, run: seq<Action>, i: nat, j: nat)
    requires Legal(Init(published, channels), run)
    requires InBody(Play(Init(published, channels), run), i) && InBody(Play(Init(published, channels), run), j)
    ensures i == j
  {
    InvInit(published, channels);
    InvRun(Init(published, channels), run);
    OneInBody(Play(Init(published, channels), run), i, j);
  }

  lemma SendersIn(s: State, i: nat, k: nat)
    requires Outline(s) && (s.rt.barrier ==> !s.rt.At(Main(i)).Running?) && N.Alive(N.SenderAt(s.nm, i, k))
    ensures s.rt.At(Main(i)).Running? && s.storeOpen && !s.nm.closing && !s.tls.closed
  {}

  /** The same for the goroutines of a Notify call: as long as one is alive, its run is in the
      run body, and everything is open. */
  lemma SendersUseOpenResources(published: bool, channels: nat, run: seq<Action>, i: nat, k: nat)
    requires Legal(Init(published, channels), run)
    requires N.Alive(N.SenderAt(Play(Init(published, channels), run).nm, i, k))
    ensures var s := Play(Init(published, channels), run);
            s.rt.At(Main(i)).Running? && s.storeOpen && !s.nm.closing && !s.tls.closed
  {
    InvInit(published, channels);
    InvRun(Init(published, channels), run);
    SendersIn(Play(Init(published, channels), run), i, k);
  }

  lemma OpenForCalls(s: State, i: nat, u: Thread)
    requires Outline(s) && (s.rt.barrier ==> forall j: nat :: !s.rt.At(Main(j)).Running?)
    ensures s.nm.At(i).Entering? ==> !s.nm.closing
    ensures RoundTripping(s.tls.At(u)) ==> !s.tls.closed && s.storeOpen
  {
    assert RoundTripping(s.tls.At(u)) ==> Requests(s, u);
    assert u.Sender? && s.nm.At(u.owner).Idle? ==> N.SenderAt(s.nm, u.owner, u.channel).Unborn?;
  }

  /** So no Notify call and no round trip of a run is ever refused for a closed resource. */
  lemma NothingIsRefused(published: bool, channels: nat, run: seq<Action>, i: nat, u: Thread)
    requires Legal(Init(published, channels), run)
    ensures var s := Play(Init(published, channels), run);
            && (s.nm.At(i).Entering? ==> !s.nm.closing)
            && (RoundTripping(s.tls.At(u)) ==> !s.tls.closed && s.storeOpen)
  {
    InvInit(published, channels);
    InvRun(Init(published, channels), run);
    OpenForCalls(Play(Init(published, channels), run), i, u);
  }

  lemma AllIsOver(s: State, i: nat, u: Thread)
    requires Inv(s) && s.returned
    ensures !s.storeOpen && s.tls.done
    ensures !s.rt.At(u).Running? && !S.InJob(s.sched.At(i)) && !N.HasCall(s.nm.At(i)) && !RoundTripping(s.tls.At(u))
  {
    assert s.rt.barrier && s.sched.returned;
    assert i in S.Jobs(s.sched) <==> S.InJob(s.sched.At(i));
    OpenForCalls(s, i, u);
    assert u.Main? ==> !s.rt.At(Main(u.id)).Running?;
  }

  /** Once App.Close has returned, to whichever caller, then and ever after the store is closed,
      all pooled clients are closed, and no run, job, notification or round trip is under way. */
  lemma ClosedForGood(published: bool, channels: nat, before: seq<Action>, after: seq<Action>, i: nat, u: Thread)
    requires Legal(Init(published, channels), before) && Play(Init(published, channels), before).returned
    requires Legal(Play(Init(published, channels), before), after)
    ensures var s := Play(Play(Init(published, channels), before), after);
            && !s.storeOpen && s.tls.done
            && !s.rt.At(u).Running? && !S.InJob(s.sched.At(i)) && !N.HasCall(s.nm.At(i)) && !RoundTripping(s.tls.At(u))
  {
    InvInit(published, channels);
    InvRun(Init(published, channels), before);
    InvRun(Play(Init(published, channels), before), after);
    AllIsOver(Play(Play(Init(published, channels), before), after), i, u);
  }
}
