/** No step of the process is taken for nothing, and none is missing: what arrives pays for all
    steps that follow from it, and as long as anything is under way, some step can be taken. So
    every App.Close call returns, whatever the environment chooses, delays or fails. */
module AppProgress {
  import opened Sums
  import opened Threads
  import opened AppProtocol
  import R = RuntimeProtocol
  import S = SchedulerProtocol
  import N = NotifyProtocol
  import T = TransportProtocol

  /** What comes from outside: calls of the app's methods, cron's ticks, and contexts that end. */
  predicate External(a: Action) {
    match a
    case Rt(r) => !R.ByThread(r)
    case Sch(c) => c.ParentOver? || c.CallStart?
    case RunOnce(_, _) => true
    case Fire(_, _) => true
    case CallClose(_) => true
    case _ => false
  }

  // ------------------------------------------------------------- what is left

  /** More than the steps of the longest call that a run can make. */
  function CallCost(channels: nat): nat { 6 * channels + 7 }

  function CallsWeight(channels: nat): nat -> nat { (n: nat) => n * CallCost(channels) }

  /** What App.Close has left at a stage, each stage with the steps of its call. */
  function StageWeight(g: Stage, channels: nat): nat {
    var d := channels + 12;
    match g
    case Away => 0
    case AtOnce => 5 * d + 1
    case StoppingRuntime(called) => if called then 4 * d + 1 else 5 * d
    case StoppingScheduler(called) => if called then 3 * d + 1 else 4 * d
    case ClosingNotify(called) => if called then 2 * d + 1 else 3 * d
    case ClosingTransport(called) => if called then d + 1 else 2 * d
    case ClosingStore => d
  }

  function StageWeigher(channels: nat): Stage -> nat { (g: Stage) => StageWeight(g, channels) }

  ghost function CallsWork(calls: map<nat, nat>, channels: nat): nat { Sum(calls, CallsWeight(channels)) }

  ghost function StageWork(stage: map<nat, Stage>, channels: nat): nat { Sum(stage, StageWeigher(channels)) }

  /** At most how many steps the process takes until it is idle, if nothing arrives. */
  ghost function Work(s: State): nat {
    R.Work(s.rt) + S.Work(s.sched) + N.Work(s.nm) + T.Work(s.tls)
    + CallsWork(s.calls, s.nm.channels) + StageWork(s.stage, s.nm.channels)
  }

  lemma CallsMove(calls: map<nat, nat>, channels: nat, i: nat, n: nat)
    ensures CallsWork(calls[i := n], channels) + (if i in calls then calls[i] else 0) * CallCost(channels)
         == CallsWork(calls, channels) + n * CallCost(channels)
  {
    SumUpdate(calls, CallsWeight(channels), i, n);
  }

  lemma StageMoves(s: State, i: nat, g: Stage)
    ensures StageWork(s.stage[i := g], s.nm.channels) + StageWeight(s.At(i), s.nm.channels)
         == StageWork(s.stage, s.nm.channels) + StageWeight(g, s.nm.channels)
  {
    SumUpdate(s.stage, StageWeigher(s.nm.channels), i, g);
  }

  /** A call that is made is paid for. */
  lemma Spends(s: State, i: nat)
    requires s.Calls(i) > 0
    ensures CallsWork(Spend(s, i).calls, s.nm.channels) + CallCost(s.nm.channels) == CallsWork(s.calls, s.nm.channels)
  {
    var n, c := s.Calls(i), CallCost(s.nm.channels);
    CallsMove(s.calls, s.nm.channels, i, n - 1);
    assert n * c == (n - 1) * c + c;
  }

  // ----------------------------------------------- no step is taken for nothing

  lemma ComponentWorks(s: State, a: Action)
    requires N.Inv(s.nm) && T.Inv(s.tls) && Enabled(s, a) && !External(a) && !OfRuns(a) && !OfClosing(a)
    ensures Work(Apply(s, a)) < Work(s)
  {
    match a
    case Rt(r) => R.StepWorks(s.rt, r);
    case Sch(c) => S.StepWorks(s.sched, c);
    case Nm(n) => N.StepWorks(s.nm, n);
    case Tls(x) => T.StepWorks(s.tls, x);
  }

  lemma JobWorks(s: State, i: nat)
    requires s.sched.At(i).Calling? && s.rt.At(Main(i)).Idle?
    ensures Work(s.(sched := S.Apply(s.sched, S.Call(i)), rt := R.Apply(s.rt, R.Enter(Main(i))))) < Work(s)
  {
    S.StepWorks(s.sched, S.Call(i));
    R.StepWorks(s.rt, R.Enter(Main(i)));
  }

  lemma NotifyWorks(s: State, i: nat)
    requires N.Inv(s.nm) && s.nm.At(i).Idle? && s.Calls(i) > 0
    ensures Work(Spend(s.(nm := N.Apply(s.nm, N.CallNotify(i))), i)) < Work(s)
  {
    N.StepWorks(s.nm, N.CallNotify(i));
    Spends(s, i);
  }

  lemma TripWorks(s: State, u: Thread)
    requires T.Inv(s.tls) && s.tls.At(u).Idle? && s.Calls(Owner(u)) > 0
    ensures Work(Spend(s.(tls := T.Apply(s.tls, T.Enter(u))), Owner(u))) < Work(s)
  {
    T.StepWorks(s.tls, T.Enter(u));
    Spends(s, Owner(u));
  }

  lemma RunWorks(s: State, a: Action)
    requires N.Inv(s.nm) && T.Inv(s.tls) && Enabled(s, a) && !External(a) && OfRuns(a)
    ensures Work(Apply(s, a)) < Work(s)
  {
    match a
    case JobCalls(i) => JobWorks(s, i);
    case UseStore(i) => Spends(s, i);
    case BeginNotify(i) => NotifyWorks(s, i);
    case BeginTrip(u) => TripWorks(s, u);
  }

  /** Making the call of a stage is paid for by the stage. */
  lemma BeginRuntimeWorks(s: State, i: nat)
    requires s.At(i) == StoppingRuntime(false) && s.rt.At(Main(i)).Idle?
    ensures var z := s.(rt := R.Apply(s.rt, R.CallStop(Main(i)))).Move(i, StoppingRuntime(true)); Work(z) < Work(s)
  {
    R.StepWorks(s.rt, R.CallStop(Main(i)));
    StageMoves(s, i, StoppingRuntime(true));
  }

  lemma BeginSchedulerWorks(s: State, i: nat)
    requires s.At(i) == StoppingScheduler(false) && s.sched.At(i).Idle?
    ensures var z := s.(sched := S.Apply(s.sched, S.CallStop(i))).Move(i, StoppingScheduler(true)); Work(z) < Work(s)
  {
    S.StepWorks(s.sched, S.CallStop(i));
    StageMoves(s, i, StoppingScheduler(true));
  }

  lemma BeginNotifyWorks(s: State, i: nat)
    requires N.Inv(s.nm) && s.At(i) == ClosingNotify(false) && s.nm.At(i).Idle?
    ensures var z := s.(nm := N.Apply(s.nm, N.CallClose(i))).Move(i, ClosingNotify(true)); Work(z) < Work(s)
  {
    N.StepWorks(s.nm, N.CallClose(i));
    StageMoves(s, i, ClosingNotify(true));
  }

  lemma BeginTransportWorks(s: State, i: nat)
    requires T.Inv(s.tls) && s.At(i) == ClosingTransport(false) && s.tls.At(Main(i)).Idle?
    ensures var z := s.(tls := T.Apply(s.tls, T.CallClose(Main(i)))).Move(i, ClosingTransport(true)); Work(z) < Work(s)
  {
    T.StepWorks(s.tls, T.CallClose(Main(i)));
    StageMoves(s, i, ClosingTransport(true));
  }

  lemma BeginWorks(s: State, i: nat)
    requires InCall(s.At(i)) && !s.At(i).called && CallOver(s, i) && N.Inv(s.nm) && T.Inv(s.tls)
    ensures Work(BeginCall(s, i)) < Work(s)
  {
    match s.At(i)
    case StoppingRuntime(_) => BeginRuntimeWorks(s, i);
    case StoppingScheduler(_) => BeginSchedulerWorks(s, i);
    case ClosingNotify(_) => BeginNotifyWorks(s, i);
    case ClosingTransport(_) => BeginTransportWorks(s, i);
  }

  /** Only the stage of a closing thread changes, to one with less to do. */
  lemma LighterStage(s: State, z: State, i: nat, g: Stage)
    requires OnlyStage(s, z, i, g) && StageWeight(g, s.nm.channels) < StageWeight(s.At(i), s.nm.channels)
    ensures Work(z) < Work(s)
  {
    StageMoves(s, i, g);
  }

  lemma ClosingWorks(s: State, a: Action)
    requires N.Inv(s.nm) && T.Inv(s.tls) && Enabled(s, a) && !External(a) && OfClosing(a)
    ensures Work(Apply(s, a)) < Work(s)
  {
    match a
    case EnterOnce(i) => LighterStage(s, Apply(s, a), i, StoppingRuntime(false));
    case SeeOnce(i) => LighterStage(s, Apply(s, a), i, Away);
    case Begin(i) => BeginWorks(s, i);
    case Next(i) => LighterStage(s, Apply(s, a), i, After(s.At(i)));
    case CloseStore(i) => LighterStage(s, Apply(s, a), i, Away);
  }

  /** Every step that does not come from outside leaves less to do, whichever way its choices,
      its delays and its failures go. */
  lemma WorkDecreases(s: State, a: Action)
    requires Inv(s) && Enabled(s, a) && !External(a)
    ensures Work(Apply(s, a)) < Work(s)
  {
    if OfRuns(a) {
      RunWorks(s, a);
    } else if OfClosing(a) {
      ClosingWorks(s, a);
    } else {
      ComponentWorks(s, a);
    }
  }

  // -------------------------------------------------------------- none is missing

  lemma TripGoesOn(s: State, u: Thread) returns (a: Action)
    requires T.Inv(s.tls) && !s.tls.At(u).Idle?
    ensures Enabled(s, a) && !External(a)
  {
    var x := T.NeverStuck(s.tls, u);
    a := Tls(x);
  }

  lemma NotifyGoesOn(s: State, i: nat) returns (a: Action)
    requires N.Inv(s.nm) && T.Inv(s.tls) && !s.nm.At(i).Idle?
    ensures Enabled(s, a) && !External(a)
  {
    var n := N.NeverStuck(s.nm, i);
    if n.EndSend? && !s.tls.At(Sender(n.t, n.k)).Idle? {
      a := TripGoesOn(s, Sender(n.t, n.k));
    } else {
      a := Nm(n);
    }
  }

  lemma RunGoesOn(s: State, u: Thread) returns (a: Action)
    requires Components(s) && Nesting(s) && !s.rt.At(u).Idle?
    ensures Enabled(s, a) && !External(a)
  {
    var r := R.NeverStuck(s.rt, u);
    assert !s.rt.At(r.t).Idle?;
    if !r.Finish? || InBody(s, r.t.id) {
      a := Rt(r);
    } else if !s.nm.At(r.t.id).Idle? {
      a := NotifyGoesOn(s, r.t.id);
    } else {
      a := TripGoesOn(s, r.t);
    }
  }

  lemma CallingIsIdle(s: State, i: nat)
    requires Roles(s) && Nesting(s) && s.sched.At(i).Calling?
    ensures s.rt.At(Main(i)).Idle?
  {}

  lemma SchedulerGoesOn(s: State, i: nat) returns (a: Action)
    requires Components(s) && Roles(s) && Nesting(s) && !s.sched.At(i).Idle?
    ensures Enabled(s, a) && !External(a)
  {
    var c := S.NeverStuck(s.sched, i);
    if c.Call? {
      CallingIsIdle(s, c.t);
      a := JobCalls(c.t);
    } else if c.EndCall? && !s.rt.At(Main(c.t)).Idle? {
      a := RunGoesOn(s, Main(c.t));
    } else {
      a := Sch(c);
    }
  }

  /** The thread that closes goes on, or its call does, or whatever that call waits for. */
  lemma CloserGoesOn(s: State, i: nat) returns (a: Action)
    requires Components(s) && Roles(s) && Nesting(s) && !s.At(i).Away? && !s.At(i).AtOnce?
    ensures Enabled(s, a) && !External(a)
  {
    if s.At(i).ClosingStore? {
      a := CloseStore(i);
    } else if CallOver(s, i) {
      a := if s.At(i).called then Next(i) else Begin(i);
    } else {
      match s.At(i)
      case StoppingRuntime(_) => a := RunGoesOn(s, Main(i));
      case StoppingScheduler(_) => a := SchedulerGoesOn(s, i);
      case ClosingNotify(_) => a := NotifyGoesOn(s, i);
      case ClosingTransport(_) => a := TripGoesOn(s, Main(i));
    }
  }

  lemma CloseGoesOn(s: State, i: nat) returns (a: Action)
    requires Components(s) && Roles(s) && Nesting(s) && !s.At(i).Away?
    ensures Enabled(s, a) && !External(a)
  {
    if !s.At(i).AtOnce? {
      a := CloserGoesOn(s, i);
    } else if s.once.None? {
      a := EnterOnce(i);
    } else if s.onceDone {
      a := SeeOnce(i);
    } else {
      assert !s.At(s.once.value).Away? && !s.At(s.once.value).AtOnce?;
      a := CloserGoesOn(s, s.once.value);
    }
  }

  /** The thread does nothing anywhere: it is in no call of any component, nor in App.Close. */
  predicate AtRest(s: State, u: Thread) {
    && s.rt.At(u).Idle? && s.tls.At(u).Idle?
    && (u.Main? ==> Free(s, u.id))
  }

  /** No deadlock: as long as any thread is under way anywhere, some step can be taken that
      nothing from outside has to bring. */
  lemma NeverStuck(s: State, u: Thread) returns (a: Action)
    requires Inv(s) && !AtRest(s, u)
    ensures Enabled(s, a) && !External(a)
  {
    if !s.rt.At(u).Idle? {
      a := RunGoesOn(s, u);
    } else if !s.tls.At(u).Idle? {
      a := TripGoesOn(s, u);
    } else if !s.At(u.id).Away? {
      a := CloseGoesOn(s, u.id);
    } else if !s.sched.At(u.id).Idle? {
      a := SchedulerGoesOn(s, u.id);
    } else {
      a := NotifyGoesOn(s, u.id);
    }
  }

  // -------------------------------------------------------------- over whole runs

  /** How many steps may follow from what comes from outside. */
  function Price(a: Action, channels: nat): nat {
    match a
    case Sch(c) => if c.CallStart? then 1 else 0
    case RunOnce(_, calls) => 9 + calls * CallCost(channels)
    case Fire(_, calls) => 14 + calls * CallCost(channels)
    case CallClose(_) => StageWeight(AtOnce, channels)
    case _ => 0
  }

  lemma FlagsWork(s: State, a: Action)
    requires (a.Rt? || a.Sch?) && External(a) && Enabled(s, a)
    ensures Work(Apply(s, a)) <= Work(s) + Price(a, s.nm.channels)
  {
    if a.Sch? && a.c.CallStart? { S.StepWorks(s.sched, a.c); }
  }

  lemma RunOnceWorks(s: State, i: nat, calls: nat)
    requires s.rt.At(Main(i)).Idle?
    ensures Work(s.(rt := R.Apply(s.rt, R.Enter(Main(i))), calls := s.calls[i := calls]))
         <= Work(s) + 9 + calls * CallCost(s.nm.channels)
  {
    R.StepWorks(s.rt, R.Enter(Main(i)));
    CallsMove(s.calls, s.nm.channels, i, calls);
  }

  lemma FireWorks(s: State, i: nat, calls: nat)
    requires S.Enabled(s.sched, S.Fire(i))
    ensures Work(s.(sched := S.Apply(s.sched, S.Fire(i)), calls := s.calls[i := calls]))
         <= Work(s) + 14 + calls * CallCost(s.nm.channels)
  {
    S.StepWorks(s.sched, S.Fire(i));
    CallsMove(s.calls, s.nm.channels, i, calls);
  }

  lemma ExternalWorks(s: State, a: Action)
    requires External(a) && Enabled(s, a)
    ensures Work(Apply(s, a)) <= Work(s) + Price(a, s.nm.channels)
  {
    match a
    case RunOnce(i, calls) => RunOnceWorks(s, i, calls);
    case Fire(i, calls) => FireWorks(s, i, calls);
    case CallClose(i) => StageMoves(s, i, AtOnce);
    case _ => FlagsWork(s, a);
  }

  /** How many steps of a run did not come from outside. */
  function Own(run: seq<Action>): nat
    decreases |run|
  {
    if run == [] then 0 else (if External(run[0]) then 0 else 1) + Own(run[1..])
  }

  function Bill(run: seq<Action>, channels: nat): nat
    decreases |run|
  {
    if run == [] then 0 else (if External(run[0]) then Price(run[0], channels) else 0) + Bill(run[1..], channels)
  }

  lemma {:induction false} Pays(s: State, run: seq<Action>)
    requires Inv(s) && Legal(s, run)
    ensures Own(run) + Work(Play(s, run)) <= Work(s) + Bill(run, s.nm.channels)
    decreases |run|
  {
    if run != [] {
      var a := run[0];
      if External(a) { ExternalWorks(s, a); } else { WorkDecreases(s, a); }
      InvStep(s, a);
      Pays(Apply(s, a), run[1..]);
    }
  }

  lemma NothingToDo(published: bool, channels: nat)
    ensures Work(Init(published, channels)) == 0
  {}

  /** Whatever the schedule, the process takes at most as many steps as what arrived has paid
      for: nothing in it goes round in circles. */
  lemma StepsArePaid(published: bool, channels: nat, run: seq<Action>)
    requires Legal(Init(published, channels), run)
    ensures Own(run) + Work(Play(Init(published, channels), run)) <= Bill(run, channels)
  {
    InvInit(published, channels);
    NothingToDo(published, channels);
    Pays(Init(published, channels), run);
  }

  predicate Quiet(run: seq<Action>) { forall a :: a in run ==> !External(a) }

  lemma {:induction false} QuietIsFree(run: seq<Action>, channels: nat)
    requires Quiet(run)
    ensures Own(run) == |run| && Bill(run, channels) == 0
    decreases |run|
  {
    if run != [] {
      assert run[0] in run && Quiet(run[1..]);
      QuietIsFree(run[1..], channels);
    }
  }

  /** Nothing more happens unless something arrives. */
  ghost predicate Settled(s: State) { forall a :: Enabled(s, a) ==> External(a) }

  lemma ClosingPends(s: State, a: Action, i: nat)
    requires OfClosing(a) && Enabled(s, a) && !s.At(i).Away?
    ensures !Apply(s, a).At(i).Away? || Apply(s, a).returned
  {
    if a.Begin? { assert BeginCall(s, a.i).stage == s.stage[a.i := BeginCall(s, a.i).At(a.i)]; }
  }

  /** Only by returning does a thread leave App.Close. */
  lemma PendingStep(s: State, a: Action, i: nat)
    requires Enabled(s, a) && !s.At(i).Away?
    ensures !Apply(s, a).At(i).Away? || Apply(s, a).returned
  {
    if OfClosing(a) { ClosingPends(s, a, i); } else { assert Apply(s, a).stage == s.stage; }
  }

  lemma {:induction false} PendingRun(s: State, run: seq<Action>, i: nat)
    requires Inv(s) && Legal(s, run) && (s.returned || !s.At(i).Away?)
    ensures Play(s, run).returned || !Play(s, run).At(i).Away?
    decreases |run|
  {
    if run != [] {
      InvStep(s, run[0]);
      if !s.returned { PendingStep(s, run[0], i); }
      PendingRun(Apply(s, run[0]), run[1..], i);
    }
  }

  lemma {:induction false} RunsAdd(s: State, run: seq<Action>)
    requires Inv(s) && Legal(s, run) && Quiet(run)
    ensures Inv(Play(s, run)) && |run| <= Work(s)
  {
    InvRun(s, run);
    Pays(s, run);
    QuietIsFree(run, s.nm.channels);
  }

  lemma SettledRests(s: State, u: Thread)
    requires Inv(s) && Settled(s)
    ensures AtRest(s, u)
  {
    if !AtRest(s, u) {
      var a := NeverStuck(s, u);
      assert false;
    }
  }

  /** App.Close always returns. Whatever has happened, and whichever steps are taken from there,
      in any order and with any outcome, there are boundedly many until something new arrives;
      and when none is left, every thread is idle and every App.Close call has returned, with the
      store closed. */
  lemma EveryCloseReturns(published: bool, channels: nat, before: seq<Action>, after: seq<Action>, i: nat, u: Thread)
    requires Legal(Init(published, channels), before)
    requires Legal(Play(Init(published, channels), before), after) && Quiet(after)
    ensures |after| <= Bill(before, channels)
    ensures Settled(Play(Play(Init(published, channels), before), after)) ==>
              var s, z := Play(Init(published, channels), before), Play(Play(Init(published, channels), before), after);
              && AtRest(z, u)
              && (!s.At(i).Away? ==> z.At(i).Away? && z.returned && !z.storeOpen && z.tls.done)
  {
    InvInit(published, channels);
    InvRun(Init(published, channels), before);
    StepsArePaid(published, channels, before);
    var s := Play(Init(published, channels), before);
    RunsAdd(s, after);
    var z := Play(s, after);
    if Settled(z) {
      SettledRests(z, u);
      SettledRests(z, Main(i));
      if !s.At(i).Away? {
        PendingRun(s, after, i);
        AllIsOver(z, i, u);
      }
    }
  }

  lemma OneMore(s: State, a: Action, rest: seq<Action>)
    requires Enabled(s, a) && !External(a) && Legal(Apply(s, a), rest) && Quiet(rest)
    ensures Legal(s, [a] + rest) && Quiet([a] + rest) && Play(s, [a] + rest) == Play(Apply(s, a), rest)
  {
    assert ([a] + rest)[1..] == rest;
  }

  /** And it does settle: from every state the invariant allows, some quiet run leads to rest. */
  lemma {:induction false} Settles(s: State) returns (run: seq<Action>)
    requires Inv(s)
    ensures Legal(s, run) && Quiet(run) && Settled(Play(s, run))
    decreases Work(s)
  {
    run := [];
    if !Settled(s) {
      var a :| Enabled(s, a) && !External(a);
      WorkDecreases(s, a);
      InvStep(s, a);
      run := Settles(Apply(s, a));
      OneMore(s, a, run);
      run := [a] + run;
    }
  }
}
