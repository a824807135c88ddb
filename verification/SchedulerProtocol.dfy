/** Scheduler.Start and Scheduler.Stop as steps of any number of threads, with the jobs that
    cron starts: cron is started at most once, and every Stop waits for all running jobs.
    Of cron itself only this is assumed: it starts no job before Start or after Stop, and the
    context that its Stop returns is over when no job runs. */
module SchedulerProtocol {
  import opened Domain
  import opened Sums

  datatype Pc =
    | Idle
    | Starting      // Start: before its critical section
    | StopEntering  // Stop: before its first critical section
    | AwaitingDone  //       another Stop came first
    | AwaitingJobs  //       before cron's context is over
    | Finishing     //       before the second critical section
    | Delaying      // a job: waiting for its random delay
    | Calling       //        before Runner.TryRun
    | Inside        //        in Runner.TryRun
    | Ending        //        before cron sees its end

  datatype State = State(
    started: bool,
    stopping: bool,
    cancelSet: bool,        // s.cancel is not nil
    canceled: bool,         // the jobs' context is over
    cronRunning: bool,
    cronStarts: nat,
    stopDone: bool,
    doneCloses: nat,        // how often stopDone was closed
    stopper: Option<nat>,   // the Stop call that came first
    pc: map<nat, Pc>,
    returned: bool)         // some Stop call has returned
  {
    function At(t: nat): Pc { if t in pc then pc[t] else Idle }

    function Move(t: nat, p: Pc): State { this.(pc := pc[t := p]) }
  }

  datatype Action =
    | ParentOver          // the context given to Start is over
    | CallStart(t: nat)
    | Start(t: nat, addFails: bool)
    | CallStop(t: nat)
    | BeginStop(t: nat)
    | SeeDone(t: nat)
    | JobsDone(t: nat)
    | EndStop(t: nat)
    | Fire(t: nat)
    | DelayOver(t: nat)
    | Skip(t: nat)
    | Call(t: nat)
    | EndCall(t: nat)
    | EndJob(t: nat)

  predicate InJob(p: Pc) { p.Delaying? || p.Calling? || p.Inside? || p.Ending? }

  /** The running jobs. */
  function Jobs(s: State): set<nat> { set t | t in s.pc && InJob(s.pc[t]) }

  predicate Enabled(s: State, a: Action) {
    match a
    case ParentOver => true
    case CallStart(t) => s.At(t).Idle?
    case Start(t, _) => s.At(t).Starting?
    case CallStop(t) => s.At(t).Idle?
    case BeginStop(t) => s.At(t).StopEntering?
    case SeeDone(t) => s.At(t).AwaitingDone? && s.stopDone
    case JobsDone(t) => s.At(t).AwaitingJobs? && Jobs(s) == {}
    case EndStop(t) => s.At(t).Finishing?
    case Fire(t) => s.At(t).Idle? && s.cronRunning
    case DelayOver(t) => s.At(t).Delaying?
    case Skip(t) => s.At(t).Delaying? && s.canceled
    case Call(t) => s.At(t).Calling?
    case EndCall(t) => s.At(t).Inside?
    case EndJob(t) => s.At(t).Ending?
  }

  predicate ByThread(a: Action) { !a.ParentOver? }

  /** Where a step takes its thread. */
  function Target(s: State, a: Action): Pc
    requires ByThread(a)
  {
    match a
    case CallStart(_) => Starting
    case Start(_, _) => Idle
    case CallStop(_) => StopEntering
    case BeginStop(_) => if s.stopping then AwaitingDone else AwaitingJobs
    case SeeDone(_) => Idle
    case JobsDone(_) => Finishing
    case EndStop(_) => Idle
    case Fire(_) => Delaying
    case DelayOver(_) => Calling
    case Skip(_) => Ending
    case Call(_) => Inside
    case EndCall(_) => Ending
    case EndJob(_) => Idle
  }

  /** Start under the mutex; addFails tells whether cron refuses the job. */
  function Started(s: State, addFails: bool): (r: State)
    ensures r.pc == s.pc
  {
    if s.started || s.stopping then s
    else if addFails then s.(cancelSet := true)
    else s.(cancelSet := true, cronRunning := true, cronStarts := s.cronStarts + 1, started := true)
  }

  /** What a step does to the shared fields. */
  function Shared(s: State, a: Action): (r: State)
    ensures r.pc == s.pc
  {
    match a
    case ParentOver => s.(canceled := true)
    case Start(_, addFails) => Started(s, addFails)
    case BeginStop(t) =>
      if s.stopping then s
      else s.(stopping := true, canceled := s.canceled || s.cancelSet, cronRunning := false, stopper := Some(t))
    case SeeDone(_) => s.(returned := true)
    case EndStop(_) => s.(started := false, stopDone := true, doneCloses := s.doneCloses + 1, returned := true)
    case _ => s
  }

  function Apply(s: State, a: Action): (r: State)
    requires Enabled(s, a)
    ensures r.pc == if ByThread(a) then s.pc[a.t := Target(s, a)] else s.pc
  {
    if ByThread(a) then Shared(s, a).Move(a.t, Target(s, a)) else Shared(s, a)
  }

  function Init(): State { State(false, false, false, false, false, 0, false, 0, None, map[], false) }

  predicate Legal(s: State, run: seq<Action>)
    decreases |run|
  {
    run == [] || (Enabled(s, run[0]) && Legal(Apply(s, run[0]), run[1..]))
  }

  function Play(s: State, run: seq<Action>): State
    requires Legal(s, run)
    decreases |run|
  {
    if run == [] then s else Play(Apply(s, run[0]), run[1..])
  }

  // ----------------------------------------------------------------- invariant

  predicate Working(p: Pc) { p.AwaitingJobs? || p.Finishing? }

  ghost predicate Inv(s: State) {
    && Counts(s) && Stoppers(s) && JobsOver(s)
  }

  ghost predicate Counts(s: State) {
    && s.cronStarts <= 1
    && (s.cronRunning ==> s.started && !s.stopping)
    && (s.started ==> s.cronStarts == 1 && s.cancelSet)
    && (s.cronStarts == 1 ==> s.started || s.stopping)
    && (s.stopping && s.cronStarts == 1 ==> s.canceled)
    && s.doneCloses == (if s.stopDone then 1 else 0)
  }

  /** Exactly one Stop call does the work. */
  ghost predicate Workers(s: State) {
    forall t: nat :: Working(s.At(t)) <==> s.stopper == Some(t) && !s.stopDone
  }

  ghost predicate Stops(s: State) {
    && (s.stopping <==> s.stopper.Some?)
    && (forall t: nat :: s.At(t).AwaitingDone? ==> s.stopping)
    && (s.stopDone ==> s.stopping)
    && (s.returned ==> s.stopDone)
  }

  ghost predicate Stoppers(s: State) { Workers(s) && Stops(s) }

  ghost predicate JobsOver(s: State) {
    && (Jobs(s) != {} ==> s.cronStarts == 1)
    && (s.stopDone || (exists t: nat :: s.At(t).Finishing?) ==> Jobs(s) == {})
  }

  lemma CountsStep(s: State, a: Action)
    requires Counts(s) && Stoppers(s) && Enabled(s, a)
    ensures Counts(Apply(s, a))
  {
    if a.EndStop? { assert Working(s.At(a.t)); }
  }

  /** Who does the work changes with the places of the stopping threads. */
  ghost predicate WorkerMoves(s: State, z: State, t: nat) {
    && (!Working(s.At(t)) && Working(z.At(t)) ==> s.stopper.None? && z.stopper == Some(t) && z.stopDone == s.stopDone)
    && (Working(s.At(t)) && !Working(z.At(t)) ==> z.stopDone && z.stopper == s.stopper)
    && (Working(s.At(t)) == Working(z.At(t)) ==> z.stopDone == s.stopDone && z.stopper == s.stopper)
  }

  lemma WorkerChange(s: State, a: Action)
    requires Stops(s) && Enabled(s, a) && ByThread(a)
    ensures WorkerMoves(s, Apply(s, a), a.t)
  {}

  lemma WorkersKept(s: State, z: State, t: nat)
    requires Workers(s) && Stops(s) && WorkerMoves(s, z, t) && z.pc == s.pc[t := z.At(t)]
    ensures Workers(z)
  {
    assert forall u: nat :: u != t ==> z.At(u) == s.At(u);
  }

  lemma WorkersStep(s: State, a: Action)
    requires Stoppers(s) && Enabled(s, a)
    ensures Workers(Apply(s, a))
  {
    if ByThread(a) {
      WorkerChange(s, a);
      WorkersKept(s, Apply(s, a), a.t);
    }
  }

  lemma StopsStep(s: State, a: Action)
    requires Stoppers(s) && Enabled(s, a)
    ensures Stops(Apply(s, a))
  {
    var z := Apply(s, a);
    assert forall u: nat :: !ByThread(a) || u != a.t ==> z.At(u) == s.At(u);
    if a.EndStop? { assert Working(s.At(a.t)); }
  }

  lemma JobsMove(s: State, s': State, t: nat, p: Pc)
    requires s'.pc == s.pc[t := p]
    ensures Jobs(s') == if InJob(p) then Jobs(s) + {t} else Jobs(s) - {t}
    ensures t in Jobs(s) <==> InJob(s.At(t))
  {}

  lemma JobsStep(s: State, a: Action)
    requires Inv(s) && Enabled(s, a) && ByThread(a)
    ensures JobsOver(Apply(s, a))
  {
    var z := Apply(s, a);
    assert forall u: nat :: u != a.t ==> z.At(u) == s.At(u);
    JobsMove(s, z, a.t, Target(s, a));
  }

  lemma InvStep(s: State, a: Action)
    requires Inv(s) && Enabled(s, a)
    ensures Inv(Apply(s, a))
    ensures s.returned ==> Apply(s, a).returned
  {
    CountsStep(s, a);
    WorkersStep(s, a);
    StopsStep(s, a);
    if ByThread(a) { JobsStep(s, a); }
  }

  lemma InvInit()
    ensures Inv(Init())
  {}

  lemma {:induction false} InvRun(s: State, run: seq<Action>)
    requires Inv(s) && Legal(s, run)
    ensures Inv(Play(s, run)) && (s.returned ==> Play(s, run).returned)
    decreases |run|
  {
    if run != [] {
      InvStep(s, run[0]);
      InvRun(Apply(s, run[0]), run[1..]);
    }
  }

  // ------------------------------------------------------------------ theorems

  /** Whatever Start and Stop calls there are, cron is started at most once, and the channel
      that releases the waiting Stop calls is closed at most once. */
  lemma StartedOnce(run: seq<Action>)
    requires Legal(Init(), run)
    ensures Play(Init(), run).cronStarts <= 1 && Play(Init(), run).doneCloses <= 1
    ensures Play(Init(), run).returned ==> Play(Init(), run).doneCloses == 1
  {
    InvInit();
    InvRun(Init(), run);
  }

  /** Once any Stop call has returned, no job is running, then or ever after. */
  lemma NoJobAfterStop(before: seq<Action>, after: seq<Action>, t: nat)
    requires Legal(Init(), before) && Play(Init(), before).returned
    requires Legal(Play(Init(), before), after)
    ensures !InJob(Play(Play(Init(), before), after).At(t))
    ensures !Play(Play(Init(), before), after).cronRunning
  {
    InvInit();
    InvRun(Init(), before);
    InvRun(Play(Init(), before), after);
    var s := Play(Play(Init(), before), after);
    assert t in Jobs(s) <==> InJob(s.At(t));
  }

  // ------------------------------------------------------------ when cron runs

  lemma {:induction false} LegalSnoc(s: State, run: seq<Action>, a: Action)
    requires Legal(s, run + [a])
    ensures Legal(s, run) && Enabled(Play(s, run), a) && Play(s, run + [a]) == Apply(Play(s, run), a)
    decreases |run|
  {
    if run == [] {
      assert run + [a] == [a];
    } else {
      assert (run + [a])[1..] == run[1..] + [a];
      LegalSnoc(Apply(s, run[0]), run[1..], a);
    }
  }

  /** Some Start call came before every Stop call's flag, and cron took its job. */
  ghost predicate StartedInTime(run: seq<Action>) {
    exists i :: 0 <= i < |run| && run[i].Start? && !run[i].addFails && !StopBegun(run[..i])
  }

  ghost predicate StopBegun(run: seq<Action>) { exists t :: BeginStop(t) in run }

  ghost predicate Recorded(s: State, run: seq<Action>) {
    && (s.stopping <==> StopBegun(run))
    && (s.cronStarts == 1 <==> StartedInTime(run))
    && (s.cronRunning <==> s.cronStarts == 1 && !s.stopping)
  }

  lemma BegunSnoc(run: seq<Action>, a: Action)
    ensures StopBegun(run + [a]) <==> StopBegun(run) || a.BeginStop?
  {
    assert forall b :: b in run + [a] <==> b in run || b == a;
    if a.BeginStop? { assert BeginStop(a.t) in run + [a]; }
  }

  lemma InTimeSnoc(run: seq<Action>, a: Action)
    ensures StartedInTime(run + [a]) <==> StartedInTime(run) || (a.Start? && !a.addFails && !StopBegun(run))
  {
    var all := run + [a];
    assert all[..|run|] == run && all[|run|] == a;
    assert forall i :: 0 <= i < |run| ==> all[i] == run[i] && all[..i] == run[..i];
  }

  lemma RecordedStep(s: State, run: seq<Action>, a: Action)
    requires Recorded(s, run) && Counts(s) && Enabled(s, a)
    ensures Recorded(Apply(s, a), run + [a])
  {
    BegunSnoc(run, a);
    InTimeSnoc(run, a);
  }

  lemma {:induction false} RecordedRun(run: seq<Action>)
    requires Legal(Init(), run)
    ensures Recorded(Play(Init(), run), run)
    decreases |run|
  {
    if run != [] {
      var before, a := run[..|run| - 1], run[|run| - 1];
      assert run == before + [a];
      LegalSnoc(Init(), before, a);
      RecordedRun(before);
      InvInit();
      InvRun(Init(), before);
      RecordedStep(Play(Init(), before), before, a);
    }
  }

  /** Cron was started, once, exactly when some Start call whose job it took came before every
      Stop call; it runs, and fires jobs, exactly when besides no Stop call has begun. */
  lemma CronFollowsCalls(run: seq<Action>, t: nat)
    requires Legal(Init(), run) && Play(Init(), run).At(t).Idle?
    ensures var s := Play(Init(), run);
            && s.cronStarts == (if StartedInTime(run) then 1 else 0)
            && (Enabled(s, Fire(t)) <==> StartedInTime(run) && !StopBegun(run))
  {
    InvInit();
    InvRun(Init(), run);
    RecordedRun(run);
  }

  // ------------------------------------------------------------- what is left

  /** At most how many steps a thread has before it is idle; a call of TryRun counts for the
      steps that it may take there. */
  function Weight(p: Pc): nat {
    match p
    case Idle => 0
    case Starting => 1
    case StopEntering => 4
    case AwaitingJobs => 3
    case Finishing => 2
    case AwaitingDone => 1
    case Delaying => 14
    case Calling => 13
    case Inside => 2
    case Ending => 1
  }

  ghost function Work(s: State): nat { Sum(s.pc, Weight) }

  predicate Arrives(a: Action) { a.ParentOver? || a.CallStart? || a.CallStop? || a.Fire? }

  /** A step changes what is left by what its own thread has left, and that less and less. */
  lemma StepWorks(s: State, a: Action)
    requires Enabled(s, a) && ByThread(a)
    ensures Work(Apply(s, a)) + Weight(s.At(a.t)) == Work(s) + Weight(Target(s, a))
    ensures !Arrives(a) ==> Weight(Target(s, a)) < Weight(s.At(a.t))
  {
    SumUpdate(s.pc, Weight, a.t, Target(s, a));
  }

  /** The step that takes a thread on from its place. */
  function Onward(p: Pc, t: nat): Action
    requires !p.Idle?
  {
    match p
    case Starting => Start(t, false)
    case StopEntering => BeginStop(t)
    case AwaitingDone => SeeDone(t)
    case AwaitingJobs => JobsDone(t)
    case Finishing => EndStop(t)
    case Delaying => DelayOver(t)
    case Calling => Call(t)
    case Inside => EndCall(t)
    case Ending => EndJob(t)
  }

  /** Who a thread at some place waits for: the Stop that came first, or a running job. */
  lemma Awaited(s: State, t: nat) returns (u: nat)
    requires Stoppers(s) && !s.At(t).Idle?
    ensures !s.At(u).Idle?
    ensures s.At(u).AwaitingDone? ==> s.stopDone
    ensures s.At(u).AwaitingJobs? ==> Jobs(s) == {}
  {
    u := t;
    if s.At(u).AwaitingDone? && !s.stopDone {
      u := s.stopper.value;
      assert Working(s.At(u));
    }
    if s.At(u).AwaitingJobs? && Jobs(s) != {} {
      u :| u in Jobs(s);
    }
  }

  /** As long as some thread is not idle, some thread can go on. */
  lemma NeverStuck(s: State, t: nat) returns (a: Action)
    requires Stoppers(s) && !s.At(t).Idle?
    ensures ByThread(a) && Enabled(s, a) && !Arrives(a)
  {
    var u := Awaited(s, t);
    a := Onward(s.At(u), u);
  }
}
