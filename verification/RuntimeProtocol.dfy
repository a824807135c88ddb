/** Runtime.TryRun and Runtime.Stop as steps of any number of threads: mutual exclusion of
    runs, and the barrier that Stop is. */
module RuntimeProtocol {
  import opened Domain
  import opened Sums
  import opened Threads

  /** Where a thread is, between two of its atomic steps. */
  datatype Pc =
    | Idle
    | FirstLoad    // TryRun: before the first load of stopped
    | Contexts     //         before the checks of the two contexts
    | Locking      //         before TryLock
    | SecondLoad   //         holding the lock, before the second load of stopped
    | LoadService  //         before loading the service
    | Running      //         in the run body
    | Unlocking    //         before the deferred unlock
    | Swapping     // Stop: before the compare-and-swap of stopped
    | Canceling    //       before canceling the root context
    | AtBarrier    //       before Lock
    | Holding      //       before Unlock

  datatype State = State(
    stopped: bool,
    canceled: bool,
    published: bool,
    mu: Option<Thread>,
    pc: map<Thread, Pc>,
    barrier: bool)  // some Stop call has returned
  {
    function At(t: Thread): Pc { if t in pc then pc[t] else Idle }

    function Move(t: Thread, p: Pc): State { this.(pc := pc[t := p]) }
  }

  datatype Action =
    | Publish
    | RootCancel
    | Enter(t: Thread)
    | LoadStopped(t: Thread)
    | CheckContexts(t: Thread, delayDone: bool)
    | TryLock(t: Thread)
    | LoadAgain(t: Thread)
    | Load(t: Thread)
    | Finish(t: Thread)
    | Unlock(t: Thread)
    | CallStop(t: Thread)
    | Swap(t: Thread)
    | Cancel(t: Thread)
    | Lock(t: Thread)
    | Release(t: Thread)

  /** The place a step starts from. */
  function Source(a: Action): Pc
    requires ByThread(a)
  {
    match a
    case Enter(_) => Idle
    case LoadStopped(_) => FirstLoad
    case CheckContexts(_, _) => Contexts
    case TryLock(_) => Locking
    case LoadAgain(_) => SecondLoad
    case Load(_) => LoadService
    case Finish(_) => Running
    case Unlock(_) => Unlocking
    case CallStop(_) => Idle
    case Swap(_) => Swapping
    case Cancel(_) => Canceling
    case Lock(_) => AtBarrier
    case Release(_) => Holding
  }

  /** Only Lock ever waits. */
  predicate Enabled(s: State, a: Action) {
    ByThread(a) ==> s.At(a.t) == Source(a) && (a.Lock? ==> s.mu.None?)
  }

  predicate ByThread(a: Action) { !a.Publish? && !a.RootCancel? }

  /** Where a step takes its thread. */
  function Target(s: State, a: Action): Pc
    requires ByThread(a)
  {
    match a
    case Enter(_) => FirstLoad
    case LoadStopped(_) => if s.stopped then Idle else Contexts
    case CheckContexts(_, delayDone) => if delayDone || s.canceled then Idle else Locking
    case TryLock(_) => if s.mu.Some? then Idle else SecondLoad
    case LoadAgain(_) => if s.stopped then Unlocking else LoadService
    case Load(_) => if s.published then Running else Unlocking
    case Finish(_) => Unlocking
    case Unlock(_) => Idle
    case CallStop(_) => Swapping
    case Swap(_) => if s.stopped then AtBarrier else Canceling
    case Cancel(_) => AtBarrier
    case Lock(_) => Holding
    case Release(_) => Idle
  }

  /** What a step does to the shared fields. */
  function Shared(s: State, a: Action): (r: State)
    ensures r.pc == s.pc
  {
    match a
    case Publish => s.(published := true)
    case RootCancel => s.(canceled := true)
    case TryLock(t) => if s.mu.Some? then s else s.(mu := Some(t))
    case Unlock(_) => s.(mu := None)
    case Swap(_) => s.(stopped := true)
    case Cancel(_) => s.(canceled := true)
    case Lock(t) => s.(mu := Some(t))
    case Release(_) => s.(mu := None, barrier := true)
    case _ => s
  }

  function Apply(s: State, a: Action): (r: State)
    requires Enabled(s, a)
    ensures r.pc == if ByThread(a) then s.pc[a.t := Target(s, a)] else s.pc
  {
    if ByThread(a) then Shared(s, a).Move(a.t, Target(s, a)) else Shared(s, a)
  }

  function Init(published: bool): State { State(false, false, published, None, map[], false) }

  predicate Legal(s: State, run: seq<Action>)
    decreases |run|
  {
    run == [] || (Enabled(s, run[0]) && Legal(Apply(s, run[0]), run[1..]))
  }

  function Play(s: State, run: seq<Action>): State
    requires Legal(s, run)
    decreases |run|
  {
    if run == [] then s else Play(Apply(s, run[0]), run[1..])
  }

  // ----------------------------------------------------------------- invariant

  predicate Critical(p: Pc) { p.SecondLoad? || p.LoadService? || p.Running? || p.Unlocking? || p.Holding? }

  predicate Stopping(p: Pc) { p.Swapping? || p.Canceling? || p.AtBarrier? || p.Holding? }

  /** The lock is held exactly by the thread that is between taking it and giving it back. */
  ghost predicate Locks(s: State) { forall t :: s.mu == Some(t) <==> Critical(s.At(t)) }

  ghost predicate Stops(s: State) { forall t :: Stopping(s.At(t)) && !s.At(t).Swapping? ==> s.stopped }

  ghost predicate Barred(s: State) {
    s.barrier ==> s.stopped && forall t :: !s.At(t).LoadService? && !s.At(t).Running?
  }

  ghost predicate Inv(s: State) { Locks(s) && Stops(s) && Barred(s) }

  /** Taking the lock and becoming critical are one step, and so are giving it back and
      ceasing to be. */
  ghost predicate LockMoves(s: State, z: State, t: Thread) {
    && (!Critical(s.At(t)) && Critical(z.At(t)) ==> s.mu.None? && z.mu == Some(t))
    && (Critical(s.At(t)) && !Critical(z.At(t)) ==> z.mu.None?)
    && (Critical(s.At(t)) == Critical(z.At(t)) ==> z.mu == s.mu)
  }

  lemma LockChange(s: State, a: Action)
    requires Enabled(s, a) && ByThread(a)
    ensures LockMoves(s, Apply(s, a), a.t)
  {}

  lemma LocksKept(s: State, z: State, t: Thread)
    requires Locks(s) && LockMoves(s, z, t) && z.pc == s.pc[t := z.At(t)]
    ensures Locks(z)
  {
    assert forall u :: u != t ==> z.At(u) == s.At(u);
  }

  lemma LocksStep(s: State, a: Action)
    requires Locks(s) && Enabled(s, a)
    ensures Locks(Apply(s, a))
  {
    if ByThread(a) {
      LockChange(s, a);
      LocksKept(s, Apply(s, a), a.t);
    }
  }

  lemma StopsStep(s: State, a: Action)
    requires Stops(s) && Enabled(s, a)
    ensures Stops(Apply(s, a))
  {
    var z := Apply(s, a);
    assert forall u :: !ByThread(a) || u != a.t ==> z.At(u) == s.At(u);
    if ByThread(a) { assert z.At(a.t) == Target(s, a); }
  }

  lemma BarredStep(s: State, a: Action)
    requires Inv(s) && Enabled(s, a)
    ensures Barred(Apply(s, a))
  {
    var z := Apply(s, a);
    assert forall u :: !ByThread(a) || u != a.t ==> z.At(u) == s.At(u);
    if ByThread(a) { assert z.At(a.t) == Target(s, a); }
  }

  lemma InvStep(s: State, a: Action)
    requires Inv(s) && Enabled(s, a)
    ensures Inv(Apply(s, a))
    ensures s.barrier ==> Apply(s, a).barrier
  {
    LocksStep(s, a);
    StopsStep(s, a);
    BarredStep(s, a);
  }

  lemma {:induction false} InvRun(s: State, run: seq<Action>)
    requires Inv(s) && Legal(s, run)
    ensures Inv(Play(s, run))
    ensures s.barrier ==> Play(s, run).barrier
    decreases |run|
  {
    if run != [] {
      InvStep(s, run[0]);
      InvRun(Apply(s, run[0]), run[1..]);
    }
  }

  /** In every interleaving at most one thread is in the run body. */
  lemma MutualExclusion(published: bool, run: seq<Action>, t: Thread, u: Thread)
    requires Legal(Init(published), run)
    requires Play(Init(published), run).At(t).Running? && Play(Init(published), run).At(u).Running?
    ensures t == u
  {
    InvRun(Init(published), run);
  }

  /** Once any Stop call has returned, no thread is in the run body, then or ever after. */
  lemma StopBarrier(published: bool, before: seq<Action>, after: seq<Action>, t: Thread)
    requires Legal(Init(published), before) && Play(Init(published), before).barrier
    requires Legal(Play(Init(published), before), after)
    ensures !Play(Play(Init(published), before), after).At(t).Running?
  {
    InvRun(Init(published), before);
    InvRun(Play(Init(published), before), after);
  }

  // -------------------------------------------------------- when a run comes about

  lemma {:induction false} LegalSnoc(s: State, run: seq<Action>, a: Action)
    requires Legal(s, run + [a])
    ensures Legal(s, run) && Enabled(Play(s, run), a) && Play(s, run + [a]) == Apply(Play(s, run), a)
    decreases |run|
  {
    if run == [] {
      assert run + [a] == [a];
    } else {
      assert (run + [a])[1..] == run[1..] + [a];
      LegalSnoc(Apply(s, run[0]), run[1..], a);
    }
  }

  /** The shared flags, told by the steps so far. */
  ghost predicate Recorded(s: State, published: bool, run: seq<Action>) {
    && (s.published <==> published || Publish in run)
    && (s.stopped <==> exists t :: Swap(t) in run)
    && (s.canceled <==> RootCancel in run || exists t :: Cancel(t) in run)
  }

  lemma RecordedStep(s: State, published: bool, run: seq<Action>, a: Action)
    requires Recorded(s, published, run) && Enabled(s, a)
    ensures Recorded(Apply(s, a), published, run + [a])
  {
    assert forall b :: b in run + [a] <==> b in run || b == a;
  }

  lemma {:induction false} RecordedRun(published: bool, run: seq<Action>)
    requires Legal(Init(published), run)
    ensures Recorded(Play(Init(published), run), published, run)
    decreases |run|
  {
    if run != [] {
      var before, a := run[..|run| - 1], run[|run| - 1];
      assert run == before + [a];
      LegalSnoc(Init(published), before, a);
      RecordedRun(published, before);
      RecordedStep(Play(Init(published), before), published, before, a);
    }
  }

  /** The steps of a TryRun call on its way into the run body. */
  function Attempt(t: Thread, delayDone: bool): seq<Action> {
    [Enter(t), LoadStopped(t), CheckContexts(t, delayDone), TryLock(t), LoadAgain(t), Load(t)]
  }

  /** Whether these steps, one after the other, take the thread into the run body. */
  predicate GetsIn(s: State, run: seq<Action>, t: Thread) { Legal(s, run) && Play(s, run).At(t).Running? }

  lemma FirstStep(s: State, a: Action, rest: seq<Action>, t: Thread)
    ensures GetsIn(s, [a] + rest, t) <==> Enabled(s, a) && GetsIn(Apply(s, a), rest, t)
  {
    assert ([a] + rest)[0] == a && ([a] + rest)[1..] == rest;
  }

  lemma AfterLock(s: State, t: Thread)
    requires s.At(t).Locking? && !s.stopped
    ensures GetsIn(s, [TryLock(t), LoadAgain(t), Load(t)], t) <==> s.mu.None? && s.published
  {
    FirstStep(s, TryLock(t), [LoadAgain(t), Load(t)], t);
    assert [TryLock(t)] + [LoadAgain(t), Load(t)] == [TryLock(t), LoadAgain(t), Load(t)];
    var s1 := Apply(s, TryLock(t));
    FirstStep(s1, LoadAgain(t), [Load(t)], t);
    assert [LoadAgain(t)] + [Load(t)] == [LoadAgain(t), Load(t)];
    if s.mu.None? {
      FirstStep(Apply(s1, LoadAgain(t)), Load(t), [], t);
      assert [Load(t)] + [] == [Load(t)];
    }
  }

  lemma AttemptSteps(s: State, t: Thread, delayDone: bool)
    requires s.At(t).Idle?
    ensures GetsIn(s, Attempt(t, delayDone), t) <==>
            !s.stopped && !delayDone && !s.canceled && s.mu.None? && s.published
  {
    var rest := [TryLock(t), LoadAgain(t), Load(t)];
    var s1 := Apply(s, Enter(t));
    var check := [CheckContexts(t, delayDone)] + rest;
    assert Attempt(t, delayDone) == [Enter(t)] + ([LoadStopped(t)] + check);
    FirstStep(s, Enter(t), [LoadStopped(t)] + check, t);
    FirstStep(s1, LoadStopped(t), check, t);
    var s2 := Apply(s1, LoadStopped(t));
    FirstStep(s2, CheckContexts(t, delayDone), rest, t);
    if !s.stopped {
      var s3 := Apply(s2, CheckContexts(t, delayDone));
      if delayDone || s.canceled {
        assert rest == [TryLock(t)] + [LoadAgain(t), Load(t)];
        FirstStep(s3, TryLock(t), [LoadAgain(t), Load(t)], t);
      } else {
        AfterLock(s3, t);
      }
    }
  }

  /** After any interleaving, a TryRun call that nobody disturbs gets into the run body exactly when
      the service was published, no Stop call has set its flag, neither context is over, and no
      other thread is between taking and giving back the lock. */
  lemma UndisturbedRun(published: bool, run: seq<Action>, t: Thread, delayDone: bool)
    requires Legal(Init(published), run) && Play(Init(published), run).At(t).Idle?
    ensures var s := Play(Init(published), run);
            GetsIn(s, Attempt(t, delayDone), t) <==>
              && !delayDone && (published || Publish in run)
              && (forall u :: Swap(u) !in run && Cancel(u) !in run) && RootCancel !in run
              && (forall u :: !Critical(s.At(u)))
  {
    InvRun(Init(published), run);
    RecordedRun(published, run);
    AttemptSteps(Play(Init(published), run), t, delayDone);
  }

  /** Setting the flag and canceling the root context are one duty. */
  ghost predicate Cancels(s: State) { s.stopped ==> s.canceled || exists t :: s.At(t).Canceling? }

  lemma CancelsStep(s: State, a: Action)
    requires Cancels(s) && Enabled(s, a)
    ensures Cancels(Apply(s, a))
  {
    var z := Apply(s, a);
    assert forall u :: !ByThread(a) || u != a.t ==> z.At(u) == s.At(u);
    if ByThread(a) { assert z.At(a.t) == Target(s, a); }
  }

  /** In every interleaving: once the flag is set, the root context, under which a run proceeds, is
      canceled, or the Stop call that set the flag is about to do so. */
  lemma {:induction false} StopCancels(published: bool, run: seq<Action>)
    requires Legal(Init(published), run)
    ensures var s := Play(Init(published), run); s.stopped ==> s.canceled || exists t :: s.At(t).Canceling?
    decreases |run|
  {
    if run != [] {
      var before, a := run[..|run| - 1], run[|run| - 1];
      assert run == before + [a];
      LegalSnoc(Init(published), before, a);
      StopCancels(published, before);
      CancelsStep(Play(Init(published), before), a);
    }
  }

  // ------------------------------------------------------------- what is left

  /** At most how many steps a thread has before it is idle. */
  function Weight(p: Pc): nat {
    match p
    case Idle => 0
    case FirstLoad => 9
    case Contexts => 8
    case Locking => 7
    case SecondLoad => 5
    case LoadService => 4
    case Running => 3
    case Unlocking => 1
    case Swapping => 5
    case Canceling => 4
    case AtBarrier => 3
    case Holding => 2
  }

  ghost function Work(s: State): nat { Sum(s.pc, Weight) }

  predicate Arrives(a: Action) { a.Publish? || a.RootCancel? || a.Enter? || a.CallStop? }

  /** A step changes what is left by what its own thread has left, and that less and less. */
  lemma StepWorks(s: State, a: Action)
    requires Enabled(s, a) && ByThread(a)
    ensures Work(Apply(s, a)) + Weight(s.At(a.t)) == Work(s) + Weight(Target(s, a))
    ensures !Arrives(a) ==> Weight(Target(s, a)) < Weight(s.At(a.t))
  {
    SumUpdate(s.pc, Weight, a.t, Target(s, a));
  }

  /** The step that takes a thread on from its place. */
  function Onward(p: Pc, t: Thread): Action
    requires !p.Idle?
  {
    match p
    case FirstLoad => LoadStopped(t)
    case Contexts => CheckContexts(t, true)
    case Locking => TryLock(t)
    case SecondLoad => LoadAgain(t)
    case LoadService => Load(t)
    case Running => Finish(t)
    case Unlocking => Unlock(t)
    case Swapping => Swap(t)
    case Canceling => Cancel(t)
    case AtBarrier => Lock(t)
    case Holding => Release(t)
  }

  /** As long as some thread is not idle, some thread can go on: if not itself, then the one that
      holds the lock. */
  lemma NeverStuck(s: State, t: Thread) returns (a: Action)
    requires Locks(s) && !s.At(t).Idle?
    ensures ByThread(a) && Enabled(s, a) && !Arrives(a)
  {
    var u := if s.mu.Some? then s.mu.value else t;
    assert s.mu.Some? ==> Critical(s.At(u));
    a := Onward(s.At(u), u);
  }
}
