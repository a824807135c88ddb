/** Manager.Notify and Manager.Close as steps of any number of threads: the fan-out to all
    channels over one bounded error channel, and a close that waits for running calls. */
module NotifyProtocol {
  import D = Domain
  import opened Sums

  /** The goroutine of one channel. */
  datatype Sender =
    | Unborn
    | Ready                  // started, before Send
    | Sending                // in Send
    | Pushing                // Send failed or panicked: before the send on the error channel
    | Exiting(failed: bool)  // before the deferred wg.Done
    | Gone(failed: bool)

  /** The local variables of one Notify call. */
  datatype Call = Call(spawned: nat, wg: int, senders: seq<Sender>, attempts: seq<nat>, buffer: seq<nat>, errs: seq<nat>)

  datatype Pc =
    | Idle
    | Entering               // Notify: before its critical section
    | Spawning(call: Call)   //         in the loop that starts the goroutines
    | Joining(call: Call)    //         before wg.Wait returns
    | Collecting(call: Call) //         ranging over the closed error channel
    | Returning(call: Call)  //         before the deferred Done
    | CloseEntering          // Close: before its critical section
    | CloseWaiting           //        before wg.Wait returns
    | CloseChannels(next: nat)

  datatype State = State(
    channels: nat,
    closing: bool,
    wg: int,
    pc: map<nat, Pc>,
    returned: bool)          // some Close call has returned
  {
    function At(t: nat): Pc { if t in pc then pc[t] else Idle }

    function Move(t: nat, p: Pc): State { this.(pc := pc[t := p]) }
  }

  datatype Action =
    | CallNotify(t: nat)
    | Admit(t: nat)
    | Spawn(t: nat)
    | Spawned(t: nat)
    | BeginSend(t: nat, k: nat)
    | EndSend(t: nat, k: nat, failed: bool)
    | Push(t: nat, k: nat)
    | Exit(t: nat, k: nat)
    | Join(t: nat)
    | Collect(t: nat)
    | Collected(t: nat)
    | Return(t: nat)
    | CallClose(t: nat)
    | BeginClose(t: nat)
    | Waited(t: nat)
    | CloseChannel(t: nat)
    | EndClose(t: nat)

  function NewCall(channels: nat): Call {
    Call(0, 0, seq(channels, i => Unborn), seq(channels, i => 0), [], [])
  }

  predicate Fanning(p: Pc) { p.Spawning? || p.Joining? }

  /** The sender of channel k in thread t's call. */
  function SenderAt(s: State, t: nat, k: nat): Sender {
    var p := s.At(t);
    if Fanning(p) && k < |p.call.senders| then p.call.senders[k] else Unborn
  }

  predicate Enabled(s: State, a: Action) {
    match a
    case CallNotify(t) => s.At(t).Idle?
    case Admit(t) => s.At(t).Entering?
    case Spawn(t) => s.At(t).Spawning? && s.At(t).call.spawned < s.channels
    case Spawned(t) => s.At(t).Spawning? && s.At(t).call.spawned == s.channels
    case BeginSend(t, k) => SenderAt(s, t, k).Ready?
    case EndSend(t, k, _) => SenderAt(s, t, k).Sending?
    case Push(t, k) => SenderAt(s, t, k).Pushing? && |s.At(t).call.buffer| < s.channels
    case Exit(t, k) => SenderAt(s, t, k).Exiting?
    case Join(t) => s.At(t).Joining? && s.At(t).call.wg == 0
    case Collect(t) => s.At(t).Collecting? && s.At(t).call.buffer != []
    case Collected(t) => s.At(t).Collecting? && s.At(t).call.buffer == []
    case Return(t) => s.At(t).Returning?
    case CallClose(t) => s.At(t).Idle?
    case BeginClose(t) => s.At(t).CloseEntering?
    case Waited(t) => s.At(t).CloseWaiting? && s.wg == 0
    case CloseChannel(t) => s.At(t).CloseChannels? && s.At(t).next < s.channels
    case EndClose(t) => s.At(t).CloseChannels? && s.At(t).next == s.channels
  }

  function Put<T>(xs: seq<T>, k: nat, x: T): seq<T> { if k < |xs| then xs[k := x] else xs }

  function SetSender(c: Call, k: nat, x: Sender): Call { c.(senders := Put(c.senders, k, x)) }

  /** What a step does to the local variables of a call. */
  function OnCall(c: Call, a: Action): Call {
    match a
    case Spawn(_) => SetSender(c, c.spawned, Ready).(wg := c.wg + 1, spawned := c.spawned + 1)
    case BeginSend(_, k) =>
      SetSender(c, k, Sending).(attempts := if k < |c.attempts| then c.attempts[k := c.attempts[k] + 1] else c.attempts)
    case EndSend(_, k, failed) => SetSender(c, k, if failed then Pushing else Exiting(false))
    case Push(_, k) => SetSender(c, k, Exiting(true)).(buffer := c.buffer + [k])
    case Exit(_, k) =>
      SetSender(c, k, Gone(k < |c.senders| && c.senders[k].Exiting? && c.senders[k].failed)).(wg := c.wg - 1)
    case Collect(_) => if c.buffer == [] then c else c.(buffer := c.buffer[1..], errs := c.errs + [c.buffer[0]])
    case _ => c
  }

  /** A step inside a call keeps the thread where it is. */
  predicate Local(a: Action) { a.Spawn? || a.BeginSend? || a.EndSend? || a.Push? || a.Exit? || a.Collect? }

  predicate HasCall(p: Pc) { p.Spawning? || p.Joining? || p.Collecting? || p.Returning? }

  function WithCall(p: Pc, c: Call): Pc
    requires HasCall(p)
  {
    match p
    case Spawning(_) => Spawning(c)
    case Joining(_) => Joining(c)
    case Collecting(_) => Collecting(c)
    case Returning(_) => Returning(c)
  }

  /** Where a step takes its thread. */
  function Target(s: State, a: Action): Pc
    requires Enabled(s, a)
  {
    var p := s.At(a.t);
    if Local(a) then WithCall(p, OnCall(p.call, a))
    else
      match a
      case CallNotify(_) => Entering
      case Admit(_) => if s.closing then Idle else Spawning(NewCall(s.channels))
      case Spawned(_) => Joining(p.call)
      case Join(_) => Collecting(p.call)
      case Collected(_) => Returning(p.call)
      case CallClose(_) => CloseEntering
      case BeginClose(_) => CloseWaiting
      case Waited(_) => CloseChannels(0)
      case CloseChannel(_) => CloseChannels(p.next + 1)
      case _ => Idle
  }

  /** What a step does to the shared fields. */
  function Shared(s: State, a: Action): (r: State)
    ensures r.pc == s.pc && r.channels == s.channels
  {
    match a
    case Admit(_) => if s.closing then s else s.(wg := s.wg + 1)
    case Return(_) => s.(wg := s.wg - 1)
    case BeginClose(_) => s.(closing := true)
    case EndClose(_) => s.(returned := true)
    case _ => s
  }

  function Apply(s: State, a: Action): (r: State)
    requires Enabled(s, a)
    ensures r.pc == s.pc[a.t := Target(s, a)] && r.channels == s.channels
  {
    Shared(s, a).Move(a.t, Target(s, a))
  }

  function Init(channels: nat): State { State(channels, false, 0, map[], false) }

  predicate Legal(s: State, run: seq<Action>)
    decreases |run|
  {
    run == [] || (Enabled(s, run[0]) && Legal(Apply(s, run[0]), run[1..]))
  }

  function Play(s: State, run: seq<Action>): State
    requires Legal(s, run)
    decreases |run|
  {
    if run == [] then s else Play(Apply(s, run[0]), run[1..])
  }

  // -------------------------------------------------- the invariant of one call

  predicate Alive(x: Sender) { x.Ready? || x.Sending? || x.Pushing? || x.Exiting? }

  predicate Reported(x: Sender) { (x.Exiting? || x.Gone?) && x.failed }

  function AliveCount(xs: seq<Sender>): nat {
    if xs == [] then 0 else AliveCount(xs[..|xs| - 1]) + if Alive(xs[|xs| - 1]) then 1 else 0
  }

  lemma {:induction false} AliveCountUpdate(xs: seq<Sender>, k: nat, x: Sender)
    requires k < |xs|
    ensures AliveCount(xs[k := x]) == AliveCount(xs) - (if Alive(xs[k]) then 1 else 0) + (if Alive(x) then 1 else 0)
  {
    var n := |xs| - 1;
    if k == n {
      assert xs[k := x][..n] == xs[..n];
    } else {
      assert xs[k := x][..n] == xs[..n][k := x];
      AliveCountUpdate(xs[..n], k, x);
    }
  }

  lemma {:induction false} NoneAlive(xs: seq<Sender>, k: nat)
    requires AliveCount(xs) == 0 && k < |xs|
    ensures !Alive(xs[k])
  {
    var n := |xs| - 1;
    if k < n { NoneAlive(xs[..n], k); }
  }

  lemma {:induction false} AliveCountNone(n: nat)
    ensures AliveCount(seq(n, i => Unborn)) == 0
  {
    var xs: seq<Sender> := seq(n, i => Unborn);
    if n > 0 {
      assert xs[..n - 1] == seq(n - 1, i => Unborn);
      AliveCountNone(n - 1);
    }
  }

  /** Everything received or waiting in the error channel, oldest first. */
  function Reports(c: Call): seq<nat> { c.errs + c.buffer }

  ghost predicate CallInv(c: Call, channels: nat) {
    && |c.senders| == |c.attempts| == channels
    && c.spawned <= channels
    && (forall k :: 0 <= k < channels ==> (c.senders[k].Unborn? <==> c.spawned <= k))
    && c.wg == AliveCount(c.senders)
    && (forall k :: 0 <= k < channels ==> c.attempts[k] == if c.senders[k].Unborn? || c.senders[k].Ready? then 0 else 1)
    && (forall k :: k in Reports(c) <==> 0 <= k < channels && Reported(c.senders[k]))
    && (forall i, j :: 0 <= i < j < |Reports(c)| ==> Reports(c)[i] != Reports(c)[j])
  }

  /** All senders have ended, and so has every report been pushed. */
  predicate Ended(c: Call) { forall k :: 0 <= k < |c.senders| ==> c.senders[k].Gone? }

  predicate LocalEnabled(c: Call, channels: nat, a: Action)
    requires |c.senders| == channels
  {
    match a
    case Spawn(_) => c.spawned < channels
    case BeginSend(_, k) => k < channels && c.senders[k].Ready?
    case EndSend(_, k, _) => k < channels && c.senders[k].Sending?
    case Push(_, k) => k < channels && c.senders[k].Pushing?
    case Exit(_, k) => k < channels && c.senders[k].Exiting?
    case Collect(_) => c.buffer != []
    case _ => false
  }

  lemma SenderStep(c: Call, channels: nat, k: nat, x: Sender)
    requires CallInv(c, channels) && k < channels && Alive(c.senders[k])
    requires !x.Unborn? && Reported(x) == Reported(c.senders[k])
    requires c.senders[k].Ready? == x.Ready?
    ensures CallInv(SetSender(c, k, x).(wg := c.wg - if Alive(x) then 0 else 1), channels)
  {
    AliveCountUpdate(c.senders, k, x);
  }

  lemma SpawnStep(c: Call, channels: nat)
    requires CallInv(c, channels) && c.spawned < channels
    ensures CallInv(SetSender(c, c.spawned, Ready).(wg := c.wg + 1, spawned := c.spawned + 1), channels)
  {
    AliveCountUpdate(c.senders, c.spawned, Ready);
  }

  lemma BeginSendStep(c: Call, channels: nat, k: nat)
    requires CallInv(c, channels) && k < channels && c.senders[k].Ready?
    ensures CallInv(SetSender(c, k, Sending).(attempts := c.attempts[k := c.attempts[k] + 1]), channels)
  {
    AliveCountUpdate(c.senders, k, Sending);
  }

  lemma PushStep(c: Call, channels: nat, k: nat)
    requires CallInv(c, channels) && k < channels && c.senders[k].Pushing?
    ensures CallInv(SetSender(c, k, Exiting(true)).(buffer := c.buffer + [k]), channels)
  {
    AliveCountUpdate(c.senders, k, Exiting(true));
    var d := SetSender(c, k, Exiting(true)).(buffer := c.buffer + [k]);
    assert Reports(d) == Reports(c) + [k];
    assert k !in Reports(c);
  }

  lemma CollectStep(c: Call, channels: nat)
    requires CallInv(c, channels) && c.buffer != []
    ensures CallInv(c.(buffer := c.buffer[1..], errs := c.errs + [c.buffer[0]]), channels)
  {
    var d := c.(buffer := c.buffer[1..], errs := c.errs + [c.buffer[0]]);
    assert Reports(d) == Reports(c);
  }

  lemma CallStep(c: Call, channels: nat, a: Action)
    requires CallInv(c, channels) && LocalEnabled(c, channels, a)
    ensures CallInv(OnCall(c, a), channels)
  {
    match a
    case Spawn(_) => SpawnStep(c, channels);
    case BeginSend(_, k) => BeginSendStep(c, channels, k);
    case EndSend(_, k, failed) => SenderStep(c, channels, k, if failed then Pushing else Exiting(false));
    case Push(_, k) => PushStep(c, channels, k);
    case Exit(_, k) => SenderStep(c, channels, k, Gone(c.senders[k].failed));
    case Collect(_) => CollectStep(c, channels);
    case _ =>
  }

  // --------------------------------------------------------------- pigeonhole

  function Elements(xs: seq<nat>): set<nat> { set x | x in xs }

  lemma {:induction false} DistinctCount(xs: seq<nat>)
    requires forall i, j :: 0 <= i < j < |xs| ==> xs[i] != xs[j]
    ensures |Elements(xs)| == |xs|
  {
    if xs != [] {
      var n := |xs| - 1;
      DistinctCount(xs[..n]);
      assert xs[n] !in Elements(xs[..n]);
      assert Elements(xs) == Elements(xs[..n]) + {xs[n]};
    }
  }

  lemma {:induction false} BelowCount(xs: set<nat>, n: nat)
    requires forall x :: x in xs ==> x < n
    ensures |xs| <= n
  {
    if n == 0 {
      assert xs == {};
    } else {
      BelowCount(xs - {n - 1}, n - 1);
    }
  }

  /** A channel that is about to report finds room: the others have reported at most once. */
  lemma RoomToReport(c: Call, channels: nat, k: nat)
    requires CallInv(c, channels) && k < channels && c.senders[k].Pushing?
    ensures |c.buffer| < channels
  {
    var all := Reports(c) + [k];
    assert k !in Reports(c);
    DistinctCount(all);
    BelowCount(Elements(all), channels);
  }

  // ------------------------------------------------------ the whole invariant

  predicate Closing(p: Pc) { p.CloseWaiting? || p.CloseChannels? }

  /** The threads between Add and Done of the manager's wait group. */
  function Active(s: State): set<nat> { set t | t in s.pc && HasCall(s.pc[t]) }

  ghost predicate GoodPc(p: Pc, channels: nat) {
    && (HasCall(p) ==> CallInv(p.call, channels))
    && (Fanning(p) ==> p.call.errs == [])
    && (p.Joining? ==> p.call.spawned == channels)
    && (p.Collecting? || p.Returning? ==> Ended(p.call))
    && (p.Returning? ==> p.call.buffer == [])
    && (p.CloseChannels? ==> p.next <= channels)
  }

  ghost predicate Inv(s: State) {
    && (forall t: nat :: GoodPc(s.At(t), s.channels))
    && s.wg == |Active(s)|
    && (forall t: nat :: Closing(s.At(t)) ==> s.closing)
    && (s.returned ==> s.closing)
    && (s.returned || (exists t: nat :: s.At(t).CloseChannels?) ==> Active(s) == {})
  }

  lemma NewCallGood(channels: nat)
    ensures CallInv(NewCall(channels), channels)
  {
    AliveCountNone(channels);
    assert Reports(NewCall(channels)) == [];
  }

  lemma AllGone(c: Call, channels: nat)
    requires CallInv(c, channels) && c.spawned == channels && c.wg == 0
    ensures Ended(c)
  {
    forall k | 0 <= k < |c.senders| ensures c.senders[k].Gone? { NoneAlive(c.senders, k); }
  }

  lemma LocalStep(s: State, a: Action)
    requires GoodPc(s.At(a.t), s.channels) && Enabled(s, a) && Local(a)
    ensures GoodPc(Target(s, a), s.channels)
  {
    CallStep(s.At(a.t).call, s.channels, a);
  }

  /** What a step makes of its own thread's place is good again. */
  lemma PcStep(s: State, a: Action)
    requires GoodPc(s.At(a.t), s.channels) && Enabled(s, a)
    ensures GoodPc(Target(s, a), s.channels)
  {
    if Local(a) {
      LocalStep(s, a);
    } else if a.Admit? {
      NewCallGood(s.channels);
    } else if a.Join? {
      AllGone(s.At(a.t).call, s.channels);
    }
  }

  lemma Resized(u: set<nat>, t: nat)
    ensures |u + {t}| == |u| + if t in u then 0 else 1
    ensures |u - {t}| == |u| - if t in u then 1 else 0
  {
    if t in u { assert u + {t} == u; } else { assert u - {t} == u; }
  }

  lemma ActiveMove(s: State, z: State, t: nat, p: Pc)
    requires z.pc == s.pc[t := p]
    ensures Active(z) == if HasCall(p) then Active(s) + {t} else Active(s) - {t}
    ensures t in Active(s) <==> HasCall(s.At(t))
  {}

  /** How a step changes the shared fields. */
  ghost predicate Shape(s: State, z: State, p: Pc, q: Pc) {
    && (s.closing ==> z.closing) && (Closing(q) ==> z.closing) && (s.returned ==> z.returned)
    && z.wg - s.wg == (if HasCall(q) then 1 else 0) - (if HasCall(p) then 1 else 0)
    && (HasCall(q) && !HasCall(p) ==> !s.closing)
    && (z.returned ==> s.returned || p.CloseChannels?)
    && (q.CloseChannels? ==> p.CloseChannels? || s.wg == 0)
    && (q.CloseChannels? || (z.returned && !s.returned) ==> !HasCall(p) && !HasCall(q))
  }

  lemma StepShape(s: State, a: Action)
    requires Enabled(s, a)
    requires Closing(s.At(a.t)) ==> s.closing
    ensures Shape(s, Apply(s, a), s.At(a.t), Target(s, a))
  {}

  lemma ShapeKeeps(s: State, z: State, t: nat, q: Pc)
    requires Inv(s) && Shape(s, z, s.At(t), q) && GoodPc(q, s.channels)
    requires z.pc == s.pc[t := q] && z.channels == s.channels
    ensures Inv(z)
  {
    ActiveMove(s, z, t, q);
    Resized(Active(s), t);
    assert forall u: nat :: u != t ==> z.At(u) == s.At(u);
  }

  lemma InvStep(s: State, a: Action)
    requires Inv(s) && Enabled(s, a)
    ensures Inv(Apply(s, a))
    ensures s.returned ==> Apply(s, a).returned
  {
    PcStep(s, a);
    StepShape(s, a);
    ShapeKeeps(s, Apply(s, a), a.t, Target(s, a));
  }

  lemma {:induction false} InvRun(s: State, run: seq<Action>)
    requires Inv(s) && Legal(s, run)
    ensures Inv(Play(s, run))
    ensures Play(s, run).channels == s.channels && (s.returned ==> Play(s, run).returned)
    decreases |run|
  {
    if run != [] {
      InvStep(s, run[0]);
      InvRun(Apply(s, run[0]), run[1..]);
    }
  }

  lemma InvInit(channels: nat)
    ensures Inv(Init(channels))
  {
    assert Active(Init(channels)) == {};
  }

  // ------------------------------------------------------------------ theorems

  /** No sender ever blocks on the error channel: whenever one is about to report, it may. */
  lemma NeverBlocks(channels: nat, run: seq<Action>, t: nat, k: nat)
    requires Legal(Init(channels), run)
    requires SenderAt(Play(Init(channels), run), t, k).Pushing?
    ensures Enabled(Play(Init(channels), run), Push(t, k))
  {
    InvInit(channels);
    InvRun(Init(channels), run);
    var s := Play(Init(channels), run);
    assert GoodPc(s.At(t), s.channels);
    RoomToReport(s.At(t).call, channels, k);
  }

  // ------------------------------------------------- a call, told by its steps

  /** How the send on channel k ended, in the call that thread t was last admitted to. */
  function SendOutcome(run: seq<Action>, t: nat, k: nat): D.Option<bool> {
    if run == [] then D.None
    else
      match run[|run| - 1]
      case Admit(u) => if u == t then D.None else SendOutcome(run[..|run| - 1], t, k)
      case EndSend(u, j, failed) => if u == t && j == k then D.Some(failed) else SendOutcome(run[..|run| - 1], t, k)
      case _ => SendOutcome(run[..|run| - 1], t, k)
  }

  /** How many sends on channel k were begun in that call. */
  function SendCount(run: seq<Action>, t: nat, k: nat): nat {
    if run == [] then 0
    else
      match run[|run| - 1]
      case Admit(u) => if u == t then 0 else SendCount(run[..|run| - 1], t, k)
      case BeginSend(u, j) => SendCount(run[..|run| - 1], t, k) + if u == t && j == k then 1 else 0
      case _ => SendCount(run[..|run| - 1], t, k)
  }

  /** A sender stands where the steps of its call have brought it. */
  predicate Recalls(x: Sender, outcome: D.Option<bool>, begun: nat) {
    match x
    case Unborn => outcome.None? && begun == 0
    case Ready => outcome.None? && begun == 0
    case Sending => outcome.None? && begun == 1
    case Pushing => outcome == D.Some(true) && begun == 1
    case Exiting(failed) => outcome == D.Some(failed) && begun == 1
    case Gone(failed) => outcome == D.Some(failed) && begun == 1
  }

  ghost predicate Remembers(p: Pc, run: seq<Action>, t: nat) {
    HasCall(p) ==>
      forall k :: 0 <= k < |p.call.senders| ==> Recalls(p.call.senders[k], SendOutcome(run, t, k), SendCount(run, t, k))
  }

  lemma {:induction false} LegalSnoc(s: State, run: seq<Action>, a: Action)
    requires Legal(s, run + [a])
    ensures Legal(s, run) && Enabled(Play(s, run), a) && Play(s, run + [a]) == Apply(Play(s, run), a)
    decreases |run|
  {
    if run == [] {
      assert run + [a] == [a];
    } else {
      assert (run + [a])[1..] == run[1..] + [a];
      LegalSnoc(Apply(s, run[0]), run[1..], a);
    }
  }

  lemma OutcomeSnoc(run: seq<Action>, a: Action, t: nat, k: nat)
    ensures SendOutcome(run + [a], t, k) ==
            if a == Admit(t) then D.None else if a.EndSend? && a.t == t && a.k == k then D.Some(a.failed) else SendOutcome(run, t, k)
    ensures SendCount(run + [a], t, k) ==
            if a == Admit(t) then 0 else SendCount(run, t, k) + if a == BeginSend(t, k) then 1 else 0
  {
    assert (run + [a])[..|run|] == run;
  }

  lemma RecallsLocal(c: Call, channels: nat, run: seq<Action>, a: Action, k: nat)
    requires CallInv(c, channels) && LocalEnabled(c, channels, a) && k < channels
    requires Recalls(c.senders[k], SendOutcome(run, a.t, k), SendCount(run, a.t, k))
    ensures Recalls(OnCall(c, a).senders[k], SendOutcome(run + [a], a.t, k), SendCount(run + [a], a.t, k))
  {
    OutcomeSnoc(run, a, a.t, k);
  }

  lemma RemembersOwn(s: State, run: seq<Action>, a: Action)
    requires GoodPc(s.At(a.t), s.channels) && Enabled(s, a) && Remembers(s.At(a.t), run, a.t)
    ensures Remembers(Target(s, a), run + [a], a.t)
  {
    var p, q := s.At(a.t), Target(s, a);
    if HasCall(q) {
      forall k | 0 <= k < |q.call.senders|
        ensures Recalls(q.call.senders[k], SendOutcome(run + [a], a.t, k), SendCount(run + [a], a.t, k))
      {
        if Local(a) { RecallsLocal(p.call, s.channels, run, a, k); } else { OutcomeSnoc(run, a, a.t, k); }
      }
    }
  }

  lemma RemembersStep(s: State, run: seq<Action>, a: Action, t: nat)
    requires GoodPc(s.At(t), s.channels) && Enabled(s, a) && Remembers(s.At(t), run, t)
    ensures Remembers(Apply(s, a).At(t), run + [a], t)
  {
    if a.t == t {
      RemembersOwn(s, run, a);
    } else if HasCall(s.At(t)) {
      var c := s.At(t).call;
      forall k | 0 <= k < |c.senders|
        ensures Recalls(c.senders[k], SendOutcome(run + [a], t, k), SendCount(run + [a], t, k))
      {
        OutcomeSnoc(run, a, t, k);
      }
    }
  }

  lemma {:induction false} RemembersRun(channels: nat, run: seq<Action>, t: nat)
    requires Legal(Init(channels), run)
    ensures Remembers(Play(Init(channels), run).At(t), run, t)
    decreases |run|
  {
    if run != [] {
      var before, a := run[..|run| - 1], run[|run| - 1];
      assert run == before + [a];
      LegalSnoc(Init(channels), before, a);
      RemembersRun(channels, before, t);
      InvInit(channels);
      InvRun(Init(channels), before);
      RemembersStep(Play(Init(channels), before), before, a, t);
    }
  }

  /** A Notify call that is about to return has begun exactly one send on every channel and ended
      it, and its errors are, once each, exactly the channels whose send ended with a failure. */
  lemma OneErrorPerFailure(channels: nat, run: seq<Action>, t: nat)
    requires Legal(Init(channels), run) && Play(Init(channels), run).At(t).Returning?
    ensures var errs := Play(Init(channels), run).At(t).call.errs;
            && (forall k: nat :: k < channels ==> SendCount(run, t, k) == 1 && SendOutcome(run, t, k).Some?)
            && (forall k: nat :: k in errs <==> k < channels && SendOutcome(run, t, k) == D.Some(true))
            && (forall i, j :: 0 <= i < j < |errs| ==> errs[i] != errs[j])
  {
    InvInit(channels);
    InvRun(Init(channels), run);
    RemembersRun(channels, run, t);
    var s := Play(Init(channels), run);
    assert GoodPc(s.At(t), s.channels);
    assert Reports(s.At(t).call) == s.At(t).call.errs;
  }

  lemma {:induction false} ClosingRun(channels: nat, run: seq<Action>)
    requires Legal(Init(channels), run)
    ensures Play(Init(channels), run).closing <==> exists t :: BeginClose(t) in run
    decreases |run|
  {
    if run != [] {
      var before, a := run[..|run| - 1], run[|run| - 1];
      assert run == before + [a];
      LegalSnoc(Init(channels), before, a);
      ClosingRun(channels, before);
      assert forall t :: BeginClose(t) in run <==> BeginClose(t) in before || a == BeginClose(t);
    }
  }

  /** A Notify call is admitted exactly when no Close call has set its flag before. */
  lemma AdmittedUntilClose(channels: nat, run: seq<Action>, t: nat)
    requires Legal(Init(channels), run + [Admit(t)])
    ensures HasCall(Play(Init(channels), run + [Admit(t)]).At(t)) <==> forall u :: BeginClose(u) !in run
  {
    LegalSnoc(Init(channels), run, Admit(t));
    ClosingRun(channels, run);
  }

  /** Channels are closed only while no Notify call is under way, hence no sender is alive. */
  lemma CloseAfterSends(channels: nat, run: seq<Action>, t: nat, u: nat, k: nat)
    requires Legal(Init(channels), run) && Play(Init(channels), run).At(t).CloseChannels?
    ensures !HasCall(Play(Init(channels), run).At(u))
    ensures !Alive(SenderAt(Play(Init(channels), run), u, k))
  {
    InvInit(channels);
    InvRun(Init(channels), run);
    var s := Play(Init(channels), run);
    assert u in Active(s) <==> HasCall(s.At(u));
  }

  /** How many channels thread t has closed since its Close call came past its wait. */
  function ClosedCount(run: seq<Action>, t: nat): nat {
    if run == [] then 0
    else
      match run[|run| - 1]
      case Waited(u) => if u == t then 0 else ClosedCount(run[..|run| - 1], t)
      case CloseChannel(u) => ClosedCount(run[..|run| - 1], t) + if u == t then 1 else 0
      case _ => ClosedCount(run[..|run| - 1], t)
  }

  lemma ClosedSnoc(run: seq<Action>, a: Action, t: nat)
    ensures ClosedCount(run + [a], t) ==
            if a == Waited(t) then 0 else ClosedCount(run, t) + if a == CloseChannel(t) then 1 else 0
  {
    assert (run + [a])[..|run|] == run;
  }

  lemma {:induction false} ClosedRun(channels: nat, run: seq<Action>, t: nat)
    requires Legal(Init(channels), run)
    ensures var p := Play(Init(channels), run).At(t); p.CloseChannels? ==> p.next == ClosedCount(run, t)
    decreases |run|
  {
    if run != [] {
      var before, a := run[..|run| - 1], run[|run| - 1];
      assert run == before + [a];
      LegalSnoc(Init(channels), before, a);
      ClosedRun(channels, before, t);
      ClosedSnoc(before, a, t);
    }
  }

  /** A Close call that ends has closed as many channels as there are, one after the other. */
  lemma ClosesEveryChannel(channels: nat, run: seq<Action>, t: nat)
    requires Legal(Init(channels), run + [EndClose(t)])
    ensures ClosedCount(run, t) == channels
  {
    LegalSnoc(Init(channels), run, EndClose(t));
    ClosedRun(channels, run, t);
    InvInit(channels);
    InvRun(Init(channels), run);
  }

  /** Once any Close call has returned, no Notify call gets past its check, then or ever after. */
  lemma NoSendAfterClose(channels: nat, before: seq<Action>, after: seq<Action>, u: nat, k: nat)
    requires Legal(Init(channels), before) && Play(Init(channels), before).returned
    requires Legal(Play(Init(channels), before), after)
    ensures var s := Play(Play(Init(channels), before), after); !HasCall(s.At(u)) && !Alive(SenderAt(s, u, k))
  {
    InvInit(channels);
    InvRun(Init(channels), before);
    InvRun(Play(Init(channels), before), after);
    var s := Play(Play(Init(channels), before), after);
    assert u in Active(s) <==> HasCall(s.At(u));
  }

  // ------------------------------------------------------------- what is left

  function SenderWeight(x: Sender): nat {
    match x
    case Unborn => 6
    case Ready => 5
    case Sending => 4
    case Pushing => 3
    case Exiting(_) => 1
    case Gone(_) => 0
  }

  function SendersWork(xs: seq<Sender>): nat {
    if xs == [] then 0 else SendersWork(xs[..|xs| - 1]) + SenderWeight(xs[|xs| - 1])
  }

  lemma {:induction false} SendersWorkUpdate(xs: seq<Sender>, k: nat, x: Sender)
    requires k < |xs|
    ensures SendersWork(xs[k := x]) + SenderWeight(xs[k]) == SendersWork(xs) + SenderWeight(x)
  {
    var n := |xs| - 1;
    if k == n {
      assert xs[k := x][..n] == xs[..n];
    } else {
      assert xs[k := x][..n] == xs[..n][k := x];
      SendersWorkUpdate(xs[..n], k, x);
    }
  }

  lemma {:induction false} UnbornWork(n: nat)
    ensures SendersWork(seq(n, i => Unborn)) == 6 * n
  {
    var xs: seq<Sender> := seq(n, i => Unborn);
    if n > 0 {
      assert xs[..n - 1] == seq(n - 1, i => Unborn);
      UnbornWork(n - 1);
    }
  }

  function CallWork(c: Call): nat { SendersWork(c.senders) + |c.buffer| }

  /** At most how many steps a thread, with the senders of its call, has before it is idle. */
  function Weight(p: Pc, channels: nat): nat {
    match p
    case Idle => 0
    case Entering => 6 * channels + 5
    case Spawning(c) => CallWork(c) + 4
    case Joining(c) => CallWork(c) + 3
    case Collecting(c) => CallWork(c) + 2
    case Returning(c) => CallWork(c) + 1
    case CloseEntering => channels + 4
    case CloseWaiting => channels + 3
    case CloseChannels(k) => 2 + if k <= channels then channels - k else 0
  }

  function Weigher(channels: nat): Pc -> nat { (p: Pc) => Weight(p, channels) }

  ghost function Work(s: State): nat { Sum(s.pc, Weigher(s.channels)) }

  predicate Arrives(a: Action) { a.CallNotify? || a.CallClose? }

  lemma Lighter(c: Call, k: nat, x: Sender, room: nat)
    requires k < |c.senders| && SenderWeight(x) + room < SenderWeight(c.senders[k])
    ensures SendersWork(SetSender(c, k, x).senders) + room < SendersWork(c.senders)
  {
    SendersWorkUpdate(c.senders, k, x);
  }

  lemma LocalDescends(c: Call, channels: nat, a: Action)
    requires CallInv(c, channels) && LocalEnabled(c, channels, a)
    ensures CallWork(OnCall(c, a)) < CallWork(c)
  {
    match a
    case Spawn(_) => Lighter(c, c.spawned, Ready, 0);
    case BeginSend(_, k) => Lighter(c, k, Sending, 0);
    case EndSend(_, k, failed) => Lighter(c, k, if failed then Pushing else Exiting(false), 0);
    case Push(_, k) => Lighter(c, k, Exiting(true), 1);
    case Exit(_, k) => Lighter(c, k, Gone(c.senders[k].failed), 0);
    case Collect(_) =>
  }

  lemma Descends(s: State, a: Action)
    requires GoodPc(s.At(a.t), s.channels) && Enabled(s, a) && !Arrives(a)
    ensures Weight(Target(s, a), s.channels) < Weight(s.At(a.t), s.channels)
  {
    if Local(a) {
      LocalDescends(s.At(a.t).call, s.channels, a);
    } else if a.Admit? {
      UnbornWork(s.channels);
    }
  }

  /** A step changes what is left by what its own thread has left, and that less and less. */
  lemma StepWorks(s: State, a: Action)
    requires Inv(s) && Enabled(s, a)
    ensures Work(Apply(s, a)) + Weight(s.At(a.t), s.channels) == Work(s) + Weight(Target(s, a), s.channels)
    ensures !Arrives(a) ==> Weight(Target(s, a), s.channels) < Weight(s.At(a.t), s.channels)
  {
    SumUpdate(s.pc, Weigher(s.channels), a.t, Target(s, a));
    assert GoodPc(s.At(a.t), s.channels);
    if !Arrives(a) { Descends(s, a); }
  }

  lemma {:induction false} SomeAlive(xs: seq<Sender>) returns (k: nat)
    requires AliveCount(xs) > 0
    ensures k < |xs| && Alive(xs[k])
  {
    var n := |xs| - 1;
    if Alive(xs[n]) { k := n; } else { k := SomeAlive(xs[..n]); }
  }

  /** A call that waits for its senders has one that can go on: there is room for its report. */
  lemma SenderGoesOn(s: State, t: nat) returns (a: Action)
    requires s.At(t).Joining? && CallInv(s.At(t).call, s.channels) && s.At(t).call.wg > 0
    ensures Enabled(s, a) && !Arrives(a)
  {
    var c := s.At(t).call;
    var k := SomeAlive(c.senders);
    match c.senders[k]
    case Ready => a := BeginSend(t, k);
    case Sending => a := EndSend(t, k, false);
    case Pushing => { RoomToReport(c, s.channels, k); a := Push(t, k); }
    case Exiting(_) => a := Exit(t, k);
  }

  lemma CallGoesOn(s: State, t: nat) returns (a: Action)
    requires GoodPc(s.At(t), s.channels) && (HasCall(s.At(t)) || s.At(t).Entering?)
    ensures Enabled(s, a) && !Arrives(a)
  {
    match s.At(t)
    case Entering => a := Admit(t);
    case Spawning(c) => a := if c.spawned < s.channels then Spawn(t) else Spawned(t);
    case Joining(c) => { if c.wg == 0 { a := Join(t); } else { a := SenderGoesOn(s, t); } }
    case Collecting(c) => a := if c.buffer != [] then Collect(t) else Collected(t);
    case Returning(_) => a := Return(t);
  }

  /** As long as some thread is not idle, some thread can go on. */
  lemma NeverStuck(s: State, t: nat) returns (a: Action)
    requires Inv(s) && !s.At(t).Idle?
    ensures Enabled(s, a) && !Arrives(a)
  {
    assert GoodPc(s.At(t), s.channels);
    match s.At(t)
    case CloseEntering => a := BeginClose(t);
    case CloseWaiting => {
      if s.wg == 0 {
        a := Waited(t);
      } else {
        var u :| u in Active(s);
        assert GoodPc(s.At(u), s.channels);
        a := CallGoesOn(s, u);
      }
    }
    case CloseChannels(next) => a := if next < s.channels then CloseChannel(t) else EndClose(t);
    case _ => a := CallGoesOn(s, t);
  }
}
