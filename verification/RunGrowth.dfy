/** How a run adds to the traces: requests, own store writes, messages and sessions, and series of
    own writes that follow a plan. */
module RunGrowth {
  import opened Store
  import opened World

  // ------------------------------------------------------- growth of the trace

  /** The writes of this run, without the resets of other clients. */
  function Own(evs: seq<StoreEvent>): seq<StoreEvent> {
    if evs == [] then []
    else Own(evs[..|evs| - 1]) + if evs[|evs| - 1].who.Elsewhere? then [] else [evs[|evs| - 1]]
  }

  lemma {:induction false} OwnConcat(a: seq<StoreEvent>, b: seq<StoreEvent>)
    ensures Own(a + b) == Own(a) + Own(b)
  {
    if b == [] {
      assert a + b == a;
    } else {
      assert (a + b)[..|a + b| - 1] == a + b[..|b| - 1];
      OwnConcat(a, b[..|b| - 1]);
    }
  }

  /** From w to w', exactly these requests, store events, messages and sessions were added. */
  ghost predicate Grows(w: World, w': World, seg: seq<Entry>, evs: seq<StoreEvent>, msgs: seq<MessageKind>, sessions: nat) {
    && w' == w.(t := w'.t, log := w.log + seg, disk := w'.disk, events := w.events + evs,
                notes := w.notes + msgs, sessions := w.sessions + sessions)
    && w.disk.epoch <= w'.disk.epoch
  }

  lemma GrowsThen(w0: World, w1: World, w2: World, s1: seq<Entry>, s2: seq<Entry>, v1: seq<StoreEvent>, v2: seq<StoreEvent>,
                  m1: seq<MessageKind>, m2: seq<MessageKind>, k1: nat, k2: nat)
    requires Grows(w0, w1, s1, v1, m1, k1) && Grows(w1, w2, s2, v2, m2, k2)
    ensures Grows(w0, w2, s1 + s2, v1 + v2, m1 + m2, k1 + k2)
    ensures Own(v1 + v2) == Own(v1) + Own(v2)
  {
    assert w0.log + (s1 + s2) == w0.log + s1 + s2;
    assert w0.events + (v1 + v2) == w0.events + v1 + v2;
    assert w0.notes + (m1 + m2) == w0.notes + m1 + m2;
    OwnConcat(v1, v2);
  }

  /** A text that the random source gave. */
  ghost predicate Drawn(w: World, text: string) { exists k: nat :: w.tape(k).text == text }

  lemma GrowsNothing(w: World)
    ensures Grows(w, w, [], [], [], 0)
    ensures Grows(w, w.Tick(), [], [], [], 0)
  {
    assert w.log + [] == w.log && w.events + [] == w.events && w.notes + [] == w.notes;
  }

  lemma TalkGrows(w: World, w1: World, seg: seq<Entry>)
    requires w1 == w.(t := w1.t, log := w.log + seg)
    ensures Grows(w, w1, seg, [], [], 0)
  {
    assert w.events + [] == w.events && w.notes + [] == w.notes;
  }

  /** Writes after requests. */
  lemma WriteGrows(w: World, w1: World, w2: World, seg: seq<Entry>, evs: seq<StoreEvent>)
    requires Grows(w, w1, seg, [], [], 0) && Grows(w1, w2, [], evs, [], 0)
    ensures Grows(w, w2, seg, evs, [], 0)
  {
    GrowsThen(w, w1, w2, seg, [], [], evs, [], [], 0, 0);
    assert seg + [] == seg && [] + evs == evs;
  }

  /** Writes before requests, and before other writes. */
  lemma GrowsAfterWrites(w: World, w1: World, w2: World, seg: seq<Entry>, v: seq<StoreEvent>, evs: seq<StoreEvent>)
    requires Grows(w, w1, [], v, [], 0) && Grows(w1, w2, seg, evs, [], 0)
    ensures Grows(w, w2, seg, v + evs, [], 0) && Own(v + evs) == Own(v) + Own(evs)
  {
    GrowsThen(w, w1, w2, [], seg, v, evs, [], [], 0, 0);
    assert [] + seg == seg;
  }

  /** Messages after writes. */
  lemma NoteGrows(w: World, w1: World, w2: World, evs: seq<StoreEvent>, msgs: seq<MessageKind>)
    requires Grows(w, w1, [], evs, [], 0) && Grows(w1, w2, [], [], msgs, 0)
    ensures Grows(w, w2, [], evs, msgs, 0)
  {
    GrowsThen(w, w1, w2, [], [], evs, [], [], msgs, 0, 0);
    assert evs + [] == evs && [] + msgs == msgs;
  }

  /** One more critical section. */
  lemma EventGrows(w: World, w1: World, w2: World, evs: seq<StoreEvent>, ev: StoreEvent)
    requires Grows(w, w1, [], evs, [], 0)
    requires w2 == w1.(disk := w2.disk, events := w1.events + [ev]) && w1.disk.epoch <= w2.disk.epoch
    ensures Grows(w, w2, [], evs + [ev], [], 0)
    ensures Own(evs + [ev]) == Own(evs) + if ev.who.Elsewhere? then [] else [ev]
  {
    assert w.events + evs + [ev] == w.events + (evs + [ev]);
    assert (evs + [ev])[..|evs|] == evs;
  }

  lemma {:induction false} InterferedFacts(w: World, n: nat) returns (evs: seq<StoreEvent>)
    ensures Grows(w, w.Interfered(n), [], evs, [], 0) && Own(evs) == []
    ensures w.Interfered(n).disk == if n == 0 then w.disk else Disk(EMPTY, w.disk.epoch + n)
  {
    if n == 0 {
      GrowsNothing(w);
      evs := [];
    } else {
      evs := InterferedFacts(w, n - 1);
      var ev := StoreEvent(Elsewhere, Reset, Fine, Saved, w.Interfered(n).disk, |w.Interfered(n - 1).log|);
      EventGrows(w, w.Interfered(n - 1), w.Interfered(n), evs, ev);
      evs := evs + [ev];
    }
  }

  lemma LockedFacts(w: World) returns (evs: seq<StoreEvent>)
    ensures Grows(w, w.Locked(), [], evs, [], 0) && Own(evs) == []
    ensures w.Locked().disk.epoch == w.disk.epoch ==> w.Locked().disk == w.disk
  {
    evs := InterferedFacts(w.Tick(), w.Here().disk.resets);
  }

  /** One own critical section: one own event, saying what it did and what it left. */
  lemma WrittenFacts(w: World, who: Who, write: Write) returns (evs: seq<StoreEvent>)
    requires !who.Elsewhere?
    ensures var (w1, outcome) := w.Written(who, write);
            && Grows(w, w1, [], evs, [], 0)
            && Own(evs) == [StoreEvent(who, write, w.Here().disk.fate, outcome, w1.disk, |w.log|)]
            && (outcome == Saved && write.Reset? ==> w1.disk.db == EMPTY && w.disk.epoch < w1.disk.epoch)
            && (outcome == Saved && !write.Reset? ==> w1.disk == Disk(Landing(w.Locked().disk.db, write), write.epoch))
            && (outcome == Stale <==> !write.Reset? && w1.disk.epoch != write.epoch)
            && (w1.disk.epoch == w.disk.epoch && !write.Reset? ==>
                  w1.disk.db == if outcome != Stale && Lands(w.Here().disk.fate) then Landing(w.disk.db, write) else w.disk.db)
  {
    var before := LockedFacts(w);
    var (w1, outcome) := w.Written(who, write);
    var ev := StoreEvent(who, write, w.Here().disk.fate, outcome, w1.disk, |w.Locked().log|);
    EventGrows(w, w.Locked(), w1, before, ev);
    evs := before + [ev];
    assert w.log + [] == w.log;
  }

  // ----------------------------------------------------------- plans of writes

  /** The own writes are a prefix of the plan, each but the last of them saved. */
  ghost predicate Follows(own: seq<StoreEvent>, plan: seq<Write>) {
    && |own| <= |plan|
    && (forall i :: 0 <= i < |own| ==> own[i].write == plan[i] && (i + 1 < |own| ==> own[i].outcome == Saved))
  }

  lemma FollowsMore(ev: StoreEvent, own: seq<StoreEvent>, plan: seq<Write>)
    requires plan != [] && ev.write == plan[0] && Follows(own, plan[1..])
    requires own != [] ==> ev.outcome == Saved
    ensures Follows([ev] + own, plan)
  {
    forall i | 0 <= i < |own| ensures ([ev] + own)[i + 1] == own[i] && plan[1..][i] == plan[i + 1] {}
  }

  lemma FollowsThen(own: seq<StoreEvent>, more: seq<StoreEvent>, plan: seq<Write>, extra: Write)
    requires Follows(own, plan)
    requires more == [] || (|more| == 1 && more[0].write == extra && |own| == |plan|)
    requires more != [] && own != [] ==> own[|own| - 1].outcome == Saved
    ensures Follows(own + more, plan + [extra])
  {}

  /** All of the plan was written, and saved. */
  ghost predicate Done(own: seq<StoreEvent>, plan: seq<Write>) {
    |own| == |plan| && (own != [] ==> own[|own| - 1].outcome == Saved)
  }

  /** Nothing was asked of the server before all of the plan but its last write was saved. */
  ghost predicate AsksLast(seg: seq<Entry>, own: seq<StoreEvent>, plan: seq<Write>) {
    seg != [] ==> |own| + 1 >= |plan| && (|own| < |plan| && own != [] ==> own[|own| - 1].outcome == Saved)
  }

  ghost predicate AllBy(own: seq<StoreEvent>, who: Who) { forall i :: 0 <= i < |own| ==> own[i].who == who }
}
