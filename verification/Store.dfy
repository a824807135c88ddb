/** The epoch-guarded identity store: what each critical section does, the generation
    specification of any interleaving of clients, and the LevelDB-backed class. */
module Store {
  import opened Domain

  // ------------------------------------------------------------ specification

  /** The four keys of the database; "" stands for an absent key. */
  datatype Db = Db(token: string, did: string, visitorID: string, account: string) {
    function State(): AuthState { AuthState(token, did, visitorID) }
  }

  const EMPTY := Db("", "", "", "")

  /** Database on disk and epoch in memory. */
  datatype Disk = Disk(db: Db, epoch: nat)

  datatype Write =
    | PutState(state: AuthState, epoch: nat)
    | PutAccount(account: string, epoch: nat)
    | Reset

  /** What the disk does with one batch. A reported fault says nothing about whether the
      batch landed. */
  datatype Fate = Fine | Fault(landed: bool)

  datatype Outcome = Saved | Stale | Failed

  function Landing(db: Db, write: Write): Db {
    match write
    case PutState(s, _) => Db(s.token, s.did, s.visitorID, db.account)
    case PutAccount(a, _) => db.(account := a)
    case Reset => EMPTY
  }

  predicate Current(write: Write, epoch: nat) {
    write.Reset? || write.epoch == epoch
  }

  predicate Lands(fate: Fate) { fate.Fine? || fate.landed }

  /** One critical section of SaveAuthState, SaveAuthAccount or ResetAuthState. */
  function Apply(d: Disk, write: Write, fate: Fate): (Disk, Outcome) {
    if !Current(write, d.epoch) then (d, Stale)
    else
      var db := if Lands(fate) then Landing(d.db, write) else d.db;
      if fate.Fault? then (Disk(db, d.epoch), Failed)
      else (Disk(db, if write.Reset? then d.epoch + 1 else d.epoch), Saved)
  }

  // ------------------------------------------- any interleaving of any clients

  datatype Op = Op(write: Write, fate: Fate)

  function Play(d: Disk, ops: seq<Op>): Disk {
    if ops == [] then d
    else
      var last := ops[|ops| - 1];
      Apply(Play(d, ops[..|ops| - 1]), last.write, last.fate).0
  }

  /** How many operations were successful resets. */
  function Resets(ops: seq<Op>): nat {
    if ops == [] then 0
    else Resets(ops[..|ops| - 1]) + if ops[|ops| - 1] == Op(Reset, Fine) then 1 else 0
  }

  /** Position just after the last successful reset (0 when there is none). */
  function GenerationStart(ops: seq<Op>): (i: nat)
    ensures i <= |ops|
  {
    if ops == [] then 0
    else if ops[|ops| - 1] == Op(Reset, Fine) then |ops|
    else GenerationStart(ops[..|ops| - 1])
  }

  /** The writes of a generation that reached the disk: those of its own epoch. */
  function Accepted(ops: seq<Op>, epoch: nat): seq<Write> {
    if ops == [] then []
    else
      var last := ops[|ops| - 1];
      Accepted(ops[..|ops| - 1], epoch)
      + if Current(last.write, epoch) && Lands(last.fate) then [last.write] else []
  }

  function FoldWrites(db: Db, writes: seq<Write>): Db {
    if writes == [] then db
    else Landing(FoldWrites(db, writes[..|writes| - 1]), writes[|writes| - 1])
  }

  /** Appending one operation to a generation applies it exactly when it is current and lands. */
  lemma FoldAccepted(db: Db, tail: seq<Op>, op: Op, epoch: nat)
    ensures FoldWrites(db, Accepted(tail + [op], epoch)) ==
              if Current(op.write, epoch) && Lands(op.fate)
              then Landing(FoldWrites(db, Accepted(tail, epoch)), op.write)
              else FoldWrites(db, Accepted(tail, epoch))
  {
    assert (tail + [op])[..|tail|] == tail;
    var writes := Accepted(tail, epoch);
    if Current(op.write, epoch) && Lands(op.fate) {
      assert (writes + [op.write])[..|writes|] == writes;
    } else {
      assert writes + [] == writes;
    }
  }

  /** The database is the fold of the writes accepted since the last successful reset. */
  ghost predicate FoldsGeneration(d: Disk, ops: seq<Op>, now: Disk) {
    && now.epoch == d.epoch + Resets(ops)
    && now.db == FoldWrites(if Resets(ops) == 0 then d.db else EMPTY, Accepted(ops[GenerationStart(ops)..], now.epoch))
  }

  lemma ResetStartsGeneration(d: Disk, ops: seq<Op>, now: Disk)
    requires ops != [] && ops[|ops| - 1] == Op(Reset, Fine) && FoldsGeneration(d, ops[..|ops| - 1], now)
    ensures FoldsGeneration(d, ops, Apply(now, Reset, Fine).0)
  {
    assert ops[|ops|..] == [];
    assert Accepted([], now.epoch + 1) == [];
  }

  lemma OpJoins(base: Db, tail: seq<Op>, op: Op, now: Disk)
    requires op != Op(Reset, Fine) && now.db == FoldWrites(base, Accepted(tail, now.epoch))
    ensures Apply(now, op.write, op.fate).0 == Disk(FoldWrites(base, Accepted(tail + [op], now.epoch)), now.epoch)
  {
    FoldAccepted(base, tail, op, now.epoch);
  }

  lemma TailGrows(ops: seq<Op>, n: nat, i: nat)
    requires i <= n < |ops|
    ensures ops[i..n + 1] == ops[..n][i..] + [ops[n]]
  {}

  lemma OtherJoinsGeneration(d: Disk, ops: seq<Op>, now: Disk)
    requires ops != [] && ops[|ops| - 1] != Op(Reset, Fine) && FoldsGeneration(d, ops[..|ops| - 1], now)
    ensures FoldsGeneration(d, ops, Apply(now, ops[|ops| - 1].write, ops[|ops| - 1].fate).0)
  {
    var n := |ops| - 1;
    var i := GenerationStart(ops[..n]);
    TailGrows(ops, n, i);
    assert ops[i..] == ops[i..n + 1];
    OpJoins(if Resets(ops[..n]) == 0 then d.db else EMPTY, ops[..n][i..], ops[n], now);
  }

  lemma {:induction false} PlayFolds(d: Disk, ops: seq<Op>)
    ensures FoldsGeneration(d, ops, Play(d, ops))
  {
    if ops != [] {
      var n := |ops| - 1;
      PlayFolds(d, ops[..n]);
      if ops[n] == Op(Reset, Fine) {
        ResetStartsGeneration(d, ops, Play(d, ops[..n]));
      } else {
        OtherJoinsGeneration(d, ops, Play(d, ops[..n]));
      }
    }
  }

  /** Linearizability against generations: after any interleaving, the epoch has risen once
      per successful reset, and the database is the fold of the writes accepted since the
      last one, starting from the empty database. */
  lemma GenerationSpec(d: Disk, ops: seq<Op>)
    ensures Play(d, ops).epoch == d.epoch + Resets(ops)
    ensures Play(d, ops).db ==
              FoldWrites(if Resets(ops) == 0 then d.db else EMPTY,
                         Accepted(ops[GenerationStart(ops)..], d.epoch + Resets(ops)))
  {
    PlayFolds(d, ops);
  }

  /** An operation reports success exactly when its epoch is the current one and the disk
      reported none; Stale exactly when its epoch is not the current one. */
  lemma SavedIffCurrent(d: Disk, ops: seq<Op>, op: Op)
    ensures var now := d.epoch + Resets(ops);
            var outcome := Apply(Play(d, ops), op.write, op.fate).1;
            && (outcome == Saved <==> Current(op.write, now) && op.fate.Fine?)
            && (outcome == Stale <==> !op.write.Reset? && op.write.epoch != now)
  {
    GenerationSpec(d, ops);
  }

  /** A token that is visible after a successful reset was written after that reset, by an
      operation carrying the epoch of the reset: nothing prepared earlier shows through. */
  lemma {:induction false} NoStaleWriteVisible(d: Disk, ops: seq<Op>) returns (i: nat)
    requires Resets(ops) > 0
    requires Play(d, ops).db.token != ""
    ensures GenerationStart(ops) <= i < |ops|
    ensures ops[i].write.PutState? && Lands(ops[i].fate)
    ensures ops[i].write.epoch == Play(d, ops).epoch == d.epoch + Resets(ops)
    ensures ops[i].write.state.token == Play(d, ops).db.token
  {
    var n := |ops| - 1;
    var last := ops[n];
    GenerationSpec(d, ops);
    GenerationSpec(d, ops[..n]);
    if last.write.PutState? && Lands(last.fate) && last.write.epoch == Play(d, ops[..n]).epoch {
      i := n;
    } else {
      i := NoStaleWriteVisible(d, ops[..n]);
    }
  }

  // ------------------------------------------------------------------- LevelDB

  const TOKEN_KEY := "m-team-auth"
  const DID_KEY := "m-team-did"
  const VISITOR_KEY := "m-team-visitorid"
  const ACCOUNT_KEY := "m-team-account"
  const STATE_KEYS := {TOKEN_KEY, DID_KEY, VISITOR_KEY}

  datatype BatchOp = Put(key: string, value: string) | Delete(key: string)

  function RunBatch(m: map<string, string>, batch: seq<BatchOp>): map<string, string> {
    if batch == [] then m
    else
      var before := RunBatch(m, batch[..|batch| - 1]);
      match batch[|batch| - 1]
      case Put(k, v) => before[k := v]
      case Delete(k) => before - {k}
  }

  function Value(m: map<string, string>, key: string): string {
    if key in m then m[key] else ""
  }

  function View(m: map<string, string>): Db {
    Db(Value(m, TOKEN_KEY), Value(m, DID_KEY), Value(m, VISITOR_KEY), Value(m, ACCOUNT_KEY))
  }

  function Field(s: AuthState, key: string): string
    requires key in STATE_KEYS
  {
    if key == TOKEN_KEY then s.token else if key == DID_KEY then s.did else s.visitorID
  }

  lemma KeysDiffer()
    ensures TOKEN_KEY != DID_KEY && TOKEN_KEY != VISITOR_KEY && DID_KEY != VISITOR_KEY
    ensures ACCOUNT_KEY !in STATE_KEYS
  {
    assert TOKEN_KEY[7] == 'a' && DID_KEY[7] == 'd' && VISITOR_KEY[7] == 'v';
    assert TOKEN_KEY[8] == 'u' && ACCOUNT_KEY[8] == 'c';
  }

  /** What one more operation of a batch makes of a key. */
  lemma OneMore(m: map<string, string>, batch: seq<BatchOp>, op: BatchOp, key: string)
    ensures Value(RunBatch(m, batch + [op]), key)
         == if key != op.key then Value(RunBatch(m, batch), key) else if op.Put? then op.value else ""
  {
    assert (batch + [op])[..|batch|] == batch;
  }

  /** The operation that saves one part of an identity: Put for a value, Delete for "". */
  function SaveOp(state: AuthState, key: string): BatchOp
    requires key in STATE_KEYS
  {
    if Field(state, key) == "" then Delete(key) else Put(key, Field(state, key))
  }

  /** The batch saves these parts of the identity, and leaves the account alone. */
  ghost predicate Saves(m: map<string, string>, batch: seq<BatchOp>, keys: set<string>, state: AuthState) {
    && keys <= STATE_KEYS
    && (forall k :: k in keys ==> Value(RunBatch(m, batch), k) == Field(state, k))
    && Value(RunBatch(m, batch), ACCOUNT_KEY) == Value(m, ACCOUNT_KEY)
  }

  lemma SavesMore(m: map<string, string>, batch: seq<BatchOp>, keys: set<string>, state: AuthState, key: string)
    requires Saves(m, batch, keys, state) && key in STATE_KEYS
    ensures Saves(m, batch + [SaveOp(state, key)], keys + {key}, state)
  {
    KeysDiffer();
    var op := SaveOp(state, key);
    OneMore(m, batch, op, ACCOUNT_KEY);
    forall k | k in keys + {key} ensures Value(RunBatch(m, batch + [op]), k) == Field(state, k) {
      OneMore(m, batch, op, k);
    }
  }

  lemma SavesAll(m: map<string, string>, batch: seq<BatchOp>, state: AuthState)
    requires Saves(m, batch, STATE_KEYS, state)
    ensures View(RunBatch(m, batch)) == Db(state.token, state.did, state.visitorID, View(m).account)
  {
    KeysDiffer();
    assert TOKEN_KEY in STATE_KEYS && DID_KEY in STATE_KEYS && VISITOR_KEY in STATE_KEYS;
  }

  class LevelDBStore {
    var db: map<string, string>
    var epoch: nat

    ghost function Now(): Disk
      reads this
    {
      Disk(View(db), epoch)
    }

    /** Open: whatever an earlier process left on disk, at epoch 0. */
    constructor Open(db: map<string, string>)
      ensures this.db == db && epoch == 0
    {
      this.db, epoch := db, 0;
    }

    /** The current contents, for the trace. */
    method Read() returns (d: Disk)
      ensures d == Now()
    {
      d := Disk(View(db), epoch);
    }

    /** leveldb's atomic Write: all of the batch or nothing. */
    method Write(batch: seq<BatchOp>, fate: Fate) returns (failed: bool)
      modifies this`db
      ensures db == if Lands(fate) then RunBatch(old(db), batch) else old(db)
      ensures failed == fate.Fault?
    {
      if Lands(fate) { db := RunBatch(db, batch); }
      failed := fate.Fault?;
    }

    /** Reads the three state keys in an arbitrary order; bad is the set of keys whose read
        fails on the medium. */
    method LoadAuthState(bad: set<string>) returns (state: AuthState, now: nat, ok: bool, failed: bool)
      ensures now == epoch
      ensures failed <==> bad * STATE_KEYS != {}
      ensures failed ==> state == NoAuth && !ok
      ensures !failed ==> state == Now().db.State() && (ok <==> db.Keys * STATE_KEYS != {})
    {
      KeysDiffer();
      state, ok := NoAuth, false;
      var rest := STATE_KEYS;
      while rest != {}
        invariant rest <= STATE_KEYS
        invariant forall k :: k in STATE_KEYS - rest ==> k !in bad && Field(state, k) == Value(db, k)
        invariant forall k :: k in rest ==> Field(state, k) == ""
        invariant ok <==> db.Keys * (STATE_KEYS - rest) != {}
      {
        var key :| key in rest;
        if key in bad {
          assert key in bad * STATE_KEYS;
          return NoAuth, epoch, false, true;
        }
        if key in db {
          if key == TOKEN_KEY { state := state.(token := db[key]); }
          else if key == DID_KEY { state := state.(did := db[key]); }
          else { state := state.(visitorID := db[key]); }
          ok := true;
          assert key in db.Keys * (STATE_KEYS - (rest - {key}));
        } else {
          assert db.Keys * (STATE_KEYS - (rest - {key})) == db.Keys * (STATE_KEYS - rest);
        }
        rest := rest - {key};
      }
      assert forall k :: k in STATE_KEYS ==> k in STATE_KEYS - rest;
      assert TOKEN_KEY in STATE_KEYS && DID_KEY in STATE_KEYS && VISITOR_KEY in STATE_KEYS;
      assert STATE_KEYS - rest == STATE_KEYS;
      now, failed := epoch, false;
    }

    method LoadAuthAccount(bad: set<string>) returns (account: string, failed: bool)
      ensures failed <==> ACCOUNT_KEY in bad
      ensures account == if failed then "" else Now().db.account
    {
      if ACCOUNT_KEY in bad { return "", true; }
      account, failed := Value(db, ACCOUNT_KEY), false;
    }

    /** Builds the batch in an arbitrary key order. */
    method SaveAuthState(state: AuthState, at: nat, fate: Fate) returns (saved: bool, failed: bool)
      modifies this`db
      ensures Now() == Apply(old(Now()), PutState(state, at), fate).0
      ensures saved == (Apply(old(Now()), PutState(state, at), fate).1 == Saved)
      ensures failed == (Apply(old(Now()), PutState(state, at), fate).1 == Failed)
    {
      if at != epoch { return false, false; }
      var batch: seq<BatchOp> := [];
      var rest := STATE_KEYS;
      while rest != {}
        invariant db == old(db) && rest <= STATE_KEYS && Saves(db, batch, STATE_KEYS - rest, state)
      {
        var key :| key in rest;
        SavesMore(db, batch, STATE_KEYS - rest, state, key);
        assert STATE_KEYS - rest + {key} == STATE_KEYS - (rest - {key});
        batch := batch + [SaveOp(state, key)];
        rest := rest - {key};
      }
      assert STATE_KEYS - rest == STATE_KEYS;
      SavesAll(db, batch, state);
      failed := Write(batch, fate);
      saved := !failed;
    }

    method SaveAuthAccount(account: string, at: nat, fate: Fate) returns (saved: bool, failed: bool)
      modifies this`db
      ensures Now() == Apply(old(Now()), PutAccount(account, at), fate).0
      ensures saved == (Apply(old(Now()), PutAccount(account, at), fate).1 == Saved)
      ensures failed == (Apply(old(Now()), PutAccount(account, at), fate).1 == Failed)
    {
      if at != epoch { return false, false; }
      KeysDiffer();
      var op := if account == "" then Delete(ACCOUNT_KEY) else Put(ACCOUNT_KEY, account);
      assert [op][..0] == [];
      assert forall k :: k in STATE_KEYS ==> Value(RunBatch(db, [op]), k) == Value(db, k);
      assert TOKEN_KEY in STATE_KEYS && DID_KEY in STATE_KEYS && VISITOR_KEY in STATE_KEYS;
      failed := Write([op], fate);
      saved := !failed;
    }

    /** Deletes all four keys in one batch and then raises the epoch. */
    method ResetAuthState(fate: Fate) returns (now: nat, failed: bool)
      modifies this
      ensures Now() == Apply(old(Now()), Reset, fate).0
      ensures now == epoch
      ensures failed == fate.Fault?
    {
      var keys := [TOKEN_KEY, DID_KEY, VISITOR_KEY, ACCOUNT_KEY];
      var batch: seq<BatchOp> := [];
      for i := 0 to |keys|
        invariant forall j :: 0 <= j < i ==> keys[j] !in RunBatch(db, batch)
      {
        assert (batch + [Delete(keys[i])])[..|batch|] == batch;
        batch := batch + [Delete(keys[i])];
      }
      assert keys[0] !in RunBatch(db, batch) && keys[1] !in RunBatch(db, batch)
          && keys[2] !in RunBatch(db, batch) && keys[3] !in RunBatch(db, batch);
      failed := Write(batch, fate);
      if !failed { epoch := epoch + 1; }
      now := epoch;
    }
  }
}
