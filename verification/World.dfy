/** Everything outside the program as one arbitrary tape of answers, the traces that runs
    leave behind, and the process object through which the program touches both. */
module World {
  import opened Domain
  import opened Protocol
  import opened Store

  // ---------------------------------------------------------------- requests

  datatype Verb = GET | POST

  /** What a call sends besides the common signature parameters. */
  datatype Args =
    | NoArgs
    | Items(name: string, value: string)
    | Members(ids: seq<int>)
    | ForumRef(fid: int)
    | TopicRef(tid: int)

  datatype Form = Call(path: string, args: Args) | Login(username: string, password: string, otp: bool)

  /** apicore.Request */
  datatype Request = Request(
    url: string,
    verb: Verb,
    form: Form,
    headers: map<string, string>,
    timeout: int,
    proxy: string,
    disableRedirect: bool,
    userAgent: string,
    cookieScope: string)

  // -------------------------------------------------------------- the oracle

  datatype Interrupt = Cancel | Deadline

  function InterruptError(i: Interrupt): ForeignError {
    if i.Cancel? then Leaf(Canceled) else Leaf(DeadlineExceeded)
  }

  /** The state of the disk at one store operation, and how many resets of other clients
      were completed before the store's mutex was obtained. */
  datatype DiskDraw = DiskDraw(resets: nat, fate: Fate, bad: set<string>, err: ForeignError)

  /** One answer of the outside world. Every step uses the fields that concern it. */
  datatype Draw = Draw(
    ctx: Option<Interrupt>,
    resp: Option<Response>,
    err: Option<ForeignError>,
    totpFault: Option<ForeignError>,
    randomFault: Option<ForeignError>,
    text: NonEmptyString,
    query: string,
    pick: nat,
    disk: DiskDraw)

  // --------------------------------------------------------------- the traces

  /** One attempted request: not sent because the context was over, or sent. */
  datatype Entry =
    | Refused(interrupt: Interrupt)
    | Sent(req: Request, resp: Option<Response>, err: Option<ForeignError>)

  datatype Who = Elsewhere | Resolving | Expiring | Snapshotting

  /** One critical section that wrote (or refused to write): what it was to write, what the disk
      did, how it ended, the disk it left behind, and how many requests were attempted before. */
  datatype StoreEvent = StoreEvent(who: Who, write: Write, fate: Fate, outcome: Outcome, disk: Disk, sent: nat)

  datatype MessageKind =
    | RefreshFailed
    | RefreshSucceeded
    | IdentityChanged
    | TokenAuthExpired
    | PasswordAuthExpiredRetry
    | PasswordAuthExpiredNextRun
    | ReloginFailed
    | IdentityResetFailed

  datatype World = World(
    tape: nat -> Draw,
    t: nat,
    log: seq<Entry>,
    disk: Disk,
    events: seq<StoreEvent>,
    notes: seq<MessageKind>,
    sessions: nat)
  {
    function Here(): Draw { tape(t) }

    function Tick(): World { this.(t := t + 1) }

    function Record(e: Entry): World { this.(log := log + [e]) }

    function Commit(who: Who, write: Write, fate: Fate): (World, Outcome) {
      var (d, outcome) := Apply(disk, write, fate);
      (this.(disk := d, events := events + [StoreEvent(who, write, fate, outcome, d, |log|)]), outcome)
    }

    /** Successful resets by other clients of the same store. */
    function Interfered(resets: nat): World {
      if resets == 0 then this
      else Interfered(resets - 1).Commit(Elsewhere, Reset, Fine).0
    }

    function Locked(): World { Tick().Interfered(Here().disk.resets) }

    function Written(who: Who, write: Write): (World, Outcome) {
      Locked().Commit(who, write, Here().disk.fate)
    }

    function LoadFails(keys: set<string>): bool { Here().disk.bad * keys != {} }
  }

  /** The outside world as the running process meets it: it draws from the tape, keeps the
      traces, and lets other clients reset the store before each critical section. */
  class Process {
    const tape: nat -> Draw
    const store: LevelDBStore
    var t: nat
    var log: seq<Entry>
    var events: seq<StoreEvent>
    var notes: seq<MessageKind>
    var sessions: nat

    ghost function View(): World
      reads this, store
    {
      World(tape, t, log, store.Now(), events, notes, sessions)
    }

    constructor (tape: nat -> Draw, store: LevelDBStore, log: seq<Entry>)
      ensures this.tape == tape && this.store == store
      ensures View() == World(tape, 0, log, store.Now(), [], [], 0)
    {
      this.tape, this.store := tape, store;
      t, this.log, events, notes, sessions := 0, log, [], [], 0;
    }

    method Next() returns (d: Draw)
      modifies this`t
      ensures d == old(View()).Here() && View() == old(View()).Tick()
    {
      d := tape(t);
      t := t + 1;
    }

    method Record(e: Entry)
      modifies this`log
      ensures View() == old(View()).Record(e)
    {
      log := log + [e];
    }

    /** Waits for the store's mutex while other clients may reset. */
    method Lock() returns (d: DiskDraw)
      modifies this, store
      ensures d == old(View()).Here().disk
      ensures View() == old(View()).Locked()
    {
      var draw := Next();
      d := draw.disk;
      ghost var w := View();
      for i := 0 to d.resets
        invariant View() == w.Interfered(i)
      {
        var now, failed := store.ResetAuthState(Fine);
        events := events + [StoreEvent(Elsewhere, Reset, Fine, Saved, Disk(EMPTY, now), |log|)];
      }
    }

    method LoadAuthState() returns (state: AuthState, epoch: nat, err: Option<ForeignError>)
      modifies this, store
      ensures View() == old(View()).Locked()
      ensures epoch == View().disk.epoch
      ensures err == if old(View()).LoadFails(STATE_KEYS) then Some(old(View()).Here().disk.err) else None
      ensures state == if err.Some? then NoAuth else View().disk.db.State()
    {
      var d := Lock();
      var ok, failed;
      state, epoch, ok, failed := store.LoadAuthState(d.bad);
      err := if failed then Some(d.err) else None;
    }

    method LoadAuthAccount() returns (account: string, err: Option<ForeignError>)
      modifies this, store
      ensures View() == old(View()).Locked()
      ensures err == if old(View()).LoadFails({ACCOUNT_KEY}) then Some(old(View()).Here().disk.err) else None
      ensures account == if err.Some? then "" else View().disk.db.account
    {
      var d := Lock();
      var failed;
      account, failed := store.LoadAuthAccount(d.bad);
      assert ACCOUNT_KEY in d.bad <==> ACCOUNT_KEY in d.bad * {ACCOUNT_KEY};
      err := if failed then Some(d.err) else None;
    }

    method SaveAuthState(who: Who, state: AuthState, epoch: nat) returns (saved: bool, err: Option<ForeignError>)
      modifies this, store
      ensures View() == old(View()).Written(who, PutState(state, epoch)).0
      ensures saved == (old(View()).Written(who, PutState(state, epoch)).1 == Saved)
      ensures err == if old(View()).Written(who, PutState(state, epoch)).1 == Failed
                     then Some(old(View()).Here().disk.err) else None
    {
      var d := Lock();
      var failed;
      saved, failed := store.SaveAuthState(state, epoch, d.fate);
      var now := store.Read();
      var outcome := if saved then Saved else if failed then Failed else Stale;
      events := events + [StoreEvent(who, PutState(state, epoch), d.fate, outcome, now, |log|)];
      err := if failed then Some(d.err) else None;
    }

    method SaveAuthAccount(who: Who, account: string, epoch: nat) returns (saved: bool, err: Option<ForeignError>)
      modifies this, store
      ensures View() == old(View()).Written(who, PutAccount(account, epoch)).0
      ensures saved == (old(View()).Written(who, PutAccount(account, epoch)).1 == Saved)
      ensures err == if old(View()).Written(who, PutAccount(account, epoch)).1 == Failed
                     then Some(old(View()).Here().disk.err) else None
    {
      var d := Lock();
      var failed;
      saved, failed := store.SaveAuthAccount(account, epoch, d.fate);
      var now := store.Read();
      var outcome := if saved then Saved else if failed then Failed else Stale;
      events := events + [StoreEvent(who, PutAccount(account, epoch), d.fate, outcome, now, |log|)];
      err := if failed then Some(d.err) else None;
    }

    method ResetAuthState(who: Who) returns (epoch: nat, err: Option<ForeignError>)
      modifies this, store
      ensures View() == old(View()).Written(who, Reset).0
      ensures epoch == View().disk.epoch
      ensures err == if old(View()).Written(who, Reset).1 == Failed
                     then Some(old(View()).Here().disk.err) else None
    {
      var d := Lock();
      var failed;
      epoch, failed := store.ResetAuthState(d.fate);
      var now := store.Read();
      events := events + [StoreEvent(who, Reset, d.fate, if failed then Failed else Saved, now, |log|)];
      err := if failed then Some(d.err) else None;
    }
  }
}
