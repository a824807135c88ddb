/** Where account binding ends: the configured user name must not be empty, and two
    resolutions must not run at once. */
module BindingLimits {
  import opened Domain
  import opened Store
  import opened World
  import opened RefreshSpec
  import opened Binding
  import Auth = AuthSpec

  /** A successful resolution yields a token of the configured user. */
  ghost predicate YieldsOwnToken(w: World, cfg: Config) {
    var r := Resolve(w, cfg);
    r.out.Success? ==> Auth.IssuedIn(r.w.log, r.out.value.state.token, cfg.auth.username)
  }

  const QUIET := Draw(None, None, None, None, None, "x", "", 0, DiskDraw(0, Fine, {}, Leaf(Opaque)))

  function LegacyWorld(): World {
    World((n: nat) => QUIET, 0, [], Disk(Db("token", "did", "visitor", ""), 0), [], [], 0)
  }

  /** In password mode, resolution yields the user's own token from every safe world exactly
      when the configured user name is not empty, which is what validation requires. */
  lemma OwnTokenIffNamed(cfg: Config)
    requires cfg.auth.tokenAuth.Empty()
    ensures (forall w: World :: Safe(w) ==> YieldsOwnToken(w, cfg)) <==> cfg.auth.username != ""
  {
    if cfg.auth.username != "" {
      forall w: World | Safe(w) ensures YieldsOwnToken(w, cfg) { ResolveMeaning(w, cfg); }
    } else {
      var w := LegacyWorld();
      assert Safe(w);
      var w1 := w.Locked();
      var w2 := w1.Locked();
      assert QUIET.disk.bad * STATE_KEYS == {} && QUIET.disk.bad * {ACCOUNT_KEY} == {};
      assert w2 == w.(t := 2);
      assert Resolve(w, cfg).out == Success(Identity(AuthState("token", "did", "visitor"), 0));
      assert Resolve(w, cfg).w.log == [];
      assert !YieldsOwnToken(w, cfg);
    }
  }

  /** From here on the disk works and nobody else resets. */
  ghost predicate Calm(w: World) { forall i: nat :: i >= w.t ==> w.tape(i) == QUIET }

  /** The critical sections of a resolution that finds another account's identity, up to and
      including the binding of its own user. */
  function Rebound(w: World, cfg: Config): World {
    var reset := ResetIdentity(w.Locked().Locked(), Resolving).0;
    Guarded(reset, Resolving, PutAccount(cfg.auth.username, reset.disk.epoch)).0
  }

  lemma CalmWrite(w: World, who: Who, write: Write)
    requires Calm(w)
    ensures w.Locked() == w.Tick() && Calm(w.Tick()) && !w.LoadFails(STATE_KEYS) && !w.LoadFails({ACCOUNT_KEY})
    ensures var (w1, outcome) := w.Written(who, write);
            && Calm(w1) && w1.log == w.log
            && outcome == (if Current(write, w.disk.epoch) then Saved else Stale)
            && w1.disk == Apply(w.disk, write, Fine).0
  {
    assert w.tape(w.t) == QUIET;
    assert QUIET.disk.bad * STATE_KEYS == {} && QUIET.disk.bad * {ACCOUNT_KEY} == {};
    assert w.Tick().Interfered(0) == w.Tick();
  }

  /** Where a resolution stands after these critical sections, and what they leave. */
  lemma Rebinds(w: World, cfg: Config)
    requires Calm(w) && cfg.auth.tokenAuth.Empty()
    requires w.disk.db.State().Complete() && w.disk.db.account != cfg.auth.username
    ensures var z := Rebound(w, cfg);
            && Resolve(w, cfg) == EnsureVisitor(z, cfg, NoAuth, z.disk.epoch)
            && Calm(z) && z.log == w.log
            && z.disk == Disk(EMPTY.(account := cfg.auth.username), w.disk.epoch + 1)
  {
    CalmWrite(w, Resolving, Reset);
    CalmWrite(w.Tick(), Resolving, Reset);
    var w2 := w.Tick().Tick();
    CalmWrite(w2, Resolving, Reset);
    var reset := ResetIdentity(w2, Resolving).0;
    CalmWrite(reset, Resolving, PutAccount(cfg.auth.username, reset.disk.epoch));
  }

  /** The two reads of Resolve are separate critical sections, so binding rests on runs being
      serial. Let one resolution for a user read the identity of another account, and let a second
      one, for the same user, do its critical sections up to its binding before the first one
      reads the account. Then the first one succeeds, on a calm disk, with a token that no login
      of its user obtained, at an epoch that is already over. */
  lemma TwoResolutionsMix(w: World, cfg: Config)
    requires Calm(w) && Safe(w) && cfg.auth.tokenAuth.Empty() && cfg.auth.username != ""
    requires w.disk.db.State().Complete() && w.disk.db.account != cfg.auth.username
    requires !Auth.IssuedIn(w.log, w.disk.db.token, cfg.auth.username)
    ensures var first := w.Locked();
            var second := Rebound(first, cfg);
            var third := second.Locked();
            var r := Adopt(third, cfg, first.disk.db.State(), first.disk.epoch, third.disk.db.account);
            && Resolve(first, cfg) == EnsureVisitor(second, cfg, NoAuth, second.disk.epoch)
            && r.out == Success(Identity(w.disk.db.State(), w.disk.epoch))
            && !Auth.IssuedIn(r.w.log, r.out.value.state.token, cfg.auth.username)
            && w.disk.epoch < r.w.disk.epoch
  {
    CalmWrite(w, Resolving, Reset);
    var first := w.Locked();
    Rebinds(first, cfg);
    CalmWrite(Rebound(first, cfg), Resolving, Reset);
  }
}
