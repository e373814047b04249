/** `ConfigureExperiments` and `CleanupExperiments` of the typed-experiment
    configurator (pkg/chaosmesh). Configuring creates every owned experiment
    and waits for it to be injected, then enables every borrowed one,
    stopping at the first failure; cleaning up deletes every owned
    experiment and pauses every borrowed one, logging failures and going
    on. Each map range visits kinds in an order of its own. */
module PkgConfigurator {
  import opened Types
  import opened Cluster
  import opened Lifecycle
  import opened Loops
  import opened Ordering
  import opened Experiments

  /** The order each of the four map ranges happens to take. */
  datatype Orders = Orders(setUp: seq<Gvk>, enable: seq<Gvk>, tearDown: seq<Gvk>, pause: seq<Gvk>)

  predicate ValidOrders(reg: Registry, o: Orders)
  {
    && IsIterationOrder(o.setUp, reg.chaos) && IsIterationOrder(o.tearDown, reg.chaos)
    && IsIterationOrder(o.enable, reg.existing) && IsIterationOrder(o.pause, reg.existing)
  }

  /** The loop bodies, one item per visited pair. */
  function SetUps(ps: seq<(Gvk, Document)>): (ops: seq<Op>)
    ensures |ops| == |ps|
    ensures forall i :: 0 <= i < |ps| ==> ops[i] == SetUpChaos(ps[i].0, Inline(ps[i].1))
  {
    seq(|ps|, i requires 0 <= i < |ps| => SetUpChaos(ps[i].0, Inline(ps[i].1)))
  }

  function Enables(rs: seq<(Gvk, NamespacedName)>): (ops: seq<Op>)
    ensures |ops| == |rs|
    ensures forall i :: 0 <= i < |rs| ==> ops[i] == Enable(rs[i].0, rs[i].1)
  {
    seq(|rs|, i requires 0 <= i < |rs| => Enable(rs[i].0, rs[i].1))
  }

  function TearDowns(ps: seq<(Gvk, Document)>): (ops: seq<Op>)
    ensures |ops| == |ps|
    ensures forall i :: 0 <= i < |ps| ==> ops[i] == TearDownChaos(ps[i].0, Inline(ps[i].1))
  {
    seq(|ps|, i requires 0 <= i < |ps| => TearDownChaos(ps[i].0, Inline(ps[i].1)))
  }

  function Pauses(rs: seq<(Gvk, NamespacedName)>): (ops: seq<Op>)
    ensures |ops| == |rs|
    ensures forall i :: 0 <= i < |rs| ==> ops[i] == Pause(rs[i].0, rs[i].1)
  {
    seq(|rs|, i requires 0 <= i < |rs| => Pause(rs[i].0, rs[i].1))
  }

  function DocKey(p: (Gvk, Document)): Key
  {
    KeyOf(p.1)
  }

  function RefKeyOf(p: (Gvk, NamespacedName)): Key
  {
    RefKey(p.0, p.1)
  }

  /** The keys owned experiments are created and deleted under. */
  function Keys(ps: seq<(Gvk, Document)>): seq<Key>
  {
    MapSeq(DocKey, ps)
  }

  /** The keys borrowed experiments are fetched under. */
  function RefKeys(rs: seq<(Gvk, NamespacedName)>): seq<Key>
  {
    MapSeq(RefKeyOf, rs)
  }

  /** What setting up owned experiments achieves: each is created under its
      own key, then confirmed under the kind it was registered with. */
  function SetUpPlan(ps: seq<(Gvk, Document)>): seq<Milestone>
  {
    if ps == [] then []
    else
      var (g, d) := ps[0];
      [Created(KeyOf(d)), Confirmed(Key(g, d.namespace, d.name))] + SetUpPlan(ps[1..])
  }

  function UpdatedRef(p: (Gvk, NamespacedName)): Milestone
  {
    Updated(RefKey(p.0, p.1))
  }

  /** What enabling or pausing borrowed experiments achieves: each is
      written back once. */
  function TogglePlan(rs: seq<(Gvk, NamespacedName)>): seq<Milestone>
  {
    MapSeq(UpdatedRef, rs)
  }

  lemma {:induction false} SetUpsAttempt(dec: Decoder, ps: seq<(Gvk, Document)>)
    ensures AllAttempts(dec, SetUps(ps)) == Calls(Keys(ps), [], [])
    decreases |ps|
  {
    if ps != [] {
      assert SetUps(ps)[1..] == SetUps(ps[1..]);
      assert Keys(ps) == [DocKey(ps[0])] + Keys(ps[1..]);
      SetUpsAttempt(dec, ps[1..]);
    }
  }

  lemma {:induction false} TearDownsAttempt(dec: Decoder, ps: seq<(Gvk, Document)>)
    ensures AllAttempts(dec, TearDowns(ps)) == Calls([], Keys(ps), [])
    decreases |ps|
  {
    if ps != [] {
      assert TearDowns(ps)[1..] == TearDowns(ps[1..]);
      assert Keys(ps) == [DocKey(ps[0])] + Keys(ps[1..]);
      TearDownsAttempt(dec, ps[1..]);
    }
  }

  lemma {:induction false} EnablesAttempt(dec: Decoder, rs: seq<(Gvk, NamespacedName)>)
    ensures AllAttempts(dec, Enables(rs)) == Calls([], [], RefKeys(rs))
    decreases |rs|
  {
    if rs != [] {
      assert Enables(rs)[1..] == Enables(rs[1..]);
      assert RefKeys(rs) == [RefKeyOf(rs[0])] + RefKeys(rs[1..]);
      EnablesAttempt(dec, rs[1..]);
    }
  }

  lemma {:induction false} PausesAttempt(dec: Decoder, rs: seq<(Gvk, NamespacedName)>)
    ensures AllAttempts(dec, Pauses(rs)) == Calls([], [], RefKeys(rs))
    decreases |rs|
  {
    if rs != [] {
      assert Pauses(rs)[1..] == Pauses(rs[1..]);
      assert RefKeys(rs) == [RefKeyOf(rs[0])] + RefKeys(rs[1..]);
      PausesAttempt(dec, rs[1..]);
    }
  }

  lemma {:induction false} SetUpsPlanned(dec: Decoder, ps: seq<(Gvk, Document)>)
    ensures AllPlanned(dec, SetUps(ps)) == SetUpPlan(ps)
    decreases |ps|
  {
    if ps != [] {
      assert SetUps(ps)[1..] == SetUps(ps[1..]);
      SetUpsPlanned(dec, ps[1..]);
    }
  }

  lemma {:induction false} EnablesPlanned(dec: Decoder, rs: seq<(Gvk, NamespacedName)>)
    ensures AllPlanned(dec, Enables(rs)) == TogglePlan(rs)
    decreases |rs|
  {
    if rs != [] {
      assert Enables(rs)[1..] == Enables(rs[1..]);
      assert TogglePlan(rs) == [UpdatedRef(rs[0])] + TogglePlan(rs[1..]);
      EnablesPlanned(dec, rs[1..]);
    }
  }

  /** The calls the first `n` configure items plan: creates for owned
      experiments, then fetches for borrowed ones. */
  lemma ConfigurePrefixAttempts(dec: Decoder, ps: seq<(Gvk, Document)>, rs: seq<(Gvk, NamespacedName)>, n: nat)
    requires n <= |ps| + |rs|
    ensures AllAttempts(dec, (SetUps(ps) + Enables(rs))[..n]) ==
      if n <= |ps| then Calls(Keys(ps)[..n], [], [])
      else Calls(Keys(ps), [], RefKeys(rs)[..n - |ps|])
  {
    if n <= |ps| {
      assert (SetUps(ps) + Enables(rs))[..n] == SetUps(ps[..n]);
      SetUpsAttempt(dec, ps[..n]);
      assert Keys(ps[..n]) == Keys(ps)[..n];
    } else {
      assert (SetUps(ps) + Enables(rs))[..n] == SetUps(ps) + Enables(rs[..n - |ps|]);
      AllAttemptsAppend(dec, SetUps(ps), Enables(rs[..n - |ps|]));
      SetUpsAttempt(dec, ps);
      EnablesAttempt(dec, rs[..n - |ps|]);
      assert RefKeys(rs[..n - |ps|]) == RefKeys(rs)[..n - |ps|];
      assert Keys(ps) + [] == Keys(ps);
    }
  }

  /** The calls the first `n` cleanup items plan: deletes for owned
      experiments, then fetches for borrowed ones. */
  lemma CleanupPrefixAttempts(dec: Decoder, ps: seq<(Gvk, Document)>, rs: seq<(Gvk, NamespacedName)>, n: nat)
    requires |ps| <= n <= |ps| + |rs|
    ensures AllAttempts(dec, (TearDowns(ps) + Pauses(rs))[..n]) == Calls([], Keys(ps), RefKeys(rs)[..n - |ps|])
  {
    assert (TearDowns(ps) + Pauses(rs))[..n] == TearDowns(ps) + Pauses(rs[..n - |ps|]);
    AllAttemptsAppend(dec, TearDowns(ps), Pauses(rs[..n - |ps|]));
    TearDownsAttempt(dec, ps);
    PausesAttempt(dec, rs[..n - |ps|]);
    assert RefKeys(rs[..n - |ps|]) == RefKeys(rs)[..n - |ps|];
    assert Keys(ps) + [] == Keys(ps);
  }

  /** The owned experiments, as the set-up and tear-down ranges visit them. */
  function Owned(reg: Registry, order: seq<Gvk>): seq<(Gvk, Document)>
    requires IsIterationOrder(order, reg.chaos)
  {
    Flatten(order, reg.chaos)
  }

  /** The borrowed references, as the enable and pause ranges visit them. */
  function Borrowed(reg: Registry, order: seq<Gvk>): seq<(Gvk, NamespacedName)>
    requires IsIterationOrder(order, reg.existing)
  {
    Flatten(order, reg.existing)
  }

  /** The two configure loops' items, the owned ones first. */
  function ConfigureWork(reg: Registry, o: Orders): seq<Op>
    requires ValidOrders(reg, o)
  {
    SetUps(Owned(reg, o.setUp)) + Enables(Borrowed(reg, o.enable))
  }

  /** The two cleanup loops' items, the owned ones first. */
  function CleanupWork(reg: Registry, o: Orders): seq<Op>
    requires ValidOrders(reg, o)
  {
    TearDowns(Owned(reg, o.tearDown)) + Pauses(Borrowed(reg, o.pause))
  }

  /** The first loop of `ConfigureExperiments`. */
  function SetUpPhase(env: Env, reg: Registry, o: Orders, t: Trace): Run
    requires ValidOrders(reg, o)
  {
    StepInAppends(env);
    Loop(StepIn(env), StopOnError, SetUps(Owned(reg, o.setUp)), t)
  }

  /** `ConfigureExperiments`: the borrowed experiments are enabled only if
      every owned one was set up. */
  function Configure(env: Env, reg: Registry, o: Orders, t: Trace): (r: Run)
    requires ValidOrders(reg, o)
    ensures |r.trace| >= |t| && r.trace[..|t|] == t
  {
    StepInAppends(env);
    var r1 := SetUpPhase(env, reg, o, t);
    if r1.outcome.Ok? then Loop(StepIn(env), StopOnError, Enables(Borrowed(reg, o.enable)), r1.trace)
    else r1
  }

  /** `CleanupExperiments`: the borrowed experiments are paused after every
      owned one was deleted or failed to be. */
  function Cleanup(env: Env, reg: Registry, o: Orders, t: Trace): (r: Run)
    requires ValidOrders(reg, o)
    ensures |r.trace| >= |t| && r.trace[..|t|] == t
    ensures !r.outcome.Err?
  {
    StepInAppends(env);
    var r1 := Loop(StepIn(env), LogAndContinue, TearDowns(Owned(reg, o.tearDown)), t);
    if r1.outcome.Ok? then Loop(StepIn(env), LogAndContinue, Pauses(Borrowed(reg, o.pause)), r1.trace)
    else r1
  }

  /** The two configure loops behave as one loop over both work lists. */
  lemma ConfigureIsOneLoop(env: Env, reg: Registry, o: Orders, t: Trace)
    requires ValidOrders(reg, o)
    ensures Appends(StepIn(env))
    ensures Configure(env, reg, o, t) == Loop(StepIn(env), StopOnError, ConfigureWork(reg, o), t)
  {
    StepInAppends(env);
    LoopAppend(StepIn(env), StopOnError, SetUps(Owned(reg, o.setUp)), Enables(Borrowed(reg, o.enable)), t);
  }

  lemma CleanupIsOneLoop(env: Env, reg: Registry, o: Orders, t: Trace)
    requires ValidOrders(reg, o)
    ensures Appends(StepIn(env))
    ensures Cleanup(env, reg, o, t) == Loop(StepIn(env), LogAndContinue, CleanupWork(reg, o), t)
  {
    StepInAppends(env);
    LoopAppend(StepIn(env), LogAndContinue, TearDowns(Owned(reg, o.tearDown)), Pauses(Borrowed(reg, o.pause)), t);
  }

  /** What the calls of the first `n` configure items look like: creates
      in visiting order, fetches only after every create, all of them when
      every item ran. */
  lemma ConfigurePrefixCalls(dec: Decoder, owned: seq<(Gvk, Document)>, borrowed: seq<(Gvk, NamespacedName)>, n: nat)
    requires n <= |owned| + |borrowed|
    ensures var c := AllAttempts(dec, (SetUps(owned) + Enables(borrowed))[..n]);
      && c.deletes == []
      && c.creates <= Keys(owned)
      && c.fetches <= RefKeys(borrowed)
      && (c.fetches != [] ==> c.creates == Keys(owned))
      && (n == |owned| + |borrowed| ==> c.creates == Keys(owned) && c.fetches == RefKeys(borrowed))
  {
    ConfigurePrefixAttempts(dec, owned, borrowed, n);
    if n <= |owned| {
      if n == |owned| + |borrowed| {
        assert Keys(owned)[..n] == Keys(owned);
      }
    } else if n == |owned| + |borrowed| {
      assert RefKeys(borrowed)[..n - |owned|] == RefKeys(borrowed);
    }
  }

  /** The calls a stop-on-error loop over set-ups then enables makes, for
      any step that keeps to its items' plans. */
  lemma WorkCalls(step: Step, dec: Decoder, owned: seq<(Gvk, Document)>, borrowed: seq<(Gvk, NamespacedName)>, t: Trace)
    requires Appends(step) && KeepsCalls(step, dec)
    ensures var r := Loop(step, StopOnError, SetUps(owned) + Enables(borrowed), t);
      var c := CallsOf(r.trace[|t|..]);
      && c.deletes == []
      && c.creates <= Keys(owned)
      && c.fetches <= RefKeys(borrowed)
      && (c.fetches != [] ==> c.creates == Keys(owned))
      && (r.outcome.Ok? ==> c.creates == Keys(owned) && c.fetches == RefKeys(borrowed))
  {
    var ops := SetUps(owned) + Enables(borrowed);
    LoopCalls(step, dec, StopOnError, ops, t);
    LoopRan(step, StopOnError, ops, t);
    ConfigurePrefixCalls(dec, owned, borrowed, Ran(step, StopOnError, ops, t));
  }

  /** Configuring creates owned experiments in visiting order and fetches
      borrowed ones only once every owned one was created; it never
      deletes. When it succeeds it made every planned call. */
  lemma ConfigureCalls(env: Env, reg: Registry, o: Orders, t: Trace)
    requires ValidOrders(reg, o)
    ensures var r := Configure(env, reg, o, t);
      var c := CallsOf(r.trace[|t|..]);
      var owned, borrowed := Owned(reg, o.setUp), Borrowed(reg, o.enable);
      && c.deletes == []
      && c.creates <= Keys(owned)
      && c.fetches <= RefKeys(borrowed)
      && (c.fetches != [] ==> c.creates == Keys(owned))
      && (r.outcome.Ok? ==> c.creates == Keys(owned) && c.fetches == RefKeys(borrowed))
  {
    ConfigureIsOneLoop(env, reg, o, t);
    assert KeepsCalls(StepIn(env), env.decoder) by {
      StepInFaithful(env);
    }
    WorkCalls(StepIn(env), env.decoder, Owned(reg, o.setUp), Borrowed(reg, o.enable), t);
  }

  /** What configuring achieves is a prefix of its plan (every owned
      experiment created and confirmed, then every borrowed one written
      back), and all of it when it succeeds. */
  lemma ConfigureEffects(env: Env, reg: Registry, o: Orders, t: Trace)
    requires ValidOrders(reg, o)
    ensures var r := Configure(env, reg, o, t);
      var e := Collect(r.trace[|t|..], EffectView);
      var plan := SetUpPlan(Owned(reg, o.setUp)) + TogglePlan(Borrowed(reg, o.enable));
      && e <= plan
      && (r.outcome.Ok? ==> e == plan)
  {
    ConfigureIsOneLoop(env, reg, o, t);
    var owned, borrowed := Owned(reg, o.setUp), Borrowed(reg, o.enable);
    assert KeepsEffects(StepIn(env), env.decoder) by {
      StepInFaithful(env);
    }
    LoopEffects(StepIn(env), env.decoder, ConfigureWork(reg, o), t);
    AllPlannedAppend(env.decoder, SetUps(owned), Enables(borrowed));
    SetUpsPlanned(env.decoder, owned);
    EnablesPlanned(env.decoder, borrowed);
  }

  /** The set-up loop fetches nothing. */
  lemma SetUpPhaseFetchesNothing(env: Env, reg: Registry, o: Orders, t: Trace)
    requires ValidOrders(reg, o)
    ensures CallsOf(SetUpPhase(env, reg, o, t).trace[|t|..]).fetches == []
  {
    var owned := Owned(reg, o.setUp);
    var step, ops := StepIn(env), SetUps(owned);
    assert Appends(step) && KeepsCalls(step, env.decoder) by {
      StepInFaithful(env);
    }
    LoopCalls(step, env.decoder, StopOnError, ops, t);
    var n := Ran(step, StopOnError, ops, t);
    assert ops[..n] == SetUps(owned[..n]);
    SetUpsAttempt(env.decoder, owned[..n]);
  }

  /** A configure run is the set-up loop's events followed, when that loop
      succeeded, by the enable loop's. */
  lemma ConfigureSplits(env: Env, reg: Registry, o: Orders, t: Trace)
    requires ValidOrders(reg, o)
    ensures var r1 := SetUpPhase(env, reg, o, t);
      var r := Configure(env, reg, o, t);
      && |t| <= |r1.trace| <= |r.trace|
      && r.trace[|t|..] == r1.trace[|t|..] + r.trace[|r1.trace|..]
      && (r1.outcome.Ok? ==> r == Loop(StepIn(env), StopOnError, Enables(Borrowed(reg, o.enable)), r1.trace))
      && (!r1.outcome.Ok? ==> r == r1)
  {
    StepInAppends(env);
    var r1 := SetUpPhase(env, reg, o, t);
    var r := Configure(env, reg, o, t);
    if r1.outcome.Ok? {
      var r2 := Loop(StepIn(env), StopOnError, Enables(Borrowed(reg, o.enable)), r1.trace);
      assert r == r2;
      PrefixSplit(t, r1.trace, r2.trace);
    } else {
      assert r == r1;
      PrefixSplit(t, r1.trace, r1.trace);
    }
  }

  lemma PrefixSplit<T>(t: seq<T>, x: seq<T>, z: seq<T>)
    requires |t| <= |x| <= |z| && x[..|t|] == t && z[..|x|] == x
    ensures z[|t|..] == x[|t|..] + z[|x|..]
  {
    assert z[|t|..] == z[|t|..|x|] + z[|x|..];
  }

  /** Borrowed experiments are touched only once every owned experiment
      has been created and confirmed injected. */
  lemma EnableAfterSetUp(env: Env, reg: Registry, o: Orders, t: Trace)
    requires ValidOrders(reg, o)
    ensures var s := Configure(env, reg, o, t).trace[|t|..];
      CallsOf(s).fetches != [] ==> SetUpPlan(Owned(reg, o.setUp)) <= Collect(s, EffectView)
  {
    var owned := Owned(reg, o.setUp);
    var r1 := SetUpPhase(env, reg, o, t);
    var r := Configure(env, reg, o, t);
    SetUpPhaseFetchesNothing(env, reg, o, t);
    ConfigureSplits(env, reg, o, t);
    if r1.outcome.Ok? {
      var step := StepIn(env);
      assert KeepsEffects(step, env.decoder) by {
        StepInFaithful(env);
      }
      LoopEffects(step, env.decoder, SetUps(owned), t);
      SetUpsPlanned(env.decoder, owned);
      CollectAppend(r1.trace[|t|..], r.trace[|r1.trace|..], EffectView);
    }
  }

  /** `t.Error` is called only when setting up an owned experiment fails,
      and with the error configuring returns. */
  lemma ConfigureReports(env: Env, reg: Registry, o: Orders, t: Trace)
    requires ValidOrders(reg, o)
    ensures var r1 := SetUpPhase(env, reg, o, t);
      var r := Configure(env, reg, o, t);
      && (r1.outcome.Err? ==> r.outcome == r1.outcome)
      && Collect(r.trace[|t|..], ReportView) == if r1.outcome.Err? then [r.outcome.error] else []
  {
    var owned, borrowed := Owned(reg, o.setUp), Borrowed(reg, o.enable);
    var step := StepIn(env);
    var r1 := SetUpPhase(env, reg, o, t);
    var r := Configure(env, reg, o, t);
    assert Appends(step) && KeepsReports(step) by {
      StepInFaithful(env);
    }
    ConfigureSplits(env, reg, o, t);
    LoopReportsInline(step, SetUps(owned), t);
    if r1.outcome.Ok? {
      LoopReportsNone(step, StopOnError, Enables(borrowed), r1.trace);
      CollectAppend(r1.trace[|t|..], r.trace[|r1.trace|..], ReportView);
    }
  }

  /** Configuring panics only on a readiness observation of an owned
      experiment whose status is not a map, before any borrowed one is
      touched. */
  lemma ConfigureCrash(env: Env, reg: Registry, o: Orders, t: Trace)
    requires ValidOrders(reg, o)
    requires Configure(env, reg, o, t).outcome.Crash?
    ensures var s := Configure(env, reg, o, t).trace[|t|..];
      && |s| > 0 && ObservedPanic(s[|s| - 1])
      && CallsOf(s).fetches == []
  {
    ConfigureIsOneLoop(env, reg, o, t);
    var step, ops := StepIn(env), ConfigureWork(reg, o);
    var owned, borrowed := Owned(reg, o.setUp), Borrowed(reg, o.enable);
    assert KeepsCrashes(step) && KeepsCalls(step, env.decoder) by {
      StepInFaithful(env);
    }
    LoopCrash(step, StopOnError, ops, t);
    var n := Ran(step, StopOnError, ops, t);
    assert n - 1 < |owned|;
    assert ops[n - 1] == SetUps(owned)[n - 1];
    LoopCalls(step, env.decoder, StopOnError, ops, t);
    ConfigurePrefixAttempts(env.decoder, owned, borrowed, n);
  }

  /** Configuring logs nothing, and every write-back it makes only removes
      the pause marker from the object it just fetched. */
  lemma ConfigureOnlyEnables(env: Env, reg: Registry, o: Orders, t: Trace)
    requires ValidOrders(reg, o)
    ensures var s := Configure(env, reg, o, t).trace[|t|..];
      Collect(s, LogView) == [] && UpdatesFollow(s, ClearPause)
  {
    ConfigureIsOneLoop(env, reg, o, t);
    var step, ops := StepIn(env), ConfigureWork(reg, o);
    assert KeepsLogs(step) && KeepsUpdates(step) by {
      StepInFaithful(env);
    }
    LoopLogs(step, StopOnError, ops, t);
    forall i | 0 <= i < |ops| ensures Compatible(ops[i], ClearPause) {
      if i >= |SetUps(Owned(reg, o.setUp))| {
        assert ops[i] == Enables(Borrowed(reg, o.enable))[i - |SetUps(Owned(reg, o.setUp))|];
      }
    }
    LoopUpdates(step, StopOnError, ops, t, ClearPause);
  }

  /** Configuring stops at its first failing item and returns exactly that
      item's outcome: every item before it succeeded. */
  lemma ConfigureStopsAtFirstFailure(env: Env, reg: Registry, o: Orders, t: Trace)
    requires ValidOrders(reg, o)
    requires !Configure(env, reg, o, t).outcome.Ok?
    ensures var ops := ConfigureWork(reg, o);
      var n := Ran(StepIn(env), StopOnError, ops, t);
      && 0 < n <= |ops|
      && var before := Loop(StepIn(env), StopOnError, ops[..n - 1], t);
         && before.outcome.Ok?
         && Configure(env, reg, o, t) == RunOp(env, ops[n - 1], before.trace)
  {
    ConfigureIsOneLoop(env, reg, o, t);
    LoopStop(StepIn(env), StopOnError, ConfigureWork(reg, o), t);
  }

  /** What the calls of the first `n` cleanup items look like, once every
      owned item has run: every owned experiment deleted, borrowed ones
      fetched in visiting order, all of them when every item ran. */
  lemma CleanupPrefixCalls(dec: Decoder, owned: seq<(Gvk, Document)>, borrowed: seq<(Gvk, NamespacedName)>, n: nat)
    requires |owned| <= n <= |owned| + |borrowed|
    ensures var c := AllAttempts(dec, (TearDowns(owned) + Pauses(borrowed))[..n]);
      && c.creates == []
      && c.deletes == Keys(owned)
      && c.fetches <= RefKeys(borrowed)
      && (n == |owned| + |borrowed| ==> c.fetches == RefKeys(borrowed))
  {
    CleanupPrefixAttempts(dec, owned, borrowed, n);
    if n == |owned| + |borrowed| {
      assert RefKeys(borrowed)[..n - |owned|] == RefKeys(borrowed);
    }
  }

  /** A log-and-continue loop over tear-downs then pauses gets past every
      tear-down: only a pause can panic. */
  lemma CleanupRunsTearDowns(step: Step, owned: seq<(Gvk, Document)>, borrowed: seq<(Gvk, NamespacedName)>, t: Trace)
    requires Appends(step) && KeepsCrashes(step)
    ensures var ops := TearDowns(owned) + Pauses(borrowed);
      var n := Ran(step, LogAndContinue, ops, t);
      && |owned| <= n <= |ops|
      && (Loop(step, LogAndContinue, ops, t).outcome.Ok? ==> n == |ops|)
  {
    var ops := TearDowns(owned) + Pauses(borrowed);
    LoopRan(step, LogAndContinue, ops, t);
    if Loop(step, LogAndContinue, ops, t).outcome.Crash? {
      LoopCrash(step, LogAndContinue, ops, t);
      var n := Ran(step, LogAndContinue, ops, t);
      assert n - 1 >= |owned|;
    }
  }

  /** The calls a log-and-continue loop over tear-downs then pauses makes,
      for any step that keeps to its items' plans. */
  lemma WorkCleanupCalls(step: Step, dec: Decoder, owned: seq<(Gvk, Document)>, borrowed: seq<(Gvk, NamespacedName)>, t: Trace)
    requires Appends(step) && KeepsCalls(step, dec) && KeepsCrashes(step)
    ensures var r := Loop(step, LogAndContinue, TearDowns(owned) + Pauses(borrowed), t);
      var c := CallsOf(r.trace[|t|..]);
      && c.creates == []
      && c.deletes == Keys(owned)
      && c.fetches <= RefKeys(borrowed)
      && (r.outcome.Ok? ==> c.fetches == RefKeys(borrowed))
  {
    var ops := TearDowns(owned) + Pauses(borrowed);
    LoopCalls(step, dec, LogAndContinue, ops, t);
    CleanupRunsTearDowns(step, owned, borrowed, t);
    CleanupPrefixCalls(dec, owned, borrowed, Ran(step, LogAndContinue, ops, t));
  }

  /** Cleaning up never creates, tries to delete every owned experiment
      whatever fails, and fetches borrowed ones in visiting order; unless it
      panics it tries every borrowed one too. */
  lemma CleanupCalls(env: Env, reg: Registry, o: Orders, t: Trace)
    requires ValidOrders(reg, o)
    ensures var r := Cleanup(env, reg, o, t);
      var c := CallsOf(r.trace[|t|..]);
      var owned, borrowed := Owned(reg, o.tearDown), Borrowed(reg, o.pause);
      && c.creates == []
      && c.deletes == Keys(owned)
      && c.fetches <= RefKeys(borrowed)
      && (r.outcome.Ok? ==> c.fetches == RefKeys(borrowed))
  {
    CleanupIsOneLoop(env, reg, o, t);
    assert KeepsCalls(StepIn(env), env.decoder) && KeepsCrashes(StepIn(env)) by {
      StepInFaithful(env);
    }
    WorkCleanupCalls(StepIn(env), env.decoder, Owned(reg, o.tearDown), Borrowed(reg, o.pause), t);
  }

  /** Cleaning up logs the error of every item that failed, in order, and
      goes on; unless it panics every item ran. */
  lemma CleanupLogs(env: Env, reg: Registry, o: Orders, t: Trace)
    requires ValidOrders(reg, o)
    ensures var r := Cleanup(env, reg, o, t);
      var os := Outcomes(StepIn(env), LogAndContinue, CleanupWork(reg, o), t);
      && Collect(r.trace[|t|..], LogView) == Errors(os)
      && (r.outcome.Ok? ==> |os| == |CleanupWork(reg, o)|)
  {
    CleanupIsOneLoop(env, reg, o, t);
    var step, ops := StepIn(env), CleanupWork(reg, o);
    assert KeepsLogs(step) by {
      StepInFaithful(env);
    }
    LoopLogs(step, LogAndContinue, ops, t);
    LoopRan(step, LogAndContinue, ops, t);
  }

  /** Cleaning up reports nothing to the test, and every write-back it
      makes only adds the pause marker to the object it just fetched. */
  lemma CleanupOnlyPauses(env: Env, reg: Registry, o: Orders, t: Trace)
    requires ValidOrders(reg, o)
    ensures var s := Cleanup(env, reg, o, t).trace[|t|..];
      Collect(s, ReportView) == [] && UpdatesFollow(s, SetPause)
  {
    CleanupIsOneLoop(env, reg, o, t);
    var step, ops := StepIn(env), CleanupWork(reg, o);
    assert KeepsReports(step) && KeepsUpdates(step) by {
      StepInFaithful(env);
    }
    var tearDowns := TearDowns(Owned(reg, o.tearDown));
    forall i | 0 <= i < |ops| ensures !InlineChaos(ops[i]) && Compatible(ops[i], SetPause) {
      if i >= |tearDowns| {
        assert ops[i] == Pauses(Borrowed(reg, o.pause))[i - |tearDowns|];
      }
    }
    LoopReportsNone(step, LogAndContinue, ops, t);
    LoopUpdates(step, LogAndContinue, ops, t, SetPause);
  }

  /** Cleaning up panics only on fetching a borrowed experiment that has no
      annotations map, and only after trying to delete every owned one. */
  lemma CleanupCrash(env: Env, reg: Registry, o: Orders, t: Trace)
    requires ValidOrders(reg, o)
    requires Cleanup(env, reg, o, t).outcome.Crash?
    ensures var s := Cleanup(env, reg, o, t).trace[|t|..];
      |s| > 0 && NilAnnotationsFetched(s[|s| - 1])
  {
    CleanupIsOneLoop(env, reg, o, t);
    var step, ops := StepIn(env), CleanupWork(reg, o);
    assert KeepsCrashes(step) by {
      StepInFaithful(env);
    }
    LoopCrash(step, LogAndContinue, ops, t);
  }

  /** Cleaning up tries to delete everything configuring created, each as
      often, whatever orders the ranges take and whatever the cluster does
      meanwhile, also when configuring failed part-way; after a successful
      configure it deletes exactly that, and when cleaning up does not
      panic it fetches the same borrowed experiments configuring did. */
  lemma CleanupUndoesConfigure(env: Env, env2: Env, reg: Registry, o: Orders, t: Trace, t2: Trace)
    requires ValidOrders(reg, o)
    ensures var configured := Configure(env, reg, o, t);
      var created := multiset(CallsOf(configured.trace[|t|..]).creates);
      var cleanup := Cleanup(env2, reg, o, t2);
      var deleted := multiset(CallsOf(cleanup.trace[|t2|..]).deletes);
      && created <= deleted
      && (configured.outcome.Ok? ==> created == deleted)
      && (configured.outcome.Ok? && cleanup.outcome.Ok? ==>
            multiset(CallsOf(cleanup.trace[|t2|..]).fetches) ==
            multiset(CallsOf(configured.trace[|t|..]).fetches))
  {
    ConfigureCalls(env, reg, o, t);
    PrefixMultiset(CallsOf(Configure(env, reg, o, t).trace[|t|..]).creates, Keys(Owned(reg, o.setUp)));
    CleanupCalls(env2, reg, o, t2);
    FlattenIsOrderIndependent(o.setUp, o.tearDown, reg.chaos);
    MapSeqPermutation(DocKey, Owned(reg, o.setUp), Owned(reg, o.tearDown));
    FlattenIsOrderIndependent(o.enable, o.pause, reg.existing);
    MapSeqPermutation(RefKeyOf, Borrowed(reg, o.enable), Borrowed(reg, o.pause));
  }
}
