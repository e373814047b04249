/** `wrapScenarioWithExperiments`: how the plugin wraps a test scenario.
    The wrapper checks the plugin's initialisation error, builds a fresh
    registry, registers a cleanup hook with the test, configures the
    experiments and then either cleans up and fails the test or hands over
    to the scenario. The hook runs when the test ends. */
module Plugin {
  import opened Types
  import opened Cluster
  import opened Lifecycle
  import opened Ordering
  import opened RootConfigurator

  /** What the wrapper does that a test can see: the test-framework calls
      it makes, interleaved with the configurator's events. */
  datatype PluginEvent =
    | InitFatal(err: Error)     // t.Fatalf on an initialisation error
    | HookRegistered            // t.Cleanup(...)
    | Call(e: Event)            // an event of the configurator
    | FailNow                   // t.FailNow
    | ScenarioCalled            // s(t)
    | HookFailed(err: Error)    // t.Require.NoError failing in the hook

  /** How the wrapper ends: stopped by `t.Fatalf`, stopped by `t.FailNow`,
      by a Go panic, or by returning what the scenario returned. */
  datatype Exit = Fatal | FailedNow | Panicked | Returned

  /** One wrapper run: what the test saw, the cluster's trace for the whole
      run, the registry it built and how it ended. */
  datatype Wrapped = Wrapped(events: seq<PluginEvent>, cluster: Trace, reg: RootRegistry, exit: Exit)

  /** The configurator's events, as the test sees them. */
  function Lift(s: Trace): (r: seq<PluginEvent>)
    ensures |r| == |s|
    ensures forall i :: 0 <= i < |s| ==> r[i] == Call(s[i])
  {
    seq(|s|, i requires 0 <= i < |s| => Call(s[i]))
  }

  /** `newChaosExperimentsBuilder()` in the root package: nothing
      registered. */
  const EmptyRoot := RootRegistry(map[], map[], map[], [], [], [])

  /** The orders of the map ranges of the configure pass and of the
      explicit cleanup pass of one run. */
  datatype WrapOrders = WrapOrders(configure: RootOrders, cleanup: RootOrders)

  predicate ValidWrapOrders(reg: RootRegistry, o: WrapOrders)
  {
    ValidRootOrders(reg, o.configure) && ValidRootOrders(reg, o.cleanup)
  }

  /** The wrapped scenario function, up to the point where it returns or
      stops the test. `cfn` is the test's configure function, applied to a
      fresh builder; `t` is what the cluster saw before. */
  function Wrap(env: Env, initErr: Option<Error>, cfn: RootRegistry -> RootRegistry, o: WrapOrders, t: Trace): (w: Wrapped)
    requires initErr.None? ==> ValidWrapOrders(cfn(EmptyRoot), o)
    ensures |w.events| > 0
    // only an initialisation error stops the test with t.Fatalf
    ensures w.exit == Fatal <==> initErr.Some?
    ensures initErr.None? ==> w.events[0] == HookRegistered && w.reg == cfn(EmptyRoot)
    // how configuring ended decides how the wrapper ends
    ensures initErr.None? ==> var c := Configure(env, cfn(EmptyRoot), o.configure, t).outcome;
      && (w.exit == Returned <==> c.Ok?)
      && (w.exit == FailedNow <==> c.Err?)
      && (w.exit == Panicked <==> c.Crash?)
    ensures w.exit == Returned ==> w.events[|w.events| - 1] == ScenarioCalled
    ensures w.exit == FailedNow ==> w.events[|w.events| - 1] == FailNow
  {
    if initErr.Some? then Wrapped([InitFatal(initErr.value)], t, EmptyRoot, Fatal)
    else
      var reg := cfn(EmptyRoot);
      var r := Configure(env, reg, o.configure, t);
      var configured := [HookRegistered] + Lift(r.trace[|t|..]);
      match r.outcome
      case Ok => Wrapped(configured + [ScenarioCalled], r.trace, reg, Returned)
      case Crash => Wrapped(configured, r.trace, reg, Panicked)
      case Err(_) =>
        var c := Cleanup(env, reg, o.cleanup, r.trace);
        Wrapped(configured + Lift(c.trace[|r.trace|..]) + [FailNow], c.trace, reg, FailedNow)
  }

  /** The cleanup hook, run when the test ends if the wrapper registered
      it: clean up, and fail the test if that returned an error. */
  function Hook(env: Env, w: Wrapped, o: RootOrders): (h: seq<PluginEvent>)
    requires ValidRootOrders(w.reg, o)
    ensures HookRegistered !in w.events ==> h == []
    // cleaning up never returns an error, so the hook only reports its calls
    ensures HookRegistered in w.events ==> h == Lift(Cleanup(env, w.reg, o, w.cluster).trace[|w.cluster|..])
    ensures forall i :: 0 <= i < |h| ==> !h[i].HookFailed?
  {
    if HookRegistered !in w.events then []
    else
      var c := Cleanup(env, w.reg, o, w.cluster);
      var failed := match c.outcome case Err(e) => [HookFailed(e)] case _ => [];
      Lift(c.trace[|w.cluster|..]) + failed
  }

  /** The wrapper's cluster trace extends the one it started from. */
  lemma WrapExtends(env: Env, initErr: Option<Error>, cfn: RootRegistry -> RootRegistry, o: WrapOrders, t: Trace)
    requires initErr.None? ==> ValidWrapOrders(cfn(EmptyRoot), o)
    ensures var w := Wrap(env, initErr, cfn, o, t);
      |w.cluster| >= |t| && w.cluster[..|t|] == t
  {
    if initErr.None? {
      var r := Configure(env, cfn(EmptyRoot), o.configure, t);
      if r.outcome.Err? {
        var c := Cleanup(env, cfn(EmptyRoot), o.cleanup, r.trace);
        assert r.trace[..|t|] == t;
        assert c.trace[..|r.trace|] == r.trace;
        assert c.trace[..|t|] == r.trace[..|t|];
      }
    }
  }

  /** A plugin that failed to initialise stops the test at once, before
      building experiments, registering the hook or touching the cluster. */
  lemma InitErrorIsFatal(env: Env, initErr: Option<Error>, cfn: RootRegistry -> RootRegistry, o: WrapOrders, t: Trace)
    requires initErr.Some?
    ensures var w := Wrap(env, initErr, cfn, o, t);
      && w.exit == Fatal && w.events == [InitFatal(initErr.value)]
      && w.cluster == t
      && (forall oh | ValidRootOrders(w.reg, oh) :: Hook(env, w, oh) == [])
  {
    var w := Wrap(env, initErr, cfn, o, t);
    assert w.events[0] != HookRegistered;
  }

  /** Otherwise the hook is registered before anything else happens, so it
      is in place on every way out; the experiments come from a fresh
      registry filled in by the test's configure function. */
  lemma HookFirst(env: Env, cfn: RootRegistry -> RootRegistry, o: WrapOrders, t: Trace)
    requires ValidWrapOrders(cfn(EmptyRoot), o)
    ensures var w := Wrap(env, None, cfn, o, t);
      && |w.events| > 0 && w.events[0] == HookRegistered
      && w.reg == cfn(EmptyRoot)
      && w.exit != Fatal
  {
  }

  /** The scenario is called exactly when the plugin initialised and
      configuring succeeded, and it is the last thing the wrapper does. */
  lemma ScenarioOnlyAfterConfigure(env: Env, initErr: Option<Error>, cfn: RootRegistry -> RootRegistry, o: WrapOrders, t: Trace)
    requires initErr.None? ==> ValidWrapOrders(cfn(EmptyRoot), o)
    ensures var w := Wrap(env, initErr, cfn, o, t);
      && (ScenarioCalled in w.events <==>
            initErr.None? && Configure(env, cfn(EmptyRoot), o.configure, t).outcome.Ok?)
      && (ScenarioCalled in w.events <==> w.exit == Returned)
      && (ScenarioCalled in w.events ==> w.events[|w.events| - 1] == ScenarioCalled)
  {
    if initErr.None? {
      var r := Configure(env, cfn(EmptyRoot), o.configure, t);
      LiftIsCalls(r.trace[|t|..]);
      if r.outcome.Err? {
        LiftIsCalls(Cleanup(env, cfn(EmptyRoot), o.cleanup, r.trace).trace[|r.trace|..]);
      }
    }
  }

  /** The configurator's events are none of the wrapper's own. */
  lemma LiftIsCalls(s: Trace)
    ensures HookRegistered !in Lift(s) && ScenarioCalled !in Lift(s) && FailNow !in Lift(s)
  {
  }

  /** When configuring fails with an error, the wrapper cleans up at once
      (trying every delete, whatever fails), then fails the test and never
      calls the scenario. */
  lemma ConfigureErrorCleansUpAndFails(env: Env, cfn: RootRegistry -> RootRegistry, o: WrapOrders, t: Trace)
    requires ValidWrapOrders(cfn(EmptyRoot), o)
    requires Configure(env, cfn(EmptyRoot), o.configure, t).outcome.Err?
    ensures var reg := cfn(EmptyRoot);
      var r := Configure(env, reg, o.configure, t);
      var w := Wrap(env, None, cfn, o, t);
      && w.exit == FailedNow
      && w.events[|w.events| - 1] == FailNow
      && |w.cluster| >= |r.trace| && w.cluster[..|r.trace|] == r.trace
      && CallsOf(w.cluster[|r.trace|..]).deletes == OwnedKeys(env.decoder, reg, o.cleanup)
      && CallsOf(w.cluster[|r.trace|..]).creates == []
  {
    var reg := cfn(EmptyRoot);
    var r := Configure(env, reg, o.configure, t);
    CleanupCalls(env, reg, o.cleanup, r.trace);
  }

  /** The hook never fails the test: cleaning up always returns nil. On
      the failure path it cleans up a second time, and on every path it
      tries every delete again. */
  lemma HookNeverFails(env: Env, initErr: Option<Error>, cfn: RootRegistry -> RootRegistry, o: WrapOrders, oh: RootOrders, t: Trace)
    requires initErr.None? ==> ValidWrapOrders(cfn(EmptyRoot), o)
    requires ValidRootOrders(Wrap(env, initErr, cfn, o, t).reg, oh)
    ensures var w := Wrap(env, initErr, cfn, o, t);
      var h := Hook(env, w, oh);
      && (forall i :: 0 <= i < |h| ==> !h[i].HookFailed?)
      && (initErr.None? ==>
            && h == Lift(Cleanup(env, w.reg, oh, w.cluster).trace[|w.cluster|..])
            && CallsOf(Cleanup(env, w.reg, oh, w.cluster).trace[|w.cluster|..]).deletes
                 == OwnedKeys(env.decoder, w.reg, oh))
  {
    var w := Wrap(env, initErr, cfn, o, t);
    if HookRegistered in w.events {
      CleanupCalls(env, w.reg, oh, w.cluster);
    }
    if initErr.None? {
      HookFirst(env, cfn, o, t);
      assert HookRegistered in w.events;
    }
  }

  /** A panic while configuring ends the wrapper with neither an explicit
      cleanup nor a call of the scenario; the hook stays registered. */
  lemma ConfigurePanicStops(env: Env, cfn: RootRegistry -> RootRegistry, o: WrapOrders, t: Trace)
    requires ValidWrapOrders(cfn(EmptyRoot), o)
    requires Configure(env, cfn(EmptyRoot), o.configure, t).outcome.Crash?
    ensures var w := Wrap(env, None, cfn, o, t);
      && w.exit == Panicked
      && w.cluster == Configure(env, cfn(EmptyRoot), o.configure, t).trace
      && HookRegistered in w.events && ScenarioCalled !in w.events && FailNow !in w.events
  {
    var r := Configure(env, cfn(EmptyRoot), o.configure, t);
    LiftIsCalls(r.trace[|t|..]);
  }
}
