/** The configurator's loops. Every loop of `ConfigureExperiments` and
    `CleanupExperiments` ranges over a work list of items and differs from
    the others only in what it does after an item fails. A loop is stated
    here for any way of running one item (`step`) that only appends to the
    trace; the configurators run it with `RunOp` against one environment
    (`StepIn`), so the facts `OpViews` proves of one item carry over to
    whole loops. */
module Loops {
  import opened Types
  import opened Cluster
  import opened Lifecycle

  /** How one item runs, from the trace so far. */
  type Step = (Op, Trace) -> Run

  /** Items run against one cluster and one decoder. */
  function StepIn(env: Env): Step
  {
    (op, t) => RunOp(env, op, t)
  }

  /** A step only ever appends to the trace. */
  ghost predicate Appends(step: Step)
  {
    forall op, t :: |step(op, t).trace| >= |t| && step(op, t).trace[..|t|] == t
  }

  /** The events one item adds to the trace. */
  function Seg(step: Step, op: Op, t: Trace): Trace
    requires Appends(step)
  {
    step(op, t).trace[|t|..]
  }

  /** Each item attempts exactly the calls it plans. */
  ghost predicate KeepsCalls(step: Step, dec: Decoder)
    requires Appends(step)
  {
    forall op, t :: CallsOf(Seg(step, op, t)) == Attempts(dec, op)
  }

  /** No item logs anything itself; logging is the loop's business. */
  ghost predicate KeepsLogs(step: Step)
    requires Appends(step)
  {
    forall op, t :: Collect(Seg(step, op, t), LogView) == []
  }

  /** Only a failing inline experiment reports to the test, and it reports
      its own error. */
  ghost predicate KeepsReports(step: Step)
    requires Appends(step)
  {
    forall op, t :: Collect(Seg(step, op, t), ReportView) ==
      if op.SetUpChaos? && op.src.Inline? && step(op, t).outcome.Err? then [step(op, t).outcome.error] else []
  }

  /** Each item achieves a prefix of its plan, all of it when it succeeds. */
  ghost predicate KeepsEffects(step: Step, dec: Decoder)
    requires Appends(step)
  {
    forall op: Op, t: Trace ::
      && Collect(Seg(step, op, t), EffectView) <= Planned(dec, op)
      && (step(op, t).outcome.Ok? ==> Collect(Seg(step, op, t), EffectView) == Planned(dec, op))
  }

  /** Updates only clear the pause marker, except when pausing, and only
      set it, except when enabling. */
  ghost predicate KeepsUpdates(step: Step)
    requires Appends(step)
  {
    forall op: Op, t: Trace ::
      && (!op.Pause? ==> UpdatesFollow(Seg(step, op, t), ClearPause))
      && (!op.Enable? ==> UpdatesFollow(Seg(step, op, t), SetPause))
  }

  /** An item panics only where Go panics. */
  ghost predicate KeepsCrashes(step: Step)
    requires Appends(step)
  {
    forall op, t :: step(op, t).outcome.Crash? ==>
      && |Seg(step, op, t)| > 0
      && PanicPoint(op, Seg(step, op, t)[|Seg(step, op, t)| - 1])
  }

  /** A step of which every per-item fact holds. */
  ghost predicate Faithful(step: Step, dec: Decoder)
  {
    && Appends(step)
    && KeepsCalls(step, dec) && KeepsLogs(step) && KeepsReports(step)
    && KeepsEffects(step, dec) && KeepsUpdates(step) && KeepsCrashes(step)
  }

  /** Running items against a cluster is faithful. */
  lemma StepInFaithful(env: Env)
    ensures Faithful(StepIn(env), env.decoder)
  {
    var step := StepIn(env);
    forall op, t ensures ItemFacts(env.decoder, op, t, step(op, t)) {
      OpViews(env, op, t);
    }
    assert Appends(step);
    FaithfulParts(step, env.decoder);
  }

  lemma StepInAppends(env: Env)
    ensures Appends(StepIn(env))
  {
    StepInFaithful(env);
  }

  lemma FaithfulParts(step: Step, dec: Decoder)
    requires forall op, t :: ItemFacts(dec, op, t, step(op, t))
    ensures Faithful(step, dec)
  {
    assert Appends(step) by {
      forall op, t ensures |step(op, t).trace| >= |t| && step(op, t).trace[..|t|] == t {
        assert ItemFacts(dec, op, t, step(op, t));
      }
    }
    forall op, t ensures CallsOf(Seg(step, op, t)) == Attempts(dec, op) {
      assert ItemFacts(dec, op, t, step(op, t));
    }
    forall op, t ensures Collect(Seg(step, op, t), LogView) == [] {
      assert ItemFacts(dec, op, t, step(op, t));
    }
    forall op, t ensures Collect(Seg(step, op, t), ReportView) ==
      if op.SetUpChaos? && op.src.Inline? && step(op, t).outcome.Err? then [step(op, t).outcome.error] else []
    {
      assert ItemFacts(dec, op, t, step(op, t));
    }
    forall op: Op, t: Trace ensures
      && Collect(Seg(step, op, t), EffectView) <= Planned(dec, op)
      && (step(op, t).outcome.Ok? ==> Collect(Seg(step, op, t), EffectView) == Planned(dec, op))
    {
      assert ItemFacts(dec, op, t, step(op, t));
    }
    forall op: Op, t: Trace ensures
      && (!op.Pause? ==> UpdatesFollow(Seg(step, op, t), ClearPause))
      && (!op.Enable? ==> UpdatesFollow(Seg(step, op, t), SetPause))
    {
      assert ItemFacts(dec, op, t, step(op, t));
    }
    forall op, t | step(op, t).outcome.Crash? ensures
      && |Seg(step, op, t)| > 0
      && PanicPoint(op, Seg(step, op, t)[|Seg(step, op, t)| - 1])
    {
      assert ItemFacts(dec, op, t, step(op, t));
    }
  }

  /** How a loop reacts to an item's error: a configure loop returns it
      (`if err != nil { return err }`), a cleanup loop logs it and goes on
      (`if err != nil { Logger.Error(err) }`). A panic stops either. */
  datatype Discipline = StopOnError | LogAndContinue

  /** One of the configurator's loops over its work list. */
  function Loop(step: Step, d: Discipline, ops: seq<Op>, t: Trace): (r: Run)
    requires Appends(step)
    ensures |r.trace| >= |t| && r.trace[..|t|] == t
    // a cleanup loop never returns an error
    ensures d == LogAndContinue ==> !r.outcome.Err?
    decreases |ops|
  {
    if ops == [] then Run(t, Ok)
    else
      var r0 := step(ops[0], t);
      match r0.outcome
      case Ok => Loop(step, d, ops[1..], r0.trace)
      case Err(e) =>
        if d == StopOnError then r0 else Loop(step, d, ops[1..], r0.trace + [Logged(e)])
      case Crash => r0
  }

  /** Whether a loop goes on after an item with outcome `o`. */
  predicate Continues(d: Discipline, o: Outcome)
  {
    o.Ok? || (o.Err? && d == LogAndContinue)
  }

  /** What a loop logs after an item it goes on from. */
  function LogLine(o: Outcome): Trace
  {
    if o.Err? then [Logged(o.error)] else []
  }

  /** The trace a loop goes on from after an item. */
  function After(r0: Run): Trace
  {
    r0.trace + LogLine(r0.outcome)
  }

  /** The events a loop adds to the trace. */
  function LoopSeg(step: Step, d: Discipline, ops: seq<Op>, t: Trace): Trace
    requires Appends(step)
  {
    Loop(step, d, ops, t).trace[|t|..]
  }

  /** The outcomes of the items the loop started, in order. */
  function Outcomes(step: Step, d: Discipline, ops: seq<Op>, t: Trace): seq<Outcome>
    requires Appends(step)
    decreases |ops|
  {
    if ops == [] then []
    else
      var r0 := step(ops[0], t);
      [r0.outcome] + if Continues(d, r0.outcome) then Outcomes(step, d, ops[1..], After(r0)) else []
  }

  /** How many items the loop started. */
  function Ran(step: Step, d: Discipline, ops: seq<Op>, t: Trace): nat
    requires Appends(step)
  {
    |Outcomes(step, d, ops, t)|
  }

  /** The errors among some outcomes, in order. */
  function Errors(os: seq<Outcome>): seq<Error>
  {
    if os == [] then [] else LogLineError(os[0]) + Errors(os[1..])
  }

  function LogLineError(o: Outcome): seq<Error>
  {
    if o.Err? then [o.error] else []
  }

  /** The calls a work list plans, item after item. */
  function AllAttempts(dec: Decoder, ops: seq<Op>): Calls
    decreases |ops|
  {
    if ops == [] then NoCalls else Plus(Attempts(dec, ops[0]), AllAttempts(dec, ops[1..]))
  }

  /** What a work list achieves when every item succeeds. */
  function AllPlanned(dec: Decoder, ops: seq<Op>): seq<Milestone>
    decreases |ops|
  {
    if ops == [] then [] else Planned(dec, ops[0]) + AllPlanned(dec, ops[1..])
  }

  /** One turn of a loop, seen from outside. */
  lemma LoopUnfold(step: Step, d: Discipline, ops: seq<Op>, t: Trace)
    requires Appends(step)
    requires ops != []
    ensures var r0 := step(ops[0], t);
      var r := Loop(step, d, ops, t);
      && |t| <= |r0.trace|
      && r0.trace[..|t|] == t
      && (Continues(d, r0.outcome) ==>
            && r == Loop(step, d, ops[1..], After(r0))
            && Outcomes(step, d, ops, t) == [r0.outcome] + Outcomes(step, d, ops[1..], After(r0)))
      && (!Continues(d, r0.outcome) ==> r == r0 && Outcomes(step, d, ops, t) == [r0.outcome])
  {
    var r0 := step(ops[0], t);
    if r0.outcome.Ok? {
      assert LogLine(r0.outcome) == [];
      assert After(r0) == r0.trace;
      assert Loop(step, d, ops, t) == Loop(step, d, ops[1..], r0.trace);
    }
  }

  /** A continuing loop's events: the first item's own, the loop's log
      line if any, then the rest of the loop's. */
  lemma LoopSegments(step: Step, d: Discipline, ops: seq<Op>, t: Trace)
    requires Appends(step)
    requires ops != [] && Continues(d, step(ops[0], t).outcome)
    ensures var r0 := step(ops[0], t);
      LoopSeg(step, d, ops, t) == Seg(step, ops[0], t) + LogLine(r0.outcome) + LoopSeg(step, d, ops[1..], After(r0))
  {
    var r0 := step(ops[0], t);
    LoopUnfold(step, d, ops, t);
    Split3(t, r0.trace, After(r0), Loop(step, d, ops, t).trace);
    assert After(r0)[|r0.trace|..] == LogLine(r0.outcome);
  }

  lemma Split3<T>(t: seq<T>, x: seq<T>, y: seq<T>, z: seq<T>)
    requires |t| <= |x| <= |y| <= |z|
    requires x[..|t|] == t && y[..|x|] == x && z[..|y|] == y
    ensures z[|t|..] == x[|t|..] + y[|x|..] + z[|y|..]
  {
    assert z[|t|..] == z[|t|..|x|] + z[|x|..|y|] + z[|y|..];
    assert z[..|x|] == x;
  }

  /** Any view of a continuing loop splits the same way. */
  lemma LoopCollect<M>(step: Step, d: Discipline, ops: seq<Op>, t: Trace, f: Event -> seq<M>)
    requires Appends(step)
    requires ops != [] && Continues(d, step(ops[0], t).outcome)
    ensures var r0 := step(ops[0], t);
      Collect(LoopSeg(step, d, ops, t), f) ==
        Collect(Seg(step, ops[0], t), f) + Collect(LogLine(r0.outcome), f)
          + Collect(LoopSeg(step, d, ops[1..], After(r0)), f)
  {
    var r0 := step(ops[0], t);
    LoopSegments(step, d, ops, t);
    var a, b, c := Seg(step, ops[0], t), LogLine(r0.outcome), LoopSeg(step, d, ops[1..], After(r0));
    CollectAppend(a + b, c, f);
    CollectAppend(a, b, f);
  }

  /** The log line makes no call, reports nothing to the test, achieves
      nothing and writes nothing back. */
  lemma LogLineViews(o: Outcome)
    ensures var x := LogLine(o);
      && CallsOf(x) == NoCalls && Collect(x, ReportView) == [] && Collect(x, EffectView) == []
      && Collect(x, UpdateView) == [] && Collect(x, LogView) == LogLineError(o)
  {
    if o.Err? {
      CollectSingle(Logged(o.error));
    }
  }

  /** A loop starts at most all of its items, and all of them when it
      succeeds. */
  lemma {:induction false} LoopRan(step: Step, d: Discipline, ops: seq<Op>, t: Trace)
    requires Appends(step)
    ensures Ran(step, d, ops, t) <= |ops|
    ensures Loop(step, d, ops, t).outcome.Ok? ==> Ran(step, d, ops, t) == |ops|
    decreases |ops|
  {
    if ops != [] {
      LoopUnfold(step, d, ops, t);
      var r0 := step(ops[0], t);
      if Continues(d, r0.outcome) {
        LoopRan(step, d, ops[1..], After(r0));
      }
    }
  }

  /** A loop stops only at a failure: when it does not succeed, the items
      before the last one it started all succeeded, and its result is
      exactly that last item's result, error included. */
  lemma {:induction false} LoopStop(step: Step, d: Discipline, ops: seq<Op>, t: Trace)
    requires Appends(step)
    requires !Loop(step, d, ops, t).outcome.Ok?
    ensures var n := Ran(step, d, ops, t);
      && 0 < n <= |ops|
      && Loop(step, d, ops[..n - 1], t).outcome.Ok?
      && Loop(step, d, ops, t) == step(ops[n - 1], Loop(step, d, ops[..n - 1], t).trace)
    decreases |ops|
  {
    LoopRan(step, d, ops, t);
    LoopUnfold(step, d, ops, t);
    var r0 := step(ops[0], t);
    var n := Ran(step, d, ops, t);
    if Continues(d, r0.outcome) {
      var a := After(r0);
      LoopStop(step, d, ops[1..], a);
      LoopUnfold(step, d, ops[..n - 1], t);
      assert ops[..n - 1][0] == ops[0];
      assert ops[..n - 1][1..] == ops[1..][..n - 2];
      assert ops[n - 1] == ops[1..][n - 2];
    } else {
      assert ops[..0] == [];
    }
  }

  /** Running two work lists one after the other is running their
      concatenation: the second starts only if the first succeeded. */
  lemma {:induction false} LoopAppend(step: Step, d: Discipline, a: seq<Op>, b: seq<Op>, t: Trace)
    requires Appends(step)
    ensures Loop(step, d, a + b, t) ==
      var r1 := Loop(step, d, a, t);
      if r1.outcome.Ok? then Loop(step, d, b, r1.trace) else r1
    decreases |a|
  {
    if a == [] {
      assert a + b == b;
    } else {
      assert (a + b)[0] == a[0];
      assert (a + b)[1..] == a[1..] + b;
      LoopUnfold(step, d, a, t);
      LoopUnfold(step, d, a + b, t);
      var r0 := step(a[0], t);
      if Continues(d, r0.outcome) {
        LoopAppend(step, d, a[1..], b, After(r0));
      }
    }
  }

  /** A loop attempts exactly the calls its started items plan, in order,
      whatever the cluster replies. */
  lemma {:induction false} LoopCalls(step: Step, dec: Decoder, d: Discipline, ops: seq<Op>, t: Trace)
    requires Appends(step) && KeepsCalls(step, dec)
    ensures Ran(step, d, ops, t) <= |ops|
    ensures CallsOf(LoopSeg(step, d, ops, t)) == AllAttempts(dec, ops[..Ran(step, d, ops, t)])
    decreases |ops|
  {
    LoopRan(step, d, ops, t);
    if ops == [] {
      assert LoopSeg(step, d, ops, t) == [];
    } else {
      var r0 := step(ops[0], t);
      assert CallsOf(Seg(step, ops[0], t)) == Attempts(dec, ops[0]);
      if Continues(d, r0.outcome) {
        LoopCalls(step, dec, d, ops[1..], After(r0));
        CallsGoOn(step, dec, d, ops, t);
      } else {
        CallsStop(step, dec, d, ops, t);
      }
    }
  }

  lemma CallsGoOn(step: Step, dec: Decoder, d: Discipline, ops: seq<Op>, t: Trace)
    requires Appends(step) && ops != []
    requires Continues(d, step(ops[0], t).outcome)
    requires CallsOf(Seg(step, ops[0], t)) == Attempts(dec, ops[0])
    requires var a := After(step(ops[0], t));
      && Ran(step, d, ops[1..], a) <= |ops| - 1
      && CallsOf(LoopSeg(step, d, ops[1..], a)) == AllAttempts(dec, ops[1..][..Ran(step, d, ops[1..], a)])
    ensures Ran(step, d, ops, t) <= |ops|
    ensures CallsOf(LoopSeg(step, d, ops, t)) == AllAttempts(dec, ops[..Ran(step, d, ops, t)])
  {
    var r0 := step(ops[0], t);
    LoopUnfold(step, d, ops, t);
    LoopSegments(step, d, ops, t);
    LogLineViews(r0.outcome);
    CallsTurn(dec, ops, Ran(step, d, ops, t), Seg(step, ops[0], t), LogLine(r0.outcome), LoopSeg(step, d, ops[1..], After(r0)));
  }

  lemma CallsStop(step: Step, dec: Decoder, d: Discipline, ops: seq<Op>, t: Trace)
    requires Appends(step) && ops != []
    requires !Continues(d, step(ops[0], t).outcome)
    requires CallsOf(Seg(step, ops[0], t)) == Attempts(dec, ops[0])
    ensures Ran(step, d, ops, t) == 1
    ensures CallsOf(LoopSeg(step, d, ops, t)) == AllAttempts(dec, ops[..1])
  {
    LoopUnfold(step, d, ops, t);
    assert LoopSeg(step, d, ops, t) == Seg(step, ops[0], t) + [] + [];
    CallsTurn(dec, ops, 1, Seg(step, ops[0], t), [], []);
  }

  /** One turn of `LoopCalls`: the first item's calls, then the rest's. */
  lemma CallsTurn(dec: Decoder, ops: seq<Op>, n: nat, s0: Trace, x: Trace, rest: Trace)
    requires 0 < n <= |ops|
    requires CallsOf(s0) == Attempts(dec, ops[0]) && CallsOf(x) == NoCalls
    requires CallsOf(rest) == AllAttempts(dec, ops[1..][..n - 1])
    ensures CallsOf(s0 + x + rest) == AllAttempts(dec, ops[..n])
  {
    assert ops[..n][0] == ops[0];
    assert ops[..n][1..] == ops[1..][..n - 1];
    CallsAppend(s0, x);
    CallsAppend(s0 + x, rest);
    assert Plus(CallsOf(s0), NoCalls) == CallsOf(s0);
  }

  /** A configure loop logs nothing; a cleanup loop logs the error of
      every item that failed, in order. */
  lemma {:induction false} LoopLogs(step: Step, d: Discipline, ops: seq<Op>, t: Trace)
    requires Appends(step) && KeepsLogs(step)
    ensures Collect(LoopSeg(step, d, ops, t), LogView) ==
      if d == LogAndContinue then Errors(Outcomes(step, d, ops, t)) else []
    decreases |ops|
  {
    if ops == [] {
      assert LoopSeg(step, d, ops, t) == [];
    } else {
      var r0 := step(ops[0], t);
      assert Collect(Seg(step, ops[0], t), LogView) == [];
      if Continues(d, r0.outcome) {
        LoopLogs(step, d, ops[1..], After(r0));
        LogsGoOn(step, d, ops, t);
      } else {
        LogsStop(step, d, ops, t);
      }
    }
  }

  lemma LogsGoOn(step: Step, d: Discipline, ops: seq<Op>, t: Trace)
    requires Appends(step) && ops != []
    requires Continues(d, step(ops[0], t).outcome)
    requires Collect(Seg(step, ops[0], t), LogView) == []
    requires var a := After(step(ops[0], t));
      Collect(LoopSeg(step, d, ops[1..], a), LogView) ==
        if d == LogAndContinue then Errors(Outcomes(step, d, ops[1..], a)) else []
    ensures Collect(LoopSeg(step, d, ops, t), LogView) ==
      if d == LogAndContinue then Errors(Outcomes(step, d, ops, t)) else []
  {
    var r0 := step(ops[0], t);
    LoopUnfold(step, d, ops, t);
    LogLineViews(r0.outcome);
    LoopCollect(step, d, ops, t, LogView);
    LogsTurn(d, r0.outcome, Outcomes(step, d, ops[1..], After(r0)),
      Collect(LoopSeg(step, d, ops[1..], After(r0)), LogView));
  }

  /** One turn of `LoopLogs`: the item logs nothing, the loop logs its
      error if it goes on after one, then the rest's log. */
  lemma LogsTurn(d: Discipline, o: Outcome, os: seq<Outcome>, later: seq<Error>)
    requires Continues(d, o)
    requires later == if d == LogAndContinue then Errors(os) else []
    ensures [] + LogLineError(o) + later == if d == LogAndContinue then Errors([o] + os) else []
  {
    ErrorsCons(o, os);
  }

  lemma LogsStop(step: Step, d: Discipline, ops: seq<Op>, t: Trace)
    requires Appends(step) && ops != []
    requires !Continues(d, step(ops[0], t).outcome)
    requires Collect(Seg(step, ops[0], t), LogView) == []
    ensures Collect(LoopSeg(step, d, ops, t), LogView) ==
      if d == LogAndContinue then Errors(Outcomes(step, d, ops, t)) else []
  {
    var r0 := step(ops[0], t);
    LoopUnfold(step, d, ops, t);
    assert LoopSeg(step, d, ops, t) == Seg(step, ops[0], t);
    ErrorsCons(r0.outcome, []);
    assert r0.outcome.Err? ==> d == StopOnError;
  }

  lemma ErrorsCons(o: Outcome, os: seq<Outcome>)
    ensures Errors([o] + os) == LogLineError(o) + Errors(os)
  {
    assert ([o] + os)[1..] == os;
  }

  /** An experiment defined inline, whose failure is reported to the test. */
  predicate InlineChaos(op: Op)
  {
    op.SetUpChaos? && op.src.Inline?
  }

  /** A configure loop over inline experiments reports to the test exactly
      the error it returns, and nothing when it does not fail. */
  lemma {:induction false} LoopReportsInline(step: Step, ops: seq<Op>, t: Trace)
    requires Appends(step) && KeepsReports(step)
    requires forall i :: 0 <= i < |ops| ==> InlineChaos(ops[i])
    ensures var r := Loop(step, StopOnError, ops, t);
      Collect(LoopSeg(step, StopOnError, ops, t), ReportView) ==
        if r.outcome.Err? then [r.outcome.error] else []
    decreases |ops|
  {
    if ops == [] {
      assert LoopSeg(step, StopOnError, ops, t) == [];
    } else {
      var r0 := step(ops[0], t);
      assert InlineChaos(ops[0]);
      var own := Collect(Seg(step, ops[0], t), ReportView);
      assert own == if r0.outcome.Err? then [r0.outcome.error] else [];
      LoopUnfold(step, StopOnError, ops, t);
      if Continues(StopOnError, r0.outcome) {
        LogLineViews(r0.outcome);
        LoopReportsInline(step, ops[1..], After(r0));
        LoopCollect(step, StopOnError, ops, t, ReportView);
      } else {
        assert LoopSeg(step, StopOnError, ops, t) == Seg(step, ops[0], t);
      }
    }
  }

  /** A loop over anything but inline experiments reports nothing to the
      test. */
  lemma {:induction false} LoopReportsNone(step: Step, d: Discipline, ops: seq<Op>, t: Trace)
    requires Appends(step) && KeepsReports(step)
    requires forall i :: 0 <= i < |ops| ==> !InlineChaos(ops[i])
    ensures Collect(LoopSeg(step, d, ops, t), ReportView) == []
    decreases |ops|
  {
    if ops == [] {
      assert LoopSeg(step, d, ops, t) == [];
    } else {
      var r0 := step(ops[0], t);
      assert !InlineChaos(ops[0]);
      assert Collect(Seg(step, ops[0], t), ReportView) == [];
      LoopUnfold(step, d, ops, t);
      if Continues(d, r0.outcome) {
        LogLineViews(r0.outcome);
        LoopReportsNone(step, d, ops[1..], After(r0));
        LoopCollect(step, d, ops, t, ReportView);
      } else {
        assert LoopSeg(step, d, ops, t) == Seg(step, ops[0], t);
      }
    }
  }

  /** A configure loop achieves a prefix of what its work list plans, and
      all of it when it succeeds. */
  lemma {:induction false} LoopEffects(step: Step, dec: Decoder, ops: seq<Op>, t: Trace)
    requires Appends(step) && KeepsEffects(step, dec)
    ensures EffectsWithinPlan(step, dec, ops, t)
    decreases |ops|
  {
    if ops == [] {
      assert LoopSeg(step, StopOnError, ops, t) == [];
    } else {
      var own := Collect(Seg(step, ops[0], t), EffectView);
      assert own <= Planned(dec, ops[0]);
      if step(ops[0], t).outcome.Ok? {
        assert own == Planned(dec, ops[0]);
        LoopEffects(step, dec, ops[1..], After(step(ops[0], t)));
        EffectsGoOn(step, dec, ops, t);
      } else {
        EffectsStop(step, dec, ops, t);
      }
    }
  }

  /** What a configure loop achieves is a prefix of its plan, all of it
      when it succeeds. */
  ghost predicate EffectsWithinPlan(step: Step, dec: Decoder, ops: seq<Op>, t: Trace)
    requires Appends(step)
  {
    var e := Collect(LoopSeg(step, StopOnError, ops, t), EffectView);
    && e <= AllPlanned(dec, ops)
    && (Loop(step, StopOnError, ops, t).outcome.Ok? ==> e == AllPlanned(dec, ops))
  }

  lemma EffectsGoOn(step: Step, dec: Decoder, ops: seq<Op>, t: Trace)
    requires Appends(step)
    requires ops != [] && step(ops[0], t).outcome.Ok?
    requires Collect(Seg(step, ops[0], t), EffectView) == Planned(dec, ops[0])
    requires EffectsWithinPlan(step, dec, ops[1..], After(step(ops[0], t)))
    ensures EffectsWithinPlan(step, dec, ops, t)
  {
    var r0 := step(ops[0], t);
    var own := Collect(Seg(step, ops[0], t), EffectView);
    var rest := Collect(LoopSeg(step, StopOnError, ops[1..], After(r0)), EffectView);
    assert Collect(LoopSeg(step, StopOnError, ops, t), EffectView) == own + rest by {
      LogLineViews(r0.outcome);
      LoopCollect(step, StopOnError, ops, t, EffectView);
    }
    LoopUnfold(step, StopOnError, ops, t);
    PrefixAfter(own, rest, AllPlanned(dec, ops[1..]));
  }

  lemma EffectsStop(step: Step, dec: Decoder, ops: seq<Op>, t: Trace)
    requires Appends(step)
    requires ops != [] && !step(ops[0], t).outcome.Ok?
    requires Collect(Seg(step, ops[0], t), EffectView) <= Planned(dec, ops[0])
    ensures EffectsWithinPlan(step, dec, ops, t)
  {
    var own := Collect(Seg(step, ops[0], t), EffectView);
    LoopUnfold(step, StopOnError, ops, t);
    assert LoopSeg(step, StopOnError, ops, t) == Seg(step, ops[0], t);
    PrefixBefore(own, Planned(dec, ops[0]), AllPlanned(dec, ops[1..]));
  }

  lemma PrefixAfter<T>(a: seq<T>, b: seq<T>, c: seq<T>)
    requires b <= c
    ensures a + b <= a + c
  {
    assert (a + c)[..|a + b|] == a + c[..|b|];
  }

  lemma PrefixBefore<T>(a: seq<T>, b: seq<T>, c: seq<T>)
    requires a <= b
    ensures a <= b + c
  {
    assert (b + c)[..|a|] == b[..|a|];
  }

  /** Whether an item may take part in a loop that toggles the pause
      marker one way: a loop that enables never pauses, and the other way
      round. */
  predicate Compatible(op: Op, toggle: Toggle)
  {
    match toggle
    case ClearPause => !op.Pause?
    case SetPause => !op.Enable?
  }

  /** Every update a loop makes writes back the object fetched just before
      it, with only the pause marker toggled the loop's way. */
  lemma {:induction false} LoopUpdates(step: Step, d: Discipline, ops: seq<Op>, t: Trace, toggle: Toggle)
    requires Appends(step) && KeepsUpdates(step)
    requires forall i :: 0 <= i < |ops| ==> Compatible(ops[i], toggle)
    ensures UpdatesFollow(LoopSeg(step, d, ops, t), toggle)
    decreases |ops|
  {
    if ops == [] {
      assert LoopSeg(step, d, ops, t) == [];
    } else {
      var r0 := step(ops[0], t);
      assert Compatible(ops[0], toggle);
      assert UpdatesFollow(Seg(step, ops[0], t), toggle);
      if Continues(d, r0.outcome) {
        LoopUpdates(step, d, ops[1..], After(r0), toggle);
        UpdatesGoOn(step, d, ops, t, toggle);
      } else {
        LoopUnfold(step, d, ops, t);
        assert LoopSeg(step, d, ops, t) == Seg(step, ops[0], t);
      }
    }
  }

  lemma UpdatesGoOn(step: Step, d: Discipline, ops: seq<Op>, t: Trace, toggle: Toggle)
    requires Appends(step) && ops != []
    requires Continues(d, step(ops[0], t).outcome)
    requires UpdatesFollow(Seg(step, ops[0], t), toggle)
    requires UpdatesFollow(LoopSeg(step, d, ops[1..], After(step(ops[0], t))), toggle)
    ensures UpdatesFollow(LoopSeg(step, d, ops, t), toggle)
  {
    var r0 := step(ops[0], t);
    var own, x, rest := Seg(step, ops[0], t), LogLine(r0.outcome), LoopSeg(step, d, ops[1..], After(r0));
    LogLineViews(r0.outcome);
    NoUpdates(x, toggle);
    LoopSegments(step, d, ops, t);
    UpdatesFollowAppend(own, x, toggle);
    UpdatesFollowAppend(own + x, rest, toggle);
  }

  /** A loop panics only where Go panics: on the last event of an
      experiment set-up or a pause, the last item it started. */
  lemma {:induction false} LoopCrash(step: Step, d: Discipline, ops: seq<Op>, t: Trace)
    requires Appends(step) && KeepsCrashes(step)
    requires Loop(step, d, ops, t).outcome.Crash?
    ensures var n := Ran(step, d, ops, t);
      var s := LoopSeg(step, d, ops, t);
      && 0 < n <= |ops|
      && |s| > 0 && PanicPoint(ops[n - 1], s[|s| - 1])
    decreases |ops|
  {
    LoopRan(step, d, ops, t);
    var r0 := step(ops[0], t);
    LoopUnfold(step, d, ops, t);
    var s := LoopSeg(step, d, ops, t);
    if Continues(d, r0.outcome) {
      var a := After(r0);
      var rest := LoopSeg(step, d, ops[1..], a);
      LoopCrash(step, d, ops[1..], a);
      var m := Ran(step, d, ops[1..], a);
      assert Ran(step, d, ops, t) == 1 + m;
      assert ops[1 + m - 1] == ops[1..][m - 1];
      assert s[|s| - 1] == rest[|rest| - 1] by {
        LoopSegments(step, d, ops, t);
      }
    } else {
      assert s == Seg(step, ops[0], t);
    }
  }

  /** The same, for every run: a loop that panics panicked at a panic
      point. */
  lemma LoopPanics(step: Step, d: Discipline, ops: seq<Op>, t: Trace)
    requires Appends(step) && KeepsCrashes(step)
    ensures Loop(step, d, ops, t).outcome.Crash? ==>
      var n := Ran(step, d, ops, t);
      var s := LoopSeg(step, d, ops, t);
      && 0 < n <= |ops|
      && |s| > 0 && PanicPoint(ops[n - 1], s[|s| - 1])
  {
    if Loop(step, d, ops, t).outcome.Crash? {
      LoopCrash(step, d, ops, t);
    }
  }

  /** The trace item `i` of a loop starts from. */
  function ItemStart(step: Step, d: Discipline, ops: seq<Op>, t: Trace, i: nat): Trace
    requires Appends(step)
    requires i < |Outcomes(step, d, ops, t)|
    decreases i
  {
    if i == 0 then t else ItemStart(step, d, ops[1..], After(step(ops[0], t)), i - 1)
  }

  /** The outcomes a loop collects are those of its items, in order: the
      `i`-th is item `i`'s outcome from where it started. */
  lemma {:induction false} OutcomeOfItem(step: Step, d: Discipline, ops: seq<Op>, t: Trace, i: nat)
    requires Appends(step)
    requires i < |Outcomes(step, d, ops, t)|
    ensures i < |ops|
    ensures Outcomes(step, d, ops, t)[i] == step(ops[i], ItemStart(step, d, ops, t, i)).outcome
    decreases i
  {
    if i > 0 {
      var r0 := step(ops[0], t);
      OutcomeOfItem(step, d, ops[1..], After(r0), i - 1);
    }
  }

  lemma {:induction false} AllAttemptsAppend(dec: Decoder, a: seq<Op>, b: seq<Op>)
    ensures AllAttempts(dec, a + b) == Plus(AllAttempts(dec, a), AllAttempts(dec, b))
    decreases |a|
  {
    if a == [] {
      assert a + b == b;
      assert Plus(NoCalls, AllAttempts(dec, b)) == AllAttempts(dec, b);
    } else {
      assert (a + b)[0] == a[0];
      assert (a + b)[1..] == a[1..] + b;
      AllAttemptsAppend(dec, a[1..], b);
      PlusAssociates(Attempts(dec, a[0]), AllAttempts(dec, a[1..]), AllAttempts(dec, b));
    }
  }

  lemma PlusAssociates(x: Calls, y: Calls, z: Calls)
    ensures Plus(x, Plus(y, z)) == Plus(Plus(x, y), z)
  {
  }

  lemma {:induction false} AllPlannedAppend(dec: Decoder, a: seq<Op>, b: seq<Op>)
    ensures AllPlanned(dec, a + b) == AllPlanned(dec, a) + AllPlanned(dec, b)
    decreases |a|
  {
    if a == [] {
      assert a + b == b;
    } else {
      assert (a + b)[0] == a[0];
      assert (a + b)[1..] == a[1..] + b;
      AllPlannedAppend(dec, a[1..], b);
    }
  }
}
