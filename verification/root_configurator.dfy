/** `ConfigureExperiments` and `CleanupExperiments` of the root-package
    configurator. Its registry has six collections: inline experiments,
    experiment files and experiment texts, each keyed by kind, then inline
    workflows, workflow files and workflow texts. Configuring runs six
    loops in that fixed order and stops at the first failure; cleaning up
    runs the six matching delete loops, logging failures and going on. */
module RootConfigurator {
  import opened Types
  import opened Cluster
  import opened Lifecycle
  import opened Loops
  import opened Ordering

  /** The six collections `ConfigureExperiments` ranges over. */
  datatype RootRegistry = RootRegistry(
    chaos: map<Gvk, seq<Document>>,
    chaosFromFiles: map<Gvk, seq<string>>,
    chaosFromYaml: map<Gvk, seq<string>>,
    chaosWorkflows: seq<Document>,
    chaosWorkflowsFromFiles: seq<string>,
    chaosWorkflowsFromYaml: seq<string>)

  /** The order each of one pass's three map ranges happens to take. */
  datatype RootOrders = RootOrders(chaos: seq<Gvk>, files: seq<Gvk>, yaml: seq<Gvk>)

  predicate ValidRootOrders(reg: RootRegistry, o: RootOrders)
  {
    && IsIterationOrder(o.chaos, reg.chaos)
    && IsIterationOrder(o.files, reg.chaosFromFiles)
    && IsIterationOrder(o.yaml, reg.chaosFromYaml)
  }

  function AsInline(p: (Gvk, Document)): (Gvk, Source) { (p.0, Inline(p.1)) }
  function AsFile(p: (Gvk, string)): (Gvk, Source) { (p.0, File(p.1)) }
  function AsYaml(p: (Gvk, string)): (Gvk, Source) { (p.0, Yaml(p.1)) }
  function InlineWorkflow(wf: Document): Source { Inline(wf) }
  function WorkflowFile(path: string): Source { File(path) }
  function WorkflowYaml(text: string): Source { Yaml(text) }

  /** The experiment definitions of the three map phases, as visited. */
  function InlineSources(reg: RootRegistry, o: RootOrders): seq<(Gvk, Source)>
    requires ValidRootOrders(reg, o)
  {
    MapSeq(AsInline, Flatten(o.chaos, reg.chaos))
  }

  function FileSources(reg: RootRegistry, o: RootOrders): seq<(Gvk, Source)>
    requires ValidRootOrders(reg, o)
  {
    MapSeq(AsFile, Flatten(o.files, reg.chaosFromFiles))
  }

  function YamlSources(reg: RootRegistry, o: RootOrders): seq<(Gvk, Source)>
    requires ValidRootOrders(reg, o)
  {
    MapSeq(AsYaml, Flatten(o.yaml, reg.chaosFromYaml))
  }

  /** Every experiment definition, phase after phase. */
  function ChaosSources(reg: RootRegistry, o: RootOrders): seq<(Gvk, Source)>
    requires ValidRootOrders(reg, o)
  {
    InlineSources(reg, o) + FileSources(reg, o) + YamlSources(reg, o)
  }

  /** Every workflow definition, phase after phase; these are lists, so
      their order is fixed. */
  function WorkflowSources(reg: RootRegistry): seq<Source>
  {
    MapSeq(InlineWorkflow, reg.chaosWorkflows)
      + MapSeq(WorkflowFile, reg.chaosWorkflowsFromFiles)
      + MapSeq(WorkflowYaml, reg.chaosWorkflowsFromYaml)
  }

  /** The loop bodies, one item per definition. */
  function SetUps(ss: seq<(Gvk, Source)>): (ops: seq<Op>)
    ensures |ops| == |ss|
    ensures forall i :: 0 <= i < |ss| ==> ops[i] == SetUpChaos(ss[i].0, ss[i].1)
  {
    seq(|ss|, i requires 0 <= i < |ss| => SetUpChaos(ss[i].0, ss[i].1))
  }

  function SetUpWorkflows(ws: seq<Source>): (ops: seq<Op>)
    ensures |ops| == |ws|
    ensures forall i :: 0 <= i < |ws| ==> ops[i] == SetUpWorkflow(ws[i])
  {
    seq(|ws|, i requires 0 <= i < |ws| => SetUpWorkflow(ws[i]))
  }

  function TearDowns(ss: seq<(Gvk, Source)>): (ops: seq<Op>)
    ensures |ops| == |ss|
    ensures forall i :: 0 <= i < |ss| ==> ops[i] == TearDownChaos(ss[i].0, ss[i].1)
  {
    seq(|ss|, i requires 0 <= i < |ss| => TearDownChaos(ss[i].0, ss[i].1))
  }

  function TearDownWorkflows(ws: seq<Source>): (ops: seq<Op>)
    ensures |ops| == |ws|
    ensures forall i :: 0 <= i < |ws| ==> ops[i] == TearDownWorkflow(ws[i])
  {
    seq(|ws|, i requires 0 <= i < |ws| => TearDownWorkflow(ws[i]))
  }

  /** The six loops of `ConfigureExperiments`, in program order. */
  function ConfigurePhases(reg: RootRegistry, o: RootOrders): seq<seq<Op>>
    requires ValidRootOrders(reg, o)
  {
    [ SetUps(InlineSources(reg, o)),
      SetUps(FileSources(reg, o)),
      SetUps(YamlSources(reg, o)),
      SetUpWorkflows(MapSeq(InlineWorkflow, reg.chaosWorkflows)),
      SetUpWorkflows(MapSeq(WorkflowFile, reg.chaosWorkflowsFromFiles)),
      SetUpWorkflows(MapSeq(WorkflowYaml, reg.chaosWorkflowsFromYaml)) ]
  }

  /** The six loops of `CleanupExperiments`, in program order. */
  function CleanupPhases(reg: RootRegistry, o: RootOrders): seq<seq<Op>>
    requires ValidRootOrders(reg, o)
  {
    [ TearDowns(InlineSources(reg, o)),
      TearDowns(FileSources(reg, o)),
      TearDowns(YamlSources(reg, o)),
      TearDownWorkflows(MapSeq(InlineWorkflow, reg.chaosWorkflows)),
      TearDownWorkflows(MapSeq(WorkflowFile, reg.chaosWorkflowsFromFiles)),
      TearDownWorkflows(MapSeq(WorkflowYaml, reg.chaosWorkflowsFromYaml)) ]
  }

  function Concat(pss: seq<seq<Op>>): seq<Op>
    decreases |pss|
  {
    if pss == [] then [] else pss[0] + Concat(pss[1..])
  }

  /** Loops run one after the other: each starts only if the one before
      it succeeded. */
  function Phases(step: Step, d: Discipline, pss: seq<seq<Op>>, t: Trace): (r: Run)
    requires Appends(step)
    ensures |r.trace| >= |t| && r.trace[..|t|] == t
    ensures d == LogAndContinue ==> !r.outcome.Err?
    decreases |pss|
  {
    if pss == [] then Run(t, Ok)
    else
      var r1 := Loop(step, d, pss[0], t);
      if r1.outcome.Ok? then Phases(step, d, pss[1..], r1.trace) else r1
  }

  /** Consecutive loops behave as one loop over their joined work lists. */
  lemma {:induction false} PhasesIsOneLoop(step: Step, d: Discipline, pss: seq<seq<Op>>, t: Trace)
    requires Appends(step)
    ensures Phases(step, d, pss, t) == Loop(step, d, Concat(pss), t)
    decreases |pss|
  {
    if pss != [] {
      LoopAppend(step, d, pss[0], Concat(pss[1..]), t);
      var r1 := Loop(step, d, pss[0], t);
      if r1.outcome.Ok? {
        PhasesIsOneLoop(step, d, pss[1..], r1.trace);
      }
    }
  }

  /** `ConfigureExperiments`. */
  function Configure(env: Env, reg: RootRegistry, o: RootOrders, t: Trace): (r: Run)
    requires ValidRootOrders(reg, o)
    ensures |r.trace| >= |t| && r.trace[..|t|] == t
  {
    StepInAppends(env);
    Phases(StepIn(env), StopOnError, ConfigurePhases(reg, o), t)
  }

  /** `CleanupExperiments`. */
  function Cleanup(env: Env, reg: RootRegistry, o: RootOrders, t: Trace): (r: Run)
    requires ValidRootOrders(reg, o)
    ensures |r.trace| >= |t| && r.trace[..|t|] == t
    ensures !r.outcome.Err?
  {
    StepInAppends(env);
    Phases(StepIn(env), LogAndContinue, CleanupPhases(reg, o), t)
  }

  /** All configure items, experiments before workflows. */
  function ConfigureWork(reg: RootRegistry, o: RootOrders): seq<Op>
    requires ValidRootOrders(reg, o)
  {
    SetUps(ChaosSources(reg, o)) + SetUpWorkflows(WorkflowSources(reg))
  }

  function CleanupWork(reg: RootRegistry, o: RootOrders): seq<Op>
    requires ValidRootOrders(reg, o)
  {
    TearDowns(ChaosSources(reg, o)) + TearDownWorkflows(WorkflowSources(reg))
  }

  /** Every configure item sets up an experiment or a workflow. */
  lemma SetUpShapes(ss: seq<(Gvk, Source)>, ws: seq<Source>)
    ensures var ops := SetUps(ss) + SetUpWorkflows(ws);
      forall i :: 0 <= i < |ops| ==> ops[i].SetUpChaos? || ops[i].SetUpWorkflow?
  {
    var ops := SetUps(ss) + SetUpWorkflows(ws);
    forall i | 0 <= i < |ops| ensures ops[i].SetUpChaos? || ops[i].SetUpWorkflow? {
      if i >= |ss| {
        assert ops[i] == SetUpWorkflows(ws)[i - |ss|];
      }
    }
  }

  /** Every cleanup item tears down an experiment or a workflow. */
  lemma TearDownShapes(ss: seq<(Gvk, Source)>, ws: seq<Source>)
    ensures var ops := TearDowns(ss) + TearDownWorkflows(ws);
      forall i :: 0 <= i < |ops| ==> ops[i].TearDownChaos? || ops[i].TearDownWorkflow?
  {
    var ops := TearDowns(ss) + TearDownWorkflows(ws);
    forall i | 0 <= i < |ops| ensures ops[i].TearDownChaos? || ops[i].TearDownWorkflow? {
      if i >= |ss| {
        assert ops[i] == TearDownWorkflows(ws)[i - |ss|];
      }
    }
  }

  lemma SetUpsAppend(a: seq<(Gvk, Source)>, b: seq<(Gvk, Source)>)
    ensures SetUps(a + b) == SetUps(a) + SetUps(b)
  {
    assert forall i :: 0 <= i < |a + b| ==> (a + b)[i] == if i < |a| then a[i] else b[i - |a|];
  }

  lemma SetUpWorkflowsAppend(a: seq<Source>, b: seq<Source>)
    ensures SetUpWorkflows(a + b) == SetUpWorkflows(a) + SetUpWorkflows(b)
  {
    assert forall i :: 0 <= i < |a + b| ==> (a + b)[i] == if i < |a| then a[i] else b[i - |a|];
  }

  lemma TearDownsAppend(a: seq<(Gvk, Source)>, b: seq<(Gvk, Source)>)
    ensures TearDowns(a + b) == TearDowns(a) + TearDowns(b)
  {
    assert forall i :: 0 <= i < |a + b| ==> (a + b)[i] == if i < |a| then a[i] else b[i - |a|];
  }

  lemma TearDownWorkflowsAppend(a: seq<Source>, b: seq<Source>)
    ensures TearDownWorkflows(a + b) == TearDownWorkflows(a) + TearDownWorkflows(b)
  {
    assert forall i :: 0 <= i < |a + b| ==> (a + b)[i] == if i < |a| then a[i] else b[i - |a|];
  }

  lemma ConcatCons(x: seq<Op>, rest: seq<seq<Op>>)
    ensures Concat([x] + rest) == x + Concat(rest)
  {
    assert ([x] + rest)[1..] == rest;
  }

  lemma ConcatSix(a: seq<Op>, b: seq<Op>, c: seq<Op>, d: seq<Op>, e: seq<Op>, f: seq<Op>)
    ensures Concat([a, b, c, d, e, f]) == (a + b + c) + (d + e + f)
  {
    assert [a, b, c, d, e, f] == [a] + ([b] + ([c] + ([d] + ([e] + ([f] + [])))));
    ConcatCons(f, []);
    ConcatCons(e, [f]);
    ConcatCons(d, [e, f]);
    ConcatCons(c, [d, e, f]);
    ConcatCons(b, [c, d, e, f]);
    ConcatCons(a, [b, c, d, e, f]);
    assert [e] + [f] == [e, f];
    assert [d] + [e, f] == [d, e, f];
    assert [c] + [d, e, f] == [c, d, e, f];
    assert [b] + [c, d, e, f] == [b, c, d, e, f];
    assert [f] + [] == [f];
  }

  /** Six fixed phases are one list of work. */
  lemma ConfigurePhasesJoin(reg: RootRegistry, o: RootOrders)
    requires ValidRootOrders(reg, o)
    ensures Concat(ConfigurePhases(reg, o)) == ConfigureWork(reg, o)
  {
    var i, f, y := InlineSources(reg, o), FileSources(reg, o), YamlSources(reg, o);
    var wi, wf, wy :=
      MapSeq(InlineWorkflow, reg.chaosWorkflows),
      MapSeq(WorkflowFile, reg.chaosWorkflowsFromFiles),
      MapSeq(WorkflowYaml, reg.chaosWorkflowsFromYaml);
    ConcatSix(SetUps(i), SetUps(f), SetUps(y), SetUpWorkflows(wi), SetUpWorkflows(wf), SetUpWorkflows(wy));
    SetUpWorkflowsAppend(wi, wf);
    SetUpWorkflowsAppend(wi + wf, wy);
    SetUpsAppend(i, f);
    SetUpsAppend(i + f, y);
  }

  lemma CleanupPhasesJoin(reg: RootRegistry, o: RootOrders)
    requires ValidRootOrders(reg, o)
    ensures Concat(CleanupPhases(reg, o)) == CleanupWork(reg, o)
  {
    var i, f, y := InlineSources(reg, o), FileSources(reg, o), YamlSources(reg, o);
    var wi, wf, wy :=
      MapSeq(InlineWorkflow, reg.chaosWorkflows),
      MapSeq(WorkflowFile, reg.chaosWorkflowsFromFiles),
      MapSeq(WorkflowYaml, reg.chaosWorkflowsFromYaml);
    ConcatSix(TearDowns(i), TearDowns(f), TearDowns(y), TearDownWorkflows(wi), TearDownWorkflows(wf), TearDownWorkflows(wy));
    TearDownWorkflowsAppend(wi, wf);
    TearDownWorkflowsAppend(wi + wf, wy);
    TearDownsAppend(i, f);
    TearDownsAppend(i + f, y);
  }

  /** The six configure loops behave as one loop over all items. */
  lemma ConfigureIsOneLoop(env: Env, reg: RootRegistry, o: RootOrders, t: Trace)
    requires ValidRootOrders(reg, o)
    ensures Appends(StepIn(env))
    ensures Configure(env, reg, o, t) == Loop(StepIn(env), StopOnError, ConfigureWork(reg, o), t)
  {
    StepInAppends(env);
    PhasesIsOneLoop(StepIn(env), StopOnError, ConfigurePhases(reg, o), t);
    ConfigurePhasesJoin(reg, o);
  }

  lemma CleanupIsOneLoop(env: Env, reg: RootRegistry, o: RootOrders, t: Trace)
    requires ValidRootOrders(reg, o)
    ensures Appends(StepIn(env))
    ensures Cleanup(env, reg, o, t) == Loop(StepIn(env), LogAndContinue, CleanupWork(reg, o), t)
  {
    StepInAppends(env);
    PhasesIsOneLoop(StepIn(env), LogAndContinue, CleanupPhases(reg, o), t);
    CleanupPhasesJoin(reg, o);
  }

  /** The key an experiment definition is created and deleted under, if it
      resolves. */
  function ChaosKey(dec: Decoder, s: (Gvk, Source)): seq<Key>
  {
    match Resolve(dec, s.0, s.1)
    case Success(d) => [KeyOf(d)]
    case Failure(_) => []
  }

  /** The key a workflow definition is created and deleted under, if it
      resolves. */
  function WorkflowKeyOf(dec: Decoder, s: Source): seq<Key>
  {
    match Resolve(dec, WorkflowGvk, s)
    case Success(wf) => [WorkflowKey(wf)]
    case Failure(_) => []
  }

  function ChaosKeys(dec: Decoder): ((Gvk, Source)) -> seq<Key>
  {
    s => ChaosKey(dec, s)
  }

  function WorkflowKeys(dec: Decoder): Source -> seq<Key>
  {
    s => WorkflowKeyOf(dec, s)
  }

  /** The keys of every owned definition that resolves, experiments before
      workflows. */
  function OwnedKeys(dec: Decoder, reg: RootRegistry, o: RootOrders): seq<Key>
    requires ValidRootOrders(reg, o)
  {
    FlatMap(ChaosKeys(dec), ChaosSources(reg, o)) + FlatMap(WorkflowKeys(dec), WorkflowSources(reg))
  }

  lemma {:induction false} SetUpsAttempt(dec: Decoder, ss: seq<(Gvk, Source)>)
    ensures AllAttempts(dec, SetUps(ss)) == Calls(FlatMap(ChaosKeys(dec), ss), [], [])
    decreases |ss|
  {
    if ss != [] {
      assert SetUps(ss)[1..] == SetUps(ss[1..]);
      SetUpsAttempt(dec, ss[1..]);
    }
  }

  lemma {:induction false} SetUpWorkflowsAttempt(dec: Decoder, ws: seq<Source>)
    ensures AllAttempts(dec, SetUpWorkflows(ws)) == Calls(FlatMap(WorkflowKeys(dec), ws), [], [])
    decreases |ws|
  {
    if ws != [] {
      assert SetUpWorkflows(ws)[1..] == SetUpWorkflows(ws[1..]);
      SetUpWorkflowsAttempt(dec, ws[1..]);
    }
  }

  lemma {:induction false} TearDownsAttempt(dec: Decoder, ss: seq<(Gvk, Source)>)
    ensures AllAttempts(dec, TearDowns(ss)) == Calls([], FlatMap(ChaosKeys(dec), ss), [])
    decreases |ss|
  {
    if ss != [] {
      assert TearDowns(ss)[1..] == TearDowns(ss[1..]);
      TearDownsAttempt(dec, ss[1..]);
    }
  }

  lemma {:induction false} TearDownWorkflowsAttempt(dec: Decoder, ws: seq<Source>)
    ensures AllAttempts(dec, TearDownWorkflows(ws)) == Calls([], FlatMap(WorkflowKeys(dec), ws), [])
    decreases |ws|
  {
    if ws != [] {
      assert TearDownWorkflows(ws)[1..] == TearDownWorkflows(ws[1..]);
      TearDownWorkflowsAttempt(dec, ws[1..]);
    }
  }

  /** Configuring plans one create per owned definition that resolves, and
      cleaning up one delete for each of the same; neither plans anything
      else. */
  lemma WorkAttempts(dec: Decoder, reg: RootRegistry, o: RootOrders)
    requires ValidRootOrders(reg, o)
    ensures AllAttempts(dec, ConfigureWork(reg, o)) == Calls(OwnedKeys(dec, reg, o), [], [])
    ensures AllAttempts(dec, CleanupWork(reg, o)) == Calls([], OwnedKeys(dec, reg, o), [])
  {
    var cs, ws := ChaosSources(reg, o), WorkflowSources(reg);
    AllAttemptsAppend(dec, SetUps(cs), SetUpWorkflows(ws));
    AllAttemptsAppend(dec, TearDowns(cs), TearDownWorkflows(ws));
    SetUpsAttempt(dec, cs);
    SetUpWorkflowsAttempt(dec, ws);
    TearDownsAttempt(dec, cs);
    TearDownWorkflowsAttempt(dec, ws);
  }

  /** The calls of the items a loop started are a prefix of those of the
      whole list, call kind by call kind. */
  lemma AttemptsPrefix(dec: Decoder, ops: seq<Op>, n: nat)
    requires n <= |ops|
    ensures var p, a := AllAttempts(dec, ops[..n]), AllAttempts(dec, ops);
      p.creates <= a.creates && p.deletes <= a.deletes && p.fetches <= a.fetches
  {
    assert ops == ops[..n] + ops[n..];
    AllAttemptsAppend(dec, ops[..n], ops[n..]);
  }

  /** Whatever a stop-on-error loop over `ops` does, its calls are a
      prefix of those `ops` plan, and all of them when it succeeds. */
  lemma StopOnErrorCalls(step: Step, dec: Decoder, ops: seq<Op>, t: Trace)
    requires Appends(step) && KeepsCalls(step, dec)
    ensures var r := Loop(step, StopOnError, ops, t);
      var c, a := CallsOf(r.trace[|t|..]), AllAttempts(dec, ops);
      && c.creates <= a.creates && c.deletes <= a.deletes && c.fetches <= a.fetches
      && (r.outcome.Ok? ==> c == a)
  {
    LoopCalls(step, dec, StopOnError, ops, t);
    LoopRan(step, StopOnError, ops, t);
    AttemptsPrefix(dec, ops, Ran(step, StopOnError, ops, t));
    assert ops[..|ops|] == ops;
  }

  /** Configuring creates the owned definitions that resolve, experiments
      before workflows, stopping early on failure; it never deletes,
      fetches or writes back. When it succeeds it created all of them. */
  lemma ConfigureCalls(env: Env, reg: RootRegistry, o: RootOrders, t: Trace)
    requires ValidRootOrders(reg, o)
    ensures var r := Configure(env, reg, o, t);
      var s := r.trace[|t|..];
      var c := CallsOf(s);
      && c.deletes == [] && c.fetches == [] && Collect(s, UpdateView) == []
      && c.creates <= OwnedKeys(env.decoder, reg, o)
      && (r.outcome.Ok? ==> c.creates == OwnedKeys(env.decoder, reg, o))
  {
    ConfigureIsOneLoop(env, reg, o, t);
    var step, ops := StepIn(env), ConfigureWork(reg, o);
    assert KeepsCalls(step, env.decoder) && KeepsUpdates(step) by {
      StepInFaithful(env);
    }
    StopOnErrorCalls(step, env.decoder, ops, t);
    WorkAttempts(env.decoder, reg, o);
    SetUpShapes(ChaosSources(reg, o), WorkflowSources(reg));
    LoopUpdates(step, StopOnError, ops, t, ClearPause);
    UpdatesNeedFetches(LoopSeg(step, StopOnError, ops, t), ClearPause);
  }

  /** What configuring achieves is a prefix of its items' plans in phase
      order, and all of it when it succeeds. */
  lemma ConfigureEffects(env: Env, reg: RootRegistry, o: RootOrders, t: Trace)
    requires ValidRootOrders(reg, o)
    ensures var r := Configure(env, reg, o, t);
      var e := Collect(r.trace[|t|..], EffectView);
      var plan := AllPlanned(env.decoder, ConfigureWork(reg, o));
      && e <= plan
      && (r.outcome.Ok? ==> e == plan)
  {
    ConfigureIsOneLoop(env, reg, o, t);
    assert KeepsEffects(StepIn(env), env.decoder) by {
      StepInFaithful(env);
    }
    LoopEffects(StepIn(env), env.decoder, ConfigureWork(reg, o), t);
  }

  /** The first loop, over inline experiments. */
  function InlinePhase(env: Env, reg: RootRegistry, o: RootOrders, t: Trace): Run
    requires ValidRootOrders(reg, o)
  {
    StepInAppends(env);
    Loop(StepIn(env), StopOnError, SetUps(InlineSources(reg, o)), t)
  }

  /** The items after the inline experiments: file and text experiments,
      then workflows. */
  function LaterWork(reg: RootRegistry, o: RootOrders): seq<Op>
    requires ValidRootOrders(reg, o)
  {
    SetUps(FileSources(reg, o) + YamlSources(reg, o)) + SetUpWorkflows(WorkflowSources(reg))
  }

  lemma ConfigureWorkSplits(reg: RootRegistry, o: RootOrders)
    requires ValidRootOrders(reg, o)
    ensures ConfigureWork(reg, o) == SetUps(InlineSources(reg, o)) + LaterWork(reg, o)
  {
    SetUpsRegroup(InlineSources(reg, o), FileSources(reg, o), YamlSources(reg, o));
  }

  lemma SetUpsRegroup(a: seq<(Gvk, Source)>, b: seq<(Gvk, Source)>, c: seq<(Gvk, Source)>)
    ensures SetUps(a + b + c) == SetUps(a) + SetUps(b + c)
  {
    assert a + b + c == a + (b + c);
    SetUpsAppend(a, b + c);
  }

  /** Items that set up no inline experiment report nothing to the test. */
  lemma NoneInline(ss: seq<(Gvk, Source)>, ws: seq<Source>)
    requires forall i :: 0 <= i < |ss| ==> !ss[i].1.Inline?
    ensures var ops := SetUps(ss) + SetUpWorkflows(ws);
      forall i :: 0 <= i < |ops| ==> !InlineChaos(ops[i])
  {
    var ops := SetUps(ss) + SetUpWorkflows(ws);
    forall i | 0 <= i < |ops| ensures !InlineChaos(ops[i]) {
      if i < |ss| {
        assert ops[i] == SetUpChaos(ss[i].0, ss[i].1);
      } else {
        assert ops[i] == SetUpWorkflows(ws)[i - |ss|];
      }
    }
  }

  lemma FileAndTextNotInline(reg: RootRegistry, o: RootOrders)
    requires ValidRootOrders(reg, o)
    ensures var ss := FileSources(reg, o) + YamlSources(reg, o);
      forall i :: 0 <= i < |ss| ==> !ss[i].1.Inline?
  {
    var f, y := FileSources(reg, o), YamlSources(reg, o);
    var ss: seq<(Gvk, Source)> := f + y;
    forall i | 0 <= i < |ss| ensures !ss[i].1.Inline? {
      if i < |f| {
        assert ss[i] == AsFile(Flatten(o.files, reg.chaosFromFiles)[i]);
      } else {
        assert ss[i] == AsYaml(Flatten(o.yaml, reg.chaosFromYaml)[i - |f|]);
      }
    }
  }

  /** A stop-on-error loop over inline experiments followed by other items
      reports to the test only what the first part returns. */
  lemma SplitReports(step: Step, first: seq<Op>, later: seq<Op>, t: Trace)
    requires Appends(step) && KeepsReports(step)
    requires forall i :: 0 <= i < |first| ==> InlineChaos(first[i])
    requires forall i :: 0 <= i < |later| ==> !InlineChaos(later[i])
    ensures var r1 := Loop(step, StopOnError, first, t);
      var r := Loop(step, StopOnError, first + later, t);
      && (r1.outcome.Err? ==> r.outcome == r1.outcome)
      && Collect(r.trace[|t|..], ReportView) == if r1.outcome.Err? then [r.outcome.error] else []
  {
    var r1 := Loop(step, StopOnError, first, t);
    LoopAppend(step, StopOnError, first, later, t);
    LoopReportsInline(step, first, t);
    if r1.outcome.Ok? {
      LaterReports(step, first, later, t);
    }
  }

  lemma LaterReports(step: Step, first: seq<Op>, later: seq<Op>, t: Trace)
    requires Appends(step) && KeepsReports(step)
    requires forall i :: 0 <= i < |later| ==> !InlineChaos(later[i])
    requires Loop(step, StopOnError, first, t).outcome.Ok?
    requires Collect(LoopSeg(step, StopOnError, first, t), ReportView) == []
    ensures Collect(Loop(step, StopOnError, first + later, t).trace[|t|..], ReportView) == []
  {
    var r1 := Loop(step, StopOnError, first, t);
    LoopAppend(step, StopOnError, first, later, t);
    LoopReportsNone(step, StopOnError, later, r1.trace);
    NothingJoined(t, r1.trace, Loop(step, StopOnError, later, r1.trace).trace, ReportView);
  }

  /** Two consecutive segments that show nothing in a view join into one
      that shows nothing. */
  lemma NothingJoined<M>(t: Trace, x: Trace, z: Trace, f: Event -> seq<M>)
    requires |t| <= |x| <= |z| && x[..|t|] == t && z[..|x|] == x
    requires Collect(x[|t|..], f) == [] && Collect(z[|x|..], f) == []
    ensures Collect(z[|t|..], f) == []
  {
    assert z[|t|..] == x[|t|..] + z[|x|..];
    CollectAppend(x[|t|..], z[|x|..], f);
  }

  lemma InlineSourcesInline(reg: RootRegistry, o: RootOrders)
    requires ValidRootOrders(reg, o)
    ensures var first := SetUps(InlineSources(reg, o));
      forall i :: 0 <= i < |first| ==> InlineChaos(first[i])
  {
    var ss := InlineSources(reg, o);
    forall i | 0 <= i < |ss| ensures ss[i].1.Inline? {
      assert ss[i] == AsInline(Flatten(o.chaos, reg.chaos)[i]);
    }
  }

  /** `t.Error` is called only when an inline experiment fails to be set
      up, with the error configuring returns; file and text experiments
      and workflows fail silently. */
  lemma ConfigureReports(env: Env, reg: RootRegistry, o: RootOrders, t: Trace)
    requires ValidRootOrders(reg, o)
    ensures var r1 := InlinePhase(env, reg, o, t);
      var r := Configure(env, reg, o, t);
      && (r1.outcome.Err? ==> r.outcome == r1.outcome)
      && Collect(r.trace[|t|..], ReportView) == if r1.outcome.Err? then [r.outcome.error] else []
  {
    ConfigureIsOneLoop(env, reg, o, t);
    ConfigureWorkSplits(reg, o);
    assert KeepsReports(StepIn(env)) by {
      StepInFaithful(env);
    }
    InlineSourcesInline(reg, o);
    FileAndTextNotInline(reg, o);
    NoneInline(FileSources(reg, o) + YamlSources(reg, o), WorkflowSources(reg));
    SplitReports(StepIn(env), SetUps(InlineSources(reg, o)), LaterWork(reg, o), t);
  }

  /** Configuring logs nothing. */
  lemma ConfigureLogsNothing(env: Env, reg: RootRegistry, o: RootOrders, t: Trace)
    requires ValidRootOrders(reg, o)
    ensures Collect(Configure(env, reg, o, t).trace[|t|..], LogView) == []
  {
    ConfigureIsOneLoop(env, reg, o, t);
    assert KeepsLogs(StepIn(env)) by {
      StepInFaithful(env);
    }
    LoopLogs(StepIn(env), StopOnError, ConfigureWork(reg, o), t);
  }

  /** Configuring stops at its first failing item, in whichever phase,
      and returns exactly that item's outcome: every item before it, in
      this phase and the earlier ones, succeeded. */
  lemma ConfigureStopsAtFirstFailure(env: Env, reg: RootRegistry, o: RootOrders, t: Trace)
    requires ValidRootOrders(reg, o)
    requires !Configure(env, reg, o, t).outcome.Ok?
    ensures var ops := ConfigureWork(reg, o);
      var n := Ran(StepIn(env), StopOnError, ops, t);
      && 0 < n <= |ops|
      && var before := Loop(StepIn(env), StopOnError, ops[..n - 1], t);
         && before.outcome.Ok?
         && Configure(env, reg, o, t) == RunOp(env, ops[n - 1], before.trace)
  {
    ConfigureIsOneLoop(env, reg, o, t);
    LoopStop(StepIn(env), StopOnError, ConfigureWork(reg, o), t);
  }

  /** Configuring panics only on a readiness observation of an experiment
      whose status is not a map; waiting for a workflow never panics. */
  lemma ConfigureCrash(env: Env, reg: RootRegistry, o: RootOrders, t: Trace)
    requires ValidRootOrders(reg, o)
    requires Configure(env, reg, o, t).outcome.Crash?
    ensures var ops := ConfigureWork(reg, o);
      var n := Ran(StepIn(env), StopOnError, ops, t);
      var s := Configure(env, reg, o, t).trace[|t|..];
      && 0 < n <= |ops| && ops[n - 1].SetUpChaos?
      && |s| > 0 && ObservedPanic(s[|s| - 1])
  {
    ConfigureIsOneLoop(env, reg, o, t);
    var step, ops := StepIn(env), ConfigureWork(reg, o);
    assert KeepsCrashes(step) by {
      StepInFaithful(env);
    }
    LoopCrash(step, StopOnError, ops, t);
    var n := Ran(step, StopOnError, ops, t);
    var s := LoopSeg(step, StopOnError, ops, t);
    SetUpShapes(ChaosSources(reg, o), WorkflowSources(reg));
    SetUpPanicPoint(ops[n - 1], s[|s| - 1]);
  }

  /** Of the set-up items, only an experiment's can panic, on its
      readiness poll. */
  lemma SetUpPanicPoint(op: Op, e: Event)
    requires op.SetUpChaos? || op.SetUpWorkflow?
    requires PanicPoint(op, e)
    ensures op.SetUpChaos? && ObservedPanic(e)
  {
  }


  /** No cleanup item can panic: none sets up an experiment or pauses. */
  lemma CleanupCannotPanic(env: Env, reg: RootRegistry, o: RootOrders, t: Trace)
    requires ValidRootOrders(reg, o)
    ensures Cleanup(env, reg, o, t).outcome.Ok?
  {
    CleanupIsOneLoop(env, reg, o, t);
    var step, ops := StepIn(env), CleanupWork(reg, o);
    assert KeepsCrashes(step) by {
      StepInFaithful(env);
    }
    TearDownShapes(ChaosSources(reg, o), WorkflowSources(reg));
    LoopPanics(step, LogAndContinue, ops, t);
  }

  /** A loop whose items neither pause nor fetch writes nothing back. */
  lemma WritesNothing(step: Step, dec: Decoder, d: Discipline, ops: seq<Op>, t: Trace)
    requires Appends(step) && KeepsUpdates(step)
    requires forall i :: 0 <= i < |ops| ==> !ops[i].Pause?
    requires CallsOf(LoopSeg(step, d, ops, t)).fetches == []
    ensures Collect(LoopSeg(step, d, ops, t), UpdateView) == []
  {
    assert forall i :: 0 <= i < |ops| ==> Compatible(ops[i], ClearPause);
    LoopUpdates(step, d, ops, t, ClearPause);
    UpdatesNeedFetches(LoopSeg(step, d, ops, t), ClearPause);
  }

  /** Cleaning up always returns nil, and tries to delete every owned
      definition that resolves, whatever fails; it never creates,
      fetches or writes back. */
  lemma CleanupCalls(env: Env, reg: RootRegistry, o: RootOrders, t: Trace)
    requires ValidRootOrders(reg, o)
    ensures var r := Cleanup(env, reg, o, t);
      var s := r.trace[|t|..];
      var c := CallsOf(s);
      && r.outcome.Ok?
      && c.creates == [] && c.fetches == [] && Collect(s, UpdateView) == []
      && c.deletes == OwnedKeys(env.decoder, reg, o)
  {
    CleanupCannotPanic(env, reg, o, t);
    CleanupIsOneLoop(env, reg, o, t);
    var step, ops := StepIn(env), CleanupWork(reg, o);
    assert KeepsCalls(step, env.decoder) by {
      StepInFaithful(env);
    }
    LoopCalls(step, env.decoder, LogAndContinue, ops, t);
    LoopRan(step, LogAndContinue, ops, t);
    assert ops[..|ops|] == ops;
    WorkAttempts(env.decoder, reg, o);
    CleanupWritesNothing(env, reg, o, t);
  }

  lemma CleanupWritesNothing(env: Env, reg: RootRegistry, o: RootOrders, t: Trace)
    requires ValidRootOrders(reg, o)
    requires CallsOf(Cleanup(env, reg, o, t).trace[|t|..]).fetches == []
    ensures Collect(Cleanup(env, reg, o, t).trace[|t|..], UpdateView) == []
  {
    CleanupIsOneLoop(env, reg, o, t);
    var ops := CleanupWork(reg, o);
    assert KeepsUpdates(StepIn(env)) by {
      StepInFaithful(env);
    }
    TearDownShapes(ChaosSources(reg, o), WorkflowSources(reg));
    WritesNothing(StepIn(env), env.decoder, LogAndContinue, ops, t);
  }

  /** Cleaning up runs every item and logs the error of each that failed,
      in order. */
  lemma CleanupLogs(env: Env, reg: RootRegistry, o: RootOrders, t: Trace)
    requires ValidRootOrders(reg, o)
    ensures var s := Cleanup(env, reg, o, t).trace[|t|..];
      var os := Outcomes(StepIn(env), LogAndContinue, CleanupWork(reg, o), t);
      && |os| == |CleanupWork(reg, o)|
      && Collect(s, LogView) == Errors(os)
  {
    CleanupCannotPanic(env, reg, o, t);
    CleanupIsOneLoop(env, reg, o, t);
    var step, ops := StepIn(env), CleanupWork(reg, o);
    assert KeepsLogs(step) by {
      StepInFaithful(env);
    }
    LoopLogs(step, LogAndContinue, ops, t);
    LoopRan(step, LogAndContinue, ops, t);
  }

  /** Cleaning up never reports an error to the test. */
  lemma CleanupReportsNothing(env: Env, reg: RootRegistry, o: RootOrders, t: Trace)
    requires ValidRootOrders(reg, o)
    ensures Collect(Cleanup(env, reg, o, t).trace[|t|..], ReportView) == []
  {
    CleanupIsOneLoop(env, reg, o, t);
    var step, ops := StepIn(env), CleanupWork(reg, o);
    assert KeepsReports(step) by {
      StepInFaithful(env);
    }
    TearDownShapes(ChaosSources(reg, o), WorkflowSources(reg));
    LoopReportsNone(step, LogAndContinue, ops, t);
  }

  /** A cleanup item whose file or text does not resolve makes no call and
      fails with the resolution error, which is logged rather than
      returned. */
  lemma CleanupUnresolved(env: Env, reg: RootRegistry, o: RootOrders, t: Trace, i: nat)
    requires ValidRootOrders(reg, o)
    requires i < |CleanupWork(reg, o)|
    requires ItemDocument(env.decoder, CleanupWork(reg, o)[i]).Failure?
    ensures var os := Outcomes(StepIn(env), LogAndContinue, CleanupWork(reg, o), t);
      && i < |os|
      && os[i] == Err(ItemDocument(env.decoder, CleanupWork(reg, o)[i]).error)
      && Attempts(env.decoder, CleanupWork(reg, o)[i]) == NoCalls
  {
    CleanupCannotPanic(env, reg, o, t);
    CleanupIsOneLoop(env, reg, o, t);
    var ops := CleanupWork(reg, o);
    LoopRan(StepIn(env), LogAndContinue, ops, t);
    OutcomeOfItem(StepIn(env), LogAndContinue, ops, t, i);
    TearDownShapes(ChaosSources(reg, o), WorkflowSources(reg));
    UnresolvedTearDown(env, ops[i], ItemStart(StepIn(env), LogAndContinue, ops, t, i));
  }

  /** A tear-down whose definition does not resolve fails with the
      resolution error before any call. */
  lemma UnresolvedTearDown(env: Env, op: Op, t: Trace)
    requires op.TearDownChaos? || op.TearDownWorkflow?
    requires ItemDocument(env.decoder, op).Failure?
    ensures RunOp(env, op, t) == Run(t, Err(ItemDocument(env.decoder, op).error))
    ensures Attempts(env.decoder, op) == NoCalls
  {
  }

  /** Every map phase visits the same definitions whatever its order. */
  lemma ChaosSourcesPermute(reg: RootRegistry, o1: RootOrders, o2: RootOrders)
    requires ValidRootOrders(reg, o1) && ValidRootOrders(reg, o2)
    ensures multiset(ChaosSources(reg, o1)) == multiset(ChaosSources(reg, o2))
  {
    FlattenIsOrderIndependent(o1.chaos, o2.chaos, reg.chaos);
    MapSeqPermutation(AsInline, Flatten(o1.chaos, reg.chaos), Flatten(o2.chaos, reg.chaos));
    FlattenIsOrderIndependent(o1.files, o2.files, reg.chaosFromFiles);
    MapSeqPermutation(AsFile, Flatten(o1.files, reg.chaosFromFiles), Flatten(o2.files, reg.chaosFromFiles));
    FlattenIsOrderIndependent(o1.yaml, o2.yaml, reg.chaosFromYaml);
    MapSeqPermutation(AsYaml, Flatten(o1.yaml, reg.chaosFromYaml), Flatten(o2.yaml, reg.chaosFromYaml));
  }

  /** Cleaning up tries to delete everything configuring created, each as
      often, whatever orders the map ranges take and whatever the cluster
      does meanwhile, provided files and texts resolve as they did; when
      configuring succeeded, it deletes exactly that. */
  lemma CleanupUndoesConfigure(env: Env, env2: Env, reg: RootRegistry, o1: RootOrders, o2: RootOrders, t: Trace, t2: Trace)
    requires ValidRootOrders(reg, o1) && ValidRootOrders(reg, o2)
    requires env2.decoder == env.decoder
    ensures var configured := Configure(env, reg, o1, t);
      var created := multiset(CallsOf(configured.trace[|t|..]).creates);
      var deleted := multiset(CallsOf(Cleanup(env2, reg, o2, t2).trace[|t2|..]).deletes);
      && created <= deleted
      && (configured.outcome.Ok? ==> created == deleted)
  {
    var dec := env.decoder;
    ConfigureCalls(env, reg, o1, t);
    CleanupCalls(env2, reg, o2, t2);
    PrefixMultiset(CallsOf(Configure(env, reg, o1, t).trace[|t|..]).creates, OwnedKeys(dec, reg, o1));
    ChaosSourcesPermute(reg, o1, o2);
    FlatMapPermutation(ChaosKeys(dec), ChaosSources(reg, o1), ChaosSources(reg, o2));
  }
}
