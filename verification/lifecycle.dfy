/** The per-item steps of the experiments configurator: create and wait,
    delete, enable and pause a borrowed experiment, and the two loop
    disciplines that drive them (stop at the first error while configuring,
    log and carry on while cleaning up). Both configurator variants are
    built from these. */
module Lifecycle {
  import opened Types
  import opened Conditions
  import opened PauseAnnotations
  import opened Cluster

  /** Create a resource, then poll its readiness. Shared by `createChaos`
      (experiments, AllInjected) and `createChaosWorkflow` (Scheduled). */
  function CreateAndWait(w: World, target: Target, key: Key, pollKey: Key, t: Trace): (r: Run)
    ensures |r.trace| > |t| && r.trace[..|t|] == t
    ensures r.trace[|t|] == CreateCall(key, w.create(|t|))
    // a failed create is returned as is, without polling
    ensures w.create(|t|).Some? ==> r == Run(t + [CreateCall(key, w.create(|t|))], Err(w.create(|t|).value))
    ensures w.create(|t|).None? ==> |t| + 1 < |r.trace| <= |t| + 1 + MaxObservations
    ensures r.outcome.Ok? <==>
      w.create(|t|).None? && |r.trace| > |t| + 1 && ObservedAt(w, target, |r.trace| - 1) == Ready
    ensures r.outcome.Err? && w.create(|t|).None? ==> r.outcome.error == WaitTimeout
    ensures r.outcome.Crash? ==> target == Experiment && ObservedAt(w, target, |r.trace| - 1) == Panic
  {
    var err := w.create(|t|);
    var t1 := t + [CreateCall(key, err)];
    if err.Some? then Run(t1, Err(err.value))
    else
      var p := PollImmediate(w, target, pollKey, |t1|);
      var tr := t1 + p.observed;
      var last := |t1| + |p.observed| - 1;
      assert |tr| - 1 == last;
      assert p.outcome.Ok? <==> ObservedAt(w, target, last) == Ready;
      assert p.outcome.Crash? ==> ObservedAt(w, target, last) == Panic;
      assert ObservedAt(w, target, last) == Panic ==> target == Experiment;
      Run(tr, p.outcome)
  }

  /** After a successful create, every later event is a readiness
      observation of `pollKey` made at its own call position, and every
      observation but the last said "not yet". */
  lemma CreateAndWaitObserves(w: World, target: Target, key: Key, pollKey: Key, t: Trace)
    requires w.create(|t|).None?
    ensures var r := CreateAndWait(w, target, key, pollKey, t);
      && (forall i :: |t| < i < |r.trace| ==> r.trace[i] == Observe(target, pollKey, w.get(i)))
      && (forall i :: |t| < i < |r.trace| - 1 ==> ObservedAt(w, target, i) == NotYet)
  {
    var p := PollImmediate(w, target, pollKey, |t| + 1);
    CreateAndWaitPolls(w, target, key, pollKey, t);
    ObservesTail(w, target, pollKey, t, CreateCall(key, w.create(|t|)), p.observed);
  }

  /** After a successful create, the run is the create followed by the
      poll. */
  lemma CreateAndWaitPolls(w: World, target: Target, key: Key, pollKey: Key, t: Trace)
    requires w.create(|t|).None?
    ensures var r := CreateAndWait(w, target, key, pollKey, t);
      var p := PollImmediate(w, target, pollKey, |t| + 1);
      r == Run(t + [CreateCall(key, w.create(|t|))] + p.observed, p.outcome)
  {
  }

  /** Observations appended after one more event sit at their own call
      positions. */
  lemma ObservesTail(w: World, target: Target, key: Key, t: Trace, e: Event, obs: Trace)
    requires ObservesFrom(w, target, key, |t| + 1, obs)
    requires PendingBetween(w, target, |t| + 1, |t| + 1 + |obs| - 1)
    ensures var tr := t + [e] + obs;
      && (forall i :: |t| < i < |tr| ==> tr[i] == Observe(target, key, w.get(i)))
      && (forall i :: |t| < i < |tr| - 1 ==> ObservedAt(w, target, i) == NotYet)
  {
    var tr := t + [e] + obs;
    forall i | |t| < i < |tr| ensures tr[i] == Observe(target, key, w.get(i)) {
      assert tr[i] == obs[i - |t| - 1];
      assert |t| + 1 + (i - |t| - 1) == i;
    }
  }

  /** `createChaos(gvk, obj)`: creates `obj` as it is; a failed create is
      returned at once; otherwise every later call reads the experiment of
      kind `gvk` with the same namespace and name, every read but the last
      found it not yet injected, and the run succeeds exactly when the last
      read found it injected. */
  function CreateChaos(w: World, gvk: Gvk, obj: Document, t: Trace): (r: Run)
    ensures |r.trace| > |t| && r.trace[..|t|] == t
    ensures r.trace[|t|] == CreateCall(KeyOf(obj), w.create(|t|))
    ensures w.create(|t|).Some? ==> r.trace == t + [r.trace[|t|]] && r.outcome == Err(w.create(|t|).value)
    ensures w.create(|t|).None? ==>
      && ObservesFrom(w, Experiment, Key(gvk, obj.namespace, obj.name), |t| + 1, r.trace[|t| + 1..])
      && PendingBetween(w, Experiment, |t| + 1, |r.trace| - 1)
    ensures r.outcome.Ok? <==>
      w.create(|t|).None? && |r.trace| > |t| + 1 && ObservedAt(w, Experiment, |r.trace| - 1) == Ready
  {
    var pollKey := Key(gvk, obj.namespace, obj.name);
    var r := CreateAndWait(w, Experiment, KeyOf(obj), pollKey, t);
    if w.create(|t|).Some? then r
    else
      CreateAndWaitPolls(w, Experiment, KeyOf(obj), pollKey, t);
      assert r.trace[|t| + 1..] == PollImmediate(w, Experiment, pollKey, |t| + 1).observed;
      r
  }

  /** `createChaosWorkflow(wf)`: creates the workflow, then reads that same
      workflow until it is scheduled. A workflow read never panics, so the
      run never crashes. */
  function CreateWorkflow(w: World, wf: Document, t: Trace): (r: Run)
    ensures |r.trace| > |t| && r.trace[..|t|] == t
    ensures r.trace[|t|] == CreateCall(WorkflowKey(wf), w.create(|t|))
    ensures w.create(|t|).Some? ==> r.trace == t + [r.trace[|t|]] && r.outcome == Err(w.create(|t|).value)
    ensures w.create(|t|).None? ==>
      && ObservesFrom(w, Workflow, WorkflowKey(wf), |t| + 1, r.trace[|t| + 1..])
      && PendingBetween(w, Workflow, |t| + 1, |r.trace| - 1)
    ensures r.outcome.Ok? <==>
      w.create(|t|).None? && |r.trace| > |t| + 1 && ObservedAt(w, Workflow, |r.trace| - 1) == Ready
    ensures !r.outcome.Crash?
  {
    var r := CreateAndWait(w, Workflow, WorkflowKey(wf), WorkflowKey(wf), t);
    if w.create(|t|).Some? then r
    else
      CreateAndWaitPolls(w, Workflow, WorkflowKey(wf), WorkflowKey(wf), t);
      assert r.trace[|t| + 1..] == PollImmediate(w, Workflow, WorkflowKey(wf), |t| + 1).observed;
      r
  }

  /** `deleteChaos` / `deleteChaosWorkflow`: one delete call, whose error is
      returned. */
  function DeleteResource(w: World, key: Key, t: Trace): (r: Run)
    ensures r.trace == t + [DeleteCall(key, w.delete(|t|))]
    ensures r.outcome.Ok? <==> w.delete(|t|).None?
    ensures r.outcome.Err? ==> r.outcome == Err(w.delete(|t|).value)
  {
    var err := w.delete(|t|);
    Run(t + [DeleteCall(key, err)], if err.Some? then Err(err.value) else Ok)
  }

  /** The document a fetch of `key` returned. */
  function Fetched(key: Key, obj: Object): Document
  {
    Document(key.gvk, key.namespace, key.name, obj)
  }

  function RefKey(gvk: Gvk, ref: NamespacedName): Key
  {
    Key(gvk, ref.namespace, ref.name)
  }

  /** `enableExistingChaos`: fetch the borrowed experiment and write it back
      without its pause key. Never creates or deletes anything. */
  function EnableExisting(w: World, gvk: Gvk, ref: NamespacedName, t: Trace): (r: Run)
    ensures |r.trace| > |t| && r.trace[..|t|] == t
    ensures r.trace[|t|] == FetchCall(RefKey(gvk, ref), w.get(|t|))
    ensures w.get(|t|).Failure? ==> r == Run(t + [r.trace[|t|]], Err(w.get(|t|).error))
    ensures w.get(|t|).Success? ==>
      var fetched := Fetched(RefKey(gvk, ref), w.get(|t|).value);
      && |r.trace| == |t| + 2
      && r.trace[|t| + 1] == UpdateCall(
           fetched.(body := fetched.body.(annotations := WithoutPause(fetched.body.annotations))),
           w.update(|t| + 1))
      && r.outcome == (if w.update(|t| + 1).Some? then Err(w.update(|t| + 1).value) else Ok)
  {
    var key := RefKey(gvk, ref);
    var reply := w.get(|t|);
    var t1 := t + [FetchCall(key, reply)];
    match reply
    case Failure(e) => Run(t1, Err(e))
    case Success(obj) =>
      var doc := Fetched(key, obj);
      var doc' := doc.(body := obj.(annotations := WithoutPause(obj.annotations)));
      var err := w.update(|t1|);
      Run(t1 + [UpdateCall(doc', err)], if err.Some? then Err(err.value) else Ok)
  }

  /** `pauseExistingChaos`: fetch the borrowed experiment and write it back
      with the pause key set. A fetched object without annotations has a nil
      map, and writing into it panics. */
  function PauseExisting(w: World, gvk: Gvk, ref: NamespacedName, t: Trace): (r: Run)
    ensures |r.trace| > |t| && r.trace[..|t|] == t
    ensures r.trace[|t|] == FetchCall(RefKey(gvk, ref), w.get(|t|))
    ensures w.get(|t|).Failure? ==> r == Run(t + [r.trace[|t|]], Err(w.get(|t|).error))
    ensures r.outcome.Crash? <==> w.get(|t|).Success? && w.get(|t|).value.annotations.None?
    ensures r.outcome.Crash? ==> r.trace == t + [r.trace[|t|]]
    ensures w.get(|t|).Success? && w.get(|t|).value.annotations.Some? ==>
      var fetched := Fetched(RefKey(gvk, ref), w.get(|t|).value);
      && |r.trace| == |t| + 2
      && r.trace[|t| + 1] == UpdateCall(
           fetched.(body := fetched.body.(annotations := Some(WithPause(fetched.body.annotations.value)))),
           w.update(|t| + 1))
      && r.outcome == (if w.update(|t| + 1).Some? then Err(w.update(|t| + 1).value) else Ok)
  {
    var key := RefKey(gvk, ref);
    var reply := w.get(|t|);
    var t1 := t + [FetchCall(key, reply)];
    match reply
    case Failure(e) => Run(t1, Err(e))
    case Success(obj) =>
      match obj.annotations
      case None => Run(t1, Crash)
      case Some(m) =>
        var doc := Fetched(key, obj);
        var doc' := doc.(body := obj.(annotations := Some(WithPause(m))));
        var err := w.update(|t1|);
        Run(t1 + [UpdateCall(doc', err)], if err.Some? then Err(err.value) else Ok)
  }

  /** Where an owned definition comes from: an inline object, a file path,
      or embedded text. */
  datatype Source = Inline(doc: Document) | File(path: string) | Yaml(text: string)

  /** `unmarshalFile` / `unmarshalYaml` into an object preset to `gvk`; an
      inline object is already resolved. */
  function Resolve(dec: Decoder, gvk: Gvk, src: Source): (r: Result<Document>)
    ensures src.Inline? ==> r == Success(src.doc)
  {
    match src
    case Inline(d) => Success(d)
    case File(p) => dec.file(gvk, p)
    case Yaml(x) => dec.yaml(gvk, x)
  }

  /** One iteration of one of the configurator's loops. */
  datatype Op =
    | SetUpChaos(gvk: Gvk, src: Source)
    | SetUpWorkflow(src: Source)
    | Enable(gvk: Gvk, ref: NamespacedName)
    | TearDownChaos(gvk: Gvk, src: Source)
    | TearDownWorkflow(src: Source)
    | Pause(gvk: Gvk, ref: NamespacedName)

  /** Runs one loop iteration. The inline-experiment loop of
      `ConfigureExperiments` also reports its error with `t.Error`; a file or
      text that does not resolve fails before any call is made. */
  function RunOp(env: Env, op: Op, t: Trace): (r: Run)
    ensures |r.trace| >= |t| && r.trace[..|t|] == t
    // only waiting for an experiment and pausing a borrowed one can panic
    ensures r.outcome.Crash? ==> op.SetUpChaos? || op.Pause?
    // an item whose definition does not resolve fails before any call
    ensures !op.Enable? && !op.Pause? && ItemDocument(env.decoder, op).Failure? ==>
      r == Run(t, Err(ItemDocument(env.decoder, op).error))
  {
    var w := env.world;
    match op
    case SetUpChaos(gvk, src) =>
      (match Resolve(env.decoder, gvk, src)
       case Failure(e) => Run(t, Err(e))
       case Success(doc) =>
         var r := CreateChaos(w, gvk, doc, t);
         if src.Inline? && r.outcome.Err? then Run(r.trace + [TestError(r.outcome.error)], r.outcome) else r)
    case SetUpWorkflow(src) =>
      (match Resolve(env.decoder, WorkflowGvk, src)
       case Failure(e) => Run(t, Err(e))
       case Success(wf) => CreateWorkflow(w, wf, t))
    case Enable(gvk, ref) => EnableExisting(w, gvk, ref, t)
    case TearDownChaos(gvk, src) =>
      (match Resolve(env.decoder, gvk, src)
       case Failure(e) => Run(t, Err(e))
       case Success(doc) => DeleteResource(w, KeyOf(doc), t))
    case TearDownWorkflow(src) =>
      (match Resolve(env.decoder, WorkflowGvk, src)
       case Failure(e) => Run(t, Err(e))
       case Success(wf) => DeleteResource(w, WorkflowKey(wf), t))
    case Pause(gvk, ref) => PauseExisting(w, gvk, ref, t)
  }

  /** The calls a trace segment attempts, whatever their replies. */
  datatype Calls = Calls(creates: seq<Key>, deletes: seq<Key>, fetches: seq<Key>)

  const NoCalls := Calls([], [], [])

  function CallsOf(s: Trace): Calls
  {
    Calls(Collect(s, CreateView), Collect(s, DeleteView), Collect(s, FetchView))
  }

  function Plus(a: Calls, b: Calls): Calls
  {
    Calls(a.creates + b.creates, a.deletes + b.deletes, a.fetches + b.fetches)
  }

  lemma CallsAppend(a: Trace, b: Trace)
    ensures CallsOf(a + b) == Plus(CallsOf(a), CallsOf(b))
  {
    CollectAppend(a, b, CreateView);
    CollectAppend(a, b, DeleteView);
    CollectAppend(a, b, FetchView);
  }

  /** What a create-and-wait contributes to each view: one create
      attempt, then nothing but observations; the create, and the
      confirmation when the wait succeeds, are its effects. */
  lemma CreateAndWaitViews(w: World, target: Target, key: Key, pollKey: Key, t: Trace)
    ensures var r := CreateAndWait(w, target, key, pollKey, t);
      var s := r.trace[|t|..];
      && CallsOf(s) == Calls([key], [], [])
      && Collect(s, UpdateView) == [] && Collect(s, LogView) == [] && Collect(s, ReportView) == []
      && Collect(s, EffectView) ==
           if w.create(|t|).Some? then [] else [Created(key)] + (if r.outcome.Ok? then [Confirmed(pollKey)] else [])
  {
    var err := w.create(|t|);
    var e := CreateCall(key, err);
    var r := CreateAndWait(w, target, key, pollKey, t);
    CollectSingle(e);
    if err.Some? {
      assert r.trace[|t|..] == [e];
    } else {
      var at := |t| + 1;
      var q := Poll(w, target, pollKey, w.observations(at), at);
      assert r.trace == t + [e] + q.observed;
      assert r.trace[|t|..] == [e] + q.observed;
      PollObservations(w, target, pollKey, w.observations(at), at);
      ObservationsAreQuiet(q.observed);
      PollEffects(w, target, pollKey, w.observations(at), at);
      QuietAppend([e], q.observed);
      CollectAppend([e], q.observed, EffectView);
      CollectAppend([e], q.observed, CreateView);
    }
  }

  /** The document a set-up or tear-down item stands for, and the kind its
      resolution starts from. */
  function ItemKind(op: Op): Gvk
    requires !op.Enable? && !op.Pause?
  {
    if op.SetUpChaos? || op.TearDownChaos? then op.gvk else WorkflowGvk
  }

  function ItemDocument(dec: Decoder, op: Op): Result<Document>
    requires !op.Enable? && !op.Pause?
  {
    Resolve(dec, ItemKind(op), op.src)
  }

  /** The key an owned item is created and deleted under. */
  function ItemKey(op: Op, d: Document): Key
  {
    if op.SetUpWorkflow? || op.TearDownWorkflow? then WorkflowKey(d) else KeyOf(d)
  }

  /** The calls an item attempts: its create, delete or fetch, unless its
      definition does not resolve. These do not depend on the cluster. */
  function Attempts(dec: Decoder, op: Op): Calls
  {
    if op.Enable? || op.Pause? then Calls([], [], [RefKey(op.gvk, op.ref)])
    else
      match ItemDocument(dec, op)
      case Failure(_) => NoCalls
      case Success(d) =>
        if op.SetUpChaos? || op.SetUpWorkflow? then Calls([ItemKey(op, d)], [], [])
        else Calls([], [ItemKey(op, d)], [])
  }

  /** What an item achieves when it succeeds. Experiments are confirmed
      under the kind they were registered with. */
  function Planned(dec: Decoder, op: Op): seq<Milestone>
  {
    if op.Enable? || op.Pause? then [Updated(RefKey(op.gvk, op.ref))]
    else
      match ItemDocument(dec, op)
      case Failure(_) => []
      case Success(d) =>
        match op
        case SetUpChaos(gvk, _) => [Created(KeyOf(d)), Confirmed(Key(gvk, d.namespace, d.name))]
        case SetUpWorkflow(_) => [Created(WorkflowKey(d)), Confirmed(WorkflowKey(d))]
        case _ => [Removed(ItemKey(op, d))]
  }

  /** The annotation edit a loop applies to borrowed experiments. */
  datatype Toggle = ClearPause | SetPause

  /** The annotations an update writes for a fetched object. A nil map
      never reaches a pausing update: the write into it panics first. */
  function Edited(toggle: Toggle, a: Option<Annotations>): Option<Annotations>
  {
    match toggle
    case ClearPause => WithoutPause(a)
    case SetPause => if a.Some? then Some(WithPause(a.value)) else None
  }

  /** Every update in `s` writes back the object fetched just before it,
      under the fetched identity, with only its annotations edited. */
  predicate UpdatesFollow(s: Trace, toggle: Toggle)
  {
    forall i :: 0 <= i < |s| && s[i].UpdateCall? ==>
      && 0 < i && s[i - 1].FetchCall? && s[i - 1].reply.Success?
      && var obj := s[i - 1].reply.value;
         s[i].doc == Fetched(s[i - 1].key, obj.(annotations := Edited(toggle, obj.annotations)))
  }

  /** A segment without updates satisfies any update discipline. */
  lemma NoUpdates(s: Trace, toggle: Toggle)
    requires Collect(s, UpdateView) == []
    ensures UpdatesFollow(s, toggle)
  {
    forall i | 0 <= i < |s| ensures !s[i].UpdateCall? {
      CollectIndex(s, UpdateView, i);
    }
  }

  lemma UpdatesFollowAppend(a: Trace, b: Trace, toggle: Toggle)
    requires UpdatesFollow(a, toggle) && UpdatesFollow(b, toggle)
    ensures UpdatesFollow(a + b, toggle)
  {
    forall i | 0 <= i < |a + b| && (a + b)[i].UpdateCall? && i >= |a|
      ensures 0 < i && (a + b)[i - 1] == b[i - |a| - 1]
    {
      assert (a + b)[i] == b[i - |a|];
    }
  }

  /** A segment that fetches nothing writes nothing back: every update
      needs the fetch it follows. */
  lemma {:induction false} UpdatesNeedFetches(s: Trace, toggle: Toggle)
    requires UpdatesFollow(s, toggle) && Collect(s, FetchView) == []
    ensures Collect(s, UpdateView) == []
    decreases |s|
  {
    if s != [] {
      assert !s[0].FetchCall?;
      forall j | 0 <= j < |s[1..]| && s[1..][j].UpdateCall?
        ensures 0 < j && s[1..][j - 1].FetchCall? && s[1..][j - 1].reply.Success?
      {
        assert s[1..][j] == s[j + 1];
      }
      UpdatesNeedFetches(s[1..], toggle);
    }
  }

  /** An experiment observation whose status is not a map: the status
      type assertion panics. */
  predicate ObservedPanic(e: Event)
  {
    e.Observe? && Classify(e.target, e.reply) == Panic
  }

  /** A fetch of a borrowed experiment without annotations: writing the
      pause key into the nil map panics. */
  predicate NilAnnotationsFetched(e: Event)
  {
    e.FetchCall? && e.reply.Success? && e.reply.value.annotations.None?
  }

  /** The event an item that ends in a Go panic ends on: a set-up of an
      experiment panics on an observation, a pause on a fetch. */
  predicate PanicPoint(op: Op, e: Event)
  {
    if op.SetUpChaos? then ObservedPanic(e) else op.Pause? && NilAnnotationsFetched(e)
  }

  /** Everything one item contributes to a run `r` that started from `t`:
      exactly the calls it plans, no log lines, a `t.Error` report only
      for a failing inline experiment, effects that are a prefix of its plan
      (all of it when it succeeds), updates that only toggle the pause
      marker, and a panic only where Go panics. */
  predicate ItemFacts(dec: Decoder, op: Op, t: Trace, r: Run)
  {
    && |r.trace| >= |t| && r.trace[..|t|] == t
    && var s := r.trace[|t|..];
       && CallsOf(s) == Attempts(dec, op)
       && Collect(s, LogView) == []
       && Collect(s, ReportView) ==
            (if op.SetUpChaos? && op.src.Inline? && r.outcome.Err? then [r.outcome.error] else [])
       && Collect(s, EffectView) <= Planned(dec, op)
       && (r.outcome.Ok? ==> Collect(s, EffectView) == Planned(dec, op))
       && (!op.Pause? ==> UpdatesFollow(s, ClearPause))
       && (!op.Enable? ==> UpdatesFollow(s, SetPause))
       && (r.outcome.Crash? ==> |s| > 0 && PanicPoint(op, s[|s| - 1]))
  }

  lemma OpViews(env: Env, op: Op, t: Trace)
    ensures ItemFacts(env.decoder, op, t, RunOp(env, op, t))
  {
    var r := RunOp(env, op, t);
    if op.Enable? || op.Pause? {
      BorrowedViews(env, op, t);
    } else if ItemDocument(env.decoder, op).Failure? {
      assert r.trace == t;
      assert r.trace[|t|..] == [];
    } else if op.SetUpChaos? || op.SetUpWorkflow? {
      SetUpViews(env, op, t);
    } else {
      var d := ItemDocument(env.decoder, op).value;
      var e := DeleteCall(ItemKey(op, d), env.world.delete(|t|));
      assert r.trace == t + [e];
      assert r.trace[|t|..] == [e];
      CollectSingle(e);
    }
  }

  lemma SetUpViews(env: Env, op: Op, t: Trace)
    requires op.SetUpChaos? || op.SetUpWorkflow?
    requires ItemDocument(env.decoder, op).Success?
    ensures var r := RunOp(env, op, t);
      var s := r.trace[|t|..];
      && CallsOf(s) == Attempts(env.decoder, op)
      && Collect(s, LogView) == []
      && Collect(s, ReportView) ==
           (if op.SetUpChaos? && op.src.Inline? && r.outcome.Err? then [r.outcome.error] else [])
      && Collect(s, EffectView) <= Planned(env.decoder, op)
      && (r.outcome.Ok? ==> Collect(s, EffectView) == Planned(env.decoder, op))
      && UpdatesFollow(s, ClearPause) && UpdatesFollow(s, SetPause)
      && (r.outcome.Crash? ==> op.SetUpChaos? && |s| > 0 && ObservedPanic(s[|s| - 1]))
  {
    SetUpCallViews(env, op, t);
    SetUpEffectViews(env, op, t);
    SetUpCrash(env, op, t);
  }

  lemma SetUpCallViews(env: Env, op: Op, t: Trace)
    requires op.SetUpChaos? || op.SetUpWorkflow?
    requires ItemDocument(env.decoder, op).Success?
    ensures var r := RunOp(env, op, t);
      var s := r.trace[|t|..];
      && CallsOf(s) == Attempts(env.decoder, op)
      && Collect(s, LogView) == []
      && Collect(s, ReportView) ==
           (if op.SetUpChaos? && op.src.Inline? && r.outcome.Err? then [r.outcome.error] else [])
      && UpdatesFollow(s, ClearPause) && UpdatesFollow(s, SetPause)
  {
    var d := ItemDocument(env.decoder, op).value;
    var target := if op.SetUpChaos? then Experiment else Workflow;
    var pollKey := if op.SetUpChaos? then Key(op.gvk, d.namespace, d.name) else WorkflowKey(d);
    var c := CreateAndWait(env.world, target, ItemKey(op, d), pollKey, t);
    var cs := c.trace[|t|..];
    var r := RunOp(env, op, t);
    var s := r.trace[|t|..];
    SetUpIsCreateAndWait(env, op, t);
    assert r.outcome == c.outcome;
    CreateAndWaitViews(env.world, target, ItemKey(op, d), pollKey, t);
    assert Attempts(env.decoder, op) == Calls([ItemKey(op, d)], [], []);
    NoUpdates(cs, ClearPause);
    NoUpdates(cs, SetPause);
    if op.SetUpChaos? && op.src.Inline? && c.outcome.Err? {
      assert s == cs + [TestError(c.outcome.error)];
      ReportedViews(cs, c.outcome.error);
    } else {
      assert s == cs;
    }
  }

  lemma SetUpEffectViews(env: Env, op: Op, t: Trace)
    requires op.SetUpChaos? || op.SetUpWorkflow?
    requires ItemDocument(env.decoder, op).Success?
    ensures var r := RunOp(env, op, t);
      var s := r.trace[|t|..];
      && Collect(s, EffectView) <= Planned(env.decoder, op)
      && (r.outcome.Ok? ==> Collect(s, EffectView) == Planned(env.decoder, op))
  {
    var w := env.world;
    var d := ItemDocument(env.decoder, op).value;
    var target := if op.SetUpChaos? then Experiment else Workflow;
    var pollKey := if op.SetUpChaos? then Key(op.gvk, d.namespace, d.name) else WorkflowKey(d);
    var c := CreateAndWait(w, target, ItemKey(op, d), pollKey, t);
    var cs := c.trace[|t|..];
    var r := RunOp(env, op, t);
    var s := r.trace[|t|..];
    assert r.outcome == c.outcome && Collect(s, EffectView) == Collect(cs, EffectView) by {
      SetUpIsCreateAndWait(env, op, t);
      CreateAndWaitViews(w, target, ItemKey(op, d), pollKey, t);
      if op.SetUpChaos? && op.src.Inline? && c.outcome.Err? {
        ReportedViews(cs, c.outcome.error);
      }
    }
    assert Planned(env.decoder, op) == [Created(ItemKey(op, d)), Confirmed(pollKey)];
    CreateAndWaitEffects(w, target, ItemKey(op, d), pollKey, t);
  }

  lemma CreateAndWaitEffects(w: World, target: Target, key: Key, pollKey: Key, t: Trace)
    ensures var r := CreateAndWait(w, target, key, pollKey, t);
      var e := Collect(r.trace[|t|..], EffectView);
      && e <= [Created(key), Confirmed(pollKey)]
      && (r.outcome.Ok? ==> e == [Created(key), Confirmed(pollKey)])
  {
    var r := CreateAndWait(w, target, key, pollKey, t);
    CreateAndWaitViews(w, target, key, pollKey, t);
    CreateEffectsPrefix(w.create(|t|).Some?, r.outcome.Ok?, key, pollKey);
  }

  /** The effects a create-and-wait achieves, as a prefix of its plan. */
  lemma CreateEffectsPrefix(failed: bool, ok: bool, key: Key, pollKey: Key)
    requires ok ==> !failed
    ensures var e := if failed then [] else [Created(key)] + (if ok then [Confirmed(pollKey)] else []);
      && e <= [Created(key), Confirmed(pollKey)]
      && (ok ==> e == [Created(key), Confirmed(pollKey)])
  {
  }

  lemma SetUpCrash(env: Env, op: Op, t: Trace)
    requires op.SetUpChaos? || op.SetUpWorkflow?
    requires ItemDocument(env.decoder, op).Success?
    ensures var r := RunOp(env, op, t);
      var s := r.trace[|t|..];
      r.outcome.Crash? ==> op.SetUpChaos? && |s| > 0 && ObservedPanic(s[|s| - 1])
  {
    var r := RunOp(env, op, t);
    if r.outcome.Crash? {
      var d := ItemDocument(env.decoder, op).value;
      var pollKey := Key(op.gvk, d.namespace, d.name);
      var c := CreateAndWait(env.world, Experiment, KeyOf(d), pollKey, t);
      SetUpIsCreateAndWait(env, op, t);
      assert r.trace == c.trace by {
        assert r.trace[..|t|] == t == c.trace[..|t|];
      }
      CreateAndWaitCrash(env.world, Experiment, KeyOf(d), pollKey, t);
    }
  }

  /** A create-and-wait that panics ends on the observation that panicked. */
  lemma CreateAndWaitCrash(w: World, target: Target, key: Key, pollKey: Key, t: Trace)
    ensures var r := CreateAndWait(w, target, key, pollKey, t);
      r.outcome.Crash? ==> target == Experiment && |r.trace| > |t| + 1 && ObservedPanic(r.trace[|r.trace| - 1])
  {
    var r := CreateAndWait(w, target, key, pollKey, t);
    if r.outcome.Crash? {
      var at := |t| + 1;
      var q := Poll(w, target, pollKey, w.observations(at), at);
      assert r.trace == t + [CreateCall(key, w.create(|t|))] + q.observed;
      PollObservations(w, target, pollKey, w.observations(at), at);
      var n := |q.observed| - 1;
      assert q.observed[n] == Observe(target, pollKey, w.get(at + n));
      assert r.trace[|r.trace| - 1] == q.observed[n];
    }
  }

  /** A set-up item is one create-and-wait, followed by a `t.Error` report
      when it is an inline experiment that failed. */
  lemma SetUpIsCreateAndWait(env: Env, op: Op, t: Trace)
    requires op.SetUpChaos? || op.SetUpWorkflow?
    requires ItemDocument(env.decoder, op).Success?
    ensures var d := ItemDocument(env.decoder, op).value;
      var c := if op.SetUpChaos? then CreateChaos(env.world, op.gvk, d, t) else CreateWorkflow(env.world, d, t);
      var r := RunOp(env, op, t);
      && r.outcome == c.outcome
      && r.trace[|t|..] ==
           c.trace[|t|..] + (if op.SetUpChaos? && op.src.Inline? && c.outcome.Err? then [TestError(c.outcome.error)] else [])
  {
    var d := ItemDocument(env.decoder, op).value;
    var c := if op.SetUpChaos? then CreateChaos(env.world, op.gvk, d, t) else CreateWorkflow(env.world, d, t);
    if op.SetUpChaos? && op.src.Inline? && c.outcome.Err? {
      assert RunOp(env, op, t).trace == c.trace + [TestError(c.outcome.error)];
    } else {
      assert RunOp(env, op, t) == c;
    }
  }

  /** Appending a `t.Error` report adds nothing but the report. */
  lemma ReportedViews(cs: Trace, err: Error)
    requires Collect(cs, UpdateView) == [] && Collect(cs, LogView) == [] && Collect(cs, ReportView) == []
    ensures var s := cs + [TestError(err)];
      && CallsOf(s) == CallsOf(cs)
      && Collect(s, LogView) == [] && Collect(s, ReportView) == [err]
      && Collect(s, EffectView) == Collect(cs, EffectView)
      && UpdatesFollow(s, ClearPause) && UpdatesFollow(s, SetPause)
  {
    var e := TestError(err);
    CollectSingle(e);
    CallsAppend(cs, [e]);
    CollectAppend(cs, [e], LogView);
    CollectAppend(cs, [e], ReportView);
    CollectAppend(cs, [e], EffectView);
    CollectAppend(cs, [e], UpdateView);
    NoUpdates(cs + [e], ClearPause);
    NoUpdates(cs + [e], SetPause);
  }

  lemma BorrowedViews(env: Env, op: Op, t: Trace)
    requires op.Enable? || op.Pause?
    ensures var r := RunOp(env, op, t);
      var s := r.trace[|t|..];
      && CallsOf(s) == Attempts(env.decoder, op)
      && Collect(s, LogView) == [] && Collect(s, ReportView) == []
      && Collect(s, EffectView) <= Planned(env.decoder, op)
      && (r.outcome.Ok? ==> Collect(s, EffectView) == Planned(env.decoder, op))
      && (op.Enable? ==> UpdatesFollow(s, ClearPause))
      && (op.Pause? ==> UpdatesFollow(s, SetPause))
      && (r.outcome.Crash? ==> op.Pause? && |s| > 0 && NilAnnotationsFetched(s[|s| - 1]))
  {
    var toggle := if op.Enable? then ClearPause else SetPause;
    var key := RefKey(op.gvk, op.ref);
    var f := FetchCall(key, env.world.get(|t|));
    BorrowedShape(env, op, t);
    var r := RunOp(env, op, t);
    var s := r.trace[|t|..];
    if |s| == 1 {
      FetchOnlyViews(f, toggle);
      FetchOnlyOther(f, toggle);
    } else {
      FetchUpdateViews(f, s[1], toggle);
      FetchUpdateOther(f, s[1], toggle);
    }
  }

  /** What enabling or pausing adds to the trace: the fetch alone when it
      fails or, when pausing, finds no annotations (the only panic);
      otherwise the fetch and the write-back of the fetched object with
      the pause marker toggled, whose error is the item's. */
  lemma BorrowedShape(env: Env, op: Op, t: Trace)
    requires op.Enable? || op.Pause?
    ensures var r := RunOp(env, op, t);
      var s := r.trace[|t|..];
      var f := FetchCall(RefKey(op.gvk, op.ref), env.world.get(|t|));
      var toggle := if op.Enable? then ClearPause else SetPause;
      && (|s| == 1 || |s| == 2) && s[0] == f
      && (|s| == 1 ==> !r.outcome.Ok? && (r.outcome.Crash? ==> op.Pause? && NilAnnotationsFetched(f)))
      && (|s| == 2 ==>
            && f.reply.Success? && s[1].UpdateCall?
            && s[1].doc == Fetched(f.key, f.reply.value.(annotations := Edited(toggle, f.reply.value.annotations)))
            && (r.outcome.Ok? <==> s[1].err.None?) && !r.outcome.Crash?)
  {
    var r := RunOp(env, op, t);
    var s := r.trace[|t|..];
    if op.Enable? {
      assert r == EnableExisting(env.world, op.gvk, op.ref, t);
    } else {
      assert r == PauseExisting(env.world, op.gvk, op.ref, t);
    }
    assert s[0] == r.trace[|t|];
  }

  /** A lone fetch makes one fetch call and achieves nothing. */
  lemma FetchOnlyViews(f: Event, toggle: Toggle)
    requires f.FetchCall?
    ensures CallsOf([f]) == Calls([], [], [f.key])
    ensures Collect([f], EffectView) == []
  {
    CollectSingle(f);
  }

  lemma FetchOnlyOther(f: Event, toggle: Toggle)
    requires f.FetchCall?
    ensures Collect([f], LogView) == [] && Collect([f], ReportView) == []
    ensures UpdatesFollow([f], ClearPause) && UpdatesFollow([f], SetPause)
  {
    CollectSingle(f);
  }

  /** A fetch and the write-back of what it fetched make one fetch call
      and achieve the update when it succeeds. */
  lemma FetchUpdateViews(f: Event, u: Event, toggle: Toggle)
    requires f.FetchCall? && f.reply.Success? && u.UpdateCall?
    requires u.doc == Fetched(f.key, f.reply.value.(annotations := Edited(toggle, f.reply.value.annotations)))
    ensures CallsOf([f] + [u]) == Calls([], [], [f.key])
    ensures Collect([f] + [u], EffectView) == if u.err.None? then [Updated(f.key)] else []
  {
    CollectSingle(f);
    CollectSingle(u);
    CallsAppend([f], [u]);
    CollectAppend([f], [u], EffectView);
  }

  lemma FetchUpdateOther(f: Event, u: Event, toggle: Toggle)
    requires f.FetchCall? && f.reply.Success? && u.UpdateCall?
    requires u.doc == Fetched(f.key, f.reply.value.(annotations := Edited(toggle, f.reply.value.annotations)))
    ensures Collect([f] + [u], LogView) == [] && Collect([f] + [u], ReportView) == []
    ensures UpdatesFollow([f] + [u], toggle)
  {
    CollectSingle(f);
    CollectSingle(u);
    CollectAppend([f], [u], LogView);
    CollectAppend([f], [u], ReportView);
    assert ([f] + [u])[1] == u;
  }

}
