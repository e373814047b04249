/** The control plane as the orchestrator sees it, and the bounded readiness
    poll. The cluster is opaque: every client call gets whatever reply the
    `World` gives for that call's position in the run, so every property
    proved below holds for every behaviour of the cluster, failures
    included. */
module Cluster {
  import opened Types
  import opened Conditions

  const PollIntervalSeconds: nat := 2
  const PollTimeoutSeconds: nat := 60
  /** One immediate check, then one per tick of the poller (at most one
      per interval until the timeout), then one more when the poller closes
      its channel at the timeout: `WaitFor` checks once for every tick and
      once more on close. */
  const MaxObservations: nat := 2 + PollTimeoutSeconds / PollIntervalSeconds

  /** How many observations one poll gets before it times out. Wall-clock
      time decides the exact number; it is at least the immediate one. */
  type Budget = n: nat | 1 <= n <= MaxObservations witness 1

  /** Replies of the control plane, indexed by the call's position in the
      run (the length of the trace when the call is made). A Get returns the
      stored object's content; its identity is the one asked for. */
  datatype World = World(
    create: nat -> Option<Error>,
    get: nat -> Result<Object>,
    update: nat -> Option<Error>,
    delete: nat -> Option<Error>,
    observations: nat -> Budget)

  /** Local decoding of a file path or of embedded text into a document,
      starting from an object whose kind is preset to the given one (the
      decoded content may override it). Opaque and possibly failing. */
  datatype Decoder = Decoder(
    file: (Gvk, string) -> Result<Document>,
    yaml: (Gvk, string) -> Result<Document>)

  datatype Env = Env(world: World, decoder: Decoder)

  /** Which readiness vocabulary a poll uses. */
  datatype Target = Experiment | Workflow

  /** One entry of a run's trace: a client call with its reply, or a report
      to the test (`TestError` is `t.Error`, `Logged` a logged error). */
  datatype Event =
    | CreateCall(key: Key, err: Option<Error>)
    | Observe(target: Target, key: Key, reply: Result<Object>)
    | FetchCall(key: Key, reply: Result<Object>)
    | UpdateCall(doc: Document, err: Option<Error>)
    | DeleteCall(key: Key, err: Option<Error>)
    | TestError(error: Error)
    | Logged(error: Error)

  type Trace = seq<Event>

  /** How a step ends: success, an error returned to the caller, or a Go
      runtime panic that stops the run where it happens. */
  datatype Outcome = Ok | Err(error: Error) | Crash

  datatype Run = Run(trace: Trace, outcome: Outcome)

  /** The value of one readiness observation. */
  datatype Check = Ready | NotYet | Panic

  function ReadyCondition(target: Target): string
  {
    match target
    case Experiment => ConditionAllInjected
    case Workflow => WorkflowConditionScheduled
  }

  /** The poll predicates. A failed Get, and a status that does not convert
      into conditions, mean "not yet". For experiments a `status` that is
      not a map panics (an unchecked type assertion); a typed workflow
      without status simply has no conditions. */
  function Classify(target: Target, reply: Result<Object>): (c: Check)
  {
    match reply
    case Failure(_) => NotYet
    case Success(obj) =>
      match obj.status
      case NoStatusMap => if target == Experiment then Panic else NotYet
      case StatusMap(decoded) =>
        match decoded
        case None => NotYet
        case Some(conds) => if HasCondition(conds, ReadyCondition(target)) then Ready else NotYet
  }

  /** The poll predicates' meaning: ready exactly when the status decodes
      into conditions among which is the target's ready condition, a panic
      exactly when an experiment's status is not a map. */
  lemma ClassifyMeans(target: Target, reply: Result<Object>)
    ensures Classify(target, reply) == Ready <==>
      && reply.Success? && reply.value.status.StatusMap? && reply.value.status.conditions.Some?
      && HasCondition(reply.value.status.conditions.value, ReadyCondition(target))
    ensures Classify(target, reply) == Panic <==>
      target == Experiment && reply.Success? && reply.value.status.NoStatusMap?
  {
  }

  /** The value of the observation made at call position `at`. */
  function ObservedAt(w: World, target: Target, at: nat): Check
  {
    Classify(target, w.get(at))
  }

  /** The observations one poll makes and how it ends. */
  datatype Polled = Polled(observed: Trace, outcome: Outcome)

  /** `wait.PollImmediate` with a readiness predicate: observe at most
      `left` times starting at call position `at`, stop at the first ready
      observation, time out when every observation said "not yet". */
  function Poll(w: World, target: Target, key: Key, left: nat, at: nat): (p: Polled)
    ensures |p.observed| <= left
    decreases left
  {
    if left == 0 then Polled([], Err(WaitTimeout))
    else
      var e := Observe(target, key, w.get(at));
      match ObservedAt(w, target, at)
      case Ready => Polled([e], Ok)
      case Panic => Polled([e], Crash)
      case NotYet =>
        var p := Poll(w, target, key, left - 1, at + 1);
        Polled([e] + p.observed, p.outcome)
  }

  /** Observation `i` of a poll is the Get made at position `at + i`, and
      every observation but the last said "not yet". */
  lemma PollObservations(w: World, target: Target, key: Key, left: nat, at: nat)
    ensures var p := Poll(w, target, key, left, at);
      && ObservesFrom(w, target, key, at, p.observed)
      && PendingBetween(w, target, at, at + |p.observed| - 1)
  {
    PollObservedGets(w, target, key, left, at);
    PollPendingBeforeLast(w, target, key, left, at);
  }

  /** A poll ends at its last observation: successfully when that one is
      ready, in a panic when it panicked, and with a timeout only after
      the whole budget said "not yet". */
  lemma {:induction false} PollEnds(w: World, target: Target, key: Key, left: nat, at: nat)
    ensures var p := Poll(w, target, key, left, at);
      && (p.outcome.Ok? <==> |p.observed| > 0 && ObservedAt(w, target, at + |p.observed| - 1) == Ready)
      && (p.outcome.Crash? <==> |p.observed| > 0 && ObservedAt(w, target, at + |p.observed| - 1) == Panic)
      && (p.outcome.Err? ==> p.outcome.error == WaitTimeout && |p.observed| == left)
    decreases left
  {
    if left > 0 {
      PollUnfold(w, target, key, left, at);
      if ObservedAt(w, target, at) == NotYet {
        PollEnds(w, target, key, left - 1, at + 1);
        var q := Poll(w, target, key, left - 1, at + 1);
        assert at + (1 + |q.observed|) - 1 == (at + 1) + |q.observed| - 1;
      }
    }
  }

  /** One observation of a poll, seen from outside. */
  lemma PollUnfold(w: World, target: Target, key: Key, left: nat, at: nat)
    requires left > 0
    ensures var p := Poll(w, target, key, left, at);
      var e := Observe(target, key, w.get(at));
      var q := Poll(w, target, key, left - 1, at + 1);
      match ObservedAt(w, target, at)
      case Ready => p == Polled([e], Ok)
      case Panic => p == Polled([e], Crash)
      case NotYet => p == Polled([e] + q.observed, q.outcome)
  {
  }

  /** `obs` are the observations made from call position `at` on. */
  predicate ObservesFrom(w: World, target: Target, key: Key, at: nat, obs: Trace)
  {
    forall i :: 0 <= i < |obs| ==> obs[i] == Observe(target, key, w.get(at + i))
  }

  lemma {:induction false} PollObservedGets(w: World, target: Target, key: Key, left: nat, at: nat)
    ensures ObservesFrom(w, target, key, at, Poll(w, target, key, left, at).observed)
    decreases left
  {
    if left > 0 {
      PollUnfold(w, target, key, left, at);
      if ObservedAt(w, target, at) == NotYet {
        PollObservedGets(w, target, key, left - 1, at + 1);
        GetsShift(w, target, key, at, Poll(w, target, key, left - 1, at + 1).observed);
      }
    }
  }

  /** Observations made from position `at + 1` on, preceded by the one
      made at `at`, are the observations made from `at` on. */
  lemma GetsShift(w: World, target: Target, key: Key, at: nat, later: Trace)
    requires ObservesFrom(w, target, key, at + 1, later)
    ensures ObservesFrom(w, target, key, at, [Observe(target, key, w.get(at))] + later)
  {
    var all := [Observe(target, key, w.get(at))] + later;
    forall i | 0 < i < |all| ensures all[i] == Observe(target, key, w.get(at + i)) {
      assert all[i] == later[i - 1];
      assert at + i == at + 1 + (i - 1);
    }
  }

  /** Every observation from position `lo` up to, not including, `hi`
      said "not yet". */
  predicate PendingBetween(w: World, target: Target, lo: nat, hi: int)
  {
    forall j :: lo <= j < hi ==> ObservedAt(w, target, j) == NotYet
  }

  lemma {:induction false} PollPendingBeforeLast(w: World, target: Target, key: Key, left: nat, at: nat)
    ensures PendingBetween(w, target, at, at + |Poll(w, target, key, left, at).observed| - 1)
    decreases left
  {
    if left > 0 {
      PollUnfold(w, target, key, left, at);
      if ObservedAt(w, target, at) == NotYet {
        PollPendingBeforeLast(w, target, key, left - 1, at + 1);
        PendingShift(w, target, at, |Poll(w, target, key, left - 1, at + 1).observed|);
      }
    }
  }

  /** "Not yet" at `at` and at the positions after it, up to a last one. */
  lemma PendingShift(w: World, target: Target, at: nat, n: nat)
    requires ObservedAt(w, target, at) == NotYet
    requires PendingBetween(w, target, at + 1, at + 1 + n - 1)
    ensures PendingBetween(w, target, at, at + (1 + n) - 1)
  {
    forall j | at <= j < at + (1 + n) - 1 ensures ObservedAt(w, target, j) == NotYet {
      if j > at {
        assert at + 1 <= j < at + 1 + n - 1;
      }
    }
  }

  /** Observation `i` is the first ready one from position `lo` on. */
  predicate FirstReadyAt(w: World, target: Target, lo: nat, i: nat)
  {
    && lo <= i
    && ObservedAt(w, target, i) == Ready
    && forall j :: lo <= j < i ==> ObservedAt(w, target, j) == NotYet
  }

  /** A poll succeeds exactly when some observation within the budget is
      ready and every earlier one said "not yet". */
  lemma {:induction false} PollSucceedsIff(w: World, target: Target, key: Key, left: nat, at: nat)
    ensures Poll(w, target, key, left, at).outcome.Ok? <==>
      exists i: nat :: i < at + left && FirstReadyAt(w, target, at, i)
    decreases left
  {
    if left > 0 {
      match ObservedAt(w, target, at)
      case Ready =>
        assert Poll(w, target, key, left, at).outcome == Ok;
        assert FirstReadyAt(w, target, at, at);
      case Panic =>
        assert Poll(w, target, key, left, at).outcome == Crash;
        forall i: nat | i < at + left ensures !FirstReadyAt(w, target, at, i) {
          assert at < i ==> ObservedAt(w, target, at) != NotYet;
        }
      case NotYet =>
        assert Poll(w, target, key, left, at).outcome == Poll(w, target, key, left - 1, at + 1).outcome;
        PollSucceedsIff(w, target, key, left - 1, at + 1);
        forall i: nat ensures FirstReadyAt(w, target, at, i) <==> FirstReadyAt(w, target, at + 1, i) {
          FirstReadyShift(w, target, at, i);
        }
        if Poll(w, target, key, left, at).outcome.Ok? {
          var i: nat :| i < at + 1 + (left - 1) && FirstReadyAt(w, target, at + 1, i);
          assert FirstReadyAt(w, target, at, i);
        }
    }
  }

  lemma FirstReadyShift(w: World, target: Target, at: nat, i: nat)
    requires ObservedAt(w, target, at) == NotYet
    ensures FirstReadyAt(w, target, at, i) <==> FirstReadyAt(w, target, at + 1, i)
  {
    if FirstReadyAt(w, target, at + 1, i) {
      forall j | at <= j < i ensures ObservedAt(w, target, j) == NotYet {
        if j > at { assert at + 1 <= j < i; }
      }
    }
  }

  /** No early give-up: a predicate that first becomes true on the last
      allowed observation still makes the poll succeed. */
  lemma ReadyOnLastObservationSucceeds(w: World, target: Target, key: Key, left: nat, at: nat)
    requires left >= 1
    requires forall j :: at <= j < at + left - 1 ==> ObservedAt(w, target, j) == NotYet
    requires ObservedAt(w, target, at + left - 1) == Ready
    ensures Poll(w, target, key, left, at).outcome.Ok?
  {
    PollSucceedsIff(w, target, key, left, at);
    assert FirstReadyAt(w, target, at, at + left - 1);
  }

  /** The poll as the configurator runs it: with the budget the clock
      allows, which always includes the immediate first observation. */
  function PollImmediate(w: World, target: Target, key: Key, at: nat): (p: Polled)
    ensures 1 <= |p.observed| <= MaxObservations
    ensures ObservesFrom(w, target, key, at, p.observed)
    ensures PendingBetween(w, target, at, at + |p.observed| - 1)
    ensures p.outcome.Ok? <==> ObservedAt(w, target, at + |p.observed| - 1) == Ready
    ensures p.outcome.Crash? <==> ObservedAt(w, target, at + |p.observed| - 1) == Panic
    ensures p.outcome.Err? ==> p.outcome.error == WaitTimeout && |p.observed| == w.observations(at)
  {
    PollObservations(w, target, key, w.observations(at), at);
    PollEnds(w, target, key, w.observations(at), at);
    Poll(w, target, key, w.observations(at), at)
  }

  /** Projection of a trace through a per-event view. */
  function Collect<M>(tr: Trace, f: Event -> seq<M>): seq<M>
  {
    if tr == [] then [] else f(tr[0]) + Collect(tr[1..], f)
  }

  lemma {:induction false} CollectAppend<M>(a: Trace, b: Trace, f: Event -> seq<M>)
    ensures Collect(a + b, f) == Collect(a, f) + Collect(b, f)
    decreases |a|
  {
    if a == [] {
      assert a + b == b;
    } else {
      assert (a + b)[0] == a[0];
      assert (a + b)[1..] == a[1..] + b;
      CollectAppend(a[1..], b, f);
    }
  }

  /** Keys of delete attempts, successful or not. */
  function DeleteView(e: Event): seq<Key>
  {
    if e.DeleteCall? then [e.key] else []
  }

  /** Keys of create attempts, successful or not. */
  function CreateView(e: Event): seq<Key>
  {
    if e.CreateCall? then [e.key] else []
  }

  /** Keys of borrowed resources fetched for enabling or pausing. */
  function FetchView(e: Event): seq<Key>
  {
    if e.FetchCall? then [e.key] else []
  }

  /** Documents written back by updates. */
  function UpdateView(e: Event): seq<Document>
  {
    if e.UpdateCall? then [e.doc] else []
  }

  /** Errors reported through the logger. */
  function LogView(e: Event): seq<Error>
  {
    if e.Logged? then [e.error] else []
  }

  /** Errors reported to the test with `t.Error`. */
  function ReportView(e: Event): seq<Error>
  {
    if e.TestError? then [e.error] else []
  }

  /** What a successful step achieved on the cluster. */
  datatype Milestone = Created(key: Key) | Confirmed(key: Key) | Updated(key: Key) | Removed(key: Key)

  /** A successful create, a ready observation, a successful update, a
      successful delete. */
  function EffectView(e: Event): seq<Milestone>
  {
    match e
    case CreateCall(k, err) => if err.None? then [Created(k)] else []
    case Observe(target, k, reply) => if Classify(target, reply) == Ready then [Confirmed(k)] else []
    case UpdateCall(d, err) => if err.None? then [Updated(KeyOf(d))] else []
    case DeleteCall(k, err) => if err.None? then [Removed(k)] else []
    case _ => []
  }

  /** A poll's observations achieve nothing except, when the poll
      succeeds, the one confirming observation. */
  lemma {:induction false} PollEffects(w: World, target: Target, key: Key, left: nat, at: nat)
    ensures var p := Poll(w, target, key, left, at);
      Collect(p.observed, EffectView) == if p.outcome.Ok? then [Confirmed(key)] else []
    decreases left
  {
    if left > 0 {
      var e := Observe(target, key, w.get(at));
      PollUnfold(w, target, key, left, at);
      CollectSingle(e);
      if ObservedAt(w, target, at) == NotYet {
        PollEffects(w, target, key, left - 1, at + 1);
        var q := Poll(w, target, key, left - 1, at + 1);
        CollectAppend([e], q.observed, EffectView);
      }
    }
  }

  /** A trace segment that makes no create, fetch, update or delete call
      and reports nothing. */
  predicate Quiet(s: Trace)
  {
    && Collect(s, CreateView) == [] && Collect(s, DeleteView) == []
    && Collect(s, FetchView) == [] && Collect(s, UpdateView) == []
    && Collect(s, LogView) == [] && Collect(s, ReportView) == []
  }

  /** A view of a trace splits around any one of its events. */
  lemma CollectIndex<M>(s: Trace, f: Event -> seq<M>, i: nat)
    requires i < |s|
    ensures Collect(s, f) == Collect(s[..i], f) + f(s[i]) + Collect(s[i + 1..], f)
  {
    var a, b := s[..i], s[i + 1..];
    assert s == a + ([s[i]] + b);
    CollectAppend(a, [s[i]] + b, f);
    CollectAppend([s[i]], b, f);
    assert [s[i]][1..] == [];
    assert Collect([s[i]], f) == f(s[i]) + Collect([], f);
  }

  lemma CollectSingle(e: Event)
    ensures Collect([e], EffectView) == EffectView(e)
    ensures Collect([e], CreateView) == CreateView(e) && Collect([e], DeleteView) == DeleteView(e)
    ensures Collect([e], FetchView) == FetchView(e) && Collect([e], UpdateView) == UpdateView(e)
    ensures Collect([e], LogView) == LogView(e) && Collect([e], ReportView) == ReportView(e)
  {
    assert [e][1..] == [];
  }

  /** A segment of observations only is quiet: polling makes no other
      call and reports nothing. */
  lemma {:induction false} ObservationsAreQuiet(s: Trace)
    requires forall i :: 0 <= i < |s| ==> s[i].Observe?
    ensures Quiet(s)
    decreases |s|
  {
    if s != [] {
      ObservationsAreQuiet(s[1..]);
      assert s == [s[0]] + s[1..];
      CollectSingle(s[0]);
      QuietAppend([s[0]], s[1..]);
    }
  }

  lemma QuietAppend(a: Trace, b: Trace)
    ensures Quiet(a + b) <==> Quiet(a) && Quiet(b)
  {
    CollectAppend(a, b, CreateView);
    CollectAppend(a, b, DeleteView);
    CollectAppend(a, b, FetchView);
    CollectAppend(a, b, UpdateView);
    CollectAppend(a, b, LogView);
    CollectAppend(a, b, ReportView);
  }
}
