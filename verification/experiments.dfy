/** The experiment registry a test scenario fills in before the run: the
    experiments the test owns, grouped by kind in registration order, and
    the already-deployed experiments it borrows, by reference. */
module Experiments {
  import opened Types

  /** `chaosExperiments`: owned experiments as converted documents, and
      borrowed ones as namespace/name references, both keyed by kind. */
  datatype Registry = Registry(
    chaos: map<Gvk, seq<Document>>,
    existing: map<Gvk, seq<NamespacedName>>)

  /** `newChaosExperimentsBuilder`: nothing registered. */
  const Empty: Registry := Registry(map[], map[])

  /** The converted object carries the kind it was registered under,
      whatever its own type fields said. */
  function Stamp(gvk: Gvk, c: Document): (r: Document)
    ensures r.gvk == gvk && r.namespace == c.namespace && r.name == c.name && r.body == c.body
  {
    c.(gvk := gvk)
  }

  /** `withChaos`: appends the experiment to its kind's list, starting the
      list when the kind is new; nothing else changes. */
  function WithChaos(b: Registry, gvk: Gvk, c: Document): (r: Registry)
    ensures gvk in r.chaos
    ensures r.chaos[gvk] == (if gvk in b.chaos then b.chaos[gvk] else []) + [Stamp(gvk, c)]
    ensures forall g :: g != gvk ==> (g in r.chaos <==> g in b.chaos)
    ensures forall g :: g != gvk && g in b.chaos ==> r.chaos[g] == b.chaos[g]
    ensures r.existing == b.existing
  {
    var prior := if gvk in b.chaos then b.chaos[gvk] else [];
    b.(chaos := b.chaos[gvk := prior + [Stamp(gvk, c)]])
  }

  /** `withExistingChaos`: appends the reference to its kind's list,
      starting the list when the kind is new; nothing else changes. */
  function WithExistingChaos(b: Registry, gvk: Gvk, namespace: string, name: string): (r: Registry)
    ensures gvk in r.existing
    ensures r.existing[gvk] ==
      (if gvk in b.existing then b.existing[gvk] else []) + [NamespacedName(namespace, name)]
    ensures forall g :: g != gvk ==> (g in r.existing <==> g in b.existing)
    ensures forall g :: g != gvk && g in b.existing ==> r.existing[g] == b.existing[g]
    ensures r.chaos == b.chaos
  {
    var prior := if gvk in b.existing then b.existing[gvk] else [];
    b.(existing := b.existing[gvk := prior + [NamespacedName(namespace, name)]])
  }

  /** The chaos types the builder has a `With…`/`WithExisting…` pair for,
      named after their Go types. */
  datatype ChaosType =
    | AWSChaos | DNSChaos | GCPChaos | HTTPChaos | IOChaos | JVMChaos | KernelChaos
    | NetworkChaos | PhysicalMachine | PodChaos | PodHttpChaos | PodIOChaos
    | PodNetworkChaos | StressChaos | TimeChaos

  /** The kind each pair registers under. `WithPhysicalMachineChaos` takes
      a `PhysicalMachine` and `WithPodHTTPChaos` a `PodHttpChaos`: the kind
      is the type's name even where the method's name differs. */
  function KindName(k: ChaosType): string
  {
    match k
    case AWSChaos => "AWSChaos"
    case DNSChaos => "DNSChaos"
    case GCPChaos => "GCPChaos"
    case HTTPChaos => "HTTPChaos"
    case IOChaos => "IOChaos"
    case JVMChaos => "JVMChaos"
    case KernelChaos => "KernelChaos"
    case NetworkChaos => "NetworkChaos"
    case PhysicalMachine => "PhysicalMachine"
    case PodChaos => "PodChaos"
    case PodHttpChaos => "PodHttpChaos"
    case PodIOChaos => "PodIOChaos"
    case PodNetworkChaos => "PodNetworkChaos"
    case StressChaos => "StressChaos"
    case TimeChaos => "TimeChaos"
  }

  /** The chaos type a kind name denotes, if any. */
  function TypeOfKind(s: string): Option<ChaosType>
  {
    if s == "AWSChaos" then Some(AWSChaos)
    else if s == "DNSChaos" then Some(DNSChaos)
    else if s == "GCPChaos" then Some(GCPChaos)
    else if s == "HTTPChaos" then Some(HTTPChaos)
    else if s == "IOChaos" then Some(IOChaos)
    else if s == "JVMChaos" then Some(JVMChaos)
    else if s == "KernelChaos" then Some(KernelChaos)
    else if s == "NetworkChaos" then Some(NetworkChaos)
    else if s == "PhysicalMachine" then Some(PhysicalMachine)
    else if s == "PodChaos" then Some(PodChaos)
    else if s == "PodHttpChaos" then Some(PodHttpChaos)
    else if s == "PodIOChaos" then Some(PodIOChaos)
    else if s == "PodNetworkChaos" then Some(PodNetworkChaos)
    else if s == "StressChaos" then Some(StressChaos)
    else if s == "TimeChaos" then Some(TimeChaos)
    else None
  }

  /** Kind names and chaos types correspond one to one: every chaos type's
      kind name denotes that type, and a name denoting a type is its kind
      name. */
  lemma KindNameDenotesType(k: ChaosType)
    ensures TypeOfKind(KindName(k)) == Some(k)
  {
    match k
    case AWSChaos =>
    case DNSChaos =>
    case GCPChaos =>
    case HTTPChaos =>
    case IOChaos =>
    case JVMChaos =>
    case KernelChaos =>
    case NetworkChaos =>
    case PhysicalMachine =>
    case PodChaos =>
    case PodHttpChaos =>
    case PodIOChaos =>
    case PodNetworkChaos =>
    case StressChaos =>
    case TimeChaos =>
  }

  lemma TypeNamedByKind(s: string)
    ensures TypeOfKind(s).Some? ==> KindName(TypeOfKind(s).value) == s
  {
  }

  /** No two builder pairs register under the same kind. */
  lemma KindNamesDistinct(a: ChaosType, b: ChaosType)
    ensures ChaosGvk(KindName(a)) == ChaosGvk(KindName(b)) ==> a == b
  {
    KindNameDenotesType(a);
    KindNameDenotesType(b);
  }

  /** `With<Type>(c)`: an owned experiment of a chaos type, appended, with
      its content, to the list of the chaos-mesh v1alpha1 kind that denotes
      that type; every other kind and the borrowed map are unchanged. */
  function WithTyped(b: Registry, k: ChaosType, c: Document): (r: Registry)
    ensures var g := ChaosGvk(KindName(k));
      && g.group == ChaosMeshGroup && g.version == ChaosMeshVersion && TypeOfKind(g.kind) == Some(k)
      && g in r.chaos && |r.chaos[g]| > 0
      && r.chaos[g][..|r.chaos[g]| - 1] == (if g in b.chaos then b.chaos[g] else [])
      && (var last := r.chaos[g][|r.chaos[g]| - 1];
          last.gvk == g && last.namespace == c.namespace && last.name == c.name && last.body == c.body)
      && (forall g' :: g' != g ==> (g' in r.chaos <==> g' in b.chaos))
      && (forall g' :: g' != g && g' in b.chaos ==> r.chaos[g'] == b.chaos[g'])
      && r.existing == b.existing
  {
    KindNameDenotesType(k);
    WithChaos(b, ChaosGvk(KindName(k)), c)
  }

  /** `WithExisting<Type>(namespace, name)`: a borrowed experiment of a
      chaos type, appended by reference to the list of the chaos-mesh
      v1alpha1 kind that denotes that type; every other kind and the owned
      map are unchanged. */
  function WithExistingTyped(b: Registry, k: ChaosType, namespace: string, name: string): (r: Registry)
    ensures var g := ChaosGvk(KindName(k));
      && g.group == ChaosMeshGroup && g.version == ChaosMeshVersion && TypeOfKind(g.kind) == Some(k)
      && g in r.existing
      && r.existing[g] == (if g in b.existing then b.existing[g] else []) + [NamespacedName(namespace, name)]
      && (forall g' :: g' != g ==> (g' in r.existing <==> g' in b.existing))
      && (forall g' :: g' != g && g' in b.existing ==> r.existing[g'] == b.existing[g'])
      && r.chaos == b.chaos
  {
    KindNameDenotesType(k);
    WithExistingChaos(b, ChaosGvk(KindName(k)), namespace, name)
  }

  /** One builder call. */
  datatype Registration =
    | Owned(gvk: Gvk, doc: Document)
    | Borrowed(gvk: Gvk, ref: NamespacedName)

  function Register(b: Registry, x: Registration): Registry
  {
    match x
    case Owned(gvk, c) => WithChaos(b, gvk, c)
    case Borrowed(gvk, ref) => WithExistingChaos(b, gvk, ref.namespace, ref.name)
  }

  /** The registry a configure function builds by chaining builder calls
      from an empty one, as `build` returns it. It holds, for each kind,
      exactly the experiments registered under it, in registration order,
      and has an entry for a kind exactly when something was registered
      under it. */
  function Build(xs: seq<Registration>): (r: Registry)
    ensures forall g :: g in r.chaos <==> OwnedOfKind(xs, g) != []
    ensures forall g :: g in r.chaos ==> r.chaos[g] == OwnedOfKind(xs, g)
    ensures forall g :: g in r.existing <==> BorrowedOfKind(xs, g) != []
    ensures forall g :: g in r.existing ==> r.existing[g] == BorrowedOfKind(xs, g)
  {
    if xs == [] then Empty
    else
      var b := Build(xs[..|xs| - 1]);
      RegisterExtends(b, xs);
      Register(b, xs[|xs| - 1])
  }

  /** Registering the last of some builder calls on a registry that holds
      exactly the earlier ones gives a registry that holds exactly all of
      them. */
  lemma RegisterExtends(b: Registry, xs: seq<Registration>)
    requires xs != []
    requires forall g :: g in b.chaos <==> OwnedOfKind(xs[..|xs| - 1], g) != []
    requires forall g :: g in b.chaos ==> b.chaos[g] == OwnedOfKind(xs[..|xs| - 1], g)
    requires forall g :: g in b.existing <==> BorrowedOfKind(xs[..|xs| - 1], g) != []
    requires forall g :: g in b.existing ==> b.existing[g] == BorrowedOfKind(xs[..|xs| - 1], g)
    ensures var r := Register(b, xs[|xs| - 1]);
      && (forall g :: g in r.chaos <==> OwnedOfKind(xs, g) != [])
      && (forall g :: g in r.chaos ==> r.chaos[g] == OwnedOfKind(xs, g))
      && (forall g :: g in r.existing <==> BorrowedOfKind(xs, g) != [])
      && (forall g :: g in r.existing ==> r.existing[g] == BorrowedOfKind(xs, g))
  {
    var r := Register(b, xs[|xs| - 1]);
    forall g
      ensures g in r.chaos <==> OwnedOfKind(xs, g) != []
      ensures g in r.chaos ==> r.chaos[g] == OwnedOfKind(xs, g)
      ensures g in r.existing <==> BorrowedOfKind(xs, g) != []
      ensures g in r.existing ==> r.existing[g] == BorrowedOfKind(xs, g)
    {
      RegisterAt(b, xs, g);
    }
  }

  /** `RegisterExtends` for one kind. */
  lemma RegisterAt(b: Registry, xs: seq<Registration>, g: Gvk)
    requires xs != []
    requires g in b.chaos <==> OwnedOfKind(xs[..|xs| - 1], g) != []
    requires g in b.chaos ==> b.chaos[g] == OwnedOfKind(xs[..|xs| - 1], g)
    requires g in b.existing <==> BorrowedOfKind(xs[..|xs| - 1], g) != []
    requires g in b.existing ==> b.existing[g] == BorrowedOfKind(xs[..|xs| - 1], g)
    ensures var r := Register(b, xs[|xs| - 1]);
      && (g in r.chaos <==> OwnedOfKind(xs, g) != [])
      && (g in r.chaos ==> r.chaos[g] == OwnedOfKind(xs, g))
      && (g in r.existing <==> BorrowedOfKind(xs, g) != [])
      && (g in r.existing ==> r.existing[g] == BorrowedOfKind(xs, g))
  {
    var x := xs[|xs| - 1];
    var prefix := xs[..|xs| - 1];
    assert OwnedOfKind(xs, g) == OwnedOfKind(prefix, g)
      + if x.Owned? && x.gvk == g then [Stamp(g, x.doc)] else [];
    assert BorrowedOfKind(xs, g) == BorrowedOfKind(prefix, g)
      + if x.Borrowed? && x.gvk == g then [x.ref] else [];
  }

  /** The owned experiments of kind `g` among some builder calls, converted,
      in call order. */
  function OwnedOfKind(xs: seq<Registration>, g: Gvk): seq<Document>
  {
    if xs == [] then []
    else
      var x := xs[|xs| - 1];
      OwnedOfKind(xs[..|xs| - 1], g) + if x.Owned? && x.gvk == g then [Stamp(g, x.doc)] else []
  }

  /** The borrowed references of kind `g` among some builder calls, in
      call order. */
  function BorrowedOfKind(xs: seq<Registration>, g: Gvk): seq<NamespacedName>
  {
    if xs == [] then []
    else
      var x := xs[|xs| - 1];
      BorrowedOfKind(xs[..|xs| - 1], g) + if x.Borrowed? && x.gvk == g then [x.ref] else []
  }

}
