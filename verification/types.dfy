/** Values shared by the whole model: resource identities, documents,
    status conditions and the errors the control plane can report. */
module Types {

  datatype Option<+T> = None | Some(value: T)

  /** The API group, version and kind of a resource (a GroupVersionKind). */
  datatype Gvk = Gvk(group: string, version: string, kind: string)

  const ChaosMeshGroup: string := "chaos-mesh.org"
  const ChaosMeshVersion: string := "v1alpha1"

  /** `chaosmeshv1alpha1.GroupVersion.WithKind(kind)` */
  function ChaosGvk(kind: string): Gvk
  {
    Gvk(ChaosMeshGroup, ChaosMeshVersion, kind)
  }

  /** Workflows are typed objects of this one kind. */
  const WorkflowKind: string := "Workflow"
  const WorkflowGvk: Gvk := ChaosGvk(WorkflowKind)

  /** A namespace/name pair (`types.NamespacedName`). */
  datatype NamespacedName = NamespacedName(namespace: string, name: string)

  /** The identity a client call addresses: kind plus namespace and name. */
  datatype Key = Key(gvk: Gvk, namespace: string, name: string)

  /** One status condition: a type identifier and a boolean-like status string. */
  datatype Condition = Condition(ctype: string, status: string)

  /** The `status` field of a fetched object as the readiness poll sees it:
      either it is not a map at all (absent, or of another shape), or it is a
      map whose conversion into a list of conditions may fail. */
  datatype Status = NoStatusMap | StatusMap(conditions: Option<seq<Condition>>)

  type Annotations = map<string, string>

  /** Everything about a stored resource except its identity. `None`
      annotations model the nil map `GetAnnotations` returns when the
      object carries no annotations; `spec` is opaque to the orchestrator. */
  datatype Object = Object(annotations: Option<Annotations>, spec: string, status: Status)

  /** A kind-tagged document with its identity fields. */
  datatype Document = Document(gvk: Gvk, namespace: string, name: string, body: Object)

  function KeyOf(d: Document): Key
  {
    Key(d.gvk, d.namespace, d.name)
  }

  /** Typed workflows are addressed by the workflow kind whatever their own
      type fields say. */
  function WorkflowKey(wf: Document): Key
  {
    Key(WorkflowGvk, wf.namespace, wf.name)
  }

  /** Errors that cross the model's boundary. `WaitTimeout` is the poller's
      own error; `Undecodable` stands for a file or text that cannot be read
      or decoded; the others are control-plane replies. */
  datatype Error =
    | NotFound
    | AlreadyExists
    | Rejected(reason: string)
    | WaitTimeout
    | Undecodable(reason: string)

  datatype Result<+T> = Success(value: T) | Failure(error: Error)
}
