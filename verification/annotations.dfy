/** The pause marker on a borrowed experiment's annotations. Enabling
    removes the marker, pausing sets it; nothing else is touched. */
module PauseAnnotations {
  import opened Types

  const PauseAnnotation: string := "experiment.chaos-mesh.org/pause"
  const PauseValue: string := "true"

  /** What `enableExistingChaos` writes back: the annotations without the
      pause key. Deleting from a nil map is a no-op in Go, so absent
      annotations stay absent. */
  function WithoutPause(a: Option<Annotations>): (r: Option<Annotations>)
    ensures r.None? <==> a.None?
    ensures r.Some? ==> PauseAnnotation !in r.value
    ensures r.Some? ==> forall k :: k != PauseAnnotation ==>
      (k in r.value <==> k in a.value) && (k in r.value ==> r.value[k] == a.value[k])
  {
    match a
    case None => None
    case Some(m) => Some(m - {PauseAnnotation})
  }

  /** What `pauseExistingChaos` writes back: the annotations with the pause
      key set to "true". Writing into a nil map panics in Go, so this takes
      the map itself; the caller decides what happens when it is nil. */
  function WithPause(m: Annotations): (r: Annotations)
    ensures PauseAnnotation in r && r[PauseAnnotation] == PauseValue
    ensures forall k :: k != PauseAnnotation ==>
      (k in r <==> k in m) && (k in r ==> r[k] == m[k])
  {
    m[PauseAnnotation := PauseValue]
  }

  /** Pausing then enabling restores annotations that had no pause key. */
  lemma EnableUndoesPause(m: Annotations)
    requires PauseAnnotation !in m
    ensures WithoutPause(Some(WithPause(m))) == Some(m)
  {
    assert WithPause(m) - {PauseAnnotation} == m;
  }

  /** Enabling then pausing gives the same map as pausing directly: the
      marker's earlier value does not matter. */
  lemma PauseAfterEnable(m: Annotations)
    ensures WithPause(WithoutPause(Some(m)).value) == WithPause(m)
  {
    assert WithPause(m - {PauseAnnotation}) == WithPause(m);
  }

  /** Both edits are idempotent. */
  lemma TogglesIdempotent(a: Option<Annotations>, m: Annotations)
    ensures WithoutPause(WithoutPause(a)) == WithoutPause(a)
    ensures WithPause(WithPause(m)) == WithPause(m)
  {
    if a.Some? {
      assert a.value - {PauseAnnotation} - {PauseAnnotation} == a.value - {PauseAnnotation};
    }
  }
}
