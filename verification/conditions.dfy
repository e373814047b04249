/** Status-condition predicates and the diagnostic name of a resource. */
module Conditions {
  import opened Types

  const ConditionTrue: string := "True"
  /** `chaosmeshv1alpha1.ConditionAllInjected` */
  const ConditionAllInjected: string := "AllInjected"
  /** `chaosmeshv1alpha1.WorkflowConditionScheduled` */
  const WorkflowConditionScheduled: string := "Scheduled"

  /** The condition scan shared by `isExperimentAllInjected`,
      `experimentHasCondition` and the workflow readiness loop: some entry
      has the wanted type and status "True". */
  function HasCondition(conds: seq<Condition>, c: string): (r: bool)
    ensures r <==> exists i :: 0 <= i < |conds| && conds[i].ctype == c && conds[i].status == ConditionTrue
  {
    if conds == [] then false
    else if conds[0].ctype == c && conds[0].status == ConditionTrue then true
    else
      var r' := HasCondition(conds[1..], c);
      assert r' ==> exists i :: 0 <= i < |conds| && conds[i].ctype == c && conds[i].status == ConditionTrue by {
        if r' {
          var j :| 0 <= j < |conds[1..]| && conds[1..][j].ctype == c && conds[1..][j].status == ConditionTrue;
          assert conds[j + 1] == conds[1..][j];
        }
      }
      r'
  }

  /** Experiment readiness: some condition AllInjected is True. */
  function IsExperimentAllInjected(conds: seq<Condition>): (r: bool)
    ensures r <==> exists i :: 0 <= i < |conds| && conds[i] == Condition(ConditionAllInjected, ConditionTrue)
  {
    HasCondition(conds, ConditionAllInjected)
  }

  /** Workflow readiness: some condition Scheduled is True. */
  function IsWorkflowScheduled(conds: seq<Condition>): (r: bool)
    ensures r <==> exists i :: 0 <= i < |conds| && conds[i] == Condition(WorkflowConditionScheduled, ConditionTrue)
  {
    HasCondition(conds, WorkflowConditionScheduled)
  }

  /** `generateExperimentFriendlyName`: `[kind]::namespace/name`. The kind
      sits between the brackets, "::" follows, and then the namespace and the
      name around a single '/'; nothing else is added. */
  function FriendlyName(kind: string, namespace: string, name: string): (r: string)
    ensures |r| == |kind| + |namespace| + |name| + 5
    ensures r[0] == '[' && r[1..|kind| + 1] == kind && r[|kind| + 1] == ']'
    ensures r[|kind| + 2] == ':' && r[|kind| + 3] == ':'
    ensures r[|kind| + 4..|kind| + 4 + |namespace|] == namespace
    ensures r[|kind| + 4 + |namespace|] == '/'
    ensures r[|kind| + 5 + |namespace|..] == name
  {
    "[" + kind + "]::" + namespace + "/" + name
  }

  /** First position of `c` in `s`, or `|s|` when absent. */
  function IndexOf(s: string, c: char): (i: nat)
    ensures i <= |s|
    ensures i < |s| ==> s[i] == c
    ensures forall j :: 0 <= j < i ==> s[j] != c
  {
    if s == [] then 0
    else if s[0] == c then 0
    else 1 + IndexOf(s[1..], c)
  }

  /** Reads the kind, namespace and name back out of a friendly name. The
      kind ends at the first ']' and the namespace at the first '/'. */
  function ParseFriendlyName(s: string): (r: Option<(string, string, string)>)
    ensures r.Some? ==> FriendlyName(r.value.0, r.value.1, r.value.2) == s
    ensures r.Some? ==> ']' !in r.value.0 && '/' !in r.value.1
  {
    if |s| == 0 || s[0] != '[' then None
    else
      var i := IndexOf(s, ']');
      if i + 3 > |s| || s[i + 1] != ':' || s[i + 2] != ':' then None
      else
        var rest := s[i + 3..];
        var j := IndexOf(rest, '/');
        if j == |rest| then None
        else
          Reassemble(s, i, rest, j);
          Some((s[1..i], rest[..j], rest[j + 1..]))
  }

  /** The pieces the parser cuts out put the name back together, and they
      are cut at the first ']' and the first '/'. */
  lemma Reassemble(s: string, i: nat, rest: string, j: nat)
    requires 0 < |s| && s[0] == '[' && i + 3 <= |s|
    requires s[i] == ']' && s[i + 1] == ':' && s[i + 2] == ':'
    requires forall k :: 0 <= k < i ==> s[k] != ']'
    requires rest == s[i + 3..]
    requires j < |rest| && rest[j] == '/'
    requires forall k :: 0 <= k < j ==> rest[k] != '/'
    ensures 0 < i
    ensures FriendlyName(s[1..i], rest[..j], rest[j + 1..]) == s
    ensures ']' !in s[1..i] && '/' !in rest[..j]
  {
    var kind := s[1..i];
    assert s == "[" + kind + "]::" + rest;
    assert rest == rest[..j] + "/" + rest[j + 1..];
    forall k | 0 <= k < |kind| ensures kind[k] != ']' {
      assert kind[k] == s[k + 1];
    }
  }

  /** The first position of `c` in `u + [c] + v`, when `u` has none. */
  lemma IndexOfSplit(u: string, c: char, v: string)
    requires c !in u
    ensures IndexOf(u + [c] + v, c) == |u|
  {
    var s := u + [c] + v;
    assert s[|u|] == c;
    forall k | 0 <= k < |u| ensures s[k] != c {
      assert s[k] == u[k];
    }
  }

  /** A friendly name parses back into the kind, namespace and name it was
      built from, provided the kind has no ']' and the namespace no '/'. */
  lemma FriendlyNameRoundTrip(kind: string, namespace: string, name: string)
    requires ']' !in kind && '/' !in namespace
    ensures ParseFriendlyName(FriendlyName(kind, namespace, name)) == Some((kind, namespace, name))
  {
    var s := FriendlyName(kind, namespace, name);
    var rest := namespace + "/" + name;
    assert s == ("[" + kind) + [']'] + ("::" + rest);
    IndexOfSplit("[" + kind, ']', "::" + rest);
    assert s[|kind| + 4..] == rest;
    assert rest == namespace + ['/'] + name;
    IndexOfSplit(namespace, '/', name);
    assert rest[..|namespace|] == namespace;
    assert rest[|namespace| + 1..] == name;
  }

}
