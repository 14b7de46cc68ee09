/**
 * The decision half of `handleEvent`: whether a cluster event asks for a
 * scale change, to how many replicas, and of which StatefulSet.
 */
module Classifier {
  import opened Wrappers
  import opened GoStrings
  import opened Format

  const KedaOperator: string := "keda-operator"
  const ScaleUp: string := "KEDAScaleTargetActivated"
  const ScaleDown: string := "KEDAScaleTargetDeactivated"
  const CoreSuffix: string := "-core"
  const PostgresSuffix: string := "-database-postgresql"

  /** The fields of a corev1.Event that the agent reads. */
  datatype ClusterEvent = ClusterEvent(
    sourceComponent: string,
    reason: string,
    involvedName: string,
    involvedNamespace: string)

  /** One StatefulSet to patch, and the replica count to set. */
  datatype ScaleDecision = ScaleDecision(namespace: string, name: string, replicas: int32)

  /**
   * The StatefulSet that belongs to a scaled object: one trailing "-core"
   * dropped, then "-database-postgresql" appended.
   */
  function TargetName(name: string): (r: string)
    ensures HasSuffix(name, CoreSuffix) ==> r == name[..|name| - |CoreSuffix|] + PostgresSuffix
    ensures !HasSuffix(name, CoreSuffix) ==> r == name + PostgresSuffix
  {
    TrimSuffix(name, CoreSuffix) + PostgresSuffix
  }

  /**
   * Every target name ends in "-database-postgresql", and the text before
   * it is the involved name with one trailing "-core" removed.
   */
  lemma TargetNameShape(name: string)
    ensures HasSuffix(TargetName(name), PostgresSuffix)
    ensures TargetName(name)[..|TargetName(name)| - |PostgresSuffix|] == TrimSuffix(name, CoreSuffix)
  {
  }

  /**
   * The mapping is not injective, and the collisions are exactly the pairs
   * `x` and `x-core`: "app" and "app-core" share "app-database-postgresql",
   * while "x-core" and "x-core-core" do not collide.
   */
  lemma TargetNameCollision(x: string)
    ensures TargetName(x) == TargetName(x + CoreSuffix) <==> !HasSuffix(x, CoreSuffix)
  {
  }

  /** Two involved names share a target only if they are equal up to one "-core". */
  lemma TargetNameCollisionsOnly(a: string, b: string)
    requires TargetName(a) == TargetName(b)
    ensures a == b || a == b + CoreSuffix || b == a + CoreSuffix
  {
    var ta, tb := TrimSuffix(a, CoreSuffix), TrimSuffix(b, CoreSuffix);
    TargetNameShape(a);
    TargetNameShape(b);
    assert ta == tb;
  }

  /**
   * handleEvent's decision: only events from the KEDA operator, only the
   * activation (1 replica) and deactivation (0 replicas) reasons, and the
   * target lives in the involved object's namespace.
   */
  function Classify(ev: ClusterEvent): (r: Option<ScaleDecision>)
    ensures r.Some? <==> ev.sourceComponent == KedaOperator && (ev.reason == ScaleUp || ev.reason == ScaleDown)
    ensures r.Some? ==> r.value.namespace == ev.involvedNamespace
    ensures r.Some? ==> r.value.name == TargetName(ev.involvedName)
    ensures r.Some? ==> (r.value.replicas == 1 <==> ev.reason == ScaleUp)
    ensures r.Some? ==> (r.value.replicas == 0 <==> ev.reason == ScaleDown)
  {
    if ev.sourceComponent != KedaOperator then None
    else
      var replicas: Option<int32> :=
        if ev.reason == ScaleUp then Some(1)
        else if ev.reason == ScaleDown then Some(0)
        else None;
      match replicas
      case None => None
      case Some(n) => Some(ScaleDecision(ev.involvedNamespace, TargetName(ev.involvedName), n))
  }
}
