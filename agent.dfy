/**
 * The reaction path of `run`: one informer per target namespace, a
 * `synced` flag that is armed once every informer has synced, Add and
 * Update handlers that pass events to `handleEvent`, and the StatefulSet
 * patches that result. The cluster's Patch call is recorded in a log of
 * issued calls; its answer comes from an oracle, and a refusal is only
 * recorded beside the log, never propagated.
 */
module Agent {
  import opened Wrappers
  import opened Format
  import opened Classifier
  import opened Config

  /** A call of StatefulSets(namespace).Patch(name, body). */
  datatype PatchCall = PatchCall(namespace: string, name: string, body: string)

  /** A notification an informer hands to the registered handlers. */
  datatype Notification =
    | Added(event: ClusterEvent)
    | Updated(oldEvent: ClusterEvent, newEvent: ClusterEvent)

  /** The patch calls that handling one event issues. */
  function Reaction(ev: ClusterEvent): (r: seq<PatchCall>)
    ensures |r| <= 1
    ensures |r| == 1 <==> ev.sourceComponent == KedaOperator && (ev.reason == ScaleUp || ev.reason == ScaleDown)
    ensures |r| == 1 ==> r[0].namespace == ev.involvedNamespace && r[0].name == TargetName(ev.involvedName)
    ensures |r| == 1 ==> ParsePatchBody(r[0].body) == Some(if ev.reason == ScaleUp then 1 else 0)
  {
    match Classify(ev)
    case None => []
    case Some(d) =>
      [PatchCall(d.namespace, d.name, PatchBody(d.replicas))]
  }

  /** The patch calls one notification issues at gate `synced`: Adds only once armed, Updates always. */
  function Step(synced: bool, n: Notification): seq<PatchCall> {
    match n
    case Added(ev) => if synced then Reaction(ev) else []
    case Updated(_, ev) => Reaction(ev)
  }

  /** `f` applied to each element of `xs`, the results concatenated in order. */
  function FlatMap<T, U>(f: T -> seq<U>, xs: seq<T>): seq<U> {
    if xs == [] then [] else f(xs[0]) + FlatMap(f, xs[1..])
  }

  lemma {:induction false} FlatMapAppend<T, U>(f: T -> seq<U>, a: seq<T>, b: seq<T>)
    ensures FlatMap(f, a + b) == FlatMap(f, a) + FlatMap(f, b)
  {
    if a != [] {
      FlatMapAppend(f, a[1..], b);
      assert a + b == [a[0]] + (a[1..] + b);
    } else {
      assert a + b == b;
    }
  }

  lemma {:induction false} FlatMapBound<T, U>(f: T -> seq<U>, xs: seq<T>)
    requires forall x :: |f(x)| <= 1
    ensures |FlatMap(f, xs)| <= |xs|
  {
    if xs != [] {
      FlatMapBound(f, xs[1..]);
    }
  }

  /**
   * The patch calls a sequence of notifications issues while the gate
   * stays at `synced`: Add notifications only once armed, Update
   * notifications always, each through `handleEvent`. Each notification
   * issues at most one patch.
   */
  function Reactions(synced: bool, ns: seq<Notification>): (r: seq<PatchCall>)
    ensures |r| <= |ns|
  {
    FlatMapBound((n: Notification) => Step(synced, n), ns);
    FlatMap((n: Notification) => Step(synced, n), ns)
  }

  /** A single notification issues exactly its own step. */
  lemma ReactionsSingle(synced: bool, n: Notification)
    ensures Reactions(synced, [n]) == Step(synced, n)
  {
    var f := (m: Notification) => Step(synced, m);
    assert [n][1..] == [];
    assert FlatMap(f, [n]) == f(n) + FlatMap(f, []);
  }

  /** The calls the cluster refuses, in order (the ones logged as failures). */
  function Refused(cluster: PatchCall -> bool, calls: seq<PatchCall>): (r: seq<PatchCall>)
    ensures |r| <= |calls|
    ensures forall i :: 0 <= i < |r| ==> !cluster(r[i])
  {
    if calls == [] then []
    else (if cluster(calls[0]) then [] else [calls[0]]) + Refused(cluster, calls[1..])
  }

  /**
   * One failure record per refused call: a call the cluster refuses is
   * recorded as many times as it was issued, an accepted one never.
   */
  lemma {:induction false} RefusedCounts(cluster: PatchCall -> bool, calls: seq<PatchCall>)
    ensures forall c :: multiset(Refused(cluster, calls))[c] == if cluster(c) then 0 else multiset(calls)[c]
  {
    if calls != [] {
      RefusedCounts(cluster, calls[1..]);
      assert calls == [calls[0]] + calls[1..];
    }
  }

  lemma ReactionsAppend(synced: bool, a: seq<Notification>, b: seq<Notification>)
    ensures Reactions(synced, a + b) == Reactions(synced, a) + Reactions(synced, b)
  {
    FlatMapAppend((n: Notification) => Step(synced, n), a, b);
  }

  lemma {:induction false} RefusedAppend(cluster: PatchCall -> bool, a: seq<PatchCall>, b: seq<PatchCall>)
    ensures Refused(cluster, a + b) == Refused(cluster, a) + Refused(cluster, b)
  {
    if a != [] {
      RefusedAppend(cluster, a[1..], b);
      assert a + b == [a[0]] + (a[1..] + b);
    } else {
      assert a + b == b;
    }
  }

  /**
   * The initial listing, delivered as Add notifications before the gate
   * is armed, issues no patch, whatever the events say.
   */
  lemma {:induction false} InitialListingIssuesNothing(ns: seq<Notification>)
    requires forall i :: 0 <= i < |ns| ==> ns[i].Added?
    ensures Reactions(false, ns) == []
  {
    if ns != [] {
      InitialListingIssuesNothing(ns[1..]);
    }
  }

  /**
   * Before arming, a sequence issues exactly the patches of its Update
   * notifications: Updates are not gated.
   */
  lemma {:induction false} UpdatesBypassGate(ns: seq<Notification>)
    requires forall i :: 0 <= i < |ns| ==> ns[i].Updated?
    ensures Reactions(false, ns) == Reactions(true, ns)
  {
    if ns != [] {
      UpdatesBypassGate(ns[1..]);
    }
  }

  /** Once armed, an Add and an Update of the same event act alike. */
  lemma ArmedAddEqualsUpdate(previous: ClusterEvent, ev: ClusterEvent)
    ensures Reactions(true, [Added(ev)]) == Reactions(true, [Updated(previous, ev)])
  {
    ReactionsSingle(true, Added(ev));
    ReactionsSingle(true, Updated(previous, ev));
  }

  /**
   * The local state of `run` that its handler closures share: the
   * namespaces that have an informer, the `synced` flag, and, standing in
   * for the cluster, the patch calls issued and the ones that failed.
   */
  class Agent {
    var informers: seq<string>
    var synced: bool
    var patches: seq<PatchCall>
    var failedPatches: seq<PatchCall>

    /** `synced := false`, no informer yet, nothing issued. */
    constructor ()
      ensures informers == [] && !synced
      ensures patches == [] && failedPatches == []
    {
      informers := [];
      synced := false;
      patches := [];
      failedPatches := [];
    }

    /** One informer, with the Add/Update handlers, per target namespace, in order. */
    method Watch(namespaces: seq<string>)
      modifies this`informers
      ensures informers == old(informers) + namespaces
    {
      for i := 0 to |namespaces|
        invariant informers == old(informers) + namespaces[..i]
      {
        informers := informers + [namespaces[i]];
      }
    }

    /**
     * Waits for each informer in turn; the first one that fails to sync
     * ends `run` with an error naming its namespace. Only when all have
     * synced is the gate armed.
     */
    method WaitForSync(hasSynced: string -> bool) returns (err: Option<RunError>)
      modifies this`synced
      ensures err.None? <==> forall i :: 0 <= i < |informers| ==> hasSynced(informers[i])
      ensures err.Some? ==>
                exists k :: 0 <= k < |informers| && !hasSynced(informers[k])
                  && (forall j :: 0 <= j < k ==> hasSynced(informers[j]))
                  && err.value == InformerSyncFailed(informers[k])
      ensures synced == (old(synced) || err.None?)
    {
      for i := 0 to |informers|
        invariant forall j :: 0 <= j < i ==> hasSynced(informers[j])
      {
        if !hasSynced(informers[i]) {
          return Some(InformerSyncFailed(informers[i]));
        }
      }
      synced := true;
      return None;
    }

    /**
     * scaleStatefulSets: issues the merge patch; a refusal is recorded
     * and handling carries on.
     */
    method ScaleStatefulSets(namespace: string, name: string, replicas: int32, cluster: PatchCall -> bool)
      modifies this`patches, this`failedPatches
      ensures patches == old(patches) + [PatchCall(namespace, name, PatchBody(replicas))]
      ensures failedPatches == old(failedPatches) + Refused(cluster, [PatchCall(namespace, name, PatchBody(replicas))])
    {
      var call := PatchCall(namespace, name, PatchBody(replicas));
      patches := patches + [call];
      var ok := cluster(call);
      if !ok {
        failedPatches := failedPatches + [call];
      }
    }

    /** handleEvent: the branches of the source, proved against `Reaction`. */
    method HandleEvent(ev: ClusterEvent, cluster: PatchCall -> bool)
      modifies this`patches, this`failedPatches
      ensures patches == old(patches) + Reaction(ev)
      ensures failedPatches == old(failedPatches) + Refused(cluster, Reaction(ev))
    {
      if ev.sourceComponent != KedaOperator {
        return;
      }
      var scaleTo: int32;
      if ev.reason == ScaleUp {
        scaleTo := 1;
      } else if ev.reason == ScaleDown {
        scaleTo := 0;
      } else {
        return;
      }
      var baseName := GoStrings.TrimSuffix(ev.involvedName, CoreSuffix);
      var postgresName := baseName + PostgresSuffix;
      ScaleStatefulSets(ev.involvedNamespace, postgresName, scaleTo, cluster);
    }

    /** The Add handler: dropped until the gate is armed. */
    method OnAdd(ev: ClusterEvent, cluster: PatchCall -> bool)
      modifies this`patches, this`failedPatches
      ensures patches == old(patches) + Reactions(synced, [Added(ev)])
      ensures failedPatches == old(failedPatches) + Refused(cluster, Reactions(synced, [Added(ev)]))
      ensures !synced ==> patches == old(patches) && failedPatches == old(failedPatches)
    {
      ReactionsSingle(synced, Added(ev));
      if !synced {
        return;
      }
      HandleEvent(ev, cluster);
    }

    /** The Update handler: not gated, it handles the new event at once. */
    method OnUpdate(oldEv: ClusterEvent, newEv: ClusterEvent, cluster: PatchCall -> bool)
      modifies this`patches, this`failedPatches
      ensures patches == old(patches) + Reactions(synced, [Updated(oldEv, newEv)])
      ensures failedPatches == old(failedPatches) + Refused(cluster, Reactions(synced, [Updated(oldEv, newEv)]))
      ensures patches == old(patches) + Reaction(newEv)
    {
      ReactionsSingle(synced, Updated(oldEv, newEv));
      HandleEvent(newEv, cluster);
    }
  }

  /**
   * `run` up to the point where it starts serving: the namespace check,
   * the client, one informer per namespace, and the gate armed once every
   * informer has synced.
   */
  method Run(env: map<string, string>, clientset: Option<RunError>, hasSynced: string -> bool)
    returns (agent: Agent, err: Option<RunError>)
    requires clientset.Some? ==> clientset.value.ClientsetUnavailable?
    ensures fresh(agent)
    ensures TargetNamespaces(env).Failure? ==> err == Some(MissingTargetNamespaces) && agent.informers == []
    ensures TargetNamespaces(env).Success? && clientset.Some? ==> err == clientset && agent.informers == []
    ensures TargetNamespaces(env).Success? && clientset.None? ==>
              agent.informers == TargetNamespaces(env).value
              && (err.None? <==> forall i :: 0 <= i < |agent.informers| ==> hasSynced(agent.informers[i]))
    ensures TargetNamespaces(env).Success? && clientset.None? && err.Some? ==>
              exists k :: 0 <= k < |agent.informers| && !hasSynced(agent.informers[k])
                && (forall j :: 0 <= j < k ==> hasSynced(agent.informers[j]))
                && err.value == InformerSyncFailed(agent.informers[k])
    ensures agent.synced <==> err.None?
    ensures agent.patches == [] && agent.failedPatches == []
  {
    agent := new Agent();
    var namespaces := TargetNamespaces(env);
    if namespaces.Failure? {
      return agent, Some(namespaces.error);
    }
    if clientset.Some? {
      return agent, clientset;
    }
    agent.Watch(namespaces.value);
    err := agent.WaitForSync(hasSynced);
  }

  /** A KEDA activation or deactivation issues exactly one patch, of its target. */
  lemma ReactionOfScaleEvent(ev: ClusterEvent)
    requires ev.sourceComponent == KedaOperator && (ev.reason == ScaleUp || ev.reason == ScaleDown)
    ensures Reaction(ev) == [PatchCall(ev.involvedNamespace, TargetName(ev.involvedName),
                                       PatchBody(if ev.reason == ScaleUp then 1 else 0))]
  {
  }

  /**
   * A restart: the listing replays an old activation of "app-core" in
   * "ns1" as an Add before the gate is armed, which issues nothing; the
   * same event arriving afterwards as an Update issues one patch.
   */
  method RestartReplay() returns (issued: seq<PatchCall>)
    ensures issued == [PatchCall("ns1", "app-database-postgresql", "{\"spec\":{\"replicas\":1}}")]
  {
    var ev := ClusterEvent(KedaOperator, ScaleUp, "app-core", "ns1");
    assert "app-core"[3..] == CoreSuffix;
    assert TargetName("app-core") == "app-database-postgresql";
    PatchBodyText();
    ReactionOfScaleEvent(ev);
    var accept := (c: PatchCall) => true;
    var agent := new Agent();
    agent.Watch(["ns1"]);
    agent.OnAdd(ev, accept);
    var err := agent.WaitForSync(_ => true);
    assert err.None? && agent.synced;
    agent.OnUpdate(ev, ev, accept);
    issued := agent.patches;
  }

  /** The two patch calls of the refusal scenario below. */
  lemma RefusalScenarioCalls(a: ClusterEvent, b: ClusterEvent)
    requires a == ClusterEvent(KedaOperator, ScaleDown, "a", "ns")
    requires b == ClusterEvent(KedaOperator, ScaleUp, "b", "ns")
    ensures Reaction(a) == [PatchCall("ns", "a-database-postgresql", PatchBody(0))]
    ensures Reaction(b) == [PatchCall("ns", "b-database-postgresql", PatchBody(1))]
  {
    assert TargetName("a") == "a-database-postgresql";
    assert TargetName("b") == "b-database-postgresql";
    ReactionOfScaleEvent(a);
    ReactionOfScaleEvent(b);
  }

  /** A refused call is recorded once, an accepted one not at all. */
  lemma RefusedSingle(cluster: PatchCall -> bool, c: PatchCall)
    ensures Refused(cluster, [c]) == if cluster(c) then [] else [c]
  {
    assert [c][1..] == [];
  }

  /**
   * A refused patch does not stop the agent: a deactivation of "a" whose
   * patch the cluster refuses is followed by an activation of "b" whose
   * patch is issued and accepted.
   */
  method RefusedPatchThenNext() returns (issued: seq<PatchCall>, failed: seq<PatchCall>)
    ensures |issued| == 2 && issued[1].name == "b-database-postgresql"
    ensures failed == [issued[0]] && issued[0].name == "a-database-postgresql"
  {
    var a := ClusterEvent(KedaOperator, ScaleDown, "a", "ns");
    var b := ClusterEvent(KedaOperator, ScaleUp, "b", "ns");
    var callA := PatchCall("ns", "a-database-postgresql", PatchBody(0));
    var callB := PatchCall("ns", "b-database-postgresql", PatchBody(1));
    var refuseA := (c: PatchCall) => c.name != "a-database-postgresql";
    assert !refuseA(callA) && refuseA(callB);
    RefusalScenarioCalls(a, b);
    RefusedSingle(refuseA, callA);
    RefusedSingle(refuseA, callB);
    var agent := new Agent();
    agent.OnUpdate(a, a, refuseA);
    agent.OnUpdate(b, b, refuseA);
    issued, failed := agent.patches, agent.failedPatches;
  }
}
