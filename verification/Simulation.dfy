/** A whole simulation: the cluster's pods, then each application's, then the
    report of which pod ended up where. */
module Simulation {
  import opened Kube
  import opened Rendezvous
  import opened Report
  import opened Verdicts

  /** A list of pods to schedule with the updates each would get. */
  datatype Batch = Batch(pods: seq<Pod>, updates: seq<seq<Update>>)

  datatype NodeStatus = NodeStatus(node: string, pods: seq<Pod>)

  datatype SimulateResult = SimulateResult(unscheduledPods: seq<UnscheduledPod>, nodeStatus: seq<NodeStatus>)

  ghost predicate BatchOk(b: Batch) {
    ScriptOf(b, []).Single()
  }

  function ScriptOf(b: Batch, before: seq<Pod>): Script {
    Script(b.pods, b.updates, before)
  }

  class Simulator {
    const nodes: seq<string>
    var store: seq<Pod>
    var stopReason: string

    constructor (nodes: seq<string>)
      ensures this.nodes == nodes && store == [] && stopReason == ""
    {
      this.nodes, store, stopReason := nodes, [], "";
    }

    /** The main loop with each rendezvous carried out in place: by RunsTellFate
        every run of the two threads that cannot go on ends like this.  The
        fate Waits stands for a loop that never returns. */
    method SchedulePods(b: Batch) returns (failedPods: seq<UnscheduledPod>, fate: Fate)
      requires BatchOk(b) && stopReason == ""
      modifies this
      ensures fate == FateFrom(ScriptOf(b, old(store)), 0)
      ensures fate.Ends? ==> failedPods == Rejected(ScriptOf(b, old(store)), |b.pods|)
      ensures fate.Ends? ==> store == StoreAt(ScriptOf(b, old(store)), |b.pods|)
      ensures stopReason == ""
    {
      failedPods := [];
      ghost var sc := ScriptOf(b, store);
      for i := 0 to |b.pods|
        invariant FateFrom(sc, 0) == FateFrom(sc, i) && stopReason == ""
        invariant failedPods == Rejected(sc, i) && store == StoreAt(sc, i)
      {
        var pod := b.pods[i];
        if HasKey(store, ObjectKey(pod)) {
          return [], NameTaken;
        }
        store := store + [pod];
        if pod.nodeName == "" {
          if pod.schedulerName != DEFAULT_SCHEDULER || b.updates[i] == [] {
            return [], Waits;
          }
          Decide(pod, b.updates[i][0], StoreAt(sc, i));
        }
        failedPods := Check(pod, failedPods, sc, i);
      }
      fate := Ends;
    }

    /** The end of one round: a pod the handler left a reason for is deleted and
        recorded. */
    method Check(pod: Pod, failedPods: seq<UnscheduledPod>, ghost sc: Script, ghost i: nat)
      returns (more: seq<UnscheduledPod>)
      requires sc.Valid() && i < |sc.pods| && pod == sc.pods[i] && !Conflict(sc, i)
      requires store == StoreAt(sc, i) + [Scheduled(sc, i)] && stopReason == Verdict(sc, i).GetOr("")
      requires failedPods == Rejected(sc, i)
      modifies this
      ensures store == StoreAt(sc, i + 1) && stopReason == "" && more == Rejected(sc, i + 1)
    {
      CheckText(sc, i);
      more := failedPods;
      if Contains(stopReason, "failed") {
        LastPod(StoreAt(sc, i), pod, Scheduled(sc, i));
        store := DeletePod(store, ObjectKey(pod));
        more := more + [UnscheduledPod(pod, stopReason)];
        stopReason := "";
      }
      LeftStep(sc, i);
    }

    /** The scheduler decides the pod and the handler sees the update. */
    method Decide(pod: Pod, u: Update, ghost base: seq<Pod>)
      requires store == base + [pod] && !HasKey(base, ObjectKey(pod)) && stopReason == ""
      requires SamePod(pod, u.pod)
      modifies this
      ensures store == base + [u.pod]
      ensures stopReason == ReasonOf(pod, u)
    {
      LastPod(base, u.pod, pod);
      store := ReplacePod(store, u.pod);
      var reason := ScanConditions(pod, u.conditions);
      if reason != "" {
        stopReason := reason;
      }
    }

    /** The pods by the node they name; a node of the cluster has a record even
        without pods. */
    method Tally(allPods: seq<Pod>) returns (nodeStatusMap: map<string, NodeStatus>)
      ensures forall n :: n in nodes ==> n in nodeStatusMap && nodeStatusMap[n] == NodeStatus(n, PodsAt(allPods, n))
    {
      nodeStatusMap := map[];
      for k := 0 to |nodes|
        invariant forall n :: n in nodeStatusMap <==> n in nodes[..k]
        invariant forall n :: n in nodeStatusMap ==> nodeStatusMap[n] == NodeStatus(n, [])
      {
        nodeStatusMap := nodeStatusMap[nodes[k] := NodeStatus(nodes[k], [])];
      }
      assert nodes[..|nodes|] == nodes;
      for i := 0 to |allPods|
        invariant forall n :: n in nodes ==> n in nodeStatusMap && nodeStatusMap[n].node == n
        invariant forall n :: n in nodeStatusMap ==> nodeStatusMap[n].pods == PodsAt(allPods[..i], n)
        invariant forall n :: n !in nodeStatusMap ==> PodsAt(allPods[..i], n) == []
      {
        var pod := allPods[i];
        assert allPods[..i + 1][..i] == allPods[..i];
        var status := if pod.nodeName in nodeStatusMap then nodeStatusMap[pod.nodeName] else NodeStatus("", []);
        nodeStatusMap := nodeStatusMap[pod.nodeName := status.(pods := status.pods + [pod])];
      }
      assert allPods[..|allPods|] == allPods;
    }

    /** One record per node, in node order, holding the pods that name it, in
        the order the server lists them. */
    method GetClusterNodeStatus() returns (statuses: seq<NodeStatus>)
      ensures Reports(statuses)
    {
      var nodeStatusMap := Tally(Listing(store));
      statuses := [];
      for k := 0 to |nodes|
        invariant |statuses| == k
        invariant forall j :: 0 <= j < k ==> statuses[j] == NodeStatus(nodes[j], PodsAt(Listing(store), nodes[j]))
      {
        statuses := statuses + [nodeStatusMap[nodes[k]]];
      }
    }

    /** The records are those of the server. */
    ghost predicate Reports(statuses: seq<NodeStatus>)
      reads this
    {
      && |statuses| == |nodes|
      && forall k :: 0 <= k < |nodes| ==> statuses[k] == NodeStatus(nodes[k], PodsAt(Listing(store), nodes[k]))
    }

    /** One application after the batches so far. */
    method ScheduleApp(app: Batch, failedPods: seq<UnscheduledPod>, ghost sofar: Batch)
      returns (more: seq<UnscheduledPod>, statuses: seq<NodeStatus>, fate: Fate)
      requires BatchOk(app) && Accounted(sofar, failedPods, store) && stopReason == ""
      modifies this
      ensures BatchOk(Append(sofar, app)) && fate == FateFrom(ScriptOf(Append(sofar, app), []), 0) && stopReason == ""
      ensures fate.Ends? ==> Accounted(Append(sofar, app), more, store) && Reports(statuses)
    {
      AccountMore(sofar, app, failedPods, store);
      var failed;
      failed, fate := SchedulePods(app);
      more, statuses := failedPods + failed, [];
      if fate == Ends {
        statuses := GetClusterNodeStatus();
      }
    }

    /** The cluster's pods first, then each application's; failures accumulate
        and the last report counts. */
    method Simulate(cluster: Batch, apps: seq<Batch>) returns (result: SimulateResult, fate: Fate)
      requires BatchOk(cluster) && forall i :: 0 <= i < |apps| ==> BatchOk(apps[i])
      requires stopReason == "" && store == []
      modifies this
      ensures BatchOk(Joined(cluster, apps, |apps|)) && fate == FateFrom(ScriptOf(Joined(cluster, apps, |apps|), []), 0)
      ensures fate.Ends? ==> Accounted(Joined(cluster, apps, |apps|), result.unscheduledPods, store) && Reports(result.nodeStatus)
    {
      JoinedOk(cluster, apps, |apps|);
      var failedPods;
      failedPods, fate := SchedulePods(cluster);
      if fate != Ends {
        JoinFate(cluster, apps, 0);
        return SimulateResult([], []), fate;
      }
      assert Accounted(Joined(cluster, apps, 0), failedPods, store);
      var statuses := GetClusterNodeStatus();
      for i := 0 to |apps|
        invariant stopReason == "" && Accounted(Joined(cluster, apps, i), failedPods, store) && Reports(statuses)
      {
        failedPods, statuses, fate := ScheduleApp(apps[i], failedPods, Joined(cluster, apps, i));
        if fate != Ends {
          JoinFate(cluster, apps, i + 1);
          return SimulateResult([], []), fate;
        }
      }
      result, fate := SimulateResult(failedPods, statuses), Ends;
    }
  }

  /** The script passes all pods; these failed and these are on the server
      then. */
  ghost predicate EndsWith(sc: Script, failed: seq<UnscheduledPod>, store: seq<Pod>)
    requires sc.Valid()
  {
    && FateFrom(sc, 0).Ends?
    && failed == Rejected(sc, |sc.pods|)
    && store == StoreAt(sc, |sc.pods|)
  }

  /** So it is for the batch on an empty server. */
  ghost predicate Accounted(all: Batch, failed: seq<UnscheduledPod>, store: seq<Pod>) {
    BatchOk(all) && EndsWith(ScriptOf(all, []), failed, store)
  }

  lemma EndsMore(whole: Script, first: Script, rest: Script, failed: seq<UnscheduledPod>)
    requires Begins(whole, first) && Continues(whole, |first.pods|, rest) && EndsWith(first, failed, rest.before)
    ensures FateFrom(whole, 0) == FateFrom(rest, 0)
    ensures FateFrom(rest, 0).Ends? ==>
              EndsWith(whole, failed + Rejected(rest, |rest.pods|), StoreAt(rest, |rest.pods|))
  {
    JoinScripts(whole, first, rest);
  }

  lemma AccountMore(sofar: Batch, app: Batch, failed: seq<UnscheduledPod>, store: seq<Pod>)
    requires Accounted(sofar, failed, store) && BatchOk(app)
    ensures BatchOk(Append(sofar, app))
    ensures FateFrom(ScriptOf(Append(sofar, app), []), 0) == FateFrom(ScriptOf(app, store), 0)
    ensures FateFrom(ScriptOf(app, store), 0).Ends? ==>
              Accounted(Append(sofar, app), failed + Rejected(ScriptOf(app, store), |app.pods|), StoreAt(ScriptOf(app, store), |app.pods|))
  {
    AppendBegins(sofar, app);
    AppendContinues(sofar, app);
    EndsMore(ScriptOf(Append(sofar, app), []), ScriptOf(sofar, []), ScriptOf(app, store), failed);
  }

  /** The text check reads the verdict. */
  lemma CheckText(sc: Script, i: nat)
    requires sc.Valid() && i < |sc.pods|
    ensures Contains(Verdict(sc, i).GetOr(""), "failed") <==> Verdict(sc, i).Some?
    ensures Verdict(sc, i).Some? ==> Verdict(sc, i).value != ""
  {
    if Verdict(sc, i).Some? {
      ReasonRecognised(sc.pods[i], FirstStop(sc.updates[i][0].conditions).value);
    }
    assert !Contains("", "failed");
  }

  // ----- batches one after the other are one batch -----

  function Append(a: Batch, b: Batch): Batch {
    Batch(a.pods + b.pods, a.updates + b.updates)
  }

  lemma AppendOk(a: Batch, b: Batch)
    requires BatchOk(a) && BatchOk(b)
    ensures BatchOk(Append(a, b))
  {
  }

  /** The cluster's pods and those of the first n applications. */
  function Joined(cluster: Batch, apps: seq<Batch>, n: nat): Batch
    requires n <= |apps|
  {
    if n == 0 then cluster else Append(Joined(cluster, apps, n - 1), apps[n - 1])
  }

  lemma {:induction false} JoinedOk(cluster: Batch, apps: seq<Batch>, n: nat)
    requires BatchOk(cluster) && (forall i :: 0 <= i < |apps| ==> BatchOk(apps[i])) && n <= |apps|
    ensures BatchOk(Joined(cluster, apps, n))
  {
    if n > 0 {
      JoinedOk(cluster, apps, n - 1);
      AppendOk(Joined(cluster, apps, n - 1), apps[n - 1]);
    }
  }

  /** What pod j leaves on the server, and among the failures. */
  function Left(sc: Script, j: nat): (seq<Pod>, seq<UnscheduledPod>)
    requires sc.Valid() && j < |sc.pods|
  {
    match Verdict(sc, j)
    case Some(reason) => ([], [UnscheduledPod(sc.pods[j], reason)])
    case None => ([Scheduled(sc, j)], [])
  }

  lemma LeftStep(sc: Script, j: nat)
    requires sc.Valid() && j < |sc.pods|
    ensures StoreAt(sc, j + 1) == StoreAt(sc, j) + Left(sc, j).0
    ensures Rejected(sc, j + 1) == Rejected(sc, j) + Left(sc, j).1
  {
    assert Kept(sc, j + 1) == Kept(sc, j) + Left(sc, j).0;
  }

  /** The second script is the first from pod n on. */
  ghost predicate Continues(whole: Script, n: nat, rest: Script) {
    && whole.Valid() && rest.Valid() && n + |rest.pods| == |whole.pods|
    && rest.before == StoreAt(whole, n)
    && forall k :: n <= k < |whole.pods| ==> whole.pods[k] == rest.pods[k - n] && whole.updates[k] == rest.updates[k - n]
  }

  lemma SameLeft(sc: Script, j: nat, other: Script, k: nat)
    requires sc.Valid() && other.Valid() && j < |sc.pods| && k < |other.pods|
    requires sc.pods[j] == other.pods[k] && sc.updates[j] == other.updates[k]
    ensures Left(sc, j) == Left(other, k)
  {
  }

  lemma {:induction false} ContinuesTo(whole: Script, n: nat, rest: Script, i: nat)
    requires Continues(whole, n, rest) && i <= |rest.pods|
    ensures StoreAt(whole, n + i) == StoreAt(rest, i)
    ensures Rejected(whole, n + i) == Rejected(whole, n) + Rejected(rest, i)
  {
    if i > 0 {
      var h := i - 1;
      ContinuesTo(whole, n, rest, h);
      ContinuesStep(whole, n, rest, h);
      assert n + h + 1 == n + i;
    }
  }

  lemma ContinuesStep(whole: Script, n: nat, rest: Script, i: nat)
    requires Continues(whole, n, rest) && i < |rest.pods|
    requires StoreAt(whole, n + i) == StoreAt(rest, i)
    requires Rejected(whole, n + i) == Rejected(whole, n) + Rejected(rest, i)
    ensures StoreAt(whole, n + i + 1) == StoreAt(rest, i + 1)
    ensures Rejected(whole, n + i + 1) == Rejected(whole, n) + Rejected(rest, i + 1)
  {
    var j := n + i;
    assert whole.pods[j] == rest.pods[i] && whole.updates[j] == rest.updates[i];
    SameLeft(whole, j, rest, i);
    LeftStep(whole, j);
    LeftStep(rest, i);
    assert Rejected(whole, n) + (Rejected(rest, i) + Left(rest, i).1) == Rejected(whole, j) + Left(rest, i).1;
  }

  lemma {:induction false} ContinuedFate(whole: Script, n: nat, rest: Script, i: nat)
    requires Continues(whole, n, rest) && i <= |rest.pods|
    ensures FateFrom(whole, n + i) == FateFrom(rest, i)
    decreases |rest.pods| - i
  {
    if i < |rest.pods| {
      ContinuesTo(whole, n, rest, i);
      ContinuedFate(whole, n, rest, i + 1);
      assert whole.pods[n + i] == rest.pods[i];
    }
  }

  /** The first script is the start of the whole. */
  ghost predicate Begins(whole: Script, first: Script) {
    && whole.Valid() && first.Valid() && |first.pods| <= |whole.pods|
    && first.before == whole.before
    && forall k :: 0 <= k < |first.pods| ==> first.pods[k] == whole.pods[k] && first.updates[k] == whole.updates[k]
  }

  lemma {:induction false} BeginsTo(whole: Script, first: Script, i: nat)
    requires Begins(whole, first) && i <= |first.pods|
    ensures Kept(whole, i) == Kept(first, i) && StoreAt(whole, i) == StoreAt(first, i)
    ensures Rejected(whole, i) == Rejected(first, i)
  {
    if i > 0 {
      BeginsTo(whole, first, i - 1);
      assert first.pods[i - 1] == whole.pods[i - 1];
    }
  }

  lemma SameObstacles(whole: Script, first: Script, i: nat)
    requires Begins(whole, first) && i < |first.pods|
    ensures Conflict(whole, i) == Conflict(first, i) && Silent(whole, i) == Silent(first, i)
  {
    BeginsTo(whole, first, i);
    assert first.pods[i] == whole.pods[i];
  }

  /** A script that ends hands its fate on to the rest; one that does not keeps
      it. */
  lemma {:induction false} SplitFate(whole: Script, first: Script, rest: Script, i: nat)
    requires Begins(whole, first) && Continues(whole, |first.pods|, rest) && i <= |first.pods|
    ensures FateFrom(whole, i) == if FateFrom(first, i).Ends? then FateFrom(rest, 0) else FateFrom(first, i)
    decreases |first.pods| - i
  {
    if i == |first.pods| {
      ContinuedFate(whole, i, rest, 0);
    } else {
      SplitFate(whole, first, rest, i + 1);
      SameObstacles(whole, first, i);
    }
  }

  lemma AppendBegins(a: Batch, b: Batch)
    requires BatchOk(a) && BatchOk(b)
    ensures BatchOk(Append(a, b)) && Begins(ScriptOf(Append(a, b), []), ScriptOf(a, []))
  {
  }

  lemma AppendContinues(a: Batch, b: Batch)
    requires BatchOk(a) && BatchOk(b) && BatchOk(Append(a, b))
    ensures Continues(ScriptOf(Append(a, b), []), |a.pods|, ScriptOf(b, StoreAt(ScriptOf(a, []), |a.pods|)))
  {
    AppendBegins(a, b);
    BeginsTo(ScriptOf(Append(a, b), []), ScriptOf(a, []), |a.pods|);
  }

  lemma JoinScripts(whole: Script, first: Script, rest: Script)
    requires Begins(whole, first) && Continues(whole, |first.pods|, rest)
    ensures FateFrom(whole, 0) == if FateFrom(first, 0).Ends? then FateFrom(rest, 0) else FateFrom(first, 0)
    ensures StoreAt(whole, |whole.pods|) == StoreAt(rest, |rest.pods|)
    ensures Rejected(whole, |whole.pods|) == Rejected(first, |first.pods|) + Rejected(rest, |rest.pods|)
  {
    SplitFate(whole, first, rest, 0);
    BeginsTo(whole, first, |first.pods|);
    ContinuesTo(whole, |first.pods|, rest, |rest.pods|);
  }

  /** Scheduling b after a is scheduling the two lists joined. */
  lemma JoinTwo(a: Batch, b: Batch)
    requires BatchOk(a) && BatchOk(b)
    ensures BatchOk(Append(a, b))
    ensures var whole, first := ScriptOf(Append(a, b), []), ScriptOf(a, []);
            var rest := ScriptOf(b, StoreAt(first, |first.pods|));
            && FateFrom(whole, 0) == (if FateFrom(first, 0).Ends? then FateFrom(rest, 0) else FateFrom(first, 0))
            && StoreAt(whole, |whole.pods|) == StoreAt(rest, |rest.pods|)
            && Rejected(whole, |whole.pods|) == Rejected(first, |first.pods|) + Rejected(rest, |rest.pods|)
  {
    AppendBegins(a, b);
    AppendContinues(a, b);
    var first := ScriptOf(a, []);
    JoinScripts(ScriptOf(Append(a, b), []), first, ScriptOf(b, StoreAt(first, |first.pods|)));
  }

  /** When the first batches do not end, their fate is that of the whole. */
  lemma {:induction false} JoinFate(cluster: Batch, apps: seq<Batch>, i: nat)
    requires BatchOk(cluster) && forall k :: 0 <= k < |apps| ==> BatchOk(apps[k])
    requires i <= |apps| && BatchOk(Joined(cluster, apps, i)) && BatchOk(Joined(cluster, apps, |apps|))
    requires !FateFrom(ScriptOf(Joined(cluster, apps, i), []), 0).Ends?
    ensures FateFrom(ScriptOf(Joined(cluster, apps, |apps|), []), 0) == FateFrom(ScriptOf(Joined(cluster, apps, i), []), 0)
    decreases |apps| - i
  {
    if i < |apps| {
      JoinTwo(Joined(cluster, apps, i), apps[i]);
      JoinFate(cluster, apps, i + 1);
    }
  }

  // ----- every pod is accounted for -----

  /** The kept pods as they were generated. */
  function Originals(sc: Script, i: nat): seq<Pod>
    requires sc.Valid() && i <= |sc.pods|
  {
    if i == 0 then []
    else Originals(sc, i - 1) + if Verdict(sc, i - 1).None? then [sc.pods[i - 1]] else []
  }

  function PodsOf(failed: seq<UnscheduledPod>): seq<Pod> {
    seq(|failed|, k requires 0 <= k < |failed| => failed[k].pod)
  }

  lemma PodsOfSnoc(failed: seq<UnscheduledPod>, u: UnscheduledPod)
    ensures PodsOf(failed + [u]) == PodsOf(failed) + [u.pod]
  {
  }

  /** These two lists together are the third, as multisets. */
  ghost predicate SplitOf(a: seq<Pod>, b: seq<Pod>, all: seq<Pod>) {
    multiset(a) + multiset(b) == multiset(all)
  }

  lemma SplitLeft(a: seq<Pod>, b: seq<Pod>, all: seq<Pod>, p: Pod)
    requires SplitOf(a, b, all)
    ensures SplitOf(a + [p], b, all + [p])
  {
  }

  lemma SplitRight(a: seq<Pod>, b: seq<Pod>, all: seq<Pod>, p: Pod)
    requires SplitOf(a, b, all)
    ensures SplitOf(a, b + [p], all + [p])
  {
  }

  lemma SplitStep(sc: Script, i: nat)
    requires sc.Valid() && 0 < i <= |sc.pods|
    requires SplitOf(PodsOf(Rejected(sc, i - 1)), Originals(sc, i - 1), sc.pods[..i - 1])
    ensures SplitOf(PodsOf(Rejected(sc, i)), Originals(sc, i), sc.pods[..i])
  {
    var failed, kept, p := Rejected(sc, i - 1), Originals(sc, i - 1), sc.pods[i - 1];
    assert sc.pods[..i] == sc.pods[..i - 1] + [p];
    if Verdict(sc, i - 1).Some? {
      PodsOfSnoc(failed, UnscheduledPod(p, Verdict(sc, i - 1).value));
      assert Originals(sc, i) == kept;
      SplitLeft(PodsOf(failed), kept, sc.pods[..i - 1], p);
    } else {
      assert Rejected(sc, i) == failed && Originals(sc, i) == kept + [p];
      SplitRight(PodsOf(failed), kept, sc.pods[..i - 1], p);
    }
  }

  /** Every pod is rejected once or kept once, never both. */
  lemma {:induction false} RejectedOrKept(sc: Script, i: nat)
    requires sc.Valid() && i <= |sc.pods|
    ensures SplitOf(PodsOf(Rejected(sc, i)), Originals(sc, i), sc.pods[..i])
  {
    if i == 0 {
      assert PodsOf([]) == [] && Originals(sc, 0) == [] && sc.pods[..0] == [];
    } else {
      RejectedOrKept(sc, i - 1);
      SplitStep(sc, i);
    }
  }

  /** A kept pod is the generated one, or the one binding made of it. */
  lemma {:induction false} KeptAsGenerated(sc: Script, i: nat)
    requires sc.Valid() && i <= |sc.pods|
    ensures |Kept(sc, i)| == |Originals(sc, i)|
    ensures forall k :: 0 <= k < |Kept(sc, i)| ==> KeptFrom(Originals(sc, i)[k], Kept(sc, i)[k])
  {
    if i > 0 {
      KeptAsGenerated(sc, i - 1);
      assert KeptFrom(sc.pods[i - 1], Scheduled(sc, i - 1));
    }
  }

  /** A pod that had a node is as it was; another has been decided, which leaves
      its UID, its names and its scheduler. */
  predicate KeptFrom(generated: Pod, kept: Pod) {
    if generated.nodeName != "" then kept == generated else SamePod(generated, kept)
  }

  /** Conservation over a whole simulation: the rejected pods and the kept ones
      are together exactly the generated pods; the pods on the server are the
      kept ones, in order, each the same pod; and the report lists every pod on
      the server exactly once if and only if every node name is a listed
      node. */
  lemma PodsConserved(all: Batch, failed: seq<UnscheduledPod>, store: seq<Pod>, nodes: seq<string>)
    requires Accounted(all, failed, store) && Distinct(nodes)
    ensures var kept := Originals(ScriptOf(all, []), |all.pods|);
            && SplitOf(PodsOf(failed), kept, all.pods)
            && |store| == |kept|
            && (forall k :: 0 <= k < |store| ==> KeptFrom(kept[k], store[k]))
    ensures multiset(Reported(Listing(store), nodes, |nodes|)) == multiset(store) <==> Listed(store, nodes)
  {
    var sc := ScriptOf(all, []);
    RejectedOrKept(sc, |all.pods|);
    KeptAsGenerated(sc, |all.pods|);
    assert store == Kept(sc, |all.pods|);
    assert all.pods[..|all.pods|] == all.pods;
    ReportedOnceIff(store, nodes);
  }

  /** Every failure a simulation reports is one of the generated pods, with its
      own namespace and name and the scheduler's message. */
  lemma FailuresRecorded(all: Batch, failed: seq<UnscheduledPod>, store: seq<Pod>, k: nat)
    requires Accounted(all, failed, store) && k < |failed|
    ensures Recorded(ScriptOf(all, []), failed[k])
  {
    RejectedRecords(ScriptOf(all, []), |all.pods|);
  }
}
