/** With node capacities that do not change: the published annotation is the
    export of the cache, and Filter predicts Reserve. */
module Publication {
  import opened Kube
  import opened IdStrings
  import opened Packing
  import opened Accounting
  import opened CacheModel
  import opened CacheInvariant
  import opened PluginModel
  import opened Protocol
  import opened Capacity
  import opened Guarantees
  import opened Entries

  /** The cached node agrees with the server's node of today. */
  ghost predicate Current(n: NodeState, node: Node) {
    && n.node == node && n.gpuCount == node.gpuCount && n.gpuTotal == node.gpuMem && n.model == node.model
    && |n.devs| == (if node.gpuCount > 0 then node.gpuCount else 0)
    && forall d :: d in n.devs ==>
                     node.gpuCount > 0 && n.devs[d].total == TruncDiv(node.gpuMem, node.gpuCount) && n.devs[d].model == node.model
  }

  ghost predicate AllCurrent(s: State) {
    forall n :: n in s.cache.nodes ==> n in s.nodes && Current(s.cache.nodes[n], s.nodes[n])
  }

  lemma CurrentSettled(s: State, n: string)
    requires AllCurrent(s) && n in s.cache.nodes
    ensures Settled(s.cache, s.nodes, n)
  {
    assert Current(s.cache.nodes[n], s.nodes[n]);
  }

  /** With current nodes GetGpuNodeInfo only ever adds a node. */
  lemma LookupCurrent(s: State, name: string)
    requires AllCurrent(s) && name in s.nodes
    ensures Lookup(s.cache, s.nodes, name) ==
            Some(if name in s.cache.nodes then s.cache
                 else s.cache.(nodes := s.cache.nodes[name := NewNode(name, s.nodes[name])]))
    ensures AllCurrent(s.(cache := Lookup(s.cache, s.nodes, name).value))
  {
    if name in s.cache.nodes {
      CurrentSettled(s, name);
      SettledLookup(s.cache, s.nodes, name);
    } else {
      BuildLayout(s.nodes[name]);
    }
  }

  lemma WithDevsCurrent(s: State, name: string, devs: map<int, Device>)
    requires AllCurrent(s) && name in s.cache.nodes
    requires devs.Keys == s.cache.nodes[name].devs.Keys
    requires forall d :: d in devs ==> devs[d].total == s.cache.nodes[name].devs[d].total
    requires forall d :: d in devs ==> devs[d].model == s.cache.nodes[name].devs[d].model
    ensures AllCurrent(s.(cache := WithDevs(s.cache, name, devs)))
  {
    assert Current(s.cache.nodes[name], s.nodes[name]);
    assert |devs.Keys| == |devs| && |s.cache.nodes[name].devs.Keys| == |s.cache.nodes[name].devs|;
  }

  // ----- the export -----

  /** NumPods counts (device, pod) pairs: the known pods of the node, once per
      device of the node they name. */
  lemma NumPodsMeaning(c: CacheState, n: string)
    requires CacheOk(c) && n in c.nodes
    ensures Export(c.nodes[n]).numPods ==
            |set d, u | d in c.nodes[n].devs && u in PodsOn(c.known, n) && d in PodIds(c.known[u]) :: (d, u)|
  {
    var node := c.nodes[n];
    assert NodeOk(node, n, c.known);
    forall d, u | d in node.devs
      ensures u in node.devs[d].pods <==> u in PodsOn(c.known, n) && d in PodIds(c.known[u])
    {
      assert u in Holding(c.known, n, d) <==> u in node.devs[d].pods;
    }
    assert Incidences(node.devs) ==
           set d, u | d in node.devs && u in PodsOn(c.known, n) && d in PodIds(c.known[u]) :: (d, u);
  }

  /** The allocatable count is at most the number of GPUs, and not negative if
      the record has no more devices than the node has GPUs. */
  lemma AllocatableBounds(n: NodeState)
    ensures Export(n).gpuAllocatable <= Export(n).gpuCount
    ensures |n.devs| <= n.gpuCount ==> Export(n).gpuAllocatable >= 0
  {
    assert FullDevices(Briefs(n.devs)) <= n.devs.Keys;
    SubsetSize(FullDevices(Briefs(n.devs)), n.devs.Keys);
    assert |n.devs.Keys| == |n.devs|;
  }

  /** A device that counts as allocatable after rounding to MiB really has idle
      memory. */
  lemma AllocatableIsIdle(n: NodeState, d: int)
    requires Layout(n.devs) && d in n.devs && !Full(Export(n).devsBrief[d])
    ensures Used(n.devs[d].pods, d) < n.devs[d].total
  {
    if n.devs[d].total <= Used(n.devs[d].pods, d) {
      TruncDivMonotone(n.devs[d].total, Used(n.devs[d].pods, d), MI);
    }
  }

  lemma {:induction false} SubsetSize(a: set<int>, b: set<int>)
    requires a <= b
    ensures |a| <= |b|
  {
    assert b == a + (b - a);
  }

  lemma TruncDivMonotone(a: int, b: int, k: int)
    requires k > 0 && a <= b
    ensures TruncDiv(a, k) <= TruncDiv(b, k)
  {
    if a >= 0 {
      DivMonotone(a, b, k);
    } else if b < 0 {
      DivMonotone(-b, -a, k);
    } else {
      DivMonotone(0, -a, k);
      DivMonotone(0, b, k);
    }
  }

  lemma DivMonotone(a: int, b: int, k: int)
    requires k > 0 && 0 <= a <= b
    ensures 0 <= a / k <= b / k
  {
    var q := a / k;
    assert q * k <= a;
    assert q >= 0;
    FloorBound(q, k, b);
  }

  // ----- the published annotation over runs -----

  ghost predicate SyncedAt(s: State, n: string) {
    n in s.annos ==> n in s.cache.nodes && s.annos[n] == Export(s.cache.nodes[n])
  }

  /** Every published annotation is the export of the cache, except on the
      given nodes. */
  ghost predicate Synced(s: State, dirty: set<string>) {
    forall n :: n !in dirty ==> SyncedAt(s, n)
  }

  /** Unreserve publishes the node it names; when the copy it takes back is
      charged on another node, that one falls behind. */
  function Behind(s: State, k: string, n: string, dirty: set<string>): set<string>
    requires k in s.pending
  {
    var q := s.pending[k];
    if q.uid in s.cache.known && q.nodeName != n then dirty + {q.nodeName} else dirty
  }

  /** The nodes whose annotation may lag, after one more step: the latest write
      was refused, or an Unreserve that named another node took a charge away. */
  ghost function Dirty(s: State, op: Op, dirty: set<string>): set<string> {
    match op
    case DoReserve(p, n, updated) =>
      if p.gpuMem <= 0 || n !in s.nodes || CopyFor(s, p, n).None? then dirty
      else if updated then dirty - {n}
      else dirty + {n}
    case DoUnreserve(p, n, updated) =>
      if Key(p) !in s.pending then dirty
      else
        var behind := Behind(s, Key(p), n, dirty);
        if n !in s.nodes then behind
        else if updated then behind - {n}
        else behind + {n}
    case _ => dirty
  }

  ghost function DirtyAfter(s: State, ops: seq<Op>): set<string> {
    if ops == [] then {}
    else
      var init := ops[..|ops| - 1];
      Dirty(Run(s, init), ops[|ops| - 1], DirtyAfter(s, init))
  }

  /** The environment may add nodes but not resize one. */
  predicate Steady(s: State, op: Op) {
    Legal(s, op) && (op.SetNode? ==> op.nodeName !in s.nodes)
  }

  ghost predicate SteadyRun(s: State, ops: seq<Op>) {
    forall i :: 0 <= i < |ops| ==> Steady(Run(s, ops[..i]), ops[i])
  }

  /** All that a steady run keeps. */
  ghost predicate SteadyOk(s: State, dirty: set<string>) {
    StateOk(s) && AllCurrent(s) && Synced(s, dirty)
  }

  lemma LookupSteady(s: State, name: string, dirty: set<string>)
    requires SteadyOk(s, dirty) && name in s.nodes
    ensures Lookup(s.cache, s.nodes, name).Some?
    ensures SteadyOk(s.(cache := Lookup(s.cache, s.nodes, name).value), dirty)
    ensures Settled(Lookup(s.cache, s.nodes, name).value, s.nodes, name)
  {
    LookupCurrent(s, name);
    LookupState(s, name);
    LookupSettles(s.cache, s.nodes, name);
    var s1 := s.(cache := Lookup(s.cache, s.nodes, name).value);
    forall n | n !in dirty
      ensures SyncedAt(s1, n)
    {
      assert SyncedAt(s, n);
    }
  }

  /** Changing one node's devices and then publishing it. */
  lemma PublishSteady(s: State, t: State, nodeName: string, updated: bool, dirty: set<string>)
    requires Synced(s, dirty) && StateOk(t) && AllCurrent(t)
    requires Settled(t.cache, t.nodes, nodeName) && t.annos == s.annos
    requires forall n :: n in s.cache.nodes && n != nodeName ==> n in t.cache.nodes && t.cache.nodes[n] == s.cache.nodes[n]
    ensures SteadyOk(Publish(t, nodeName, updated).state, if updated then dirty - {nodeName} else dirty + {nodeName})
  {
    PublishState(t, nodeName, updated);
    PublishSettled(t, nodeName, updated);
    var after := Publish(t, nodeName, updated).state;
    var dirty' := if updated then dirty - {nodeName} else dirty + {nodeName};
    forall n | n !in dirty'
      ensures SyncedAt(after, n)
    {
      if n != nodeName {
        assert SyncedAt(s, n);
      }
    }
    assert AllCurrent(after);
  }

  lemma CommitCurrent(s: State, copy: Pod)
    requires AllCurrent(s) && copy.nodeName in s.cache.nodes
    ensures AllCurrent(Committed(s, copy))
  {
    WithDevsCurrent(s, copy.nodeName, AddPod(s.cache.nodes[copy.nodeName].devs, copy));
    var s1 := s.(cache := WithDevs(s.cache, copy.nodeName, AddPod(s.cache.nodes[copy.nodeName].devs, copy)));
    assert copy.nodeName != "" ==> Committed(s, copy).cache.nodes == s1.cache.nodes;
  }

  lemma CommitOthers(s: State, copy: Pod)
    requires copy.nodeName in s.cache.nodes
    ensures Committed(s, copy).annos == s.annos && Committed(s, copy).nodes == s.nodes
    ensures forall n :: n in s.cache.nodes && n != copy.nodeName ==>
                          n in Committed(s, copy).cache.nodes && Committed(s, copy).cache.nodes[n] == s.cache.nodes[n]
  {
  }

  lemma CommitPublishSteady(s: State, copy: Pod, updated: bool, dirty: set<string>)
    requires SteadyOk(s, dirty) && Settled(s.cache, s.nodes, copy.nodeName) && copy.uid !in s.cache.known
    requires forall k :: k in s.pending && s.pending[k].uid == copy.uid ==> k == Key(copy)
    ensures SteadyOk(Publish(Committed(s, copy), copy.nodeName, updated).state,
                     if updated then dirty - {copy.nodeName} else dirty + {copy.nodeName})
  {
    CommitState(s, copy);
    CommitCurrent(s, copy);
    CommitCache(s, copy);
    CommitOthers(s, copy);
    PublishSteady(s, Committed(s, copy), copy.nodeName, updated, dirty);
  }

  lemma PlacedSteady(s: State, p: Pod, nodeName: string, updated: bool, dirty: set<string>)
    requires SteadyOk(s, dirty) && Legal(s, DoReserve(p, nodeName, updated))
    requires p.gpuMem > 0 && nodeName in s.nodes && CopyFor(s, p, nodeName).Some?
    ensures SteadyOk(Reserve(s, p, nodeName, updated).state, if updated then dirty - {nodeName} else dirty + {nodeName})
  {
    LookupSteady(s, nodeName, dirty);
    ReserveIs(s, p, nodeName, updated);
    var s1 := s.(cache := Lookup(s.cache, s.nodes, nodeName).value);
    CommitPublishSteady(s1, CopyFor(s, p, nodeName).value, updated, dirty);
  }

  lemma UnplacedSteady(s: State, p: Pod, nodeName: string, updated: bool, dirty: set<string>)
    requires SteadyOk(s, dirty) && p.gpuMem > 0 && nodeName in s.nodes && CopyFor(s, p, nodeName).None?
    ensures SteadyOk(Reserve(s, p, nodeName, updated).state, dirty)
  {
    LookupSteady(s, nodeName, dirty);
    ReserveIs(s, p, nodeName, updated);
  }

  lemma ReserveSteady(s: State, p: Pod, nodeName: string, updated: bool, dirty: set<string>)
    requires SteadyOk(s, dirty) && Legal(s, DoReserve(p, nodeName, updated))
    ensures SteadyOk(Reserve(s, p, nodeName, updated).state, Dirty(s, DoReserve(p, nodeName, updated), dirty))
  {
    if p.gpuMem > 0 && nodeName in s.nodes {
      if CopyFor(s, p, nodeName).Some? {
        PlacedSteady(s, p, nodeName, updated, dirty);
      } else {
        UnplacedSteady(s, p, nodeName, updated, dirty);
      }
    }
  }

  lemma RemovedCurrent(s: State, q: Pod)
    requires AllCurrent(s) && q.nodeName in s.cache.nodes
    ensures AllCurrent(s.(cache := Removed(s.cache, q)))
    ensures forall n :: n in s.cache.nodes && n != q.nodeName ==>
                          n in Removed(s.cache, q).nodes && Removed(s.cache, q).nodes[n] == s.cache.nodes[n]
  {
    var devs := RemovePod(s.cache.nodes[q.nodeName].devs, q);
    WithDevsCurrent(s, q.nodeName, devs);
    assert Removed(s.cache, q).nodes == WithDevs(s.cache, q.nodeName, devs).nodes;
  }

  /** The node the copy is charged on, if it is charged. */
  function ChargedNode(s: State, k: string): set<string>
    requires k in s.pending
  {
    if s.pending[k].uid in s.cache.known then {s.pending[k].nodeName} else {}
  }

  /** Before it publishes, Unreserve touches at most the node its copy is
      charged on. */
  lemma RemoveSteady(s: State, k: string, dirty: set<string>)
    requires SteadyOk(s, dirty) && k in s.pending
    ensures var q, t := s.pending[k], s.(cache := Remove(s.cache, s.nodes, s.pending[k]));
            && q.nodeName in s.nodes
            && SteadyOk(t, dirty + ChargedNode(s, k))
  {
    var q := s.pending[k];
    assert EntryOk(s, k);
    CurrentSettled(s, q.nodeName);
    RemoveState(s, k);
    RemoveSettled(s.cache, s.nodes, q);
    RemovedCurrent(s, q);
    if q.uid !in s.cache.known {
      RemoveUnknown(s.cache, q);
    }
    var t := s.(cache := Removed(s.cache, q));
    forall n | n !in dirty + ChargedNode(s, k)
      ensures SyncedAt(t, n)
    {
      assert SyncedAt(s, n);
    }
  }

  /** Publishing any node of the server. */
  lemma PublishAnySteady(s: State, n: string, updated: bool, dirty: set<string>)
    requires SteadyOk(s, dirty) && n in s.nodes
    ensures SteadyOk(Publish(s, n, updated).state, if updated then dirty - {n} else dirty + {n})
  {
    LookupSteady(s, n, dirty);
    var s1 := s.(cache := Lookup(s.cache, s.nodes, n).value);
    SettledLookup(s1.cache, s1.nodes, n);
    PublishSteady(s1, s1, n, updated, dirty);
  }

  lemma BehindIs(s: State, k: string, n: string, dirty: set<string>)
    requires k in s.pending
    ensures dirty + ChargedNode(s, k) - {n} == Behind(s, k, n, dirty) - {n}
    ensures dirty + ChargedNode(s, k) + {n} == Behind(s, k, n, dirty) + {n}
    ensures n != s.pending[k].nodeName ==> dirty + ChargedNode(s, k) == Behind(s, k, n, dirty)
  {
  }

  lemma UnreserveSteady(s: State, p: Pod, nodeName: string, updated: bool, dirty: set<string>)
    requires SteadyOk(s, dirty)
    ensures SteadyOk(Unreserve(s, p, nodeName, updated), Dirty(s, DoUnreserve(p, nodeName, updated), dirty))
  {
    if Key(p) in s.pending {
      var t, behind := s.(cache := Remove(s.cache, s.nodes, s.pending[Key(p)])), dirty + ChargedNode(s, Key(p));
      RemoveSteady(s, Key(p), dirty);
      BehindIs(s, Key(p), nodeName, dirty);
      assert Unreserve(s, p, nodeName, updated) == Publish(t, nodeName, updated).state;
      PublishOrNotSteady(t, nodeName, updated, behind);
    }
  }

  lemma PublishOrNotSteady(s: State, n: string, updated: bool, dirty: set<string>)
    requires SteadyOk(s, dirty)
    ensures SteadyOk(Publish(s, n, updated).state,
                     if n !in s.nodes then dirty else if updated then dirty - {n} else dirty + {n})
  {
    if n in s.nodes {
      PublishAnySteady(s, n, updated, dirty);
    }
  }

  lemma FilterSteady(s: State, p: Pod, nodeName: string, snapshot: Node, dirty: set<string>)
    requires SteadyOk(s, dirty)
    ensures SteadyOk(Filter(s, p, nodeName, snapshot).state, dirty)
  {
    if nodeName in s.nodes {
      LookupSteady(s, nodeName, dirty);
    }
  }

  lemma OtherSteady(s: State, op: Op, dirty: set<string>)
    requires SteadyOk(s, dirty) && Steady(s, op)
    requires op.DoBind? || op.SetNode? || op.SetPod? || op.DeletePod?
    ensures SteadyOk(Step(s, op), dirty)
  {
    StepKeeps(s, op);
    var s1 := Step(s, op);
    assert s1.cache == s.cache && s1.annos == s.annos;
    forall n | n !in dirty
      ensures SyncedAt(s1, n)
    {
      assert SyncedAt(s, n);
    }
    forall n | n in s1.cache.nodes
      ensures n in s1.nodes && Current(s1.cache.nodes[n], s1.nodes[n])
    {
      assert Current(s.cache.nodes[n], s.nodes[n]);
    }
  }

  lemma StepSteady(s: State, op: Op, dirty: set<string>)
    requires SteadyOk(s, dirty) && Steady(s, op)
    ensures SteadyOk(Step(s, op), Dirty(s, op, dirty))
  {
    if op.DoFilter? {
      FilterSteady(s, op.pod, op.nodeName, op.snapshot, dirty);
    } else if op.DoReserve? {
      ReserveSteady(s, op.pod, op.nodeName, op.updated, dirty);
    } else if op.DoUnreserve? {
      UnreserveSteady(s, op.pod, op.nodeName, op.updated, dirty);
    } else {
      OtherSteady(s, op, dirty);
    }
  }

  /** In every steady run every published annotation is the export of the
      node's current devices, except where the latest write was refused or an
      Unreserve that named another node took a charge away. */
  lemma {:induction false} PublishedIsExport(s: State, ops: seq<Op>)
    requires Initial(s) && SteadyRun(s, ops)
    ensures SteadyOk(Run(s, ops), DirtyAfter(s, ops))
    ensures var now := Run(s, ops);
            forall n :: n in now.annos && n !in DirtyAfter(s, ops) ==>
                          n in now.cache.nodes && now.annos[n] == Export(now.cache.nodes[n])
    decreases |ops|
  {
    if ops != [] {
      var init := ops[..|ops| - 1];
      assert forall i :: 0 <= i < |init| ==> init[..i] == ops[..i] && init[i] == ops[i];
      PublishedIsExport(s, init);
      StepSteady(Run(s, init), ops[|ops| - 1], DirtyAfter(s, init));
    }
    assert forall n :: n !in DirtyAfter(s, ops) ==> SyncedAt(Run(s, ops), n);
  }

  /** So in every state of every steady run the allocatable count of a node lies
      between 0 and its number of GPUs, unless that is negative. */
  lemma AllocatableBoundsInRuns(s: State, ops: seq<Op>, n: string)
    requires Initial(s) && SteadyRun(s, ops) && n in Run(s, ops).cache.nodes && n in Run(s, ops).nodes
    requires Run(s, ops).nodes[n].gpuCount >= 0
    ensures var info := Export(Run(s, ops).cache.nodes[n]); 0 <= info.gpuAllocatable <= info.gpuCount
  {
    PublishedIsExport(s, ops);
    var now := Run(s, ops);
    assert Current(now.cache.nodes[n], now.nodes[n]);
    AllocatableBounds(now.cache.nodes[n]);
  }

  // ----- Filter predicts Reserve -----

  /** A non-empty placement needs a device with room for one request. */
  lemma FitsNeedsRoom(avail: map<int, int>, n: nat, mem: int, ids: seq<int>) returns (d: int)
    requires mem > 0 && ids != [] && Fits(avail, n, mem, ids)
    ensures d in avail && mem <= avail[d]
  {
    d := ids[0];
    assert d in ids && Times(ids, d) >= 1;
    MulNonNegative(Times(ids, d) - 1, mem);
    assert (Times(ids, d) - 1) * mem == Times(ids, d) * mem - mem;
  }

  lemma ChoiceNeedsRoom(devs: map<int, Device>, p: Pod) returns (d: int)
    requires |devs| <= MAX_INT64 && !HasPreset(p) && Allocate(devs, p).Some?
    ensures d in devs && p.gpuMem <= devs[d].total - Used(devs[d].pods, d)
  {
    ChoiceFits(Avail(devs), |devs|, p);
    d := FitsNeedsRoom(Avail(devs), |devs|, p.gpuMem, ParseIds(Allocate(devs, p).value).ids);
  }

  lemma PlacementNeedsTotal(s: State, p: Pod, n: string)
    requires StateOk(s) && Asking(s) && AllCurrent(s) && n in s.nodes && !HasPreset(p)
    requires CopyFor(s, p, n).Some? && p.gpuMem > 0
    ensures p.gpuMem <= s.nodes[n].gpuMem
  {
    LookupState(s, n);
    LookupCurrent(s, n);
    var c := Lookup(s.cache, s.nodes, n).value;
    assert NodeOk(c.nodes[n], n, c.known) && Current(c.nodes[n], s.nodes[n]);
    var d := ChoiceNeedsRoom(c.nodes[n].devs, p);
    NodeUsedNonNegative(c, n, d);
    TotalAtMostNode(s.nodes[n]);
  }

  lemma NodeUsedNonNegative(c: CacheState, n: string, d: int)
    requires CacheOk(c) && n in c.nodes && d in c.nodes[n].devs
    requires forall u :: u in c.known ==> c.known[u].gpuMem >= 0
    ensures Used(c.nodes[n].devs[d].pods, d) >= 0
  {
    assert NodeOk(c.nodes[n], n, c.known);
    var pods := c.nodes[n].devs[d].pods;
    forall u | u in pods
      ensures pods[u].gpuMem >= 0
    {
      assert u in Holding(c.known, n, d);
    }
    UsedNonNegative(pods, d);
  }

  lemma TotalAtMostNode(node: Node)
    requires node.gpuCount > 0
    ensures TruncDiv(node.gpuMem, node.gpuCount) <= (if node.gpuMem > 0 then node.gpuMem else 0)
  {
    var mem: int := node.gpuMem;
    if mem >= 0 {
      var q := mem / node.gpuCount;
      DivMonotone(0, mem, node.gpuCount);
      MulNonNegative(q, node.gpuCount - 1);
      assert q * node.gpuCount <= mem;
    } else {
      DivMonotone(0, -mem, node.gpuCount);
    }
  }

  /** Reserve succeeds, when the server accepts the write, exactly when it has a
      copy to file. */
  lemma ReserveSucceedsIff(s: State, p: Pod, n: string)
    requires StateOk(s) && p.gpuMem > 0
    ensures Reserve(s, p, n, true).status == Success <==> CopyFor(s, p, n).Some?
  {
    if n in s.nodes {
      ReserveIs(s, p, n, true);
      if CopyFor(s, p, n).Some? {
        CopyIsPlaced(s, p, n);
      }
    }
  }

  /** Looking a node up first does not change the copy Reserve would file. */
  lemma LookupThenCopy(s: State, p: Pod, n: string)
    requires StateOk(s) && n in s.nodes
    ensures Lookup(s.cache, s.nodes, n).Some?
    ensures var s1 := s.(cache := Lookup(s.cache, s.nodes, n).value);
            StateOk(s1) && CopyFor(s1, p, n) == CopyFor(s, p, n)
  {
    LookupState(s, n);
    LookupSettles(s.cache, s.nodes, n);
    SettledLookup(Lookup(s.cache, s.nodes, n).value, s.nodes, n);
  }

  /** For every GPU pod, presets included, and every snapshot: Filter passes the
      node exactly when the snapshot's total memory covers the request and
      Reserve, in the state Filter leaves, places the pod.  The choice is the
      one it would have been before Filter. */
  lemma FilterIffReserve(s: State, p: Pod, n: string, snapshot: Node)
    requires StateOk(s) && p.gpuMem > 0
    ensures var f := Filter(s, p, n, snapshot);
            && (f.status == Success <==> snapshot.gpuMem >= p.gpuMem && Reserve(f.state, p, n, true).status == Success)
            && (Reserve(f.state, p, n, true).status == Success <==> CopyFor(s, p, n).Some?)
            && CopyFor(f.state, p, n) == CopyFor(s, p, n)
  {
    if n in s.nodes {
      LookupThenCopy(s, p, n);
    }
    ReserveSucceedsIff(Filter(s, p, n, snapshot).state, p, n);
  }

  /** So it is in every state of every legal run, resized nodes included, and
      Filter keeps every device of every cached node that has any. */
  lemma FilterIffReserveInRuns(s: State, ops: seq<Op>, p: Pod, n: string, snapshot: Node)
    requires Initial(s) && LegalRun(s, ops) && p.gpuMem > 0
    ensures var now := Run(s, ops);
            var f := Filter(now, p, n, snapshot);
            && (f.status == Success <==> snapshot.gpuMem >= p.gpuMem && Reserve(f.state, p, n, true).status == Success)
            && (forall m :: m in now.cache.nodes && now.cache.nodes[m].devs != map[] ==>
                              m in f.state.cache.nodes && f.state.cache.nodes[m].devs == now.cache.nodes[m].devs)
  {
    RunKeeps(s, ops);
    FilterIffReserve(Run(s, ops), p, n, snapshot);
    if n in Run(s, ops).nodes {
      LookupKeeps(Run(s, ops).cache, Run(s, ops).nodes, n);
    }
  }

  /** With current capacities and a snapshot of today the early exit on total
      memory turns away no pod without a preset that Reserve could place. */
  lemma FilterPredictsReserve(s: State, p: Pod, n: string)
    requires StateOk(s) && Asking(s) && AllCurrent(s) && n in s.nodes && p.gpuMem > 0 && !HasPreset(p)
    ensures var f := Filter(s, p, n, s.nodes[n]);
            f.status == Success <==> Reserve(f.state, p, n, true).status == Success
  {
    FilterIffReserve(s, p, n, s.nodes[n]);
    if CopyFor(s, p, n).Some? {
      PlacementNeedsTotal(s, p, n);
    }
  }

  lemma SteadyIsLegal(s: State, ops: seq<Op>)
    requires SteadyRun(s, ops)
    ensures LegalRun(s, ops)
  {
    forall i | 0 <= i < |ops|
      ensures Legal(Run(s, ops[..i]), ops[i])
    {
      assert Steady(Run(s, ops[..i]), ops[i]);
    }
  }

  /** So it is in every state of every steady run, whatever presets earlier pods
      brought. */
  lemma FilterPredictsReserveInRuns(s: State, ops: seq<Op>, p: Pod, n: string)
    requires Initial(s) && SteadyRun(s, ops)
    requires n in Run(s, ops).nodes && p.gpuMem > 0 && !HasPreset(p)
    ensures var now := Run(s, ops);
            var f := Filter(now, p, n, now.nodes[n]);
            f.status == Success <==> Reserve(f.state, p, n, true).status == Success
  {
    SteadyIsLegal(s, ops);
    RunEntries(s, ops);
    PublishedIsExport(s, ops);
    FilterPredictsReserve(Run(s, ops), p, n);
  }
}
