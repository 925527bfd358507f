/** No oversubscription, and conservation of memory, over whole runs in which
    no reserved pod brings its own valid device annotation. */
module Capacity {
  import opened Kube
  import opened IdStrings
  import opened Packing
  import opened Accounting
  import opened CacheModel
  import opened CacheInvariant
  import opened PluginModel
  import opened Protocol

  // ----- what one allocation guarantees -----

  /** An annotation the allocator chose parses back to as many devices as GPUs
      asked for, all of them devices of the node, and together they fit. */
  lemma ChoiceFits(avail: map<int, int>, n: nat, p: Pod)
    requires n <= MAX_INT64 && !HasPreset(p) && Choose(avail, n, p).Some?
    ensures var r := ParseIds(Choose(avail, n, p).value);
            r.Ids? && |r.ids| == p.gpuCount && Fits(avail, n, p.gpuMem, r.ids)
  {
    if p.gpuCount == 1 {
      var d := TightestFit(avail, n, p.gpuMem).value;
      assert JoinIds([d]) == Itoa(d);
      RoundTrip([d]);
      assert Times([d], d) == 1;
    } else {
      var g := Pack(avail, 0, n, p.gpuMem, p.gpuCount);
      PackRange(avail, 0, n, p.gpuMem, p.gpuCount);
      PackFits(avail, 0, n, p.gpuMem, p.gpuCount);
      RoundTrip(g);
    }
  }

  // ----- the invariant -----

  /** A device that holds pods counts no more memory than it has. */
  ghost predicate WithinTotal(d: Device, i: int) {
    d.pods != map[] ==> Used(d.pods, i) <= d.total
  }

  ghost predicate DevsWithin(devs: map<int, Device>) {
    forall i :: i in devs ==> WithinTotal(devs[i], i)
  }

  /** A cached pod is live, asks for memory, and names as many devices as GPUs
      it asked for, all of them devices of its node. */
  predicate FullyPlaced(c: CacheState, p: Pod) {
    && p.gpuMem > 0
    && p.phase == Running
    && |PodIds(p)| == p.gpuCount
    && p.nodeName in c.nodes
    && forall d :: d in PodIds(p) ==> d in c.nodes[p.nodeName].devs
  }

  ghost predicate CapacityOk(c: CacheState) {
    && (forall n :: n in c.nodes ==> DevsWithin(c.nodes[n].devs))
    && (forall u :: u in c.known ==> FullyPlaced(c, c.known[u]))
  }

  lemma ReplaceNodeCapacity(c: CacheState, name: string, n: NodeState)
    requires CacheOk(c) && CapacityOk(c)
    requires name in c.nodes && c.nodes[name].devs != map[] ==> n.devs == c.nodes[name].devs
    requires DevsWithin(n.devs)
    ensures CapacityOk(c.(nodes := c.nodes[name := n]))
  {
    forall u | u in c.known
      ensures FullyPlaced(c.(nodes := c.nodes[name := n]), c.known[u])
    {
      assert PodOk(c, u) && FullyPlaced(c, c.known[u]);
    }
  }

  lemma LookupCapacity(c: CacheState, nodes: map<string, Node>, name: string)
    requires CacheOk(c) && CapacityOk(c) && name in nodes
    ensures Lookup(c, nodes, name).Some? && CapacityOk(Lookup(c, nodes, name).value)
  {
    LookupKeeps(c, nodes, name);
    var n := Found(c, name, nodes[name]);
    forall i | i in BuildDevs(nodes[name])
      ensures WithinTotal(BuildDevs(nodes[name])[i], i)
    {
      assert BuildDevs(nodes[name])[i].pods == map[];
    }
    assert DevsWithin(n.devs);
    ReplaceNodeCapacity(c, name, n);
  }

  lemma ChargeNonNegative(p: Pod, i: int)
    requires p.gpuMem >= 0
    ensures Charge(p, i) >= 0
  {
    MulNonNegative(p.gpuMem, Times(PodIds(p), i));
  }

  lemma UsedNonNegative(pods: map<UID, Pod>, i: int)
    requires forall u :: u in pods ==> pods[u].gpuMem >= 0
    ensures Used(pods, i) >= 0
  {
    forall u | u in pods
      ensures ChargeTo(i)(pods[u]) >= 0
    {
      ChargeNonNegative(pods[u], i);
    }
    SumPodsNonNegative(pods, ChargeTo(i));
  }

  /** Charging a placement that fits the idle memory keeps a device within its
      total. */
  lemma AddWithin(d: Device, i: int, p: Pod)
    requires p.uid !in d.pods
    requires Charge(p, i) <= d.total - Used(d.pods, i)
    ensures WithinTotal(d.(pods := d.pods[p.uid := p]), i)
  {
    SumPodsAdd(d.pods, p.uid, p, ChargeTo(i));
  }

  lemma RemoveWithin(d: Device, i: int, p: Pod)
    requires WithinTotal(d, i) && p.gpuMem >= 0
    requires p.uid in d.pods ==> d.pods[p.uid] == p
    ensures WithinTotal(d.(pods := d.pods - {p.uid}), i)
  {
    if p.uid in d.pods {
      SumPodsRemove(d.pods, p.uid, ChargeTo(i));
      ChargeNonNegative(p, i);
    } else {
      MapExtensional(d.pods - {p.uid}, d.pods);
    }
  }

  lemma FitsCharge(avail: map<int, int>, n: nat, p: Pod, i: int)
    requires Fits(avail, n, p.gpuMem, PodIds(p)) && i in PodIds(p)
    ensures i in avail && Charge(p, i) <= (if p.Terminated() then 0 else avail[i])
  {
    assert Times(PodIds(p), i) * p.gpuMem == p.gpuMem * Times(PodIds(p), i);
  }

  lemma AddDevsWithin(devs: map<int, Device>, p: Pod, n: nat)
    requires DevsWithin(devs) && p.phase == Running
    requires forall d :: d in devs ==> p.uid !in devs[d].pods
    requires Fits(Avail(devs), n, p.gpuMem, PodIds(p))
    ensures DevsWithin(AddPod(devs, p))
  {
    forall i | i in devs
      ensures WithinTotal(AddPod(devs, p)[i], i)
    {
      assert WithinTotal(devs[i], i);
      if i in PodIds(p) {
        FitsCharge(Avail(devs), n, p, i);
        AddWithin(devs[i], i, p);
      }
    }
  }

  lemma AddFullyPlaced(c: CacheState, p: Pod)
    requires (forall u :: u in c.known ==> FullyPlaced(c, c.known[u])) && p.nodeName in c.nodes
    requires FullyPlaced(c, p)
    ensures forall u :: u in Added(c, p).known ==> FullyPlaced(Added(c, p), Added(c, p).known[u])
  {
    var c1 := Added(c, p);
    forall u | u in c1.known
      ensures FullyPlaced(c1, c1.known[u])
    {
      if u in c.known {
        assert FullyPlaced(c, c.known[u]);
      }
    }
  }

  lemma AddCapacity(c: CacheState, p: Pod)
    requires CacheOk(c) && CapacityOk(c) && p.uid !in c.known
    requires FullyPlaced(c, p)
    requires Fits(Avail(c.nodes[p.nodeName].devs), |c.nodes[p.nodeName].devs|, p.gpuMem, PodIds(p))
    ensures CapacityOk(Added(c, p))
  {
    var devs := c.nodes[p.nodeName].devs;
    FreshNotHeld(c, p.nodeName, p.uid);
    AddDevsWithin(devs, p, |devs|);
    AddFullyPlaced(c, p);
  }

  lemma RemoveDevsWithin(devs: map<int, Device>, p: Pod)
    requires DevsWithin(devs) && p.gpuMem >= 0
    requires forall d :: d in devs && p.uid in devs[d].pods ==> devs[d].pods[p.uid] == p
    ensures DevsWithin(RemovePod(devs, p))
  {
    forall i | i in devs
      ensures WithinTotal(RemovePod(devs, p)[i], i)
    {
      assert WithinTotal(devs[i], i);
      RemoveWithin(devs[i], i, p);
    }
  }

  lemma RemoveFullyPlaced(c: CacheState, p: Pod)
    requires (forall u :: u in c.known ==> FullyPlaced(c, c.known[u])) && p.nodeName in c.nodes
    ensures forall u :: u in Removed(c, p).known ==> FullyPlaced(Removed(c, p), Removed(c, p).known[u])
  {
    var c1 := Removed(c, p);
    forall u | u in c1.known
      ensures FullyPlaced(c1, c1.known[u])
    {
      assert FullyPlaced(c, c.known[u]);
    }
  }

  lemma HeldAsKnown(c: CacheState, p: Pod)
    requires CacheOk(c) && p.nodeName in c.nodes
    requires p.uid in c.known ==> c.known[p.uid] == p
    ensures forall d :: d in c.nodes[p.nodeName].devs && p.uid in c.nodes[p.nodeName].devs[d].pods ==>
                          c.nodes[p.nodeName].devs[d].pods[p.uid] == p
  {
    var devs := c.nodes[p.nodeName].devs;
    assert NodeOk(c.nodes[p.nodeName], p.nodeName, c.known);
    forall d | d in devs && p.uid in devs[d].pods
      ensures devs[d].pods[p.uid] == p
    {
      assert p.uid in Holding(c.known, p.nodeName, d);
    }
  }

  lemma RemoveCapacity(c: CacheState, p: Pod)
    requires CacheOk(c) && CapacityOk(c) && p.nodeName in c.nodes && p.gpuMem >= 0
    requires p.uid in c.known ==> c.known[p.uid] == p
    ensures CapacityOk(Removed(c, p))
  {
    HeldAsKnown(c, p);
    RemoveDevsWithin(c.nodes[p.nodeName].devs, p);
    RemoveFullyPlaced(c, p);
  }

  // ----- every step keeps it -----

  /** The whole invariant: the index, the capacity bound, and memory asked for
      by every waiting entry. */
  ghost predicate CapState(s: State) {
    && StateOk(s)
    && CapacityOk(s.cache)
    && forall k :: k in s.pending ==> s.pending[k].gpuMem > 0
  }

  predicate NoPreset(op: Op) {
    op.DoReserve? ==> !HasPreset(op.pod)
  }

  lemma PublishCapacity(s: State, nodeName: string, updated: bool)
    requires CapState(s)
    ensures CapState(Publish(s, nodeName, updated).state)
  {
    PublishState(s, nodeName, updated);
    if nodeName in s.nodes {
      LookupCapacity(s.cache, s.nodes, nodeName);
    }
  }

  /** The copy Reserve files is fully placed and fits. */
  lemma CopyFits(c: CacheState, p: Pod, nodeName: string)
    requires CacheOk(c) && nodeName in c.nodes && !HasPreset(p)
    requires Allocate(c.nodes[nodeName].devs, p).Some?
    ensures var copy := Placed(p, nodeName, Allocate(c.nodes[nodeName].devs, p).value);
            && FullyPlaced(c, copy)
            && Fits(Avail(c.nodes[nodeName].devs), |c.nodes[nodeName].devs|, p.gpuMem, PodIds(copy))
  {
    var devs := c.nodes[nodeName].devs;
    assert NodeOk(c.nodes[nodeName], nodeName, c.known);
    ChoiceFits(Avail(devs), |devs|, p);
    var copy := Placed(p, nodeName, Allocate(devs, p).value);
    forall d | d in PodIds(copy)
      ensures d in devs
    {
      assert d in Avail(devs);
    }
  }

  lemma CommitCapacity(s: State, p: Pod, nodeName: string)
    requires CapState(s) && Settled(s.cache, s.nodes, nodeName) && !HasPreset(p) && p.gpuMem > 0
    requires Allocate(s.cache.nodes[nodeName].devs, p).Some?
    requires p.uid !in s.cache.known
    requires forall k :: k in s.pending && s.pending[k].uid == p.uid ==> k == Key(p)
    ensures CapState(Committed(s, Placed(p, nodeName, Allocate(s.cache.nodes[nodeName].devs, p).value)))
  {
    var copy := Placed(p, nodeName, Allocate(s.cache.nodes[nodeName].devs, p).value);
    CommitState(s, copy);
    CopyFits(s.cache, p, nodeName);
    FileCapacity(s, copy);
  }

  /** Filing a copy that is fully placed and fits. */
  lemma FileCapacity(s: State, copy: Pod)
    requires CapState(s) && copy.nodeName in s.cache.nodes && copy.uid !in s.cache.known && copy.gpuMem > 0
    requires FullyPlaced(s.cache, copy)
    requires var devs := s.cache.nodes[copy.nodeName].devs;
             Fits(Avail(devs), |devs|, copy.gpuMem, PodIds(copy))
    ensures CapacityOk(Committed(s, copy).cache)
    ensures forall k :: k in Committed(s, copy).pending ==> Committed(s, copy).pending[k].gpuMem > 0
  {
    if copy.nodeName != "" {
      AddCapacity(s.cache, copy);
    }
  }

  lemma ReserveCapacity(s: State, p: Pod, nodeName: string, updated: bool)
    requires CapState(s) && Legal(s, DoReserve(p, nodeName, updated)) && !HasPreset(p)
    ensures CapState(Reserve(s, p, nodeName, updated).state)
  {
    if p.gpuMem > 0 && nodeName in s.nodes {
      ReserveIs(s, p, nodeName, updated);
      LookupCapacity(s.cache, s.nodes, nodeName);
      var s1 := s.(cache := Lookup(s.cache, s.nodes, nodeName).value);
      var copy := CopyFor(s, p, nodeName);
      if copy.Some? {
        CommitCapacity(s1, p, nodeName);
        PublishCapacity(Committed(s1, copy.value), nodeName, updated);
      }
    }
  }

  lemma UnreserveCapacity(s: State, p: Pod, nodeName: string, updated: bool)
    requires CapState(s)
    ensures CapState(Unreserve(s, p, nodeName, updated))
  {
    if Key(p) in s.pending {
      var q := s.pending[Key(p)];
      assert EntryOk(s, Key(p));
      RemoveState(s, Key(p));
      LookupCapacity(s.cache, s.nodes, q.nodeName);
      LookupState(s, q.nodeName);
      var c := Lookup(s.cache, s.nodes, q.nodeName).value;
      assert EntryOk(s.(cache := c), Key(p));
      RemoveCapacity(c, q);
      assert Remove(s.cache, s.nodes, q) == Removed(c, q);
      PublishCapacity(s.(cache := Removed(c, q)), nodeName, updated);
    }
  }

  lemma FilterCapacity(s: State, p: Pod, nodeName: string, snapshot: Node)
    requires CapState(s)
    ensures CapState(Filter(s, p, nodeName, snapshot).state)
  {
    if nodeName in s.nodes {
      LookupState(s, nodeName);
      LookupCapacity(s.cache, s.nodes, nodeName);
    }
  }

  /** Bind and the environment leave the cache alone. */
  lemma OtherCapacity(s: State, op: Op)
    requires CapState(s) && (op.DoBind? || op.SetNode? || op.SetPod? || op.DeletePod?)
    ensures CapState(Step(s, op))
  {
    StepKeeps(s, op);
    assert Step(s, op).cache == s.cache;
  }

  lemma StepCapacity(s: State, op: Op)
    requires CapState(s) && Legal(s, op) && NoPreset(op)
    ensures CapState(Step(s, op))
  {
    if op.DoFilter? {
      FilterCapacity(s, op.pod, op.nodeName, op.snapshot);
    } else if op.DoReserve? {
      ReserveCapacity(s, op.pod, op.nodeName, op.updated);
    } else if op.DoUnreserve? {
      UnreserveCapacity(s, op.pod, op.nodeName, op.updated);
    } else {
      OtherCapacity(s, op);
    }
  }

  ghost predicate PresetFreeRun(s: State, ops: seq<Op>) {
    LegalRun(s, ops) && forall i :: 0 <= i < |ops| ==> NoPreset(ops[i])
  }

  lemma {:induction false} RunCapacity(s: State, ops: seq<Op>)
    requires Initial(s) && PresetFreeRun(s, ops)
    ensures CapState(Run(s, ops))
    decreases |ops|
  {
    if ops != [] {
      var init := ops[..|ops| - 1];
      assert forall i :: 0 <= i < |init| ==> init[..i] == ops[..i] && init[i] == ops[i];
      RunCapacity(s, init);
      StepCapacity(Run(s, init), ops[|ops| - 1]);
    }
  }

  /** No oversubscription: from an empty cache, after any interleaving of the
      plugin's steps and the environment's, a device counts between 0 and its
      total, and it counts nothing if it holds no pod. */
  lemma NoOversubscription(s: State, ops: seq<Op>, n: string, d: int)
    requires Initial(s) && PresetFreeRun(s, ops)
    ensures var c := Run(s, ops).cache;
            n in c.nodes && d in c.nodes[n].devs ==>
              var dev := c.nodes[n].devs[d];
              0 <= Used(dev.pods, d) && (Used(dev.pods, d) <= dev.total || dev.pods == map[])
  {
    RunCapacity(s, ops);
    var c := Run(s, ops).cache;
    if n in c.nodes && d in c.nodes[n].devs {
      var dev := c.nodes[n].devs[d];
      assert DevsWithin(c.nodes[n].devs) && WithinTotal(dev, d);
      assert NodeOk(c.nodes[n], n, c.known);
      forall u | u in dev.pods
        ensures dev.pods[u].gpuMem >= 0
      {
        assert u in Holding(c.known, n, d);
        assert FullyPlaced(c, c.known[u]);
      }
      UsedNonNegative(dev.pods, d);
    }
  }

  // ----- conservation -----

  /** What the devices 0 .. k-1 of a node count together. */
  ghost function UsedByDevs(devs: map<int, Device>, k: nat): int
    requires forall i :: 0 <= i < k ==> i in devs
  {
    if k == 0 then 0 else UsedByDevs(devs, k - 1) + Used(devs[k - 1].pods, k - 1)
  }

  /** The known pods placed on a node. */
  function PodsOn(known: map<UID, Pod>, n: string): map<UID, Pod> {
    map u | u in known && known[u].nodeName == n :: known[u]
  }

  /** A device counts what all pods of its node charge to it. */
  lemma DeviceCountsNodePods(known: map<UID, Pod>, n: string, i: int)
    ensures Used(Holding(known, n, i), i) == Used(PodsOn(known, n), i)
  {
    var held, all := Holding(known, n, i), PodsOn(known, n);
    forall u | u in all && u !in held
      ensures ChargeTo(i)(all[u]) == 0
    {
      assert Times(PodIds(all[u]), i) == 0;
    }
    SumPodsIgnoresZero(held, all, ChargeTo(i));
  }

  lemma {:induction false} DevsCountPods(devs: map<int, Device>, pods: map<UID, Pod>, k: nat)
    requires forall i :: 0 <= i < k ==> i in devs && Used(devs[i].pods, i) == Used(pods, i)
    ensures UsedByDevs(devs, k) == UsedOnFirst(pods, k)
  {
    if k > 0 {
      DevsCountPods(devs, pods, k - 1);
    }
  }

  /** Conservation: on every node of every reachable cache, what the devices
      count adds up to memory times count over the pods the cache knows there.
      The module GpuReport says when these are the server's pods. */
  lemma MemoryConserved(s: State, ops: seq<Op>, n: string)
    requires Initial(s) && PresetFreeRun(s, ops) && n in Run(s, ops).cache.nodes
    ensures forall i :: 0 <= i < |Run(s, ops).cache.nodes[n].devs| ==> i in Run(s, ops).cache.nodes[n].devs
    ensures var c := Run(s, ops).cache;
            UsedByDevs(c.nodes[n].devs, |c.nodes[n].devs|) == SumPods(PodsOn(c.known, n), Requested())
  {
    RunCapacity(s, ops);
    var c := Run(s, ops).cache;
    var devs := c.nodes[n].devs;
    assert NodeOk(c.nodes[n], n, c.known);
    var pods := PodsOn(c.known, n);
    forall i | 0 <= i < |devs|
      ensures Used(devs[i].pods, i) == Used(pods, i)
    {
      assert devs[i].pods == Holding(c.known, n, i);
      DeviceCountsNodePods(c.known, n, i);
    }
    DevsCountPods(devs, pods, |devs|);
    forall u | u in pods
      ensures !pods[u].Terminated() && |PodIds(pods[u])| == pods[u].gpuCount
      ensures forall d :: d in PodIds(pods[u]) ==> 0 <= d < |devs|
    {
      assert FullyPlaced(c, c.known[u]);
    }
    Conservation(pods, |devs|);
  }
}
