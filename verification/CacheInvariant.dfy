/** The index every reachable cache keeps: a device holds exactly the known
    pods of its node whose annotation names it. */
module CacheInvariant {
  import opened Kube
  import opened Accounting
  import opened CacheModel

  ghost predicate Layout(devs: map<int, Device>) {
    |devs| <= MAX_INT64 && Numbered(devs)
  }

  /** The known pods placed on a node whose device list contains d. */
  function Holding(known: map<UID, Pod>, name: string, d: int): map<UID, Pod> {
    map u | u in known && known[u].nodeName == name && d in PodIds(known[u]) :: known[u]
  }

  ghost predicate NodeOk(n: NodeState, name: string, known: map<UID, Pod>) {
    && n.name == name
    && Layout(n.devs)
    && forall d :: d in n.devs ==> n.devs[d].pods == Holding(known, name, d)
  }

  predicate PodOk(c: CacheState, u: UID)
    requires u in c.known
  {
    && c.known[u].uid == u
    && c.known[u].nodeName in c.nodes
    && Touches(c.nodes[c.known[u].nodeName].devs, c.known[u])
  }

  // ----- building and finding nodes -----

  lemma BuildLayout(node: Node)
    ensures Layout(BuildDevs(node))
    ensures |BuildDevs(node)| == if node.gpuCount > 0 then node.gpuCount else 0
  {
    RangeSize(BuildDevs(node), if node.gpuCount > 0 then node.gpuCount else 0);
  }

  /** Devices on which no known pod can be are empty, whatever the node. */
  lemma BuildHolding(node: Node, name: string, known: map<UID, Pod>)
    requires forall u :: u in known ==> known[u].nodeName != name
    ensures NodeOk(NewNode(name, node), name, known)
  {
    BuildLayout(node);
    forall d | d in BuildDevs(node)
      ensures BuildDevs(node)[d].pods == Holding(known, name, d)
    {
      assert Holding(known, name, d) == map[];
    }
  }

  ghost predicate NodesOk(c: CacheState) {
    forall name :: name in c.nodes ==> NodeOk(c.nodes[name], name, c.known)
  }

  predicate PodsOk(c: CacheState) {
    forall u :: u in c.known ==> PodOk(c, u)
  }

  ghost predicate CacheOk(c: CacheState) {
    NodesOk(c) && PodsOk(c)
  }

  /** What one node is after GetGpuNodeInfo. */
  function Found(c: CacheState, name: string, node: Node): NodeState {
    if name !in c.nodes then NewNode(name, node)
    else if Stale(c.nodes[name]) then ResetNode(c.nodes[name], node)
    else c.nodes[name]
  }

  lemma FoundOk(c: CacheState, name: string, node: Node)
    requires CacheOk(c)
    ensures NodeOk(Found(c, name, node), name, c.known)
    ensures name in c.nodes && c.nodes[name].devs != map[] ==> Found(c, name, node).devs == c.nodes[name].devs
    ensures name !in c.nodes || c.nodes[name].devs == map[] ==> Found(c, name, node).devs == BuildDevs(node)
  {
    if name in c.nodes {
      assert NodeOk(c.nodes[name], name, c.known);
    }
    if name !in c.nodes || c.nodes[name].devs == map[] {
      forall u | u in c.known
        ensures c.known[u].nodeName != name
      {
        assert PodOk(c, u);
      }
      BuildHolding(node, name, c.known);
      BuildLayout(node);
      if node.gpuCount <= 0 && BuildDevs(node) != map[] {
        var k := SomeKey(BuildDevs(node));
      }
    }
  }

  lemma LookupIsFound(c: CacheState, nodes: map<string, Node>, name: string)
    requires name in nodes
    ensures Lookup(c, nodes, name) == Some(c.(nodes := c.nodes[name := Found(c, name, nodes[name])]))
  {
    if name in c.nodes && !Stale(c.nodes[name]) {
      MapExtensional(c.nodes, c.nodes[name := Found(c, name, nodes[name])]);
    }
  }

  lemma ReplaceNode(c: CacheState, name: string, n: NodeState)
    requires CacheOk(c) && NodeOk(n, name, c.known)
    requires name in c.nodes && c.nodes[name].devs != map[] ==> n.devs == c.nodes[name].devs
    ensures CacheOk(c.(nodes := c.nodes[name := n]))
  {
    var c1 := c.(nodes := c.nodes[name := n]);
    forall m | m in c1.nodes
      ensures NodeOk(c1.nodes[m], m, c1.known)
    {
      if m != name {
        assert NodeOk(c.nodes[m], m, c.known);
      }
    }
    forall u | u in c1.known
      ensures PodOk(c1, u)
    {
      assert PodOk(c, u);
    }
  }

  /** GetGpuNodeInfo keeps the index, never discards a device that is there,
      and touches no other node. */
  lemma LookupKeeps(c: CacheState, nodes: map<string, Node>, name: string)
    requires CacheOk(c) && name in nodes
    ensures Lookup(c, nodes, name) == Some(c.(nodes := c.nodes[name := Found(c, name, nodes[name])]))
    ensures CacheOk(Lookup(c, nodes, name).value)
    ensures name in c.nodes && c.nodes[name].devs != map[] ==> Found(c, name, nodes[name]).devs == c.nodes[name].devs
    ensures name !in c.nodes || c.nodes[name].devs == map[] ==> Found(c, name, nodes[name]).devs == BuildDevs(nodes[name])
  {
    LookupIsFound(c, nodes, name);
    FoundOk(c, name, nodes[name]);
    ReplaceNode(c, name, Found(c, name, nodes[name]));
  }

  // ----- adding and removing a pod -----

  function Added(c: CacheState, p: Pod): CacheState
    requires p.nodeName in c.nodes
  {
    var devs := c.nodes[p.nodeName].devs;
    var c2 := WithDevs(c, p.nodeName, AddPod(devs, p));
    if Touches(devs, p) then c2.(known := c2.known[p.uid := p]) else c2
  }

  function Removed(c: CacheState, p: Pod): CacheState
    requires p.nodeName in c.nodes
  {
    var c2 := WithDevs(c, p.nodeName, RemovePod(c.nodes[p.nodeName].devs, p));
    c2.(known := c2.known - {p.uid})
  }

  predicate On(p: Pod, name: string, d: int) {
    p.nodeName == name && d in PodIds(p)
  }

  lemma HoldingAdd(known: map<UID, Pod>, p: Pod, name: string, d: int)
    requires p.uid !in known
    ensures Holding(known[p.uid := p], name, d) ==
            if On(p, name, d) then Holding(known, name, d)[p.uid := p] else Holding(known, name, d)
  {
  }

  lemma HoldingRemove(known: map<UID, Pod>, p: Pod, name: string, d: int)
    requires p.uid in known ==> known[p.uid] == p
    ensures Holding(known - {p.uid}, name, d) ==
            if On(p, name, d) then Holding(known, name, d) - {p.uid} else Holding(known, name, d)
  {
  }

  lemma LayoutSame(devs: map<int, Device>, devs': map<int, Device>)
    requires Layout(devs) && devs.Keys == devs'.Keys
    requires forall i :: i in devs ==> devs'[i].idx == devs[i].idx
    ensures Layout(devs')
  {
    NumberedSame(devs, devs');
  }

  lemma NodeAfterAdd(n: NodeState, name: string, known: map<UID, Pod>, p: Pod)
    requires NodeOk(n, name, known) && p.uid !in known
    requires p.nodeName == name
    ensures NodeOk(n.(devs := AddPod(n.devs, p)), name, known[p.uid := p])
  {
    LayoutSame(n.devs, AddPod(n.devs, p));
    forall d | d in n.devs
      ensures AddPod(n.devs, p)[d].pods == Holding(known[p.uid := p], name, d)
    {
      HoldingAdd(known, p, name, d);
    }
  }

  lemma NodeAfterRemove(n: NodeState, name: string, known: map<UID, Pod>, p: Pod)
    requires NodeOk(n, name, known) && (p.uid in known ==> known[p.uid] == p)
    requires p.nodeName == name
    ensures NodeOk(n.(devs := RemovePod(n.devs, p)), name, known - {p.uid})
  {
    LayoutSame(n.devs, RemovePod(n.devs, p));
    forall d | d in n.devs
      ensures RemovePod(n.devs, p)[d].pods == Holding(known - {p.uid}, name, d)
    {
      HoldingRemove(known, p, name, d);
    }
  }

  lemma OtherNodeAfterAdd(n: NodeState, name: string, known: map<UID, Pod>, p: Pod)
    requires NodeOk(n, name, known) && p.uid !in known && p.nodeName != name
    ensures NodeOk(n, name, known[p.uid := p])
  {
    forall d | d in n.devs
      ensures n.devs[d].pods == Holding(known[p.uid := p], name, d)
    {
      HoldingAdd(known, p, name, d);
    }
  }

  lemma OtherNodeAfterRemove(n: NodeState, name: string, known: map<UID, Pod>, p: Pod)
    requires NodeOk(n, name, known) && (p.uid in known ==> known[p.uid] == p) && p.nodeName != name
    ensures NodeOk(n, name, known - {p.uid})
  {
    forall d | d in n.devs
      ensures n.devs[d].pods == Holding(known - {p.uid}, name, d)
    {
      HoldingRemove(known, p, name, d);
    }
  }

  lemma AddPodUntouched(devs: map<int, Device>, p: Pod)
    requires !Touches(devs, p)
    ensures AddPod(devs, p) == devs
  {
    assert forall d :: d in devs ==> d !in PodIds(p);
    MapExtensional(AddPod(devs, p), devs);
  }

  lemma TouchesSame(devs: map<int, Device>, devs': map<int, Device>, p: Pod)
    requires devs.Keys == devs'.Keys
    ensures Touches(devs, p) == Touches(devs', p)
  {
    assert forall d :: d in devs <==> d in devs';
  }

  /** Adding a pod whose UID is not cached keeps the index. */
  lemma AddKeeps(c: CacheState, p: Pod)
    requires CacheOk(c) && p.nodeName in c.nodes && p.uid !in c.known
    ensures CacheOk(Added(c, p))
  {
    var c1 := Added(c, p);
    var devs := c.nodes[p.nodeName].devs;
    if !Touches(devs, p) {
      AddPodUntouched(devs, p);
      MapExtensional(c1.nodes, c.nodes);
    } else {
      forall name | name in c1.nodes
        ensures NodeOk(c1.nodes[name], name, c1.known)
      {
        assert NodeOk(c.nodes[name], name, c.known);
        if name == p.nodeName {
          NodeAfterAdd(c.nodes[name], name, c.known, p);
        } else {
          OtherNodeAfterAdd(c.nodes[name], name, c.known, p);
        }
      }
      forall u | u in c1.known
        ensures PodOk(c1, u)
      {
        if u != p.uid {
          assert PodOk(c, u);
        }
        TouchesSame(devs, AddPod(devs, p), c1.known[u]);
      }
    }
  }

  lemma RemoveKeepsNodes(c: CacheState, p: Pod)
    requires NodesOk(c) && p.nodeName in c.nodes
    requires p.uid in c.known ==> c.known[p.uid] == p
    ensures NodesOk(Removed(c, p))
  {
    forall name | name in c.nodes
      ensures NodeOk(Removed(c, p).nodes[name], name, c.known - {p.uid})
    {
      assert NodeOk(c.nodes[name], name, c.known);
      if name == p.nodeName {
        NodeAfterRemove(c.nodes[name], name, c.known, p);
      } else {
        OtherNodeAfterRemove(c.nodes[name], name, c.known, p);
      }
    }
  }

  lemma RemoveKeepsPods(c: CacheState, p: Pod)
    requires PodsOk(c) && p.nodeName in c.nodes
    ensures PodsOk(Removed(c, p))
  {
    var c1 := Removed(c, p);
    var devs := c.nodes[p.nodeName].devs;
    forall u | u in c1.known
      ensures PodOk(c1, u)
    {
      assert PodOk(c, u);
      TouchesSame(devs, RemovePod(devs, p), c1.known[u]);
    }
  }

  /** Removing a pod that is cached as given, or not cached at all, keeps it. */
  lemma RemoveKeeps(c: CacheState, p: Pod)
    requires CacheOk(c) && p.nodeName in c.nodes
    requires p.uid in c.known ==> c.known[p.uid] == p
    ensures CacheOk(Removed(c, p))
  {
    RemoveKeepsNodes(c, p);
    RemoveKeepsPods(c, p);
  }

  lemma RemovePodUndoes(devs: map<int, Device>, p: Pod)
    requires forall d :: d in devs ==> p.uid !in devs[d].pods
    ensures RemovePod(AddPod(devs, p), p) == devs
    ensures RemovePod(devs, p) == devs
  {
    forall d | d in devs
      ensures RemovePod(AddPod(devs, p), p)[d] == devs[d] && RemovePod(devs, p)[d] == devs[d]
    {
      MapExtensional(devs[d].pods[p.uid := p] - {p.uid}, devs[d].pods);
      MapExtensional(devs[d].pods - {p.uid}, devs[d].pods);
    }
    MapExtensional(RemovePod(AddPod(devs, p), p), devs);
    MapExtensional(RemovePod(devs, p), devs);
  }

  lemma FreshNotHeld(c: CacheState, name: string, u: UID)
    requires CacheOk(c) && name in c.nodes && u !in c.known
    ensures forall d :: d in c.nodes[name].devs ==> u !in c.nodes[name].devs[d].pods
  {
    assert NodeOk(c.nodes[name], name, c.known);
    forall d | d in c.nodes[name].devs
      ensures u !in c.nodes[name].devs[d].pods
    {
      assert u !in Holding(c.known, name, d);
    }
  }

  lemma WithDevsRestores(c: CacheState, name: string, devs: map<int, Device>)
    requires name in c.nodes
    ensures WithDevs(c, name, c.nodes[name].devs) == c
    ensures WithDevs(WithDevs(c, name, devs), name, c.nodes[name].devs) == c
  {
    MapExtensional(WithDevs(c, name, c.nodes[name].devs).nodes, c.nodes);
    MapExtensional(WithDevs(WithDevs(c, name, devs), name, c.nodes[name].devs).nodes, c.nodes);
  }

  /** Removing a pod the cache does not know changes nothing. */
  lemma RemoveUnknown(c: CacheState, p: Pod)
    requires CacheOk(c) && p.nodeName in c.nodes && p.uid !in c.known
    ensures Removed(c, p) == c
  {
    FreshNotHeld(c, p.nodeName, p.uid);
    RemovePodUndoes(c.nodes[p.nodeName].devs, p);
    WithDevsRestores(c, p.nodeName, c.nodes[p.nodeName].devs);
    MapExtensional(c.known - {p.uid}, c.known);
  }

  /** Removing what was just added to a cache that did not have it gives back
      exactly that cache, whatever the device list looks like. */
  lemma RemoveUndoesAdd(c: CacheState, p: Pod)
    requires CacheOk(c) && p.nodeName in c.nodes && p.uid !in c.known
    ensures Removed(Added(c, p), p) == c
  {
    var devs := c.nodes[p.nodeName].devs;
    FreshNotHeld(c, p.nodeName, p.uid);
    RemovePodUndoes(devs, p);
    WithDevsRestores(c, p.nodeName, AddPod(devs, p));
    var c2 := Removed(Added(c, p), p);
    assert c2.nodes == WithDevs(WithDevs(c, p.nodeName, AddPod(devs, p)), p.nodeName, devs).nodes;
    assert c2.known == (if Touches(devs, p) then c.known[p.uid := p] - {p.uid} else c.known - {p.uid});
    MapExtensional(c2.known, c.known);
  }
}
