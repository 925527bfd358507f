/** How the devices of a node are laid out in every reachable cache, also when
    the environment resizes nodes. */
module DeviceLayout {
  import opened Kube
  import opened CacheModel
  import opened CacheInvariant
  import opened PluginModel
  import opened Protocol

  /** One device per GPU, each with its equal share of the node's memory. */
  ghost predicate SharesOf(devs: map<int, Device>, node: Node) {
    && |devs| == (if node.gpuCount > 0 then node.gpuCount else 0)
    && forall d :: d in devs ==> node.gpuCount > 0 && devs[d].total == TruncDiv(node.gpuMem, node.gpuCount)
  }

  /** Node objects under their names. */
  type Objects = set<(string, Node)>

  function ObjectsOf(nodes: map<string, Node>): Objects {
    set n | n in nodes :: (n, nodes[n])
  }

  /** The devices were built from one of the node objects seen. */
  ghost predicate IsBuilt(devs: map<int, Device>, name: string, seen: Objects) {
    exists node: Node :: (name, node) in seen && SharesOf(devs, node)
  }

  ghost predicate AllBuilt(c: CacheState, seen: Objects) {
    forall n :: n in c.nodes ==> IsBuilt(c.nodes[n].devs, n, seen)
  }

  lemma LookupBuilt(c: CacheState, nodes: map<string, Node>, name: string, seen: Objects)
    requires AllBuilt(c, seen) && ObjectsOf(nodes) <= seen
    ensures Lookup(c, nodes, name).Some? ==> AllBuilt(Lookup(c, nodes, name).value, seen)
    ensures Lookup(c, nodes, name).Some? ==> name in Lookup(c, nodes, name).value.nodes
  {
    if name in nodes {
      BuildLayout(nodes[name]);
      assert (name, nodes[name]) in ObjectsOf(nodes);
      assert SharesOf(BuildDevs(nodes[name]), nodes[name]);
    }
  }

  lemma WithDevsBuilt(c: CacheState, name: string, devs: map<int, Device>, seen: Objects)
    requires AllBuilt(c, seen) && name in c.nodes && devs.Keys == c.nodes[name].devs.Keys
    requires forall d :: d in devs ==> devs[d].total == c.nodes[name].devs[d].total
    ensures AllBuilt(WithDevs(c, name, devs), seen)
  {
    var node: Node :| (name, node) in seen && SharesOf(c.nodes[name].devs, node);
    assert |devs.Keys| == |devs| && |c.nodes[name].devs.Keys| == |c.nodes[name].devs|;
    assert SharesOf(devs, node);
  }

  lemma AddBuilt(c: CacheState, nodes: map<string, Node>, p: Pod, seen: Objects)
    requires AllBuilt(c, seen) && ObjectsOf(nodes) <= seen
    ensures AddOrUpdate(c, nodes, p).Some? ==> AllBuilt(AddOrUpdate(c, nodes, p).value, seen)
  {
    LookupBuilt(c, nodes, p.nodeName, seen);
    var found := Lookup(c, nodes, p.nodeName);
    if found.Some? {
      WithDevsBuilt(found.value, p.nodeName, AddPod(found.value.nodes[p.nodeName].devs, p), seen);
    }
  }

  lemma RemoveBuilt(c: CacheState, nodes: map<string, Node>, p: Pod, seen: Objects)
    requires AllBuilt(c, seen) && ObjectsOf(nodes) <= seen
    ensures AllBuilt(Remove(c, nodes, p), seen)
  {
    LookupBuilt(c, nodes, p.nodeName, seen);
    var found := Lookup(c, nodes, p.nodeName);
    if found.Some? {
      WithDevsBuilt(found.value, p.nodeName, RemovePod(found.value.nodes[p.nodeName].devs, p), seen);
    }
  }

  lemma ReserveBuilt(s: State, p: Pod, n: string, updated: bool, seen: Objects)
    requires AllBuilt(s.cache, seen) && ObjectsOf(s.nodes) <= seen
    ensures AllBuilt(Reserve(s, p, n, updated).state.cache, seen)
  {
    LookupBuilt(s.cache, s.nodes, n, seen);
    var found := Lookup(s.cache, s.nodes, n);
    if p.gpuMem > 0 && found.Some? {
      var choice := Allocate(found.value.nodes[n].devs, p);
      if choice.Some? {
        CommitBuilt(s.(cache := found.value), Placed(p, n, choice.value), updated, seen);
      }
    }
  }

  lemma CommitBuilt(s: State, copy: Pod, updated: bool, seen: Objects)
    requires AllBuilt(s.cache, seen) && ObjectsOf(s.nodes) <= seen
    ensures AllBuilt(Commit(s, copy, updated).state.cache, seen)
  {
    AddBuilt(s.cache, s.nodes, copy, seen);
    var c := AddOrUpdate(s.cache, s.nodes, copy);
    if c.Some? {
      LookupBuilt(c.value, s.nodes, copy.nodeName, seen);
    }
  }

  lemma UnreserveBuilt(s: State, p: Pod, n: string, updated: bool, seen: Objects)
    requires AllBuilt(s.cache, seen) && ObjectsOf(s.nodes) <= seen
    ensures AllBuilt(Unreserve(s, p, n, updated).cache, seen)
  {
    if Key(p) in s.pending {
      var c := Remove(s.cache, s.nodes, s.pending[Key(p)]);
      RemoveBuilt(s.cache, s.nodes, s.pending[Key(p)], seen);
      LookupBuilt(c, s.nodes, n, seen);
    }
  }

  lemma StepBuilt(s: State, op: Op, seen: Objects)
    requires AllBuilt(s.cache, seen) && ObjectsOf(s.nodes) <= seen
    ensures AllBuilt(Step(s, op).cache, seen)
  {
    if op.DoFilter? {
      LookupBuilt(s.cache, s.nodes, op.nodeName, seen);
    } else if op.DoReserve? {
      ReserveBuilt(s, op.pod, op.nodeName, op.updated, seen);
    } else if op.DoUnreserve? {
      UnreserveBuilt(s, op.pod, op.nodeName, op.updated, seen);
    }
  }

  /** The node objects the server has held so far. */
  ghost function Seen(s: State, ops: seq<Op>): Objects {
    ObjectsOf(Run(s, ops).nodes) + if ops == [] then {} else Seen(s, ops[..|ops| - 1])
  }

  lemma BuiltGrows(c: CacheState, seen: Objects, more: Objects)
    requires AllBuilt(c, seen) && seen <= more
    ensures AllBuilt(c, more)
  {
    forall n | n in c.nodes
      ensures IsBuilt(c.nodes[n].devs, n, more)
    {
      var node: Node :| (n, node) in seen && SharesOf(c.nodes[n].devs, node);
      assert (n, node) in more;
    }
  }

  lemma {:induction false} RunBuilt(s: State, ops: seq<Op>)
    requires Initial(s)
    ensures AllBuilt(Run(s, ops).cache, Seen(s, ops))
    decreases |ops|
  {
    if ops != [] {
      var init := ops[..|ops| - 1];
      RunBuilt(s, init);
      StepBuilt(Run(s, init), ops[|ops| - 1], Seen(s, init));
      BuiltGrows(Run(s, ops).cache, Seen(s, init), Seen(s, ops));
    }
  }

  /** An object seen was the server's at some point of the run. */
  lemma {:induction false} SeenAt(s: State, ops: seq<Op>, name: string, node: Node) returns (i: nat)
    requires (name, node) in Seen(s, ops)
    ensures i <= |ops| && name in Run(s, ops[..i]).nodes && Run(s, ops[..i]).nodes[name] == node
    decreases |ops|
  {
    if (name, node) in ObjectsOf(Run(s, ops).nodes) {
      i := |ops|;
      assert ops[..i] == ops;
    } else {
      var init := ops[..|ops| - 1];
      i := SeenAt(s, init, name, node);
      assert init[..i] == ops[..i];
    }
  }

  ghost function SumTotals(devs: map<int, Device>, k: nat): int
    requires forall i :: 0 <= i < k ==> i in devs
  {
    if k == 0 then 0 else SumTotals(devs, k - 1) + devs[k - 1].total
  }

  lemma {:induction false} SumTotalsIs(devs: map<int, Device>, k: nat, total: int)
    requires forall i :: 0 <= i < k ==> i in devs && devs[i].total == total
    ensures SumTotals(devs, k) == total * k
  {
    if k > 0 {
      SumTotalsIs(devs, k - 1, total);
      assert total * (k - 1) + total == total * k;
    }
  }

  /** Equal shares lose less than one unit per device. */
  lemma SharesAddUp(devs: map<int, Device>, node: Node)
    requires Layout(devs) && SharesOf(devs, node) && devs != map[] && node.gpuMem >= 0
    ensures SumTotals(devs, |devs|) <= node.gpuMem < SumTotals(devs, |devs|) + |devs|
  {
    SumTotalsIs(devs, |devs|, TruncDiv(node.gpuMem, node.gpuCount));
  }

  lemma BuiltFrom(s: State, ops: seq<Op>, n: string) returns (i: nat)
    requires Initial(s) && n in Run(s, ops).cache.nodes
    ensures i <= |ops| && n in Run(s, ops[..i]).nodes
    ensures SharesOf(Run(s, ops).cache.nodes[n].devs, Run(s, ops[..i]).nodes[n])
  {
    RunBuilt(s, ops);
    var devs := Run(s, ops).cache.nodes[n].devs;
    assert IsBuilt(devs, n, Seen(s, ops));
    var node: Node :| (n, node) in Seen(s, ops) && SharesOf(devs, node);
    i := SeenAt(s, ops, n, node);
  }

  /** In every reachable cache a node's devices are numbered 0 .. k-1 and know
      their numbers; at some point of the run the server's node object was the
      one they were built from, each with an equal share, so that the totals
      add up to at most its memory and fall short of it by less than k. */
  lemma LayoutReached(s: State, ops: seq<Op>, n: string) returns (i: nat)
    requires Initial(s) && LegalRun(s, ops) && n in Run(s, ops).cache.nodes
    ensures i <= |ops| && n in Run(s, ops[..i]).nodes
    ensures var devs, node := Run(s, ops).cache.nodes[n].devs, Run(s, ops[..i]).nodes[n];
            && Layout(devs) && SharesOf(devs, node)
            && (devs != map[] && node.gpuMem >= 0 ==>
                  SumTotals(devs, |devs|) <= node.gpuMem < SumTotals(devs, |devs|) + |devs|)
  {
    RunKeeps(s, ops);
    i := BuiltFrom(s, ops, n);
    var devs, node := Run(s, ops).cache.nodes[n].devs, Run(s, ops[..i]).nodes[n];
    assert NodeOk(Run(s, ops).cache.nodes[n], n, Run(s, ops).cache.known);
    if devs != map[] && node.gpuMem >= 0 {
      SharesAddUp(devs, node);
    }
  }

  /** What GetGpuNodeInfo gives: a record seen before that has devices, and whose
      node object had memory and GPUs, as it is; any other with the server's
      node object of today, its count and its memory, and with devices for it
      where there were none.  No other record changes, and no known pod. */
  lemma LookupMeaning(c: CacheState, nodes: map<string, Node>, name: string)
    requires name in nodes
    ensures Lookup(c, nodes, name).Some? && name in Lookup(c, nodes, name).value.nodes
    ensures var after, node := Lookup(c, nodes, name).value, nodes[name];
            var r := after.nodes[name];
            && after.known == c.known && after.nodes.Keys == c.nodes.Keys + {name}
            && (forall n :: n in c.nodes && n != name ==> after.nodes[n] == c.nodes[n])
            && (if name in c.nodes && |c.nodes[name].devs| > 0 && c.nodes[name].node.gpuMem > 0 && c.nodes[name].node.gpuCount > 0
                then r == c.nodes[name]
                else
                  && r.node == node && r.gpuCount == node.gpuCount && r.gpuTotal == node.gpuMem
                  && (name in c.nodes && |c.nodes[name].devs| > 0 ==> r.devs == c.nodes[name].devs)
                  && (name !in c.nodes || (|c.nodes[name].devs| == 0 && node.gpuCount > 0) ==> r.devs == BuildDevs(node)))
  {
  }

  /** GetGpuNodeInfo never discards a device that holds pods, even when the
      node has been resized in between. */
  lemma LookupKeepsHolders(s: State, ops: seq<Op>, nodes: map<string, Node>, name: string, n: string, d: int)
    requires Initial(s) && LegalRun(s, ops) && name in nodes
    requires n in Run(s, ops).cache.nodes && d in Run(s, ops).cache.nodes[n].devs
    ensures var c := Run(s, ops).cache;
            && Lookup(c, nodes, name).Some?
            && n in Lookup(c, nodes, name).value.nodes
            && d in Lookup(c, nodes, name).value.nodes[n].devs
            && Lookup(c, nodes, name).value.nodes[n].devs[d] == c.nodes[n].devs[d]
  {
    RunKeeps(s, ops);
    LookupKeeps(Run(s, ops).cache, nodes, name);
  }
}
