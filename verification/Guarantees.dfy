/** What the plugin promises its scheduler at one step: one threshold decides
    every placement, Unreserve undoes Reserve, and what happens when a UID that
    is already cached is added again. */
module Guarantees {
  import opened Kube
  import opened Packing
  import opened Accounting
  import opened CacheModel
  import opened CacheInvariant
  import opened PluginModel
  import opened Protocol

  // ----- one threshold for every placement -----

  lemma {:induction false} NoSlots(d: nat, n: nat, mem: int)
    requires mem > 0
    ensures TotalSlots(map[], d, n, mem) == 0
    decreases n - d
  {
    if d < n {
      NoSlots(d + 1, n, mem);
    }
  }

  /** Without a preset, one-GPU and multi-GPU pods are placed under the same
      condition: the floors of idle memory over request reach the count. */
  lemma Threshold(avail: map<int, int>, n: nat, p: Pod)
    requires p.gpuMem > 0 && p.gpuCount > 0 && !HasPreset(p)
    ensures Choose(avail, n, p).Some? <==> TotalSlots(avail, 0, n, p.gpuMem) >= p.gpuCount
  {
    if avail == map[] {
      NoSlots(0, n, p.gpuMem);
    } else if p.gpuCount == 1 {
      TightestFitThreshold(avail, n, p.gpuMem);
    } else {
      PackLength(avail, 0, n, p.gpuMem, p.gpuCount);
    }
  }

  /** A placement survives a smaller request, a smaller count and more idle
      memory. */
  lemma ThresholdMonotone(avail: map<int, int>, more: map<int, int>, n: nat, p: Pod, q: Pod)
    requires Choose(avail, n, p).Some? && !HasPreset(p) && !HasPreset(q)
    requires 0 < q.gpuMem <= p.gpuMem && 0 < q.gpuCount <= p.gpuCount
    requires forall d :: d in avail ==> d in more && avail[d] <= more[d]
    ensures Choose(more, n, q).Some?
  {
    Threshold(avail, n, p);
    Threshold(more, n, q);
    SlotsMonotone(avail, more, 0, n, p.gpuMem, q.gpuMem);
  }

  /** What Assume accepts, the allocator places, for a positive request. */
  lemma AssumeImpliesPlacement(avail: map<int, int>, n: nat, p: Pod)
    requires p.gpuMem > 0 && p.gpuCount > 0
    requires Roomy(avail, n, p.gpuMem) >= p.gpuCount
    ensures Choose(avail, n, p).Some?
  {
    if avail == map[] {
      RoomyEmpty(n, p.gpuMem);
    }
    RoomyAtMostSlots(avail, n, p.gpuMem);
    if !HasPreset(p) {
      Threshold(avail, n, p);
    }
  }

  // ----- Unreserve undoes Reserve -----

  /** Committing keeps the node settled, and removing the copy again gives the
      cache back. */
  lemma CommitCache(s: State, copy: Pod)
    requires StateOk(s) && Settled(s.cache, s.nodes, copy.nodeName) && copy.uid !in s.cache.known
    ensures Settled(Committed(s, copy).cache, s.nodes, copy.nodeName)
    ensures Removed(Committed(s, copy).cache, copy) == s.cache
  {
    if copy.nodeName == "" {
      RemoveUnknown(s.cache, copy);
    } else {
      AddSettled(s.cache, s.nodes, copy);
      RemoveUndoesAdd(s.cache, copy);
    }
  }

  /** On a settled node publishing touches only the annotation. */
  lemma PublishSettled(s: State, nodeName: string, updated: bool)
    requires Settled(s.cache, s.nodes, nodeName)
    ensures Publish(s, nodeName, updated) ==
            if updated then Outcome(s.(annos := s.annos[nodeName := Export(s.cache.nodes[nodeName])]), Success)
            else Outcome(s, Error)
  {
    SettledLookup(s.cache, s.nodes, nodeName);
  }

  /** The state a placing Reserve leaves: the copy filed, charged, published. */
  lemma ReservedState(s: State, p: Pod, nodeName: string, updated: bool)
    requires StateOk(s) && Legal(s, DoReserve(p, nodeName, updated))
    requires p.gpuMem > 0 && nodeName in s.nodes && CopyFor(s, p, nodeName).Some?
    ensures Lookup(s.cache, s.nodes, nodeName).Some?
    ensures var s1 := s.(cache := Lookup(s.cache, s.nodes, nodeName).value);
            var copy := CopyFor(s, p, nodeName).value;
            && StateOk(s1) && nodeName in s1.cache.nodes && Settled(s1.cache, s1.nodes, nodeName)
            && s1.cache.known == s.cache.known
            && Settled(Committed(s1, copy).cache, s.nodes, nodeName)
            && Reserve(s, p, nodeName, updated) == Publish(Committed(s1, copy), nodeName, updated)
            && Reserve(s, p, nodeName, updated).state.cache == Committed(s1, copy).cache
            && Reserve(s, p, nodeName, updated).state.pending == s.pending[Key(p) := copy]
            && Reserve(s, p, nodeName, updated).state.nodes == s.nodes
            && Reserve(s, p, nodeName, updated).state.store == s.store
  {
    ReserveIs(s, p, nodeName, updated);
    var s1 := s.(cache := Lookup(s.cache, s.nodes, nodeName).value);
    var copy := CopyFor(s, p, nodeName).value;
    CommitCache(s1, copy);
    PublishSettled(Committed(s1, copy), nodeName, updated);
  }

  /** Unreserve of a filed copy on a settled node. */
  lemma UnreservedState(s: State, p: Pod, nodeName: string, updated: bool)
    requires Key(p) in s.pending && s.pending[Key(p)].nodeName == nodeName
    requires Settled(s.cache, s.nodes, nodeName)
    ensures var after := Unreserve(s, p, nodeName, updated);
            && after.cache == Removed(s.cache, s.pending[Key(p)])
            && after.pending == s.pending && after.nodes == s.nodes
            && Settled(after.cache, s.nodes, nodeName)
  {
    RemoveSettled(s.cache, s.nodes, s.pending[Key(p)]);
    PublishSettled(s.(cache := Removed(s.cache, s.pending[Key(p)])), nodeName, updated);
  }

  /** Right after a Reserve that filed a copy, Unreserve restores the cache to
      what it was when the node had been looked up, exactly, for any device
      list, and a second Unreserve leaves it so. */
  lemma UnreserveUndoesReserve(s: State, p: Pod, nodeName: string, u1: bool, u2: bool, u3: bool)
    requires StateOk(s) && Legal(s, DoReserve(p, nodeName, u1))
    requires p.gpuMem > 0 && nodeName in s.nodes && CopyFor(s, p, nodeName).Some?
    ensures var after := Unreserve(Reserve(s, p, nodeName, u1).state, p, nodeName, u2);
            && Some(after.cache) == Lookup(s.cache, s.nodes, nodeName)
            && after.cache.known == s.cache.known
            && Unreserve(after, p, nodeName, u3).cache == after.cache
  {
    ReservedState(s, p, nodeName, u1);
    var s1 := s.(cache := Lookup(s.cache, s.nodes, nodeName).value);
    var copy := CopyFor(s, p, nodeName).value;
    CommitCache(s1, copy);
    var s3 := Reserve(s, p, nodeName, u1).state;
    UnreservedState(s3, p, nodeName, u2);
    var s4 := Unreserve(s3, p, nodeName, u2);
    assert s4.cache == s1.cache;
    UnreservedState(s4, p, nodeName, u3);
    RemoveUnknown(s1.cache, copy);
  }

  // ----- re-adding a UID -----

  /** The devices of its node that the old copy names and the new one does not. */
  predicate Covers(devs: map<int, Device>, old_: Pod, p: Pod) {
    forall d :: d in PodIds(old_) && d in devs ==> d in PodIds(p)
  }

  /** Adding a UID that is already cached keeps the index exactly when the new
      copy reaches no device, or stays on the node and names every device the
      old one held; otherwise stale entries are left behind. */
  lemma ReAddKeepsIndexIff(c: CacheState, p: Pod)
    requires CacheOk(c) && p.nodeName in c.nodes && p.uid in c.known
    ensures CacheOk(Added(c, p)) <==>
            || !Touches(c.nodes[p.nodeName].devs, p)
            || (c.known[p.uid].nodeName == p.nodeName && Covers(c.nodes[p.nodeName].devs, c.known[p.uid], p))
  {
    var devs := c.nodes[p.nodeName].devs;
    var was := c.known[p.uid];
    if !Touches(devs, p) {
      AddPodUntouched(devs, p);
      MapExtensional(Added(c, p).nodes, c.nodes);
    } else if was.nodeName == p.nodeName && Covers(devs, was, p) {
      ReAddGood(c, p);
    } else {
      ReAddBad(c, p);
    }
  }

  lemma ReAddNode(c: CacheState, p: Pod, m: string)
    requires CacheOk(c) && p.nodeName in c.nodes && p.uid in c.known && m in c.nodes
    requires c.known[p.uid].nodeName == p.nodeName && Covers(c.nodes[p.nodeName].devs, c.known[p.uid], p)
    ensures NodeOk(WithDevs(c, p.nodeName, AddPod(c.nodes[p.nodeName].devs, p)).nodes[m], m, c.known[p.uid := p])
  {
    var devs := c.nodes[m].devs;
    var devs' := if m == p.nodeName then AddPod(devs, p) else devs;
    assert NodeOk(c.nodes[m], m, c.known);
    LayoutSame(devs, devs');
    forall d | d in devs
      ensures devs'[d].pods == Holding(c.known[p.uid := p], m, d)
    {
      ReAddHolding(c.known, p, m, d, devs);
    }
  }

  lemma ReAddHolding(known: map<UID, Pod>, p: Pod, m: string, d: int, devs: map<int, Device>)
    requires p.uid in known && known[p.uid].nodeName == p.nodeName && d in devs
    requires m == p.nodeName ==> Covers(devs, known[p.uid], p)
    ensures Holding(known[p.uid := p], m, d) ==
            if On(p, m, d) then Holding(known, m, d)[p.uid := p] else Holding(known, m, d)
  {
  }

  lemma ReAddGood(c: CacheState, p: Pod)
    requires CacheOk(c) && p.nodeName in c.nodes && p.uid in c.known
    requires Touches(c.nodes[p.nodeName].devs, p)
    requires c.known[p.uid].nodeName == p.nodeName && Covers(c.nodes[p.nodeName].devs, c.known[p.uid], p)
    ensures CacheOk(Added(c, p))
  {
    var c1 := Added(c, p);
    var devs := c.nodes[p.nodeName].devs;
    forall m | m in c1.nodes
      ensures NodeOk(c1.nodes[m], m, c1.known)
    {
      ReAddNode(c, p, m);
    }
    forall u | u in c1.known
      ensures PodOk(c1, u)
    {
      assert PodOk(c, u);
      TouchesSame(devs, AddPod(devs, p), c1.known[u]);
    }
  }

  lemma ReAddBad(c: CacheState, p: Pod)
    requires CacheOk(c) && p.nodeName in c.nodes && p.uid in c.known
    requires Touches(c.nodes[p.nodeName].devs, p)
    requires c.known[p.uid].nodeName != p.nodeName || !Covers(c.nodes[p.nodeName].devs, c.known[p.uid], p)
    ensures !CacheOk(Added(c, p))
  {
    var was := c.known[p.uid];
    var c1 := Added(c, p);
    assert PodOk(c, p.uid);
    assert NodeOk(c.nodes[was.nodeName], was.nodeName, c.known);
    var d: int;
    if was.nodeName != p.nodeName {
      d :| d in PodIds(was) && d in c.nodes[was.nodeName].devs;
    } else {
      d :| d in PodIds(was) && d in c.nodes[was.nodeName].devs && d !in PodIds(p);
    }
    assert p.uid in Holding(c.known, was.nodeName, d);
    assert p.uid in c1.nodes[was.nodeName].devs[d].pods;
    assert p.uid !in Holding(c1.known, was.nodeName, d);
    assert !NodeOk(c1.nodes[was.nodeName], was.nodeName, c1.known);
  }
}
