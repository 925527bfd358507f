/** What every run of the plugin keeps, for any interleaving of its steps and
    of the environment's. */
module Protocol {
  import opened Kube
  import opened Accounting
  import opened CacheModel
  import opened CacheInvariant
  import opened PluginModel

  /** An entry waiting for Bind is filed under its own key, and if its UID is
      cached it is the cached copy. */
  predicate EntryOk(s: State, k: string)
    requires k in s.pending
  {
    var p := s.pending[k];
    && Key(p) == k
    && p.nodeName in s.cache.nodes
    && (p.uid in s.cache.known ==> s.cache.known[p.uid] == p)
  }

  predicate PendingOk(s: State) {
    forall k :: k in s.pending ==> EntryOk(s, k)
  }

  ghost predicate StateOk(s: State) {
    && CacheOk(s.cache)
    && s.cache.nodes.Keys <= s.nodes.Keys
    && PendingOk(s)
  }

  // ----- the cache operations as the steps use them -----

  lemma LookupState(s: State, name: string)
    requires StateOk(s) && name in s.nodes
    ensures Lookup(s.cache, s.nodes, name).Some?
    ensures StateOk(s.(cache := Lookup(s.cache, s.nodes, name).value))
    ensures name in Lookup(s.cache, s.nodes, name).value.nodes
    ensures Lookup(s.cache, s.nodes, name).value.known == s.cache.known
  {
    LookupKeeps(s.cache, s.nodes, name);
    var s1 := s.(cache := Lookup(s.cache, s.nodes, name).value);
    forall k | k in s1.pending
      ensures EntryOk(s1, k)
    {
      assert EntryOk(s, k);
    }
  }

  /** A node on which GetGpuNodeInfo has just run: running it again is a no-op. */
  ghost predicate Settled(c: CacheState, nodes: map<string, Node>, name: string) {
    && name in nodes && name in c.nodes
    && (Stale(c.nodes[name]) ==> ResetNode(c.nodes[name], nodes[name]) == c.nodes[name])
  }

  lemma SettledLookup(c: CacheState, nodes: map<string, Node>, name: string)
    requires Settled(c, nodes, name)
    ensures Lookup(c, nodes, name) == Some(c)
  {
    MapExtensional(c.nodes[name := c.nodes[name]], c.nodes);
  }

  lemma LookupSettles(c: CacheState, nodes: map<string, Node>, name: string)
    requires CacheOk(c) && name in nodes
    ensures Lookup(c, nodes, name).Some? && Settled(Lookup(c, nodes, name).value, nodes, name)
  {
    LookupKeeps(c, nodes, name);
    BuildLayout(nodes[name]);
  }

  lemma SettledWithDevs(c: CacheState, nodes: map<string, Node>, name: string, devs: map<int, Device>)
    requires Settled(c, nodes, name) && devs.Keys == c.nodes[name].devs.Keys
    ensures Settled(WithDevs(c, name, devs), nodes, name)
  {
    assert |devs.Keys| == |devs| && |c.nodes[name].devs.Keys| == |c.nodes[name].devs|;
  }

  /** AddOrUpdatePod on a node just looked up is Added. */
  lemma AddSettled(c: CacheState, nodes: map<string, Node>, p: Pod)
    requires Settled(c, nodes, p.nodeName) && p.nodeName != ""
    ensures AddOrUpdate(c, nodes, p) == Some(Added(c, p))
    ensures Settled(Added(c, p), nodes, p.nodeName)
  {
    SettledLookup(c, nodes, p.nodeName);
    SettledWithDevs(c, nodes, p.nodeName, AddPod(c.nodes[p.nodeName].devs, p));
  }

  lemma RemoveSettled(c: CacheState, nodes: map<string, Node>, p: Pod)
    requires Settled(c, nodes, p.nodeName)
    ensures Remove(c, nodes, p) == Removed(c, p)
    ensures Settled(Removed(c, p), nodes, p.nodeName)
  {
    SettledLookup(c, nodes, p.nodeName);
    SettledWithDevs(c, nodes, p.nodeName, RemovePod(c.nodes[p.nodeName].devs, p));
  }

  // ----- every step keeps the invariant -----

  lemma PublishState(s: State, nodeName: string, updated: bool)
    requires StateOk(s)
    ensures StateOk(Publish(s, nodeName, updated).state)
    ensures Publish(s, nodeName, updated).state.cache.known == s.cache.known
    ensures Publish(s, nodeName, updated).state.pending == s.pending
  {
    if nodeName in s.nodes {
      LookupState(s, nodeName);
      var s1 := s.(cache := Lookup(s.cache, s.nodes, nodeName).value);
      var s2 := Publish(s, nodeName, updated).state;
      forall k | k in s2.pending
        ensures EntryOk(s2, k)
      {
        assert EntryOk(s1, k);
      }
    }
  }

  /** Filing and charging a copy whose UID is not cached, on a node just
      looked up, keeps the invariant. */
  lemma ChargeState(s: State, copy: Pod)
    requires StateOk(s) && Settled(s.cache, s.nodes, copy.nodeName) && copy.nodeName != ""
    requires copy.uid !in s.cache.known
    requires forall k :: k in s.pending && s.pending[k].uid == copy.uid ==> k == Key(copy)
    ensures StateOk(s.(pending := s.pending[Key(copy) := copy], cache := Added(s.cache, copy)))
  {
    AddKeeps(s.cache, copy);
    var s1 := s.(pending := s.pending[Key(copy) := copy], cache := Added(s.cache, copy));
    AddedKnown(s.cache, copy);
    forall k | k in s1.pending
      ensures EntryOk(s1, k)
    {
      if k != Key(copy) {
        assert EntryOk(s, k);
        assert s.pending[k].uid != copy.uid;
      }
    }
  }

  lemma AddedKnown(c: CacheState, p: Pod)
    requires p.nodeName in c.nodes
    ensures Added(c, p).nodes.Keys == c.nodes.Keys
    ensures Added(c, p).known == c.known || Added(c, p).known == c.known[p.uid := p]
  {
  }

  /** Filing a copy without charging it (a node without a name). */
  lemma FileState(s: State, copy: Pod)
    requires StateOk(s) && copy.nodeName in s.cache.nodes && copy.uid !in s.cache.known
    ensures StateOk(s.(pending := s.pending[Key(copy) := copy]))
  {
    var s1 := s.(pending := s.pending[Key(copy) := copy]);
    forall k | k in s1.pending
      ensures EntryOk(s1, k)
    {
      if k != Key(copy) {
        assert EntryOk(s, k);
      }
    }
  }

  /** The state between the two halves of Reserve: the copy filed and, on a
      node with a name, charged. */
  ghost function Committed(s: State, copy: Pod): State
    requires copy.nodeName in s.cache.nodes
  {
    var s1 := s.(pending := s.pending[Key(copy) := copy]);
    if copy.nodeName == "" then s1 else s1.(cache := Added(s.cache, copy))
  }

  /** The copy a Reserve files, None when it files nothing. */
  ghost function CopyFor(s: State, p: Pod, nodeName: string): Option<Pod> {
    match Lookup(s.cache, s.nodes, nodeName)
    case None => None
    case Some(c) =>
      if nodeName !in c.nodes then None
      else
        match Allocate(c.nodes[nodeName].devs, p)
        case None => None
        case Some(devId) => Some(Placed(p, nodeName, devId))
  }

  /** A Reserve that places its pod looks the node up, commits the copy, and
      publishes; one that does not leaves only the lookup behind. */
  lemma ReserveIs(s: State, p: Pod, nodeName: string, updated: bool)
    requires StateOk(s) && p.gpuMem > 0 && nodeName in s.nodes
    ensures Lookup(s.cache, s.nodes, nodeName).Some?
    ensures var s1 := s.(cache := Lookup(s.cache, s.nodes, nodeName).value);
            && nodeName in s1.cache.nodes && StateOk(s1) && Settled(s1.cache, s1.nodes, nodeName)
            && s1.cache.known == s.cache.known
            && match CopyFor(s, p, nodeName)
               case None => Reserve(s, p, nodeName, updated) == Outcome(s1, Error)
               case Some(copy) => Reserve(s, p, nodeName, updated) == Publish(Committed(s1, copy), nodeName, updated)
  {
    LookupState(s, nodeName);
    LookupSettles(s.cache, s.nodes, nodeName);
    var s1 := s.(cache := Lookup(s.cache, s.nodes, nodeName).value);
    var copy := CopyFor(s, p, nodeName);
    if copy.Some? && nodeName != "" {
      AddSettled(s1.cache, s1.nodes, copy.value);
    }
  }

  lemma CommitState(s: State, copy: Pod)
    requires StateOk(s) && Settled(s.cache, s.nodes, copy.nodeName)
    requires copy.uid !in s.cache.known
    requires forall k :: k in s.pending && s.pending[k].uid == copy.uid ==> k == Key(copy)
    ensures StateOk(Committed(s, copy))
  {
    if copy.nodeName == "" {
      FileState(s, copy);
    } else {
      ChargeState(s, copy);
    }
  }

  lemma ReserveKeeps(s: State, p: Pod, nodeName: string, updated: bool)
    requires StateOk(s) && Legal(s, DoReserve(p, nodeName, updated))
    ensures StateOk(Reserve(s, p, nodeName, updated).state)
  {
    if p.gpuMem > 0 && nodeName in s.nodes {
      ReserveIs(s, p, nodeName, updated);
      var s1 := s.(cache := Lookup(s.cache, s.nodes, nodeName).value);
      var copy := CopyFor(s, p, nodeName);
      if copy.Some? {
        CommitState(s1, copy.value);
        PublishState(Committed(s1, copy.value), nodeName, updated);
      }
    }
  }

  /** What Unreserve does before it publishes. */
  lemma RemoveState(s: State, k: string)
    requires StateOk(s) && k in s.pending
    ensures StateOk(s.(cache := Remove(s.cache, s.nodes, s.pending[k])))
    ensures Remove(s.cache, s.nodes, s.pending[k]).known == s.cache.known - {s.pending[k].uid}
  {
    var p := s.pending[k];
    assert EntryOk(s, k);
    LookupState(s, p.nodeName);
    var c := Lookup(s.cache, s.nodes, p.nodeName).value;
    var s1 := s.(cache := c);
    assert EntryOk(s1, k);
    RemoveKeeps(c, p);
    assert Remove(s.cache, s.nodes, p) == Removed(c, p);
    var s2 := s.(cache := Removed(c, p));
    forall j | j in s2.pending
      ensures EntryOk(s2, j)
    {
      assert EntryOk(s1, j);
    }
  }

  lemma UnreserveKeeps(s: State, p: Pod, nodeName: string, updated: bool)
    requires StateOk(s)
    ensures StateOk(Unreserve(s, p, nodeName, updated))
  {
    if Key(p) in s.pending {
      RemoveState(s, Key(p));
      PublishState(s.(cache := Remove(s.cache, s.nodes, s.pending[Key(p)])), nodeName, updated);
    }
  }

  lemma StepKeeps(s: State, op: Op)
    requires StateOk(s) && Legal(s, op)
    ensures StateOk(Step(s, op))
  {
    match op
    case DoFilter(p, n, snapshot) =>
      if n in s.nodes {
        LookupState(s, n);
      }
    case DoReserve(p, n, updated) => ReserveKeeps(s, p, n, updated);
    case DoUnreserve(p, n, updated) => UnreserveKeeps(s, p, n, updated);
    case _ =>
      var s1 := Step(s, op);
      assert s1.cache == s.cache;
      forall k | k in s1.pending
        ensures EntryOk(s1, k)
      {
        assert EntryOk(s, k);
      }
  }

  lemma {:induction false} RunKeeps(s: State, ops: seq<Op>)
    requires Initial(s) && LegalRun(s, ops)
    ensures StateOk(Run(s, ops))
    decreases |ops|
  {
    if ops != [] {
      var init := ops[..|ops| - 1];
      assert forall i :: 0 <= i < |init| ==> init[..i] == ops[..i] && init[i] == ops[i];
      RunKeeps(s, init);
      StepKeeps(Run(s, init), ops[|ops| - 1]);
    }
  }

  /** Index agreement in every reachable state: device d of node n holds a UID
      exactly when the known pod of that UID sits on n and names d, and it
      holds that very pod; every known pod is held by some device. */
  lemma IndexAgreement(s: State, ops: seq<Op>, n: string, d: int, u: UID)
    requires Initial(s) && LegalRun(s, ops)
    ensures var c := Run(s, ops).cache;
            && (n in c.nodes && d in c.nodes[n].devs ==>
                  (u in c.nodes[n].devs[d].pods <==> u in c.known && c.known[u].nodeName == n && d in PodIds(c.known[u])) &&
                  (u in c.nodes[n].devs[d].pods ==> c.nodes[n].devs[d].pods[u] == c.known[u]))
            && (u in c.known <==> exists m, e :: m in c.nodes && e in c.nodes[m].devs && u in c.nodes[m].devs[e].pods)
  {
    RunKeeps(s, ops);
    var c := Run(s, ops).cache;
    if n in c.nodes && d in c.nodes[n].devs {
      assert NodeOk(c.nodes[n], n, c.known);
      assert u in Holding(c.known, n, d) <==> u in c.nodes[n].devs[d].pods;
    }
    if u in c.known {
      assert PodOk(c, u);
      var m := c.known[u].nodeName;
      var e :| e in PodIds(c.known[u]) && e in c.nodes[m].devs;
      assert NodeOk(c.nodes[m], m, c.known);
      assert u in Holding(c.known, m, e);
    }
    forall m, e | m in c.nodes && e in c.nodes[m].devs && u in c.nodes[m].devs[e].pods
      ensures u in c.known
    {
      assert NodeOk(c.nodes[m], m, c.known);
      assert u in Holding(c.known, m, e);
    }
  }
}
