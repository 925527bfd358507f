/** Unreserve after any Reserve: when it undoes it, and what it does otherwise. */
module Undo {
  import opened Kube
  import opened CacheModel
  import opened CacheInvariant
  import opened PluginModel
  import opened Protocol
  import opened Guarantees
  import opened Entries

  // ----- Unreserve after any Reserve -----

  /** The two caches know the same pods and no device that was there has
      changed; the second may have seen more nodes. */
  ghost predicate SameDevices(c: CacheState, d: CacheState) {
    && c.known == d.known
    && forall n :: n in c.nodes && c.nodes[n].devs != map[] ==> n in d.nodes && d.nodes[n].devs == c.nodes[n].devs
  }

  lemma LookupSameDevices(c: CacheState, nodes: map<string, Node>, n: string)
    requires CacheOk(c) && n in nodes
    ensures Lookup(c, nodes, n).Some? && SameDevices(c, Lookup(c, nodes, n).value)
  {
    LookupKeeps(c, nodes, n);
  }

  lemma PublishSameDevices(s: State, n: string, updated: bool)
    requires StateOk(s)
    ensures SameDevices(s.cache, Publish(s, n, updated).state.cache)
  {
    if n in s.nodes {
      LookupSameDevices(s.cache, s.nodes, n);
    }
  }

  /** Unreserve of an entry whose UID is not known, or of no entry, changes no
      device. */
  lemma UnreserveUnknown(s: State, p: Pod, n: string, updated: bool)
    requires StateOk(s) && (Key(p) in s.pending ==> s.pending[Key(p)].uid !in s.cache.known)
    ensures SameDevices(s.cache, Unreserve(s, p, n, updated).cache)
  {
    if Key(p) in s.pending {
      var q := s.pending[Key(p)];
      assert EntryOk(s, Key(p));
      RemoveState(s, Key(p));
      LookupState(s, q.nodeName);
      LookupSameDevices(s.cache, s.nodes, q.nodeName);
      RemoveUnknown(Lookup(s.cache, s.nodes, q.nodeName).value, q);
      PublishSameDevices(s.(cache := Remove(s.cache, s.nodes, q)), n, updated);
    }
  }

  /** Unreserve after a Reserve that placed the pod, whatever node it names. */
  lemma UnreservePlaced(s: State, p: Pod, n: string, m: string, u1: bool, u2: bool)
    requires StateOk(s) && Legal(s, DoReserve(p, n, u1)) && Places(s, p, n)
    ensures SameDevices(s.cache, Unreserve(Reserve(s, p, n, u1).state, p, m, u2).cache)
  {
    CopyIsPlaced(s, p, n);
    ReservedState(s, p, n, u1);
    LookupSameDevices(s.cache, s.nodes, n);
    var s1, copy := s.(cache := Lookup(s.cache, s.nodes, n).value), CopyFor(s, p, n).value;
    CommitCache(s1, copy);
    var s2 := Reserve(s, p, n, u1).state;
    ReserveKeeps(s, p, n, u1);
    RemoveSettled(s2.cache, s2.nodes, copy);
    RemoveState(s2, Key(p));
    PublishSameDevices(s2.(cache := s1.cache), m, u2);
  }

  /** Unreserve undoes the Reserve before it, the placing one and the one that
      files nothing alike, if and only if that Reserve placed the pod or the
      pod's key holds no copy that is charged. */
  lemma UnreserveUndoesIff(s: State, p: Pod, n: string, m: string, u1: bool, u2: bool)
    requires StateOk(s) && Legal(s, DoReserve(p, n, u1))
    ensures SameDevices(s.cache, Unreserve(Reserve(s, p, n, u1).state, p, m, u2).cache) <==>
            Places(s, p, n) || Key(p) !in s.pending || s.pending[Key(p)].uid !in s.cache.known
  {
    var s1 := Reserve(s, p, n, u1).state;
    ReserveKeeps(s, p, n, u1);
    ReserveEntries(s, p, n, u1);
    UnreserveEntries(s1, p, m, u2);
    if Places(s, p, n) {
      UnreservePlaced(s, p, n, m, u1, u2);
    } else {
      ReserveNothing(s, p, n, u1);
      if Key(p) !in s.pending || s.pending[Key(p)].uid !in s.cache.known {
        UnreserveUnknown(s1, p, m, u2);
      }
    }
  }

  lemma ReserveNothing(s: State, p: Pod, n: string, updated: bool)
    requires StateOk(s) && !Places(s, p, n)
    ensures SameDevices(s.cache, Reserve(s, p, n, updated).state.cache)
  {
    if p.gpuMem > 0 && n in s.nodes {
      ReserveIs(s, p, n, updated);
      LookupSameDevices(s.cache, s.nodes, n);
    }
  }

  /** A second Unreserve never changes anything, whatever came before. */
  lemma UnreserveTwice(s: State, p: Pod, n: string, m: string, u1: bool, u2: bool)
    requires StateOk(s)
    ensures var once := Unreserve(s, p, n, u1); SameDevices(once.cache, Unreserve(once, p, m, u2).cache)
  {
    UnreserveKeeps(s, p, n, u1);
    UnreserveEntries(s, p, n, u1);
    UnreserveUnknown(Unreserve(s, p, n, u1), p, m, u2);
  }
}
