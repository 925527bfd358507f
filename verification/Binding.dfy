/** What Bind writes and whether the cache charges it, over whole runs; and what
    pods that share a key do to each other. */
module Binding {
  import opened Kube
  import opened Accounting
  import opened CacheModel
  import opened CacheInvariant
  import opened PluginModel
  import opened Protocol
  import opened Capacity
  import opened Entries

  // ----- when a filed copy is charged -----

  /** In every legal run the UID of a filed copy is known exactly when the last
      step that filed or took back that key charged a device. */
  lemma EntryChargedIff(s: State, ops: seq<Op>, k: string)
    requires Initial(s) && LegalRun(s, ops) && k in Run(s, ops).pending
    ensures Run(s, ops).pending[k].uid in Run(s, ops).cache.known <==> k in ChargedKeys(s, ops)
  {
    RunEntries(s, ops);
  }

  /** The keys whose last placing Reserve or Unreserve was the Reserve. */
  ghost function ReservedKeys(s: State, ops: seq<Op>): set<string> {
    if ops == [] then {}
    else
      var init, op := ops[..|ops| - 1], ops[|ops| - 1];
      if op.DoReserve? && Places(Run(s, init), op.pod, op.nodeName) then ReservedKeys(s, init) + {Key(op.pod)}
      else if op.DoUnreserve? then ReservedKeys(s, init) - {Key(op.pod)}
      else ReservedKeys(s, init)
  }

  predicate NamedNodes(ops: seq<Op>) {
    forall i :: 0 <= i < |ops| && ops[i].DoReserve? ==> ops[i].nodeName != ""
  }

  /** Without a preset every copy filed for a node with a name is charged. */
  lemma PlacesCharges(s: State, p: Pod, n: string)
    requires StateOk(s) && !HasPreset(p) && n != "" && Places(s, p, n)
    ensures Charges(s, p, n)
  {
    CopyIsPlaced(s, p, n);
    LookupState(s, n);
    var c := Lookup(s.cache, s.nodes, n).value;
    CopyFits(c, p, n);
    var copy := CopyFor(s, p, n).value;
    assert |PodIds(copy)| == p.gpuCount > 0;
    assert PodIds(copy)[0] in PodIds(copy) && PodIds(copy)[0] in c.nodes[n].devs;
  }

  lemma {:induction false} ReservedAreCharged(s: State, ops: seq<Op>)
    requires Initial(s) && PresetFreeRun(s, ops) && NamedNodes(ops)
    ensures ReservedKeys(s, ops) == ChargedKeys(s, ops)
    decreases |ops|
  {
    if ops != [] {
      var init, op := ops[..|ops| - 1], ops[|ops| - 1];
      LastStep(s, ops);
      ReservedAreCharged(s, init);
      RunKeeps(s, init);
      if op.DoReserve? && Places(Run(s, init), op.pod, op.nodeName) {
        PlacesCharges(Run(s, init), op.pod, op.nodeName);
      }
    }
  }

  /** So without presets the UID of a filed copy is known exactly when the last
      placing Reserve or Unreserve of its key was the Reserve. */
  lemma EntryReservedIff(s: State, ops: seq<Op>, k: string)
    requires Initial(s) && PresetFreeRun(s, ops) && NamedNodes(ops) && k in Run(s, ops).pending
    ensures Run(s, ops).pending[k].uid in Run(s, ops).cache.known <==> k in ReservedKeys(s, ops)
  {
    ReservedAreCharged(s, ops);
    EntryChargedIff(s, ops, k);
  }

  // ----- what Bind writes -----

  /** The devices that hold a UID are exactly those of the given pod's node that
      its annotation names. */
  ghost predicate ChargedAs(c: CacheState, copy: Pod) {
    && copy.uid in c.known && c.known[copy.uid] == copy
    && forall n, d :: n in c.nodes && d in c.nodes[n].devs ==>
                        (copy.uid in c.nodes[n].devs[d].pods <==> n == copy.nodeName && d in PodIds(copy))
  }

  ghost predicate Uncharged(c: CacheState, uid: UID) {
    && uid !in c.known
    && forall n, d :: n in c.nodes && d in c.nodes[n].devs ==> uid !in c.nodes[n].devs[d].pods
  }

  lemma KnownIsCharged(c: CacheState, uid: UID)
    requires CacheOk(c)
    ensures uid in c.known ==> ChargedAs(c, c.known[uid])
    ensures uid !in c.known ==> Uncharged(c, uid)
  {
    forall n, d | n in c.nodes && d in c.nodes[n].devs
      ensures uid in c.nodes[n].devs[d].pods <==> uid in c.known && c.known[uid].nodeName == n && d in PodIds(c.known[uid])
    {
      assert NodeOk(c.nodes[n], n, c.known);
      assert uid in Holding(c.known, n, d) <==> uid in c.nodes[n].devs[d].pods;
    }
    if uid in c.known {
      assert PodOk(c, uid);
    }
  }

  /** A Bind that succeeds writes the filed copy under its own name.  The cache
      charges exactly the devices the written annotation names if the key is
      charged, and no device at all if it is not. */
  lemma BindWritesCharged(s: State, ops: seq<Op>, p: Pod, nodeName: string)
    requires Initial(s) && LegalRun(s, ops) && Bind(Run(s, ops), p, nodeName).status == Success
    ensures Key(p) in Run(s, ops).pending
    ensures var now := Run(s, ops);
            var copy, after := now.pending[Key(p)], Bind(now, p, nodeName).state;
            && after.store == now.store[(copy.namespace, copy.name) := copy]
            && (if Key(p) in ChargedKeys(s, ops) then ChargedAs(after.cache, copy) else Uncharged(after.cache, copy.uid))
  {
    RunEntries(s, ops);
    var now := Run(s, ops);
    var copy := now.pending[Key(p)];
    assert EntryOk(now, Key(p));
    KnownIsCharged(now.cache, copy.uid);
  }

  // ----- a bound pod stays charged -----

  /** The pod is cached as given and no entry can take it out again. */
  predicate Bound(s: State, copy: Pod) {
    && copy.uid in s.cache.known && s.cache.known[copy.uid] == copy
    && forall k :: k in s.pending ==> s.pending[k].uid != copy.uid
  }

  lemma ReserveBound(s: State, p: Pod, n: string, updated: bool, copy: Pod)
    requires StateOk(s) && Legal(s, DoReserve(p, n, updated)) && Bound(s, copy)
    ensures Bound(Reserve(s, p, n, updated).state, copy)
  {
    ReserveEntries(s, p, n, updated);
    if Places(s, p, n) {
      CopyIsPlaced(s, p, n);
    }
  }

  lemma UnreserveBound(s: State, p: Pod, n: string, updated: bool, copy: Pod)
    requires Bound(s, copy)
    ensures Bound(Unreserve(s, p, n, updated), copy)
  {
    UnreserveEntries(s, p, n, updated);
  }

  lemma OtherBound(s: State, op: Op, copy: Pod)
    requires IsOther(op) && Bound(s, copy)
    ensures Bound(Step(s, op), copy)
  {
    OtherEntries(s, op);
  }

  lemma StepBound(s: State, op: Op, copy: Pod)
    requires StateOk(s) && Legal(s, op) && Bound(s, copy)
    ensures Bound(Step(s, op), copy)
  {
    if op.DoFilter? {
      FilterEntries(s, op.pod, op.nodeName, op.snapshot);
    } else if op.DoReserve? {
      ReserveBound(s, op.pod, op.nodeName, op.updated, copy);
    } else if op.DoUnreserve? {
      UnreserveBound(s, op.pod, op.nodeName, op.updated, copy);
    } else {
      OtherBound(s, op, copy);
    }
  }

  /** Binding a charged key binds the pod for good. */
  lemma BindBounds(s: State, keys: set<string>, p: Pod, nodeName: string)
    requires EntriesOk(s, keys) && Bind(s, p, nodeName).status == Success && Key(p) in keys
    ensures Bound(Bind(s, p, nodeName).state, s.pending[Key(p)])
  {
    assert EntryOk(s, Key(p));
  }

  /** Once bound, whatever legal steps follow. */
  lemma {:induction false} StaysBound(s: State, ops: seq<Op>, i: nat, copy: Pod)
    requires Initial(s) && LegalRun(s, ops) && i <= |ops| && Bound(Run(s, ops[..i]), copy)
    ensures Bound(Run(s, ops), copy)
    decreases |ops|
  {
    if i == |ops| {
      assert ops[..i] == ops;
    } else {
      var init := ops[..|ops| - 1];
      assert init[..i] == ops[..i];
      LastStep(s, ops);
      StaysBound(s, init, i, copy);
      RunKeeps(s, init);
      StepBound(Run(s, init), ops[|ops| - 1], copy);
    }
  }

  /** In every legal run, a pod that a Bind wrote under a charged key is charged
      ever after as it was written, device list included. */
  lemma BoundStaysCharged(s: State, ops: seq<Op>, i: nat)
    requires Initial(s) && LegalRun(s, ops) && i < |ops| && ops[i].DoBind?
    requires Bind(Run(s, ops[..i]), ops[i].pod, ops[i].nodeName).status == Success
    requires Key(ops[i].pod) in ChargedKeys(s, ops[..i])
    ensures var copy := Run(s, ops[..i]).pending[Key(ops[i].pod)];
            && Run(s, ops[..i + 1]).store == Run(s, ops[..i]).store[(copy.namespace, copy.name) := copy]
            && ChargedAs(Run(s, ops).cache, copy)
  {
    var before := Run(s, ops[..i]);
    PrefixLegal(s, ops, i);
    RunEntries(s, ops[..i]);
    BindBounds(before, ChargedKeys(s, ops[..i]), ops[i].pod, ops[i].nodeName);
    RunSplit(s, ops, i);
    StaysBound(s, ops, i + 1, before.pending[Key(ops[i].pod)]);
    RunKeeps(s, ops);
    KnownIsCharged(Run(s, ops).cache, before.pending[Key(ops[i].pod)].uid);
  }

  /** The scheduler binds only what it has reserved and not taken back. */
  ghost predicate BindsReserved(s: State, ops: seq<Op>) {
    forall i :: 0 <= i < |ops| && ops[i].DoBind? ==> Key(ops[i].pod) in ReservedKeys(s, ops[..i])
  }

  /** Under that discipline and without presets every pod that any Bind of the
      run wrote is charged at the end as it was written. */
  lemma EveryBoundPodCharged(s: State, ops: seq<Op>, i: nat)
    requires Initial(s) && PresetFreeRun(s, ops) && NamedNodes(ops) && BindsReserved(s, ops)
    requires i < |ops| && ops[i].DoBind? && Bind(Run(s, ops[..i]), ops[i].pod, ops[i].nodeName).status == Success
    ensures var copy := Run(s, ops[..i]).pending[Key(ops[i].pod)];
            && Run(s, ops[..i + 1]).store == Run(s, ops[..i]).store[(copy.namespace, copy.name) := copy]
            && ChargedAs(Run(s, ops).cache, copy)
  {
    PrefixLegal(s, ops, i);
    ReservedAreCharged(s, ops[..i]);
    BoundStaysCharged(s, ops, i);
  }

  /** Otherwise: Unreserve leaves the copy filed, so a Bind after it succeeds
      and writes a placed pod that no device is charged for. */
  lemma BindAfterUnreserve(s: State, ops: seq<Op>, p: Pod, nodeName: string, updated: bool, bindNode: string)
    requires Initial(s) && LegalRun(s, ops) && Key(p) in Run(s, ops).pending && p.gpuMem > 0
    requires var copy := Run(s, ops).pending[Key(p)]; (copy.namespace, copy.name) in Run(s, ops).store
    ensures var copy, after := Run(s, ops).pending[Key(p)], Bind(Unreserve(Run(s, ops), p, nodeName, updated), p, bindNode);
            && after.status == Success
            && after.state.store == Run(s, ops).store[(copy.namespace, copy.name) := copy]
            && Uncharged(after.state.cache, copy.uid)
  {
    RunKeeps(s, ops);
    UnreserveEntries(Run(s, ops), p, nodeName, updated);
    UnreserveKeeps(Run(s, ops), p, nodeName, updated);
    KnownIsCharged(Unreserve(Run(s, ops), p, nodeName, updated).cache, Run(s, ops).pending[Key(p)].uid);
  }

  // ----- pods that share a key -----

  /** A pod's own copy is filed.  After a Reserve that places another pod, the
      entry is still the first pod's, and Bind of the first pod writes the first
      pod, if and only if namespace and name of the two join to different
      keys. */
  lemma EntryStaysIff(s: State, p: Pod, q: Pod, n: string, updated: bool, bindNode: string)
    requires StateOk(s) && p.gpuMem > 0 && Key(p) in s.pending && s.pending[Key(p)].uid == p.uid
    requires q.uid != p.uid && Places(s, q, n)
    requires (q.namespace, q.name) in s.store && (s.pending[Key(p)].namespace, s.pending[Key(p)].name) in s.store
    ensures var s1 := Reserve(s, q, n, updated).state;
            && Key(p) in s1.pending
            && (s1.pending[Key(p)].uid == p.uid <==> Key(p) != Key(q))
            && Bind(s1, p, bindNode).status == Success
            && (Bind(s1, p, bindNode).state.store ==
                if Key(p) == Key(q) then s.store[(q.namespace, q.name) := CopyFor(s, q, n).value]
                else s.store[(s.pending[Key(p)].namespace, s.pending[Key(p)].name) := s.pending[Key(p)]])
  {
    ReserveEntries(s, q, n, updated);
    CopyIsPlaced(s, q, n);
  }

  lemma SharedKeyReserve(s: State, p: Pod, q: Pod, n: string, updated: bool)
    requires StateOk(s) && Key(p) in s.pending && Key(q) == Key(p)
    requires q.uid !in s.cache.known && Charges(s, q, n)
    ensures var s1, copy := Reserve(s, q, n, updated).state, CopyFor(s, q, n).value;
            s1.cache.known == s.cache.known[q.uid := copy] && s1.pending == s.pending[Key(p) := copy] && copy.uid == q.uid
  {
    ReserveEntries(s, q, n, updated);
    CopyIsPlaced(s, q, n);
  }

  /** Unreserve finds the copy that took the entry over. */
  lemma UnreserveOfTaken(s: State, s1: State, p: Pod, copy: Pod, m: string, updated: bool)
    requires copy.uid !in s.cache.known
    requires s1.pending == s.pending[Key(p) := copy] && s1.cache.known == s.cache.known[copy.uid := copy]
    ensures var s2 := Unreserve(s1, p, m, updated);
            s2.cache.known == s.cache.known && s2.pending == s1.pending
  {
    UnreserveEntries(s1, p, m, updated);
    MapExtensional(s.cache.known[copy.uid := copy] - {copy.uid}, s.cache.known);
  }

  /** The first pod is charged and no entry is filed for it any more. */
  lemma LeftCharged(s: State, keys: set<string>, p: Pod, s2: State, copy: Pod)
    requires EntriesOk(s, keys) && Key(p) in s.pending && s.pending[Key(p)].uid == p.uid && Key(p) in keys
    requires copy.uid != p.uid && s2.pending == s.pending[Key(p) := copy] && s2.cache.known == s.cache.known
    ensures p.uid in s.cache.known && Bound(s2, s.pending[Key(p)])
  {
    assert EntryOk(s, Key(p));
  }

  /** With a shared key, Unreserve of the first pod takes away the charge of the
      second; the first stays charged, and no entry can ever take it out. */
  lemma SharedKeyUnreserve(s: State, keys: set<string>, p: Pod, q: Pod, n: string, u1: bool, m: string, u2: bool)
    requires EntriesOk(s, keys) && Key(p) in s.pending && s.pending[Key(p)].uid == p.uid && Key(p) in keys
    requires Key(q) == Key(p) && q.uid != p.uid && q.uid !in s.cache.known && Charges(s, q, n)
    ensures var s1 := Reserve(s, q, n, u1).state;
            q.uid in s1.cache.known && p.uid in s1.cache.known
    ensures var s2 := Unreserve(Reserve(s, q, n, u1).state, p, m, u2);
            s2.cache.known == s.cache.known && q.uid !in s2.cache.known && Bound(s2, s.pending[Key(p)])
  {
    var s1, copy := Reserve(s, q, n, u1).state, CopyFor(s, q, n).value;
    SharedKeyReserve(s, p, q, n, u1);
    UnreserveOfTaken(s, s1, p, copy, m, u2);
    LeftCharged(s, keys, p, Unreserve(s1, p, m, u2), copy);
  }

  // ----- whose copy is filed, over whole runs -----

  /** The UID of the last pod that a Reserve placed under a key. */
  ghost function FiledFor(s: State, ops: seq<Op>, k: string): Option<UID> {
    if ops == [] then None
    else
      var init, op := ops[..|ops| - 1], ops[|ops| - 1];
      if op.DoReserve? && Places(Run(s, init), op.pod, op.nodeName) && Key(op.pod) == k then Some(op.pod.uid)
      else FiledFor(s, init, k)
  }

  lemma StepFiled(s: State, op: Op, k: string)
    requires StateOk(s) && k in Step(s, op).pending
    ensures if op.DoReserve? && Places(s, op.pod, op.nodeName) && Key(op.pod) == k
            then Step(s, op).pending[k].uid == op.pod.uid
            else k in s.pending && Step(s, op).pending[k] == s.pending[k]
  {
    if op.DoFilter? {
      FilterEntries(s, op.pod, op.nodeName, op.snapshot);
    } else if op.DoReserve? {
      ReserveEntries(s, op.pod, op.nodeName, op.updated);
      if Places(s, op.pod, op.nodeName) {
        CopyIsPlaced(s, op.pod, op.nodeName);
      }
    } else if op.DoUnreserve? {
      UnreserveEntries(s, op.pod, op.nodeName, op.updated);
    } else {
      OtherEntries(s, op);
    }
  }

  /** In every legal run a filed copy is of the pod last placed under its key. */
  lemma {:induction false} FiledForLast(s: State, ops: seq<Op>, k: string)
    requires Initial(s) && LegalRun(s, ops) && k in Run(s, ops).pending
    ensures FiledFor(s, ops, k) == Some(Run(s, ops).pending[k].uid)
    decreases |ops|
  {
    if ops != [] {
      var init, op := ops[..|ops| - 1], ops[|ops| - 1];
      LastStep(s, ops);
      RunKeeps(s, init);
      StepFiled(Run(s, init), op, k);
      if k in Run(s, init).pending {
        FiledForLast(s, init, k);
      }
    }
  }

  /** After any legal run a Bind that succeeds writes the pod it was called for
      if and only if that pod is the last one placed under its key. */
  lemma BindWritesOwnIff(s: State, ops: seq<Op>, p: Pod, nodeName: string)
    requires Initial(s) && LegalRun(s, ops) && Bind(Run(s, ops), p, nodeName).status == Success
    ensures Key(p) in Run(s, ops).pending
    ensures var now := Run(s, ops);
            var copy := now.pending[Key(p)];
            && Bind(now, p, nodeName).state.store == now.store[(copy.namespace, copy.name) := copy]
            && (copy.uid == p.uid <==> FiledFor(s, ops, Key(p)) == Some(p.uid))
  {
    FiledForLast(s, ops, Key(p));
  }

  /** Some Reserve of the run was called for a pod of this key and UID. */
  predicate WasReserved(ops: seq<Op>, k: string, uid: UID) {
    exists i :: 0 <= i < |ops| && ops[i].DoReserve? && Key(ops[i].pod) == k && ops[i].pod.uid == uid
  }

  /** Reserved pods with different UIDs have different keys. */
  ghost predicate KeysTellPods(ops: seq<Op>) {
    forall k, u, v :: WasReserved(ops, k, u) && WasReserved(ops, k, v) ==> u == v
  }

  lemma ReservedSnoc(init: seq<Op>, op: Op, k: string, uid: UID)
    requires WasReserved(init, k, uid) || (op.DoReserve? && Key(op.pod) == k && op.pod.uid == uid)
    ensures WasReserved(init + [op], k, uid)
  {
    var ops := init + [op];
    if WasReserved(init, k, uid) {
      var i :| 0 <= i < |init| && init[i].DoReserve? && Key(init[i].pod) == k && init[i].pod.uid == uid;
      assert ops[i] == init[i];
    } else {
      assert ops[|init|] == op;
    }
  }

  lemma {:induction false} FiledWasReserved(s: State, ops: seq<Op>, k: string)
    requires FiledFor(s, ops, k).Some?
    ensures WasReserved(ops, k, FiledFor(s, ops, k).value)
    decreases |ops|
  {
    var init, op := ops[..|ops| - 1], ops[|ops| - 1];
    assert ops == init + [op];
    if !(op.DoReserve? && Places(Run(s, init), op.pod, op.nodeName) && Key(op.pod) == k) {
      FiledWasReserved(s, init, k);
    }
    ReservedSnoc(init, op, k, FiledFor(s, ops, k).value);
  }

  /** When keys tell the reserved pods apart, every Bind of a reserved pod that
      succeeds writes that pod. */
  lemma BindsOwnCopy(s: State, ops: seq<Op>, p: Pod, nodeName: string)
    requires Initial(s) && LegalRun(s, ops) && Bind(Run(s, ops), p, nodeName).status == Success
    requires KeysTellPods(ops) && WasReserved(ops, Key(p), p.uid)
    ensures Key(p) in Run(s, ops).pending && Run(s, ops).pending[Key(p)].uid == p.uid
  {
    BindWritesOwnIff(s, ops, p, nodeName);
    FiledForLast(s, ops, Key(p));
    FiledWasReserved(s, ops, Key(p));
  }

  /** After any legal run an Unreserve takes another pod's charge away if and
      only if its key is charged for a pod that is not the one it was called
      for, whether that one was placed, asks for a GPU, or neither. */
  lemma UnreserveTakesOthersIff(s: State, ops: seq<Op>, p: Pod, n: string, updated: bool)
    requires Initial(s) && LegalRun(s, ops)
    ensures var now := Run(s, ops);
            var after := Unreserve(now, p, n, updated);
            (exists u :: u in now.cache.known && u != p.uid && u !in after.cache.known) <==>
            Key(p) in now.pending && Key(p) in ChargedKeys(s, ops) && FiledFor(s, ops, Key(p)) != Some(p.uid)
  {
    var now := Run(s, ops);
    RunEntries(s, ops);
    UnreserveEntries(now, p, n, updated);
    if Key(p) in now.pending {
      FiledForLast(s, ops, Key(p));
      var u := now.pending[Key(p)].uid;
      assert u !in Unreserve(now, p, n, updated).cache.known;
    }
  }
}
