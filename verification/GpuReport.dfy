/** The figure the report computes from the server's pods, memory times count
    over the pods of a node, and what the cache's devices count. */
module GpuReport {
  import opened Kube
  import opened Accounting
  import opened CacheModel
  import opened CacheInvariant
  import opened PluginModel
  import opened Protocol
  import opened Capacity
  import opened Entries
  import opened Binding

  function ObjectName(p: Pod): (string, string) {
    (p.namespace, p.name)
  }

  /** A placed pod that counts in the report. */
  predicate Weighs(p: Pod) {
    p.nodeName != "" && p.gpuMem != 0
  }

  predicate OnServer(s: State, p: Pod) {
    ObjectName(p) in s.store && s.store[ObjectName(p)] == p
  }

  predicate IsFiled(s: State, uid: UID) {
    exists k :: k in s.pending && s.pending[k].uid == uid
  }

  // ----- what links the cache to the server -----

  /** Every known pod is still filed or stands on the server as it was charged,
      and every placed GPU pod of the server is bound. */
  predicate Linked(s: State) {
    && (forall u :: u in s.cache.known ==> IsFiled(s, u) || OnServer(s, s.cache.known[u]))
    && (forall u :: u in s.cache.known ==> s.cache.known[u].nodeName != "")
    && (forall key :: key in s.store && Weighs(s.store[key]) ==> ObjectName(s.store[key]) == key && Bound(s, s.store[key]))
  }

  /** Known pods and filed copies come from Reserves of the run. */
  predicate Sourced(s: State, ops: seq<Op>) {
    && (forall u :: u in s.cache.known ==> WasReserved(ops, Key(s.cache.known[u]), u))
    && (forall k :: k in s.pending ==> WasReserved(ops, k, s.pending[k].uid))
  }

  /** The environment writes no placed GPU pod, and neither rewrites nor deletes
      one. */
  predicate Tidy(s: State, op: Op) {
    match op
    case SetPod(p) => !Weighs(p) && (ObjectName(p) in s.store ==> !Weighs(s.store[ObjectName(p)]))
    case DeletePod(ns, name) => (ns, name) in s.store ==> !Weighs(s.store[(ns, name)])
    case _ => true
  }

  lemma SourcedSnoc(s: State, init: seq<Op>, op: Op)
    requires Sourced(s, init)
    ensures Sourced(s, init + [op])
  {
    forall u | u in s.cache.known
      ensures WasReserved(init + [op], Key(s.cache.known[u]), u)
    {
      ReservedSnoc(init, op, Key(s.cache.known[u]), u);
    }
    forall k | k in s.pending
      ensures WasReserved(init + [op], k, s.pending[k].uid)
    {
      ReservedSnoc(init, op, k, s.pending[k].uid);
    }
  }

  lemma ReserveSourced(s: State, init: seq<Op>, p: Pod, n: string, updated: bool)
    requires StateOk(s) && Sourced(s, init)
    ensures Sourced(Reserve(s, p, n, updated).state, init + [DoReserve(p, n, updated)])
  {
    var op := DoReserve(p, n, updated);
    SourcedSnoc(s, init, op);
    ReserveEntries(s, p, n, updated);
    if Places(s, p, n) {
      CopyIsPlaced(s, p, n);
      ReservedNow(init, op);
    }
  }

  lemma ReservedNow(init: seq<Op>, op: Op)
    requires op.DoReserve?
    ensures WasReserved(init + [op], Key(op.pod), op.pod.uid)
  {
    assert (init + [op])[|init|] == op;
  }

  lemma StepSourced(s: State, init: seq<Op>, op: Op)
    requires StateOk(s) && Sourced(s, init)
    ensures Sourced(Step(s, op), init + [op])
  {
    SourcedSnoc(s, init, op);
    if op.DoFilter? {
      FilterEntries(s, op.pod, op.nodeName, op.snapshot);
    } else if op.DoReserve? {
      ReserveSourced(s, init, op.pod, op.nodeName, op.updated);
    } else if op.DoUnreserve? {
      UnreserveEntries(s, op.pod, op.nodeName, op.updated);
    } else {
      OtherEntries(s, op);
    }
  }

  // ----- every step keeps the link -----

  /** The cache and the entries change, and every pod of the server stays
      bound. */
  lemma KeepsLink(s: State, s1: State)
    requires Linked(s) && s1.store == s.store
    requires forall u :: u in s1.cache.known ==> s1.cache.known[u].nodeName != ""
    requires forall u :: u in s1.cache.known ==> IsFiled(s1, u) || (u in s.cache.known && s1.cache.known[u] == s.cache.known[u] && OnServer(s, s.cache.known[u]))
    requires forall p: Pod :: Bound(s, p) ==> Bound(s1, p)
    ensures Linked(s1)
  {
  }

  /** With keys that tell pods apart, filing one pod unfiles no other. */
  lemma StillFiled(s: State, s1: State, ops: seq<Op>, key: string, copy: Pod, u: UID)
    requires s1.pending == s.pending[key := copy] && IsFiled(s, u) && u != copy.uid
    requires Sourced(s, ops) && WasReserved(ops, key, copy.uid) && KeysTellPods(ops)
    ensures IsFiled(s1, u)
  {
    var k :| k in s.pending && s.pending[k].uid == u;
    assert WasReserved(ops, k, u);
    assert k in s1.pending && s1.pending[k].uid == u;
  }

  lemma ChargedLinked(s: State, s1: State, ops: seq<Op>, key: string, copy: Pod)
    requires Linked(s) && s1.store == s.store && copy.nodeName != ""
    requires s1.pending == s.pending[key := copy] && s1.cache.known == s.cache.known[copy.uid := copy]
    requires Sourced(s, ops) && WasReserved(ops, key, copy.uid) && KeysTellPods(ops)
    requires forall p: Pod :: Bound(s, p) ==> Bound(s1, p)
    ensures Linked(s1)
  {
    assert s1.pending[key].uid == copy.uid;
    forall u | u in s1.cache.known
      ensures IsFiled(s1, u) || (u in s.cache.known && s1.cache.known[u] == s.cache.known[u] && OnServer(s, s.cache.known[u]))
    {
      if u != copy.uid && IsFiled(s, u) {
        StillFiled(s, s1, ops, key, copy, u);
      }
    }
    KeepsLink(s, s1);
  }

  lemma ReserveLinked(s: State, init: seq<Op>, p: Pod, n: string, updated: bool)
    requires StateOk(s) && Linked(s) && Sourced(s, init) && Legal(s, DoReserve(p, n, updated))
    requires !HasPreset(p) && n != "" && KeysTellPods(init + [DoReserve(p, n, updated)])
    ensures Linked(Reserve(s, p, n, updated).state)
  {
    var s1, ops := Reserve(s, p, n, updated).state, init + [DoReserve(p, n, updated)];
    ReserveEntries(s, p, n, updated);
    forall q: Pod | Bound(s, q)
      ensures Bound(s1, q)
    {
      ReserveBound(s, p, n, updated, q);
    }
    if Places(s, p, n) {
      CopyIsPlaced(s, p, n);
      PlacesCharges(s, p, n);
      ReservedNow(init, DoReserve(p, n, updated));
      SourcedSnoc(s, init, DoReserve(p, n, updated));
      ChargedLinked(s, s1, ops, Key(p), CopyFor(s, p, n).value);
    } else {
      SameEntriesFiled(s, s1);
      KeepsLink(s, s1);
    }
  }

  lemma SameEntriesFiled(s: State, s1: State)
    requires s1.pending == s.pending
    ensures forall u :: IsFiled(s1, u) == IsFiled(s, u)
  {
  }

  lemma UnreserveLinked(s: State, p: Pod, n: string, updated: bool)
    requires Linked(s)
    ensures Linked(Unreserve(s, p, n, updated))
  {
    var s1 := Unreserve(s, p, n, updated);
    UnreserveEntries(s, p, n, updated);
    SameEntriesFiled(s, s1);
    forall q: Pod | Bound(s, q)
      ensures Bound(s1, q)
    {
      UnreserveBound(s, p, n, updated, q);
    }
    KeepsLink(s, s1);
  }

  lemma FilterLinked(s: State, p: Pod, n: string, snapshot: Node)
    requires Linked(s)
    ensures Linked(Filter(s, p, n, snapshot).state)
  {
    var s1 := Filter(s, p, n, snapshot).state;
    FilterEntries(s, p, n, snapshot);
    SameEntriesFiled(s, s1);
    KeepsLink(s, s1);
  }

  /** Two known pods do not share a name. */
  lemma NotOverwritten(s: State, ops: seq<Op>, copy: Pod, u: UID)
    requires Sourced(s, ops) && KeysTellPods(ops)
    requires u in s.cache.known && copy.uid in s.cache.known && s.cache.known[copy.uid] == copy && u != copy.uid
    ensures ObjectName(s.cache.known[u]) != ObjectName(copy)
  {
    assert WasReserved(ops, Key(s.cache.known[u]), u) && WasReserved(ops, Key(copy), copy.uid);
  }

  /** A charged copy moves from the entries to the server. */
  ghost predicate Moved(s: State, s1: State, key: string) {
    && key in s.pending && s1.pending == s.pending - {key} && s1.cache == s.cache
    && var copy := s.pending[key];
    && copy.uid in s.cache.known && s.cache.known[copy.uid] == copy
    && s1.store == s.store[ObjectName(copy) := copy]
  }

  lemma MovedAccounted(s: State, s1: State, ops: seq<Op>, key: string, u: UID)
    requires Linked(s) && Sourced(s, ops) && KeysTellPods(ops) && Moved(s, s1, key) && u in s.cache.known
    ensures IsFiled(s1, u) || OnServer(s1, s.cache.known[u])
  {
    var copy := s.pending[key];
    if u != copy.uid {
      if IsFiled(s, u) {
        var k :| k in s.pending && s.pending[k].uid == u;
        assert k in s1.pending && s1.pending[k].uid == u;
      } else {
        NotOverwritten(s, ops, copy, u);
      }
    }
  }

  lemma MovedBound(s: State, s1: State, key: string)
    requires EntriesDistinct(s) && Moved(s, s1, key)
    ensures Bound(s1, s.pending[key])
    ensures forall p: Pod :: Bound(s, p) ==> Bound(s1, p)
  {
  }

  lemma MovedLinked(s: State, s1: State, ops: seq<Op>, key: string)
    requires EntriesDistinct(s) && Linked(s) && Sourced(s, ops) && KeysTellPods(ops) && Moved(s, s1, key)
    ensures Linked(s1)
  {
    MovedBound(s, s1, key);
    forall u | u in s1.cache.known
      ensures IsFiled(s1, u) || OnServer(s1, s1.cache.known[u])
    {
      MovedAccounted(s, s1, ops, key, u);
    }
  }

  lemma BindMoves(s: State, keys: set<string>, p: Pod, n: string)
    requires EntriesOk(s, keys) && Bind(s, p, n).status == Success && Key(p) in keys
    ensures Moved(s, Bind(s, p, n).state, Key(p))
  {
    assert EntryOk(s, Key(p));
  }

  lemma BindLinked(s: State, keys: set<string>, ops: seq<Op>, p: Pod, n: string)
    requires EntriesOk(s, keys) && Linked(s) && Sourced(s, ops) && KeysTellPods(ops)
    requires Bind(s, p, n).status == Success && Key(p) in keys
    ensures Linked(Bind(s, p, n).state)
  {
    BindMoves(s, keys, p, n);
    MovedLinked(s, Bind(s, p, n).state, ops, Key(p));
  }

  /** The environment. */
  lemma OutsideLinked(s: State, op: Op)
    requires Asking(s) && Linked(s) && Tidy(s, op) && (op.SetNode? || op.SetPod? || op.DeletePod?)
    ensures Linked(Step(s, op))
  {
    var s1 := Step(s, op);
    OtherEntries(s, op);
    SameEntriesFiled(s, s1);
    forall u | u in s1.cache.known && !IsFiled(s1, u)
      ensures OnServer(s1, s1.cache.known[u])
    {
      assert OnServer(s, s.cache.known[u]) && Weighs(s.cache.known[u]);
    }
    forall key | key in s1.store && Weighs(s1.store[key])
      ensures ObjectName(s1.store[key]) == key && Bound(s1, s1.store[key])
    {
      OtherBound(s, op, s1.store[key]);
    }
  }

  // ----- whole runs -----

  /** Without presets the scheduler reserves on nodes with a name and binds only
      what it has reserved and not taken back; keys tell the reserved pods
      apart; and the environment leaves placed GPU pods alone. */
  ghost predicate Orderly(s: State, ops: seq<Op>) {
    && PresetFreeRun(s, ops) && NamedNodes(ops) && BindsReserved(s, ops) && KeysTellPods(ops)
    && forall i :: 0 <= i < |ops| ==> Tidy(Run(s, ops[..i]), ops[i])
  }

  lemma KeysTellPrefix(init: seq<Op>, op: Op)
    requires KeysTellPods(init + [op])
    ensures KeysTellPods(init)
  {
    forall k, u, v | WasReserved(init, k, u) && WasReserved(init, k, v)
      ensures u == v
    {
      ReservedSnoc(init, op, k, u);
      ReservedSnoc(init, op, k, v);
    }
  }

  lemma OrderlyPrefix(s: State, init: seq<Op>, op: Op)
    requires Orderly(s, init + [op])
    ensures Orderly(s, init)
  {
    var ops := init + [op];
    assert ops[..|init|] == init;
    PrefixLegal(s, ops, |init|);
    KeysTellPrefix(init, op);
    forall i | 0 <= i < |init|
      ensures init[..i] == ops[..i] && init[i] == ops[i]
    {
    }
    assert forall i :: 0 <= i < |init| && init[i].DoBind? ==> Key(ops[i].pod) in ReservedKeys(s, ops[..i]);
  }

  /** What an orderly run says of its last step. */
  lemma OrderlyLast(s: State, init: seq<Op>, op: Op)
    requires Orderly(s, init + [op]) && Initial(s)
    ensures Run(s, init + [op]) == Step(Run(s, init), op)
    ensures Legal(Run(s, init), op) && Tidy(Run(s, init), op)
    ensures op.DoReserve? ==> !HasPreset(op.pod) && op.nodeName != ""
    ensures op.DoBind? ==> Key(op.pod) in ReservedKeys(s, init)
  {
    var ops := init + [op];
    assert ops[..|init|] == init && ops[|init|] == op;
    LastStep(s, ops);
    assert NoPreset(ops[|init|]) && Tidy(Run(s, ops[..|init|]), ops[|init|]);
  }

  lemma StepLinked(s: State, keys: set<string>, init: seq<Op>, op: Op)
    requires EntriesOk(s, keys) && Linked(s) && Sourced(s, init) && Legal(s, op) && Tidy(s, op)
    requires KeysTellPods(init) && KeysTellPods(init + [op])
    requires op.DoReserve? ==> !HasPreset(op.pod) && op.nodeName != ""
    requires op.DoBind? ==> Key(op.pod) in keys
    ensures Linked(Step(s, op))
  {
    match op
    case DoFilter(p, n, snapshot) => FilterLinked(s, p, n, snapshot);
    case DoReserve(p, n, updated) => ReserveLinked(s, init, p, n, updated);
    case DoUnreserve(p, n, updated) => UnreserveLinked(s, p, n, updated);
    case DoBind(p, n) =>
      if Bind(s, p, n).status == Success {
        BindLinked(s, keys, init, p, n);
      }
    case _ => OutsideLinked(s, op);
  }

  lemma LastLinked(s: State, init: seq<Op>, op: Op)
    requires Initial(s) && Orderly(s, init) && Orderly(s, init + [op])
    requires Linked(Run(s, init)) && Sourced(Run(s, init), init)
    ensures Linked(Run(s, init + [op])) && Sourced(Run(s, init + [op]), init + [op])
  {
    OrderlyLast(s, init, op);
    RunEntries(s, init);
    ReservedAreCharged(s, init);
    StepSourced(Run(s, init), init, op);
    StepLinked(Run(s, init), ChargedKeys(s, init), init, op);
  }

  lemma StartLinked(s: State)
    requires Initial(s) && forall key :: key in s.store ==> !Weighs(s.store[key])
    ensures Linked(s) && Sourced(s, []) && Run(s, []) == s
  {
  }

  lemma {:induction false} RunLinked(s: State, ops: seq<Op>)
    requires Initial(s) && Orderly(s, ops) && forall key :: key in s.store ==> !Weighs(s.store[key])
    ensures Linked(Run(s, ops)) && Sourced(Run(s, ops), ops)
    decreases |ops|
  {
    if ops == [] {
      StartLinked(s);
    } else {
      var init, op := ops[..|ops| - 1], ops[|ops| - 1];
      assert ops == init + [op];
      OrderlyPrefix(s, init, op);
      RunLinked(s, init);
      LastLinked(s, init, op);
    }
  }

  // ----- the two figures -----

  /** The same pods under their names instead of their UIDs. */
  lemma {:induction false} Renamed(byName: map<(string, string), Pod>, byUid: map<UID, Pod>, f: Pod -> int)
    requires forall k :: k in byName ==> ObjectName(byName[k]) == k && byName[k].uid in byUid && byUid[byName[k].uid] == byName[k]
    requires forall u :: u in byUid ==> byUid[u].uid == u && ObjectName(byUid[u]) in byName && byName[ObjectName(byUid[u])] == byUid[u]
    ensures SumPods(byName, f) == SumPods(byUid, f)
    decreases |byName|
  {
    if byName == map[] {
      assert byUid == map[];
    } else {
      var k :| k in byName;
      var u := byName[k].uid;
      SumPodsRemove(byName, k, f);
      SumPodsRemove(byUid, u, f);
      Renamed(byName - {k}, byUid - {u}, f);
    }
  }

  /** The server's pods of a node. */
  function ServerPodsOn(store: map<(string, string), Pod>, n: string): map<(string, string), Pod> {
    map key | key in store && store[key].nodeName == n :: store[key]
  }

  lemma LinkedFigures(s: State, n: string)
    requires StateOk(s) && Asking(s) && Linked(s) && n != ""
    requires forall k :: k in s.pending ==> s.pending[k].uid !in s.cache.known
    ensures SumPods(ServerPodsOn(s.store, n), Requested()) == SumPods(PodsOn(s.cache.known, n), Requested())
  {
    var all, known := ServerPodsOn(s.store, n), PodsOn(s.cache.known, n);
    var weighing := map key | key in all && all[key].gpuMem != 0 :: all[key];
    forall key | key in all && key !in weighing
      ensures Requested()(all[key]) == 0
    {
    }
    SumPodsIgnoresZero(weighing, all, Requested());
    forall u | u in known
      ensures known[u].uid == u && ObjectName(known[u]) in weighing && weighing[ObjectName(known[u])] == known[u]
    {
      assert PodOk(s.cache, u) && !IsFiled(s, u);
    }
    Renamed(weighing, known, Requested());
  }

  /** The report agrees with the devices: after every orderly run on whose
      initial server no GPU pod is placed, and at whose end no charged copy is
      still filed, what the devices of a node count together is memory times
      count summed over the server's pods of that node. */
  lemma ReportAgrees(s: State, ops: seq<Op>, n: string)
    requires Initial(s) && Orderly(s, ops) && forall key :: key in s.store ==> !Weighs(s.store[key])
    requires n in Run(s, ops).cache.nodes && n != ""
    requires forall k :: k in Run(s, ops).pending ==> k !in ReservedKeys(s, ops)
    ensures forall i :: 0 <= i < |Run(s, ops).cache.nodes[n].devs| ==> i in Run(s, ops).cache.nodes[n].devs
    ensures var devs := Run(s, ops).cache.nodes[n].devs;
            UsedByDevs(devs, |devs|) == SumPods(ServerPodsOn(Run(s, ops).store, n), Requested())
  {
    RunEntries(s, ops);
    RunLinked(s, ops);
    ReservedAreCharged(s, ops);
    MemoryConserved(s, ops, n);
    LinkedFigures(Run(s, ops), n);
  }
}
