/** How each step changes the filed copies and the known pods, and when the UID
    of a filed copy is known: the account behind Bind and Unreserve. */
module Entries {
  import opened Kube
  import opened CacheModel
  import opened PluginModel
  import opened Protocol

  // ----- what one step does -----

  /** Reserve of this pod on this node files a copy. */
  ghost predicate Places(s: State, p: Pod, n: string) {
    p.gpuMem > 0 && CopyFor(s, p, n).Some?
  }

  /** The copy it files reaches a device, so that it is also charged. */
  ghost predicate Charges(s: State, p: Pod, n: string) {
    && Places(s, p, n) && n != ""
    && Touches(Lookup(s.cache, s.nodes, n).value.nodes[n].devs, CopyFor(s, p, n).value)
  }

  lemma LookupKnown(c: CacheState, nodes: map<string, Node>, n: string)
    ensures Lookup(c, nodes, n).Some? ==> Lookup(c, nodes, n).value.known == c.known
  {
  }

  lemma PublishEntries(s: State, n: string, updated: bool)
    ensures var s1 := Publish(s, n, updated).state;
            && s1.pending == s.pending && s1.cache.known == s.cache.known
            && s1.store == s.store && s1.nodes == s.nodes
  {
    LookupKnown(s.cache, s.nodes, n);
    match Lookup(s.cache, s.nodes, n)
    case None =>
    case Some(c) => assert Publish(s, n, updated).state.cache == c;
  }

  lemma FilterEntries(s: State, p: Pod, n: string, snapshot: Node)
    ensures var s1 := Filter(s, p, n, snapshot).state;
            && s1.pending == s.pending && s1.cache.known == s.cache.known
            && s1.store == s.store && s1.nodes == s.nodes
  {
  }

  lemma CopyIsPlaced(s: State, p: Pod, n: string)
    requires CopyFor(s, p, n).Some?
    ensures n in s.nodes
    ensures var copy := CopyFor(s, p, n).value;
            && copy == p.(gpuIndex := copy.gpuIndex, nodeName := n, phase := Running)
            && Key(copy) == Key(p)
  {
  }

  lemma ReserveEntries(s: State, p: Pod, n: string, updated: bool)
    requires StateOk(s)
    ensures var s1 := Reserve(s, p, n, updated).state;
            && s1.store == s.store && s1.nodes == s.nodes
            && s1.pending == (if Places(s, p, n) then s.pending[Key(p) := CopyFor(s, p, n).value] else s.pending)
            && s1.cache.known == (if Charges(s, p, n) then s.cache.known[p.uid := CopyFor(s, p, n).value] else s.cache.known)
  {
    if p.gpuMem > 0 && n in s.nodes {
      ReserveIs(s, p, n, updated);
      if CopyFor(s, p, n).Some? {
        CopyIsPlaced(s, p, n);
        var s1 := s.(cache := Lookup(s.cache, s.nodes, n).value);
        PublishEntries(Committed(s1, CopyFor(s, p, n).value), n, updated);
      }
    }
  }

  lemma UnreserveEntries(s: State, p: Pod, n: string, updated: bool)
    ensures var s1 := Unreserve(s, p, n, updated);
            && s1.pending == s.pending && s1.store == s.store && s1.nodes == s.nodes
            && s1.cache.known == if Key(p) in s.pending then s.cache.known - {s.pending[Key(p)].uid} else s.cache.known
  {
    if Key(p) in s.pending {
      PublishEntries(s.(cache := Remove(s.cache, s.nodes, s.pending[Key(p)])), n, updated);
    }
  }

  predicate IsOther(op: Op) {
    op.DoBind? || op.SetNode? || op.SetPod? || op.DeletePod?
  }

  /** Bind and the environment leave the cache alone and file nothing. */
  lemma OtherEntries(s: State, op: Op)
    requires IsOther(op)
    ensures var s1 := Step(s, op);
            && s1.cache == s.cache && s1.annos == s.annos
            && forall k :: k in s1.pending ==> k in s.pending && s1.pending[k] == s.pending[k]
  {
  }

  // ----- no UID is filed twice -----

  predicate EntriesDistinct(s: State) {
    forall k, l :: k in s.pending && l in s.pending && s.pending[k].uid == s.pending[l].uid ==> k == l
  }

  lemma StepDistinct(s: State, op: Op)
    requires StateOk(s) && Legal(s, op) && EntriesDistinct(s)
    ensures EntriesDistinct(Step(s, op))
  {
    if op.DoFilter? {
      FilterEntries(s, op.pod, op.nodeName, op.snapshot);
    } else if op.DoReserve? {
      ReserveEntries(s, op.pod, op.nodeName, op.updated);
      if Places(s, op.pod, op.nodeName) {
        CopyIsPlaced(s, op.pod, op.nodeName);
      }
    } else if op.DoUnreserve? {
      UnreserveEntries(s, op.pod, op.nodeName, op.updated);
    } else {
      OtherEntries(s, op);
    }
  }

  // ----- every filed or known pod asks for memory -----

  predicate Asking(s: State) {
    && (forall u :: u in s.cache.known ==> s.cache.known[u].gpuMem > 0)
    && (forall k :: k in s.pending ==> s.pending[k].gpuMem > 0)
  }

  lemma StepAsking(s: State, op: Op)
    requires StateOk(s) && Asking(s)
    ensures Asking(Step(s, op))
  {
    if op.DoFilter? {
      FilterEntries(s, op.pod, op.nodeName, op.snapshot);
    } else if op.DoReserve? {
      ReserveEntries(s, op.pod, op.nodeName, op.updated);
      if Places(s, op.pod, op.nodeName) {
        CopyIsPlaced(s, op.pod, op.nodeName);
      }
    } else if op.DoUnreserve? {
      UnreserveEntries(s, op.pod, op.nodeName, op.updated);
    } else {
      OtherEntries(s, op);
    }
  }

  // ----- when a filed copy is charged -----

  /** The keys whose copy was charged by the last step that filed it and not
      given back since. */
  ghost function ChargedStep(s: State, op: Op, keys: set<string>): set<string> {
    match op
    case DoReserve(p, n, _) =>
      if Charges(s, p, n) then keys + {Key(p)}
      else if Places(s, p, n) then keys - {Key(p)}
      else keys
    case DoUnreserve(p, _, _) => keys - {Key(p)}
    case _ => keys
  }

  ghost function ChargedKeys(s: State, ops: seq<Op>): set<string> {
    if ops == [] then {}
    else
      var init := ops[..|ops| - 1];
      ChargedStep(Run(s, init), ops[|ops| - 1], ChargedKeys(s, init))
  }

  /** The UID of a filed copy is known exactly under the charged keys. */
  ghost predicate KeysCharged(s: State, keys: set<string>) {
    forall k :: k in s.pending ==> (s.pending[k].uid in s.cache.known <==> k in keys)
  }

  lemma ReserveCharged(s: State, p: Pod, n: string, updated: bool, keys: set<string>)
    requires StateOk(s) && Legal(s, DoReserve(p, n, updated)) && KeysCharged(s, keys)
    ensures KeysCharged(Reserve(s, p, n, updated).state, ChargedStep(s, DoReserve(p, n, updated), keys))
  {
    ReserveEntries(s, p, n, updated);
    if Places(s, p, n) {
      CopyIsPlaced(s, p, n);
    }
  }

  lemma UnreserveCharged(s: State, p: Pod, n: string, updated: bool, keys: set<string>)
    requires EntriesDistinct(s) && KeysCharged(s, keys)
    ensures KeysCharged(Unreserve(s, p, n, updated), keys - {Key(p)})
  {
    UnreserveEntries(s, p, n, updated);
  }

  lemma StepCharged(s: State, op: Op, keys: set<string>)
    requires StateOk(s) && Legal(s, op) && EntriesDistinct(s) && KeysCharged(s, keys)
    ensures KeysCharged(Step(s, op), ChargedStep(s, op, keys))
  {
    if op.DoFilter? {
      FilterEntries(s, op.pod, op.nodeName, op.snapshot);
    } else if op.DoReserve? {
      ReserveCharged(s, op.pod, op.nodeName, op.updated, keys);
    } else if op.DoUnreserve? {
      UnreserveCharged(s, op.pod, op.nodeName, op.updated, keys);
    } else {
      OtherEntries(s, op);
    }
  }

  /** All that the steps keep of the entries. */
  ghost predicate EntriesOk(s: State, keys: set<string>) {
    StateOk(s) && EntriesDistinct(s) && Asking(s) && KeysCharged(s, keys)
  }

  lemma PrefixLegal(s: State, ops: seq<Op>, i: nat)
    requires LegalRun(s, ops) && i <= |ops|
    ensures LegalRun(s, ops[..i])
  {
    assert forall j :: 0 <= j < i ==> ops[..i][..j] == ops[..j] && ops[..i][j] == ops[j];
  }

  lemma RunSplit(s: State, ops: seq<Op>, i: nat)
    requires i < |ops|
    ensures Run(s, ops[..i + 1]) == Step(Run(s, ops[..i]), ops[i])
  {
    assert ops[..i + 1][..i] == ops[..i];
  }

  lemma LastStep(s: State, ops: seq<Op>)
    requires LegalRun(s, ops) && ops != []
    ensures var init, op := ops[..|ops| - 1], ops[|ops| - 1];
            LegalRun(s, init) && Legal(Run(s, init), op) && Run(s, ops) == Step(Run(s, init), op)
  {
    PrefixLegal(s, ops, |ops| - 1);
    assert Legal(Run(s, ops[..|ops| - 1]), ops[|ops| - 1]);
  }

  lemma {:induction false} RunEntries(s: State, ops: seq<Op>)
    requires Initial(s) && LegalRun(s, ops)
    ensures EntriesOk(Run(s, ops), ChargedKeys(s, ops))
    decreases |ops|
  {
    RunKeeps(s, ops);
    if ops != [] {
      var init, op := ops[..|ops| - 1], ops[|ops| - 1];
      LastStep(s, ops);
      RunEntries(s, init);
      StepDistinct(Run(s, init), op);
      StepAsking(Run(s, init), op);
      StepCharged(Run(s, init), op, ChargedKeys(s, init));
    }
  }
}
