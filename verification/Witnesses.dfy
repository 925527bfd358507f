/** Concrete states and runs in which the plugin does not do what one would
    expect: hosts with two GPUs of 8 units, and a few pods. */
module Witnesses {
  import opened Kube
  import opened IdStrings
  import opened Packing
  import opened Accounting
  import opened CacheModel
  import opened CacheInvariant
  import opened PluginModel
  import opened Protocol
  import opened Capacity
  import opened Guarantees
  import opened Entries
  import opened Presets
  import opened Publication
  import opened Binding
  import opened GpuReport

  const HOST := Node(16, 2, "")

  function Asker(uid: UID, namespace: string, name: string, mem: int, index: string): Pod {
    Pod(uid, namespace, name, "", Pending, "", mem, 1, index)
  }

  /** An empty cache, two hosts, and some pods on the server. */
  function Fresh(store: map<(string, string), Pod>): State {
    State(map["host" := HOST, "other" := HOST], map[], store, CacheState(map[], map[]), map[])
  }

  /** The host's devices. */
  lemma HostDevices()
    ensures var devs := BuildDevs(HOST);
            && devs.Keys == {0, 1} && |devs| == 2
            && forall i :: i in devs ==> devs[i] == Device(i, 8, "", map[])
    ensures Avail(BuildDevs(HOST)).Keys == {0, 1} && Avail(BuildDevs(HOST))[0] == 8
  {
    var devs := BuildDevs(HOST);
    assert forall i :: i in devs <==> 0 <= i < 2;
    RangeSize(devs, 2);
    AvailKeys(devs);
  }

  /** A host seen for the first time takes a pod that asks for at most 8. */
  lemma FirstPlaces(s: State, p: Pod, n: string)
    requires n in s.nodes && s.nodes[n] == HOST && n !in s.cache.nodes && n != ""
    requires StateOk(s) && p.gpuIndex == "" && p.gpuCount == 1 && 0 < p.gpuMem <= 8
    ensures Charges(s, p, n)
  {
    HostDevices();
    var avail := Avail(BuildDevs(HOST));
    assert 0 in avail && HasRoom(avail, 0, p.gpuMem);
    TightestFitIsBest(avail, 2, p.gpuMem);
    assert Choose(avail, 2, p).Some?;
    assert Lookup(s.cache, s.nodes, n).value.nodes[n].devs == BuildDevs(HOST);
    PlacesCharges(s, p, n);
  }

  lemma FreshOk(store: map<(string, string), Pod>)
    ensures Initial(Fresh(store)) && EntriesOk(Fresh(store), {})
  {
    RunEntries(Fresh(store), []);
  }

  lemma TwoSteps(s: State, a: Op, b: Op)
    ensures [a, b][..1] == [a] && Run(s, [a]) == Step(s, a) && Run(s, [a, b]) == Step(Step(s, a), b)
  {
    assert [a][..0] == [] && [a, b][..1] == [a];
  }

  lemma ThreeSteps(s: State, a: Op, b: Op, c: Op)
    ensures [a, b, c][..1] == [a] && [a, b, c][..2] == [a, b]
    ensures Run(s, [a]) == Step(s, a) && Run(s, [a, b]) == Step(Step(s, a), b)
    ensures Run(s, [a, b, c]) == Step(Step(Step(s, a), b), c)
  {
    TwoSteps(s, a, b);
    assert [a, b, c][..1] == [a] && [a, b, c][..2] == [a, b];
  }

  /** The first Reserve of all. */
  lemma ReserveFirst(s: State, p: Pod, n: string, updated: bool)
    requires Initial(s) && Charges(s, p, n)
    ensures Legal(s, DoReserve(p, n, updated))
    ensures var s1, copy := Reserve(s, p, n, updated).state, CopyFor(s, p, n).value;
            && EntriesOk(s1, {Key(p)})
            && s1.store == s.store && s1.nodes == s.nodes
            && s1.pending == map[Key(p) := copy] && s1.cache.known == map[p.uid := copy]
            && copy == p.(gpuIndex := copy.gpuIndex, nodeName := n, phase := Running)
  {
    var a := DoReserve(p, n, updated);
    assert [a][..0] == [] && Run(s, [a]) == Step(s, a);
    RunEntries(s, [a]);
    assert ChargedKeys(s, [a]) == {Key(p)};
    RunKeeps(s, []);
    ReserveEntries(s, p, n, updated);
    CopyIsPlaced(s, p, n);
  }

  lemma FirstNode(s: State, p: Pod, n: string, updated: bool)
    requires Initial(s) && Charges(s, p, n)
    ensures forall m :: m in Reserve(s, p, n, updated).state.cache.nodes ==> m == n
  {
    RunKeeps(s, []);
    CopyIsPlaced(s, p, n);
    ReservedState(s, p, n, updated);
  }

  // ----- Bind after Unreserve -----

  lemma OneReserveLegal(s: State, a: Op, b: Op, c: Op)
    requires a.DoReserve? && Legal(s, a) && NoPreset(a) && a.nodeName != "" && !b.DoReserve? && !c.DoReserve?
    ensures PresetFreeRun(s, [a, b, c]) && NamedNodes([a, b, c])
  {
    var ops := [a, b, c];
    forall i | 0 <= i < |ops|
      ensures Legal(Run(s, ops[..i]), ops[i])
    {
      if i == 0 {
        assert ops[..0] == [];
      }
    }
  }

  lemma KnownEmptied(s1: State, p: Pod, copy: Pod, n: string, updated: bool)
    requires s1.pending == map[Key(p) := copy] && s1.cache.known == map[copy.uid := copy]
    ensures Unreserve(s1, p, n, updated).cache.known == map[]
  {
    UnreserveEntries(s1, p, n, updated);
    assert map[copy.uid := copy] - {copy.uid} == map[];
  }

  /** Reserve, Unreserve and Bind of one pod: the server ends with a placed pod
      and the cache knows no pod at all. */
  lemma UnreservedBindRun(s: State, p: Pod, n: string)
    requires Initial(s) && Charges(s, p, n) && !HasPreset(p) && (p.namespace, p.name) in s.store
    ensures var ops := [DoReserve(p, n, true), DoUnreserve(p, n, true), DoBind(p, n)];
            && PresetFreeRun(s, ops) && NamedNodes(ops)
            && (p.namespace, p.name) in Run(s, ops).store && Run(s, ops).store[(p.namespace, p.name)].nodeName == n
            && Run(s, ops).cache.known == map[]
  {
    var a, b, c := DoReserve(p, n, true), DoUnreserve(p, n, true), DoBind(p, n);
    ReserveFirst(s, p, n, true);
    OneReserveLegal(s, a, b, c);
    ThreeSteps(s, a, b, c);
    LegalPrefix(s, a, b, c);
    KnownEmptied(Run(s, [a]), p, CopyFor(s, p, n).value, n, true);
    BindAfterUnreserve(s, [a], p, n, true, n);
  }

  lemma LegalPrefix(s: State, a: Op, b: Op, c: Op)
    requires LegalRun(s, [a, b, c])
    ensures LegalRun(s, [a]) && LegalRun(s, [a, b])
  {
    assert [a, b, c][..1] == [a] && [a, b, c][..2] == [a, b];
    PrefixLegal(s, [a, b, c], 1);
    PrefixLegal(s, [a, b, c], 2);
  }

  const POD := Asker("p", "a", "bc", 4, "")

  /** A concrete one, legal and without presets. */
  lemma UnreservedBind()
    ensures var s := Fresh(map[("a", "bc") := POD]);
            var ops := [DoReserve(POD, "host", true), DoUnreserve(POD, "host", true), DoBind(POD, "host")];
            && Initial(s) && PresetFreeRun(s, ops) && NamedNodes(ops)
            && ("a", "bc") in Run(s, ops).store && Run(s, ops).store[("a", "bc")].nodeName == "host"
            && Run(s, ops).cache.known == map[]
  {
    var s := Fresh(map[("a", "bc") := POD]);
    FreshOk(s.store);
    FirstPlaces(s, POD, "host");
    UnreservedBindRun(s, POD, "host");
  }

  // ----- two pods that share a key -----

  lemma TwoLegal(s: State, a: Op, b: Op, c: Op)
    requires a.DoReserve? && Legal(s, a) && b.DoReserve? && Legal(Step(s, a), b) && !c.DoReserve?
    ensures LegalRun(s, [a, b, c])
  {
    var ops := [a, b, c];
    ThreeSteps(s, a, b, c);
    forall i | 0 <= i < |ops|
      ensures Legal(Run(s, ops[..i]), ops[i])
    {
      if i == 0 {
        assert ops[..0] == [];
      }
    }
  }

  lemma TwoReservesLegal(s: State, a: Op, b: Op, c: Op)
    requires a.DoReserve? && Legal(s, a) && NoPreset(a)
    requires b.DoReserve? && Legal(Step(s, a), b) && NoPreset(b) && !c.DoReserve?
    ensures PresetFreeRun(s, [a, b, c])
  {
    TwoLegal(s, a, b, c);
  }

  /** The second of two pods with one key, reserved on a host of its own. */
  lemma SecondReserve(s: State, p: Pod, n: string, q: Pod, m: string)
    requires Initial(s) && Charges(s, p, n) && Key(q) == Key(p) && q.uid != p.uid
    requires m in s.nodes && s.nodes[m] == HOST && m != n && m != ""
    requires q.gpuIndex == "" && q.gpuCount == 1 && 0 < q.gpuMem <= 8
    ensures var s1 := Reserve(s, p, n, true).state;
            && EntriesOk(s1, {Key(p)}) && Key(p) in s1.pending && s1.pending[Key(p)].uid == p.uid
            && Legal(s1, DoReserve(q, m, true)) && Charges(s1, q, m) && s1.store == s.store
            && s1.pending[Key(p)].namespace == p.namespace && s1.pending[Key(p)].name == p.name
            && s1.cache.known.Keys == {p.uid} && s1.cache.known[p.uid].nodeName == n
  {
    ReserveFirst(s, p, n, true);
    FirstNode(s, p, n, true);
    FirstPlaces(Reserve(s, p, n, true).state, q, m);
  }

  /** Bind of the first pod writes the second one. */
  lemma SharedKeyBindRun(s: State, p: Pod, n: string, q: Pod, m: string)
    requires Initial(s) && Charges(s, p, n) && Key(q) == Key(p) && q.uid != p.uid && !HasPreset(p)
    requires m in s.nodes && s.nodes[m] == HOST && m != n && m != ""
    requires q.gpuIndex == "" && q.gpuCount == 1 && 0 < q.gpuMem <= 8
    requires (p.namespace, p.name) in s.store && (q.namespace, q.name) in s.store
    ensures var ops := [DoReserve(p, n, true), DoReserve(q, m, true), DoBind(p, n)];
            var copy := CopyFor(Run(s, [DoReserve(p, n, true)]), q, m);
            && PresetFreeRun(s, ops)
            && copy.Some? && copy.value.uid == q.uid && copy.value.nodeName == m
            && Run(s, ops).store == s.store[(q.namespace, q.name) := copy.value]
  {
    var a, b, c := DoReserve(p, n, true), DoReserve(q, m, true), DoBind(p, n);
    SecondReserve(s, p, n, q, m);
    ThreeSteps(s, a, b, c);
    ReserveFirst(s, p, n, true);
    TwoReservesLegal(s, a, b, c);
    BindTakesOther(Step(s, a), p, n, q, m);
    StepsAre(Step(s, a), q, m, p, n);
  }

  lemma StepsAre(s: State, q: Pod, m: string, p: Pod, n: string)
    ensures Step(Step(s, DoReserve(q, m, true)), DoBind(p, n)) == Bind(Reserve(s, q, m, true).state, p, n).state
  {
  }

  lemma BindTakesOther(s1: State, p: Pod, n: string, q: Pod, m: string)
    requires StateOk(s1) && p.gpuMem > 0 && Key(p) in s1.pending && s1.pending[Key(p)].uid == p.uid
    requires q.uid != p.uid && Key(q) == Key(p) && Places(s1, q, m)
    requires (q.namespace, q.name) in s1.store && (s1.pending[Key(p)].namespace, s1.pending[Key(p)].name) in s1.store
    ensures var copy := CopyFor(s1, q, m);
            && copy.Some? && copy.value.uid == q.uid && copy.value.nodeName == m
            && Bind(Reserve(s1, q, m, true).state, p, n).state.store == s1.store[(q.namespace, q.name) := copy.value]
  {
    EntryStaysIff(s1, p, q, m, true, n);
    CopyIsPlaced(s1, q, m);
  }

  /** Unreserve of the first pod takes the second one's charge away and leaves
      the first charged for ever. */
  lemma SharedKeyUnreserveRun(s: State, p: Pod, n: string, q: Pod, m: string)
    requires Initial(s) && Charges(s, p, n) && Key(q) == Key(p) && q.uid != p.uid && !HasPreset(p)
    requires m in s.nodes && s.nodes[m] == HOST && m != n && m != ""
    requires q.gpuIndex == "" && q.gpuCount == 1 && 0 < q.gpuMem <= 8
    ensures var ops := [DoReserve(p, n, true), DoReserve(q, m, true), DoUnreserve(p, n, true)];
            && PresetFreeRun(s, ops)
            && Run(s, ops[..2]).cache.known.Keys == {p.uid, q.uid}
            && Run(s, ops).cache.known.Keys == {p.uid}
            && Bound(Run(s, ops), Run(s, ops).cache.known[p.uid])
  {
    var a, b, c := DoReserve(p, n, true), DoReserve(q, m, true), DoUnreserve(p, n, true);
    SecondReserve(s, p, n, q, m);
    ThreeSteps(s, a, b, c);
    ReserveFirst(s, p, n, true);
    TwoReservesLegal(s, a, b, c);
    SharedKeyUnreserve(Step(s, a), {Key(p)}, p, q, m, true, n, true);
    SharedKeyReserve(Step(s, a), p, q, m, true);
  }

  const TWIN := Asker("q", "ab", "c", 4, "")

  /** A concrete pair: a/bc and ab/c.  After the Bind of a/bc the server has
      ab/c placed and a/bc as it was created. */
  lemma SharedKeyBind()
    ensures var s := Fresh(map[("a", "bc") := POD, ("ab", "c") := TWIN]);
            var ops := [DoReserve(POD, "host", true), DoReserve(TWIN, "other", true), DoBind(POD, "host")];
            && Initial(s) && PresetFreeRun(s, ops)
            && Run(s, ops).store.Keys == {("a", "bc"), ("ab", "c")}
            && Run(s, ops).store[("ab", "c")].nodeName == "other" && Run(s, ops).store[("a", "bc")] == POD
  {
    var s := Fresh(map[("a", "bc") := POD, ("ab", "c") := TWIN]);
    FreshOk(s.store);
    FirstPlaces(s, POD, "host");
    SameKey();
    SharedKeyBindRun(s, POD, "host", TWIN, "other");
    PairAfter(s.store, CopyFor(Run(s, [DoReserve(POD, "host", true)]), TWIN, "other").value);
  }

  lemma SameKey()
    ensures Key(POD) == Key(TWIN) && POD.uid != TWIN.uid
  {
    assert Key(POD) == "abc" == Key(TWIN);
  }

  lemma PairAfter(store: map<(string, string), Pod>, copy: Pod)
    requires store == map[("a", "bc") := POD, ("ab", "c") := TWIN]
    ensures var after := store[("ab", "c") := copy];
            after.Keys == {("a", "bc"), ("ab", "c")} && after[("a", "bc")] == POD && after[("ab", "c")] == copy
  {
    assert ("a", "bc").0 != ("ab", "c").0;
  }

  /** The same pair: after the Unreserve of a/bc only a/bc is charged. */
  lemma SharedKeyUndo()
    ensures var s := Fresh(map[]);
            var ops := [DoReserve(POD, "host", true), DoReserve(TWIN, "other", true), DoUnreserve(POD, "host", true)];
            && Initial(s) && PresetFreeRun(s, ops)
            && Run(s, ops[..2]).cache.known.Keys == {"p", "q"} && Run(s, ops).cache.known.Keys == {"p"}
  {
    var s := Fresh(map[]);
    FreshOk(s.store);
    FirstPlaces(s, POD, "host");
    SameKey();
    SharedKeyUnreserveRun(s, POD, "host", TWIN, "other");
  }

  // ----- Unreserve of a pod that was placed nowhere -----

  const BARE := Asker("b", "a", "bc", 0, "")

  /** The scheduler reserves one pod, and then another of the same key that asks
      for no GPU and whose scheduling fails: the first pod's charge is gone. */
  lemma BareUndoRun(s: State, p: Pod, n: string, q: Pod, m: string, u1: bool, u2: bool)
    requires Initial(s) && Charges(s, p, n) && Key(q) == Key(p) && q.uid != p.uid && q.gpuMem <= 0
    ensures var ops := [DoReserve(p, n, true), DoReserve(q, m, u1), DoUnreserve(q, m, u2)];
            && LegalRun(s, ops)
            && Run(s, ops[..2]).cache.known.Keys == {p.uid}
            && Run(s, ops).cache.known == map[]
  {
    var a, b, c := DoReserve(p, n, true), DoReserve(q, m, u1), DoUnreserve(q, m, u2);
    ReserveFirst(s, p, n, true);
    ThreeSteps(s, a, b, c);
    var s1 := Step(s, a);
    assert Step(s1, b) == s1;
    TwoLegal(s, a, b, c);
    KnownEmptied(s1, q, CopyFor(s, p, n).value, m, u2);
  }

  /** A concrete one: Reserve and Unreserve of a/bc, which asks for no GPU, take
      away the charge of ab/c. */
  lemma BareUndo()
    ensures var s := Fresh(map[]);
            var ops := [DoReserve(TWIN, "other", true), DoReserve(BARE, "host", true), DoUnreserve(BARE, "host", true)];
            && Initial(s) && LegalRun(s, ops)
            && Run(s, ops[..2]).cache.known.Keys == {"q"} && Run(s, ops).cache.known == map[]
  {
    var s := Fresh(map[]);
    FreshOk(s.store);
    FirstPlaces(s, TWIN, "other");
    assert Key(BARE) == "abc" == Key(TWIN);
    BareUndoRun(s, TWIN, "other", BARE, "host", true, true);
  }

  // ----- presets -----

  lemma DigitsParse()
    ensures ParseIds("0") == Ids([0]) && ParseIds("1") == Ids([1])
  {
    RoundTrip([0]);
    RoundTrip([1]);
    assert JoinIds([0]) == Itoa(0) == "0" && JoinIds([1]) == Itoa(1) == "1";
  }

  /** A valid preset is filed as it is on a node that has a device. */
  lemma PresetFiled(s: State, p: Pod, n: string)
    requires StateOk(s) && Settled(s.cache, s.nodes, n) && s.cache.nodes[n].devs != map[]
    requires HasPreset(p) && p.gpuMem > 0 && p.gpuCount > 0 && n != ""
    ensures CopyFor(s, p, n) == Some(Placed(p, n, p.gpuIndex))
    ensures Reserve(s, p, n, true).status == Success
    ensures Reserve(s, p, n, true).state.cache == Added(s.cache, Placed(p, n, p.gpuIndex))
  {
    var devs := s.cache.nodes[n].devs;
    SettledLookup(s.cache, s.nodes, n);
    AvailKeys(devs);
    PresetTaken(Avail(devs), |devs|, p);
    ReserveIs(s, p, n, true);
    AddSettled(s.cache, s.nodes, Placed(p, n, p.gpuIndex));
    PublishSettled(Committed(s, Placed(p, n, p.gpuIndex)), n, true);
  }

  /** The state once the host has been looked up. */
  function Seen(): State {
    Fresh(map[]).(cache := CacheState(map["host" := NewNode("host", HOST)], map[]))
  }

  lemma SeenOk()
    ensures StateOk(Seen()) && Settled(Seen().cache, Seen().nodes, "host")
    ensures Seen().cache.nodes["host"].devs == BuildDevs(HOST) != map[]
    ensures Lookup(Fresh(map[]).cache, Fresh(map[]).nodes, "host") == Some(Seen().cache)
  {
    FreshOk(map[]);
    HostDevices();
    LookupState(Fresh(map[]), "host");
    LookupSettles(Fresh(map[]).cache, Fresh(map[]).nodes, "host");
  }

  lemma FromFresh(p: Pod)
    requires HasPreset(p) && p.gpuMem > 0 && p.gpuCount > 0
    ensures Reserve(Fresh(map[]), p, "host", true) == Reserve(Seen(), p, "host", true)
    ensures Reserve(Seen(), p, "host", true).status == Success
    ensures Reserve(Seen(), p, "host", true).state.cache == Added(Seen().cache, Placed(p, "host", p.gpuIndex))
  {
    SeenOk();
    PresetFiled(Seen(), p, "host");
    SettledLookup(Seen().cache, Seen().nodes, "host");
  }

  const GREEDY := Asker("g", "ns", "pod", 10, "0")

  lemma GreedyUsed()
    ensures var devs := AddPod(BuildDevs(HOST), Placed(GREEDY, "host", "0"));
            0 in devs && Used(devs[0].pods, 0) == 10 && devs[0].total == 8
  {
    HostDevices();
    DigitsParse();
    SumPodsAdd(map[], "g", Placed(GREEDY, "host", "0"), ChargeTo(0));
    assert Times([0], 0) == 1;
    assert 0 in PodIds(Placed(GREEDY, "host", "0")) && 0 in BuildDevs(HOST);
  }

  /** Filter passes the pod, Reserve succeeds, and a device of 8 units counts
      10 as used. */
  lemma PresetOversubscribes()
    ensures Initial(Fresh(map[])) && Legal(Fresh(map[]), DoReserve(GREEDY, "host", true))
    ensures Filter(Fresh(map[]), GREEDY, "host", HOST).status == Success
    ensures Reserve(Fresh(map[]), GREEDY, "host", true).status == Success
    ensures var c := Reserve(Fresh(map[]), GREEDY, "host", true).state.cache;
            && "host" in c.nodes && 0 in c.nodes["host"].devs
            && Used(c.nodes["host"].devs[0].pods, 0) == 10 && c.nodes["host"].devs[0].total == 8
  {
    DigitsParse();
    FreshOk(map[]);
    SeenOk();
    FromFresh(GREEDY);
    GreedyUsed();
    FilterIffReserve(Fresh(map[]), GREEDY, "host", HOST);
    assert Filter(Fresh(map[]), GREEDY, "host", HOST).state == Seen();
  }

  // ----- one UID reserved twice -----

  const FIRST := Asker("u", "ns", "pod", 4, "0")
  const AGAIN := Asker("u", "ns", "pod", 4, "1")

  lemma AfterFirst()
    ensures var s1 := Reserve(Fresh(map[]), FIRST, "host", true).state;
            && StateOk(s1) && Settled(s1.cache, s1.nodes, "host")
            && s1.cache == Added(Seen().cache, Placed(FIRST, "host", "0"))
  {
    DigitsParse();
    SeenOk();
    FreshOk(map[]);
    FromFresh(FIRST);
    ReserveKeeps(Fresh(map[]), FIRST, "host", true);
    ReserveEntries(Fresh(map[]), FIRST, "host", true);
    AddSettled(Seen().cache, Seen().nodes, Placed(FIRST, "host", "0"));
  }

  /** The second Reserve, from any state like the one the first leaves. */
  lemma AgainFrom(s1: State)
    requires StateOk(s1) && Settled(s1.cache, s1.nodes, "host")
    requires s1.cache.known == map["u" := Placed(FIRST, "host", "0")]
    requires s1.cache.nodes["host"].devs.Keys == {0, 1} && "u" in s1.cache.nodes["host"].devs[0].pods
    ensures var c := Reserve(s1, AGAIN, "host", true).state.cache;
            && c.known == map["u" := Placed(AGAIN, "host", "1")]
            && "host" in c.nodes && 0 in c.nodes["host"].devs && "u" in c.nodes["host"].devs[0].pods
            && !CacheOk(c)
  {
    DigitsParse();
    assert 0 in s1.cache.nodes["host"].devs;
    PresetFiled(s1, AGAIN, "host");
    AgainBreaks(s1.cache, Placed(FIRST, "host", "0"), Placed(AGAIN, "host", "1"));
  }

  /** Reserving a cached UID again with another device leaves the first device
      holding a pod that the known copy no longer places there. */
  lemma ReservedTwice()
    ensures var s1 := Reserve(Fresh(map[]), FIRST, "host", true).state;
            var c := Reserve(s1, AGAIN, "host", true).state.cache;
            && StateOk(s1) && "u" in s1.cache.known
            && c.known == map["u" := Placed(AGAIN, "host", "1")]
            && "host" in c.nodes && 0 in c.nodes["host"].devs && "u" in c.nodes["host"].devs[0].pods
            && !CacheOk(c)
  {
    AfterFirst();
    FirstHeld();
    AgainFrom(Reserve(Fresh(map[]), FIRST, "host", true).state);
  }

  lemma FirstHeld()
    ensures var c := Added(Seen().cache, Placed(FIRST, "host", "0"));
            && c.known == map["u" := Placed(FIRST, "host", "0")]
            && c.nodes["host"].devs.Keys == {0, 1} && "u" in c.nodes["host"].devs[0].pods
  {
    HostDevices();
    DigitsParse();
    assert 0 in PodIds(Placed(FIRST, "host", "0")) && 0 in BuildDevs(HOST);
  }

  lemma AgainBreaks(c: CacheState, was: Pod, p: Pod)
    requires CacheOk(c) && was.nodeName == p.nodeName && p.nodeName in c.nodes && c.known == map[p.uid := was]
    requires c.nodes[p.nodeName].devs.Keys == {0, 1} && PodIds(was) == [0] && PodIds(p) == [1]
    requires p.uid in c.nodes[p.nodeName].devs[0].pods
    ensures !CacheOk(Added(c, p)) && Added(c, p).known == map[p.uid := p]
    ensures 0 in Added(c, p).nodes[p.nodeName].devs && p.uid in Added(c, p).nodes[p.nodeName].devs[0].pods
  {
    ReAddKeepsIndexIff(c, p);
    assert 0 in PodIds(was) && 0 in c.nodes[p.nodeName].devs && 0 !in PodIds(p);
    assert 1 in PodIds(p) && 1 in c.nodes[p.nodeName].devs;
  }

  // ----- a resized node -----

  const NO_MEMORY := Node(0, 2, "")
  const RESIZED := Node(16, 1, "")

  lemma BothFull()
    ensures |BuildDevs(NO_MEMORY)| == 2 && FullDevices(Briefs(BuildDevs(NO_MEMORY))) == {0, 1}
  {
    var devs := BuildDevs(NO_MEMORY);
    assert forall i :: i in devs <==> 0 <= i < 2;
    RangeSize(devs, 2);
    SameKeys(Briefs(devs), devs);
    forall i | i in devs
      ensures Full(Briefs(devs)[i])
    {
      assert devs[i] == Device(i, 0, "", map[]);
    }
    assert forall i :: i in FullDevices(Briefs(devs)) <==> i in {0, 1};
  }

  /** A node of two GPUs without memory is seen, resized to one GPU with memory,
      and seen again: its export has -1 allocatable GPUs. */
  lemma ResizedExport()
    ensures var s := State(map["host" := NO_MEMORY], map[], map[], CacheState(map[], map[]), map[]);
            var ops := [DoFilter(POD, "host", HOST), SetNode("host", RESIZED), DoFilter(POD, "host", HOST)];
            && Initial(s) && LegalRun(s, ops)
            && "host" in Run(s, ops).cache.nodes && Export(Run(s, ops).cache.nodes["host"]).gpuAllocatable == -1
  {
    var s := State(map["host" := NO_MEMORY], map[], map[], CacheState(map[], map[]), map[]);
    var a, b, c := DoFilter(POD, "host", HOST), SetNode("host", RESIZED), DoFilter(POD, "host", HOST);
    ThreeSteps(s, a, b, c);
    SeenByFilter(s);
    ResizedLookup(Step(Step(s, a), b), NewNode("host", NO_MEMORY));
    NoReserveLegal(s, a, b, c);
  }

  lemma SeenByFilter(s: State)
    requires s.cache == CacheState(map[], map[]) && "host" in s.nodes && s.nodes["host"] == NO_MEMORY
    ensures var s1 := Step(s, DoFilter(POD, "host", HOST));
            s1.nodes == s.nodes && "host" in s1.cache.nodes && s1.cache.nodes["host"] == NewNode("host", NO_MEMORY)
  {
  }

  lemma NoReserveLegal(s: State, a: Op, b: Op, c: Op)
    requires !a.DoReserve? && !b.DoReserve? && !c.DoReserve?
    ensures LegalRun(s, [a, b, c])
  {
  }

  lemma ResizedLookup(s: State, seen: NodeState)
    requires seen == NewNode("host", NO_MEMORY) && "host" in s.cache.nodes && s.cache.nodes["host"] == seen
    requires "host" in s.nodes && s.nodes["host"] == RESIZED
    ensures "host" in Step(s, DoFilter(POD, "host", HOST)).cache.nodes
    ensures Export(Step(s, DoFilter(POD, "host", HOST)).cache.nodes["host"]).gpuAllocatable == -1
  {
    BothFull();
    var n := ResetNode(seen, RESIZED);
    assert n.devs == BuildDevs(NO_MEMORY) && n.gpuCount == 1;
    assert Lookup(s.cache, s.nodes, "host").value.nodes["host"] == n;
  }

  // ----- an orderly run -----

  lemma OneReserve(a: Op, b: Op)
    requires a.DoReserve? && !b.DoReserve?
    ensures KeysTellPods([a, b])
  {
    forall k, u, v | WasReserved([a, b], k, u) && WasReserved([a, b], k, v)
      ensures u == v
    {
      assert [a, b][0] == a && [a, b][1] == b;
    }
  }

  lemma FirstReserved(s: State, a: Op)
    requires a.DoReserve? && Places(s, a.pod, a.nodeName)
    ensures ReservedKeys(s, [a]) == {Key(a.pod)}
  {
    assert [a][..0] == [] && Run(s, []) == s;
  }

  lemma ReserveBindOrderly(s: State, p: Pod, n: string)
    requires Initial(s) && Charges(s, p, n) && !HasPreset(p) && Legal(s, DoReserve(p, n, true))
    ensures Orderly(s, [DoReserve(p, n, true), DoBind(p, n)])
  {
    var a, b := DoReserve(p, n, true), DoBind(p, n);
    var ops := [a, b];
    OneReserve(a, b);
    FirstReserved(s, a);
    assert ops[..0] == [] && ops[..1] == [a];
    forall i | 0 <= i < |ops|
      ensures Legal(Run(s, ops[..i]), ops[i]) && Tidy(Run(s, ops[..i]), ops[i])
    {
      if i == 0 {
        assert ops[..i] == [];
      }
    }
  }

  lemma ReserveAndBind(s: State, p: Pod, n: string)
    requires Initial(s) && Charges(s, p, n) && !HasPreset(p) && (p.namespace, p.name) in s.store
    ensures var ops := [DoReserve(p, n, true), DoBind(p, n)];
            && Orderly(s, ops) && Run(s, ops).pending == map[]
            && (p.namespace, p.name) in Run(s, ops).store && Run(s, ops).store[(p.namespace, p.name)].nodeName == n
  {
    ReserveFirst(s, p, n, true);
    TwoSteps(s, DoReserve(p, n, true), DoBind(p, n));
    ReserveBindOrderly(s, p, n);
  }

  /** Orderly runs exist: one pod is reserved and bound. */
  lemma OrderlyRun()
    ensures var s := Fresh(map[("a", "bc") := POD]);
            var ops := [DoReserve(POD, "host", true), DoBind(POD, "host")];
            && Initial(s) && Orderly(s, ops) && Run(s, ops).pending == map[]
            && (forall key :: key in s.store ==> !Weighs(s.store[key]))
            && ("a", "bc") in Run(s, ops).store && Run(s, ops).store[("a", "bc")].nodeName == "host"
  {
    var s := Fresh(map[("a", "bc") := POD]);
    FreshOk(s.store);
    FirstPlaces(s, POD, "host");
    ReserveAndBind(s, POD, "host");
  }
}
