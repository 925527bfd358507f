/** The scheduler cache as values: nodes, their GPU devices, and the pods each
    device holds, with every cache operation as a function on them. */
module CacheModel {
  import opened Kube
  import opened IdStrings
  import opened Packing
  import opened Accounting

  datatype Device = Device(idx: int, total: int, model: string, pods: map<UID, Pod>)

  datatype NodeState = NodeState(
    name: string,
    node: Node,
    gpuCount: int,
    gpuTotal: int,
    model: string,
    devs: map<int, Device>)

  datatype CacheState = CacheState(nodes: map<string, NodeState>, known: map<UID, Pod>)

  // ----- building and finding a node -----

  function BuildDevs(node: Node): map<int, Device> {
    map i: int | 0 <= i < node.gpuCount :: Device(i, TruncDiv(node.gpuMem, node.gpuCount), node.model, map[])
  }

  /** A map whose keys are 0 .. n-1 has n entries. */
  lemma {:induction false} RangeSize<V>(m: map<int, V>, n: nat)
    requires forall i :: i in m <==> 0 <= i < n
    ensures |m| == n
  {
    if n == 0 {
      if m != map[] {
        var k := SomeKey(m);
      }
    } else {
      RangeSize(m - {n - 1}, n - 1);
      assert |m| == |m - {n - 1}| + 1;
    }
  }

  /** Devices are numbered 0 .. k-1 and each knows its number. */
  ghost predicate Numbered(devs: map<int, Device>) {
    && (forall i :: i in devs <==> 0 <= i < |devs|)
    && (forall i :: i in devs ==> devs[i].idx == i)
  }

  lemma NumberedSame(a: map<int, Device>, b: map<int, Device>)
    requires Numbered(a) && a.Keys == b.Keys && forall i :: i in a ==> a[i].idx == b[i].idx
    ensures Numbered(b) && |a| == |b|
  {
    SameSize(a, b);
  }

  lemma SameKeys<K, V, W>(a: map<K, V>, b: map<K, W>)
    requires forall k :: k in a <==> k in b
    ensures a.Keys == b.Keys
  {
  }

  lemma SameIntKeys<V, W>(a: map<int, V>, b: map<int, W>)
    requires forall i: int :: i in a <==> i in b
    ensures a.Keys == b.Keys
  {
    assert forall i :: i in a.Keys <==> i in b.Keys;
  }

  lemma SameSize<K, V, W>(a: map<K, V>, b: map<K, W>)
    requires a.Keys == b.Keys
    ensures |a| == |b|
  {
    assert |a.Keys| == |a| && |b.Keys| == |b|;
  }

  function NewNode(name: string, node: Node): NodeState {
    NodeState(name, node, node.gpuCount, node.gpuMem, node.model, BuildDevs(node))
  }

  /** Refresh the counts; rebuild the devices only when there are none. */
  function ResetNode(n: NodeState, node: Node): NodeState {
    n.(node := node, gpuCount := node.gpuCount, gpuTotal := node.gpuMem,
    devs := if |n.devs| == 0 && node.gpuCount > 0 then BuildDevs(node) else n.devs)
  }

  predicate Stale(n: NodeState) {
    |n.devs| == 0 || n.node.gpuMem <= 0 || n.node.gpuCount <= 0
  }

  /** The cache after GetGpuNodeInfo(name), None when the server has no such node. */
  function Lookup(c: CacheState, nodes: map<string, Node>, name: string): Option<CacheState> {
    if name !in nodes then None
    else if name !in c.nodes then Some(c.(nodes := c.nodes[name := NewNode(name, nodes[name])]))
    else if Stale(c.nodes[name]) then Some(c.(nodes := c.nodes[name := ResetNode(c.nodes[name], nodes[name])]))
    else Some(c)
  }

  // ----- adding and removing a pod -----

  function AddPod(devs: map<int, Device>, p: Pod): map<int, Device> {
    map i | i in devs :: if i in PodIds(p) then devs[i].(pods := devs[i].pods[p.uid := p]) else devs[i]
  }

  function RemovePod(devs: map<int, Device>, p: Pod): map<int, Device> {
    map i | i in devs :: if i in PodIds(p) then devs[i].(pods := devs[i].pods - {p.uid}) else devs[i]
  }

  predicate Touches(devs: map<int, Device>, p: Pod) {
    exists d :: d in PodIds(p) && d in devs
  }

  function WithDevs(c: CacheState, name: string, devs: map<int, Device>): CacheState
    requires name in c.nodes
  {
    c.(nodes := c.nodes[name := c.nodes[name].(devs := devs)])
  }

  /** None stands for the error of an unknown node. */
  function AddOrUpdate(c: CacheState, nodes: map<string, Node>, p: Pod): Option<CacheState> {
    if p.nodeName == "" then Some(c)
    else
      match Lookup(c, nodes, p.nodeName)
      case None => None
      case Some(c1) =>
        var devs := c1.nodes[p.nodeName].devs;
        var c2 := WithDevs(c1, p.nodeName, AddPod(devs, p));
        Some(if Touches(devs, p) then c2.(known := c2.known[p.uid := p]) else c2)
  }

  function Remove(c: CacheState, nodes: map<string, Node>, p: Pod): CacheState {
    var c1 :=
      match Lookup(c, nodes, p.nodeName)
      case None => c
      case Some(c1) => WithDevs(c1, p.nodeName, RemovePod(c1.nodes[p.nodeName].devs, p));
    c1.(known := c1.known - {p.uid})
  }

  // ----- allocation -----

  /** Idle memory per device. */
  ghost function Avail(devs: map<int, Device>): map<int, int> {
    map i | i in devs :: devs[i].total - Used(devs[i].pods, i)
  }

  lemma AvailKeys(devs: map<int, Device>)
    ensures Avail(devs).Keys == devs.Keys
  {
    SameKeys(Avail(devs), devs);
  }

  predicate HasPreset(p: Pod) {
    p.gpuIndex != "" && ParseIds(p.gpuIndex).Ids?
  }

  /** The device annotation chosen for a pod given the idle memory of devices
      0 .. n-1, None when nothing fits. */
  function Choose(avail: map<int, int>, n: nat, p: Pod): Option<string> {
    if p.gpuMem <= 0 || p.gpuCount == 0 || avail == map[] then None
    else if HasPreset(p) then Some(p.gpuIndex)
    else if p.gpuCount == 1 then
      match TightestFit(avail, n, p.gpuMem)
      case Some(d) => Some(Itoa(d))
      case None => None
    else
      var g := Pack(avail, 0, n, p.gpuMem, p.gpuCount);
      if |g| == p.gpuCount then Some(JoinIds(g)) else None
  }

  ghost function Allocate(devs: map<int, Device>, p: Pod): Option<string> {
    Choose(Avail(devs), |devs|, p)
  }

  // ----- the published export -----

  datatype DeviceBrief = DeviceBrief(idx: int, model: string, podList: multiset<string>, totalMi: int, usedMi: int)

  datatype NodeGpuInfo = NodeGpuInfo(
    devsBrief: map<int, DeviceBrief>,
    gpuCount: int,
    gpuAllocatable: int,
    gpuModel: string,
    gpuTotalMi: int,
    numPods: nat)

  const MI: int := 1024 * 1024

  function ListedName(p: Pod): string {
    p.namespace + ":" + p.name
  }

  /** The listed pods of a device, as many times as they are held. */
  ghost function PodNames(pods: map<UID, Pod>): (names: multiset<string>)
    ensures |names| == |pods|
  {
    if pods == map[] then multiset{}
    else
      var u :| u in pods;
      multiset{ListedName(pods[u])} + PodNames(pods - {u})
  }

  lemma {:induction false} PodNamesRemove(pods: map<UID, Pod>, u: UID)
    requires u in pods
    ensures PodNames(pods) == multiset{ListedName(pods[u])} + PodNames(pods - {u})
    decreases |pods|
  {
    var first :| first in pods && PodNames(pods) == multiset{ListedName(pods[first])} + PodNames(pods - {first});
    if first != u {
      var rest := pods - {first} - {u};
      assert rest == pods - {u} - {first};
      PodNamesRemove(pods - {first}, u);
      PodNamesRemove(pods - {u}, first);
      MultisetSwap(multiset{ListedName(pods[first])}, multiset{ListedName(pods[u])}, PodNames(rest));
    }
  }

  lemma MultisetSwap(a: multiset<string>, b: multiset<string>, c: multiset<string>)
    ensures a + (b + c) == b + (a + c)
  {
  }

  ghost function Brief(d: Device): DeviceBrief {
    DeviceBrief(d.idx, d.model, PodNames(d.pods), TruncDiv(d.total, MI), TruncDiv(Used(d.pods, d.idx), MI))
  }

  predicate Full(b: DeviceBrief) {
    b.usedMi >= b.totalMi
  }

  function FullDevices(briefs: map<int, DeviceBrief>): set<int> {
    set i | i in briefs && Full(briefs[i])
  }

  /** The (device, pod) pairs of a node. */
  function Incidences(devs: map<int, Device>): set<(int, UID)> {
    set i, u | i in devs && u in devs[i].pods :: (i, u)
  }

  ghost function Briefs(devs: map<int, Device>): map<int, DeviceBrief> {
    map i | i in devs :: Brief(devs[i])
  }

  ghost function Export(n: NodeState): NodeGpuInfo {
    NodeGpuInfo(Briefs(n.devs), n.gpuCount, n.gpuCount - |FullDevices(Briefs(n.devs))|, n.model,
                TruncDiv(n.gpuTotal, MI), |Incidences(n.devs)|)
  }
}
