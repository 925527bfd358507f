/** What the published export says, in terms of the devices' idle memory and
    pods and of the server's node, rounding included. */
module ExportMeaning {
  import opened Kube
  import opened Accounting
  import opened CacheModel
  import opened CacheInvariant
  import opened PluginModel
  import opened Protocol
  import opened Entries
  import opened Publication

  // ----- figures in MiB -----

  /** The printed figure is the amount in whole MiB, rounded down. */
  lemma PrintedMi(amount: int)
    requires amount >= 0
    ensures TruncDiv(amount, MI) * 1048576 <= amount < TruncDiv(amount, MI) * 1048576 + 1048576
  {
  }

  lemma PrintedFigures(n: NodeState, d: int)
    requires Layout(n.devs) && d in n.devs && 0 <= Used(n.devs[d].pods, d) && 0 <= n.devs[d].total && 0 <= n.gpuTotal
    ensures var info := Export(n);
            && d in info.devsBrief
            && info.devsBrief[d].usedMi * 1048576 <= Used(n.devs[d].pods, d) < info.devsBrief[d].usedMi * 1048576 + 1048576
            && info.devsBrief[d].totalMi * 1048576 <= n.devs[d].total < info.devsBrief[d].totalMi * 1048576 + 1048576
            && info.gpuTotalMi * 1048576 <= n.gpuTotal < info.gpuTotalMi * 1048576 + 1048576
  {
    PrintedMi(Used(n.devs[d].pods, d));
    PrintedMi(n.devs[d].total);
    PrintedMi(n.gpuTotal);
  }

  // ----- the allocatable count -----

  /** The devices with less than one MiB idle, and those with nothing idle. */
  ghost function Scarce(devs: map<int, Device>): set<int> {
    set d | d in devs && devs[d].total - Used(devs[d].pods, d) < 1048576
  }

  ghost function Exhausted(devs: map<int, Device>): set<int> {
    set d | d in devs && devs[d].total <= Used(devs[d].pods, d)
  }

  /** A device with a MiB idle counts as allocatable; one with nothing idle does
      not. */
  lemma FullBetween(n: NodeState, d: int)
    requires Layout(n.devs) && d in n.devs && 0 <= Used(n.devs[d].pods, d)
    ensures Full(Export(n).devsBrief[d]) ==> d in Scarce(n.devs)
    ensures d in Exhausted(n.devs) ==> Full(Export(n).devsBrief[d])
  {
    if n.devs[d].total - Used(n.devs[d].pods, d) >= 1048576 {
      PrintedMi(Used(n.devs[d].pods, d));
      PrintedMi(n.devs[d].total);
    }
    if n.devs[d].total <= Used(n.devs[d].pods, d) {
      TruncDivMonotone(n.devs[d].total, Used(n.devs[d].pods, d), MI);
    }
  }

  /** The allocatable count leaves out every device with nothing idle, and none
      with a MiB idle. */
  lemma AllocatableBetween(n: NodeState)
    requires Layout(n.devs) && forall d :: d in n.devs ==> 0 <= Used(n.devs[d].pods, d)
    ensures n.gpuCount - |Scarce(n.devs)| <= Export(n).gpuAllocatable <= n.gpuCount - |Exhausted(n.devs)|
  {
    var full := FullDevices(Briefs(n.devs));
    forall d | d in n.devs
      ensures d in full ==> d in Scarce(n.devs)
      ensures d in Exhausted(n.devs) ==> d in full
    {
      FullBetween(n, d);
    }
    assert full <= Scarce(n.devs) && Exhausted(n.devs) <= full;
    SubsetSize(full, Scarce(n.devs));
    SubsetSize(Exhausted(n.devs), full);
  }

  /** So it is in every state of every legal run. */
  lemma AllocatableBetweenInRuns(s: State, ops: seq<Op>, name: string)
    requires Initial(s) && LegalRun(s, ops) && name in Run(s, ops).cache.nodes
    ensures var n := Run(s, ops).cache.nodes[name];
            n.gpuCount - |Scarce(n.devs)| <= Export(n).gpuAllocatable <= n.gpuCount - |Exhausted(n.devs)|
  {
    RunEntries(s, ops);
    var c := Run(s, ops).cache;
    assert NodeOk(c.nodes[name], name, c.known);
    forall d | d in c.nodes[name].devs
      ensures 0 <= Used(c.nodes[name].devs[d].pods, d)
    {
      NodeUsedNonNegative(c, name, d);
    }
    AllocatableBetween(c.nodes[name]);
  }

  // ----- the listed pods -----

  /** The pods of a device whose namespace and name read so. */
  function Reading(pods: map<UID, Pod>, text: string): set<UID> {
    set u | u in pods && Reads(pods[u], text)
  }

  predicate Reads(p: Pod, text: string) {
    p.namespace + ":" + p.name == text
  }

  lemma ReadingRemove(pods: map<UID, Pod>, u: UID, text: string)
    requires u in pods
    ensures |Reading(pods, text)| == |Reading(pods - {u}, text)| + if Reads(pods[u], text) then 1 else 0
  {
    var rest := Reading(pods - {u}, text);
    if Reads(pods[u], text) {
      assert Reading(pods, text) == rest + {u};
    } else {
      assert Reading(pods, text) == rest;
    }
  }

  lemma OneMoreText(a: string, m: multiset<string>, text: string)
    ensures (multiset{a} + m)[text] == m[text] + if a == text then 1 else 0
  {
  }

  /** A text is listed as often as there are held pods it reads. */
  lemma {:induction false} PodListMeaning(pods: map<UID, Pod>, text: string)
    ensures PodNames(pods)[text] == |Reading(pods, text)|
    decreases |pods|
  {
    if pods == map[] {
      assert Reading(pods, text) == {};
    } else {
      var u :| u in pods;
      PodNamesRemove(pods, u);
      OneMoreText(ListedName(pods[u]), PodNames(pods - {u}), text);
      ReadingRemove(pods, u, text);
      PodListMeaning(pods - {u}, text);
      assert ListedName(pods[u]) == text <==> Reads(pods[u], text);
    }
  }

  // ----- the whole export over runs -----

  /** The figures of a current record. */
  lemma CurrentFigures(n: NodeState, node: Node, d: int)
    requires Current(n, node) && Layout(n.devs) && d in n.devs && node.gpuMem >= 0
    ensures 0 <= d < node.gpuCount && d in Export(n).devsBrief
    ensures Export(n).gpuModel == node.model && Export(n).gpuCount == node.gpuCount
    ensures Export(n).gpuTotalMi * 1048576 <= node.gpuMem < Export(n).gpuTotalMi * 1048576 + 1048576
    ensures var b, share := Export(n).devsBrief[d], node.gpuMem / node.gpuCount;
            b.idx == d && b.model == node.model && b.totalMi * 1048576 <= share < b.totalMi * 1048576 + 1048576
  {
    PrintedMi(node.gpuMem);
    DivMonotone(0, node.gpuMem, node.gpuCount);
    PrintedMi(node.gpuMem / node.gpuCount);
  }

  /** In every state of every steady run the export of a node gives the server's
      card model and GPU count, the node's memory in MiB, and for each device
      its number, the model, its equal share in MiB, and the pods it holds. */
  lemma ExportOfNode(s: State, ops: seq<Op>, name: string, d: int, text: string)
    requires Initial(s) && SteadyRun(s, ops) && name in Run(s, ops).cache.nodes && name in Run(s, ops).nodes
    requires Run(s, ops).nodes[name].gpuMem >= 0 && d in Run(s, ops).cache.nodes[name].devs
    ensures var now := Run(s, ops);
            var node, info := now.nodes[name], Export(now.cache.nodes[name]);
            && info.gpuModel == node.model && info.gpuCount == node.gpuCount > 0
            && info.gpuTotalMi * 1048576 <= node.gpuMem < info.gpuTotalMi * 1048576 + 1048576
            && d in info.devsBrief && 0 <= d < node.gpuCount
            && var b := info.devsBrief[d];
            && b.idx == d && b.model == node.model
            && b.totalMi * 1048576 <= node.gpuMem / node.gpuCount < b.totalMi * 1048576 + 1048576
            && b.podList[text] == |Reading(now.cache.nodes[name].devs[d].pods, text)|
  {
    PublishedIsExport(s, ops);
    var now := Run(s, ops);
    var n := now.cache.nodes[name];
    assert Current(n, now.nodes[name]) && NodeOk(n, name, now.cache.known);
    CurrentFigures(n, now.nodes[name], d);
    PodListMeaning(n.devs[d].pods, text);
    assert Export(n).devsBrief[d].podList == PodNames(n.devs[d].pods);
  }
}
