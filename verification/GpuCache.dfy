/** The cache as the program keeps it: objects updated in place.  `View` gives
    the value each object stands for in CacheModel, and every method is proved
    against the function of that value. */
module GpuCache {
  import opened Kube
  import opened IdStrings
  import opened Packing
  import opened Accounting
  import opened CacheModel

  class DeviceInfo {
    const idx: int
    const totalGpuMem: int
    const model: string
    var podMap: map<UID, Pod>

    constructor (idx: int, totalGpuMem: int, model: string)
      ensures View() == Device(idx, totalGpuMem, model, map[])
    {
      this.idx, this.totalGpuMem, this.model := idx, totalGpuMem, model;
      podMap := map[];
    }

    ghost function View(): Device
      reads this
    {
      Device(idx, totalGpuMem, model, podMap)
    }

    method AddPod(pod: Pod)
      modifies this
      ensures podMap == old(podMap)[pod.uid := pod]
    {
      podMap := podMap[pod.uid := pod];
    }

    method RemovePod(pod: Pod)
      modifies this
      ensures podMap == old(podMap) - {pod.uid}
    {
      podMap := podMap - {pod.uid};
    }

    /** Sum over the held pods, in whatever order the map yields them. */
    method GetUsedGpuMemory() returns (gpuMem: int)
      ensures gpuMem == Used(podMap, idx)
    {
      gpuMem := 0;
      var rest := podMap;
      while rest != map[]
        invariant gpuMem + SumPods(rest, ChargeTo(idx)) == Used(podMap, idx)
        decreases |rest|
      {
        var u := AnyKey(rest);
        SumPodsRemove(rest, u, ChargeTo(idx));
        var pod := rest[u];
        rest := rest - {u};
        if pod.Terminated() {
          continue;
        }
        var r := GpuIdStrToIntList(pod.gpuIndex);
        if r.BadId? {
          continue;
        }
        var charged := ChargedFor(r.ids, pod.gpuMem);
        gpuMem := gpuMem + charged;
      }
    }

    /** One addition per occurrence of this device in a pod's list. */
    method ChargedFor(idl: seq<int>, gpuMemPerGpu: int) returns (gpuMem: int)
      ensures gpuMem == gpuMemPerGpu * Times(idl, idx)
    {
      gpuMem := 0;
      for i := 0 to |idl|
        invariant gpuMem == gpuMemPerGpu * Times(idl[..i], idx)
      {
        ChargeStep(idl, i, idx, gpuMemPerGpu);
        if idl[i] == idx {
          gpuMem := gpuMem + gpuMemPerGpu;
        }
      }
      assert idl[..|idl|] == idl;
    }

    method ExportDeviceInfoBrief() returns (b: DeviceBrief)
      ensures b == Brief(View())
    {
      var podList: multiset<string> := multiset{};
      var rest := podMap;
      while rest != map[]
        invariant podList + PodNames(rest) == PodNames(podMap)
        decreases |rest|
      {
        var u := AnyKey(rest);
        PodNamesRemove(rest, u);
        podList := podList + multiset{ListedName(rest[u])};
        rest := rest - {u};
      }
      var used := GetUsedGpuMemory();
      b := DeviceBrief(idx, model, podList, TruncDiv(totalGpuMem, MI), TruncDiv(used, MI));
    }
  }

  class GpuNodeInfo {
    const name: string
    const model: string
    var node: Node
    var gpuCount: int
    var gpuTotalMemory: int
    var devs: map<int, DeviceInfo>
    ghost var state: NodeState  // the value this object stands for
    ghost var Repr: set<object>

    /** `state` says what the fields and the devices hold, and every device is
        filed under its own number. */
    ghost predicate Valid()
      reads this, Repr
    {
      && this in Repr && devs.Values <= Repr
      && state == NodeState(name, node, gpuCount, gpuTotalMemory, model, state.devs)
      && state.devs.Keys == devs.Keys
      && forall i :: i in devs ==> devs[i].idx == i && devs[i].View() == state.devs[i]
    }

    constructor (name: string, node: Node)
      ensures Valid() && fresh(Repr)
      ensures this.name == name && state == NewNode(name, node)
    {
      this.name, this.model, this.node := name, node.model, node;
      gpuCount, gpuTotalMemory := node.gpuCount, node.gpuMem;
      devs := map[];
      new;
      ghost var view;
      devs, view := NewDevices(node);
      state := NodeState(name, node, gpuCount, gpuTotalMemory, model, view);
      Repr := {this} + devs.Values;
    }

    static method NewDevices(node: Node) returns (devMap: map<int, DeviceInfo>, ghost view: map<int, Device>)
      ensures view == BuildDevs(node)
      ensures fresh(devMap.Values) && devMap.Keys == view.Keys
      ensures forall i :: i in devMap ==> devMap[i].idx == i && devMap[i].View() == view[i]
    {
      devMap, view := map[], BuildDevs(node);
      var i := 0;
      while i < node.gpuCount
        invariant 0 <= i && (i <= node.gpuCount || i == 0)
        invariant forall k :: k in devMap <==> 0 <= k < i
        invariant forall k :: k in devMap ==> fresh(devMap[k])
        invariant forall k :: k in devMap ==>
                                devMap[k].View() == Device(k, TruncDiv(node.gpuMem, node.gpuCount), node.model, map[])
      {
        var d := new DeviceInfo(i, TruncDiv(node.gpuMem, node.gpuCount), node.model);
        devMap := devMap[i := d];
        i := i + 1;
      }
      SameKeys(devMap, view);
    }

    method Reset(node: Node)
      requires Valid()
      modifies this
      ensures Valid() && fresh(Repr - old(Repr))
      ensures state == ResetNode(old(state), node)
    {
      assert |state.devs| == |devs| by { SameSize(state.devs, devs); }
      gpuCount := node.gpuCount;
      gpuTotalMemory := node.gpuMem;
      this.node := node;
      state := state.(node := node, gpuCount := node.gpuCount, gpuTotal := node.gpuMem);
      if |devs| == 0 && gpuCount > 0 {
        RebuildDevices();
      }
    }

    method RebuildDevices()
      requires Valid()
      modifies this`devs, this`state, this`Repr
      ensures Valid() && fresh(Repr - old(Repr))
      ensures state == old(state).(devs := BuildDevs(node))
    {
      ghost var view;
      devs, view := NewDevices(node);
      Repr := Repr + devs.Values;
      state := state.(devs := view);
    }

    method RemovePod(pod: Pod)
      requires Valid()
      modifies Repr
      ensures Valid() && Repr == old(Repr) && state == old(state).(devs := CacheModel.RemovePod(old(state).devs, pod))
    {
      ghost var was := state.devs;
      var r := GpuIdStrToIntList(pod.gpuIndex);
      var idl := if r.Ids? then r.ids else [];
      RemoveFromDevices(idl, pod, was);
      state := state.(devs := CacheModel.RemovePod(was, pod));
    }

    method RemoveFromDevices(idl: seq<int>, pod: Pod, ghost was: map<int, Device>)
      requires was.Keys == devs.Keys
      requires forall i :: i in devs ==> devs[i].View() == was[i] && devs[i].idx == i
      modifies devs.Values
      ensures forall i :: i in devs ==>
                            devs[i].View() == if i in idl then was[i].(pods := was[i].pods - {pod.uid}) else was[i]
    {
      for k := 0 to |idl|
        invariant forall i :: i in devs ==>
                                devs[i].View() == if i in idl[..k] then was[i].(pods := was[i].pods - {pod.uid}) else was[i]
      {
        assert idl[..k + 1] == idl[..k] + [idl[k]];
        var idx := idl[k];
        if idx in devs {
          devs[idx].RemovePod(pod);
          assert was[idx].pods - {pod.uid} - {pod.uid} == was[idx].pods - {pod.uid};
        }
      }
      assert idl[..|idl|] == idl;
    }

    method AddOrUpdatePod(pod: Pod) returns (added: bool)
      requires Valid()
      modifies Repr
      ensures Valid() && Repr == old(Repr) && state == old(state).(devs := CacheModel.AddPod(old(state).devs, pod))
      ensures added == Touches(old(state).devs, pod)
    {
      ghost var was := state.devs;
      var r := GpuIdStrToIntList(pod.gpuIndex);
      var idl := if r.Ids? then r.ids else [];
      added := AddToDevices(idl, pod, was);
      state := state.(devs := CacheModel.AddPod(was, pod));
    }

    method AddToDevices(idl: seq<int>, pod: Pod, ghost was: map<int, Device>) returns (added: bool)
      requires was.Keys == devs.Keys
      requires forall i :: i in devs ==> devs[i].View() == was[i] && devs[i].idx == i
      modifies devs.Values
      ensures added <==> exists i :: i in idl && i in was
      ensures forall i :: i in devs ==>
                            devs[i].View() == if i in idl then was[i].(pods := was[i].pods[pod.uid := pod]) else was[i]
    {
      added := false;
      for k := 0 to |idl|
        invariant added <==> exists i :: i in idl[..k] && i in was
        invariant forall i :: i in devs ==>
                                devs[i].View() == if i in idl[..k] then was[i].(pods := was[i].pods[pod.uid := pod]) else was[i]
      {
        assert idl[..k + 1] == idl[..k] + [idl[k]];
        var idx := idl[k];
        if idx in devs {
          devs[idx].AddPod(pod);
          added := true;
          assert idx in idl[..k + 1] && idx in was;
        }
      }
      assert idl[..|idl|] == idl;
    }

    method GetAllGpus() returns (allGpus: map<int, int>)
      requires Valid()
      ensures forall i :: i in allGpus <==> i in devs
      ensures forall i :: i in devs ==> allGpus[i] == devs[i].totalGpuMem
    {
      allGpus := map[];
      var rest := devs;
      while rest != map[]
        invariant forall i :: i in rest ==> i in devs && rest[i] == devs[i]
        invariant forall i :: i in allGpus <==> i in devs && i !in rest
        invariant forall i :: i in allGpus ==> allGpus[i] == devs[i].totalGpuMem
        decreases |rest|
      {
        var i := AnyKey(rest);
        allGpus := allGpus[rest[i].idx := rest[i].totalGpuMem];
        rest := rest - {i};
      }
    }

    method GetUsedGpus() returns (usedGpus: map<int, int>)
      requires Valid()
      ensures forall i :: i in usedGpus <==> i in devs
      ensures forall i :: i in devs ==> usedGpus[i] == Used(devs[i].podMap, i)
    {
      usedGpus := map[];
      var rest := devs;
      while rest != map[]
        invariant forall i :: i in rest ==> i in devs && rest[i] == devs[i]
        invariant forall i :: i in usedGpus <==> i in devs && i !in rest
        invariant forall i :: i in usedGpus ==> usedGpus[i] == Used(devs[i].podMap, i)
        decreases |rest|
      {
        var i := AnyKey(rest);
        var used := rest[i].GetUsedGpuMemory();
        usedGpus := usedGpus[rest[i].idx := used];
        rest := rest - {i};
      }
    }

    method GetAvailableGpus() returns (availableGpus: map<int, int>)
      requires Valid()
      ensures availableGpus == Avail(state.devs)
    {
      var allGpus := GetAllGpus();
      var usedGpus := GetUsedGpus();
      availableGpus := Subtract(allGpus, usedGpus);
      forall i | i in devs
        ensures availableGpus[i] == Avail(state.devs)[i]
      {
        assert devs[i].View() == state.devs[i];
      }
      SameIntKeys(availableGpus, devs);
      AvailKeys(state.devs);
      MapExtensional(availableGpus, Avail(state.devs));
    }

    /** total minus used, for every device that has a used figure. */
    static method Subtract(allGpus: map<int, int>, usedGpus: map<int, int>) returns (availableGpus: map<int, int>)
      ensures forall i :: i in availableGpus <==> i in allGpus && i in usedGpus
      ensures forall i :: i in availableGpus ==> availableGpus[i] == allGpus[i] - usedGpus[i]
    {
      availableGpus := map[];
      var rest := allGpus;
      while rest != map[]
        invariant forall i :: i in rest ==> i in allGpus && rest[i] == allGpus[i]
        invariant forall i :: i in availableGpus <==> i in allGpus && i !in rest && i in usedGpus
        invariant forall i :: i in availableGpus ==> availableGpus[i] == allGpus[i] - usedGpus[i]
        decreases |rest|
      {
        var id := AnyKey(rest);
        if id in usedGpus {
          availableGpus := availableGpus[id := rest[id] - usedGpus[id]];
        }
        rest := rest - {id};
      }
    }

    /** Wants a different device for each GPU. */
    method Assume(pod: Pod) returns (allocatable: bool)
      requires Valid()
      ensures allocatable <==> Roomy(Avail(state.devs), |devs|, pod.gpuMem) >= 1
                               && Roomy(Avail(state.devs), |devs|, pod.gpuMem) >= pod.gpuCount
    {
      var availableGpus := GetAvailableGpus();
      allocatable := CountRoomy(availableGpus, |devs|, pod.gpuMem, pod.gpuCount);
    }

    static method CountRoomy(availableGpus: map<int, int>, n: nat, reqGpuMem: int, count: nat) returns (allocatable: bool)
      ensures allocatable <==> Roomy(availableGpus, n, reqGpuMem) >= 1 && Roomy(availableGpus, n, reqGpuMem) >= count
    {
      allocatable := false;
      var reqGpuNum: int := count;
      RoomyEmpty(n, reqGpuMem);
      if |availableGpus| > 0 {
        for devId := 0 to n
          invariant reqGpuNum == count - Roomy(availableGpus, devId, reqGpuMem)
          invariant Roomy(availableGpus, devId, reqGpuMem) >= 1 ==> reqGpuNum > 0
        {
          if devId in availableGpus && availableGpus[devId] >= reqGpuMem {
            reqGpuNum := reqGpuNum - 1;
            if reqGpuNum <= 0 {
              RoomyGrows(availableGpus, devId + 1, n, reqGpuMem);
              allocatable := true;
              break;
            }
          }
        }
      }
    }

    /** Reads the node only; the result is the function Allocate of its state. */
    method AllocateGpuId(pod: Pod) returns (candDevId: string, found: bool)
      requires Valid()
      ensures found == Allocate(state.devs, pod).Some?
      ensures candDevId == if found then Allocate(state.devs, pod).value else ""
    {
      var availableGpus := GetAvailableGpus();
      SameSize(state.devs, devs);
      candDevId, found := ChooseDevices(availableGpus, |devs|, pod);
    }

    static method ChooseDevices(availableGpus: map<int, int>, n: nat, pod: Pod) returns (candDevId: string, found: bool)
      ensures found == Choose(availableGpus, n, pod).Some?
      ensures candDevId == if found then Choose(availableGpus, n, pod).value else ""
    {
      candDevId, found := "", false;
      if pod.gpuMem <= 0 || pod.gpuCount <= 0 {
        return;
      }
      if |availableGpus| <= 0 {
        return;
      }
      if pod.gpuIndex != "" {
        var r := GpuIdStrToIntList(pod.gpuIndex);
        ParsedIdsNonNegative(pod.gpuIndex);
        if r.Ids? && |r.ids| > 0 {
          return pod.gpuIndex, true;
        }
      }
      if pod.gpuCount == 1 {
        candDevId, found := FindTightestFit(availableGpus, n, pod.gpuMem);
      } else {
        candDevId, found := FindPacking(availableGpus, n, pod.gpuMem, pod.gpuCount);
      }
    }

    method ExportGpuNodeInfoAsNodeGpuInfo() returns (info: NodeGpuInfo)
      requires Valid()
      ensures info == Export(state)
    {
      var devsBrief, gpuAllocatable, numPods := ExportDevices(devs, state.devs, gpuCount);
      info := NodeGpuInfo(devsBrief, gpuCount, gpuAllocatable, model, TruncDiv(gpuTotalMemory, MI), numPods);
    }

    static method ExportDevices(devs: map<int, DeviceInfo>, ghost view: map<int, Device>, gpuCount: int)
      returns (devsBrief: map<int, DeviceBrief>, gpuAllocatable: int, numPods: nat)
      requires view.Keys == devs.Keys && forall i :: i in devs ==> view[i] == devs[i].View()
      ensures devsBrief == Briefs(view)
      ensures gpuAllocatable == gpuCount - |FullDevices(Briefs(view))|
      ensures numPods == |Incidences(view)|
    {
      devsBrief, gpuAllocatable, numPods := map[], gpuCount, 0;
      var rest := devs;
      ghost var done: map<int, Device> := map[];
      while rest != map[]
        invariant rest.Keys <= devs.Keys && forall i :: i in rest ==> rest[i] == devs[i]
        invariant done == view - rest.Keys
        invariant devsBrief == Briefs(done)
        invariant gpuAllocatable == gpuCount - |FullDevices(devsBrief)|
        invariant numPods == |Incidences(done)|
        decreases |rest|
      {
        var idx := AnyKey(rest);
        var dib := rest[idx].ExportDeviceInfoBrief();
        ExportOneMore(done, idx, view[idx]);
        if Full(dib) {
          gpuAllocatable := gpuAllocatable - 1;
        }
        devsBrief := devsBrief[idx := dib];
        numPods := numPods + |dib.podList|;
        MapTakeBack(view, rest.Keys, idx);
        done := done[idx := view[idx]];
        rest := rest - {idx};
      }
      assert done == view;
    }
  }

  lemma MapTakeBack<V>(m: map<int, V>, without: set<int>, k: int)
    requires k in m && k in without
    ensures m - (without - {k}) == (m - without)[k := m[k]]
  {
  }

  /** Exporting one more device extends the export by its own share. */
  lemma ExportOneMore(devs: map<int, Device>, idx: int, d: Device)
    requires idx !in devs
    ensures Briefs(devs[idx := d]) == Briefs(devs)[idx := Brief(d)]
    ensures |FullDevices(Briefs(devs[idx := d]))| == |FullDevices(Briefs(devs))| + if Full(Brief(d)) then 1 else 0
    ensures |Incidences(devs[idx := d])| == |Incidences(devs)| + |d.pods|
  {
    MapExtensional(Briefs(devs[idx := d]), Briefs(devs)[idx := Brief(d)]);
    FullDevicesAdd(Briefs(devs), idx, Brief(d));
    IncidencesAdd(devs, idx, d);
  }

  function Tagged(us: set<UID>, idx: int): set<(int, UID)> {
    set u | u in us :: (idx, u)
  }

  lemma {:induction false} TaggedSize(us: set<UID>, idx: int)
    ensures |Tagged(us, idx)| == |us|
    decreases |us|
  {
    if us != {} {
      var v :| v in us;
      TaggedSize(us - {v}, idx);
      assert Tagged(us, idx) == Tagged(us - {v}, idx) + {(idx, v)};
    }
  }

  lemma IncidencesSplit(devs: map<int, Device>, idx: int, d: Device)
    requires idx !in devs
    ensures Incidences(devs[idx := d]) == Incidences(devs) + Tagged(d.pods.Keys, idx)
    ensures Incidences(devs) !! Tagged(d.pods.Keys, idx)
  {
  }

  lemma IncidencesAdd(devs: map<int, Device>, idx: int, d: Device)
    requires idx !in devs
    ensures |Incidences(devs[idx := d])| == |Incidences(devs)| + |d.pods|
  {
    IncidencesSplit(devs, idx, d);
    TaggedSize(d.pods.Keys, idx);
  }

  lemma FullDevicesAdd(briefs: map<int, DeviceBrief>, idx: int, b: DeviceBrief)
    requires idx !in briefs
    ensures |FullDevices(briefs[idx := b])| == |FullDevices(briefs)| + if Full(b) then 1 else 0
  {
    if Full(b) {
      assert FullDevices(briefs[idx := b]) == FullDevices(briefs) + {idx};
    } else {
      assert FullDevices(briefs[idx := b]) == FullDevices(briefs);
    }
  }
}
