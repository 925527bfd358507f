/** When the allocator chooses devices and what a pod is charged for, written
    out in the pod's own fields. */
module AllocationMeaning {
  import opened Kube
  import opened IdStrings
  import opened Packing
  import opened Accounting
  import opened CacheModel
  import opened Guarantees

  /** A succeeded or failed pod is charged nowhere, nor is one whose annotation
      does not parse; any other is charged its memory on a device once per
      occurrence of the device in its annotation. */
  lemma ChargeMeaning(p: Pod, d: int)
    ensures p.phase == Succeeded || p.phase == Failed ==> Charge(p, d) == 0
    ensures ParseIds(p.gpuIndex).BadId? ==> Charge(p, d) == 0
    ensures (p.phase == Pending || p.phase == Running) && ParseIds(p.gpuIndex).Ids? ==>
              Charge(p, d) == p.gpuMem * multiset(ParseIds(p.gpuIndex).ids)[d]
  {
    if ParseIds(p.gpuIndex).BadId? {
      assert Times([], d) == 0;
    }
  }

  /** A pod whose annotation does not parse is filed on no device and taken from
      none. */
  lemma UnparsableTouchesNothing(devs: map<int, Device>, p: Pod)
    requires ParseIds(p.gpuIndex).BadId?
    ensures AddPod(devs, p) == devs && RemovePod(devs, p) == devs && !Touches(devs, p)
  {
    assert PodIds(p) == [];
    forall i | i in devs
      ensures AddPod(devs, p)[i] == devs[i] && RemovePod(devs, p)[i] == devs[i]
    {
      assert i !in PodIds(p);
    }
    MapExtensional(AddPod(devs, p), devs);
    MapExtensional(RemovePod(devs, p), devs);
  }

  /** An annotation that does not parse counts like none. */
  lemma InvalidPresetIgnored(avail: map<int, int>, n: nat, p: Pod)
    requires ParseIds(p.gpuIndex).BadId?
    ensures Choose(avail, n, p) == Choose(avail, n, p.(gpuIndex := ""))
  {
  }

  /** The allocator chooses exactly if the pod asks for memory and for GPUs, the
      node has a device, and the pod brings an annotation that parses, which is
      then the choice, or some list of as many devices as GPUs fits the idle
      memory. */
  lemma ChooseIff(avail: map<int, int>, n: nat, p: Pod)
    ensures Choose(avail, n, p).Some? <==>
            && p.gpuMem > 0 && p.gpuCount > 0 && avail != map[]
            && ((p.gpuIndex != "" && ParseIds(p.gpuIndex).Ids?)
                || exists ids :: |ids| == p.gpuCount && Fits(avail, n, p.gpuMem, ids))
    ensures Choose(avail, n, p).Some? && p.gpuIndex != "" && ParseIds(p.gpuIndex).Ids? ==>
              Choose(avail, n, p).value == p.gpuIndex
  {
    if p.gpuMem > 0 && p.gpuCount > 0 && avail != map[] && !HasPreset(p) {
      Threshold(avail, n, p);
      PlacementExists(avail, n, p.gpuMem, p.gpuCount);
    }
  }

  /** What Assume counts: the devices with the asked memory idle. */
  lemma {:induction false} RoomyCounts(avail: map<int, int>, n: nat, mem: int)
    ensures Roomy(avail, n, mem) == |set d | 0 <= d < n && d in avail && avail[d] >= mem|
  {
    if n > 0 {
      RoomyCounts(avail, n - 1, mem);
      var before := set d | 0 <= d < n - 1 && d in avail && avail[d] >= mem;
      var all := set d | 0 <= d < n && d in avail && avail[d] >= mem;
      if n - 1 in avail && avail[n - 1] >= mem {
        assert all == before + {n - 1};
      } else {
        assert all == before;
      }
    }
  }
}
