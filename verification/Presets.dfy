/** Pods that bring their own device annotation: they are accepted without a
    capacity check, and exactly when that oversubscribes a device. */
module Presets {
  import opened Kube
  import opened Packing
  import opened Accounting
  import opened CacheModel
  import opened CacheInvariant
  import opened PluginModel
  import opened Protocol
  import opened Capacity
  import opened Guarantees
  import opened Entries

  /** A valid preset is taken as it is, whatever is idle. */
  lemma PresetTaken(avail: map<int, int>, n: nat, p: Pod)
    requires HasPreset(p)
    ensures Choose(avail, n, p) ==
            if p.gpuMem > 0 && p.gpuCount > 0 && avail != map[] then Some(p.gpuIndex) else None
  {
  }

  /** What the pod asks of each device it names fits the device's idle memory. */
  ghost predicate FitsIdle(devs: map<int, Device>, p: Pod) {
    forall d :: d in PodIds(p) && d in devs ==> Charge(p, d) <= devs[d].total - Used(devs[d].pods, d)
  }

  /** Charging a pod keeps the devices of a node within their totals if and
      only if what it asks fits the idle memory. */
  lemma ChargedWithinIff(devs: map<int, Device>, p: Pod)
    requires DevsWithin(devs)
    requires forall d :: d in devs ==> p.uid !in devs[d].pods
    ensures DevsWithin(AddPod(devs, p)) <==> FitsIdle(devs, p)
  {
    forall d | d in devs
      ensures WithinTotal(AddPod(devs, p)[d], d) <==>
              (d in PodIds(p) ==> Charge(p, d) <= devs[d].total - Used(devs[d].pods, d))
    {
      assert WithinTotal(devs[d], d);
      if d in PodIds(p) {
        SumPodsAdd(devs[d].pods, p.uid, p, ChargeTo(d));
        assert p.uid in devs[d].pods[p.uid := p];
      }
    }
    if DevsWithin(AddPod(devs, p)) {
      forall d | d in PodIds(p) && d in devs
        ensures Charge(p, d) <= devs[d].total - Used(devs[d].pods, d)
      {
        assert WithinTotal(AddPod(devs, p)[d], d);
      }
    }
  }

  // ----- Reserve -----

  ghost predicate AllWithin(c: CacheState) {
    forall n :: n in c.nodes ==> DevsWithin(c.nodes[n].devs)
  }

  /** If Reserve files and charges a copy, what the copy asks fits the idle
      memory of the node as Reserve finds it. */
  ghost predicate Meets(s: State, p: Pod, n: string) {
    Places(s, p, n) && n != "" ==> FitsIdle(Lookup(s.cache, s.nodes, n).value.nodes[n].devs, CopyFor(s, p, n).value)
  }

  lemma LookupWithin(s: State, n: string)
    requires StateOk(s) && AllWithin(s.cache) && n in s.nodes
    ensures Lookup(s.cache, s.nodes, n).Some? && AllWithin(Lookup(s.cache, s.nodes, n).value)
  {
    LookupKeeps(s.cache, s.nodes, n);
    forall i | i in BuildDevs(s.nodes[n])
      ensures WithinTotal(BuildDevs(s.nodes[n])[i], i)
    {
      assert BuildDevs(s.nodes[n])[i].pods == map[];
    }
    assert DevsWithin(Found(s.cache, n, s.nodes[n]).devs);
  }

  lemma AddedWithinIff(c: CacheState, copy: Pod)
    requires CacheOk(c) && AllWithin(c) && copy.nodeName in c.nodes && copy.uid !in c.known
    ensures AllWithin(Added(c, copy)) <==> FitsIdle(c.nodes[copy.nodeName].devs, copy)
  {
    var devs := c.nodes[copy.nodeName].devs;
    FreshNotHeld(c, copy.nodeName, copy.uid);
    ChargedWithinIff(devs, copy);
    assert Added(c, copy).nodes == c.nodes[copy.nodeName := c.nodes[copy.nodeName].(devs := AddPod(devs, copy))];
    if AllWithin(Added(c, copy)) {
      assert DevsWithin(Added(c, copy).nodes[copy.nodeName].devs);
    }
  }

  /** Reserve of a pod that is not cached keeps every device of the cache within
      its total if and only if what it charges fits. */
  lemma ReserveWithinIffMeets(s: State, p: Pod, n: string, updated: bool)
    requires StateOk(s) && AllWithin(s.cache) && Legal(s, DoReserve(p, n, updated))
    ensures AllWithin(Reserve(s, p, n, updated).state.cache) <==> Meets(s, p, n)
  {
    if p.gpuMem > 0 && n in s.nodes {
      LookupWithin(s, n);
      ReserveIs(s, p, n, updated);
      if CopyFor(s, p, n).Some? {
        CopyIsPlaced(s, p, n);
        ReservedState(s, p, n, updated);
        if n != "" {
          AddedWithinIff(Lookup(s.cache, s.nodes, n).value, CopyFor(s, p, n).value);
        }
      }
    }
  }

  /** A pod without a preset always meets it. */
  lemma PresetFreeMeets(s: State, p: Pod, n: string)
    requires StateOk(s) && !HasPreset(p)
    ensures Meets(s, p, n)
  {
    if Places(s, p, n) {
      CopyIsPlaced(s, p, n);
      LookupState(s, n);
      var c, copy := Lookup(s.cache, s.nodes, n).value, CopyFor(s, p, n).value;
      CopyFits(c, p, n);
      forall d | d in PodIds(copy) && d in c.nodes[n].devs
        ensures Charge(copy, d) <= c.nodes[n].devs[d].total - Used(c.nodes[n].devs[d].pods, d)
      {
        FitsCharge(Avail(c.nodes[n].devs), |c.nodes[n].devs|, copy, d);
      }
    }
  }

  /** What a caller can check beforehand: a valid preset that Reserve would take
      asks no device it names for more, counting repeats, than is idle. */
  ghost predicate PresetFits(s: State, p: Pod, n: string) {
    HasPreset(p) && p.gpuMem > 0 && p.gpuCount > 0 && n != "" && Lookup(s.cache, s.nodes, n).Some? ==>
      var c := Lookup(s.cache, s.nodes, n).value;
      n in c.nodes &&
      forall d :: d in PodIds(p) && d in c.nodes[n].devs ==>
                    p.gpuMem * Times(PodIds(p), d) <= c.nodes[n].devs[d].total - Used(c.nodes[n].devs[d].pods, d)
  }

  /** With a preset Reserve files the preset, whenever the node has a device. */
  lemma PresetCopy(s: State, p: Pod, n: string)
    requires StateOk(s) && n in s.nodes && HasPreset(p) && p.gpuMem > 0 && p.gpuCount > 0
    ensures Lookup(s.cache, s.nodes, n).Some? && n in Lookup(s.cache, s.nodes, n).value.nodes
    ensures CopyFor(s, p, n) == if Lookup(s.cache, s.nodes, n).value.nodes[n].devs == map[] then None
                                else Some(Placed(p, n, p.gpuIndex))
  {
    LookupState(s, n);
    var devs := Lookup(s.cache, s.nodes, n).value.nodes[n].devs;
    PresetTaken(Avail(devs), |devs|, p);
    AvailKeys(devs);
    if devs == map[] {
      assert Avail(devs) == map[];
    }
  }

  /** The condition on the copy Reserve files is the caller's. */
  lemma MeetsIffPresetFits(s: State, p: Pod, n: string)
    requires StateOk(s)
    ensures Meets(s, p, n) <==> PresetFits(s, p, n)
  {
    if !HasPreset(p) {
      PresetFreeMeets(s, p, n);
    } else if p.gpuMem > 0 && p.gpuCount > 0 && n in s.nodes && n != "" {
      PresetCopy(s, p, n);
      var devs, copy := Lookup(s.cache, s.nodes, n).value.nodes[n].devs, Placed(p, n, p.gpuIndex);
      forall d | d in PodIds(p)
        ensures Charge(copy, d) == p.gpuMem * Times(PodIds(p), d)
      {
      }
    }
  }

  /** So Reserve of a pod that is not cached keeps every device of the cache
      within its total if and only if the pod has no preset that asks too much. */
  lemma ReserveWithinIff(s: State, p: Pod, n: string, updated: bool)
    requires StateOk(s) && AllWithin(s.cache) && Legal(s, DoReserve(p, n, updated))
    ensures AllWithin(Reserve(s, p, n, updated).state.cache) <==> PresetFits(s, p, n)
  {
    ReserveWithinIffMeets(s, p, n, updated);
    MeetsIffPresetFits(s, p, n);
  }

  // ----- whole runs -----

  lemma RemovedWithin(c: CacheState, q: Pod)
    requires CacheOk(c) && AllWithin(c) && q.nodeName in c.nodes && q.gpuMem > 0
    requires q.uid in c.known ==> c.known[q.uid] == q
    ensures AllWithin(Removed(c, q))
  {
    HeldAsKnown(c, q);
    RemoveDevsWithin(c.nodes[q.nodeName].devs, q);
  }

  lemma PublishWithin(s: State, n: string, updated: bool)
    requires StateOk(s) && AllWithin(s.cache)
    ensures AllWithin(Publish(s, n, updated).state.cache)
  {
    if n in s.nodes {
      LookupWithin(s, n);
    }
  }

  lemma UnreserveWithin(s: State, p: Pod, n: string, updated: bool)
    requires StateOk(s) && Asking(s) && AllWithin(s.cache)
    ensures AllWithin(Unreserve(s, p, n, updated).cache)
  {
    if Key(p) in s.pending {
      var q := s.pending[Key(p)];
      assert EntryOk(s, Key(p));
      RemoveState(s, Key(p));
      LookupWithin(s, q.nodeName);
      LookupState(s, q.nodeName);
      var c := Lookup(s.cache, s.nodes, q.nodeName).value;
      assert EntryOk(s.(cache := c), Key(p));
      RemovedWithin(c, q);
      PublishWithin(s.(cache := Remove(s.cache, s.nodes, q)), n, updated);
    }
  }

  ghost predicate OpFits(s: State, op: Op) {
    op.DoReserve? ==> PresetFits(s, op.pod, op.nodeName)
  }

  lemma StepWithinIff(s: State, op: Op)
    requires StateOk(s) && Asking(s) && AllWithin(s.cache) && Legal(s, op)
    ensures AllWithin(Step(s, op).cache) <==> OpFits(s, op)
  {
    if op.DoFilter? {
      if op.nodeName in s.nodes {
        LookupWithin(s, op.nodeName);
      }
    } else if op.DoReserve? {
      ReserveWithinIff(s, op.pod, op.nodeName, op.updated);
    } else if op.DoUnreserve? {
      UnreserveWithin(s, op.pod, op.nodeName, op.updated);
    } else {
      OtherEntries(s, op);
    }
  }

  lemma RunStepWithinIff(s: State, ops: seq<Op>, i: nat)
    requires Initial(s) && LegalRun(s, ops) && i < |ops| && AllWithin(Run(s, ops[..i]).cache)
    ensures AllWithin(Run(s, ops[..i + 1]).cache) <==> OpFits(Run(s, ops[..i]), ops[i])
  {
    PrefixLegal(s, ops, i);
    RunEntries(s, ops[..i]);
    RunSplit(s, ops, i);
    assert Legal(Run(s, ops[..i]), ops[i]);
    StepWithinIff(Run(s, ops[..i]), ops[i]);
  }

  lemma {:induction false} RunWithin(s: State, ops: seq<Op>, i: nat)
    requires Initial(s) && LegalRun(s, ops) && i <= |ops|
    requires forall j :: 0 <= j < i ==> OpFits(Run(s, ops[..j]), ops[j])
    ensures AllWithin(Run(s, ops[..i]).cache)
  {
    if i == 0 {
      assert ops[..0] == [];
    } else {
      var h := i - 1;
      RunWithin(s, ops, h);
      RunStepWithinIff(s, ops, h);
    }
  }

  /** With presets allowed, a legal run keeps every device within its total all
      the time if and only if each Reserve of a pod with a preset finds room for
      it. */
  lemma NeverOversubscribedIff(s: State, ops: seq<Op>)
    requires Initial(s) && LegalRun(s, ops)
    ensures (forall i :: 0 <= i <= |ops| ==> AllWithin(Run(s, ops[..i]).cache)) <==>
            (forall i :: 0 <= i < |ops| ==> OpFits(Run(s, ops[..i]), ops[i]))
  {
    if forall i :: 0 <= i < |ops| ==> OpFits(Run(s, ops[..i]), ops[i]) {
      forall i | 0 <= i <= |ops|
        ensures AllWithin(Run(s, ops[..i]).cache)
      {
        RunWithin(s, ops, i);
      }
    }
    if forall i :: 0 <= i <= |ops| ==> AllWithin(Run(s, ops[..i]).cache) {
      forall i | 0 <= i < |ops|
        ensures OpFits(Run(s, ops[..i]), ops[i])
      {
        assert AllWithin(Run(s, ops[..i]).cache) && AllWithin(Run(s, ops[..i + 1]).cache);
        RunStepWithinIff(s, ops, i);
      }
    }
  }
}
