# A verified model of the GPU-share scheduler simulation

The simulator places pods on a fake cluster. Its GPU plugin shares each GPU of
a node among pods: a pod asks for memory per GPU and for a number of GPUs, the
allocator writes its choice of devices as text such as `0-0-2` into a pod
annotation, and every device later parses that text back to know what it has
given away. This project models that plugin, the loop that feeds pods to the
scheduler, the generation of pods, and the normalisation of scores, in Dafny,
and proves what they promise.

## How it is laid out

| module | what it holds |
|---|---|
| Kube | pods, nodes, 64-bit bounds, truncating division |
| IdStrings | printing and parsing of device lists |
| Packing | the two searches, as loops and as functions, and what is best about their answers |
| Accounting | charges and order-free sums over pods and devices |
| CacheModel, PluginModel | cache operations and plugin steps as functions on values; runs of steps |
| CacheInvariant, Protocol | the index invariant and that every step keeps it |
| Entries, Binding | how steps change the filed copies, when a filed copy is charged, what Bind writes, pods that share a key |
| Capacity, Presets | no oversubscription, conservation of memory, and exactly when presets break the bound |
| GpuReport | the report's figure over the server's pods against what the devices count |
| Guarantees, Undo, Publication, DeviceLayout | the placement threshold, undo, re-adding, published annotation, Filter against Reserve, device layout |
| Outcomes, AllocationMeaning, ExportMeaning | what each call answers, when a choice is made and what is charged, and what the export says, in the pods' and nodes' own fields |
| Witnesses | concrete states and runs for everything the code does not keep |
| GpuCache, GpuPlugin | the classes with their fields and maps updated in place, each method proved equal to a function or step above |
| Rendezvous, SecondUpdate | two threads on an unbuffered channel; why each pod must get exactly one update |
| Verdicts | rejections and taken names in literal conditions, texts, namespaces and names |
| Simulation, Report | whole simulations; the server's list and the report |
| DaemonSetPinning | pods made by rewriting one shared affinity object |
| FanOut, FanOutMeaning | expansion of workloads, batches, goroutines under a mutex; what is returned, counted in pods |
| NormalizeScore | rescaling in 64-bit arithmetic |

The state machine in PluginModel has the four plugin calls and the environment
as steps: nodes may appear or be resized, pods may be created, rewritten or
deleted at any time. A run is any list of steps. `LegalRun` asks two things of
the scheduler: a UID is not cached when it is reserved, and a copy already filed
for it is filed under the same key, namespace and name joined. `PresetFreeRun` asks further that no reserved
pod brings a device annotation that parses. `SteadyRun` asks instead that nodes
are not resized.

## Where the code is not what one would expect

- A parseable preset is accepted without a capacity check.
  `Witnesses.PresetOversubscribes` gives an input. `Presets.ReserveWithinIff`
  says exactly when one Reserve keeps the bound and
  `Presets.NeverOversubscribedIff` exactly when a whole run does.
- Adding a UID again with other devices leaves the old entries behind.
  `Guarantees.ReAddKeepsIndexIff` says exactly when the index survives, and
  `Witnesses.ReservedTwice` shows two Reserves after which it does not.
- Unreserve has no guard on what the Reserve before it did. After a Reserve that
  filed nothing, for a pod that fits nowhere or asks for no GPU, it takes away
  whatever is charged under the pod's key. `Undo.UnreserveUndoesIff` says exactly
  when it undoes the Reserve, `Binding.UnreserveTakesOthersIff` exactly when it
  hits another pod, and `Witnesses.BareUndo` is a run in which it does.
- Unreserve leaves the copy filed. A second Unreserve does no harm
  (`Undo.UnreserveTwice`), but a Bind after it succeeds and writes a placed
  pod that no device is charged for: `Witnesses.UnreservedBind` is such a run.
  `Binding.EntryChargedIff` and `Binding.EntryReservedIff` say exactly when a
  filed copy is charged, and `Binding.EveryBoundPodCharged` is what holds when
  the scheduler binds only what it has reserved and not taken back.
- The map of filed copies joins namespace and name without a separator.
  `Binding.BindWritesOwnIff` says, after any legal run, exactly when a Bind writes
  the pod it was called for, and `Binding.BindsOwnCopy` that it does when keys
  tell the reserved pods apart. With a shared key, Bind of the first pod writes
  the second (`Witnesses.SharedKeyBind`), and Unreserve of the first takes the
  second's charge away and leaves the first charged for ever
  (`Binding.SharedKeyUnreserve`, `Witnesses.SharedKeyUndo`).
- The cache starts empty, so GPU pods already placed on the server count in the
  report and not on the devices. `GpuReport.ReportAgrees` says under which
  discipline the two figures agree.
- A node resized after it was cached without memory keeps its old devices and
  takes the new count: `Witnesses.ResizedExport` publishes -1 allocatable GPUs.
  `Publication.AllocatableBounds` needs no more than that the record has at most
  as many devices as GPUs.
- Filter compares total memory and Reserve does not.
  `Publication.FilterIffReserve` gives the exact relation for every pod and
  snapshot; for pods without a preset and capacities of today the comparison
  turns nobody away (`Publication.FilterPredictsReserve`).
- A pod without a node that belongs to another scheduler, or gets no update,
  makes the main loop wait for ever. `DeadlockIff` says exactly when,
  `DeadlockIffSilent` says so in terms of names and pods alone, and
  `StrangerDeadlocks` is a one-pod example.
- A second update of a pod releases the loop for the next one and can leave it
  the wrong reason: `SecondUpdate.ConcreteMisled` is such a run, and
  `SecondUpdate.QuietIffOneEach` says that exactly one update each leaves nothing
  behind. With at most one each there is one run of each length
  (`Rendezvous.OneOrder`), and the results on the rendezvous are about it.
- Scaling a score range by a hundred can wrap around, and so can the range.
  `ExactIffFits` and `ListExactIff` say exactly when the result is still exact,
  for a range and for a list, and `TooWide` gives an input. The first value of
  `highest` is minus the greatest integer, one above the least;
  `BoundsFoundIff` says when that matters, and the results show that it does
  not.
- A required node selector without terms is not pinned by the rewriting; pod
  validation refuses it, so `NoTermsNoPods`.

## Model

| member | source | states |
|---|---|---|
| IdStrings.GpuIdStrToIntList | pkg/type/open-gpu-share/utils/pod.go:101-114 | The parser: the indices of a dash-separated annotation, or an error with the indices read before the bad piece. |
| IdStrings.AtoiItoa | pkg/type/open-gpu-share/cache/gpunodeinfo.go:261 | A device number printed in decimal reads back as itself. |
| IdStrings.AtoiTexts | pkg/type/open-gpu-share/utils/pod.go:106-112 | Which pieces are numbers: digits with an optional plus sign; no empty piece, no lone sign, no other character. |
| IdStrings.RoundTrip | pkg/type/open-gpu-share/cache/gpunodeinfo.go:280-286 | Parsing the dash-joined text of any non-empty list of device numbers gives that list back, repeats and order included. |
| IdStrings.ParsedIdsNonNegative | pkg/type/open-gpu-share/utils/pod.go:101-114 | On every string the parser yields no negative index, and on a non-empty string that parses it yields at least one. |
| Packing.FindTightestFit | pkg/type/open-gpu-share/cache/gpunodeinfo.go:255-267 | The one-GPU loop finds what the upward scan for the tightest fit finds. |
| Packing.FindPacking | pkg/type/open-gpu-share/cache/gpunodeinfo.go:268-287 | The two-pointer loop and the printing after it produce the joined text of the greedy packing, or nothing when it is too short. |
| Packing.TightestFitIsBest | pkg/type/open-gpu-share/cache/gpunodeinfo.go:255-267 | A device is found iff some device has room; it has the least idle memory of those with room, and the lowest index on ties. |
| Packing.PackLength | pkg/type/open-gpu-share/cache/gpunodeinfo.go:268-287 | The greedy loop takes exactly min(count, sum over devices of floor(idle / request)) entries. |
| Packing.PackRange | pkg/type/open-gpu-share/cache/gpunodeinfo.go:268-287 | The list it takes is non-decreasing and names only devices of the node. |
| Packing.PackFits | pkg/type/open-gpu-share/cache/gpunodeinfo.go:268-287 | No device is asked for more than its idle memory, counting repeats. |
| Packing.PlacementExists | pkg/type/open-gpu-share/cache/gpunodeinfo.go:268-287 | A placement of the requested length exists iff the floors of idle over request add up to the count. |
| Packing.PackComplete | pkg/type/open-gpu-share/cache/gpunodeinfo.go:268-287 | The greedy loop succeeds iff any placement exists, whatever order or repeats it would use. |
| Packing.PackIsLexLeast | pkg/type/open-gpu-share/cache/gpunodeinfo.go:268-287 | Among all placements of that length the greedy answer is the lexicographically least. |
| Packing.SlotsMonotone | pkg/type/open-gpu-share/cache/gpunodeinfo.go:268-287 | The feasibility sum survives a smaller positive request and more idle memory. |
| Packing.RoomyAtMostSlots | pkg/type/open-gpu-share/cache/gpunodeinfo.go:143-166 | Devices with room, which is what Assume counts, never outnumber the slots the allocator can fill. |
| AllocationMeaning.RoomyCounts | pkg/type/open-gpu-share/cache/gpunodeinfo.go:155-163 | What Assume counts is the number of devices with the asked memory idle. |
| Accounting.SumPodsRemove | pkg/type/open-gpu-share/cache/deviceinfo.go:48-65 | The used-memory sum over a pod map does not depend on the order the map yields its pods. |
| Accounting.Conservation | pkg/apply/apply.go:471-476 | Summed over devices 0..n-1 and over pods, charges add up to memory times count, an exchange of two sums with repeated indices. |
| GpuCache.DeviceInfo.GetUsedGpuMemory | pkg/type/open-gpu-share/cache/deviceinfo.go:45-67 | The loop over the pod map, with its skips and one addition per occurrence, returns the order-free sum of charges. |
| AllocationMeaning.ChargeMeaning | pkg/type/open-gpu-share/cache/deviceinfo.go:48-65 | A succeeded or failed pod and one with an annotation that does not parse are charged nothing; any other its memory once per occurrence of the device. |
| AllocationMeaning.UnparsableTouchesNothing | pkg/type/open-gpu-share/cache/gpunodeinfo.go:104-140 | A pod whose annotation does not parse is filed on no device and taken from none. |
| GpuCache.DeviceInfo.AddPod | pkg/type/open-gpu-share/cache/deviceinfo.go:69-75 | Files the pod under its UID and changes nothing else. |
| GpuCache.DeviceInfo.RemovePod | pkg/type/open-gpu-share/cache/deviceinfo.go:77-83 | Removes exactly that UID. |
| GpuCache.DeviceInfo.ExportDeviceInfoBrief | pkg/type/open-gpu-share/cache/deviceinfo.go:93-101 | The brief of a device: listed pods as a multiset, total and used memory truncated to MiB. |
| GpuCache.GpuNodeInfo.constructor | pkg/type/open-gpu-share/cache/gpunodeinfo.go:34-56 | A new record has one empty device per GPU, each with the truncated quotient of the node memory. |
| GpuCache.GpuNodeInfo.Reset | pkg/type/open-gpu-share/cache/gpunodeinfo.go:59-73 | Refreshes node, count and total; devices are rebuilt only when there are none. |
| GpuCache.GpuNodeInfo.RemovePod | pkg/type/open-gpu-share/cache/gpunodeinfo.go:104-119 | Removes the UID from every device the annotation names and from no other. |
| GpuCache.GpuNodeInfo.AddOrUpdatePod | pkg/type/open-gpu-share/cache/gpunodeinfo.go:122-140 | Files the pod in every device its annotation names; reports whether any of them exists. |
| GpuCache.GpuNodeInfo.GetAvailableGpus | pkg/type/open-gpu-share/cache/gpunodeinfo.go:292-330 | Idle memory of every device, computed through three passes over maps in any order. |
| GpuCache.GpuNodeInfo.Assume | pkg/type/open-gpu-share/cache/gpunodeinfo.go:143-166 | True iff at least one device has room and at least as many as GPUs are asked for. |
| GpuCache.GpuNodeInfo.AllocateGpuId | pkg/type/open-gpu-share/cache/gpunodeinfo.go:232-290 | Leaves the node as it is and returns the choice for its idle memory: presets first, then the tightest fit or the packing. |
| AllocationMeaning.ChooseIff | pkg/type/open-gpu-share/cache/gpunodeinfo.go:232-290 | A choice is made iff the pod asks for memory and GPUs, the node has a device, and the pod has an annotation that parses, then taken as it is, or some list of that many devices fits the idle memory. |
| AllocationMeaning.InvalidPresetIgnored | pkg/type/open-gpu-share/cache/gpunodeinfo.go:247-253 | An annotation that does not parse counts like none. |
| GpuCache.GpuNodeInfo.ExportGpuNodeInfoAsNodeGpuInfo | pkg/type/open-gpu-share/cache/gpunodeinfo.go:354-368 | The export of the node, its loop ranging over the devices in any order. |
| ExportMeaning.AllocatableBetween | pkg/type/open-gpu-share/cache/gpunodeinfo.go:354-368 | The allocatable count leaves out every device with nothing idle and none with a MiB idle. |
| ExportMeaning.AllocatableBetweenInRuns | pkg/type/open-gpu-share/cache/gpunodeinfo.go:354-368 | The same in every state of every legal run. |
| ExportMeaning.PrintedFigures | pkg/type/open-gpu-share/cache/deviceinfo.go:98-99 | The printed used and total memory of a device, and the total of the node, are the amounts in whole MiB, rounded down. |
| ExportMeaning.PodListMeaning | pkg/type/open-gpu-share/cache/deviceinfo.go:94-97 | A device lists namespace:name as often as it holds pods of that namespace and name. |
| ExportMeaning.ExportOfNode | pkg/type/open-gpu-share/cache/gpunodeinfo.go:354-368 | Over steady runs the export gives the server's card model, GPU count and memory, and for each device its number, model, equal share and held pods. |
| GpuPlugin.SchedulerCache.GetGpuNodeInfo | pkg/type/open-gpu-share/cache/cache.go:115-147 | Builds, refreshes or just finds the record of a node; an error only for a node the server lacks. |
| GpuPlugin.SchedulerCache.AddOrUpdatePod | pkg/type/open-gpu-share/cache/cache.go:81-100 | The whole cache after adding a pod; the pod becomes known iff some device took it. |
| GpuPlugin.SchedulerCache.RemovePod | pkg/type/open-gpu-share/cache/cache.go:103-112 | The whole cache after removing a pod; its UID is forgotten even when the node is unknown. |
| GpuPlugin.GpuSharePlugin.Filter | pkg/simulator/plugin/open-gpu-share.go:51-81 | The object performs the Filter step of the state machine, early exit on total memory included. |
| GpuPlugin.GpuSharePlugin.MakePodCopyReadyForBindUpdate | pkg/simulator/plugin/open-gpu-share.go:270-286 | The copy carries the chosen devices, the node name and the running phase; no copy when nothing fits. |
| GpuPlugin.GpuSharePlugin.Publish | pkg/simulator/plugin/open-gpu-share.go:163-187 | The node annotation becomes the export of the cached node iff the server accepts the update. |
| GpuPlugin.GpuSharePlugin.Reserve | pkg/simulator/plugin/open-gpu-share.go:147-188 | The object performs the Reserve step on the copy map, the cache and the server annotations. |
| GpuPlugin.GpuSharePlugin.Unreserve | pkg/simulator/plugin/open-gpu-share.go:191-221 | The object performs the Unreserve step; the copy stays filed. |
| GpuPlugin.GpuSharePlugin.Bind | pkg/simulator/plugin/open-gpu-share.go:225-245 | The object performs the Bind step; the copy leaves the map iff the server took it. |
| Outcomes.FilterOutcome | pkg/simulator/plugin/open-gpu-share.go:51-81 | Success for a pod that asks for no GPU memory, with nothing changed; for another iff the snapshot covers it and Reserve then places it; otherwise Unschedulable, never Error. |
| Outcomes.ReserveOutcome | pkg/simulator/plugin/open-gpu-share.go:147-188 | Success for a pod that asks for no GPU memory, with nothing changed; for another iff the server has the node, the allocator finds devices and the update is accepted; otherwise Error. |
| Outcomes.BindOutcome | pkg/simulator/plugin/open-gpu-share.go:225-245 | Skip iff the pod asks for no GPU memory; Success iff a copy is filed and stands on the server, which is then no longer filed; otherwise Error with nothing changed. |
| Outcomes.OutcomesInRuns | pkg/simulator/plugin/open-gpu-share.go:51-245 | All three in every state of every legal run. |
| Protocol.StepKeeps | pkg/simulator/plugin/open-gpu-share.go:147-245 | Every step keeps the invariant that ties device maps, known pods and filed copies together. |
| Protocol.IndexAgreement | pkg/type/open-gpu-share/cache/cache.go:81-112 | In every state of every run, device d of node n holds a UID iff the known pod of that UID is on n and names d, and it holds that very pod; known pods are the union of the device maps. |
| Capacity.ChoiceFits | pkg/type/open-gpu-share/cache/gpunodeinfo.go:232-290 | A choice made without a preset parses to as many indices as GPUs asked, all devices of the node, within idle memory. |
| Capacity.NoOversubscription | pkg/simulator/plugin/open-gpu-share.go:147-245 | After any interleaving of Filter, Reserve, Unreserve, Bind and outside changes, without presets, every device uses between 0 and its total. |
| Capacity.MemoryConserved | pkg/type/open-gpu-share/cache/deviceinfo.go:45-67 | In every such state, used memory summed over a node equals memory times count summed over the pods the cache knows there. |
| GpuReport.RunLinked | pkg/simulator/plugin/open-gpu-share.go:147-245 | In orderly runs every known pod is filed or stands on the server as charged, and every placed GPU pod of the server is charged for good. |
| GpuReport.ReportAgrees | pkg/apply/apply.go:471-476 | So at the end of an orderly run with nothing charged still filed, the report's sum over the server's pods of a node is what its devices count. |
| Witnesses.OrderlyRun | pkg/simulator/plugin/open-gpu-share.go:147-245 | One pod reserved and bound is such a run. |
| Presets.ReserveWithinIff | pkg/simulator/plugin/open-gpu-share.go:147-160 | Reserve of a pod that is not cached keeps every device of the cache within its total iff the pod has no preset it would take that asks a named device, counting repeats, for more than is idle. |
| Presets.PresetFreeMeets | pkg/type/open-gpu-share/cache/gpunodeinfo.go:255-287 | A pod without a preset always fits, so only presets can break the bound. |
| Presets.NeverOversubscribedIff | pkg/simulator/plugin/open-gpu-share.go:147-245 | A legal run with presets keeps every device within its total in all its states iff each Reserve of a pod with a preset finds that room. |
| Witnesses.PresetOversubscribes | pkg/type/open-gpu-share/cache/gpunodeinfo.go:247-250 | A concrete preset pod passes Filter and Reserve and leaves a device of 8 units with 10 used. |
| Guarantees.Threshold | pkg/type/open-gpu-share/cache/gpunodeinfo.go:255-287 | Without a preset both branches succeed under one condition, the sum of floors reaching the count. |
| Guarantees.ThresholdMonotone | pkg/type/open-gpu-share/cache/gpunodeinfo.go:255-287 | A placement survives a smaller request, a smaller count and more idle memory, also across the two branches. |
| Guarantees.AssumeImpliesPlacement | pkg/type/open-gpu-share/cache/gpunodeinfo.go:143-166 | What Assume accepts the allocator places, for positive requests. |
| Guarantees.UnreserveUndoesReserve | pkg/simulator/plugin/open-gpu-share.go:147-221 | Unreserve right after a Reserve that filed a copy gives back exactly the cache of that lookup, for repeated indices too; a second Unreserve changes nothing. |
| Undo.UnreserveUndoesIff | pkg/simulator/plugin/open-gpu-share.go:147-221 | For every legal Reserve, placing or not, and any node named: Unreserve after it restores all devices and known pods iff the Reserve placed the pod or its key holds no charged copy. |
| Undo.UnreserveTwice | pkg/simulator/plugin/open-gpu-share.go:191-221 | A second Unreserve of a pod changes no device and no known pod, whatever came before. |
| Witnesses.BareUndo | pkg/simulator/plugin/open-gpu-share.go:191-200 | Reserve of ab/c, then Reserve and Unreserve of a/bc, which asks for no GPU: no pod is charged any more. |
| Guarantees.ReAddKeepsIndexIff | pkg/type/open-gpu-share/cache/gpunodeinfo.go:122-140 | Adding a UID that is already cached keeps the index iff the new copy reaches no device, or stays on the node and covers every device held. |
| Witnesses.ReservedTwice | pkg/type/open-gpu-share/cache/gpunodeinfo.go:122-140 | Two Reserves of one UID with devices 0 and 1 of one host: device 0 still holds the pod, the known copy names device 1. |
| Entries.RunEntries | pkg/simulator/plugin/open-gpu-share.go:147-245 | Every legal run keeps: no UID is filed twice, filed and known pods ask for memory, and a filed UID is known exactly under the charged keys. |
| Binding.EntryChargedIff | pkg/simulator/plugin/open-gpu-share.go:147-221 | In every legal run, presets included, the UID of a filed copy is known iff the last step that filed or took back its key charged a device. |
| Binding.EntryReservedIff | pkg/simulator/plugin/open-gpu-share.go:147-221 | Without presets: iff the last placing Reserve or Unreserve of that key was the Reserve. |
| Binding.BindWritesCharged | pkg/simulator/plugin/open-gpu-share.go:225-245 | A successful Bind in any legal run writes the filed copy; the cache holds its UID in exactly the devices its annotation names if the key is charged, and in no device if not. |
| Binding.FiledForLast | pkg/simulator/plugin/open-gpu-share.go:147-160 | In every legal run a filed copy is of the pod last placed under its key. |
| Binding.BindWritesOwnIff | pkg/simulator/plugin/open-gpu-share.go:225-245 | After any legal run a successful Bind writes the pod it was called for iff that pod is the last one placed under its key. |
| Binding.BindsOwnCopy | pkg/simulator/plugin/open-gpu-share.go:288-290 | When reserved pods with different UIDs have different keys, every successful Bind of a reserved pod writes that pod. |
| Binding.UnreserveTakesOthersIff | pkg/simulator/plugin/open-gpu-share.go:191-200 | After any legal run an Unreserve takes another pod's charge iff its key is charged for a pod other than the one it is called for. |
| Binding.SharedKeyUnreserve | pkg/simulator/plugin/open-gpu-share.go:191-221 | When two charged pods share a key, Unreserve of the first removes the charge of the second and leaves the first charged with no entry to take it out. |
| Witnesses.SharedKeyBind | pkg/simulator/plugin/open-gpu-share.go:225-245 | A legal run without presets on two concrete pods, a/bc and ab/c: Bind of the first leaves it as created and the second placed. |
| Witnesses.SharedKeyUndo | pkg/simulator/plugin/open-gpu-share.go:191-221 | The same pair: after Unreserve of the first, only the first is known. |
| Binding.BoundStaysCharged | pkg/simulator/plugin/open-gpu-share.go:225-245 | In every legal run a pod that a Bind wrote under a charged key is charged ever after as it was written. |
| Binding.EveryBoundPodCharged | pkg/simulator/plugin/open-gpu-share.go:225-245 | Without presets, when the scheduler binds only what it reserved and has not taken back, every pod any Bind wrote is charged at the end as written. |
| Binding.BindAfterUnreserve | pkg/simulator/plugin/open-gpu-share.go:191-245 | Otherwise: after Unreserve a Bind still succeeds and writes a placed pod that no device holds. |
| Witnesses.UnreservedBind | pkg/simulator/plugin/open-gpu-share.go:191-245 | A concrete legal run without presets that ends so. |
| Publication.NumPodsMeaning | pkg/type/open-gpu-share/cache/gpunodeinfo.go:354-368 | NumPods counts the pairs of a device and a known pod of the node naming it. |
| Publication.AllocatableBounds | pkg/type/open-gpu-share/cache/gpunodeinfo.go:354-368 | The allocatable count is at most the GPU count, and not negative if the record has no more devices than GPUs. |
| Publication.AllocatableBoundsInRuns | pkg/type/open-gpu-share/cache/gpunodeinfo.go:354-368 | In every state of every steady run it lies between 0 and the GPU count, for nodes with a non-negative count. |
| Witnesses.ResizedExport | pkg/type/open-gpu-share/cache/cache.go:115-147 | A node resized from two GPUs without memory to one with memory: its export has -1 allocatable GPUs. |
| Publication.AllocatableIsIdle | pkg/type/open-gpu-share/cache/deviceinfo.go:93-101 | A device not counted full after rounding to MiB has idle memory. |
| Publication.PublishedIsExport | pkg/simulator/plugin/open-gpu-share.go:163-221 | Over whole runs without resized nodes each node annotation equals the export of the current devices, except where the latest update was refused or an Unreserve that named another node took a charge away. |
| Publication.FilterIffReserve | pkg/simulator/plugin/open-gpu-share.go:51-81 | For every GPU pod, presets included, and every snapshot: Filter passes iff the snapshot covers the request and Reserve then succeeds, with the choice it would have made before Filter. |
| Publication.FilterIffReserveInRuns | pkg/simulator/plugin/open-gpu-share.go:51-81 | The same in every state of every legal run, resized nodes included; Filter keeps all devices of cached nodes. |
| Publication.FilterPredictsReserve | pkg/simulator/plugin/open-gpu-share.go:61-67 | For a pod without a preset and current capacities, Filter passes iff Reserve succeeds: the early exit turns nobody away. |
| Publication.FilterPredictsReserveInRuns | pkg/simulator/plugin/open-gpu-share.go:61-67 | The same in every state of every steady run, whatever presets earlier pods brought. |
| DeviceLayout.LayoutReached | pkg/type/open-gpu-share/cache/gpunodeinfo.go:34-73 | Devices are numbered 0..k-1 and were built, with equal shares, from a node object the server held at some point of the run; totals fall short of its memory by less than k. |
| DeviceLayout.LookupMeaning | pkg/type/open-gpu-share/cache/cache.go:115-147 | A record with devices whose node object had memory and GPUs is left as it is; any other takes the server's node, count and memory, and devices where it had none; nothing else changes. |
| DeviceLayout.LookupKeepsHolders | pkg/type/open-gpu-share/cache/cache.go:115-147 | Getting a node never drops or changes a cached device, even after the node was resized. |
| Rendezvous.ScanConditions | pkg/simulator/simulator.go:449-468 | The scan leaves the text of the first unschedulable condition, or none. |
| Rendezvous.ReasonRecognised | pkg/simulator/simulator.go:333 | The text the handler writes always contains the word the loop looks for. |
| Verdicts.ReasonOfMeaning | pkg/simulator/simulator.go:449-466 | The scan leaves nothing, or the pod's namespace and name and the message of the first condition with the literals PodScheduled, False and Unschedulable. |
| Verdicts.MessageTold | pkg/simulator/simulator.go:465 | Different messages give different texts. |
| Verdicts.RejectedIff | pkg/simulator/simulator.go:453-466 | A pod is rejected iff it came without a node and its update has such a condition. |
| Verdicts.RejectedRecords | pkg/simulator/simulator.go:333-341 | Every recorded failure is one of the pods with the text of its own names and its own update's message. |
| Verdicts.ContainsIff | pkg/simulator/simulator.go:333 | The text check finds a part iff it stands somewhere in the text. |
| Verdicts.LiteralReason | pkg/simulator/simulator.go:333-341 | A run of one pod ns/web with the message 0/1 nodes are available: the recorded text in full. |
| Verdicts.ConflictIff | pkg/simulator/simulator.go:323 | Creating a pod meets a taken name iff a pod on the server before, or an earlier kept one, has the same namespace and the same name. |
| Verdicts.EndsIff | pkg/simulator/simulator.go:318-347 | When pods differ in namespace or name, the loop passes all of them iff each one without a node names the scheduler default-scheduler and gets an update. |
| Verdicts.TwinTaken | pkg/simulator/simulator.go:323-325 | A second pod of one namespace and name stops the loop with an error when the first was kept. |
| Verdicts.TwoNamespaces | pkg/simulator/simulator.go:318-347 | A run of pods ns1/web and ns2/web: both are created and kept. |
| Rendezvous.NextKeeps | pkg/simulator/simulator.go:318-347 | Every step of loop, scheduler and handler keeps the invariant: one update in flight, for the pod the loop is on. |
| Rendezvous.StopReasonIsCurrent | pkg/simulator/simulator.go:449-468 | In every state of every run a stop reason that is set is the one of the pod the loop is on. |
| Rendezvous.RunsEnd | pkg/simulator/simulator.go:318-347 | No run has more than six steps per pod plus five. |
| Rendezvous.RunsAgree | pkg/simulator/simulator.go:318-347 | Every run that cannot go on ends as the sequential reading says: failed pods are exactly the rejected ones, in order, each with its own reason. |
| Rendezvous.DeadlockIff | pkg/simulator/simulator.go:318-347 | A halted run is a deadlock iff the first pod that blocks the loop is one the handler does not speak for. |
| Rendezvous.RunsTellFate | pkg/simulator/simulator.go:309-348 | Every run that cannot go on has passed all pods, stopped at a taken name, or waits, as the sequential reading says, and in the first case leaves its failures and its server. |
| Rendezvous.DeadlockIffSilent | pkg/simulator/simulator.go:318-347 | With names of their own and free on the server, a halted run is a deadlock iff some pod without a node belongs to another scheduler or gets no update. |
| Rendezvous.StrangerDeadlocks | pkg/simulator/simulator.go:128-150 | One pod of another scheduler: after its creation nothing can happen. |
| Rendezvous.OneOrder | pkg/simulator/simulator.go:318-347 | Without second updates there is one run of each length: the rendezvous leaves the threads no choice. |
| SecondUpdate.RunCounted | pkg/simulator/simulator.go:449-468 | In every run, with any number of updates, each update made is queued, being sent, or has released the loop once. |
| SecondUpdate.QuietIffOneEach | pkg/simulator/simulator.go:326-330 | A run that passed all pods and in which each waiting pod got an update leaves the handler nothing to say iff each got exactly one. |
| SecondUpdate.SecondUpdateMisleads | pkg/simulator/simulator.go:449-468 | Two pods, the first updated twice: the second is deleted and recorded with the first one's reason. |
| SecondUpdate.ConcreteMisled | pkg/simulator/simulator.go:449-468 | The same on two concrete pods with names of their own. |
| Simulation.Simulator.SchedulePods | pkg/simulator/simulator.go:309-348 | The loop over one batch: its fate is that of the sequential reading; if it ends, the rejected pods are returned and the kept pods are on the server. |
| Simulation.Simulator.GetClusterNodeStatus | pkg/simulator/simulator.go:277-301 | One record per node in node order, holding the pods that name it, sorted as the server lists them. |
| Report.ListingMeaning | vendor/k8s.io/client-go/testing/fixture.go:480-488 | The list has every pod of the server once and is ordered by namespace and name. |
| Report.AtMostMeaning | vendor/k8s.io/client-go/testing/fixture.go:480-488 | The order of names: a prefix first, else by the first character that differs. |
| Simulation.Simulator.ScheduleApp | pkg/simulator/simulator.go:232-275 | One application after the batches so far is one longer batch; failures and report follow. |
| Simulation.Simulator.Simulate | pkg/simulator/core.go:85-118 | Cluster and applications in turn behave as one batch: same fate, and if it ends the accumulated failures, the final server and its report. |
| Simulation.JoinTwo | pkg/simulator/core.go:100-113 | Scheduling one batch after another is scheduling their concatenation, errors and waiting included. |
| Simulation.PodsConserved | pkg/simulator/core.go:85-118 | Rejected and kept pods are together exactly the generated pods; a kept pod has the UID, names and scheduler it was generated with; the report lists each exactly once iff all node names are listed nodes. |
| Simulation.FailuresRecorded | pkg/simulator/core.go:100-114 | Every failure a simulation reports is a generated pod with its own names and the scheduler's message. |
| Report.ReportedAtOwnNode | pkg/simulator/simulator.go:277-301 | A pod stands under a node iff it is on the server with that node name. |
| Report.ReportedOnceIff | pkg/simulator/simulator.go:277-301 | The report lists every pod of the server exactly once iff every node name is a listed node. |
| NormalizeScore.FindRange | pkg/simulator/plugin/open-gpu-share.go:119-129 | The first loop computes highest and lowest, starting values included. |
| NormalizeScore.NormalizeScore | pkg/simulator/plugin/open-gpu-share.go:118-143 | The two loops overwrite the scores with the wrapping, truncating rescaling of the original list. |
| NormalizeScore.BoundsFoundIff | pkg/simulator/plugin/open-gpu-share.go:119-129 | The first loop finds least and greatest score iff some score exceeds the least 64-bit integer. |
| NormalizeScore.ExactIffFits | pkg/simulator/plugin/open-gpu-share.go:131-140 | Every score of a range is rescaled as in unbounded arithmetic iff a hundred times the range fits 64 bits. |
| NormalizeScore.ListExactIff | pkg/simulator/plugin/open-gpu-share.go:131-140 | The same for every list, ranges that wrap around included, each with its exact condition on range and scores. |
| NormalizeScore.TooWide | pkg/simulator/plugin/open-gpu-share.go:131-140 | Two scores 0 and 2^57 come out as 0 and -28. |
| NormalizeScore.NormalizedMeaning | pkg/simulator/plugin/open-gpu-share.go:131-140 | Results lie in the framework range, keep weak order, keep scores a hundredth of the range apart, and map the extremes to minimum and maximum. |
| NormalizeScore.NormalizedTwice | pkg/simulator/plugin/open-gpu-share.go:131-140 | Normalising twice is normalising once. |
| NormalizeScore.ShiftAndScale | pkg/simulator/plugin/open-gpu-share.go:131-140 | Shifting all scores or scaling them by a positive factor changes no result. |
| DaemonSetPinning.SetNodeName | pkg/utils/utils.go:770-815 | The given affinity object is rewritten in place, or a new one is made when there is none; every required term now names the node. |
| DaemonSetPinning.DaemonSet.NewDaemonPod | pkg/utils/utils.go:353-366 | The pod is a fresh copy pinned to the node, sharing nothing with the template, which is left pinned too. |
| DaemonSetPinning.DaemonSet.MakeValidPods | pkg/utils/utils.go:337-351 | The returned pods say what pods made from the untouched template would say, although the template was rewritten for each node. |
| DaemonSetPinning.PinAgain | pkg/utils/utils.go:805-812 | A second pin replaces the first without a trace. |
| DaemonSetPinning.PinnedToItsNode | pkg/utils/utils.go:770-815 | A pinned pod admits exactly its own node, and only where the label terms of the template do. |
| DaemonSetPinning.OnePodPerChosenNode | pkg/utils/utils.go:337-351 | Pods are made iff no pinned template is invalid; then one per suitable node, in node order. |
| DaemonSetPinning.PodsRequireTheirNodes | pkg/utils/utils.go:337-366 | Each returned pod admits its own node and no other named node, and keeps the match expressions, preferences and pod affinities of the template. |
| DaemonSetPinning.NoTermsNoPods | pkg/utils/utils.go:805-812 | A required selector without terms cannot be pinned, and then no pod is returned. |
| DaemonSetPinning.MakingPodsAgain | pkg/utils/utils.go:337-366 | The rewritten template makes the same pods as the original one. |
| FanOut.MakeValidPods | pkg/utils/utils.go:137-247 | Replica and completion loops produce the expansion of the workload, or an error. |
| FanOut.ExpansionMeaning | pkg/utils/utils.go:137-247 | As many pods as replicas, one when the count is absent, none when negative, of the workload's kind, owner and template; pods of a StatefulSet are named by ordinal and distinct. |
| FanOut.Split | pkg/simulator/utils.go:103-114 | The slices handed to the goroutines, all in bounds. |
| FanOut.BatchesCover | pkg/simulator/utils.go:103-114 | The slices one after the other are the whole list; all but the last have 100 pods. |
| FanOut.NextKeeps | pkg/simulator/utils.go:86-102 | Every step of every goroutine keeps the invariant: the shared list is the union of what finished goroutines made, and a read under the mutex is never stale. |
| FanOut.RunsEnd | pkg/simulator/utils.go:227 | Every interleaving is finite. |
| FanOut.HaltedDone | pkg/simulator/utils.go:227 | When no goroutine can move, all are done, so the wait returns. |
| FanOut.OrderIndependent | pkg/simulator/utils.go:79-230 | Whatever the interleaving, an error iff some item fails, and else the same multiset of pods. |
| FanOut.TasksCoverItems | pkg/simulator/utils.go:79-230 | The goroutines together have every pod and every workload exactly once. |
| FanOut.EveryItemOnce | pkg/simulator/utils.go:79-230 | A run without error returns what each goroutine's items come to, once, as a multiset. |
| FanOutMeaning.FailsIff | pkg/simulator/utils.go:79-230 | For every completion order there is an error iff a bare pod has an invalid template, or a workload that asks for a pod has one, or a StatefulSet's claims cannot be annotated. |
| FanOutMeaning.ReturnedPods | pkg/simulator/utils.go:79-230 | Without an error the list has each bare pod once by name and template, for every kind, owner and template as many pods as the workloads ask for, and no others. |

## Left out

- Locks of cache, nodes and devices: each plugin call is one atomic step, as the plugin lock makes Reserve, Unreserve and Bind; Filter is one step too.
- 64-bit overflow of memory sums and of memory times count: memory is an unbounded integer. Node capacities are 64-bit, and without presets used memory never exceeds a capacity.
- The assume-time annotation, log lines and JSON encoding of the published export; the annotation holds the export itself.
- The change to a node's allocatable count, which the program makes on a local copy only.
- Whether the server accepts a node update is a parameter of Reserve and Unreserve; the server changes nothing else about the node in that update.
- Deletion of nodes: the environment adds and resizes them. A node that vanishes while its pods are cached is not modelled.
- GpuPlugin.GpuSharePlugin.Unreserve: when a copy is filed, asks that the server knows the node it is called with; on an unknown node the program then dereferences a node it does not have.
- Publication.PublishedIsExport: assumes capacities that do not change after a node is added; a resized node is covered by the index, capacity, layout, binding and Filter results.
- Order in exported pod lists: map iteration is arbitrary, so they are multisets. Container fields of pods other than those read here are not kept.
- Allocate with a real clientset and the cache-level export, which the plugin path does not use; BuildCacheFromPodList and the lookups by name.
- The scheduler itself: it gives the pods of its own updates with any conditions and any bound pod that keeps UID, namespace, name and scheduler; an update is made only while its pod is on the server.
- Rendezvous.RunsAgree: like the other results of that module, about scripts in which no pod that waits for a node gets a second update; the module SecondUpdate says what happens otherwise.
- Simulation.Simulator.SchedulePods: takes each rendezvous as one step, and returns where the program would wait for ever; Rendezvous.RunsTellFate proves that the two threads end the same way.
- Simulation.Simulator.Simulate: starts from generated pod lists; sorting by the affinity and toleration queues, patching of pods and the creation of other objects are not part of it, and neither are their errors.
- DaemonSetPinning.DaemonSet.MakeValidPods: label requirements, the rest of validation and the rest of the node check are parameters; other fields of the template, which the copy takes along, are not modelled.
- FanOut.MakeValidPods: random names, UIDs, workload annotations beyond kind and name, and the default count written back into the workload are not modelled; validity of a template is a parameter.
- FanOut.OrderIndependent: goroutines all exist from the start; starting them one by one gives fewer interleavings.
- Open-Local filtering, scoring and binding, and the floating-point scores before normalisation.
- Command line, tables, HTTP server, charts and reading of files.
