/** The scheduler cache and the plugin as objects updated in place, proved
    against the steps of PluginModel. */
module GpuPlugin {
  import opened Kube
  import CacheModel
  import opened GpuCache
  import PluginModel

  /** What the plugin can see of the API server. */
  class ApiServer {
    var nodes: map<string, Node>
    var annos: map<string, CacheModel.NodeGpuInfo>
    var pods: map<(string, string), Pod>

    constructor (nodes: map<string, Node>, pods: map<(string, string), Pod>)
      ensures this.nodes == nodes && this.pods == pods && annos == map[]
    {
      this.nodes, this.pods, annos := nodes, pods, map[];
    }

    /** Replace the node's annotation, when the server accepts the write. */
    method UpdateNode(name: string, info: CacheModel.NodeGpuInfo, accepted: bool) returns (ok: bool)
      requires name in nodes
      modifies this`annos
      ensures ok == accepted
      ensures annos == if accepted then old(annos)[name := info] else old(annos)
    {
      if accepted {
        annos := annos[name := info];
      }
      return accepted;
    }

    /** Fails when there is no such pod. */
    method UpdatePod(pod: Pod) returns (ok: bool)
      modifies this`pods
      ensures ok == ((pod.namespace, pod.name) in old(pods))
      ensures pods == if ok then old(pods)[(pod.namespace, pod.name) := pod] else old(pods)
    {
      ok := (pod.namespace, pod.name) in pods;
      if ok {
        pods := pods[(pod.namespace, pod.name) := pod];
      }
    }
  }

  class SchedulerCache {
    const server: ApiServer
    var nodes: map<string, GpuNodeInfo>
    var knownPods: map<UID, Pod>
    ghost var state: CacheModel.CacheState  // the value this object stands for
    ghost var Repr: set<object>

    /** `state` says what the fields and the node records hold; no two records
        share an object. */
    ghost predicate Valid()
      reads this, Repr
    {
      && this in Repr
      && server !in Repr
      && state.known == knownPods
      && state.nodes.Keys == nodes.Keys
      && (forall n :: n in nodes ==> nodes[n] in Repr && nodes[n].Repr <= Repr && this !in nodes[n].Repr)
      && (forall n :: n in nodes ==> nodes[n].Valid() && nodes[n].state == state.nodes[n])
      && (forall m, n :: m in nodes && n in nodes && m != n ==> nodes[m].Repr !! nodes[n].Repr)
    }

    constructor (server: ApiServer)
      ensures this.server == server && Valid() && fresh(Repr)
      ensures state == CacheModel.CacheState(map[], map[])
    {
      this.server := server;
      nodes, knownPods := map[], map[];
      state := CacheModel.CacheState(map[], map[]);
      Repr := {this};
    }

    /** First sight of a node. */
    method Build(name: string) returns (n: GpuNodeInfo)
      requires Valid() && name in server.nodes && name !in nodes
      modifies this
      ensures Valid() && fresh(Repr - old(Repr))
      ensures name in nodes && n == nodes[name]
      ensures state == old(state).(nodes := old(state).nodes[name := CacheModel.NewNode(name, server.nodes[name])])
    {
      n := new GpuNodeInfo(name, server.nodes[name]);
      nodes := nodes[name := n];
      state := state.(nodes := state.nodes[name := n.state]);
      Repr := Repr + n.Repr;
    }

    /** Refresh a node that has no devices, or had no GPU memory or count. */
    method Refresh(name: string)
      requires Valid() && name in server.nodes && name in nodes
      modifies Repr
      ensures Valid() && fresh(Repr - old(Repr))
      ensures nodes == old(nodes)
      ensures state == old(state).(nodes := old(state).nodes[name := CacheModel.ResetNode(old(state).nodes[name], server.nodes[name])])
    {
      var n := nodes[name];
      ResetRecord(n, name);
      Absorb(n, name);
    }

    /** Valid, but for the record of one node being ahead of `state` and `Repr`. */
    ghost predicate AheadAt(n: GpuNodeInfo, name: string)
      reads this, Repr, n, n.Repr
    {
      && this in Repr && server !in Repr && state.known == knownPods && state.nodes.Keys == nodes.Keys
      && name in nodes && n == nodes[name] && n.Valid() && this !in n.Repr && server !in n.Repr
      && (forall m :: m in nodes && m != name ==> nodes[m] in Repr && nodes[m].Repr <= Repr && this !in nodes[m].Repr)
      && (forall m :: m in nodes && m != name ==> nodes[m].Valid() && nodes[m].state == state.nodes[m])
      && (forall m, k :: m in nodes && k in nodes && m != k && m != name && k != name ==> nodes[m].Repr !! nodes[k].Repr)
      && (forall m :: m in nodes && m != name ==> nodes[m].Repr !! n.Repr)
    }

    /** Reset one record; the others are as they were. */
    method ResetRecord(n: GpuNodeInfo, name: string)
      requires Valid() && name in server.nodes && name in nodes && n == nodes[name]
      modifies n
      ensures AheadAt(n, name) && fresh(n.Repr - old(n.Repr))
      ensures n.state == CacheModel.ResetNode(state.nodes[name], server.nodes[name])
    {
      n.Reset(server.nodes[name]);
      assert forall m :: m in nodes && m != name ==> nodes[m].Repr == old(nodes[m].Repr);
    }

    ghost method Absorb(n: GpuNodeInfo, name: string)
      requires AheadAt(n, name)
      modifies this`state, this`Repr
      ensures Valid() && Repr == old(Repr) + n.Repr
      ensures state == old(state).(nodes := old(state).nodes[name := n.state])
    {
      GrowRepr(n, name);
      FollowState(n, name);
    }

    ghost method FollowState(n: GpuNodeInfo, name: string)
      requires AheadAt(n, name) && n in Repr && n.Repr <= Repr
      modifies this`state
      ensures Valid()
      ensures state == old(state).(nodes := old(state).nodes[name := n.state])
    {
      state := state.(nodes := state.nodes[name := n.state]);
      assert n.Valid() && n.state == state.nodes[name];
    }

    ghost method GrowRepr(n: GpuNodeInfo, name: string)
      requires AheadAt(n, name)
      modifies this`Repr
      ensures AheadAt(n, name) && Repr == old(Repr) + n.Repr && n in Repr
    {
      Repr := Repr + n.Repr;
    }

    /** Get the node's record, building or refreshing it first where needed;
        null stands for the error of an unknown node. */
    method GetGpuNodeInfo(name: string) returns (n: GpuNodeInfo?)
      requires Valid()
      modifies Repr
      ensures Valid() && fresh(Repr - old(Repr))
      ensures n == null <==> name !in server.nodes
      ensures n != null ==> name in nodes && n == nodes[name]
      ensures state ==
              match CacheModel.Lookup(old(state), server.nodes, name)
              case None => old(state)
              case Some(c) => c
    {
      if name !in server.nodes {
        return null;
      }
      if name !in nodes {
        n := Build(name);
      } else {
        n := nodes[name];
        if |n.devs| == 0 || n.node.gpuMem <= 0 || n.node.gpuCount <= 0 {
          Refresh(name);
        }
      }
    }

    method AddOrUpdatePod(pod: Pod) returns (ok: bool)
      requires Valid()
      modifies Repr
      ensures Valid() && fresh(Repr - old(Repr))
      ensures ok == CacheModel.AddOrUpdate(old(state), server.nodes, pod).Some?
      ensures state == if ok then CacheModel.AddOrUpdate(old(state), server.nodes, pod).value else old(state)
    {
      if pod.nodeName == "" {
        return true;
      }
      var n := GetGpuNodeInfo(pod.nodeName);
      if n == null {
        return false;
      }
      var added := AddTo(n, pod);
      if added {
        RememberPod(pod);
      }
      return true;
    }

    /** Pass the pod to its node's record. */
    method AddTo(n: GpuNodeInfo, pod: Pod) returns (added: bool)
      requires Valid() && pod.nodeName in nodes && n == nodes[pod.nodeName]
      modifies this`state, this`Repr, n.Repr
      ensures Valid() && Repr == old(Repr)
      ensures added == CacheModel.Touches(old(state).nodes[pod.nodeName].devs, pod)
      ensures state == CacheModel.WithDevs(old(state), pod.nodeName,
                                           CacheModel.AddPod(old(state).nodes[pod.nodeName].devs, pod))
    {
      added := n.AddOrUpdatePod(pod);
      Absorb(n, pod.nodeName);
    }

    method RemovePod(pod: Pod)
      requires Valid()
      modifies Repr
      ensures Valid() && fresh(Repr - old(Repr))
      ensures state == CacheModel.Remove(old(state), server.nodes, pod)
    {
      var n := GetGpuNodeInfo(pod.nodeName);
      if n != null {
        RemoveFrom(n, pod);
      }
      ForgetPod(pod.uid);
    }

    method RememberPod(pod: Pod)
      requires Valid()
      modifies this`knownPods, this`state
      ensures Valid() && state == old(state).(known := old(state).known[pod.uid := pod])
    {
      knownPods := knownPods[pod.uid := pod];
      state := state.(known := state.known[pod.uid := pod]);
    }

    method ForgetPod(uid: UID)
      requires Valid()
      modifies this`knownPods, this`state
      ensures Valid() && state == old(state).(known := old(state).known - {uid})
    {
      knownPods := knownPods - {uid};
      state := state.(known := state.known - {uid});
    }

    method RemoveFrom(n: GpuNodeInfo, pod: Pod)
      requires Valid() && pod.nodeName in nodes && n == nodes[pod.nodeName]
      modifies this`state, this`Repr, n.Repr
      ensures Valid() && Repr == old(Repr)
      ensures state == CacheModel.WithDevs(old(state), pod.nodeName,
                                           CacheModel.RemovePod(old(state).nodes[pod.nodeName].devs, pod))
    {
      n.RemovePod(pod);
      Absorb(n, pod.nodeName);
    }
  }

  class GpuSharePlugin {
    const server: ApiServer
    const cache: SchedulerCache
    var podToUpdateCacheMap: map<string, Pod>

    ghost predicate Valid()
      reads this, cache, cache.Repr
    {
      cache.Valid() && cache.server == server && this !in cache.Repr
    }

    /** The value this object, its cache and the API server stand for. */
    ghost function View(): PluginModel.State
      reads this, server, cache
    {
      PluginModel.State(server.nodes, server.annos, server.pods, cache.state, podToUpdateCacheMap)
    }

    constructor (server: ApiServer)
      ensures Valid() && this.server == server && fresh(cache.Repr)
      ensures View().cache == CacheModel.CacheState(map[], map[]) && View().pending == map[]
    {
      this.server := server;
      podToUpdateCacheMap := map[];
      cache := new SchedulerCache(server);
    }

    method Filter(pod: Pod, nodeName: string, snapshot: Node) returns (status: PluginModel.Status)
      requires Valid()
      modifies cache.Repr
      ensures Valid() && fresh(cache.Repr - old(cache.Repr))
      ensures PluginModel.Outcome(View(), status) == PluginModel.Filter(old(View()), pod, nodeName, snapshot)
    {
      if pod.gpuMem <= 0 {
        return PluginModel.Success;
      }
      if snapshot.gpuMem < pod.gpuMem {
        return PluginModel.Unschedulable;
      }
      var n := cache.GetGpuNodeInfo(nodeName);
      if n == null {
        return PluginModel.Unschedulable;
      }
      var devId, found := n.AllocateGpuId(pod);
      return if found then PluginModel.Success else PluginModel.Unschedulable;
    }

    /** The pod as it will be bound, None when the node cannot take it. */
    method MakePodCopyReadyForBindUpdate(pod: Pod, nodeName: string) returns (copy: Option<Pod>)
      requires Valid()
      modifies cache.Repr
      ensures Valid() && fresh(cache.Repr - old(cache.Repr))
      ensures match CacheModel.Lookup(old(cache.state), server.nodes, nodeName)
              case None => copy == None && cache.state == old(cache.state)
              case Some(c) =>
                cache.state == c &&
                copy == match CacheModel.Allocate(c.nodes[nodeName].devs, pod)
                        case None => None
                        case Some(devId) => Some(PluginModel.Placed(pod, nodeName, devId))
    {
      var n := cache.GetGpuNodeInfo(nodeName);
      if n == null {
        return None;
      }
      var devId, found := n.AllocateGpuId(pod);
      return if found then Some(PluginModel.Placed(pod, nodeName, devId)) else None;
    }

    /** Export the node and write it to the server as its annotation. */
    method Publish(nodeName: string, updated: bool) returns (status: PluginModel.Status)
      requires Valid()
      modifies cache.Repr, server`annos
      ensures Valid() && fresh(cache.Repr - old(cache.Repr))
      ensures PluginModel.Outcome(View(), status) == PluginModel.Publish(old(View()), nodeName, updated)
    {
      var n := cache.GetGpuNodeInfo(nodeName);
      if n == null {
        return PluginModel.Error;
      }
      var info := n.ExportGpuNodeInfoAsNodeGpuInfo();
      var ok := server.UpdateNode(nodeName, info, updated);
      return if ok then PluginModel.Success else PluginModel.Error;
    }

    method Reserve(pod: Pod, nodeName: string, updated: bool) returns (status: PluginModel.Status)
      requires Valid()
      modifies this, cache.Repr, server`annos
      ensures Valid() && fresh(cache.Repr - old(cache.Repr))
      ensures PluginModel.Outcome(View(), status) == PluginModel.Reserve(old(View()), pod, nodeName, updated)
    {
      if pod.gpuMem <= 0 {
        return PluginModel.Success;
      }
      var copy := MakePodCopyReadyForBindUpdate(pod, nodeName);
      if copy == None {
        return PluginModel.Error;
      }
      status := Commit(copy.value, updated);
    }

    /** The second half of Reserve: file the copy, charge it, publish. */
    method Commit(copy: Pod, updated: bool) returns (status: PluginModel.Status)
      requires Valid()
      modifies this, cache.Repr, server`annos
      ensures Valid() && fresh(cache.Repr - old(cache.Repr))
      ensures PluginModel.Outcome(View(), status) == PluginModel.Commit(old(View()), copy, updated)
    {
      podToUpdateCacheMap := podToUpdateCacheMap[PluginModel.Key(copy) := copy];
      var ok := cache.AddOrUpdatePod(copy);
      if !ok {
        return PluginModel.Error;
      }
      status := Publish(copy.nodeName, updated);
    }

    /** With a copy filed the scheduler names a node the server has; on another
        one the program would dereference a missing node. */
    method Unreserve(pod: Pod, nodeName: string, updated: bool)
      requires Valid() && (PluginModel.Key(pod) in podToUpdateCacheMap ==> nodeName in server.nodes)
      modifies this, cache.Repr, server`annos
      ensures Valid() && fresh(cache.Repr - old(cache.Repr))
      ensures View() == PluginModel.Unreserve(old(View()), pod, nodeName, updated)
    {
      var key := PluginModel.Key(pod);
      if key !in podToUpdateCacheMap {
        return;
      }
      cache.RemovePod(podToUpdateCacheMap[key]);
      var status := Publish(nodeName, updated);
    }

    method Bind(pod: Pod, nodeName: string) returns (status: PluginModel.Status)
      requires Valid()
      modifies this, server`pods
      ensures Valid()
      ensures PluginModel.Outcome(View(), status) == PluginModel.Bind(old(View()), pod, nodeName)
    {
      if pod.gpuMem <= 0 {
        return PluginModel.Skip;
      }
      var key := PluginModel.Key(pod);
      if key !in podToUpdateCacheMap {
        return PluginModel.Error;
      }
      var copy := podToUpdateCacheMap[key];
      var ok := server.UpdatePod(copy);
      if !ok {
        return PluginModel.Error;
      }
      podToUpdateCacheMap := podToUpdateCacheMap - {key};
      return PluginModel.Success;
    }
  }
}
