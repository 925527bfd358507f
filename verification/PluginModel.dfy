/** The scheduler plugin as a state machine on values: Filter, Reserve,
    Unreserve and Bind, with the API server and the environment around them. */
module PluginModel {
  import opened Kube
  import opened CacheModel

  datatype Status = Success | Unschedulable | Error | Skip

  /** `nodes`, `annos` and `store` are the API server's: node capacities,
      published GPU annotations, and pods by namespace and name.  `pending` is
      podToUpdateCacheMap. */
  datatype State = State(
    nodes: map<string, Node>,
    annos: map<string, NodeGpuInfo>,
    store: map<(string, string), Pod>,
    cache: CacheState,
    pending: map<string, Pod>)

  datatype Outcome = Outcome(state: State, status: Status)

  /** getPodMapKey: the two names joined with nothing between them. */
  function Key(p: Pod): string {
    p.namespace + p.name
  }

  function Placed(p: Pod, nodeName: string, devId: string): Pod {
    p.(gpuIndex := devId, nodeName := nodeName, phase := Running)
  }

  /** `snapshot` is the node object in the scheduler's own view of the cluster. */
  ghost function Filter(s: State, p: Pod, nodeName: string, snapshot: Node): Outcome {
    if p.gpuMem <= 0 then Outcome(s, Success)
    else if snapshot.gpuMem < p.gpuMem then Outcome(s, Unschedulable)
    else
      match Lookup(s.cache, s.nodes, nodeName)
      case None => Outcome(s, Unschedulable)
      case Some(c) =>
        Outcome(s.(cache := c), if Allocate(c.nodes[nodeName].devs, p).Some? then Success else Unschedulable)
  }

  /** Write the node's export to the API server; `updated` says whether the
      server accepts the write. */
  ghost function Publish(s: State, nodeName: string, updated: bool): Outcome {
    match Lookup(s.cache, s.nodes, nodeName)
    case None => Outcome(s, Error)
    case Some(c) =>
      if updated
      then Outcome(s.(cache := c, annos := s.annos[nodeName := Export(c.nodes[nodeName])]), Success)
      else Outcome(s.(cache := c), Error)
  }

  ghost function Reserve(s: State, p: Pod, nodeName: string, updated: bool): Outcome {
    if p.gpuMem <= 0 then Outcome(s, Success)
    else
      match Lookup(s.cache, s.nodes, nodeName)
      case None => Outcome(s, Error)
      case Some(c) =>
        match Allocate(c.nodes[nodeName].devs, p)
        case None => Outcome(s.(cache := c), Error)
        case Some(devId) => Commit(s.(cache := c), Placed(p, nodeName, devId), updated)
  }

  /** The second half of Reserve: remember the copy, charge it, publish. */
  ghost function Commit(s: State, copy: Pod, updated: bool): Outcome {
    var s1 := s.(pending := s.pending[Key(copy) := copy]);
    match AddOrUpdate(s1.cache, s1.nodes, copy)
    case None => Outcome(s1, Error)
    case Some(c) => Publish(s1.(cache := c), copy.nodeName, updated)
  }

  ghost function Unreserve(s: State, p: Pod, nodeName: string, updated: bool): State {
    if Key(p) !in s.pending then s
    else Publish(s.(cache := Remove(s.cache, s.nodes, s.pending[Key(p)])), nodeName, updated).state
  }

  function Bind(s: State, p: Pod, nodeName: string): Outcome {
    if p.gpuMem <= 0 then Outcome(s, Skip)
    else if Key(p) !in s.pending then Outcome(s, Error)
    else
      var copy := s.pending[Key(p)];
      if (copy.namespace, copy.name) !in s.store then Outcome(s, Error)
      else
        Outcome(s.(store := s.store[(copy.namespace, copy.name) := copy], pending := s.pending - {Key(p)}), Success)
  }

  // ----- runs -----

  datatype Op =
    | DoFilter(pod: Pod, nodeName: string, snapshot: Node)
    | DoReserve(pod: Pod, nodeName: string, updated: bool)
    | DoUnreserve(pod: Pod, nodeName: string, updated: bool)
    | DoBind(pod: Pod, nodeName: string)
    | SetNode(nodeName: string, node: Node)    // the environment adds or resizes a node
    | SetPod(pod: Pod)                         // the environment creates or rewrites a pod
    | DeletePod(namespace: string, name: string)

  ghost function Step(s: State, op: Op): State {
    match op
    case DoFilter(p, n, snapshot) => Filter(s, p, n, snapshot).state
    case DoReserve(p, n, updated) => Reserve(s, p, n, updated).state
    case DoUnreserve(p, n, updated) => Unreserve(s, p, n, updated)
    case DoBind(p, n) => Bind(s, p, n).state
    case SetNode(n, node) => s.(nodes := s.nodes[n := node])
    case SetPod(p) => s.(store := s.store[(p.namespace, p.name) := p])
    case DeletePod(ns, name) => s.(store := s.store - {(ns, name)})
  }

  /** A UID is not already cached when it is reserved, and a copy that is filed
      for it is filed under the same key. */
  predicate Legal(s: State, op: Op) {
    op.DoReserve? ==>
      && op.pod.uid !in s.cache.known
      && forall k :: k in s.pending && s.pending[k].uid == op.pod.uid ==> k == Key(op.pod)
  }

  ghost function Run(s: State, ops: seq<Op>): State {
    if ops == [] then s else Step(Run(s, ops[..|ops| - 1]), ops[|ops| - 1])
  }

  ghost predicate LegalRun(s: State, ops: seq<Op>) {
    forall i :: 0 <= i < |ops| ==> Legal(Run(s, ops[..i]), ops[i])
  }

  /** Nothing cached yet; any nodes and any pods on the server. */
  predicate Initial(s: State) {
    s.cache == CacheState(map[], map[]) && s.pending == map[] && s.annos == map[]
  }
}
