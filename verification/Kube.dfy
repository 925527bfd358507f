/** The Kubernetes values that the GPU-share scheduler and the simulator read
    and write.  Pods and nodes are values: every place where the program keeps
    a pod it keeps a deep copy. */
module Kube {
  const MAX_INT64: int := 0x7FFF_FFFF_FFFF_FFFF
  const MIN_INT64: int := -0x8000_0000_0000_0000

  type int64 = x: int | MIN_INT64 <= x <= MAX_INT64

  type UID = string

  datatype Option<+T> = None | Some(value: T) {
    function GetOr(default: T): T {
      match this
      case Some(v) => v
      case None => default
    }
  }

  datatype Phase = Pending | Running | Succeeded | Failed

  /** `gpuMem` and `gpuCount` are the parsed memory and count annotations, 0
      when the annotation is absent or malformed; `gpuIndex` is the raw text of
      the device annotation, "" when absent. */
  datatype Pod = Pod(
    uid: UID,
    namespace: string,
    name: string,
    nodeName: string,
    phase: Phase,
    schedulerName: string,
    gpuMem: int,
    gpuCount: nat,
    gpuIndex: string)
  {
    predicate Terminated() {
      phase == Succeeded || phase == Failed
    }
  }

  /** A node as the API server stores it: its GPU capacities and card model. */
  datatype Node = Node(gpuMem: int64, gpuCount: int64, model: string)

  /** Integer division as the source language does it: toward zero. */
  function TruncDiv(a: int, b: int): int
    requires b > 0
  {
    if a >= 0 then a / b else -((-a) / b)
  }

  /** One step of ranging over a map, whose order is arbitrary: some key. */
  method AnyKey<K(==), V>(m: map<K, V>) returns (k: K)
    requires m != map[]
    ensures k in m
  {
    k :| k in m;
  }
}
