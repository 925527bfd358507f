/** What each call answers, for every pod and in every state of every run. */
module Outcomes {
  import opened Kube
  import opened CacheModel
  import opened PluginModel
  import opened Protocol
  import opened Entries
  import opened Publication

  /** Filter answers Success or Unschedulable, never Error: Success if the pod
      asks for no GPU memory, which changes nothing, and for another pod exactly
      if the snapshot covers the request and Reserve would then place it. */
  lemma FilterOutcome(s: State, p: Pod, n: string, snapshot: Node)
    requires StateOk(s)
    ensures var f := Filter(s, p, n, snapshot);
            && (f.status == Success <==>
                p.gpuMem <= 0 || (snapshot.gpuMem >= p.gpuMem && Reserve(f.state, p, n, true).status == Success))
            && (f.status != Success ==> f.status == Unschedulable)
            && (p.gpuMem <= 0 ==> f.state == s)
  {
    if p.gpuMem > 0 {
      FilterIffReserve(s, p, n, snapshot);
    }
  }

  /** Reserve answers Success or Error: Success if the pod asks for no GPU
      memory, which changes nothing, and for another pod exactly if the server
      has the node, the allocator finds devices on it, and the server accepts
      the update. */
  lemma ReserveOutcome(s: State, p: Pod, n: string, updated: bool)
    requires StateOk(s)
    ensures var r := Reserve(s, p, n, updated);
            && (r.status == Success <==> p.gpuMem <= 0 || (updated && Placeable(s, p, n)))
            && (r.status != Success ==> r.status == Error)
            && (p.gpuMem <= 0 ==> r.state == s)
  {
    if p.gpuMem > 0 {
      ReserveStatus(s, p, n, updated);
    }
  }

  /** The server has the node and the allocator finds devices on it. */
  ghost predicate Placeable(s: State, p: Pod, n: string) {
    n in s.nodes && Lookup(s.cache, s.nodes, n).Some?
    && n in Lookup(s.cache, s.nodes, n).value.nodes
    && Allocate(Lookup(s.cache, s.nodes, n).value.nodes[n].devs, p).Some?
  }

  lemma ReserveStatus(s: State, p: Pod, n: string, updated: bool)
    requires StateOk(s) && p.gpuMem > 0
    ensures Reserve(s, p, n, updated).status == if updated && Placeable(s, p, n) then Success else Error
  {
    if n in s.nodes {
      ReserveIs(s, p, n, updated);
      if CopyFor(s, p, n).Some? {
        CopyIsPlaced(s, p, n);
        PublishStatus(Committed(s.(cache := Lookup(s.cache, s.nodes, n).value), CopyFor(s, p, n).value), n, updated);
      }
    }
  }

  lemma PublishStatus(s: State, n: string, updated: bool)
    ensures Publish(s, n, updated).status == if updated && n in s.nodes then Success else Error
  {
  }

  /** Bind hands a pod that asks for no GPU memory on to the next binder.  For
      another pod it answers Success exactly if a copy is filed under the pod's
      key and stands on the server under its own names, and Error otherwise,
      and then the copy stays filed and nothing changes. */
  lemma BindOutcome(s: State, p: Pod, n: string)
    ensures var b := Bind(s, p, n);
            && (b.status == Skip <==> p.gpuMem <= 0)
            && (b.status == Success <==>
                p.gpuMem > 0 && Key(p) in s.pending
                && (s.pending[Key(p)].namespace, s.pending[Key(p)].name) in s.store)
            && (b.status != Skip && b.status != Success ==> b.status == Error)
            && (b.status != Success ==> b.state == s)
            && (b.status == Success ==> b.state.pending == s.pending - {Key(p)} && b.state.cache == s.cache)
  {
  }

  /** So it is in every state of every legal run. */
  lemma OutcomesInRuns(s: State, ops: seq<Op>, p: Pod, n: string, snapshot: Node, updated: bool)
    requires Initial(s) && LegalRun(s, ops)
    ensures var now := Run(s, ops);
            && (p.gpuMem <= 0 ==>
                  && Filter(now, p, n, snapshot) == Outcome(now, Success)
                  && Reserve(now, p, n, updated) == Outcome(now, Success)
                  && Bind(now, p, n) == Outcome(now, Skip))
            && (p.gpuMem > 0 ==>
                  && (Filter(now, p, n, snapshot).status == Success <==> snapshot.gpuMem >= p.gpuMem && Placeable(now, p, n))
                  && (Filter(now, p, n, snapshot).status != Success ==> Filter(now, p, n, snapshot).status == Unschedulable)
                  && Reserve(now, p, n, updated).status == (if updated && Placeable(now, p, n) then Success else Error)
                  && Bind(now, p, n).status ==
                     (if Key(p) in now.pending && (now.pending[Key(p)].namespace, now.pending[Key(p)].name) in now.store
                      then Success else Error))
  {
    RunKeeps(s, ops);
    var now := Run(s, ops);
    if p.gpuMem > 0 {
      FilterIffReserve(now, p, n, snapshot);
      ReserveStatus(now, p, n, updated);
      ReserveStatus(now, p, n, true);
      ReserveSucceedsIff(now, p, n);
    }
  }
}
