/** Making the pods of a resource list: workloads expand to their replicas, the
    work is spread over goroutines, and each adds its pods to one shared list
    under a mutex. */
module FanOut {
  import opened Kube
  import opened IdStrings

  const ROUTINE_POD_NUM := 100

  datatype Kind = PodKind | ReplicaSetKind | StatefulSetKind | JobKind

  /** A pod made valid.  The random part of a name is left out: only the pods of
      a StatefulSet have a name of their own. */
  datatype Made = Made(name: string, kind: Kind, owner: string, template: string)

  /** `count` is the replicas or completions, None when the field is absent;
      `template` stands for the pod template. */
  datatype Workload = Workload(name: string, count: Option<int>, template: string)

  datatype BarePod = BarePod(name: string, template: string)

  datatype Resources = Resources(
    pods: seq<BarePod>,
    deployments: seq<Workload>,
    replicaSets: seq<Workload>,
    statefulSets: seq<Workload>,
    jobs: seq<Workload>,
    cronJobs: seq<Workload>)

  /** What is decided elsewhere: whether a pod of a template is valid, and
      whether the volume claims of a StatefulSet can be annotated. */
  datatype Checks = Checks(valid: string -> bool, storage: Workload -> bool)

  // ----- one workload -----

  function Copies(w: Workload): nat {
    var n := w.count.GetOr(1);
    if n < 0 then 0 else n
  }

  function NameOf(kind: Kind, w: Workload, ordinal: nat): string {
    if kind == StatefulSetKind then w.name + "-" + Itoa(ordinal) else ""
  }

  function Replicas(kind: Kind, w: Workload, n: nat): seq<Made> {
    seq(n, i requires 0 <= i < n => Made(NameOf(kind, w, i), kind, w.name, w.template))
  }

  /** The pods of a workload, None when one of them is not valid. */
  function Expand(c: Checks, kind: Kind, w: Workload): Option<seq<Made>> {
    if Copies(w) > 0 && !c.valid(w.template) then None
    else if kind == StatefulSetKind && !c.storage(w) then None
    else Some(Replicas(kind, w, Copies(w)))
  }

  method MakeValidPods(c: Checks, kind: Kind, w: Workload) returns (result: Option<seq<Made>>)
    ensures result == Expand(c, kind, w)
  {
    var pods: seq<Made> := [];
    var replicas := if w.count == None then 1 else w.count.value;
    var ordinal := 0;
    while ordinal < replicas
      invariant 0 <= ordinal <= Copies(w)
      invariant pods == Replicas(kind, w, ordinal)
      invariant ordinal > 0 ==> c.valid(w.template)
    {
      if !c.valid(w.template) {
        return None;
      }
      var pod := Made("", kind, w.name, w.template);
      if kind == StatefulSetKind {
        pod := pod.(name := w.name + "-" + Itoa(ordinal));
      }
      pods := pods + [pod];
      ordinal := ordinal + 1;
    }
    if kind == StatefulSetKind && !c.storage(w) {
      return None;
    }
    return Some(pods);
  }

  /** One pod per replica, one when the count is absent, none when it is
      negative; and no two pods of a StatefulSet share a name. */
  lemma ExpansionMeaning(c: Checks, kind: Kind, w: Workload)
    requires Expand(c, kind, w).Some?
    ensures var pods := Expand(c, kind, w).value;
            && |pods| == (match w.count case None => 1 case Some(n) => if n >= 0 then n else 0)
            && (forall p :: p in pods ==> p.kind == kind && p.owner == w.name && p.template == w.template && c.valid(p.template))
            && (kind == StatefulSetKind ==> forall i :: 0 <= i < |pods| ==> pods[i].name == w.name + "-" + Itoa(i))
            && (kind == StatefulSetKind ==> forall i, j :: 0 <= i < j < |pods| ==> pods[i].name != pods[j].name)
  {
    if kind == StatefulSetKind {
      forall i, j | 0 <= i < j < Copies(w)
        ensures NameOf(kind, w, i) != NameOf(kind, w, j)
      {
        ItoaDigits(i);
        ItoaDigits(j);
        var prefix := w.name + "-";
        assert NameOf(kind, w, i)[|prefix|..] == Itoa(i) && NameOf(kind, w, j)[|prefix|..] == Itoa(j);
      }
    }
  }

  // ----- batches of bare pods -----

  /** Start and end of each batch. */
  function BatchStart(i: nat): nat {
    i * ROUTINE_POD_NUM
  }

  function BatchEnd(n: nat, i: nat): nat {
    if i != n / ROUTINE_POD_NUM then (i + 1) * ROUTINE_POD_NUM else n
  }

  function BatchesOf(pods: seq<BarePod>): seq<seq<BarePod>> {
    seq(|pods| / ROUTINE_POD_NUM + 1, i requires 0 <= i <= |pods| / ROUTINE_POD_NUM =>
      pods[BatchStart(i)..BatchEnd(|pods|, i)])
  }

  method Split(pods: seq<BarePod>) returns (batches: seq<seq<BarePod>>)
    ensures batches == BatchesOf(pods)
  {
    batches := [];
    var routineNum := |pods| / ROUTINE_POD_NUM;
    for i := 0 to routineNum + 1
      invariant batches == BatchesOf(pods)[..i]
    {
      var start, end := i * ROUTINE_POD_NUM, 0;
      if i != routineNum {
        end := (i + 1) * ROUTINE_POD_NUM;
      } else {
        end := |pods|;
      }
      batches := batches + [pods[start..end]];
    }
  }

  function Flatten<T>(parts: seq<seq<T>>): seq<T> {
    if parts == [] then [] else Flatten(parts[..|parts| - 1]) + parts[|parts| - 1]
  }

  lemma {:induction false} BatchesPrefix(pods: seq<BarePod>, i: nat)
    requires i <= |pods| / ROUTINE_POD_NUM
    ensures Flatten(BatchesOf(pods)[..i]) == pods[..i * ROUTINE_POD_NUM]
  {
    if i > 0 {
      BatchesPrefix(pods, i - 1);
      var b := BatchesOf(pods);
      assert b[..i][..i - 1] == b[..i - 1];
      assert b[i - 1] == pods[(i - 1) * ROUTINE_POD_NUM..i * ROUTINE_POD_NUM];
    }
  }

  /** The batches one after the other are the whole list; every batch but the
      last is full and the last holds the rest, which may be nothing. */
  lemma BatchesCover(pods: seq<BarePod>)
    ensures Flatten(BatchesOf(pods)) == pods
    ensures forall i :: 0 <= i < |BatchesOf(pods)| ==>
                          |BatchesOf(pods)[i]| == if i < |pods| / 100 then 100 else |pods| % 100
  {
    var b := BatchesOf(pods);
    var last := |pods| / ROUTINE_POD_NUM;
    BatchesPrefix(pods, last);
    assert b[..|b| - 1] == b[..last];
    assert b[last] == pods[last * ROUTINE_POD_NUM..];
    assert pods == pods[..last * ROUTINE_POD_NUM] + pods[last * ROUTINE_POD_NUM..];
  }

  // ----- goroutines -----

  /** What one goroutine goes through: for each of its items the pods made of
      it, or None where it gives up. */
  type Task = seq<Option<seq<Made>>>

  /** `tmp` are a goroutine's own pods; one that holds the mutex has read the
      shared list and not yet written it back. */
  datatype Worker =
    | Working(next: nat, tmp: seq<Made>)
    | Failing
    | Holding(tmp: seq<Made>, read: seq<Made>)
    | Done

  /** `mutex` is the goroutine that holds it; `failure` is the goroutine whose
      error was stored last. */
  datatype State = State(workers: seq<Worker>, mutex: Option<nat>, pods: seq<Made>, failure: Option<nat>)

  /** A goroutine goes on with its next item, stores its error, takes the mutex
      and reads the list, or writes the list back and lets go. */
  datatype Act = Item(k: nat) | Fail(k: nat) | Lock(k: nat) | Write(k: nat)

  function Start(tasks: seq<Task>): State {
    State(seq(|tasks|, i => Working(0, [])), None, [], None)
  }

  predicate Enabled(tasks: seq<Task>, s: State, a: Act) {
    && a.k < |tasks| == |s.workers|
    && var w := s.workers[a.k];
    match a
    case Item(k) => w.Working? && w.next < |tasks[k]|
    case Fail(k) => w.Failing?
    case Lock(k) => w.Working? && w.next >= |tasks[k]| && s.mutex.None?
    case Write(k) => w.Holding?
  }

  function Next(tasks: seq<Task>, s: State, a: Act): State
    requires Enabled(tasks, s, a)
  {
    var w := s.workers[a.k];
    match a
    case Item(k) =>
      s.(workers := s.workers[k :=
      match tasks[k][w.next]
      case Some(made) => Working(w.next + 1, w.tmp + made)
      case None => Failing])
    case Fail(k) => s.(workers := s.workers[k := Done], failure := Some(k))
    case Lock(k) => s.(workers := s.workers[k := Holding(w.tmp, s.pods)], mutex := Some(k))
    case Write(k) => s.(workers := s.workers[k := Done], mutex := None, pods := w.read + w.tmp)
  }

  // ----- what a task comes to -----

  predicate Succeeds(t: Task) {
    forall i :: 0 <= i < |t| ==> t[i].Some?
  }

  /** The pods of the first n items. */
  function PodsOf(t: Task, n: nat): seq<Made>
    requires n <= |t|
  {
    if n == 0 then [] else PodsOf(t, n - 1) + t[n - 1].GetOr([])
  }

  /** What a finished goroutine has added to the list. */
  function Share(t: Task, w: Worker): multiset<Made> {
    if w.Done? && Succeeds(t) then multiset(PodsOf(t, |t|)) else multiset{}
  }

  function Shares(tasks: seq<Task>, workers: seq<Worker>, n: nat): multiset<Made>
    requires n <= |tasks| == |workers|
  {
    if n == 0 then multiset{} else Shares(tasks, workers, n - 1) + Share(tasks[n - 1], workers[n - 1])
  }

  predicate WorkerOk(t: Task, w: Worker) {
    match w
    case Working(next, tmp) => next <= |t| && Succeeds(t[..next]) && tmp == PodsOf(t, next)
    case Failing => !Succeeds(t)
    case Holding(tmp, _) => Succeeds(t) && tmp == PodsOf(t, |t|)
    case Done => true
  }

  predicate Inv(tasks: seq<Task>, s: State) {
    && |s.workers| == |tasks|
    && (forall k :: 0 <= k < |tasks| ==> WorkerOk(tasks[k], s.workers[k]))
    && (forall k :: 0 <= k < |tasks| && s.workers[k].Holding? ==> s.mutex == Some(k) && s.workers[k].read == s.pods)
    && (s.mutex.Some? ==> s.mutex.value < |tasks| && s.workers[s.mutex.value].Holding?)
    && (s.failure.Some? ==> s.failure.value < |tasks| && !Succeeds(tasks[s.failure.value]))
    && (forall k :: 0 <= k < |tasks| && s.workers[k].Done? && !Succeeds(tasks[k]) ==> s.failure.Some?)
    && multiset(s.pods) == Shares(tasks, s.workers, |tasks|)
  }

  lemma {:induction false} SharesBefore(tasks: seq<Task>, workers: seq<Worker>, k: nat, w: Worker, n: nat)
    requires n <= k < |tasks| == |workers|
    ensures Shares(tasks, workers[k := w], n) == Shares(tasks, workers, n)
  {
    if n > 0 {
      SharesBefore(tasks, workers, k, w, n - 1);
    }
  }

  /** One goroutine's step changes the sum by its own share. */
  lemma {:induction false} SharesStep(tasks: seq<Task>, workers: seq<Worker>, k: nat, w: Worker, n: nat)
    requires k < n <= |tasks| == |workers| && !workers[k].Done?
    ensures Shares(tasks, workers[k := w], n) == Shares(tasks, workers, n) + Share(tasks[k], w)
  {
    if k == n - 1 {
      SharesBefore(tasks, workers, k, w, k);
      assert Share(tasks[k], workers[k]) == multiset{};
    } else {
      SharesStep(tasks, workers, k, w, n - 1);
      Swap(Shares(tasks, workers, n - 1), Share(tasks[k], w), Share(tasks[n - 1], workers[n - 1]));
    }
  }

  lemma Swap(a: multiset<Made>, b: multiset<Made>, c: multiset<Made>)
    ensures a + b + c == a + c + b
  {
  }

  lemma {:induction false} SharesStart(tasks: seq<Task>, n: nat)
    requires n <= |tasks|
    ensures Shares(tasks, Start(tasks).workers, n) == multiset{}
  {
    if n > 0 {
      SharesStart(tasks, n - 1);
    }
  }

  lemma ItemKeeps(tasks: seq<Task>, s: State, k: nat)
    requires Inv(tasks, s) && Enabled(tasks, s, Item(k))
    ensures Inv(tasks, Next(tasks, s, Item(k)))
  {
    var t, w := tasks[k], s.workers[k];
    SharesStep(tasks, s.workers, k, Next(tasks, s, Item(k)).workers[k], |tasks|);
    assert t[..w.next + 1] == t[..w.next] + [t[w.next]];
  }

  lemma WriteKeeps(tasks: seq<Task>, s: State, k: nat)
    requires Inv(tasks, s) && Enabled(tasks, s, Write(k))
    ensures Inv(tasks, Next(tasks, s, Write(k)))
  {
    SharesStep(tasks, s.workers, k, Done, |tasks|);
    assert multiset(s.pods + s.workers[k].tmp) == multiset(s.pods) + multiset(s.workers[k].tmp);
  }

  lemma LockKeeps(tasks: seq<Task>, s: State, k: nat)
    requires Inv(tasks, s) && Enabled(tasks, s, Lock(k))
    ensures Inv(tasks, Next(tasks, s, Lock(k)))
  {
    assert tasks[k][..s.workers[k].next] == tasks[k];
    SharesStep(tasks, s.workers, k, Holding(s.workers[k].tmp, s.pods), |tasks|);
  }

  lemma FailKeeps(tasks: seq<Task>, s: State, k: nat)
    requires Inv(tasks, s) && Enabled(tasks, s, Fail(k))
    ensures Inv(tasks, Next(tasks, s, Fail(k)))
  {
    SharesStep(tasks, s.workers, k, Done, |tasks|);
  }

  lemma NextKeeps(tasks: seq<Task>, s: State, a: Act)
    requires Inv(tasks, s) && Enabled(tasks, s, a)
    ensures Inv(tasks, Next(tasks, s, a))
  {
    match a
    case Item(k) => ItemKeeps(tasks, s, k);
    case Fail(k) => FailKeeps(tasks, s, k);
    case Lock(k) => LockKeeps(tasks, s, k);
    case Write(k) => WriteKeeps(tasks, s, k);
  }

  // ----- runs -----

  ghost function After(tasks: seq<Task>, acts: seq<Act>): Option<State> {
    if acts == [] then Some(Start(tasks))
    else
      match After(tasks, acts[..|acts| - 1])
      case None => None
      case Some(s) => if Enabled(tasks, s, acts[|acts| - 1]) then Some(Next(tasks, s, acts[|acts| - 1])) else None
  }

  lemma {:induction false} RunInv(tasks: seq<Task>, acts: seq<Act>)
    requires After(tasks, acts).Some?
    ensures Inv(tasks, After(tasks, acts).value)
    decreases |acts|
  {
    if acts == [] {
      SharesStart(tasks, |tasks|);
    } else {
      RunInv(tasks, acts[..|acts| - 1]);
      NextKeeps(tasks, After(tasks, acts[..|acts| - 1]).value, acts[|acts| - 1]);
    }
  }

  ghost predicate Halted(tasks: seq<Task>, s: State) {
    forall a: Act :: !Enabled(tasks, s, a)
  }

  lemma HolderMoves(tasks: seq<Task>, s: State)
    requires Inv(tasks, s) && s.mutex.Some?
    ensures Enabled(tasks, s, Write(s.mutex.value))
  {
  }

  /** No goroutine is left waiting: when none can move, all are done. */
  lemma HaltedDone(tasks: seq<Task>, s: State, k: nat)
    requires Inv(tasks, s) && Halted(tasks, s) && k < |tasks|
    ensures s.workers[k].Done?
  {
    if s.mutex.Some? {
      HolderMoves(tasks, s);
    } else {
      assert !Enabled(tasks, s, Item(k)) && !Enabled(tasks, s, Fail(k)) && !Enabled(tasks, s, Lock(k)) && !Enabled(tasks, s, Write(k));
    }
  }

  function Left(t: Task, w: Worker): int {
    match w
    case Working(next, _) => |t| - next + 2
    case Failing => 1
    case Holding(_, _) => 1
    case Done => 0
  }

  function Rank(tasks: seq<Task>, workers: seq<Worker>, n: nat): int
    requires n <= |tasks| == |workers|
  {
    if n == 0 then 0 else Rank(tasks, workers, n - 1) + Left(tasks[n - 1], workers[n - 1])
  }

  lemma {:induction false} RankStep(tasks: seq<Task>, workers: seq<Worker>, k: nat, w: Worker, n: nat)
    requires n <= |tasks| == |workers| && k < |tasks|
    ensures Rank(tasks, workers[k := w], n) ==
            Rank(tasks, workers, n) + if k < n then Left(tasks[k], w) - Left(tasks[k], workers[k]) else 0
  {
    if n > 0 {
      RankStep(tasks, workers, k, w, n - 1);
    }
  }

  lemma {:induction false} RankBounds(tasks: seq<Task>, s: State, n: nat)
    requires Inv(tasks, s) && n <= |tasks|
    ensures Rank(tasks, s.workers, n) >= 0
  {
    if n > 0 {
      RankBounds(tasks, s, n - 1);
      assert WorkerOk(tasks[n - 1], s.workers[n - 1]);
    }
  }

  lemma NextRank(tasks: seq<Task>, s: State, a: Act)
    requires Inv(tasks, s) && Enabled(tasks, s, a)
    ensures |Next(tasks, s, a).workers| == |tasks|
    ensures Rank(tasks, Next(tasks, s, a).workers, |tasks|) < Rank(tasks, s.workers, |tasks|)
  {
    var w := Next(tasks, s, a).workers[a.k];
    RankStep(tasks, s.workers, a.k, w, |tasks|);
    assert WorkerOk(tasks[a.k], s.workers[a.k]);
    assert Left(tasks[a.k], w) < Left(tasks[a.k], s.workers[a.k]);
  }

  /** Every run is shorter than the work there is, so every run comes to a
      halt. */
  lemma {:induction false} RunsEnd(tasks: seq<Task>, acts: seq<Act>)
    requires After(tasks, acts).Some?
    ensures |After(tasks, acts).value.workers| == |tasks|
    ensures |acts| <= Rank(tasks, Start(tasks).workers, |tasks|) - Rank(tasks, After(tasks, acts).value.workers, |tasks|)
    ensures Rank(tasks, After(tasks, acts).value.workers, |tasks|) >= 0
    decreases |acts|
  {
    RunInv(tasks, acts);
    RankBounds(tasks, After(tasks, acts).value, |tasks|);
    if acts != [] {
      var init := acts[..|acts| - 1];
      RunsEnd(tasks, init);
      RunInv(tasks, init);
      NextRank(tasks, After(tasks, init).value, acts[|acts| - 1]);
    }
  }

  predicate AllSucceed(tasks: seq<Task>) {
    forall k :: 0 <= k < |tasks| ==> Succeeds(tasks[k])
  }

  function AllPods(tasks: seq<Task>, n: nat): seq<Made>
    requires n <= |tasks|
  {
    if n == 0 then [] else AllPods(tasks, n - 1) + PodsOf(tasks[n - 1], |tasks[n - 1]|)
  }

  lemma {:induction false} SharesDone(tasks: seq<Task>, workers: seq<Worker>, n: nat)
    requires n <= |tasks| == |workers| && AllSucceed(tasks) && forall k :: 0 <= k < |tasks| ==> workers[k].Done?
    ensures Shares(tasks, workers, n) == multiset(AllPods(tasks, n))
  {
    if n > 0 {
      SharesDone(tasks, workers, n - 1);
    }
  }

  /** Whatever the interleaving, the run that ends reports an error if and only
      if some item failed, and one without an error has every task's pods, as
      a multiset. */
  lemma OrderIndependent(tasks: seq<Task>, acts: seq<Act>)
    requires After(tasks, acts).Some? && Halted(tasks, After(tasks, acts).value)
    ensures After(tasks, acts).value.failure.None? <==> AllSucceed(tasks)
    ensures AllSucceed(tasks) ==> multiset(After(tasks, acts).value.pods) == multiset(AllPods(tasks, |tasks|))
  {
    var s := After(tasks, acts).value;
    RunInv(tasks, acts);
    forall k | 0 <= k < |tasks|
      ensures s.workers[k].Done?
    {
      HaltedDone(tasks, s, k);
    }
    if AllSucceed(tasks) {
      SharesDone(tasks, s.workers, |tasks|);
    }
  }

  // ----- the goroutines of a resource list -----

  function PodItem(c: Checks, p: BarePod): Option<seq<Made>> {
    if c.valid(p.template) then Some([Made(p.name, PodKind, "", p.template)]) else None
  }

  function PodTask(c: Checks, pods: seq<BarePod>): Task {
    seq(|pods|, i requires 0 <= i < |pods| => PodItem(c, pods[i]))
  }

  function WorkloadTask(c: Checks, kind: Kind, ws: seq<Workload>): Task {
    seq(|ws|, i requires 0 <= i < |ws| => Expand(c, kind, ws[i]))
  }

  function OneTask(t: Task): seq<Task> {
    if t == [] then [] else [t]
  }

  function PodTasks(c: Checks, batches: seq<seq<BarePod>>): seq<Task> {
    seq(|batches|, i requires 0 <= i < |batches| => PodTask(c, batches[i]))
  }

  /** One goroutine per batch of pods and one per kind of workload present.  A
      Deployment's pods are made through a ReplicaSet, a CronJob's through a
      Job. */
  function TasksOf(c: Checks, r: Resources): seq<Task> {
    (if r.pods == [] then [] else PodTasks(c, BatchesOf(r.pods)))
    + OneTask(WorkloadTask(c, ReplicaSetKind, r.deployments))
    + OneTask(WorkloadTask(c, ReplicaSetKind, r.replicaSets))
    + OneTask(WorkloadTask(c, StatefulSetKind, r.statefulSets))
    + OneTask(WorkloadTask(c, JobKind, r.jobs))
    + OneTask(WorkloadTask(c, JobKind, r.cronJobs))
  }

  /** Every bare pod and every workload, once. */
  function Items(c: Checks, r: Resources): Task {
    PodTask(c, r.pods)
    + WorkloadTask(c, ReplicaSetKind, r.deployments)
    + WorkloadTask(c, ReplicaSetKind, r.replicaSets)
    + WorkloadTask(c, StatefulSetKind, r.statefulSets)
    + WorkloadTask(c, JobKind, r.jobs)
    + WorkloadTask(c, JobKind, r.cronJobs)
  }

  lemma {:induction false} FlattenAppend<T>(a: seq<seq<T>>, b: seq<seq<T>>)
    ensures Flatten(a + b) == Flatten(a) + Flatten(b)
  {
    if b == [] {
      assert a + b == a;
    } else {
      FlattenAppend(a, b[..|b| - 1]);
      assert (a + b)[..|a + b| - 1] == a + b[..|b| - 1];
    }
  }

  lemma FlattenOne(t: Task)
    ensures Flatten(OneTask(t)) == t
  {
    if t != [] {
      assert [t][..0] == [];
    }
  }

  lemma {:induction false} FlattenPodTasks(c: Checks, batches: seq<seq<BarePod>>)
    ensures Flatten(PodTasks(c, batches)) == PodTask(c, Flatten(batches))
  {
    if batches != [] {
      var init, last := batches[..|batches| - 1], batches[|batches| - 1];
      FlattenPodTasks(c, init);
      assert PodTasks(c, batches)[..|batches| - 1] == PodTasks(c, init);
      assert PodTask(c, Flatten(init) + last) == PodTask(c, Flatten(init)) + PodTask(c, last);
    }
  }

  /** The goroutines together have every item exactly once. */
  lemma TasksCoverItems(c: Checks, r: Resources)
    ensures Flatten(TasksOf(c, r)) == Items(c, r)
  {
    var t0 := if r.pods == [] then [] else PodTasks(c, BatchesOf(r.pods));
    BatchesCover(r.pods);
    FlattenPodTasks(c, BatchesOf(r.pods));
    assert Flatten(t0) == PodTask(c, r.pods);
    var t1 := FlattenNext(t0, WorkloadTask(c, ReplicaSetKind, r.deployments));
    var t2 := FlattenNext(t1, WorkloadTask(c, ReplicaSetKind, r.replicaSets));
    var t3 := FlattenNext(t2, WorkloadTask(c, StatefulSetKind, r.statefulSets));
    var t4 := FlattenNext(t3, WorkloadTask(c, JobKind, r.jobs));
    var t5 := FlattenNext(t4, WorkloadTask(c, JobKind, r.cronJobs));
  }

  lemma FlattenNext(tasks: seq<Task>, t: Task) returns (more: seq<Task>)
    ensures more == tasks + OneTask(t)
    ensures Flatten(more) == Flatten(tasks) + t
  {
    more := tasks + OneTask(t);
    FlattenAppend(tasks, OneTask(t));
    FlattenOne(t);
  }

  lemma {:induction false} PodsOfAppend(a: Task, b: Task, n: nat)
    requires n <= |b|
    ensures PodsOf(a + b, |a| + n) == PodsOf(a, |a|) + PodsOf(b, n)
  {
    if n == 0 {
      PodsOfPrefix(a, b, |a|);
    } else {
      PodsOfAppend(a, b, n - 1);
      assert (a + b)[|a| + n - 1] == b[n - 1];
    }
  }

  lemma {:induction false} PodsOfPrefix(a: Task, b: Task, n: nat)
    requires n <= |a|
    ensures PodsOf(a + b, n) == PodsOf(a, n)
  {
    if n > 0 {
      PodsOfPrefix(a, b, n - 1);
    }
  }

  lemma {:induction false} AllPodsFlat(tasks: seq<Task>, n: nat)
    requires n <= |tasks|
    ensures AllPods(tasks, n) == PodsOf(Flatten(tasks[..n]), |Flatten(tasks[..n])|)
    ensures Succeeds(Flatten(tasks[..n])) <==> forall k :: 0 <= k < n ==> Succeeds(tasks[k])
  {
    if n > 0 {
      AllPodsFlat(tasks, n - 1);
      var t := tasks[n - 1];
      var before := Flatten(tasks[..n - 1]);
      assert tasks[..n][..n - 1] == tasks[..n - 1];
      assert Flatten(tasks[..n]) == before + t;
      PodsOfAppend(before, t, |t|);
      SucceedsAppend(before, t);
    }
  }

  lemma SucceedsAppend(a: Task, b: Task)
    ensures Succeeds(a + b) <==> Succeeds(a) && Succeeds(b)
  {
    assert forall i :: 0 <= i < |a| ==> (a + b)[i] == a[i];
    assert forall i :: 0 <= i < |b| ==> (a + b)[|a| + i] == b[i];
  }

  /** For every completion order the list returned without an error is, as a
      multiset, each bare pod and each workload's expansion exactly once; and
      there is an error exactly when one of them fails. */
  lemma EveryItemOnce(c: Checks, r: Resources, acts: seq<Act>)
    requires After(TasksOf(c, r), acts).Some? && Halted(TasksOf(c, r), After(TasksOf(c, r), acts).value)
    ensures After(TasksOf(c, r), acts).value.failure.None? <==> Succeeds(Items(c, r))
    ensures Succeeds(Items(c, r)) ==>
              multiset(After(TasksOf(c, r), acts).value.pods) == multiset(PodsOf(Items(c, r), |Items(c, r)|))
  {
    var tasks := TasksOf(c, r);
    OrderIndependent(tasks, acts);
    AllPodsFlat(tasks, |tasks|);
    assert tasks[..|tasks|] == tasks;
    TasksCoverItems(c, r);
  }
}
