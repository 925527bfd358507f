/** What the fan-out returns, counted in pods: each bare pod once, each workload
    as often as it asks. */
module FanOutMeaning {
  import opened Kube
  import opened FanOut

  // ----- counting -----

  /** How many of the pods are as asked. */
  function Tally(pods: seq<Made>, f: Made -> bool): nat {
    if pods == [] then 0 else Tally(pods[..|pods| - 1], f) + if f(pods[|pods| - 1]) then 1 else 0
  }

  lemma {:induction false} TallyAppend(a: seq<Made>, b: seq<Made>, f: Made -> bool)
    ensures Tally(a + b, f) == Tally(a, f) + Tally(b, f)
  {
    if b == [] {
      assert a + b == a;
    } else {
      var init, last := b[..|b| - 1], b[|b| - 1];
      TallyAppend(a, init, f);
      assert (a + b)[..|a + b| - 1] == a + init;
    }
  }

  lemma TallyOne(p: Made, f: Made -> bool)
    ensures Tally([p], f) == if f(p) then 1 else 0
  {
    assert [p][..0] == [];
  }

  function Without(b: seq<Made>, i: nat): seq<Made>
    requires i < |b|
  {
    b[..i] + b[i + 1..]
  }

  lemma TakenOut(b: seq<Made>, i: nat)
    requires i < |b|
    ensures multiset(Without(b, i)) == multiset(b) - multiset{b[i]}
  {
    assert b == b[..i] + [b[i]] + b[i + 1..];
  }

  lemma TallyMiddle(front: seq<Made>, p: Made, back: seq<Made>, f: Made -> bool)
    ensures Tally(front + ([p] + back), f) == Tally(front + back, f) + if f(p) then 1 else 0
  {
    TallyAppend(front, [p] + back, f);
    TallyAppend([p], back, f);
    TallyOne(p, f);
    TallyAppend(front, back, f);
  }

  lemma AroundIndex(b: seq<Made>, i: nat)
    requires i < |b|
    ensures b == b[..i] + ([b[i]] + b[i + 1..])
  {
  }

  lemma TallyWithout(b: seq<Made>, i: nat, f: Made -> bool)
    requires i < |b|
    ensures Tally(b, f) == Tally(Without(b, i), f) + if f(b[i]) then 1 else 0
  {
    AroundIndex(b, i);
    TallyMiddle(b[..i], b[i], b[i + 1..], f);
  }

  lemma LastTaken(a: seq<Made>)
    requires a != []
    ensures multiset(a[..|a| - 1]) == multiset(a) - multiset{a[|a| - 1]}
    ensures a[|a| - 1] in multiset(a)
  {
    assert a == a[..|a| - 1] + [a[|a| - 1]];
  }

  /** The order does not matter. */
  lemma {:induction false} TallyOrder(a: seq<Made>, b: seq<Made>, f: Made -> bool)
    requires multiset(a) == multiset(b)
    ensures Tally(a, f) == Tally(b, f)
    decreases |a|
  {
    if a == [] {
      assert |multiset(b)| == 0;
    } else {
      LastTaken(a);
      var i :| 0 <= i < |b| && b[i] == a[|a| - 1];
      TakenOut(b, i);
      TallyOrder(a[..|a| - 1], Without(b, i), f);
      TallyWithout(b, i, f);
    }
  }

  // ----- what the items come to -----

  lemma {:induction false} TallyItems(a: Task, b: Task, f: Made -> bool)
    ensures Tally(PodsOf(a + b, |a + b|), f) == Tally(PodsOf(a, |a|), f) + Tally(PodsOf(b, |b|), f)
  {
    PodsOfAppend(a, b, |b|);
    TallyAppend(PodsOf(a, |a|), PodsOf(b, |b|), f);
  }

  /** How many of the bare pods have this name and template. */
  function BareNamed(pods: seq<BarePod>, name: string, template: string): nat {
    if pods == [] then 0
    else
      var last := pods[|pods| - 1];
      BareNamed(pods[..|pods| - 1], name, template) + if last.name == name && last.template == template then 1 else 0
  }

  /** How many pods the workloads of this name and template ask for: one each
      where the count is absent, none where it is negative. */
  function Asked(ws: seq<Workload>, name: string, template: string): nat {
    if ws == [] then 0
    else
      var last := ws[|ws| - 1];
      Asked(ws[..|ws| - 1], name, template) +
      if last.name == name && last.template == template
      then match last.count
           case None => 1
           case Some(n) => if n > 0 then n else 0
      else 0
  }

  function IsBare(name: string, template: string): Made -> bool {
    (p: Made) => p.kind.PodKind? && p.name == name && p.template == template
  }

  function IsOf(kind: Kind, owner: string, template: string): Made -> bool {
    (p: Made) => p.kind == kind && p.owner == owner && p.template == template
  }

  function Any(): Made -> bool {
    (p: Made) => true
  }

  lemma {:induction false} TallyConstant(pods: seq<Made>, f: Made -> bool, yes: bool)
    requires forall k :: 0 <= k < |pods| ==> f(pods[k]) == yes
    ensures Tally(pods, f) == if yes then |pods| else 0
  {
    if pods != [] {
      TallyConstant(pods[..|pods| - 1], f, yes);
    }
  }

  /** What a predicate says of a bare pod. */
  function OfBare(p: BarePod, f: Made -> bool): nat {
    if f(Made(p.name, PodKind, "", p.template)) then 1 else 0
  }

  lemma PodsOfOne(o: Option<seq<Made>>)
    ensures PodsOf([o], 1) == o.GetOr([])
  {
    assert PodsOf([o], 0) == [];
    assert [] + o.GetOr([]) == o.GetOr([]);
  }

  lemma PodsOfSnoc(t: Task, o: Option<seq<Made>>, f: Made -> bool)
    ensures Tally(PodsOf(t + [o], |t + [o]|), f) == Tally(PodsOf(t, |t|), f) + Tally(o.GetOr([]), f)
  {
    TallyItems(t, [o], f);
    PodsOfOne(o);
  }

  lemma BareItem(c: Checks, p: BarePod, f: Made -> bool)
    requires c.valid(p.template)
    ensures PodItem(c, p).Some? && Tally(PodItem(c, p).value, f) == OfBare(p, f)
  {
    TallyOne(Made(p.name, PodKind, "", p.template), f);
  }

  function SumBare(pods: seq<BarePod>, f: Made -> bool): nat {
    if pods == [] then 0 else SumBare(pods[..|pods| - 1], f) + OfBare(pods[|pods| - 1], f)
  }

  lemma {:induction false} BareTask(c: Checks, pods: seq<BarePod>, f: Made -> bool)
    requires forall i :: 0 <= i < |pods| ==> c.valid(pods[i].template)
    ensures Tally(PodsOf(PodTask(c, pods), |pods|), f) == SumBare(pods, f)
  {
    if pods != [] {
      var init, last := pods[..|pods| - 1], pods[|pods| - 1];
      BareTask(c, init, f);
      assert PodTask(c, pods) == PodTask(c, init) + [PodItem(c, last)];
      PodsOfSnoc(PodTask(c, init), PodItem(c, last), f);
      BareItem(c, last, f);
    }
  }

  lemma {:induction false} SumBareMeaning(pods: seq<BarePod>, name: string, template: string)
    ensures SumBare(pods, IsBare(name, template)) == BareNamed(pods, name, template)
    ensures SumBare(pods, Any()) == |pods|
  {
    if pods != [] {
      SumBareMeaning(pods[..|pods| - 1], name, template);
    }
  }

  lemma {:induction false} SumBareNone(pods: seq<BarePod>, kind: Kind, owner: string, template: string)
    requires kind != PodKind
    ensures SumBare(pods, IsOf(kind, owner, template)) == 0
  {
    if pods != [] {
      SumBareNone(pods[..|pods| - 1], kind, owner, template);
    }
  }

  /** How many pods the workloads ask for in all. */
  function AskedInAll(ws: seq<Workload>): nat {
    if ws == [] then 0
    else
      AskedInAll(ws[..|ws| - 1]) +
      match ws[|ws| - 1].count
      case None => 1
      case Some(n) => if n > 0 then n else 0
  }

  /** The pods a workload asks for: one where the count is absent, none where it
      is negative. */
  function AskedFor(w: Workload): nat {
    match w.count
    case None => 1
    case Some(n) => if n > 0 then n else 0
  }

  /** The workload makes its pods: it asks for none or its template is valid, and
      the volume claims of a StatefulSet can be annotated. */
  predicate Makes(c: Checks, kind: Kind, w: Workload) {
    && (w.count == None || w.count.value > 0 ==> c.valid(w.template))
    && (kind == StatefulSetKind ==> c.storage(w))
  }

  lemma MakesIff(c: Checks, kind: Kind, w: Workload)
    ensures Expand(c, kind, w).Some? <==> Makes(c, kind, w)
    ensures Expand(c, kind, w).Some? ==>
              Expand(c, kind, w).value == Replicas(kind, w, AskedFor(w))
  {
  }

  predicate AllMake(c: Checks, kind: Kind, ws: seq<Workload>) {
    forall i :: 0 <= i < |ws| ==> Makes(c, kind, ws[i])
  }

  function SumWork(kind: Kind, ws: seq<Workload>, f: Made -> bool): nat {
    if ws == [] then 0
    else SumWork(kind, ws[..|ws| - 1], f) + Tally(Replicas(kind, ws[|ws| - 1], AskedFor(ws[|ws| - 1])), f)
  }

  lemma {:induction false} WorkTask(c: Checks, kind: Kind, ws: seq<Workload>, f: Made -> bool)
    requires AllMake(c, kind, ws)
    ensures Tally(PodsOf(WorkloadTask(c, kind, ws), |ws|), f) == SumWork(kind, ws, f)
  {
    if ws != [] {
      var init, last := ws[..|ws| - 1], ws[|ws| - 1];
      assert Makes(c, kind, last);
      WorkTask(c, kind, init, f);
      MakesIff(c, kind, last);
      assert WorkloadTask(c, kind, ws) == WorkloadTask(c, kind, init) + [Expand(c, kind, last)];
      PodsOfSnoc(WorkloadTask(c, kind, init), Expand(c, kind, last), f);
    }
  }

  lemma {:induction false} SumWorkMeaning(kind: Kind, ws: seq<Workload>, name: string, template: string)
    ensures SumWork(kind, ws, IsOf(kind, name, template)) == Asked(ws, name, template)
    ensures SumWork(kind, ws, Any()) == AskedInAll(ws)
  {
    if ws != [] {
      var last := ws[|ws| - 1];
      SumWorkMeaning(kind, ws[..|ws| - 1], name, template);
      TallyConstant(Replicas(kind, last, AskedFor(last)), IsOf(kind, name, template), last.name == name && last.template == template);
      TallyConstant(Replicas(kind, last, AskedFor(last)), Any(), true);
    }
  }

  /** Workloads of one kind make no pods of another. */
  lemma {:induction false} SumWorkNone(kind: Kind, ws: seq<Workload>, f: Made -> bool)
    requires forall p: Made :: p.kind == kind ==> !f(p)
    ensures SumWork(kind, ws, f) == 0
  {
    if ws != [] {
      var last := ws[|ws| - 1];
      SumWorkNone(kind, ws[..|ws| - 1], f);
      TallyConstant(Replicas(kind, last, AskedFor(last)), f, false);
    }
  }

  // ----- the whole resource list -----

  predicate AllValid(c: Checks, pods: seq<BarePod>) {
    forall i :: 0 <= i < |pods| ==> c.valid(pods[i].template)
  }

  /** Nothing in the list fails. */
  predicate NothingFails(c: Checks, r: Resources) {
    && AllValid(c, r.pods)
    && AllMake(c, ReplicaSetKind, r.deployments) && AllMake(c, ReplicaSetKind, r.replicaSets)
    && AllMake(c, StatefulSetKind, r.statefulSets)
    && AllMake(c, JobKind, r.jobs) && AllMake(c, JobKind, r.cronJobs)
  }

  lemma SucceedsIff(c: Checks, kind: Kind, ws: seq<Workload>)
    ensures Succeeds(WorkloadTask(c, kind, ws)) <==> AllMake(c, kind, ws)
  {
    forall i | 0 <= i < |ws|
      ensures WorkloadTask(c, kind, ws)[i].Some? <==> Makes(c, kind, ws[i])
    {
      MakesIff(c, kind, ws[i]);
    }
  }

  lemma BareSucceedsIff(c: Checks, pods: seq<BarePod>)
    ensures Succeeds(PodTask(c, pods)) <==> AllValid(c, pods)
  {
    forall i | 0 <= i < |pods|
      ensures PodTask(c, pods)[i].Some? <==> c.valid(pods[i].template)
    {
    }
  }

  lemma ItemsSucceedIff(c: Checks, r: Resources)
    ensures Succeeds(Items(c, r)) <==> NothingFails(c, r)
  {
    var t0, t1, t2 := PodTask(c, r.pods), WorkloadTask(c, ReplicaSetKind, r.deployments), WorkloadTask(c, ReplicaSetKind, r.replicaSets);
    var t3, t4, t5 := WorkloadTask(c, StatefulSetKind, r.statefulSets), WorkloadTask(c, JobKind, r.jobs), WorkloadTask(c, JobKind, r.cronJobs);
    SucceedsAppend(t0, t1);
    SucceedsAppend(t0 + t1, t2);
    SucceedsAppend(t0 + t1 + t2, t3);
    SucceedsAppend(t0 + t1 + t2 + t3, t4);
    SucceedsAppend(t0 + t1 + t2 + t3 + t4, t5);
    BareSucceedsIff(c, r.pods);
    SucceedsIff(c, ReplicaSetKind, r.deployments);
    SucceedsIff(c, ReplicaSetKind, r.replicaSets);
    SucceedsIff(c, StatefulSetKind, r.statefulSets);
    SucceedsIff(c, JobKind, r.jobs);
    SucceedsIff(c, JobKind, r.cronJobs);
  }

  /** What all sources of the list come to. */
  function TotalOf(r: Resources, f: Made -> bool): nat {
    SumBare(r.pods, f) + SumWork(ReplicaSetKind, r.deployments, f) + SumWork(ReplicaSetKind, r.replicaSets, f)
    + SumWork(StatefulSetKind, r.statefulSets, f) + SumWork(JobKind, r.jobs, f) + SumWork(JobKind, r.cronJobs, f)
  }

  lemma ItemsTally(c: Checks, r: Resources, f: Made -> bool)
    requires NothingFails(c, r)
    ensures Tally(PodsOf(Items(c, r), |Items(c, r)|), f) == TotalOf(r, f)
  {
    var t0, t1, t2 := PodTask(c, r.pods), WorkloadTask(c, ReplicaSetKind, r.deployments), WorkloadTask(c, ReplicaSetKind, r.replicaSets);
    var t3, t4, t5 := WorkloadTask(c, StatefulSetKind, r.statefulSets), WorkloadTask(c, JobKind, r.jobs), WorkloadTask(c, JobKind, r.cronJobs);
    TallyItems(t0, t1, f);
    TallyItems(t0 + t1, t2, f);
    TallyItems(t0 + t1 + t2, t3, f);
    TallyItems(t0 + t1 + t2 + t3, t4, f);
    TallyItems(t0 + t1 + t2 + t3 + t4, t5, f);
    BareTask(c, r.pods, f);
    WorkTask(c, ReplicaSetKind, r.deployments, f);
    WorkTask(c, ReplicaSetKind, r.replicaSets, f);
    WorkTask(c, StatefulSetKind, r.statefulSets, f);
    WorkTask(c, JobKind, r.jobs, f);
    WorkTask(c, JobKind, r.cronJobs, f);
  }

  lemma TotalBare(r: Resources, name: string, template: string)
    ensures TotalOf(r, IsBare(name, template)) == BareNamed(r.pods, name, template)
  {
    var f := IsBare(name, template);
    SumBareMeaning(r.pods, name, template);
    SumWorkNone(ReplicaSetKind, r.deployments, f);
    SumWorkNone(ReplicaSetKind, r.replicaSets, f);
    SumWorkNone(StatefulSetKind, r.statefulSets, f);
    SumWorkNone(JobKind, r.jobs, f);
    SumWorkNone(JobKind, r.cronJobs, f);
  }

  lemma WorkOfKind(kind: Kind, other: Kind, ws: seq<Workload>, name: string, template: string)
    ensures SumWork(kind, ws, IsOf(other, name, template)) == if kind == other then Asked(ws, name, template) else 0
  {
    if kind == other {
      SumWorkMeaning(kind, ws, name, template);
    } else {
      SumWorkNone(kind, ws, IsOf(other, name, template));
    }
  }

  lemma TotalKind(r: Resources, kind: Kind, name: string, template: string)
    requires kind != PodKind
    ensures TotalOf(r, IsOf(kind, name, template)) ==
            match kind
            case ReplicaSetKind => Asked(r.deployments, name, template) + Asked(r.replicaSets, name, template)
            case StatefulSetKind => Asked(r.statefulSets, name, template)
            case JobKind => Asked(r.jobs, name, template) + Asked(r.cronJobs, name, template)
            case PodKind => 0
  {
    SumBareNone(r.pods, kind, name, template);
    WorkOfKind(ReplicaSetKind, kind, r.deployments, name, template);
    WorkOfKind(ReplicaSetKind, kind, r.replicaSets, name, template);
    WorkOfKind(StatefulSetKind, kind, r.statefulSets, name, template);
    WorkOfKind(JobKind, kind, r.jobs, name, template);
    WorkOfKind(JobKind, kind, r.cronJobs, name, template);
  }

  lemma TotalAny(r: Resources)
    ensures TotalOf(r, Any()) ==
            |r.pods| + AskedInAll(r.deployments) + AskedInAll(r.replicaSets) + AskedInAll(r.statefulSets)
            + AskedInAll(r.jobs) + AskedInAll(r.cronJobs)
  {
    SumBareMeaning(r.pods, "", "");
    SumWorkMeaning(ReplicaSetKind, r.deployments, "", "");
    SumWorkMeaning(ReplicaSetKind, r.replicaSets, "", "");
    SumWorkMeaning(StatefulSetKind, r.statefulSets, "", "");
    SumWorkMeaning(JobKind, r.jobs, "", "");
    SumWorkMeaning(JobKind, r.cronJobs, "", "");
  }

  // ----- what the fan-out returns -----

  /** A run of the goroutines of the list that has come to its end. */
  ghost predicate Finished(c: Checks, r: Resources, acts: seq<Act>, s: State) {
    After(TasksOf(c, r), acts) == Some(s) && Halted(TasksOf(c, r), s)
  }

  /** For every completion order there is an error if and only if a bare pod has
      an invalid template or a workload cannot make its pods. */
  lemma FailsIff(c: Checks, r: Resources, acts: seq<Act>, s: State)
    requires Finished(c, r, acts, s)
    ensures s.failure.None? <==> NothingFails(c, r)
  {
    EveryItemOnce(c, r, acts);
    ItemsSucceedIff(c, r);
  }

  lemma ReturnedTally(c: Checks, r: Resources, acts: seq<Act>, s: State, f: Made -> bool)
    requires Finished(c, r, acts, s) && s.failure.None?
    ensures Tally(s.pods, f) == TotalOf(r, f)
  {
    FailsIff(c, r, acts, s);
    EveryItemOnce(c, r, acts);
    ItemsSucceedIff(c, r);
    TallyOrder(s.pods, PodsOf(Items(c, r), |Items(c, r)|), f);
    ItemsTally(c, r, f);
  }

  /** Without an error the list returned has, for every name and template, each
      bare pod once, and for every kind, owner and template as many pods as the
      workloads ask for; and no others. */
  lemma ReturnedPods(c: Checks, r: Resources, acts: seq<Act>, s: State, name: string, template: string)
    requires Finished(c, r, acts, s) && s.failure.None?
    ensures Tally(s.pods, IsBare(name, template)) == BareNamed(r.pods, name, template)
    ensures Tally(s.pods, IsOf(ReplicaSetKind, name, template)) == Asked(r.deployments, name, template) + Asked(r.replicaSets, name, template)
    ensures Tally(s.pods, IsOf(StatefulSetKind, name, template)) == Asked(r.statefulSets, name, template)
    ensures Tally(s.pods, IsOf(JobKind, name, template)) == Asked(r.jobs, name, template) + Asked(r.cronJobs, name, template)
    ensures |s.pods| == |r.pods| + AskedInAll(r.deployments) + AskedInAll(r.replicaSets) + AskedInAll(r.statefulSets)
                        + AskedInAll(r.jobs) + AskedInAll(r.cronJobs)
  {
    ReturnedTally(c, r, acts, s, IsBare(name, template));
    TotalBare(r, name, template);
    ReturnedTally(c, r, acts, s, IsOf(ReplicaSetKind, name, template));
    TotalKind(r, ReplicaSetKind, name, template);
    ReturnedTally(c, r, acts, s, IsOf(StatefulSetKind, name, template));
    TotalKind(r, StatefulSetKind, name, template);
    ReturnedTally(c, r, acts, s, IsOf(JobKind, name, template));
    TotalKind(r, JobKind, name, template);
    ReturnedTally(c, r, acts, s, Any());
    TallyConstant(s.pods, Any(), true);
    TotalAny(r);
  }
}
