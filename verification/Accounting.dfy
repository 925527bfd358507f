/** Memory accounting: what one pod charges to one device, and sums over the
    pods of a device in any order. */
module Accounting {
  import opened Kube
  import opened IdStrings
  import opened Packing

  /** The devices a pod's annotation names; an annotation that does not parse
      names none. */
  function PodIds(p: Pod): seq<int> {
    match ParseIds(p.gpuIndex)
    case Ids(ids) => ids
    case BadId(_) => []
  }

  /** What pod p charges to device d: its memory once per occurrence of d. */
  function Charge(p: Pod, d: int): int {
    if p.Terminated() then 0 else p.gpuMem * Times(PodIds(p), d)
  }

  function ChargeTo(d: int): Pod -> int {
    (p: Pod) => Charge(p, d)
  }

  /** The sum of f over the values of a map, taken in some order. */
  ghost function SumPods<K>(pods: map<K, Pod>, f: Pod -> int): int {
    if pods == map[] then 0
    else
      var u :| u in pods;
      f(pods[u]) + SumPods(pods - {u}, f)
  }

  ghost function Used(pods: map<UID, Pod>, d: int): int {
    SumPods(pods, ChargeTo(d))
  }

  /** The order does not matter: any pod can be taken out first. */
  lemma {:induction false} SumPodsRemove<K>(pods: map<K, Pod>, u: K, f: Pod -> int)
    requires u in pods
    ensures SumPods(pods, f) == f(pods[u]) + SumPods(pods - {u}, f)
    decreases |pods|
  {
    var first :| first in pods && SumPods(pods, f) == f(pods[first]) + SumPods(pods - {first}, f);
    if first != u {
      SumPodsRemove(pods - {first}, u, f);
      SumPodsRemove(pods - {u}, first, f);
      assert pods - {first} - {u} == pods - {u} - {first};
    }
  }

  lemma SumPodsAdd<K>(pods: map<K, Pod>, u: K, p: Pod, f: Pod -> int)
    requires u !in pods
    ensures SumPods(pods[u := p], f) == f(p) + SumPods(pods, f)
  {
    SumPodsRemove(pods[u := p], u, f);
    assert pods[u := p] - {u} == pods;
  }

  /** Pods on which f is zero do not matter. */
  lemma {:induction false} SumPodsIgnoresZero<K>(pods: map<K, Pod>, more: map<K, Pod>, f: Pod -> int)
    requires forall u :: u in pods ==> u in more && more[u] == pods[u]
    requires forall u :: u in more && u !in pods ==> f(more[u]) == 0
    ensures SumPods(pods, f) == SumPods(more, f)
    decreases |more|
  {
    if more != map[] {
      var u :| u in more;
      SumPodsRemove(more, u, f);
      if u in pods {
        SumPodsRemove(pods, u, f);
        SumPodsIgnoresZero(pods - {u}, more - {u}, f);
      } else {
        SumPodsIgnoresZero(pods, more - {u}, f);
      }
    }
  }

  lemma {:induction false} SumPodsAgree<K>(pods: map<K, Pod>, f: Pod -> int, g: Pod -> int)
    requires forall u :: u in pods ==> f(pods[u]) == g(pods[u])
    ensures SumPods(pods, f) == SumPods(pods, g)
    decreases |pods|
  {
    if pods != map[] {
      var u :| u in pods;
      SumPodsRemove(pods, u, f);
      SumPodsRemove(pods, u, g);
      SumPodsAgree(pods - {u}, f, g);
    }
  }

  lemma {:induction false} SumPodsSplit<K>(pods: map<K, Pod>, f: Pod -> int, g: Pod -> int, h: Pod -> int)
    requires forall u :: u in pods ==> h(pods[u]) == f(pods[u]) + g(pods[u])
    ensures SumPods(pods, h) == SumPods(pods, f) + SumPods(pods, g)
    decreases |pods|
  {
    if pods != map[] {
      var u :| u in pods;
      SumPodsRemove(pods, u, f);
      SumPodsRemove(pods, u, g);
      SumPodsRemove(pods, u, h);
      SumPodsSplit(pods - {u}, f, g, h);
    }
  }

  lemma {:induction false} SumPodsNonNegative<K>(pods: map<K, Pod>, f: Pod -> int)
    requires forall u :: u in pods ==> f(pods[u]) >= 0
    ensures SumPods(pods, f) >= 0
    decreases |pods|
  {
    if pods != map[] {
      var u :| u in pods;
      SumPodsRemove(pods, u, f);
      SumPodsNonNegative(pods - {u}, f);
    }
  }

  // ----- exchanging the sum over devices with the sum over pods -----

  /** What the first n devices count for the given pods together. */
  ghost function UsedOnFirst(pods: map<UID, Pod>, n: nat): int {
    if n == 0 then 0 else UsedOnFirst(pods, n - 1) + Used(pods, n - 1)
  }

  function ChargeToFirst(n: nat): Pod -> int {
    (p: Pod) => if p.Terminated() then 0 else p.gpuMem * SumTimes(PodIds(p), n)
  }

  lemma Distribute(a: int, b: int, c: int)
    ensures a * (b + c) == a * b + a * c
  {
  }

  /** One more device adds what the pod charges to it. */
  lemma ChargeOneMore(p: Pod, n: nat)
    ensures ChargeToFirst(n + 1)(p) == ChargeToFirst(n)(p) + ChargeTo(n)(p)
  {
    Distribute(p.gpuMem, SumTimes(PodIds(p), n), Times(PodIds(p), n));
  }

  lemma ChargeToNone(p: Pod)
    ensures ChargeToFirst(0)(p) == Nothing()(p)
  {
  }

  /** Summing over devices first or over pods first gives the same total. */
  lemma {:induction false} SumExchange(pods: map<UID, Pod>, n: nat)
    ensures UsedOnFirst(pods, n) == SumPods(pods, ChargeToFirst(n))
  {
    if n == 0 {
      forall u | u in pods
        ensures ChargeToFirst(0)(pods[u]) == Nothing()(pods[u])
      {
        ChargeToNone(pods[u]);
      }
      SumPodsAgree(pods, ChargeToFirst(0), Nothing());
      SumPodsNothing(pods);
    } else {
      SumExchange(pods, n - 1);
      AddDevice(pods, n - 1);
    }
  }

  lemma AddDevice(pods: map<UID, Pod>, n: nat)
    ensures SumPods(pods, ChargeToFirst(n + 1)) == SumPods(pods, ChargeToFirst(n)) + Used(pods, n)
  {
    forall u | u in pods
      ensures ChargeToFirst(n + 1)(pods[u]) == ChargeToFirst(n)(pods[u]) + ChargeTo(n)(pods[u])
    {
      ChargeOneMore(pods[u], n);
    }
    SumPodsSplit(pods, ChargeToFirst(n), ChargeTo(n), ChargeToFirst(n + 1));
  }

  function Nothing(): Pod -> int {
    (p: Pod) => 0
  }

  lemma {:induction false} SumPodsNothing<K>(pods: map<K, Pod>)
    ensures SumPods(pods, Nothing()) == 0
    decreases |pods|
  {
    if pods != map[] {
      var u :| u in pods;
      SumPodsRemove(pods, u, Nothing());
      SumPodsNothing(pods - {u});
    }
  }

  /** Memory times count, the figure the report reads off the annotations. */
  function Requested(): Pod -> int {
    (p: Pod) => p.gpuMem * p.gpuCount
  }

  /** When every pod is live and names exactly as many of the n devices as it
      asked for, the devices together count exactly what the pods request. */
  lemma Conservation(pods: map<UID, Pod>, n: nat)
    requires forall u :: u in pods ==> !pods[u].Terminated()
    requires forall u :: u in pods ==> |PodIds(pods[u])| == pods[u].gpuCount
    requires forall u, d :: u in pods && d in PodIds(pods[u]) ==> 0 <= d < n
    ensures UsedOnFirst(pods, n) == SumPods(pods, Requested())
  {
    SumExchange(pods, n);
    forall u | u in pods
      ensures ChargeToFirst(n)(pods[u]) == Requested()(pods[u])
    {
      SumTimesIsLength(PodIds(pods[u]), n);
    }
    SumPodsAgree(pods, ChargeToFirst(n), Requested());
  }

  lemma MapExtensional<K, V>(a: map<K, V>, b: map<K, V>)
    requires forall k :: k in a <==> k in b
    requires forall k :: k in a ==> a[k] == b[k]
    ensures a == b
  {
  }

  lemma SomeKey<K, V>(m: map<K, V>) returns (k: K)
    requires m != map[]
    ensures k in m
  {
    k :| k in m;
  }

  lemma ChargeStep(ids: seq<int>, i: nat, d: int, mem: int)
    requires i < |ids|
    ensures mem * Times(ids[..i + 1], d) == mem * Times(ids[..i], d) + if ids[i] == d then mem else 0
  {
    assert ids[..i + 1] == ids[..i] + [ids[i]];
  }
}
