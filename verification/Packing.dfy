/** How AllocateGpuId chooses devices: the tightest fit for one GPU, and a
    two-pointer greedy packing for several.  `avail` maps a device number to
    its idle memory, which may be negative; the devices are 0 .. n-1. */
module Packing {
  import opened Kube
  import opened IdStrings

  // ----- the two searches as functions -----

  predicate HasRoom(avail: map<int, int>, d: int, mem: int) {
    d in avail && avail[d] >= mem
  }

  /** Tightest fit among devices 0 .. n-1, scanning upward. */
  function TightestFit(avail: map<int, int>, n: nat, mem: int): (r: Option<nat>)
    ensures r.Some? ==> r.value < n && HasRoom(avail, r.value, mem)
  {
    if n == 0 then None
    else
      var best := TightestFit(avail, n - 1, mem);
      if HasRoom(avail, n - 1, mem) && (best.Some? ==> avail[n - 1] < avail[best.value])
      then Some(n - 1)
      else best
  }

  /** Take device d while it has room, then move to d + 1, until k devices are
      taken or the devices run out. */
  function Pack(avail: map<int, int>, d: nat, n: nat, mem: int, k: nat): seq<nat>
    decreases n - d + k
  {
    if d >= n || k == 0 then []
    else if HasRoom(avail, d, mem) then [d] + Pack(avail[d := avail[d] - mem], d, n, mem, k - 1)
    else Pack(avail, d + 1, n, mem, k)
  }

  // ----- the two searches as loops -----

  method FindTightestFit(avail: map<int, int>, n: nat, mem: int) returns (candDevId: string, found: bool)
    ensures found == TightestFit(avail, n, mem).Some?
    ensures candDevId == if found then Itoa(TightestFit(avail, n, mem).value) else ""
  {
    candDevId, found := "", false;
    var candGpuMem := 0;
    for devId := 0 to n
      invariant found == TightestFit(avail, devId, mem).Some?
      invariant found ==> candGpuMem == avail[TightestFit(avail, devId, mem).value]
      invariant candDevId == if found then Itoa(TightestFit(avail, devId, mem).value) else ""
    {
      if devId in avail {
        var idleGpuMem := avail[devId];
        if idleGpuMem >= mem {
          if found {
            ItoaDigits(TightestFit(avail, devId, mem).value);
          }
          if candDevId == "" || idleGpuMem < candGpuMem {
            candDevId := Itoa(devId);
            candGpuMem := idleGpuMem;
            found := true;
          }
        }
      }
    }
  }

  method FindPacking(avail: map<int, int>, n: nat, mem: int, count: nat) returns (candDevId: string, found: bool)
    requires count > 0
    ensures found == (|Pack(avail, 0, n, mem, count)| == count)
    ensures candDevId == if found then JoinIds(Pack(avail, 0, n, mem, count)) else ""
  {
    candDevId, found := "", false;
    var availableGpus := avail;
    var candDevIdList: seq<nat> := [];
    var devId, reqGpuId := 0, 0;
    while devId < n && reqGpuId < count
      invariant 0 <= devId <= n && reqGpuId == |candDevIdList| <= count
      invariant candDevIdList + Pack(availableGpus, devId, n, mem, count - reqGpuId) == Pack(avail, 0, n, mem, count)
      decreases n - devId + count - reqGpuId
    {
      if devId in availableGpus && availableGpus[devId] >= mem {
        var idleGpuMem := availableGpus[devId];
        candDevIdList := candDevIdList + [devId];
        availableGpus := availableGpus[devId := idleGpuMem - mem];
        reqGpuId := reqGpuId + 1;
      } else {
        devId := devId + 1;
      }
    }
    assert candDevIdList == Pack(avail, 0, n, mem, count);
    if reqGpuId == count {
      candDevId := Itoa(candDevIdList[0]);
      assert candDevIdList[..1] == [candDevIdList[0]];
      for i := 1 to |candDevIdList|
        invariant candDevId == JoinIds(candDevIdList[..i])
      {
        assert candDevIdList[..i + 1][..i] == candDevIdList[..i];
        candDevId := candDevId + "-" + Itoa(candDevIdList[i]);
      }
      assert candDevIdList[..|candDevIdList|] == candDevIdList;
      found := true;
    }
  }

  // ----- the tightest fit -----

  /** The one-GPU search finds a device exactly when one fits; what it returns
      has the least idle memory of those that fit, the lowest index on ties. */
  lemma {:induction false} TightestFitIsBest(avail: map<int, int>, n: nat, mem: int)
    ensures TightestFit(avail, n, mem).Some? <==> exists d :: 0 <= d < n && HasRoom(avail, d, mem)
    ensures TightestFit(avail, n, mem).Some? ==>
              var b := TightestFit(avail, n, mem).value;
              forall d :: 0 <= d < n && HasRoom(avail, d, mem) ==>
                            avail[b] <= avail[d] && (d < b ==> avail[b] < avail[d])
  {
    if n > 0 {
      TightestFitIsBest(avail, n - 1, mem);
      if HasRoom(avail, n - 1, mem) {
      } else {
        assert forall d :: 0 <= d < n && HasRoom(avail, d, mem) ==> d < n - 1;
      }
    }
  }

  // ----- what a placement is, independently of any search -----

  function Times(ids: seq<int>, d: int): nat {
    multiset(ids)[d]
  }

  /** A list of devices that together carry `mem` per occurrence within the
      idle memory of every device. */
  ghost predicate Fits(avail: map<int, int>, n: nat, mem: int, ids: seq<int>) {
    forall d :: d in ids ==> 0 <= d < n && d in avail && Times(ids, d) * mem <= avail[d]
  }

  /** How many requests of `mem` one device can carry. */
  function Slots(avail: map<int, int>, d: int, mem: int): nat
    requires mem > 0
  {
    if HasRoom(avail, d, mem) then avail[d] / mem else 0
  }

  function TotalSlots(avail: map<int, int>, d: nat, n: nat, mem: int): nat
    requires mem > 0
    decreases n - d
  {
    if d >= n then 0 else Slots(avail, d, mem) + TotalSlots(avail, d + 1, n, mem)
  }

  function Min(a: int, b: int): int {
    if a < b then a else b
  }

  // ----- the greedy packing -----

  lemma MulNonNegative(a: int, b: int)
    requires a >= 0 && b >= 0
    ensures a * b >= 0
  {
  }

  lemma MulCancel(t: int, u: int, mem: int)
    requires mem > 0 && t * mem < u * mem
    ensures t < u
  {
  }

  /** The quotient is the only q with q * mem <= idle < (q + 1) * mem. */
  lemma QuotientUnique(q: int, idle: int, mem: int)
    requires mem > 0 && q * mem <= idle < q * mem + mem
    ensures idle / mem == q
  {
    var t := idle / mem;
    assert t * mem <= idle < t * mem + mem;
    assert (t + 1) * mem == t * mem + mem && (q + 1) * mem == q * mem + mem;
    MulCancel(t, q + 1, mem);
    MulCancel(q, t + 1, mem);
  }

  lemma SlotsAfterOne(avail: map<int, int>, d: int, mem: int)
    requires mem > 0 && HasRoom(avail, d, mem)
    ensures Slots(avail, d, mem) == 1 + Slots(avail[d := avail[d] - mem], d, mem)
  {
    var idle := avail[d];
    var q := Slots(avail[d := avail[d] - mem], d, mem);
    assert q * mem <= idle - mem < q * mem + mem;
    assert (q + 1) * mem == q * mem + mem;
    QuotientUnique(q + 1, idle, mem);
  }

  lemma {:induction false} TotalSlotsFrame(avail: map<int, int>, other: map<int, int>, d: nat, n: nat, mem: int)
    requires mem > 0
    requires forall x :: d <= x < n ==> (x in avail <==> x in other)
    requires forall x :: d <= x < n && x in avail ==> avail[x] == other[x]
    ensures TotalSlots(avail, d, n, mem) == TotalSlots(other, d, n, mem)
    decreases n - d
  {
    if d < n {
      TotalSlotsFrame(avail, other, d + 1, n, mem);
    }
  }

  /** The greedy loop takes exactly as many devices as the floors of
      idle memory over request allow, up to the count asked for. */
  lemma {:induction false} PackLength(avail: map<int, int>, d: nat, n: nat, mem: int, k: nat)
    requires mem > 0
    ensures |Pack(avail, d, n, mem, k)| == Min(k, TotalSlots(avail, d, n, mem))
    decreases n - d + k
  {
    if d >= n || k == 0 {
    } else if HasRoom(avail, d, mem) {
      var less := avail[d := avail[d] - mem];
      PackLength(less, d, n, mem, k - 1);
      SlotsAfterOne(avail, d, mem);
      TotalSlotsFrame(avail, less, d + 1, n, mem);
    } else {
      PackLength(avail, d + 1, n, mem, k);
    }
  }

  lemma {:induction false} PackRange(avail: map<int, int>, d: nat, n: nat, mem: int, k: nat)
    ensures forall i :: 0 <= i < |Pack(avail, d, n, mem, k)| ==> d <= Pack(avail, d, n, mem, k)[i] < n
    ensures forall i, j :: 0 <= i < j < |Pack(avail, d, n, mem, k)| ==>
                             Pack(avail, d, n, mem, k)[i] <= Pack(avail, d, n, mem, k)[j]
    decreases n - d + k
  {
    if d >= n || k == 0 {
    } else if HasRoom(avail, d, mem) {
      PackRange(avail[d := avail[d] - mem], d, n, mem, k - 1);
    } else {
      PackRange(avail, d + 1, n, mem, k);
      assert Pack(avail, d, n, mem, k) == Pack(avail, d + 1, n, mem, k);
    }
  }

  lemma TimesCons(x: int, ids: seq<int>, d: int)
    ensures Times([x] + ids, d) == Times(ids, d) + if x == d then 1 else 0
  {
  }

  /** The placement found never asks more of a device than it has idle. */
  lemma {:induction false} PackFits(avail: map<int, int>, d: nat, n: nat, mem: int, k: nat)
    ensures Fits(avail, n, mem, Pack(avail, d, n, mem, k))
    decreases n - d + k
  {
    if d >= n || k == 0 {
    } else if HasRoom(avail, d, mem) {
      var less := avail[d := avail[d] - mem];
      var rest := Pack(less, d, n, mem, k - 1);
      PackFits(less, d, n, mem, k - 1);
      forall x | x in [d] + rest
        ensures 0 <= x < n && x in avail && Times([d] + rest, x) * mem <= avail[x]
      {
        TimesCons(d, rest, x);
        if x == d {
          assert (Times(rest, d) + 1) * mem == Times(rest, d) * mem + mem;
          if d !in rest {
            assert Times(rest, d) == 0;
          }
        }
      }
    } else {
      PackFits(avail, d + 1, n, mem, k);
    }
  }

  /** Device x could still take one more request after the list `used`. */
  ghost predicate RoomAfter(avail: map<int, int>, used: seq<int>, x: int, mem: int) {
    x in avail && (Times(used, x) + 1) * mem <= avail[x]
  }

  /** Each choice of the greedy loop is the least device that still had room. */
  lemma {:induction false} PackChoosesLeast(avail: map<int, int>, d: nat, n: nat, mem: int, k: nat, j: nat, x: int)
    requires j < |Pack(avail, d, n, mem, k)|
    requires d <= x < Pack(avail, d, n, mem, k)[j]
    ensures !RoomAfter(avail, Pack(avail, d, n, mem, k)[..j], x, mem)
    decreases n - d + k
  {
    var g := Pack(avail, d, n, mem, k);
    if HasRoom(avail, d, mem) {
      var less := avail[d := avail[d] - mem];
      var rest := Pack(less, d, n, mem, k - 1);
      assert j > 0;
      PackChoosesLeast(less, d, n, mem, k - 1, j - 1, x);
      assert g[..j] == [d] + rest[..j - 1];
      TimesCons(d, rest[..j - 1], x);
      if x == d {
        var t := Times(rest[..j - 1], d) + 1;
        assert (t + 1) * mem == t * mem + mem;
      }
    } else if x == d {
      PackRange(avail, d + 1, n, mem, k);
      assert g == Pack(avail, d + 1, n, mem, k);
      assert d !in g[..j];
      assert Times(g[..j], d) == 0;
    } else {
      PackChoosesLeast(avail, d + 1, n, mem, k, j, x);
    }
  }

  // ----- completeness and leastness against every other placement -----

  function SumTimes(ids: seq<int>, n: nat): nat {
    if n == 0 then 0 else SumTimes(ids, n - 1) + Times(ids, n - 1)
  }

  lemma {:induction false} SumTimesPush(ids: seq<int>, x: int, n: nat)
    requires x >= 0
    ensures SumTimes([x] + ids, n) == SumTimes(ids, n) + if x < n then 1 else 0
  {
    if n > 0 {
      SumTimesPush(ids, x, n - 1);
      TimesCons(x, ids, n - 1);
    }
  }

  /** Summed over the devices, the occurrences are the length of the list. */
  lemma {:induction false} SumTimesIsLength(ids: seq<int>, n: nat)
    requires forall x :: x in ids ==> 0 <= x < n
    ensures SumTimes(ids, n) == |ids|
  {
    if ids == [] {
      SumTimesEmpty(n);
    } else {
      assert ids[0] in ids && forall x :: x in ids[1..] ==> x in ids;
      SumTimesIsLength(ids[1..], n);
      SumTimesPush(ids[1..], ids[0], n);
      assert ids == [ids[0]] + ids[1..];
    }
  }

  lemma {:induction false} SumTimesEmpty(n: nat)
    ensures SumTimes([], n) == 0
  {
    if n > 0 {
      SumTimesEmpty(n - 1);
    }
  }

  lemma {:induction false} TotalSlotsSnoc(avail: map<int, int>, d: nat, n: nat, mem: int)
    requires mem > 0 && d <= n
    ensures TotalSlots(avail, d, n + 1, mem) == TotalSlots(avail, d, n, mem) + Slots(avail, n, mem)
    decreases n - d
  {
    if d < n {
      TotalSlotsSnoc(avail, d + 1, n, mem);
    }
  }

  lemma FloorBound(t: nat, mem: int, idle: int)
    requires mem > 0 && t * mem <= idle
    ensures t <= idle / mem
  {
    var q := idle / mem;
    assert idle < q * mem + mem;
    assert (q + 1) * mem == q * mem + mem;
    MulCancel(t, q + 1, mem);
  }

  lemma {:induction false} FitsBounded(avail: map<int, int>, n: nat, mem: int, ids: seq<int>, m: nat)
    requires mem > 0 && m <= n && Fits(avail, n, mem, ids)
    ensures SumTimes(ids, m) <= TotalSlots(avail, 0, m, mem)
  {
    if m > 0 {
      FitsBounded(avail, n, mem, ids, m - 1);
      TotalSlotsSnoc(avail, 0, m - 1, mem);
      var t := Times(ids, m - 1);
      if m - 1 in ids {
        assert t >= 1;
        assert t * mem >= mem;
        FloorBound(t, mem, avail[m - 1]);
      } else {
        assert t == 0;
      }
    }
  }

  /** A placement of `count` requests exists exactly when the floors of idle
      memory over request add up to at least `count`. */
  lemma PlacementExists(avail: map<int, int>, n: nat, mem: int, count: nat)
    requires mem > 0
    ensures TotalSlots(avail, 0, n, mem) >= count <==> exists ids :: |ids| == count && Fits(avail, n, mem, ids)
  {
    if TotalSlots(avail, 0, n, mem) >= count {
      PackLength(avail, 0, n, mem, count);
      PackFits(avail, 0, n, mem, count);
      var g: seq<int> := Pack(avail, 0, n, mem, count);
      assert |g| == count && Fits(avail, n, mem, g);
    }
    forall ids | |ids| == count && Fits(avail, n, mem, ids)
      ensures TotalSlots(avail, 0, n, mem) >= count
    {
      SumTimesIsLength(ids, n);
      FitsBounded(avail, n, mem, ids, n);
    }
  }

  /** The greedy loop finds a placement exactly when one exists. */
  lemma PackComplete(avail: map<int, int>, n: nat, mem: int, count: nat)
    requires mem > 0
    ensures |Pack(avail, 0, n, mem, count)| == count <==> exists ids :: |ids| == count && Fits(avail, n, mem, ids)
  {
    PlacementExists(avail, n, mem, count);
    PackLength(avail, 0, n, mem, count);
  }

  /** Lexicographic order on device lists of the same length. */
  predicate LexAtMost(a: seq<int>, b: seq<int>)
    requires |a| == |b|
  {
    a == [] || a[0] < b[0] || (a[0] == b[0] && LexAtMost(a[1..], b[1..]))
  }

  lemma {:induction false} LexByFirstDifference(a: seq<int>, b: seq<int>)
    requires |a| == |b|
    requires forall j :: 0 <= j < |a| && a[..j] == b[..j] ==> a[j] <= b[j]
    ensures LexAtMost(a, b)
  {
    if a != [] {
      assert a[..0] == b[..0];
      if a[0] == b[0] {
        forall j | 0 <= j < |a| - 1 && a[1..][..j] == b[1..][..j]
          ensures a[1..][j] <= b[1..][j]
        {
          assert a[..j + 1] == [a[0]] + a[1..][..j];
          assert b[..j + 1] == [b[0]] + b[1..][..j];
        }
        LexByFirstDifference(a[1..], b[1..]);
      }
    }
  }

  lemma PrefixTimes(ids: seq<int>, j: nat)
    requires j < |ids|
    ensures Times(ids[..j], ids[j]) + 1 <= Times(ids, ids[j])
  {
    assert ids == ids[..j] + [ids[j]] + ids[j + 1..];
  }

  /** After a common prefix with another placement the greedy choice is not
      greater. */
  lemma PackStepLeast(avail: map<int, int>, n: nat, mem: int, count: nat, ids: seq<int>, j: nat)
    requires mem > 0 && Fits(avail, n, mem, ids)
    requires j < |Pack(avail, 0, n, mem, count)| && j < |ids| && Pack(avail, 0, n, mem, count)[..j] == ids[..j]
    ensures Pack(avail, 0, n, mem, count)[j] <= ids[j]
  {
    var x := ids[j];
    assert x in ids && x in avail && x >= 0;
    PrefixTimes(ids, j);
    TimesMonotone(Times(ids[..j], x) + 1, Times(ids, x), mem);
    assert RoomAfter(avail, ids[..j], x, mem);
    if x < Pack(avail, 0, n, mem, count)[j] {
      PackChoosesLeast(avail, 0, n, mem, count, j, x);
      assert false;
    }
  }

  lemma TimesMonotone(t: int, u: int, mem: int)
    requires t <= u && mem >= 0
    ensures t * mem <= u * mem
  {
    MulNonNegative(u - t, mem);
    assert (u - t) * mem == u * mem - t * mem;
  }

  /** Of all placements of that many requests, in whatever order they list the
      devices, the greedy loop returns the lexicographically least. */
  lemma PackIsLexLeast(avail: map<int, int>, n: nat, mem: int, count: nat, ids: seq<int>)
    requires mem > 0 && |ids| == count && Fits(avail, n, mem, ids)
    ensures |Pack(avail, 0, n, mem, count)| == count
    ensures LexAtMost(Pack(avail, 0, n, mem, count), ids)
  {
    PackComplete(avail, n, mem, count);
    var g := Pack(avail, 0, n, mem, count);
    forall j | 0 <= j < count && g[..j] == ids[..j]
      ensures g[j] <= ids[j]
    {
      PackStepLeast(avail, n, mem, count, ids, j);
    }
    LexByFirstDifference(g, ids);
  }

  // ----- one threshold for both searches -----

  /** The one-GPU search succeeds exactly when one slot exists, so both
      branches decide the same question. */
  lemma TightestFitThreshold(avail: map<int, int>, n: nat, mem: int)
    requires mem > 0
    ensures TightestFit(avail, n, mem).Some? <==> TotalSlots(avail, 0, n, mem) >= 1
  {
    TightestFitIsBest(avail, n, mem);
    SomeSlot(avail, 0, n, mem);
  }

  lemma {:induction false} SomeSlot(avail: map<int, int>, d: nat, n: nat, mem: int)
    requires mem > 0
    ensures TotalSlots(avail, d, n, mem) >= 1 <==> exists x :: d <= x < n && HasRoom(avail, x, mem)
    decreases n - d
  {
    if d < n {
      SomeSlot(avail, d + 1, n, mem);
      if HasRoom(avail, d, mem) {
        FloorBound(1, mem, avail[d]);
      }
    }
  }

  lemma FloorMonotone(mem: int, mem': int, idle: int, idle': int)
    requires 0 < mem' <= mem && 0 <= idle <= idle'
    ensures idle / mem <= idle' / mem'
  {
    var t := idle / mem;
    assert 0 <= t;
    assert t * mem <= idle;
    assert t * mem' <= t * mem;
    FloorBound(t, mem', idle');
  }

  /** Feasibility survives a smaller request and more idle memory. */
  lemma {:induction false} SlotsMonotone(avail: map<int, int>, more: map<int, int>, d: nat, n: nat, mem: int, mem': int)
    requires 0 < mem' <= mem
    requires forall x :: x in avail ==> x in more && avail[x] <= more[x]
    ensures TotalSlots(avail, d, n, mem) <= TotalSlots(more, d, n, mem')
    decreases n - d
  {
    if d < n {
      SlotsMonotone(avail, more, d + 1, n, mem, mem');
      if HasRoom(avail, d, mem) {
        FloorMonotone(mem, mem', avail[d], more[d]);
      }
    }
  }

  // ----- Assume -----

  /** How many of the devices 0 .. n-1 have room for one request. */
  function Roomy(avail: map<int, int>, n: nat, mem: int): nat {
    if n == 0 then 0 else Roomy(avail, n - 1, mem) + if HasRoom(avail, n - 1, mem) then 1 else 0
  }

  lemma {:induction false} RoomyEmpty(n: nat, mem: int)
    ensures Roomy(map[], n, mem) == 0
  {
    if n > 0 {
      RoomyEmpty(n - 1, mem);
    }
  }

  lemma {:induction false} RoomyGrows(avail: map<int, int>, m: nat, n: nat, mem: int)
    requires m <= n
    ensures Roomy(avail, m, mem) <= Roomy(avail, n, mem)
    decreases n
  {
    if m < n {
      RoomyGrows(avail, m, n - 1, mem);
    }
  }

  /** Assume wants a different device for each GPU, so what it accepts the
      allocator can place. */
  lemma {:induction false} RoomyAtMostSlots(avail: map<int, int>, n: nat, mem: int)
    requires mem > 0
    ensures Roomy(avail, n, mem) <= TotalSlots(avail, 0, n, mem)
  {
    if n > 0 {
      RoomyAtMostSlots(avail, n - 1, mem);
      TotalSlotsSnoc(avail, 0, n - 1, mem);
      if HasRoom(avail, n - 1, mem) {
        FloorBound(1, mem, avail[n - 1]);
      }
    }
  }
}
