/** Why one update per pod is what the rendezvous needs: the handler cannot tell
    a second one from the next pod's. */
module SecondUpdate {
  import opened Kube
  import opened Rendezvous

  // ----- any number of updates -----

  /** 1 for a pod that waits for a node, else 0. */
  function Once(sc: Script, j: nat): nat {
    if j < |sc.pods| && sc.pods[j].nodeName == "" then 1 else 0
  }

  /** How many of the first i pods wait for a node. */
  function Waiters(sc: Script, i: nat): nat {
    if i == 0 then 0 else Waiters(sc, i - 1) + Once(sc, i - 1)
  }

  /** The pod the loop has been released from but not yet left. */
  function Released(sc: Script, s: State): nat
  {
    if s.main == Checking && s.i < |sc.pods| && sc.pods[s.i].nodeName == "" then 1 else 0
  }

  /** Every update made is queued, being sent, or has released the loop from one
      pod that waits. */
  ghost predicate Counted(sc: Script, s: State)
    requires sc.Valid()
  {
    && s.i <= |sc.pods|
    && (s.main == Waiting ==> s.i < |sc.pods| && sc.pods[s.i].nodeName == "")
    && (forall j, t :: (j, t) in s.work ==> j < |sc.pods| && sc.pods[j].nodeName == "")
    && (forall k :: 0 <= k < |s.made| ==> s.made[k] < |sc.pods| && sc.pods[s.made[k]].nodeName == "")
    && (s.main != Aborted ==>
          |s.made| == |s.queue| + (if s.handler == Sending then 1 else 0) + Waiters(sc, s.i) + Released(sc, s))
  }

  lemma NextCounted(sc: Script, s: State, a: Act)
    requires sc.Valid() && Counted(sc, s) && s.main != Aborted && Enabled(sc, s, a)
    ensures Counted(sc, Next(sc, s, a))
  {
  }
  lemma {:induction false} RunCounted(sc: Script, acts: seq<Act>)
    requires sc.Valid() && IsRun(sc, acts)
    ensures Counted(sc, After(sc, acts).value)
    decreases |acts|
  {
    if acts != [] {
      var init := acts[..|acts| - 1];
      RunCounted(sc, init);
      if After(sc, init).value.main == Aborted {
        AbortedCounted(sc, After(sc, init).value, acts[|acts| - 1]);
      } else {
        NextCounted(sc, After(sc, init).value, acts[|acts| - 1]);
      }
    }
  }

  lemma AbortedCounted(sc: Script, s: State, a: Act)
    requires sc.Valid() && Counted(sc, s) && s.main == Aborted && Enabled(sc, s, a)
    ensures Counted(sc, Next(sc, s, a))
  {
  }

  function Count(pods: seq<nat>, j: nat): nat {
    if pods == [] then 0 else Count(pods[..|pods| - 1], j) + if pods[|pods| - 1] == j then 1 else 0
  }

  function SumCounts(pods: seq<nat>, n: nat): nat {
    if n == 0 then 0 else SumCounts(pods, n - 1) + Count(pods, n - 1)
  }

  lemma {:induction false} SumCountsSnoc(pods: seq<nat>, n: nat)
    requires pods != []
    ensures SumCounts(pods, n) == SumCounts(pods[..|pods| - 1], n) + if pods[|pods| - 1] < n then 1 else 0
  {
    if n > 0 {
      SumCountsSnoc(pods, n - 1);
    }
  }

  /** Summed over the pods, the occurrences are the length of the list. */
  lemma {:induction false} SumCountsIsLength(pods: seq<nat>, n: nat)
    requires forall k :: 0 <= k < |pods| ==> pods[k] < n
    ensures SumCounts(pods, n) == |pods|
    decreases |pods|
  {
    if pods == [] {
      SumCountsEmpty(n);
    } else {
      SumCountsSnoc(pods, n);
      SumCountsIsLength(pods[..|pods| - 1], n);
    }
  }

  lemma {:induction false} SumCountsEmpty(n: nat)
    ensures SumCounts([], n) == 0
  {
    if n > 0 {
      SumCountsEmpty(n - 1);
    }
  }

  /** Where each count is at least 1 for a pod that waits, the sums agree exactly
      when all counts do. */
  lemma {:induction false} SumsAgreeIff(sc: Script, pods: seq<nat>, n: nat)
    requires forall j: nat :: Count(pods, j) >= Once(sc, j)
    ensures SumCounts(pods, n) >= Waiters(sc, n)
    ensures SumCounts(pods, n) == Waiters(sc, n) <==> forall j :: 0 <= j < n ==> Count(pods, j) == Once(sc, j)
  {
    if n > 0 {
      SumsAgreeIff(sc, pods, n - 1);
    }
  }

  /** The loop has passed all pods. */
  predicate Passed(sc: Script, s: State) {
    s.main == Creating && s.i == |sc.pods|
  }

  /** Exactly one update each is what it takes: a run that has passed all pods,
      and in which every pod that waits for a node got an update, leaves nothing
      behind for the handler to say if and only if each of them got exactly
      one. */
  lemma QuietIffOneEach(sc: Script, acts: seq<Act>)
    requires sc.Valid() && IsRun(sc, acts) && Passed(sc, After(sc, acts).value)
    requires forall j: nat :: Count(After(sc, acts).value.made, j) >= Once(sc, j)
    ensures var s := After(sc, acts).value;
            s.queue == [] && s.handler == Idle <==> forall j :: 0 <= j < |sc.pods| ==> Count(s.made, j) == Once(sc, j)
  {
    var s := After(sc, acts).value;
    RunCounted(sc, acts);
    SumCountsIsLength(s.made, |sc.pods|);
    SumsAgreeIff(sc, s.made, |sc.pods|);
  }

  // ----- a second update -----

  /** Two pods: the first is bound and then, in a second update, called
      unschedulable; the second one is bound. */
  function TwoUpdates(early: Pod, early': Pod, late: Pod, late': Pod, stop: Condition): Script {
    Script([early, late], [[Update(early', []), Update(early', [stop])], [Update(late', [])]], [])
  }

  predicate TwoUpdatesOk(early: Pod, early': Pod, late: Pod, late': Pod, stop: Condition) {
    && early.nodeName == "" && early.schedulerName == DEFAULT_SCHEDULER && SamePod(early, early')
    && late.nodeName == "" && late.schedulerName == DEFAULT_SCHEDULER && SamePod(late, late')
    && ObjectKey(early) != ObjectKey(late) && Stops(stop)
  }

  lemma Extends(sc: Script, acts: seq<Act>, s: State, a: Act, more: seq<Act>, s': State)
    requires sc.Valid() && After(sc, acts) == Some(s) && Enabled(sc, s, a)
    requires more == acts + [a] && Next(sc, s, a) == s'
    ensures After(sc, more) == Some(s')
  {
    assert more[..|more| - 1] == acts;
  }

  /** The first pod is created and decided. */
  lemma EarlyDecided(sc: Script, early': Pod)
    requires sc.Valid() && |sc.pods| == 2 && |sc.updates[0]| == 2 && sc.before == []
    requires sc.updates[0][0].pod == early' && sc.pods[0].nodeName == "" && sc.pods[0].schedulerName == DEFAULT_SCHEDULER
    ensures After(sc, [Create] + [Decide(0, 0)]) == Some(State(0, Waiting, {(0, 1)}, [(0, 0)], Idle, "", [], [early'], [0]))
  {
    var early := sc.pods[0];
    var s1 := State(0, Waiting, {(0, 0), (0, 1)}, [], Idle, "", [], [early], []);
    var s2 := State(0, Waiting, {(0, 1)}, [(0, 0)], Idle, "", [], [early'], [0]);
    assert UpdatesOf(sc, 0) == {(0, 0), (0, 1)};
    Extends(sc, [], Start(sc), Create, [Create], s1);
    LastPod([], early', early);
    assert [] + [early] == [early] && [] + [early'] == [early'];
    assert s1.work - {(0, 0)} == {(0, 1)};
    Extends(sc, [Create], s1, Decide(0, 0), [Create] + [Decide(0, 0)], s2);
  }

  /** Its first update has no stop reason, so it is passed. */
  lemma EarlyPassed(sc: Script, acts: seq<Act>, early': Pod)
    requires sc.Valid() && |sc.pods| == 2 && |sc.updates[0]| == 2 && sc.updates[0][0].conditions == []
    requires After(sc, acts) == Some(State(0, Waiting, {(0, 1)}, [(0, 0)], Idle, "", [], [early'], [0]))
    ensures After(sc, acts + [Handle] + [Meet] + [Check]) == Some(State(1, Creating, {(0, 1)}, [], Idle, "", [], [early'], [0]))
  {
    var s2 := State(0, Waiting, {(0, 1)}, [(0, 0)], Idle, "", [], [early'], [0]);
    var s3 := State(0, Waiting, {(0, 1)}, [], Sending, "", [], [early'], [0]);
    var s4 := State(0, Checking, {(0, 1)}, [], Idle, "", [], [early'], [0]);
    Extends(sc, acts, s2, Handle, acts + [Handle], s3);
    Extends(sc, acts + [Handle], s3, Meet, acts + [Handle] + [Meet], s4);
    assert !Contains("", "failed");
    Extends(sc, acts + [Handle] + [Meet], s4, Check, acts + [Handle] + [Meet] + [Check],
            State(1, Creating, {(0, 1)}, [], Idle, "", [], [early'], [0]));
  }

  /** While the loop waits for the second pod, the second update of the first
      one is made and releases it. */
  lemma LateReleased(sc: Script, acts: seq<Act>, early': Pod, stop: Condition)
    requires sc.Valid() && |sc.pods| == 2 && |sc.updates[0]| == 2 && |sc.updates[1]| == 1 && Stops(stop)
    requires sc.updates[0][1] == Update(early', [stop]) && ObjectKey(sc.pods[0]) == ObjectKey(early') != ObjectKey(sc.pods[1])
    requires sc.pods[1].nodeName == "" && sc.pods[1].schedulerName == DEFAULT_SCHEDULER
    requires After(sc, acts) == Some(State(1, Creating, {(0, 1)}, [], Idle, "", [], [early'], [0]))
    ensures After(sc, acts + [Create] + [Decide(0, 1)] + [Handle] + [Meet]) ==
            Some(State(1, Checking, {(1, 0)}, [], Idle, ReasonText(sc.pods[0], stop), [], [early', sc.pods[1]], [0, 0]))
  {
    var late, r := sc.pods[1], ReasonText(sc.pods[0], stop);
    var s1 := State(1, Waiting, {(0, 1), (1, 0)}, [], Idle, "", [], [early', late], [0]);
    var s2 := State(1, Waiting, {(1, 0)}, [(0, 1)], Idle, "", [], [early', late], [0, 0]);
    var s3 := State(1, Waiting, {(1, 0)}, [], Sending, r, [], [early', late], [0, 0]);
    assert UpdatesOf(sc, 1) == {(1, 0)};
    assert ObjectKey([early'][0]) != ObjectKey(late);
    assert [early'] + [late] == [early', late];
    Extends(sc, acts, State(1, Creating, {(0, 1)}, [], Idle, "", [], [early'], [0]), Create, acts + [Create], s1);
    assert ObjectKey(s1.store[0]) == ObjectKey(early') && ReplacePod(s1.store, early') == s1.store;
    assert s1.work - {(0, 1)} == {(1, 0)} && [0] + [0] == [0, 0];
    Extends(sc, acts + [Create], s1, Decide(0, 1), acts + [Create] + [Decide(0, 1)], s2);
    assert FirstStop([stop]) == Some(stop);
    Extends(sc, acts + [Create] + [Decide(0, 1)], s2, Handle, acts + [Create] + [Decide(0, 1)] + [Handle], s3);
    Extends(sc, acts + [Create] + [Decide(0, 1)] + [Handle], s3, Meet, acts + [Create] + [Decide(0, 1)] + [Handle] + [Meet],
            s3.(main := Checking, handler := Idle));
  }

  /** The second pod is deleted and recorded with the first one's reason. */
  lemma LateBlamed(sc: Script, acts: seq<Act>, early': Pod, reason: string)
    requires sc.Valid() && |sc.pods| == 2 && ObjectKey(early') != ObjectKey(sc.pods[1]) && Contains(reason, "failed")
    requires After(sc, acts) == Some(State(1, Checking, {(1, 0)}, [], Idle, reason, [], [early', sc.pods[1]], [0, 0]))
    ensures After(sc, acts + [Check]) ==
            Some(State(2, Creating, {(1, 0)}, [], Idle, "", [UnscheduledPod(sc.pods[1], reason)], [early'], [0, 0]))
  {
    var late := sc.pods[1];
    var s1 := State(1, Checking, {(1, 0)}, [], Idle, reason, [], [early', late], [0, 0]);
    var s2 := State(2, Creating, {(1, 0)}, [], Idle, "", [UnscheduledPod(late, reason)], [early'], [0, 0]);
    assert !HasKey([early'], ObjectKey(late));
    LastPod([early'], late, late);
    assert [early'] + [late] == [early', late];
    Extends(sc, acts, s1, Check, acts + [Check], s2);
  }

  function LatePath(): seq<Act> {
    [Create] + [Decide(0, 0)] + [Handle] + [Meet] + [Check]
    + [Create] + [Decide(0, 1)] + [Handle] + [Meet] + [Check]
  }

  /** A second update can release the loop for the next pod and leave it the
      wrong reason: here the second pod, which no update calls unschedulable, is
      deleted and recorded with the reason of the first, and nothing more
      happens. */
  lemma SecondUpdateMisleads(early: Pod, early': Pod, late: Pod, late': Pod, stop: Condition)
    requires TwoUpdatesOk(early, early', late, late', stop)
    ensures var sc := TwoUpdates(early, early', late, late', stop);
            && sc.Valid() && IsRun(sc, LatePath())
            && Rejected(sc, 2) == [] && Kept(sc, 2) == [early', late']
            && After(sc, LatePath()).value.failed == [UnscheduledPod(late, ReasonText(early, stop))]
            && After(sc, LatePath()).value.store == [early']
            && Passed(sc, After(sc, LatePath()).value) && Halted(sc, After(sc, LatePath()).value)
  {
    var sc := TwoUpdates(early, early', late, late', stop);
    EarlyDecided(sc, early');
    EarlyPassed(sc, [Create] + [Decide(0, 0)], early');
    LateReleased(sc, [Create] + [Decide(0, 0)] + [Handle] + [Meet] + [Check], early', stop);
    ReasonRecognised(early, stop);
    LateBlamed(sc, [Create] + [Decide(0, 0)] + [Handle] + [Meet] + [Check] + [Create] + [Decide(0, 1)] + [Handle] + [Meet],
               early', ReasonText(early, stop));
    KeptOfTwo(sc, early', late');
    NothingMore(sc, After(sc, LatePath()).value, early');
  }

  lemma KeptOfTwo(sc: Script, early': Pod, late': Pod)
    requires sc.Valid() && |sc.pods| == 2 && Decided(sc, 0) && Decided(sc, 1)
    requires sc.updates[0][0] == Update(early', []) && sc.updates[1][0] == Update(late', [])
    ensures Rejected(sc, 2) == [] && Kept(sc, 2) == [early', late']
  {
    assert Kept(sc, 1) == [early'] && Rejected(sc, 1) == [];
  }

  lemma NothingMore(sc: Script, s: State, early': Pod)
    requires sc.Valid() && |sc.pods| == 2 && s.i == 2 && s.main == Creating && s.work == {(1, 0)} && s.queue == []
    requires s.handler == Idle && s.store == [early'] && ObjectKey(early') != ObjectKey(sc.pods[1])
    ensures Halted(sc, s)
  {
    forall a: Act
      ensures !Enabled(sc, s, a)
    {
    }
  }

  const EARLY := Pod("e", "ns", "early", "", Pending, DEFAULT_SCHEDULER, 0, 0, "")
  const LATE := Pod("l", "ns", "late", "", Pending, DEFAULT_SCHEDULER, 0, 0, "")
  const STOP := Condition("PodScheduled", "False", "Unschedulable", "")

  /** A concrete pair. */
  lemma ConcreteMisled()
    ensures TwoUpdatesOk(EARLY, EARLY.(nodeName := "n"), LATE, LATE.(nodeName := "n"), STOP)
    ensures var sc := TwoUpdates(EARLY, EARLY.(nodeName := "n"), LATE, LATE.(nodeName := "n"), STOP);
            && sc.Valid() && NamesFree(sc) && IsRun(sc, LatePath())
            && After(sc, LatePath()).value.failed == [UnscheduledPod(LATE, ReasonText(EARLY, STOP))]
  {
    assert EARLY.name[0] != LATE.name[0];
    SecondUpdateMisleads(EARLY, EARLY.(nodeName := "n"), LATE, LATE.(nodeName := "n"), STOP);
  }
}
