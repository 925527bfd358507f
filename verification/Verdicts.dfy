/** Rejections and taken names in the words of the conditions and of the pods'
    own namespaces and names. */
module Verdicts {
  import opened Kube
  import opened Rendezvous

  // ----- the reason -----

  /** The scheduler could not place the pod. */
  predicate Unplaceable(c: Condition) {
    c.kind == "PodScheduled" && c.status == "False" && c.reason == "Unschedulable"
  }

  /** The i-th condition is the first that says so. */
  predicate FirstUnplaceable(conditions: seq<Condition>, i: nat) {
    i < |conditions| && Unplaceable(conditions[i]) && forall k :: 0 <= k < i ==> !Unplaceable(conditions[k])
  }

  lemma {:induction false} FirstStopMeaning(conditions: seq<Condition>)
    ensures FirstStop(conditions).None? <==> forall i :: 0 <= i < |conditions| ==> !Unplaceable(conditions[i])
    ensures FirstStop(conditions).Some? ==>
              exists i: nat :: FirstUnplaceable(conditions, i) && FirstStop(conditions).value == conditions[i]
  {
    if conditions != [] {
      var rest := conditions[1..];
      FirstStopMeaning(rest);
      if Unplaceable(conditions[0]) {
        assert FirstUnplaceable(conditions, 0);
      } else {
        assert forall i :: 0 <= i < |conditions| && Unplaceable(conditions[i]) ==> i > 0 && conditions[i] == rest[i - 1];
        if FirstStop(rest).Some? {
          var i: nat :| FirstUnplaceable(rest, i) && FirstStop(rest).value == rest[i];
          assert FirstUnplaceable(conditions, i + 1) && conditions[i + 1] == rest[i];
        }
        assert forall i :: 0 <= i < |rest| ==> rest[i] == conditions[i + 1];
      }
    }
  }

  /** What the handler's scan leaves: nothing if no condition says the pod is
      unplaceable, else the pod's namespace and name, and reason and message of
      the first that does. */
  lemma ReasonOfMeaning(p: Pod, u: Update)
    ensures (forall i :: 0 <= i < |u.conditions| ==> !Unplaceable(u.conditions[i])) ==> ReasonOf(p, u) == ""
    ensures forall i: nat :: FirstUnplaceable(u.conditions, i) ==>
                               ReasonOf(p, u) == "failed to schedule pod (" + p.namespace + "/" + p.name + "): "
                               + "Unschedulable" + ": " + u.conditions[i].message
  {
    FirstStopMeaning(u.conditions);
    forall i: nat | FirstUnplaceable(u.conditions, i)
      ensures ReasonOf(p, u) == "failed to schedule pod (" + p.namespace + "/" + p.name + "): "
                                + "Unschedulable" + ": " + u.conditions[i].message
    {
      var j: nat :| FirstUnplaceable(u.conditions, j) && FirstStop(u.conditions).value == u.conditions[j];
      assert i == j;
    }
  }

  /** Different messages give different texts. */
  lemma MessageTold(p: Pod, m: string, m': string)
    requires "failed to schedule pod (" + p.namespace + "/" + p.name + "): " + "Unschedulable" + ": " + m
          == "failed to schedule pod (" + p.namespace + "/" + p.name + "): " + "Unschedulable" + ": " + m'
    ensures m == m'
  {
    var prefix := "failed to schedule pod (" + p.namespace + "/" + p.name + "): " + "Unschedulable" + ": ";
    assert (prefix + m)[|prefix|..] == m && (prefix + m')[|prefix|..] == m';
  }

  /** A pod is rejected if and only if it came without a node and its update has
      a condition that says it is unplaceable. */
  lemma RejectedIff(sc: Script, j: nat)
    requires sc.Valid() && j < |sc.pods|
    ensures Verdict(sc, j).Some? <==>
            && sc.pods[j].nodeName == "" && sc.updates[j] != []
            && exists i :: 0 <= i < |sc.updates[j][0].conditions| && Unplaceable(sc.updates[j][0].conditions[i])
  {
    if Decided(sc, j) {
      FirstStopMeaning(sc.updates[j][0].conditions);
    }
  }

  /** This is a record of pod j: the pod as it was generated, and the text with
      its own namespace and name and the message of the first condition of its
      own update that says it is unplaceable. */
  ghost predicate RecordOf(sc: Script, j: nat, u: UnscheduledPod)
    requires sc.Valid()
  {
    && j < |sc.pods| && u.pod == sc.pods[j] && sc.updates[j] != []
    && exists i: nat :: FirstUnplaceable(sc.updates[j][0].conditions, i) &&
                        u.reason == "failed to schedule pod (" + u.pod.namespace + "/" + u.pod.name + "): "
                        + "Unschedulable" + ": " + sc.updates[j][0].conditions[i].message
  }

  lemma VerdictRecorded(sc: Script, j: nat)
    requires sc.Valid() && j < |sc.pods| && Verdict(sc, j).Some?
    ensures RecordOf(sc, j, UnscheduledPod(sc.pods[j], Verdict(sc, j).value))
  {
    var u := sc.updates[j][0];
    FirstStopMeaning(u.conditions);
    var i: nat :| FirstUnplaceable(u.conditions, i) && FirstStop(u.conditions).value == u.conditions[i];
    ReasonOfMeaning(sc.pods[j], u);
  }

  ghost predicate Recorded(sc: Script, u: UnscheduledPod)
    requires sc.Valid()
  {
    exists j: nat :: RecordOf(sc, j, u)
  }

  /** Every recorded failure is a record of one of the pods. */
  lemma {:induction false} RejectedRecords(sc: Script, n: nat)
    requires sc.Valid() && n <= |sc.pods|
    ensures forall k :: 0 <= k < |Rejected(sc, n)| ==> Recorded(sc, Rejected(sc, n)[k])
  {
    if n > 0 {
      RejectedRecords(sc, n - 1);
      if Verdict(sc, n - 1).Some? {
        VerdictRecorded(sc, n - 1);
        assert Recorded(sc, UnscheduledPod(sc.pods[n - 1], Verdict(sc, n - 1).value));
      } else {
        assert Rejected(sc, n) == Rejected(sc, n - 1);
      }
    }
  }

  predicate StandsAt(s: string, part: string, i: nat) {
    i + |part| <= |s| && s[i..i + |part|] == part
  }

  /** The check for a part of a text. */
  lemma {:induction false} ContainsIff(s: string, part: string)
    ensures Contains(s, part) <==> exists i: nat :: StandsAt(s, part, i)
  {
    if part <= s {
      assert StandsAt(s, part, 0);
    } else if s != "" {
      ContainsIff(s[1..], part);
      if i: nat :| StandsAt(s, part, i) {
        assert i > 0 && s[1..][i - 1..i - 1 + |part|] == s[i..i + |part|];
        assert StandsAt(s[1..], part, i - 1);
      }
      if i: nat :| StandsAt(s[1..], part, i) {
        assert s[1..][i..i + |part|] == s[i + 1..i + 1 + |part|];
        assert StandsAt(s, part, i + 1);
      }
    }
  }

  // ----- taken names -----

  predicate SameName(p: Pod, q: Pod) {
    p.namespace == q.namespace && p.name == q.name
  }

  lemma SameNameKept(sc: Script, i: nat, q: Pod)
    requires sc.Valid() && i < |sc.pods|
    ensures SameName(Scheduled(sc, i), q) <==> SameName(sc.pods[i], q)
  {
  }

  /** Which pods are kept among the first n. */
  lemma {:induction false} KeptMembers(sc: Script, n: nat, q: Pod)
    requires sc.Valid() && n <= |sc.pods|
    ensures (exists k :: 0 <= k < |Kept(sc, n)| && SameName(Kept(sc, n)[k], q)) <==>
            (exists i :: 0 <= i < n && Verdict(sc, i).None? && SameName(sc.pods[i], q))
  {
    if n > 0 {
      KeptMembers(sc, n - 1, q);
      SameNameKept(sc, n - 1, q);
      var kept, last := Kept(sc, n - 1), Scheduled(sc, n - 1);
      if Verdict(sc, n - 1).None? {
        assert Kept(sc, n) == kept + [last] && Kept(sc, n)[|kept|] == last;
        if k :| 0 <= k < |kept| && SameName(kept[k], q) {
          assert SameName(Kept(sc, n)[k], q);
        }
      } else {
        assert Kept(sc, n) == kept;
      }
    }
  }

  /** Creating a pod meets a taken name if and only if some pod that was on the
      server, or an earlier one that was kept, has the same namespace and the
      same name. */
  lemma ConflictIff(sc: Script, j: nat)
    requires sc.Valid() && j < |sc.pods|
    ensures Conflict(sc, j) <==>
            || (exists k :: 0 <= k < |sc.before| && SameName(sc.before[k], sc.pods[j]))
            || (exists i :: 0 <= i < j && Verdict(sc, i).None? && SameName(sc.pods[i], sc.pods[j]))
  {
    var q, store := sc.pods[j], StoreAt(sc, j);
    KeptMembers(sc, j, q);
    if k :| 0 <= k < |store| && ObjectKey(store[k]) == ObjectKey(q) {
      if k < |sc.before| {
        assert SameName(sc.before[k], q);
      } else {
        assert SameName(Kept(sc, j)[k - |sc.before|], q);
      }
    }
    if k :| 0 <= k < |sc.before| && SameName(sc.before[k], q) {
      assert ObjectKey(store[k]) == ObjectKey(q);
    }
    if k :| 0 <= k < |Kept(sc, j)| && SameName(Kept(sc, j)[k], q) {
      assert ObjectKey(store[|sc.before| + k]) == ObjectKey(q);
    }
  }

  /** The pods differ from one another, and from those on the server, in
      namespace or in name. */
  predicate NamesDiffer(sc: Script) {
    && (forall i, j :: 0 <= i < j < |sc.pods| ==>
                         sc.pods[i].namespace != sc.pods[j].namespace || sc.pods[i].name != sc.pods[j].name)
    && (forall i, k :: 0 <= i < |sc.pods| && 0 <= k < |sc.before| ==>
                         sc.pods[i].namespace != sc.before[k].namespace || sc.pods[i].name != sc.before[k].name)
  }

  lemma NoneTaken(sc: Script, j: nat)
    requires sc.Valid() && NamesDiffer(sc) && j < |sc.pods|
    ensures !Conflict(sc, j)
  {
    ConflictIff(sc, j);
  }

  lemma {:induction false} FateWithoutConflict(sc: Script, i: nat)
    requires sc.Valid() && i <= |sc.pods| && forall j :: 0 <= j < |sc.pods| ==> !Conflict(sc, j)
    ensures FateFrom(sc, i).Ends? <==> forall j :: i <= j < |sc.pods| ==> !Silent(sc, j)
    ensures FateFrom(sc, i) != NameTaken
    decreases |sc.pods| - i
  {
    if i < |sc.pods| {
      FateWithoutConflict(sc, i + 1);
    }
  }

  /** When names differ the loop passes all pods if and only if each pod without
      a node names the default scheduler and gets an update; otherwise it waits
      for ever. */
  lemma EndsIff(sc: Script)
    requires sc.Valid() && NamesDiffer(sc)
    ensures FateFrom(sc, 0).Ends? <==>
            forall j :: 0 <= j < |sc.pods| && sc.pods[j].nodeName == "" ==>
                          sc.pods[j].schedulerName == "default-scheduler" && sc.updates[j] != []
    ensures !FateFrom(sc, 0).Ends? ==> FateFrom(sc, 0).Waits?
  {
    forall j | 0 <= j < |sc.pods|
      ensures !Conflict(sc, j)
    {
      NoneTaken(sc, j);
    }
    FateWithoutConflict(sc, 0);
    forall j | 0 <= j < |sc.pods|
      ensures !Silent(sc, j) <==>
              (sc.pods[j].nodeName == "" ==> sc.pods[j].schedulerName == "default-scheduler" && sc.updates[j] != [])
    {
    }
  }

  /** A second pod of a name stops the loop with an error, if the first was kept
      and nothing blocked the loop before. */
  lemma TwinTaken(sc: Script, i: nat, j: nat)
    requires sc.Valid() && i < j < |sc.pods| && Unblocked(sc, j)
    requires Verdict(sc, i).None? && sc.pods[i].namespace == sc.pods[j].namespace && sc.pods[i].name == sc.pods[j].name
    ensures FateFrom(sc, 0) == NameTaken
  {
    assert SameName(sc.pods[i], sc.pods[j]);
    ConflictIff(sc, j);
    FateSkips(sc, j);
  }

  // ----- whole rounds, and two concrete runs -----

  /** The next action of a run. */
  lemma Advance(sc: Script, acts: seq<Act>, a: Act) returns (more: seq<Act>)
    requires sc.Single() && IsRun(sc, acts) && Enabled(sc, After(sc, acts).value, a)
    ensures more == acts + [a] && IsRun(sc, more)
    ensures After(sc, more).value == Next(sc, After(sc, acts).value, a) && Inv(sc, After(sc, more).value)
  {
    more := acts + [a];
    assert more[..|more| - 1] == acts;
    RunInv(sc, more);
  }

  /** The loop stands between two pods, before pod i. */
  ghost predicate Before(sc: Script, acts: seq<Act>, i: nat)
    requires sc.Valid()
  {
    IsRun(sc, acts) && After(sc, acts).value.main == Creating && After(sc, acts).value.i == i
  }

  lemma RoundStarts(sc: Script, acts: seq<Act>, i: nat) returns (more: seq<Act>)
    requires sc.Single() && Before(sc, acts, i) && i < |sc.pods| && Decided(sc, i) && !Conflict(sc, i) && !Silent(sc, i)
    ensures more == acts + [Create] + [Decide(i, 0)] && IsRun(sc, more) && Inv(sc, After(sc, more).value)
    ensures var s := After(sc, more).value;
            s.main == Waiting && s.i == i && s.work == {} && s.queue == [(i, 0)] && s.handler == Idle
  {
    RunInv(sc, acts);
    more := Advance(sc, acts, Create);
    var s := After(sc, more).value;
    LastPod(StoreAt(sc, i), sc.pods[i], sc.pods[i]);
    assert s.main == Waiting && s.i == i && OneInFlight(sc, s) && s.queue == [];
    assert s.work == {(i, 0)};
    more := Advance(sc, more, Decide(i, 0));
  }

  /** The next pod takes five actions. */
  lemma OneRound(sc: Script, acts: seq<Act>, i: nat) returns (more: seq<Act>)
    requires sc.Single() && Before(sc, acts, i) && i < |sc.pods| && Decided(sc, i) && !Conflict(sc, i) && !Silent(sc, i)
    ensures more == acts + [Create] + [Decide(i, 0)] + [Handle] + [Meet] + [Check] && Before(sc, more, i + 1)
  {
    more := RoundStarts(sc, acts, i);
    more := Advance(sc, more, Handle);
    more := Advance(sc, more, Meet);
    more := RoundChecked(sc, more, i);
  }

  lemma RoundChecked(sc: Script, acts: seq<Act>, i: nat) returns (more: seq<Act>)
    requires sc.Single() && IsRun(sc, acts) && Inv(sc, After(sc, acts).value)
    requires After(sc, acts).value.main == Checking && After(sc, acts).value.i == i < |sc.pods|
    ensures more == acts + [Check] && Before(sc, more, i + 1)
  {
    var s := After(sc, acts).value;
    if Verdict(sc, i).Some? {
      CheckRejects(sc, s);
    } else {
      CheckAccepts(sc, s);
    }
    more := Advance(sc, acts, Check);
  }

  function TwoRounds(): seq<Act> {
    [Create] + [Decide(0, 0)] + [Handle] + [Meet] + [Check]
    + [Create] + [Decide(1, 0)] + [Handle] + [Meet] + [Check]
  }

  /** A script of two pods of different names that are both bound. */
  lemma TwoPass(sc: Script)
    requires sc.Single() && |sc.pods| == 2 && sc.before == [] && NamesDiffer(sc)
    requires forall j :: 0 <= j < 2 ==>
                           && sc.pods[j].nodeName == "" && sc.pods[j].schedulerName == "default-scheduler"
                           && sc.updates[j] != [] && sc.updates[j][0].conditions == []
    ensures FateFrom(sc, 0).Ends?
    ensures IsRun(sc, TwoRounds()) && After(sc, TwoRounds()).value.failed == []
    ensures After(sc, TwoRounds()).value.store == [sc.updates[0][0].pod, sc.updates[1][0].pod]
  {
    EndsIff(sc);
    NoneTaken(sc, 0);
    NoneTaken(sc, 1);
    assert Before(sc, [], 0);
    var first := OneRound(sc, [], 0);
    assert first == [Create] + [Decide(0, 0)] + [Handle] + [Meet] + [Check];
    var second := OneRound(sc, first, 1);
    assert second == TwoRounds();
    RunInv(sc, TwoRounds());
    assert Rejected(sc, 1) == [] && Kept(sc, 1) == [sc.updates[0][0].pod];
  }

  const WEB1 := Pod("u1", "ns1", "web", "", Pending, "default-scheduler", 0, 0, "")
  const WEB2 := Pod("u2", "ns2", "web", "", Pending, "default-scheduler", 0, 0, "")

  /** Pods of one name in two namespaces are both created and kept. */
  lemma TwoNamespaces()
    ensures var sc := Script([WEB1, WEB2],
                             [[Update(WEB1.(nodeName := "n"), [])], [Update(WEB2.(nodeName := "n"), [])]], []);
            && sc.Single() && FateFrom(sc, 0).Ends? && IsRun(sc, TwoRounds())
            && After(sc, TwoRounds()).value.failed == []
            && After(sc, TwoRounds()).value.store == [WEB1.(nodeName := "n"), WEB2.(nodeName := "n")]
  {
    var sc := Script([WEB1, WEB2],
                     [[Update(WEB1.(nodeName := "n"), [])], [Update(WEB2.(nodeName := "n"), [])]], []);
    assert WEB1.namespace[2] != WEB2.namespace[2];
    TwoPass(sc);
  }

  /** A script of one pod that no node can take. */
  lemma OneRejected(sc: Script, c: Condition)
    requires sc.Single() && |sc.pods| == 1 && sc.before == [] && Unplaceable(c)
    requires sc.pods[0].nodeName == "" && sc.pods[0].schedulerName == "default-scheduler"
    requires |sc.updates[0]| == 1 && sc.updates[0][0].conditions == [c]
    ensures var p, acts := sc.pods[0], [Create] + [Decide(0, 0)] + [Handle] + [Meet] + [Check];
            && FateFrom(sc, 0).Ends? && IsRun(sc, acts) && After(sc, acts).value.store == []
            && After(sc, acts).value.failed ==
               [UnscheduledPod(p, "failed to schedule pod (" + p.namespace + "/" + p.name + "): " + "Unschedulable" + ": " + c.message)]
  {
    EndsIff(sc);
    NoneTaken(sc, 0);
    assert Before(sc, [], 0);
    var acts := OneRound(sc, [], 0);
    assert acts == [Create] + [Decide(0, 0)] + [Handle] + [Meet] + [Check];
    RunInv(sc, acts);
    assert FirstUnplaceable(sc.updates[0][0].conditions, 0);
    ReasonOfMeaning(sc.pods[0], sc.updates[0][0]);
    RejectedIff(sc, 0);
    assert Rejected(sc, 1) == [UnscheduledPod(sc.pods[0], ReasonOf(sc.pods[0], sc.updates[0][0]))];
    assert Kept(sc, 1) == [];
  }

  const PLAIN := Pod("u", "ns", "web", "", Pending, "default-scheduler", 0, 0, "")
  const FULL := Condition("PodScheduled", "False", "Unschedulable", "0/1 nodes are available")

  /** A concrete one: the failure is recorded with the scheduler's own words. */
  lemma LiteralReason()
    ensures var sc, acts := Script([PLAIN], [[Update(PLAIN, [FULL])]], []), [Create] + [Decide(0, 0)] + [Handle] + [Meet] + [Check];
            && sc.Single() && FateFrom(sc, 0).Ends? && IsRun(sc, acts) && After(sc, acts).value.store == []
            && After(sc, acts).value.failed ==
               [UnscheduledPod(PLAIN, "failed to schedule pod (ns/web): Unschedulable: 0/1 nodes are available")]
  {
    OneRejected(Script([PLAIN], [[Update(PLAIN, [FULL])]], []), FULL);
    LiteralHead();
    LiteralTail();
  }

  lemma LiteralHead()
    ensures "failed to schedule pod (" + "ns" + "/" + "web" + "): " == "failed to schedule pod (ns/web): "
  {
    assert "failed to schedule pod (" + "ns" == "failed to schedule pod (ns";
    assert "failed to schedule pod (ns" + "/" == "failed to schedule pod (ns/";
    assert "failed to schedule pod (ns/" + "web" == "failed to schedule pod (ns/web";
  }

  lemma LiteralTail()
    ensures "failed to schedule pod (ns/web): " + "Unschedulable" + ": " + "0/1 nodes are available"
         == "failed to schedule pod (ns/web): Unschedulable: 0/1 nodes are available"
  {
    assert "failed to schedule pod (ns/web): " + "Unschedulable" == "failed to schedule pod (ns/web): Unschedulable";
    assert "failed to schedule pod (ns/web): Unschedulable" + ": " == "failed to schedule pod (ns/web): Unschedulable: ";
  }
}
