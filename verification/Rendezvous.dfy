/** The main loop that creates pods one by one and the informer handler that
    releases it: two threads meeting on an unbuffered channel, sharing one stop
    reason, with the scheduler between them. */
module Rendezvous {
  import opened Kube

  const DEFAULT_SCHEDULER := "default-scheduler"

  datatype Condition = Condition(kind: string, status: string, reason: string, message: string)

  /** The update that follows the scheduler's decision on a pod: the pod as it
      is from then on, bound or not, and its conditions. */
  datatype Update = Update(pod: Pod, conditions: seq<Condition>)

  /** Binding may set any field but these. */
  predicate SamePod(p: Pod, q: Pod) {
    p.uid == q.uid && p.namespace == q.namespace && p.name == q.name && p.schedulerName == q.schedulerName
  }

  datatype UnscheduledPod = UnscheduledPod(pod: Pod, reason: string)

  /** The pods to create, the updates each would get one after the other, and
      the pods that are on the server before. */
  datatype Script = Script(pods: seq<Pod>, updates: seq<seq<Update>>, before: seq<Pod>) {
    ghost predicate Valid() {
      |pods| == |updates| &&
      forall i, t :: 0 <= i < |pods| && pods[i].nodeName == "" && 0 <= t < |updates[i]| ==> SamePod(pods[i], updates[i][t].pod)
    }

    /** No pod that waits for a node gets a second update. */
    ghost predicate Single() {
      Valid() && forall i :: 0 <= i < |pods| && pods[i].nodeName == "" ==> |updates[i]| <= 1
    }
  }

  // ----- the stop reason -----

  predicate Stops(c: Condition) {
    c.kind == "PodScheduled" && c.status == "False" && c.reason == "Unschedulable"
  }

  function FirstStop(conditions: seq<Condition>): Option<Condition> {
    if conditions == [] then None
    else if Stops(conditions[0]) then Some(conditions[0])
    else FirstStop(conditions[1..])
  }

  function ReasonText(p: Pod, c: Condition): string {
    "failed to schedule pod (" + p.namespace + "/" + p.name + "): " + c.reason + ": " + c.message
  }

  /** strings.Contains. */
  predicate Contains(s: string, part: string) {
    part <= s || (s != "" && Contains(s[1..], part))
  }

  /** The text the handler leaves is recognised as a failure, and the empty
      text is not. */
  lemma ReasonRecognised(p: Pod, c: Condition)
    ensures Contains(ReasonText(p, c), "failed")
    ensures !Contains("", "failed")
  {
    assert "failed" <= ReasonText(p, c);
  }

  /** What `update` leaves in the stop reason. */
  function ReasonOf(p: Pod, u: Update): string {
    match FirstStop(u.conditions)
    case Some(c) => ReasonText(p, c)
    case None => ""
  }

  /** The handler's scan over the conditions, stopping at the first that says
      unschedulable. */
  method ScanConditions(p: Pod, conditions: seq<Condition>) returns (stopReason: string)
    ensures stopReason == ReasonOf(p, Update(p, conditions))
  {
    var stop, reason, message := false, "", "";
    var i := 0;
    while i < |conditions|
      invariant 0 <= i <= |conditions|
      invariant FirstStop(conditions) == FirstStop(conditions[i..])
    {
      stop := Stops(conditions[i]);
      if stop {
        reason, message := conditions[i].reason, conditions[i].message;
        break;
      }
      i := i + 1;
    }
    assert i == |conditions| ==> conditions[i..] == [];
    stopReason := "";
    if stop {
      stopReason := "failed to schedule pod (" + p.namespace + "/" + p.name + "): " + reason + ": " + message;
    }
  }

  // ----- pods on the server -----

  function ObjectKey(p: Pod): (string, string) {
    (p.namespace, p.name)
  }

  predicate HasKey(store: seq<Pod>, key: (string, string)) {
    exists i :: 0 <= i < |store| && ObjectKey(store[i]) == key
  }

  function ReplacePod(store: seq<Pod>, p: Pod): seq<Pod> {
    seq(|store|, i requires 0 <= i < |store| => if ObjectKey(store[i]) == ObjectKey(p) then p else store[i])
  }

  function DeletePod(store: seq<Pod>, key: (string, string)): seq<Pod> {
    if store == [] then []
    else DeletePod(store[..|store| - 1], key) +
         if ObjectKey(store[|store| - 1]) == key then [] else [store[|store| - 1]]
  }

  lemma {:induction false} DeleteAbsent(store: seq<Pod>, key: (string, string))
    requires !HasKey(store, key)
    ensures DeletePod(store, key) == store
  {
    if store != [] {
      assert forall i :: 0 <= i < |store| ==> ObjectKey(store[i]) != key;
      DeleteAbsent(store[..|store| - 1], key);
    }
  }

  lemma LastPod(store: seq<Pod>, p: Pod, q: Pod)
    requires !HasKey(store, ObjectKey(p)) && ObjectKey(q) == ObjectKey(p)
    ensures ReplacePod(store + [q], p) == store + [p]
    ensures DeletePod(store + [q], ObjectKey(p)) == store
    ensures HasKey(store + [q], ObjectKey(p))
  {
    assert forall i :: 0 <= i < |store| ==> ObjectKey(store[i]) != ObjectKey(p);
    assert (store + [q])[..|store + [q]| - 1] == store;
    DeleteAbsent(store, ObjectKey(p));
    assert ObjectKey((store + [q])[|store|]) == ObjectKey(p);
  }

  // ----- the sequential reading -----

  /** Pod j waits for a node and gets an update. */
  predicate Decided(sc: Script, j: nat)
    requires sc.Valid() && j < |sc.pods|
  {
    sc.pods[j].nodeName == "" && sc.updates[j] != []
  }

  /** The reason pod j is rejected for, None when it is kept. */
  function Verdict(sc: Script, j: nat): Option<string>
    requires sc.Valid() && j < |sc.pods|
  {
    if Decided(sc, j) && FirstStop(sc.updates[j][0].conditions).Some?
    then Some(ReasonOf(sc.pods[j], sc.updates[j][0]))
    else None
  }

  /** Pod j as the scheduler leaves it. */
  function Scheduled(sc: Script, j: nat): Pod
    requires sc.Valid() && j < |sc.pods|
  {
    if Decided(sc, j) then sc.updates[j][0].pod else sc.pods[j]
  }

  /** The pods kept among the first i, as the scheduler leaves them. */
  function Kept(sc: Script, i: nat): seq<Pod>
    requires sc.Valid() && i <= |sc.pods|
  {
    if i == 0 then []
    else Kept(sc, i - 1) + if Verdict(sc, i - 1).None? then [Scheduled(sc, i - 1)] else []
  }

  /** The pods rejected among the first i, in order, each with its reason. */
  function Rejected(sc: Script, i: nat): seq<UnscheduledPod>
    requires sc.Valid() && i <= |sc.pods|
  {
    if i == 0 then []
    else Rejected(sc, i - 1) +
         match Verdict(sc, i - 1)
         case Some(reason) => [UnscheduledPod(sc.pods[i - 1], reason)]
         case None => []
  }

  function StoreAt(sc: Script, i: nat): seq<Pod>
    requires sc.Valid() && i <= |sc.pods|
  {
    sc.before + Kept(sc, i)
  }

  /** Pod i cannot be created: its name is taken. */
  predicate Conflict(sc: Script, i: nat)
    requires sc.Valid() && i < |sc.pods|
  {
    HasKey(StoreAt(sc, i), ObjectKey(sc.pods[i]))
  }

  /** Pod i waits for a node, but the handler never speaks for it: it belongs to
      another scheduler, whose pods the handler's filter drops, or it gets no
      update. */
  predicate Silent(sc: Script, i: nat)
    requires sc.Valid() && i < |sc.pods|
  {
    sc.pods[i].nodeName == "" && (sc.pods[i].schedulerName != DEFAULT_SCHEDULER || sc.updates[i] == [])
  }

  // ----- the two threads -----

  datatype Main = Creating | Waiting | Checking | Aborted

  datatype Handler = Idle | Sending

  /** `i` is the pod the loop is on.  An update is named by its pod and its
      place among the updates of that pod: `work` are updates still to be made,
      `queue` those the handler has still to see.  `made` are the pods of all
      updates made so far. */
  datatype State = State(
    i: nat,
    main: Main,
    work: set<(nat, nat)>,
    queue: seq<(nat, nat)>,
    handler: Handler,
    stopReason: string,
    failed: seq<UnscheduledPod>,
    store: seq<Pod>,
    made: seq<nat>)

  datatype Act = Create | Decide(j: nat, t: nat) | Handle | Meet | Check

  function UpdatesOf(sc: Script, j: nat): set<(nat, nat)>
    requires sc.Valid() && j < |sc.pods|
  {
    set t | 0 <= t < |sc.updates[j]| :: (j, t)
  }

  function Start(sc: Script): State {
    State(0, Creating, {}, [], Idle, "", [], sc.before, [])
  }

  /** An update is made while its pod is on the server, the updates of one pod
      in order. */
  predicate Enabled(sc: Script, s: State, a: Act)
    requires sc.Valid()
  {
    match a
    case Create => s.main == Creating && s.i < |sc.pods|
    case Decide(j, t) =>
      && (j, t) in s.work && j < |sc.pods| && t < |sc.updates[j]|
      && (forall u: nat :: u < t ==> (j, u) !in s.work)
      && HasKey(s.store, ObjectKey(sc.pods[j]))
    case Handle => s.handler == Idle && s.queue != [] && s.queue[0].0 < |sc.pods| && s.queue[0].1 < |sc.updates[s.queue[0].0]|
    case Meet => s.main == Waiting && s.handler == Sending
    case Check => s.main == Checking && s.i < |sc.pods|
  }

  ghost function Next(sc: Script, s: State, a: Act): State
    requires sc.Valid() && Enabled(sc, s, a)
  {
    match a
    case Create =>
      var p := sc.pods[s.i];
      if HasKey(s.store, ObjectKey(p)) then s.(main := Aborted)
      else if p.nodeName != "" then s.(main := Checking, store := s.store + [p])
      else if p.schedulerName != DEFAULT_SCHEDULER then s.(main := Waiting, store := s.store + [p])
      else s.(main := Waiting, store := s.store + [p], work := s.work + UpdatesOf(sc, s.i))
    case Decide(j, t) =>
      s.(work := s.work - {(j, t)}, queue := s.queue + [(j, t)], made := s.made + [j],
      store := ReplacePod(s.store, sc.updates[j][t].pod))
    case Handle =>
      var (j, t) := s.queue[0];
      var stop := FirstStop(sc.updates[j][t].conditions);
      s.(queue := s.queue[1..], handler := Sending,
      stopReason := if stop.Some? then ReasonText(sc.pods[j], stop.value) else s.stopReason)
    case Meet => s.(main := Checking, handler := Idle)
    case Check =>
      var p := sc.pods[s.i];
      if !Contains(s.stopReason, "failed") then s.(main := Creating, i := s.i + 1)
      else if !HasKey(s.store, ObjectKey(p)) then s.(main := Aborted)
      else
        s.(main := Creating, i := s.i + 1, stopReason := "", store := DeletePod(s.store, ObjectKey(p)),
        failed := s.failed + [UnscheduledPod(p, s.stopReason)])
  }

  // ----- the invariant -----

  predicate Quiet(s: State) {
    s.work == {} && s.queue == [] && s.handler == Idle
  }

  /** The one update of pod i on its way: undecided, queued, or being sent. */
  predicate OneInFlight(sc: Script, s: State)
    requires sc.Valid() && s.i < |sc.pods| && sc.updates[s.i] != []
  {
    var base := StoreAt(sc, s.i);
    || (s.work == {(s.i, 0)} && s.queue == [] && s.handler == Idle && s.stopReason == "" && s.store == base + [sc.pods[s.i]])
    || (s.work == {} && s.queue == [(s.i, 0)] && s.handler == Idle && s.stopReason == "" && s.store == base + [Scheduled(sc, s.i)])
    || (s.work == {} && s.queue == [] && s.handler == Sending
        && s.stopReason == ReasonOf(sc.pods[s.i], sc.updates[s.i][0]) && s.store == base + [Scheduled(sc, s.i)])
  }

  predicate Unblocked(sc: Script, i: nat)
    requires sc.Valid() && i <= |sc.pods|
  {
    forall j :: 0 <= j < i ==> !Conflict(sc, j) && !Silent(sc, j)
  }

  predicate Inv(sc: Script, s: State)
    requires sc.Valid()
  {
    && s.i <= |sc.pods|
    && Unblocked(sc, s.i)
    && s.failed == Rejected(sc, s.i)
    && match s.main
       case Creating => Quiet(s) && s.stopReason == "" && s.store == StoreAt(sc, s.i)
       case Waiting =>
         && s.i < |sc.pods| && sc.pods[s.i].nodeName == "" && !Conflict(sc, s.i)
         && if Silent(sc, s.i) then Quiet(s) && s.stopReason == "" else OneInFlight(sc, s)
       case Checking =>
         && s.i < |sc.pods| && !Conflict(sc, s.i) && !Silent(sc, s.i) && Quiet(s)
         && s.stopReason == Verdict(sc, s.i).GetOr("")
         && s.store == StoreAt(sc, s.i) + [Scheduled(sc, s.i)]
       case Aborted => s.i < |sc.pods| && Conflict(sc, s.i) && Quiet(s) && s.stopReason == ""
  }

  lemma CreateKeeps(sc: Script, s: State)
    requires sc.Single() && Inv(sc, s) && Enabled(sc, s, Create)
    ensures Inv(sc, Next(sc, s, Create))
  {
    if Decided(sc, s.i) {
      assert UpdatesOf(sc, s.i) == {(s.i, 0)};
      assert {} + {(s.i, 0)} == {(s.i, 0)};
    }
  }

  lemma DecideKeeps(sc: Script, s: State, j: nat, t: nat)
    requires sc.Single() && Inv(sc, s) && Enabled(sc, s, Decide(j, t))
    ensures Inv(sc, Next(sc, s, Decide(j, t)))
  {
    assert j == s.i && t == 0;
    LastPod(StoreAt(sc, s.i), Scheduled(sc, s.i), sc.pods[s.i]);
  }

  lemma CheckRejects(sc: Script, s: State)
    requires sc.Single() && Inv(sc, s) && Enabled(sc, s, Check) && Verdict(sc, s.i).Some?
    ensures Next(sc, s, Check) ==
            s.(main := Creating, i := s.i + 1, stopReason := "",
            store := StoreAt(sc, s.i + 1), failed := Rejected(sc, s.i + 1))
  {
    var p := sc.pods[s.i];
    LastPod(StoreAt(sc, s.i), p, Scheduled(sc, s.i));
    ReasonRecognised(p, FirstStop(sc.updates[s.i][0].conditions).value);
    assert StoreAt(sc, s.i + 1) == StoreAt(sc, s.i);
  }

  lemma CheckAccepts(sc: Script, s: State)
    requires sc.Single() && Inv(sc, s) && Enabled(sc, s, Check) && Verdict(sc, s.i).None?
    ensures Next(sc, s, Check) ==
            s.(main := Creating, i := s.i + 1, store := StoreAt(sc, s.i + 1), failed := Rejected(sc, s.i + 1))
  {
    assert s.stopReason == "" && !Contains("", "failed");
    assert StoreAt(sc, s.i + 1) == StoreAt(sc, s.i) + [Scheduled(sc, s.i)];
    assert Rejected(sc, s.i + 1) == Rejected(sc, s.i);
  }

  lemma CheckKeeps(sc: Script, s: State)
    requires sc.Single() && Inv(sc, s) && Enabled(sc, s, Check)
    ensures Inv(sc, Next(sc, s, Check))
  {
    if Verdict(sc, s.i).Some? {
      CheckRejects(sc, s);
    } else {
      CheckAccepts(sc, s);
    }
  }

  lemma NextKeeps(sc: Script, s: State, a: Act)
    requires sc.Single() && Inv(sc, s) && Enabled(sc, s, a)
    ensures Inv(sc, Next(sc, s, a))
  {
    match a
    case Create => CreateKeeps(sc, s);
    case Decide(j, t) => DecideKeeps(sc, s, j, t);
    case Handle => assert s.queue[1..] == [];
    case Meet =>
    case Check => CheckKeeps(sc, s);
  }

  // ----- runs -----

  ghost function After(sc: Script, acts: seq<Act>): Option<State>
    requires sc.Valid()
  {
    if acts == [] then Some(Start(sc))
    else
      match After(sc, acts[..|acts| - 1])
      case None => None
      case Some(s) => if Enabled(sc, s, acts[|acts| - 1]) then Some(Next(sc, s, acts[|acts| - 1])) else None
  }

  /** A run: every action was enabled when it was taken. */
  ghost predicate IsRun(sc: Script, acts: seq<Act>)
    requires sc.Valid()
  {
    After(sc, acts).Some?
  }

  lemma {:induction false} RunInv(sc: Script, acts: seq<Act>)
    requires sc.Single() && IsRun(sc, acts)
    ensures Inv(sc, After(sc, acts).value)
    decreases |acts|
  {
    if acts != [] {
      RunInv(sc, acts[..|acts| - 1]);
      NextKeeps(sc, After(sc, acts[..|acts| - 1]).value, acts[|acts| - 1]);
    }
  }

  /** In every state of every run a stop reason that is set is the reason of
      the very pod the loop is on, and at most one update is on its way. */
  lemma StopReasonIsCurrent(sc: Script, acts: seq<Act>)
    requires sc.Single() && IsRun(sc, acts) && After(sc, acts).value.stopReason != ""
    ensures var s := After(sc, acts).value;
            && s.i < |sc.pods| && Decided(sc, s.i)
            && (s.main == Waiting || s.main == Checking)
            && s.stopReason == ReasonOf(sc.pods[s.i], sc.updates[s.i][0])
            && s.work == {} && s.queue == []
  {
    RunInv(sc, acts);
  }

  /** Every action brings the end closer. */
  function Rank(sc: Script, s: State): int {
    6 * (|sc.pods| - s.i) + (match s.main
                             case Creating => 5
                             case Waiting => 1 + 3 * |s.work| + 2 * |s.queue| + (if s.handler == Sending then 1 else 0)
                             case Checking => 1
                             case Aborted => 0)
  }

  lemma NextRank(sc: Script, s: State, a: Act)
    requires sc.Single() && Inv(sc, s) && Enabled(sc, s, a)
    ensures 0 <= Rank(sc, Next(sc, s, a)) < Rank(sc, s)
  {
    NextKeeps(sc, s, a);
  }

  /** No run is longer than six actions per pod, and five more. */
  lemma {:induction false} RunsEnd(sc: Script, acts: seq<Act>)
    requires sc.Single() && IsRun(sc, acts)
    ensures |acts| + Rank(sc, After(sc, acts).value) <= 6 * |sc.pods| + 5
    ensures Rank(sc, After(sc, acts).value) >= 0
    decreases |acts|
  {
    if acts != [] {
      var init := acts[..|acts| - 1];
      RunsEnd(sc, init);
      RunInv(sc, init);
      NextRank(sc, After(sc, init).value, acts[|acts| - 1]);
    }
  }

  ghost predicate Halted(sc: Script, s: State)
    requires sc.Valid()
  {
    forall a: Act :: !Enabled(sc, s, a)
  }

  /** The states in which nothing can happen. */
  predicate AtEnd(sc: Script, s: State)
    requires sc.Valid()
  {
    || (s.main == Creating && s.i == |sc.pods|)
    || (s.main == Aborted && s.i < |sc.pods| && Conflict(sc, s.i))
    || (s.main == Waiting && s.i < |sc.pods| && !Conflict(sc, s.i) && Silent(sc, s.i))
  }

  lemma SomeMove(sc: Script, s: State) returns (a: Act)
    requires sc.Single() && Inv(sc, s) && !AtEnd(sc, s)
    ensures Enabled(sc, s, a)
  {
    if s.main == Creating {
      a := Create;
    } else if s.main == Checking {
      a := Check;
    } else if s.work != {} {
      a := Decide(s.i, 0);
      LastPod(StoreAt(sc, s.i), sc.pods[s.i], sc.pods[s.i]);
    } else if s.queue != [] {
      a := Handle;
    } else {
      a := Meet;
    }
  }

  /** A state that cannot move has come to the end of the pods, has aborted on a
      name that is taken, or waits for a pod the handler does not speak for; so
      without such pods there is no deadlock. */
  lemma HaltedWhere(sc: Script, s: State)
    requires sc.Single() && Inv(sc, s) && Halted(sc, s)
    ensures AtEnd(sc, s)
  {
    if !AtEnd(sc, s) {
      var a := SomeMove(sc, s);
    }
  }

  /** Every run that cannot go on ends where the sequential reading says: past
      all pods, with the failed pods exactly the rejected ones in order with
      their own reasons and the server holding the kept ones; or at the first
      pod whose name is taken; or at the first pod the handler does not speak
      for.  By OneOrder it is the only one of its length. */
  lemma RunsAgree(sc: Script, acts: seq<Act>)
    requires sc.Single() && IsRun(sc, acts) && Halted(sc, After(sc, acts).value)
    ensures var s := After(sc, acts).value;
            && s.i <= |sc.pods| && Unblocked(sc, s.i)
            && s.failed == Rejected(sc, s.i)
            && (if s.i == |sc.pods| then s.main == Creating && s.store == StoreAt(sc, s.i) && s.stopReason == ""
                else (s.main == Aborted && Conflict(sc, s.i)) || (s.main == Waiting && Silent(sc, s.i)))
  {
    RunInv(sc, acts);
    HaltedWhere(sc, After(sc, acts).value);
  }

  /** Exactly when a run can deadlock: the first pod that blocks the loop waits
      for a word of the handler that never comes. */
  lemma DeadlockIff(sc: Script, acts: seq<Act>)
    requires sc.Single() && IsRun(sc, acts) && Halted(sc, After(sc, acts).value)
    ensures After(sc, acts).value.main == Waiting <==>
            exists k :: 0 <= k < |sc.pods| && Unblocked(sc, k) && !Conflict(sc, k) && Silent(sc, k)
  {
    RunInv(sc, acts);
    var s := After(sc, acts).value;
    HaltedWhere(sc, s);
    if s.main == Waiting {
      assert Unblocked(sc, s.i) && !Conflict(sc, s.i) && Silent(sc, s.i);
    }
    forall k | 0 <= k < |sc.pods| && Unblocked(sc, k) && !Conflict(sc, k) && Silent(sc, k)
      ensures s.main == Waiting
    {
      assert k >= s.i;
      assert s.i == k;
    }
  }

  /** At most one action is possible, so without second updates the two threads
      leave each other no choice. */
  lemma OnlyOneEnabled(sc: Script, s: State, a: Act, b: Act)
    requires sc.Single() && Inv(sc, s) && Enabled(sc, s, a) && Enabled(sc, s, b)
    ensures a == b
  {
  }

  lemma LastAct(sc: Script, acts: seq<Act>)
    requires sc.Valid() && IsRun(sc, acts) && acts != []
    ensures var init := acts[..|acts| - 1]; IsRun(sc, init) && Enabled(sc, After(sc, init).value, acts[|acts| - 1])
  {
  }

  /** Without second updates there is one run of each length. */
  lemma {:induction false} OneOrder(sc: Script, a: seq<Act>, b: seq<Act>)
    requires sc.Single() && IsRun(sc, a) && IsRun(sc, b) && |a| == |b|
    ensures a == b
    decreases |a|
  {
    if a != [] {
      var init, init' := a[..|a| - 1], b[..|b| - 1];
      LastAct(sc, a);
      LastAct(sc, b);
      OneOrder(sc, init, init');
      RunInv(sc, init);
      OnlyOneEnabled(sc, After(sc, init).value, a[|a| - 1], b[|b| - 1]);
      assert a == init + [a[|a| - 1]] && b == init' + [b[|b| - 1]];
    }
  }

  // ----- how the loop comes to an end -----

  /** It passes all pods, it stops with an error at a name that is taken, or it
      waits for ever at a pod the handler does not speak for. */
  datatype Fate = Ends | NameTaken | Waits

  function FateFrom(sc: Script, i: nat): Fate
    requires sc.Valid() && i <= |sc.pods|
    decreases |sc.pods| - i
  {
    if i == |sc.pods| then Ends
    else if Conflict(sc, i) then NameTaken
    else if Silent(sc, i) then Waits
    else FateFrom(sc, i + 1)
  }

  lemma {:induction false} FateSkips(sc: Script, i: nat)
    requires sc.Valid() && i <= |sc.pods| && Unblocked(sc, i)
    ensures FateFrom(sc, 0) == FateFrom(sc, i)
  {
    if i > 0 {
      FateSkips(sc, i - 1);
      assert !Conflict(sc, i - 1) && !Silent(sc, i - 1);
    }
  }

  /** Every run of the two threads that cannot go on tells the fate,
      and one that passes all pods ends with the sequential reading's failures
      and server, and no stop reason left. */
  lemma RunsTellFate(sc: Script, acts: seq<Act>)
    requires sc.Single() && IsRun(sc, acts) && Halted(sc, After(sc, acts).value)
    ensures var s := After(sc, acts).value;
            && s.main == (match FateFrom(sc, 0) case Ends => Creating case NameTaken => Aborted case Waits => Waiting)
            && (FateFrom(sc, 0).Ends? ==>
                  s.failed == Rejected(sc, |sc.pods|) && s.store == StoreAt(sc, |sc.pods|) && s.stopReason == "")
  {
    RunInv(sc, acts);
    RunsAgree(sc, acts);
    var s := After(sc, acts).value;
    HaltedWhere(sc, s);
    FateSkips(sc, s.i);
  }

  // ----- what a caller can check beforehand -----

  /** The pods have names of their own, none of them taken on the server. */
  predicate NamesFree(sc: Script) {
    && (forall i, j :: 0 <= i < j < |sc.pods| ==> ObjectKey(sc.pods[i]) != ObjectKey(sc.pods[j]))
    && (forall i :: 0 <= i < |sc.pods| ==> !HasKey(sc.before, ObjectKey(sc.pods[i])))
  }

  predicate NamedBefore(sc: Script, i: nat, p: Pod)
    requires i <= |sc.pods|
  {
    exists j :: 0 <= j < i && ObjectKey(sc.pods[j]) == ObjectKey(p)
  }

  /** A kept pod has the name of the pod it was. */
  lemma {:induction false} KeptNames(sc: Script, i: nat)
    requires sc.Single() && i <= |sc.pods|
    ensures forall k :: 0 <= k < |Kept(sc, i)| ==> NamedBefore(sc, i, Kept(sc, i)[k])
  {
    if i > 0 {
      KeptNames(sc, i - 1);
      assert ObjectKey(sc.pods[i - 1]) == ObjectKey(Scheduled(sc, i - 1));
      assert NamedBefore(sc, i, Scheduled(sc, i - 1));
      var kept := Kept(sc, i - 1);
      forall k | 0 <= k < |kept|
        ensures NamedBefore(sc, i, kept[k])
      {
        assert NamedBefore(sc, i - 1, kept[k]);
      }
    }
  }

  lemma NoConflicts(sc: Script, i: nat)
    requires sc.Single() && NamesFree(sc) && i < |sc.pods|
    ensures !Conflict(sc, i)
  {
    var store := StoreAt(sc, i);
    KeptNames(sc, i);
    forall x | 0 <= x < |store|
      ensures ObjectKey(store[x]) != ObjectKey(sc.pods[i])
    {
      if x >= |sc.before| {
        assert NamedBefore(sc, i, Kept(sc, i)[x - |sc.before|]);
      }
    }
  }

  /** With free names a halted run is a deadlock if and only if some pod without
      a node belongs to another scheduler or gets no update. */
  lemma DeadlockIffSilent(sc: Script, acts: seq<Act>)
    requires sc.Single() && NamesFree(sc) && IsRun(sc, acts) && Halted(sc, After(sc, acts).value)
    ensures After(sc, acts).value.main == Waiting <==> exists k :: 0 <= k < |sc.pods| && Silent(sc, k)
  {
    DeadlockIff(sc, acts);
    forall i | 0 <= i < |sc.pods|
      ensures !Conflict(sc, i)
    {
      NoConflicts(sc, i);
    }
    if k :| 0 <= k < |sc.pods| && Silent(sc, k) {
      FirstSilent(sc, k);
    }
  }

  lemma {:induction false} FirstSilent(sc: Script, k: nat)
    requires sc.Single() && k < |sc.pods| && Silent(sc, k)
    requires forall i :: 0 <= i < |sc.pods| ==> !Conflict(sc, i)
    ensures exists j :: 0 <= j < |sc.pods| && Unblocked(sc, j) && !Conflict(sc, j) && Silent(sc, j)
  {
    if i :| 0 <= i < k && Silent(sc, i) {
      FirstSilent(sc, i);
    } else {
      assert Unblocked(sc, k);
    }
  }

  const STRANGER := Pod("u", "ns", "pod", "", Pending, "another-scheduler", 0, 0, "")

  /** A concrete deadlock: one pod of another scheduler is created, and nothing
      can happen any more. */
  lemma StrangerDeadlocks()
    ensures var sc := Script([STRANGER], [[Update(STRANGER, [])]], []);
            && sc.Single() && NamesFree(sc) && IsRun(sc, [Create])
            && Halted(sc, After(sc, [Create]).value) && After(sc, [Create]).value.main == Waiting
  {
    var sc := Script([STRANGER], [[Update(STRANGER, [])]], []);
    assert [Create][..0] == [];
    assert After(sc, []) == Some(Start(sc));
    assert !HasKey([], ObjectKey(STRANGER));
    assert After(sc, [Create]) == Some(Next(sc, Start(sc), Create));
  }
}
