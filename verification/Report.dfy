/** The report: the server's list of pods, and which of them stand under which
    node. */
module Report {
  import opened Kube

  // ----- the server's list -----

  /** Order of names, character by character. */
  predicate AtMost(a: string, b: string) {
    a == "" || (b != "" && (a[0] < b[0] || (a[0] == b[0] && AtMost(a[1..], b[1..]))))
  }

  lemma {:induction false} AtMostTotal(a: string, b: string)
    ensures AtMost(a, b) || AtMost(b, a)
    ensures AtMost(a, b) && AtMost(b, a) ==> a == b
  {
    if a != "" && b != "" && a[0] == b[0] {
      AtMostTotal(a[1..], b[1..]);
      assert a == [a[0]] + a[1..] && b == [b[0]] + b[1..];
    }
  }

  lemma {:induction false} AtMostTransitive(a: string, b: string, c: string)
    requires AtMost(a, b) && AtMost(b, c)
    ensures AtMost(a, c)
  {
    if a != "" && b != "" && c != "" && a[0] == b[0] == c[0] {
      AtMostTransitive(a[1..], b[1..], c[1..]);
    }
  }

  /** One name stands before another if it is a prefix of it, or has the smaller
      character where they first differ. */
  lemma {:induction false} AtMostMeaning(a: string, b: string)
    ensures AtMost(a, b) <==> a <= b || exists k: nat :: DiffersAt(a, b, k)
  {
    if a != "" && b != "" && a[0] == b[0] {
      AtMostMeaning(a[1..], b[1..]);
      assert a == [a[0]] + a[1..] && b == [b[0]] + b[1..];
      if k: nat :| DiffersAt(a[1..], b[1..], k) {
        assert a[..k + 1] == [a[0]] + a[1..][..k] && b[..k + 1] == [b[0]] + b[1..][..k];
        assert DiffersAt(a, b, k + 1);
      }
      if k: nat :| DiffersAt(a, b, k) {
        assert k > 0 && a[1..][..k - 1] == a[..k][1..] && b[1..][..k - 1] == b[..k][1..];
        assert DiffersAt(a[1..], b[1..], k - 1);
      }
    } else if a != "" && b != "" {
      if a[0] < b[0] {
        assert DiffersAt(a, b, 0);
      }
      if k: nat :| DiffersAt(a, b, k) {
        assert k > 0 ==> a[..k][0] == b[..k][0];
      }
    }
  }

  predicate DiffersAt(a: string, b: string, k: nat) {
    k < |a| && k < |b| && a[..k] == b[..k] && a[k] < b[k]
  }

  /** By namespace, then by name. */
  predicate ListedBefore(p: Pod, q: Pod) {
    if p.namespace != q.namespace then AtMost(p.namespace, q.namespace) else AtMost(p.name, q.name)
  }

  lemma ListedBeforeTotal(p: Pod, q: Pod)
    ensures ListedBefore(p, q) || ListedBefore(q, p)
  {
    AtMostTotal(p.namespace, q.namespace);
    AtMostTotal(p.name, q.name);
  }

  lemma ListedBeforeTransitive(p: Pod, q: Pod, r: Pod)
    requires ListedBefore(p, q) && ListedBefore(q, r)
    ensures ListedBefore(p, r)
  {
    if p.namespace == q.namespace == r.namespace {
      AtMostTransitive(p.name, q.name, r.name);
    } else if p.namespace != q.namespace && q.namespace != r.namespace {
      AtMostTransitive(p.namespace, q.namespace, r.namespace);
      AtMostTotal(p.namespace, q.namespace);
    }
  }

  function Insert(sorted: seq<Pod>, p: Pod): seq<Pod> {
    if sorted == [] || ListedBefore(sorted[|sorted| - 1], p) then sorted + [p]
    else Insert(sorted[..|sorted| - 1], p) + [sorted[|sorted| - 1]]
  }

  /** All pods of the server, as it lists them. */
  function Listing(store: seq<Pod>): seq<Pod> {
    if store == [] then [] else Insert(Listing(store[..|store| - 1]), store[|store| - 1])
  }

  predicate InOrder(pods: seq<Pod>) {
    forall i, j :: 0 <= i < j < |pods| ==> ListedBefore(pods[i], pods[j])
  }

  lemma {:induction false} InsertMembers(sorted: seq<Pod>, p: Pod)
    ensures multiset(Insert(sorted, p)) == multiset(sorted + [p])
  {
    if sorted != [] && !ListedBefore(sorted[|sorted| - 1], p) {
      var init, last := sorted[..|sorted| - 1], sorted[|sorted| - 1];
      InsertMembers(init, p);
      assert multiset(Insert(init, p) + [last]) == multiset(init + [p]) + multiset{last};
      assert sorted == init + [last];
    }
  }

  lemma InOrderSnoc(pods: seq<Pod>, last: Pod)
    requires InOrder(pods) && forall i :: 0 <= i < |pods| ==> ListedBefore(pods[i], last)
    ensures InOrder(pods + [last])
  {
  }

  lemma {:induction false} InsertInOrder(sorted: seq<Pod>, p: Pod)
    requires InOrder(sorted)
    ensures InOrder(Insert(sorted, p))
  {
    if sorted == [] {
    } else {
      var init, last := sorted[..|sorted| - 1], sorted[|sorted| - 1];
      if ListedBefore(last, p) {
        forall i | 0 <= i < |sorted|
          ensures ListedBefore(sorted[i], p)
        {
          if i < |init| {
            ListedBeforeTransitive(sorted[i], last, p);
          }
        }
        InOrderSnoc(sorted, p);
      } else {
        ListedBeforeTotal(p, last);
        InsertInOrder(init, p);
        InsertMembers(init, p);
        var rest := Insert(init, p);
        forall i | 0 <= i < |rest|
          ensures ListedBefore(rest[i], last)
        {
          assert rest[i] in multiset(rest) && rest[i] in multiset(init + [p]);
          assert rest[i] in init + [p];
        }
        InOrderSnoc(rest, last);
      }
    }
  }

  lemma InsertedMembers(sorted: seq<Pod>, init: seq<Pod>, p: Pod)
    requires multiset(sorted) == multiset(init)
    ensures multiset(Insert(sorted, p)) == multiset(init + [p])
  {
    InsertMembers(sorted, p);
    assert multiset(sorted + [p]) == multiset(sorted) + multiset{p};
    assert multiset(init + [p]) == multiset(init) + multiset{p};
  }

  lemma {:induction false} ListingMembers(store: seq<Pod>)
    ensures multiset(Listing(store)) == multiset(store)
  {
    if store != [] {
      var init, p := store[..|store| - 1], store[|store| - 1];
      ListingMembers(init);
      InsertedMembers(Listing(init), init, p);
      assert store == init + [p];
      assert Listing(store) == Insert(Listing(init), p);
    }
  }

  lemma {:induction false} ListingInOrder(store: seq<Pod>)
    ensures InOrder(Listing(store))
  {
    if store != [] {
      ListingInOrder(store[..|store| - 1]);
      InsertInOrder(Listing(store[..|store| - 1]), store[|store| - 1]);
    }
  }

  /** The list is in order and has every pod of the server, once for each. */
  lemma ListingMeaning(store: seq<Pod>)
    ensures multiset(Listing(store)) == multiset(store)
    ensures forall i, j :: 0 <= i < j < |Listing(store)| ==>
                             var p, q := Listing(store)[i], Listing(store)[j];
                             AtMost(p.namespace, q.namespace) && (p.namespace == q.namespace ==> AtMost(p.name, q.name))
  {
    ListingMembers(store);
    ListingInOrder(store);
    forall i, j | 0 <= i < j < |Listing(store)|
      ensures var p, q := Listing(store)[i], Listing(store)[j];
              AtMost(p.namespace, q.namespace) && (p.namespace == q.namespace ==> AtMost(p.name, q.name))
    {
      assert ListedBefore(Listing(store)[i], Listing(store)[j]);
      AtMostTotal(Listing(store)[i].namespace, Listing(store)[j].namespace);
    }
  }

  // ----- the pods of one node -----

  /** The pods of a node, in the order of the list. */
  function PodsAt(store: seq<Pod>, node: string): seq<Pod> {
    if store == [] then []
    else PodsAt(store[..|store| - 1], node) + if store[|store| - 1].nodeName == node then [store[|store| - 1]] else []
  }

  /** A pod is reported under a node exactly when that is its own node. */
  lemma {:induction false} ReportedAtOwnNode(store: seq<Pod>, node: string, p: Pod)
    ensures p in PodsAt(store, node) <==> p in store && p.nodeName == node
  {
    if store != [] {
      ReportedAtOwnNode(store[..|store| - 1], node, p);
      assert store == store[..|store| - 1] + [store[|store| - 1]];
    }
  }

  /** All pods the report lists under the first n nodes, node after node. */
  function Reported(store: seq<Pod>, nodes: seq<string>, n: nat): seq<Pod>
    requires n <= |nodes|
  {
    if n == 0 then [] else Reported(store, nodes, n - 1) + PodsAt(store, nodes[n - 1])
  }

  predicate Distinct(nodes: seq<string>) {
    forall i, j :: 0 <= i < j < |nodes| ==> nodes[i] != nodes[j]
  }

  predicate Among(name: string, nodes: seq<string>, n: nat)
    requires n <= |nodes|
  {
    exists i :: 0 <= i < n && nodes[i] == name
  }

  predicate Listed(store: seq<Pod>, nodes: seq<string>) {
    forall i :: 0 <= i < |store| ==> Among(store[i].nodeName, nodes, |nodes|)
  }

  lemma PodsAtSnoc(store: seq<Pod>, p: Pod, node: string)
    ensures PodsAt(store + [p], node) == PodsAt(store, node) + if p.nodeName == node then [p] else []
  {
    assert (store + [p])[..|store + [p]| - 1] == store;
  }

  function Once(p: Pod, listed: bool): multiset<Pod> {
    if listed then multiset{p} else multiset{}
  }

  /** A pod new to one of two lists is new to their concatenation. */
  lemma OnceMore(a: seq<Pod>, a': seq<Pod>, b: seq<Pod>, b': seq<Pod>, p: Pod, early: bool, late: bool)
    requires multiset(a') == multiset(a) + Once(p, early)
    requires b' == b + (if late then [p] else []) && !(early && late)
    ensures multiset(a' + b') == multiset(a + b) + Once(p, early || late)
  {
    assert multiset(a' + b') == multiset(a') + multiset(b');
    assert multiset(a + b) == multiset(a) + multiset(b);
    assert multiset(b') == multiset(b) + Once(p, late);
  }

  lemma AmongSnoc(name: string, nodes: seq<string>, n: nat)
    requires Distinct(nodes) && 0 < n <= |nodes|
    ensures Among(name, nodes, n) <==> Among(name, nodes, n - 1) || name == nodes[n - 1]
    ensures !(Among(name, nodes, n - 1) && name == nodes[n - 1])
  {
  }

  /** One more pod is reported once if its node is listed, else not at all. */
  lemma {:induction false} ReportedSnoc(store: seq<Pod>, p: Pod, nodes: seq<string>, n: nat)
    requires Distinct(nodes) && n <= |nodes|
    ensures multiset(Reported(store + [p], nodes, n)) ==
            multiset(Reported(store, nodes, n)) + Once(p, Among(p.nodeName, nodes, n))
  {
    if n > 0 {
      ReportedSnoc(store, p, nodes, n - 1);
      PodsAtSnoc(store, p, nodes[n - 1]);
      AmongSnoc(p.nodeName, nodes, n);
      OnceMore(Reported(store, nodes, n - 1), Reported(store + [p], nodes, n - 1),
               PodsAt(store, nodes[n - 1]), PodsAt(store + [p], nodes[n - 1]),
               p, Among(p.nodeName, nodes, n - 1), p.nodeName == nodes[n - 1]);
    }
  }

  lemma ReportedLength(store: seq<Pod>, p: Pod, nodes: seq<string>)
    requires Distinct(nodes)
    ensures |Reported(store + [p], nodes, |nodes|)| ==
            |Reported(store, nodes, |nodes|)| + if Among(p.nodeName, nodes, |nodes|) then 1 else 0
  {
    var was, is_ := Reported(store, nodes, |nodes|), Reported(store + [p], nodes, |nodes|);
    ReportedSnoc(store, p, nodes, |nodes|);
    assert |multiset(was)| == |was| && |multiset(is_)| == |is_|;
  }

  lemma ListedSnoc(store: seq<Pod>, p: Pod, nodes: seq<string>)
    ensures Listed(store + [p], nodes) <==> Listed(store, nodes) && Among(p.nodeName, nodes, |nodes|)
  {
    assert forall i :: 0 <= i < |store| ==> (store + [p])[i] == store[i];
    assert (store + [p])[|store|] == p;
  }

  /** The report has no more pods than the server, and as many only if every
      node name is listed. */
  lemma {:induction false} ReportedSize(store: seq<Pod>, nodes: seq<string>)
    requires Distinct(nodes)
    ensures |Reported(store, nodes, |nodes|)| <= |store|
    ensures |Reported(store, nodes, |nodes|)| == |store| ==> Listed(store, nodes)
  {
    if store == [] {
      NothingReported(nodes, |nodes|);
    } else {
      var init, p := store[..|store| - 1], store[|store| - 1];
      ReportedSize(init, nodes);
      ReportedLength(init, p, nodes);
      ListedSnoc(init, p, nodes);
      assert store == init + [p];
    }
  }

  lemma {:induction false} ReportedAll(store: seq<Pod>, nodes: seq<string>)
    requires Distinct(nodes) && Listed(store, nodes)
    ensures multiset(Reported(store, nodes, |nodes|)) == multiset(store)
  {
    if store == [] {
      NothingReported(nodes, |nodes|);
    } else {
      var init, p := store[..|store| - 1], store[|store| - 1];
      assert store == init + [p];
      ListedSnoc(init, p, nodes);
      ReportedAll(init, nodes);
      ReportedSnoc(init, p, nodes, |nodes|);
      assert multiset(init + [p]) == multiset(init) + multiset{p};
    }
  }

  lemma {:induction false} NothingReported(nodes: seq<string>, n: nat)
    requires n <= |nodes|
    ensures Reported([], nodes, n) == []
  {
    if n > 0 {
      NothingReported(nodes, n - 1);
    }
  }

  lemma ListedSame(a: seq<Pod>, b: seq<Pod>, nodes: seq<string>)
    requires multiset(a) == multiset(b) && Listed(a, nodes)
    ensures Listed(b, nodes)
  {
    forall i | 0 <= i < |b|
      ensures Among(b[i].nodeName, nodes, |nodes|)
    {
      assert b[i] in multiset(a);
      var j :| 0 <= j < |a| && a[j] == b[i];
    }
  }

  /** The report of a server lists every pod of it exactly once if and only if
      every node name is a listed node. */
  lemma ReportedOnceIff(store: seq<Pod>, nodes: seq<string>)
    requires Distinct(nodes)
    ensures multiset(Reported(Listing(store), nodes, |nodes|)) == multiset(store) <==> Listed(store, nodes)
  {
    var list := Listing(store);
    ListingMeaning(store);
    ReportedSize(list, nodes);
    assert |multiset(list)| == |list|;
    assert |multiset(Reported(list, nodes, |nodes|))| == |Reported(list, nodes, |nodes|)|;
    if Listed(list, nodes) {
      ReportedAll(list, nodes);
      ListedSame(list, store, nodes);
    }
    if Listed(store, nodes) {
      ListedSame(store, list, nodes);
    }
  }
}
