/** A DaemonSet's pods, one per node.  Each is pinned by rewriting the affinity
    object that the template and every new pod share, and copied afterwards. */
module DaemonSetPinning {
  import opened Kube

  datatype Requirement = Requirement(key: string, operator: string, values: seq<string>)

  datatype Term = Term(matchExpressions: seq<Requirement>, matchFields: seq<Requirement>)

  class NodeSelector {
    var terms: array<Term>

    constructor (terms: array<Term>)
      ensures this.terms == terms
    {
      this.terms := terms;
    }
  }

  /** `preferred` stands for the preferred scheduling terms. */
  class NodeAffinity {
    var required: NodeSelector?
    var preferred: seq<Term>

    constructor (required: NodeSelector?, preferred: seq<Term>)
      ensures this.required == required && this.preferred == preferred
    {
      this.required, this.preferred := required, preferred;
    }
  }

  /** `others` stands for the affinities between pods. */
  class Affinity {
    var nodeAffinity: NodeAffinity?
    var others: seq<string>

    constructor (nodeAffinity: NodeAffinity?, others: seq<string>)
      ensures this.nodeAffinity == nodeAffinity && this.others == others
    {
      this.nodeAffinity, this.others := nodeAffinity, others;
    }
  }

  class DaemonPod {
    var affinity: Affinity?

    constructor (affinity: Affinity?)
      ensures this.affinity == affinity
    {
      this.affinity := affinity;
    }
  }

  // ----- the objects an affinity reaches, and what they say -----

  ghost function SelectorRepr(s: NodeSelector?): set<object>
    reads s
  {
    if s == null then {} else {s as object, s.terms}
  }

  ghost function NodeRepr(n: NodeAffinity?): set<object>
    reads n, if n == null then {} else {n.required}
  {
    if n == null then {} else {n} + SelectorRepr(n.required)
  }

  ghost function Repr(a: Affinity?): set<object>
    reads a, if a == null then {} else {a.nodeAffinity}
    reads if a == null || a.nodeAffinity == null then {} else {a.nodeAffinity.required}
  {
    if a == null then {} else {a} + NodeRepr(a.nodeAffinity)
  }

  datatype NodeRules = NodeRules(required: Option<seq<Term>>, preferred: seq<Term>)

  datatype Rules = Rules(node: Option<NodeRules>, others: seq<string>)

  function NodeRulesOf(n: NodeAffinity?): Option<NodeRules>
    reads NodeRepr(n)
  {
    if n == null then None
    else Some(NodeRules(if n.required == null then None else Some(n.required.terms[..]), n.preferred))
  }

  function RulesOf(a: Affinity?): Option<Rules>
    reads Repr(a)
  {
    if a == null then None else Some(Rules(NodeRulesOf(a.nodeAffinity), a.others))
  }

  // ----- pinning as a function on what an affinity says -----

  function NameIs(nodeName: string): Requirement {
    Requirement("metadata.name", "In", [nodeName])
  }

  function PinTerms(terms: seq<Term>, nodeName: string): seq<Term> {
    seq(|terms|, i requires 0 <= i < |terms| => terms[i].(matchFields := [NameIs(nodeName)]))
  }

  function PinNode(node: Option<NodeRules>, nodeName: string): NodeRules {
    match node
    case Some(NodeRules(Some(terms), preferred)) => NodeRules(Some(PinTerms(terms, nodeName)), preferred)
    case Some(NodeRules(None, preferred)) => NodeRules(Some([Term([], [NameIs(nodeName)])]), preferred)
    case None => NodeRules(Some([Term([], [NameIs(nodeName)])]), [])
  }

  function Pin(rules: Option<Rules>, nodeName: string): Rules {
    match rules
    case None => Rules(Some(PinNode(None, nodeName)), [])
    case Some(r) => r.(node := Some(PinNode(r.node, nodeName)))
  }

  /** SetDaemonSetPodNodeNameByNodeAffinity: rewrites the given object in place
      when there is one, and hands out a new one when there is none. */
  method SetNodeName(affinity: Affinity?, nodeName: string) returns (pinned: Affinity)
    modifies Repr(affinity)
    ensures RulesOf(pinned) == Some(Pin(old(RulesOf(affinity)), nodeName))
    ensures affinity != null ==> pinned == affinity
    ensures affinity == null ==> fresh(pinned)
    ensures fresh(Repr(pinned) - old(Repr(affinity)))
  {
    var only := new Term[1] [Term([], [NameIs(nodeName)])];
    var selector := new NodeSelector(only);
    assert only[..] == [Term([], [NameIs(nodeName)])];
    if affinity == null {
      var node := new NodeAffinity(selector, []);
      pinned := new Affinity(node, []);
      return;
    }
    if affinity.nodeAffinity == null {
      affinity.nodeAffinity := new NodeAffinity(selector, []);
      return affinity;
    }
    if affinity.nodeAffinity.required == null {
      affinity.nodeAffinity.required := selector;
      return affinity;
    }
    var terms := affinity.nodeAffinity.required.terms;
    ghost var was := terms[..];
    for i := 0 to terms.Length
      modifies terms
      invariant terms[..i] == PinTerms(was, nodeName)[..i] && terms[i..] == was[i..]
    {
      assert terms[i] == terms[i..][0] == was[i];
      terms[i] := terms[i].(matchFields := [NameIs(nodeName)]);
      assert terms[..i + 1] == terms[..i] + [terms[i]];
    }
    assert terms[..] == PinTerms(was, nodeName);
    affinity.nodeAffinity.required.terms := terms;
    return affinity;
  }

  method CopySelector(s: NodeSelector) returns (copy: NodeSelector)
    ensures copy.terms[..] == s.terms[..]
    ensures fresh(SelectorRepr(copy))
  {
    var terms := new Term[s.terms.Length](i requires 0 <= i < s.terms.Length reads s, s.terms => s.terms[i]);
    copy := new NodeSelector(terms);
  }

  /** The deep copy of an affinity shares nothing with it. */
  method DeepCopy(a: Affinity) returns (copy: Affinity)
    ensures RulesOf(copy) == RulesOf(a)
    ensures fresh(Repr(copy))
  {
    var node: NodeAffinity? := null;
    if a.nodeAffinity != null {
      var selector: NodeSelector? := null;
      if a.nodeAffinity.required != null {
        selector := CopySelector(a.nodeAffinity.required);
      }
      node := new NodeAffinity(selector, a.nodeAffinity.preferred);
    }
    copy := new Affinity(node, a.others);
  }

  // ----- the pods of a DaemonSet -----

  datatype ClusterNode = ClusterNode(name: string, labels: map<string, string>)

  /** What is decided elsewhere: whether a label requirement holds of a node's
      labels, whether the rest of a pod is valid, and whether the rest of the
      pod lets it run on a node. */
  datatype Checks = Checks(
    holds: (Requirement, map<string, string>) -> bool,
    accepts: Rules -> bool,
    runs: ClusterNode -> bool)

  /** A field requirement: one value, compared with the node's name. */
  predicate FieldHolds(r: Requirement, n: ClusterNode) {
    var value := if r.key == "metadata.name" then n.name else "";
    |r.values| == 1 && ((r.operator == "In" && value == r.values[0]) || (r.operator == "NotIn" && value != r.values[0]))
  }

  predicate ExpressionsHold(c: Checks, t: Term, n: ClusterNode) {
    forall i :: 0 <= i < |t.matchExpressions| ==> c.holds(t.matchExpressions[i], n.labels)
  }

  /** A term that asks for nothing selects no node; field requirements do not
      bind a node that has no name. */
  predicate TermMatches(c: Checks, t: Term, n: ClusterNode) {
    && (t.matchExpressions != [] || t.matchFields != [])
    && ExpressionsHold(c, t, n)
    && (n.name != "" ==> forall i :: 0 <= i < |t.matchFields| ==> FieldHolds(t.matchFields[i], n))
  }

  /** The node affinity lets the pod on this node: one of the required terms
      matches, or none are asked for. */
  predicate Admits(c: Checks, rules: Option<Rules>, n: ClusterNode) {
    match rules
    case Some(Rules(Some(NodeRules(Some(terms), _)), _)) => exists i :: 0 <= i < |terms| && TermMatches(c, terms[i], n)
    case _ => true
  }

  /** The template's own demands on labels let the pod on this node. */
  predicate Selectable(c: Checks, rules: Option<Rules>, n: ClusterNode) {
    match rules
    case Some(Rules(Some(NodeRules(Some(terms), _)), _)) => exists i :: 0 <= i < |terms| && ExpressionsHold(c, terms[i], n)
    case _ => true
  }

  /** A required selector without terms is refused. */
  predicate ValidRules(c: Checks, rules: Rules) {
    && c.accepts(rules)
    && (rules.node.Some? && rules.node.value.required.Some? ==> rules.node.value.required.value != [])
  }

  function PodsFor(c: Checks, rules: Option<Rules>, nodes: seq<ClusterNode>): Option<seq<Rules>> {
    if nodes == [] then Some([])
    else
      var last := nodes[|nodes| - 1];
      var pinned := Pin(rules, last.name);
      match PodsFor(c, rules, nodes[..|nodes| - 1])
      case None => None
      case Some(pods) =>
        if !ValidRules(c, pinned) then None
        else Some(pods + if c.runs(last) && Admits(c, Some(pinned), last) then [pinned] else [])
  }

  ghost predicate Inside(a: Affinity?, kept: set<object>)
    reads kept
    ensures Inside(a, kept) ==> Repr(a) <= kept
  {
    && (a != null ==> a in kept)
    && (a != null && a.nodeAffinity != null ==> a.nodeAffinity in kept)
    && (a != null && a.nodeAffinity != null && a.nodeAffinity.required != null ==>
          a.nodeAffinity.required in kept && a.nodeAffinity.required.terms in kept)
  }

  /** The pods lie inside the given objects, and this is what they say. */
  ghost predicate PodsSay(kept: set<object>, pods: seq<DaemonPod>, says: seq<Rules>)
    reads kept
  {
    |pods| == |says| &&
    forall k :: 0 <= k < |pods| ==>
                  pods[k] in kept && Inside(pods[k].affinity, kept) && RulesOf(pods[k].affinity) == Some(says[k])
  }

  lemma SaysMore(kept: set<object>, pods: seq<DaemonPod>, says: seq<Rules>, pod: DaemonPod, rules: Rules)
    requires PodsSay(kept, pods, says) && RulesOf(pod.affinity) == Some(rules)
    ensures PodsSay(kept + {pod} + Repr(pod.affinity), pods + [pod], says + [rules])
  {
    var more := kept + {pod} + Repr(pod.affinity);
    forall k | 0 <= k < |pods|
      ensures Inside(pods[k].affinity, more)
    {
    }
  }

  /** The valid pod is a copy that shares nothing with the given one. */
  method MakeValidPod(c: Checks, pod: DaemonPod) returns (valid: DaemonPod?)
    requires pod.affinity != null
    ensures valid != null <==> ValidRules(c, RulesOf(pod.affinity).value)
    ensures valid != null ==> RulesOf(valid.affinity) == RulesOf(pod.affinity) && fresh(valid) && fresh(Repr(valid.affinity))
  {
    var copy := DeepCopy(pod.affinity);
    if !ValidRules(c, RulesOf(copy).value) {
      return null;
    }
    valid := new DaemonPod(copy);
  }

  class DaemonSet {
    var affinity: Affinity?

    /** A pod for one node that still shares the template's affinity, which is
        rewritten in place. */
    method PinShared(nodeName: string) returns (pod: DaemonPod)
      modifies Repr(affinity)
      ensures affinity == old(affinity) && fresh(Repr(affinity) - old(Repr(affinity)))
      ensures pod.affinity != null && (affinity != null ==> pod.affinity == affinity)
      ensures RulesOf(pod.affinity) == Some(Pin(old(RulesOf(affinity)), nodeName))
    {
      pod := new DaemonPod(affinity);
      var pinned := SetNodeName(pod.affinity, nodeName);
      assert affinity == old(affinity);
      pod.affinity := pinned;
    }

    /** One pod for one node, copied only after the template is rewritten. */
    method NewDaemonPod(c: Checks, nodeName: string) returns (valid: DaemonPod?)
      modifies Repr(affinity)
      ensures affinity == old(affinity) && fresh(Repr(affinity) - old(Repr(affinity)))
      ensures RulesOf(affinity) == if affinity == null then None else Some(Pin(old(RulesOf(affinity)), nodeName))
      ensures valid != null <==> ValidRules(c, Pin(old(RulesOf(affinity)), nodeName))
      ensures valid != null ==>
                && RulesOf(valid.affinity) == Some(Pin(old(RulesOf(affinity)), nodeName))
                && fresh(valid) && fresh(Repr(valid.affinity)) && Repr(valid.affinity) !! Repr(affinity)
    {
      var pod := PinShared(nodeName);
      valid := MakeValidPod(c, pod);
    }

    /** The step for one node; what the pods made so far say does not change
        although the template does. */
    method AddFor(c: Checks, node: ClusterNode, pods: seq<DaemonPod>, ghost kept: set<object>, ghost says: seq<Rules>)
      returns (result: Option<seq<DaemonPod>>, ghost more: set<object>)
      requires PodsSay(kept, pods, says) && kept !! Repr(affinity)
      modifies Repr(affinity)
      ensures affinity == old(affinity) && fresh(Repr(affinity) - old(Repr(affinity)))
      ensures RulesOf(affinity) == if affinity == null then None else Some(Pin(old(RulesOf(affinity)), node.name))
      ensures result.Some? <==> ValidRules(c, Pin(old(RulesOf(affinity)), node.name))
      ensures fresh(more - kept)
      ensures result.Some? ==>
                var pinned := Pin(old(RulesOf(affinity)), node.name);
                && more !! Repr(affinity)
                && PodsSay(more, result.value, says + if c.runs(node) && Admits(c, Some(pinned), node) then [pinned] else [])
    {
      more := kept;
      var pod := NewDaemonPod(c, node.name);
      assert PodsSay(kept, pods, says);
      if pod == null {
        return None, more;
      }
      if !c.runs(node) || !Admits(c, RulesOf(pod.affinity), node) {
        assert says + [] == says;
        return Some(pods), more;
      }
      SaysMore(kept, pods, says, pod, Pin(old(RulesOf(affinity)), node.name));
      more := kept + {pod} + Repr(pod.affinity);
      result := Some(pods + [pod]);
    }

    /** Where the loop stands before node i: the template is pinned to the node
        before, the pods so far say what they should, and they share nothing
        with the template. */
    ghost predicate MadeUpTo(c: Checks, template: Option<Rules>, nodes: seq<ClusterNode>, i: nat,
                             kept: set<object>, pods: seq<DaemonPod>)
      reads this, Repr(affinity), kept
      requires i <= |nodes|
    {
      && RulesOf(affinity) == TemplateAfter(template, nodes[..i])
      && PodsFor(c, template, nodes[..i]).Some?
      && PodsSay(kept, pods, PodsFor(c, template, nodes[..i]).value)
      && kept !! Repr(affinity)
    }

    method MakeNext(c: Checks, ghost template: Option<Rules>, nodes: seq<ClusterNode>, i: nat,
                    ghost kept: set<object>, pods: seq<DaemonPod>)
      returns (result: Option<seq<DaemonPod>>, ghost more: set<object>)
      requires i < |nodes| && MadeUpTo(c, template, nodes, i, kept, pods)
      modifies Repr(affinity)
      ensures affinity == old(affinity) && fresh(Repr(affinity) - old(Repr(affinity))) && fresh(more - kept)
      ensures result.Some? ==> MadeUpTo(c, template, nodes, i + 1, more, result.value)
      ensures result.None? ==> PodsFor(c, template, nodes).None?
    {
      ghost var says := PodsFor(c, template, nodes[..i]).value;
      PodsForSnoc(c, template, nodes[..i], nodes[i]);
      PinAfter(template, nodes[..i], nodes[i].name);
      assert nodes[..i + 1] == nodes[..i] + [nodes[i]];
      result, more := AddFor(c, nodes[i], pods, kept, says);
      if result.None? {
        StopsHere(c, template, nodes, i);
      }
    }

    /** The pods of all nodes that may run one, in node order, or None when the
        pod of some node is not valid. */
    method MakeValidPods(c: Checks, nodes: seq<ClusterNode>) returns (result: Option<seq<DaemonPod>>, ghost kept: set<object>)
      modifies Repr(affinity)
      ensures result.Some? <==> PodsFor(c, old(RulesOf(affinity)), nodes).Some?
      ensures result.Some? ==> PodsSay(kept, result.value, PodsFor(c, old(RulesOf(affinity)), nodes).value)
      ensures result.Some? ==> fresh(kept) && kept !! Repr(affinity)
      ensures affinity == old(affinity)
      ensures result.Some? ==>
                RulesOf(affinity) == TemplateAfter(old(RulesOf(affinity)), nodes)
    {
      var pods: seq<DaemonPod> := [];
      kept := {};
      ghost var template := RulesOf(affinity);
      for i := 0 to |nodes|
        invariant affinity == old(affinity) && fresh(Repr(affinity) - old(Repr(affinity))) && fresh(kept)
        invariant MadeUpTo(c, template, nodes, i, kept, pods)
      {
        var more;
        more, kept := MakeNext(c, template, nodes, i, kept, pods);
        if more.None? {
          return None, kept;
        }
        pods := more.value;
      }
      assert nodes[..|nodes|] == nodes;
      result := Some(pods);
    }
  }

  /** Pinning again replaces the first pin. */
  lemma PinAgain(rules: Option<Rules>, first: string, second: string)
    ensures Pin(Some(Pin(rules, first)), second) == Pin(rules, second)
  {
    if rules.Some? && rules.value.node.Some? && rules.value.node.value.required.Some? {
      var terms := rules.value.node.value.required.value;
      assert PinTerms(PinTerms(terms, first), second) == PinTerms(terms, second);
    } else {
      assert PinTerms([Term([], [NameIs(first)])], second) == [Term([], [NameIs(second)])];
    }
  }

  /** What the template says after the pods of these nodes are made. */
  function TemplateAfter(rules: Option<Rules>, nodes: seq<ClusterNode>): Option<Rules> {
    if rules.None? || nodes == [] then rules else Some(Pin(rules, nodes[|nodes| - 1].name))
  }

  lemma PinAfter(rules: Option<Rules>, nodes: seq<ClusterNode>, nodeName: string)
    ensures Pin(TemplateAfter(rules, nodes), nodeName) == Pin(rules, nodeName)
  {
    if nodes != [] {
      PinAgain(rules, nodes[|nodes| - 1].name, nodeName);
    }
  }

  lemma PodsForSnoc(c: Checks, rules: Option<Rules>, nodes: seq<ClusterNode>, last: ClusterNode)
    requires PodsFor(c, rules, nodes).Some?
    ensures var pinned := Pin(rules, last.name);
            PodsFor(c, rules, nodes + [last]) ==
            if !ValidRules(c, pinned) then None
            else Some(PodsFor(c, rules, nodes).value + if c.runs(last) && Admits(c, Some(pinned), last) then [pinned] else [])
  {
    assert (nodes + [last])[..|nodes + [last]| - 1] == nodes;
  }

  lemma {:induction false} StopsHere(c: Checks, rules: Option<Rules>, nodes: seq<ClusterNode>, i: nat)
    requires i < |nodes| && !ValidRules(c, Pin(rules, nodes[i].name))
    ensures PodsFor(c, rules, nodes).None?
    decreases |nodes|
  {
    if i < |nodes| - 1 {
      StopsHere(c, rules, nodes[..|nodes| - 1], i);
    }
  }

  // ----- what the pods require -----

  /** A pinned pod admits exactly its own node, and that only if the template's
      label demands do.  A node without a name, which field requirements do not
      bind, is admitted by its labels alone. */
  lemma PinnedToItsNode(c: Checks, rules: Option<Rules>, nodeName: string, n: ClusterNode)
    ensures Admits(c, Some(Pin(rules, nodeName)), n) <==> Selectable(c, rules, n) && (n.name == nodeName || n.name == "")
  {
    var terms := Pin(rules, nodeName).node.value.required.value;
    forall i | 0 <= i < |terms|
      ensures TermMatches(c, terms[i], n) <==> ExpressionsHold(c, terms[i], n) && (n.name == nodeName || n.name == "")
    {
      assert terms[i].matchFields == [NameIs(nodeName)];
      assert FieldHolds(terms[i].matchFields[0], n) <==> n.name == nodeName;
    }
    match rules
    case Some(Rules(Some(NodeRules(Some(was), _)), _)) =>
      forall i | 0 <= i < |was|
        ensures ExpressionsHold(c, terms[i], n) <==> ExpressionsHold(c, was[i], n)
      {
      }
    case _ =>
      assert TermMatches(c, terms[0], n) <==> n.name == nodeName || n.name == "";
  }

  /** The nodes a pod may run on by the template's labels and the other checks. */
  function Chosen(c: Checks, rules: Option<Rules>, nodes: seq<ClusterNode>): seq<ClusterNode> {
    if nodes == [] then []
    else
      var last := nodes[|nodes| - 1];
      Chosen(c, rules, nodes[..|nodes| - 1]) + if c.runs(last) && Selectable(c, rules, last) then [last] else []
  }

  /** The rest of the pinned pod is valid, and its required selector has a term. */
  predicate PinValid(c: Checks, rules: Option<Rules>, nodeName: string) {
    c.accepts(Pin(rules, nodeName)) && Pin(rules, nodeName).node.value.required.value != []
  }

  lemma {:induction false} PodsMadeIff(c: Checks, rules: Option<Rules>, nodes: seq<ClusterNode>)
    ensures PodsFor(c, rules, nodes).Some? <==> forall i :: 0 <= i < |nodes| ==> PinValid(c, rules, nodes[i].name)
    decreases |nodes|
  {
    if nodes != [] {
      var init, last := nodes[..|nodes| - 1], nodes[|nodes| - 1];
      PodsMadeIff(c, rules, init);
      assert forall i :: 0 <= i < |init| ==> nodes[i] == init[i];
      assert ValidRules(c, Pin(rules, last.name)) <==> PinValid(c, rules, last.name);
    }
  }

  lemma {:induction false} PodsArePinned(c: Checks, rules: Option<Rules>, nodes: seq<ClusterNode>)
    requires PodsFor(c, rules, nodes).Some?
    ensures var pods, chosen := PodsFor(c, rules, nodes).value, Chosen(c, rules, nodes);
            && |pods| == |chosen|
            && forall k :: 0 <= k < |pods| ==> pods[k] == Pin(rules, chosen[k].name)
    decreases |nodes|
  {
    if nodes != [] {
      PodsArePinned(c, rules, nodes[..|nodes| - 1]);
      PinnedToItsNode(c, rules, nodes[|nodes| - 1].name, nodes[|nodes| - 1]);
    }
  }

  /** The pods are made, one for each chosen node in node order and each pinned
      to that node, if and only if for every node the rest of the pinned pod is
      valid and its required selector has a term. */
  lemma OnePodPerChosenNode(c: Checks, rules: Option<Rules>, nodes: seq<ClusterNode>)
    ensures PodsFor(c, rules, nodes).Some? <==>
            forall i :: 0 <= i < |nodes| ==>
                          c.accepts(Pin(rules, nodes[i].name)) && Pin(rules, nodes[i].name).node.value.required.value != []
    ensures PodsFor(c, rules, nodes).Some? ==>
              var pods, chosen := PodsFor(c, rules, nodes).value, Chosen(c, rules, nodes);
              && |pods| == |chosen|
              && forall k :: 0 <= k < |pods| ==> pods[k] == Pin(rules, chosen[k].name)
  {
    PodsMadeIff(c, rules, nodes);
    if PodsFor(c, rules, nodes).Some? {
      PodsArePinned(c, rules, nodes);
    }
    assert forall i :: 0 <= i < |nodes| ==>
                         (PinValid(c, rules, nodes[i].name) <==>
                          c.accepts(Pin(rules, nodes[i].name)) && Pin(rules, nodes[i].name).node.value.required.value != []);
  }

  /** What pinning leaves: the affinities between pods, the preferences, and for
      each required term its expressions; a template that requires nothing of
      nodes gains one term.  Every term names the node. */
  predicate PinnedFrom(rules: Option<Rules>, pod: Rules, nodeName: string) {
    && pod.others == (if rules.Some? then rules.value.others else [])
    && pod.node.Some? && pod.node.value.required.Some?
    && pod.node.value.preferred == (if rules.Some? && rules.value.node.Some? then rules.value.node.value.preferred else [])
    && var terms := pod.node.value.required.value;
    && (forall i :: 0 <= i < |terms| ==> terms[i].matchFields == [Requirement("metadata.name", "In", [nodeName])])
    && if rules.Some? && rules.value.node.Some? && rules.value.node.value.required.Some?
       then |terms| == |rules.value.node.value.required.value|
            && forall i :: 0 <= i < |terms| ==>
                             terms[i].matchExpressions == rules.value.node.value.required.value[i].matchExpressions
       else |terms| == 1 && terms[0].matchExpressions == []
  }

  /** Each pod requires exactly the node it was made for, and keeps everything
      else the template asked. */
  lemma PodsRequireTheirNodes(c: Checks, rules: Option<Rules>, nodes: seq<ClusterNode>, k: nat, n: ClusterNode)
    requires PodsFor(c, rules, nodes).Some? && k < |PodsFor(c, rules, nodes).value|
    ensures |Chosen(c, rules, nodes)| == |PodsFor(c, rules, nodes).value|
    ensures var pod, own := PodsFor(c, rules, nodes).value[k], Chosen(c, rules, nodes)[k];
            && PinnedFrom(rules, pod, own.name)
            && Admits(c, Some(pod), own)
            && (Admits(c, Some(pod), n) <==> Selectable(c, rules, n) && (n.name == own.name || n.name == ""))
  {
    OnePodPerChosenNode(c, rules, nodes);
    var own := Chosen(c, rules, nodes)[k];
    ChosenSelectable(c, rules, nodes, k);
    PinnedToItsNode(c, rules, own.name, own);
    PinnedToItsNode(c, rules, own.name, n);
  }

  lemma {:induction false} ChosenSelectable(c: Checks, rules: Option<Rules>, nodes: seq<ClusterNode>, k: nat)
    requires k < |Chosen(c, rules, nodes)|
    ensures Selectable(c, rules, Chosen(c, rules, nodes)[k]) && c.runs(Chosen(c, rules, nodes)[k])
    ensures Chosen(c, rules, nodes)[k] in nodes
    decreases |nodes|
  {
    var init := nodes[..|nodes| - 1];
    if k < |Chosen(c, rules, init)| {
      ChosenSelectable(c, rules, init, k);
    }
  }

  /** A required selector without terms cannot be pinned; no pod is made. */
  lemma NoTermsNoPods(c: Checks, rules: Rules, nodes: seq<ClusterNode>)
    requires rules.node.Some? && rules.node.value.required == Some([]) && nodes != []
    ensures PodsFor(c, Some(rules), nodes).None?
  {
    OnePodPerChosenNode(c, Some(rules), nodes);
    assert Pin(Some(rules), nodes[0].name).node.value.required.value == [];
    assert !ValidRules(c, Pin(Some(rules), nodes[0].name));
  }

  /** The rewritten template makes the same pods as the original. */
  lemma {:induction false} MakingPodsAgain(c: Checks, rules: Option<Rules>, before: seq<ClusterNode>, nodes: seq<ClusterNode>)
    ensures PodsFor(c, TemplateAfter(rules, before), nodes) == PodsFor(c, rules, nodes)
    decreases |nodes|
  {
    if nodes != [] {
      MakingPodsAgain(c, rules, before, nodes[..|nodes| - 1]);
      PinAfter(rules, before, nodes[|nodes| - 1].name);
    }
  }
}
