/** The check on a request set, above all on the dependencies between its models. */
module DependencyGraph {
  import opened Acyclic

  // A value and a key of the decoded request: what matters is whether they are whole numbers.
  datatype Value = Int(n: int) | NotInt
  datatype Key = Num(n: int) | Other(text: string)

  /** A request set: its kind, the number of its models, and by node the input lengths, the inputs
      (negative numbers name external ones) and the number of request identifiers. */
  datatype Request = Request(
    kind: string, models: nat, lengths: map<Key, seq<Value>>, edges: map<Key, seq<Value>>, ids: map<Key, nat>)

  datatype Verdict =
    | Accepted
    | WrongKind
    | EmptyModelSet
    | IncompleteFields
    | UnknownNode
    | InvalidLengths
    | CyclicGraph

  function KeysFor(s: set<int>): (keys: set<Key>)
    ensures forall k :: k in keys <==> k.Num? && k.n in s
  {
    set v | v in s :: Num(v)
  }

  function Nodes(n: nat): (s: set<nat>)
    ensures forall i: nat :: i in s <==> i < n
  {
    if n == 0 then {} else Nodes(n - 1) + {n - 1}
  }

  function NodesAnd(n: nat, external: set<int>): (s: set<int>)
    ensures forall v :: v in s <==> 0 <= v < n || v in external
  {
    Nodes(n) + external
  }

  /** The inputs of the nodes, in order. */
  function EdgeList(req: Request): (es: seq<seq<Value>>)
    requires forall i: nat :: i < req.models ==> Num(i) in req.edges
    ensures |es| == req.models && forall i: nat :: i < |es| ==> es[i] == req.edges[Num(i)]
  {
    seq(req.models, i requires 0 <= i < req.models => req.edges[Num(i)])
  }

  /** Negative entries name external inputs; others must be models. */
  predicate KnownNodes(edges: seq<seq<Value>>, n: nat) {
    forall i :: 0 <= i < |edges| ==> forall v :: v in edges[i] ==> v.Int? && v.n < n
  }

  function Dependencies(edges: seq<Value>): (d: set<nat>)
    ensures forall v: nat :: v in d <==> Int(v) in edges
  {
    set v | v in edges && v.Int? && v.n >= 0 :: v.n as nat
  }

  function GraphOf(edges: seq<seq<Value>>): (g: Graph)
    ensures forall i: nat :: i in g <==> i < |edges|
    ensures forall i :: 0 <= i < |edges| ==> g[i] == Dependencies(edges[i])
  {
    map i: nat | i < |edges| :: Dependencies(edges[i])
  }

  function OutsideOf(edges: seq<Value>): (e: set<int>)
    ensures forall v :: v in e <==> v < 0 && Int(v) in edges
  {
    set v | v in edges && v.Int? && v.n < 0 :: v.n
  }

  function Externals(edges: seq<seq<Value>>): (e: set<int>)
    ensures forall v :: v in e <==> v < 0 && exists i :: 0 <= i < |edges| && Int(v) in edges[i]
  {
    if edges == [] then {} else Externals(edges[..|edges| - 1]) + OutsideOf(edges[|edges| - 1])
  }

  predicate LengthsOk(lengths: seq<Value>, ids: nat) {
    |lengths| == ids && forall v :: v in lengths ==> v.Int? && v.n >= 0
  }

  /** What the check should say: the first thing that is wrong, in this order. */
  ghost function Judge(req: Request): Verdict {
    var n := req.models;
    if req.kind != "normal_request_set" then WrongKind
    else if n == 0 then EmptyModelSet
    else if req.lengths.Keys != KeysFor(NodesAnd(n, {})) || req.edges.Keys != KeysFor(NodesAnd(n, {})) then
      IncompleteFields
    else if !KnownNodes(EdgeList(req), n) then UnknownNode
    else JudgeNodes(req, GraphOf(EdgeList(req)), Externals(EdgeList(req)))
  }

  ghost predicate HasAllLengths(req: Request) {
    forall i: nat :: i < req.models ==> Num(i) in req.lengths
  }

  ghost function JudgeNodes(req: Request, graph: Graph, external: set<int>): Verdict
    requires HasAllLengths(req)
  {
    if req.ids.Keys != KeysFor(NodesAnd(req.models, external)) then IncompleteFields
    else if !AllLengths(req) then InvalidLengths
    else if HasCycle(graph) then CyclicGraph
    else Accepted
  }

  /** Every node has as many input lengths as request identifiers, none of them negative. */
  ghost predicate AllLengths(req: Request)
    requires forall i: nat :: i < req.models ==> Num(i) in req.lengths && Num(i) in req.ids
  {
    forall i: nat :: i < req.models ==> LengthsOk(req.lengths[Num(i)], req.ids[Num(i)])
  }

  /** The peeling loop: repeatedly remove the nodes that depend on no remaining one. */
  method Peel(graph: Graph, nodes: set<nat>) returns (acyclic: bool)
    requires nodes == graph.Keys && forall n, d :: n in graph && d in graph[n] ==> d in nodes
    ensures acyclic <==> !HasCycle(graph)
  {
    var pending := nodes;
    forall p | Cycle(graph, p) ensures forall i :: 0 <= i < |p| ==> p[i] in pending {
      CycleInside(graph, p);
    }
    while pending != {}
      invariant pending <= nodes
      invariant forall p :: Cycle(graph, p) ==> forall i :: 0 <= i < |p| ==> p[i] in pending
      decreases |pending|
    {
      var ready := set n | n in pending && graph[n] * pending == {};
      if ready == {} {
        forall n | n in pending ensures graph[n] * pending != {} {
          assert n !in ready;
        }
        var p := NoSourceCycle(graph, pending);
        return false;
      }
      forall p | Cycle(graph, p) ensures forall i :: 0 <= i < |p| ==> p[i] in pending - ready {
        forall i | 0 <= i < |p| ensures p[i] !in ready {
          CycleAvoids(graph, pending, p, i);
        }
      }
      Smaller(pending, ready);
      pending := pending - ready;
    }
    return true;
  }

  lemma {:induction false} Smaller(s: set<nat>, r: set<nat>)
    requires r <= s && r != {}
    ensures |s - r| < |s|
  {
    assert s == (s - r) + r;
  }

  lemma {:induction false} CycleInside(g: Graph, p: seq<nat>)
    requires Cycle(g, p) && forall n, d :: n in g && d in g[n] ==> d in g.Keys
    ensures forall i :: 0 <= i < |p| ==> p[i] in g.Keys
  {
  }

  lemma {:induction false} CollectStep(edges: seq<seq<Value>>, node: nat, n: nat)
    requires node < |edges|
    ensures var before, after, es := edges[..node], edges[..node + 1], edges[node];
            && (KnownNodes(after, n) <==> KnownNodes(before, n) && forall v :: v in es ==> v.Int? && v.n < n)
            && GraphOf(after) == GraphOf(before)[node := Dependencies(es)]
            && Externals(after) == Externals(before) + OutsideOf(es)
            && (KnownNodes(edges, n) ==> KnownNodes(after, n))
  {
    var before, after := edges[..node], edges[..node + 1];
    assert after == before + [edges[node]] && after[..node] == before;
    assert GraphOf(after).Keys == GraphOf(before)[node := Dependencies(edges[node])].Keys;
  }

  /** One pass over the inputs of all nodes. */
  method Collect(edges: seq<seq<Value>>) returns (ok: bool, graph: Graph, external: set<int>)
    ensures ok <==> KnownNodes(edges, |edges|)
    ensures ok ==> graph == GraphOf(edges) && external == Externals(edges)
  {
    graph, external := map[], {};
    for node := 0 to |edges|
      invariant KnownNodes(edges[..node], |edges|)
      invariant graph == GraphOf(edges[..node]) && external == Externals(edges[..node])
    {
      CollectStep(edges, node, |edges|);
      if exists v :: v in edges[node] && (v.NotInt? || v.n >= |edges|) {
        return false, graph, external;
      }
      graph := graph[node := Dependencies(edges[node])];
      external := external + OutsideOf(edges[node]);
    }
    assert edges[..|edges|] == edges;
    ok := true;
  }

  method AllLengthsOk(req: Request) returns (ok: bool)
    requires forall i: nat :: i < req.models ==> Num(i) in req.lengths && Num(i) in req.ids
    ensures ok <==> AllLengths(req)
  {
    for node := 0 to req.models
      invariant forall i: nat :: i < node ==> LengthsOk(req.lengths[Num(i)], req.ids[Num(i)])
    {
      if !LengthsOk(req.lengths[Num(node)], req.ids[Num(node)]) {
        return false;
      }
    }
    ok := true;
  }

  method CheckNodes(req: Request, graph: Graph, external: set<int>) returns (r: Verdict)
    requires HasAllLengths(req) && graph.Keys == Nodes(req.models)
    requires forall n, d :: n in graph && d in graph[n] ==> d < req.models
    ensures r == JudgeNodes(req, graph, external)
  {
    if req.ids.Keys != KeysFor(NodesAnd(req.models, external)) {
      return IncompleteFields;
    }
    var ok := AllLengthsOk(req);
    if !ok {
      return InvalidLengths;
    }
    var acyclic := Peel(graph, Nodes(req.models));
    r := if acyclic then Accepted else CyclicGraph;
  }

  /** The whole check; the dependencies pass exactly when they have no directed cycle. */
  method Validate(req: Request) returns (r: Verdict)
    ensures r == Judge(req)
  {
    var n := req.models;
    if req.kind != "normal_request_set" {
      return WrongKind;
    }
    if n == 0 {
      return EmptyModelSet;
    }
    if req.lengths.Keys != KeysFor(NodesAnd(n, {})) || req.edges.Keys != KeysFor(NodesAnd(n, {})) {
      return IncompleteFields;
    }
    var known, graph, external := Collect(EdgeList(req));
    if !known {
      return UnknownNode;
    }
    r := CheckNodes(req, graph, external);
  }
}
