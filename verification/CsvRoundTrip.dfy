// A graph that is written and read again.
module CsvRoundTrip {
  import opened Wrappers
  import opened CsvText
  import opened CsvReader
  import opened CsvEncodings
  import opened CsvFormat
  import opened CsvGraph
  import opened Graphs

  // readGraph, with the numbers of nodes and edges that info.json gives.
  method ReadGraph(nodesText: string, edgesText: string, infoNodes: nat, infoEdges: nat,
                   ghost nodes: seq<Node>, ghost edges: seq<Edge>, ghost orders: seq<nat>)
    returns (ok: bool, h: Graph, read: seq<Node>)
    requires |orders| == |edges| && nodesText == NodesText(nodes) && edgesText == EdgesText(edges, orders)
    requires (forall i :: 0 <= i < |nodes| ==> WfNode(nodes[i])) && forall i :: 0 <= i < |edges| ==> WfEdge(edges[i])
    ensures ok <==> EndsWell(nodesText) && EndsWell(edgesText) && Readable(nodes) && AllJoin(edges, |nodes|)
                    && infoNodes == |nodes| && infoEdges == |edges|
    ensures ok ==> read == AllReadBack(nodes) && fresh(h) && h.Valid() && h.count == |nodes| && h.made == AllEdgesReadBack(edges)
  {
    ok, read := false, [];
    h := new Graph();
    var some := ReadNodes(nodesText, nodes);
    if some.None? {
      return;
    }
    read := some.value;
    ReadBackIds(nodes, edges);
    AddNodes(h, |read|);
    var joined := ReadEdges(edgesText, read, edges, orders);
    if joined.Some? {
      AddEdges(h, joined.value);
      ok := infoNodes == |read| && infoEdges == |joined.value|;
    }
  }

  predicate AllJoin(edges: seq<Edge>, count: nat) {
    forall i :: 0 <= i < |edges| ==> edges[i].src < count && edges[i].dst < count
  }

  lemma ReadBackIds(nodes: seq<Node>, edges: seq<Edge>)
    requires Readable(nodes)
    ensures |nodes| <= TWO_TO_31
    ensures (forall i :: 0 <= i < |edges| ==> Joins(edges[i], AllReadBack(nodes))) <==> AllJoin(edges, |nodes|)
    ensures AllJoin(edges, |nodes|) ==> AllJoin(AllEdgesReadBack(edges), |nodes|)
  {
    var read := AllReadBack(nodes);
    if nodes != [] {
      assert nodes[|nodes| - 1].id == |nodes| - 1 && Fits(nodes[|nodes| - 1]);
    }
    assert forall n: nat :: IsNode(read, n) <==> n < |nodes| by {
      forall n: nat | n < |nodes|
        ensures read[n].id == n
      {
        assert nodes[n].id == n;
      }
    }
    forall i | 0 <= i < |edges|
      ensures Joins(edges[i], read) <==> edges[i].src < |nodes| && edges[i].dst < |nodes|
      ensures AllEdgesReadBack(edges)[i].src == edges[i].src && AllEdgesReadBack(edges)[i].dst == edges[i].dst
    {
    }
  }

  method AddNodes(h: Graph, count: nat)
    requires h.Valid() && h.made == [] && h.count == 0
    modifies h
    ensures h.Valid() && h.made == [] && h.count == count
  {
    for i := 0 to count
      invariant h.Valid() && h.made == [] && h.count == i
    {
      var n := h.NewNode();
    }
  }

  method AddEdges(h: Graph, edges: seq<Edge>)
    requires h.Valid() && h.made == [] && AllJoin(edges, h.count)
    modifies h
    ensures h.Valid() && h.made == edges && h.count == old(h.count)
  {
    for i := 0 to |edges|
      invariant h.Valid() && h.made == edges[..i] && h.count == old(h.count)
    {
      h.Connect(edges[i]);
    }
    assert edges[..|edges|] == edges;
  }

  // ----- what has come back -----

  lemma {:induction false} WalkedHas(g: Graph, nodes: seq<Node>, e: Edge)
    requires g.Valid() && AllIn(g, nodes)
    ensures e in Walked(g, nodes) <==> exists i :: 0 <= i < |nodes| && nodes[i].id == e.src && e in g.made
    decreases |nodes|
  {
    if nodes != [] {
      var last, rest := nodes[|nodes| - 1], nodes[..|nodes| - 1];
      WalkedHas(g, rest, e);
      EdgeSetIsSorted(g.outEdges[last.id]);
      assert g.outEdges[last.id] == OutOf(g.made, last.id);
      if i :| 0 <= i < |nodes| && nodes[i].id == e.src && e in g.made {
        assert i < |rest| ==> rest[i] == nodes[i];
      }
      if i :| 0 <= i < |rest| && rest[i].id == e.src && e in g.made {
        assert nodes[i] == rest[i];
      }
    }
  }

  lemma WalkedAll(g: Graph, nodes: seq<Node>, e: Edge)
    requires g.Valid() && AllIn(g, nodes) && Readable(nodes)
    ensures e in Walked(g, nodes) <==> e in g.made && e.src < |nodes|
  {
    WalkedHas(g, nodes, e);
    if e.src < |nodes| {
      assert nodes[e.src].id == e.src;
    }
  }

  // The edges of the second graph are those that the nodes in the first one
  // have, with underscores for the commas in their labels.
  ghost predicate SameEdges(g: Graph, h: Graph)
    reads g, h
  {
    && (forall n: nat, e :: n in h.outEdges ==> (e in h.outEdges[n] <==> n in g.outEdges && exists f :: f in g.outEdges[n] && EdgeReadBack(f) == e))
    && (forall n: nat, e :: n in h.inEdges ==>
          (e in h.inEdges[n] <==> n in g.inEdges && exists f :: f in g.inEdges[n] && f.src < h.count && EdgeReadBack(f) == e))
  }

  lemma SameEnds(e: Edge)
    ensures EdgeReadBack(e).src == e.src && EdgeReadBack(e).dst == e.dst
  {
  }

  lemma MadeComeBack(g: Graph, nodes: seq<Node>, h: Graph)
    requires g.Valid() && AllIn(g, nodes) && Readable(nodes) && h.made == AllEdgesReadBack(Walked(g, nodes))
    ensures forall e :: e in h.made <==> exists f :: f in g.made && f.src < |nodes| && EdgeReadBack(f) == e
  {
    var walked := Walked(g, nodes);
    forall e
      ensures e in h.made <==> exists f :: f in g.made && f.src < |nodes| && EdgeReadBack(f) == e
    {
      if e in h.made {
        var i :| 0 <= i < |walked| && e == EdgeReadBack(walked[i]);
        WalkedAll(g, nodes, walked[i]);
      }
      if f :| f in g.made && f.src < |nodes| && EdgeReadBack(f) == e {
        WalkedAll(g, nodes, f);
        var i :| 0 <= i < |walked| && walked[i] == f;
        assert h.made[i] == e;
      }
    }
  }

  lemma EdgesComeBack(g: Graph, nodes: seq<Node>, h: Graph)
    requires g.Valid() && AllIn(g, nodes) && Readable(nodes) && |nodes| <= g.count
    requires h.Valid() && h.count == |nodes| && h.made == AllEdgesReadBack(Walked(g, nodes))
    ensures SameEdges(g, h)
  {
    MadeComeBack(g, nodes, h);
    hide EdgeReadBack, Walked, AllEdgesReadBack, Readable;
    forall e
      ensures EdgeReadBack(e).src == e.src && EdgeReadBack(e).dst == e.dst
    {
      SameEnds(e);
    }
    forall n: nat, e | n < h.count
      ensures e in h.outEdges[n] <==> n in g.outEdges && exists f :: f in g.outEdges[n] && EdgeReadBack(f) == e
      ensures e in h.inEdges[n] <==> n in g.inEdges && exists f :: f in g.inEdges[n] && f.src < h.count && EdgeReadBack(f) == e
    {
      assert h.outEdges[n] == OutOf(h.made, n) && g.outEdges[n] == OutOf(g.made, n);
      assert h.inEdges[n] == Into(h.made, n) && g.inEdges[n] == Into(g.made, n);
    }
  }

  // Where no label has a comma and every node was written, each node has the
  // same edge sets again.
  lemma SameEdgeSets(g: Graph, h: Graph, n: nat)
    requires g.Valid() && h.Valid() && SameEdges(g, h) && h.count <= g.count && n < h.count
    requires forall e :: e in g.made ==> EdgeReadBack(e) == e
    ensures EdgeSet(h.outEdges[n]) == EdgeSet(g.outEdges[n])
    ensures h.count == g.count ==> EdgeSet(h.inEdges[n]) == EdgeSet(g.inEdges[n])
  {
    forall e
      ensures e in h.outEdges[n] <==> e in g.outEdges[n]
      ensures h.count == g.count ==> (e in h.inEdges[n] <==> e in g.inEdges[n])
    {
      assert g.outEdges[n] == OutOf(g.made, n) && g.inEdges[n] == Into(g.made, n);
    }
    EdgeSetIsCanonical(h.outEdges[n], g.outEdges[n]);
    if h.count == g.count {
      EdgeSetIsCanonical(h.inEdges[n], g.inEdges[n]);
    }
  }

  // A graph that is written can be read exactly if its nodes are numbered
  // from 0 on without gaps, all numbers are small enough, the edges of these
  // nodes stay among them, and both texts end well. Then the nodes come back
  // in the order of their numbers, and each has its edges again.
  method RoundTrip(g: Graph, nodes: seq<Node>) returns (ok: bool, h: Graph, read: seq<Node>)
    requires g.Valid() && forall i :: 0 <= i < |nodes| ==> nodes[i].id < g.count && WfNode(nodes[i])
    requires forall e :: e in g.made ==> WfEdge(e)
    ensures AllIn(g, ByNumber(nodes))
    ensures ok <==> && EndsWell(NodesText(ByNumber(nodes))) && EndsWell(EdgesText(Walked(g, ByNumber(nodes)), WalkedOrders(g, ByNumber(nodes))))
                    && Readable(ByNumber(nodes)) && forall e :: e in g.made && e.src < |nodes| ==> e.dst < |nodes|
    ensures ok ==> read == AllReadBack(ByNumber(nodes)) && h.Valid() && h.count == |nodes| && SameEdges(g, h)
  {
    hide Walked, WalkedOrders, ByNumber, AllReadBack, AllEdgesReadBack, SameEdges, EndsWell, NodesText, EdgesText, WfNode, WfEdge, Readable, EdgeSet, OutOf, Into;
    var sorted := ByNumber(nodes);
    ByNumberSorts(nodes);
    SameMembers(nodes);
    forall i | 0 <= i < |sorted|
      ensures WfNode(sorted[i])
    {
      assert sorted[i] in nodes;
    }
    var nodesText, edgesText, numNodes, numEdges := WriteGraph(g, nodes);
    ghost var walked, orders := Walked(g, sorted), WalkedOrders(g, sorted);
    WalkedIsWf(g, sorted);
    ok, h, read := ReadGraph(nodesText, edgesText, numNodes, numEdges, sorted, walked, orders);
    if Readable(sorted) {
      EdgesStay(g, sorted);
    }
    if ok {
      IdsFit(g, sorted);
      EdgesComeBack(g, sorted, h);
    }
  }

  lemma WalkedIsWf(g: Graph, nodes: seq<Node>)
    requires g.Valid() && AllIn(g, nodes) && forall e :: e in g.made ==> WfEdge(e)
    ensures forall i :: 0 <= i < |Walked(g, nodes)| ==> WfEdge(Walked(g, nodes)[i])
  {
    forall e | e in Walked(g, nodes)
      ensures WfEdge(e)
    {
      WalkedHas(g, nodes, e);
    }
  }

  lemma EdgesStay(g: Graph, nodes: seq<Node>)
    requires g.Valid() && AllIn(g, nodes) && Readable(nodes)
    ensures AllJoin(Walked(g, nodes), |nodes|) <==> forall e :: e in g.made && e.src < |nodes| ==> e.dst < |nodes|
  {
    var walked := Walked(g, nodes);
    forall e
      ensures e in walked <==> e in g.made && e.src < |nodes|
    {
      WalkedAll(g, nodes, e);
    }
    if AllJoin(walked, |nodes|) {
      forall e | e in g.made && e.src < |nodes|
        ensures e.dst < |nodes|
      {
        var i :| 0 <= i < |walked| && walked[i] == e;
      }
    }
  }

  lemma IdsFit(g: Graph, nodes: seq<Node>)
    requires g.Valid() && AllIn(g, nodes) && Readable(nodes)
    ensures |nodes| <= g.count
  {
    if nodes != [] {
      assert nodes[|nodes| - 1].id in g.outEdges;
    }
  }
}
