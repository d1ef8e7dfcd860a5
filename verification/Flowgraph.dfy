// The control-flow graph of one function as the dependence builder sees it.
module Flowgraph {
  import opened Wrappers
  import opened DataFlow

  // Edges with different tags may run in parallel.
  datatype CfgEdge = CfgEdge(src: Node, tag: string, dst: Node)

  datatype Flowgraph = Flowgraph(cfg: set<CfgEdge>, entry: Node) {

    function InEdges(n: Node): set<CfgEdge> {
      set e | e in cfg && e.dst == n
    }

    function OutEdges(n: Node): set<CfgEdge> {
      set e | e in cfg && e.src == n
    }

    // The instructions that introduce values.
    function Origins(): set<Node> {
      set n | n in Nodes() && IsOrigin(n)
    }

    function Nodes(): set<Node> {
      set e | e in cfg :: e.dst
    }

    ghost predicate Joined(m: Node, n: Node) {
      exists e :: e in cfg && e.src == m && e.dst == n
    }

    // Control passes along an edge, except out of `unreachable`.
    ghost predicate Flow(m: Node, n: Node) {
      !m.inst.Unreachable? && Joined(m, n)
    }

    // A path from the entry.
    ghost predicate IsPath(p: seq<Node>) {
      p != [] && p[0] == entry && forall i :: 0 <= i < |p| - 1 ==> Flow(p[i], p[i + 1])
    }

    ghost predicate Live(n: Node) {
      exists p :: IsPath(p) && p[|p| - 1] == n
    }

    // No loops, and one way only into an instruction that ends the program.
    ghost predicate Orderly(rank: Node -> nat) {
      && entry.inst.Start?
      && (forall e :: e in cfg && Live(e.dst) ==>
            rank(e.src) < rank(e.dst) && !e.dst.inst.Start? && !e.dst.inst.LoopHead? && !e.dst.inst.LoopEnd?)
      && (forall e, f :: e in cfg && f in cfg && e.dst == f.dst && Live(e.dst) && e.dst.inst.Unreachable? ==> e == f)
    }

    // Edges one after another, whether control passes along them or not.
    ghost predicate IsWay(p: seq<Node>) {
      p != [] && forall i :: 0 <= i < |p| - 1 ==> Joined(p[i], p[i + 1])
    }

    // Control comes to the instruction, and passes through everything that
    // edges lead to it from.
    ghost predicate Served(n: Node) {
      Live(n) && forall p: seq<Node> :: IsWay(p) && |p| > 1 && p[|p| - 1] == n ==> Live(p[0]) && !p[0].inst.Unreachable?
    }

    // Dead code does not lead into live code.
    ghost predicate DeadIsApart() {
      forall e :: e in cfg && Live(e.dst) ==> Live(e.src) && !e.src.inst.Unreachable?
    }

    // Validated code: at every live instruction the operands, variables and
    // labels are those of the place.
    ghost predicate ShapedAs(shape: Node -> Shape, results: nat) {
      && (forall n :: Live(n) ==> Accepts(n, shape(n), results))
      && (forall e :: e in cfg && Live(e.src) && !e.src.inst.Unreachable? ==>
            ShapeOnArrival(e.dst, ShapeAfter(e.src, shape(e.src)), results) == Some(shape(e.dst)))
    }

    // Control does not come back to the start, and no other label has the name of a loop.
    ghost predicate LoopsNamed() {
      && (forall e :: e in cfg && Live(e.src) && !e.src.inst.Unreachable? ==> !e.dst.inst.Start?)
      && forall m, n :: Live(m) && Live(n) && m.inst.LoopHead? && (n.inst.LoopHead? || n.inst.BeginBlock?) && m.inst.name == n.inst.name ==> m == n
    }

    lemma LastEdge(p: seq<Node>) returns (e: CfgEdge)
      requires IsWay(p) && |p| > 1
      ensures e in InEdges(p[|p| - 1]) && e.src == p[|p| - 2] && IsWay(p[..|p| - 1])
    {
      assert Joined(p[|p| - 2], p[|p| - 2 + 1]);
      e :| e in cfg && e.src == p[|p| - 2] && e.dst == p[|p| - 1];
    }

    lemma ServedBefore(n: Node, e: CfgEdge)
      requires Served(n) && e in InEdges(n)
      ensures Served(e.src) && !e.src.inst.Unreachable?
    {
      assert Joined(e.src, n);
      assert IsWay([e.src, n]);
      forall p: seq<Node> | IsWay(p) && |p| > 1 && p[|p| - 1] == e.src
        ensures Live(p[0]) && !p[0].inst.Unreachable?
      {
        assert IsWay(p + [n]);
      }
    }

    lemma ServedIsLive(n: Node)
      requires Served(n)
      ensures Live(n)
    {
    }

    lemma ServedAfter(n: Node)
      requires Live(n) && forall e :: e in InEdges(n) ==> Served(e.src) && !e.src.inst.Unreachable?
      ensures Served(n)
    {
      forall p: seq<Node> | IsWay(p) && |p| > 1 && p[|p| - 1] == n
        ensures Live(p[0]) && !p[0].inst.Unreachable?
      {
        var e := LastEdge(p);
        assert Served(p[..|p| - 1][|p| - 2]);
      }
    }

    // All live instructions are served exactly where dead code is apart.
    lemma AllServed()
      ensures DeadIsApart() <==> forall n :: Live(n) ==> Served(n)
    {
      if DeadIsApart() {
        forall n | Live(n)
          ensures Served(n)
        {
          forall p: seq<Node> | IsWay(p) && |p| > 1 && p[|p| - 1] == n
            ensures Live(p[0]) && !p[0].inst.Unreachable?
          {
            LiveBefore(p);
          }
        }
      }
      forall e | e in cfg && Live(e.dst) && Served(e.dst)
        ensures Live(e.src) && !e.src.inst.Unreachable?
      {
        ServedBefore(e.dst, e);
      }
    }

    lemma {:induction false} LiveBefore(p: seq<Node>)
      requires DeadIsApart() && IsWay(p) && |p| > 1 && Live(p[|p| - 1])
      ensures Live(p[0]) && !p[0].inst.Unreachable?
      decreases |p|
    {
      hide Live;
      var e := LastEdge(p);
      if |p| > 2 {
        LiveBefore(p[..|p| - 1]);
      }
    }

    lemma EntryIsLive()
      ensures Live(entry)
    {
      assert IsPath([entry]);
    }

    lemma FlowKeepsLive(e: CfgEdge)
      requires e in cfg && Live(e.src) && !e.src.inst.Unreachable?
      ensures Live(e.dst)
    {
      var p :| IsPath(p) && p[|p| - 1] == e.src;
      assert IsPath(p + [e.dst]);
    }

    lemma LiveHasFlow(n: Node)
      requires Live(n) && n != entry
      ensures exists e :: e in InEdges(n) && Live(e.src) && !e.src.inst.Unreachable?
    {
      var p :| IsPath(p) && p[|p| - 1] == n;
      var m := p[|p| - 2];
      assert Flow(p[|p| - 2], p[|p| - 1]);
      var e :| e in cfg && e.src == m && e.dst == n;
      assert IsPath(p[..|p| - 1]);
      assert e in InEdges(n);
    }

    lemma LastStep(p: seq<Node>) returns (e: CfgEdge)
      requires IsPath(p) && |p| > 1
      ensures e in cfg && e.src == p[|p| - 2] && e.dst == p[|p| - 1] && !e.src.inst.Unreachable?
      ensures IsPath(p[..|p| - 1]) && Live(e.src) && Live(e.dst)
    {
      assert Flow(p[|p| - 2], p[|p| - 1]);
      e :| e in cfg && e.src == p[|p| - 2] && e.dst == p[|p| - 1];
      var q := p[..|p| - 1];
      assert IsPath(q) && q[|q| - 1] == e.src;
    }
  }
}
