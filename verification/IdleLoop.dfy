// A valid function with a loop that control does not come back in: the call
// behind it is never let through.
module IdleLoop {
  import opened Wrappers
  import opened Lowering
  import opened LoweringCorrect
  import opened StackSafety
  import opened StackRuns
  import opened LoopFree
  import opened OneLoopText
  import opened ValidCode
  import opened OneLoopCode
  import D = DataFlow
  import Flowgraph
  import OneLoop
  import LoopEntry
  import CallFlow
  import PdgBuilder

  // loop $l  nop  end
  // call $f
  const LIST := Cons(Plain(1), Nil)
  const LAST := Cons(Plain(2), Nil)
  const BODY := Cons(Loop(0, "l", LIST), LAST)
  const SITE := Site(0, LIST)

  function InstOf(n: Node): D.Inst {
    match n
    case Instructions => D.Start
    case At(0, Inst) => D.LoopHead("l")
    case At(0, LoopEnd) => D.LoopEnd("l", 0)
    case At(1, Inst) => D.Nop
    case At(2, Inst) => D.Call("f", 0, 0)
    case _ => D.Return
  }

  function ShapeIn(n: Node): D.Shape {
    match n
    case At(0, Inst) => D.Shape({}, {}, 0, [D.Label("l", 0)])
    case At(1, Inst) => D.Shape({}, {}, 0, [D.Label("l", 0)])
    case _ => D.Shape({}, {}, 0, [])
  }

  const CODE := Code(InstOf, ShapeIn, {}, {}, 0)

  const IN_LOOP: seq<Frame> := [Frame("l", 0, At(0, Part.Inst), 0, true)]

  lemma BodyIsWf()
    ensures Wf(BODY, {})
  {
    assert WfExpr(Plain(1), {"l"}) && Ids(LIST) == {1} && Wf(LIST, {"l"});
    assert {} + {"l"} == {"l"} && WfExpr(Loop(0, "l", LIST), {}) && WfExpr(Plain(2), {}) && Ids(LAST) == {2} && Wf(LAST, {});
  }

  lemma Framed()
    ensures Labels([]) == [] && Base([]) == 0 && Labels(IN_LOOP) == [D.Label("l", 0)] && Base(IN_LOOP) == 0 && Fresh([], "l")
    ensures Inner("l", 0, At(0, Part.Inst), 0, true, []) == IN_LOOP
  {
    assert IN_LOOP[1..] == [];
  }

  lemma LoopIsValid()
    ensures ValidExpr(CODE, Loop(0, "l", LIST), [], 0)
  {
    Framed();
    assert ValidExpr(CODE, Plain(1), IN_LOOP, 0) && Valid(CODE, Nil, IN_LOOP, 0, 0) && Valid(CODE, LIST, IN_LOOP, 0, 0);
  }

  lemma BodyIsValid()
    ensures Validated(CODE, BODY)
  {
    hide LIST;
    Framed();
    BodyIsWf();
    LoopIsValid();
    assert ValidExpr(CODE, Plain(2), [], 0) && Valid(CODE, Nil, [], 0, 0) && Valid(CODE, LAST, [], 0, 0);
  }

  const GRAPH: set<Edge> := {
    Edge(Instructions, Next, At(0, Part.Inst)), Edge(At(0, Part.Inst), Next, At(1, Part.Inst)),
    Edge(At(1, Part.Inst), Next, At(0, LoopEnd)), Edge(At(0, LoopEnd), Next, At(2, Part.Inst)), Edge(At(2, Part.Inst), Next, ReturnNode)}

  lemma TheGraph()
    ensures Graph(BODY) == GRAPH && Repairs(BODY) == {}
  {
    var e, inner := Loop(0, "l", LIST), [Binding("l", At(0, Part.Inst))] + [];
    assert Edges(LIST, inner) == {} && Exit(LIST, At(0, LoopEnd)) == {Edge(At(1, Part.Inst), Next, At(0, LoopEnd))};
    assert Inside(e, []) == {Edge(At(0, Part.Inst), Next, At(1, Part.Inst))};
    assert Edges(LAST, []) == {} && !Cut(LAST, []) && Exit(LAST, ReturnNode) == {Edge(At(2, Part.Inst), Next, ReturnNode)};
    assert Edges(BODY, []) == Inside(e, []) + Link(e, [], LAST) + Edges(LAST, []) && !Cut(BODY, []);
    assert Exit(BODY, ReturnNode) == Exit(LAST, ReturnNode);
    assert Unrepaired(BODY) == GRAPH;
    assert TreeNodes(LAST) == {At(2, Part.Inst)} && TreeNodes(LIST) == {At(1, Part.Inst)};
    assert TreeNodes(BODY) == {At(0, Part.Inst), At(1, Part.Inst), At(2, Part.Inst)};
    forall n | n in TreeNodes(BODY)
      ensures HasOut(GRAPH, n)
    {
      GoesOn(n);
    }
  }

  lemma GoesOn(n: Node)
    requires n in {At(0, Part.Inst), At(1, Part.Inst), At(2, Part.Inst)}
    ensures HasOut(GRAPH, n)
  {
    var g := if n.id == 0 then Edge(n, Next, At(1, Part.Inst)) else if n.id == 1 then Edge(n, Next, At(0, LoopEnd)) else Edge(n, Next, ReturnNode);
    assert g in GRAPH;
  }

  lemma NothingNeedyHere()
    ensures NeedyList(CODE, BODY, [], ReturnNode, 0) == {}
  {
    assert Needy(CODE, LIST, [Binding("l", At(0, Part.Inst))] + []) == {} && Needy(CODE, LAST, []) == {};
    hide LIST;
    assert Needy(CODE, BODY, []) == {} && !EndsInLoop(LAST) && !EndsInLoop(BODY);
  }

  lemma NothingFailsHere()
    ensures NothingFails(CODE, BODY) && LoopsNamed(CODE, BODY)
  {
    TheGraph();
    NothingNeedyHere();
    hide LIST, BODY;
    forall m, n | HasIn(GRAPH, m) && HasIn(GRAPH, n) && InstOf(m).LoopHead? && SameLabel(InstOf(m), InstOf(n))
      ensures m == n
    {
      OnlyHead(n);
      OnlyHead(m);
    }
  }

  lemma OnlyHead(n: Node)
    requires InstOf(n) == D.LoopHead("l") || InstOf(n) == D.BeginBlock("l")
    ensures n == At(0, Part.Inst)
  {
  }

  // ----- what comes before what -----

  // The ways in.
  lemma WaysIn(g: Edge)
    requires g in GRAPH
    ensures g.dst == At(0, Part.Inst) ==> g.src == Instructions
    ensures g.dst == At(1, Part.Inst) ==> g.src == At(0, Part.Inst)
    ensures g.dst == At(0, LoopEnd) ==> g.src == At(1, Part.Inst)
    ensures g.dst == At(2, Part.Inst) ==> g.src == At(0, LoopEnd)
    ensures g.dst != Instructions
  {
  }

  // One edge leads to `n`, and it comes from `m`.
  lemma OneWay(m: Node, n: Node)
    requires Edge(m, Next, n) in GRAPH && n in {At(0, Part.Inst), At(1, Part.Inst), At(0, LoopEnd), At(2, Part.Inst)}
    ensures var e := SeenEdge(CODE, Edge(m, Next, n)); e in SeenGraph(CODE, BODY).InEdges(Seen(CODE, n))
    ensures forall e :: e in SeenGraph(CODE, BODY).InEdges(Seen(CODE, n)) ==> e.src == Seen(CODE, m)
  {
    TheGraph();
    hide GRAPH, Seen, BODY;
    var graph := SeenGraph(CODE, BODY);
    assert SeenEdge(CODE, Edge(m, Next, n)) in graph.cfg;
    forall e | e in graph.InEdges(Seen(CODE, n))
      ensures e.src == Seen(CODE, m)
    {
      var g :| g in GRAPH && SeenEdge(CODE, g) == e;
      SameNode(CODE, g.dst, n);
      WaysIn(g);
      WaysIn(Edge(m, Next, n));
    }
  }

  lemma ServedNext(m: Node, n: Node)
    requires Edge(m, Next, n) in GRAPH && n in {At(0, Part.Inst), At(1, Part.Inst), At(0, LoopEnd), At(2, Part.Inst)}
    requires SeenGraph(CODE, BODY).Served(Seen(CODE, m))
    ensures SeenGraph(CODE, BODY).Served(Seen(CODE, n))
  {
    hide Flowgraph.Flowgraph.Served, Flowgraph.Flowgraph.Live, GRAPH, BODY;
    var graph := SeenGraph(CODE, BODY);
    OneWay(m, n);
    graph.ServedIsLive(Seen(CODE, m));
    NotTheEnd(m, n);
    graph.FlowKeepsLive(SeenEdge(CODE, Edge(m, Next, n)));
    graph.ServedAfter(Seen(CODE, n));
  }

  lemma NotTheEnd(m: Node, n: Node)
    ensures !Seen(CODE, m).inst.Unreachable?
  {
  }

  lemma AllServed()
    ensures SeenGraph(CODE, BODY).Served(Seen(CODE, At(0, Part.Inst))) && SeenGraph(CODE, BODY).Served(Seen(CODE, At(2, Part.Inst)))
  {
    hide Flowgraph.Flowgraph.Served, Flowgraph.Flowgraph.Live, BODY;
    var graph := SeenGraph(CODE, BODY);
    graph.EntryIsLive();
    NothingBefore();
    graph.ServedAfter(graph.entry);
    ServedNext(Instructions, At(0, Part.Inst));
    ServedNext(At(0, Part.Inst), At(1, Part.Inst));
    ServedNext(At(1, Part.Inst), At(0, LoopEnd));
    ServedNext(At(0, LoopEnd), At(2, Part.Inst));
  }

  lemma NothingBefore()
    ensures SeenGraph(CODE, BODY).InEdges(Seen(CODE, Instructions)) == {}
  {
    TheGraph();
    hide GRAPH, Seen, BODY;
    forall e | e in SeenGraph(CODE, BODY).InEdges(Seen(CODE, Instructions))
      ensures false
    {
      var g :| g in GRAPH && SeenEdge(CODE, g) == e;
      SameNode(CODE, g.dst, Instructions);
      WaysIn(g);
    }
  }

  // The call is behind the loop, and nothing leads back to the loop's head.
  lemma CallIsBehind()
    ensures LoopEntry.Beyond(SeenGraph(CODE, BODY), TheLoop(CODE, BODY, SITE), Seen(CODE, At(2, Part.Inst)))
    ensures !OneLoop.Closes(SeenGraph(CODE, BODY), TheLoop(CODE, BODY, SITE))
  {
    var graph, l := SeenGraph(CODE, BODY), TheLoop(CODE, BODY, SITE);
    BodyIsWf();
    hide Flowgraph.Flowgraph.Live, GRAPH, Wf, Place, Seen;
    Sites();
    OneWay(Instructions, At(0, Part.Inst));
    OneWay(At(1, Part.Inst), At(0, LoopEnd));
    OneWay(At(0, LoopEnd), At(2, Part.Inst));
    assert LoopEntry.Beyond(graph, l, Seen(CODE, At(0, LoopEnd)));
  }

  lemma Sites()
    ensures var l := TheLoop(CODE, BODY, SITE);
            && Seen(CODE, At(1, Part.Inst)) in l.body && Seen(CODE, At(0, LoopEnd)) !in l.body && Seen(CODE, At(2, Part.Inst)) !in l.body
            && Seen(CODE, Instructions) !in l.members && Seen(CODE, At(0, LoopEnd)) != Seen(CODE, Instructions)
            && Seen(CODE, At(2, Part.Inst)) != Seen(CODE, Instructions)
            && l.rank(Seen(CODE, At(0, LoopEnd))) < l.rank(Seen(CODE, At(2, Part.Inst))) && l.head == Seen(CODE, At(0, Part.Inst))
    ensures forall m, n :: m in {Instructions, At(0, Part.Inst)} && Edge(m, Next, n) in GRAPH ==> n != m
    ensures Edge(Instructions, Next, At(0, Part.Inst)) in GRAPH && Edge(At(1, Part.Inst), Next, At(0, LoopEnd)) in GRAPH
    ensures Edge(At(0, LoopEnd), Next, At(2, Part.Inst)) in GRAPH
  {
    assert Made(LIST) == {At(1, Part.Inst)} && SITE.All() == {At(0, Part.Inst), At(1, Part.Inst)} && TreeNodes(LIST) == {At(1, Part.Inst)};
    SeenIn(CODE, SITE.All(), At(1, Part.Inst));
    SeenIn(CODE, SITE.All(), At(0, LoopEnd));
    SeenIn(CODE, SITE.All(), At(2, Part.Inst));
    SeenIn(CODE, {SITE.Head()} + TreeNodes(LIST), Instructions);
    SeenNumber(CODE, BODY, At(0, LoopEnd));
    SeenNumber(CODE, BODY, At(2, Part.Inst));
    Places();
  }

  lemma Places()
    ensures Place(BODY, At(0, LoopEnd)) < Place(BODY, At(2, Part.Inst))
  {
    assert Ids(LIST) == {1} && IdsOf(Loop(0, "l", LIST)) == {0, 1} && Span(LIST) == 1 && Position(LAST, At(2, Part.Inst), 4) == 4;
  }

  // Valid code can have that: the call is served, all ways to it come through
  // the loop, and control does not come back there.
  lemma CallIsNotReached()
    ensures LoopsOnce(CODE, BODY, SITE) && LoopsNamed(CODE, BODY)
    ensures var graph, l, call := SeenGraph(CODE, BODY), TheLoop(CODE, BODY, SITE), Seen(CODE, At(2, Part.Inst));
            call.inst == D.Call("f", 0, 0) && graph.Served(call) && LoopEntry.Beyond(graph, l, call) && !OneLoop.Closes(graph, l)
  {
    hide Flowgraph.Flowgraph.Served, Flowgraph.Flowgraph.Live, LoopEntry.Beyond, OneLoop.Closes, Validated, NothingFails, LoopsNamed;
    BodyIsValid();
    NothingFailsHere();
    AllServed();
    CallIsBehind();
    SeenGraph(CODE, BODY).ServedIsLive(Seen(CODE, At(0, Part.Inst)));
    assert NoLoops(LIST) && NoOther(LAST, SITE) && NoOther(BODY, SITE) && 0 in Loops(BODY);
  }

  // The builder never lets that call through.
  method RunBuilder(p: CallFlow.Program, inside: D.Node -> set<D.Node>) returns (ok: bool, b: PdgBuilder.Builder)
    requires p == SeenProgram(CODE, BODY) && inside(Seen(CODE, SITE.Head())) == Members(CODE, SITE)
    ensures ok && b.dfsList == [] && Seen(CODE, At(2, Part.Inst)) !in b.passed
  {
    hide Flowgraph.Flowgraph.Served, LoopEntry.Beyond, OneLoop.Closes, LoopsOnce, LoopsNamed;
    CallIsNotReached();
    ghost var seen;
    ok, b, seen := OneLoopCode.GeneratePdg(p, inside, CODE, BODY, SITE);
  }
}
