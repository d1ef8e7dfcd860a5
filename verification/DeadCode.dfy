// What goes wrong where dead code leads into live code: the wait check counts
// the edges from it, too.
module DeadCode {
  import opened Wrappers
  import opened Lowering
  import opened StackSafety
  import opened StackRuns
  import opened LoopFree
  import opened ValidCode
  import D = DataFlow

  // ----- code without loops -----

  lemma {:induction false} NothingNeedy(code: Code, es: ExprList, blocks: seq<Binding>)
    requires NoLoops(es)
    ensures Needy(code, es, blocks) == {} && !EndsInLoop(es)
    decreases es, 1
  {
    if es.Cons? {
      NothingNeedyIn(code, es.head, blocks);
      NothingNeedy(code, es.tail, blocks);
    }
  }

  lemma {:induction false} NothingNeedyIn(code: Code, e: Expr, blocks: seq<Binding>)
    requires NoLoopsIn(e)
    ensures NeedyIn(code, e, blocks) == {}
    decreases e, 0
  {
    match e
    case Block(id, name, body) => NothingNeedy(code, body, [Binding(name, At(id, End))] + blocks);
    case If(id, name, thn, els) =>
      NothingNeedy(code, thn, [Binding(name, At(id, End))] + blocks);
      NothingNeedy(code, els, [Binding(name, At(id, End))] + blocks);
    case _ =>
  }

  // ----- a block that is left by a br_table -----

  // block $b  i32.const 0  br_table $b  nop  end
  const HELD_TABLE := BrTable(2, [], "b")
  const HELD_TAIL := Cons(HELD_TABLE, Cons(Plain(3), Nil))
  const HELD_LIST := Cons(Plain(1), HELD_TAIL)
  const HELD_BLOCK := Block(0, "b", HELD_LIST)
  const HELD_BODY := Cons(HELD_BLOCK, Nil)

  function HeldInst(n: Node): D.Inst {
    match n
    case Instructions => D.Start
    case At(0, Begin) => D.BeginBlock("b")
    case At(0, End) => D.BlockEnd("b", 0)
    case At(1, Inst) => D.Const("0")
    case At(2, Inst) => D.BrTable
    case At(3, Inst) => D.Nop
    case _ => D.Return
  }

  function HeldShape(n: Node): D.Shape {
    match n
    case At(1, Inst) => D.Shape({}, {}, 0, [D.Label("b", 0)])
    case At(2, Inst) => D.Shape({}, {}, 1, [D.Label("b", 0)])
    case At(3, Inst) => D.Shape({}, {}, 0, [D.Label("b", 0)])
    case _ => D.Shape({}, {}, 0, [])
  }

  const HELD_CODE := Code(HeldInst, HeldShape, {}, {}, 0)

  lemma HeldIsWf()
    ensures Wf(HELD_BODY, {}) && NoLoops(HELD_BODY)
  {
    assert Ids(Cons(Plain(3), Nil)) == {3} && Ids(HELD_TAIL) == {2, 3} && Ids(HELD_LIST) == {1, 2, 3};
    assert {} + {"b"} == {"b"};
    assert Wf(Cons(Plain(3), Nil), {"b"}) && WfExpr(HELD_TABLE, {"b"}) && Wf(HELD_TAIL, {"b"}) && Wf(HELD_LIST, {"b"});
    assert WfExpr(HELD_BLOCK, {});
    assert NoLoops(HELD_TAIL) && NoLoops(HELD_LIST);
  }

  const HELD_FRAMES: seq<Frame> := [Frame("b", 0, At(0, End), 0, false)]
  const HELD_NAMES: seq<Binding> := [Binding("b", At(0, End))]

  lemma HeldTailIsValid()
    ensures Valid(HELD_CODE, HELD_TAIL, HELD_FRAMES, 1, 0) && Labels(HELD_FRAMES) == [D.Label("b", 0)] && Base(HELD_FRAMES) == 0
  {
    assert HELD_FRAMES[1..] == [];
    assert CanBranch(HELD_FRAMES, "b", 0) by { assert HELD_FRAMES[0].name == "b"; }
    assert ValidExpr(HELD_CODE, HELD_TABLE, HELD_FRAMES, 1) && Stops(HELD_TABLE);
  }

  lemma HeldListIsValid()
    ensures Valid(HELD_CODE, HELD_LIST, HELD_FRAMES, 0, 0)
  {
    hide HELD_TAIL;
    HeldTailIsValid();
    assert ValidExpr(HELD_CODE, Plain(1), HELD_FRAMES, 0) && Then(HELD_CODE, Plain(1), 0) == 1;
  }

  lemma HeldIsValid()
    ensures Validated(HELD_CODE, HELD_BODY)
  {
    hide HELD_LIST;
    HeldIsWf();
    HeldListIsValid();
    assert Inner("b", 0, At(0, End), 0, false, []) == HELD_FRAMES && Labels([]) == [];
    assert ValidExpr(HELD_CODE, HELD_BLOCK, [], 0) && Valid(HELD_CODE, Nil, [], 0, 0);
  }

  lemma HeldIsSafe()
    ensures NothingFails(HELD_CODE, HELD_BODY)
  {
    HeldIsWf();
    NothingNeedy(HELD_CODE, HELD_BODY, []);
    forall n
      ensures !TooFew(HELD_CODE, n)
    {
    }
  }

  lemma HeldList()
    ensures Edges(HELD_LIST, HELD_NAMES) == {Edge(At(1, Part.Inst), Next, At(2, Part.Inst)), Edge(At(2, Part.Inst), Default, At(0, End))}
    ensures Nested(HELD_LIST, HELD_NAMES, At(0, End)) == Edges(HELD_LIST, HELD_NAMES) + {Edge(At(3, Part.Inst), Next, At(0, End))}
  {
    var last := Cons(Plain(3), Nil);
    assert Lookup(HELD_NAMES, "b") == At(0, End);
    assert Inside(HELD_TABLE, HELD_NAMES) == {Edge(At(2, Part.Inst), Default, At(0, End))};
    assert Edges(last, HELD_NAMES) == {} && Link(HELD_TABLE, HELD_NAMES, last) == {};
    assert Edges(HELD_TAIL, HELD_NAMES) == Inside(HELD_TABLE, HELD_NAMES);
    assert Link(Plain(1), HELD_NAMES, HELD_TAIL) == {Edge(At(1, Part.Inst), Next, At(2, Part.Inst))};
    assert !Cut(last, HELD_NAMES) && !Cut(HELD_TAIL, HELD_NAMES) && !Cut(HELD_LIST, HELD_NAMES);
    assert Exit(HELD_LIST, At(0, End)) == Exit(HELD_TAIL, At(0, End)) == Exit(last, At(0, End)) == ExitOf(Plain(3), At(0, End));
  }

  lemma HeldInside()
    ensures Inside(HELD_BLOCK, []) == {Edge(At(0, Begin), Next, At(1, Part.Inst)), Edge(At(1, Part.Inst), Next, At(2, Part.Inst)),
                                       Edge(At(2, Part.Inst), Default, At(0, End)), Edge(At(3, Part.Inst), Next, At(0, End))}
  {
    HeldList();
    assert HELD_NAMES == HELD_NAMES + [];
  }

  lemma HeldGraph()
    ensures Inside(HELD_BLOCK, []) <= Graph(HELD_BODY) && Edge(Instructions, Next, At(0, Begin)) in Graph(HELD_BODY)
    ensures forall g :: g in Graph(HELD_BODY) ==> g.dst != At(3, Part.Inst)
  {
    hide HELD_LIST;
    HeldInside();
    var es := Inside(HELD_BLOCK, []);
    assert Edges(HELD_BODY, []) == es;
    assert Exit(HELD_BODY, ReturnNode) == ExitOf(HELD_BLOCK, ReturnNode);
  }

  // The block's end is live, yet it never passes the wait check, because one
  // of the edges into it comes from code that is not.
  lemma DeadCodeHoldsBack()
    ensures Validated(HELD_CODE, HELD_BODY) && NothingFails(HELD_CODE, HELD_BODY) && NoLoops(HELD_BODY)
    ensures var g, n := SeenGraph(HELD_CODE, HELD_BODY), Seen(HELD_CODE, At(0, End)); g.Live(n) && !g.Served(n)
  {
    HeldIsWf();
    HeldIsValid();
    HeldIsSafe();
    HeldGraph();
    HeldInside();
    HeldIsLive();
    HeldIsNotServed();
  }

  lemma HeldIsLive()
    requires Inside(HELD_BLOCK, []) <= Graph(HELD_BODY) && Edge(Instructions, Next, At(0, Begin)) in Graph(HELD_BODY)
    ensures SeenGraph(HELD_CODE, HELD_BODY).Live(Seen(HELD_CODE, At(0, End)))
  {
    hide HELD_BODY, HELD_BLOCK;
    HeldInside();
    var code, g := HELD_CODE, SeenGraph(HELD_CODE, HELD_BODY);
    var q := [Seen(code, Instructions), Seen(code, At(0, Begin)), Seen(code, At(1, Part.Inst)), Seen(code, At(2, Part.Inst)), Seen(code, At(0, End))];
    assert g.Flow(q[0], q[0 + 1]) by { assert SeenEdge(code, Edge(Instructions, Next, At(0, Begin))) in g.cfg; }
    assert g.Flow(q[1], q[1 + 1]) by { assert SeenEdge(code, Edge(At(0, Begin), Next, At(1, Part.Inst))) in g.cfg; }
    assert g.Flow(q[2], q[2 + 1]) by { assert SeenEdge(code, Edge(At(1, Part.Inst), Next, At(2, Part.Inst))) in g.cfg; }
    assert g.Flow(q[3], q[3 + 1]) by { assert SeenEdge(code, Edge(At(2, Part.Inst), Default, At(0, End))) in g.cfg; }
    assert g.IsPath(q);
  }

  lemma HeldIsNotServed()
    requires Inside(HELD_BLOCK, []) <= Graph(HELD_BODY) && forall g :: g in Graph(HELD_BODY) ==> g.dst != At(3, Part.Inst)
    ensures !SeenGraph(HELD_CODE, HELD_BODY).Served(Seen(HELD_CODE, At(0, End)))
  {
    hide HELD_BODY, HELD_BLOCK;
    HeldInside();
    var code, g, n := HELD_CODE, SeenGraph(HELD_CODE, HELD_BODY), Seen(HELD_CODE, At(0, End));
    var e := SeenEdge(code, Edge(At(3, Part.Inst), Next, At(0, End)));
    assert e in g.InEdges(n);
    if g.Served(n) {
      g.ServedBefore(n, e);
      g.LiveHasFlow(e.src);
      var f :| f in g.InEdges(e.src) && g.Live(f.src);
      var k :| k in Graph(HELD_BODY) && SeenEdge(code, k) == f;
      SameNode(code, k.dst, At(3, Part.Inst));
    }
  }
}
