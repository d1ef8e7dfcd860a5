// A valid function in which a loop is entered while the end of the block
// around it has been left the same operand, and its graph.
module LoopBody {
  import opened Wrappers
  import opened Lowering
  import opened StackSafety
  import opened StackRuns
  import opened ValidCode
  import D = DataFlow

  // block $b (result i32)
  //   i32.const 7  memory.size  br_if $b  loop $l  unreachable  end
  // end
  // i32.eqz
  const LOOP := Loop(4, "l", Cons(Unreachable(5), Nil))
  const FROM_BRANCH := Cons(BrIf(3, "b"), Cons(LOOP, Nil))
  const LIST := Cons(Plain(1), Cons(Plain(2), FROM_BRANCH))
  const BLOCK := Block(0, "b", LIST)
  const LAST := Cons(Plain(6), Nil)
  const BODY := Cons(BLOCK, LAST)

  function InstOf(n: Node): D.Inst {
    match n
    case Instructions => D.Start
    case At(0, Begin) => D.BeginBlock("b")
    case At(0, End) => D.BlockEnd("b", 1)
    case At(1, Inst) => D.Const("7")
    case At(2, Inst) => D.MemorySize
    case At(3, Inst) => D.BrIf
    case At(4, Inst) => D.LoopHead("l")
    case At(4, LoopEnd) => D.LoopEnd("l", 0)
    case At(5, Inst) => D.Unreachable
    case At(6, Inst) => D.Unary
    case _ => D.Return
  }

  function ShapeIn(n: Node): D.Shape {
    var b, l := D.Label("b", 0), D.Label("l", 1);
    match n
    case At(0, End) => D.Shape({}, {}, 1, [])
    case At(1, Inst) => D.Shape({}, {}, 0, [b])
    case At(2, Inst) => D.Shape({}, {}, 1, [b])
    case At(3, Inst) => D.Shape({}, {}, 2, [b])
    case At(4, Inst) => D.Shape({}, {}, 1, [l, b])
    case At(4, LoopEnd) => D.Shape({}, {}, 1, [b])
    case At(5, Inst) => D.Shape({}, {}, 1, [l, b])
    case At(6, Inst) => D.Shape({}, {}, 1, [])
    case ReturnNode => D.Shape({}, {}, 1, [])
    case _ => D.Shape({}, {}, 0, [])
  }

  const CODE := Code(InstOf, ShapeIn, {}, {}, 1)

  // ----- validation -----

  const IN_BLOCK: seq<Frame> := [Frame("b", 0, At(0, End), 1, false)]
  const IN_LOOP: seq<Frame> := [Frame("l", 1, At(4, Part.Inst), 0, true)] + IN_BLOCK
  const NAMES: seq<Binding> := [Binding("b", At(0, End))]

  lemma Framed()
    ensures Labels(IN_BLOCK) == [D.Label("b", 0)] && Base(IN_BLOCK) == 0 && Labels([]) == [] && Base([]) == 0
    ensures Labels(IN_LOOP) == [D.Label("l", 1), D.Label("b", 0)] && Base(IN_LOOP) == 1
    ensures CanBranch(IN_BLOCK, "b", 1) && Inner("b", 0, At(0, End), 1, false, []) == IN_BLOCK && Fresh(IN_BLOCK, "l")
    ensures Inner("l", 1, At(4, Part.Inst), 0, true, IN_BLOCK) == IN_LOOP
  {
    assert IN_BLOCK[1..] == [] && IN_BLOCK[0].name == "b" && IN_LOOP[1..] == IN_BLOCK;
  }

  lemma LoopIsWf()
    ensures Ids(Cons(LOOP, Nil)) == {4, 5} && Wf(Cons(LOOP, Nil), {"b"})
  {
    var labels := {"b"} + {"l"};
    assert Ids(Nil) == {} && Wf(Nil, labels) && WfExpr(Unreachable(5), labels);
    assert Ids(Cons(Unreachable(5), Nil)) == {5} && Wf(Cons(Unreachable(5), Nil), labels);
    assert WfExpr(LOOP, {"b"});
  }

  lemma BodyIsWf()
    ensures Wf(BODY, {})
  {
    hide LOOP;
    LoopIsWf();
    assert Ids(FROM_BRANCH) == {3, 4, 5} && Wf(FROM_BRANCH, {"b"});
    assert Ids(Cons(Plain(2), FROM_BRANCH)) == {2, 3, 4, 5} && Wf(Cons(Plain(2), FROM_BRANCH), {"b"});
    assert Ids(LIST) == {1, 2, 3, 4, 5} && Wf(LIST, {"b"});
    hide LIST;
    assert {} + {"b"} == {"b"} && WfExpr(BLOCK, {}) && Ids(LAST) == {6} && Wf(LAST, {});
  }

  lemma LoopIsValid()
    ensures Valid(CODE, Cons(LOOP, Nil), IN_BLOCK, 1, 1)
  {
    Framed();
    assert ValidExpr(CODE, Unreachable(5), IN_LOOP, 1) && Valid(CODE, Cons(Unreachable(5), Nil), IN_LOOP, 1, 0);
    assert ValidExpr(CODE, LOOP, IN_BLOCK, 1) && Valid(CODE, Nil, IN_BLOCK, 1, 1);
  }

  lemma BranchIsValid()
    ensures Valid(CODE, FROM_BRANCH, IN_BLOCK, 2, 1)
  {
    hide LOOP;
    Framed();
    LoopIsValid();
    assert ValidExpr(CODE, BrIf(3, "b"), IN_BLOCK, 2);
  }

  lemma ListIsValid()
    ensures Valid(CODE, LIST, IN_BLOCK, 0, 1)
  {
    hide FROM_BRANCH;
    Framed();
    BranchIsValid();
    assert ValidExpr(CODE, Plain(2), IN_BLOCK, 1) && Valid(CODE, Cons(Plain(2), FROM_BRANCH), IN_BLOCK, 1, 1);
    assert ValidExpr(CODE, Plain(1), IN_BLOCK, 0);
  }

  lemma BodyIsValid()
    ensures Validated(CODE, BODY)
  {
    hide LIST;
    Framed();
    BodyIsWf();
    ListIsValid();
    assert Fresh([], "b") && Results(CODE, 0) == 1 && ValidExpr(CODE, BLOCK, [], 0);
    assert ValidExpr(CODE, Plain(6), [], 1) && Valid(CODE, Nil, [], 1, 1) && Valid(CODE, LAST, [], 1, 1);
  }

  // ----- the graph -----

  lemma ListEdges()
    ensures Edges(LIST, NAMES) == {
              Edge(At(1, Part.Inst), Next, At(2, Part.Inst)), Edge(At(2, Part.Inst), Next, At(3, Part.Inst)),
              Edge(At(3, Part.Inst), True, At(0, End)), Edge(At(3, Part.Inst), False, At(4, Part.Inst)),
              Edge(At(4, Part.Inst), Next, At(5, Part.Inst)), Edge(At(5, Part.Inst), Next, Trap)}
    ensures !Cut(LIST, NAMES) && Exit(LIST, At(0, End)) == {}
  {
    var two, stop := Cons(Plain(2), FROM_BRANCH), Cons(Unreachable(5), Nil);
    var inner := [Binding("l", At(4, Part.Inst))] + NAMES;
    assert Edges(stop, inner) == {Edge(At(5, Part.Inst), Next, Trap)} && Exit(stop, At(0, End)) == {};
    assert Edges(Cons(LOOP, Nil), NAMES) == {Edge(At(4, Part.Inst), Next, At(5, Part.Inst))} + Edges(stop, inner);
    assert !Cut(Cons(LOOP, Nil), NAMES) && Exit(Cons(LOOP, Nil), At(0, End)) == {};
    assert Lookup(NAMES, "b") == At(0, End);
    assert Edges(FROM_BRANCH, NAMES) == {Edge(At(3, Part.Inst), True, At(0, End)), Edge(At(3, Part.Inst), False, At(4, Part.Inst))} + Edges(Cons(LOOP, Nil), NAMES);
    assert !Cut(FROM_BRANCH, NAMES) && Exit(FROM_BRANCH, At(0, End)) == {};
    assert Edges(two, NAMES) == {Edge(At(2, Part.Inst), Next, At(3, Part.Inst))} + Edges(FROM_BRANCH, NAMES) && !Cut(two, NAMES);
    assert Exit(two, At(0, End)) == {};
  }

  const GRAPH: set<Edge> := {
    Edge(Instructions, Next, At(0, Begin)), Edge(At(0, Begin), Next, At(1, Part.Inst)),
    Edge(At(1, Part.Inst), Next, At(2, Part.Inst)), Edge(At(2, Part.Inst), Next, At(3, Part.Inst)),
    Edge(At(3, Part.Inst), True, At(0, End)), Edge(At(3, Part.Inst), False, At(4, Part.Inst)),
    Edge(At(4, Part.Inst), Next, At(5, Part.Inst)), Edge(At(5, Part.Inst), Next, Trap),
    Edge(At(0, End), Next, At(6, Part.Inst)), Edge(At(6, Part.Inst), Next, ReturnNode)}

  lemma BlockEdges()
    ensures Inside(BLOCK, []) == {Edge(At(0, Begin), Next, At(1, Part.Inst))} + Edges(LIST, NAMES)
  {
    EntryOfList();
    ListEdges();
    hide LIST;
    assert NAMES == NAMES + [];
  }

  lemma EntryOfList()
    ensures Entry(LIST, At(0, End)) == At(1, Part.Inst)
  {
  }

  lemma WholeBody()
    requires Edge(At(3, Part.Inst), True, At(0, End)) in Inside(BLOCK, [])
    ensures Unrepaired(BODY) == {Edge(Instructions, Next, At(0, Begin))} + Inside(BLOCK, [])
                                + {Edge(At(0, End), Next, At(6, Part.Inst)), Edge(At(6, Part.Inst), Next, ReturnNode)}
  {
    hide BLOCK;
    GoesPast();
    assert Edges(LAST, []) == {} && Exit(LAST, ReturnNode) == {Edge(At(6, Part.Inst), Next, ReturnNode)} && !Cut(LAST, []);
    assert Edges(BODY, []) == Inside(BLOCK, []) + {Edge(At(0, End), Next, At(6, Part.Inst))};
    assert Exit(BODY, ReturnNode) == Exit(LAST, ReturnNode) && !Cut(BODY, []);
  }

  lemma GoesPast()
    requires Edge(At(3, Part.Inst), True, At(0, End)) in Inside(BLOCK, [])
    ensures Ends(BLOCK, []) == Go && NodeOf(BLOCK) == At(0, Begin) && Link(BLOCK, [], LAST) == {Edge(At(0, End), Next, At(6, Part.Inst))}
  {
    hide LIST;
  }

  lemma BodyEdges()
    ensures Unrepaired(BODY) == GRAPH
  {
    hide BLOCK, LIST;
    BlockEdges();
    ListEdges();
    WholeBody();
  }

  lemma NothingToRepair()
    ensures Repairs(BODY) == {} && Graph(BODY) == GRAPH
  {
    hide LIST;
    BodyEdges();
    NodesOfList();
    assert TreeNodes(LAST) == {At(6, Part.Inst)} && TreeNodesOf(BLOCK) == {At(0, End)} + TreeNodes(LIST);
    assert TreeNodes(BODY) == TreeNodesOf(BLOCK) + TreeNodes(LAST);
    forall n | n in TreeNodes(BODY)
      ensures HasOut(GRAPH, n)
    {
      assert n == At(0, End) || n == At(6, Part.Inst) || n in TreeNodes(LIST);
      AllGoOn(n);
    }
  }

  lemma NodesOfList()
    ensures TreeNodes(LIST) == {At(1, Part.Inst), At(2, Part.Inst), At(3, Part.Inst), At(4, Part.Inst), At(5, Part.Inst)}
  {
    assert TreeNodesOf(LOOP) == {At(4, Part.Inst)} + TreeNodes(Cons(Unreachable(5), Nil));
    assert TreeNodes(Cons(Unreachable(5), Nil)) == {At(5, Part.Inst)};
    assert TreeNodes(FROM_BRANCH) == {At(3, Part.Inst), At(4, Part.Inst), At(5, Part.Inst)};
  }

  lemma AllGoOn(n: Node)
    requires n == At(0, End) || (n.At? && 1 <= n.id <= 6 && n.part == Part.Inst)
    ensures HasOut(GRAPH, n)
  {
    var g := if n == At(0, End) then Edge(n, Next, At(6, Part.Inst))
             else if n.id == 6 then Edge(n, Next, ReturnNode)
             else if n.id == 3 then Edge(n, True, At(0, End))
             else if n.id == 5 then Edge(n, Next, Trap)
             else Edge(n, Next, At(n.id + 1, Part.Inst));
    assert g in GRAPH;
  }

  lemma NothingFailsHere()
    ensures NothingFails(CODE, BODY) && LoopsNamed(CODE, BODY)
  {
    NothingToRepair();
    NothingNeedyHere();
    hide LIST, BODY;
    forall m, n | HasIn(GRAPH, m) && HasIn(GRAPH, n) && InstOf(m).LoopHead? && SameLabel(InstOf(m), InstOf(n))
      ensures m == n
    {
      OnlyLoop(n);
      OnlyLoop(m);
    }
  }

  lemma OnlyLoop(n: Node)
    requires InstOf(n) == D.LoopHead("l") || InstOf(n) == D.BeginBlock("l")
    ensures n == At(4, Part.Inst)
  {
  }

  // The list ends in a loop, but control does not leave that.
  lemma NothingNeedyHere()
    ensures NeedyList(CODE, BODY, [], ReturnNode, 1) == {}
  {
    ListEdges();
    assert NAMES == NAMES + [];
    assert Needy(CODE, Cons(Unreachable(5), Nil), [Binding("l", At(4, Part.Inst))] + NAMES) == {};
    assert Needy(CODE, Cons(LOOP, Nil), NAMES) == {} && Needy(CODE, FROM_BRANCH, NAMES) == {};
    assert Needy(CODE, Cons(Plain(2), FROM_BRANCH), NAMES) == {} && Needy(CODE, LIST, NAMES) == {};
    hide LIST;
    assert NeedyList(CODE, LIST, NAMES, At(0, End), 1) == {};
    assert Needy(CODE, LAST, []) == {} && !EndsInLoop(BODY);
  }
}
