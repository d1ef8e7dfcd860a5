// A valid function without loops in which two states share an operand below
// a branch, and its graph.
module SharedBody {
  import opened Wrappers
  import opened Lowering
  import opened StackSafety
  import opened StackRuns
  import opened LoopFree
  import opened ValidCode
  import opened DeadCode
  import D = DataFlow

  // block $b (result i32)
  //   call $h  call $f  local.get 0  br_if $b  i32.add  drop  call $k
  // end
  // local.set 1
  const FROM_K := Cons(Plain(7), Nil)
  const FROM_ADD := Cons(Plain(5), Cons(Plain(6), FROM_K))
  const FROM_BRANCH := Cons(BrIf(4, "b"), FROM_ADD)
  const LIST := Cons(Plain(1), Cons(Plain(2), Cons(Plain(3), FROM_BRANCH)))
  const BLOCK := Block(0, "b", LIST)
  const LAST := Cons(Plain(8), Nil)
  const BODY := Cons(BLOCK, LAST)

  function InstOf(n: Node): D.Inst {
    match n
    case Instructions => D.Start
    case At(0, Begin) => D.BeginBlock("b")
    case At(0, End) => D.BlockEnd("b", 1)
    case At(1, Inst) => D.Call("h", 0, 1)
    case At(2, Inst) => D.Call("f", 0, 1)
    case At(3, Inst) => D.LocalGet("0")
    case At(4, Inst) => D.BrIf
    case At(5, Inst) => D.Binary
    case At(6, Inst) => D.Drop
    case At(7, Inst) => D.Call("k", 0, 1)
    case At(8, Inst) => D.LocalSet("1")
    case _ => D.Return
  }

  const LOCALS: set<string> := {"0", "1"}

  function HeightAt(n: Node): nat {
    match n
    case At(0, End) => 1
    case At(2, Inst) => 1
    case At(3, Inst) => 2
    case At(4, Inst) => 3
    case At(5, Inst) => 2
    case At(6, Inst) => 1
    case At(8, Inst) => 1
    case _ => 0
  }

  function ShapeIn(n: Node): D.Shape {
    D.Shape({}, LOCALS, HeightAt(n), if n.At? && 1 <= n.id <= 7 then [D.Label("b", 0)] else [])
  }

  const CODE := Code(InstOf, ShapeIn, {}, LOCALS, 0)

  // ----- validation -----

  const FRAMES: seq<Frame> := [Frame("b", 0, At(0, End), 1, false)]
  const NAMES: seq<Binding> := [Binding("b", At(0, End))]

  lemma Framed()
    ensures Labels(FRAMES) == [D.Label("b", 0)] && Base(FRAMES) == 0 && Labels([]) == [] && Base([]) == 0
    ensures CanBranch(FRAMES, "b", 2) && Inner("b", 0, At(0, End), 1, false, []) == FRAMES
  {
    assert FRAMES[1..] == [] && FRAMES[0].name == "b";
  }

  lemma TailIsWf()
    ensures Ids(FROM_ADD) == {5, 6, 7} && Wf(FROM_ADD, {"b"})
  {
    assert Ids(FROM_K) == {7} && Wf(FROM_K, {"b"});
    assert Ids(Cons(Plain(6), FROM_K)) == {6, 7} && Wf(Cons(Plain(6), FROM_K), {"b"});
  }

  lemma ListIsWf()
    ensures Ids(LIST) == {1, 2, 3, 4, 5, 6, 7} && Wf(LIST, {"b"})
  {
    hide FROM_ADD;
    TailIsWf();
    assert Ids(FROM_BRANCH) == {4, 5, 6, 7} && Wf(FROM_BRANCH, {"b"});
    var two, three := Cons(Plain(2), Cons(Plain(3), FROM_BRANCH)), Cons(Plain(3), FROM_BRANCH);
    assert Ids(three) == {3, 4, 5, 6, 7} && Wf(three, {"b"});
    assert Ids(two) == {2, 3, 4, 5, 6, 7} && Wf(two, {"b"});
  }

  lemma BodyIsWf()
    ensures Wf(BODY, {}) && NoLoops(BODY)
  {
    ListIsWf();
    assert NoLoops(FROM_ADD) && NoLoops(FROM_BRANCH) && NoLoops(Cons(Plain(3), FROM_BRANCH)) && NoLoops(LIST);
    hide LIST;
    assert {} + {"b"} == {"b"} && WfExpr(BLOCK, {});
    assert Ids(LAST) == {8} && Wf(LAST, {});
  }

  lemma TailIsValid()
    ensures Valid(CODE, FROM_ADD, FRAMES, 2, 1)
  {
    Framed();
    assert ValidExpr(CODE, Plain(7), FRAMES, 0) && Valid(CODE, Nil, FRAMES, 1, 1) && Valid(CODE, FROM_K, FRAMES, 0, 1);
    hide FROM_K;
    assert ValidExpr(CODE, Plain(6), FRAMES, 1) && Valid(CODE, Cons(Plain(6), FROM_K), FRAMES, 1, 1);
    assert ValidExpr(CODE, Plain(5), FRAMES, 2);
  }

  lemma BranchIsValid()
    ensures Valid(CODE, FROM_BRANCH, FRAMES, 3, 1)
  {
    hide FROM_ADD;
    Framed();
    TailIsValid();
    assert ValidExpr(CODE, BrIf(4, "b"), FRAMES, 3);
  }

  lemma ListIsValid()
    ensures Valid(CODE, LIST, FRAMES, 0, 1)
  {
    hide FROM_BRANCH;
    Framed();
    BranchIsValid();
    assert ValidExpr(CODE, Plain(3), FRAMES, 2) && Valid(CODE, Cons(Plain(3), FROM_BRANCH), FRAMES, 2, 1);
    assert ValidExpr(CODE, Plain(2), FRAMES, 1) && Valid(CODE, Cons(Plain(2), Cons(Plain(3), FROM_BRANCH)), FRAMES, 1, 1);
    assert ValidExpr(CODE, Plain(1), FRAMES, 0);
  }

  lemma BodyIsValid()
    ensures Validated(CODE, BODY)
  {
    hide LIST;
    Framed();
    BodyIsWf();
    ListIsValid();
    assert Fresh([], "b") && Results(CODE, 0) == 1 && ValidExpr(CODE, BLOCK, [], 0);
    assert ValidExpr(CODE, Plain(8), [], 1) && Valid(CODE, Nil, [], 0, 0) && Valid(CODE, LAST, [], 1, 0);
  }

  // ----- the graph -----

  lemma ListEdges()
    ensures Edges(LIST, NAMES) == {
              Edge(At(1, Part.Inst), Next, At(2, Part.Inst)), Edge(At(2, Part.Inst), Next, At(3, Part.Inst)),
              Edge(At(3, Part.Inst), Next, At(4, Part.Inst)), Edge(At(4, Part.Inst), True, At(0, End)),
              Edge(At(4, Part.Inst), False, At(5, Part.Inst)), Edge(At(5, Part.Inst), Next, At(6, Part.Inst)),
              Edge(At(6, Part.Inst), Next, At(7, Part.Inst))}
    ensures !Cut(LIST, NAMES) && Exit(LIST, At(0, End)) == {Edge(At(7, Part.Inst), Next, At(0, End))}
  {
    var two, three, six := Cons(Plain(2), Cons(Plain(3), FROM_BRANCH)), Cons(Plain(3), FROM_BRANCH), Cons(Plain(6), FROM_K);
    assert Edges(FROM_K, NAMES) == {} && !Cut(FROM_K, NAMES) && Exit(FROM_K, At(0, End)) == {Edge(At(7, Part.Inst), Next, At(0, End))};
    assert Edges(six, NAMES) == {Edge(At(6, Part.Inst), Next, At(7, Part.Inst))} && !Cut(six, NAMES) && Exit(six, At(0, End)) == Exit(FROM_K, At(0, End));
    assert Edges(FROM_ADD, NAMES) == {Edge(At(5, Part.Inst), Next, At(6, Part.Inst))} + Edges(six, NAMES) && !Cut(FROM_ADD, NAMES);
    assert Exit(FROM_ADD, At(0, End)) == Exit(six, At(0, End));
    assert Lookup(NAMES, "b") == At(0, End);
    assert Edges(FROM_BRANCH, NAMES) == {Edge(At(4, Part.Inst), True, At(0, End)), Edge(At(4, Part.Inst), False, At(5, Part.Inst))} + Edges(FROM_ADD, NAMES);
    assert !Cut(FROM_BRANCH, NAMES) && Exit(FROM_BRANCH, At(0, End)) == Exit(FROM_ADD, At(0, End));
    assert Edges(three, NAMES) == {Edge(At(3, Part.Inst), Next, At(4, Part.Inst))} + Edges(FROM_BRANCH, NAMES) && !Cut(three, NAMES);
    assert Exit(three, At(0, End)) == Exit(FROM_BRANCH, At(0, End));
    assert Edges(two, NAMES) == {Edge(At(2, Part.Inst), Next, At(3, Part.Inst))} + Edges(three, NAMES) && !Cut(two, NAMES);
    assert Exit(two, At(0, End)) == Exit(three, At(0, End));
  }

  const GRAPH: set<Edge> := {
    Edge(Instructions, Next, At(0, Begin)), Edge(At(0, Begin), Next, At(1, Part.Inst)),
    Edge(At(1, Part.Inst), Next, At(2, Part.Inst)), Edge(At(2, Part.Inst), Next, At(3, Part.Inst)),
    Edge(At(3, Part.Inst), Next, At(4, Part.Inst)), Edge(At(4, Part.Inst), True, At(0, End)),
    Edge(At(4, Part.Inst), False, At(5, Part.Inst)), Edge(At(5, Part.Inst), Next, At(6, Part.Inst)),
    Edge(At(6, Part.Inst), Next, At(7, Part.Inst)), Edge(At(7, Part.Inst), Next, At(0, End)),
    Edge(At(0, End), Next, At(8, Part.Inst)), Edge(At(8, Part.Inst), Next, ReturnNode)}

  lemma BlockEdges()
    ensures Inside(BLOCK, []) == {Edge(At(0, Begin), Next, At(1, Part.Inst))} + Edges(LIST, NAMES) + {Edge(At(7, Part.Inst), Next, At(0, End))}
  {
    EntryOfList();
    ListEdges();
    hide LIST;
    assert NAMES == NAMES + [];
    assert Nested(LIST, NAMES, At(0, End)) == Edges(LIST, NAMES) + {Edge(At(7, Part.Inst), Next, At(0, End))};
  }

  lemma WholeBody()
    requires Edge(At(7, Part.Inst), Next, At(0, End)) in Inside(BLOCK, [])
    ensures Unrepaired(BODY) == {Edge(Instructions, Next, At(0, Begin))} + Inside(BLOCK, [])
                                + {Edge(At(0, End), Next, At(8, Part.Inst)), Edge(At(8, Part.Inst), Next, ReturnNode)}
  {
    hide BLOCK;
    GoesPast();
    assert Edges(LAST, []) == {} && Exit(LAST, ReturnNode) == {Edge(At(8, Part.Inst), Next, ReturnNode)} && !Cut(LAST, []);
    assert Edges(BODY, []) == Inside(BLOCK, []) + {Edge(At(0, End), Next, At(8, Part.Inst))};
    assert Exit(BODY, ReturnNode) == Exit(LAST, ReturnNode) && !Cut(BODY, []);
  }

  lemma BodyEdges()
    ensures Unrepaired(BODY) == GRAPH
  {
    hide BLOCK, LIST;
    BlockEdges();
    ListEdges();
    WholeBody();
  }

  lemma GoesPast()
    requires Edge(At(7, Part.Inst), Next, At(0, End)) in Inside(BLOCK, [])
    ensures Ends(BLOCK, []) == Go && NodeOf(BLOCK) == At(0, Begin) && Link(BLOCK, [], LAST) == {Edge(At(0, End), Next, At(8, Part.Inst))}
  {
    hide LIST;
  }

  lemma EntryOfList()
    ensures Entry(LIST, At(0, End)) == At(1, Part.Inst)
  {
  }

  lemma NothingToRepair()
    ensures Repairs(BODY) == {} && Graph(BODY) == GRAPH
  {
    hide LIST;
    BodyEdges();
    NodesOfList();
    assert TreeNodes(LAST) == {At(8, Part.Inst)};
    forall n | n in TreeNodes(BODY)
      ensures HasOut(GRAPH, n)
    {
      assert n == At(0, End) || n == At(8, Part.Inst) || n in TreeNodes(LIST);
      AllGoOn(n);
    }
  }

  lemma NodesOfList()
    ensures TreeNodes(LIST) == set i: nat | 1 <= i <= 7 :: At(i, Part.Inst)
  {
    assert TreeNodes(FROM_K) == {At(7, Part.Inst)};
    assert TreeNodes(FROM_ADD) == {At(5, Part.Inst), At(6, Part.Inst), At(7, Part.Inst)};
    assert TreeNodes(FROM_BRANCH) == {At(4, Part.Inst)} + TreeNodes(FROM_ADD);
    assert TreeNodes(LIST) == {At(1, Part.Inst), At(2, Part.Inst), At(3, Part.Inst)} + TreeNodes(FROM_BRANCH);
  }

  lemma AllGoOn(n: Node)
    requires n == At(0, End) || n == At(8, Part.Inst) || (n.At? && 1 <= n.id <= 7 && n.part == Part.Inst)
    ensures HasOut(GRAPH, n)
  {
    var g := if n == At(0, End) then Edge(n, Next, At(8, Part.Inst))
             else if n == At(8, Part.Inst) then Edge(n, Next, ReturnNode)
             else if n.id == 7 then Edge(n, Next, At(0, End))
             else if n.id == 4 then Edge(n, True, At(0, End))
             else Edge(n, Next, At(n.id + 1, Part.Inst));
    assert g in GRAPH;
  }

  lemma NothingFailsHere()
    ensures NothingFails(CODE, BODY)
  {
    BodyIsWf();
    NothingNeedy(CODE, BODY, []);
    NothingToRepair();
  }
}
