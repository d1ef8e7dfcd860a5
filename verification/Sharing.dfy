// What goes wrong where operands are shared: the copy that goes along another
// edge has the same definitions on its stack, and a visit changes them. The
// worklist is run on the function of SharedBody.dfy.
module Sharing {
  import opened Wrappers
  import opened DataFlow
  import opened Flowgraph
  import opened FlowLaws
  import opened Provenance
  import opened ReachDefinitions
  import opened VisitLaws
  import opened PdgBuilder
  import opened CallFlow
  import opened HeapFlow
  import L = Lowering
  import LoopFree
  import ValidCode
  import SharedBody

  // ----- the program as the builder sees it -----

  ghost const PROGRAM: Program := ValidCode.SeenProgram(SharedBody.CODE, SharedBody.BODY)

  const SHAPE: Node -> Shape := ValidCode.ShapeAt(SharedBody.CODE)

  const START := Node(0, Start)
  const RETURN := Node(1, Return)
  const BEGIN := Node(4, BeginBlock("b"))
  const END := Node(5, BlockEnd("b", 1))
  const CALL_H := Node(9, Call("h", 0, 1))
  const CALL_F := Node(15, Call("f", 0, 1))
  const GET := Node(21, LocalGet("0"))
  const BRANCH := Node(27, BrIf)
  const ADD := Node(33, Binary)
  const DROP := Node(39, Drop)
  const CALL_K := Node(45, Call("k", 0, 1))
  const SET := Node(51, LocalSet("1"))

  const TAKEN := CfgEdge(BRANCH, "true", END)
  const NOT_TAKEN := CfgEdge(BRANCH, "false", ADD)

  const EDGES: set<CfgEdge> := {
    CfgEdge(START, "", BEGIN), CfgEdge(BEGIN, "", CALL_H), CfgEdge(CALL_H, "", CALL_F), CfgEdge(CALL_F, "", GET), CfgEdge(GET, "", BRANCH),
    TAKEN, NOT_TAKEN, CfgEdge(ADD, "", DROP), CfgEdge(DROP, "", CALL_K), CfgEdge(CALL_K, "", END),
    CfgEdge(END, "", SET), CfgEdge(SET, "", RETURN)}

  lemma SeenNodes()
    ensures ValidCode.Seen(SharedBody.CODE, L.Instructions) == START && ValidCode.Seen(SharedBody.CODE, L.ReturnNode) == RETURN
    ensures ValidCode.Seen(SharedBody.CODE, L.At(0, L.Begin)) == BEGIN && ValidCode.Seen(SharedBody.CODE, L.At(0, L.End)) == END
    ensures forall i: nat :: 1 <= i <= 8 ==> ValidCode.Seen(SharedBody.CODE, L.At(i, L.Inst)) == Plainly(i)
  {
  }

  function Plainly(i: nat): Node {
    match i
    case 1 => CALL_H
    case 2 => CALL_F
    case 3 => GET
    case 4 => BRANCH
    case 5 => ADD
    case 6 => DROP
    case 7 => CALL_K
    case _ => SET
  }

  lemma TheGraph()
    ensures PROGRAM.graph == Flowgraph(EDGES, START) && PROGRAM.results == 0 && PROGRAM.locals == {"0", "1"}
  {
    SharedBody.NothingToRepair();
    SeenNodes();
    forall e
      ensures e in PROGRAM.graph.cfg <==> e in EDGES
    {
      if e in PROGRAM.graph.cfg {
        var g :| g in SharedBody.GRAPH && ValidCode.SeenEdge(SharedBody.CODE, g) == e;
        SeenInside(g);
      }
      if e in EDGES {
        var g := Unseen(e);
        SeenBack(e);
        assert g in SharedBody.GRAPH && ValidCode.SeenEdge(SharedBody.CODE, g) == e;
      }
    }
  }

  lemma SeenInside(g: L.Edge)
    requires g in SharedBody.GRAPH
    ensures ValidCode.SeenEdge(SharedBody.CODE, g) in EDGES
  {
    hide ValidCode.Seen;
    SeenNodes();
  }

  function Unseen(e: CfgEdge): L.Edge {
    L.Edge(Back(e.src), if e == TAKEN then L.True else if e == NOT_TAKEN then L.False else L.Next, Back(e.dst))
  }

  function Back(n: Node): L.Node {
    match n.id
    case 0 => L.Instructions
    case 1 => L.ReturnNode
    case 4 => L.At(0, L.Begin)
    case 5 => L.At(0, L.End)
    case 9 => L.At(1, L.Inst)
    case 15 => L.At(2, L.Inst)
    case 21 => L.At(3, L.Inst)
    case 27 => L.At(4, L.Inst)
    case 33 => L.At(5, L.Inst)
    case 39 => L.At(6, L.Inst)
    case 45 => L.At(7, L.Inst)
    case _ => L.At(8, L.Inst)
  }

  lemma SeenBack(e: CfgEdge)
    requires e in EDGES
    ensures Unseen(e) in SharedBody.GRAPH && ValidCode.SeenEdge(SharedBody.CODE, Unseen(e)) == e
  {
    hide ValidCode.Seen;
    SeenNodes();
  }

  function Height(id: nat): nat {
    match id
    case 15 => 1
    case 21 => 2
    case 27 => 3
    case 33 => 2
    case 39 => 1
    case 5 => 1
    case 51 => 1
    case _ => 0
  }

  function ShapeOfPlace(n: Node): Shape {
    Shape({}, {"0", "1"}, Height(n.id), if 9 <= n.id <= 45 then [Label("b", 0)] else [])
  }

  lemma PlaceShape(n: Node)
    requires exists e :: e in EDGES && (e.src == n || e.dst == n)
    ensures SHAPE(n) == ShapeOfPlace(n)
  {
    SeenNodes();
    ValidCode.NumberedBack(Back(n));
    NodeBack(n);
  }

  lemma NodeBack(n: Node)
    requires exists e :: e in EDGES && (e.src == n || e.dst == n)
    ensures ValidCode.Number(Back(n)) == n.id && SharedBody.ShapeIn(Back(n)) == ShapeOfPlace(n)
  {
  }

  // ----- along single paths -----

  lemma ProgramIsShaped()
    ensures ValidCode.Validated(SharedBody.CODE, SharedBody.BODY) && ValidCode.NothingFails(SharedBody.CODE, SharedBody.BODY)
    ensures LoopFree.NoLoops(SharedBody.BODY) && PROGRAM.Shaped(SHAPE) && PROGRAM.graph.Orderly(ValidCode.Ranks(SharedBody.BODY))
  {
    hide SharedBody.BODY, SharedBody.CODE;
    SharedBody.BodyIsValid();
    SharedBody.BodyIsWf();
    SharedBody.NothingFailsHere();
    ValidCode.ValidatedIsShaped(SharedBody.CODE, SharedBody.BODY);
    ValidCode.NoLoopsIsOrderly(SharedBody.CODE, SharedBody.BODY);
  }

  // Along a path, the result of $h is at the bottom of the stack, and gone
  // from there after the sum has been dropped or the block has been left.
  lemma {:induction false} WhereHIs(p: seq<Node>, slot: Slot, o: Node)
    requires PROGRAM.Shaped(SHAPE) && PROGRAM.graph == Flowgraph(EDGES, START) && PROGRAM.results == 0
    requires PROGRAM.graph.IsPath(p) && PROGRAM.Along(p).Some? && Has(PROGRAM.Along(p).value, slot, o)
    requires Introduces(o, "h", Function)
    ensures 15 <= p[|p| - 1].id <= 39 && slot == StackSlot(0)
    decreases |p|
  {
    hide PROGRAM, SHAPE, EDGES, Moves, Makes, Passes;
    if |p| > 1 {
      var e := PROGRAM.graph.LastStep(p);
      var q := p[..|p| - 1];
      PROGRAM.AlongShaped(q, SHAPE);
      PROGRAM.graph.FlowKeepsLive(e);
      PassesHere(e);
      CrossMoves(e.src, e.dst, PROGRAM.Along(q).value, 0, slot, o);
      if !(o == e.src && Makes(e.src, e.dst, SHAPE(e.src), 0, slot)) {
        var from :| Moves(e.src, e.dst, SHAPE(e.src), 0, from, slot) && Has(PROGRAM.Along(q).value, from, o);
        WhereHIs(q, from, o);
        FromBottom(e, slot);
      } else {
        MadeAtBottom(e, slot);
      }
    }
  }

  lemma PassesHere(e: CfgEdge)
    requires PROGRAM.Shaped(SHAPE) && PROGRAM.graph == Flowgraph(EDGES, START) && PROGRAM.results == 0
    requires e in EDGES && PROGRAM.graph.Live(e.src) && !e.src.inst.Unreachable?
    ensures Passes(e.src, e.dst, SHAPE(e.src), 0)
  {
    hide EDGES, SHAPE, PROGRAM, Accepts, ShapeAfter, ShapeOnArrival;
  }

  lemma FromBottom(e: CfgEdge, slot: Slot)
    requires e in EDGES && 15 <= e.src.id <= 39 && Passes(e.src, e.dst, SHAPE(e.src), 0)
    requires Moves(e.src, e.dst, SHAPE(e.src), 0, StackSlot(0), slot)
    ensures 15 <= e.dst.id <= 39 && slot == StackSlot(0)
  {
    hide SHAPE;
    PlaceShape(e.src);
  }

  lemma MadeAtBottom(e: CfgEdge, slot: Slot)
    requires e in EDGES && Introduces(e.src, "h", Function) && Passes(e.src, e.dst, SHAPE(e.src), 0)
    requires Makes(e.src, e.dst, SHAPE(e.src), 0, slot)
    ensures 15 <= e.dst.id <= 39 && slot == StackSlot(0)
  {
    hide SHAPE;
    PlaceShape(e.src);
    CalledH(e);
    hide EDGES;
  }

  lemma CalledH(e: CfgEdge)
    requires e in EDGES && Introduces(e.src, "h", Function)
    ensures e == CfgEdge(CALL_H, "", CALL_F)
  {
  }

  // No path brings the result of $h to local.set, in a valid body without
  // loops in which no assertion can fail.
  lemma NoPathFeedsH()
    ensures ValidCode.Validated(SharedBody.CODE, SharedBody.BODY) && ValidCode.NothingFails(SharedBody.CODE, SharedBody.BODY)
    ensures LoopFree.NoLoops(SharedBody.BODY) && !FedByCall(PROGRAM, SHAPE, SET, "h")
  {
    ProgramIsShaped();
    TheGraph();
    hide PROGRAM, SHAPE, EDGES, SharedBody.BODY, SharedBody.CODE;
    forall o, slot | Introduces(o, "h", Function) && PROGRAM.Carries(SET, slot, o)
      ensures false
    {
      var p :| PROGRAM.graph.IsPath(p) && p[|p| - 1] == SET && PROGRAM.Along(p).Some? && Has(PROGRAM.Along(p).value, slot, o);
      WhereHIs(p, slot, o);
    }
  }

  // ----- a run of the worklist -----

  ghost predicate Known(b: Builder, rank: Node -> nat) {
    For(b, PROGRAM, rank) && b.shape == SHAPE && PROGRAM.graph == Flowgraph(EDGES, START) && PROGRAM.results == 0
  }

  // br_if leaves the same operands to both ways. The sum puts $h into the
  // topmost one, and that comes to the end of the block.
  ghost predicate Follows(floor: map<Definition, set<Node>>, led: Ledger) {
    && (BRANCH in led.done && ADD !in led.done ==> SameLeft(led))
    && (ADD in led.done && END !in led.done ==> TAKEN in led.ops && HasH(floor, led.ops[TAKEN]))
    && (END in led.done ==> END in led.inn && |led.inn[END].stack| == 1 && CALL_H in led.inn[END].stack[0])
  }

  ghost predicate SameLeft(led: Ledger) {
    TAKEN in led.ops && NOT_TAKEN in led.ops && led.ops[TAKEN] == led.ops[NOT_TAKEN] && |led.ops[TAKEN]| == 2
  }

  ghost predicate HasH(floor: map<Definition, set<Node>>, ops: seq<Definition>) {
    |ops| == 2 && ops[0] in floor && CALL_H in floor[ops[0]]
  }

  lemma NoneYet(b: Builder, led: Ledger)
    requires led.done == {START}
    ensures Follows(b.floor, led)
  {
  }

  // The merged states gather what comes in.
  lemma Gathering(b: Builder, rank: Node -> nat, led: Ledger)
    requires Known(b, rank) && Bearing(b, PROGRAM, led) && Closed(EdgesOf(b), led.done)
    ensures PROGRAM.Gathers(led.inn, SHAPE)
  {
    hide PROGRAM, SHAPE, EDGES, Flowgraph.Live, Program.GathersAt, Assured;
  }

  ghost function EdgesOf(b: Builder): Flowgraph {
    b.graph
  }

  // What is not taken stays at the bottom of the stack.
  lemma BottomStays(m: Node, n: Node, sh: Shape)
    requires Passes(m, n, sh, 0) && sh.height > Pops(m.inst)
    requires !n.inst.BlockEnd? && !n.inst.LoopEnd? && !n.inst.LoopHead? && !n.inst.Return?
    ensures Moves(m, n, sh, 0, StackSlot(0), StackSlot(0))
  {
  }

  lemma StaysAtBottom(e: CfgEdge)
    requires e in EDGES && e.src in {CALL_F, GET, BRANCH, END} && e != TAKEN && Passes(e.src, e.dst, SHAPE(e.src), 0)
    ensures Moves(e.src, e.dst, SHAPE(e.src), 0, StackSlot(0), StackSlot(0))
  {
    hide SHAPE, Passes, Moves;
    PlaceShape(e.src);
    NextToIt(e);
    hide EDGES;
    BottomStays(e.src, e.dst, SHAPE(e.src));
  }

  lemma NextToIt(e: CfgEdge)
    requires e in EDGES && e.src in {CALL_F, GET, BRANCH, END} && e != TAKEN
    ensures e.dst == if e.src == CALL_F then GET else if e.src == GET then BRANCH else if e.src == BRANCH then ADD else SET
  {
  }

  lemma ComesToBottom(e: CfgEdge)
    requires e == CfgEdge(CALL_H, "", CALL_F) && Passes(e.src, e.dst, SHAPE(e.src), 0)
    ensures Makes(e.src, e.dst, SHAPE(e.src), 0, StackSlot(0))
  {
    hide SHAPE;
    assert e in EDGES;
    PlaceShape(e.src);
  }

  lemma TakenOn(rank: Node -> nat, inn: map<Node, State>, e: CfgEdge)
    requires PROGRAM.graph.Orderly(rank) && PROGRAM.Shaped(SHAPE) && PROGRAM.Gathers(inn, SHAPE)
    requires PROGRAM.graph == Flowgraph(EDGES, START) && PROGRAM.results == 0
    requires e in EDGES && e.dst in inn && e.src in {CALL_H, CALL_F, GET, BRANCH, END} && e != TAKEN
    requires e.src == CALL_H || (e.src in inn && Has(inn[e.src], StackSlot(0), CALL_H))
    ensures e.src in inn && Has(inn[e.dst], StackSlot(0), CALL_H)
  {
    hide PROGRAM, SHAPE, EDGES, Moves, Makes, Passes, Program.GathersAt, Flowgraph.Live, Has;
    assert e in PROGRAM.graph.InEdges(e.dst);
    PassesHere(e);
    if e.src == CALL_H {
      assert Introduces(e.src, "h", Function);
      CalledH(e);
      ComesToBottom(e);
    } else {
      StaysAtBottom(e);
    }
    PROGRAM.MergeTakes(inn, SHAPE, rank, e, StackSlot(0), CALL_H);
  }

  function Into(n: Node): CfgEdge {
    if n == CALL_F then CfgEdge(CALL_H, "", CALL_F)
    else if n == GET then CfgEdge(CALL_F, "", GET)
    else if n == BRANCH then CfgEdge(GET, "", BRANCH)
    else NOT_TAKEN
  }

  lemma IntoIs(n: Node)
    requires n in {CALL_F, GET, BRANCH, ADD}
    ensures var e := Into(n); e in EDGES && e.dst == n && e != TAKEN && e.src in {CALL_H, CALL_F, GET, BRANCH}
    ensures n != CALL_F ==> Into(n).src in {CALL_F, GET, BRANCH} && Into(n).src.id < n.id
    ensures n == CALL_F ==> Into(n).src == CALL_H
  {
  }

  lemma BeforeIt(inn: map<Node, State>, e: CfgEdge)
    requires PROGRAM.Gathers(inn, SHAPE) && PROGRAM.graph == Flowgraph(EDGES, START) && e in EDGES && e.dst in inn
    ensures e.src in inn
  {
    hide PROGRAM, SHAPE, EDGES, Program.GathersAt, Flowgraph.Live;
    assert e in PROGRAM.graph.InEdges(e.dst);
  }

  // The result of $h is at the bottom of what the sum takes.
  lemma {:induction false} HAtBottom(rank: Node -> nat, inn: map<Node, State>, n: Node)
    requires PROGRAM.graph.Orderly(rank) && PROGRAM.Shaped(SHAPE) && PROGRAM.Gathers(inn, SHAPE)
    requires PROGRAM.graph == Flowgraph(EDGES, START) && PROGRAM.results == 0
    requires n in {CALL_F, GET, BRANCH, ADD} && n in inn
    ensures Has(inn[n], StackSlot(0), CALL_H)
    decreases n.id
  {
    hide PROGRAM, SHAPE, EDGES, Has, Flowgraph.Orderly, Program.Shaped, Program.Gathers, Into;
    IntoIs(n);
    BeforeIt(inn, Into(n));
    if n != CALL_F {
      HAtBottom(rank, inn, Into(n).src);
    }
    TakenOn(rank, inn, Into(n));
  }

  lemma SumHasH(s: State)
    requires WfState(s) && |s.stack| == 2 && Has(s, StackSlot(0), CALL_H)
    ensures CALL_H in Lasting(Result(ADD, s))
  {
    var d := Union(s.stack[0], s.stack[1]);
    assert CALL_H in d && d[CALL_H].kind == Function;
  }

  // What a visit to `n` makes of the ledger.
  ghost predicate Handed(b: Builder, rank: Node -> nat, floor: map<Definition, set<Node>>, led: Ledger, n: Node, next: Ledger)
    reads b`floor
  {
    && Known(b, rank) && Closed(PROGRAM.graph, led.done) && Closed(PROGRAM.graph, next.done) && PROGRAM.Gathers(next.inn, SHAPE)
    && n !in led.done && next.done == led.done + {n} && Handing(b, floor, led, n, next) && Follows(floor, led)
  }

  lemma BranchHands(b: Builder, rank: Node -> nat, floor: map<Definition, set<Node>>, led: Ledger, next: Ledger)
    requires Handed(b, rank, floor, led, BRANCH, next)
    ensures SameLeft(next)
  {
    hide PROGRAM, SHAPE, EDGES, Left, Follows, Closed, Program.GathersAt, Flowgraph.Orderly, Flowgraph.Live;
    HeightsHere(next.inn, BRANCH);
    WaysOut();
    var e :| e in b.graph.InEdges(BRANCH) && e in led.ops && GoesOn(b, BRANCH, Left(b, led, e), next);
    var stack := Left(b, led, e);
    assert next.ops[TAKEN][0..] == next.ops[TAKEN] && next.ops[NOT_TAKEN][0..] == next.ops[NOT_TAKEN];
  }

  lemma WaysOut()
    requires PROGRAM.graph == Flowgraph(EDGES, START)
    ensures TAKEN in PROGRAM.graph.OutEdges(BRANCH) && NOT_TAKEN in PROGRAM.graph.OutEdges(BRANCH)
    ensures PROGRAM.graph.InEdges(ADD) == {NOT_TAKEN} && TAKEN in PROGRAM.graph.InEdges(END)
  {
    hide PROGRAM;
    assert TAKEN in EDGES && NOT_TAKEN in EDGES;
    forall e | e in EDGES && e.dst == ADD
      ensures e == NOT_TAKEN
    {
    }
    hide EDGES;
  }

  lemma HeightsHere(inn: map<Node, State>, n: Node)
    requires PROGRAM.Gathers(inn, SHAPE) && n in inn && n in {BRANCH, ADD, END, SET}
    ensures |inn[n].stack| == (if n == BRANCH then 3 else if n == ADD then 2 else 1) && WfState(inn[n]) && ShapeOf(inn[n]) == SHAPE(n)
  {
    hide PROGRAM, SHAPE;
    assert PROGRAM.GathersAt(inn, SHAPE, n);
    PlaceHeight(n);
  }

  lemma PlaceHeight(n: Node)
    requires n in {BRANCH, ADD, END, SET}
    ensures SHAPE(n) == ShapeOfPlace(n)
  {
    hide SHAPE;
    assert TAKEN in EDGES && NOT_TAKEN in EDGES && CfgEdge(END, "", SET) in EDGES;
    PlaceShape(n);
  }

  // What arrives at the sum is what br_if has left.
  lemma LeftForSum(b: Builder, rank: Node -> nat, led: Ledger)
    requires Known(b, rank) && NOT_TAKEN in led.ops && |led.ops[NOT_TAKEN]| == 2
    ensures Left(b, led, NOT_TAKEN) == led.ops[NOT_TAKEN]
  {
    hide PROGRAM, SHAPE, EDGES;
    LeavesTwo(b);
  }

  lemma LeavesTwo(b: Builder)
    requires b.shape == SHAPE && b.results == 0
    ensures b.SizeAfter(BRANCH, b.shape(BRANCH)) == Shape({}, {"0", "1"}, 2, [Label("b", 0)])
  {
    hide PROGRAM, SHAPE, EDGES;
    PlaceHeight(BRANCH);
  }

  lemma LeftForEnd(b: Builder, rank: Node -> nat, led: Ledger)
    requires Known(b, rank) && TAKEN in led.ops && |led.ops[TAKEN]| == 2
    ensures Left(b, led, TAKEN) == [led.ops[TAKEN][0]]
  {
    hide PROGRAM, SHAPE, EDGES, PopLabel;
    LeavesTwo(b);
    assert [Label("b", 0)][1..] == [];
    assert PopLabel("b", 1, [Label("b", 0)]) == Some((0, [])) by { PopsBlock(); }
  }

  lemma PopsBlock()
    ensures PopLabel("b", 1, [Label("b", 0)]) == Some((0, []))
  {
    assert [Label("b", 0)][1..] == [];
  }

  // The sum changes the operand that waits at the end of the block, too.
  lemma SumHands(b: Builder, rank: Node -> nat, floor: map<Definition, set<Node>>, led: Ledger, next: Ledger)
    requires Handed(b, rank, floor, led, ADD, next) && SameLeft(led)
    ensures TAKEN in next.ops && HasH(b.floor, next.ops[TAKEN])
  {
    hide PROGRAM, SHAPE, EDGES, Left, Closed, Program.GathersAt, Flowgraph.Orderly, Flowgraph.Live, Result, Has;
    HeightsHere(next.inn, ADD);
    WaysOut();
    LeftForSum(b, rank, led);
    HAtBottom(rank, next.inn, ADD);
    SumHasH(next.inn[ADD]);
    SumAccepted(b, rank);
  }

  lemma SumAccepted(b: Builder, rank: Node -> nat)
    requires b.results == 0
    ensures Accepts(ADD, SHAPE(ADD), b.results)
  {
    hide SHAPE;
    PlaceHeight(ADD);
  }

  lemma EndHands(b: Builder, rank: Node -> nat, floor: map<Definition, set<Node>>, led: Ledger, next: Ledger)
    requires Handed(b, rank, floor, led, END, next) && TAKEN in led.ops && HasH(floor, led.ops[TAKEN])
    ensures |next.inn[END].stack| == 1 && CALL_H in next.inn[END].stack[0]
  {
    hide PROGRAM, SHAPE, EDGES, Left, Closed, Program.GathersAt, Flowgraph.Orderly, Flowgraph.Live;
    HeightsHere(next.inn, END);
    WaysOut();
    LeftForEnd(b, rank, led);
  }

  // The end of the block passes after the sum, and the sum after br_if.
  lemma InOrder(done: set<Node>)
    requires Closed(PROGRAM.graph, done) && PROGRAM.graph == Flowgraph(EDGES, START)
    ensures END in done ==> ADD in done
    ensures ADD in done ==> BRANCH in done
  {
    hide PROGRAM, Flowgraph.Live;
    assert NOT_TAKEN in PROGRAM.graph.InEdges(ADD) && CfgEdge(CALL_K, "", END) in PROGRAM.graph.InEdges(END);
    assert CfgEdge(DROP, "", CALL_K) in PROGRAM.graph.InEdges(CALL_K) && CfgEdge(ADD, "", DROP) in PROGRAM.graph.InEdges(DROP);
  }

  lemma FollowsOn(b: Builder, rank: Node -> nat, floor: map<Definition, set<Node>>, led: Ledger, n: Node, next: Ledger)
    requires Handed(b, rank, floor, led, n, next)
    ensures Follows(b.floor, next)
  {
    hide PROGRAM, SHAPE, EDGES, Left, GoesOn, Received, Closed, Program.Gathers;
    InOrder(led.done);
    InOrder(next.done);
    if n == BRANCH {
      BranchHands(b, rank, floor, led, next);
    } else if n == ADD {
      SumHands(b, rank, floor, led, next);
    } else if n == END {
      EndHands(b, rank, floor, led, next);
    }
  }

  // ----- the worklist, whichever task is taken first -----

  method Step(b: Builder, ghost rank: Node -> nat, ghost led: Ledger) returns (ok: bool, ghost next: Ledger)
    requires Known(b, rank) && Running(b, led) && Bearing(b, PROGRAM, led) && EdgesRight(b, led) && Follows(b.floor, led) && b.dfsList != []
    modifies b, b.states, b.defs
    ensures ok && b.Grown() && Running(b, next) && Bearing(b, PROGRAM, next) && EdgesRight(b, next) && Follows(b.floor, next)
    ensures (next.done == led.done && |b.dfsList| < |old(b.dfsList)|) || exists n :: n in b.graph.Nodes() - led.done && next.done == led.done + {n}
  {
    hide Builder.Sound, Builder.Linked, PROGRAM, SHAPE, EDGES, Bearing, EdgesRight, Follows, Sized, Waiting, Closed, Logged, Tasks, Handing, ValuesRight, SplitsEmpty,
         Flowgraph.Orderly, Program.Shaped, Program.Gathers;
    ghost var floor := b.floor;
    ok, next := TakeOne(b, PROGRAM, rank, led);
    ghost var n :| Advanced(b, floor, led, n, next);
    if next != led {
      StepFollows(b, rank, floor, led, n, next);
    }
  }

  lemma StepFollows(b: Builder, rank: Node -> nat, floor: map<Definition, set<Node>>, led: Ledger, n: Node, next: Ledger)
    requires Known(b, rank) && Closed(b.graph, led.done) && Closed(b.graph, next.done) && Bearing(b, PROGRAM, next)
    requires Advanced(b, floor, led, n, next) && next.done != led.done && Follows(floor, led)
    ensures Follows(b.floor, next)
  {
    hide PROGRAM, SHAPE, EDGES, Bearing, Closed, Handing, Flowgraph.Orderly, Program.Shaped, Program.Gathers;
    Gathering(b, rank, next);
    assert n !in led.done;
    if n.inst.Unreachable? {
    } else {
      FollowsOn(b, rank, floor, led, n, next);
    }
  }

  // The edge of $h into local.set.
  lemma EdgeIsThere(b: Builder, rank: Node -> nat, led: Ledger)
    requires Known(b, rank) && PROGRAM.Gathers(led.inn, SHAPE) && EdgesRight(b, led) && SET in led.inn && END in led.inn
    requires |led.inn[END].stack| == 1 && CALL_H in led.inn[END].stack[0]
    ensures CallEdge((set e | e in b.edges), SET, "h")
  {
    hide PROGRAM, SHAPE, EDGES, EdgesRight, Accepts, Program.Gathers, Flowgraph.Orderly, Program.Shaped, Recorded;
    EndBefore(rank, led.inn);
    HeightsHere(led.inn, SET);
    SetAccepted(b);
    SetRecords(led.inn[SET]);
    OwnEdges(b, PROGRAM, led, SET, "h");
  }

  lemma SetRecords(s: State)
    requires WfState(s) && Accepts(SET, ShapeOf(s), 0) && |s.stack| == 1 && Has(s, StackSlot(0), CALL_H)
    ensures CallEdge(Recorded(SET, s), SET, "h")
  {
    hide Recorded, Has, Accepts, WfState;
    RecordsCalls(SET, s, 0, "h");
    assert Records(SET.inst, 1, StackSlot(0)) && Introduces(CALL_H, "h", Function);
  }

  lemma SetAccepted(b: Builder)
    requires b.results == 0
    ensures Accepts(SET, SHAPE(SET), b.results)
  {
    hide SHAPE;
    PlaceHeight(SET);
  }

  lemma EndBefore(rank: Node -> nat, inn: map<Node, State>)
    requires PROGRAM.graph.Orderly(rank) && PROGRAM.Shaped(SHAPE) && PROGRAM.Gathers(inn, SHAPE)
    requires PROGRAM.graph == Flowgraph(EDGES, START) && PROGRAM.results == 0
    requires SET in inn && END in inn && |inn[END].stack| == 1 && CALL_H in inn[END].stack[0]
    ensures Has(inn[SET], StackSlot(0), CALL_H)
  {
    hide PROGRAM, SHAPE, Flowgraph.Orderly, Program.Shaped, Program.Gathers;
    var e := CfgEdge(END, "", SET);
    assert e in EDGES;
    hide EDGES;
    TakenOn(rank, inn, e);
  }

  // Where no task is left, the end of the block and what follows are done.
  lemma OneMoreDone(done: set<Node>, n: Node)
    requires PROGRAM.graph == Flowgraph(EDGES, START) && Tasks(PROGRAM.graph, done, [])
    requires (exists e :: e in EDGES && e.dst == n) && forall e :: e in EDGES && e.dst == n ==> e.src in done && !e.src.inst.Unreachable?
    ensures n in done
  {
    hide PROGRAM, EDGES;
    var e :| e in EDGES && e.dst == n;
    assert e in PROGRAM.graph.InEdges(n);
    assert AllDelivered(PROGRAM.graph, done, n);
  }

  lemma SumIsDone(done: set<Node>)
    requires PROGRAM.graph == Flowgraph(EDGES, START) && Tasks(PROGRAM.graph, done, []) && START in done
    ensures ADD in done && BRANCH in done
  {
    hide PROGRAM, Tasks;
    OneMoreDone(done, BEGIN);
    OneMoreDone(done, CALL_H);
    OneMoreDone(done, CALL_F);
    OneMoreDone(done, GET);
    OneMoreDone(done, BRANCH);
    OneMoreDone(done, ADD);
  }

  lemma SetIsDone(done: set<Node>)
    requires PROGRAM.graph == Flowgraph(EDGES, START) && Tasks(PROGRAM.graph, done, []) && START in done
    ensures END in done && SET in done
  {
    hide PROGRAM, Tasks;
    SumIsDone(done);
    OneMoreDone(done, DROP);
    OneMoreDone(done, CALL_K);
    OneMoreDone(done, END);
    OneMoreDone(done, SET);
  }

  lemma Starts()
    requires PROGRAM.Shaped(SHAPE)
    ensures |PROGRAM.graph.OutEdges(PROGRAM.graph.entry)| == 1
  {
    hide SharedBody.BODY, SharedBody.CODE;
    ValidCode.OneWayOut(SharedBody.CODE, SharedBody.BODY);
  }

  lemma Finished(b: Builder, rank: Node -> nat, led: Ledger)
    requires Known(b, rank) && Running(b, led) && Bearing(b, PROGRAM, led) && EdgesRight(b, led) && Follows(b.floor, led) && b.dfsList == []
    ensures OnceEach(PROGRAM.graph, b.passed) && NoTwins(b.edges) && CallEdge((set e | e in b.edges), SET, "h")
  {
    hide Builder.Sound, Builder.Linked, PROGRAM, SHAPE, EDGES, EdgesRight, Sized, Waiting, Logged, Tasks, ValuesRight, Flowgraph.Orderly,
         Program.Shaped, OnceEach, NoTwins, Program.Gathers, Program.GathersAt, CallEdge, Flowgraph.Live;
    Ended(b, PROGRAM, rank, led);
    SetIsDone(led.done);
    Gathering(b, rank, led);
    EdgeIsThere(b, rank, led);
  }

  method RunToEnd(b: Builder, ghost rank: Node -> nat, ghost start: Ledger) returns (ghost led: Ledger)
    requires Known(b, rank) && Running(b, start) && Bearing(b, PROGRAM, start) && EdgesRight(b, start) && Follows(b.floor, start)
    modifies b, b.states, b.defs
    ensures Running(b, led) && Bearing(b, PROGRAM, led) && EdgesRight(b, led) && Follows(b.floor, led) && b.dfsList == []
  {
    hide Builder.Sound, Builder.Linked, PROGRAM, SHAPE, EDGES, Bearing, EdgesRight, Follows, Running, Flowgraph.Orderly, Program.Shaped;
    led := start;
    while b.dfsList != []
      invariant Running(b, led) && Bearing(b, PROGRAM, led) && EdgesRight(b, led) && Follows(b.floor, led) && b.Grown()
      decreases |b.graph.Nodes() - led.done|, |b.dfsList|
    {
      ghost var done := led.done;
      var ok;
      ok, led := Step(b, rank, led);
      if led.done != done {
        ghost var n :| n in b.graph.Nodes() - done && led.done == done + {n};
        FewerLeft(b.graph.Nodes(), done, n);
      }
    }
  }

  // The worklist run to its end on this body, in any order: local.set has an
  // edge of $h, which no path brings there.
  method SumReachesBlockEnd(p: Program, inside: Node -> set<Node>) returns (b: Builder)
    requires p == PROGRAM
    ensures b.dfsList == [] && OnceEach(p.graph, b.passed) && NoTwins(b.edges)
    ensures CallEdge((set e | e in b.edges), SET, "h") && !FedByCall(p, SHAPE, SET, "h")
  {
    hide Builder.Sound, Builder.Linked, PROGRAM, SHAPE, EDGES, Bearing, EdgesRight, Follows, Running, ValuesRight, Flowgraph.Orderly, Program.Shaped, OnceEach,
         NoTwins, CallEdge, FedByCall;
    ProgramIsShaped();
    TheGraph();
    NoPathFeedsH();
    Starts();
    ghost var rank := ValidCode.Ranks(SharedBody.BODY);
    ghost var led;
    var ok;
    ok, b, led := Begin(p, inside, SHAPE, rank);
    NoneYet(b, led);
    led := RunToEnd(b, rank, led);
    Finished(b, rank, led);
  }
}
