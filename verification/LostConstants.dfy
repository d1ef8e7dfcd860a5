// What a saved state can lose: a run on the function of LoopBody.dfy in which
// the operand of a saved state loses a constant.
module LostConstants {
  import opened Wrappers
  import opened DataFlow
  import opened Flowgraph
  import opened FlowLaws
  import opened Provenance
  import opened ReachDefinitions
  import opened VisitLaws
  import opened PdgBuilder
  import opened LoopVisits
  import opened BuilderRuns
  import L = Lowering
  import ValidCode
  import LoopBody

  // ----- the graph as the builder sees it -----

  ghost const GRAPH: Flowgraph := ValidCode.SeenGraph(LoopBody.CODE, LoopBody.BODY)

  const SHAPE: Node -> Shape := ValidCode.ShapeAt(LoopBody.CODE)

  const START := Node(0, Start)
  const RETURN := Node(1, Return)
  const TRAP := Node(2, Return)
  const BEGIN := Node(4, BeginBlock("b"))
  const END := Node(5, BlockEnd("b", 1))
  const SEVEN := Node(9, Const("7"))
  const SIZE := Node(15, MemorySize)
  const BRANCH := Node(21, BrIf)
  const LOOP := Node(27, LoopHead("l"))
  const STOP := Node(33, Unreachable)
  const EQZ := Node(39, Unary)

  const TAKEN := CfgEdge(BRANCH, "true", END)
  const NOT_TAKEN := CfgEdge(BRANCH, "false", LOOP)

  const EDGES: set<CfgEdge> := {
    CfgEdge(START, "", BEGIN), CfgEdge(BEGIN, "", SEVEN), CfgEdge(SEVEN, "", SIZE), CfgEdge(SIZE, "", BRANCH), TAKEN, NOT_TAKEN,
    CfgEdge(LOOP, "", STOP), CfgEdge(STOP, "", TRAP), CfgEdge(END, "", EQZ), CfgEdge(EQZ, "", RETURN)}

  function Back(n: Node): L.Node {
    match n.id
    case 0 => L.Instructions
    case 1 => L.ReturnNode
    case 2 => L.Trap
    case 4 => L.At(0, L.Begin)
    case 5 => L.At(0, L.End)
    case 9 => L.At(1, L.Inst)
    case 15 => L.At(2, L.Inst)
    case 21 => L.At(3, L.Inst)
    case 27 => L.At(4, L.Inst)
    case 33 => L.At(5, L.Inst)
    case _ => L.At(6, L.Inst)
  }

  function Unseen(e: CfgEdge): L.Edge {
    L.Edge(Back(e.src), if e == TAKEN then L.True else if e == NOT_TAKEN then L.False else L.Next, Back(e.dst))
  }

  lemma SeenBack(e: CfgEdge)
    requires e in EDGES
    ensures Unseen(e) in LoopBody.GRAPH && ValidCode.SeenEdge(LoopBody.CODE, Unseen(e)) == e
  {
  }

  lemma SeenInside(g: L.Edge)
    requires g in LoopBody.GRAPH
    ensures ValidCode.SeenEdge(LoopBody.CODE, g) in EDGES
  {
  }

  lemma TheGraph()
    ensures GRAPH == Flowgraph(EDGES, START)
  {
    LoopBody.NothingToRepair();
    hide EDGES, LoopBody.GRAPH, ValidCode.SeenEdge, LoopBody.BODY, LoopBody.CODE, Unseen;
    forall e
      ensures e in GRAPH.cfg <==> e in EDGES
    {
      if e in GRAPH.cfg {
        var g :| g in LoopBody.GRAPH && ValidCode.SeenEdge(LoopBody.CODE, g) == e;
        SeenInside(g);
      }
      if e in EDGES {
        SeenBack(e);
        assert Unseen(e) in LoopBody.GRAPH;
      }
    }
    SeenStart();
  }

  lemma SeenStart()
    ensures ValidCode.Seen(LoopBody.CODE, L.Instructions) == START
  {
  }

  lemma GraphIsValid()
    ensures ValidCode.Validated(LoopBody.CODE, LoopBody.BODY) && ValidCode.NothingFails(LoopBody.CODE, LoopBody.BODY)
    ensures Validated(GRAPH, 1, {}, {}, SHAPE)
  {
    LoopBody.BodyIsValid();
    LoopBody.NothingFailsHere();
    hide LoopBody.BODY, LoopBody.CODE;
    ResultsHere();
    ValidCode.ValidatedForBuilder(LoopBody.CODE, LoopBody.BODY);
  }

  lemma ResultsHere()
    ensures LoopBody.CODE.results == 1 && LoopBody.CODE.globals == {} && LoopBody.CODE.locals == {}
  {
  }

  // The ways in and out of each instruction of the run.
  lemma Ways()
    requires GRAPH == Flowgraph(EDGES, START)
    ensures GRAPH.InEdges(BEGIN) == {CfgEdge(START, "", BEGIN)} && GRAPH.OutEdges(BEGIN) == {CfgEdge(BEGIN, "", SEVEN)}
    ensures GRAPH.InEdges(SEVEN) == {CfgEdge(BEGIN, "", SEVEN)} && GRAPH.OutEdges(SEVEN) == {CfgEdge(SEVEN, "", SIZE)}
    ensures GRAPH.InEdges(SIZE) == {CfgEdge(SEVEN, "", SIZE)} && GRAPH.OutEdges(SIZE) == {CfgEdge(SIZE, "", BRANCH)}
  {
    hide GRAPH;
  }

  lemma MoreWays()
    requires GRAPH == Flowgraph(EDGES, START)
    ensures GRAPH.InEdges(BRANCH) == {CfgEdge(SIZE, "", BRANCH)} && GRAPH.OutEdges(BRANCH) == {TAKEN, NOT_TAKEN}
    ensures GRAPH.InEdges(LOOP) == {NOT_TAKEN} && GRAPH.OutEdges(LOOP) == {CfgEdge(LOOP, "", STOP)}
    ensures GRAPH.InEdges(END) == {TAKEN} && GRAPH.OutEdges(END) == {CfgEdge(END, "", EQZ)} && GRAPH.InEdges(EQZ) == {CfgEdge(END, "", EQZ)}
  {
    hide GRAPH;
  }

  // ----- the run -----

  ghost predicate Known(b: Builder) {
    b.graph == Flowgraph(EDGES, START) && b.graph == GRAPH && b.results == 1 && b.shape == SHAPE
  }

  function Without(tasks: seq<Task>, k: nat): seq<Task>
    requires k < |tasks|
  {
    tasks[..k] + tasks[k + 1..]
  }

  method TakeOff(b: Builder, k: nat) returns (task: Task)
    requires b.Valid() && Shapely(b) && k < |b.dfsList|
    modifies b`dfsList, b`loopsStack, b`lastNode
    ensures b.Valid() && Shapely(b) && b.dfsList == Without(old(b.dfsList), k) && task == old(b.dfsList)[k]
    ensures b.loopsStack == task.loops && b.lastNode == task.last && task.node in b.graph.Nodes() && exists e :: Takes(b, e, task.last, task.node)
  {
    hide Builder.Sound, Builder.Owned, AllFit, KeptFit, Lawful;
    task := b.dfsList[k];
    assert task in b.dfsList && TaskFits(b, task);
    b.dfsList := b.dfsList[..k] + b.dfsList[k + 1..];
    b.TakeUp(task);
  }

  // Takes one of the tasks.
  method TakeTask(b: Builder, k: nat) returns (n: Node)
    requires b.Valid() && Shapely(b) && k < |b.dfsList|
    modifies b`dfsList, b`loopsStack, b`lastNode
    ensures b.Valid() && Shapely(b) && b.dfsList == Without(old(b.dfsList), k)
    ensures var task := old(b.dfsList)[k]; n == task.node && b.loopsStack == task.loops && b.lastNode == task.last && exists e :: Takes(b, e, task.last, n)
    ensures n in b.graph.Nodes()
    ensures b.Now(n) == old(b.Now(b.dfsList[k].node)).(tasks := b.dfsList) && b.Snaps(b.Delivered(n)) == old(b.Snaps(b.Delivered(b.dfsList[k].node)))
  {
    hide Builder.Sound, Builder.Linked, Shapely, Separate, AllParts, Stacks, ReachDefinition.Snap, Takes, Without;
    var task := TakeOff(b, k);
    n := task.node;
  }

  // Takes the task of an instruction that is no loop head and has not to
  // wait, and visits it.
  method VisitTaken(b: Builder, k: nat, ghost n: Node) returns (ghost joined: State, ghost sent: map<CfgEdge, ReachDefinition>)
    requires b.Valid() && Shapely(b) && k < |b.dfsList| && b.dfsList[k].node == n && b.dfsList[k].loops == []
    requires !n.inst.LoopHead? && !n.inst.Unreachable? && |b.Delivered(n)| >= |b.graph.InEdges(n)|
    modifies b`edges, b`dfsList, b`reachDef, b`loopsInsts, b`loopsStack, b`lastNode, b`defs, b`kept, b`states, b`saved, b`floor, b`passed,
             b.Delivered(n), b.defs
    ensures b.Valid() && b.Grown() && Shapely(b) && b.loopsStack == [] && Accepts(n, b.shape(n), b.results)
    ensures b.Passed(old(b.Now(n)).(tasks := Without(old(b.dfsList), k)), n, old(b.Snaps(b.Delivered(n))), b.shape(n), joined, sent)
  {
    hide Builder.Sound, Builder.Linked, Shapely, Builder.Passed, Without, Accepts, Builder.Now, Builder.Snaps, Takes;
    var m := TakeTask(b, k);
    ghost var stopped, came;
    var ok;
    ok, stopped, came, joined, sent := VisitOther(b, m);
  }

  // ----- what has gone on -----

  predicate PlainOnArrival(i: Inst) {
    !i.BlockEnd? && !i.LoopEnd? && !i.LoopHead? && !i.Return?
  }

  lemma TasksAdded(b: Builder, was: Before, n: Node, outs: set<CfgEdge>)
    requires Scheduled(outs, was.tasks, b.dfsList, n, b.loopsStack)
    ensures (forall e :: e in outs ==> Task(e.dst, b.loopsStack, n) in b.dfsList) && forall t :: t in was.tasks ==> t in b.dfsList
  {
    var order :| Lists(order, outs) && b.dfsList == TasksOf(order, n, b.loopsStack) + was.tasks;
    forall e | e in outs
      ensures Task(e.dst, b.loopsStack, n) in b.dfsList
    {
      assert e in order;
      var i :| 0 <= i < |order| && order[i] == e;
      assert TasksOf(order, n, b.loopsStack)[i] == Task(e.dst, b.loopsStack, n);
    }
  }

  // One state goes on where there is one way.
  lemma OneMoves(b: Builder, was: Before, n: Node, own: set<ReachDefinition>, sent: map<CfgEdge, ReachDefinition>, next: CfgEdge)
    requires b.Moved(was, n, own, sent) && b.graph.OutEdges(n) == {next} && b.loopsStack == []
    ensures sent.Keys == {next} && Task(next.dst, [], n) in b.dfsList && sent[next] in b.states
    ensures forall l :: b.Delivered(l) == if l == n then {} else if l == next.dst then Among(was.reachDef, l) + {sent[next]} else Among(was.reachDef, l)
  {
    TasksAdded(b, was, n, {next});
    assert sent[next] in sent.Values;
    forall l | l != n
      ensures Builder.Arriving(sent, l) == if l == next.dst then {sent[next]} else {}
    {
      assert forall e :: e in sent ==> e == next;
    }
  }

  lemma OneCame(b: Builder, n: Node, s: ReachDefinition, v: State, joined: State)
    requires Builder.CoversAll(joined, b.ArrivedValues(n, map[s := v])) && PlainOnArrival(n.inst)
    ensures Covers(joined, v)
  {
    assert b.ArrivedValues(n, map[s := v])[s] == v;
  }

  lemma OneStays(b: Builder, n: Node, v: State, sent: map<CfgEdge, ReachDefinition>, parts: set<Definition>, next: CfgEdge)
    requires b.Carried(n, v, sent, parts) && b.graph.OutEdges(n) == {next} && sent.Keys == {next}
    ensures sent[next].Is(v) && sent[next].Apart()
  {
    assert sent[next] in sent.Values;
  }

  ghost predicate OnlyAt(reach: map<Node, set<ReachDefinition>>, n: Node, s: ReachDefinition) {
    forall l :: Among(reach, l) == if l == n then {s} else {}
  }

  // There is a task for `n`, to which the only state has come.
  ghost predicate Single(b: Builder, m: Node, n: Node, s: ReachDefinition)
    reads b, b.states, b.defs, b.kept, b.saved, b.loops.Values, b.cache.Values
  {
    && b.Valid() && Shapely(b) && Known(b) && b.loops == map[] && Task(n, [], m) in b.dfsList && s in b.states && s.Apart()
    && OnlyAt(b.reachDef, n, s)
  }

  lemma SingleIsSeparate(s: ReachDefinition)
    requires s.Apart()
    ensures Separate({s})
  {
  }

  // The state that has gone on is what the visit leaves of a state that had
  // all origins of the one before.
  ghost predicate Gone(b: Builder, n: Node, t: ReachDefinition, joined: State, v: State)
    reads t, t.globals.Values, t.locals.Values, t.stack
  {
    ShapeOf(joined) == b.shape(n) && Accepts(n, ShapeOf(joined), 1) && t.Is(b.AfterVisit(n, joined)) && Covers(joined, v)
  }

  lemma StraightOn(b: Builder, was: Before, m: Node, n: Node, next: CfgEdge, s: ReachDefinition, v: State, joined: State, sent: map<CfgEdge, ReachDefinition>)
    requires b.Passed(was, n, map[s := v], b.shape(n), joined, sent) && Accepts(n, b.shape(n), b.results)
    requires b.Valid() && Shapely(b) && Known(b) && b.loops == map[] && b.loopsStack == [] && was.separate
    requires OnlyAt(was.reachDef, n, s) && b.graph.OutEdges(n) == {next} && next.dst != n && PlainOnArrival(n.inst)
    ensures next in sent && Single(b, n, next.dst, sent[next]) && Gone(b, n, sent[next], joined, v)
  {
    hide Builder.Sound, Builder.Linked, Shapely, Builder.Moved, Builder.Carried, Accepts, Builder.AfterVisit, Builder.Current, Builder.Risen,
         Builder.AllAssured, Builder.Handed, Covers, SlotsApart, Shows, JoinsAll, Adds, Known, Builder.ArrivedValues, Builder.CoversAll, WfState;
    OneMoves(b, was, n, {s}, sent, next);
    OneCame(b, n, s, v, joined);
    OneStays(b, n, b.AfterVisit(n, joined), sent, was.parts + (b.defs - was.defs), next);
    ResultsAre(b);
    forall l
      ensures Among(b.reachDef, l) == if l == next.dst then {sent[next]} else {}
    {
      assert b.Delivered(l) == Among(b.reachDef, l);
    }
  }

  lemma ResultsAre(b: Builder)
    requires Known(b)
    ensures b.results == 1
  {
  }

  // What the builder is before that visit.
  lemma BeforeVisit(b: Builder, m: Node, n: Node, s: ReachDefinition)
    requires Single(b, m, n, s)
    ensures b.Now(n).separate && b.Now(n).reachDef == b.reachDef
    ensures b.Snaps(b.Delivered(n)) == map[s := s.Snap()] && b.Delivered(n) == {s}
  {
    hide Builder.Sound, Builder.Linked, Shapely, AllParts, Stacks, ReachDefinition.Snap, SlotsApart, Separate, Builder.Snaps, ReachDefinition.Apart;
    SingleIsSeparate(s);
    assert b.Delivered(n) == {s};
    SnapOfOne(b, s);
  }

  lemma SnapOfOne(b: Builder, s: ReachDefinition)
    ensures b.Snaps({s}) == map[s := s.Snap()]
  {
    hide ReachDefinition.Snap;
  }

  method Straight(b: Builder, m: Node, n: Node, ghost next: CfgEdge, ghost s: ReachDefinition) returns (ghost t: ReachDefinition, ghost joined: State)
    requires Single(b, m, n, s) && |b.graph.InEdges(n)| == 1 && b.graph.OutEdges(n) == {next} && next.dst != n
    requires PlainOnArrival(n.inst) && !n.inst.Unreachable?
    modifies b`edges, b`dfsList, b`reachDef, b`loopsInsts, b`loopsStack, b`lastNode, b`defs, b`kept, b`states, b`saved, b`floor, b`passed, b.states, b.defs
    ensures b.Grown() && Single(b, n, next.dst, t) && Gone(b, n, t, joined, old(s.Snap()))
  {
    hide Builder.Sound, Builder.Linked, Shapely, Builder.Passed, Accepts, Gone, Builder.Now, Builder.Snaps, Without, ReachDefinition.Snap, SlotsApart, Known, OnlyAt;
    BeforeVisit(b, m, n, s);
    b.DeliveredAreStates(n);
    var k :| 0 <= k < |b.dfsList| && b.dfsList[k] == Task(n, [], m);
    ghost var was, came := b.Now(n).(tasks := Without(b.dfsList, k)), b.Snaps(b.Delivered(n));
    ghost var sent;
    joined, sent := VisitTaken(b, k, n);
    StraightOn(b, was, m, n, next, s, came[s], joined, sent);
    t := sent[next];
  }

  // ----- to the branch -----

  // The bottommost operand may come from the constant.
  ghost predicate SevenBelow(v: State) {
    v.stack != [] && SEVEN in v.stack[|v.stack| - 1]
  }

  lemma SevenIsBelow(b: Builder, t: ReachDefinition, joined: State, v: State)
    requires Gone(b, SEVEN, t, joined, v) && b.results == 1 && b.shape == SHAPE
    ensures SevenBelow(t.Snap())
  {
    hide Covers, SHAPE, DataFlow.Visit, SevenBelow, Accepts, Shows, ReachDefinition.Snap;
    NothingYet();
    SevenPushed(joined);
    IsSnap(t, b.AfterVisit(SEVEN, joined));
  }

  lemma SevenPushed(s: State)
    requires Accepts(SEVEN, ShapeOf(s), 1) && ShapeOf(s).height == 0
    ensures SevenBelow(DataFlow.Visit(SEVEN, s))
  {
  }

  lemma SevenStaysBelow(b: Builder, n: Node, t: ReachDefinition, joined: State, v: State)
    requires Gone(b, n, t, joined, v) && b.results == 1 && SevenBelow(v) && Pops(n.inst) == 0
    ensures SevenBelow(t.Snap())
  {
    IsSnap(t, b.AfterVisit(n, joined));
    assert HasSlot(v, StackSlot(0)) && HasSlot(joined, StackSlot(0));
  }

  lemma NothingYet()
    ensures SHAPE(SEVEN).height == 0
  {
    ValidCode.NumberedBack(L.At(1, L.Inst));
    assert ValidCode.Number(L.At(1, L.Inst)) == 9 && SHAPE(SEVEN) == LoopBody.ShapeIn(ValidCode.Numbered(9));
  }

  lemma StartsSingle(b: Builder, e: CfgEdge, s: ReachDefinition)
    requires b.Valid() && Known(b) && Validated(GRAPH, 1, {}, {}, SHAPE) && b.graph.OutEdges(b.graph.entry) == {e} && e.dst == BEGIN
    requires b.dfsList == [Task(BEGIN, [], START)] && b.loops == map[] && b.cache == map[] && b.loopsStack == []
    requires b.reachDef == map[BEGIN := {s}] && s in b.states && s.Is(Initial({}, {})) && s.Apart()
    ensures Single(b, START, BEGIN, s)
  {
    hide Builder.Sound, Builder.Linked, Shapely, Shows, SlotsApart, GRAPH, SHAPE, EDGES;
    StartsShapely(b, {}, {}, e, s);
    assert b.dfsList[0] == Task(BEGIN, [], START);
  }

  method StartHere(graph: Flowgraph, inside: Node -> set<Node>) returns (b: Builder, ghost s: ReachDefinition)
    requires graph == GRAPH
    ensures fresh(b) && fresh(b.states) && fresh(b.defs) && Single(b, START, BEGIN, s)
  {
    hide Builder.Sound, Builder.Linked, Single, Shows, SlotsApart, GRAPH, SHAPE, EDGES, Validated, DataFlow.Initial;
    TheGraph();
    GraphIsValid();
    OneWayOn(graph);
    b := new Builder(graph, 1, inside, SHAPE);
    ghost var e;
    var ok;
    ok, e, s := b.VisitInstructions({}, {});
    StartsSingle(b, e, s);
  }

  lemma OneWayOn(graph: Flowgraph)
    requires graph == Flowgraph(EDGES, START)
    ensures graph.OutEdges(graph.entry) == {CfgEdge(START, "", BEGIN)} && |graph.OutEdges(graph.entry)| == 1
  {
  }

  lemma SingleIsKnown(b: Builder, m: Node, n: Node, s: ReachDefinition)
    requires Single(b, m, n, s)
    ensures b.graph == Flowgraph(EDGES, START) && b.graph == GRAPH && b.results == 1 && b.shape == SHAPE
  {
    hide Shapely, GRAPH, SHAPE, EDGES;
  }

  method ToSize(b: Builder, ghost s: ReachDefinition) returns (ghost t: ReachDefinition)
    requires Single(b, START, BEGIN, s)
    modifies b, b.states, b.defs
    ensures b.Grown() && Single(b, SEVEN, SIZE, t) && SevenBelow(t.Snap())
  {
    hide Single, Gone, GRAPH, SHAPE, EDGES, SevenBelow, ReachDefinition.Snap;
    SingleIsKnown(b, START, BEGIN, s);
    Ways();
    ghost var joined;
    t, joined := Straight(b, START, BEGIN, CfgEdge(BEGIN, "", SEVEN), s);
    ghost var v := t.Snap();
    t, joined := Straight(b, BEGIN, SEVEN, CfgEdge(SEVEN, "", SIZE), t);
    SevenIsBelow(b, t, joined, v);
  }

  method ToBranch(b: Builder, ghost s: ReachDefinition) returns (ghost t: ReachDefinition)
    requires Single(b, START, BEGIN, s)
    modifies b, b.states, b.defs
    ensures b.Grown() && Single(b, SIZE, BRANCH, t) && SevenBelow(t.Snap())
  {
    hide Single, Gone, GRAPH, SHAPE, EDGES, SevenBelow, ReachDefinition.Snap;
    ghost var u := ToSize(b, s);
    SingleIsKnown(b, SEVEN, SIZE, u);
    Ways();
    ghost var v := u.Snap();
    ghost var joined;
    t, joined := Straight(b, SEVEN, SIZE, CfgEdge(SIZE, "", BRANCH), u);
    SevenStaysBelow(b, SIZE, t, joined, v);
  }

  // ----- at the branch -----

  // br_if has left the same operand to the loop and to the end of the block.
  ghost predicate Shared(b: Builder, t: ReachDefinition, u: ReachDefinition)
    reads *
  {
    && b.Valid() && Shapely(b) && Known(b) && b.loops == map[]
    && Task(LOOP, [], BRANCH) in b.dfsList && Task(END, [], BRANCH) in b.dfsList
    && b.Delivered(LOOP) == {u} && b.Delivered(END) == {t} && b.Delivered(EQZ) == {}
    && t.stack == u.stack && |u.stack| == 1 && SEVEN in u.stack[0].def
  }

  lemma HeightAtBranch()
    ensures SHAPE(BRANCH).height == 2
  {
    ValidCode.NumberedBack(L.At(3, L.Inst));
    assert ValidCode.Number(L.At(3, L.Inst)) == 21 && SHAPE(BRANCH) == LoopBody.ShapeIn(ValidCode.Numbered(21));
  }

  lemma SevenIsLeft(s: State, v: State)
    requires Accepts(BRANCH, ShapeOf(s), 1) && |s.stack| == 2 && Covers(s, v) && SevenBelow(v)
    ensures var after := DataFlow.Visit(BRANCH, s); |after.stack| == 1 && SEVEN in after.stack[0]
  {
    assert HasSlot(v, StackSlot(0)) && HasSlot(s, StackSlot(0));
  }

  // What goes along the two edges.
  lemma TwoMove(b: Builder, was: Before, own: set<ReachDefinition>, sent: map<CfgEdge, ReachDefinition>)
    requires b.Moved(was, BRANCH, own, sent) && b.graph.OutEdges(BRANCH) == {TAKEN, NOT_TAKEN} && b.loopsStack == []
    requires forall l :: l != BRANCH ==> Among(was.reachDef, l) == {}
    ensures sent.Keys == {TAKEN, NOT_TAKEN} && Task(LOOP, [], BRANCH) in b.dfsList && Task(END, [], BRANCH) in b.dfsList
    ensures b.Delivered(LOOP) == {sent[NOT_TAKEN]} && b.Delivered(END) == {sent[TAKEN]} && b.Delivered(EQZ) == {}
  {
    hide Builder.Arriving;
    TasksAdded(b, was, BRANCH, {TAKEN, NOT_TAKEN});
    assert TAKEN in sent && NOT_TAKEN in sent;
    TwoArrive(sent);
  }

  lemma TwoArrive(sent: map<CfgEdge, ReachDefinition>)
    requires sent.Keys == {TAKEN, NOT_TAKEN}
    ensures Builder.Arriving(sent, LOOP) == {sent[NOT_TAKEN]} && Builder.Arriving(sent, END) == {sent[TAKEN]} && Builder.Arriving(sent, EQZ) == {}
  {
    assert TAKEN in sent && NOT_TAKEN in sent;
  }

  lemma BothShare(b: Builder, sent: map<CfgEdge, ReachDefinition>, stack: seq<Definition>, joined: State)
    requires b.Handed(BRANCH, stack, joined, sent) && TAKEN in sent && NOT_TAKEN in sent
    ensures sent[TAKEN].stack == sent[NOT_TAKEN].stack
  {
    hide Builder.Altered;
    assert sent[TAKEN].stack[0..] == sent[NOT_TAKEN].stack[0..];
  }

  lemma NowShared(b: Builder, was: Before, s: ReachDefinition, v: State, joined: State, sent: map<CfgEdge, ReachDefinition>)
    requires b.Passed(was, BRANCH, map[s := v], b.shape(BRANCH), joined, sent) && Accepts(BRANCH, b.shape(BRANCH), b.results)
    requires b.Valid() && Shapely(b) && Known(b) && b.loops == map[] && b.loopsStack == [] && was.separate && OnlyAt(was.reachDef, BRANCH, s) && SevenBelow(v)
    ensures TAKEN in sent && NOT_TAKEN in sent && Shared(b, sent[TAKEN], sent[NOT_TAKEN])
  {
    hide Builder.Sound, Builder.Linked, Shapely, Builder.Moved, Builder.Current, Builder.Risen, Builder.AllAssured, Builder.Handed, Covers, SlotsApart, JoinsAll, Adds,
         Builder.ArrivedValues, Builder.CoversAll, WfState, SevenBelow, GRAPH, SHAPE, EDGES, Builder.OperandsLeft, DataFlow.Visit, Accepts, Builder.Marks;
    MoreWays();
    TwoMove(b, was, {s}, sent);
    HeightAtBranch();
    OneCame(b, BRANCH, s, v, joined);
    SevenIsLeft(joined, v);
    var w: ReachDefinition :| w in was.stacks && w in map[s := v] && b.Handed(BRANCH, b.OperandsLeft(BRANCH, ShapeOf(map[s := v][w]), was.stacks[w]), joined, sent);
    BothShare(b, sent, b.OperandsLeft(BRANCH, ShapeOf(v), was.stacks[s]), joined);
    assert sent[NOT_TAKEN].Is(b.AfterVisit(BRANCH, joined));
  }

  method Part(b: Builder, ghost s: ReachDefinition) returns (ghost t: ReachDefinition, ghost u: ReachDefinition)
    requires Single(b, SIZE, BRANCH, s) && SevenBelow(s.Snap())
    modifies b, b.states, b.defs
    ensures b.Grown() && Shared(b, t, u)
  {
    hide Builder.Sound, Builder.Linked, Shapely, Builder.Passed, Accepts, Builder.Now, Builder.Snaps, Without, ReachDefinition.Snap, SlotsApart, OnlyAt, GRAPH, SHAPE, EDGES, SevenBelow,
         Shared;
    MoreWays();
    BeforeVisit(b, SIZE, BRANCH, s);
    b.DeliveredAreStates(BRANCH);
    var k :| 0 <= k < |b.dfsList| && b.dfsList[k] == Task(BRANCH, [], SIZE);
    ghost var was, came := b.Now(BRANCH).(tasks := Without(b.dfsList, k)), b.Snaps(b.Delivered(BRANCH));
    ghost var joined, sent := VisitTaken(b, k, BRANCH);
    NowShared(b, was, s, came[s], joined, sent);
    t, u := sent[TAKEN], sent[NOT_TAKEN];
  }

  // ----- into the loop -----

  // The loop has been entered. Its saved state has the operand that still
  // waits at the end of the block.
  ghost predicate AtLoop(b: Builder, t: ReachDefinition)
    reads *
  {
    && b.Valid() && Shapely(b) && Known(b) && Task(END, [], BRANCH) in b.dfsList && b.Delivered(END) == {t} && b.Delivered(EQZ) == {}
    && LOOP in b.loops && t.stack == b.loops[LOOP].stack && |t.stack| == 1 && SEVEN in t.stack[0].def
  }

  lemma OthersApart(b: Builder, t: ReachDefinition, u: ReachDefinition)
    requires Shared(b, t, u)
    ensures t != u
  {
    hide Lawful, AllFit, KeptFit, TasksFit, Known;
    assert t in Among(b.reachDef, END) && u in Among(b.reachDef, LOOP);
  }

  lemma StillThere(tasks: seq<Task>, k: nat, task: Task)
    requires k < |tasks| && task in tasks && tasks[k] != task
    ensures task in Without(tasks, k)
  {
    var i :| 0 <= i < |tasks| && tasks[i] == task;
    if i < k {
      assert Without(tasks, k)[i] == task;
    } else {
      assert Without(tasks, k)[i - 1] == task;
    }
  }

  lemma NowAtLoop(b: Builder, was: Before, t: ReachDefinition, u: ReachDefinition, v: State, oldLoops: map<Node, ReachDefinition>, sent: map<CfgEdge, ReachDefinition>)
    requires b.Valid() && Shapely(b) && Known(b) && Entered(b, was, LOOP, u, oldLoops, sent)
    requires Task(END, [], BRANCH) in was.tasks && Among(was.reachDef, END) == {t} && Among(was.reachDef, EQZ) == {}
    requires Undropped(u, t.stack, v) && |t.stack| == 1 && |v.stack| == 1 && SEVEN in v.stack[0]
    ensures AtLoop(b, t)
  {
    hide Builder.Sound, Builder.Linked, Shapely, Known, GRAPH, EDGES, SHAPE, CopyOf, Builder.AllSentDiffer;
    TheWays(b);
    TasksAdded(b, was, LOOP, {CfgEdge(LOOP, "", STOP)});
    assert Builder.Arriving(sent, END) == {} && Builder.Arriving(sent, EQZ) == {};
    CopyShares(b.loops[LOOP], u);
    IsSnap(u, u.Snap());
    assert HasSlot(v, StackSlot(0)) && At(v, StackSlot(0)) == v.stack[0];
  }

  lemma TheWays(b: Builder)
    requires Known(b)
    ensures b.graph.OutEdges(LOOP) == {CfgEdge(LOOP, "", STOP)} && b.graph.InEdges(LOOP) == {NOT_TAKEN}
    ensures b.graph.InEdges(END) == {TAKEN} && b.graph.OutEdges(END) == {CfgEdge(END, "", EQZ)} && b.graph.InEdges(EQZ) == {CfgEdge(END, "", EQZ)}
  {
    hide EDGES, SHAPE, GRAPH;
    MoreWays();
  }

  lemma CopyShares(c: ReachDefinition, s: ReachDefinition)
    requires CopyOf(c, s)
    ensures c.stack == s.stack
  {
  }

  // Takes the task of a loop head that is new.
  method EnterTaken(b: Builder, k: nat, ghost n: Node, ghost u: ReachDefinition) returns (ghost sent: map<CfgEdge, ReachDefinition>)
    requires b.Valid() && Shapely(b) && k < |b.dfsList| && b.dfsList[k].node == n && b.dfsList[k].loops == []
    requires n.inst.LoopHead? && n !in b.loops && b.Delivered(n) == {u} && |b.graph.InEdges(n)| == 1
    modifies b, b.Delivered(n), b.defs
    ensures b.Valid() && b.Grown() && Shapely(b) && Entered(b, old(b.Now(n)).(tasks := Without(old(b.dfsList), k)), n, u, old(b.loops), sent)
    ensures Undropped(u, old(u.stack), old(u.Snap()))
  {
    hide Builder.Sound, Builder.Linked, Shapely, Without, ReachDefinition.Snap, Entered, Undropped, Builder.Now, Builder.Snaps, Takes, OperandsWent, Lefts, Became, KeepsOn,
         Widened, Knowing, Builder.HeldIn;
    var m := TakeTask(b, k);
    ghost var how, s, ops;
    var ok;
    ok, how, s, ops, sent := VisitLoop(b, m);
  }

  method Enter(b: Builder, ghost t: ReachDefinition, ghost u: ReachDefinition)
    requires Shared(b, t, u)
    modifies b, b.states, b.defs
    ensures b.Grown() && AtLoop(b, t)
  {
    hide Builder.Sound, Builder.Linked, Shapely, Without, ReachDefinition.Snap, GRAPH, SHAPE, EDGES, AtLoop, Entered, Undropped, Separate, AllParts, Stacks;
    TheWays(b);
    OthersApart(b, t, u);
    b.DeliveredAreStates(LOOP);
    ghost var v := u.Snap();
    IsSnap(u, v);
    var k :| 0 <= k < |b.dfsList| && b.dfsList[k] == Task(LOOP, [], BRANCH);
    StillThere(b.dfsList, k, Task(END, [], BRANCH));
    ghost var was := b.Now(LOOP).(tasks := Without(b.dfsList, k));
    ghost var sent := EnterTaken(b, k, LOOP, u);
    NowAtLoop(b, was, t, u, v, map[], sent);
  }

  // ----- on from the end of the block -----

  // The operand at the end of the block is that of the saved state.
  ghost predicate AtTest(b: Builder, t: ReachDefinition)
    reads *
  {
    && b.Valid() && Shapely(b) && Known(b) && Task(EQZ, [], END) in b.dfsList && b.Delivered(EQZ) == {t}
    && LOOP in b.loops && t.stack == b.loops[LOOP].stack && |t.stack| == 1
  }

  // Where one state came, these are the operands it had on arrival.
  lemma OneHanded(b: Builder, was: Before, n: Node, s: ReachDefinition, v: State, stack: seq<Definition>, joined: State, sent: map<CfgEdge, ReachDefinition>)
    requires b.Passed(was, n, map[s := v], b.shape(n), joined, sent) && s in was.stacks && was.stacks[s] == stack
    ensures b.Handed(n, b.OperandsLeft(n, ShapeOf(v), stack), joined, sent)
  {
    hide Builder.Moved, Builder.Carried, Builder.Current, Builder.Risen, Builder.AllAssured, Builder.Handed, JoinsAll, Adds, Builder.CoversAll, Builder.OperandsLeft;
    var w: ReachDefinition :| w in was.stacks && w in map[s := v] && b.Handed(n, b.OperandsLeft(n, ShapeOf(map[s := v][w]), was.stacks[w]), joined, sent);
  }

  lemma HeightAtEnd()
    ensures SHAPE(END).height == 1
  {
    ValidCode.NumberedBack(L.At(0, L.End));
    assert ValidCode.Number(L.At(0, L.End)) == 5 && SHAPE(END) == LoopBody.ShapeIn(ValidCode.Numbered(5));
  }

  // The one operand stays on arrival.
  lemma OneIsLeft(b: Builder, n: Node, t: ReachDefinition)
    requires Shapely(b) && Known(b) && n in {END, EQZ} && b.Delivered(n) == {t} && |t.stack| == 1
    ensures b.OperandsLeft(n, t.Size(), t.stack) == t.stack
  {
    hide SHAPE, GRAPH, EDGES, Lawful, Alone, KeptFit, TasksFit, ShapeOnArrival;
    HeightAtEnd();
    assert Fit(b, n, t.Size(), b.loops.Keys);
    if n == EQZ {
      PlainArrival(t.Size());
    }
  }

  lemma PlainArrival(sh: Shape)
    ensures ShapeOnArrival(EQZ, sh, 1) == Some(sh)
  {
  }

  // What is known before a visit to where one state waits.
  lemma OneWaits(b: Builder, n: Node, t: ReachDefinition)
    requires b.Valid() && b.Delivered(n) == {t}
    ensures t in b.Now(n).stacks && b.Now(n).stacks[t] == t.stack && b.Now(n).reachDef == b.reachDef && b.Snaps(b.Delivered(n)) == map[t := t.Snap()]
  {
    hide Builder.Sound, Builder.Linked, Separate, AllParts, ReachDefinition.Snap, Builder.Snaps;
    SnapOfOne(b, t);
  }

  // Such a visit hands the one operand on.
  ghost predicate HandsOn(b: Builder, was: Before, n: Node, t: ReachDefinition, stack: seq<Definition>, joined: State, sent: map<CfgEdge, ReachDefinition>)
    reads *
  {
    b.Handed(n, stack, joined, sent) && WfState(joined) && Accepts(n, ShapeOf(joined), 1) && b.Moved(was, n, {t}, sent)
  }

  lemma VisitHands(b: Builder, was: Before, n: Node, t: ReachDefinition, stack: seq<Definition>, v: State, joined: State, sent: map<CfgEdge, ReachDefinition>)
    requires b.results == 1 && b.Passed(was, n, map[t := v], b.shape(n), joined, sent) && Accepts(n, b.shape(n), b.results) && Among(was.reachDef, n) == {t}
    requires t in was.stacks && was.stacks[t] == stack && b.OperandsLeft(n, ShapeOf(v), stack) == stack
    ensures HandsOn(b, was, n, t, stack, joined, sent)
  {
    hide Builder.Carried, Builder.Current, Builder.Risen, Builder.AllAssured, Covers, JoinsAll, Adds, Builder.ArrivedValues, Builder.CoversAll, WfState,
         Builder.OperandsLeft, Builder.AllSentDiffer, Builder.Moved, Builder.Marks, Builder.Handed, Accepts;
    OneHanded(b, was, n, t, v, stack, joined, sent);
  }

  method VisitOnly(b: Builder, k: nat, ghost n: Node, ghost t: ReachDefinition) returns (ghost joined: State, ghost sent: map<CfgEdge, ReachDefinition>)
    requires b.Valid() && Shapely(b) && Known(b) && k < |b.dfsList| && b.dfsList[k].node == n && b.dfsList[k].loops == []
    requires n in {END, EQZ} && b.Delivered(n) == {t} && |t.stack| == 1
    modifies b`edges, b`dfsList, b`reachDef, b`loopsInsts, b`loopsStack, b`lastNode, b`defs, b`kept, b`states, b`saved, b`floor, b`passed, {t}, b.defs
    ensures b.Valid() && Shapely(b) && b.Grown() && b.loopsStack == []
    ensures HandsOn(b, old(b.Now(n)).(tasks := Without(old(b.dfsList), k)), n, t, old(t.stack), joined, sent)
  {
    hide Builder.Sound, Builder.Linked, Shapely, Without, ReachDefinition.Snap, GRAPH, SHAPE, EDGES, Builder.Passed, Builder.Now, Builder.Snaps, Builder.OperandsLeft, Accepts, HandsOn;
    TheWays(b);
    OneIsLeft(b, n, t);
    OneWaits(b, n, t);
    ghost var was, stack, v := b.Now(n).(tasks := Without(b.dfsList, k)), t.stack, t.Snap();
    joined, sent := VisitTaken(b, k, n);
    VisitHands(b, was, n, t, stack, v, joined, sent);
  }

  lemma NowAtTest(b: Builder, was: Before, t: ReachDefinition, stack: seq<Definition>, joined: State, sent: map<CfgEdge, ReachDefinition>)
    requires b.Valid() && Shapely(b) && Known(b) && b.loopsStack == [] && HandsOn(b, was, END, t, stack, joined, sent)
    requires |stack| == 1 && Among(was.reachDef, EQZ) == {} && LOOP in b.loops && stack == b.loops[LOOP].stack
    ensures CfgEdge(END, "", EQZ) in sent && AtTest(b, sent[CfgEdge(END, "", EQZ)])
  {
    hide Builder.Sound, Builder.Linked, Shapely, WfState, GRAPH, SHAPE, EDGES, Builder.Moved, Builder.Altered, Known;
    var next := CfgEdge(END, "", EQZ);
    TheWays(b);
    OneMoves(b, was, END, {t}, sent, next);
    assert sent[next].stack[0..] == sent[next].stack && stack[0..] == stack;
  }

  // States that wait are not among the saved ones.
  lemma SavedApart(b: Builder, n: Node, t: ReachDefinition)
    requires b.Valid() && b.Delivered(n) == {t} && LOOP in b.loops
    ensures t != b.loops[LOOP]
  {
    b.KeptApart();
    b.DeliveredAreStates(n);
    assert b.loops[LOOP] in b.loops.Values;
  }

  method LeaveBlock(b: Builder, ghost t: ReachDefinition, ghost c: ReachDefinition) returns (ghost u: ReachDefinition)
    requires AtLoop(b, t) && c == b.loops[LOOP]
    modifies b, b.states, b.defs
    ensures b.Grown() && AtTest(b, u) && c == b.loops[LOOP] && c.stack == old(c.stack)
  {
    hide Builder.Sound, Builder.Linked, Shapely, Without, GRAPH, SHAPE, EDGES, AtTest, HandsOn, Separate, AllParts, Stacks;
    SavedApart(b, END, t);
    b.DeliveredAreStates(END);
    var k :| 0 <= k < |b.dfsList| && b.dfsList[k] == Task(END, [], BRANCH);
    ghost var was := b.Now(END).(tasks := Without(b.dfsList, k));
    ghost var joined, sent := VisitOnly(b, k, END, t);
    NowAtTest(b, was, t, c.stack, joined, sent);
    u := sent[CfgEdge(END, "", EQZ)];
  }

  lemma SevenIsGone(s: State)
    requires WfState(s) && Accepts(EQZ, ShapeOf(s), 1)
    ensures SEVEN !in Result(EQZ, s)
  {
  }

  lemma TestAltered(b: Builder, was: Before, t: ReachDefinition, stack: seq<Definition>, joined: State, sent: map<CfgEdge, ReachDefinition>)
    requires b.results == 1 && HandsOn(b, was, EQZ, t, stack, joined, sent) && |stack| == 1
    ensures SEVEN !in stack[0].def
  {
    hide Builder.Moved, WfState, Result;
    SevenIsGone(joined);
  }

  method Test(b: Builder, ghost t: ReachDefinition, ghost c: ReachDefinition)
    requires AtTest(b, t) && c == b.loops[LOOP]
    modifies b, b.states, b.defs
    ensures b.Valid() && LOOP in b.loops && c == b.loops[LOOP] && c.stack == old(c.stack) && |c.stack| == 1 && SEVEN !in c.stack[0].def
  {
    hide Builder.Sound, Builder.Linked, Shapely, Without, GRAPH, SHAPE, EDGES, HandsOn, Separate, AllParts, Stacks;
    SavedApart(b, EQZ, t);
    b.DeliveredAreStates(EQZ);
    var k :| 0 <= k < |b.dfsList| && b.dfsList[k] == Task(EQZ, [], END);
    ghost var was := b.Now(EQZ).(tasks := Without(b.dfsList, k));
    ghost var joined, sent := VisitOnly(b, k, EQZ, t);
    TestAltered(b, was, t, c.stack, joined, sent);
  }

  // ----- the whole run -----

  method OnToLoop(b: Builder, ghost start: ReachDefinition) returns (ghost t: ReachDefinition)
    requires Single(b, START, BEGIN, start)
    modifies b, b.states, b.defs
    ensures b.Grown() && AtLoop(b, t)
  {
    hide Single, Shared, SevenBelow, AtLoop, ReachDefinition.Snap;
    ghost var u;
    ghost var s := ToBranch(b, start);
    t, u := Part(b, s);
    Enter(b, t, u);
  }

  // From the start into the loop: one copy of its operand is saved, and
  // another goes on to the end of the block.
  method ToLoop(graph: Flowgraph, inside: Node -> set<Node>) returns (b: Builder, ghost t: ReachDefinition)
    requires graph == GRAPH
    ensures ValidCode.Validated(LoopBody.CODE, LoopBody.BODY) && ValidCode.NothingFails(LoopBody.CODE, LoopBody.BODY)
    ensures fresh(b) && fresh(b.states) && fresh(b.defs) && AtLoop(b, t)
    ensures LOOP in b.loops && Has(b.loops[LOOP].Snap(), StackSlot(0), SEVEN)
  {
    hide Single, AtLoop, GRAPH, SHAPE, ReachDefinition.Snap, ValidCode.Validated, ValidCode.NothingFails, Validated, LoopBody.CODE, LoopBody.BODY;
    GraphIsValid();
    ghost var s;
    b, s := StartHere(graph, inside);
    t := OnToLoop(b, s);
    SevenIsSaved(b, t);
  }

  lemma SevenIsSaved(b: Builder, t: ReachDefinition)
    requires AtLoop(b, t)
    ensures LOOP in b.loops && Has(b.loops[LOOP].Snap(), StackSlot(0), SEVEN)
  {
    hide Builder.Sound, Builder.Linked, Shapely, Known;
  }

  // From there on through the end of the block to the test behind it: the
  // saved state is the same, and has lost the constant.
  method FromLoop(b: Builder, ghost t: ReachDefinition)
    requires AtLoop(b, t)
    modifies b, b.states, b.defs
    ensures b.Valid() && LOOP in b.loops && b.loops[LOOP] == old(b.loops[LOOP])
    ensures old(Has(b.loops[LOOP].Snap(), StackSlot(0), SEVEN)) && !Has(b.loops[LOOP].Snap(), StackSlot(0), SEVEN)
  {
    hide Builder.Sound, Builder.Linked, Shapely, Known, AtTest, ReachDefinition.Snap;
    SevenIsSaved(b, t);
    ghost var c := b.loops[LOOP];
    ghost var u := LeaveBlock(b, t, c);
    Test(b, u, c);
    SevenIsLost(c);
  }

  lemma SevenIsLost(c: ReachDefinition)
    requires |c.stack| == 1 && SEVEN !in c.stack[0].def
    ensures !Has(c.Snap(), StackSlot(0), SEVEN)
  {
  }

  method KeptOperandShrinks(graph: Flowgraph, inside: Node -> set<Node>) returns (b: Builder)
    requires graph == GRAPH
    ensures b.Valid() && LOOP in b.loops && !Has(b.loops[LOOP].Snap(), StackSlot(0), SEVEN)
  {
    hide AtLoop, GRAPH, ReachDefinition.Snap;
    ghost var t;
    b, t := ToLoop(graph, inside);
    FromLoop(b, t);
  }
}
