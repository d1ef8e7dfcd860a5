// Validated functions: from lowering to the dependence builder.
module ValidCode {
  import opened Wrappers
  import opened Lowering
  import opened Machine
  import opened LoweringCorrect
  import opened StackSafety
  import opened StackRuns
  import opened LoopFree
  import D = DataFlow
  import Flowgraph
  import FlowLaws
  import Provenance
  import Growth
  import PdgBuilder
  import BuilderRuns
  import CallFlow
  import HeapFlow

  ghost predicate Validated(code: Code, body: ExprList) {
    && Wf(body, {}) && Valid(code, body, [], 0, code.results) && Function(code)
    && code.inst(Instructions).Start? && code.shape(Instructions) == Sh(code, 0, [])
  }

  // The edges at whose end the source asserts: they leave a list that ends in
  // a loop and needs operands, or the repair pass has drawn them from an
  // if/else below whose join there are fewer operands than the function
  // returns.
  ghost function Failing(code: Code, body: ExprList): set<Edge> {
    set g | g in Graph(body) && (g in NeedyList(code, body, [], ReturnNode, code.results) || (g in Repairs(body) && TooFew(code, g.src)))
  }

  ghost predicate TooFew(code: Code, n: Node) {
    D.HasRoom(code.shape(n), D.Pops(code.inst(n))) ==> !D.HasRoom(D.ShapeAfter(NodeAs(code, n), code.shape(n)), code.results)
  }

  // ----- nodes of the code -----

  ghost predicate InCode(body: ExprList, n: Node) {
    n == Instructions || Owns(Coded(body), n) || n == ReturnNode
  }

  // A node of the code whose shape is that of its place.
  ghost predicate OnCode(code: Code, body: ExprList, n: Node) {
    InCode(body, n) && Takes(code, n) && code.shape(n).globals == code.globals && code.shape(n).locals == code.locals
  }

  lemma StaysInCode(code: Code, body: ExprList, g: Edge)
    requires Validated(code, body) && InCode(body, g.src) && g in Graph(body) && !code.inst(g.src).Unreachable?
    ensures InCode(body, g.dst)
    ensures g !in Failing(code, body) && g in Unrepaired(body) ==> Arrives(code, g.src, g.dst)
  {
    assert FallsToReturn(code, ReturnNode, code.results);
    assert Bindings([]) == [];
    NoWayOut(body);
    NestedFrom(body, [], ReturnNode);
    if g in Repairs(body) && g !in Unrepaired(body) {
    } else if g == Edge(Instructions, Next, Entry(body, ReturnNode)) {
      EntryComes(code, body, [], 0, code.results, ReturnNode);
      LeafArrives(code, Instructions, [], 0, g.dst);
    } else if g in Edges(body, []) {
      EdgesGood(code, body, [], 0, code.results, {}, g);
    } else {
      ExitGood(code, body, [], 0, code.results, ReturnNode, {}, g);
    }
  }

  // An edge that does not fail brings the shape of the next place.
  lemma StepOnCode(code: Code, body: ExprList, g: Edge)
    requires Validated(code, body) && OnCode(code, body, g.src) && g in Graph(body) && !code.inst(g.src).Unreachable?
    requires g !in Failing(code, body)
    ensures Arrives(code, g.src, g.dst) && OnCode(code, body, g.dst)
  {
    StaysInCode(code, body, g);
    if g !in Unrepaired(body) {
      RepairArrives(code, g.src);
    }
    ArrivesOnCode(code, g.src, g.dst);
  }

  lemma RepairArrives(code: Code, n: Node)
    requires Function(code) && Takes(code, n) && !TooFew(code, n)
    requires code.shape(n).globals == code.globals && code.shape(n).locals == code.locals
    ensures Arrives(code, n, ReturnNode)
  {
  }

  lemma ArrivesOnCode(code: Code, m: Node, n: Node)
    requires Arrives(code, m, n)
    ensures Takes(code, n) && code.shape(n).globals == code.shape(m).globals && code.shape(n).locals == code.shape(m).locals
  {
  }

  // The others fail.
  lemma FailsThere(code: Code, body: ExprList, g: Edge)
    requires Validated(code, body) && g in Failing(code, body) && OnCode(code, body, g.src)
    ensures Fails(code, g.src, g.dst)
  {
    if g in NeedyList(code, body, [], ReturnNode, code.results) {
      assert Bindings([]) == [];
      NeedyListFrom(code, body, [], ReturnNode, code.results);
      NeedyListFails(code, body, [], 0, ReturnNode, code.results, {}, g);
    }
  }

  // ----- the dependence builder's view -----

  function PartNumbered(k: nat): Part {
    match k
    case 0 => Inst
    case 1 => Begin
    case 2 => End
    case 3 => ThenBegin
    case 4 => ElseBegin
    case _ => LoopEnd
  }

  function PartNumber(p: Part): nat {
    match p
    case Inst => 0
    case Begin => 1
    case End => 2
    case ThenBegin => 3
    case ElseBegin => 4
    case LoopEnd => 5
  }

  function Number(n: Node): nat {
    match n
    case Instructions => 0
    case ReturnNode => 1
    case Trap => 2
    case At(id, p) => 3 + 6 * id + PartNumber(p)
  }

  function Numbered(k: nat): Node {
    if k == 0 then Instructions else if k == 1 then ReturnNode else if k == 2 then Trap else At((k - 3) / 6, PartNumbered((k - 3) % 6))
  }

  lemma NumberedBack(n: Node)
    ensures Numbered(Number(n)) == n
  {
    if n.At? {
      var k := 6 * n.id + PartNumber(n.part);
      assert k / 6 == n.id && k % 6 == PartNumber(n.part);
    }
  }

  function Seen(code: Code, n: Node): D.Node {
    D.Node(Number(n), code.inst(n))
  }

  function TagText(t: Tag): string {
    match t
    case Next => ""
    case True => "true"
    case False => "false"
    case Default => "default"
    case Case(i) => seq(i + 1, _ => '#')
  }

  function SeenEdge(code: Code, g: Edge): Flowgraph.CfgEdge {
    Flowgraph.CfgEdge(Seen(code, g.src), TagText(g.tag), Seen(code, g.dst))
  }

  ghost function SeenGraph(code: Code, body: ExprList): Flowgraph.Flowgraph {
    Flowgraph.Flowgraph(set g | g in Graph(body) :: SeenEdge(code, g), Seen(code, Instructions))
  }

  ghost function SeenProgram(code: Code, body: ExprList): CallFlow.Program {
    CallFlow.Program(SeenGraph(code, body), code.globals, code.locals, code.results)
  }

  function ShapeAt(code: Code): D.Node -> D.Shape {
    (d: D.Node) => code.shape(Numbered(d.id))
  }

  // A node that control comes to.
  lemma {:induction false} LiveIsInCode(code: Code, body: ExprList, p: seq<D.Node>) returns (n: Node)
    requires Validated(code, body) && SeenGraph(code, body).IsPath(p)
    ensures p[|p| - 1] == Seen(code, n) && InCode(body, n) && (|p| > 1 ==> HasIn(Graph(body), n))
    decreases |p|
  {
    if |p| == 1 {
      n := Instructions;
    } else {
      var m := LiveIsInCode(code, body, p[..|p| - 1]);
      var g := LastEdge(code, body, p, m);
      StaysInCode(code, body, g);
      n := g.dst;
    }
  }

  lemma LastEdge(code: Code, body: ExprList, p: seq<D.Node>, m: Node) returns (g: Edge)
    requires SeenGraph(code, body).IsPath(p) && |p| > 1 && p[|p| - 2] == Seen(code, m)
    ensures g in Graph(body) && g.src == m && Seen(code, g.dst) == p[|p| - 1] && !code.inst(m).Unreachable?
  {
    assert SeenGraph(code, body).Flow(p[|p| - 2], p[|p| - 2 + 1]);
    g := OutEdge(code, body, m, p[|p| - 1]);
  }

  lemma OutEdge(code: Code, body: ExprList, m: Node, d: D.Node) returns (g: Edge)
    requires SeenGraph(code, body).Flow(Seen(code, m), d)
    ensures g in Graph(body) && g.src == m && Seen(code, g.dst) == d && !code.inst(m).Unreachable?
  {
    var e :| e in SeenGraph(code, body).cfg && e.src == Seen(code, m) && e.dst == d;
    g :| g in Graph(body) && SeenEdge(code, g) == e;
    NumberedBack(g.src);
    NumberedBack(m);
  }

  // What one path brings has the shape of the place it has come to, however
  // often it goes round a loop, and no assertion fails there.
  lemma {:induction false} AlongIsOfPlace(code: Code, body: ExprList, p: seq<D.Node>) returns (n: Node)
    requires Validated(code, body) && SeenGraph(code, body).IsPath(p) && SeenProgram(code, body).Along(p).Some?
    ensures p[|p| - 1] == Seen(code, n) && OnCode(code, body, n)
    ensures D.ShapeOf(SeenProgram(code, body).Along(p).value) == code.shape(n)
    decreases |p|
  {
    var program := SeenProgram(code, body);
    if |p| == 1 {
      n := Instructions;
      StartAccepts(code);
      StartShape(code, body);
    } else {
      var q := p[..|p| - 1];
      var m := AlongIsOfPlace(code, body, q);
      var g := LastEdge(code, body, p, m);
      n := g.dst;
      if g in Failing(code, body) {
        FailsThere(code, body, g);
        FailedStep(code, g.src, g.dst);
      } else {
        StepOnCode(code, body, g);
        TakenStep(code, body, g, program.Along(q).value);
      }
    }
  }

  lemma StartShape(code: Code, body: ExprList)
    requires Validated(code, body)
    ensures D.ShapeOf(SeenProgram(code, body).Initial()) == code.shape(Instructions)
  {
    var s := SeenProgram(code, body).Initial();
    assert s.globals.Keys == code.globals && s.locals.Keys == code.locals && Labels([]) == [];
  }

  lemma FailedStep(code: Code, m: Node, n: Node)
    requires Fails(code, m, n)
    ensures !FlowLaws.Passes(Seen(code, m), Seen(code, n), code.shape(m), code.results)
  {
    SameAccepts(Seen(code, m), NodeAs(code, m), code.shape(m), code.results);
    SameAccepts(Seen(code, n), NodeAs(code, n), D.ShapeAfter(NodeAs(code, m), code.shape(m)), code.results);
  }

  lemma TakenStep(code: Code, body: ExprList, g: Edge, s: D.State)
    requires Arrives(code, g.src, g.dst) && Takes(code, g.src) && D.ShapeOf(s) == code.shape(g.src)
    ensures FlowLaws.Passes(Seen(code, g.src), Seen(code, g.dst), D.ShapeOf(s), code.results)
    ensures D.ShapeOf(FlowLaws.Cross(Seen(code, g.src), Seen(code, g.dst), s, code.results)) == code.shape(g.dst)
  {
    SameAccepts(Seen(code, g.src), NodeAs(code, g.src), code.shape(g.src), code.results);
    SameAccepts(Seen(code, g.dst), NodeAs(code, g.dst), D.ShapeAfter(NodeAs(code, g.src), code.shape(g.src)), code.results);
    FlowLaws.VisitShape(Seen(code, g.src), s, code.results);
  }

  lemma SameAccepts(d: D.Node, n: D.Node, sh: D.Shape, results: nat)
    requires d.inst == n.inst
    ensures D.Accepts(d, sh, results) == D.Accepts(n, sh, results)
    ensures D.HasRoom(sh, D.Pops(d.inst)) ==> D.ShapeAfter(d, sh) == D.ShapeAfter(n, sh)
    ensures D.ShapeOnArrival(d, sh, results) == D.ShapeOnArrival(n, sh, results)
  {
  }

  lemma StartAccepts(code: Code)
    requires code.inst(Instructions).Start? && code.shape(Instructions) == Sh(code, 0, [])
    ensures Takes(code, Instructions)
  {
  }

  // ----- exactly when the assertions hold -----

  // No edge that control can take is one that fails.
  ghost predicate NothingFails(code: Code, body: ExprList) {
    forall g :: g in Graph(body) && SeenGraph(code, body).Live(Seen(code, g.src)) && !code.inst(g.src).Unreachable? ==> g !in Failing(code, body)
  }

  // Along no path an assertion fails.
  ghost predicate PathsSafe(code: Code, body: ExprList) {
    forall p :: SeenGraph(code, body).IsPath(p) ==> SeenProgram(code, body).Along(p).Some?
  }

  lemma SafeExactly(code: Code, body: ExprList)
    requires Validated(code, body)
    ensures PathsSafe(code, body) <==> NothingFails(code, body)
  {
    if PathsSafe(code, body) {
      forall g | g in Failing(code, body) && SeenGraph(code, body).Live(Seen(code, g.src)) && !code.inst(g.src).Unreachable?
        ensures false
      {
        var p :| SeenGraph(code, body).IsPath(p) && p[|p| - 1] == Seen(code, g.src);
        FailingEnds(code, body, p, g);
      }
    }
    if NothingFails(code, body) {
      forall p | SeenGraph(code, body).IsPath(p)
        ensures SeenProgram(code, body).Along(p).Some?
      {
        SafeAlong(code, body, p);
      }
    }
  }

  // A path fails where it takes such an edge.
  lemma FailingEnds(code: Code, body: ExprList, p: seq<D.Node>, g: Edge)
    requires Validated(code, body) && g in Failing(code, body) && !code.inst(g.src).Unreachable?
    requires SeenGraph(code, body).IsPath(p) && p[|p| - 1] == Seen(code, g.src)
    ensures SeenGraph(code, body).IsPath(p + [Seen(code, g.dst)]) && SeenProgram(code, body).Along(p + [Seen(code, g.dst)]).None?
  {
    var q := p + [Seen(code, g.dst)];
    assert q[..|q| - 1] == p;
    assert SeenEdge(code, g) in SeenGraph(code, body).cfg;
    if SeenProgram(code, body).Along(p).Some? {
      var n := AlongIsOfPlace(code, body, p);
      SameNode(code, n, g.src);
      FailsThere(code, body, g);
      FailedStep(code, g.src, g.dst);
    }
  }

  lemma SameNode(code: Code, m: Node, n: Node)
    requires Seen(code, m) == Seen(code, n)
    ensures m == n
  {
    NumberedBack(m);
    NumberedBack(n);
  }

  lemma {:induction false} SafeAlong(code: Code, body: ExprList, p: seq<D.Node>)
    requires Validated(code, body) && NothingFails(code, body) && SeenGraph(code, body).IsPath(p)
    ensures SeenProgram(code, body).Along(p).Some?
    decreases |p|
  {
    if |p| > 1 {
      var q := p[..|p| - 1];
      SafeAlong(code, body, q);
      var m := AlongIsOfPlace(code, body, q);
      var g := LastEdge(code, body, p, m);
      assert SeenGraph(code, body).Live(Seen(code, m)) by {
        assert SeenGraph(code, body).IsPath(q);
      }
      StepOnCode(code, body, g);
      TakenStep(code, body, g, SeenProgram(code, body).Along(q).value);
    }
  }

  // ----- runs of the dependence builder -----

  // Such code meets what the builder asserts, at every instruction and on
  // every edge that control can take, loops included.
  lemma ValidatedIsShaped(code: Code, body: ExprList)
    requires Validated(code, body) && NothingFails(code, body)
    ensures SeenProgram(code, body).Shaped(ShapeAt(code))
  {
    var program, shape := SeenProgram(code, body), ShapeAt(code);
    assert Labels([]) == [] && Numbered(0) == Instructions;
    forall d | program.graph.Live(d)
      ensures D.Accepts(d, shape(d), program.results)
    {
      var n := LivePlace(code, body, d);
      SameAccepts(d, NodeAs(code, n), shape(d), program.results);
    }
    forall e | e in program.graph.cfg && program.graph.Live(e.src) && !e.src.inst.Unreachable?
      ensures D.ShapeOnArrival(e.dst, D.ShapeAfter(e.src, shape(e.src)), program.results) == Some(shape(e.dst))
    {
      EdgeIsShaped(code, body, e);
    }
  }

  lemma LivePlace(code: Code, body: ExprList, d: D.Node) returns (n: Node)
    requires Validated(code, body) && NothingFails(code, body) && SeenGraph(code, body).Live(d)
    ensures d == Seen(code, n) && OnCode(code, body, n) && ShapeAt(code)(d) == code.shape(n)
  {
    var p :| SeenGraph(code, body).IsPath(p) && p[|p| - 1] == d;
    SafeAlong(code, body, p);
    n := AlongIsOfPlace(code, body, p);
    NumberedBack(n);
  }

  lemma EdgeIsShaped(code: Code, body: ExprList, e: Flowgraph.CfgEdge)
    requires Validated(code, body) && NothingFails(code, body)
    requires e in SeenGraph(code, body).cfg && SeenGraph(code, body).Live(e.src) && !e.src.inst.Unreachable?
    ensures D.HasRoom(ShapeAt(code)(e.src), D.Pops(e.src.inst))
    ensures D.ShapeOnArrival(e.dst, D.ShapeAfter(e.src, ShapeAt(code)(e.src)), code.results) == Some(ShapeAt(code)(e.dst))
  {
    var m := LivePlace(code, body, e.src);
    assert SeenGraph(code, body).Flow(Seen(code, m), e.dst);
    var g := OutEdge(code, body, m, e.dst);
    StepOnCode(code, body, g);
    NumberedBack(g.dst);
    SameAccepts(e.src, NodeAs(code, m), code.shape(m), code.results);
    SameAccepts(e.dst, NodeAs(code, g.dst), D.ShapeAfter(e.src, code.shape(m)), code.results);
  }

  // No label has the name of a loop but the loop's own.
  ghost predicate LoopsNamed(code: Code, body: ExprList) {
    forall m, n :: HasIn(Graph(body), m) && HasIn(Graph(body), n) && code.inst(m).LoopHead? && SameLabel(code.inst(m), code.inst(n)) ==> m == n
  }

  predicate SameLabel(i: D.Inst, j: D.Inst)
    requires i.LoopHead?
  {
    j == i || j == D.BeginBlock(i.name)
  }

  lemma OneWayOut(code: Code, body: ExprList)
    ensures SeenGraph(code, body).OutEdges(Seen(code, Instructions)) == {SeenEdge(code, Edge(Instructions, Next, Entry(body, ReturnNode)))}
  {
    var first := Edge(Instructions, Next, Entry(body, ReturnNode));
    NestedFrom(body, [], ReturnNode);
    TreeNodesOwned(body);
    forall e | e in SeenGraph(code, body).OutEdges(Seen(code, Instructions))
      ensures e == SeenEdge(code, first)
    {
      var g :| g in Graph(body) && SeenEdge(code, g) == e;
      SameNode(code, g.src, Instructions);
    }
    assert SeenEdge(code, first) in SeenGraph(code, body).cfg;
  }

  lemma LiveEntered(code: Code, body: ExprList, d: D.Node) returns (n: Node)
    requires Validated(code, body) && SeenGraph(code, body).Live(d) && !d.inst.Start?
    ensures d == Seen(code, n) && HasIn(Graph(body), n)
  {
    var p :| SeenGraph(code, body).IsPath(p) && p[|p| - 1] == d;
    n := LiveIsInCode(code, body, p);
  }

  // Control does not come back to the start.
  lemma NoWayBack(code: Code, body: ExprList, e: Flowgraph.CfgEdge)
    requires Validated(code, body) && NothingFails(code, body)
    requires e in SeenGraph(code, body).cfg && SeenGraph(code, body).Live(e.src) && !e.src.inst.Unreachable?
    ensures !e.dst.inst.Start?
  {
    var m := LivePlace(code, body, e.src);
    assert SeenGraph(code, body).Flow(Seen(code, m), e.dst);
    var g := OutEdge(code, body, m, e.dst);
    StepOnCode(code, body, g);
  }

  lemma ValidatedForBuilder(code: Code, body: ExprList)
    requires Validated(code, body) && NothingFails(code, body) && LoopsNamed(code, body)
    ensures BuilderRuns.Validated(SeenGraph(code, body), code.results, code.globals, code.locals, ShapeAt(code))
  {
    var graph := SeenGraph(code, body);
    ValidatedIsShaped(code, body);
    OneWayOut(code, body);
    forall e | e in graph.cfg && graph.Live(e.src) && !e.src.inst.Unreachable?
      ensures !e.dst.inst.Start?
    {
      NoWayBack(code, body, e);
    }
    forall m, n | graph.Live(m) && graph.Live(n) && m.inst.LoopHead? && (n.inst.LoopHead? || n.inst.BeginBlock?) && m.inst.name == n.inst.name
      ensures m == n
    {
      OnlyLoop(code, body, m, n);
    }
  }

  lemma OnlyLoop(code: Code, body: ExprList, m: D.Node, n: D.Node)
    requires Validated(code, body) && LoopsNamed(code, body) && SeenGraph(code, body).Live(m) && SeenGraph(code, body).Live(n)
    requires m.inst.LoopHead? && (n.inst.LoopHead? || n.inst.BeginBlock?) && m.inst.name == n.inst.name
    ensures m == n
  {
    var k := LiveEntered(code, body, m);
    var l := LiveEntered(code, body, n);
    assert SameLabel(code.inst(k), code.inst(l));
  }

  // The dependence builder on a validated function, loops included, stopped
  // after any number of tasks taken in any order: no assertion fails.
  method RunBuilder(graph: Flowgraph.Flowgraph, results: nat, inside: D.Node -> set<D.Node>, globals: set<string>, locals: set<string>,
                    fuel: nat, ghost code: Code, ghost body: ExprList)
    returns (ok: bool, b: PdgBuilder.Builder)
    requires Validated(code, body) && NothingFails(code, body) && LoopsNamed(code, body)
    requires graph == SeenGraph(code, body) && results == code.results && globals == code.globals && locals == code.locals
    ensures ok && b.graph == graph && b.Valid() && forall n :: n in b.changes ==> b.changes[n] <= Growth.Bound(ShapeAt(code)(n), graph.Origins())
  {
    ValidatedForBuilder(code, body);
    ok, b := BuilderRuns.GeneratePdg(graph, results, inside, globals, locals, fuel, ShapeAt(code));
  }

  // ----- functions without loops -----

  ghost function Ranks(body: ExprList): D.Node -> nat {
    (d: D.Node) => Place(body, Numbered(d.id))
  }

  // What validation says of the nodes of code without loops.
  lemma {:induction false} KindOf(code: Code, es: ExprList, ctx: seq<Frame>, h: nat, need: nat, labels: set<string>, n: Node)
    requires Valid(code, es, ctx, h, need) && NoLoops(es) && Wf(es, labels) && n in Made(es) && Owns(Coded(es), n)
    ensures !code.inst(n).LoopHead? && !code.inst(n).LoopEnd? && (code.inst(n).Unreachable? ==> n.part == Part.Inst && n.id in Traps(es))
    decreases es, 1
  {
    var e, rest := es.head, es.tail;
    MadeOfOwned(e);
    MadeOwned(rest);
    CodedOfIsOwned(e);
    CodedIsOwned(rest);
    if n in MadeOf(e) {
      KindIn(code, e, ctx, h, labels, n);
    } else {
      KindOf(code, rest, ctx, Then(code, e, h), need, labels, n);
    }
  }

  lemma {:induction false} KindIn(code: Code, e: Expr, ctx: seq<Frame>, h: nat, labels: set<string>, n: Node)
    requires ValidExpr(code, e, ctx, h) && NoLoopsIn(e) && WfExpr(e, labels) && n in MadeOf(e) && Owns(CodedOf(e), n)
    ensures !code.inst(n).LoopHead? && !code.inst(n).LoopEnd? && (code.inst(n).Unreachable? ==> n.part == Part.Inst && n.id in TrapsOf(e))
    decreases e, 1
  {
    match e
    case Block(id, name, body) =>
      MadeOwned(body);
      if n.id != id {
        KindOf(code, body, Inner(name, h, At(id, End), Results(code, id), false, ctx), h, Results(code, id), labels + {name}, n);
      }
    case If(id, name, thn, els) => KindInArm(code, e, ctx, h, labels, n);
    case _ =>
  }

  // The nodes of an if, and those of its arms.
  lemma ArmOf(e: Expr, labels: set<string>, n: Node)
    requires e.If? && WfExpr(e, labels) && n in MadeOf(e) && Owns(CodedOf(e), n) && n.id != e.id
    ensures (n in Made(e.thn) && Owns(Coded(e.thn), n)) || (n in Made(e.els) && Owns(Coded(e.els), n))
  {
    MadeOwned(e.thn);
    MadeOwned(e.els);
    CodedIsOwned(e.thn);
    CodedIsOwned(e.els);
  }

  lemma {:induction false} KindInArm(code: Code, e: Expr, ctx: seq<Frame>, h: nat, labels: set<string>, n: Node)
    requires e.If? && ValidExpr(code, e, ctx, h) && NoLoopsIn(e) && WfExpr(e, labels) && n in MadeOf(e) && Owns(CodedOf(e), n)
    ensures !code.inst(n).LoopHead? && !code.inst(n).LoopEnd? && (code.inst(n).Unreachable? ==> n.part == Part.Inst && n.id in TrapsOf(e))
    decreases e, 0
  {
    if n.id == e.id {
      MadeOwned(e.thn);
      MadeOwned(e.els);
    } else {
      ArmOf(e, labels, n);
      var inner := Inner(e.name, h - 1, At(e.id, End), Results(code, e.id), false, ctx);
      if n in Made(e.thn) && Owns(Coded(e.thn), n) {
        KindOf(code, e.thn, inner, h - 1, Results(code, e.id), labels + {e.name}, n);
      } else {
        KindOf(code, e.els, inner, h - 1, Results(code, e.id), labels + {e.name}, n);
      }
    }
  }

  // A place that control comes to along an edge.
  lemma LiveTarget(code: Code, body: ExprList, g: Edge)
    requires Validated(code, body) && NothingFails(code, body) && NoLoops(body)
    requires g in Graph(body) && SeenGraph(code, body).Live(Seen(code, g.dst))
    ensures !code.inst(g.dst).LoopHead? && !code.inst(g.dst).LoopEnd?
    ensures code.inst(g.dst).Unreachable? ==> g.dst.At? && g.dst.part == Part.Inst && g.dst.id in Traps(body)
  {
    GraphForward(body);
    var n := LivePlace(code, body, Seen(code, g.dst));
    SameNode(code, n, g.dst);
    if n.At? {
      KindOf(code, body, [], 0, code.results, {}, n);
    }
  }

  lemma NoLoopsIsOrderly(code: Code, body: ExprList)
    requires Validated(code, body) && NothingFails(code, body) && NoLoops(body)
    ensures SeenGraph(code, body).Orderly(Ranks(body))
  {
    var graph, rank := SeenGraph(code, body), Ranks(body);
    GraphForward(body);
    forall e | e in graph.cfg && graph.Live(e.dst)
      ensures rank(e.src) < rank(e.dst) && !e.dst.inst.Start? && !e.dst.inst.LoopHead? && !e.dst.inst.LoopEnd?
    {
      var g :| g in Graph(body) && SeenEdge(code, g) == e;
      NumberedBack(g.src);
      NumberedBack(g.dst);
      LiveTarget(code, body, g);
      NotStart(code, body, g);
    }
    forall e, f | e in graph.cfg && f in graph.cfg && e.dst == f.dst && graph.Live(e.dst) && e.dst.inst.Unreachable?
      ensures e == f
    {
      var g :| g in Graph(body) && SeenEdge(code, g) == e;
      var k :| k in Graph(body) && SeenEdge(code, k) == f;
      SameNode(code, g.dst, k.dst);
      LiveTarget(code, body, g);
      OneWayOnly(body, g.dst.id);
    }
  }

  lemma NotStart(code: Code, body: ExprList, g: Edge)
    requires Validated(code, body) && NothingFails(code, body) && NoLoops(body)
    requires g in Graph(body) && SeenGraph(code, body).Live(Seen(code, g.dst))
    ensures !code.inst(g.dst).Start?
  {
    var graph, d := SeenGraph(code, body), Seen(code, g.dst);
    if d != graph.entry {
      graph.LiveHasFlow(d);
      var e :| e in graph.InEdges(d) && graph.Live(e.src) && !e.src.inst.Unreachable?;
      NoWayBack(code, body, e);
    } else {
      GraphForward(body);
      SameNode(code, g.dst, Instructions);
    }
  }

  // The dependence graph of a validated function without loops. What some
  // path feeds into an operand has its edge, wherever operands are shared.
  method GeneratePdg(p: CallFlow.Program, inside: D.Node -> set<D.Node>, ghost code: Code, ghost body: ExprList)
    returns (ok: bool, b: PdgBuilder.Builder)
    requires Validated(code, body) && NothingFails(code, body) && NoLoops(body) && p == SeenProgram(code, body)
    ensures ok && b.dfsList == [] && HeapFlow.OnceEach(p.graph, b.passed)
    ensures Provenance.NoTwins(b.edges) && forall e :: e in b.edges ==> Provenance.Explained(b.edges, e)
    ensures HeapFlow.CallsKept(p, ShapeAt(code), set e | e in b.edges)
    ensures HeapFlow.SplitsEmpty(p, ShapeAt(code)) ==> HeapFlow.CallsRight(p, ShapeAt(code), set e | e in b.edges)
  {
    ValidatedIsShaped(code, body);
    NoLoopsIsOrderly(code, body);
    OneWayOut(code, body);
    ok, b := HeapFlow.GeneratePdg(p, inside, ShapeAt(code), Ranks(body));
  }

  // ----- a block that leaves a value below a loop -----

  // block $b (result i32)  i32.const 7  loop $l  nop  end  end
  const SMALL_LOOP := Loop(2, "l", Cons(Plain(3), Nil))
  const SMALL_LIST := Cons(Plain(1), Cons(SMALL_LOOP, Nil))
  const SMALL_BODY := Cons(Block(0, "b", SMALL_LIST), Nil)

  function SmallInst(n: Node): D.Inst {
    match n
    case Instructions => D.Start
    case At(0, Begin) => D.BeginBlock("b")
    case At(0, End) => D.BlockEnd("b", 1)
    case At(1, Inst) => D.Const("7")
    case At(2, Inst) => D.LoopHead("l")
    case At(2, LoopEnd) => D.LoopEnd("l", 0)
    case At(3, Inst) => D.Nop
    case _ => D.Return
  }

  function SmallShape(n: Node): D.Shape {
    var b, l := D.Label("b", 0), D.Label("l", 1);
    match n
    case Instructions => D.Shape({}, {}, 0, [])
    case At(0, Begin) => D.Shape({}, {}, 0, [])
    case At(0, End) => D.Shape({}, {}, 1, [])
    case At(1, Inst) => D.Shape({}, {}, 0, [b])
    case At(2, Inst) => D.Shape({}, {}, 1, [l, b])
    case At(2, LoopEnd) => D.Shape({}, {}, 1, [b])
    case At(3, Inst) => D.Shape({}, {}, 1, [l, b])
    case _ => D.Shape({}, {}, 1, [])
  }

  const SMALL_CODE := Code(SmallInst, SmallShape, {}, {}, 1)

  lemma SmallIsWf()
    ensures Wf(SMALL_BODY, {})
  {
    var inner, tail := Cons(Plain(3), Nil), Cons(SMALL_LOOP, Nil);
    assert Ids(inner) == {3} && IdsOf(SMALL_LOOP) == {2, 3} && Ids(tail) == {2, 3} && Ids(SMALL_LIST) == {1, 2, 3};
    assert WfExpr(Plain(3), {"b"} + {"l"}) && Wf(inner, {"b"} + {"l"});
    assert WfExpr(SMALL_LOOP, {"b"}) && Wf(tail, {"b"}) && WfExpr(Plain(1), {"b"}) && Wf(SMALL_LIST, {"b"});
    assert {} + {"b"} == {"b"};
    assert WfExpr(Block(0, "b", SMALL_LIST), {});
  }

  // The labels in the block and in the loop.
  const IN_BLOCK: seq<Frame> := [Frame("b", 0, At(0, End), 1, false)]
  const IN_LOOP: seq<Frame> := [Frame("l", 1, At(2, Part.Inst), 0, true)] + IN_BLOCK

  lemma SmallLabels()
    ensures Labels([]) == [] && Labels(IN_BLOCK) == [D.Label("b", 0)] && Labels(IN_LOOP) == [D.Label("l", 1), D.Label("b", 0)]
    ensures Base(IN_BLOCK) == 0 && Base(IN_LOOP) == 1 && Inner("b", 0, At(0, End), 1, false, []) == IN_BLOCK
    ensures Fresh(IN_BLOCK, "l")
  {
    assert IN_LOOP[1..] == IN_BLOCK && IN_BLOCK[1..] == [];
  }

  lemma SmallLoopIsValid()
    ensures Valid(SMALL_CODE, Cons(SMALL_LOOP, Nil), IN_BLOCK, 1, 1)
  {
    SmallLabels();
    var inner := Cons(Plain(3), Nil);
    assert ValidExpr(SMALL_CODE, Plain(3), IN_LOOP, 1) && Valid(SMALL_CODE, Nil, IN_LOOP, 1, 0) && Valid(SMALL_CODE, inner, IN_LOOP, 1, 0);
    assert ValidExpr(SMALL_CODE, SMALL_LOOP, IN_BLOCK, 1) && Valid(SMALL_CODE, Nil, IN_BLOCK, 1, 1);
  }

  lemma SmallListIsValid()
    ensures Valid(SMALL_CODE, SMALL_LIST, IN_BLOCK, 0, 1)
  {
    SmallLabels();
    SmallLoopIsValid();
    assert ValidExpr(SMALL_CODE, Plain(1), IN_BLOCK, 0) && Then(SMALL_CODE, Plain(1), 0) == 1;
  }

  lemma SmallBodyIsValid()
    ensures Valid(SMALL_CODE, SMALL_BODY, [], 0, 1)
  {
    SmallLabels();
    SmallListIsValid();
    hide SMALL_LIST;
    assert Results(SMALL_CODE, 0) == 1 && ValidExpr(SMALL_CODE, Block(0, "b", SMALL_LIST), [], 0);
    assert Valid(SMALL_CODE, Nil, [], 1, 1);
  }

  lemma SmallIsValid()
    ensures Validated(SMALL_CODE, SMALL_BODY)
  {
    hide SMALL_BODY, Valid;
    SmallIsWf();
    SmallLabels();
    SmallBodyIsValid();
  }

  // The edge from the loop's body leads to the block's end and fails there.
  const SMALL_EDGE := Edge(At(3, Part.Inst), Next, At(0, End))

  const BLOCKS: seq<Binding> := [Binding("b", At(0, End))]

  lemma SmallExit()
    ensures Exit(SMALL_LIST, At(0, End)) == {SMALL_EDGE} && !Cut(SMALL_LIST, BLOCKS)
  {
    var tail := Cons(SMALL_LOOP, Nil);
    assert Exit(SMALL_LIST, At(0, End)) == Exit(tail, At(0, End)) == ExitOf(SMALL_LOOP, At(0, End));
    assert Exit(Cons(Plain(3), Nil), At(0, End)) == ExitOf(Plain(3), At(0, End));
    assert Ends(Plain(1), BLOCKS).Go? && Ends(SMALL_LOOP, BLOCKS).Go? && !Cut(tail, BLOCKS);
  }

  lemma SmallListEdges()
    ensures Edge(At(1, Part.Inst), Next, At(2, Part.Inst)) in Edges(SMALL_LIST, BLOCKS)
    ensures Edge(At(2, Part.Inst), Next, At(3, Part.Inst)) in Edges(SMALL_LIST, BLOCKS)
  {
    var tail := Cons(SMALL_LOOP, Nil);
    assert Edge(At(2, Part.Inst), Next, At(3, Part.Inst)) in Inside(SMALL_LOOP, BLOCKS) && Inside(SMALL_LOOP, BLOCKS) <= Edges(tail, BLOCKS);
    assert Edge(At(1, Part.Inst), Next, At(2, Part.Inst)) in Link(Plain(1), BLOCKS, tail);
    assert Edges(SMALL_LIST, BLOCKS) == Inside(Plain(1), BLOCKS) + Link(Plain(1), BLOCKS, tail) + Edges(tail, BLOCKS);
  }

  lemma SmallBlockEdges()
    ensures var es := Inside(Block(0, "b", SMALL_LIST), []);
            && Edge(At(0, Begin), Next, At(1, Part.Inst)) in es && SMALL_EDGE in es
            && Edge(At(1, Part.Inst), Next, At(2, Part.Inst)) in es && Edge(At(2, Part.Inst), Next, At(3, Part.Inst)) in es
  {
    SmallExit();
    SmallListEdges();
    assert BLOCKS == BLOCKS + [] && Nested(SMALL_LIST, BLOCKS, At(0, End)) == Edges(SMALL_LIST, BLOCKS) + {SMALL_EDGE};
    assert Inside(Block(0, "b", SMALL_LIST), []) == {Edge(At(0, Begin), Next, Entry(SMALL_LIST, At(0, End)))} + Nested(SMALL_LIST, BLOCKS, At(0, End));
  }

  lemma SmallEdges()
    ensures var es := Graph(SMALL_BODY);
            && Edge(Instructions, Next, At(0, Begin)) in es && Edge(At(0, Begin), Next, At(1, Part.Inst)) in es && SMALL_EDGE in es
            && Edge(At(1, Part.Inst), Next, At(2, Part.Inst)) in es && Edge(At(2, Part.Inst), Next, At(3, Part.Inst)) in es
  {
    SmallBlockEdges();
    assert Inside(Block(0, "b", SMALL_LIST), []) <= Edges(SMALL_BODY, []) <= Unrepaired(SMALL_BODY);
  }

  lemma SmallIsNeedy()
    ensures SMALL_EDGE in NeedyList(SMALL_CODE, SMALL_BODY, [], ReturnNode, 1)
  {
    SmallExit();
    var block := Block(0, "b", SMALL_LIST);
    assert EndsInLoop(Cons(SMALL_LOOP, Nil)) && EndsInLoop(SMALL_LIST) && Results(SMALL_CODE, 0) == 1;
    assert BLOCKS == BLOCKS + [] && SMALL_EDGE in NeedyList(SMALL_CODE, SMALL_LIST, BLOCKS, At(0, End), 1);
    assert NeedyIn(SMALL_CODE, block, []) == NeedyList(SMALL_CODE, SMALL_LIST, BLOCKS, At(0, End), 1);
    assert NeedyIn(SMALL_CODE, block, []) <= Needy(SMALL_CODE, SMALL_BODY, []);
  }

  // Valid WebAssembly can do that: there is a path on which the assertion at
  // the block's end fails.
  lemma ValueBelowLastLoop() returns (p: seq<D.Node>)
    ensures Validated(SMALL_CODE, SMALL_BODY) && SMALL_EDGE in Failing(SMALL_CODE, SMALL_BODY)
    ensures SeenGraph(SMALL_CODE, SMALL_BODY).IsPath(p) && p[|p| - 1] == Seen(SMALL_CODE, At(0, End))
    ensures SeenProgram(SMALL_CODE, SMALL_BODY).Along(p).None?
  {
    SmallIsValid();
    SmallEdges();
    SmallIsNeedy();
    var code, g := SMALL_CODE, SeenGraph(SMALL_CODE, SMALL_BODY);
    var q := [Seen(code, Instructions), Seen(code, At(0, Begin)), Seen(code, At(1, Part.Inst)), Seen(code, At(2, Part.Inst)), Seen(code, At(3, Part.Inst))];
    assert g.Flow(q[0], q[0 + 1]) by { assert SeenEdge(code, Edge(Instructions, Next, At(0, Begin))) in g.cfg; }
    assert g.Flow(q[1], q[1 + 1]) by { assert SeenEdge(code, Edge(At(0, Begin), Next, At(1, Part.Inst))) in g.cfg; }
    assert g.Flow(q[2], q[2 + 1]) by { assert SeenEdge(code, Edge(At(1, Part.Inst), Next, At(2, Part.Inst))) in g.cfg; }
    assert g.Flow(q[3], q[3 + 1]) by { assert SeenEdge(code, Edge(At(2, Part.Inst), Next, At(3, Part.Inst))) in g.cfg; }
    assert g.IsPath(q);
    FailingEnds(code, SMALL_BODY, q, SMALL_EDGE);
    p := q + [Seen(code, At(0, End))];
  }
}
