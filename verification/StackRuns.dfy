// Every edge that validated code is left by arrives with the shape of its
// place.
module StackRuns {
  import opened Wrappers
  import opened Lowering
  import opened Machine
  import opened LoweringCorrect
  import opened StackSafety
  import D = DataFlow

  // The instructions that validation looks at.
  ghost function Coded(es: ExprList): set<nat> {
    match es
    case Nil => {}
    case Cons(e, rest) => CodedOf(e) + if Stops(e) then {} else Coded(rest)
  }

  ghost function CodedOf(e: Expr): set<nat> {
    match e
    case Return => {}
    case Block(id, _, body) => {id} + Coded(body)
    case Loop(id, _, body) => {id} + Coded(body)
    case If(id, _, thn, els) => {id} + Coded(thn) + Coded(els)
    case _ => {e.id}
  }

  lemma {:induction false} CodedIsOwned(es: ExprList)
    ensures Coded(es) <= Ids(es)
  {
    if es.Cons? {
      CodedOfIsOwned(es.head);
      CodedIsOwned(es.tail);
    }
  }

  lemma {:induction false} CodedOfIsOwned(e: Expr)
    ensures CodedOf(e) <= IdsOf(e)
  {
    match e
    case Block(_, _, body) => CodedIsOwned(body);
    case Loop(_, _, body) => CodedIsOwned(body);
    case If(_, _, thn, els) => CodedIsOwned(thn); CodedIsOwned(els);
    case _ =>
  }

  // The node is one of these instructions, or a place that control leaves
  // the code for.
  ghost predicate Lands(ids: set<nat>, ctx: seq<Frame>, n: Node) {
    Owns(ids, n) || IsTarget(ctx, n) || n == ReturnNode
  }

  // A loop that is last in its list is left without passing its end marker,
  // so its label is still there when the operands of the list are counted:
  // nothing lies above it. These are the edges that leave such a list where
  // it needs operands.
  ghost function Needy(code: Code, es: ExprList, blocks: seq<Binding>): set<Edge>
    decreases es, 1
  {
    match es
    case Nil => {}
    case Cons(e, rest) => NeedyIn(code, e, blocks) + Needy(code, rest, blocks)
  }

  ghost function NeedyIn(code: Code, e: Expr, blocks: seq<Binding>): set<Edge>
    decreases e, 0
  {
    match e
    case Block(id, name, body) => NeedyList(code, body, [Binding(name, At(id, End))] + blocks, At(id, End), Results(code, id))
    case Loop(id, name, body) => Needy(code, body, [Binding(name, At(id, Part.Inst))] + blocks)
    case If(id, name, thn, els) =>
      var inner := [Binding(name, At(id, End))] + blocks;
      NeedyList(code, thn, inner, At(id, End), Results(code, id)) + NeedyList(code, els, inner, At(id, End), Results(code, id))
    case _ => {}
  }

  ghost function NeedyList(code: Code, es: ExprList, blocks: seq<Binding>, after: Node, need: nat): set<Edge>
    decreases es, 2
  {
    Needy(code, es, blocks) + if need > 0 && EndsInLoop(es) then Exit(es, after) else {}
  }

  predicate EndsInLoop(es: ExprList) {
    es.Cons? && if es.tail.Nil? then es.head.Loop? else EndsInLoop(es.tail)
  }

  // An edge from validated code stays there, and arrives unless it is one of
  // these.
  ghost predicate Good(code: Code, g: Edge, ids: set<nat>, ctx: seq<Frame>, needy: set<Edge>) {
    Lands(ids, ctx, g.dst) && (g !in needy ==> Arrives(code, g.src, g.dst))
  }

  ghost predicate Function(code: Code) {
    code.inst(ReturnNode).Return? && code.shape(ReturnNode) == Sh(code, code.results, []) && code.results <= 1
  }

  // The first instruction of a list is arrived at.
  lemma EntryComes(code: Code, es: ExprList, ctx: seq<Frame>, h: nat, need: nat, after: Node)
    requires Valid(code, es, ctx, h, need) && WfFrames(code, ctx) && Function(code)
    requires es.Nil? ==> Falls(code, ctx, after, need)
    ensures Comes(code, Sh(code, h, ctx), Entry(es, after))
    ensures es.Cons? ==> Owns(CodedOf(es.head), Entry(es, after)) || Entry(es, after) == ReturnNode
  {
    if es.Nil? {
      FallsComes(code, ctx, after, need);
    } else {
      HeadComesIn(code, es.head, ctx, h);
    }
  }

  lemma HeadComesIn(code: Code, e: Expr, ctx: seq<Frame>, h: nat)
    requires ValidExpr(code, e, ctx, h) && h >= Base(ctx) && WfFrames(code, ctx) && Function(code)
    ensures Comes(code, Sh(code, h, ctx), NodeOf(e)) && (Owns(CodedOf(e), NodeOf(e)) || NodeOf(e) == ReturnNode)
  {
    match e
    case Return => ReturnComes(code, h, ctx);
    case Loop(id, name, body) => LoopComesIn(code, e, ctx, h);
    case _ =>
  }

  lemma LoopComesIn(code: Code, e: Expr, ctx: seq<Frame>, h: nat)
    requires e.Loop? && ValidExpr(code, e, ctx, h)
    ensures Comes(code, Sh(code, h, ctx), NodeOf(e))
  {
    NoLabel(ctx, e.name);
    OneLabel(Frame(e.name, h, At(e.id, Part.Inst), 0, true), ctx);
    MarkerTakes(code, NodeOf(e), h, Inner(e.name, h, At(e.id, Part.Inst), 0, true, ctx));
    FirstTime(NodeAs(code, NodeOf(e)), e.name, Sh(code, h, ctx), code.results);
  }

  lemma FirstTime(n: D.Node, name: string, sh: D.Shape, results: nat)
    requires n.inst == D.LoopHead(name) && !D.HasLabel(name, sh.labels)
    ensures D.ShapeOnArrival(n, sh, results) == Some(sh.(labels := [D.Label(name, sh.height)] + sh.labels))
  {
  }

  lemma {:induction false} NoLabel(ctx: seq<Frame>, name: string)
    requires Fresh(ctx, name)
    ensures !D.HasLabel(name, Labels(ctx))
  {
    if ctx != [] {
      NoLabel(ctx[1..], name);
      assert ctx[0].name != name;
      assert Labels(ctx)[1..] == Labels(ctx[1..]);
      forall l | l in Labels(ctx)
        ensures l.name != name
      {
        assert l == Labels(ctx)[0] || l in Labels(ctx)[1..];
      }
    }
  }

  // ----- leaving a list at its end -----

  lemma {:induction false} ExitGood(code: Code, es: ExprList, ctx: seq<Frame>, h: nat, need: nat, after: Node, labels: set<string>, g: Edge)
    requires Valid(code, es, ctx, h, need) && WfFrames(code, ctx) && Falls(code, ctx, after, need) && Wf(es, labels)
    requires g in Exit(es, after) && Owns(Coded(es), g.src)
    ensures g.dst == after && (need == 0 || !EndsInLoop(es) ==> Arrives(code, g.src, g.dst))
    decreases es, 0
  {
    if es.tail.Nil? {
      LastGood(code, es, ctx, h, need, after, labels, g);
    } else {
      ExitFrom(es.tail, after);
      CodedOfIsOwned(es.head);
      CodedIsOwned(es.tail);
      ExitGood(code, es.tail, ctx, Then(code, es.head, h), need, after, labels, g);
    }
  }

  lemma {:induction false} ExitTo(es: ExprList, after: Node, g: Edge)
    requires g in Exit(es, after)
    ensures g.dst == after
  {
    if es.tail.Nil? {
      if es.head.Loop? {
        ExitTo(es.head.body, after, g);
      }
    } else {
      ExitTo(es.tail, after, g);
    }
  }

  lemma EndComes(code: Code, ctx: seq<Frame>, h: nat, need: nat, after: Node)
    requires WfFrames(code, ctx) && Falls(code, ctx, after, need) && h == Base(ctx) + need
    ensures Comes(code, Sh(code, h, ctx), after)
  {
    FallsComes(code, ctx, after, need);
  }

  lemma {:induction false} LastGood(code: Code, es: ExprList, ctx: seq<Frame>, h: nat, need: nat, after: Node, labels: set<string>, g: Edge)
    requires es.Cons? && es.tail.Nil? && Valid(code, es, ctx, h, need) && WfFrames(code, ctx) && Falls(code, ctx, after, need)
    requires Wf(es, labels) && g in Exit(es, after) && Owns(Coded(es), g.src)
    ensures g.dst == after && (need == 0 || !es.head.Loop? ==> Arrives(code, g.src, g.dst))
    decreases es.head, 1
  {
    var e := es.head;
    assert WfExpr(e, labels) && Coded(es) == CodedOf(e);
    if !Stops(e) {
      assert Valid(code, Nil, ctx, Then(code, e, h), need);
      assert Then(code, e, h) == Base(ctx) + need;
      EndComes(code, ctx, Then(code, e, h), need, after);
      ExitTo(es, after, g);
      if need == 0 || !e.Loop? {
        ExitOfGood(code, e, ctx, h, need, after, labels, g);
      }
    }
  }

  lemma {:induction false} ExitOfGood(code: Code, e: Expr, ctx: seq<Frame>, h: nat, need: nat, after: Node, labels: set<string>, g: Edge)
    requires ValidExpr(code, e, ctx, h) && h >= Base(ctx) && !Stops(e) && WfFrames(code, ctx) && WfExpr(e, labels)
    requires Comes(code, Sh(code, Then(code, e, h), ctx), after) && (e.Loop? ==> Falls(code, ctx, after, 0))
    requires g in ExitOf(e, after) && Owns(CodedOf(e), g.src)
    ensures Arrives(code, g.src, g.dst) && g.dst == after
    decreases e, 0
  {
    if e.Loop? {
      FallsFurther(code, FrameOf(code, e, h), ctx, after, 0);
      LoopExitGood(code, e, ctx, h, after, labels, g);
    } else {
      LeafExits(code, e, ctx, h, after);
    }
  }

  lemma {:induction false} LoopExitGood(code: Code, e: Expr, ctx: seq<Frame>, h: nat, after: Node, labels: set<string>, g: Edge)
    requires e.Loop? && ValidExpr(code, e, ctx, h) && h >= Base(ctx) && WfFrames(code, ctx) && WfExpr(e, labels)
    requires Falls(code, [FrameOf(code, e, h)] + ctx, after, 0) && g in Exit(e.body, after) && Owns(CodedOf(e), g.src)
    ensures Arrives(code, g.src, g.dst) && g.dst == after
    decreases e.body, 1
  {
    LoopFrame(code, e, ctx, h);
    ExitFrom(e.body, after);
    ExitGood(code, e.body, [FrameOf(code, e, h)] + ctx, h, 0, after, labels + {e.name}, g);
  }

  // The label that an instruction puts up.
  function FrameOf(code: Code, e: Expr, h: nat): Frame
    requires e.Block? || e.Loop? || e.If?
  {
    match e
    case Loop(id, name, _) => Frame(name, h, At(id, Part.Inst), 0, true)
    case Block(id, name, _) => Frame(name, h, At(id, End), Results(code, id), false)
    case If(id, name, _, _) => Frame(name, if h > 0 then h - 1 else 0, At(id, End), Results(code, id), false)
    case _ => Frame("", 0, ReturnNode, 0, false)
  }

  lemma LoopFrame(code: Code, e: Expr, ctx: seq<Frame>, h: nat)
    requires e.Loop? && ValidExpr(code, e, ctx, h) && h >= Base(ctx) && WfFrames(code, ctx)
    ensures WfFrames(code, [FrameOf(code, e, h)] + ctx) && Valid(code, e.body, [FrameOf(code, e, h)] + ctx, h, 0)
  {
    WfInner(code, FrameOf(code, e, h), ctx);
  }

  // The node that control leaves an instruction from when it goes on.
  function Last(e: Expr): Node
    requires !Stops(e) && !e.Loop?
  {
    match e
    case Block(id, _, _) => At(id, End)
    case If(id, _, _, _) => At(id, End)
    case Plain(id) => At(id, Part.Inst)
    case BrIf(id, _) => At(id, Part.Inst)
    case _ => ReturnNode
  }

  lemma LeafExits(code: Code, e: Expr, ctx: seq<Frame>, h: nat, next: Node)
    requires ValidExpr(code, e, ctx, h) && h >= Base(ctx) && !Stops(e) && !e.Loop?
    requires Comes(code, Sh(code, Then(code, e, h), ctx), next)
    ensures Arrives(code, Last(e), next)
  {
    match e
    case Plain(id) => LeafArrives(code, At(id, Part.Inst), ctx, h, next);
    case BrIf(id, _) => LeafArrives(code, At(id, Part.Inst), ctx, h, next);
    case Block(id, _, _) => LeafArrives(code, At(id, End), ctx, Then(code, e, h), next);
    case If(id, _, _, _) => LeafArrives(code, At(id, End), ctx, Then(code, e, h), next);
  }

  lemma LeafArrives(code: Code, n: Node, ctx: seq<Frame>, h: nat, next: Node)
    requires Has(code, n, h, ctx, D.Pops(code.inst(n))) && !code.inst(n).BeginBlock?
    requires Comes(code, Sh(code, Left(h, code.inst(n)), ctx), next)
    ensures Arrives(code, n, next)
  {
    BaseIsLabel(code, h, ctx, D.Pops(code.inst(n)));
    assert D.ShapeAfter(NodeAs(code, n), code.shape(n)) == Sh(code, Left(h, code.inst(n)), ctx);
  }

  lemma WfInner(code: Code, f: Frame, ctx: seq<Frame>)
    requires WfFrame(code, f, ctx) && WfFrames(code, ctx)
    ensures WfFrames(code, [f] + ctx)
  {
    assert ([f] + ctx)[1..] == ctx;
  }

  // ----- all edges of a list -----

  lemma {:induction false} EdgesGood(code: Code, es: ExprList, ctx: seq<Frame>, h: nat, need: nat, labels: set<string>, g: Edge)
    requires Valid(code, es, ctx, h, need) && WfFrames(code, ctx) && Function(code) && Wf(es, labels)
    requires g in Edges(es, Bindings(ctx)) && Owns(Coded(es), g.src) && !code.inst(g.src).Unreachable?
    ensures Good(code, g, Coded(es), ctx, Needy(code, es, Bindings(ctx)))
    decreases es, 2
  {
    var e, rest := es.head, es.tail;
    assert WfExpr(e, labels);
    InsideFrom(e, Bindings(ctx));
    LinkFrom(e, Bindings(ctx), rest);
    EdgesFrom(rest, Bindings(ctx));
    CodedOfIsOwned(e);
    CodedIsOwned(rest);
    if g in Inside(e, Bindings(ctx)) {
      InsideGood(code, e, ctx, h, labels, g);
    } else if g in Link(e, Bindings(ctx), rest) {
      LinkGood(code, e, rest, ctx, h, need, labels, g);
    } else {
      EdgesGood(code, rest, ctx, Then(code, e, h), need, labels, g);
    }
  }

  // The edge to the next instruction.
  lemma LinkGood(code: Code, e: Expr, rest: ExprList, ctx: seq<Frame>, h: nat, need: nat, labels: set<string>, g: Edge)
    requires ValidExpr(code, e, ctx, h) && h >= Base(ctx) && WfFrames(code, ctx) && Function(code) && WfExpr(e, labels)
    requires !Stops(e) ==> Valid(code, rest, ctx, Then(code, e, h), need)
    requires g in Link(e, Bindings(ctx), rest) && Owns(CodedOf(e), g.src)
    ensures Arrives(code, g.src, g.dst) && (Owns(CodedOf(e), g.dst) || (!Stops(e) && Owns(Coded(rest), g.dst)) || g.dst == ReturnNode)
    decreases e, 1
  {
    if Stops(e) {
      assert false;
    }
    EntryComes(code, rest, ctx, Then(code, e, h), need, ReturnNode);
    if e.Loop? {
      LoopLinkGood(code, e, rest, ctx, h, labels, g);
    } else {
      LeafExits(code, e, ctx, h, NodeOf(rest.head));
    }
  }

  lemma LoopLinkGood(code: Code, e: Expr, rest: ExprList, ctx: seq<Frame>, h: nat, labels: set<string>, g: Edge)
    requires e.Loop? && ValidExpr(code, e, ctx, h) && h >= Base(ctx) && WfFrames(code, ctx) && WfExpr(e, labels)
    requires rest.Cons? && Comes(code, Sh(code, h, ctx), NodeOf(rest.head))
    requires g in Link(e, Bindings(ctx), rest) && Owns(CodedOf(e), g.src)
    ensures Arrives(code, g.src, g.dst) && (g.dst == At(e.id, LoopEnd) || g.dst == NodeOf(rest.head))
  {
    var last := At(e.id, LoopEnd);
    if g in Exit(e.body, last) {
      LoopEndFalls(code, e, ctx, h);
      LoopExitGood(code, e, ctx, h, last, labels, g);
    } else {
      LoopEndArrives(code, e, ctx, h, g.dst);
    }
  }

  lemma LoopEndArrives(code: Code, e: Expr, ctx: seq<Frame>, h: nat, next: Node)
    requires e.Loop? && ValidExpr(code, e, ctx, h) && h >= Base(ctx) && Comes(code, Sh(code, h, ctx), next)
    ensures Arrives(code, At(e.id, LoopEnd), next)
  {
    LeafArrives(code, At(e.id, LoopEnd), ctx, h, next);
  }

  lemma LoopEndFalls(code: Code, e: Expr, ctx: seq<Frame>, h: nat)
    requires e.Loop? && ValidExpr(code, e, ctx, h)
    ensures Falls(code, [FrameOf(code, e, h)] + ctx, At(e.id, LoopEnd), 0)
  {
    var inner := [FrameOf(code, e, h)] + ctx;
    assert inner[1..] == ctx;
    assert FallsTo(code, inner, 0, At(e.id, LoopEnd), 0);
  }

  // The edges inside an instruction.
  lemma {:induction false} InsideGood(code: Code, e: Expr, ctx: seq<Frame>, h: nat, labels: set<string>, g: Edge)
    requires ValidExpr(code, e, ctx, h) && h >= Base(ctx) && WfFrames(code, ctx) && Function(code) && WfExpr(e, labels)
    requires g in Inside(e, Bindings(ctx)) && Owns(CodedOf(e), g.src) && !code.inst(g.src).Unreachable?
    ensures Good(code, g, CodedOf(e), ctx, NeedyIn(code, e, Bindings(ctx)))
    decreases e, 0
  {
    match e
    case Br(id, target) => BranchGood(code, g.src, ctx, h, target, g.dst);
    case BrIf(id, target) => BranchGood(code, g.src, ctx, h, target, g.dst);
    case BrTable(id, targets, default) =>
      if g.tag == Default {
        BranchGood(code, g.src, ctx, h, default, g.dst);
      } else {
        var i: nat :| i < |targets| && g == Edge(At(id, Part.Inst), Case(i), Lookup(Bindings(ctx), targets[i]));
        assert targets[i] in targets;
        BranchGood(code, g.src, ctx, h, targets[i], g.dst);
      }
    case Block(id, name, body) => BlockGood(code, e, ctx, h, labels, g);
    case Loop(id, name, body) => LoopGood(code, e, ctx, h, labels, g);
    case If(id, name, thn, els) => IfGood(code, e, ctx, h, labels, g);
  }

  lemma BranchGood(code: Code, n: Node, ctx: seq<Frame>, h: nat, target: string, dst: Node)
    requires Has(code, n, h, ctx, D.Pops(code.inst(n))) && (code.inst(n).Br? || code.inst(n).BrIf? || code.inst(n).BrTable?)
    requires WfFrames(code, ctx) && CanBranch(ctx, target, h - D.Pops(code.inst(n))) && dst == Lookup(Bindings(ctx), target)
    ensures Arrives(code, n, dst) && IsTarget(ctx, dst)
  {
    assert Left(h, code.inst(n)) == h - D.Pops(code.inst(n));
    BranchComes(code, ctx, target, Left(h, code.inst(n)));
    LeafArrives(code, n, ctx, h, dst);
  }

  // What lands inside a block lands inside the instruction or outside it.
  lemma LandsOutside(ids: set<nat>, more: set<nat>, f: Frame, ctx: seq<Frame>, n: Node)
    requires Lands(ids, [f] + ctx, n) && ids <= more && Owns(more, f.target)
    ensures Lands(more, ctx, n)
  {
    if IsTarget([f] + ctx, n) && n != f.target {
      var i: nat :| i < |[f] + ctx| && ([f] + ctx)[i].target == n;
      assert ctx[i - 1].target == n;
    }
  }

  // A nested list with its exit.
  lemma {:induction false} NestedGood(code: Code, es: ExprList, f: Frame, ctx: seq<Frame>, labels: set<string>, more: set<nat>, g: Edge)
    requires Valid(code, es, [f] + ctx, f.pointer, f.need) && WfFrames(code, [f] + ctx) && Function(code) && Wf(es, labels)
    requires g in Nested(es, [Binding(f.name, f.target)] + Bindings(ctx), f.target)
    requires Owns(Coded(es), g.src) && !code.inst(g.src).Unreachable? && Coded(es) <= more && Owns(more, f.target)
    ensures Good(code, g, more, ctx, NeedyList(code, es, [Binding(f.name, f.target)] + Bindings(ctx), f.target, f.need))
    decreases es, 3
  {
    var inner := [f] + ctx;
    assert inner[1..] == ctx && Bindings(inner) == [Binding(f.name, f.target)] + Bindings(ctx);
    if g in Edges(es, Bindings(inner)) {
      EdgesGood(code, es, inner, f.pointer, f.need, labels, g);
      LandsOutside(Coded(es), more, f, ctx, g.dst);
    } else {
      assert FallsTo(code, inner, 0, f.target, f.need);
      ExitGood(code, es, inner, f.pointer, f.need, f.target, labels, g);
    }
  }

  lemma {:induction false} BlockGood(code: Code, e: Expr, ctx: seq<Frame>, h: nat, labels: set<string>, g: Edge)
    requires e.Block? && ValidExpr(code, e, ctx, h) && h >= Base(ctx) && WfFrames(code, ctx) && Function(code) && WfExpr(e, labels)
    requires g in Inside(e, Bindings(ctx)) && Owns(CodedOf(e), g.src) && !code.inst(g.src).Unreachable?
    ensures Good(code, g, CodedOf(e), ctx, NeedyIn(code, e, Bindings(ctx)))
    decreases e, 0, 0
  {
    var f := FrameOf(code, e, h);
    var inner := [f] + ctx;
    WfInner(code, f, ctx);
    if g == Edge(At(e.id, Begin), Next, Entry(e.body, At(e.id, End))) {
      EntryComes(code, e.body, inner, h, f.need, f.target);
      BeginArrives(code, g.src, e.name, ctx, h, g.dst, f);
    } else {
      NestedFrom(e.body, [Binding(f.name, f.target)] + Bindings(ctx), f.target);
      NestedGood(code, e.body, f, ctx, labels + {e.name}, CodedOf(e), g);
    }
  }

  lemma BeginArrives(code: Code, n: Node, name: string, ctx: seq<Frame>, h: nat, next: Node, f: Frame)
    requires Has(code, n, h, ctx, 0) && code.inst(n) == D.BeginBlock(name) && f.name == name && f.pointer == h
    requires Comes(code, Sh(code, h, [f] + ctx), next)
    ensures Arrives(code, n, next)
  {
    BaseIsLabel(code, h, ctx, 0);
    OneLabel(f, ctx);
    assert D.ShapeAfter(NodeAs(code, n), code.shape(n)) == Sh(code, h, [f] + ctx);
  }

  lemma {:induction false} LoopGood(code: Code, e: Expr, ctx: seq<Frame>, h: nat, labels: set<string>, g: Edge)
    requires e.Loop? && ValidExpr(code, e, ctx, h) && h >= Base(ctx) && WfFrames(code, ctx) && Function(code) && WfExpr(e, labels)
    requires g in Inside(e, Bindings(ctx)) && Owns(CodedOf(e), g.src) && !code.inst(g.src).Unreachable?
    ensures Good(code, g, CodedOf(e), ctx, NeedyIn(code, e, Bindings(ctx)))
    decreases e, 0, 0
  {
    var f := FrameOf(code, e, h);
    var inner := [f] + ctx;
    LoopFrame(code, e, ctx, h);
    assert inner[1..] == ctx && Bindings(inner) == [Binding(f.name, f.target)] + Bindings(ctx);
    EdgesFrom(e.body, Bindings(inner));
    if g in Edges(e.body, Bindings(inner)) {
      EdgesGood(code, e.body, inner, h, 0, labels + {e.name}, g);
      LandsOutside(Coded(e.body), CodedOf(e), f, ctx, g.dst);
    } else {
      LoopEntryGood(code, e, ctx, h);
    }
  }

  lemma LoopEntryGood(code: Code, e: Expr, ctx: seq<Frame>, h: nat)
    requires e.Loop? && ValidExpr(code, e, ctx, h) && h >= Base(ctx) && WfFrames(code, ctx) && Function(code) && e.body.Cons?
    ensures Good(code, Edge(At(e.id, Part.Inst), Next, Entry(e.body, At(e.id, Part.Inst))), CodedOf(e), ctx, {})
  {
    var inner := [FrameOf(code, e, h)] + ctx;
    LoopFrame(code, e, ctx, h);
    EntryComes(code, e.body, inner, h, 0, At(e.id, Part.Inst));
    LeafArrives(code, At(e.id, Part.Inst), inner, h, Entry(e.body, At(e.id, Part.Inst)));
  }

  lemma {:induction false} IfGood(code: Code, e: Expr, ctx: seq<Frame>, h: nat, labels: set<string>, g: Edge)
    requires e.If? && ValidExpr(code, e, ctx, h) && h >= Base(ctx) && WfFrames(code, ctx) && Function(code) && WfExpr(e, labels)
    requires g in Inside(e, Bindings(ctx)) && Owns(CodedOf(e), g.src) && !code.inst(g.src).Unreachable?
    ensures Good(code, g, CodedOf(e), ctx, NeedyIn(code, e, Bindings(ctx)))
    decreases e, 0, 0
  {
    var f := FrameOf(code, e, h);
    var inner, blocks := [f] + ctx, [Binding(f.name, f.target)] + Bindings(ctx);
    WfInner(code, f, ctx);
    NestedFrom(e.thn, blocks, f.target);
    NestedFrom(e.els, blocks, f.target);
    CodedIsOwned(e.thn);
    CodedIsOwned(e.els);
    if g.src.id == e.id {
      ForkGood(code, e, ctx, h, g);
    } else if g in Nested(e.thn, blocks, f.target) {
      NestedGood(code, e.thn, f, ctx, labels + {e.name}, CodedOf(e), g);
    } else {
      NestedGood(code, e.els, f, ctx, labels + {e.name}, CodedOf(e), g);
    }
  }

  // The edges to and from the begin markers of the arms.
  lemma ForkGood(code: Code, e: Expr, ctx: seq<Frame>, h: nat, g: Edge)
    requires e.If? && ValidExpr(code, e, ctx, h) && h >= Base(ctx) && WfFrames(code, [FrameOf(code, e, h)] + ctx) && Function(code)
    requires g == Edge(At(e.id, Part.Inst), True, At(e.id, ThenBegin)) || g == Edge(At(e.id, Part.Inst), False, At(e.id, ElseBegin))
             || g == Edge(At(e.id, ThenBegin), Next, Entry(e.thn, At(e.id, End)))
             || g == Edge(At(e.id, ElseBegin), Next, Entry(e.els, At(e.id, End)))
    ensures Good(code, g, CodedOf(e), ctx, NeedyIn(code, e, Bindings(ctx)))
  {
    var f := FrameOf(code, e, h);
    var inner := [f] + ctx;
    assert FallsTo(code, inner, 0, f.target, f.need);
    if g.src == At(e.id, Part.Inst) {
      LeafArrives(code, g.src, ctx, h, g.dst);
    } else if g.src == At(e.id, ThenBegin) {
      EntryComes(code, e.thn, inner, f.pointer, f.need, f.target);
      BeginArrives(code, g.src, e.name, ctx, f.pointer, g.dst, f);
    } else {
      EntryComes(code, e.els, inner, f.pointer, f.need, f.target);
      BeginArrives(code, g.src, e.name, ctx, f.pointer, g.dst, f);
    }
  }

  // ----- the edges that fail -----

  // A state that comes along this edge fails the assertion at its end.
  ghost predicate Fails(code: Code, m: Node, n: Node) {
    && D.HasRoom(code.shape(m), D.Pops(code.inst(m)))
    && D.ShapeOnArrival(NodeAs(code, n), D.ShapeAfter(NodeAs(code, m), code.shape(m)), code.results).None?
  }

  // The place asserts that so many operands lie above the innermost label.
  ghost predicate Wants(code: Code, n: Node, need: nat) {
    (exists name :: code.inst(n) == D.BlockEnd(name, need)) || (code.inst(n).Return? && code.results == need)
  }

  lemma LeafFails(code: Code, n: Node, ctx: seq<Frame>, h: nat, next: Node, need: nat)
    requires Has(code, n, h, ctx, D.Pops(code.inst(n))) && !code.inst(n).BeginBlock?
    requires Left(h, code.inst(n)) == Base(ctx) && Wants(code, next, need) && need > 0
    ensures Fails(code, n, next)
  {
    BaseIsLabel(code, h, ctx, D.Pops(code.inst(n)));
    assert D.ShapeAfter(NodeAs(code, n), code.shape(n)) == Sh(code, Base(ctx), ctx);
  }

  lemma LastFails(code: Code, e: Expr, ctx: seq<Frame>, h: nat, next: Node, need: nat)
    requires ValidExpr(code, e, ctx, h) && h >= Base(ctx) && !Stops(e) && !e.Loop?
    requires Then(code, e, h) == Base(ctx) && Wants(code, next, need) && need > 0
    ensures Fails(code, Last(e), next)
  {
    match e
    case Plain(id) => LeafFails(code, At(id, Part.Inst), ctx, h, next, need);
    case BrIf(id, _) => LeafFails(code, At(id, Part.Inst), ctx, h, next, need);
    case Block(id, _, _) => LeafFails(code, At(id, End), ctx, Then(code, e, h), next, need);
    case If(id, _, _, _) => LeafFails(code, At(id, End), ctx, Then(code, e, h), next, need);
  }

  // From the end of a loop's body nothing is brought along.
  lemma {:induction false} ExitFails(code: Code, es: ExprList, ctx: seq<Frame>, h: nat, after: Node, need: nat, labels: set<string>, g: Edge)
    requires Valid(code, es, ctx, h, 0) && WfFrames(code, ctx) && Wf(es, labels) && Wants(code, after, need) && need > 0
    requires g in Exit(es, after) && Owns(Coded(es), g.src)
    ensures Fails(code, g.src, g.dst)
    decreases es
  {
    var e := es.head;
    if es.tail.Cons? {
      ExitFrom(es.tail, after);
      CodedOfIsOwned(e);
      CodedIsOwned(es.tail);
      ExitFails(code, es.tail, ctx, Then(code, e, h), after, need, labels, g);
    } else if !Stops(e) {
      assert Valid(code, Nil, ctx, Then(code, e, h), 0) && WfExpr(e, labels) && Coded(es) == CodedOf(e);
      if e.Loop? {
        LoopFrame(code, e, ctx, h);
        ExitFrom(e.body, after);
        ExitFails(code, e.body, [FrameOf(code, e, h)] + ctx, h, after, need, labels + {e.name}, g);
      } else {
        LastFails(code, e, ctx, h, after, need);
      }
    }
  }

  // A list that ends in a loop.
  lemma {:induction false} LoopLastFails(code: Code, es: ExprList, ctx: seq<Frame>, h: nat, after: Node, need: nat, labels: set<string>, g: Edge)
    requires Valid(code, es, ctx, h, need) && WfFrames(code, ctx) && Wf(es, labels) && Wants(code, after, need) && need > 0
    requires EndsInLoop(es) && g in Exit(es, after) && Owns(Coded(es), g.src)
    ensures Fails(code, g.src, g.dst)
  {
    var e := es.head;
    if es.tail.Cons? {
      ExitFrom(es.tail, after);
      CodedOfIsOwned(e);
      CodedIsOwned(es.tail);
      LoopLastFails(code, es.tail, ctx, Then(code, e, h), after, need, labels, g);
    } else {
      assert WfExpr(e, labels) && Coded(es) == CodedOf(e);
      LoopFrame(code, e, ctx, h);
      ExitFrom(e.body, after);
      ExitFails(code, e.body, [FrameOf(code, e, h)] + ctx, h, after, need, labels + {e.name}, g);
    }
  }

  lemma {:induction false} NeedyFrom(code: Code, es: ExprList, blocks: seq<Binding>)
    ensures forall g :: g in Needy(code, es, blocks) ==> Owns(Ids(es), g.src)
    decreases es, 1
  {
    if es.Cons? {
      NeedyInFrom(code, es.head, blocks);
      NeedyFrom(code, es.tail, blocks);
    }
  }

  lemma {:induction false} NeedyInFrom(code: Code, e: Expr, blocks: seq<Binding>)
    ensures forall g :: g in NeedyIn(code, e, blocks) ==> Owns(IdsOf(e), g.src)
    decreases e, 0
  {
    match e
    case Block(id, name, body) => NeedyListFrom(code, body, [Binding(name, At(id, End))] + blocks, At(id, End), Results(code, id));
    case Loop(id, name, body) => NeedyFrom(code, body, [Binding(name, At(id, Part.Inst))] + blocks);
    case If(id, name, thn, els) =>
      NeedyListFrom(code, thn, [Binding(name, At(id, End))] + blocks, At(id, End), Results(code, id));
      NeedyListFrom(code, els, [Binding(name, At(id, End))] + blocks, At(id, End), Results(code, id));
    case _ =>
  }

  lemma {:induction false} NeedyListFrom(code: Code, es: ExprList, blocks: seq<Binding>, after: Node, need: nat)
    ensures forall g :: g in NeedyList(code, es, blocks, after, need) ==> Owns(Ids(es), g.src)
    decreases es, 2
  {
    NeedyFrom(code, es, blocks);
    ExitFrom(es, after);
  }

  lemma {:induction false} NeedyFails(code: Code, es: ExprList, ctx: seq<Frame>, h: nat, need: nat, labels: set<string>, g: Edge)
    requires Valid(code, es, ctx, h, need) && WfFrames(code, ctx) && Wf(es, labels)
    requires g in Needy(code, es, Bindings(ctx)) && Owns(Coded(es), g.src)
    ensures Fails(code, g.src, g.dst)
    decreases es, 1
  {
    var e, rest := es.head, es.tail;
    assert WfExpr(e, labels);
    NeedyInFrom(code, e, Bindings(ctx));
    NeedyFrom(code, rest, Bindings(ctx));
    CodedOfIsOwned(e);
    CodedIsOwned(rest);
    if g in NeedyIn(code, e, Bindings(ctx)) {
      NeedyInFails(code, e, ctx, h, labels, g);
    } else {
      NeedyFails(code, rest, ctx, Then(code, e, h), need, labels, g);
    }
  }

  lemma {:induction false} NeedyInFails(code: Code, e: Expr, ctx: seq<Frame>, h: nat, labels: set<string>, g: Edge)
    requires ValidExpr(code, e, ctx, h) && h >= Base(ctx) && WfFrames(code, ctx) && WfExpr(e, labels)
    requires g in NeedyIn(code, e, Bindings(ctx)) && Owns(CodedOf(e), g.src)
    ensures Fails(code, g.src, g.dst)
    decreases e, 1
  {
    var f := FrameOf(code, e, h);
    var inner := [f] + ctx;
    assert inner[1..] == ctx && Bindings(inner) == [Binding(f.name, f.target)] + Bindings(ctx);
    WfInner(code, f, ctx);
    match e
    case Block(id, name, body) =>
      NeedyListFrom(code, body, Bindings(inner), f.target, f.need);
      NeedyListFails(code, body, inner, h, f.target, f.need, labels + {name}, g);
    case Loop(id, name, body) =>
      NeedyFrom(code, body, Bindings(inner));
      NeedyFails(code, body, inner, h, 0, labels + {name}, g);
    case If(id, name, thn, els) =>
      NeedyArmFails(code, e, ctx, h, labels, g);
  }

  lemma {:induction false} NeedyArmFails(code: Code, e: Expr, ctx: seq<Frame>, h: nat, labels: set<string>, g: Edge)
    requires e.If? && ValidExpr(code, e, ctx, h) && h >= Base(ctx) && WfFrames(code, ctx) && WfExpr(e, labels)
    requires g in NeedyIn(code, e, Bindings(ctx)) && Owns(CodedOf(e), g.src)
    ensures Fails(code, g.src, g.dst)
    decreases e, 0
  {
    var f := FrameOf(code, e, h);
    var inner := [f] + ctx;
    assert inner[1..] == ctx && Bindings(inner) == [Binding(f.name, f.target)] + Bindings(ctx);
    WfInner(code, f, ctx);
    NeedyListFrom(code, e.thn, Bindings(inner), f.target, f.need);
    NeedyListFrom(code, e.els, Bindings(inner), f.target, f.need);
    CodedIsOwned(e.thn);
    CodedIsOwned(e.els);
    if g in NeedyList(code, e.thn, Bindings(inner), f.target, f.need) {
      NeedyListFails(code, e.thn, inner, h - 1, f.target, f.need, labels + {e.name}, g);
    } else {
      NeedyListFails(code, e.els, inner, h - 1, f.target, f.need, labels + {e.name}, g);
    }
  }

  lemma {:induction false} NeedyListFails(code: Code, es: ExprList, ctx: seq<Frame>, h: nat, after: Node, need: nat, labels: set<string>, g: Edge)
    requires Valid(code, es, ctx, h, need) && WfFrames(code, ctx) && Wf(es, labels) && Wants(code, after, need)
    requires g in NeedyList(code, es, Bindings(ctx), after, need) && Owns(Coded(es), g.src)
    ensures Fails(code, g.src, g.dst)
    decreases es, 2
  {
    if g in Needy(code, es, Bindings(ctx)) {
      NeedyFails(code, es, ctx, h, need, labels, g);
    } else {
      LoopLastFails(code, es, ctx, h, after, need, labels, g);
    }
  }
}
