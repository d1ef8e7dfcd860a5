// The lowered graph of a function and the structured-control machine have
// the same runs, exactly when no run reaches a join whose edge is lost.
module LoweringCorrect {
  import opened Wrappers
  import opened Lowering
  import opened Machine

  // ----- where edges start and end -----

  ghost predicate From(edges: set<Edge>, ids: set<nat>) {
    forall g :: g in edges ==> Owns(ids, g.src)
  }

  lemma {:induction false} ExitFrom(es: ExprList, after: Node)
    ensures From(Exit(es, after), Ids(es))
  {
    match es
    case Nil =>
    case Cons(e, Nil) => ExitOfFrom(e, after);
    case Cons(_, rest) => ExitFrom(rest, after);
  }

  lemma {:induction false} ExitOfFrom(e: Expr, after: Node)
    ensures From(ExitOf(e, after), IdsOf(e))
  {
    if e.Loop? {
      ExitFrom(e.body, after);
    }
  }

  lemma {:induction false} EdgesFrom(es: ExprList, blocks: seq<Binding>)
    ensures From(Edges(es, blocks), Ids(es))
    decreases es, 2
  {
    if es.Cons? {
      InsideFrom(es.head, blocks);
      LinkFrom(es.head, blocks, es.tail);
      EdgesFrom(es.tail, blocks);
    }
  }

  lemma {:induction false} NestedFrom(es: ExprList, blocks: seq<Binding>, after: Node)
    ensures From(Nested(es, blocks, after), Ids(es))
    decreases es, 3
  {
    EdgesFrom(es, blocks);
    ExitFrom(es, after);
  }

  lemma {:induction false} InsideFrom(e: Expr, blocks: seq<Binding>)
    ensures From(Inside(e, blocks), IdsOf(e))
    decreases e, 0
  {
    match e
    case Block(id, name, body) => NestedFrom(body, [Binding(name, At(id, End))] + blocks, At(id, End));
    case Loop(id, name, body) => EdgesFrom(body, [Binding(name, At(id, Inst))] + blocks);
    case If(id, name, thn, els) =>
      NestedFrom(thn, [Binding(name, At(id, End))] + blocks, At(id, End));
      NestedFrom(els, [Binding(name, At(id, End))] + blocks, At(id, End));
    case _ =>
  }

  lemma {:induction false} LinkFrom(e: Expr, blocks: seq<Binding>, rest: ExprList)
    ensures From(Link(e, blocks, rest), IdsOf(e))
  {
    if e.Loop? {
      ExitFrom(e.body, At(e.id, LoopEnd));
    }
  }

  // ----- the part of a graph that belongs to a list under a label stack -----

  function Blocks(ctrl: Control): seq<Binding> {
    match ctrl
    case Bottom => []
    case Label(Loop(id, name, _), _, outer) => [Binding(name, At(id, Inst))] + Blocks(outer)
    case Label(Block(id, name, _), _, outer) => [Binding(name, At(id, End))] + Blocks(outer)
    case Label(If(id, name, _, _), _, outer) => [Binding(name, At(id, End))] + Blocks(outer)
    case Label(_, _, outer) => Blocks(outer)
  }

  function Names(ctrl: Control): set<string> {
    match ctrl
    case Bottom => {}
    case Label(Loop(_, name, _), _, outer) => Names(outer) + {name}
    case Label(Block(_, name, _), _, outer) => Names(outer) + {name}
    case Label(If(_, name, _, _), _, outer) => Names(outer) + {name}
    case Label(_, _, outer) => Names(outer)
  }

  predicate InLoop(ctrl: Control) {
    ctrl.Label? && ctrl.e.Loop?
  }

  // A loop body gets the edges from its last instruction in any case, every
  // other list only when it is not cut at its end.
  ghost predicate Exits(code: ExprList, ctrl: Control) {
    InLoop(ctrl) || !Cut(code, Blocks(ctrl))
  }

  ghost function Emitted(code: ExprList, ctrl: Control): set<Edge> {
    Edges(code, Blocks(ctrl)) + if Exits(code, ctrl) then Exit(code, Fall(ctrl)) else {}
  }

  ghost predicate Region(g0: set<Edge>, code: ExprList, ctrl: Control) {
    forall g: Edge :: Owns(Ids(code), g.src) ==> (g in g0 <==> g in Emitted(code, ctrl))
  }

  // The edges of one instruction in its place.
  ghost function Own(e: Expr, rest: ExprList, ctrl: Control): set<Edge> {
    Inside(e, Blocks(ctrl)) +
    if rest.Cons? then (if Ends(e, Blocks(ctrl)).Go? then Link(e, Blocks(ctrl), rest) else {})
    else if InLoop(ctrl) || Ends(e, Blocks(ctrl)) != Stop(true) then ExitOf(e, Fall(ctrl)) else {}
  }

  lemma Split(g0: set<Edge>, e: Expr, rest: ExprList, ctrl: Control)
    requires IdsOf(e) !! Ids(rest) && Region(g0, Cons(e, rest), ctrl)
    ensures forall g: Edge :: Owns(IdsOf(e), g.src) ==> (g in g0 <==> g in Own(e, rest, ctrl))
    ensures Ends(e, Blocks(ctrl)).Go? && rest.Cons? ==> Region(g0, rest, ctrl)
  {
    var blocks := Blocks(ctrl);
    EdgesFrom(rest, blocks);
    ExitFrom(rest, Fall(ctrl));
    InsideFrom(e, blocks);
    LinkFrom(e, blocks, rest);
    ExitOfFrom(e, Fall(ctrl));
    if rest.Cons? {
      assert Exit(Cons(e, rest), Fall(ctrl)) == Exit(rest, Fall(ctrl));
    } else {
      assert Exit(Cons(e, rest), Fall(ctrl)) == ExitOf(e, Fall(ctrl));
      assert Cut(Cons(e, rest), blocks) <==> Ends(e, blocks) == Stop(true);
    }
  }

  ghost predicate Structured(e: Expr) {
    e.Block? || e.Loop? || e.If?
  }

  // What the graph holds for every label on the stack. `ids` are the
  // instructions that run under the innermost one.
  ghost predicate Framed(g0: set<Edge>, ctrl: Control, ids: set<nat>) {
    match ctrl
    case Bottom => true
    case Label(e, after, outer) =>
      && Structured(e)
      && ids <= IdsOf(e) - {e.id}
      && Wf(Cons(e, after), Names(outer))
      && Region(g0, Cons(e, after), outer)
      && Framed(g0, outer, Ids(Cons(e, after)))
  }

  // Some edge leads to the node where control falls off the current list.
  ghost predicate Arrived(g0: set<Edge>, ctrl: Control) {
    match ctrl
    case Bottom => true
    case Label(e, after, outer) =>
      if e.Loop? then after.Nil? ==> Arrived(g0, outer)
      else Structured(e) && exists g :: g in g0 && g.dst == At(e.id, End) && Owns(IdsOf(e), g.src)
  }

  ghost predicate Placed(g0: set<Edge>, c: Config) {
    match c
    case Run(code, ctrl) =>
      && Framed(g0, ctrl, Ids(code))
      && Wf(code, Names(ctrl))
      && (code.Nil? ==> Arrived(g0, ctrl))
      && (code.Cons? && !code.head.Return? ==> Region(g0, code, ctrl))
    case Arm(e, _, after, ctrl) =>
      && e.If?
      && Framed(g0, ctrl, Ids(Cons(e, after)))
      && Wf(Cons(e, after), Names(ctrl))
      && Region(g0, Cons(e, after), ctrl)
    case _ => true
  }

  // A join whose edge to what follows is lost: the end of an if/else whose
  // arms are both cut, unless it is the last instruction of a loop body.
  ghost predicate Dropped(c: Config) {
    && c.Run? && c.code.Nil? && c.ctrl.Label? && c.ctrl.e.If?
    && Ends(c.ctrl.e, Blocks(c.ctrl.outer)).Stop?
    && (c.ctrl.after.Cons? || !InLoop(c.ctrl.outer))
  }

  // The graph shows exactly the steps the machine can take.
  ghost predicate Exact(g: set<Edge>, c: Config) {
    forall tag, n ::
      Edge(NodeAt(c), tag, n) in g <==> Step(c, tag).Some? && NodeAt(Step(c, tag).value) == n
  }

  ghost predicate StepsPlaced(g0: set<Edge>, c: Config) {
    forall tag :: Step(c, tag).Some? ==> Placed(g0, Step(c, tag).value)
  }

  // ----- moving through the label stack -----

  lemma {:induction false} FramedShrinks(g0: set<Edge>, ctrl: Control, ids: set<nat>, fewer: set<nat>)
    requires Framed(g0, ctrl, ids) && fewer <= ids
    ensures Framed(g0, ctrl, fewer)
  {
  }

  lemma {:induction false} FallOutside(g0: set<Edge>, ctrl: Control, ids: set<nat>)
    requires Framed(g0, ctrl, ids)
    ensures !Owns(ids, Fall(ctrl))
  {
    if ctrl.Label? && ctrl.e.Loop? && ctrl.after.Nil? {
      FallOutside(g0, ctrl.outer, Ids(Cons(ctrl.e, ctrl.after)));
    }
  }

  lemma {:induction false} FallArrives(g0: set<Edge>, ctrl: Control, ids: set<nat>, g: Edge)
    requires Framed(g0, ctrl, ids)
    requires g in g0 && Owns(ids, g.src) && g.dst == Fall(ctrl)
    ensures Arrived(g0, ctrl)
  {
    if ctrl.Label? && ctrl.e.Loop? && ctrl.after.Nil? {
      FallArrives(g0, ctrl.outer, Ids(Cons(ctrl.e, ctrl.after)), g);
    }
  }

  // getBlock finds the node where the machine's branch lands.
  lemma {:induction false} LookupIsJump(ctrl: Control, target: string)
    ensures Lookup(Blocks(ctrl), target) == NodeAt(Jump(target, ctrl))
  {
    if ctrl.Label? {
      LookupIsJump(ctrl.outer, target);
    }
  }

  lemma {:induction false} JumpPlaced(g0: set<Edge>, ctrl: Control, ids: set<nat>, target: string, g: Edge)
    requires Framed(g0, ctrl, ids)
    requires g in g0 && Owns(ids, g.src) && g.dst == NodeAt(Jump(target, ctrl))
    ensures Placed(g0, Jump(target, ctrl))
  {
    if ctrl.Label? {
      if ctrl.e.name == target {
        FramedShrinks(g0, ctrl, ids, {});
      } else {
        JumpPlaced(g0, ctrl.outer, Ids(Cons(ctrl.e, ctrl.after)), target, g);
      }
    }
  }

  // ----- one step from each kind of configuration -----

  // Control moves to the rest of the list, by an edge from the instruction
  // before it.
  lemma RestPlaced(g0: set<Edge>, e: Expr, rest: ExprList, ctrl: Control, g: Edge)
    requires Framed(g0, ctrl, Ids(Cons(e, rest))) && Wf(rest, Names(ctrl))
    requires rest.Cons? ==> Region(g0, rest, ctrl)
    requires rest.Nil? ==> g in g0 && Owns(IdsOf(e), g.src) && g.dst == Fall(ctrl)
    ensures Placed(g0, Run(rest, ctrl))
  {
    FramedShrinks(g0, ctrl, Ids(Cons(e, rest)), Ids(rest));
    if rest.Nil? {
      FallArrives(g0, ctrl, Ids(Cons(e, rest)), g);
    }
  }

  lemma LeafStep(g0: set<Edge>, e: Expr, rest: ExprList, ctrl: Control)
    requires Placed(g0, Run(Cons(e, rest), ctrl))
    requires e.Plain? || e.Unreachable? || e.Br? || e.BrIf? || e.BrTable?
    ensures Exact(g0, Run(Cons(e, rest), ctrl)) && StepsPlaced(g0, Run(Cons(e, rest), ctrl))
  {
    var c := Run(Cons(e, rest), ctrl);
    var here := At(e.id, Inst);
    Split(g0, e, rest, ctrl);
    forall target {
      LookupIsJump(ctrl, target);
    }
    assert forall tag, n :: Edge(here, tag, n) in g0 <==> Edge(here, tag, n) in Own(e, rest, ctrl);
    if e.BrTable? {
      TableExact(e, rest, ctrl);
    }
    forall tag | Step(c, tag).Some?
      ensures Placed(g0, Step(c, tag).value)
    {
      var g := Edge(here, tag, NodeAt(Step(c, tag).value));
      assert g in g0;
      match e
      case Br(_, target) => JumpPlaced(g0, ctrl, Ids(c.code), target, g);
      case BrIf(_, target) =>
        if tag == True {
          JumpPlaced(g0, ctrl, Ids(c.code), target, g);
        } else {
          RestPlaced(g0, e, rest, ctrl, g);
        }
      case BrTable(_, targets, default) =>
        JumpPlaced(g0, ctrl, Ids(c.code), if tag.Case? then targets[tag.index] else default, g);
      case Plain(_) => RestPlaced(g0, e, rest, ctrl, g);
      case _ =>
    }
  }

  lemma TableExact(e: Expr, rest: ExprList, ctrl: Control)
    requires e.BrTable?
    ensures Exact(Own(e, rest, ctrl), Run(Cons(e, rest), ctrl))
  {
    forall target {
      LookupIsJump(ctrl, target);
    }
  }

  lemma BlockStep(g0: set<Edge>, e: Expr, rest: ExprList, ctrl: Control)
    requires Placed(g0, Run(Cons(e, rest), ctrl)) && e.Block?
    ensures Exact(g0, Run(Cons(e, rest), ctrl)) && StepsPlaced(g0, Run(Cons(e, rest), ctrl))
  {
    var inner := Label(e, rest, ctrl);
    assert WfExpr(e, Names(ctrl));
    Split(g0, e, rest, ctrl);
    NestedFrom(e.body, Blocks(inner), At(e.id, End));
    assert Emitted(e.body, inner) == Nested(e.body, Blocks(inner), At(e.id, End));
    assert Region(g0, e.body, inner);
  }

  lemma LoopStep(g0: set<Edge>, e: Expr, rest: ExprList, ctrl: Control)
    requires Placed(g0, Run(Cons(e, rest), ctrl)) && e.Loop?
    ensures Exact(g0, Run(Cons(e, rest), ctrl)) && StepsPlaced(g0, Run(Cons(e, rest), ctrl))
  {
    var inner := Label(e, rest, ctrl);
    assert WfExpr(e, Names(ctrl));
    Split(g0, e, rest, ctrl);
    EdgesFrom(e.body, Blocks(inner));
    ExitFrom(e.body, Fall(inner));
    assert Region(g0, e.body, inner);
  }

  lemma IfStep(g0: set<Edge>, e: Expr, rest: ExprList, ctrl: Control)
    requires Placed(g0, Run(Cons(e, rest), ctrl)) && e.If?
    ensures Exact(g0, Run(Cons(e, rest), ctrl)) && StepsPlaced(g0, Run(Cons(e, rest), ctrl))
  {
    var inner := Label(e, rest, ctrl);
    assert WfExpr(e, Names(ctrl));
    Split(g0, e, rest, ctrl);
    NestedFrom(e.thn, Blocks(inner), At(e.id, End));
    NestedFrom(e.els, Blocks(inner), At(e.id, End));
  }

  // The edges of the arm that is taken are those of a list under the label
  // of the `if`, and its begin marker leads to it.
  lemma ArmRegion(g0: set<Edge>, e: Expr, taken: bool, after: ExprList, ctrl: Control)
    requires Placed(g0, Arm(e, taken, after, ctrl))
    ensures var arm := if taken then e.thn else e.els;
            Wf(arm, Names(ctrl) + {e.name}) && Ids(arm) <= IdsOf(e) - {e.id}
            && (arm.Cons? ==> Region(g0, arm, Label(e, after, ctrl)))
  {
    var inner := Label(e, after, ctrl);
    var arm := if taken then e.thn else e.els;
    assert WfExpr(e, Names(ctrl));
    Split(g0, e, after, ctrl);
    NestedFrom(e.thn, Blocks(inner), At(e.id, End));
    NestedFrom(e.els, Blocks(inner), At(e.id, End));
    assert Emitted(arm, inner) == Nested(arm, Blocks(inner), At(e.id, End));
  }

  lemma BeginExact(g0: set<Edge>, e: Expr, taken: bool, after: ExprList, ctrl: Control)
    requires Placed(g0, Arm(e, taken, after, ctrl))
    ensures Exact(g0, Arm(e, taken, after, ctrl))
  {
    var inner := Label(e, after, ctrl);
    assert WfExpr(e, Names(ctrl));
    Split(g0, e, after, ctrl);
    NestedFrom(e.thn, Blocks(inner), At(e.id, End));
    NestedFrom(e.els, Blocks(inner), At(e.id, End));
  }

  lemma ArmStep(g0: set<Edge>, e: Expr, taken: bool, after: ExprList, ctrl: Control)
    requires Placed(g0, Arm(e, taken, after, ctrl))
    ensures Exact(g0, Arm(e, taken, after, ctrl)) && StepsPlaced(g0, Arm(e, taken, after, ctrl))
  {
    ArmRegion(g0, e, taken, after, ctrl);
    BeginExact(g0, e, taken, after, ctrl);
    var arm := if taken then e.thn else e.els;
    if arm.Nil? {
      assert WfExpr(e, Names(ctrl));
      var c := Arm(e, taken, after, ctrl);
      assert Step(c, Next) == Some(Run(Nil, Label(e, after, ctrl)));
      assert Edge(NodeAt(c), Next, At(e.id, End)) in g0;
    }
  }

  lemma LoopEndStep(g0: set<Edge>, c: Config)
    requires Placed(g0, c) && c.Run? && c.code.Nil? && c.ctrl.Label? && c.ctrl.e.Loop? && c.ctrl.after.Cons?
    ensures Exact(g0, c) && StepsPlaced(g0, c)
  {
    var Label(e, after, outer) := c.ctrl;
    assert WfExpr(e, Names(outer));
    Split(g0, e, after, outer);
    EdgesFrom(e.body, Blocks(c.ctrl));
    ExitFrom(e.body, At(e.id, LoopEnd));
    RestPlaced(g0, e, after, outer, Edge(NodeAt(c), Next, NodeOf(after.head)));
  }

  // The end of a block or of an if that is reached has the edge to what
  // follows, unless it is a dropped join; then it has none.
  lemma JoinStep(g0: set<Edge>, c: Config)
    requires Placed(g0, c) && c.Run? && c.code.Nil? && c.ctrl.Label? && !c.ctrl.e.Loop?
    ensures !Dropped(c) ==> Exact(g0, c) && StepsPlaced(g0, c)
    ensures Dropped(c) ==> !HasOut(g0, NodeAt(c))
    ensures !Dropped(c) ==> Joined(c)
  {
    var Label(e, after, outer) := c.ctrl;
    var here := At(e.id, End);
    assert WfExpr(e, Names(outer));
    Split(g0, e, after, outer);
    InsideNotFromEnd(e, Blocks(outer));
    ArrivedInside(g0, c);
    assert forall tag, n :: Edge(here, tag, n) in g0 <==> Edge(here, tag, n) in Own(e, after, outer);
    if !Dropped(c) {
      RestPlaced(g0, e, after, outer, Edge(here, Next, Entry(after, Fall(outer))));
    }
  }

  // A join is reached only by an edge that its instruction produced itself.
  lemma ArrivedInside(g0: set<Edge>, c: Config)
    requires Placed(g0, c) && c.Run? && c.code.Nil? && c.ctrl.Label? && !c.ctrl.e.Loop?
    ensures HasIn(Inside(c.ctrl.e, Blocks(c.ctrl.outer)), NodeAt(c))
  {
    var Label(e, after, outer) := c.ctrl;
    Split(g0, e, after, outer);
    FallOutside(g0, outer, Ids(Cons(e, after)));
  }

  lemma InsideNotFromEnd(e: Expr, blocks: seq<Binding>)
    requires (e.Block? && e.id !in Ids(e.body)) || (e.If? && e.id !in Ids(e.thn) + Ids(e.els))
    ensures !HasOut(Inside(e, blocks), At(e.id, End))
  {
    var inner := [Binding(e.name, At(e.id, End))] + blocks;
    match e
    case Block(id, _, body) => NestedFrom(body, inner, At(id, End));
    case If(id, _, thn, els) =>
      NestedFrom(thn, inner, At(id, End));
      NestedFrom(els, inner, At(id, End));
  }

  // ----- whole functions -----

  // A lost join: a dropped one, except when the repair pass happens to supply
  // its edge because a `return` follows.
  ghost predicate LostJoin(body: ExprList, c: Config) {
    Dropped(c) && !(c.ctrl.after.Cons? && c.ctrl.after.head.Return? && !Cut(body, []))
  }

  lemma StartPlaced(body: ExprList)
    requires Wf(body, {})
    ensures Placed(Unrepaired(body), Run(body, Bottom))
  {
    if body.Cons? {
      assert Emitted(body, Bottom) == Nested(body, [], ReturnNode);
    }
  }

  lemma {:induction false} TreeNodesOwned(es: ExprList)
    ensures forall n :: n in TreeNodes(es) ==> Owns(Ids(es), n)
  {
    if es.Cons? {
      TreeNodesOwned(es.tail);
      assert TreeNodes(es) == TreeNodesOf(es.head) + TreeNodes(es.tail);
      assert Ids(es) == IdsOf(es.head) + Ids(es.tail);
      match es.head
      case Block(_, _, body) => TreeNodesOwned(body);
      case Loop(_, _, body) => TreeNodesOwned(body);
      case If(_, _, thn, els) =>
        TreeNodesOwned(thn);
        TreeNodesOwned(els);
      case _ =>
    }
  }

  // Every settled configuration but a dropped join is exact in the unrepaired
  // graph, and its successors keep the invariant.
  lemma PlacedStep(g0: set<Edge>, c: Config)
    requires Placed(g0, c) && !Quiet(c)
    requires !HasOut(g0, ReturnNode) && !HasOut(g0, Trap)
    ensures !Dropped(c) ==> Exact(g0, c) && StepsPlaced(g0, c)
    ensures Dropped(c) ==> !HasOut(g0, NodeAt(c))
    ensures !Dropped(c) ==> Joined(c)
  {
    match c
    case Run(Cons(e, rest), ctrl) =>
      match e {
        case Block(_, _, _) => BlockStep(g0, e, rest, ctrl);
        case Loop(_, _, _) => LoopStep(g0, e, rest, ctrl);
        case If(_, _, _, _) => IfStep(g0, e, rest, ctrl);
        case _ => LeafStep(g0, e, rest, ctrl);
      }
    case Run(Nil, Label(e, _, _)) =>
      if e.Loop? {
        LoopEndStep(g0, c);
      } else {
        JoinStep(g0, c);
      }
    case Arm(e, taken, after, ctrl) => ArmStep(g0, e, taken, after, ctrl);
    case _ =>
  }

  lemma QuietPlaced(g0: set<Edge>, c: Config)
    requires Placed(g0, c) && Quiet(c)
    ensures Placed(g0, Step(c, Next).value)
  {
    if c.ctrl.Label? {
      FramedShrinks(g0, c.ctrl.outer, Ids(Cons(c.ctrl.e, c.ctrl.after)), {});
    }
  }

  lemma {:induction false} SettlePlaced(g0: set<Edge>, c: Config)
    requires Placed(g0, c)
    ensures Placed(g0, Settle(c))
    decreases if c.Run? then 1 else 0, if c.Run? then c.ctrl else Bottom
  {
    if Quiet(c) {
      QuietPlaced(g0, c);
      SettlePlaced(g0, Step(c, Next).value);
    }
  }

  // The configuration stays inside the body: in the syntax tree that the
  // repair pass searches and, outside all labels, in a tail of the body that
  // is cut at its end just when the body is. A body without branches to cut
  // joins has none in its parts.
  ghost predicate PartOf(body: ExprList, code: ExprList, ctrl: Control) {
    && TreeNodes(code) <= TreeNodes(body)
    && (ctrl.Bottom? ==> (Cut(code, []) <==> Cut(body, [])))
    && (Untargeted(body, []) ==> Untargeted(code, Blocks(ctrl)))
  }

  ghost predicate WithinStack(body: ExprList, ctrl: Control) {
    ctrl.Label? ==> PartOf(body, Cons(ctrl.e, ctrl.after), ctrl.outer) && WithinStack(body, ctrl.outer)
  }

  ghost predicate Within(body: ExprList, c: Config) {
    match c
    case Run(code, ctrl) => PartOf(body, code, ctrl) && WithinStack(body, ctrl)
    case Arm(e, _, after, ctrl) => PartOf(body, Cons(e, after), ctrl) && WithinStack(body, ctrl)
    case _ => true
  }

  lemma {:induction false} JumpWithin(body: ExprList, target: string, ctrl: Control)
    requires WithinStack(body, ctrl)
    ensures Within(body, Jump(target, ctrl))
  {
    if ctrl.Label? {
      JumpWithin(body, target, ctrl.outer);
    }
  }

  lemma PartOfTail(body: ExprList, e: Expr, rest: ExprList, ctrl: Control)
    requires PartOf(body, Cons(e, rest), ctrl)
    ensures ctrl.Label? || Ends(e, []).Go? ==> PartOf(body, rest, ctrl)
    ensures TreeNodes(rest) <= TreeNodes(body) && TreeNodesOf(e) <= TreeNodes(body)
    ensures Untargeted(body, []) ==> UntargetedIn(e, Blocks(ctrl)) && Untargeted(rest, Blocks(ctrl))
  {
    assert TreeNodes(Cons(e, rest)) == TreeNodesOf(e) + TreeNodes(rest);
  }

  // A list outside all labels is walked on past the label that is left here.
  ghost predicate Joined(c: Config) {
    c.Run? && c.code.Nil? && c.ctrl.Label? && c.ctrl.outer.Bottom? ==> Ends(c.ctrl.e, []).Go?
  }

  lemma StepWithin(body: ExprList, c: Config, tag: Tag)
    requires Within(body, c) && Step(c, tag).Some? && Joined(c)
    ensures Within(body, Step(c, tag).value)
  {
    if c.Run? && c.code.Cons? {
      PartOfTail(body, c.code.head, c.code.tail, c.ctrl);
      forall target {
        JumpWithin(body, target, c.ctrl);
      }
    } else if c.Run? && c.ctrl.Label? {
      PartOfTail(body, c.ctrl.e, c.ctrl.after, c.ctrl.outer);
    } else if c.Arm? {
      PartOfTail(body, c.e, c.after, c.ctrl);
    }
  }

  lemma {:induction false} SettleWithin(body: ExprList, c: Config)
    requires Within(body, c)
    ensures Within(body, Settle(c))
    decreases if c.Run? then 1 else 0, if c.Run? then c.ctrl else Bottom
  {
    if Quiet(c) {
      StepWithin(body, c, Next);
      SettleWithin(body, Step(c, Next).value);
    }
  }

  ghost predicate Tracked(body: ExprList, c: Config) {
    Placed(Unrepaired(body), c) && Within(body, c)
  }

  lemma NoWayOut(body: ExprList)
    ensures !HasOut(Unrepaired(body), ReturnNode) && !HasOut(Unrepaired(body), Trap)
    ensures !HasOut(Graph(body), ReturnNode) && !HasOut(Graph(body), Trap)
  {
    NestedFrom(body, [], ReturnNode);
    TreeNodesOwned(body);
  }

  lemma SettledSteps(c: Config)
    requires !Quiet(c) && (c.Run? || c.Arm?) && (c.Arm? ==> c.e.If?)
    ensures exists tag :: Step(c, tag).Some?
  {
    if c.Run? && c.code.Cons? && c.code.head.BrTable? {
      assert Step(c, Default).Some?;
    } else if c.Run? && c.code.Cons? && (c.code.head.BrIf? || c.code.head.If?) {
      assert Step(c, True).Some?;
    } else {
      assert Step(c, Next).Some?;
    }
  }

  lemma ExactGoesOn(g: set<Edge>, c: Config)
    requires !Quiet(c) && (c.Arm? ==> c.e.If?)
    ensures Exact(g, c) && (c.Run? || c.Arm?) ==> HasOut(g, NodeAt(c))
  {
    if Exact(g, c) && (c.Run? || c.Arm?) {
      SettledSteps(c);
      var tag :| Step(c, tag).Some?;
      assert Edge(NodeAt(c), tag, NodeAt(Step(c, tag).value)) in g;
    }
  }

  // One step in the finished graph, repair pass included: exact unless the
  // configuration is a lost join, whose only step then has no edge.
  lemma GraphStep(body: ExprList, c: Config)
    requires Tracked(body, c) && !Quiet(c)
    ensures !LostJoin(body, c) ==> Exact(Graph(body), c) && forall tag :: Step(c, tag).Some? ==> Tracked(body, Step(c, tag).value)
    ensures LostJoin(body, c) ==>
              Step(c, Next).Some? && Edge(NodeAt(c), Next, NodeAt(Step(c, Next).value)) !in Graph(body)
    ensures LostJoin(body, c) ==> forall tag, n :: Edge(NodeAt(c), tag, n) in Graph(body) ==> n == ReturnNode
  {
    var g0 := Unrepaired(body);
    NoWayOut(body);
    PlacedStep(g0, c);
    forall tag | Step(c, tag).Some? && Joined(c) {
      StepWithin(body, c, tag);
    }
    if Dropped(c) {
      DroppedGraph(body, c);
    } else if c.Run? || c.Arm? {
      ExactGoesOn(g0, c);
      assert forall tag, n :: Edge(NodeAt(c), tag, n) in Graph(body) <==> Edge(NodeAt(c), tag, n) in g0;
    }
  }

  lemma DroppedGraph(body: ExprList, c: Config)
    requires Tracked(body, c) && Dropped(c) && !HasOut(Unrepaired(body), NodeAt(c))
    ensures LostJoin(body, c) ==> Edge(NodeAt(c), Next, NodeAt(Step(c, Next).value)) !in Graph(body)
    ensures forall tag, n :: Edge(NodeAt(c), tag, n) in Graph(body) ==> n == ReturnNode
    ensures !LostJoin(body, c) ==> Exact(Graph(body), c) && Placed(Unrepaired(body), Step(c, Next).value)
  {
    var g0 := Unrepaired(body);
    var Label(e, after, outer) := c.ctrl;
    assert HasIn(g0, NodeAt(c));
    PartOfTail(body, e, after, outer);
    assert NodeAt(c) in TreeNodesOf(e);
    assert forall tag, n :: Edge(NodeAt(c), tag, n) in Graph(body) <==>
      !Cut(body, []) && tag == Next && n == ReturnNode;
    if after.Cons? {
      FramedShrinks(g0, outer, Ids(Cons(e, after)), Ids(after));
    } else if outer.Label? {
      assert Framed(g0, outer, Ids(Cons(e, after)));
    }
  }

  // The graph of a body has the machine's runs: the paths that leave
  // `Instructions` are labelled as the runs are and end where they end.
  ghost predicate SameRuns(body: ExprList) {
    forall tags, n :: Path(Graph(body), Instructions, [Next] + tags, n) <==> RunsTo(body, tags, n)
  }

  ghost predicate RunsTo(body: ExprList, tags: seq<Tag>, n: Node) {
    var c := Exec(Run(body, Bottom), tags);
    c.Some? && NodeAt(c.value) == n
  }

  ghost predicate LosesJoin(body: ExprList, c: Config) {
    exists tags :: Exec(c, tags).Some? && LostJoin(body, Settle(Exec(c, tags).value))
  }

  lemma {:induction false} PathIsExec(body: ExprList, c: Config, tags: seq<Tag>, n: Node)
    requires Tracked(body, c) && !LosesJoin(body, c)
    ensures Path(Graph(body), NodeAt(c), tags, n) <==> Exec(c, tags).Some? && NodeAt(Exec(c, tags).value) == n
    decreases |tags|
  {
    if tags != [] {
      TrackedSettles(body, c);
      assert Exec(c, []).Some?;
      GraphStep(body, Settle(c));
      var next := Step(Settle(c), tags[0]);
      if next.Some? {
        StillKeeps(body, c, tags[0]);
        PathIsExec(body, next.value, tags[1..], n);
      }
    }
  }

  lemma TrackedSettles(body: ExprList, c: Config)
    requires Tracked(body, c)
    ensures Tracked(body, Settle(c)) && !Quiet(Settle(c)) && NodeAt(Settle(c)) == NodeAt(c)
  {
    SettlePlaced(Unrepaired(body), c);
    SettleWithin(body, c);
    SettleStays(c);
  }

  lemma StillKeeps(body: ExprList, c: Config, tag: Tag)
    requires !LosesJoin(body, c) && Step(Settle(c), tag).Some?
    ensures !LosesJoin(body, Step(Settle(c), tag).value)
  {
    var d := Step(Settle(c), tag).value;
    forall tags | Exec(d, tags).Some?
      ensures !LostJoin(body, Settle(Exec(d, tags).value))
    {
      assert Exec(c, [tag] + tags) == Exec(d, tags);
    }
  }

  // A run to a lost join can be prolonged by a step the graph does not have.
  lemma {:induction false} LostRun(body: ExprList, c: Config, tags: seq<Tag>) returns (longer: seq<Tag>, n: Node)
    requires Tracked(body, c) && Exec(c, tags).Some? && LostJoin(body, Settle(Exec(c, tags).value))
    ensures Exec(c, longer).Some? && NodeAt(Exec(c, longer).value) == n
    ensures !Path(Graph(body), NodeAt(c), longer, n)
    decreases |tags|
  {
    TrackedSettles(body, c);
    var s := Settle(c);
    GraphStep(body, s);
    if LostJoin(body, s) {
      longer, n := [Next], NodeAt(Step(s, Next).value);
      assert Exec(Step(s, Next).value, longer[1..]) == Step(s, Next);
    } else {
      var d := Step(s, tags[0]).value;
      var rest;
      rest, n := LostRun(body, d, tags[1..]);
      longer := [tags[0]] + rest;
      assert longer[1..] == rest;
    }
  }

  lemma StartTracked(body: ExprList)
    requires Wf(body, {})
    ensures Tracked(body, Run(body, Bottom))
    ensures forall n :: Edge(Instructions, Next, n) in Graph(body) <==> n == Entry(body, ReturnNode)
  {
    StartPlaced(body);
    NestedFrom(body, [], ReturnNode);
    TreeNodesOwned(body);
  }

  lemma FromInstructions(body: ExprList, tags: seq<Tag>, n: Node)
    requires Wf(body, {})
    ensures Path(Graph(body), Instructions, [Next] + tags, n) <==> Path(Graph(body), Entry(body, ReturnNode), tags, n)
  {
    StartTracked(body);
    assert ([Next] + tags)[1..] == tags;
  }

  // The main result: the graph has exactly the runs of the machine if and
  // only if no run comes to a join whose edge is lost.
  lemma LoweringKeepsMeaning(body: ExprList)
    requires Wf(body, {})
    ensures SameRuns(body) <==> !LosesJoin(body, Run(body, Bottom))
  {
    var c := Run(body, Bottom);
    StartTracked(body);
    if LosesJoin(body, c) {
      var tags :| Exec(c, tags).Some? && LostJoin(body, Settle(Exec(c, tags).value));
      var longer, n := LostRun(body, c, tags);
      FromInstructions(body, longer, n);
      assert RunsTo(body, longer, n);
    } else {
      forall tags, n
        ensures Path(Graph(body), Instructions, [Next] + tags, n) <==> RunsTo(body, tags, n)
      {
        FromInstructions(body, tags, n);
        PathIsExec(body, c, tags, n);
      }
    }
  }

  lemma {:induction false} ExecTracked(body: ExprList, c: Config, tags: seq<Tag>)
    requires Tracked(body, c) && !LosesJoin(body, c) && Exec(c, tags).Some?
    ensures Tracked(body, Exec(c, tags).value)
    decreases |tags|
  {
    if tags != [] {
      TrackedSettles(body, c);
      assert Exec(c, []).Some?;
      GraphStep(body, Settle(c));
      StillKeeps(body, c, tags[0]);
      ExecTracked(body, Step(Settle(c), tags[0]).value, tags[1..]);
    }
  }

  // A node that some path from `Instructions` reaches.
  ghost predicate Live(body: ExprList, n: Node) {
    exists tags :: Path(Graph(body), Instructions, [Next] + tags, n)
  }

  lemma LiveConfig(body: ExprList, n: Node) returns (tags: seq<Tag>)
    requires Wf(body, {}) && !LosesJoin(body, Run(body, Bottom)) && Live(body, n)
    ensures Exec(Run(body, Bottom), tags).Some?
    ensures var s := Settle(Exec(Run(body, Bottom), tags).value);
            Tracked(body, s) && !Quiet(s) && NodeAt(s) == n && !LostJoin(body, s)
  {
    LoweringKeepsMeaning(body);
    tags :| Path(Graph(body), Instructions, [Next] + tags, n);
    assert RunsTo(body, tags, n);
    StartTracked(body);
    ExecTracked(body, Run(body, Bottom), tags);
    TrackedSettles(body, Exec(Run(body, Bottom), tags).value);
  }

  // Paths stop nowhere but at the return node and at Trap.
  lemma LiveNodesGoOn(body: ExprList, n: Node)
    requires Wf(body, {}) && !LosesJoin(body, Run(body, Bottom)) && Live(body, n)
    ensures HasOut(Graph(body), n) <==> n != ReturnNode && n != Trap
  {
    NoWayOut(body);
    var tags := LiveConfig(body, n);
    var s := Settle(Exec(Run(body, Bottom), tags).value);
    GraphStep(body, s);
    ExactGoesOn(Graph(body), s);
  }

  // A path that does not end at the return node is a run, whether joins are
  // lost or not: from a lost join an edge leads to the return node at most.
  lemma {:induction false} PathIsRun(body: ExprList, c: Config, tags: seq<Tag>, n: Node)
    requires Tracked(body, c) && Path(Graph(body), NodeAt(c), tags, n) && n != ReturnNode
    ensures Exec(c, tags).Some? && NodeAt(Exec(c, tags).value) == n && Tracked(body, Exec(c, tags).value)
    decreases |tags|
  {
    if tags != [] {
      var s := Settle(c);
      var mid :| Edge(NodeAt(c), tags[0], mid) in Graph(body) && Path(Graph(body), mid, tags[1..], n);
      TrackedSettles(body, c);
      GraphStep(body, s);
      NoWayOut(body);
      PathIsRun(body, Step(s, tags[0]).value, tags[1..], n);
    }
  }

  // The repair pass leaves every live node alone that is not a dropped join.
  lemma RepairsOnlyDroppedJoins(body: ExprList, n: Node)
    requires Wf(body, {}) && Live(body, n) && HasOut(Repairs(body), n)
    ensures exists tags :: RunsTo(body, tags, n) && Dropped(Settle(Exec(Run(body, Bottom), tags).value))
  {
    NoWayOut(body);
    TreeNodesOwned(body);
    var tags :| Path(Graph(body), Instructions, [Next] + tags, n);
    FromInstructions(body, tags, n);
    StartTracked(body);
    PathIsRun(body, Run(body, Bottom), tags, n);
    TrackedSettles(body, Exec(Run(body, Bottom), tags).value);
    var s := Settle(Exec(Run(body, Bottom), tags).value);
    SettleStays(Exec(Run(body, Bottom), tags).value);
    PlacedStep(Unrepaired(body), s);
    ExactGoesOn(Unrepaired(body), s);
  }

  // When `construct` returns true for a body, no run falls off its end.
  lemma CutBodyIsNotLeft(body: ExprList, tags: seq<Tag>)
    requires Wf(body, {}) && !LosesJoin(body, Run(body, Bottom)) && Cut(body, [])
    requires Exec(Run(body, Bottom), tags).Some?
    ensures FallsOff(Exec(Run(body, Bottom), tags).value) == false
  {
    StartTracked(body);
    ExecTracked(body, Run(body, Bottom), tags);
    NotFallingOff(body, Exec(Run(body, Bottom), tags).value);
  }

  // Quiet steps alone lead off the end of the body.
  ghost predicate FallsOff(c: Config)
    decreases if c.Run? then 1 else 0, if c.Run? then c.ctrl else Bottom
  {
    c == Run(Nil, Bottom) || (Quiet(c) && FallsOff(Step(c, Next).value))
  }

  lemma {:induction false} NotFallingOff(body: ExprList, c: Config)
    requires Within(body, c) && Cut(body, [])
    ensures !FallsOff(c)
    decreases if c.Run? then 1 else 0, if c.Run? then c.ctrl else Bottom
  {
    if Quiet(c) && c != Run(Nil, Bottom) {
      StepWithin(body, c, Next);
      NotFallingOff(body, Step(c, Next).value);
    }
  }

  // A condition on the code alone that rules lost joins out.
  lemma UntargetedKeepsMeaning(body: ExprList)
    requires Wf(body, {}) && Untargeted(body, [])
    ensures SameRuns(body)
  {
    StartTracked(body);
    forall tags | Exec(Run(body, Bottom), tags).Some?
      ensures !LostJoin(body, Settle(Exec(Run(body, Bottom), tags).value))
    {
      NothingDropped(body, Run(body, Bottom), tags);
    }
    LoweringKeepsMeaning(body);
  }

  lemma {:induction false} NothingDropped(body: ExprList, c: Config, tags: seq<Tag>)
    requires Tracked(body, c) && Untargeted(body, []) && Exec(c, tags).Some?
    ensures !Dropped(Settle(Exec(c, tags).value))
    decreases |tags|
  {
    TrackedSettles(body, c);
    TrackedIsKept(body, Settle(c));
    if tags != [] {
      GraphStep(body, Settle(c));
      NothingDropped(body, Step(Settle(c), tags[0]).value, tags[1..]);
    }
  }

  lemma TrackedIsKept(body: ExprList, c: Config)
    requires Tracked(body, c) && Untargeted(body, [])
    ensures !Dropped(c)
  {
    if Dropped(c) {
      var Label(e, after, outer) := c.ctrl;
      PartOfTail(body, e, after, outer);
      ArrivedInside(Unrepaired(body), c);
      assert false;
    }
  }

  // The loss is real: here the branch of `br_if` lands on the join of its own
  // if/else, and the instruction after it is never linked.
  lemma LostJoinExists()
    ensures exists body :: Wf(body, {}) && !SameRuns(body)
  {
    var thn := Cons(BrIf(2, "a"), Cons(Unreachable(3), Nil));
    var els := Cons(Unreachable(4), Nil);
    var e := If(1, "a", thn, els);
    var rest := Cons(Plain(5), Nil);
    var body := Cons(e, rest);
    var join := Run(Nil, Label(e, rest, Bottom));
    assert Wf(body, {}) by {
      var none: set<string> := {};
      assert none + {"a"} == {"a"};
      assert Wf(els, {"a"}) && Wf(thn.tail, {"a"}) && Wf(thn, {"a"});
      assert Ids(thn) == {2, 3} && Ids(els) == {4} && IdsOf(e) == {1, 2, 3, 4} && Ids(rest) == {5};
      assert WfExpr(e, {}) && Wf(rest, {});
    }
    assert Exec(Run(body, Bottom), [True, Next, True]) == Some(join) by {
      assert Exec(join, []) == Some(join);
      var inside := Run(thn, Label(e, rest, Bottom));
      assert [True, Next, True][1..][1..] == [True] && [True][1..] == [];
      assert Exec(inside, [True]) == Some(join);
      assert Exec(Arm(e, true, rest, Bottom), [Next, True]) == Exec(inside, [Next, True][1..]);
    }
    assert Ends(e, []) == Stop(true) by {
      var inner := [Binding("a", At(1, End))];
      assert Cut(thn.tail, inner) && Cut(thn, inner) && Cut(els, inner);
    }
    assert LostJoin(body, Settle(join));
    LoweringKeepsMeaning(body);
  }
}
