// Lowered code without loops: every edge leads forward in the text, and into
// an instruction that ends the program there is one way only.
module LoopFree {
  import opened Lowering
  import opened LoweringCorrect

  predicate NoLoops(es: ExprList) {
    match es
    case Nil => true
    case Cons(e, rest) => NoLoopsIn(e) && NoLoops(rest)
  }

  predicate NoLoopsIn(e: Expr) {
    match e
    case Block(_, _, body) => NoLoops(body)
    case Loop(_, _, _) => false
    case If(_, _, thn, els) => NoLoops(thn) && NoLoops(els)
    case _ => true
  }

  // ----- the nodes of the text -----

  ghost function Made(es: ExprList): set<Node> {
    match es
    case Nil => {}
    case Cons(e, rest) => MadeOf(e) + Made(rest)
  }

  ghost function MadeOf(e: Expr): set<Node> {
    match e
    case Return => {}
    case Block(id, _, body) => {At(id, Begin), At(id, End)} + Made(body)
    case Loop(id, _, body) => {At(id, Inst), At(id, LoopEnd)} + Made(body)
    case If(id, _, thn, els) => {At(id, Inst), At(id, ThenBegin), At(id, ElseBegin), At(id, End)} + Made(thn) + Made(els)
    case _ => {At(e.id, Inst)}
  }

  // The instructions that end the program.
  ghost function Traps(es: ExprList): set<nat> {
    match es
    case Nil => {}
    case Cons(e, rest) => TrapsOf(e) + Traps(rest)
  }

  ghost function TrapsOf(e: Expr): set<nat> {
    match e
    case Unreachable(id) => {id}
    case Block(_, _, body) => Traps(body)
    case Loop(_, _, body) => Traps(body)
    case If(_, _, thn, els) => Traps(thn) + Traps(els)
    case _ => {}
  }

  lemma {:induction false} MadeOwned(es: ExprList)
    ensures (forall n :: n in Made(es) ==> Owns(Ids(es), n)) && Traps(es) <= Ids(es)
  {
    if es.Cons? {
      MadeOfOwned(es.head);
      MadeOwned(es.tail);
    }
  }

  lemma {:induction false} MadeOfOwned(e: Expr)
    ensures (forall n :: n in MadeOf(e) ==> Owns(IdsOf(e), n)) && TrapsOf(e) <= IdsOf(e)
  {
    match e
    case Block(_, _, body) => MadeOwned(body);
    case Loop(_, _, body) => MadeOwned(body);
    case If(_, _, thn, els) =>
      MadeOwned(thn);
      MadeOwned(els);
    case _ =>
  }

  // ----- where edges lead -----

  // Where control may leave a list for.
  ghost function Targets(blocks: seq<Binding>): set<Node> {
    {ReturnNode, Trap} + set b | b in blocks :: b.node
  }

  ghost predicate Into(edges: set<Edge>, nodes: set<Node>) {
    forall g :: g in edges ==> g.dst in nodes
  }

  lemma {:induction false} LookupInto(blocks: seq<Binding>, name: string)
    ensures Lookup(blocks, name) in Targets(blocks)
  {
    if blocks != [] {
      LookupInto(blocks[1..], name);
      assert blocks[0] in blocks;
    }
  }

  lemma InnerTargets(b: Binding, blocks: seq<Binding>)
    ensures Targets([b] + blocks) == Targets(blocks) + {b.node}
  {
    assert b in [b] + blocks;
    assert forall c :: c in [b] + blocks <==> c == b || c in blocks;
  }

  lemma {:induction false} ExitInto(es: ExprList, after: Node)
    ensures Into(Exit(es, after), {after})
  {
    if es.Cons? {
      if es.tail.Cons? {
        ExitInto(es.tail, after);
      } else {
        match es.head
        case Loop(_, _, body) => ExitInto(body, after);
        case _ =>
      }
    }
  }

  lemma EntryInto(es: ExprList, after: Node)
    ensures Entry(es, after) in Made(es) + {ReturnNode, after}
  {
  }

  lemma {:induction false} EdgesInto(es: ExprList, blocks: seq<Binding>)
    ensures Into(Edges(es, blocks), Made(es) + Targets(blocks))
    decreases es, 1
  {
    if es.Cons? {
      InsideInto(es.head, blocks);
      EdgesInto(es.tail, blocks);
      LinkInto(es.head, blocks, es.tail);
    }
  }

  lemma LinkInto(e: Expr, blocks: seq<Binding>, rest: ExprList)
    ensures Into(Link(e, blocks, rest), MadeOf(e) + Made(rest) + {ReturnNode})
  {
    EntryInto(rest, ReturnNode);
    if e.Loop? {
      ExitInto(e.body, At(e.id, LoopEnd));
    }
  }

  lemma {:induction false} InsideInto(e: Expr, blocks: seq<Binding>)
    ensures Into(Inside(e, blocks), MadeOf(e) + Targets(blocks))
    decreases e, 0
  {
    match e
    case Br(_, target) => LookupInto(blocks, target);
    case BrIf(_, target) => LookupInto(blocks, target);
    case BrTable(_, targets, default) =>
      LookupInto(blocks, default);
      forall t | t in targets
        ensures Lookup(blocks, t) in Targets(blocks)
      {
        LookupInto(blocks, t);
      }
    case Block(id, name, body) => NestedInto(body, Binding(name, At(id, End)), blocks);
    case Loop(id, name, body) =>
      EdgesInto(body, [Binding(name, At(id, Inst))] + blocks);
      InnerTargets(Binding(name, At(id, Inst)), blocks);
      EntryInto(body, At(id, Inst));
    case If(id, name, thn, els) =>
      NestedInto(thn, Binding(name, At(id, End)), blocks);
      NestedInto(els, Binding(name, At(id, End)), blocks);
    case _ =>
  }

  lemma {:induction false} NestedInto(es: ExprList, b: Binding, blocks: seq<Binding>)
    ensures Into(Nested(es, [b] + blocks, b.node), Made(es) + {b.node} + Targets(blocks))
    ensures Entry(es, b.node) in Made(es) + {ReturnNode, b.node}
    decreases es, 2
  {
    EdgesInto(es, [b] + blocks);
    InnerTargets(b, blocks);
    ExitInto(es, b.node);
    EntryInto(es, b.node);
  }

  // ----- places in the text -----

  function Span(es: ExprList): nat {
    match es
    case Nil => 0
    case Cons(e, rest) => SpanOf(e) + Span(rest)
  }

  function SpanOf(e: Expr): nat {
    match e
    case Return => 0
    case Block(_, _, body) => 2 + Span(body)
    case Loop(_, _, body) => 2 + Span(body)
    case If(_, _, thn, els) => 4 + Span(thn) + Span(els)
    case _ => 1
  }

  // The nodes of the list are numbered from `lo` on.
  ghost predicate InOrder(r: Node -> nat, es: ExprList, lo: nat) {
    match es
    case Nil => true
    case Cons(e, rest) => InOrderOf(r, e, lo) && InOrder(r, rest, lo + SpanOf(e))
  }

  ghost predicate InOrderOf(r: Node -> nat, e: Expr, lo: nat) {
    match e
    case Return => true
    case Block(id, _, body) => r(At(id, Begin)) == lo && InOrder(r, body, lo + 1) && r(At(id, End)) == lo + 1 + Span(body)
    case Loop(id, _, body) => r(At(id, Inst)) == lo && InOrder(r, body, lo + 1) && r(At(id, LoopEnd)) == lo + 1 + Span(body)
    case If(id, _, thn, els) =>
      && r(At(id, Inst)) == lo && r(At(id, ThenBegin)) == lo + 1 && r(At(id, ElseBegin)) == lo + 2
      && InOrder(r, thn, lo + 3) && InOrder(r, els, lo + 3 + Span(thn)) && r(At(id, End)) == lo + 3 + Span(thn) + Span(els)
    case _ => r(At(e.id, Inst)) == lo
  }

  lemma {:induction false} MadeInOrder(r: Node -> nat, es: ExprList, lo: nat)
    requires InOrder(r, es, lo)
    ensures forall n :: n in Made(es) ==> lo <= r(n) < lo + Span(es)
  {
    if es.Cons? {
      MadeInOrder(r, es.tail, lo + SpanOf(es.head));
      match es.head
      case Block(_, _, body) => MadeInOrder(r, body, lo + 1);
      case Loop(_, _, body) => MadeInOrder(r, body, lo + 1);
      case If(_, _, thn, els) =>
        MadeInOrder(r, thn, lo + 3);
        MadeInOrder(r, els, lo + 3 + Span(thn));
      case _ =>
    }
  }

  // ----- every edge leads forward -----

  ghost predicate Forward(edges: set<Edge>, r: Node -> nat, lo: nat, hi: nat) {
    forall g :: g in edges ==> lo <= r(g.src) < hi && r(g.src) < r(g.dst)
  }

  ghost predicate Beyond(r: Node -> nat, blocks: seq<Binding>, hi: nat) {
    forall t :: t in Targets(blocks) ==> r(t) >= hi
  }

  lemma {:induction false} ExitForward(es: ExprList, after: Node, r: Node -> nat, lo: nat)
    requires NoLoops(es) && InOrder(r, es, lo) && r(after) >= lo + Span(es)
    ensures Forward(Exit(es, after), r, lo, lo + Span(es))
  {
    if es.Cons? && es.tail.Cons? {
      ExitForward(es.tail, after, r, lo + SpanOf(es.head));
    }
  }

  lemma EntryBeyond(es: ExprList, after: Node, r: Node -> nat, lo: nat)
    requires InOrder(r, es, lo) && r(after) >= lo && r(ReturnNode) >= lo
    ensures r(Entry(es, after)) >= lo
  {
  }

  lemma {:induction false} EdgesForward(es: ExprList, blocks: seq<Binding>, r: Node -> nat, lo: nat)
    requires NoLoops(es) && InOrder(r, es, lo) && Beyond(r, blocks, lo + Span(es))
    ensures Forward(Edges(es, blocks), r, lo, lo + Span(es))
    decreases es, 1
  {
    if es.Cons? {
      InsideForward(es.head, blocks, r, lo);
      EdgesForward(es.tail, blocks, r, lo + SpanOf(es.head));
      EntryBeyond(es.tail, ReturnNode, r, lo + SpanOf(es.head));
    }
  }

  lemma {:induction false} InsideForward(e: Expr, blocks: seq<Binding>, r: Node -> nat, lo: nat)
    requires NoLoopsIn(e) && InOrderOf(r, e, lo) && Beyond(r, blocks, lo + SpanOf(e))
    ensures Forward(Inside(e, blocks), r, lo, lo + SpanOf(e))
    decreases e, 0
  {
    match e
    case Br(_, target) => LookupInto(blocks, target);
    case BrIf(_, target) => LookupInto(blocks, target);
    case BrTable(_, targets, default) =>
      LookupInto(blocks, default);
      forall t | t in targets
        ensures Lookup(blocks, t) in Targets(blocks)
      {
        LookupInto(blocks, t);
      }
    case Block(id, name, body) => NestedForward(body, Binding(name, At(id, End)), blocks, r, lo + 1);
    case If(id, name, thn, els) =>
      NestedForward(thn, Binding(name, At(id, End)), blocks, r, lo + 3);
      NestedForward(els, Binding(name, At(id, End)), blocks, r, lo + 3 + Span(thn));
    case _ =>
  }

  lemma {:induction false} NestedForward(es: ExprList, b: Binding, blocks: seq<Binding>, r: Node -> nat, lo: nat)
    requires NoLoops(es) && InOrder(r, es, lo) && Beyond(r, blocks, lo + Span(es)) && r(b.node) >= lo + Span(es)
    ensures Forward(Nested(es, [b] + blocks, b.node), r, lo, lo + Span(es)) && r(Entry(es, b.node)) >= lo
    decreases es, 2
  {
    InnerTargets(b, blocks);
    EdgesForward(es, [b] + blocks, r, lo);
    ExitForward(es, b.node, r, lo);
    EntryBeyond(es, b.node, r, lo);
  }

  // ----- there is such a numbering -----

  ghost function Position(es: ExprList, n: Node, lo: nat): nat {
    match es
    case Nil => lo
    case Cons(e, rest) => if Owns(IdsOf(e), n) then PositionIn(e, n, lo) else Position(rest, n, lo + SpanOf(e))
  }

  ghost function PositionIn(e: Expr, n: Node, lo: nat): nat {
    match e
    case Block(id, _, body) =>
      if n == At(id, Begin) then lo else if n == At(id, End) then lo + 1 + Span(body) else Position(body, n, lo + 1)
    case Loop(id, _, body) =>
      if n == At(id, Inst) then lo else if n == At(id, LoopEnd) then lo + 1 + Span(body) else Position(body, n, lo + 1)
    case If(id, _, thn, els) =>
      if n == At(id, Inst) then lo else if n == At(id, ThenBegin) then lo + 1 else if n == At(id, ElseBegin) then lo + 2
      else if n == At(id, End) then lo + 3 + Span(thn) + Span(els)
      else if Owns(Ids(thn), n) then Position(thn, n, lo + 3) else Position(els, n, lo + 3 + Span(thn))
    case _ => lo
  }

  lemma {:induction false} PositionsInOrder(r: Node -> nat, es: ExprList, lo: nat, labels: set<string>)
    requires Wf(es, labels) && forall n :: Owns(Ids(es), n) ==> r(n) == Position(es, n, lo)
    ensures InOrder(r, es, lo)
    decreases es, 1
  {
    if es.Cons? {
      PositionsInOrderOf(r, es.head, lo, labels);
      PositionsInOrder(r, es.tail, lo + SpanOf(es.head), labels);
    }
  }

  lemma {:induction false} PositionsInOrderOf(r: Node -> nat, e: Expr, lo: nat, labels: set<string>)
    requires WfExpr(e, labels) && forall n :: Owns(IdsOf(e), n) ==> r(n) == PositionIn(e, n, lo)
    ensures InOrderOf(r, e, lo)
    decreases e, 0
  {
    match e
    case Block(_, name, body) => PositionsInOrder(r, body, lo + 1, labels + {name});
    case Loop(_, name, body) => PositionsInOrder(r, body, lo + 1, labels + {name});
    case If(_, name, thn, els) =>
      ArmPositions(r, e, lo);
      PositionsInOrder(r, thn, lo + 3, labels + {name});
      PositionsInOrder(r, els, lo + 3 + Span(thn), labels + {name});
    case _ =>
  }

  lemma ArmPositions(r: Node -> nat, e: Expr, lo: nat)
    requires e.If? && e.id !in Ids(e.thn) + Ids(e.els) && Ids(e.thn) !! Ids(e.els)
    requires forall n :: Owns(IdsOf(e), n) ==> r(n) == PositionIn(e, n, lo)
    ensures r(At(e.id, Inst)) == lo && r(At(e.id, ThenBegin)) == lo + 1 && r(At(e.id, ElseBegin)) == lo + 2
    ensures r(At(e.id, End)) == lo + 3 + Span(e.thn) + Span(e.els)
    ensures forall n :: Owns(Ids(e.thn), n) ==> r(n) == Position(e.thn, n, lo + 3)
    ensures forall n :: Owns(Ids(e.els), n) ==> r(n) == Position(e.els, n, lo + 3 + Span(e.thn))
  {
  }

  // The place of a node in the text of a function.
  ghost function Place(body: ExprList, n: Node): nat {
    match n
    case Instructions => 0
    case At(_, _) => Position(body, n, 1)
    case _ => 1 + Span(body)
  }

  // The text orders the graph.
  lemma GraphForward(body: ExprList)
    requires Wf(body, {}) && NoLoops(body)
    ensures forall g :: g in Graph(body) ==> Place(body, g.src) < Place(body, g.dst)
    ensures Into(Graph(body), Made(body) + {ReturnNode, Trap})
  {
    ghost var r := n => Place(body, n);
    PositionsInOrder(r, body, 1, {});
    UnrepairedForward(body, r);
    TreeNodesOwned(body);
    MadeInOrder(r, body, 1);
    forall g | g in Repairs(body)
      ensures r(g.src) < r(g.dst)
    {
      assert g.src in TreeNodes(body) && HasIn(Unrepaired(body), g.src);
    }
  }

  lemma UnrepairedForward(body: ExprList, r: Node -> nat)
    requires NoLoops(body) && InOrder(r, body, 1)
    requires r(Instructions) == 0 && r(ReturnNode) == 1 + Span(body) && r(Trap) == 1 + Span(body)
    ensures forall g :: g in Unrepaired(body) ==> r(g.src) < r(g.dst)
    ensures Into(Unrepaired(body), Made(body) + {ReturnNode, Trap})
  {
    assert Targets([]) == {ReturnNode, Trap};
    EdgesForward(body, [], r, 1);
    ExitForward(body, ReturnNode, r, 1);
    EdgesInto(body, []);
    ExitInto(body, ReturnNode);
    EntryInto(body, ReturnNode);
    EntryBeyond(body, ReturnNode, r, 1);
  }

  // ----- one way into an instruction that ends the program -----

  ghost predicate AtMostOne(edges: set<Edge>, n: Node) {
    forall g, h :: g in edges && h in edges && g.dst == n && h.dst == n ==> g == h
  }

  lemma {:induction false} OneInto(es: ExprList, blocks: seq<Binding>, labels: set<string>, id: nat, first: Edge, after: Node)
    requires NoLoops(es) && Wf(es, labels) && id in Traps(es) && At(id, Inst) !in Targets(blocks) && first.dst == Entry(es, after)
    ensures AtMostOne(Edges(es, blocks) + {first}, At(id, Inst))
    decreases es, 1
  {
    var e, rest := es.head, es.tail;
    MadeOwned(rest);
    MadeOfOwned(e);
    InsideInto(e, blocks);
    EdgesInto(rest, blocks);
    EntryInto(rest, ReturnNode);
    if id in Traps(rest) {
      var link := Edge(At(id, Inst), Next, Entry(rest, after));
      if g :| g in Link(e, blocks, rest) {
        link := g;
      }
      OneInto(rest, blocks, labels, id, link, after);
    } else if !e.Unreachable? {
      OneInside(e, blocks, labels, id);
    }
  }

  lemma {:induction false} OneInside(e: Expr, blocks: seq<Binding>, labels: set<string>, id: nat)
    requires NoLoopsIn(e) && WfExpr(e, labels) && id in TrapsOf(e) && !e.Unreachable? && At(id, Inst) !in Targets(blocks)
    ensures AtMostOne(Inside(e, blocks), At(id, Inst)) && NodeOf(e) != At(id, Inst)
    decreases e, 0, 1
  {
    match e
    case Block(k, name, body) =>
      OneNested(body, Binding(name, At(k, End)), blocks, labels, id, Edge(At(k, Begin), Next, Entry(body, At(k, End))));
    case If(_, _, thn, els) =>
      if id in Traps(thn) {
        OneInArm(e, thn, els, At(e.id, ThenBegin), At(e.id, ElseBegin), blocks, labels, id);
      } else {
        OneInArm(e, els, thn, At(e.id, ElseBegin), At(e.id, ThenBegin), blocks, labels, id);
      }
    case _ =>
  }

  // The arm `own` has the instruction, the other arm does not.
  lemma {:induction false} OneInArm(e: Expr, own: ExprList, other: ExprList, begin: Node, otherBegin: Node,
                                    blocks: seq<Binding>, labels: set<string>, id: nat)
    requires NoLoopsIn(e) && WfExpr(e, labels) && e.If? && id in Traps(own) && At(id, Inst) !in Targets(blocks)
    requires (own == e.thn && other == e.els && begin == At(e.id, ThenBegin) && otherBegin == At(e.id, ElseBegin))
          || (own == e.els && other == e.thn && begin == At(e.id, ElseBegin) && otherBegin == At(e.id, ThenBegin))
    ensures AtMostOne(Inside(e, blocks), At(id, Inst)) && NodeOf(e) != At(id, Inst)
    decreases e, 0, 0
  {
    hide Made, Targets, Entry;
    var b := Binding(e.name, At(e.id, End));
    MadeOwned(own);
    MadeOwned(other);
    NestedInto(other, b, blocks);
    OneNested(own, b, blocks, labels, id, Edge(begin, Next, Entry(own, b.node)));
    ExitInto(other, b.node);
  }

  lemma {:induction false} OneNested(es: ExprList, b: Binding, blocks: seq<Binding>, labels: set<string>, id: nat, first: Edge)
    requires NoLoops(es) && Wf(es, labels + {b.name}) && id in Traps(es) && At(id, Inst) !in Targets(blocks)
    requires b.node.At? && b.node.part == End && first.dst == Entry(es, b.node)
    ensures AtMostOne(Nested(es, [b] + blocks, b.node) + {first}, At(id, Inst)) && id in Ids(es)
    decreases es, 2
  {
    InnerTargets(b, blocks);
    OneInto(es, [b] + blocks, labels + {b.name}, id, first, b.node);
    ExitInto(es, b.node);
    MadeOwned(es);
  }

  lemma OneWayOnly(body: ExprList, id: nat)
    requires Wf(body, {}) && NoLoops(body) && id in Traps(body)
    ensures AtMostOne(Graph(body), At(id, Inst))
  {
    OneInto(body, [], {}, id, Edge(Instructions, Next, Entry(body, ReturnNode)), ReturnNode);
    ExitInto(body, ReturnNode);
  }
}
