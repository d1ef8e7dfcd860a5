// Structured WebAssembly code, the nodes of its control-flow graph, and the
// edge sets that the lowering of src/cfg-builder.cc produces, as functions.
module Lowering {

  // ----- structured code -----

  // One instruction of a function body. `id` stands for the identity of the
  // expression object: two instructions of one body never share it. `Plain`
  // is every instruction whose only continuation is the next one (calls
  // included). A `return` carries no id because every one of them is mapped
  // to the return node of its function.
  datatype Expr =
    | Plain(id: nat)
    | Return
    | Unreachable(id: nat)
    | Br(id: nat, target: string)
    | BrIf(id: nat, target: string)
    | BrTable(id: nat, targets: seq<string>, default: string)
    | Block(id: nat, name: string, body: ExprList)
    | Loop(id: nat, name: string, body: ExprList)
    | If(id: nat, name: string, thn: ExprList, els: ExprList)

  datatype ExprList = Nil | Cons(head: Expr, tail: ExprList)

  ghost function Ids(es: ExprList): set<nat> {
    match es
    case Nil => {}
    case Cons(e, rest) => IdsOf(e) + Ids(rest)
  }

  ghost function IdsOf(e: Expr): set<nat> {
    match e
    case Return => {}
    case Block(id, _, body) => {id} + Ids(body)
    case Loop(id, _, body) => {id} + Ids(body)
    case If(id, _, thn, els) => {id} + Ids(thn) + Ids(els)
    case _ => {e.id}
  }

  // What the lowering asks of a body: distinct expression objects, no empty
  // block, loop or then-branch, and branches to enclosing labels only.
  ghost predicate Wf(es: ExprList, labels: set<string>) {
    match es
    case Nil => true
    case Cons(e, rest) => WfExpr(e, labels) && Wf(rest, labels) && IdsOf(e) !! Ids(rest)
  }

  ghost predicate WfExpr(e: Expr, labels: set<string>) {
    match e
    case Br(_, target) => target in labels
    case BrIf(_, target) => target in labels
    case BrTable(_, targets, default) => default in labels && forall t :: t in targets ==> t in labels
    case Block(id, name, body) => body.Cons? && id !in Ids(body) && Wf(body, labels + {name})
    case Loop(id, name, body) => body.Cons? && id !in Ids(body) && Wf(body, labels + {name})
    case If(id, name, thn, els) =>
      && thn.Cons? && id !in Ids(thn) + Ids(els) && Ids(thn) !! Ids(els)
      && Wf(thn, labels + {name}) && Wf(els, labels + {name})
    case _ => true
  }

  // ----- graph -----

  // The nodes that one instruction owns: the instruction itself, the
  // begin and end markers of a block, the begin markers of the two arms of an
  // `if` (whose join is its End), and the marker after a loop.
  datatype Part = Inst | Begin | End | ThenBegin | ElseBegin | LoopEnd

  datatype Node = Instructions | ReturnNode | Trap | At(id: nat, part: Part)

  datatype Tag = Next | True | False | Case(index: nat) | Default

  datatype Edge = Edge(src: Node, tag: Tag, dst: Node)

  // One entry of the `_blocks` list.
  datatype Binding = Binding(name: string, node: Node)

  ghost predicate Owns(ids: set<nat>, n: Node) {
    n.At? && n.id in ids
  }

  predicate HasIn(edges: set<Edge>, n: Node) {
    exists g :: g in edges && g.dst == n
  }

  predicate HasOut(edges: set<Edge>, n: Node) {
    exists g :: g in edges && g.src == n
  }

  // The node by which control enters an instruction.
  function NodeOf(e: Expr): Node {
    match e
    case Return => ReturnNode
    case Block(id, _, _) => At(id, Begin)
    case _ => At(e.id, Inst)
  }

  function Entry(es: ExprList, after: Node): Node {
    if es.Nil? then after else NodeOf(es.head)
  }

  // The innermost binding of a name. A name without a binding denotes the
  // function itself; GetBlock never asks for one.
  function Lookup(blocks: seq<Binding>, name: string): Node {
    if blocks == [] then ReturnNode
    else if blocks[0].name == name then blocks[0].node
    else Lookup(blocks[1..], name)
  }

  // ----- lowering -----

  // How the list walk goes on after an instruction: with the next one, or
  // not at all, returning whether the list counts as unreachable at its end.
  datatype Outcome = Go | Stop(cut: bool)

  ghost function Edges(es: ExprList, blocks: seq<Binding>): set<Edge>
    decreases es, 2
  {
    match es
    case Nil => {}
    case Cons(e, rest) =>
      if Ends(e, blocks).Stop? then Inside(e, blocks)
      else Inside(e, blocks) + Link(e, blocks, rest) + Edges(rest, blocks)
  }

  // The boolean that `construct` returns.
  ghost predicate Cut(es: ExprList, blocks: seq<Binding>)
    decreases es, 2
  {
    match es
    case Nil => false
    case Cons(e, rest) =>
      if Ends(e, blocks).Stop? then Ends(e, blocks).cut else Cut(rest, blocks)
  }

  ghost function Ends(e: Expr, blocks: seq<Binding>): Outcome
    decreases e, 1
  {
    match e
    case Return => Stop(false)
    case Unreachable(_) => Stop(true)
    case Br(_, _) => Stop(true)
    case Block(id, _, _) => if HasIn(Inside(e, blocks), At(id, End)) then Go else Stop(false)
    case If(id, name, thn, els) =>
      var inner := [Binding(name, At(id, End))] + blocks;
      if els.Cons? && Cut(thn, inner) && Cut(els, inner) then Stop(true) else Go
    case _ => Go
  }

  // The edges an instruction produces whatever follows it.
  ghost function Inside(e: Expr, blocks: seq<Binding>): set<Edge>
    decreases e, 0
  {
    match e
    case Plain(_) => {}
    case Return => {}
    case Unreachable(id) => {Edge(At(id, Inst), Next, Trap)}
    case Br(id, target) => {Edge(At(id, Inst), Next, Lookup(blocks, target))}
    case BrIf(id, target) => {Edge(At(id, Inst), True, Lookup(blocks, target))}
    case BrTable(id, targets, default) => TableEdges(id, targets, default, blocks)
    case Block(id, name, body) =>
      var inner := [Binding(name, At(id, End))] + blocks;
      {Edge(At(id, Begin), Next, Entry(body, At(id, End)))} + Nested(body, inner, At(id, End))
    case Loop(id, name, body) =>
      var inner := [Binding(name, At(id, Inst))] + blocks;
      {Edge(At(id, Inst), Next, Entry(body, At(id, Inst)))} + Edges(body, inner)
    case If(id, name, thn, els) =>
      var inner := [Binding(name, At(id, End))] + blocks;
      {Edge(At(id, Inst), True, At(id, ThenBegin)), Edge(At(id, Inst), False, At(id, ElseBegin)),
       Edge(At(id, ThenBegin), Next, Entry(thn, At(id, End))),
       Edge(At(id, ElseBegin), Next, Entry(els, At(id, End)))}
      + Nested(thn, inner, At(id, End)) + (if els.Cons? then Nested(els, inner, At(id, End)) else {})
  }

  // A nested list together with the edges from its last instruction, which
  // are left out when the list counts as unreachable at its end.
  ghost function Nested(es: ExprList, blocks: seq<Binding>, after: Node): set<Edge>
    decreases es, 3
  {
    Edges(es, blocks) + if Cut(es, blocks) then {} else Exit(es, after)
  }

  ghost function TableEdges(id: nat, targets: seq<string>, default: string, blocks: seq<Binding>): set<Edge> {
    (set i: nat | i < |targets| :: Edge(At(id, Inst), Case(i), Lookup(blocks, targets[i])))
    + {Edge(At(id, Inst), Default, Lookup(blocks, default))}
  }

  // The edges from an instruction to the one after it, if there is one.
  ghost function Link(e: Expr, blocks: seq<Binding>, rest: ExprList): set<Edge>
    decreases e, 1
  {
    if rest.Nil? then {} else
    var next := NodeOf(rest.head);
    match e
    case Plain(id) => {Edge(At(id, Inst), Next, next)}
    case BrIf(id, _) => {Edge(At(id, Inst), False, next)}
    case Block(id, _, _) => {Edge(At(id, End), Next, next)}
    case Loop(id, _, body) => Exit(body, At(id, LoopEnd)) + {Edge(At(id, LoopEnd), Next, next)}
    case If(id, _, _, _) => if HasIn(Inside(e, blocks), At(id, End)) then {Edge(At(id, End), Next, next)} else {}
    case _ => {}
  }

  // insertEdgeFromLastExpr: the edges from the last instruction of a list to
  // the node that control reaches by falling off its end.
  ghost function Exit(es: ExprList, after: Node): set<Edge> {
    match es
    case Nil => {}
    case Cons(e, Nil) => ExitOf(e, after)
    case Cons(_, rest) => Exit(rest, after)
  }

  ghost function ExitOf(e: Expr, after: Node): set<Edge> {
    match e
    case Plain(id) => {Edge(At(id, Inst), Next, after)}
    case BrIf(id, _) => {Edge(At(id, Inst), False, after)}
    case Block(id, _, _) => {Edge(At(id, End), Next, after)}
    case Loop(_, _, body) => Exit(body, after)
    case If(id, _, _, _) => {Edge(At(id, End), Next, after)}
    case _ => {}
  }

  // ----- one function -----

  // The instruction nodes below `Instructions` in the syntax tree, where the
  // repair pass looks. Begin markers and loop-end markers are not among them.
  function TreeNodes(es: ExprList): set<Node> {
    match es
    case Nil => {}
    case Cons(e, rest) => TreeNodesOf(e) + TreeNodes(rest)
  }

  function TreeNodesOf(e: Expr): set<Node> {
    match e
    case Return => {}
    case Block(id, _, body) => {At(id, End)} + TreeNodes(body)
    case Loop(id, _, body) => {At(id, Inst)} + TreeNodes(body)
    case If(id, _, thn, els) => {At(id, Inst), At(id, End)} + TreeNodes(thn) + TreeNodes(els)
    case _ => {At(e.id, Inst)}
  }

  ghost function Unrepaired(body: ExprList): set<Edge> {
    {Edge(Instructions, Next, Entry(body, ReturnNode))}
    + if body.Nil? then {} else Nested(body, [], ReturnNode)
  }

  // The repair pass runs only when the body is not cut at its end.
  ghost function Repairs(body: ExprList): set<Edge> {
    if body.Nil? || Cut(body, []) then {} else
    set n | n in TreeNodes(body) && !HasOut(Unrepaired(body), n) && HasIn(Unrepaired(body), n)
      :: Edge(n, Next, ReturnNode)
  }

  // All CFG edges of one function.
  ghost function Graph(body: ExprList): set<Edge> {
    Unrepaired(body) + Repairs(body)
  }

  // No if/else whose arms are both cut is the target of a branch.
  ghost predicate Untargeted(es: ExprList, blocks: seq<Binding>) {
    match es
    case Nil => true
    case Cons(e, rest) => UntargetedIn(e, blocks) && Untargeted(rest, blocks)
  }

  ghost predicate UntargetedIn(e: Expr, blocks: seq<Binding>) {
    match e
    case Block(id, name, body) => Untargeted(body, [Binding(name, At(id, End))] + blocks)
    case Loop(id, name, body) => Untargeted(body, [Binding(name, At(id, Inst))] + blocks)
    case If(id, name, thn, els) =>
      var inner := [Binding(name, At(id, End))] + blocks;
      && (Ends(e, blocks).Stop? ==> !HasIn(Inside(e, blocks), At(id, End)))
      && Untargeted(thn, inner) && Untargeted(els, inner)
    case _ => true
  }
}
