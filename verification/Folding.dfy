// Stack-machine code folded into operand trees (src/ast-builder.cc), as
// functions.
module Folding {
  import opened Wrappers

  // What GetExprArity says of an instruction.
  datatype Arity = Arity(nargs: nat, nreturns: nat, unreachable: bool)

  datatype Kind = Return | Unreachable | Br | BrIf | Other

  datatype Expr =
    | Op(kind: Kind, arity: Arity)
    | Block(arity: Arity, nresults: nat, body: Exprs)
    | Loop(arity: Arity, nresults: nat, body: Exprs)
    | If(arity: Arity, nresults: nat, thn: Exprs, els: Exprs)

  datatype Exprs = Nil | Cons(head: Expr, tail: Exprs)

  // A node with its operands, first operand first, and with the nodes it
  // holds as a block.
  datatype Tree = Tree(id: nat, args: seq<Tree>, body: seq<Tree>)

  // The next id, the operand stack (top last), the statements, and the ids of
  // the nodes that mark the beginning of a block.
  datatype State = State(next: nat, stack: seq<Tree>, list: seq<Tree>, begins: seq<nat>)

  // What a holder gets.
  datatype Folded = Folded(next: nat, kids: seq<Tree>, begins: seq<nat>)

  // The arity that the builder goes by.
  function Used(kind: Kind, a: Arity): Arity {
    match kind
    case Return => a.(unreachable := false)
    case Br => a.(nargs := 0, nreturns := 0)
    case BrIf => a.(nargs := 1, nreturns := 0)
    case _ => a
  }

  predicate Allowed(a: Arity, stack: seq<Tree>) {
    a.nargs <= |stack| && a.nreturns <= 1
  }

  function Args(stack: seq<Tree>, n: nat): seq<Tree>
    requires n <= |stack|
  {
    stack[|stack| - n..]
  }

  // The node takes its operands and goes on the stack or among the statements.
  function Placed(s: State, id: nat, next: nat, a: Arity, body: seq<Tree>, begins: seq<nat>): State
    requires a.nargs <= |s.stack|
  {
    var t := Tree(id, Args(s.stack, a.nargs), body);
    var rest := s.stack[..|s.stack| - a.nargs];
    if a.nreturns == 0 || a.unreachable then State(next, rest, s.list + [t], begins) else State(next, rest + [t], s.list, begins)
  }

  // None where an assertion fails or an operand is missing.
  function FoldExpr(e: Expr, s: State): Option<State>
    decreases e, 2
  {
    if !Allowed(e.arity, s.stack) then None
    else
      match e
      case Op(kind, a) =>
        if Used(kind, a).nargs > |s.stack| then None
        else Some(Placed(s, s.next, s.next + 1, Used(kind, a), [], s.begins))
      case Block(_, _, _) => FoldBlock(e, s)
      case Loop(_, _, _) => FoldBlock(e, s)
      case If(_, _, _, _) => FoldIf(e, s)
  }

  // A block has a marker for its beginning, made last.
  function FoldBlock(e: Expr, s: State): Option<State>
    requires (e.Block? || e.Loop?) && Allowed(e.arity, s.stack)
    decreases e, 0
  {
    match FoldBody(e.body, e.nresults, s.next + 1)
    case None => None
    case Some(f) =>
      if e.Block? then Some(Placed(s, s.next, f.next + 1, e.arity, f.kids, s.begins + f.begins + [f.next]))
      else Some(Placed(s, s.next, f.next, e.arity, f.kids, s.begins + f.begins))
  }

  // The condition is the one operand, whatever the arity.
  function FoldIf(e: Expr, s: State): Option<State>
    requires e.If? && Allowed(e.arity, s.stack)
    decreases e, 1
  {
    if s.stack == [] then None
    else
      match FoldArms(e, s.next + 1)
      case None => None
      case Some(f) => Some(Placed(s, s.next, f.next, Arity(1, e.arity.nreturns, false), f.kids, s.begins + f.begins))
  }

  // The arms of an if: the node for the first, its begin marker, what it
  // holds; then, unless it is empty, the node for the second.
  function FoldArms(e: Expr, next: nat): Option<Folded>
    requires e.If?
    decreases e, 0
  {
    match FoldBody(e.thn, e.nresults, next + 2)
    case None => None
    case Some(f) =>
      var first := Tree(next, [], f.kids);
      if e.els.Nil? then Some(Folded(f.next, [first], [next + 1] + f.begins))
      else
        match FoldBody(e.els, e.nresults, f.next + 1)
        case None => None
        case Some(g) => Some(Folded(g.next, [first, Tree(f.next, [], g.kids)], [next + 1] + f.begins + g.begins))
  }

  function FoldAll(es: Exprs, s: State): Option<State>
    decreases es, 0
  {
    match es
    case Nil => Some(s)
    case Cons(e, rest) =>
      match FoldExpr(e, s)
      case None => None
      case Some(t) => FoldAll(rest, t)
  }

  // A block: the statements, then what is left on the stack.
  function FoldBody(es: Exprs, nresults: nat, next: nat): Option<Folded>
    decreases es, 1
  {
    match FoldAll(es, State(next, [], [], []))
    case None => None
    case Some(s) =>
      Some(Folded(s.next, s.list + if EndsUnreachable(es) && |s.stack| < nresults then Reverse(s.stack) else s.stack, s.begins))
  }

  // A function: its return node comes first and holds the result, unless the
  // code ends in `unreachable` and leaves none.
  function FoldFunction(es: Exprs, nresults: nat, next: nat): Option<Folded> {
    match FoldAll(es, State(next + 1, [], [], []))
    case None => None
    case Some(s) =>
      var held := if nresults == 1 && !(EndsUnreachable(es) && s.stack == []) then 1 else 0;
      if held > |s.stack| then None
      else
        var top := |s.stack| - held;
        Some(Folded(s.next, s.list + Reverse(s.stack[..top]) + [Tree(next, s.stack[top..], [])], s.begins))
  }

  predicate EndsUnreachable(es: Exprs) {
    es.Cons? && if es.tail.Nil? then es.head.Op? && es.head.kind.Unreachable? else EndsUnreachable(es.tail)
  }

  function Reverse(ts: seq<Tree>): seq<Tree> {
    if ts == [] then [] else [ts[|ts| - 1]] + Reverse(ts[..|ts| - 1])
  }

  // ----- the ids and edges of trees -----

  // How many nodes of a tree have the id.
  ghost function Count(t: Tree, n: nat): nat {
    (if t.id == n then 1 else 0) + CountAll(t.args, n) + CountAll(t.body, n)
  }

  ghost function CountAll(ts: seq<Tree>, n: nat): nat {
    if ts == [] then 0 else Count(ts[0], n) + CountAll(ts[1..], n)
  }

  ghost function Times(s: seq<nat>, n: nat): nat {
    if s == [] then 0 else (if s[0] == n then 1 else 0) + Times(s[1..], n)
  }

  // An edge from `parent` to `child`.
  datatype Link = Link(parent: nat, child: nat)

  ghost function Links(t: Tree): set<Link> {
    Under(t.id, t.args) + Under(t.id, t.body) + LinksOf(t.args) + LinksOf(t.body)
  }

  ghost function LinksOf(ts: seq<Tree>): set<Link> {
    if ts == [] then {} else Links(ts[0]) + LinksOf(ts[1..])
  }

  ghost function Under(id: nat, ts: seq<Tree>): set<Link> {
    set i | 0 <= i < |ts| :: Link(id, ts[i].id)
  }
}
