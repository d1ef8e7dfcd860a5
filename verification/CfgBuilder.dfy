// The builder itself, as src/cfg-builder.cc writes it: a graph that grows
// edge by edge and a list of enclosing labels that is pushed and popped.
module CfgBuilder {
  import opened Lowering

  // No edge and no label leads to a join of the instructions `ids`.
  ghost predicate Clear(edges: set<Edge>, ids: set<nat>) {
    forall g :: g in edges ==> !JoinOf(ids, g.dst)
  }

  ghost predicate ClearLabels(blocks: seq<Binding>, ids: set<nat>) {
    forall b :: b in blocks ==> !JoinOf(ids, b.node)
  }

  ghost predicate JoinOf(ids: set<nat>, n: Node) {
    n.At? && n.part == End && n.id in ids
  }

  lemma {:induction false} LookupClear(blocks: seq<Binding>, target: string, ids: set<nat>)
    requires ClearLabels(blocks, ids)
    ensures !JoinOf(ids, Lookup(blocks, target))
  {
    if blocks != [] && blocks[0].name != target {
      LookupClear(blocks[1..], target, ids);
    }
  }

  lemma {:induction false} ExitClear(es: ExprList, after: Node, ids: set<nat>)
    requires !JoinOf(ids, after)
    ensures Clear(Exit(es, after), ids)
  {
    match es
    case Nil =>
    case Cons(Loop(_, _, body), Nil) => ExitClear(body, after, ids);
    case Cons(_, Nil) =>
    case Cons(_, rest) => ExitClear(rest, after, ids);
  }

  lemma {:induction false} EdgesClear(es: ExprList, blocks: seq<Binding>, ids: set<nat>)
    requires ids !! Ids(es) && ClearLabels(blocks, ids)
    ensures Clear(Edges(es, blocks), ids)
    decreases es, 2
  {
    if es.Cons? {
      var e, rest := es.head, es.tail;
      assert Ids(es) == IdsOf(e) + Ids(rest);
      InsideClear(e, blocks, ids);
      EdgesClear(rest, blocks, ids);
      LinkClear(e, blocks, rest, ids);
    }
  }

  lemma LinkClear(e: Expr, blocks: seq<Binding>, rest: ExprList, ids: set<nat>)
    ensures Clear(Link(e, blocks, rest), ids)
  {
    if e.Loop? {
      ExitClear(e.body, At(e.id, LoopEnd), ids);
    }
  }

  lemma {:induction false} NestedClear(es: ExprList, e: Expr, blocks: seq<Binding>, ids: set<nat>)
    requires e.Block? || e.If?
    requires ids !! Ids(es) && e.id !in ids && ClearLabels(blocks, ids)
    ensures Clear(Nested(es, [Binding(e.name, At(e.id, End))] + blocks, At(e.id, End)), ids)
    decreases es, 3
  {
    var inner := [Binding(e.name, At(e.id, End))] + blocks;
    EdgesClear(es, inner, ids);
    ExitClear(es, At(e.id, End), ids);
  }

  lemma {:induction false} InsideClear(e: Expr, blocks: seq<Binding>, ids: set<nat>)
    requires ids !! IdsOf(e) && ClearLabels(blocks, ids)
    ensures Clear(Inside(e, blocks), ids)
    decreases e, 0
  {
    forall target {
      LookupClear(blocks, target, ids);
    }
    match e
    case Block(id, _, body) => NestedClear(body, e, blocks, ids);
    case Loop(id, name, body) => EdgesClear(body, [Binding(name, At(id, Inst))] + blocks, ids);
    case If(id, _, thn, els) =>
      NestedClear(thn, e, blocks, ids);
      NestedClear(els, e, blocks, ids);
    case _ =>
  }

  // A join without edges so far gets them from its own instruction only.
  lemma JoinIsNew(before: set<Edge>, inside: set<Edge>, join: Node)
    requires join.At? && join.part == End && Clear(before, {join.id})
    ensures HasIn(before + inside, join) <==> HasIn(inside, join)
  {
    assert forall g :: g in before && g.dst == join ==> JoinOf({join.id}, g.dst);
  }

  class Cfg {
    var edges: set<Edge>
    var blocks: seq<Binding>

    constructor ()
      ensures edges == {} && blocks == []
    {
      edges, blocks := {}, [];
    }

    // The labels in scope are bound, and no join of the code that is still to
    // be lowered has an edge or a binding yet.
    ghost predicate Ready(es: ExprList, labels: set<string>)
      reads this
    {
      && (forall name :: name in labels ==> exists b :: b in blocks && b.name == name)
      && Clear(edges, Ids(es)) && ClearLabels(blocks, Ids(es))
    }

    // The innermost enclosing label of that name; the assertion after the
    // source's loop is never reached.
    method GetBlock(target: string) returns (node: Node)
      requires exists b :: b in blocks && b.name == target
      ensures node == Lookup(blocks, target)
      ensures exists i :: 0 <= i < |blocks| && blocks[i] == Binding(target, node)
                          && forall j :: 0 <= j < i ==> blocks[j].name != target
    {
      for i := 0 to |blocks|
        invariant forall j :: 0 <= j < i ==> blocks[j].name != target
        invariant Lookup(blocks, target) == Lookup(blocks[i..], target)
      {
        if blocks[i].name == target {
          return blocks[i].node;
        }
        assert blocks[i..][1..] == blocks[i + 1..];
      }
      assert false;
    }

    method Connect(src: Node, tag: Tag, dst: Node)
      modifies this`edges
      ensures edges == old(edges) + {Edge(src, tag, dst)}
    {
      edges := edges + {Edge(src, tag, dst)};
    }

    method InsertEdgeFromLastExpr(es: ExprList, after: Node, ghost labels: set<string>)
      requires es.Cons? && Wf(es, labels)
      modifies this`edges
      ensures edges == old(edges) + Exit(es, after)
      decreases es
    {
      var it := es;
      while it.tail.Cons?
        invariant it.Cons? && (it == es || it < es) && Wf(it, labels)
        invariant Exit(it, after) == Exit(es, after)
        decreases it
      {
        it := it.tail;
      }
      assert Exit(it, after) == ExitOf(it.head, after);
      match it.head
      case Plain(id) => Connect(At(id, Inst), Next, after);
      case BrIf(id, _) => Connect(At(id, Inst), False, after);
      case Block(id, _, _) => Connect(At(id, End), Next, after);
      case If(id, _, _, _) => Connect(At(id, End), Next, after);
      case Loop(id, name, body) =>
        assert WfExpr(it.head, labels);
        InsertEdgeFromLastExpr(body, after, labels + {name});
      case _ =>
    }

    // The walk over one list. It leaves `blocks` as it found it on every
    // return path.
    method Construct(es: ExprList, ghost labels: set<string>) returns (unreachable: bool)
      requires Wf(es, labels) && Ready(es, labels)
      modifies this
      ensures blocks == old(blocks)
      ensures edges == old(edges) + Edges(es, blocks)
      ensures unreachable == Cut(es, blocks)
      decreases es, 1
    {
      var it := es;
      while it.Cons?
        invariant it == es || it < es
        invariant blocks == old(blocks)
        invariant Wf(it, labels) && Ready(it, labels)
        invariant edges + Edges(it, blocks) == old(edges) + Edges(es, blocks)
        invariant Cut(it, blocks) == Cut(es, blocks)
        decreases it
      {
        var outcome := ConstructOne(it.head, it.tail, labels);
        if outcome.Stop? {
          return outcome.cut;
        }
        LinkClear(it.head, blocks, it.tail, Ids(it.tail));
        InsideClear(it.head, blocks, Ids(it.tail));
        it := it.tail;
      }
      return false;
    }

    // One round of the walk: the instruction `e`, followed by `rest`.
    method ConstructOne(e: Expr, rest: ExprList, ghost labels: set<string>) returns (outcome: Outcome)
      requires Wf(Cons(e, rest), labels) && Ready(Cons(e, rest), labels)
      modifies this
      ensures blocks == old(blocks)
      ensures outcome == Ends(e, blocks)
      ensures edges == old(edges) + Inside(e, blocks) + if outcome.Go? then Link(e, blocks, rest) else {}
      decreases e, 3
    {
      assert WfExpr(e, labels);
      match e {
        case Return => return Stop(false);
        case Unreachable(id) =>
          Connect(At(id, Inst), Next, Trap);
          return Stop(true);
        case Br(id, target) =>
          var block := GetBlock(target);
          Connect(At(id, Inst), Next, block);
          return Stop(true);
        case BrIf(id, target) =>
          var block := GetBlock(target);
          Connect(At(id, Inst), True, block);
          if rest.Cons? {
            Connect(At(id, Inst), False, NodeOf(rest.head));
          }
          return Go;
        case BrTable(_, _, _) =>
          ConstructTable(e, labels);
          return Go;
        case Block(_, _, _) =>
          outcome := ConstructBlock(e, rest, labels);
        case Loop(_, _, _) =>
          ConstructLoop(e, rest, labels);
          return Go;
        case If(_, _, _, _) =>
          outcome := ConstructIf(e, rest, labels);
        case Plain(id) =>
          if rest.Cons? {
            Connect(At(id, Inst), Next, NodeOf(rest.head));
          }
          return Go;
      }
    }

    method ConstructTable(e: Expr, ghost labels: set<string>)
      requires e.BrTable? && WfExpr(e, labels) && Ready(Nil, labels)
      modifies this`edges
      ensures edges == old(edges) + Inside(e, blocks)
    {
      var BrTable(id, targets, default) := e;
      for i := 0 to |targets|
        invariant edges == old(edges) + set k: nat | k < i :: Edge(At(id, Inst), Case(k), Lookup(blocks, targets[k]))
      {
        assert targets[i] in targets;
        var block := GetBlock(targets[i]);
        Connect(At(id, Inst), Case(i), block);
      }
      var last := GetBlock(default);
      Connect(At(id, Inst), Default, last);
    }

    method ConstructBlock(e: Expr, rest: ExprList, ghost labels: set<string>) returns (outcome: Outcome)
      requires e.Block? && Wf(Cons(e, rest), labels) && Ready(Cons(e, rest), labels)
      modifies this
      ensures blocks == old(blocks)
      ensures outcome == Ends(e, blocks)
      ensures edges == old(edges) + Inside(e, blocks) + if outcome.Go? then Link(e, blocks, rest) else {}
      decreases e, 1
    {
      var Block(id, name, body) := e;
      assert WfExpr(e, labels);
      Enter(e, At(id, End), body, labels);
      Connect(At(id, Begin), Next, Entry(body, At(id, End)));
      var unreachable := Construct(body, labels + {name});
      if !unreachable {
        InsertEdgeFromLastExpr(body, At(id, End), labels + {name});
      }
      assert edges == old(edges) + Inside(e, old(blocks));
      JoinIsNew(old(edges), Inside(e, old(blocks)), At(id, End));
      if !HasIn(edges, At(id, End)) {
        blocks := blocks[1..];
        return Stop(false);
      }
      if rest.Cons? {
        Connect(At(id, End), Next, NodeOf(rest.head));
      }
      blocks := blocks[1..];
      return Go;
    }

    method ConstructLoop(e: Expr, rest: ExprList, ghost labels: set<string>)
      requires e.Loop? && Wf(Cons(e, rest), labels) && Ready(Cons(e, rest), labels)
      modifies this
      ensures blocks == old(blocks)
      ensures edges == old(edges) + Inside(e, blocks) + Link(e, blocks, rest)
      decreases e, 1
    {
      var Loop(id, name, body) := e;
      assert WfExpr(e, labels);
      Enter(e, At(id, Inst), body, labels);
      Connect(At(id, Inst), Next, Entry(body, At(id, Inst)));
      var _ := Construct(body, labels + {name});
      if rest.Cons? {
        InsertEdgeFromLastExpr(body, At(id, LoopEnd), labels + {name});
        Connect(At(id, LoopEnd), Next, NodeOf(rest.head));
      }
      blocks := blocks[1..];
    }

    method ConstructIf(e: Expr, rest: ExprList, ghost labels: set<string>) returns (outcome: Outcome)
      requires e.If? && Wf(Cons(e, rest), labels) && Ready(Cons(e, rest), labels)
      modifies this
      ensures blocks == old(blocks)
      ensures outcome == Ends(e, blocks)
      ensures edges == old(edges) + Inside(e, blocks) + if outcome.Go? then Link(e, blocks, rest) else {}
      decreases e, 2
    {
      var join := At(e.id, End);
      var cut := ConstructArms(e, labels);
      if cut {
        return Stop(true);
      }
      JoinIsNew(old(edges), Inside(e, blocks), join);
      if rest.Cons? && HasIn(edges, join) {
        Connect(join, Next, NodeOf(rest.head));
      }
      return Go;
    }

    // Both arms; the result says that the walk ends after this instruction.
    method ConstructArms(e: Expr, ghost labels: set<string>) returns (cut: bool)
      requires e.If? && WfExpr(e, labels) && Ready(Cons(e, Nil), labels)
      modifies this
      ensures blocks == old(blocks)
      ensures cut == Ends(e, blocks).Stop?
      ensures edges == old(edges) + Inside(e, blocks)
      decreases e, 1
    {
      assert Ids(Cons(e, Nil)) == {e.id} + Ids(e.thn) + Ids(e.els);
      Connect(At(e.id, Inst), True, At(e.id, ThenBegin));
      NestedClear(e.thn, e, blocks, Ids(e.els));
      var unreachable := ConstructArm(e, e.thn, At(e.id, ThenBegin), labels);
      var fUnreachable := ConstructElse(e, labels);
      return unreachable && e.els.Cons? && fUnreachable;
    }

    // The false branch: the else list, or a marker that leads to the join.
    method ConstructElse(e: Expr, ghost labels: set<string>) returns (fUnreachable: bool)
      requires e.If? && WfExpr(e, labels) && Ready(e.els, labels)
      modifies this
      ensures blocks == old(blocks)
      ensures var inner := [Binding(e.name, At(e.id, End))] + blocks;
              && fUnreachable == Cut(e.els, inner)
              && edges == old(edges) + {Edge(At(e.id, Inst), False, At(e.id, ElseBegin)),
                                        Edge(At(e.id, ElseBegin), Next, Entry(e.els, At(e.id, End)))}
                          + (if e.els.Cons? then Nested(e.els, inner, At(e.id, End)) else {})
      decreases e, 0
    {
      fUnreachable := false;
      if e.els.Cons? {
        fUnreachable := ConstructArm(e, e.els, At(e.id, ElseBegin), labels);
      } else {
        Connect(At(e.id, ElseBegin), Next, At(e.id, End));
      }
      Connect(At(e.id, Inst), False, At(e.id, ElseBegin));
    }

    // One arm of an `if`, with the edge from its begin marker. Both arms see
    // the join under the label of the `if`.
    method ConstructArm(e: Expr, arm: ExprList, begin: Node, ghost labels: set<string>) returns (unreachable: bool)
      requires e.If? && arm.Cons? && arm < e && e.id !in Ids(arm)
      requires Wf(arm, labels + {e.name}) && Ready(arm, labels)
      modifies this
      ensures blocks == old(blocks)
      ensures unreachable == Cut(arm, [Binding(e.name, At(e.id, End))] + blocks)
      ensures edges == old(edges) + {Edge(begin, Next, Entry(arm, At(e.id, End)))}
                       + Nested(arm, [Binding(e.name, At(e.id, End))] + blocks, At(e.id, End))
      decreases arm, 2
    {
      Enter(e, At(e.id, End), arm, labels);
      unreachable := Construct(arm, labels + {e.name});
      Connect(begin, Next, Entry(arm, At(e.id, End)));
      if !unreachable {
        InsertEdgeFromLastExpr(arm, At(e.id, End), labels + {e.name});
      }
      blocks := blocks[1..];
    }

    // Pushes the label of a structured instruction before one of its lists.
    method Enter(e: Expr, target: Node, es: ExprList, ghost labels: set<string>)
      requires (e.Block? || e.Loop? || e.If?) && target.At? && target.id == e.id && e.id !in Ids(es)
      requires Ready(es, labels)
      modifies this`blocks
      ensures blocks == [Binding(e.name, target)] + old(blocks)
      ensures Ready(es, labels + {e.name})
    {
      blocks := [Binding(e.name, target)] + blocks;
      assert forall b :: b in old(blocks) ==> b in blocks;
      assert blocks[0] in blocks;
    }

    // The part of generateCFG that handles one defined function: entry,
    // body, return, and the repair pass.
    method GenerateFunction(body: ExprList)
      requires Wf(body, {}) && edges == {} && blocks == []
      modifies this
      ensures edges == Graph(body) && blocks == []
    {
      if body.Nil? {
        Connect(Instructions, Next, ReturnNode);
        return;
      }
      Connect(Instructions, Next, NodeOf(body.head));
      var unreachable := Construct(body, {});
      if unreachable {
        return;
      }
      InsertEdgeFromLastExpr(body, ReturnNode, {});
      assert edges == Unrepaired(body);
      var childless := set n | n in TreeNodes(body) && !HasOut(edges, n) && HasIn(edges, n);
      ghost var all := childless;
      ghost var base := edges;
      while childless != {}
        invariant childless <= all && blocks == []
        invariant edges == base + set n | n in all - childless :: Edge(n, Next, ReturnNode)
        decreases childless
      {
        var node :| node in childless;
        Connect(node, Next, ReturnNode);
        childless := childless - {node};
      }
    }
  }
}
