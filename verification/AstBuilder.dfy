// The syntax-tree builder of src/ast-builder.cc, which makes nodes and edges
// as it goes.
module AstBuilder {
  import opened Wrappers
  import opened Graphs
  import opened Folding
  import opened FoldLaws
  import opened Forests

  function Roots(ts: seq<Tree>): seq<nat> {
    seq(|ts|, i requires 0 <= i < |ts| => ts[i].id)
  }

  // `after` has the syntax edges of `links` besides the edges of `before`.
  ghost predicate Adds(before: seq<Edge>, after: seq<Edge>, links: set<Link>) {
    forall x :: x in after <==> x in before || (x.Ast? && Link(x.src, x.dst) in links)
  }

  ghost function StateLinks(s: State): set<Link> {
    LinksOf(s.stack) + LinksOf(s.list)
  }

  lemma OneTree(t: Tree)
    ensures LinksOf([t]) == Links(t)
  {
    assert LinksOf([t]) == Links(t) + LinksOf([]);
  }

  lemma PlacedLinks(s: State, id: nat, next: nat, a: Arity, body: seq<Tree>, begins: seq<nat>)
    requires a.nargs <= |s.stack|
    ensures StateLinks(Placed(s, id, next, a, body, begins))
            == StateLinks(s) + Under(id, Args(s.stack, a.nargs)) + Under(id, body) + LinksOf(body)
  {
    var rest, args := s.stack[..|s.stack| - a.nargs], Args(s.stack, a.nargs);
    var t := Tree(id, args, body);
    assert s.stack == rest + args;
    LinksSum(rest, args);
    LinksSum(rest, [t]);
    LinksSum(s.list, [t]);
    OneTree(t);
  }

  lemma PlacedRoots(s: State, id: nat, next: nat, a: Arity, body: seq<Tree>, begins: seq<nat>)
    requires a.nargs <= |s.stack| && id < next && Below(s.stack, next) && Below(s.list, next)
    ensures var t, k := Placed(s, id, next, a, body, begins), |s.stack| - a.nargs;
            && Below(t.stack, next) && Below(t.list, next)
            && if a.nreturns == 0 || a.unreachable then Roots(t.stack) == Roots(s.stack)[..k] && Roots(t.list) == Roots(s.list) + [id]
               else Roots(t.stack) == Roots(s.stack)[..k] + [id] && Roots(t.list) == Roots(s.list)
  {
  }

  lemma UnderRoots(id: nat, ts: seq<Tree>, k: nat)
    requires k <= |ts|
    ensures Under(id, ts[k..]) == set i | k <= i < |ts| :: Link(id, Roots(ts)[i])
  {
    forall i | k <= i < |ts|
      ensures Link(id, Roots(ts)[i]) in Under(id, ts[k..])
    {
      assert ts[k..][i - k].id == Roots(ts)[i];
    }
    forall j | 0 <= j < |ts| - k
      ensures ts[k..][j].id == Roots(ts)[k + j]
    {
    }
  }

  lemma UnderSum(id: nat, a: seq<Tree>, b: seq<Tree>)
    ensures Under(id, a + b) == Under(id, a) + Under(id, b)
  {
    forall i | 0 <= i < |a|
      ensures Link(id, a[i].id) in Under(id, a + b)
    {
      assert (a + b)[i] == a[i];
    }
    forall i | 0 <= i < |b|
      ensures Link(id, b[i].id) in Under(id, a + b)
    {
      assert (a + b)[|a| + i] == b[i];
    }
  }

  lemma {:induction false} UnderReverse(id: nat, ts: seq<Tree>)
    ensures Under(id, Reverse(ts)) == Under(id, ts) && LinksOf(Reverse(ts)) == LinksOf(ts)
  {
    if ts != [] {
      var top := |ts| - 1;
      UnderReverse(id, ts[..top]);
      UnderSum(id, [ts[top]], Reverse(ts[..top]));
      UnderSum(id, ts[..top], [ts[top]]);
      LinksSum([ts[top]], Reverse(ts[..top]));
      LinksSum(ts[..top], [ts[top]]);
      assert ts == ts[..top] + [ts[top]];
    }
  }

  lemma ArmLinks(parent: nat, arm: Tree)
    ensures {Link(parent, arm.id)} + Links(arm) == Under(parent, [arm]) + LinksOf([arm])
  {
    OneTree(arm);
    assert [arm][0].id == arm.id;
  }

  lemma BodyLinks(holder: nat, s: State, kids: seq<Tree>)
    requires kids == s.list + s.stack || kids == s.list + Reverse(s.stack)
    ensures LinksOf(kids) == StateLinks(s)
    ensures Under(holder, kids) == (set i | 0 <= i < |s.list| :: Link(holder, Roots(s.list)[i]))
                                   + (set i | 0 <= i < |s.stack| :: Link(holder, Roots(s.stack)[i]))
  {
    UnderReverse(holder, s.stack);
    UnderSum(holder, s.list, s.stack);
    UnderSum(holder, s.list, Reverse(s.stack));
    LinksSum(s.list, s.stack);
    LinksSum(s.list, Reverse(s.stack));
    assert s.list[0..] == s.list && s.stack[0..] == s.stack;
    UnderRoots(holder, s.list, 0);
    UnderRoots(holder, s.stack, 0);
  }

  class Builder {
    const graph: Graph

    constructor (graph: Graph)
      ensures this.graph == graph
    {
      this.graph := graph;
    }

    method Connect(parent: nat, child: nat)
      requires graph.Valid() && parent < graph.count && child < graph.count
      modifies graph
      ensures graph.Valid() && graph.count == old(graph.count) && Adds(old(graph.made), graph.made, {Link(parent, child)})
    {
      graph.Connect(Ast(parent, child));
    }

    // Pops operands, last operand first.
    method TakeArgs(id: nat, stack: seq<nat>, n: nat) returns (rest: seq<nat>)
      requires graph.Valid() && id < graph.count && n <= |stack| && forall i :: 0 <= i < |stack| ==> stack[i] < graph.count
      modifies graph
      ensures graph.Valid() && graph.count == old(graph.count) && rest == stack[..|stack| - n]
      ensures Adds(old(graph.made), graph.made, set i | |stack| - n <= i < |stack| :: Link(id, stack[i]))
    {
      rest := stack;
      for k := 0 to n
        invariant graph.Valid() && graph.count == old(graph.count) && rest == stack[..|stack| - k]
        invariant Adds(old(graph.made), graph.made, set i | |stack| - k <= i < |stack| :: Link(id, stack[i]))
      {
        Connect(id, rest[|rest| - 1]);
        rest := rest[..|rest| - 1];
      }
    }

    // Gives nodes to a holder.
    method Hold(holder: nat, nodes: seq<nat>)
      requires graph.Valid() && holder < graph.count && forall i :: 0 <= i < |nodes| ==> nodes[i] < graph.count
      modifies graph
      ensures graph.Valid() && graph.count == old(graph.count)
      ensures Adds(old(graph.made), graph.made, set i | 0 <= i < |nodes| :: Link(holder, nodes[i]))
    {
      for k := 0 to |nodes|
        invariant graph.Valid() && graph.count == old(graph.count)
        invariant Adds(old(graph.made), graph.made, set i | 0 <= i < k :: Link(holder, nodes[i]))
      {
        Connect(holder, nodes[k]);
      }
    }

    // A node takes its operands and goes where its arity says.
    method Place(a: Arity, id: nat, stack: seq<nat>, list: seq<nat>, ghost s: State, ghost t: State, ghost body: seq<Tree>)
      returns (stack': seq<nat>, list': seq<nat>, ghost links: set<Link>)
      requires graph.Valid() && id < graph.count && a.nargs <= |s.stack| && Keeps(s, stack, list)
      requires t == Placed(s, id, t.next, a, body, t.begins) && t.next == graph.count
      modifies graph
      ensures graph.Valid() && graph.count == old(graph.count) && Keeps(t, stack', list')
      ensures Adds(old(graph.made), graph.made, links)
      ensures StateLinks(t) == StateLinks(s) + links + Under(id, body) + LinksOf(body)
    {
      PlacedLinks(s, id, t.next, a, body, t.begins);
      PlacedRoots(s, id, t.next, a, body, t.begins);
      var rest := TakeArgs(id, stack, a.nargs);
      links := set i | |stack| - a.nargs <= i < |stack| :: Link(id, stack[i]);
      UnderRoots(id, s.stack, |stack| - a.nargs);
      if a.nreturns == 0 || a.unreachable {
        stack', list' := rest, list + [id];
      } else {
        stack', list' := rest + [id], list;
      }
    }

    ghost predicate Keeps(s: State, stack: seq<nat>, list: seq<nat>)
      reads graph
    {
      s.next <= graph.count && stack == Roots(s.stack) && list == Roots(s.list) && Below(s.stack, graph.count) && Below(s.list, graph.count)
    }

    // construct for one expression: what is on the stack and among the
    // statements afterwards, and which edges are new, is as folding says.
    // False where folding fails.
    method ConstructExpr(e: Expr, stack: seq<nat>, list: seq<nat>, ghost s: State)
      returns (ok: bool, stack': seq<nat>, list': seq<nat>, ghost links: set<Link>)
      requires graph.Valid() && Keeps(s, stack, list) && s.next == graph.count
      modifies graph
      ensures graph.Valid() && ok == FoldExpr(e, s).Some? && old(graph.count) <= graph.count
      ensures ok ==> var t := FoldExpr(e, s).value;
                && t.next == graph.count && Keeps(t, stack', list')
                && Adds(old(graph.made), graph.made, links) && StateLinks(t) == StateLinks(s) + links
      decreases e, 2
    {
      stack', list', links := stack, list, {};
      if e.arity.nargs > |stack| || e.arity.nreturns > 1 {
        return false, stack', list', links;
      }
      match e
      case Op(kind, a) =>
        var used := Used(kind, a);
        if used.nargs > |stack| {
          return false, stack', list', links;
        }
        var id := graph.NewNode();
        stack', list', links := Place(used, id, stack, list, s, FoldExpr(e, s).value, []);
        ok := true;
      case Block(a, nresults, body) =>
        ok, stack', list', links := ConstructBlock(e, stack, list, s);
      case Loop(a, nresults, body) =>
        ok, stack', list', links := ConstructBlock(e, stack, list, s);
      case If(a, nresults, thn, els) =>
        ok, stack', list', links := ConstructIf(e, stack, list, s);
    }

    method ConstructBlock(e: Expr, stack: seq<nat>, list: seq<nat>, ghost s: State)
      returns (ok: bool, stack': seq<nat>, list': seq<nat>, ghost links: set<Link>)
      requires graph.Valid() && Keeps(s, stack, list) && s.next == graph.count
      requires (e.Block? || e.Loop?) && e.arity.nargs <= |stack| && e.arity.nreturns <= 1
      modifies graph
      ensures graph.Valid() && ok == FoldBlock(e, s).Some? && old(graph.count) <= graph.count
      ensures ok ==> var t := FoldBlock(e, s).value;
                && t.next == graph.count && Keeps(t, stack', list')
                && Adds(old(graph.made), graph.made, links) && StateLinks(t) == StateLinks(s) + links
      decreases e, 1
    {
      stack', list' := stack, list;
      var id := graph.NewNode();
      ok, links := ConstructBody(e.body, e.nresults, id);
      if ok {
        ghost var f := FoldBody(e.body, e.nresults, s.next + 1).value;
        if e.Block? {
          var begin := graph.NewNode();
        }
        ghost var begins := s.begins + f.begins + if e.Block? then [f.next] else [];
        ghost var t := Placed(s, id, graph.count, e.arity, f.kids, begins);
        assert FoldBlock(e, s) == Some(t) by {
          assert s.begins + f.begins + [] == s.begins + f.begins;
        }
        ghost var own;
        stack', list', own := Place(e.arity, id, stack, list, s, t, f.kids);
        links := links + own;
      }
    }

    // The condition is the only operand that is taken here.
    method ConstructIf(e: Expr, stack: seq<nat>, list: seq<nat>, ghost s: State)
      returns (ok: bool, stack': seq<nat>, list': seq<nat>, ghost links: set<Link>)
      requires graph.Valid() && Keeps(s, stack, list) && s.next == graph.count
      requires e.If? && e.arity.nargs <= |stack| && e.arity.nreturns <= 1
      modifies graph
      ensures graph.Valid() && ok == FoldIf(e, s).Some? && old(graph.count) <= graph.count
      ensures ok ==> var t := FoldIf(e, s).value;
                && t.next == graph.count && Keeps(t, stack', list')
                && Adds(old(graph.made), graph.made, links) && StateLinks(t) == StateLinks(s) + links
      decreases e, 1
    {
      stack', list', links := stack, list, {};
      if stack == [] {
        return false, stack', list', links;
      }
      var id := graph.NewNode();
      var top := |stack| - 1;
      Connect(id, stack[top]);
      ok, links := ConstructArms(e, id);
      if ok {
        IfLinks(s, id, FoldArms(e, s.next + 1).value, e.arity.nreturns);
        links := links + {Link(id, stack[top])};
        PlacedRoots(s, id, graph.count, Arity(1, e.arity.nreturns, false), FoldArms(e, s.next + 1).value.kids, FoldIf(e, s).value.begins);
        if e.arity.nreturns == 0 {
          stack', list' := stack[..top], list + [id];
        } else {
          stack' := stack[..top] + [id];
        }
      }
    }

    lemma IfLinks(s: State, id: nat, f: Folded, nreturns: nat)
      requires s.stack != []
      ensures StateLinks(Placed(s, id, f.next, Arity(1, nreturns, false), f.kids, s.begins + f.begins))
              == StateLinks(s) + {Link(id, s.stack[|s.stack| - 1].id)} + Under(id, f.kids) + LinksOf(f.kids)
    {
      PlacedLinks(s, id, f.next, Arity(1, nreturns, false), f.kids, s.begins + f.begins);
      ghost var args := Args(s.stack, 1);
      assert args == [s.stack[|s.stack| - 1]];
      assert Under(id, args) == {Link(id, args[0].id)};
    }

    method ConstructArms(e: Expr, id: nat) returns (ok: bool, ghost links: set<Link>)
      requires graph.Valid() && e.If? && id < graph.count
      modifies graph
      ensures graph.Valid() && ok == FoldArms(e, old(graph.count)).Some? && old(graph.count) <= graph.count
      ensures ok ==> var f := FoldArms(e, old(graph.count)).value;
                && f.next == graph.count && Adds(old(graph.made), graph.made, links)
                && links == Under(id, f.kids) + LinksOf(f.kids)
      decreases e, 0
    {
      ghost var next := graph.count;
      ok, links := ConstructArm(e.thn, e.nresults, id, true);
      if !ok {
        return;
      }
      ghost var f := FoldBody(e.thn, e.nresults, next + 2).value;
      ghost var one := Tree(next, [], f.kids);
      ArmLinks(id, one);
      if e.els.Cons? {
        ghost var more;
        ok, more := ConstructArm(e.els, e.nresults, id, false);
        if ok {
          links := links + more;
          ghost var two := Tree(f.next, [], FoldBody(e.els, e.nresults, f.next + 1).value.kids);
          ArmLinks(id, two);
          LinksSum([one], [two]);
          UnderSum(id, [one], [two]);
          assert [one] + [two] == [one, two];
        }
      }
    }

    // One arm: its node, the begin marker of the first arm, what it holds.
    method ConstructArm(es: Exprs, nresults: nat, parent: nat, marked: bool) returns (ok: bool, ghost links: set<Link>)
      requires graph.Valid() && parent < graph.count
      modifies graph
      ensures graph.Valid() && old(graph.count) <= graph.count
      ensures var f := FoldBody(es, nresults, old(graph.count) + if marked then 2 else 1);
              && ok == f.Some?
              && (ok ==> f.value.next == graph.count && Adds(old(graph.made), graph.made, links))
              && (ok ==> links == {Link(parent, old(graph.count))} + Links(Tree(old(graph.count), [], f.value.kids)))
      decreases es, 2
    {
      var arm := graph.NewNode();
      if marked {
        var begin := graph.NewNode();
      }
      Connect(parent, arm);
      ok, links := ConstructBody(es, nresults, arm);
      links := links + {Link(parent, arm)};
    }

    // construct for a list of expressions.
    method ConstructBody(es: Exprs, nresults: nat, holder: nat) returns (ok: bool, ghost links: set<Link>)
      requires graph.Valid() && holder < graph.count
      modifies graph
      ensures graph.Valid() && ok == FoldBody(es, nresults, old(graph.count)).Some? && old(graph.count) <= graph.count
      ensures ok ==> var f := FoldBody(es, nresults, old(graph.count)).value;
                && f.next == graph.count && Adds(old(graph.made), graph.made, links)
                && links == Under(holder, f.kids) + LinksOf(f.kids)
      decreases es, 1
    {
      ghost var s, next := State(graph.count, [], [], []), graph.count;
      var stack, list;
      ok, stack, list, links := ConstructAll(es, s);
      if ok {
        s := FoldAll(es, s).value;
        ghost var kids := FoldBody(es, nresults, next).value.kids;
        BodyLinks(holder, s, kids);
        Hold(holder, list);
        Hold(holder, stack);
        links := links + Under(holder, kids);
      }
    }

    method ConstructAll(es: Exprs, ghost start: State) returns (ok: bool, stack: seq<nat>, list: seq<nat>, ghost links: set<Link>)
      requires graph.Valid() && start == State(graph.count, [], [], [])
      modifies graph
      ensures graph.Valid() && ok == FoldAll(es, start).Some? && old(graph.count) <= graph.count
      ensures ok ==> var t := FoldAll(es, start).value;
                && t.next == graph.count && Keeps(t, stack, list)
                && Adds(old(graph.made), graph.made, links) && StateLinks(t) == links
      decreases es, 0
    {
      ghost var s := start;
      var rest := es;
      stack, list, links := [], [], {};
      while rest.Cons?
        invariant graph.Valid() && old(graph.count) <= graph.count
        invariant FoldAll(es, start) == FoldAll(rest, s) && s.next == graph.count && Keeps(s, stack, list)
        invariant Adds(old(graph.made), graph.made, links) && StateLinks(s) == links
        invariant rest == es || (es decreases to rest)
        decreases rest
      {
        ghost var more;
        ok, stack, list, more := ConstructExpr(rest.head, stack, list, s);
        if !ok {
          return;
        }
        s := FoldExpr(rest.head, s).value;
        links := links + more;
        rest := rest.tail;
      }
      ok := true;
    }

    // construct for the body of a function: its return node takes the result
    // and is the last that the holder gets.
    method ConstructFunction(es: Exprs, nresults: nat, holder: nat) returns (ok: bool, ghost links: set<Link>)
      requires graph.Valid() && holder < graph.count
      modifies graph
      ensures graph.Valid() && ok == FoldFunction(es, nresults, old(graph.count)).Some? && old(graph.count) <= graph.count
      ensures ok ==> var f := FoldFunction(es, nresults, old(graph.count)).value;
                && f.next == graph.count && Adds(old(graph.made), graph.made, links)
                && links == Links(Tree(holder, [], f.kids))
    {
      ghost var next := graph.count;
      var ret := graph.NewNode();
      ghost var s := State(graph.count, [], [], []);
      var stack, list;
      ok, stack, list, links := ConstructAll(es, s);
      if ok {
        var held := if nresults == 1 && !(EndsUnreachable(es) && stack == []) then 1 else 0;
        if held > |stack| {
          return false, links;
        }
        s := FoldAll(es, s).value;
        ghost var own := Finish(holder, ret, stack, list, held, s);
        links := links + own;
      }
    }

    // The statements, the values nobody has taken, and the return node.
    method Finish(holder: nat, ret: nat, stack: seq<nat>, list: seq<nat>, held: nat, ghost s: State) returns (ghost links: set<Link>)
      requires graph.Valid() && holder < graph.count && ret < graph.count && held <= |stack| && Keeps(s, stack, list)
      modifies graph
      ensures graph.Valid() && graph.count == old(graph.count) && Adds(old(graph.made), graph.made, links)
      ensures var top := |stack| - held;
              StateLinks(s) + links == Links(Tree(holder, [], s.list + Reverse(s.stack[..top]) + [Tree(ret, s.stack[top..], [])]))
    {
      FunctionLinks(holder, ret, s, held);
      Hold(holder, list);
      var rest := TakeArgs(ret, stack, held);
      Hold(holder, rest);
      Connect(holder, ret);
      links := (set i | 0 <= i < |list| :: Link(holder, list[i])) + (set i | |stack| - held <= i < |stack| :: Link(ret, stack[i]))
             + (set i | 0 <= i < |rest| :: Link(holder, rest[i])) + {Link(holder, ret)};
    }

    lemma FunctionLinks(holder: nat, ret: nat, s: State, held: nat)
      requires held <= |s.stack|
      ensures var top, stack := |s.stack| - held, Roots(s.stack);
              Links(Tree(holder, [], s.list + Reverse(s.stack[..top]) + [Tree(ret, s.stack[top..], [])]))
              == StateLinks(s) + ((set i | 0 <= i < |s.list| :: Link(holder, Roots(s.list)[i]))
                 + (set i | top <= i < |stack| :: Link(ret, stack[i]))
                 + (set i | 0 <= i < |stack[..top]| :: Link(holder, stack[..top][i])) + {Link(holder, ret)})
    {
      var top, stack := |s.stack| - held, Roots(s.stack);
      var rest, node := s.stack[..top], Tree(ret, s.stack[top..], []);
      var kids := s.list + Reverse(rest);
      assert s.stack == rest + s.stack[top..] && Roots(rest) == stack[..top];
      BodyLinks(holder, State(s.next, rest, s.list, s.begins), kids);
      LinksSum(rest, s.stack[top..]);
      UnderRoots(ret, s.stack, top);
      HolderLinks(holder, kids, node);
    }

    lemma HolderLinks(holder: nat, kids: seq<Tree>, ret: Tree)
      requires ret.body == []
      ensures Links(Tree(holder, [], kids + [ret]))
              == Under(holder, kids) + LinksOf(kids) + {Link(holder, ret.id)} + Under(ret.id, ret.args) + LinksOf(ret.args)
    {
      LinksSum(kids, [ret]);
      UnderSum(holder, kids, [ret]);
      OneTree(ret);
      assert Under(holder, [ret]) == {Link(holder, ret.id)} by {
        assert [ret][0].id == ret.id;
      }
    }
  }
}
