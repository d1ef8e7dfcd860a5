// The syntax tree of a function: one parent for every node but the begin
// markers, no cycle, and operands that getChild finds in their order.
module OperandTree {
  import opened Wrappers
  import opened Graphs
  import opened Query
  import opened Folding
  import opened FoldLaws
  import opened Forests
  import opened AstBuilder

  lemma {:induction false} TimesIn(s: seq<nat>, n: nat)
    ensures Times(s, n) > 0 <==> n in s
  {
    if s != [] {
      TimesIn(s[1..], n);
      assert s == [s[0]] + s[1..];
    }
  }

  // The whole tree under the holder.
  ghost function Whole(holder: nat, f: Folded): seq<Tree> {
    [Tree(holder, [], f.kids)]
  }

  lemma WholeCounts(es: Exprs, nresults: nat, next: nat, holder: nat, n: nat)
    requires FoldFunction(es, nresults, next).Some? && holder < next
    ensures var f := FoldFunction(es, nresults, next).value;
            CountAll(Whole(holder, f), n) + Times(f.begins, n) == Within(next, f.next, n) + Within(holder, holder + 1, n)
  {
    FoldFunctionNumbers(es, nresults, next, n);
    var f := FoldFunction(es, nresults, next).value;
    CountNew(holder, [], f.kids, n);
    CountPush([], Tree(holder, [], f.kids), n);
    assert [] + Whole(holder, f) == Whole(holder, f);
  }

  // Of the nodes that are made, exactly the begin markers have no parent, and
  // no node has two.
  lemma OneParentEach(es: Exprs, nresults: nat, next: nat, holder: nat, n: nat)
    requires FoldFunction(es, nresults, next).Some? && holder < next
    ensures var f := FoldFunction(es, nresults, next).value;
            var links := LinksOf(Whole(holder, f));
            && (next <= n < f.next ==> ((exists p :: Link(p, n) in links) <==> n !in f.begins))
            && forall p, q :: Link(p, n) in links && Link(q, n) in links ==> p == q
  {
    var f := FoldFunction(es, nresults, next).value;
    var whole := Whole(holder, f);
    WholeCounts(es, nresults, next, holder, n);
    TimesIn(f.begins, n);
    forall p, q | Link(p, n) in LinksOf(whole) && Link(q, n) in LinksOf(whole)
      ensures p == q
    {
      LinkCounts(whole, p, n);
      OneParent(whole, p, q, n);
    }
    if next <= n < f.next {
      if n !in f.begins {
        var p := SomeParent(whole, n);
      }
      if exists p :: Link(p, n) in LinksOf(whole) {
        var p :| Link(p, n) in LinksOf(whole);
        LinkCounts(whole, p, n);
      }
    }
  }

  // The tree below a child is smaller than the one below its parent.
  lemma NoCycle(es: Exprs, nresults: nat, next: nat, holder: nat, p: nat, c: nat)
    requires FoldFunction(es, nresults, next).Some? && holder < next
    requires Link(p, c) in LinksOf(Whole(holder, FoldFunction(es, nresults, next).value))
    ensures var whole := Whole(holder, FoldFunction(es, nresults, next).value); RankAll(whole, c) < RankAll(whole, p)
  {
    WholeCounts(es, nresults, next, holder, p);
    WholeCounts(es, nresults, next, holder, c);
    ChildRanksLower(Whole(holder, FoldFunction(es, nresults, next).value), p, c);
  }

  // ----- operands -----

  lemma {:induction false} KthOfRising(list: seq<nat>, a: seq<nat>, k: nat)
    requires forall i, j :: 0 <= i < j < |list| ==> list[i] < list[j]
    requires forall i, j :: 0 <= i < j < |a| ==> a[i] < a[j]
    requires (forall x :: x in a ==> x in list) && (forall x :: x in list ==> x in a || forall y :: y in a ==> y < x)
    requires k < |a|
    ensures k < |list| && forall j :: 0 <= j <= k ==> list[j] == a[j]
  {
    if k > 0 {
      KthOfRising(list, a, k - 1);
    }
    assert a[k] in a;
    var m :| 0 <= m < |list| && list[m] == a[k];
    if m > k {
      assert list[k] in list && list[k] < a[k];
      var i :| 0 <= i < |a| && a[i] == list[k];
    }
  }

  lemma ChildrenAreKids(made: seq<Edge>, base: seq<Edge>, ts: seq<Tree>, t: Tree, x: nat)
    requires Adds(base, made, LinksOf(ts)) && forall e :: e in base ==> !(e.Ast? && e.src == t.id)
    requires Inside(t, ts) && CountAll(ts, t.id) <= 1
    ensures x in Children(made, t.id) <==> HasRoot(Kids(t), x)
  {
    ChildrenRise(made, t.id);
    OwnLinks(t, ts, x);
    assert Ast(t.id, x) in made <==> Link(t.id, x) in LinksOf(ts);
  }

  lemma OperandsComeFirst(t: Tree, x: nat)
    requires Proper(t)
    ensures HasRoot(Kids(t), x) ==> x in Roots(t.args) || forall y :: y in Roots(t.args) ==> y < x
    ensures x in Roots(t.args) ==> HasRoot(Kids(t), x)
  {
    if HasRoot(Kids(t), x) {
      var i :| 0 <= i < |Kids(t)| && Kids(t)[i].id == x;
      if i < |t.args| {
        assert Roots(t.args)[i] == x;
      } else {
        assert t.body[i - |t.args|].id == x;
      }
    }
    if x in Roots(t.args) {
      var i :| 0 <= i < |t.args| && Roots(t.args)[i] == x;
      assert Kids(t)[i].id == x;
    }
  }

  // getChild(k) of a node is its k-th operand.
  lemma ChildrenStartWithOperands(made: seq<Edge>, base: seq<Edge>, ts: seq<Tree>, t: Tree)
    requires Adds(base, made, LinksOf(ts)) && forall e :: e in base ==> !(e.Ast? && e.src == t.id)
    requires Inside(t, ts) && CountAll(ts, t.id) <= 1 && AllProper(ts)
    ensures StartsWith(Children(made, t.id), Roots(t.args))
  {
    InsideProper(t, ts);
    ChildrenRise(made, t.id);
    var list, a := Children(made, t.id), Roots(t.args);
    forall x: nat
      ensures (x in a ==> x in list) && (x in list ==> x in a || forall y :: y in a ==> y < x)
    {
      ChildrenAreKids(made, base, ts, t, x);
      OperandsComeFirst(t, x);
    }
    if a != [] {
      KthOfRising(list, a, |a| - 1);
    }
  }

  // The syntax tree of a function body, built in a graph: every node that was
  // made has its operands for its first children, in order.
  method BuildFunction(graph: Graph, es: Exprs, nresults: nat, holder: nat) returns (ok: bool, ghost tree: Tree)
    requires graph.Valid() && holder < graph.count
    modifies graph
    ensures graph.Valid() && ok == FoldFunction(es, nresults, old(graph.count)).Some?
    ensures ok ==> Adds(old(graph.made), graph.made, Links(tree))
                   && tree == Tree(holder, [], FoldFunction(es, nresults, old(graph.count)).value.kids)
    ensures ok ==> OperandsInOrder(graph.made, tree.body)
  {
    ghost var next, base := graph.count, graph.made;
    tree := Tree(holder, [], []);
    var builder := new Builder(graph);
    ghost var links;
    ok, links := builder.ConstructFunction(es, nresults, holder);
    if ok {
      tree := Tree(holder, [], FoldFunction(es, nresults, next).value.kids);
      OperandsAreInOrder(graph.made, base, es, nresults, next, holder);
    }
  }

  // Every node has its operands for its first children.
  ghost predicate OperandsInOrder(made: seq<Edge>, ts: seq<Tree>) {
    forall t :: Inside(t, ts) ==> StartsWith(Children(made, t.id), Roots(t.args))
  }

  ghost predicate StartsWith(s: seq<nat>, a: seq<nat>) {
    |a| <= |s| && s[..|a|] == a
  }

  lemma OperandsAreInOrder(made: seq<Edge>, base: seq<Edge>, es: Exprs, nresults: nat, next: nat, holder: nat)
    requires FoldFunction(es, nresults, next).Some? && holder < next
    requires var kids := FoldFunction(es, nresults, next).value.kids; Adds(base, made, Links(Tree(holder, [], kids)))
    requires forall e :: e in base ==> e.src < next
    ensures OperandsInOrder(made, FoldFunction(es, nresults, next).value.kids)
  {
    var f := FoldFunction(es, nresults, next).value;
    forall t | Inside(t, f.kids)
      ensures StartsWith(Children(made, t.id), Roots(t.args))
    {
      InsideIsMade(es, nresults, next, holder, t);
      ChildrenStartWithOperands(made, base, Whole(holder, f), t);
    }
  }

  lemma InsideIsMade(es: Exprs, nresults: nat, next: nat, holder: nat, t: Tree)
    requires FoldFunction(es, nresults, next).Some? && holder < next && Inside(t, FoldFunction(es, nresults, next).value.kids)
    ensures var whole := Whole(holder, FoldFunction(es, nresults, next).value);
            next <= t.id && Inside(t, whole) && CountAll(whole, t.id) <= 1 && AllProper(whole) && LinksOf(whole) == Links(whole[0])
  {
    var f := FoldFunction(es, nresults, next).value;
    var whole := Whole(holder, f);
    WholeCounts(es, nresults, next, holder, t.id);
    InsideCounts(t, f.kids, t.id);
    FoldFunctionNumbers(es, nresults, next, t.id);
    FoldFunctionProper(es, nresults, next);
    OneTree(whole[0]);
    assert Kids(whole[0]) == f.kids;
    assert Proper(whole[0]);
  }
}
