// Reachability queries (src/query.cc).
module Query {
  import opened Graphs
  import opened SearchOrder

  // ----- reachability -----

  ghost predicate Step(edges: seq<Edge>, cond: Edge -> bool, reverse: bool, m: nat, n: nat) {
    exists e :: e in edges && cond(e) && (if reverse then e.dst == m && e.src == n else e.src == m && e.dst == n)
  }

  ghost predicate Walk(edges: seq<Edge>, cond: Edge -> bool, reverse: bool, p: seq<nat>) {
    forall i :: 0 <= i < |p| - 1 ==> Step(edges, cond, reverse, p[i], p[i + 1])
  }

  // In one or more steps.
  ghost predicate Reached(edges: seq<Edge>, cond: Edge -> bool, reverse: bool, from: seq<nat>, n: nat) {
    exists p :: |p| >= 2 && Walk(edges, cond, reverse, p) && p[0] in from && p[|p| - 1] == n
  }

  ghost function Ends(edges: seq<Edge>): set<nat> {
    (set e | e in edges :: e.src) + (set e | e in edges :: e.dst)
  }

  ghost function Matches(edges: seq<Edge>, cond: Edge -> bool, reverse: bool, from: seq<nat>, eval: nat -> bool): set<nat> {
    set n | n in Ends(edges) && eval(n) && Reached(edges, cond, reverse, from, n)
  }

  lemma MatchesAreReached(edges: seq<Edge>, cond: Edge -> bool, reverse: bool, from: seq<nat>, eval: nat -> bool, n: nat)
    ensures n in Matches(edges, cond, reverse, from, eval) <==> eval(n) && Reached(edges, cond, reverse, from, n)
  {
    if Reached(edges, cond, reverse, from, n) {
      var p :| |p| >= 2 && Walk(edges, cond, reverse, p) && p[0] in from && p[|p| - 1] == n;
      assert Step(edges, cond, reverse, p[|p| - 2], p[|p| - 2 + 1]);
    }
  }

  lemma ReachedOneMore(edges: seq<Edge>, cond: Edge -> bool, reverse: bool, from: seq<nat>, m: nat, n: nat)
    requires m in from || Reached(edges, cond, reverse, from, m)
    requires Step(edges, cond, reverse, m, n)
    ensures Reached(edges, cond, reverse, from, n)
  {
    var p := [m];
    if m !in from {
      p :| |p| >= 2 && Walk(edges, cond, reverse, p) && p[0] in from && p[|p| - 1] == m;
    }
    var q := p + [n];
    forall i | 0 <= i < |q| - 1
      ensures Step(edges, cond, reverse, q[i], q[i + 1])
    {
      assert i < |p| - 1 ==> Step(edges, cond, reverse, p[i], p[i + 1]);
    }
    assert Walk(edges, cond, reverse, q);
  }

  function Backwards(p: seq<nat>): (r: seq<nat>)
    ensures |r| == |p| && forall i :: 0 <= i < |p| ==> r[i] == p[|p| - 1 - i]
  {
    if p == [] then [] else Backwards(p[1..]) + [p[0]]
  }

  // Looking forwards from `x` finds `y` exactly if looking backwards from
  // `y` finds `x`.
  lemma ForwardIsBackward(edges: seq<Edge>, cond: Edge -> bool, reverse: bool, x: nat, y: nat)
    ensures Reached(edges, cond, reverse, [x], y) <==> Reached(edges, cond, !reverse, [y], x)
  {
    if Reached(edges, cond, reverse, [x], y) {
      TurnAround(edges, cond, reverse, x, y);
    }
    if Reached(edges, cond, !reverse, [y], x) {
      TurnAround(edges, cond, !reverse, y, x);
    }
  }

  lemma TurnAround(edges: seq<Edge>, cond: Edge -> bool, reverse: bool, x: nat, y: nat)
    requires Reached(edges, cond, reverse, [x], y)
    ensures Reached(edges, cond, !reverse, [y], x)
  {
    var p :| |p| >= 2 && Walk(edges, cond, reverse, p) && p[0] in [x] && p[|p| - 1] == y;
    var q := Backwards(p);
    forall i | 0 <= i < |q| - 1
      ensures Step(edges, cond, !reverse, q[i], q[i + 1])
    {
      var j := |p| - 2 - i;
      assert Step(edges, cond, reverse, p[j], p[j + 1]);
    }
    assert Walk(edges, cond, !reverse, q);
  }

  // ----- one step in code -----

  function Target(e: Edge, reverse: bool): nat {
    if reverse then e.src else e.dst
  }

  function Targets(list: seq<Edge>, cond: Edge -> bool, reverse: bool): seq<nat> {
    if list == [] then []
    else (if cond(list[0]) then [Target(list[0], reverse)] else []) + Targets(list[1..], cond, reverse)
  }

  lemma {:induction false} TargetsOfList(list: seq<Edge>, cond: Edge -> bool, reverse: bool, n: nat)
    ensures n in Targets(list, cond, reverse) <==> exists e :: e in list && cond(e) && Target(e, reverse) == n
  {
    if list != [] {
      TargetsOfList(list[1..], cond, reverse, n);
      assert list == [list[0]] + list[1..];
    }
  }

  // The nodes one step from a node, in the order of the edge set.
  function Lists(edges: seq<Edge>, cond: Edge -> bool, reverse: bool): Enumeration {
    n => Targets(EdgeSet(if reverse then Into(edges, n) else OutOf(edges, n)), cond, reverse)
  }

  lemma NextIsStep(edges: seq<Edge>, cond: Edge -> bool, reverse: bool, m: nat, n: nat)
    ensures n in Lists(edges, cond, reverse)(m) <==> Step(edges, cond, reverse, m, n)
  {
    var list := if reverse then Into(edges, m) else OutOf(edges, m);
    EdgeSetIsSorted(list);
    TargetsOfList(EdgeSet(list), cond, reverse, n);
    if n in Lists(edges, cond, reverse)(m) {
      var e :| e in EdgeSet(list) && cond(e) && Target(e, reverse) == n;
      assert e in edges;
    }
    if Step(edges, cond, reverse, m, n) {
      var e :| e in edges && cond(e) && (if reverse then e.dst == m && e.src == n else e.src == m && e.dst == n);
      assert e in EdgeSet(list) && Target(e, reverse) == n;
    }
  }

  lemma TargetsFrom(list: seq<Edge>, cond: Edge -> bool, reverse: bool, i: nat, r: seq<nat>)
    requires i < |list|
    ensures r + Targets(list[i..], cond, reverse)
            == (if cond(list[i]) then r + [Target(list[i], reverse)] else r) + Targets(list[i + 1..], cond, reverse)
  {
    assert list[i..][0] == list[i] && list[i..][1..] == list[i + 1..];
  }

  predicate IsAst(e: Edge) {
    e.Ast?
  }

  // The children of a node, as getChild counts them.
  function Children(edges: seq<Edge>, n: nat): seq<nat> {
    Lists(edges, IsAst, false)(n)
  }

  lemma {:induction false} TargetsRise(list: seq<Edge>, n: nat)
    requires Sorted(list) && forall e :: e in list ==> e.src == n
    ensures forall i, j :: 0 <= i < j < |Targets(list, IsAst, false)| ==> Targets(list, IsAst, false)[i] < Targets(list, IsAst, false)[j]
  {
    if list != [] {
      TargetsRise(list[1..], n);
      var rest := Targets(list[1..], IsAst, false);
      forall i | 0 <= i < |rest| && list[0].Ast?
        ensures list[0].dst < rest[i]
      {
        TargetsOfList(list[1..], IsAst, false, rest[i]);
        var e :| e in list[1..] && IsAst(e) && Target(e, false) == rest[i];
        var k :| 0 <= k < |list| - 1 && list[1..][k] == e;
        assert Before(list[0], list[k + 1]);
      }
    }
  }

  // Children are counted by their ids.
  lemma ChildrenRise(edges: seq<Edge>, n: nat)
    ensures forall i, j :: 0 <= i < j < |Children(edges, n)| ==> Children(edges, n)[i] < Children(edges, n)[j]
    ensures forall c :: c in Children(edges, n) <==> Ast(n, c) in edges
  {
    EdgeSetIsSorted(OutOf(edges, n));
    TargetsRise(EdgeSet(OutOf(edges, n)), n);
    forall c
      ensures c in Children(edges, n) <==> Ast(n, c) in edges
    {
      NextIsStep(edges, IsAst, false, n, c);
    }
  }

  // map over filterEdges
  method Neighbours(g: Graph, cond: Edge -> bool, reverse: bool, n: nat) returns (r: seq<nat>)
    requires g.Valid() && n < g.count
    ensures r == Lists(g.made, cond, reverse)(n)
  {
    var list := EdgeSet(if reverse then g.inEdges[n] else g.outEdges[n]);
    r := [];
    for i := 0 to |list|
      invariant r + Targets(list[i..], cond, reverse) == Targets(list, cond, reverse)
    {
      TargetsFrom(list, cond, reverse, i, r);
      if cond(list[i]) {
        r := r + [Target(list[i], reverse)];
      }
    }
  }

  // children and parents
  method NextOfAll(g: Graph, cond: Edge -> bool, reverse: bool, nodes: seq<nat>) returns (r: set<nat>)
    requires g.Valid() && forall i :: 0 <= i < |nodes| ==> nodes[i] < g.count
    ensures forall n :: n in r <==> exists m :: m in nodes && Step(g.made, cond, reverse, m, n)
  {
    r := {};
    for i := 0 to |nodes|
      invariant forall n :: n in r <==> exists m :: m in nodes[..i] && Step(g.made, cond, reverse, m, n)
    {
      var next := Neighbours(g, cond, reverse, nodes[i]);
      assert nodes[..i + 1] == nodes[..i] + [nodes[i]];
      ghost var before := r;
      r := r + set n | n in next;
      forall n
        ensures n in r <==> exists m :: m in nodes[..i + 1] && Step(g.made, cond, reverse, m, n)
      {
        NextIsStep(g.made, cond, reverse, nodes[i], n);
        OneOf(g.made, cond, reverse, nodes[..i], nodes[i], n);
        assert n in r <==> n in before || n in next;
      }
    }
    assert nodes[..|nodes|] == nodes;
  }

  lemma OneOf(edges: seq<Edge>, cond: Edge -> bool, reverse: bool, before: seq<nat>, last: nat, n: nat)
    ensures (exists m :: m in before + [last] && Step(edges, cond, reverse, m, n)) <==>
            Step(edges, cond, reverse, last, n) || exists m :: m in before && Step(edges, cond, reverse, m, n)
  {
    if Step(edges, cond, reverse, last, n) {
      assert last in before + [last];
    }
  }

  // ----- breadth-first search -----

  // A set that has all neighbours of the start and of its own members has
  // everything that can be reached.
  lemma {:induction false} ClosedHasAll(edges: seq<Edge>, cond: Edge -> bool, reverse: bool, nodes: seq<nat>, closed: seq<nat>, p: seq<nat>)
    requires forall m, n :: (m in nodes || m in closed) && Step(edges, cond, reverse, m, n) ==> n in closed
    requires |p| >= 2 && Walk(edges, cond, reverse, p) && p[0] in nodes
    ensures p[|p| - 1] in closed
  {
    var q := p[..|p| - 1];
    assert Step(edges, cond, reverse, p[|p| - 2], p[|p| - 2 + 1]);
    if |q| >= 2 {
      forall i | 0 <= i < |q| - 1
        ensures Step(edges, cond, reverse, q[i], q[i + 1])
      {
        assert q[i] == p[i] && Step(edges, cond, reverse, p[i], p[i + 1]);
      }
      ClosedHasAll(edges, cond, reverse, nodes, closed, q);
    }
  }

  ghost predicate Found(edges: seq<Edge>, cond: Edge -> bool, reverse: bool, nodes: seq<nat>, n: nat) {
    n in Ends(edges) && Reached(edges, cond, reverse, nodes, n)
  }

  lemma FoundSpreads(edges: seq<Edge>, cond: Edge -> bool, reverse: bool, nodes: seq<nat>)
    ensures Spreads(Lists(edges, cond, reverse), nodes, (n: nat) => Found(edges, cond, reverse, nodes, n))
  {
    forall m, n | (m in nodes || Found(edges, cond, reverse, nodes, m)) && n in Lists(edges, cond, reverse)(m)
      ensures Found(edges, cond, reverse, nodes, n)
    {
      NextIsStep(edges, cond, reverse, m, n);
      ReachedOneMore(edges, cond, reverse, nodes, m, n);
    }
  }

  lemma NothingLeft(edges: seq<Edge>, cond: Edge -> bool, reverse: bool, nodes: seq<nat>, t: seq<nat>, v: seq<nat>)
    requires Taken(Lists(edges, cond, reverse), nodes, t, [], v)
    ensures forall n :: Reached(edges, cond, reverse, nodes, n) ==> n in v
  {
    forall m, n | (m in nodes || m in v) && Step(edges, cond, reverse, m, n)
      ensures n in v
    {
      NextIsStep(edges, cond, reverse, m, n);
      NothingIsMissing(Lists(edges, cond, reverse), nodes, t, v, m, n);
    }
    forall n | Reached(edges, cond, reverse, nodes, n)
      ensures n in v
    {
      var p :| |p| >= 2 && Walk(edges, cond, reverse, p) && p[0] in nodes && p[|p| - 1] == n;
      ClosedHasAll(edges, cond, reverse, nodes, v, p);
    }
  }

  function Min(a: nat, b: nat): nat {
    if a < b then a else b
  }

  method InitialQueue(g: Graph, cond: Edge -> bool, reverse: bool, nodes: seq<nat>) returns (queue: seq<nat>)
    requires g.Valid() && forall i :: 0 <= i < |nodes| ==> nodes[i] < g.count
    ensures queue == Start(Lists(g.made, cond, reverse), nodes)
  {
    ghost var next := Lists(g.made, cond, reverse);
    queue := [];
    for i := 0 to |nodes|
      invariant queue == Start(next, nodes[..i])
    {
      assert nodes[..i + 1][..i] == nodes[..i];
      var list := Neighbours(g, cond, reverse, nodes[i]);
      assert list == next(nodes[i]);
      queue := list + queue;
    }
    assert nodes[..|nodes|] == nodes;
  }

  // BFS: `visited` are the nodes for which the predicate was evaluated.
  method Bfs(g: Graph, nodes: seq<nat>, eval: nat -> bool, cond: Edge -> bool, limit: nat, reverse: bool)
    returns (result: set<nat>, visited: seq<nat>)
    requires g.Valid() && forall i :: 0 <= i < |nodes| ==> nodes[i] < g.count
    ensures Distinct(visited)
    ensures forall n :: n in visited ==> Reached(g.made, cond, reverse, nodes, n)
    ensures result == Elements(Filtered(visited, eval))
    ensures result <= Matches(g.made, cond, reverse, nodes, eval)
    ensures |result| == Min(limit, |Matches(g.made, cond, reverse, nodes, eval)|)
    ensures InOrder(Lists(g.made, cond, reverse), nodes, visited)
  {
    result, visited := {}, [];
    ghost var edges, next := g.made, Lists(g.made, cond, reverse);
    ghost var found := (n: nat) => Found(edges, cond, reverse, nodes, n);
    ghost var taken, rest := [], Start(next, nodes);
    FoundSpreads(edges, cond, reverse, nodes);
    StartIsPending(next, nodes, found);
    if limit > 0 {
      PendingIsKept(next, nodes, found, Ends(edges));
      var queue := InitialQueue(g, cond, reverse, nodes);
      result, visited, taken, rest :=
        Search(g, queue, eval, cond, limit, reverse, (t, q, v) => Pending(next, nodes, found, t, q, v));
      if rest == [] {
        NothingLeft(edges, cond, reverse, nodes, taken, visited);
      }
    }
    assert Taken(next, nodes, taken, rest, visited);
    Counted(edges, nodes, eval, cond, limit, reverse, result, visited);
  }

  lemma Counted(edges: seq<Edge>, nodes: seq<nat>, eval: nat -> bool, cond: Edge -> bool, limit: nat, reverse: bool,
                result: set<nat>, visited: seq<nat>)
    requires forall n :: n in visited ==> Reached(edges, cond, reverse, nodes, n)
    requires forall n :: n in result <==> n in visited && eval(n)
    requires |result| <= limit
    requires |result| < limit ==> forall n :: Reached(edges, cond, reverse, nodes, n) ==> n in visited
    ensures result <= Matches(edges, cond, reverse, nodes, eval)
    ensures |result| == Min(limit, |Matches(edges, cond, reverse, nodes, eval)|)
  {
    var all := Matches(edges, cond, reverse, nodes, eval);
    forall n {
      MatchesAreReached(edges, cond, reverse, nodes, eval, n);
    }
    SubsetSize(result, all);
    if |result| < limit {
      assert result == all;
    }
  }

  lemma SubsetSize(a: set<nat>, b: set<nat>)
    requires a <= b
    ensures |a| <= |b|
  {
    assert b == a + (b - a);
  }

  // The loop of BFS.
  method Search(g: Graph, start: seq<nat>, eval: nat -> bool, cond: Edge -> bool, limit: nat, reverse: bool,
                ghost inv: (seq<nat>, seq<nat>, seq<nat>) -> bool)
    returns (result: set<nat>, visited: seq<nat>, ghost taken: seq<nat>, ghost rest: seq<nat>)
    requires g.Valid() && limit > 0 && inv([], start, []) && Kept(inv, Lists(g.made, cond, reverse), Ends(g.made))
    ensures inv(taken, rest, visited) && |result| <= limit && (|result| < limit ==> rest == [])
    ensures forall n :: n in result <==> n in visited && eval(n)
  {
    var queue := start;
    ghost var lists := Lists(g.made, cond, reverse);
    result, visited, taken := {}, [], [];
    while queue != []
      invariant inv(taken, queue, visited) && |result| < limit
      invariant forall n :: n in result <==> n in visited && eval(n)
      decreases Ends(g.made) - Elements(visited), |queue|
    {
      var n := queue[0];
      assert GoesOn(inv, lists, Ends(g.made), taken, queue, visited);
      taken, queue := taken + [n], queue[1..];
      if n in visited {
        continue;
      }
      OneLeft(Ends(g.made), visited, n);
      var next := Neighbours(g, cond, reverse, n);
      assert next == lists(n);
      visited, queue := visited + [n], queue + next;
      if eval(n) {
        result := result + {n};
        if |result| == limit {
          return result, visited, taken, queue;
        }
      }
    }
    rest := queue;
  }

  lemma OneLeft(all: set<nat>, visited: seq<nat>, n: nat)
    requires n in all && n !in visited
    ensures all - Elements(visited + [n]) < all - Elements(visited)
  {
    assert Elements(visited + [n]) == Elements(visited) + {n};
    assert n in all - Elements(visited);
  }

  function Filtered(nodes: seq<nat>, eval: nat -> bool): (r: seq<nat>)
    ensures forall n :: n in r <==> n in nodes && eval(n)
  {
    if nodes == [] then []
    else (if eval(nodes[0]) then [nodes[0]] else []) + Filtered(nodes[1..], eval)
  }

  lemma {:induction false} FilteredTogether(a: seq<nat>, b: seq<nat>, eval: nat -> bool)
    ensures Filtered(a + b, eval) == Filtered(a, eval) + Filtered(b, eval)
  {
    if a == [] {
      assert a + b == b;
    } else {
      assert (a + b)[0] == a[0] && (a + b)[1..] == a[1..] + b;
      FilteredTogether(a[1..], b, eval);
    }
  }

  // All nodes that can be reached, each once, in the order of the search.
  ghost predicate BreadthFirst(edges: seq<Edge>, cond: Edge -> bool, reverse: bool, nodes: seq<nat>, order: seq<nat>) {
    && IsOrder(Lists(edges, cond, reverse), nodes, order) && Distinct(order)
    && forall n :: n in order <==> Reached(edges, cond, reverse, nodes, n)
  }

  lemma SearchedAll(edges: seq<Edge>, cond: Edge -> bool, reverse: bool, nodes: seq<nat>) returns (order: seq<nat>)
    ensures BreadthFirst(edges, cond, reverse, nodes, order)
  {
    var next, found := Lists(edges, cond, reverse), (n: nat) => Found(edges, cond, reverse, nodes, n);
    FoundSpreads(edges, cond, reverse, nodes);
    StartIsPending(next, nodes, found);
    PendingIsKept(next, nodes, found, Ends(edges));
    var taken;
    taken, order := Finish((t, q, v) => Pending(next, nodes, found, t, q, v), next, Ends(edges), [], Start(next, nodes), []);
    NothingLeft(edges, cond, reverse, nodes, taken, order);
  }

  // The matches that a search finds are the first ones in that order.
  lemma FirstMatches(edges: seq<Edge>, cond: Edge -> bool, reverse: bool, nodes: seq<nat>, eval: nat -> bool, limit: nat,
                     visited: seq<nat>, order: seq<nat>)
    requires InOrder(Lists(edges, cond, reverse), nodes, visited) && BreadthFirst(edges, cond, reverse, nodes, order)
    requires |Elements(Filtered(visited, eval))| == Min(limit, |Matches(edges, cond, reverse, nodes, eval)|)
    ensures Elements(Filtered(order, eval)) == Matches(edges, cond, reverse, nodes, eval)
    ensures var behind := Filtered(order, eval); Filtered(visited, eval) == behind[..Min(limit, |behind|)]
  {
    var behind := Filtered(order, eval);
    hide InOrder, IsOrder, Lists, Reached;
    forall n {
      MatchesAreReached(edges, cond, reverse, nodes, eval, n);
    }
    assert Elements(behind) == Matches(edges, cond, reverse, nodes, eval);
    VisitedIsPrefix(Lists(edges, cond, reverse), nodes, visited, order);
    FirstFiltered(visited, order, eval, limit);
  }

  lemma FirstFiltered(visited: seq<nat>, order: seq<nat>, eval: nat -> bool, limit: nat)
    requires Distinct(order) && visited <= order
    requires |Elements(Filtered(visited, eval))| == Min(limit, |Elements(Filtered(order, eval))|)
    ensures var behind := Filtered(order, eval); Filtered(visited, eval) == behind[..Min(limit, |behind|)]
  {
    var own, behind := Filtered(visited, eval), Filtered(order, eval);
    assert order == visited + order[|visited|..];
    FilteredTogether(visited, order[|visited|..], eval);
    FilteredIsDistinct(order, eval);
    assert behind[..|own|] == own;
    DistinctSize(behind, |own|);
  }

  // What BFSincludes returns: matches of the start, then matches behind it
  // up to the limit. The search is told how many nodes are still wanted, not
  // which ones are there already.
  function IncludesResult(own: seq<nat>, behind: seq<nat>, limit: nat): set<nat> {
    if |own| >= limit then Elements(own[..limit]) else Elements(own) + Elements(behind[..Min(limit - |own|, |behind|)])
  }

  // BFSincludes: the start counts as reached.
  method BfsIncludes(g: Graph, nodes: seq<nat>, eval: nat -> bool, cond: Edge -> bool, limit: nat, reverse: bool) returns (result: set<nat>)
    requires g.Valid() && forall i :: 0 <= i < |nodes| ==> nodes[i] < g.count
    ensures exists order :: BreadthFirst(g.made, cond, reverse, nodes, order)
                            && result == IncludesResult(Filtered(nodes, eval), Filtered(order, eval), limit)
  {
    hide InOrder, BreadthFirst;
    ghost var order := SearchedAll(g.made, cond, reverse, nodes);
    var filtering := Filtered(nodes, eval);
    if |filtering| >= limit {
      result := Elements(filtering[..limit]);
    } else {
      var found, visited := Bfs(g, nodes, eval, cond, limit - |filtering|, reverse);
      FirstMatches(g.made, cond, reverse, nodes, eval, limit - |filtering|, visited, order);
      result := Elements(filtering) + found;
    }
  }

  // Nothing is missing exactly if the start alone fills the limit and has all
  // matches, or if every match that comes too late for the limit belongs to
  // the start.
  lemma CompleteExactly(own: seq<nat>, behind: seq<nat>, limit: nat)
    requires Distinct(own) && Distinct(behind)
    ensures Elements(own) + Elements(behind) <= IncludesResult(own, behind, limit) <==>
              if |own| >= limit then |own| == limit && Elements(behind) <= Elements(own)
              else forall i :: limit - |own| <= i < |behind| ==> behind[i] in own
  {
    var result := IncludesResult(own, behind, limit);
    if |own| >= limit {
      DistinctSize(own, limit);
      if |own| > limit {
        assert own[limit] in Elements(own);
        assert forall j :: 0 <= j < limit ==> own[j] != own[limit];
        assert own[limit] !in result;
      } else {
        assert own[..limit] == own;
      }
    } else {
      var k := Min(limit - |own|, |behind|);
      assert behind == behind[..k] + behind[k..];
      forall i | k <= i < |behind|
        ensures behind[i] in result <==> behind[i] in own
      {
        assert behind[i] !in behind[..k];
      }
      if forall i :: limit - |own| <= i < |behind| ==> behind[i] in own {
        forall n | n in behind
          ensures n in result
        {
          var i :| 0 <= i < |behind| && behind[i] == n;
          assert i < k ==> n in behind[..k];
        }
      } else {
        var i :| limit - |own| <= i < |behind| && behind[i] !in own;
        assert behind[i] in behind;
      }
    }
  }

  function Elements(s: seq<nat>): set<nat> {
    set n | n in s
  }

  ghost predicate Distinct(s: seq<nat>) {
    forall i, j :: 0 <= i < j < |s| ==> s[i] != s[j]
  }

  lemma {:induction false} FilteredIsDistinct(nodes: seq<nat>, eval: nat -> bool)
    requires Distinct(nodes)
    ensures Distinct(Filtered(nodes, eval))
  {
    if nodes != [] {
      FilteredIsDistinct(nodes[1..], eval);
      assert nodes == [nodes[0]] + nodes[1..] && nodes[0] !in nodes[1..];
    }
  }

  lemma DistinctSize(s: seq<nat>, k: nat)
    requires Distinct(s)
    ensures |Elements(s)| == |s|
    ensures k <= |s| ==> |Elements(s[..k])| == k && Elements(s[..k]) <= Elements(s)
  {
    ElementCount(s);
    if k <= |s| {
      ElementCount(s[..k]);
    }
  }

  lemma {:induction false} ElementCount(s: seq<nat>)
    requires Distinct(s)
    ensures |Elements(s)| == |s|
  {
    if s != [] {
      ElementCount(s[1..]);
      assert s == [s[0]] + s[1..];
      assert Elements(s) == Elements(s[1..]) + {s[0]};
    }
  }

  // ----- where a limit loses a match -----

  predicate AllEdges(e: Edge) {
    true
  }

  predicate AllNodes(n: nat) {
    true
  }

  const SELF_LOOP: seq<Edge> := [Ast(0, 0), Ast(0, 1)]

  // A node that is reached from itself is counted twice: with limit 2 the
  // search from 0 over the edges 0 -> 0 and 0 -> 1 returns one node of two.
  lemma LimitCountsTwice(order: seq<nat>)
    requires BreadthFirst(SELF_LOOP, AllEdges, false, [0], order)
    ensures IncludesResult(Filtered([0], AllNodes), Filtered(order, AllNodes), 2) == {0}
    ensures Matches(SELF_LOOP, AllEdges, false, [0], AllNodes) == {0, 1}
  {
    hide Matches, IsOrder, Lists;
    TwoMatches(SELF_LOOP);
    ZeroIsFirst(SELF_LOOP, order);
    assert Filtered([0], AllNodes) == [0] && Filtered(order, AllNodes)[..1] == [0];
  }

  lemma ZeroIsFirst(edges: seq<Edge>, order: seq<nat>)
    requires edges == [Ast(0, 0), Ast(0, 1)] && IsOrder(Lists(edges, AllEdges, false), [0], order)
    ensures Filtered(order, AllNodes) == order && order != [] && order[0] == 0
  {
    var next := Lists(edges, AllEdges, false);
    TwoTargets(edges);
    AllAreFiltered(order);
    var taken :| Taken(next, [0], taken, [], order);
    assert taken + [] == taken && taken != [];
    assert HadTurn(next, [0], taken, 0) && taken[..0] == [];
    FirstsOfPrefix(taken, 1);
    assert taken[..1] == [0] && Firsts([0]) == [0];
  }

  lemma {:induction false} AllAreFiltered(s: seq<nat>)
    ensures Filtered(s, AllNodes) == s
  {
    if s != [] {
      AllAreFiltered(s[1..]);
      assert s == [s[0]] + s[1..];
    }
  }

  lemma TwoMatches(edges: seq<Edge>)
    requires edges == [Ast(0, 0), Ast(0, 1)]
    ensures Matches(edges, AllEdges, false, [0], AllNodes) == {0, 1}
  {
    var matches := Matches(edges, AllEdges, false, [0], AllNodes);
    assert edges[0] in edges && edges[1] in edges;
    assert Step(edges, AllEdges, false, 0, 0) && Step(edges, AllEdges, false, 0, 1);
    assert Walk(edges, AllEdges, false, [0, 0]) && Walk(edges, AllEdges, false, [0, 1]);
    assert Reached(edges, AllEdges, false, [0], 0) && Reached(edges, AllEdges, false, [0], 1);
    assert 0 in matches && 1 in matches;
    assert matches <= Ends(edges) == {0, 1};
  }

  lemma TwoTargets(edges: seq<Edge>)
    requires edges == [Ast(0, 0), Ast(0, 1)]
    ensures var start := Start(Lists(edges, AllEdges, false), [0]); start != [] && start[0] == 0
  {
    OneMore([], Ast(0, 0), 0);
    OneMore([Ast(0, 0)], Ast(0, 1), 0);
    assert [] + [Ast(0, 0)] == [Ast(0, 0)] && [Ast(0, 0)] + [Ast(0, 1)] == edges;
    assert OutOf(edges, 0) == edges;
    assert edges[..1] == [Ast(0, 0)];
    var list := EdgeSet(edges);
    EdgeSetIsSorted(edges);
    SortedIsUnique(list, edges);
    assert Targets(list, AllEdges, false)[0] == 0;
  }
}
