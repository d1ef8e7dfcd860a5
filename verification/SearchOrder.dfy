// The order of a breadth-first search (src/query.cc) over any enumeration
// `next` of the neighbours of a node.
module SearchOrder {

  type Enumeration = nat -> seq<nat>

  // Each node once, where it comes first.
  function Firsts(s: seq<nat>): (r: seq<nat>)
    ensures (forall n :: n in r <==> n in s) && forall i, j :: 0 <= i < j < |r| ==> r[i] != r[j]
  {
    if s == [] then []
    else
      var before := Firsts(s[..|s| - 1]);
      var last := s[|s| - 1];
      assert s == s[..|s| - 1] + [last];
      if last in before then before else before + [last]
  }

  // What the queue starts with: the nodes' lists, the last node's first.
  function Start(next: Enumeration, nodes: seq<nat>): seq<nat> {
    if nodes == [] then [] else next(nodes[|nodes| - 1]) + Start(next, nodes[..|nodes| - 1])
  }

  // What the visited nodes have added to it.
  function Added(next: Enumeration, visited: seq<nat>): seq<nat> {
    if visited == [] then [] else Added(next, visited[..|visited| - 1]) + next(visited[|visited| - 1])
  }

  // All that has been in the queue when `taken` have been looked at.
  function Line(next: Enumeration, nodes: seq<nat>, taken: seq<nat>): seq<nat> {
    Start(next, nodes) + Added(next, Firsts(taken))
  }

  // Each node stood in the queue when its turn came.
  ghost predicate InTurn(next: Enumeration, nodes: seq<nat>, taken: seq<nat>) {
    forall i :: 0 <= i < |taken| ==> HadTurn(next, nodes, taken, i)
  }

  ghost predicate HadTurn(next: Enumeration, nodes: seq<nat>, taken: seq<nat>, i: nat)
    requires i < |taken|
  {
    i < |Line(next, nodes, taken[..i])| && taken[i] == Line(next, nodes, taken[..i])[i]
  }

  // Queue `q` is left when the nodes `taken` from it have been looked at and
  // the nodes `v` visited.
  ghost predicate Taken(next: Enumeration, nodes: seq<nat>, taken: seq<nat>, q: seq<nat>, v: seq<nat>) {
    taken + q == Start(next, nodes) + Added(next, v) && v == Firsts(taken) && InTurn(next, nodes, taken)
  }

  // The nodes are visited in the order of the queue, up to some point.
  ghost predicate InOrder(next: Enumeration, nodes: seq<nat>, visited: seq<nat>) {
    exists taken, q :: Taken(next, nodes, taken, q, visited)
  }

  lemma {:induction false} StartIsNext(next: Enumeration, nodes: seq<nat>, n: nat)
    ensures n in Start(next, nodes) <==> exists m :: m in nodes && n in next(m)
  {
    if nodes != [] {
      StartIsNext(next, nodes[..|nodes| - 1], n);
      assert nodes == nodes[..|nodes| - 1] + [nodes[|nodes| - 1]];
    }
  }

  lemma {:induction false} AddedIsNext(next: Enumeration, visited: seq<nat>, n: nat)
    ensures n in Added(next, visited) <==> exists m :: m in visited && n in next(m)
  {
    if visited != [] {
      AddedIsNext(next, visited[..|visited| - 1], n);
      assert visited == visited[..|visited| - 1] + [visited[|visited| - 1]];
    }
  }

  lemma FirstsOneMore(s: seq<nat>, n: nat)
    ensures Firsts(s + [n]) == if n in Firsts(s) then Firsts(s) else Firsts(s) + [n]
  {
    assert (s + [n])[..|s|] == s;
  }

  lemma AddedOneMore(next: Enumeration, visited: seq<nat>, n: nat)
    ensures Added(next, visited + [n]) == Added(next, visited) + next(n)
  {
    assert (visited + [n])[..|visited|] == visited;
  }

  // What a search keeps that has looked at `t`, goes on with queue `q` and
  // has visited `v`.
  ghost predicate Kept(inv: (seq<nat>, seq<nat>, seq<nat>) -> bool, next: Enumeration, all: set<nat>) {
    forall t, q, v {:trigger GoesOn(inv, next, all, t, q, v)} :: inv(t, q, v) && q != [] ==> GoesOn(inv, next, all, t, q, v)
  }

  ghost predicate GoesOn(inv: (seq<nat>, seq<nat>, seq<nat>) -> bool, next: Enumeration, all: set<nat>,
                         t: seq<nat>, q: seq<nat>, v: seq<nat>)
    requires q != []
  {
    && q[0] in all
    && if q[0] in v then inv(t + [q[0]], q[1..], v) else inv(t + [q[0]], q[1..] + next(q[0]), v + [q[0]])
  }

  ghost predicate Pending(next: Enumeration, nodes: seq<nat>, found: nat -> bool, t: seq<nat>, q: seq<nat>, v: seq<nat>) {
    Taken(next, nodes, t, q, v) && (forall n :: n in v ==> found(n)) && (forall n :: n in q ==> found(n))
  }

  // `found` holds of the neighbours of the start and of what is found.
  ghost predicate Spreads(next: Enumeration, nodes: seq<nat>, found: nat -> bool) {
    forall m, n :: (m in nodes || found(m)) && n in next(m) ==> found(n)
  }

  lemma StartIsPending(next: Enumeration, nodes: seq<nat>, found: nat -> bool)
    requires Spreads(next, nodes, found)
    ensures Pending(next, nodes, found, [], Start(next, nodes), [])
  {
    assert [] + Start(next, nodes) == Start(next, nodes) + Added(next, []);
    forall n | n in Start(next, nodes)
      ensures found(n)
    {
      StartIsNext(next, nodes, n);
    }
  }

  lemma PendingIsKept(next: Enumeration, nodes: seq<nat>, found: nat -> bool, all: set<nat>)
    requires Spreads(next, nodes, found) && forall n :: found(n) ==> n in all
    ensures Kept((t, q, v) => Pending(next, nodes, found, t, q, v), next, all)
  {
    var inv := (t, q, v) => Pending(next, nodes, found, t, q, v);
    forall t, q, v | inv(t, q, v) && q != []
      ensures GoesOn(inv, next, all, t, q, v)
    {
      TakenGoesOn(next, nodes, t, q, v);
      assert q[0] in q;
    }
  }

  lemma TakenGoesOn(next: Enumeration, nodes: seq<nat>, t: seq<nat>, q: seq<nat>, v: seq<nat>)
    requires Taken(next, nodes, t, q, v) && q != []
    ensures if q[0] in v then Taken(next, nodes, t + [q[0]], q[1..], v)
            else Taken(next, nodes, t + [q[0]], q[1..] + next(q[0]), v + [q[0]])
  {
    FirstsOneMore(t, q[0]);
    AddedOneMore(next, v, q[0]);
    Regroup(t, q, next(q[0]));
    Regroup(Start(next, nodes), Added(next, v), next(q[0]));
    OneMoreTurn(next, nodes, t, q);
  }

  lemma OneMoreTurn(next: Enumeration, nodes: seq<nat>, t: seq<nat>, q: seq<nat>)
    requires InTurn(next, nodes, t) && t + q == Line(next, nodes, t) && q != []
    ensures InTurn(next, nodes, t + [q[0]])
  {
    var more := t + [q[0]];
    forall i | 0 <= i < |more|
      ensures HadTurn(next, nodes, more, i)
    {
      if i < |t| {
        assert more[..i] == t[..i] && HadTurn(next, nodes, t, i);
      } else {
        assert more[..i] == t && (t + q)[i] == q[0];
      }
    }
  }

  lemma Regroup(a: seq<nat>, b: seq<nat>, c: seq<nat>)
    ensures a + (b + c) == (a + b) + c
    ensures b != [] ==> (a + [b[0]]) + b[1..] == a + b && (a + [b[0]]) + (b[1..] + c) == (a + b) + c
  {
    if b != [] {
      assert b == [b[0]] + b[1..];
      assert (a + [b[0]]) + (b[1..] + c) == a + (b + c);
    }
  }

  // When the queue is empty, nothing is missing.
  lemma NothingIsMissing(next: Enumeration, nodes: seq<nat>, t: seq<nat>, v: seq<nat>, m: nat, n: nat)
    requires Taken(next, nodes, t, [], v) && (m in nodes || m in v) && n in next(m)
    ensures n in v
  {
    assert t + [] == t;
    StartIsNext(next, nodes, n);
    AddedIsNext(next, v, n);
  }

  // ----- the order is determined -----

  // The order in which a search without a limit visits the nodes.
  ghost predicate IsOrder(next: Enumeration, nodes: seq<nat>, order: seq<nat>) {
    exists taken :: Taken(next, nodes, taken, [], order)
  }

  // Two searches look at the same nodes one after the other.
  lemma {:induction false} SameTurns(next: Enumeration, nodes: seq<nat>, s: seq<nat>, t: seq<nat>, i: nat)
    requires InTurn(next, nodes, s) && InTurn(next, nodes, t) && i <= |s| && i <= |t|
    ensures s[..i] == t[..i]
    decreases i
  {
    if i > 0 {
      SameTurns(next, nodes, s, t, i - 1);
      assert HadTurn(next, nodes, s, i - 1) && HadTurn(next, nodes, t, i - 1);
      assert s[..i] == s[..i - 1] + [s[i - 1]] && t[..i] == t[..i - 1] + [t[i - 1]];
    }
  }

  lemma {:induction false} FirstsOfPrefix(s: seq<nat>, i: nat)
    requires i <= |s|
    ensures Firsts(s[..i]) <= Firsts(s)
    decreases |s|
  {
    if i < |s| {
      var before := s[..|s| - 1];
      assert s == before + [s[|s| - 1]] && before[..i] == s[..i];
      FirstsOfPrefix(before, i);
      FirstsOneMore(before, s[|s| - 1]);
    } else {
      assert s[..i] == s;
    }
  }

  lemma NobodyIsNext(next: Enumeration, nodes: seq<nat>, t: seq<nat>, all: seq<nat>)
    requires |all| < |t| && t[..|all|] == all && |Line(next, nodes, all)| == |all|
    ensures !HadTurn(next, nodes, t, |all|)
  {
  }

  // A search that stops early has visited the first nodes of the order.
  lemma VisitedIsPrefix(next: Enumeration, nodes: seq<nat>, visited: seq<nat>, order: seq<nat>)
    requires InOrder(next, nodes, visited) && IsOrder(next, nodes, order)
    ensures visited <= order
  {
    var t, q :| Taken(next, nodes, t, q, visited);
    var all :| Taken(next, nodes, all, [], order);
    assert all + [] == all;
    if |t| > |all| {
      SameTurns(next, nodes, t, all, |all|);
      assert all[..|all|] == all;
      NobodyIsNext(next, nodes, t, all);
    } else {
      SameTurns(next, nodes, t, all, |t|);
      assert t[..|t|] == t;
      FirstsOfPrefix(all, |t|);
    }
  }

  // Every search can be brought to its end.
  lemma {:induction false} Finish(inv: (seq<nat>, seq<nat>, seq<nat>) -> bool, next: Enumeration, all: set<nat>,
                                  t: seq<nat>, q: seq<nat>, v: seq<nat>) returns (taken: seq<nat>, order: seq<nat>)
    requires Kept(inv, next, all) && inv(t, q, v)
    ensures inv(taken, [], order)
    decreases all - (set n | n in v), |q|
  {
    if q == [] {
      taken, order := t, v;
    } else {
      assert GoesOn(inv, next, all, t, q, v);
      if q[0] in v {
        taken, order := Finish(inv, next, all, t + [q[0]], q[1..], v);
      } else {
        assert (set n | n in v + [q[0]]) == (set n | n in v) + {q[0]} && q[0] in all - (set n | n in v);
        taken, order := Finish(inv, next, all, t + [q[0]], q[1..] + next(q[0]), v + [q[0]]);
      }
    }
  }
}
