// The edges of a tree in which every id is used at most once: each node has
// one parent, nothing lies on a cycle, and a node's edges lead to its own
// operands and statements.
module Forests {
  import opened Folding
  import opened FoldLaws

  ghost function Kids(t: Tree): seq<Tree> {
    t.args + t.body
  }

  lemma {:induction false} LinksSum(a: seq<Tree>, b: seq<Tree>)
    ensures LinksOf(a + b) == LinksOf(a) + LinksOf(b)
  {
    if a == [] {
      assert a + b == b;
    } else {
      LinksSum(a[1..], b);
      assert (a + b)[1..] == a[1..] + b;
    }
  }

  ghost predicate HasRoot(ts: seq<Tree>, n: nat) {
    exists i :: 0 <= i < |ts| && ts[i].id == n
  }

  lemma KidsOf(t: Tree, n: nat, p: nat, c: nat)
    ensures Count(t, n) == (if t.id == n then 1 else 0) + CountAll(Kids(t), n)
    ensures Link(p, c) in Links(t) <==> (p == t.id && HasRoot(Kids(t), c)) || Link(p, c) in LinksOf(Kids(t))
  {
    CountSum(t.args, t.body, n);
    LinksSum(t.args, t.body);
    if HasRoot(Kids(t), c) {
      var i :| 0 <= i < |Kids(t)| && Kids(t)[i].id == c;
      assert i < |t.args| ==> Link(t.id, c) in Under(t.id, t.args);
      assert i >= |t.args| ==> t.body[i - |t.args|].id == c && Link(t.id, c) in Under(t.id, t.body);
    }
    if p == t.id && Link(p, c) in Under(t.id, t.args) + Under(t.id, t.body) {
      if Link(p, c) in Under(t.id, t.args) {
        var i :| 0 <= i < |t.args| && t.args[i].id == c;
        assert Kids(t)[i].id == c;
      } else {
        var i :| 0 <= i < |t.body| && t.body[i].id == c;
        assert Kids(t)[|t.args| + i].id == c;
      }
    }
  }

  lemma HasRootCounts(ts: seq<Tree>, n: nat)
    requires HasRoot(ts, n)
    ensures CountAll(ts, n) > 0
  {
    var i :| 0 <= i < |ts| && ts[i].id == n;
    RootsCount(ts, i);
  }

  // ----- one parent -----

  ghost function Size(t: Tree): nat {
    1 + SizeAll(t.args) + SizeAll(t.body)
  }

  ghost function SizeAll(ts: seq<Tree>): nat {
    if ts == [] then 0 else Size(ts[0]) + SizeAll(ts[1..])
  }

  lemma {:induction false} SizeSum(a: seq<Tree>, b: seq<Tree>)
    ensures SizeAll(a + b) == SizeAll(a) + SizeAll(b)
  {
    if a == [] {
      assert a + b == b;
    } else {
      SizeSum(a[1..], b);
      assert (a + b)[1..] == a[1..] + b;
    }
  }

  lemma Smaller(ts: seq<Tree>)
    requires ts != []
    ensures SizeAll(Kids(ts[0])) < SizeAll(ts) && SizeAll(ts[1..]) < SizeAll(ts)
    ensures SizeAll(Kids(ts[0])) + 1 == Size(ts[0])
  {
    SizeSum(ts[0].args, ts[0].body);
    assert Size(ts[0]) == 1 + SizeAll(ts[0].args) + SizeAll(ts[0].body);
  }

  // Both ends of an edge are in the trees, and a root with a parent is there
  // twice.
  lemma {:induction false} LinkCounts(ts: seq<Tree>, p: nat, c: nat)
    requires Link(p, c) in LinksOf(ts)
    ensures CountAll(ts, p) > 0 && CountAll(ts, c) > 0 && (HasRoot(ts, c) ==> CountAll(ts, c) > 1)
    decreases SizeAll(ts)
  {
    var t := ts[0];
    Smaller(ts);
    KidsOf(t, p, p, c);
    KidsOf(t, c, p, c);
    if HasRoot(ts, c) {
      RootElsewhere(ts, c);
    }
    if Link(p, c) in Links(t) {
      if Link(p, c) in LinksOf(Kids(t)) {
        LinkCounts(Kids(t), p, c);
      } else {
        HasRootCounts(Kids(t), c);
      }
    } else {
      LinkCounts(ts[1..], p, c);
    }
  }

  lemma RootElsewhere(ts: seq<Tree>, c: nat)
    requires HasRoot(ts, c)
    ensures ts[0].id == c || HasRoot(ts[1..], c)
    ensures HasRoot(ts[1..], c) ==> CountAll(ts[1..], c) > 0
    ensures ts[0].id == c ==> Count(ts[0], c) > 0
  {
    var i :| 0 <= i < |ts| && ts[i].id == c;
    if i > 0 {
      assert ts[1..][i - 1].id == c;
    }
    if HasRoot(ts[1..], c) {
      HasRootCounts(ts[1..], c);
    }
  }

  lemma {:induction false} OneParent(ts: seq<Tree>, p: nat, q: nat, c: nat)
    requires CountAll(ts, c) <= 1 && Link(p, c) in LinksOf(ts) && Link(q, c) in LinksOf(ts)
    ensures p == q
    decreases SizeAll(ts)
  {
    var t := ts[0];
    Smaller(ts);
    KidsOf(t, c, p, c);
    KidsOf(t, c, q, c);
    if Link(p, c) in LinksOf(ts[1..]) { LinkCounts(ts[1..], p, c); }
    if Link(q, c) in LinksOf(ts[1..]) { LinkCounts(ts[1..], q, c); }
    if Link(p, c) in LinksOf(Kids(t)) { LinkCounts(Kids(t), p, c); }
    if Link(q, c) in LinksOf(Kids(t)) { LinkCounts(Kids(t), q, c); }
    if HasRoot(Kids(t), c) { HasRootCounts(Kids(t), c); }
    if Link(p, c) in LinksOf(ts[1..]) && Link(q, c) in LinksOf(ts[1..]) {
      OneParent(ts[1..], p, q, c);
    } else if Link(p, c) in LinksOf(Kids(t)) && Link(q, c) in LinksOf(Kids(t)) {
      OneParent(Kids(t), p, q, c);
    }
  }

  lemma {:induction false} SomeParent(ts: seq<Tree>, c: nat) returns (p: nat)
    requires CountAll(ts, c) > 0 && !HasRoot(ts, c)
    ensures Link(p, c) in LinksOf(ts)
    decreases SizeAll(ts)
  {
    var t := ts[0];
    Smaller(ts);
    assert t.id != c;
    KidsOf(t, c, t.id, c);
    if Count(t, c) == 0 {
      assert forall i :: 0 <= i < |ts[1..]| ==> ts[1..][i] == ts[i + 1];
      p := SomeParent(ts[1..], c);
    } else if HasRoot(Kids(t), c) {
      p := t.id;
    } else {
      p := SomeParent(Kids(t), c);
      KidsOf(t, c, p, c);
    }
  }

  // ----- no cycle -----

  // The size of the tree with that id at its root.
  ghost function Rank(t: Tree, n: nat): nat {
    if t.id == n then Size(t) else RankAll(t.args, n) + RankAll(t.body, n)
  }

  ghost function RankAll(ts: seq<Tree>, n: nat): nat {
    if ts == [] then 0 else Rank(ts[0], n) + RankAll(ts[1..], n)
  }

  lemma {:induction false} RankSum(a: seq<Tree>, b: seq<Tree>, n: nat)
    ensures RankAll(a + b, n) == RankAll(a, n) + RankAll(b, n)
  {
    if a == [] {
      assert a + b == b;
    } else {
      RankSum(a[1..], b, n);
      assert (a + b)[1..] == a[1..] + b;
    }
  }

  lemma {:induction false} RankBound(ts: seq<Tree>, n: nat)
    ensures CountAll(ts, n) == 0 ==> RankAll(ts, n) == 0
    ensures CountAll(ts, n) <= 1 ==> RankAll(ts, n) <= SizeAll(ts)
    decreases SizeAll(ts)
  {
    if ts != [] {
      var t := ts[0];
      Smaller(ts);
      KidsOf(t, n, 0, 0);
      RankSum(t.args, t.body, n);
      RankBound(Kids(t), n);
      RankBound(ts[1..], n);
    }
  }

  lemma {:induction false} ChildRanksLower(ts: seq<Tree>, p: nat, c: nat)
    requires CountAll(ts, p) <= 1 && CountAll(ts, c) <= 1 && Link(p, c) in LinksOf(ts)
    ensures RankAll(ts, c) < RankAll(ts, p)
    decreases SizeAll(ts)
  {
    var t := ts[0];
    Smaller(ts);
    KidsOf(t, p, p, c);
    KidsOf(t, c, p, c);
    RankSum(t.args, t.body, p);
    RankSum(t.args, t.body, c);
    if Link(p, c) in LinksOf(ts[1..]) {
      LinkCounts(ts[1..], p, c);
      ChildRanksLower(ts[1..], p, c);
      RankBound(Kids(t), p);
      RankBound(Kids(t), c);
    } else {
      RankBound(ts[1..], p);
      RankBound(ts[1..], c);
      RankBound(Kids(t), c);
      if Link(p, c) in LinksOf(Kids(t)) {
        LinkCounts(Kids(t), p, c);
        ChildRanksLower(Kids(t), p, c);
      } else {
        HasRootCounts(Kids(t), c);
      }
    }
  }

  // ----- a node's own edges -----

  ghost predicate Inside(t: Tree, ts: seq<Tree>)
    decreases SizeAll(ts)
  {
    if ts == [] then false
    else
      Smaller(ts);
      ts[0] == t || Inside(t, Kids(ts[0])) || Inside(t, ts[1..])
  }

  lemma {:induction false} InsideCounts(t: Tree, ts: seq<Tree>, n: nat)
    requires Inside(t, ts)
    ensures Count(t, n) <= CountAll(ts, n)
    decreases SizeAll(ts)
  {
    Smaller(ts);
    KidsOf(ts[0], n, 0, 0);
    if ts[0] == t {
    } else if Inside(t, Kids(ts[0])) {
      InsideCounts(t, Kids(ts[0]), n);
    } else {
      InsideCounts(t, ts[1..], n);
    }
  }

  lemma {:induction false} InsideProper(t: Tree, ts: seq<Tree>)
    requires Inside(t, ts) && AllProper(ts)
    ensures Proper(t)
    decreases SizeAll(ts)
  {
    Smaller(ts);
    assert Proper(ts[0]);
    if ts[0] == t {
    } else if Inside(t, Kids(ts[0])) {
      InsideProper(t, Kids(ts[0]));
    } else {
      InsideProper(t, ts[1..]);
    }
  }

  // Edges from the id of a node lead to what that node holds, and to nothing
  // else.
  lemma {:induction false} OwnLinks(t: Tree, ts: seq<Tree>, c: nat)
    requires Inside(t, ts) && CountAll(ts, t.id) <= 1
    ensures Link(t.id, c) in LinksOf(ts) <==> HasRoot(Kids(t), c)
    decreases SizeAll(ts)
  {
    var u := ts[0];
    Smaller(ts);
    KidsOf(u, t.id, t.id, c);
    assert Count(t, t.id) > 0;
    if Link(t.id, c) in LinksOf(ts[1..]) { LinkCounts(ts[1..], t.id, c); }
    if Link(t.id, c) in LinksOf(Kids(u)) { LinkCounts(Kids(u), t.id, c); }
    if u == t {
    } else if Inside(t, Kids(u)) {
      InsideCounts(t, Kids(u), t.id);
      OwnLinks(t, Kids(u), c);
    } else {
      InsideCounts(t, ts[1..], t.id);
      OwnLinks(t, ts[1..], c);
    }
  }
}
