// Nodes, edges and edge sets of the code property graph (src/graph.h,
// src/graph.cc).
module Graphs {
  import opened Constants

  datatype PdgType = Local | Global | Function | Control | Const

  // Constant edges are made with their constant, the others with a label.
  type LabelledType = t: PdgType | t != Const witness Local

  // CFG labels and PDG labels and kinds tell parallel edges apart.
  datatype Edge =
    | Ast(src: nat, dst: nat)
    | Cfg(src: nat, dst: nat, cfgLabel: string)
    | Pdg(src: nat, dst: nat, pdgLabel: string, pdgType: LabelledType)
    | PdgConst(src: nat, dst: nat, value: Constant)
    | Cg(src: nat, dst: nat)
  {
    function Type(): nat {
      match this
      case Ast(_, _) => 0
      case Cfg(_, _, _) => 1
      case Pdg(_, _, _, _) => 2
      case PdgConst(_, _, _) => 2
      case Cg(_, _) => 3
    }

    function Label(): string {
      match this
      case Cfg(_, _, text) => text
      case Pdg(_, _, text, _) => text
      case PdgConst(_, _, value) => ConstLabel(value)
      case _ => ""
    }

    function Kind(): PdgType
      requires Pdg? || PdgConst?
    {
      if PdgConst? then Const else pdgType
    }
  }

  function Rank(t: PdgType): nat {
    match t
    case Local => 0
    case Global => 1
    case Function => 2
    case Control => 3
    case Const => 4
  }

  predicate Less(s: string, t: string) {
    t != [] && (s == [] || s[0] < t[0] || (s[0] == t[0] && Less(s[1..], t[1..])))
  }

  // CompareEdge
  predicate Before(e: Edge, f: Edge) {
    if e.Type() != f.Type() then e.Type() < f.Type()
    else if e.src != f.src then e.src < f.src
    else if e.dst != f.dst then e.dst < f.dst
    else if e.Label() != f.Label() then Less(e.Label(), f.Label())
    else (e.Pdg? || e.PdgConst?) && e.Kind() != f.Kind() && Rank(e.Kind()) < Rank(f.Kind())
  }

  lemma {:induction false} LessIsTotal(s: string, t: string, u: string)
    ensures !(Less(s, t) && Less(t, s)) && (s == t <==> !Less(s, t) && !Less(t, s))
    ensures Less(s, t) && Less(t, u) ==> Less(s, u)
  {
    if s != [] && t != [] {
      LessIsTotal(s[1..], t[1..], if u == [] then [] else u[1..]);
      assert s == [s[0]] + s[1..] && t == [t[0]] + t[1..];
    }
  }

  // A strict total order: two edges that a set takes for the same are the same.
  lemma BeforeIsTotal(e: Edge, f: Edge, g: Edge)
    ensures !(Before(e, f) && Before(f, e)) && (e == f <==> !Before(e, f) && !Before(f, e))
    ensures Before(e, f) && Before(f, g) ==> Before(e, g)
  {
    LessIsTotal(e.Label(), f.Label(), g.Label());
    if e.PdgConst? && f.PdgConst? {
      LabelsDiffer(e.value, f.value);
    }
  }

  ghost predicate Sorted(s: seq<Edge>) {
    forall i, j :: 0 <= i < j < |s| ==> Before(s[i], s[j])
  }

  function Insert(e: Edge, s: seq<Edge>): seq<Edge> {
    if s == [] then [e]
    else if Before(e, s[0]) then [e] + s
    else if Before(s[0], e) then [s[0]] + Insert(e, s[1..])
    else s
  }

  // A std::set of edges, in the order in which it is walked through.
  function EdgeSet(list: seq<Edge>): seq<Edge> {
    if list == [] then [] else Insert(list[|list| - 1], EdgeSet(list[..|list| - 1]))
  }

  lemma {:induction false} InsertKeepsSorted(e: Edge, s: seq<Edge>)
    requires Sorted(s)
    ensures Sorted(Insert(e, s)) && forall f :: f in Insert(e, s) <==> f == e || f in s
  {
    if s != [] {
      BeforeIsTotal(e, s[0], e);
      if Before(e, s[0]) {
        forall f | f in s { BeforeIsTotal(e, s[0], f); }
      } else if Before(s[0], e) {
        InsertKeepsSorted(e, s[1..]);
        var r := Insert(e, s[1..]);
        assert s == [s[0]] + s[1..];
        forall i | 0 <= i < |r|
          ensures Before(s[0], r[i])
        {
          assert r[i] in r;
        }
      }
    }
  }

  lemma {:induction false} EdgeSetIsSorted(list: seq<Edge>)
    ensures Sorted(EdgeSet(list)) && forall e :: e in EdgeSet(list) <==> e in list
  {
    if list != [] {
      EdgeSetIsSorted(list[..|list| - 1]);
      InsertKeepsSorted(list[|list| - 1], EdgeSet(list[..|list| - 1]));
      assert list == list[..|list| - 1] + [list[|list| - 1]];
    }
  }

  lemma {:induction false} SortedIsUnique(s: seq<Edge>, t: seq<Edge>)
    requires Sorted(s) && Sorted(t) && forall e :: e in s <==> e in t
    ensures s == t
  {
    assert s == [] <==> t == [] by {
      if s != [] { assert s[0] in t; }
      if t != [] { assert t[0] in s; }
    }
    if s != [] {
      assert s[0] in t && t[0] in s;
      BeforeIsTotal(s[0], t[0], s[0]);
      assert s == [s[0]] + s[1..] && t == [t[0]] + t[1..];
      forall e
        ensures e in s[1..] <==> e in t[1..]
      {
        BeforeIsTotal(e, s[0], e);
        assert e in s && e in t ==> (e in s[1..] <==> e != s[0]);
      }
      SortedIsUnique(s[1..], t[1..]);
    }
  }

  // What is walked through, and in which order, depends neither on the order
  // of the insertions nor on how often an edge was inserted.
  lemma EdgeSetIsCanonical(a: seq<Edge>, b: seq<Edge>)
    requires forall e :: e in a <==> e in b
    ensures EdgeSet(a) == EdgeSet(b)
  {
    EdgeSetIsSorted(a);
    EdgeSetIsSorted(b);
    SortedIsUnique(EdgeSet(a), EdgeSet(b));
  }

  function OutOf(edges: seq<Edge>, n: nat): (r: seq<Edge>)
    ensures forall e :: e in r <==> e in edges && e.src == n
  {
    if edges == [] then []
    else
      var last := edges[|edges| - 1];
      OutOf(edges[..|edges| - 1], n) + if last.src == n then [last] else []
  }

  function Into(edges: seq<Edge>, n: nat): (r: seq<Edge>)
    ensures forall e :: e in r <==> e in edges && e.dst == n
  {
    if edges == [] then []
    else
      var last := edges[|edges| - 1];
      Into(edges[..|edges| - 1], n) + if last.dst == n then [last] else []
  }

  class Graph {
    var count: nat // the next id
    var outEdges: map<nat, seq<Edge>>
    var inEdges: map<nat, seq<Edge>>
    ghost var made: seq<Edge> // every edge made so far

    // The two lists of every node tell the same story.
    ghost predicate Valid()
      reads this
    {
      && (forall n: nat :: n in outEdges <==> n < count) && (forall n: nat :: n in inEdges <==> n < count)
      && (forall e :: e in made ==> e.src < count && e.dst < count)
      && (forall n: nat :: n < count ==> outEdges[n] == OutOf(made, n))
      && (forall n: nat :: n < count ==> inEdges[n] == Into(made, n))
    }

    constructor ()
      ensures Valid() && made == [] && count == 0
    {
      count, outEdges, inEdges, made := 0, map[], map[], [];
    }

    method NewNode() returns (n: nat)
      requires Valid()
      modifies this
      ensures Valid() && n == old(count) && count == n + 1 && made == old(made)
    {
      n := count;
      NoneTouch(made, n);
      count, outEdges, inEdges := count + 1, outEdges[n := []], inEdges[n := []];
    }

    // Edge::Edge
    method Connect(e: Edge)
      requires Valid() && e.src < count && e.dst < count
      modifies this
      ensures Valid() && made == old(made) + [e] && count == old(count)
    {
      outEdges := outEdges[e.src := outEdges[e.src] + [e]];
      inEdges := inEdges[e.dst := inEdges[e.dst] + [e]];
      made := made + [e];
      forall n: nat | n < count
        ensures outEdges[n] == OutOf(made, n) && inEdges[n] == Into(made, n)
      {
        OneMore(old(made), e, n);
      }
    }
  }

  lemma OneMore(edges: seq<Edge>, e: Edge, n: nat)
    ensures OutOf(edges + [e], n) == OutOf(edges, n) + if e.src == n then [e] else []
    ensures Into(edges + [e], n) == Into(edges, n) + if e.dst == n then [e] else []
  {
    assert (edges + [e])[..|edges|] == edges;
  }

  lemma {:induction false} NoneTouch(edges: seq<Edge>, n: nat)
    requires forall e :: e in edges ==> e.src != n && e.dst != n
    ensures OutOf(edges, n) == [] && Into(edges, n) == []
  {
    if edges != [] {
      NoneTouch(edges[..|edges| - 1], n);
    }
  }
}
