// Tracing the entries of definitions back to their origins along dependence
// edges, and what merging and comparing definitions mean
// (src/pdg-builder.h).
module Provenance {
  import opened DataFlow

  // ----- tracing -----

  // A trail of edges of one name and kind.
  ghost predicate Trail(edges: seq<PdgEdge>, p: seq<Node>, name: string, kind: PdgType) {
    p != [] && forall i :: 0 <= i < |p| - 1 ==> PdgEdge(p[i], p[i + 1], name, kind) in edges
  }

  ghost predicate Leads(edges: seq<PdgEdge>, from: Node, to: Node, name: string, kind: PdgType) {
    exists p :: Trail(edges, p, name, kind) && p[0] == from && p[|p| - 1] == to
  }

  ghost predicate Traced(edges: seq<PdgEdge>, d: Def) {
    WfDef(d) && forall k :: k in d ==> Leads(edges, k, d[k].src, d[k].name, d[k].kind)
  }

  // Every edge starts at a node that an instruction which brings in its name
  // and kind leads to.
  ghost predicate Explained(edges: seq<PdgEdge>, e: PdgEdge) {
    exists k :: Introduces(k, e.name, e.kind) && Leads(edges, k, e.src, e.name, e.kind)
  }

  ghost predicate Known(edges: seq<PdgEdge>, d: Def, n: Node) {
    forall k :: k in d ==> PdgEdge(d[k].src, n, d[k].name, d[k].kind) in edges
  }

  // `more` has the edges of `edges` and those in `extra`.
  ghost predicate Adds(edges: seq<PdgEdge>, more: seq<PdgEdge>, extra: set<PdgEdge>) {
    forall e :: e in more <==> e in edges || e in extra
  }

  ghost predicate Within(edges: seq<PdgEdge>, more: seq<PdgEdge>) {
    forall e :: e in edges ==> e in more
  }

  ghost predicate NoTwins(edges: seq<PdgEdge>) {
    forall i, j :: 0 <= i < j < |edges| ==> edges[i] != edges[j]
  }

  lemma LeadsStays(edges: seq<PdgEdge>, more: seq<PdgEdge>, from: Node, to: Node, name: string, kind: PdgType)
    requires Within(edges, more) && Leads(edges, from, to, name, kind)
    ensures Leads(more, from, to, name, kind)
  {
    var p :| Trail(edges, p, name, kind) && p[0] == from && p[|p| - 1] == to;
    assert Trail(more, p, name, kind);
  }

  lemma TracedStays(edges: seq<PdgEdge>, more: seq<PdgEdge>, d: Def)
    requires Within(edges, more) && Traced(edges, d)
    ensures Traced(more, d)
  {
    forall k | k in d
      ensures Leads(more, k, d[k].src, d[k].name, d[k].kind)
    {
      LeadsStays(edges, more, k, d[k].src, d[k].name, d[k].kind);
    }
  }

  lemma LeadsOn(edges: seq<PdgEdge>, from: Node, mid: Node, to: Node, name: string, kind: PdgType)
    requires Leads(edges, from, mid, name, kind) && PdgEdge(mid, to, name, kind) in edges
    ensures Leads(edges, from, to, name, kind)
  {
    var p :| Trail(edges, p, name, kind) && p[0] == from && p[|p| - 1] == mid;
    var q := p + [to];
    assert forall i :: 0 <= i < |q| - 1 ==> q[i] == p[i];
    assert Trail(edges, q, name, kind);
  }

  lemma ThroughTraced(edges: seq<PdgEdge>, d: Def, n: Node)
    requires Traced(edges, d) && Known(edges, d, n)
    ensures Traced(edges, Through(d, n))
  {
    forall k | k in d
      ensures Leads(edges, k, n, d[k].name, d[k].kind)
    {
      LeadsOn(edges, k, d[k].src, n, d[k].name, d[k].kind);
    }
  }

  lemma RemoveConstsTraced(edges: seq<PdgEdge>, d: Def, n: Node)
    requires Traced(edges, d) && Known(edges, d, n)
    ensures Traced(edges, RemoveConsts(d)) && Known(edges, RemoveConsts(d), n)
  {
  }

  lemma UnionTraced(edges: seq<PdgEdge>, d: Def, other: Def)
    requires Traced(edges, d) && Traced(edges, other)
    ensures Traced(edges, Union(d, other))
  {
  }

  lemma OwnTraced(edges: seq<PdgEdge>, n: Node)
    requires IsOrigin(n)
    ensures Traced(edges, Own(n))
  {
    var v := OriginVar(n);
    assert Trail(edges, [n], v.name, v.kind);
  }

  lemma SourceExplained(edges: seq<PdgEdge>, d: Def, k: Node, n: Node)
    requires Traced(edges, d) && k in d
    ensures Explained(edges, PdgEdge(d[k].src, n, d[k].name, d[k].kind))
  {
    OriginIntroduces(k, d[k].name, d[k].kind);
  }

  lemma ExplainedStays(edges: seq<PdgEdge>, more: seq<PdgEdge>, e: PdgEdge)
    requires Within(edges, more) && Explained(edges, e)
    ensures Explained(more, e)
  {
    var k :| Introduces(k, e.name, e.kind) && Leads(edges, k, e.src, e.name, e.kind);
    LeadsStays(edges, more, k, e.src, e.name, e.kind);
  }

  // ----- definitions up to equality -----

  // Definitions of a run are traced, hence well-formed; such definitions are
  // equal exactly if they have the same origins.
  lemma EqualIsSameOrigins(d: Def, other: Def)
    requires WfDef(d) && WfDef(other)
    ensures SameDef(d, other) <==> d.Keys == other.Keys
  {
  }

  // unionDef is a join of sets of origins up to equality: the order and the
  // number of merges do not matter.
  lemma UnionIsJoin(a: Def, b: Def)
    requires WfDef(a) && WfDef(b)
    ensures WfDef(Union(a, b)) && Union(a, b).Keys == a.Keys + b.Keys && Union(a, a) == a
    ensures SameDef(Union(a, b), Union(b, a)) && (SameDef(Union(a, b), a) <==> b.Keys <= a.Keys)
  {
    EqualIsSameOrigins(Union(a, b), Union(b, a));
    EqualIsSameOrigins(Union(a, b), a);
    assert b.Keys <= a.Keys <==> a.Keys + b.Keys == a.Keys;
  }

  lemma UnionIsAssociative(a: Def, b: Def, c: Def)
    ensures Union(a, Union(b, c)) == Union(Union(a, b), c)
  {
    assert Union(a, Union(b, c)).Keys == Union(Union(a, b), c).Keys;
  }

  // Beyond equality the order shows: the first source is kept.
  lemma FirstSourceIsKept(k: Node, m: Node, n: Node)
    requires IsOrigin(k) && m != n
    ensures Union(Through(Own(k), m), Through(Own(k), n)) == Through(Own(k), m) != Through(Own(k), n)
  {
    assert Through(Own(k), m)[k].src == m && Through(Own(k), n)[k].src == n;
  }
}
