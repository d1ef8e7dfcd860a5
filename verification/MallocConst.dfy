// The search for the call that allocated a value (src/queries/verifyMallocConst.cc)
// on the edges that the dependence builder makes.
module MallocConst {
  import opened Wrappers
  import opened Constants
  import opened Graphs
  import opened Query
  import Flow = DataFlow
  import Provenance

  function Lifted(e: Flow.PdgEdge): Edge
    requires e.kind == Flow.Function
  {
    Pdg(e.src.id, e.dst.id, e.name, Function)
  }

  // The function edges of the graph are those of the dependence builder, of
  // all functions; `insts` are its instructions.
  ghost predicate Built(g: Graph, insts: map<nat, Flow.Inst>, edges: seq<Flow.PdgEdge>)
    reads g
  {
    && (forall e :: e in edges && e.kind == Flow.Function ==> Lifted(e) in g.made && e.src.id in insts && insts[e.src.id] == e.src.inst)
    && (forall e :: e in g.made && e.Pdg? && e.pdgType == Function ==> exists d :: d in edges && d.kind == Flow.Function && Lifted(d) == e)
    && (forall e :: e in edges ==> Provenance.Explained(edges, e))
  }

  function SameLabel(text: string): Edge -> bool {
    (e: Edge) => e.Pdg? && e.pdgLabel == text && e.pdgType == Function
  }

  function Callees(insts: map<nat, Flow.Inst>, text: string): nat -> bool {
    n => n in insts && insts[n].Call? && insts[n].callee == text
  }

  function Tables(insts: map<nat, Flow.Inst>, text: string): nat -> bool {
    n => n in insts && insts[n].CallIndirect? && insts[n].table == text
  }

  // A function edge out of a node that is not itself such a call leads back
  // to the call whose result it carries.
  lemma EdgeComesFromCall(g: Graph, insts: map<nat, Flow.Inst>, edges: seq<Flow.PdgEdge>, e: Edge) returns (call: nat)
    requires Built(g, insts, edges) && e in g.made && e.Pdg? && e.pdgType == Function
    requires !Callees(insts, e.pdgLabel)(e.src) && !Tables(insts, e.pdgLabel)(e.src)
    ensures Callees(insts, e.pdgLabel)(call) || Tables(insts, e.pdgLabel)(call)
    ensures Reached(g.made, SameLabel(e.pdgLabel), true, [e.src], call)
  {
    var d :| d in edges && d.kind == Flow.Function && Lifted(d) == e;
    assert Provenance.Explained(edges, d);
    var k :| Flow.Introduces(k, d.name, d.kind) && Provenance.Leads(edges, k, d.src, d.name, d.kind);
    var p :| Provenance.Trail(edges, p, d.name, d.kind) && p[0] == k && p[|p| - 1] == d.src;
    assert Flow.IsCall(k);
    assert |p| >= 2 by {
      assert insts[d.src.id] == d.src.inst;
    }
    call := k.id;
    assert Flow.PdgEdge(p[0], p[1], d.name, d.kind) in edges;
    TrailReaches(g, insts, edges, p, d.name);
    ForwardIsBackward(g.made, SameLabel(d.name), false, call, e.src);
  }

  lemma LiftedStep(g: Graph, insts: map<nat, Flow.Inst>, edges: seq<Flow.PdgEdge>, d: Flow.PdgEdge)
    requires Built(g, insts, edges) && d in edges && d.kind == Flow.Function
    ensures Step(g.made, SameLabel(d.name), false, d.src.id, d.dst.id)
  {
    assert Lifted(d) in g.made;
  }

  lemma {:induction false} TrailReaches(g: Graph, insts: map<nat, Flow.Inst>, edges: seq<Flow.PdgEdge>, p: seq<Flow.Node>, name: string)
    requires Built(g, insts, edges) && |p| >= 2 && Provenance.Trail(edges, p, name, Flow.Function)
    ensures Reached(g.made, SameLabel(name), false, [p[0].id], p[|p| - 1].id)
  {
    var k := |p| - 2;
    LiftedStep(g, insts, edges, Flow.PdgEdge(p[k], p[k + 1], name, Flow.Function));
    if k > 0 {
      TrailReaches(g, insts, edges, p[..k + 1], name);
    }
    ReachedOneMore(g.made, SameLabel(name), false, [p[0].id], p[k].id, p[k + 1].id);
  }

  // findFirst of a filtered edge set
  function FirstOf(list: seq<Edge>, cond: Edge -> bool): (r: Option<Edge>)
    ensures r.Some? ==> r.value in list && cond(r.value)
    ensures r.None? ==> forall e :: e in list ==> !cond(e)
  {
    if list == [] then None
    else if cond(list[0]) then Some(list[0])
    else FirstOf(list[1..], cond)
  }

  // The value of the first constant that is an argument of call `n`.
  function ConstantOf(g: Graph, n: nat): Option<nat>
    reads g
    requires n in g.inEdges
  {
    match FirstOf(EdgeSet(g.inEdges[n]), (e: Edge) => e.PdgConst?)
    case Some(e) => Some(LowBits(e.value))
    case None => None
  }

  ghost predicate ConstantInto(edges: seq<Edge>, n: nat, e: Edge) {
    e in edges && e.dst == n && e.PdgConst?
  }

  function AllBits(c: Constant): nat {
    if c.I32? then c.u32 else c.u64
  }

  // The answer is the value of the constant edge into `n` that comes before
  // all others, without what does not fit into 32 bits, and is missing exactly
  // if there is no such edge.
  ghost predicate Answers(edges: seq<Edge>, n: nat, answer: Option<nat>) {
    match answer
    case None => forall e :: !ConstantInto(edges, n, e)
    case Some(v) =>
      exists e :: ConstantInto(edges, n, e) && v == AllBits(e.value) % 0x1_0000_0000 && forall d :: ConstantInto(edges, n, d) ==> d == e || Before(e, d)
  }

  lemma {:induction false} FirstIsBefore(list: seq<Edge>, cond: Edge -> bool)
    requires Sorted(list) && FirstOf(list, cond).Some?
    ensures forall d :: d in list && cond(d) ==> d == FirstOf(list, cond).value || Before(FirstOf(list, cond).value, d)
  {
    if !cond(list[0]) {
      FirstIsBefore(list[1..], cond);
      assert list == [list[0]] + list[1..];
    }
  }

  lemma ConstantAnswers(g: Graph, n: nat)
    requires g.Valid() && n < g.count
    ensures Answers(g.made, n, ConstantOf(g, n))
  {
    var list, cond := EdgeSet(g.inEdges[n]), (e: Edge) => e.PdgConst?;
    EdgeSetIsSorted(g.inEdges[n]);
    assert forall e :: e in list <==> e in g.made && e.dst == n;
    var first := FirstOf(list, cond);
    if first.Some? {
      FirstIsBefore(list, cond);
      assert ConstantInto(g.made, n, first.value);
      forall d | ConstantInto(g.made, n, d)
        ensures d == first.value || Before(first.value, d)
      {
        assert d in list && cond(d);
      }
    }
  }

  function AllocatorEdge(mallocs: set<string>): Edge -> bool {
    (e: Edge) => e.Pdg? && e.pdgType == Function && e.pdgLabel in mallocs
  }

  predicate IsAllocation(insts: map<nat, Flow.Inst>, mallocs: set<string>, n: nat) {
    n in insts && insts[n].Call? && insts[n].callee in mallocs
  }

  ghost predicate NoTableIs(insts: map<nat, Flow.Inst>, mallocs: set<string>) {
    forall n :: n in insts && insts[n].CallIndirect? ==> insts[n].table !in mallocs
  }

  // The search behind `node`: it finds only calls of that name, and does
  // find one behind an edge that the builder made.
  method FindCall(g: Graph, insts: map<nat, Flow.Inst>, mallocs: set<string>, e: Edge, ghost edges: seq<Flow.PdgEdge>)
    returns (call: Option<nat>)
    requires g.Valid() && e in g.made && AllocatorEdge(mallocs)(e) && !IsAllocation(insts, mallocs, e.src)
    ensures call.Some? ==>
              && call.value < g.count && Callees(insts, e.pdgLabel)(call.value)
              && Reached(g.made, SameLabel(e.pdgLabel), true, [e.src], call.value)
    ensures Built(g, insts, edges) && NoTableIs(insts, mallocs) ==> call.Some?
  {
    hide Reached, Distinct, Lists;
    var eval, cond := Callees(insts, e.pdgLabel), SameLabel(e.pdgLabel);
    var calls, visited := Bfs(g, [e.src], eval, cond, 1, true);
    if Built(g, insts, edges) && NoTableIs(insts, mallocs) {
      var origin := EdgeComesFromCall(g, insts, edges, e);
      MatchesAreReached(g.made, cond, true, [e.src], eval, origin);
    }
    if calls == {} {
      return None;
    }
    var c :| c in calls;
    MatchesAreReached(g.made, cond, true, [e.src], eval, c);
    return Some(c);
  }

  // The call that has allocated the value at `node`, and the constant it was
  // given.
  method VerifyMallocConst(g: Graph, insts: map<nat, Flow.Inst>, mallocs: set<string>, node: nat, ghost edges: seq<Flow.PdgEdge>)
    returns (answer: Option<nat>, call: Option<nat>)
    requires g.Valid() && node < g.count
    ensures IsAllocation(insts, mallocs, node) ==> call == Some(node)
    ensures var e := FirstOf(EdgeSet(g.outEdges[node]), AllocatorEdge(mallocs));
            !IsAllocation(insts, mallocs, node) ==>
              && (call.Some? ==> e.Some? && Callees(insts, e.value.pdgLabel)(call.value))
              && (call.Some? ==> Reached(g.made, SameLabel(e.value.pdgLabel), true, [node], call.value))
              && (e.Some? && Built(g, insts, edges) && NoTableIs(insts, mallocs) ==> call.Some?)
    ensures call.Some? ==> call.value < g.count && Answers(g.made, call.value, answer)
    ensures call.None? ==> answer == None
  {
    hide Answers, ConstantOf, Before;
    if IsAllocation(insts, mallocs, node) {
      ConstantAnswers(g, node);
      return ConstantOf(g, node), Some(node);
    }
    var e := FirstOf(EdgeSet(g.outEdges[node]), AllocatorEdge(mallocs));
    if e.None? {
      return None, None;
    }
    EdgeSetIsSorted(g.outEdges[node]);
    call := FindCall(g, insts, mallocs, e.value, edges);
    answer := None;
    if call.Some? {
      ConstantAnswers(g, call.value);
      answer := ConstantOf(g, call.value);
    }
  }
}
