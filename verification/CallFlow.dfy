// Which calls reach an operand: what merged states hold is what single paths
// carry.
module CallFlow {
  import opened Wrappers
  import opened DataFlow
  import opened Flowgraph
  import opened FlowLaws

  // One function: its graph, its variables, and its number of results.
  datatype Program = Program(graph: Flowgraph, globals: set<string>, locals: set<string>, results: nat) {

    function Initial(): State {
      DataFlow.Initial(globals, locals)
    }

    // Validated code, started with nothing on the stack.
    ghost predicate Shaped(shape: Node -> Shape) {
      shape(graph.entry) == Shape(globals, locals, 0, []) && graph.ShapedAs(shape, results)
    }

    // The state one path alone brings to its last instruction.
    ghost function Along(p: seq<Node>): (s: Option<State>)
      decreases |p|
    {
      if |p| <= 1 then Some(Initial())
      else
        var before := Along(p[..|p| - 1]);
        var m, n := p[|p| - 2], p[|p| - 1];
        if before.Some? && Passes(m, n, ShapeOf(before.value), results)
        then Some(Cross(m, n, before.value, results)) else None
    }

    // Some path carries origin `o` into the slot of instruction `n`.
    ghost predicate Carries(n: Node, slot: Slot, o: Node) {
      exists p :: graph.IsPath(p) && p[|p| - 1] == n && Along(p).Some? && Has(Along(p).value, slot, o)
    }

    // Along a path the shapes are those of the places.
    lemma {:induction false} AlongShaped(p: seq<Node>, shape: Node -> Shape)
      requires Shaped(shape) && graph.IsPath(p)
      ensures Along(p).Some? && WfState(Along(p).value) && ShapeOf(Along(p).value) == shape(p[|p| - 1])
      decreases |p|
    {
      hide Cross;
      if |p| > 1 {
        var q := p[..|p| - 1];
        AlongShaped(q, shape);
        var m, n, s := p[|p| - 2], p[|p| - 1], Along(q).value;
        assert graph.Flow(p[|p| - 2], p[|p| - 1]);
        assert graph.IsPath(q) && q[|q| - 1] == m && graph.Live(m);
        CrossKeeps(m, n, s, results);
      }
    }

    // `inn` holds states for instructions that control passes through, and
    // for all that come before these: the initial one at the start, and
    // elsewhere the merge of what comes in along the edges.
    ghost predicate Solves(inn: map<Node, State>, shape: Node -> Shape) {
      forall n :: n in inn ==>
        graph.Live(n) && !n.inst.Unreachable? && SolvedAt(inn, shape, n) && forall e :: e in graph.InEdges(n) ==> e.src in inn
    }

    ghost predicate SolvedAt(inn: map<Node, State>, shape: Node -> Shape, n: Node) {
      && n in inn && WfState(inn[n]) && ShapeOf(inn[n]) == shape(n)
      && if n == graph.entry then inn[n] == Initial() else MergesEdges(inn, n)
    }

    // States that have at least what comes in along the edges, for calls.
    ghost predicate Gathers(inn: map<Node, State>, shape: Node -> Shape) {
      forall n :: n in inn ==>
        graph.Live(n) && !n.inst.Unreachable? && GathersAt(inn, shape, n) && forall e :: e in graph.InEdges(n) ==> e.src in inn
    }

    ghost predicate GathersAt(inn: map<Node, State>, shape: Node -> Shape, n: Node) {
      && n in inn && WfState(inn[n]) && ShapeOf(inn[n]) == shape(n)
      && if n == graph.entry then inn[n] == Initial() else TakesEdges(inn, n)
    }

    ghost predicate TakesEdges(inn: map<Node, State>, n: Node)
      requires n in inn
    {
      forall e, slot, o :: e in graph.InEdges(n) && IsCall(o) && Brings(inn, e, slot, o) ==> Has(inn[n], slot, o)
    }

    lemma SolutionGathers(inn: map<Node, State>, shape: Node -> Shape)
      requires Solves(inn, shape)
      ensures Gathers(inn, shape)
    {
      forall n | n in inn
        ensures GathersAt(inn, shape, n)
      {
        assert SolvedAt(inn, shape, n);
      }
    }

    ghost predicate MergesEdges(inn: map<Node, State>, n: Node)
      requires n in inn
    {
      forall slot, o :: Has(inn[n], slot, o) <==> exists e :: e in graph.InEdges(n) && Brings(inn, e, slot, o)
    }

    ghost predicate Brings(inn: map<Node, State>, e: CfgEdge, slot: Slot, o: Node) {
      && e.src in inn && Passes(e.src, e.dst, ShapeOf(inn[e.src]), results)
      && Has(Cross(e.src, e.dst, inn[e.src], results), slot, o)
    }

    // A step that brings the origin of a call to a slot: the call is made
    // there, or it was in a slot that feeds this one.
    ghost predicate Step(e: CfgEdge, shape: Node -> Shape, to: Slot, o: Node, made: bool, from: Slot) {
      && Passes(e.src, e.dst, shape(e.src), results)
      && if made then o == e.src && Makes(e.src, e.dst, shape(e.src), results, to)
         else Moves(e.src, e.dst, shape(e.src), results, from, to)
    }

    lemma CameAlong(inn: map<Node, State>, shape: Node -> Shape, n: Node, to: Slot, o: Node)
      returns (e: CfgEdge, made: bool, from: Slot)
      requires Solves(inn, shape) && IsCall(o) && n in inn && n != graph.entry && Has(inn[n], to, o)
      ensures e in graph.InEdges(n) && Step(e, shape, to, o, made, from)
      ensures e.src in inn && (made || Has(inn[e.src], from, o))
    {
      e :| e in graph.InEdges(n) && Brings(inn, e, to, o);
      CrossMoves(e.src, n, inn[e.src], results, to, o);
      made, from := o == e.src && Makes(e.src, n, shape(e.src), results, to), to;
      if !made {
        from :| Moves(e.src, n, shape(e.src), results, from, to) && Has(inn[e.src], from, o);
      }
    }

    lemma NothingAtStart(slot: Slot, o: Node)
      ensures !Has(Initial(), slot, o)
    {
    }

    // What the merge has for a call, a path carries.
    lemma {:induction false} MergedIsCarried(inn: map<Node, State>, shape: Node -> Shape, rank: Node -> nat,
                                             n: Node, to: Slot, o: Node)
      requires graph.Orderly(rank) && Shaped(shape) && Solves(inn, shape) && IsCall(o)
      requires n in inn && Has(inn[n], to, o)
      ensures Carries(n, to, o)
      decreases rank(n)
    {
      hide Step, Has, Carries, MergesEdges;
      NothingAtStart(to, o);
      if n != graph.entry {
        var e, made, from := CameAlong(inn, shape, n, to, o);
        if !made {
          MergedIsCarried(inn, shape, rank, e.src, from, o);
        }
        CarriedOn(e, shape, to, o, made, from);
      }
    }

    lemma AlongOne(p: seq<Node>, e: CfgEdge)
      requires graph.IsPath(p) && p[|p| - 1] == e.src && e in graph.cfg && !e.src.inst.Unreachable?
      requires Along(p).Some? && Passes(e.src, e.dst, ShapeOf(Along(p).value), results)
      ensures graph.IsPath(p + [e.dst])
      ensures Along(p + [e.dst]) == Some(Cross(e.src, e.dst, Along(p).value, results))
    {
      hide Cross, Passes;
      var q := p + [e.dst];
      assert q[..|q| - 1] == p && q[|q| - 2] == e.src;
      assert graph.Joined(e.src, e.dst);
    }

    lemma CarriedOn(e: CfgEdge, shape: Node -> Shape, to: Slot, o: Node, made: bool, from: Slot)
      requires Shaped(shape) && e in graph.cfg && graph.Live(e.src) && !e.src.inst.Unreachable? && IsCall(o)
      requires Step(e, shape, to, o, made, from) && (made || Carries(e.src, from, o))
      ensures Carries(e.dst, to, o)
    {
      var p;
      if made {
        p :| graph.IsPath(p) && p[|p| - 1] == e.src;
      } else {
        p :| graph.IsPath(p) && p[|p| - 1] == e.src && Along(p).Some? && Has(Along(p).value, from, o);
      }
      Extend(p, e, shape, to, o, made, from);
    }

    lemma Extend(p: seq<Node>, e: CfgEdge, shape: Node -> Shape, to: Slot, o: Node, made: bool, from: Slot)
      requires Shaped(shape) && e in graph.cfg && !e.src.inst.Unreachable? && IsCall(o)
      requires graph.IsPath(p) && p[|p| - 1] == e.src && Step(e, shape, to, o, made, from)
      requires made || (Along(p).Some? && Has(Along(p).value, from, o))
      ensures Carries(e.dst, to, o)
    {
      AlongShaped(p, shape);
      AlongOne(p, e);
      CrossMoves(e.src, e.dst, Along(p).value, results, to, o);
      var q := p + [e.dst];
      assert graph.IsPath(q) && q[|q| - 1] == e.dst && Has(Along(q).value, to, o);
    }

    lemma MergeTakes(inn: map<Node, State>, shape: Node -> Shape, rank: Node -> nat, e: CfgEdge, to: Slot, o: Node)
      requires graph.Orderly(rank) && Shaped(shape) && Gathers(inn, shape) && IsCall(o)
      requires e in graph.cfg && e.dst in inn && e.src in inn
      requires Passes(e.src, e.dst, shape(e.src), results)
      requires (o == e.src && Makes(e.src, e.dst, shape(e.src), results, to))
               || exists from :: Moves(e.src, e.dst, shape(e.src), results, from, to) && Has(inn[e.src], from, o)
      ensures Has(inn[e.dst], to, o)
    {
      CrossMoves(e.src, e.dst, inn[e.src], results, to, o);
      assert e in graph.InEdges(e.dst) && Brings(inn, e, to, o);
    }

    // What a path carries, the merge has, even one that has more than that.
    lemma {:induction false} CarriedIsMerged(inn: map<Node, State>, shape: Node -> Shape, rank: Node -> nat,
                                             p: seq<Node>, to: Slot, o: Node)
      requires graph.Orderly(rank) && Shaped(shape) && Gathers(inn, shape) && IsCall(o)
      requires graph.IsPath(p) && p[|p| - 1] in inn && Along(p).Some? && Has(Along(p).value, to, o)
      ensures Has(inn[p[|p| - 1]], to, o)
      decreases |p|
    {
      if |p| > 1 {
        var q := p[..|p| - 1];
        var e := graph.LastStep(p);
        var m := e.src;
        assert e in graph.InEdges(e.dst);
        AlongShaped(q, shape);
        CrossMoves(m, e.dst, Along(q).value, results, to, o);
        if !(o == m && Makes(m, e.dst, shape(m), results, to)) {
          var from :| Moves(m, e.dst, shape(m), results, from, to) && Has(Along(q).value, from, o);
          CarriedIsMerged(inn, shape, rank, q, from, o);
          assert Has(inn[m], from, o);
        }
        MergeTakes(inn, shape, rank, e, to, o);
      }
    }
  }

  // Some path feeds an operand that `n` records with a call of that name.
  ghost predicate FedByCall(p: Program, shape: Node -> Shape, n: Node, callee: string) {
    exists o, slot :: Introduces(o, callee, Function)
                      && Records(n.inst, shape(n).height, slot) && p.Carries(n, slot, o)
  }

  // A visit records edges into its own instruction only.
  lemma RecordedHere(m: Node, s: State, results: nat, e: PdgEdge)
    requires Accepts(m, ShapeOf(s), results) && e in Recorded(m, s)
    ensures e.dst == m
  {
    EdgesFromAllHas(Read(m, s), m, e);
  }

  // Where the states have at least what comes in, what a path feeds is
  // recorded.
  lemma PathMeansEdge(p: Program, shape: Node -> Shape, rank: Node -> nat, inn: map<Node, State>, n: Node, callee: string)
    requires p.graph.Orderly(rank) && p.Shaped(shape) && p.Gathers(inn, shape)
    requires n in inn
    ensures Accepts(n, ShapeOf(inn[n]), p.results)
    ensures FedByCall(p, shape, n, callee) ==> CallEdge(Recorded(n, inn[n]), n, callee)
  {
    assert p.GathersAt(inn, shape, n);
    RecordsCalls(n, inn[n], p.results, callee);
    forall o, slot | IsCall(o) && p.Carries(n, slot, o)
      ensures Has(inn[n], slot, o)
    {
      var q :| p.graph.IsPath(q) && q[|q| - 1] == n && p.Along(q).Some? && Has(p.Along(q).value, slot, o);
      p.CarriedIsMerged(inn, shape, rank, q, slot, o);
    }
  }

  lemma EdgeMeansPath(p: Program, shape: Node -> Shape, rank: Node -> nat, inn: map<Node, State>, n: Node, callee: string)
    requires p.graph.Orderly(rank) && p.Shaped(shape) && p.Solves(inn, shape)
    requires n in inn
    ensures Accepts(n, ShapeOf(inn[n]), p.results)
    ensures CallEdge(Recorded(n, inn[n]), n, callee) <==> FedByCall(p, shape, n, callee)
  {
    assert p.SolvedAt(inn, shape, n);
    RecordsCalls(n, inn[n], p.results, callee);
    forall o, slot | IsCall(o)
      ensures Has(inn[n], slot, o) <==> p.Carries(n, slot, o)
    {
      MergedAndCarried(p, shape, rank, inn, n, slot, o);
    }
  }

  // For every call and every slot, the merged state of the worklist and the
  // paths agree.
  lemma MergedAndCarried(p: Program, shape: Node -> Shape, rank: Node -> nat, inn: map<Node, State>,
                         n: Node, slot: Slot, o: Node)
    requires p.graph.Orderly(rank) && p.Shaped(shape) && p.Solves(inn, shape)
    requires n in inn && IsCall(o)
    ensures Has(inn[n], slot, o) <==> p.Carries(n, slot, o)
  {
    if Has(inn[n], slot, o) {
      p.MergedIsCarried(inn, shape, rank, n, slot, o);
    }
    if p.Carries(n, slot, o) {
      p.SolutionGathers(inn, shape);
      var q :| p.graph.IsPath(q) && q[|q| - 1] == n && p.Along(q).Some? && Has(p.Along(q).value, slot, o);
      p.CarriedIsMerged(inn, shape, rank, q, slot, o);
    }
  }
}
