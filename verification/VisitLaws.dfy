// What single visits and arrivals do to states on the heap, and the worklist:
// laws that the builder of PdgBuilder.dfy is proved with.
module VisitLaws {
  import opened Wrappers
  import opened DataFlow
  import opened Flowgraph
  import opened FlowLaws
  import opened Provenance
  import opened ReachDefinitions

  // What a visit leaves of a state: `taken` operands gone, and a definition
  // of its own on top.
  twostate predicate Replaced(s: ReachDefinition, taken: nat, def: Def)
    reads s, s.stack
  {
    && |old(s.stack)| >= taken && s.stack != [] && s.stack[1..] == old(s.stack)[taken..]
    && fresh(s.stack[0]) && s.stack[0].def == def
    && s.globals == old(s.globals) && s.locals == old(s.locals) && s.labels == old(s.labels)
  }

  // What is left of a state value without its topmost operands.
  ghost function Below(s: State, taken: nat): State
    requires taken <= |s.stack|
  {
    State(s.globals, s.locals, s.stack[taken..], s.labels)
  }

  // A definition that is taken serves no slot below.
  lemma BelowShows(globals: map<string, Definition>, locals: map<string, Definition>, ds: seq<Definition>, s: State, taken: nat)
    requires Shows(globals, locals, ds, s) && taken <= |ds|
    ensures |ds| == |s.stack| && globals.Keys == s.globals.Keys && locals.Keys == s.locals.Keys
    ensures Shows(globals, locals, ds[taken..], Below(s, taken)) && forall i :: 0 <= i < taken ==> ds[i].def == s.stack[i]
    ensures SlotsApart(globals, locals, ds) ==> forall i :: 0 <= i < taken ==> ds[i] !in globals.Values + locals.Values + Objects(ds[taken..])
  {
    forall i | 0 <= i < taken && SlotsApart(globals, locals, ds)
      ensures ds[i] !in globals.Values + locals.Values + Objects(ds[taken..])
    {
      assert ds[i] in Objects(ds);
    }
  }

  lemma BelowAssured(floor: map<Definition, set<Node>>, globals: map<string, Definition>, locals: map<string, Definition>,
                     ds: seq<Definition>, s: State, taken: nat)
    requires taken <= |ds| == |s.stack|
    ensures Assured(floor, globals, locals, ds, s) ==> Assured(floor, globals, locals, ds[taken..], Below(s, taken))
  {
  }

  lemma OneOnTopHolds(globals: map<string, Definition>, locals: map<string, Definition>, top: Definition, below: seq<Definition>, s: State, def: Def)
    requires Holds(globals, locals, below, s) && Lasting(def) <= top.def.Keys
    ensures Holds(globals, locals, [top] + below, State(s.globals, s.locals, [def] + s.stack, s.labels))
  {
  }

  lemma LastingIn(d: Def)
    ensures Lasting(d) <= d.Keys
  {
  }

  lemma OneOnTop(globals: map<string, Definition>, locals: map<string, Definition>, top: Definition, below: seq<Definition>, s: State)
    requires Shows(globals, locals, below, s)
    ensures Shows(globals, locals, [top] + below, State(s.globals, s.locals, [top.def] + s.stack, s.labels))
  {
  }

  lemma TopApart(globals: map<string, Definition>, locals: map<string, Definition>, ds: seq<Definition>, taken: nat, top: Definition)
    requires SlotsApart(globals, locals, ds) && taken <= |ds| && top !in globals.Values + locals.Values + Objects(ds)
    ensures SlotsApart(globals, locals, [top] + ds[taken..])
    ensures Objects([top] + ds[taken..]) <= {top} + Objects(ds)
  {
    var below := ds[taken..];
    assert forall d :: d in Objects(below) ==> d in Objects(ds);
    assert Objects([top] + below) == {top} + Objects(below);
  }

  lemma LeftApart(globals: map<string, Definition>, locals: map<string, Definition>, ds: seq<Definition>, taken: nat)
    requires SlotsApart(globals, locals, ds) && taken <= |ds|
    ensures SlotsApart(globals, locals, ds[taken..]) && Objects(ds[taken..]) <= Objects(ds)
  {
    assert forall d :: d in Objects(ds[taken..]) ==> d in Objects(ds);
  }

  // Instructions whose visit changes the topmost operand.
  predicate InPlace(i: Inst) {
    i.Binary? || i.Compare? || i.Unary? || i.Convert?
  }

  // Instructions whose visit does nothing but take and record operands.
  predicate OnlyTakes(i: Inst) {
    i.Store? || i.If? || i.BrIf? || i.BrTable? || i.Br? || i.Nop? || i.BlockEnd? || i.LoopEnd? || i.LoopHead? || i.Start?
  }

  lemma ResultVisit(n: Node, s: State, t: State, results: nat)
    requires Accepts(n, ShapeOf(s), results) && Pushes(n.inst) == 1 && !n.inst.LocalTee?
    requires t == State(s.globals, s.locals, [Result(n, s)] + s.stack[Pops(n.inst)..], s.labels)
    ensures t == Visit(n, s)
  {
  }

  lemma ResultShape(n: Node, sh: Shape, results: nat)
    requires Accepts(n, sh, results) && Pushes(n.inst) == 1
    ensures ShapeAfter(n, sh) == Shape(sh.globals, sh.locals, sh.height - Pops(n.inst) + 1, sh.labels)
  {
  }

  lemma TakeVisit(n: Node, s: State, results: nat)
    requires Accepts(n, ShapeOf(s), results) && (OnlyTakes(n.inst) || (IsCall(n) && n.inst.nresults == 0))
    ensures Visit(n, s) == Below(s, Pops(n.inst)) && Recorded(n, s) == EdgesFromAll(s.stack[..Pops(n.inst)], n)
  {
    hide EdgesFromAll, Pops;
    TakeReads(n, s, results);
    TakeShape(n, ShapeOf(s), results);
    hide Read;
  }

  lemma TakeReads(n: Node, s: State, results: nat)
    requires Accepts(n, ShapeOf(s), results) && (OnlyTakes(n.inst) || (IsCall(n) && n.inst.nresults == 0))
    ensures Pushes(n.inst) == 0 && Read(n, s) == s.stack[..Pops(n.inst)]
  {
  }

  lemma TakeShape(n: Node, sh: Shape, results: nat)
    requires Accepts(n, sh, results) && (OnlyTakes(n.inst) || (IsCall(n) && n.inst.nresults == 0))
    ensures ShapeAfter(n, sh) == Shape(sh.globals, sh.locals, sh.height - Pops(n.inst), sh.labels)
  {
  }

  // What is left where the middle of the stack is dropped.
  lemma MiddleDropped(globals: map<string, Definition>, locals: map<string, Definition>, ds: seq<Definition>, k: nat, m: nat)
    requires k <= m <= |ds|
    ensures Objects(ds[..k] + ds[m..]) <= Objects(ds)
    ensures SlotsApart(globals, locals, ds) ==> SlotsApart(globals, locals, ds[..k] + ds[m..])
  {
    var left := ds[..k] + ds[m..];
    assert forall i :: 0 <= i < |left| ==> left[i] == ds[if i < k then i else i - k + m];
    assert forall d :: d in Objects(left) ==> d in Objects(ds);
  }

  lemma MiddleShows(globals: map<string, Definition>, locals: map<string, Definition>, ds: seq<Definition>, s: State, k: nat, m: nat,
                    labels: seq<Label>)
    requires Shows(globals, locals, ds, s) && k <= m <= |ds|
    ensures Shows(globals, locals, ds[..k] + ds[m..], State(s.globals, s.locals, s.stack[..k] + s.stack[m..], labels))
  {
  }

  // The operands that are left on arrival.
  function Surviving<T>(n: Node, sh: Shape, stack: seq<T>, results: nat): seq<T> {
    var k := Kept(n, results);
    match ShapeOnArrival(n, sh, results)
    case Some(left) => if k <= left.height <= |stack| then stack[..k] + stack[|stack| - (left.height - k)..] else stack
    case None => stack
  }

  lemma ArriveMeans(n: Node, s: State, results: nat)
    requires ShapeOnArrival(n, ShapeOf(s), results).Some?
    ensures var sh, k := ShapeOnArrival(n, ShapeOf(s), results).value, Kept(n, results);
            && k <= sh.height <= |s.stack| && sh == Shape(s.globals.Keys, s.locals.Keys, sh.height, sh.labels)
            && Arrive(n, s, results) == State(s.globals, s.locals, s.stack[..k] + s.stack[|s.stack| - (sh.height - k)..], sh.labels)
  {
    ArriveStack(n, s, results);
  }

  lemma UnionWithItself(d: Def)
    ensures Union(d, d) == d
  {
  }

  // A state value that has what some of the values have, and nothing else.
  ghost predicate JoinsAll(values: map<ReachDefinition, State>, joined: State) {
    forall slot, o :: Has(joined, slot, o) <==> exists t :: t in values && Has(values[t], slot, o)
  }

  ghost predicate SameShapes(values: map<ReachDefinition, State>) {
    forall s, t :: s in values && t in values ==> ShapeOf(values[s]) == ShapeOf(values[t])
  }

  lemma JoinsItself(values: map<ReachDefinition, State>, s: ReachDefinition)
    requires s in values
    ensures JoinsAll(values - (values.Keys - {s}), values[s])
  {
    var one := values - (values.Keys - {s});
    assert s in one && forall t :: t in one ==> t == s;
  }

  lemma OneFewer(values: map<ReachDefinition, State>, todo: set<ReachDefinition>, t: ReachDefinition)
    requires t in todo && t in values
    ensures values - (todo - {t}) == (values - todo)[t := values[t]]
  {
  }

  lemma JoinOne(values: map<ReachDefinition, State>, joined: State, t: ReachDefinition, s: State)
    requires JoinsAll(values, joined) && t !in values && ShapeOf(joined) == ShapeOf(s)
    ensures JoinsAll(values[t := s], UnionState(joined, s))
  {
    var more, m := values[t := s], UnionState(joined, s);
    forall slot, o
      ensures Has(m, slot, o) <==> exists u :: u in more && Has(more[u], slot, o)
    {
      UnionJoins(joined, s, slot, o);
      if u :| u in values && Has(values[u], slot, o) {
        assert u in more && Has(more[u], slot, o);
      }
      if Has(s, slot, o) {
        assert t in more && Has(more[t], slot, o);
      }
    }
  }

  // An instruction to visit, with the loops it is visited for and the
  // instruction it is reached from.
  datatype Task = Task(node: Node, loops: seq<Node>, last: Node)

  // One task for every edge, in front of the others.
  ghost predicate Scheduled(edges: set<CfgEdge>, before: seq<Task>, after: seq<Task>, n: Node, loops: seq<Node>) {
    exists order :: Lists(order, edges) && after == TasksOf(order, n, loops) + before
  }

  function TasksOf(order: seq<CfgEdge>, n: Node, loops: seq<Node>): (tasks: seq<Task>)
    ensures |tasks| == |order| && forall i :: 0 <= i < |order| ==> tasks[i] == Task(order[i].dst, loops, n)
  {
    seq(|order|, i requires 0 <= i < |order| => Task(order[i].dst, loops, n))
  }

  ghost predicate Lists(order: seq<CfgEdge>, edges: set<CfgEdge>) {
    (forall e :: e in order <==> e in edges) && forall i, j :: 0 <= i < j < |order| ==> order[i] != order[j]
  }

  method AddTasks(edges: set<CfgEdge>, before: seq<Task>, n: Node, loops: seq<Node>) returns (after: seq<Task>)
    ensures Scheduled(edges, before, after, n, loops)
  {
    ghost var order: seq<CfgEdge> := [];
    assert Lists([], edges - edges) && TasksOf([], n, loops) + before == before;
    after := before;
    hide Lists, TasksOf;
    var todo := edges;
    while todo != {}
      invariant todo <= edges && after == TasksOf(order, n, loops) + before && Lists(order, edges - todo)
      decreases todo
    {
      var e :| e in todo;
      OneMoreTask(edges - todo, order, before, n, loops, e);
      assert edges - (todo - {e}) == (edges - todo) + {e};
      after, order := [Task(e.dst, loops, n)] + after, [e] + order;
      todo := todo - {e};
    }
    assert edges - todo == edges;
  }

  lemma OneMoreTask(edges: set<CfgEdge>, order: seq<CfgEdge>, before: seq<Task>, n: Node, loops: seq<Node>, e: CfgEdge)
    requires Lists(order, edges) && e !in edges
    ensures Lists([e] + order, edges + {e})
    ensures [Task(e.dst, loops, n)] + (TasksOf(order, n, loops) + before) == TasksOf([e] + order, n, loops) + before
  {
    var more := [e] + order;
    assert more[0] == e && forall i :: 0 < i < |more| ==> more[i] == order[i - 1];
    forall f
      ensures f in more <==> f in edges + {e}
    {
      assert f in order ==> f in more;
    }
    assert TasksOf(more, n, loops) == [Task(e.dst, loops, n)] + TasksOf(order, n, loops);
  }

  predicate IsValue(i: Inst) {
    i.Const? || i.MemorySize? || i.MemoryGrow? || i.Load? || i.Select? || i.Binary? || i.Compare? || i.Convert? || i.Unary?
  }

  lemma {:induction false} OneMoreRead(ds: seq<Def>, d: Def, n: Node)
    ensures EdgesFromAll(ds + [d], n) == EdgesFromAll(ds, n) + EdgesTo(d, n)
  {
    if ds != [] {
      OneMoreRead(ds[1..], d, n);
      assert (ds + [d])[1..] == ds[1..] + [d];
    }
  }

  lemma OneMoreTaken(ds: seq<Def>, i: nat)
    requires i < |ds|
    ensures ds[..i + 1] == ds[..i] + [ds[i]]
  {
  }

  lemma OneRead(d: Def, n: Node)
    ensures EdgesFromAll([d], n) == EdgesTo(d, n)
  {
    assert [d][1..] == [];
  }

  lemma FirstRead(ds: seq<Def>, n: Node)
    requires ds != []
    ensures EdgesFromAll(ds[..1], n) == EdgesTo(ds[0], n)
  {
    assert ds[..1] == [ds[0]];
    OneRead(ds[0], n);
  }

  // A variable that takes over the topmost operand.
  lemma TakenOver(vars: map<string, Definition>, others: map<string, Definition>, ds: seq<Definition>, x: string)
    requires SlotsApart(vars, others, ds) && ds != []
    ensures SlotsApart(vars[x := ds[0]], others, ds[1..]) && SlotsApart(others, vars[x := ds[0]], ds[1..])
  {
    assert ds[0] in Objects(ds);
    assert forall i :: 0 <= i < |ds| - 1 ==> ds[1..][i] == ds[i + 1];
    assert forall d :: d in Objects(ds[1..]) ==> d in Objects(ds) && d != ds[0];
    assert forall y :: y in vars ==> vars[y] in vars.Values;
    assert forall y :: y in others ==> others[y] in others.Values;
  }

  lemma SwappedApart(globals: map<string, Definition>, locals: map<string, Definition>, ds: seq<Definition>)
    requires SlotsApart(globals, locals, ds)
    ensures SlotsApart(locals, globals, ds)
  {
  }

  lemma PartsTakenOver(vars: map<string, Definition>, ds: seq<Definition>, x: string)
    requires ds != []
    ensures vars[x := ds[0]].Values + Objects(ds[1..]) <= vars.Values + Objects(ds)
  {
    assert ds[0] in Objects(ds);
    assert forall d :: d in Objects(ds[1..]) ==> d in Objects(ds);
  }

  lemma SetMeans(n: Node, s: State, results: nat)
    requires (n.inst.GlobalSet? || n.inst.LocalSet?) && Accepts(n, ShapeOf(s), results)
    ensures ShapeAfter(n, ShapeOf(s)) == Shape(s.globals.Keys, s.locals.Keys, |s.stack| - 1, s.labels)
    ensures n.inst.name in if n.inst.GlobalSet? then s.globals else s.locals
    ensures Recorded(n, s) == EdgesTo(s.stack[0], n)
    ensures var def := Through(s.stack[0], n);
            Visit(n, s) == State(if n.inst.GlobalSet? then s.globals[n.inst.name := def] else s.globals,
                                 if n.inst.LocalSet? then s.locals[n.inst.name := def] else s.locals, s.stack[1..], s.labels)
  {
    FirstRead(s.stack, n);
  }

  lemma TeeMeans(n: Node, s: State, results: nat)
    requires n.inst.LocalTee? && Accepts(n, ShapeOf(s), results)
    ensures ShapeAfter(n, ShapeOf(s)) == ShapeOf(s) && n.inst.name in s.locals
    ensures Recorded(n, s) == EdgesTo(s.stack[0], n)
    ensures var def := Through(s.stack[0], n);
            Visit(n, s) == State(s.globals, s.locals[n.inst.name := def], [def] + s.stack[1..], s.labels)
  {
    FirstRead(s.stack, n);
  }

  // drop, the begin marker of a block, and return.
  lemma QuietMeans(n: Node, s: State, results: nat)
    requires (n.inst.Drop? || n.inst.BeginBlock? || n.inst.Return?) && Accepts(n, ShapeOf(s), results)
    ensures n.inst.Drop? ==> Visit(n, s) == Below(s, 1) && Recorded(n, s) == {} && ShapeAfter(n, ShapeOf(s)) == ShapeOf(Below(s, 1))
    ensures n.inst.BeginBlock? ==>
              && Visit(n, s) == s.(labels := [Label(n.inst.name, |s.stack|)] + s.labels) && Recorded(n, s) == {}
              && ShapeAfter(n, ShapeOf(s)) == ShapeOf(s).(labels := [Label(n.inst.name, |s.stack|)] + s.labels)
    ensures n.inst.Return? ==> Visit(n, s) == s && ShapeAfter(n, ShapeOf(s)) == ShapeOf(s)
    ensures n.inst.Return? ==> Recorded(n, s) == if |s.stack| > 0 then EdgesTo(s.stack[0], n) else {}
  {
    if n.inst.Return? && |s.stack| > 0 {
      OneRead(s.stack[0], n);
    }
  }

  // What the visits of some kinds of instruction leave and record.
  lemma BinaryMeans(n: Node, s: State, results: nat)
    requires (n.inst.Binary? || n.inst.Compare?) && Accepts(n, ShapeOf(s), results)
    ensures Result(n, s) == Through(RemoveConsts(Union(s.stack[0], s.stack[1])), n)
    ensures Recorded(n, s) == EdgesTo(Union(s.stack[0], s.stack[1]), n)
  {
    OneRead(Union(s.stack[0], s.stack[1]), n);
  }

  lemma SelectMeans(n: Node, s: State, results: nat)
    requires n.inst.Select? && Accepts(n, ShapeOf(s), results)
    ensures Result(n, s) == Union(s.stack[2], s.stack[1]) && Recorded(n, s) == EdgesTo(s.stack[0], n)
  {
    OneRead(s.stack[0], n);
  }

  lemma LoadMeans(n: Node, s: State, results: nat)
    requires (n.inst.Load? || n.inst.MemoryGrow?) && Accepts(n, ShapeOf(s), results)
    ensures Result(n, s) == map[] && Recorded(n, s) == EdgesTo(s.stack[0], n)
  {
    FirstRead(s.stack, n);
  }

  lemma UnaryMeans(n: Node, s: State, results: nat)
    requires (n.inst.Unary? || n.inst.Convert?) && Accepts(n, ShapeOf(s), results)
    ensures Result(n, s) == Through(if n.inst.Unary? then RemoveConsts(s.stack[0]) else s.stack[0], n)
    ensures Recorded(n, s) == EdgesTo(s.stack[0], n)
  {
    FirstRead(s.stack, n);
  }

  lemma MakeMeans(n: Node, s: State, results: nat)
    requires (n.inst.Const? || n.inst.MemorySize?) && Accepts(n, ShapeOf(s), results)
    ensures Result(n, s) == (if n.inst.Const? then Own(n) else map[]) && Recorded(n, s) == {}
  {
  }

  lemma GetMeans(n: Node, s: State, results: nat, t: ReachDefinition, variable: Definition)
    requires (n.inst.GlobalGet? || n.inst.LocalGet?) && t.Is(s) && IsVariable(n, t, variable)
    ensures var def := variable.def;
            Accepts(n, ShapeOf(s), results) ==>
              Result(n, s) == (if def == map[] then Own(n) else Through(def, n)) && Recorded(n, s) == EdgesTo(def, n)
  {
    OneRead(variable.def, n);
  }

  // The variable that a local.get or global.get names.
  ghost predicate IsVariable(n: Node, s: ReachDefinition, variable: Definition)
    requires n.inst.GlobalGet? || n.inst.LocalGet?
    reads s
  {
    var vars := if n.inst.GlobalGet? then s.globals else s.locals;
    n.inst.name in vars && variable == vars[n.inst.name]
  }

  lemma CallMeans(n: Node, s: State, results: nat)
    requires IsCall(n) && Accepts(n, ShapeOf(s), results)
    ensures Result(n, s) == Own(n) && Recorded(n, s) == EdgesFromAll(s.stack[..n.inst.nargs], n)
  {
  }

  // What a builder has at some time, and what of it waits at one instruction.
  datatype Before = Before(edges: seq<PdgEdge>, tasks: seq<Task>, reachDef: map<Node, set<ReachDefinition>>,
                           defs: set<Definition>, states: set<ReachDefinition>, separate: bool, parts: set<Definition>,
                           stacks: map<ReachDefinition, seq<Definition>>, floor: map<Definition, set<Node>>)

  function Among(reachDef: map<Node, set<ReachDefinition>>, n: Node): set<ReachDefinition> {
    if n in reachDef then reachDef[n] else {}
  }
}
