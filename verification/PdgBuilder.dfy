// The dependence builder of src/pdg-builder.cc on the heap: its state, the
// visit methods, arrival, and the worklist. States share definitions as the
// source lets them, and tasks are taken in any order. Loop heads are visited
// in LoopVisits.dfy, and whole runs are in BuilderRuns.dfy.
module PdgBuilder {
  import opened Wrappers
  import opened DataFlow
  import opened Flowgraph
  import opened FlowLaws
  import opened Provenance
  import opened ReachDefinitions
  import opened Growth
  import opened VisitLaws

  class Builder {
    const graph: Flowgraph
    const results: nat
    const inside: Node -> set<Node>                  // a loop with its descendants in the syntax tree

    var edges: seq<PdgEdge>
    var dfsList: seq<Task>
    var reachDef: map<Node, set<ReachDefinition>>
    var loops: map<Node, ReachDefinition>            // the saved state of each loop
    var entrances: map<Node, seq<ReachDefinition>>
    var cache: map<Node, ReachDefinition>
    var loopsInsts: map<Node, set<Node>>
    var loopsStack: seq<Node>                        // top first
    var lastNode: Node

    ghost var defs: set<Definition>         // definitions of states that flow
    ghost var states: set<ReachDefinition>  // states that flow
    ghost var kept: set<Definition>         // variables of copies that are kept
    ghost var saved: set<ReachDefinition>   // copies that are kept: in `loops` and `cache`
    ghost var changes: map<Node, nat>       // how often a visit has changed the saved state of a loop
    ghost var passed: seq<Node>             // what the wait check has let through
    ghost var floor: map<Definition, set<Node>> // origins that definitions have, and never lose

    ghost const shape: Node -> Shape        // the shapes of the places, in validated code

    // Constants may be lost, but by kept definitions.
    ghost predicate Floored()
      reads `defs, `kept, `floor, defs, kept
    {
      forall d :: d in floor ==> d in defs + kept && floor[d] <= d.def.Keys && (d in defs ==> forall k :: k in floor[d] ==> !k.inst.Const?)
    }

    ghost predicate Sound()
      reads `edges, `defs, `kept, `floor, defs, kept
    {
      Floored() && Traceable()
    }

    // Every definition and every edge can be traced back.
    ghost predicate Traceable()
      reads `edges, `defs, `kept, defs, kept
    {
      && (forall d :: d in defs + kept ==> Traced(edges, d.def) && d.def.Keys <= graph.Nodes())
      && (forall e :: e in edges ==> Explained(edges, e)) && NoTwins(edges)
    }

    // Kept copies share nothing but operands with the states that flow.
    ghost predicate Owned()
      reads `defs, `kept, `states, `saved, states, saved
    {
      && defs !! kept && states !! saved
      && (forall s :: s in states ==> s.Parts() <= defs)
      && (forall s :: s in saved ==> s.Vars() <= kept && Objects(s.stack) <= defs)
    }

    ghost predicate Placed()
      reads `reachDef, `loops, `cache, `dfsList, `states, `saved
    {
      && (forall n, s :: n in reachDef && s in reachDef[n] ==> s in states)
      && (forall n :: n in loops ==> loops[n] in saved)
      && (forall n :: n in cache ==> cache[n] in saved)
      && (forall t :: t in dfsList ==> t.node in graph.Nodes())
    }

    ghost predicate Linked()
      reads `defs, `kept, `states, `saved, `reachDef, `loops, `cache, `dfsList, states, saved
    {
      Owned() && Placed()
    }

    ghost predicate Valid()
      reads this, defs, kept, states, saved
    {
      Sound() && Linked()
    }

    // A state whose definitions are known.
    ghost predicate Held(s: ReachDefinition)
      reads this, defs, kept, s
    {
      Sound() && s.Parts() <= defs
    }

    // What was made so far stays known.
    twostate predicate Grown()
      reads this
    {
      && old(defs) <= defs && (forall d :: d in defs ==> d in old(defs) || fresh(d))
      && old(states) <= states && (forall s :: s in states ==> s in old(states) || fresh(s))
      && old(kept) <= kept && (forall d :: d in kept ==> d in old(kept) || fresh(d))
      && old(saved) <= saved && (forall s :: s in saved ==> s in old(saved) || fresh(s))
    }

    constructor (graph: Flowgraph, results: nat, inside: Node -> set<Node>, ghost shape: Node -> Shape)
      ensures Valid() && edges == [] && dfsList == [] && reachDef == map[] && loops == map[] && cache == map[]
      ensures loopsStack == [] && defs == {} && states == {} && kept == {} && saved == {}
      ensures this.graph == graph && this.results == results && this.inside == inside && this.shape == shape
      ensures loopsInsts == map[] && entrances == map[] && changes == map[] && passed == [] && floor == map[]
    {
      this.graph, this.results, this.inside, this.shape := graph, results, inside, shape;
      edges, dfsList, reachDef, loops, entrances, cache := [], [], map[], map[], map[], map[];
      loopsInsts, loopsStack, lastNode := map[], [], graph.entry;
      defs, states, kept, saved, changes, passed, floor := {}, {}, {}, {}, map[], [], map[];
    }

    // ----- edges and definitions -----

    lemma SoundAt(d: Definition)
      requires Sound() && d in defs + kept
      ensures Traced(edges, d.def) && d.def.Keys <= graph.Nodes()
    {
    }

    method AddEdge(e: PdgEdge)
      requires Sound() && e !in edges && Explained(edges, e)
      modifies this`edges
      ensures Sound() && edges == old(edges) + [e]
    {
      edges := edges + [e];
      forall d | d in defs + kept {
        TracedStays(old(edges), edges, d.def);
      }
      forall f | f in edges
        ensures Explained(edges, f)
      {
        ExplainedStays(old(edges), edges, f);
      }
    }

    // insertPDGEdge: an edge into `n` for every entry, unless it is there.
    method Record(d: Definition, n: Node)
      requires Sound() && d in defs
      modifies this`edges
      ensures Sound() && Adds(old(edges), edges, EdgesTo(d.def, n)) && Known(edges, d.def, n)
    {
      ghost var done := {};
      var todo := d.def.Keys;
      while todo != {}
        invariant Sound() && todo <= d.def.Keys && Adds(old(edges), edges, done)
        invariant forall k :: k in d.def.Keys - todo ==> PdgEdge(d.def[k].src, n, d.def[k].name, d.def[k].kind) in done
        invariant done <= EdgesTo(d.def, n)
        decreases todo
      {
        var k :| k in todo;
        var e := RecordOne(d, k, n);
        todo, done := todo - {k}, done + {e};
      }
      assert done == EdgesTo(d.def, n);
    }

    method RecordOne(d: Definition, k: Node, n: Node) returns (e: PdgEdge)
      requires Sound() && d in defs && k in d.def
      modifies this`edges
      ensures Sound() && e == PdgEdge(d.def[k].src, n, d.def[k].name, d.def[k].kind) && Adds(old(edges), edges, {e})
    {
      e := PdgEdge(d.def[k].src, n, d.def[k].name, d.def[k].kind);
      SourceExplained(edges, d.def, k, n);
      if e !in edges {
        AddEdge(e);
      }
    }

    method Redirect(d: Definition, n: Node)
      requires Sound() && d in defs && Known(edges, d.def, n)
      modifies d
      ensures Sound() && d.def == Through(old(d.def), n)
    {
      ThroughTraced(edges, d.def, n);
      d.Redirect(n);
    }

    method Merge(d: Definition, other: Definition)
      requires Sound() && d in defs && other in defs + kept
      modifies d
      ensures Sound() && d.def == Union(old(d.def), old(other.def))
    {
      UnionTraced(edges, d.def, other.def);
      d.UnionDef(other);
    }

    method DropConsts(d: Definition, n: Node)
      requires Sound() && d in defs && Known(edges, d.def, n)
      modifies d
      ensures Sound() && Known(edges, d.def, n) && d.def == DataFlow.RemoveConsts(old(d.def))
    {
      RemoveConstsTraced(edges, d.def, n);
      d.RemoveConsts();
    }

    method Make(def: Def) returns (d: Definition)
      requires Sound() && Traced(edges, def) && def.Keys <= graph.Nodes()
      modifies this`defs
      ensures Sound() && fresh(d) && d.def == def && defs == old(defs) + {d}
    {
      d := new Definition(def);
      defs := defs + {d};
    }

    method Push(s: ReachDefinition, def: Def)
      requires Held(s) && Traced(edges, def) && def.Keys <= graph.Nodes()
      modifies this`defs, s`stack
      ensures Held(s) && |s.stack| == |old(s.stack)| + 1 && s.stack[1..] == old(s.stack)
      ensures fresh(s.stack[0]) && s.stack[0].def == def && defs == old(defs) + {s.stack[0]}
    {
      var d := Make(def);
      s.stack := [d] + s.stack;
    }

    // ----- what definitions keep -----

    // The origins that definitions have now and will not lose.
    ghost function Remembered(): map<Definition, set<Node>>
      reads `defs, `kept, defs, kept
    {
      map d | d in defs + kept :: if d in kept then d.def.Keys else Lasting(d.def)
    }

    // The record only rises.
    lemma RecordRises()
      requires Valid()
      ensures Traceable() && Linked() && forall d :: d in floor ==> d in Remembered() && floor[d] <= Remembered()[d]
    {
      hide Builder.Linked, Traced;
      KeptApart();
    }

    lemma NowCurrent()
      requires Traceable() && Linked() && floor == Remembered()
      ensures Valid() && Current()
    {
      hide Builder.Traceable;
    }

    ghost method Remember()
      requires Valid()
      modifies this`floor
      ensures Valid() && Current() && Risen(old(floor))
    {
      hide Builder.Sound, Builder.Linked, Builder.Traceable;
      RecordRises();
      floor := Remembered();
      NowCurrent();
    }

    ghost predicate Current()
      reads `defs, `kept, `floor, defs, kept
    {
      floor.Keys == defs + kept && (forall d :: d in defs ==> floor[d] == Lasting(d.def)) && forall d :: d in kept ==> floor[d] == d.def.Keys
    }

    ghost predicate Risen(was: map<Definition, set<Node>>)
      reads `floor
    {
      forall d :: d in was ==> d in floor && was[d] <= floor[d]
    }

    lemma NotFallen()
      ensures Risen(floor)
    {
    }

    lemma NowAssured(s: ReachDefinition, v: State)
      requires Current() && s.Parts() <= defs && s.Is(v)
      ensures Assured(floor, s.globals, s.locals, s.stack, v)
    {
      assert forall i :: 0 <= i < |s.stack| ==> s.stack[i] in Objects(s.stack);
    }

    // What is recorded of definitions is still there.
    lemma StillHolds(globals: map<string, Definition>, locals: map<string, Definition>, ds: seq<Definition>, v: State)
      requires Sound()
      ensures Assured(floor, globals, locals, ds, v) ==> Holds(globals, locals, ds, v)
    {
    }

    // ----- the visit methods -----

    // A visit to a state in which no definition serves two slots does to it
    // what DataFlow says of values, and keeps it so.
    twostate predicate Visited(n: Node, s: ReachDefinition, was: State)
      reads this, s, s.globals.Values, s.locals.Values, s.stack, defs
    {
      && Within(old(edges), edges) && old(defs) <= defs && fresh(defs - old(defs))
      && (Accepts(n, ShapeOf(was), results) ==> s.Size() == ShapeAfter(n, ShapeOf(was)))
      && (Accepts(n, ShapeOf(was), results) ==> Adds(old(edges), edges, Recorded(n, was)))
      && (Accepts(n, ShapeOf(was), results) && old(s.Apart()) ==> s.Is(Visit(n, was)) && s.Apart() && s.Parts() <= old(s.Parts()) + (defs - old(defs)))
      && (Accepts(n, ShapeOf(was), results) && old(Assured(floor, s.globals, s.locals, s.stack, was)) ==>
            Holds(s.globals, s.locals, s.stack, Visit(n, was)))
      && (Accepts(n, ShapeOf(was), results) ==> Untaken(n, old(s.stack), s.stack) && (InPlace(n.inst) ==> Changes(old(s.stack), Result(n, was))))
    }

    // The operands that a visit does not take stay where they are.
    static predicate Untaken(n: Node, before: seq<Definition>, after: seq<Definition>) {
      |before| >= Pops(n.inst) && |after| >= Pushes(n.inst) && after[Pushes(n.inst)..] == before[Pops(n.inst)..]
    }

    // The visit changes the topmost operand, for all that share it.
    ghost predicate Changes(before: seq<Definition>, def: Def)
      reads `defs, defs
    {
      before != [] && before[0] in defs && before[0].def == def
    }

    // The definitions of the operands that a visit changes are the only ones
    // changed; other states see that change if they share them.

    method PushOwn(n: Node, s: ReachDefinition)
      requires Held(s) && IsOrigin(n) && n in graph.Nodes()
      modifies this`defs, s`stack
      ensures Held(s) && Replaced(s, 0, Own(n)) && defs == old(defs) + {s.stack[0]}
    {
      OwnTraced(edges, n);
      Push(s, Own(n));
    }

    // Pops operands one by one, recording each.
    method TakeArgs(n: Node, s: ReachDefinition, count: nat, ghost ds: seq<Def>)
      requires Held(s) && |s.stack| >= count && |ds| == |s.stack| && forall i :: 0 <= i < |ds| ==> s.stack[i].def == ds[i]
      modifies this`edges, s`stack
      ensures Held(s) && s.stack == old(s.stack)[count..] && Adds(old(edges), edges, EdgesFromAll(ds[..count], n))
    {
      hide Builder.Sound, EdgesTo, Traced;
      ghost var all := s.stack;
      for i := 0 to count
        invariant Held(s) && s.stack == all[i..] && Objects(all) <= defs
        invariant Adds(old(edges), edges, EdgesFromAll(ds[..i], n))
      {
        OneMoreRead(ds[..i], ds[i], n);
        OneMoreTaken(ds, i);
        TakeArg(n, s);
      }
    }

    method TakeArg(n: Node, s: ReachDefinition)
      requires Held(s) && |s.stack| > 0
      modifies this`edges, s`stack
      ensures Held(s) && s.stack == old(s.stack)[1..] && Adds(old(edges), edges, EdgesTo(old(s.stack)[0].def, n))
    {
      hide Builder.Sound, EdgesTo, EdgesFromAll, Through, Union, DataFlow.RemoveConsts, Own, Known, Traced;
      var arg := s.stack[0];
      s.stack := s.stack[1..];
      Record(arg, n);
    }

    method VisitLoad(n: Node, s: ReachDefinition)
      requires Held(s) && |s.stack| >= 1
      modifies this`edges, this`defs, s`stack
      ensures Held(s) && Adds(old(edges), edges, old(EdgesTo(s.stack[0].def, n)))
      ensures Replaced(s, 1, map[]) && defs == old(defs) + {s.stack[0]}
    {
      hide Builder.Sound, EdgesTo;
      var arg := s.stack[0];
      s.stack := s.stack[1..];
      Record(arg, n);
      Push(s, map[]);
    }

    method VisitCall(n: Node, s: ReachDefinition, nargs: nat, nresults: nat, ghost ds: seq<Def>)
      requires |ds| == |s.stack| && forall i :: 0 <= i < |ds| ==> s.stack[i].def == ds[i]
      requires Held(s) && |s.stack| >= nargs && IsCall(n) && n in graph.Nodes() && nresults <= 1
      modifies this`edges, this`defs, s`stack
      ensures Held(s) && Adds(old(edges), edges, EdgesFromAll(ds[..nargs], n))
      ensures nresults == 1 ==> Replaced(s, nargs, Own(n)) && defs == old(defs) + {s.stack[0]}
      ensures nresults == 0 ==> s.stack == old(s.stack)[nargs..] && defs == old(defs)
    {
      hide Builder.Sound, EdgesTo, EdgesFromAll, Through, Union, DataFlow.RemoveConsts, Own, Known, Traced;
      TakeArgs(n, s, nargs, ds);
      if nresults == 1 {
        PushOwn(n, s);
      }
    }

    method VisitSelect(n: Node, s: ReachDefinition)
      requires Held(s) && |s.stack| >= 3
      modifies this`edges, this`defs, s`stack, s.stack[2]
      ensures Held(s) && Adds(old(edges), edges, old(EdgesTo(s.stack[0].def, n)))
      ensures Replaced(s, 3, old(Union(s.stack[2].def, s.stack[1].def))) && defs == old(defs) + {s.stack[0]}
    {
      hide Builder.Sound, EdgesTo, EdgesFromAll, Through, Union, DataFlow.RemoveConsts, Own, Known, Traced;
      var c, val2, val1 := s.stack[0], s.stack[1], s.stack[2];
      s.stack := s.stack[3..];
      Record(c, n);
      Merge(val1, val2);
      SoundAt(val1);
      Push(s, val1.def);
    }

    method VisitBinary(n: Node, s: ReachDefinition)
      requires Held(s) && |s.stack| >= 2
      modifies this`edges, this`defs, s`stack, s.stack[0]
      ensures Held(s) && Adds(old(edges), edges, old(EdgesTo(Union(s.stack[0].def, s.stack[1].def), n)))
      ensures Replaced(s, 2, old(Through(DataFlow.RemoveConsts(Union(s.stack[0].def, s.stack[1].def)), n)))
      ensures defs == old(defs) + {s.stack[0]} && old(s.stack[0]).def == s.stack[0].def
    {
      hide Builder.Sound, EdgesTo, EdgesFromAll, Through, Union, DataFlow.RemoveConsts, Own, Known, Traced;
      var arg1, arg2 := s.stack[0], s.stack[1];
      s.stack := s.stack[2..];
      Merge(arg1, arg2);
      Record(arg1, n);
      DropConsts(arg1, n);
      Redirect(arg1, n);
      SoundAt(arg1);
      Push(s, arg1.def);
    }

    // Unary and conversion instructions change the operand where it lies;
    // only the former drops constants.
    method VisitUnary(n: Node, s: ReachDefinition)
      requires Held(s) && |s.stack| >= 1
      modifies this`edges, s.stack[0]
      ensures Held(s) && Adds(old(edges), edges, old(EdgesTo(s.stack[0].def, n)))
      ensures s.stack[0].def == old(Through(if n.inst.Unary? then DataFlow.RemoveConsts(s.stack[0].def) else s.stack[0].def, n))
    {
      Record(s.stack[0], n);
      if n.inst.Unary? {
        DropConsts(s.stack[0], n);
      }
      Redirect(s.stack[0], n);
    }

    // local.get and global.get: a copy of the variable's definition, or the
    // instruction itself if that is empty.
    method VisitGet(n: Node, s: ReachDefinition, variable: Definition)
      requires Held(s) && variable in defs && IsOrigin(n) && n in graph.Nodes()
      modifies this`edges, this`defs, s`stack
      ensures Held(s) && Adds(old(edges), edges, EdgesTo(variable.def, n))
      ensures Replaced(s, 0, if variable.def == map[] then Own(n) else Through(variable.def, n))
      ensures defs == old(defs) + {s.stack[0]}
    {
      hide Builder.Sound, EdgesTo, EdgesFromAll, Through, Union, DataFlow.RemoveConsts, Own, Known, Traced;
      SoundAt(variable);
      Push(s, variable.def);
      Inherit(s.stack[0], n);
    }

    method Inherit(d: Definition, n: Node)
      requires Sound() && d in defs && IsOrigin(n) && n in graph.Nodes()
      modifies this`edges, d
      ensures Sound() && Adds(old(edges), edges, EdgesTo(old(d.def), n))
      ensures d.def == if old(d.def) == map[] then Own(n) else Through(old(d.def), n)
    {
      Record(d, n);
      Redirect(d, n);
      if d.def == map[] {
        Refill(d, n);
      }
    }

    method Refill(d: Definition, n: Node)
      requires Sound() && d in defs && d.def == map[] && IsOrigin(n) && n in graph.Nodes()
      modifies d
      ensures Sound() && d.def == Own(n)
    {
      OwnTraced(edges, n);
      d.def := Own(n);
    }

    // local.set and global.set: the variable takes over the operand itself.
    method TakeInto(n: Node, s: ReachDefinition) returns (arg: Definition)
      requires Held(s) && |s.stack| >= 1
      modifies this`edges, s`stack, s.stack[0]
      ensures Held(s) && Adds(old(edges), edges, old(EdgesTo(s.stack[0].def, n)))
      ensures arg == old(s.stack[0]) && s.stack == old(s.stack)[1..] && arg.def == Through(old(s.stack[0].def), n)
      ensures arg in defs
    {
      hide Builder.Sound, EdgesTo, EdgesFromAll, Through, Union, DataFlow.RemoveConsts, Own, Known, Traced;
      arg := s.stack[0];
      s.stack := s.stack[1..];
      Record(arg, n);
      Redirect(arg, n);
    }

    method VisitSet(n: Node, s: ReachDefinition)
      requires Held(s) && |s.stack| >= 1 && (n.inst.GlobalSet? || n.inst.LocalSet?)
      modifies this`edges, s`stack, s`globals, s`locals, s.stack[0]
      ensures Held(s) && Adds(old(edges), edges, old(EdgesTo(s.stack[0].def, n)))
      ensures s.stack == old(s.stack)[1..] && old(s.stack[0]).def == Through(old(s.stack[0].def), n)
      ensures s.globals == if n.inst.GlobalSet? then old(s.globals)[n.inst.name := old(s.stack[0])] else old(s.globals)
      ensures s.locals == if n.inst.LocalSet? then old(s.locals)[n.inst.name := old(s.stack[0])] else old(s.locals)
    {
      hide Builder.Sound, EdgesTo, EdgesFromAll, Through, Union, DataFlow.RemoveConsts, Own, Known, Traced;
      var arg := TakeInto(n, s);
      if n.inst.GlobalSet? {
        s.globals := s.globals[n.inst.name := arg];
      } else {
        s.locals := s.locals[n.inst.name := arg];
      }
    }

    // The variable keeps the operand itself, the stack gets a copy.
    method VisitTee(n: Node, s: ReachDefinition)
      requires Held(s) && |s.stack| >= 1 && n.inst.LocalTee?
      modifies this`edges, this`defs, s`stack, s`locals, s.stack[0]
      ensures Held(s) && Adds(old(edges), edges, old(EdgesTo(s.stack[0].def, n)))
      ensures s.stack != [] && s.stack[1..] == old(s.stack)[1..] && fresh(s.stack[0])
      ensures s.stack[0].def == old(s.stack[0]).def == Through(old(s.stack[0].def), n)
      ensures s.locals == old(s.locals)[n.inst.name := old(s.stack[0])] && defs == old(defs) + {s.stack[0]}
    {
      hide Builder.Sound, EdgesTo, EdgesFromAll, Through, Union, DataFlow.RemoveConsts, Own, Known, Traced;
      var arg := s.stack[0];
      s.stack := s.stack[1..];
      Record(arg, n);
      s.locals := s.locals[n.inst.name := arg];
      Redirect(arg, n);
      SoundAt(arg);
      Push(s, arg.def);
    }

    // ----- visits by kind of instruction -----

    // `ds` and `parts` are the operands and definitions before the visit;
    // `least` says whether what they had was recorded.
    lemma Concluded(n: Node, s: ReachDefinition, ds: seq<Definition>, parts: set<Definition>, was: State, least: bool)
      requires Pushes(n.inst) == 1 && !n.inst.LocalTee? && s.labels == was.labels && |ds| == |was.stack|
      requires s.globals.Keys == was.globals.Keys && s.locals.Keys == was.locals.Keys && Pops(n.inst) <= |ds|
      requires s.stack != [] && s.stack[1..] == ds[Pops(n.inst)..] && parts == s.globals.Values + s.locals.Values + Objects(ds)
      requires s.stack[0] !in parts && (Accepts(n, ShapeOf(was), results) ==> s.stack[0].def == Result(n, was))
      requires SlotsApart(s.globals, s.locals, ds) ==> Shows(s.globals, s.locals, ds[Pops(n.inst)..], Below(was, Pops(n.inst)))
      requires least ==> Holds(s.globals, s.locals, ds[Pops(n.inst)..], Below(was, Pops(n.inst)))
      ensures Accepts(n, ShapeOf(was), results) ==> s.Size() == ShapeAfter(n, ShapeOf(was)) && Untaken(n, ds, s.stack)
      ensures Accepts(n, ShapeOf(was), results) && SlotsApart(s.globals, s.locals, ds) ==> s.Is(Visit(n, was)) && s.Apart()
      ensures Accepts(n, ShapeOf(was), results) && least ==> Holds(s.globals, s.locals, s.stack, Visit(n, was))
      ensures s.Parts() <= parts + {s.stack[0]}
    {
      var top, k := s.stack[0], Pops(n.inst);
      assert s.stack == [top] + ds[k..];
      assert Objects(s.stack) <= {top} + Objects(ds);
      if Accepts(n, ShapeOf(was), results) {
        ResultShape(n, ShapeOf(was), results);
        if least {
          LastingIn(top.def);
          OneOnTopHolds(s.globals, s.locals, top, ds[k..], Below(was, k), top.def);
          ResultVisit(n, was, State(was.globals, was.locals, [top.def] + was.stack[k..], was.labels), results);
        }
        if SlotsApart(s.globals, s.locals, ds) {
          TopApart(s.globals, s.locals, ds, k, top);
          OneOnTop(s.globals, s.locals, top, ds[k..], Below(was, k));
          ResultVisit(n, was, State(was.globals, was.locals, [top.def] + was.stack[k..], was.labels), results);
        }
      }
    }

    method StepBinary(n: Node, s: ReachDefinition, ghost was: State)
      requires Held(s) && s.Is(was) && |s.stack| >= 2 && (n.inst.Binary? || n.inst.Compare?)
      modifies this`edges, this`defs, s`stack, s.stack[0]
      ensures Held(s) && Visited(n, s, was)
    {
      hide Builder.Sound, Accepts, Result, Recorded, Visit, ShapeAfter, EdgesTo, EdgesFromAll, Through, Union, RemoveConsts, Own, Shows, Holds, SlotsApart, Assured, Builder.Untaken;
      if Accepts(n, ShapeOf(was), results) {
        BinaryMeans(n, was, results);
      }
      ghost var ds, parts := s.stack, s.Parts();
      ghost var least := Assured(floor, s.globals, s.locals, ds, was);
      BelowShows(s.globals, s.locals, ds, was, Pops(n.inst));
      BelowAssured(floor, s.globals, s.locals, ds, was, Pops(n.inst));
      VisitBinary(n, s);
      StillHolds(s.globals, s.locals, ds[Pops(n.inst)..], Below(was, Pops(n.inst)));
      Concluded(n, s, ds, parts, was, least);
    }

    method StepSelect(n: Node, s: ReachDefinition, ghost was: State)
      requires Held(s) && s.Is(was) && |s.stack| >= 3 && n.inst.Select?
      modifies this`edges, this`defs, s`stack, s.stack[2]
      ensures Held(s) && Visited(n, s, was)
    {
      hide Builder.Sound, Accepts, Result, Recorded, Visit, ShapeAfter, EdgesTo, EdgesFromAll, Through, Union, RemoveConsts, Own, Shows, Holds, Assured, Builder.Untaken, Builder.Changes;
      if Accepts(n, ShapeOf(was), results) {
        SelectMeans(n, was, results);
      }
      ghost var ds, parts := s.stack, s.Parts();
      ghost var least := Assured(floor, s.globals, s.locals, ds, was);
      BelowShows(s.globals, s.locals, ds, was, Pops(n.inst));
      BelowAssured(floor, s.globals, s.locals, ds, was, Pops(n.inst));
      VisitSelect(n, s);
      StillHolds(s.globals, s.locals, ds[Pops(n.inst)..], Below(was, Pops(n.inst)));
      Concluded(n, s, ds, parts, was, least);
    }

    method StepLoad(n: Node, s: ReachDefinition, ghost was: State)
      requires Held(s) && s.Is(was) && |s.stack| >= 1 && (n.inst.Load? || n.inst.MemoryGrow?)
      modifies this`edges, this`defs, s`stack
      ensures Held(s) && Visited(n, s, was)
    {
      hide Builder.Sound, Accepts, Result, Recorded, Visit, ShapeAfter, EdgesTo, EdgesFromAll, Through, Union, RemoveConsts, Own, Holds, Assured, Builder.Untaken, Builder.Changes;
      if Accepts(n, ShapeOf(was), results) {
        LoadMeans(n, was, results);
      }
      ghost var ds, parts := s.stack, s.Parts();
      BelowShows(s.globals, s.locals, ds, was, Pops(n.inst));
      VisitLoad(n, s);
      ShowsHolds(s.globals, s.locals, ds[Pops(n.inst)..], Below(was, Pops(n.inst)));
      Concluded(n, s, ds, parts, was, true);
    }

    method StepUnary(n: Node, s: ReachDefinition, ghost was: State)
      requires Held(s) && s.Is(was) && |s.stack| >= 1 && (n.inst.Unary? || n.inst.Convert?)
      modifies this`edges, s.stack[0]
      ensures Held(s) && Visited(n, s, was)
    {
      hide Builder.Sound, Accepts, Result, Recorded, Visit, ShapeAfter, EdgesTo, EdgesFromAll, Through, Union, RemoveConsts, Own, Holds, Assured;
      if Accepts(n, ShapeOf(was), results) {
        UnaryMeans(n, was, results);
      }
      ghost var least := Assured(floor, s.globals, s.locals, s.stack, was);
      BelowAssured(floor, s.globals, s.locals, s.stack, was, 1);
      VisitUnary(n, s);
      StillHolds(s.globals, s.locals, s.stack[1..], Below(was, 1));
      if Accepts(n, ShapeOf(was), results) {
        ResultShape(n, ShapeOf(was), results);
        ResultVisit(n, was, State(was.globals, was.locals, [Result(n, was)] + was.stack[1..], was.labels), results);
        ChangedInPlace(s, was, Result(n, was), least);
      }
    }

    lemma ChangedInPlace(s: ReachDefinition, was: State, def: Def, least: bool)
      requires |s.stack| == |was.stack| > 0 && s.stack[0].def == def && s.labels == was.labels
      requires s.Apart() ==> Shows(s.globals, s.locals, s.stack[1..], Below(was, 1))
      requires least ==> Holds(s.globals, s.locals, s.stack[1..], Below(was, 1))
      ensures s.Apart() ==> s.Is(State(was.globals, was.locals, [def] + was.stack[1..], was.labels))
      ensures least ==> Holds(s.globals, s.locals, s.stack, State(was.globals, was.locals, [def] + was.stack[1..], was.labels))
    {
      assert s.stack == [s.stack[0]] + s.stack[1..];
      if s.Apart() {
        OneOnTop(s.globals, s.locals, s.stack[0], s.stack[1..], Below(was, 1));
      }
      if least {
        LastingIn(def);
        OneOnTopHolds(s.globals, s.locals, s.stack[0], s.stack[1..], Below(was, 1), def);
      }
    }

    // Constants and the size of the memory.
    method StepMake(n: Node, s: ReachDefinition, ghost was: State)
      requires Held(s) && s.Is(was) && n in graph.Nodes() && (n.inst.Const? || n.inst.MemorySize?)
      modifies this`edges, this`defs, s`stack
      ensures Held(s) && Visited(n, s, was)
    {
      hide Shows, SlotsApart, Objects, Builder.Sound, Accepts, Result, Recorded, Visit, ShapeAfter, EdgesTo, EdgesFromAll, Through, Union, RemoveConsts, Own, Holds, Assured, Builder.Untaken, Builder.Changes;
      if Accepts(n, ShapeOf(was), results) {
        MakeMeans(n, was, results);
      }
      ghost var ds, parts := s.stack, s.Parts();
      BelowShows(s.globals, s.locals, ds, was, 0);
      if n.inst.Const? {
        PushOwn(n, s);
      } else {
        Push(s, map[]);
      }
      ShowsHolds(s.globals, s.locals, ds[0..], Below(was, 0));
      Concluded(n, s, ds, parts, was, true);
    }

    method StepGet(n: Node, s: ReachDefinition, variable: Definition, ghost was: State)
      requires Held(s) && s.Is(was) && n in graph.Nodes() && (n.inst.GlobalGet? || n.inst.LocalGet?)
      requires IsVariable(n, s, variable) && variable in defs
      modifies this`edges, this`defs, s`stack
      ensures Held(s) && Visited(n, s, was)
    {
      hide Builder.Sound, Accepts, Result, Recorded, Visit, ShapeAfter, EdgesTo, EdgesFromAll, Through, Union, RemoveConsts, Own, Shows, SlotsApart, Objects, IsVariable, Holds, Assured, Builder.Untaken, Builder.Changes;
      GetMeans(n, was, results, s, variable);
      ghost var ds, parts := s.stack, s.Parts();
      ghost var least := Assured(floor, s.globals, s.locals, ds, was);
      BelowShows(s.globals, s.locals, ds, was, 0);
      BelowAssured(floor, s.globals, s.locals, ds, was, 0);
      VisitGet(n, s, variable);
      StillHolds(s.globals, s.locals, ds[0..], Below(was, 0));
      Concluded(n, s, ds, parts, was, least);
    }

    method StepCall(n: Node, s: ReachDefinition, ghost was: State)
      requires Held(s) && s.Is(was) && n in graph.Nodes() && IsCall(n) && |s.stack| >= n.inst.nargs && n.inst.nresults <= 1
      modifies this`edges, this`defs, s`stack
      ensures Held(s) && Visited(n, s, was)
    {
      hide Builder.Sound, Accepts, Result, Recorded, Visit, ShapeAfter, EdgesTo, EdgesFromAll, Through, Union, RemoveConsts, Own, SlotsApart, Holds, Assured, Builder.Untaken, Builder.Changes;
      if Accepts(n, ShapeOf(was), results) {
        CallMeans(n, was, results);
      }
      ghost var ds, parts := s.stack, s.Parts();
      BelowShows(s.globals, s.locals, ds, was, Pops(n.inst));
      VisitCall(n, s, n.inst.nargs, n.inst.nresults, was.stack);
      CallConcluded(n, s, ds, parts, was);
    }

    lemma CallConcluded(n: Node, s: ReachDefinition, ds: seq<Definition>, parts: set<Definition>, was: State)
      requires IsCall(n) && n.inst.nresults <= 1 && s.labels == was.labels && |ds| == |was.stack| && Pops(n.inst) <= |ds|
      requires s.globals.Keys == was.globals.Keys && s.locals.Keys == was.locals.Keys && parts == s.globals.Values + s.locals.Values + Objects(ds)
      requires n.inst.nresults == 1 ==> s.stack != [] && s.stack[1..] == ds[Pops(n.inst)..] && s.stack[0] !in parts && s.stack[0].def == Own(n)
      requires n.inst.nresults == 0 ==> s.stack == ds[Pops(n.inst)..]
      requires Shows(s.globals, s.locals, ds[Pops(n.inst)..], Below(was, Pops(n.inst)))
      ensures Accepts(n, ShapeOf(was), results) ==>
                && s.Size() == ShapeAfter(n, ShapeOf(was)) && Untaken(n, ds, s.stack) && Holds(s.globals, s.locals, s.stack, Visit(n, was))
      ensures Accepts(n, ShapeOf(was), results) && SlotsApart(s.globals, s.locals, ds) ==> s.Is(Visit(n, was)) && s.Apart()
      ensures s.Parts() <= if n.inst.nresults == 1 then parts + {s.stack[0]} else parts
    {
      if Accepts(n, ShapeOf(was), results) {
        CallMeans(n, was, results);
      }
      ShowsHolds(s.globals, s.locals, ds[Pops(n.inst)..], Below(was, Pops(n.inst)));
      if n.inst.nresults == 1 {
        Concluded(n, s, ds, parts, was, true);
      } else {
        Taken(n, s, ds, was);
      }
    }

    lemma Taken(n: Node, s: ReachDefinition, ds: seq<Definition>, was: State)
      requires OnlyTakes(n.inst) || (IsCall(n) && n.inst.nresults == 0)
      requires |ds| == |was.stack| && Pops(n.inst) <= |ds| && s.stack == ds[Pops(n.inst)..] && s.labels == was.labels
      requires Shows(s.globals, s.locals, s.stack, Below(was, Pops(n.inst)))
      ensures Accepts(n, ShapeOf(was), results) ==>
                && s.Size() == ShapeAfter(n, ShapeOf(was)) && Untaken(n, ds, s.stack) && Holds(s.globals, s.locals, s.stack, Visit(n, was))
      ensures Accepts(n, ShapeOf(was), results) ==> Recorded(n, was) == EdgesFromAll(was.stack[..Pops(n.inst)], n)
      ensures Accepts(n, ShapeOf(was), results) && SlotsApart(s.globals, s.locals, ds) ==> s.Is(Visit(n, was)) && s.Apart()
      ensures s.Parts() <= s.globals.Values + s.locals.Values + Objects(ds)
    {
      assert forall d :: d in Objects(s.stack) ==> d in Objects(ds);
      if Accepts(n, ShapeOf(was), results) {
        TakeShape(n, ShapeOf(was), results);
        TakeVisit(n, was, results);
        ShowsHolds(s.globals, s.locals, s.stack, Below(was, Pops(n.inst)));
        if SlotsApart(s.globals, s.locals, ds) {
          LeftApart(s.globals, s.locals, ds, Pops(n.inst));
        }
      }
    }

    // Instructions that only take operands and record them.
    method StepTake(n: Node, s: ReachDefinition, ghost was: State)
      requires Held(s) && s.Is(was) && |s.stack| >= Pops(n.inst) && OnlyTakes(n.inst)
      modifies this`edges, this`defs, s`stack
      ensures Held(s) && Visited(n, s, was)
    {
      hide Builder.Sound, Accepts, Result, Recorded, Visit, ShapeAfter, EdgesTo, EdgesFromAll, Through, Union, RemoveConsts, Own, Holds, Assured, Builder.Untaken, Builder.Changes;
      ghost var ds, parts := s.stack, s.Parts();
      TakeArgs(n, s, Pops(n.inst), was.stack);
      Taken(n, s, ds, was);
    }

    lemma SetShows(globals: map<string, Definition>, locals: map<string, Definition>, below: seq<Definition>, n: Node, d: Definition, was: State)
      requires |was.stack| >= 1 && (n.inst.GlobalSet? || n.inst.LocalSet? || n.inst.LocalTee?)
      ensures Shows(globals, locals, below, Below(was, 1)) ==>
                Shows(if n.inst.GlobalSet? then globals[n.inst.name := d] else globals,
                      if n.inst.GlobalSet? then locals else locals[n.inst.name := d], below,
                      State(if n.inst.GlobalSet? then was.globals[n.inst.name := d.def] else was.globals,
                            if n.inst.GlobalSet? then was.locals else was.locals[n.inst.name := d.def], was.stack[1..], was.labels))
    {
    }

    lemma SetHolds(globals: map<string, Definition>, locals: map<string, Definition>, below: seq<Definition>, n: Node, d: Definition, was: State)
      requires |was.stack| >= 1 && (n.inst.GlobalSet? || n.inst.LocalSet? || n.inst.LocalTee?)
      ensures Holds(globals, locals, below, Below(was, 1)) ==>
                Holds(if n.inst.GlobalSet? then globals[n.inst.name := d] else globals,
                      if n.inst.GlobalSet? then locals else locals[n.inst.name := d], below,
                      State(if n.inst.GlobalSet? then was.globals[n.inst.name := d.def] else was.globals,
                            if n.inst.GlobalSet? then was.locals else was.locals[n.inst.name := d.def], was.stack[1..], was.labels))
    {
      LastingIn(d.def);
    }

    lemma SetConcluded(n: Node, s: ReachDefinition, globals: map<string, Definition>, locals: map<string, Definition>,
                       ds: seq<Definition>, was: State, least: bool)
      requires (n.inst.GlobalSet? || n.inst.LocalSet?) && |ds| == |was.stack| > 0 && s.stack == ds[1..] && s.labels == was.labels
      requires s.globals == (if n.inst.GlobalSet? then globals[n.inst.name := ds[0]] else globals)
      requires s.locals == (if n.inst.LocalSet? then locals[n.inst.name := ds[0]] else locals)
      requires ds[0].def == Through(was.stack[0], n) && globals.Keys == was.globals.Keys && locals.Keys == was.locals.Keys
      requires SlotsApart(globals, locals, ds) ==> Shows(globals, locals, ds[1..], Below(was, 1))
      requires least ==> Holds(globals, locals, ds[1..], Below(was, 1))
      ensures s.Parts() <= globals.Values + locals.Values + Objects(ds)
      ensures Accepts(n, ShapeOf(was), results) ==> s.Size() == ShapeAfter(n, ShapeOf(was)) && Recorded(n, was) == EdgesTo(was.stack[0], n)
      ensures Accepts(n, ShapeOf(was), results) && SlotsApart(globals, locals, ds) ==> s.Is(Visit(n, was)) && s.Apart()
      ensures Accepts(n, ShapeOf(was), results) && least ==> Holds(s.globals, s.locals, s.stack, Visit(n, was))
    {
      PartsTakenOver(if n.inst.GlobalSet? then globals else locals, ds, n.inst.name);
      if Accepts(n, ShapeOf(was), results) {
        SetMeans(n, was, results);
        SetHolds(globals, locals, ds[1..], n, ds[0], was);
        if SlotsApart(globals, locals, ds) {
          SwappedApart(globals, locals, ds);
          TakenOver(globals, locals, ds, n.inst.name);
          TakenOver(locals, globals, ds, n.inst.name);
          SetShows(globals, locals, ds[1..], n, ds[0], was);
        }
      }
    }

    method StepSet(n: Node, s: ReachDefinition, ghost was: State)
      requires Held(s) && s.Is(was) && |s.stack| >= 1 && (n.inst.GlobalSet? || n.inst.LocalSet?)
      modifies this`edges, s`stack, s`globals, s`locals, s.stack[0]
      ensures Held(s) && Visited(n, s, was)
    {
      hide Builder.Sound, Accepts, Result, Recorded, Visit, ShapeAfter, EdgesTo, EdgesFromAll, Through, Union, RemoveConsts, Own, Shows, SlotsApart, Holds, Assured;
      ghost var globals, locals, ds := s.globals, s.locals, s.stack;
      ghost var least := Assured(floor, globals, locals, ds, was);
      BelowShows(globals, locals, ds, was, 1);
      BelowAssured(floor, globals, locals, ds, was, 1);
      VisitSet(n, s);
      StillHolds(globals, locals, ds[1..], Below(was, 1));
      SetConcluded(n, s, globals, locals, ds, was, least);
    }

    lemma TeeConcluded(n: Node, s: ReachDefinition, locals: map<string, Definition>, ds: seq<Definition>, was: State, least: bool)
      requires n.inst.LocalTee? && |ds| == |was.stack| > 0 && s.stack != [] && s.stack[1..] == ds[1..] && s.labels == was.labels
      requires s.locals == locals[n.inst.name := ds[0]] && s.stack[0] !in s.globals.Values + locals.Values + Objects(ds)
      requires s.stack[0].def == ds[0].def == Through(was.stack[0], n) && s.globals.Keys == was.globals.Keys && locals.Keys == was.locals.Keys
      requires SlotsApart(s.globals, locals, ds) ==> Shows(s.globals, locals, ds[1..], Below(was, 1))
      requires least ==> Holds(s.globals, locals, ds[1..], Below(was, 1))
      ensures Accepts(n, ShapeOf(was), results) && least ==> Holds(s.globals, s.locals, s.stack, Visit(n, was))
      ensures s.Parts() <= s.globals.Values + locals.Values + Objects(ds) + {s.stack[0]}
      ensures Accepts(n, ShapeOf(was), results) ==> s.Size() == ShapeAfter(n, ShapeOf(was)) && Recorded(n, was) == EdgesTo(was.stack[0], n)
      ensures Accepts(n, ShapeOf(was), results) && SlotsApart(s.globals, locals, ds) ==> s.Is(Visit(n, was)) && s.Apart()
    {
      PartsTakenOver(locals, ds, n.inst.name);
      assert s.stack == [s.stack[0]] + ds[1..] && Objects(s.stack) <= {s.stack[0]} + Objects(ds[1..]);
      if Accepts(n, ShapeOf(was), results) {
        TeeMeans(n, was, results);
        if least {
          SetHolds(s.globals, locals, ds[1..], n, ds[0], was);
          LastingIn(ds[0].def);
          OneOnTopHolds(s.globals, s.locals, s.stack[0], ds[1..],
                        State(was.globals, was.locals[n.inst.name := ds[0].def], was.stack[1..], was.labels), ds[0].def);
        }
        if SlotsApart(s.globals, locals, ds) {
          SwappedApart(s.globals, locals, ds);
          TakenOver(locals, s.globals, ds, n.inst.name);
          assert ds[1..][0..] == ds[1..];
          TopApart(s.globals, s.locals, ds[1..], 0, s.stack[0]);
          SetShows(s.globals, locals, ds[1..], n, ds[0], was);
          OneOnTop(s.globals, s.locals, s.stack[0], ds[1..],
                   State(was.globals, was.locals[n.inst.name := ds[0].def], was.stack[1..], was.labels));
        }
      }
    }

    // local.tee
    method StepTee(n: Node, s: ReachDefinition, ghost was: State)
      requires Held(s) && s.Is(was) && |s.stack| >= 1 && n.inst.LocalTee?
      modifies this`edges, this`defs, s`stack, s`locals, s.stack[0]
      ensures Held(s) && Visited(n, s, was)
    {
      hide Builder.Sound, Accepts, Result, Recorded, Visit, ShapeAfter, EdgesTo, EdgesFromAll, Through, Union, RemoveConsts, Own, Shows, SlotsApart, Holds, Assured;
      ghost var locals, ds, parts := s.locals, s.stack, s.Parts();
      ghost var least := Assured(floor, s.globals, locals, ds, was);
      BelowShows(s.globals, locals, ds, was, 1);
      BelowAssured(floor, s.globals, locals, ds, was, 1);
      VisitTee(n, s);
      StillHolds(s.globals, locals, ds[1..], Below(was, 1));
      TeeConcluded(n, s, locals, ds, was, least);
    }

    method StepDrop(n: Node, s: ReachDefinition, ghost was: State)
      requires Held(s) && s.Is(was) && n.inst.Drop? && |s.stack| > 0
      modifies s`stack
      ensures Held(s) && Visited(n, s, was)
    {
      hide Builder.Sound, Accepts, Result, Recorded, Visit, ShapeAfter, EdgesTo, EdgesFromAll, Through, Union, RemoveConsts, Own, SlotsApart, Shows, Holds, Assured;
      if Accepts(n, ShapeOf(was), results) {
        QuietMeans(n, was, results);
      }
      BelowShows(s.globals, s.locals, s.stack, was, 1);
      DropApart(s);
      s.stack := s.stack[1..];
      ShowsHolds(s.globals, s.locals, s.stack, Below(was, 1));
    }

    method StepBegin(n: Node, s: ReachDefinition, ghost was: State)
      requires Held(s) && s.Is(was) && n.inst.BeginBlock?
      modifies s`labels
      ensures Held(s) && Visited(n, s, was)
    {
      hide Builder.Sound, Accepts, Result, Recorded, Visit, ShapeAfter, EdgesTo, EdgesFromAll, Through, Union, RemoveConsts, Own, SlotsApart, Holds, Assured;
      if Accepts(n, ShapeOf(was), results) {
        QuietMeans(n, was, results);
      }
      s.labels := [Label(n.inst.name, |s.stack|)] + s.labels;
      ShowsHolds(s.globals, s.locals, s.stack, was.(labels := s.labels));
    }

    method StepReturn(n: Node, s: ReachDefinition, ghost was: State)
      requires Held(s) && s.Is(was) && n.inst.Return? && results <= 1 && results <= |s.stack|
      modifies this`edges
      ensures Held(s) && Visited(n, s, was)
    {
      hide Builder.Sound, Accepts, Result, Recorded, Visit, ShapeAfter, EdgesTo, EdgesFromAll, Through, Union, RemoveConsts, Own, SlotsApart, Holds, Assured;
      AcceptsReturn(n, was);
      if Accepts(n, ShapeOf(was), results) {
        QuietMeans(n, was, results);
      }
      if results == 1 {
        Record(s.stack[0], n);
      }
      ShowsHolds(s.globals, s.locals, s.stack, was);
    }

    lemma DropApart(s: ReachDefinition)
      requires s.stack != []
      ensures Objects(s.stack[1..]) <= Objects(s.stack)
      ensures s.Apart() ==> SlotsApart(s.globals, s.locals, s.stack[1..])
    {
      assert forall d :: d in Objects(s.stack[1..]) ==> d in Objects(s.stack);
      if s.Apart() {
        LeftApart(s.globals, s.locals, s.stack, 1);
      }
    }

    lemma AcceptsReturn(n: Node, was: State)
      ensures n.inst.Return? && Accepts(n, ShapeOf(was), results) ==> results == |was.stack|
    {
    }

    // Instructions that put a value in place of their operands.
    method StepValue(n: Node, s: ReachDefinition, ghost was: State)
      requires Held(s) && s.Is(was) && n in graph.Nodes() && |s.stack| >= Pops(n.inst) && IsValue(n.inst)
      modifies this`edges, this`defs, s`stack, s.stack
      ensures Held(s) && Visited(n, s, was)
    {
      hide Builder.Sound, Builder.Visited;
      match n.inst
      case Const(_) => StepMake(n, s, was);
      case MemorySize => StepMake(n, s, was);
      case MemoryGrow => StepLoad(n, s, was);
      case Load => StepLoad(n, s, was);
      case Select => StepSelect(n, s, was);
      case Binary => StepBinary(n, s, was);
      case Compare => StepBinary(n, s, was);
      case Convert => StepUnary(n, s, was);
      case Unary => StepUnary(n, s, was);
    }

    // Whether the assertions of the visit hold; those of getReachDef have
    // dropped the labels at the return node.
    predicate CanVisit(n: Node, s: ReachDefinition)
      reads s
    {
      && (Pops(n.inst) > 0 ==> HasRoom(s.Size(), Pops(n.inst)))
      && match n.inst
         case GlobalGet(name) => name in s.globals
         case LocalGet(name) => name in s.locals
         case Call(_, _, nresults) => nresults <= 1
         case CallIndirect(_, nargs, nresults) => nargs > 0 && nresults <= 1
         case Return => Room(s.Size()) == Some(results) && results <= 1
         case Start => false
         case Unreachable => false
         case _ => true
    }

    lemma AcceptsIsEnough(n: Node, s: ReachDefinition)
      requires !n.inst.Start? && !n.inst.Unreachable? && Accepts(n, s.Size(), results)
      ensures CanVisit(n, s)
    {
    }

    lemma RoomForAll(n: Node, s: ReachDefinition)
      requires CanVisit(n, s)
      ensures |s.stack| >= Pops(n.inst) && (n.inst.Return? ==> results <= 1 && results <= |s.stack|)
      ensures IsCall(n) ==> |s.stack| >= n.inst.nargs && n.inst.nresults <= 1
    {
    }

    // The visit behind the wait check.
    method Dispatch(n: Node, s: ReachDefinition, ghost was: State)
      requires Held(s) && s.Is(was) && n in graph.Nodes() && CanVisit(n, s)
      modifies this`edges, this`defs, s, s.stack
      ensures Held(s) && Visited(n, s, was)
      ensures Within(old(edges), edges) && old(defs) <= defs && fresh(defs - old(defs))
    {
      hide Builder.Sound;
      RoomForAll(n, s);
      var i := n.inst;
      if IsValue(i) {
        StepValue(n, s, was);
      } else if i.Drop? {
        StepDrop(n, s, was);
      } else if i.BeginBlock? {
        StepBegin(n, s, was);
      } else if i.Return? {
        StepReturn(n, s, was);
      } else if i.GlobalGet? {
        StepGet(n, s, s.globals[i.name], was);
      } else if i.LocalGet? {
        StepGet(n, s, s.locals[i.name], was);
      } else if i.GlobalSet? || i.LocalSet? {
        StepSet(n, s, was);
      } else if i.LocalTee? {
        StepTee(n, s, was);
      } else if i.Call? || i.CallIndirect? {
        StepCall(n, s, was);
      } else {
        StepTake(n, s, was);
      }
    }

    // False where an assertion fails.
    method Apply(n: Node, s: ReachDefinition, ghost was: State) returns (ok: bool)
      requires Valid() && s in states && s.Is(was) && n in graph.Nodes() && !n.inst.Start? && !n.inst.Unreachable?
      modifies this`edges, this`defs, s, s.Parts()
      ensures Valid() && Grown() && Within(old(edges), edges)
      ensures Accepts(n, ShapeOf(was), results) ==> ok
      ensures ok ==> Visited(n, s, was)
    {
      ok := CanVisit(n, s);
      if Accepts(n, ShapeOf(was), results) {
        AcceptsIsEnough(n, s);
      }
      if ok {
        VisitInst(n, s, was);
      }
    }

    lemma StackIsParts(s: ReachDefinition)
      ensures forall d :: d in s.stack ==> d in s.Parts()
    {
    }

    method VisitInst(n: Node, s: ReachDefinition, ghost was: State)
      requires Valid() && s in states && s.Is(was) && n in graph.Nodes() && CanVisit(n, s)
      modifies this`edges, this`defs, s, s.Parts()
      ensures Valid() && Grown() && Visited(n, s, was)
    {
      StackIsParts(s);
      hide Builder.Sound, Builder.Visited, Builder.CanVisit, Shows, ReachDefinition.Parts, ReachDefinition.Vars, Objects;
      Dispatch(n, s, was);
    }

    // ----- copies of states -----

    lemma CopyIsSound(c: ReachDefinition, s: ReachDefinition)
      requires Sound() && s.Vars() <= defs + kept && CopyOf(c, s)
      ensures AllSound(c.Vars())
    {
      CopyHasSize(c, s);
      forall x | x in c.globals
        ensures Traced(edges, c.globals[x].def) && c.globals[x].def.Keys <= graph.Nodes()
      {
        assert Values(c.globals)[x] == Values(s.globals)[x] && s.globals[x] in s.Vars();
        SoundAt(s.globals[x]);
      }
      forall x | x in c.locals
        ensures Traced(edges, c.locals[x].def) && c.locals[x].def.Keys <= graph.Nodes()
      {
        assert Values(c.locals)[x] == Values(s.locals)[x] && s.locals[x] in s.Vars();
        SoundAt(s.locals[x]);
      }
    }

    ghost predicate AllSound(ds: set<Definition>)
      reads `edges, ds
    {
      forall d :: d in ds ==> Traced(edges, d.def) && d.def.Keys <= graph.Nodes()
    }

    // A copy with variables of its own becomes known: it flows on, or is kept.
    ghost method Register(c: ReachDefinition, s: ReachDefinition, flows: bool)
      requires Valid() && s in states + saved && c !in states + saved && c.stack == s.stack && c.Vars() !! defs + kept && AllSound(c.Vars())
      modifies this`defs, this`kept, this`states, this`saved
      ensures Valid()
      ensures defs == (if flows then old(defs) + c.Vars() else old(defs)) && states == if flows then old(states) + {c} else old(states)
      ensures kept == (if flows then old(kept) else old(kept) + c.Vars()) && saved == if flows then old(saved) else old(saved) + {c}
    {
      hide Objects, ReachDefinition.Vars, Traced;
      if flows {
        defs, states := defs + c.Vars(), states + {c};
      } else {
        kept, saved := kept + c.Vars(), saved + {c};
      }
    }

    // A copy that flows on.
    method Copy(s: ReachDefinition) returns (c: ReachDefinition)
      requires Valid() && s in states + saved
      modifies this`defs, this`kept, this`states, this`saved
      ensures Valid() && fresh(c) && states == old(states) + {c} && defs == old(defs) + c.Vars() && kept == old(kept) && saved == old(saved)
      ensures fresh(c.Vars()) && c.Vars() !! old(defs) && CopyOf(c, s) && VarsApart(c.globals, c.locals)
    {
      hide Builder.Sound, Builder.Placed, Builder.AllSound, CopyOf, VarsApart, Objects, ReachDefinition.Vars;
      c := s.Clone();
      CopyIsSound(c, s);
      SameOperands(c, s);
      Register(c, s, true);
    }

    lemma SameOperands(c: ReachDefinition, s: ReachDefinition)
      requires CopyOf(c, s)
      ensures c.stack == s.stack
    {
    }

    // A copy that is kept.
    method Keep(s: ReachDefinition) returns (c: ReachDefinition)
      requires Valid() && s in states
      modifies this`defs, this`kept, this`states, this`saved
      ensures Valid() && fresh(c) && saved == old(saved) + {c} && kept == old(kept) + c.Vars() && defs == old(defs) && states == old(states)
      ensures fresh(c.Vars()) && CopyOf(c, s)
    {
      hide Builder.Sound, Builder.Placed, Builder.AllSound, CopyOf, VarsApart, Objects, ReachDefinition.Vars;
      c := s.Clone();
      CopyIsSound(c, s);
      SameOperands(c, s);
      Register(c, s, false);
    }

    // ----- unions of states -----

    // Entries that are there stay as they are.
    twostate predicate Grew(d: Definition)
      reads d
    {
      forall k :: k in old(d.def) ==> k in d.def && d.def[k] == old(d.def[k])
    }

    method MergeInto(d: Definition, other: Definition)
      requires Sound() && d in defs && other in defs + kept
      modifies d
      ensures Sound() && old(other.def).Keys <= d.def.Keys && Grew(d) && d.def == Union(old(d.def), old(other.def))
    {
      Merge(d, other);
    }

    // Merges definitions slot by slot. If none of them serves two slots, the
    // merges do not meddle with one another.
    method UnionSlots(slots: map<Slot, Definition>, others: map<Slot, Definition>)
      requires Sound() && slots.Values <= defs && others.Values <= defs + kept && others.Keys <= slots.Keys
      modifies slots.Values
      ensures Sound() && forall d :: d in defs + kept ==> Grew(d)
      ensures forall x :: x in others ==> old(others[x].def).Keys <= slots[x].def.Keys
      ensures Unmixed(slots, others) && slots.Keys == others.Keys ==>
                forall x :: x in slots ==> slots[x].def == Union(old(slots[x].def), old(others[x].def)) && others[x].def == old(others[x].def)
    {
      hide Builder.Sound, Builder.Linked, Union, WfDef, ReachDefinition.Parts;
      ghost var apart := Unmixed(slots, others);
      var todo := others.Keys;
      while todo != {}
        invariant Sound() && todo <= others.Keys && forall d :: d in defs + kept ==> Grew(d)
        invariant forall x :: x in others.Keys - todo ==> old(others[x].def).Keys <= slots[x].def.Keys
        invariant apart ==> forall x :: x in todo ==> others[x].def == old(others[x].def)
        invariant apart ==> forall x :: x in slots ==>
                    slots[x].def == if x in others.Keys - todo then Union(old(slots[x].def), old(others[x].def)) else old(slots[x].def)
        decreases todo
      {
        var x :| x in todo;
        assert slots[x] in slots.Values && others[x] in others.Values;
        MergeInto(slots[x], others[x]);
        todo := todo - {x};
      }
      forall x | x in others && slots.Keys == others.Keys && apart
        ensures others[x].def == old(others[x].def)
      {
        if others[x] == slots[x] {
          UnionWithItself(old(others[x].def));
        } else {
          assert forall y :: y in slots ==> slots[y] != others[x];
        }
      }
    }

    // Whether the assertions of unionDef hold.
    predicate Agree(s: ReachDefinition, other: ReachDefinition)
      reads s, other
    {
      && other.globals.Keys <= s.globals.Keys && other.locals.Keys <= s.locals.Keys
      && |s.stack| == |other.stack| && s.labels == other.labels
    }

    // unionDef: afterwards every slot of `s` has at least what it had and
    // what the same slot of `other` had, and nothing else if no definition
    // serves different slots.
    method UnionStates(s: ReachDefinition, other: ReachDefinition, ghost was: State, ghost theirs: State) returns (ok: bool)
      requires Valid() && s in states && other in states + saved && s.Is(was) && other.Is(theirs)
      modifies s.Parts()
      ensures Valid() && ok == Agree(s, other) && (ShapeOf(was) == ShapeOf(theirs) ==> ok)
      ensures forall d :: d in defs + kept ==> Grew(d)
      ensures Covers(s.Snap(), was) && (ok ==> Covers(s.Snap(), theirs))
      ensures ShapeOf(was) == ShapeOf(theirs) && Unmixed(SlotsOf(s), SlotsOf(other)) ==> s.Is(UnionState(was, theirs)) && other.Is(theirs)
    {
      hide Builder.Sound, Shows, SlotsOf, Unmixed, UnionState, Covers;
      IsSnap(s, was);
      SizeIs(s, was);
      SizeIs(other, theirs);
      CoversItself(was);
      if !Agree(s, other) {
        return false;
      }
      UniteSlots(s, other, was, theirs);
      return true;
    }

    method UniteSlots(s: ReachDefinition, other: ReachDefinition, ghost was: State, ghost theirs: State)
      requires Sound() && s.Parts() <= defs && other.Parts() <= defs + kept && Agree(s, other) && s.Is(was) && other.Is(theirs)
      modifies s.Parts()
      ensures Sound() && Covers(s.Snap(), was) && Covers(s.Snap(), theirs) && forall d :: d in defs + kept ==> Grew(d)
      ensures ShapeOf(was) == ShapeOf(theirs) && Unmixed(SlotsOf(s), SlotsOf(other)) ==> s.Is(UnionState(was, theirs)) && other.Is(theirs)
    {
      hide Builder.Sound, Union, UnionState, Shows, Unmixed, SlotsOf, At, Covers, Objects, ReachDefinition.Parts;
      SlotsShow(s, was);
      SlotsShow(other, theirs);
      SlotsAgree(s, other);
      SlotsAreParts(s);
      SlotsAreParts(other);
      UnionSlots(SlotsOf(s), SlotsOf(other));
      forall slot | HasSlot(was, slot)
        ensures slot in SlotsOf(s) && At(was, slot).Keys <= SlotsOf(s)[slot].def.Keys
      {
        assert SlotsOf(s)[slot] in SlotsOf(s).Values && Grew(SlotsOf(s)[slot]);
      }
      assert HasOrigins(s, was);
      assert HasOrigins(s, theirs);
      OriginsCover(s, was);
      OriginsCover(s, theirs);
      if ShapeOf(was) == ShapeOf(theirs) && Unmixed(SlotsOf(s), SlotsOf(other)) {
        UnitedIs(s, was, theirs);
        assert SlotsAre(other, theirs);
        SlotsShow(other, theirs);
      }
    }

    lemma UnitedIs(s: ReachDefinition, was: State, theirs: State)
      requires ShapeOf(was) == ShapeOf(theirs) && s.labels == was.labels
      requires forall slot :: slot in SlotsOf(s) <==> HasSlot(was, slot)
      requires forall slot :: slot in SlotsOf(s) ==> HasSlot(theirs, slot) && SlotsOf(s)[slot].def == Union(At(was, slot), At(theirs, slot))
      ensures s.Is(UnionState(was, theirs))
    {
      hide UnionState, SlotsOf, At, Shows, Union;
      var v := UnionState(was, theirs);
      SlotsShow(s, v);
      forall slot {
        UnionSlot(was, theirs, slot);
      }
      assert SlotsAre(s, v);
    }

    lemma UnionSlot(s: State, t: State, slot: Slot)
      requires ShapeOf(s) == ShapeOf(t)
      ensures HasSlot(UnionState(s, t), slot) <==> HasSlot(s, slot)
      ensures UnionState(s, t).labels == s.labels
      ensures HasSlot(s, slot) ==> HasSlot(t, slot) && At(UnionState(s, t), slot) == Union(At(s, slot), At(t, slot))
    {
    }

    lemma SlotsAgree(s: ReachDefinition, other: ReachDefinition)
      requires Agree(s, other)
      ensures SlotsOf(other).Keys <= SlotsOf(s).Keys
    {
    }

    // ----- arriving at an instruction -----

    predicate FirstVisit(n: Node)
      reads `loops
    {
      n.inst.LoopHead? && n !in loops
    }

    // On the first visit to a loop its label is put up; later it is renewed.
    function Arrival(n: Node, sh: Shape): Option<Shape>
      reads `loops
    {
      ShapeComing(n, sh, loops.Keys)
    }

    function ShapeComing(n: Node, sh: Shape, known: set<Node>): Option<Shape> {
      if n.inst.LoopHead? && n !in known then Some(sh.(labels := [Label(n.inst.name, sh.height)] + sh.labels))
      else ShapeOnArrival(n, sh, results)
    }

    // getReachDef, first part: brings one state to the label list of `n`.
    method Normalize(n: Node, s: ReachDefinition, ghost was: State) returns (ok: bool)
      requires Valid() && s in states && s.Is(was)
      modifies s`stack, s`labels
      ensures Valid() && ok == Arrival(n, ShapeOf(was)).Some?
      ensures ok ==> s.Size() == Arrival(n, ShapeOf(was)).value && s.Parts() <= old(s.Parts()) && (old(s.Apart()) ==> s.Apart())
      ensures ok ==> if FirstVisit(n) then s.Is(was.(labels := s.labels)) else s.Is(Arrive(n, was, results))
      ensures ok ==> s.stack == OperandsLeft(n, ShapeOf(was), old(s.stack))
    {
      hide Builder.Sound, ShapeOnArrival, Arrive, Kept, Shows, SlotsApart, Objects, Surviving;
      SizeIs(s, was);
      if FirstVisit(n) {
        s.labels := [Label(n.inst.name, |s.stack|)] + s.labels;
        SameButLabels(s, was);
        return true;
      }
      var sh := ShapeOnArrival(n, s.Size(), results);
      if sh.None? {
        return false;
      }
      DropMiddle(n, s, was, sh.value);
      return true;
    }

    // The operands that a state of this shape has after arrival.
    function OperandsLeft(n: Node, sh: Shape, stack: seq<Definition>): seq<Definition>
      reads `loops
    {
      if FirstVisit(n) then stack else Surviving(n, sh, stack, results)
    }

    method DropMiddle(n: Node, s: ReachDefinition, ghost was: State, sh: Shape)
      requires s.Is(was) && ShapeOnArrival(n, ShapeOf(was), results) == Some(sh)
      modifies s`stack, s`labels
      ensures s.Size() == sh && s.Parts() <= old(s.Parts()) && (old(s.Apart()) ==> s.Apart()) && s.Is(Arrive(n, was, results))
      ensures s.stack == Surviving(n, ShapeOf(was), old(s.stack), results)
    {
      hide ShapeOnArrival, Arrive, Kept, Shows, SlotsApart, Objects;
      SizeIs(s, was);
      ArriveMeans(n, was, results);
      var k := Kept(n, results);
      ghost var m := |s.stack| - (sh.height - k);
      MiddleDropped(s.globals, s.locals, s.stack, k, m);
      MiddleShows(s.globals, s.locals, s.stack, was, k, m, sh.labels);
      s.stack := s.stack[..k] + s.stack[|s.stack| - (sh.height - k)..];
      s.labels := sh.labels;
      SizeIs(s, Arrive(n, was, results));
    }

    lemma SizeIs(s: ReachDefinition, v: State)
      requires s.Is(v)
      ensures s.Size() == ShapeOf(v)
    {
    }

    lemma SameButLabels(s: ReachDefinition, v: State)
      requires Shows(s.globals, s.locals, s.stack, v)
      ensures s.Size() == ShapeOf(v).(labels := s.labels) && s.Is(v.(labels := s.labels))
    {
    }

    function Delivered(n: Node): set<ReachDefinition>
      reads `reachDef
    {
      Among(reachDef, n)
    }

    // What a state has become on arrival.
    twostate predicate Arrived(n: Node, t: ReachDefinition, was: State)
      reads this, t, t.globals.Values, t.locals.Values, t.stack
    {
      && Arrival(n, ShapeOf(was)) == Some(t.Size()) && t.Parts() <= old(t.Parts()) && (old(t.Apart()) ==> t.Apart())
      && (!FirstVisit(n) ==> ShapeOnArrival(n, ShapeOf(was), results).Some? && t.Is(Arrive(n, was, results)))
      && (FirstVisit(n) ==> t.Is(was.(labels := t.labels)))
      && t.stack == OperandsLeft(n, ShapeOf(was), old(t.stack))
    }

    // `came` are the states at `n`, as values.
    method NormalizeAll(n: Node, ghost came: map<ReachDefinition, State>) returns (ok: bool)
      requires Valid() && came.Keys == Delivered(n) && forall t :: t in came ==> t.Is(came[t])
      modifies Delivered(n)
      ensures Valid() && ok == forall t :: t in came ==> Arrival(n, ShapeOf(came[t])).Some?
      ensures ok ==> forall t :: t in came ==> Arrived(n, t, came[t])
    {
      hide ReachDefinition.Size, Builder.Owned, Builder.Sound, Builder.Placed, Shows, SlotsApart, Objects, ShapeOnArrival, Arrive, ReachDefinition.Parts, Builder.OperandsLeft;
      DeliveredAreStates(n);
      var todo := Delivered(n);
      while todo != {}
        invariant Valid() && todo <= Delivered(n)
        invariant forall t :: t in todo ==> unchanged(t) && t.Is(came[t])
        invariant forall t :: t in came && t !in todo ==> Arrived(n, t, came[t])
        decreases todo
      {
        var t :| t in todo;
        var fine := Normalize(n, t, came[t]);
        if !fine { return false; }
        todo := todo - {t};
      }
      return true;
    }

    // Unites what was delivered into one of the states, in any order. That
    // state then has every origin of every slot that one of them had; if no
    // definition serves two slots, it has no others.
    method UniteAll(n: Node, ghost came: map<ReachDefinition, State>) returns (ok: bool, s: ReachDefinition, ghost joined: State)
      requires Valid() && Delivered(n) != {} && came.Keys == Delivered(n) && forall t :: t in came ==> t.Is(came[t])
      modifies this`reachDef, AllParts(Delivered(n))
      ensures Valid() && s in old(Delivered(n)) && s.Is(joined) && (ok ==> reachDef == old(reachDef)[n := {s}])
      ensures ok ==> forall t :: t in came ==> Covers(joined, came[t])
      ensures SameShapes(came) ==> ok && ShapeOf(joined) == ShapeOf(came[s])
      ensures SameShapes(came) && old(Separate(Delivered(n))) ==> JoinsAll(came, joined)
      ensures s.Parts() <= old(AllParts(Delivered(n))) && (old(Separate(Delivered(n))) ==> s.Apart())
    {
      hide Builder.Sound, Builder.Owned, Covers, Shows, SlotsApart, Objects, JoinsAll, SameShapes, Separate, ReachDefinition.Parts;
      ghost var all := Delivered(n);
      ok, s, joined := UniteSet(Delivered(n), came);
      OneOfAll(all, s);
      if ok {
        reachDef := reachDef[n := {s}];
      }
    }

    lemma OneOfAll(all: set<ReachDefinition>, s: ReachDefinition)
      requires s in all
      ensures s.Parts() <= AllParts(all) && (Separate(all) ==> s.Apart())
    {
    }

    method UniteSet(all: set<ReachDefinition>, ghost came: map<ReachDefinition, State>) returns (ok: bool, s: ReachDefinition, ghost joined: State)
      requires Valid() && all <= states && all != {} && came.Keys == all && forall t :: t in came ==> t.Is(came[t])
      modifies AllParts(all)
      ensures Valid() && s in all && s.Is(joined)
      ensures ok ==> forall t :: t in came ==> Covers(joined, came[t])
      ensures SameShapes(came) ==> ok && ShapeOf(joined) == ShapeOf(came[s])
      ensures SameShapes(came) && old(Separate(all)) ==> JoinsAll(came, joined)
    {
      hide Builder.Sound, Builder.Linked, Covers, Shows, SlotsApart, Objects, JoinsAll, SlotsOf, ReachDefinition.Parts, ReachDefinition.Snap, Separate;
      ghost var sep := SameShapes(came) && Separate(all);
      var todo := all;
      s :| s in todo;
      ok, todo := true, todo - {s};
      joined := came[s];
      StartUniting(all, came, s, todo, sep);
      while todo != {}
        invariant Uniting(all, came, s, todo, joined, sep)
        decreases todo
      {
        var t :| t in todo;
        ok, joined := UniteStep(all, came, s, t, todo, joined, sep);
        if !ok { return; }
        todo := todo - {t};
      }
      assert came - {} == came;
    }

    // `joined` is what `s` has become, `todo` are the states that are left.
    ghost predicate Uniting(all: set<ReachDefinition>, came: map<ReachDefinition, State>, s: ReachDefinition,
                            todo: set<ReachDefinition>, joined: State, sep: bool)
      requires came.Keys == all
      reads *
    {
      && Valid() && all <= states && s in all && todo <= all - {s} && s.Is(joined)
      && (forall t :: t in all - todo ==> Covers(joined, came[t]))
      && (forall t :: t in todo ==> HasOrigins(t, came[t]) && t.Size() == ShapeOf(came[t]))
      && (SameShapes(came) ==> ShapeOf(joined) == ShapeOf(came[s]))
      && (sep ==> SameShapes(came) && Separate(all) && JoinsAll(came - todo, joined) && forall t :: t in todo ==> t.Is(came[t]))
    }

    lemma StartUniting(all: set<ReachDefinition>, came: map<ReachDefinition, State>, s: ReachDefinition, todo: set<ReachDefinition>, sep: bool)
      requires Valid() && all <= states && came.Keys == all && (forall t :: t in came ==> t.Is(came[t]))
      requires s in all && todo == all - {s} && (sep ==> SameShapes(came) && Separate(all))
      ensures Uniting(all, came, s, todo, came[s], sep)
    {
      hide Builder.Sound, Builder.Linked, Covers, Shows, SlotsApart, Objects, JoinsAll, ReachDefinition.Parts, ReachDefinition.Snap, Separate;
      CoversItself(came[s]);
      JoinsItself(came, s);
      forall t | t in todo
        ensures HasOrigins(t, came[t]) && t.Size() == ShapeOf(came[t])
      {
        IsSnap(t, came[t]);
        CoversItself(came[t]);
        OriginsCover(t, came[t]);
        SizeIs(t, came[t]);
      }
    }

    // None of these definitions belongs to the state.
    ghost predicate Elsewhere(ds: set<Definition>, s: ReachDefinition)
      reads s
    {
      && (forall x :: x in s.globals ==> s.globals[x] !in ds) && (forall x :: x in s.locals ==> s.locals[x] !in ds)
      && (forall i :: 0 <= i < |s.stack| ==> s.stack[i] !in ds)
    }

    lemma PartsIn(all: set<ReachDefinition>, s: ReachDefinition, t: ReachDefinition)
      requires s in all && t in all && s != t
      ensures s.Parts() <= AllParts(all) && (Separate(all) ==> s.Apart() && t.Apart() && s.Parts() !! t.Parts() && Elsewhere(s.Parts(), t))
    {
      assert forall x :: x in t.globals ==> t.globals[x] in t.Parts();
      assert forall x :: x in t.locals ==> t.locals[x] in t.Parts();
      assert forall i :: 0 <= i < |t.stack| ==> t.stack[i] in t.Parts();
    }

    method UniteStep(all: set<ReachDefinition>, ghost came: map<ReachDefinition, State>, s: ReachDefinition, t: ReachDefinition,
                     ghost todo: set<ReachDefinition>, ghost joined: State, ghost sep: bool)
      returns (ok: bool, ghost next: State)
      requires came.Keys == all && Uniting(all, came, s, todo, joined, sep) && t in todo
      modifies s.Parts()
      ensures Valid() && s.Is(next) && (SameShapes(came) ==> ok)
      ensures ok ==> Uniting(all, came, s, todo - {t}, next, sep)
    {
      hide Builder.Sound, Builder.Linked, Covers, Shows, SlotsApart, Objects, JoinsAll, SlotsOf, ReachDefinition.Snap, Separate;
      forall u | u in todo
        ensures sep ==> Elsewhere(s.Parts(), u) && s.Apart() && u.Apart() && s.Parts() !! u.Parts()
      {
        PartsIn(all, s, u);
      }
      InStates(all, s, t);
      OriginsCover(t, came[t]);
      ok, next := UniteNext(s, t, joined, came[t], sep);
      if ok {
        OneMoreJoined(all, came, t, todo, joined, next, sep);
        forall u | u in todo - {t}
          ensures HasOrigins(u, came[u])
        {
          InStates(all, u, u);
          SlotsAreParts(u);
          forall slot | HasSlot(came[u], slot)
            ensures slot in SlotsOf(u) && At(came[u], slot).Keys <= SlotsOf(u)[slot].def.Keys
          {
            assert SlotsOf(u)[slot] in SlotsOf(u).Values && Grew(SlotsOf(u)[slot]);
          }
        }
      }
    }

    lemma OneMoreJoined(all: set<ReachDefinition>, came: map<ReachDefinition, State>, t: ReachDefinition, todo: set<ReachDefinition>,
                        joined: State, next: State, sep: bool)
      requires came.Keys == all && t in todo && todo <= all && Covers(next, joined) && Covers(next, came[t])
      requires forall u :: u in all - todo ==> Covers(joined, came[u])
      requires sep ==> ShapeOf(joined) == ShapeOf(came[t]) && JoinsAll(came - todo, joined) && next == UnionState(joined, came[t])
      ensures forall u :: u in all - (todo - {t}) ==> Covers(next, came[u])
      ensures sep ==> JoinsAll(came - (todo - {t}), next)
    {
      hide Covers, JoinsAll, UnionState;
      forall u | u in all - todo
        ensures Covers(next, came[u])
      {
        CoversMore(next, joined, came[u]);
      }
      if sep {
        JoinOne(came - todo, joined, t, came[t]);
        OneFewer(came, todo, t);
      }
    }

    lemma InStates(all: set<ReachDefinition>, s: ReachDefinition, t: ReachDefinition)
      requires Valid() && all <= states && s in all && t in all
      ensures s in states && t in states && s.Parts() <= defs
    {
    }

    method UniteNext(s: ReachDefinition, t: ReachDefinition, ghost joined: State, ghost was: State, ghost sep: bool)
      returns (ok: bool, ghost next: State)
      requires Valid() && s in states && t in states && s.Is(joined) && Covers(t.Snap(), was) && t.Size() == ShapeOf(was)
      requires sep ==> t.Is(was) && s.Apart() && t.Apart() && s.Parts() !! t.Parts()
      modifies s.Parts()
      ensures Valid() && s.Is(next) && Covers(next, joined) && (ok ==> Covers(next, was))
      ensures forall d :: d in defs + kept ==> Grew(d)
      ensures ShapeOf(joined) == ShapeOf(was) ==> ok && ShapeOf(next) == ShapeOf(joined) && (sep ==> next == UnionState(joined, was))
    {
      hide Builder.Sound, Covers, Shows, SlotsApart, Objects, SlotsOf, UnionState, Unmixed;
      ghost var theirs := t.Snap();
      IsSnap(t, was);
      SizeIs(s, joined);
      if sep {
        ApartUnmixed(s, t);
      }
      ok := UnionStates(s, t, joined, theirs);
      next := s.Snap();
      IsSnap(s, next);
      SizeIs(s, next);
      if ok {
        CoversMore(next, theirs, was);
        if ShapeOf(joined) == ShapeOf(was) {
          IsSnap(s, UnionState(joined, theirs));
        }
      }
    }

    // The values that the states at `n` take on arrival.
    ghost function ArrivedValues(n: Node, came: map<ReachDefinition, State>): (r: map<ReachDefinition, State>)
      ensures r.Keys == came.Keys
    {
      map t | t in came :: if ShapeOnArrival(n, ShapeOf(came[t]), results).Some? then Arrive(n, came[t], results) else came[t]
    }

    static ghost predicate CoversAll(joined: State, values: map<ReachDefinition, State>) {
      forall t :: t in values ==> Covers(joined, values[t])
    }

    // All states at `n` come to the same size.
    ghost predicate AllCome(n: Node, came: map<ReachDefinition, State>, sh: Shape)
      reads `loops
    {
      came != map[] && forall t :: t in came ==> Arrival(n, ShapeOf(came[t])) == Some(sh)
    }

    // getReachDef: normalizes what was delivered and unites it into one of
    // the states. If no definition serves two slots, the result has the
    // origins that the states have on arrival, and no others.
    method GetReachDef(n: Node, ghost came: map<ReachDefinition, State>, ghost sh: Shape)
      returns (ok: bool, s: ReachDefinition?, ghost joined: State)
      requires Valid() && came.Keys == Delivered(n) && forall t :: t in came ==> t.Is(came[t])
      modifies this`reachDef, Delivered(n), AllParts(Delivered(n))
      ensures Valid()
      ensures ok ==> s != null && s in old(Delivered(n)) && reachDef == old(reachDef)[n := {s}] && s.Is(joined)
      ensures ok ==> s.Parts() <= old(AllParts(Delivered(n)))
      ensures AllCome(n, came, sh) ==> ok && ShapeOf(joined) == sh
      ensures ok && AllCome(n, came, sh) && old(Separate(Delivered(n))) ==>
                s.Apart() && (!FirstVisit(n) ==> JoinsAll(ArrivedValues(n, came), joined))
      ensures ok ==> s.stack == OperandsLeft(n, ShapeOf(came[s]), old(s.stack)) && CoversAll(joined, if FirstVisit(n) then came else ArrivedValues(n, came))
    {
      hide Builder.OperandsLeft, Surviving;
      hide Builder.Sound, Builder.Linked, Shows, SlotsApart, Objects, JoinsAll, ReachDefinition.Parts, ReachDefinition.Snap, Separate, AllParts, SameShapes,
           Covers, Builder.Arrival, Builder.Arrived, ShapeOnArrival, Arrive, Builder.AllCome, Builder.FirstVisit, Builder.Valid, Builder.ArrivedValues, Builder.CoversAll, ReachDefinition.Size, ReachDefinition.Is;
      joined, s := State(map[], map[], [], []), null;
      ok := PrepareAll(n, came);
      if !ok || Delivered(n) == {} {
        NotAllCome(n, came, sh, ok);
        return false, null, joined;
      }
      ok, s, joined := UniteThere(n, came, sh);
    }

    // What has arrived is united.
    method UniteThere(n: Node, ghost came: map<ReachDefinition, State>, ghost sh: Shape)
      returns (ok: bool, s: ReachDefinition, ghost joined: State)
      requires Valid() && Delivered(n) != {} && came.Keys == Delivered(n) && forall t :: t in came ==> Arrival(n, ShapeOf(came[t])) == Some(t.Size())
      requires !FirstVisit(n) ==> forall t :: t in came ==> t.Is(ArrivedValues(n, came)[t])
      requires FirstVisit(n) ==> forall t :: t in came ==> t.Is(came[t].(labels := t.labels))
      modifies this`reachDef, AllParts(Delivered(n))
      ensures Valid() && s in old(Delivered(n)) && s.Is(joined) && (ok ==> reachDef == old(reachDef)[n := {s}])
      ensures s.Parts() <= old(AllParts(Delivered(n))) && (old(Separate(Delivered(n))) ==> s.Apart())
      ensures AllCome(n, came, sh) ==> ok && ShapeOf(joined) == sh
      ensures AllCome(n, came, sh) && old(Separate(Delivered(n))) && !FirstVisit(n) ==> JoinsAll(ArrivedValues(n, came), joined)
      ensures ok ==> CoversAll(joined, if FirstVisit(n) then came else ArrivedValues(n, came))
    {
      hide Builder.Sound, Builder.Linked, Shows, SlotsApart, Objects, JoinsAll, ReachDefinition.Parts, ReachDefinition.Snap, ReachDefinition.Size, Separate, AllParts, SameShapes,
           Covers, Builder.Arrival, ShapeOnArrival, Arrive, Builder.AllCome, Builder.FirstVisit, Builder.Valid, Builder.ArrivedValues;
      ghost var now := Snaps(Delivered(n));
      if AllCome(n, came, sh) {
        ShapesAgree(n, came, now, sh);
      }
      if FirstVisit(n) {
        SnapsCover(now, came);
      } else {
        SnapsAre(now, ArrivedValues(n, came));
      }
      ok, s, joined := UniteAll(n, now);
      CoversFirst(joined, now, came);
    }

    // The labels say nothing about origins.
    lemma SnapsCover(now: map<ReachDefinition, State>, came: map<ReachDefinition, State>)
      requires now.Keys == came.Keys && forall t :: t in now ==> t.Is(now[t]) && t.Is(came[t].(labels := t.labels))
      ensures EachCovers(now, came)
    {
      forall t | t in now
        ensures Covers(now[t], came[t])
      {
        IsSnap(t, now[t]);
        IsSnap(t, came[t].(labels := t.labels));
      }
    }

    static ghost predicate EachCovers(values: map<ReachDefinition, State>, others: map<ReachDefinition, State>) {
      forall t :: t in others ==> t in values && Covers(values[t], others[t])
    }

    static lemma CoversFirst(joined: State, now: map<ReachDefinition, State>, came: map<ReachDefinition, State>)
      ensures CoversAll(joined, now) && EachCovers(now, came) ==> CoversAll(joined, came)
    {
      if CoversAll(joined, now) && EachCovers(now, came) {
        forall t | t in came
          ensures Covers(joined, came[t])
        {
          CoversMore(joined, now[t], came[t]);
        }
      }
    }

    lemma NotAllCome(n: Node, came: map<ReachDefinition, State>, sh: Shape, ok: bool)
      requires ok == (forall t :: t in came ==> Arrival(n, ShapeOf(came[t])).Some?) && (!ok || came.Keys == {})
      ensures !AllCome(n, came, sh)
    {
    }

    lemma SnapsAre(now: map<ReachDefinition, State>, values: map<ReachDefinition, State>)
      requires now.Keys == values.Keys && (forall t :: t in now ==> t.Is(now[t])) && forall t :: t in values ==> t.Is(values[t])
      ensures now == values
    {
      forall t | t in now
        ensures now[t] == values[t]
      {
        IsSnap(t, now[t]);
        IsSnap(t, values[t]);
      }
    }

    lemma ShapesAgree(n: Node, came: map<ReachDefinition, State>, now: map<ReachDefinition, State>, sh: Shape)
      requires AllCome(n, came, sh) && now.Keys == came.Keys && forall t :: t in now ==> t.Is(now[t])
      requires forall t :: t in came ==> Arrival(n, ShapeOf(came[t])) == Some(t.Size())
      ensures SameShapes(now) && forall t :: t in now ==> ShapeOf(now[t]) == sh
    {
      forall t | t in now
        ensures ShapeOf(now[t]) == sh
      {
        SizeIs(t, now[t]);
        assert Arrival(n, ShapeOf(came[t])) == Some(sh);
      }
    }

    // What normalizing makes of the states together.
    method PrepareAll(n: Node, ghost came: map<ReachDefinition, State>) returns (ok: bool)
      requires Valid() && came.Keys == Delivered(n) && forall t :: t in came ==> t.Is(came[t])
      modifies Delivered(n)
      ensures Valid() && ok == forall t :: t in came ==> Arrival(n, ShapeOf(came[t])).Some?
      ensures ok ==> forall t :: t in came ==> Arrival(n, ShapeOf(came[t])) == Some(t.Size())
      ensures ok && !FirstVisit(n) ==> forall t :: t in came ==> t.Is(ArrivedValues(n, came)[t])
      ensures ok && FirstVisit(n) ==> forall t :: t in came ==> t.Is(came[t].(labels := t.labels))
      ensures ok ==> AllParts(Delivered(n)) <= old(AllParts(Delivered(n)))
      ensures ok && old(Separate(Delivered(n))) ==> Separate(Delivered(n))
      ensures ok ==> forall t :: t in came ==> t.stack == OperandsLeft(n, ShapeOf(came[t]), old(t.stack))
    {
      hide Builder.Sound, Builder.Linked, Shows, SlotsApart, Objects, ReachDefinition.Parts, ShapeOnArrival, Arrive, Builder.Arrival, Builder.OperandsLeft;
      ok := NormalizeAll(n, came);
      if ok {
        assert forall t :: t in came ==> t.Parts() <= old(t.Parts());
        PartsShrink(Delivered(n), old(AllParts(Delivered(n))));
      }
    }

    lemma PartsShrink(all: set<ReachDefinition>, parts: set<Definition>)
      requires forall t :: t in all ==> t.Parts() <= parts
      ensures AllParts(all) <= parts
    {
    }

    ghost function Snaps(states: set<ReachDefinition>): (r: map<ReachDefinition, State>)
      reads *
      ensures r.Keys == states && forall t :: t in r ==> t.Is(r[t])
    {
      map t | t in states :: t.Snap()
    }

    // ----- going on to the successors -----

    // A state that goes on in place of `s`: itself, or a copy with variables
    // that were not known before.
    static ghost predicate Follows(t: ReachDefinition, s: ReachDefinition, before: set<Definition>)
      reads t, s, t.globals.Values, t.locals.Values, s.globals.Values, s.locals.Values
    {
      CopyOf(t, s) && (t == s || (t.Vars() !! before && VarsApart(t.globals, t.locals)))
    }

    // No two of the states are the same or share a variable's definition.
    static ghost predicate Distinguished(sent: map<CfgEdge, ReachDefinition>)
      reads sent.Values
    {
      forall e, f :: e in sent && f in sent && e != f ==> sent[e] != sent[f] && sent[e].Vars() !! sent[f].Vars()
    }

    // The states that were sent along the edges.
    static ghost predicate SentAlong(outs: set<CfgEdge>, s: ReachDefinition, sent: map<CfgEdge, ReachDefinition>, before: set<Definition>)
      reads *
    {
      && sent.Keys == outs && Distinguished(sent) && (outs != {} ==> s in sent.Values)
      && forall e :: e in sent ==> Follows(sent[e], s, before)
    }

    static ghost function Arriving(sent: map<CfgEdge, ReachDefinition>, m: Node): set<ReachDefinition> {
      set e | e in sent && e.dst == m :: sent[e]
    }

    static lemma OneMoreSent(sent: map<CfgEdge, ReachDefinition>, e: CfgEdge, t: ReachDefinition, before: set<Definition>)
      requires e !in sent && Distinguished(sent) && t !in sent.Values
      requires sent == map[] || t.Vars() !! before
      requires forall f :: f in sent ==> sent[f].Vars() <= before
      ensures Distinguished(sent[e := t]) && sent[e := t].Values == sent.Values + {t}
      ensures forall m :: Arriving(sent[e := t], m) == Arriving(sent, m) + if e.dst == m then {t} else {}
    {
      var more := sent[e := t];
      assert more[e] == t && forall f :: f in sent ==> more[f] == sent[f];
      forall f, g | f in more && g in more && f != g
        ensures more[f] != more[g] && more[f].Vars() !! more[g].Vars()
      {
        assert f in sent ==> sent[f] in sent.Values;
        assert g in sent ==> sent[g] in sent.Values;
      }
      forall m
        ensures Arriving(more, m) == Arriving(sent, m) + if e.dst == m then {t} else {}
      {
        assert forall f :: f in sent ==> f in more && more[f] == sent[f];
        assert e in more && more[e] == t;
      }
    }

    // The state itself goes along one edge, copies along the others.
    method Deliver(outs: set<CfgEdge>, s: ReachDefinition) returns (ghost sent: map<CfgEdge, ReachDefinition>)
      requires Valid() && s in states
      modifies this`reachDef, this`defs, this`kept, this`states, this`saved
      ensures Valid() && Grown() && kept == old(kept) && saved == old(saved) && SentAlong(outs, s, sent, old(defs))
      ensures sent.Values <= states && forall e :: e in sent ==> sent[e] == s || fresh(sent[e])
      ensures forall m :: Delivered(m) == old(Delivered(m)) + Arriving(sent, m)
    {
      hide Builder.Sound, Builder.Linked, CopyOf, VarsApart, Objects, ReachDefinition.Vars, Distinguished, Arriving, Among;
      sent := map[];
      assert Distinguished(sent) && forall m :: Arriving(sent, m) == {} by {
        NoneSent();
      }
      var todo, first := outs, true;
      while todo != {}
        invariant Valid() && Grown() && s in states && todo <= outs && kept == old(kept) && saved == old(saved)
        invariant sent.Keys == outs - todo && Distinguished(sent) && sent.Values <= states && (if first then sent == map[] else s in sent.Values)
        invariant forall e :: e in sent ==> Follows(sent[e], s, old(defs)) && (sent[e] == s || fresh(sent[e]))
        invariant forall m :: Delivered(m) == old(Delivered(m)) + Arriving(sent, m)
        decreases todo
      {
        var e :| e in todo;
        ghost var before := defs;
        SentParts(sent);
        var t := SendOne(e, s, first);
        OneMoreSent(sent, e, t, before);
        assert outs - (todo - {e}) == (outs - todo) + {e};
        sent, todo, first := sent[e := t], todo - {e}, false;
      }
    }

    lemma SentParts(sent: map<CfgEdge, ReachDefinition>)
      requires Valid() && sent.Values <= states
      ensures forall e :: e in sent ==> sent[e].Vars() <= defs
    {
      assert forall e :: e in sent ==> sent[e] in sent.Values;
    }

    static lemma NoneSent()
      ensures Distinguished(map[]) && forall m :: Arriving(map[], m) == {}
    {
    }

    method SendOne(e: CfgEdge, s: ReachDefinition, itself: bool) returns (t: ReachDefinition)
      requires Valid() && s in states
      modifies this`reachDef, this`defs, this`kept, this`states, this`saved
      ensures Valid() && Grown() && kept == old(kept) && saved == old(saved) && t in states && Follows(t, s, old(defs)) && (itself ==> t == s) && (!itself ==> fresh(t) && t.Vars() !! old(defs))
      ensures forall m :: Delivered(m) == old(Delivered(m)) + if e.dst == m then {t} else {}
    {
      hide Builder.Sound, Builder.Owned, Objects, VarsApart;
      t := s;
      if !itself {
        t := Copy(s);
      }
      reachDef := reachDef[e.dst := Delivered(e.dst) + {t}];
    }

    // What the builder has before a visit to `n`.
    ghost function Now(n: Node): Before
      reads *
    {
      Before(edges, dfsList, reachDef, defs, states, Separate(Delivered(n)), AllParts(Delivered(n)), Stacks(Delivered(n)), floor)
    }

    // New states, or those of `own`, have gone on along the edges of `n`, and
    // nothing waits there.
    ghost predicate Moved(was: Before, n: Node, own: set<ReachDefinition>, sent: map<CfgEdge, ReachDefinition>)
      reads `states, `reachDef, `dfsList, `loopsStack
    {
      && sent.Keys == graph.OutEdges(n) && sent.Values <= states
      && (forall e :: e in sent ==> sent[e] in own || sent[e] !in was.states)
      && n !in reachDef && (forall m :: m != n ==> Delivered(m) == Among(was.reachDef, m) + Arriving(sent, m))
      && Scheduled(graph.OutEdges(n), was.tasks, dfsList, n, loopsStack)
    }

    // Delivers the state, clears the instruction and puts its successors in
    // front of the worklist.
    method Advance(n: Node, s: ReachDefinition) returns (ghost sent: map<CfgEdge, ReachDefinition>)
      requires Valid() && s in states
      modifies this`reachDef, this`dfsList, this`defs, this`kept, this`states, this`saved
      ensures Valid() && Grown() && kept == old(kept) && saved == old(saved) && SentAlong(graph.OutEdges(n), s, sent, old(defs))
      ensures sent.Values <= states && forall e :: e in sent ==> sent[e] == s || fresh(sent[e])
      ensures Moved(old(Now(n)), n, {s}, sent)
    {
      hide Builder.Sound, Builder.Owned, Builder.Placed, Objects, Scheduled, CopyOf, VarsApart, ReachDefinition.Vars, Distinguished, Arriving, Builder.Follows, Separate, AllParts;
      sent := Deliver(graph.OutEdges(n), s);
      Leave(n);
    }

    method Leave(n: Node)
      requires Valid()
      modifies this`reachDef, this`dfsList
      ensures Valid() && reachDef == old(reachDef) - {n} && Scheduled(graph.OutEdges(n), old(dfsList), dfsList, n, loopsStack)
    {
      hide Builder.Sound, Builder.Owned, Scheduled;
      reachDef := reachDef - {n};
      dfsList := AddTasks(graph.OutEdges(n), dfsList, n, loopsStack);
      TasksInGraph(old(dfsList), dfsList, n);
    }

    static ghost predicate AllSentDiffer(sent: map<CfgEdge, ReachDefinition>) {
      forall e, f :: e in sent && f in sent && e != f ==> sent[e] != sent[f]
    }

    static lemma SentDiffer(outs: set<CfgEdge>, s: ReachDefinition, sent: map<CfgEdge, ReachDefinition>, before: set<Definition>)
      requires SentAlong(outs, s, sent, before)
      ensures sent.Keys == outs && AllSentDiffer(sent)
    {
    }

    lemma TasksInGraph(before: seq<Task>, after: seq<Task>, n: Node)
      requires Scheduled(graph.OutEdges(n), before, after, n, loopsStack)
      requires forall t :: t in before ==> t.node in graph.Nodes()
      ensures forall t :: t in after ==> t.node in graph.Nodes()
    {
      var order :| Lists(order, graph.OutEdges(n)) && after == TasksOf(order, n, loopsStack) + before;
      forall t | t in after && t !in before
        ensures t.node in graph.Nodes()
      {
        var i :| 0 <= i < |order| && t == TasksOf(order, n, loopsStack)[i];
        assert order[i] in order && order[i] in graph.OutEdges(n);
      }
    }

    // ----- one visit -----

    // What a visit makes of a value, if it is accepted.
    ghost function AfterVisit(n: Node, s: State): State {
      if Accepts(n, ShapeOf(s), results) then Visit(n, s) else s
    }

    ghost function SizeAfter(n: Node, sh: Shape): Shape {
      if Accepts(n, sh, results) then ShapeAfter(n, sh) else sh
    }

    ghost function Marks(n: Node, s: State): set<PdgEdge> {
      if Accepts(n, ShapeOf(s), results) then Recorded(n, s) else {}
    }

    static ghost predicate OneOf(t: ReachDefinition, all: set<ReachDefinition>)
      reads all
    {
      t in all && t.Parts() <= AllParts(all)
    }

    // Every state that goes on has this value. No two of them have a
    // definition in common if there are no more than one, or no operands.
    ghost predicate Carried(n: Node, v: State, sent: map<CfgEdge, ReachDefinition>, parts: set<Definition>)
      reads sent.Values, AllParts(sent.Values)
    {
      && (forall e :: e in sent ==> OneOf(sent[e], sent.Values) && sent[e].Is(v) && VarsApart(sent[e].globals, sent[e].locals))
      && (|graph.OutEdges(n)| <= 1 || v.stack == [] ==> Separate(sent.Values) && AllParts(sent.Values) <= parts)
    }

    // Visits the instruction and goes on. A visit that the place of the
    // instruction allows goes through; what goes on then has the size and, if
    // no definition serves two slots, the value that DataFlow says.
    method Perform(n: Node, s: ReachDefinition, ghost joined: State) returns (ok: bool, ghost sent: map<CfgEdge, ReachDefinition>)
      requires Valid() && s in states && s.Is(joined) && n in graph.Nodes() && !n.inst.Start? && !n.inst.Unreachable?
      modifies this`edges, this`dfsList, this`reachDef, this`defs, this`kept, this`states, this`saved, s, s.Parts()
      ensures Valid() && Grown() && kept == old(kept) && saved == old(saved) && Within(old(edges), edges)
      ensures Accepts(n, ShapeOf(joined), results) ==> ok
      ensures ok ==> Moved(old(Now(n)), n, {s}, sent) && AllSentDiffer(sent)
      ensures Accepts(n, ShapeOf(joined), results) ==>
                Adds(old(edges), edges, Marks(n, joined)) && forall e :: e in sent ==> sent[e].Size() == SizeAfter(n, ShapeOf(joined))
      ensures Accepts(n, ShapeOf(joined), results) && old(s.Apart()) ==>
                Carried(n, AfterVisit(n, joined), sent, old(s.Parts()) + (defs - old(defs)))
      ensures Accepts(n, ShapeOf(joined), results) ==>
                (old(Assured(floor, s.globals, s.locals, s.stack, joined)) ==> AllHold(sent, AfterVisit(n, joined))) && Handed(n, old(s.stack), joined, sent)
    {
      hide Holds, Assured, Builder.Untaken, Result, InPlace;
      hide Builder.Sound, Builder.Linked, Accepts, Recorded, DataFlow.Visit, ShapeAfter, Shows, Adds, SlotsApart, Objects, CopyOf, Scheduled, Distinguished,
           Separate, AllParts, ReachDefinition.Parts, Arriving, Builder.Moved, Builder.Carried, Builder.SentAlong, VarsApart;
      sent := map[];
      ok := Apply(n, s, joined);
      if ok {
        ghost var parts, known := s.Parts(), defs;
        ghost var after := Now(n);
        sent := Advance(n, s);
        MovedToo(after, old(Now(n)), n, {s}, {s}, sent);
        SentDiffer(graph.OutEdges(n), s, sent, known);
        SentSizes(s, sent, known);
        SentHold(s, sent, known, AfterVisit(n, joined));
        if Accepts(n, ShapeOf(joined), results) && old(s.Apart()) {
          SentCarries(n, s, sent, known, AfterVisit(n, joined), old(s.Parts()) + (defs - old(defs)));
        }
      }
    }

    // What goes on has at least the lasting origins of the value.
    static ghost predicate AllHold(sent: map<CfgEdge, ReachDefinition>, v: State)
      reads *
    {
      forall e :: e in sent ==> Holds(sent[e].globals, sent[e].locals, sent[e].stack, v)
    }

    lemma SentHold(s: ReachDefinition, sent: map<CfgEdge, ReachDefinition>, before: set<Definition>, v: State)
      requires SentAlong(sent.Keys, s, sent, before)
      ensures Holds(s.globals, s.locals, s.stack, v) ==> AllHold(sent, v)
      ensures forall e :: e in sent ==> sent[e].stack == s.stack
    {
      forall e | e in sent
        ensures Holds(s.globals, s.locals, s.stack, v) ==> Holds(sent[e].globals, sent[e].locals, sent[e].stack, v)
      {
        SameValues(sent[e].globals, s.globals);
        SameValues(sent[e].locals, s.locals);
      }
    }

    lemma SentSizes(s: ReachDefinition, sent: map<CfgEdge, ReachDefinition>, before: set<Definition>)
      requires SentAlong(sent.Keys, s, sent, before)
      ensures forall e :: e in sent ==> sent[e].Size() == s.Size() && sent[e].stack == s.stack
    {
      forall e | e in sent
        ensures sent[e].Size() == s.Size() && sent[e].stack == s.stack
      {
        CopyHasSize(sent[e], s);
      }
    }

    lemma SentCarries(n: Node, s: ReachDefinition, sent: map<CfgEdge, ReachDefinition>, before: set<Definition>, v: State, parts: set<Definition>)
      requires Linked() && sent.Values <= states && SentAlong(graph.OutEdges(n), s, sent, before) && s.Is(v) && s.Apart()
      requires s.Parts() + (defs - before) <= parts
      ensures Carried(n, v, sent, parts)
    {
      hide Builder.SentAlong, SlotsApart, Shows, VarsApart, Builder.Linked, Separate, ReachDefinition.Parts, ReachDefinition.Is, ReachDefinition.Apart;
      SentDiffer(graph.OutEdges(n), s, sent, before);
      SentIs(s, sent, before, v);
      if |graph.OutEdges(n)| <= 1 || v.stack == [] {
        SentSeparate(s, sent, before);
      }
    }

    lemma SentIs(s: ReachDefinition, sent: map<CfgEdge, ReachDefinition>, before: set<Definition>, v: State)
      requires s.Is(v) && s.Apart() && SentAlong(sent.Keys, s, sent, before)
      ensures forall e :: e in sent ==> sent[e].Is(v) && VarsApart(sent[e].globals, sent[e].locals)
      ensures |s.stack| == |v.stack|
    {
      IsSnap(s, v);
      forall e | e in sent
        ensures sent[e].Is(v)
      {
        CopyHasSize(sent[e], s);
        IsSnap(sent[e], v);
      }
    }

    lemma SentSeparate(s: ReachDefinition, sent: map<CfgEdge, ReachDefinition>, before: set<Definition>)
      requires Linked() && sent.Values <= states && SentAlong(sent.Keys, s, sent, before) && s.Apart() && (|sent.Keys| <= 1 || s.stack == [])
      ensures Separate(sent.Values) && AllParts(sent.Values) <= s.Parts() + (defs - before)
    {
      if |sent.Keys| <= 1 {
        OnlyOne(sent, s);
      }
      forall t | t in sent.Values
        ensures t.Apart() && t.Parts() <= s.Parts() + (defs - before)
      {
        var e :| e in sent && sent[e] == t;
        assert t.stack == s.stack;
        if s.stack == [] {
          assert Objects(t.stack) == {};
        }
      }
      forall t, u | t in sent.Values && u in sent.Values && t != u
        ensures t.Parts() !! u.Parts()
      {
        var e :| e in sent && sent[e] == t;
        var f :| f in sent && sent[f] == u;
        assert Objects(t.stack) == {} && Objects(u.stack) == {};
      }
    }

    lemma OnlyOne(sent: map<CfgEdge, ReachDefinition>, s: ReachDefinition)
      requires |sent.Keys| <= 1 && (sent != map[] ==> s in sent.Values)
      ensures forall t :: t in sent.Values ==> t == s
    {
      if sent != map[] {
        var e :| e in sent && sent[e] == s;
        assert |sent.Keys - {e}| == 0;
        assert sent.Keys == {e};
      }
    }

    // ----- waiting -----

    function Members(n: Node): set<Node>
      reads `loopsInsts
    {
      MembersIn(loopsInsts, n)
    }

    static function MembersIn(known: map<Node, set<Node>>, n: Node): set<Node> {
      if n in known then known[n] else {}
    }

    // The edges that are awaited: at a loop head, all from the side that the
    // control came from, elsewhere all.
    function Awaited(n: Node): set<CfgEdge>
      reads `loopsInsts, `lastNode
    {
      AwaitedIn(loopsInsts, n)
    }

    function AwaitedIn(known: map<Node, set<Node>>, n: Node): set<CfgEdge>
      reads `lastNode
    {
      if n.inst.LoopHead? then set e | e in graph.InEdges(n) && (e.src in MembersIn(known, n) <==> lastNode in MembersIn(known, n))
      else graph.InEdges(n)
    }

    // waitPaths: instructions outside the innermost active loop wait anyway.
    predicate Waits(n: Node)
      reads `loopsInsts, `lastNode, `loopsStack, `reachDef
    {
      HeldIn(loopsInsts, n)
    }

    // The same for other instructions that may be known of loops.
    predicate HeldIn(known: map<Node, set<Node>>, n: Node)
      reads `lastNode, `loopsStack, `reachDef
    {
      (loopsStack != [] && n !in MembersIn(known, loopsStack[0])) || |Delivered(n)| < |AwaitedIn(known, n)|
    }

    // An instruction that has not to wait has something delivered if its task
    // came along an edge.
    lemma SomethingDelivered(n: Node, e: CfgEdge)
      requires !Waits(n) && e in graph.cfg && e.dst == n && e.src == lastNode
      ensures Delivered(n) != {}
    {
      assert e in Awaited(n);
    }

    // ----- any instruction but a loop head -----

    // The result of a visit for which all that waited has come to shape `sh`.
    ghost predicate Passed(was: Before, n: Node, came: map<ReachDefinition, State>, sh: Shape, joined: State, sent: map<CfgEdge, ReachDefinition>)
      reads *
    {
      && ShapeOf(joined) == sh && WfState(joined) && Adds(was.edges, edges, Marks(n, joined))
      && Moved(was, n, Among(was.reachDef, n), sent) && AllSentDiffer(sent) && (forall e :: e in sent ==> sent[e].Size() == SizeAfter(n, sh))
      && (was.separate ==> JoinsAll(ArrivedValues(n, came), joined) && Carried(n, AfterVisit(n, joined), sent, was.parts + (defs - was.defs)))
      && Current() && Risen(was.floor) && CoversAll(joined, ArrivedValues(n, came)) && AllAssured(sent, AfterVisit(n, joined))
      && exists t :: t in was.stacks && t in came && Handed(n, OperandsLeft(n, ShapeOf(came[t]), was.stacks[t]), joined, sent)
    }

    ghost predicate AllAssured(sent: map<CfgEdge, ReachDefinition>, v: State)
      reads `floor, sent.Values
    {
      forall e :: e in sent ==> Assured(floor, sent[e].globals, sent[e].locals, sent[e].stack, v)
    }

    // All states that have gone on share the operands that were not taken,
    // and the visit has changed the topmost one if that is its way.
    ghost predicate Handed(n: Node, stack: seq<Definition>, joined: State, sent: map<CfgEdge, ReachDefinition>)
      reads *
    {
      && (forall e :: e in sent ==> Untaken(n, stack, sent[e].stack))
      && Altered(n, stack, joined)
    }

    ghost predicate Altered(n: Node, stack: seq<Definition>, joined: State)
      reads `defs, defs
    {
      InPlace(n.inst) && Accepts(n, ShapeOf(joined), results) ==> Changes(stack, Result(n, joined))
    }

    method Pass(n: Node, ghost came: map<ReachDefinition, State>, ghost sh: Shape)
      returns (ok: bool, ghost joined: State, ghost sent: map<CfgEdge, ReachDefinition>)
      requires Valid() && n in graph.Nodes() && !n.inst.Start? && !n.inst.Unreachable? && !n.inst.LoopHead?
      requires came.Keys == Delivered(n) && forall t :: t in came ==> t.Is(came[t])
      modifies this`edges, this`dfsList, this`reachDef, this`defs, this`kept, this`states, this`saved, this`floor, Delivered(n), AllParts(Delivered(n))
      ensures Valid() && Grown() && kept == old(kept) && saved == old(saved) && Within(old(edges), edges) && Risen(old(floor))
      ensures AllCome(n, came, sh) && Accepts(n, sh, results) ==> ok && Passed(old(Now(n)), n, came, sh, joined, sent)
    {
      hide Builder.Sound, Builder.Linked, Accepts, Separate, AllParts, JoinsAll, ReachDefinition.Parts, Builder.AllCome, Builder.ArrivedValues, Builder.Passed,
           SlotsApart, WfState, Shows, Builder.OperandsLeft, Builder.CoversAll, ReachDefinition.Is, Builder.Risen;
      NotFallen();
      sent := map[];
      ghost var was, all := Now(n), AllCome(n, came, sh) && Accepts(n, sh, results);
      var s;
      ok, s, joined := GetReachDef(n, came, sh);
      if ok {
        DeliveredAreStates(n);
        StateIsWf(s, joined);
        ok, sent := PassOn(n, s, came, sh, joined, was, all);
      }
    }

    method PassOn(n: Node, s: ReachDefinition, ghost came: map<ReachDefinition, State>, ghost sh: Shape, ghost joined: State, ghost was: Before,
                  ghost all: bool)
      returns (ok: bool, ghost sent: map<CfgEdge, ReachDefinition>)
      requires Valid() && n in graph.Nodes() && !n.inst.Start? && !n.inst.Unreachable?
      requires s in states && s.Is(joined) && WfState(joined) && s in Among(was.reachDef, n) && s.Parts() <= was.parts && reachDef == was.reachDef[n := {s}]
      requires edges == was.edges && dfsList == was.tasks && defs == was.defs && states == was.states
      requires all ==> Accepts(n, sh, results) && ShapeOf(joined) == sh && (was.separate ==> s.Apart() && JoinsAll(ArrivedValues(n, came), joined))
      requires floor == was.floor && CoversAll(joined, ArrivedValues(n, came)) && s in came && s in was.stacks
      requires s.stack == OperandsLeft(n, ShapeOf(came[s]), was.stacks[s])
      modifies this`edges, this`dfsList, this`reachDef, this`defs, this`kept, this`states, this`saved, this`floor, s, s.Parts()
      ensures Valid() && Grown() && kept == old(kept) && saved == old(saved) && Within(old(edges), edges) && Risen(old(floor))
      ensures all ==> ok && Passed(was, n, came, sh, joined, sent)
    {
      hide Builder.Sound, Builder.Linked, Accepts, Adds, Separate, AllParts, JoinsAll, ReachDefinition.Parts, Builder.ArrivedValues,
           Builder.SizeAfter, Builder.AfterVisit, Builder.Marks, Builder.Carried, Builder.Moved, Builder.AllSentDiffer, SlotsApart, Shows, WfState, Builder.Current, Builder.CoversAll, Builder.AllAssured, Builder.Handed, Builder.OperandsLeft, Builder.Risen;
      ghost var after, parts, stack := Now(n), s.Parts(), s.stack;
      ok, sent := PerformSurely(n, s, joined);
      if ok {
        MovedToo(after, was, n, {s}, Among(was.reachDef, n), sent);
        CarriedToo(n, AfterVisit(n, joined), sent, parts + (defs - was.defs), was.parts + (defs - was.defs));
      }
    }

    // Performs the visit with a record of what the definitions had before, and
    // have afterwards.
    method PerformSurely(n: Node, s: ReachDefinition, ghost joined: State) returns (ok: bool, ghost sent: map<CfgEdge, ReachDefinition>)
      requires Valid() && s in states && s.Is(joined) && n in graph.Nodes() && !n.inst.Start? && !n.inst.Unreachable?
      modifies this`edges, this`dfsList, this`reachDef, this`defs, this`kept, this`states, this`saved, this`floor, s, s.Parts()
      ensures Valid() && Grown() && kept == old(kept) && saved == old(saved) && Within(old(edges), edges) && Risen(old(floor))
      ensures Accepts(n, ShapeOf(joined), results) ==> ok
      ensures ok ==> Moved(old(Now(n)), n, {s}, sent) && AllSentDiffer(sent)
      ensures Accepts(n, ShapeOf(joined), results) ==>
                Adds(old(edges), edges, Marks(n, joined)) && forall e :: e in sent ==> sent[e].Size() == SizeAfter(n, ShapeOf(joined))
      ensures Accepts(n, ShapeOf(joined), results) && old(s.Apart()) ==>
                Carried(n, AfterVisit(n, joined), sent, old(s.Parts()) + (defs - old(defs)))
      ensures Current() && (Accepts(n, ShapeOf(joined), results) ==> AllAssured(sent, AfterVisit(n, joined)) && Handed(n, old(s.stack), joined, sent))
    {
      hide Builder.Sound, Builder.Linked, Accepts, Adds, Separate, AllParts, ReachDefinition.Parts, Builder.Untaken, Builder.Changes, Result, Builder.Remembered,
           Builder.SizeAfter, Builder.AfterVisit, Builder.Marks, Builder.Moved, Builder.AllSentDiffer, SlotsApart, Shows, Holds, Assured, Builder.Current, Builder.Traceable, Builder.Carried, Builder.AllAssured, Builder.Altered, ReachDefinition.Vars;
      ghost var before := Now(n);
      Remember();
      StateParts(s);
      NowAssured(s, joined);
      ghost var after := Now(n);
      ok, sent := Perform(n, s, joined);
      if ok {
        MovedToo(after, before, n, {s}, {s}, sent);
        SentKnown(n, sent);
      }
      RememberToo(n, AfterVisit(n, joined), sent, old(s.Parts()) + (defs - old(defs)));
      if Accepts(n, ShapeOf(joined), results) {
        HoldIsAssured(sent, AfterVisit(n, joined));
      }
    }

    ghost method RememberToo(n: Node, v: State, sent: map<CfgEdge, ReachDefinition>, parts: set<Definition>)
      requires Valid()
      modifies this`floor
      ensures Valid() && Current() && Risen(old(floor)) && (old(Carried(n, v, sent, parts)) ==> Carried(n, v, sent, parts))
    {
      hide Builder.Sound, Builder.Linked, Separate, AllParts, Shows, VarsApart, Builder.Current, Builder.Risen;
      Remember();
    }

    lemma SentKnown(n: Node, sent: map<CfgEdge, ReachDefinition>)
      requires Valid() && sent.Values <= states
      ensures forall e :: e in sent ==> sent[e].Parts() <= defs
    {
      assert forall e :: e in sent ==> sent[e] in sent.Values;
    }

    lemma HoldIsAssured(sent: map<CfgEdge, ReachDefinition>, v: State)
      requires Current() && AllHold(sent, v) && forall e :: e in sent ==> sent[e].Parts() <= defs
      ensures AllAssured(sent, v)
    {
      hide Builder.Current;
      forall e | e in sent
        ensures Assured(floor, sent[e].globals, sent[e].locals, sent[e].stack, v)
      {
        HeldAssured(sent[e], v);
      }
    }

    lemma HeldAssured(s: ReachDefinition, v: State)
      requires Current() && s.Parts() <= defs && Holds(s.globals, s.locals, s.stack, v)
      ensures Assured(floor, s.globals, s.locals, s.stack, v)
    {
      assert forall i :: 0 <= i < |s.stack| ==> s.stack[i] in Objects(s.stack);
    }

    lemma CarriedToo(n: Node, v: State, sent: map<CfgEdge, ReachDefinition>, parts: set<Definition>, more: set<Definition>)
      requires parts <= more
      ensures Carried(n, v, sent, parts) ==> Carried(n, v, sent, more)
    {
    }

    lemma MovedToo(after: Before, was: Before, n: Node, own: set<ReachDefinition>, more: set<ReachDefinition>, sent: map<CfgEdge, ReachDefinition>)
      requires Moved(after, n, own, sent) && was.states <= after.states && forall s :: s in own ==> s in more || s !in was.states
      requires (after.reachDef == was.reachDef || exists s :: after.reachDef == was.reachDef[n := {s}]) && after.tasks == was.tasks
      ensures Moved(was, n, more, sent)
    {
      forall m | m != n
        ensures Among(after.reachDef, m) == Among(was.reachDef, m)
      {
      }
    }

    lemma DeliveredAreStates(n: Node)
      requires Valid()
      ensures Delivered(n) <= states && forall t :: t in Delivered(n) ==> t.Parts() <= defs
    {
    }

    lemma StateIsWf(s: ReachDefinition, v: State)
      requires Valid() && s in states && s.Is(v)
      ensures WfState(v)
    {
      hide Builder.Sound;
      forall x | x in v.globals
        ensures WfDef(v.globals[x])
      {
        SoundAt(s.globals[x]);
      }
      forall x | x in v.locals
        ensures WfDef(v.locals[x])
      {
        SoundAt(s.locals[x]);
      }
      forall i | 0 <= i < |v.stack|
        ensures WfDef(v.stack[i])
      {
        assert s.stack[i] in Objects(s.stack);
        SoundAt(s.stack[i]);
      }
    }

    // Nothing happens until every edge has delivered; nothing happens at
    // `unreachable` at all.
    method VisitPlain(n: Node, ghost came: map<ReachDefinition, State>, ghost sh: Shape)
      returns (ok: bool, stopped: bool, ghost joined: State, ghost sent: map<CfgEdge, ReachDefinition>)
      requires Valid() && n in graph.Nodes() && !n.inst.LoopHead?
      requires came.Keys == Delivered(n) && forall t :: t in came ==> t.Is(came[t])
      modifies this`edges, this`dfsList, this`reachDef, this`loopsInsts, this`defs, this`kept, this`states, this`saved, this`floor, this`passed,
               Delivered(n), AllParts(Delivered(n))
      ensures Valid() && Grown() && kept == old(kept) && saved == old(saved) && Within(old(edges), edges) && Risen(old(floor))
      ensures Checked(n, stopped)
      ensures stopped ==> ok && Now(n) == old(Now(n)) && forall t :: t in came ==> t.Is(came[t]) && unchanged(t)
      ensures !stopped ==> !n.inst.Unreachable? && |graph.InEdges(n)| <= old(|Delivered(n)|)
      ensures stopped ==> n.inst.Unreachable? || old(loopsStack) != [] || |old(Delivered(n))| < |graph.InEdges(n)|
      ensures !stopped && !n.inst.Start? && AllCome(n, came, sh) && Accepts(n, sh, results) ==> ok && Passed(old(Now(n)), n, came, sh, joined, sent)
    {
      hide Builder.Sound, Builder.Linked, Builder.AllCome, Accepts, Builder.Passed, Shows, AllParts, Separate, Adds, ReachDefinition.Parts, Builder.Risen, Stacks, Builder.Waits, Builder.Now;
      NotFallen();
      joined, sent, ok := State(map[], map[], [], []), map[], true;
      stopped := Stops(n);
      if !stopped {
        ok, joined, sent := Proceed(n, came, sh);
      }
    }

    // What the wait check has done.
    twostate predicate Checked(n: Node, stopped: bool)
      reads `loopsInsts, `passed
    {
      && (stopped <==> old(HeldIn(Enlisted(n), n)) || n.inst.Unreachable?) && loopsInsts == old(Enlisted(n))
      && passed == if old(HeldIn(Enlisted(n), n)) then old(passed) else old(passed) + [n]
    }

    // The source asserts that it does not come back to the start.
    method Proceed(n: Node, ghost came: map<ReachDefinition, State>, ghost sh: Shape)
      returns (ok: bool, ghost joined: State, ghost sent: map<CfgEdge, ReachDefinition>)
      requires Valid() && n in graph.Nodes() && !n.inst.Unreachable? && !n.inst.LoopHead?
      requires came.Keys == Delivered(n) && forall t :: t in came ==> t.Is(came[t])
      modifies this`edges, this`dfsList, this`reachDef, this`defs, this`kept, this`states, this`saved, this`floor, Delivered(n), AllParts(Delivered(n))
      ensures Valid() && Grown() && kept == old(kept) && saved == old(saved) && Within(old(edges), edges) && Risen(old(floor))
      ensures !n.inst.Start? && AllCome(n, came, sh) && Accepts(n, sh, results) ==> ok && Passed(old(Now(n)), n, came, sh, joined, sent)
    {
      hide Builder.Sound, Builder.Linked, Builder.AllCome, Accepts, Builder.Passed, Shows, AllParts, Separate, Adds, ReachDefinition.Parts, Builder.Risen;
      NotFallen();
      joined, sent, ok := State(map[], map[], [], []), map[], !n.inst.Start?;
      if ok {
        ok, joined, sent := Pass(n, came, sh);
      }
    }

    // The wait check, which also counts what it lets through.
    method Check(n: Node) returns (waits: bool)
      requires Valid()
      modifies this`passed
      ensures Valid() && waits == Waits(n) && passed == if waits then old(passed) else old(passed) + [n]
    {
      waits := Waits(n);
      if !waits {
        passed := passed + [n];
      }
    }

    // Whether the visit ends with the wait check.
    method Stops(n: Node) returns (stopped: bool)
      requires Valid() && !n.inst.LoopHead?
      modifies this`loopsInsts, this`passed
      ensures Valid() && stopped == (Waits(n) || n.inst.Unreachable?) && passed == if Waits(n) then old(passed) else old(passed) + [n]
      ensures Checked(n, stopped)
      ensures Now(n) == old(Now(n))
      ensures !stopped ==> !n.inst.Unreachable? && |graph.InEdges(n)| <= |Delivered(n)|
      ensures stopped ==> n.inst.Unreachable? || loopsStack != [] || |Delivered(n)| < |graph.InEdges(n)|
    {
      hide Builder.Sound, Builder.Linked, Separate, AllParts, Stacks;
      Enlist(n);
      var waits := Check(n);
      stopped := waits || n.inst.Unreachable?;
    }

    // Begin markers count as instructions of the innermost active loop.
    function Enlisted(n: Node): map<Node, set<Node>>
      reads `loopsInsts, `loopsStack
    {
      if n.inst.BeginBlock? && loopsStack != [] && loopsStack[0] in loopsInsts
      then loopsInsts[loopsStack[0] := loopsInsts[loopsStack[0]] + {n}] else loopsInsts
    }

    method Enlist(n: Node)
      modifies this`loopsInsts
      ensures loopsInsts == old(Enlisted(n))
    {
      if n.inst.BeginBlock? && loopsStack != [] && loopsStack[0] in loopsInsts {
        loopsInsts := loopsInsts[loopsStack[0] := loopsInsts[loopsStack[0]] + {n}];
      }
    }

    lemma StateParts(s: ReachDefinition)
      requires Valid() && s in states
      ensures s.Parts() <= defs
    {
    }

    lemma KeptApart()
      requires Valid()
      ensures states !! saved && defs !! kept && forall c :: c in saved ==> c.globals.Values <= kept && c.locals.Values <= kept
      ensures loops.Values <= saved && cache.Values <= saved
    {
    }

    lemma PartsKnown(n: Node)
      requires Valid()
      ensures AllParts(Delivered(n)) <= defs
    {
    }

    // ----- the worklist -----

    method TakeUp(task: Task)
      requires Valid()
      modifies this`loopsStack, this`lastNode
      ensures Valid() && loopsStack == task.loops && lastNode == task.last
    {
      loopsStack, lastNode := task.loops, task.last;
    }

    // Any task of the worklist.
    method NextTask() returns (task: Task, ghost k: nat)
      requires Valid() && dfsList != []
      modifies this`dfsList
      ensures Valid() && k < |old(dfsList)| && task == old(dfsList)[k] && dfsList == old(dfsList)[..k] + old(dfsList)[k + 1..]
    {
      hide Builder.Sound, Builder.Owned;
      var i :| 0 <= i < |dfsList|;
      k := i;
      task := dfsList[i];
      dfsList := dfsList[..i] + dfsList[i + 1..];
    }

    // ----- where it starts -----

    method EmptyVars(names: set<string>) returns (vars: map<string, Definition>)
      requires Valid()
      modifies this`defs
      ensures Valid() && old(defs) <= defs && defs == old(defs) + vars.Values && fresh(vars.Values) && Injective(vars)
      ensures vars.Keys == names && forall x :: x in vars ==> vars[x].def == map[]
    {
      hide Builder.Sound, Builder.Placed;
      vars := map[];
      var todo := names;
      while todo != {}
        invariant Valid() && todo <= names && vars.Keys == names - todo
        invariant defs == old(defs) + vars.Values && fresh(vars.Values) && Injective(vars)
        invariant forall x :: x in vars ==> vars[x].def == map[]
        decreases todo
      {
        var x :| x in todo;
        var d := Make(map[]);
        OneMoreVar(vars, x, d);
        vars := vars[x := d];
        todo := todo - {x};
      }
    }

    static lemma OneMoreVar(vars: map<string, Definition>, x: string, d: Definition)
      requires x !in vars && d !in vars.Values
      ensures vars[x := d].Values == vars.Values + {d} && (Injective(vars) ==> Injective(vars[x := d]))
    {
      var more := vars[x := d];
      assert forall y :: y in vars ==> vars[y] in vars.Values && more[y] == vars[y];
      assert more[x] == d;
    }

    method MakeInitial(globals: set<string>, locals: set<string>) returns (s: ReachDefinition)
      requires Valid()
      modifies this`defs, this`states
      ensures Valid() && Grown() && fresh(s) && states == old(states) + {s} && s.Is(Initial(globals, locals)) && s.Apart()
      ensures fresh(s.Parts())
    {
      hide Builder.Sound, Builder.Linked, Shows, SlotsApart, ReachDefinition.Parts, Injective, DataFlow.Initial;
      var globalDefs := EmptyVars(globals);
      var localDefs := EmptyVars(locals);
      s := new ReachDefinition(globalDefs, localDefs, [], []);
      InitialIs(s, globals, locals);
      Enroll(s);
    }

    static lemma InitialIs(s: ReachDefinition, globals: set<string>, locals: set<string>)
      requires s.stack == [] && s.labels == [] && s.globals.Keys == globals && s.locals.Keys == locals
      requires (forall x :: x in s.globals ==> s.globals[x].def == map[]) && forall x :: x in s.locals ==> s.locals[x].def == map[]
      requires Injective(s.globals) && Injective(s.locals) && s.globals.Values !! s.locals.Values
      ensures s.Is(Initial(globals, locals)) && s.Apart() && s.Parts() == s.globals.Values + s.locals.Values
    {
      assert Objects([]) == {};
    }

    ghost method Enroll(s: ReachDefinition)
      requires Valid() && s !in states + saved && s.Parts() <= defs
      modifies this`states
      ensures Valid() && states == old(states) + {s}
    {
      hide Builder.Sound, ReachDefinition.Parts, ReachDefinition.Vars;
      states := states + {s};
    }

    // The function starts with nothing known about its variables.
    method VisitInstructions(globals: set<string>, locals: set<string>) returns (ok: bool, ghost e: CfgEdge, ghost s: ReachDefinition?)
      requires Valid() && reachDef == map[] && dfsList == []
      modifies this`reachDef, this`dfsList, this`defs, this`states
      ensures Valid() && Grown() && ok == (|graph.OutEdges(graph.entry)| == 1) && edges == old(edges)
      ensures ok ==> graph.OutEdges(graph.entry) == {e} && dfsList == [Task(e.dst, loopsStack, graph.entry)]
      ensures ok ==> s != null && reachDef == map[e.dst := {s}] && fresh(s) && states == old(states) + {s} && s.Is(Initial(globals, locals)) && s.Apart()
    {
      hide Builder.Sound, Builder.Owned, Shows, SlotsApart, ReachDefinition.Parts, DataFlow.Initial;
      var outs := graph.OutEdges(graph.entry);
      if |outs| != 1 {
        return false, CfgEdge(graph.entry, "", graph.entry), null;
      }
      var first :| first in outs;
      OneEdge(outs, first);
      var start := MakeInitial(globals, locals);
      e, s := first, start;
      reachDef := reachDef[first.dst := Delivered(first.dst) + {start}];
      dfsList := [Task(first.dst, loopsStack, graph.entry)] + dfsList;
      return true, first, start;
    }

    static lemma OneEdge(outs: set<CfgEdge>, e: CfgEdge)
      requires |outs| == 1 && e in outs
      ensures outs == {e}
    {
      assert |outs - {e}| == 0;
    }

    lemma EdgesExplained()
      requires Valid()
      ensures NoTwins(edges) && forall e :: e in edges ==> Explained(edges, e)
    {
    }

  }
}
