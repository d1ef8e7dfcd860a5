// Laws of visiting, arriving and merging: what they keep of a state, and that
// each moves the origins of calls from slot to slot as the Feeds table says.
module FlowLaws {
  import opened Wrappers
  import opened DataFlow

  lemma VisitShape(n: Node, s: State, results: nat)
    requires Accepts(n, ShapeOf(s), results)
    ensures ShapeOf(Visit(n, s)) == ShapeAfter(n, ShapeOf(s))
  {
    var t := Visit(n, s);
    match n.inst
    case GlobalSet(name) => assert t.globals.Keys == s.globals.Keys;
    case LocalSet(name) => assert t.locals.Keys == s.locals.Keys;
    case LocalTee(name) => assert t.locals.Keys == s.locals.Keys;
    case _ =>
  }

  lemma ThroughWf(d: Def, n: Node)
    requires WfDef(d)
    ensures WfDef(Through(d, n)) && WfDef(RemoveConsts(d)) && WfDef(Through(RemoveConsts(d), n))
  {
  }

  lemma ResultWf(n: Node, s: State, results: nat)
    requires WfState(s) && Accepts(n, ShapeOf(s), results)
    ensures WfDef(Result(n, s))
  {
    match n.inst
    case Binary => ThroughWf(Union(s.stack[0], s.stack[1]), n);
    case Compare => ThroughWf(Union(s.stack[0], s.stack[1]), n);
    case Unary => ThroughWf(s.stack[0], n);
    case Convert => ThroughWf(s.stack[0], n);
    case LocalTee(_) => ThroughWf(s.stack[0], n);
    case GlobalGet(name) => ThroughWf(s.globals[name], n);
    case LocalGet(name) => ThroughWf(s.locals[name], n);
    case _ =>
  }

  lemma VarsWf(n: Node, s: State, results: nat)
    requires WfState(s) && Accepts(n, ShapeOf(s), results)
    ensures var t := Visit(n, s);
            && (forall x :: x in t.globals ==> WfDef(t.globals[x]))
            && (forall x :: x in t.locals ==> WfDef(t.locals[x]))
  {
    if |s.stack| > 0 {
      ThroughWf(s.stack[0], n);
    }
  }

  lemma VisitWf(n: Node, s: State, results: nat)
    requires WfState(s) && Accepts(n, ShapeOf(s), results)
    ensures WfState(Visit(n, s))
  {
    VarsWf(n, s, results);
    ResultWf(n, s, results);
    var below := s.stack[Pops(n.inst)..];
    assert forall i :: 0 <= i < |below| ==> WfDef(below[i]);
  }

  lemma ArriveStack(n: Node, s: State, results: nat)
    requires ShapeOnArrival(n, ShapeOf(s), results).Some?
    ensures var t, k := Arrive(n, s, results), Kept(n, results);
            && t.globals == s.globals && t.locals == s.locals
            && k <= |t.stack| <= |s.stack|
            && t.stack == s.stack[..k] + s.stack[|s.stack| - (|t.stack| - k)..]
  {
    match n.inst
    case BlockEnd(name, k) => PopLabelLowers(name, |s.stack| - k, s.labels);
    case LoopEnd(name, k) => PopLabelLowers(name, |s.stack| - k, s.labels);
    case LoopHead(name) => PopLabelLowers(name, |s.stack|, s.labels);
    case _ =>
  }

  lemma ArriveWf(n: Node, s: State, results: nat)
    requires WfState(s) && ShapeOnArrival(n, ShapeOf(s), results).Some?
    ensures WfState(Arrive(n, s, results))
  {
    ArriveStack(n, s, results);
  }

  lemma UnionJoins(s: State, other: State, slot: Slot, o: Node)
    requires ShapeOf(s) == ShapeOf(other)
    ensures Has(UnionState(s, other), slot, o) <==> Has(s, slot, o) || Has(other, slot, o)
  {
  }

  // Every origin keeps its place on arrival, but for the operands between the
  // label that is reached and the ones that are kept.
  lemma ArriveMoves(n: Node, s: State, results: nat, to: Slot, o: Node)
    requires ShapeOnArrival(n, ShapeOf(s), results).Some?
    ensures var t := Arrive(n, s, results);
            Has(t, to, o) <==> Fits(ShapeOf(t), to) && Has(s, Before(n, ShapeOf(s), results, to), o)
  {
    ArriveStack(n, s, results);
  }

  predicate Fits(sh: Shape, slot: Slot) {
    match slot
    case GlobalSlot(x) => x in sh.globals
    case LocalSlot(x) => x in sh.locals
    case StackSlot(i) => 0 <= i < sh.height
  }

  // The slot whose value is in slot `to` after arrival.
  function Before(n: Node, sh: Shape, results: nat, to: Slot): Slot
    requires ShapeOnArrival(n, sh, results).Some?
  {
    var height := ShapeOnArrival(n, sh, results).value.height;
    if to.StackSlot? && to.index >= height - Kept(n, results) then StackSlot(sh.height - height + to.index) else to
  }

  lemma TopSlots(s: State, o: Node)
    ensures forall i :: 0 <= i < |s.stack| ==> (Has(s, StackSlot(|s.stack| - 1 - i), o) <==> o in s.stack[i])
  {
  }

  lemma ResultTakes(n: Node, s: State, results: nat, o: Node, from: Slot)
    requires WfState(s) && Accepts(n, ShapeOf(s), results) && IsCall(o)
    requires FeedsResult(n.inst, |s.stack|, from) && Has(s, from, o)
    ensures o in Result(n, s)
  {
    TopSlots(s, o);
  }

  lemma ResultGives(n: Node, s: State, results: nat, o: Node) returns (from: Slot)
    requires Accepts(n, ShapeOf(s), results) && IsCall(o)
    requires o in Result(n, s) && !(o == n && IsCall(n))
    ensures FeedsResult(n.inst, |s.stack|, from) && Has(s, from, o)
  {
    var h := |s.stack|;
    TopSlots(s, o);
    from := match n.inst
      case Select => if Has(s, StackSlot(h - 2), o) then StackSlot(h - 2) else StackSlot(h - 3)
      case GlobalGet(x) => GlobalSlot(x)
      case LocalGet(x) => LocalSlot(x)
      case _ => if Has(s, StackSlot(h - 1), o) then StackSlot(h - 1) else StackSlot(h - 2);
  }

  lemma ResultMoves(n: Node, s: State, results: nat, o: Node)
    requires WfState(s) && Accepts(n, ShapeOf(s), results) && IsCall(o) && Pushes(n.inst) == 1
    ensures o in Result(n, s) <==>
              (o == n && IsCall(n)) || exists from :: FeedsResult(n.inst, |s.stack|, from) && Has(s, from, o)
  {
    if o in Result(n, s) && !(o == n && IsCall(n)) {
      var from := ResultGives(n, s, results, o);
    }
    forall from | FeedsResult(n.inst, |s.stack|, from) && Has(s, from, o) {
      ResultTakes(n, s, results, o, from);
    }
  }

  lemma VarsMove(n: Node, s: State, results: nat, to: Slot, o: Node)
    requires Accepts(n, ShapeOf(s), results) && !to.StackSlot?
    ensures Has(Visit(n, s), to, o) <==> Has(s, Source(n, s, to), o)
  {
    assert |s.stack| > 0 ==> At(s, StackSlot(|s.stack| - 1)) == s.stack[0];
  }

  // The slot that a variable, or an operand under the result, is copied from.
  function Source(n: Node, s: State, to: Slot): Slot {
    if (n.inst.GlobalSet? && to == GlobalSlot(n.inst.name))
       || ((n.inst.LocalSet? || n.inst.LocalTee?) && to == LocalSlot(n.inst.name))
    then StackSlot(|s.stack| - 1) else to
  }

  lemma BelowMoves(n: Node, s: State, results: nat, to: Slot, o: Node)
    requires Accepts(n, ShapeOf(s), results) && to.StackSlot? && to.index < |s.stack| - Pops(n.inst)
    ensures Has(Visit(n, s), to, o) <==> Has(s, to, o)
  {
    var t := Visit(n, s);
    if to.index >= 0 {
      assert |t.stack| == |s.stack| - Pops(n.inst) + Pushes(n.inst);
      assert At(t, to) == At(s, to);
    }
  }

  // The origin of a call is in a slot after a visit if the visit is that call
  // and the slot its result, or if it was in a slot that feeds this one.
  lemma VisitMoves(n: Node, s: State, results: nat, to: Slot, o: Node)
    requires WfState(s) && Accepts(n, ShapeOf(s), results) && IsCall(o)
    ensures Has(Visit(n, s), to, o) <==>
              (o == n && Pushes(n.inst) == 1 && to == StackSlot(|s.stack| - Pops(n.inst)))
              || exists from :: Feeds(n.inst, |s.stack|, from, to) && Has(s, from, o)
  {
    var h, left := |s.stack|, |s.stack| - Pops(n.inst);
    if to.StackSlot? && to.index >= left {
      TopMoves(n, s, results, to, o);
    } else {
      if to.StackSlot? {
        BelowMoves(n, s, results, to, o);
      } else {
        VarsMove(n, s, results, to, o);
      }
      assert Feeds(n.inst, h, Source(n, s, to), to);
      assert forall from :: Feeds(n.inst, h, from, to) ==> from == Source(n, s, to);
    }
  }

  lemma TopMoves(n: Node, s: State, results: nat, to: Slot, o: Node)
    requires WfState(s) && Accepts(n, ShapeOf(s), results) && IsCall(o)
    requires to.StackSlot? && to.index >= |s.stack| - Pops(n.inst)
    ensures Has(Visit(n, s), to, o) <==>
              (o == n && Pushes(n.inst) == 1 && to == StackSlot(|s.stack| - Pops(n.inst)))
              || exists from :: Feeds(n.inst, |s.stack|, from, to) && Has(s, from, o)
  {
    var t, left := Visit(n, s), |s.stack| - Pops(n.inst);
    assert |t.stack| == left + Pushes(n.inst);
    if Pushes(n.inst) == 1 && to.index == left {
      ResultMoves(n, s, results, o);
      assert At(t, to) == Result(n, s);
      assert forall from :: Feeds(n.inst, |s.stack|, from, to) <==> FeedsResult(n.inst, |s.stack|, from);
    }
  }

  // ----- one edge of the graph -----

  ghost predicate Passes(m: Node, n: Node, sh: Shape, results: nat) {
    Accepts(m, sh, results) && ShapeOnArrival(n, ShapeAfter(m, sh), results).Some?
  }

  // Visiting `m` and arriving at `n` carries slot `from` to slot `to`.
  ghost predicate Moves(m: Node, n: Node, sh: Shape, results: nat, from: Slot, to: Slot)
    requires Passes(m, n, sh, results)
  {
    && Fits(ShapeOnArrival(n, ShapeAfter(m, sh), results).value, to)
    && Feeds(m.inst, sh.height, from, Before(n, ShapeAfter(m, sh), results, to))
  }

  // Visiting the call `m` and arriving at `n` leaves its result in slot `to`.
  ghost predicate Makes(m: Node, n: Node, sh: Shape, results: nat, to: Slot)
    requires Passes(m, n, sh, results)
  {
    && Fits(ShapeOnArrival(n, ShapeAfter(m, sh), results).value, to)
    && Pushes(m.inst) == 1
    && Before(n, ShapeAfter(m, sh), results, to) == StackSlot(sh.height - Pops(m.inst))
  }

  function Cross(m: Node, n: Node, s: State, results: nat): State
    requires Passes(m, n, ShapeOf(s), results)
  {
    VisitShape(m, s, results);
    Arrive(n, Visit(m, s), results)
  }

  lemma CrossMoves(m: Node, n: Node, s: State, results: nat, to: Slot, o: Node)
    requires WfState(s) && IsCall(o) && Passes(m, n, ShapeOf(s), results)
    ensures Has(Cross(m, n, s, results), to, o) <==>
              (o == m && Makes(m, n, ShapeOf(s), results, to))
              || exists from :: Moves(m, n, ShapeOf(s), results, from, to) && Has(s, from, o)
  {
    VisitShape(m, s, results);
    ArriveMoves(n, Visit(m, s), results, to, o);
    VisitMoves(m, s, results, Before(n, ShapeAfter(m, ShapeOf(s)), results, to), o);
  }

  lemma CrossKeeps(m: Node, n: Node, s: State, results: nat)
    requires WfState(s) && Passes(m, n, ShapeOf(s), results)
    ensures WfState(Cross(m, n, s, results))
    ensures Some(ShapeOf(Cross(m, n, s, results))) == ShapeOnArrival(n, ShapeAfter(m, ShapeOf(s)), results)
  {
    VisitShape(m, s, results);
    VisitWf(m, s, results);
    ArriveWf(n, Visit(m, s), results);
  }

  // ----- recorded edges -----

  lemma EdgesFromAllHas(ds: seq<Def>, n: Node, e: PdgEdge)
    ensures e in EdgesFromAll(ds, n) <==> exists i :: 0 <= i < |ds| && e in EdgesTo(ds[i], n)
  {
    if ds != [] {
      EdgesFromAllHas(ds[1..], n, e);
      assert forall i :: 1 <= i < |ds| ==> ds[i] == ds[1..][i - 1];
    }
  }

  ghost predicate CallEdge(es: set<PdgEdge>, n: Node, callee: string) {
    exists e :: e in es && e.dst == n && e.kind == Function && e.name == callee
  }

  lemma CallEdgeTo(d: Def, n: Node, callee: string)
    requires WfDef(d)
    ensures CallEdge(EdgesTo(d, n), n, callee) <==>
              exists o :: o in d && Introduces(o, callee, Function)
  {
    forall o | o in d && Introduces(o, callee, Function)
      ensures CallEdge(EdgesTo(d, n), n, callee)
    {
      assert PdgEdge(d[o].src, n, d[o].name, d[o].kind) in EdgesTo(d, n);
    }
  }

  lemma ReadSlots(n: Node, s: State, results: nat, o: Node)
    requires Accepts(n, ShapeOf(s), results)
    ensures (exists i :: 0 <= i < |Read(n, s)| && o in Read(n, s)[i]) <==>
            exists from :: Records(n.inst, |s.stack|, from) && Has(s, from, o)
  {
    var h, ds := |s.stack|, Read(n, s);
    TopSlots(s, o);
    if i :| 0 <= i < |ds| && o in ds[i] {
      var from := match n.inst
        case GlobalGet(x) => GlobalSlot(x)
        case LocalGet(x) => LocalSlot(x)
        case Binary => if Has(s, StackSlot(h - 1), o) then StackSlot(h - 1) else StackSlot(h - 2)
        case Compare => if Has(s, StackSlot(h - 1), o) then StackSlot(h - 1) else StackSlot(h - 2)
        case _ => StackSlot(h - 1 - i);
      assert Records(n.inst, h, from) && Has(s, from, o);
    }
    if from :| Records(n.inst, h, from) && Has(s, from, o) {
      SlotIsRead(n, s, results, o, from);
    }
  }

  lemma SlotIsRead(n: Node, s: State, results: nat, o: Node, from: Slot)
    requires Accepts(n, ShapeOf(s), results)
    requires Records(n.inst, |s.stack|, from) && Has(s, from, o)
    ensures exists i :: 0 <= i < |Read(n, s)| && o in Read(n, s)[i]
  {
    TopSlots(s, o);
    if !from.StackSlot? || n.inst.Binary? || n.inst.Compare? {
      assert o in Read(n, s)[0];
    } else {
      assert o in Read(n, s)[|s.stack| - 1 - from.index];
    }
  }

  lemma ReadWf(n: Node, s: State, results: nat)
    requires WfState(s) && Accepts(n, ShapeOf(s), results)
    ensures forall i :: 0 <= i < |Read(n, s)| ==> WfDef(Read(n, s)[i])
  {
  }

  // A visit records an edge labelled with a callee exactly if a call of that
  // name is among the origins of a slot that it reads.
  lemma RecordsCalls(n: Node, s: State, results: nat, callee: string)
    requires WfState(s) && Accepts(n, ShapeOf(s), results)
    ensures CallEdge(Recorded(n, s), n, callee) <==>
              exists o, from :: Introduces(o, callee, Function)
                                && Records(n.inst, |s.stack|, from) && Has(s, from, o)
  {
    var ds := Read(n, s);
    ReadWf(n, s, results);
    forall e {
      EdgesFromAllHas(ds, n, e);
    }
    forall i | 0 <= i < |ds| {
      CallEdgeTo(ds[i], n, callee);
    }
    forall o | IsCall(o) {
      ReadSlots(n, s, results, o);
    }
    assert CallEdge(Recorded(n, s), n, callee) <==> exists i :: 0 <= i < |ds| && CallEdge(EdgesTo(ds[i], n), n, callee);
  }
}
