// The classes of src/pdg-builder.h on the heap: states hold references to
// definitions, and their copies share the operands.
module ReachDefinitions {
  import opened DataFlow
  import opened FlowLaws

  class Definition {
    var def: Def

    constructor (d: Def)
      ensures def == d
    {
      def := d;
    }

    method UnionDef(other: Definition)
      modifies this
      ensures def == Union(old(def), old(other.def))
    {
      def := Union(def, other.def);
    }

    method RemoveConsts()
      modifies this
      ensures def == DataFlow.RemoveConsts(old(def))
    {
      def := DataFlow.RemoveConsts(def);
    }

    // clear(node): the values come through `n` from now on.
    method Redirect(n: Node)
      modifies this
      ensures def == Through(old(def), n)
    {
      def := Through(def, n);
    }

    predicate Equals(other: Definition)
      reads this, other
    {
      SameDef(def, other.def)
    }
  }

  ghost function Objects(ds: seq<Definition>): set<Definition> {
    set d | d in ds
  }

  // The definitions behind references.
  ghost function Values(vars: map<string, Definition>): map<string, Def>
    reads vars.Values
  {
    map x | x in vars :: vars[x].def
  }

  ghost function Defs(ds: seq<Definition>): (r: seq<Def>)
    reads ds
    ensures |r| == |ds| && forall i :: 0 <= i < |ds| ==> r[i] == ds[i].def
  {
    if ds == [] then [] else [ds[0].def] + Defs(ds[1..])
  }

  ghost predicate Injective(vars: map<string, Definition>) {
    forall x, y :: x in vars && y in vars && x != y ==> vars[x] != vars[y]
  }

  // No definition serves two variables.
  ghost predicate VarsApart(globals: map<string, Definition>, locals: map<string, Definition>) {
    Injective(globals) && Injective(locals) && globals.Values !! locals.Values
  }

  ghost predicate AllDiffer(ds: seq<Definition>) {
    forall i, j :: 0 <= i < j < |ds| ==> ds[i] != ds[j]
  }

  // No definition serves two slots.
  ghost predicate SlotsApart(globals: map<string, Definition>, locals: map<string, Definition>, stack: seq<Definition>) {
    VarsApart(globals, locals) && Objects(stack) !! globals.Values + locals.Values && AllDiffer(stack)
  }

  // The definitions behind the references are those of a state value.
  ghost predicate Shows(globals: map<string, Definition>, locals: map<string, Definition>, ds: seq<Definition>, s: State)
    reads globals.Values, locals.Values, ds
  {
    && globals.Keys == s.globals.Keys && (forall x :: x in globals ==> globals[x].def == s.globals[x])
    && locals.Keys == s.locals.Keys && (forall x :: x in locals ==> locals[x].def == s.locals[x])
    && |ds| == |s.stack| && (forall i :: 0 <= i < |ds| ==> ds[i].def == s.stack[i])
  }

  // They have at least the lasting origins of the value.
  ghost predicate Holds(globals: map<string, Definition>, locals: map<string, Definition>, ds: seq<Definition>, s: State)
    reads globals.Values, locals.Values, ds
  {
    && globals.Keys == s.globals.Keys && (forall x :: x in globals ==> Lasting(s.globals[x]) <= globals[x].def.Keys)
    && locals.Keys == s.locals.Keys && (forall x :: x in locals ==> Lasting(s.locals[x]) <= locals[x].def.Keys)
    && |ds| == |s.stack| && (forall i :: 0 <= i < |ds| ==> Lasting(s.stack[i]) <= ds[i].def.Keys)
  }

  // The same by a record of origins that definitions have.
  ghost predicate Assured(floor: map<Definition, set<Node>>, globals: map<string, Definition>, locals: map<string, Definition>,
                          ds: seq<Definition>, s: State) {
    && globals.Keys == s.globals.Keys && (forall x :: x in globals ==> globals[x] in floor && Lasting(s.globals[x]) <= floor[globals[x]])
    && locals.Keys == s.locals.Keys && (forall x :: x in locals ==> locals[x] in floor && Lasting(s.locals[x]) <= floor[locals[x]])
    && |ds| == |s.stack| && (forall i :: 0 <= i < |ds| ==> ds[i] in floor && Lasting(s.stack[i]) <= floor[ds[i]])
  }

  lemma ShowsHolds(globals: map<string, Definition>, locals: map<string, Definition>, ds: seq<Definition>, s: State)
    requires Shows(globals, locals, ds, s)
    ensures Holds(globals, locals, ds, s)
  {
  }

  class ReachDefinition {
    var globals: map<string, Definition>
    var locals: map<string, Definition>
    var stack: seq<Definition>
    var labels: seq<Label>

    constructor (globals: map<string, Definition>, locals: map<string, Definition>, stack: seq<Definition>, labels: seq<Label>)
      ensures this.globals == globals && this.locals == locals && this.stack == stack && this.labels == labels
    {
      this.globals, this.locals, this.stack, this.labels := globals, locals, stack, labels;
    }

    function Size(): Shape
      reads this
    {
      Shape(globals.Keys, locals.Keys, |stack|, labels)
    }

    ghost function Vars(): set<Definition>
      reads this
    {
      globals.Values + locals.Values
    }

    ghost function Parts(): set<Definition>
      reads this
    {
      Vars() + Objects(stack)
    }

    // The state as a value.
    ghost function Snap(): (s: State)
      reads this, globals.Values, locals.Values, stack
      ensures ShapeOf(s) == Size()
    {
      State(Values(globals), Values(locals), Defs(stack), labels)
    }

    ghost predicate Apart()
      reads this
    {
      SlotsApart(globals, locals, stack)
    }

    ghost predicate Is(s: State)
      reads this, globals.Values, locals.Values, stack
    {
      labels == s.labels && Shows(globals, locals, stack, s)
    }

    // The copy constructor: variables are copied, operands are shared.
    method Clone() returns (c: ReachDefinition)
      ensures fresh(c) && fresh(c.Vars()) && CopyOf(c, this) && VarsApart(c.globals, c.locals)
    {
      var copiedGlobals := CopyVars(globals);
      var copiedLocals := CopyVars(locals);
      c := new ReachDefinition(copiedGlobals, copiedLocals, stack, labels);
    }
  }

  method CopyVars(vars: map<string, Definition>) returns (copies: map<string, Definition>)
    ensures fresh(copies.Values) && copies.Keys == vars.Keys
    ensures forall x :: x in vars ==> copies[x].def == vars[x].def
    ensures Injective(copies)
  {
    copies := map[];
    var todo := vars.Keys;
    while todo != {}
      invariant todo <= vars.Keys && copies.Keys == vars.Keys - todo && fresh(copies.Values)
      invariant forall x :: x in copies ==> copies[x].def == vars[x].def
      invariant Injective(copies)
      decreases todo
    {
      var x :| x in todo;
      var d := new Definition(vars[x].def);
      assert forall y :: y in copies ==> copies[y] in copies.Values;
      copies := copies[x := d];
      todo := todo - {x};
    }
  }

  // The same operands and labels, and variables with the same definitions.
  ghost predicate CopyOf(c: ReachDefinition, s: ReachDefinition)
    reads c, s, c.globals.Values, c.locals.Values, s.globals.Values, s.locals.Values
  {
    c.stack == s.stack && c.labels == s.labels && Values(c.globals) == Values(s.globals) && Values(c.locals) == Values(s.locals)
  }

  lemma CopyHasSize(c: ReachDefinition, s: ReachDefinition)
    requires CopyOf(c, s)
    ensures c.Size() == s.Size() && c.Snap() == s.Snap() && c.stack == s.stack
  {
    assert c.globals.Keys == Values(c.globals).Keys == Values(s.globals).Keys == s.globals.Keys;
    assert c.locals.Keys == Values(c.locals).Keys == Values(s.locals).Keys == s.locals.Keys;
  }

  lemma IsSnap(s: ReachDefinition, v: State)
    ensures s.Is(s.Snap()) && (s.Is(v) ==> s.Snap() == v)
  {
    if s.Is(v) {
      assert Values(s.globals) == v.globals && Values(s.locals) == v.locals && Defs(s.stack) == v.stack;
    }
  }

  // ----- slots -----

  function SlotsOf(s: ReachDefinition): map<Slot, Definition>
    reads s
  {
    map slot | slot in AllSlots(s.Size()) :: InSlot(s, slot)
  }

  function AllSlots(sh: Shape): (r: set<Slot>)
    ensures forall slot :: slot in r <==> Fits(sh, slot)
  {
    (set x | x in sh.globals :: GlobalSlot(x)) + (set x | x in sh.locals :: LocalSlot(x)) + (set i | 0 <= i < sh.height :: StackSlot(i))
  }

  function InSlot(s: ReachDefinition, slot: Slot): Definition
    requires Fits(s.Size(), slot)
    reads s
  {
    match slot
    case GlobalSlot(x) => s.globals[x]
    case LocalSlot(x) => s.locals[x]
    case StackSlot(i) => s.stack[|s.stack| - 1 - i]
  }

  ghost predicate SlotsAre(s: ReachDefinition, v: State)
    reads s, SlotsOf(s).Values
  {
    forall slot :: (slot in SlotsOf(s) <==> HasSlot(v, slot)) && (HasSlot(v, slot) ==> SlotsOf(s)[slot].def == At(v, slot))
  }

  lemma SlotsShow(s: ReachDefinition, v: State)
    requires s.labels == v.labels
    ensures s.Is(v) <==> SlotsAre(s, v)
  {
    hide AllSlots;
    assert s.Is(v) ==> s.Size() == ShapeOf(v);
    if SlotsAre(s, v) {
      VarsAgree(s, v);
      StacksAgree(s, v);
    }
  }

  lemma VarsAgree(s: ReachDefinition, v: State)
    requires SlotsAre(s, v)
    ensures s.globals.Keys == v.globals.Keys && forall x :: x in s.globals ==> s.globals[x].def == v.globals[x]
    ensures s.locals.Keys == v.locals.Keys && forall x :: x in s.locals ==> s.locals[x].def == v.locals[x]
  {
    hide AllSlots;
    forall x
      ensures x in s.globals <==> x in v.globals
      ensures x in s.globals ==> s.globals[x].def == v.globals[x]
    {
      assert GlobalSlot(x) in SlotsOf(s) <==> HasSlot(v, GlobalSlot(x));
    }
    forall x
      ensures x in s.locals <==> x in v.locals
      ensures x in s.locals ==> s.locals[x].def == v.locals[x]
    {
      assert LocalSlot(x) in SlotsOf(s) <==> HasSlot(v, LocalSlot(x));
    }
  }

  lemma StacksAgree(s: ReachDefinition, v: State)
    requires SlotsAre(s, v)
    ensures |s.stack| == |v.stack| && forall i :: 0 <= i < |s.stack| ==> s.stack[i].def == v.stack[i]
  {
    hide AllSlots;
    assert StackSlot(|s.stack|) in SlotsOf(s) <==> HasSlot(v, StackSlot(|s.stack|));
    assert StackSlot(|v.stack|) in SlotsOf(s) <==> HasSlot(v, StackSlot(|v.stack|));
    forall i | 0 <= i < |s.stack|
      ensures s.stack[i].def == v.stack[i]
    {
      var slot := StackSlot(|s.stack| - 1 - i);
      assert slot in SlotsOf(s) && SlotsOf(s)[slot] == s.stack[i] && At(v, slot) == v.stack[i];
    }
  }

  lemma SlotsAreParts(s: ReachDefinition)
    ensures SlotsOf(s).Values == s.Parts()
  {
    forall x | x in s.globals
      ensures s.globals[x] in SlotsOf(s).Values
    {
      assert SlotsOf(s)[GlobalSlot(x)] == s.globals[x];
    }
    forall x | x in s.locals
      ensures s.locals[x] in SlotsOf(s).Values
    {
      assert SlotsOf(s)[LocalSlot(x)] == s.locals[x];
    }
    forall i | 0 <= i < |s.stack|
      ensures s.stack[i] in SlotsOf(s).Values
    {
      assert SlotsOf(s)[StackSlot(|s.stack| - 1 - i)] == s.stack[i];
    }
  }

  // No definition serves two slots, of the same state or of both.
  ghost predicate Unmixed(slots: map<Slot, Definition>, others: map<Slot, Definition>) {
    && (forall x, y :: x in slots && y in slots && x != y ==> slots[x] != slots[y])
    && (forall x, y :: x in slots && y in others && x != y ==> slots[x] != others[y])
  }

  lemma ApartUnmixed(s: ReachDefinition, t: ReachDefinition)
    requires s.Apart() && s.Parts() !! t.Parts()
    ensures Unmixed(SlotsOf(s), SlotsOf(t))
  {
    hide AllSlots;
    SlotsAreParts(s);
    SlotsAreParts(t);
    forall x, y | x in SlotsOf(s) && y in SlotsOf(s) && x != y
      ensures SlotsOf(s)[x] != SlotsOf(s)[y]
    {
      assert x.GlobalSlot? ==> SlotsOf(s)[x] in s.globals.Values;
      assert x.LocalSlot? ==> SlotsOf(s)[x] in s.locals.Values;
      assert x.StackSlot? ==> SlotsOf(s)[x] in Objects(s.stack);
      assert y.GlobalSlot? ==> SlotsOf(s)[y] in s.globals.Values;
      assert y.LocalSlot? ==> SlotsOf(s)[y] in s.locals.Values;
      assert y.StackSlot? ==> SlotsOf(s)[y] in Objects(s.stack);
    }
    forall x, y | x in SlotsOf(s) && y in SlotsOf(t)
      ensures SlotsOf(s)[x] != SlotsOf(t)[y]
    {
      assert SlotsOf(s)[x] in s.Parts() && SlotsOf(t)[y] in t.Parts();
    }
  }

  // Every slot has at least the origins of these values.
  ghost predicate HasOrigins(s: ReachDefinition, v: State)
    reads s, SlotsOf(s).Values
  {
    forall slot :: HasSlot(v, slot) ==> slot in SlotsOf(s) && At(v, slot).Keys <= SlotsOf(s)[slot].def.Keys
  }

  // Every slot of `w` has its origins in `v`, too.
  ghost predicate Covers(v: State, w: State) {
    forall slot :: HasSlot(w, slot) ==> HasSlot(v, slot) && At(w, slot).Keys <= At(v, slot).Keys
  }

  lemma CoversItself(v: State)
    ensures Covers(v, v)
  {
  }

  lemma CoversMore(u: State, v: State, w: State)
    requires Covers(u, v) && Covers(v, w)
    ensures Covers(u, w)
  {
    forall slot | HasSlot(w, slot)
      ensures HasSlot(u, slot) && At(w, slot).Keys <= At(u, slot).Keys
    {
      assert HasSlot(v, slot) && At(w, slot).Keys <= At(v, slot).Keys <= At(u, slot).Keys;
    }
  }

  lemma OriginsCover(s: ReachDefinition, v: State)
    ensures HasOrigins(s, v) <==> Covers(s.Snap(), v)
  {
    hide SlotsOf, At;
    IsSnap(s, s.Snap());
    SlotsShow(s, s.Snap());
  }

  ghost function AllParts(states: set<ReachDefinition>): set<Definition>
    reads states
  {
    set s, d | s in states && d in s.Parts() :: d
  }

  ghost function Stacks(states: set<ReachDefinition>): map<ReachDefinition, seq<Definition>>
    reads states
  {
    map s | s in states :: s.stack
  }

  // States that have no definition in common.
  ghost predicate Separate(states: set<ReachDefinition>)
    reads states
  {
    && (forall s :: s in states ==> s.Apart())
    && (forall s, t :: s in states && t in states && s != t ==> s.Parts() !! t.Parts())
  }

  // ReachDefinition::equals: stacks and labels count only where they have
  // the same size.
  predicate SameState(s: ReachDefinition, other: ReachDefinition)
    reads s, other, s.globals.Values, s.locals.Values, s.stack, other.globals.Values, other.locals.Values, other.stack
  {
    && SameVars(s.globals, other.globals) && SameVars(s.locals, other.locals)
    && (|s.stack| == |other.stack| ==> forall i :: 0 <= i < |s.stack| ==> s.stack[i].Equals(other.stack[i]))
    && (|s.labels| == |other.labels| ==> s.labels == other.labels)
  }

  predicate SameVars(vars: map<string, Definition>, other: map<string, Definition>)
    reads vars.Values, other.Values
  {
    vars.Keys == other.Keys && forall x :: x in vars ==> vars[x].Equals(other[x])
  }
}
