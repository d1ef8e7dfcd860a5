// How far the saved state of a loop can grow: origins are counted, all of them
// in its variables, and those that no visit takes away in its operands.
module Growth {
  import opened DataFlow
  import opened FlowLaws
  import opened Provenance
  import opened ReachDefinitions

  // Each slot with each of its origins that it will not lose: kept variables
  // lose none, operands only constants.
  ghost function Enduring(v: State): (r: set<(Slot, Node)>)
    ensures forall slot, o :: (slot, o) in r <==> Has(v, slot, o) && Endures(slot, o)
  {
    set slot, o | slot in AllSlots(ShapeOf(v)) && o in OriginsIn(v, slot) && Endures(slot, o) :: (slot, o)
  }

  predicate Endures(slot: Slot, o: Node) {
    slot.StackSlot? ==> !o.inst.Const?
  }

  function OriginsIn(v: State, slot: Slot): set<Node> {
    if HasSlot(v, slot) then At(v, slot).Keys else {}
  }

  // The same by a record of origins that definitions have.
  ghost function Noted(floor: map<Definition, set<Node>>, s: ReachDefinition): (r: set<(Slot, Node)>)
    reads s
    ensures forall slot, o :: (slot, o) in r <==> slot in SlotsOf(s) && SlotsOf(s)[slot] in floor && o in floor[SlotsOf(s)[slot]]
  {
    set slot, o | slot in SlotsOf(s).Keys && o in FloorOf(floor, SlotsOf(s)[slot]) :: (slot, o)
  }

  function FloorOf(floor: map<Definition, set<Node>>, d: Definition): set<Node> {
    if d in floor then floor[d] else {}
  }

  lemma NotedMore(floor: map<Definition, set<Node>>, more: map<Definition, set<Node>>, s: ReachDefinition)
    requires forall d :: d in floor ==> d in more && floor[d] <= more[d]
    ensures Noted(floor, s) <= Noted(more, s)
  {
    hide SlotsOf;
  }

  // The record holds no more than is there.
  lemma NotedIsThere(floor: map<Definition, set<Node>>, s: ReachDefinition, v: State)
    requires s.Is(v) && forall d :: d in floor ==> floor[d] <= d.def.Keys
    requires forall d, k :: d in floor && d in s.stack && k in floor[d] ==> !k.inst.Const?
    ensures Noted(floor, s) <= Enduring(v)
  {
    hide AllSlots;
    SlotsShow(s, v);
    forall slot, o | (slot, o) in Noted(floor, s)
      ensures Has(v, slot, o) && Endures(slot, o)
    {
      assert slot.StackSlot? ==> SlotsOf(s)[slot] in s.stack;
    }
  }

  // A full record holds all that endures.
  lemma AllIsNoted(floor: map<Definition, set<Node>>, s: ReachDefinition, v: State)
    requires s.Is(v) && (forall d :: d in s.Vars() ==> d in floor && floor[d] == d.def.Keys)
    requires forall d :: d in s.stack ==> d in floor && floor[d] == Lasting(d.def)
    ensures Noted(floor, s) == Enduring(v)
  {
    hide AllSlots;
    SlotsShow(s, v);
    forall slot, o
      ensures (slot, o) in Noted(floor, s) <==> (slot, o) in Enduring(v)
    {
      if HasSlot(v, slot) {
        assert slot in SlotsOf(s) && SlotsOf(s)[slot].def == At(v, slot);
        assert slot.StackSlot? ==> SlotsOf(s)[slot] in s.stack;
        assert !slot.StackSlot? ==> SlotsOf(s)[slot] in s.Vars();
      }
    }
  }

  lemma EnduringCovers(v: State, w: State)
    requires Covers(v, w)
    ensures Enduring(w) <= Enduring(v)
  {
    forall slot, o | (slot, o) in Enduring(w)
      ensures (slot, o) in Enduring(v)
    {
      assert HasSlot(w, slot);
    }
  }

  // States in which the same endures differ in nothing but the constants
  // among the origins of operands.
  lemma OnlyConstants(v: State, w: State, slot: Slot)
    requires ShapeOf(v) == ShapeOf(w) && Enduring(v) == Enduring(w) && HasSlot(w, slot)
    ensures HasSlot(v, slot) && Lasting(At(v, slot)) == Lasting(At(w, slot)) && (!slot.StackSlot? ==> At(v, slot).Keys == At(w, slot).Keys)
  {
    forall o
      ensures Endures(slot, o) ==> (o in At(v, slot) <==> o in At(w, slot))
    {
      assert (slot, o) in Enduring(v) <==> (slot, o) in Enduring(w);
    }
  }

  // ----- sizes -----

  lemma Fewer<T>(a: set<T>, b: set<T>)
    requires a <= b
    ensures |a| <= |b| && (a != b ==> |a| < |b|)
  {
    assert b == a + (b - a) && |b| == |a| + |b - a|;
    if a != b {
      var p :| p in b - a;
    }
  }

  function Times(a: nat, b: nat): nat {
    a * b
  }

  ghost function Product(slots: set<Slot>, ks: set<Node>): set<(Slot, Node)> {
    set slot, k | slot in slots && k in ks :: (slot, k)
  }

  lemma {:induction false} RowSize(slot: Slot, ks: set<Node>, ps: set<(Slot, Node)>)
    requires ps == set k | k in ks :: (slot, k)
    ensures |ps| == |ks|
  {
    if ks != {} {
      var k :| k in ks;
      RowSize(slot, ks - {k}, ps - {(slot, k)});
    } else {
      assert ps == {};
    }
  }

  lemma {:induction false} ProductSize(slots: set<Slot>, ks: set<Node>)
    ensures |Product(slots, ks)| == Times(|slots|, |ks|)
  {
    if slots == {} {
      assert Product(slots, ks) == {};
    } else {
      var slot :| slot in slots;
      var row := set k | k in ks :: (slot, k);
      assert Product(slots, ks) == Product(slots - {slot}, ks) + row;
      RowSize(slot, ks, row);
      ProductSize(slots - {slot}, ks);
    }
  }

  function GlobalSlots(xs: set<string>): set<Slot> {
    set x | x in xs :: GlobalSlot(x)
  }

  function LocalSlots(xs: set<string>): set<Slot> {
    set x | x in xs :: LocalSlot(x)
  }

  function StackSlots(height: nat): set<Slot> {
    set i | 0 <= i < height :: StackSlot(i)
  }

  lemma {:induction false} GlobalCount(xs: set<string>)
    ensures |GlobalSlots(xs)| == |xs|
  {
    if x :| x in xs {
      GlobalCount(xs - {x});
      assert GlobalSlots(xs) == GlobalSlots(xs - {x}) + {GlobalSlot(x)};
    } else {
      assert GlobalSlots(xs) == {};
    }
  }

  lemma {:induction false} LocalCount(xs: set<string>)
    ensures |LocalSlots(xs)| == |xs|
  {
    if x :| x in xs {
      LocalCount(xs - {x});
      assert LocalSlots(xs) == LocalSlots(xs - {x}) + {LocalSlot(x)};
    } else {
      assert LocalSlots(xs) == {};
    }
  }

  lemma {:induction false} StackCount(height: nat)
    ensures |StackSlots(height)| == height
  {
    if height > 0 {
      StackCount(height - 1);
      assert StackSlots(height) == StackSlots(height - 1) + {StackSlot(height - 1)};
    } else {
      assert StackSlots(height) == {};
    }
  }

  // As many pairs as there can be of a variable and an origin, or of an
  // operand and an origin that lasts.
  ghost function Bound(sh: Shape, origins: set<Node>): nat {
    Times(|sh.globals| + |sh.locals|, |origins|) + Times(sh.height, |LastingOf(origins)|)
  }

  function LastingOf(origins: set<Node>): set<Node> {
    set k | k in origins && !k.inst.Const?
  }

  lemma EnduringInProducts(v: State, origins: set<Node>)
    requires forall slot :: HasSlot(v, slot) ==> At(v, slot).Keys <= origins
    ensures var sh := ShapeOf(v);
            Enduring(v) <= Product(GlobalSlots(sh.globals), origins) + Product(LocalSlots(sh.locals), origins)
                           + Product(StackSlots(sh.height), LastingOf(origins))
  {
    forall slot, o | (slot, o) in Enduring(v)
      ensures match slot
              case GlobalSlot(_) => (slot, o) in Product(GlobalSlots(v.globals.Keys), origins)
              case LocalSlot(_) => (slot, o) in Product(LocalSlots(v.locals.Keys), origins)
              case StackSlot(_) => (slot, o) in Product(StackSlots(|v.stack|), LastingOf(origins))
    {
      assert HasSlot(v, slot) && o in origins;
    }
  }

  lemma FewerThanAll<T>(some: set<T>, a: set<T>, b: set<T>, c: set<T>)
    requires some <= a + b + c
    ensures |some| <= |a| + |b| + |c|
  {
    Fewer(some, a + b + c);
    Together(a, b, c);
  }

  lemma SumOfProducts(v: State, origins: set<Node>)
    requires forall slot :: HasSlot(v, slot) ==> At(v, slot).Keys <= origins
    ensures var sh := ShapeOf(v);
            |Enduring(v)| <= |Product(GlobalSlots(sh.globals), origins)| + |Product(LocalSlots(sh.locals), origins)|
                             + |Product(StackSlots(sh.height), LastingOf(origins))|
  {
    EnduringInProducts(v, origins);
    var sh := ShapeOf(v);
    hide Product, Enduring, GlobalSlots, LocalSlots, StackSlots, LastingOf, HasSlot, At;
    FewerThanAll(Enduring(v), Product(GlobalSlots(sh.globals), origins), Product(LocalSlots(sh.locals), origins),
                 Product(StackSlots(sh.height), LastingOf(origins)));
  }

  lemma SizesOfProducts(sh: Shape, origins: set<Node>)
    ensures |Product(GlobalSlots(sh.globals), origins)| + |Product(LocalSlots(sh.locals), origins)|
            + |Product(StackSlots(sh.height), LastingOf(origins))| == Bound(sh, origins)
  {
    hide Product, GlobalSlots, LocalSlots, StackSlots, LastingOf, Times;
    ProductSize(GlobalSlots(sh.globals), origins);
    ProductSize(LocalSlots(sh.locals), origins);
    ProductSize(StackSlots(sh.height), LastingOf(origins));
    GlobalCount(sh.globals);
    LocalCount(sh.locals);
    StackCount(sh.height);
    Distributes(|sh.globals|, |sh.locals|, |origins|);
  }

  lemma EnduringBounded(v: State, origins: set<Node>)
    requires forall slot :: HasSlot(v, slot) ==> At(v, slot).Keys <= origins
    ensures |Enduring(v)| <= Bound(ShapeOf(v), origins)
  {
    SumOfProducts(v, origins);
    SizesOfProducts(ShapeOf(v), origins);
  }

  lemma Together<T>(a: set<T>, b: set<T>, c: set<T>)
    ensures |a + b + c| <= |a| + |b| + |c|
  {
  }

  lemma Distributes(a: nat, b: nat, c: nat)
    ensures Times(a + b, c) == Times(a, c) + Times(b, c)
  {
  }

  // ----- copies -----

  lemma CopyIsSame(c: ReachDefinition, s: ReachDefinition, before: ReachDefinition)
    requires CopyOf(c, s)
    ensures (SameState(c, before) <==> SameState(s, before)) && c.Size() == s.Size() && c.Snap() == s.Snap()
  {
    CopyHasSize(c, s);
    SameValues(c.globals, s.globals);
    SameValues(c.locals, s.locals);
  }

  lemma SameValues(vars: map<string, Definition>, others: map<string, Definition>)
    requires Values(vars) == Values(others)
    ensures vars.Keys == others.Keys && forall x :: x in vars ==> vars[x].def == others[x].def
  {
    assert vars.Keys == Values(vars).Keys && others.Keys == Values(others).Keys;
    forall x | x in vars
      ensures vars[x].def == others[x].def
    {
      assert Values(vars)[x] == Values(others)[x];
    }
  }

  // ----- gains -----

  // The state has all that the other has, and somewhere more.
  ghost predicate Gains(v: State, w: State) {
    Covers(v, w) && exists slot, o :: Has(v, slot, o) && !Has(w, slot, o)
  }

  ghost predicate AllWf(s: ReachDefinition)
    reads s, SlotsOf(s).Values
  {
    forall x :: x in SlotsOf(s) ==> WfDef(SlotsOf(s)[x].def)
  }

  // States of one size that are not equal differ in some slot.
  lemma DifferSomewhere(s: ReachDefinition, t: ReachDefinition) returns (slot: Slot)
    requires s.Size() == t.Size() && !SameState(s, t)
    ensures slot in SlotsOf(s) && slot in SlotsOf(t) && !SameDef(SlotsOf(s)[slot].def, SlotsOf(t)[slot].def)
  {
    if !SameVars(s.globals, t.globals) {
      var x :| x in s.globals && !s.globals[x].Equals(t.globals[x]);
      slot := GlobalSlot(x);
    } else if !SameVars(s.locals, t.locals) {
      var x :| x in s.locals && !s.locals[x].Equals(t.locals[x]);
      slot := LocalSlot(x);
    } else {
      var i :| 0 <= i < |s.stack| && !s.stack[i].Equals(t.stack[i]);
      slot := StackSlot(|s.stack| - 1 - i);
    }
  }

  // If one of them covers the other, it has an origin there that the other
  // has not.
  lemma UnequalGains(s: ReachDefinition, t: ReachDefinition, v: State, w: State)
    requires s.Size() == t.Size() && !SameState(s, t) && s.Is(v) && t.Is(w) && AllWf(s) && AllWf(t) && Covers(v, w)
    ensures Gains(v, w)
  {
    hide Shows;
    SlotsShow(s, v);
    SlotsShow(t, w);
    var slot := DifferSomewhere(s, t);
    EqualIsSameOrigins(At(v, slot), At(w, slot));
    var o :| o in At(v, slot) && o !in At(w, slot);
    assert Has(v, slot, o) && !Has(w, slot, o);
  }
}
