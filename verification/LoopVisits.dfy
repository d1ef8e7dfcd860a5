// Visits to loop heads, by the builder of PdgBuilder.dfy.
module LoopVisits {
  import opened Wrappers
  import opened DataFlow
  import opened Flowgraph
  import opened FlowLaws
  import opened Provenance
  import opened ReachDefinitions
  import opened Growth
  import opened VisitLaws
  import opened PdgBuilder

  // ----- loop heads -----

  // Copies that are kept change the cache or the saved state of one loop.
  method CacheState(b: Builder, n: Node, s: ReachDefinition)
    requires b.Valid() && s in b.states
    modifies b`cache, b`defs, b`kept, b`states, b`saved
    ensures b.Valid() && b.Grown() && b.defs == old(b.defs) && b.states == old(b.states)
    ensures n in b.cache && b.cache == old(b.cache)[n := b.cache[n]] && fresh(b.cache[n]) && CopyOf(b.cache[n], s)
  {
    hide Builder.Sound, Builder.Owned, CopyOf, ReachDefinition.Vars, Objects;
    var copy := b.Keep(s);
    b.cache := b.cache[n := copy];
  }

  method SaveState(b: Builder, n: Node, s: ReachDefinition)
    requires b.Valid() && s in b.states
    modifies b`loops, b`defs, b`kept, b`states, b`saved
    ensures b.Valid() && b.Grown() && b.defs == old(b.defs) && b.states == old(b.states)
    ensures n in b.loops && b.loops == old(b.loops)[n := b.loops[n]] && fresh(b.loops[n]) && CopyOf(b.loops[n], s)
  {
    hide Builder.Sound, Builder.Owned, CopyOf, ReachDefinition.Vars, Objects;
    var copy := b.Keep(s);
    b.loops := b.loops[n := copy];
  }

  // The states that have gone on all have the size and the operands of `s`.
  ghost predicate WentOn(b: Builder, was: Before, n: Node, s: ReachDefinition, sent: map<CfgEdge, ReachDefinition>)
    reads b`states, b`reachDef, b`dfsList, b`loopsStack, s, sent.Values
  {
    b.Moved(was, n, {s}, sent) && b.AllSentDiffer(sent) && forall e :: e in sent ==> sent[e].Size() == s.Size() && sent[e].stack == s.stack
  }

  method GoOn(b: Builder, n: Node, s: ReachDefinition) returns (ghost sent: map<CfgEdge, ReachDefinition>)
    requires b.Valid() && s in b.states
    modifies b`reachDef, b`dfsList, b`defs, b`kept, b`states, b`saved
    ensures b.Valid() && b.Grown() && b.kept == old(b.kept) && b.saved == old(b.saved) && WentOn(b, old(b.Now(n)), n, s, sent)
  {
    hide Builder.Sound, Builder.Linked, Builder.Moved, Builder.SentAlong, Separate, AllParts;
    sent := b.Advance(n, s);
    b.SentDiffer(b.graph.OutEdges(n), s, sent, old(b.defs));
    b.SentSizes(s, sent, old(b.defs));
  }

  method SaveAndAdvance(b: Builder, n: Node, s: ReachDefinition) returns (ghost sent: map<CfgEdge, ReachDefinition>)
    requires b.Valid() && s in b.states
    modifies b`dfsList, b`reachDef, b`loops, b`defs, b`kept, b`states, b`saved
    ensures b.Valid() && b.Grown() && WentOn(b, old(b.Now(n)), n, s, sent)
    ensures n in b.loops && b.loops == old(b.loops)[n := b.loops[n]] && fresh(b.loops[n]) && b.loops[n] in b.saved && CopyOf(b.loops[n], s)
  {
    hide Builder.Sound, Builder.Owned, Builder.Moved, CopyOf, Separate, AllParts, Builder.AllSentDiffer;
    SaveState(b, n, s);
    ghost var after := b.Now(n);
    sent := GoOn(b, n, s);
    b.MovedToo(after, old(b.Now(n)), n, {s}, {s}, sent);
  }

  lemma AllSoundIsWf(b: Builder, s: ReachDefinition)
    requires b.Sound() && s.Parts() <= b.defs + b.kept
    ensures AllWf(s)
  {
    hide Builder.Sound, Objects, ReachDefinition.Parts, AllSlots;
    SlotsAreParts(s);
    forall x | x in SlotsOf(s)
      ensures WfDef(SlotsOf(s)[x].def)
    {
      assert SlotsOf(s)[x] in SlotsOf(s).Values;
      b.SoundAt(SlotsOf(s)[x]);
    }
  }

  // Unites a state with the saved one of a loop. It then has all that the
  // saved state had, and somewhere more if they are not equal.
  method Unite(b: Builder, s: ReachDefinition, before: ReachDefinition, ghost v: State, ghost apart: bool) returns (ok: bool, changed: bool)
    requires b.Valid() && s in b.states && before in b.saved && before.Is(v) && (apart ==> Unmixed(SlotsOf(s), SlotsOf(before)))
    modifies s.Parts()
    ensures b.Valid() && changed == (ok && !SameState(s, before)) && (s.Size() == before.Size() ==> ok)
    ensures ok ==> Covers(s.Snap(), v)
    ensures changed && apart && s.Size() == before.Size() ==> Gains(s.Snap(), v)
  {
    hide Builder.Sound, Shows, SlotsOf, Unmixed, UnionState, Covers, Gains, Objects, ReachDefinition.Snap, ReachDefinition.Parts, ReachDefinition.Vars;
    ghost var was := s.Snap();
    IsSnap(s, was);
    b.SizeIs(s, was);
    b.SizeIs(before, v);
    Sealed(b, s, before);
    ok := b.UnionStates(s, before, was, v);
    changed := ok && !SameState(s, before);
    if changed && s.Size() == before.Size() && apart {
      MoreAfterUnion(b, s, before, v);
    }
  }

  lemma Sealed(b: Builder, s: ReachDefinition, before: ReachDefinition)
    requires b.Valid() && s in b.states && before in b.saved
    ensures s.Parts() !! before.Vars() && s.Parts() + before.Parts() <= b.defs + b.kept && before.Vars() <= b.kept
  {
  }

  lemma MoreAfterUnion(b: Builder, s: ReachDefinition, before: ReachDefinition, theirs: State)
    requires b.Valid() && s in b.states && before in b.saved && s.Size() == before.Size() && !SameState(s, before)
    requires before.Is(theirs) && Covers(s.Snap(), theirs)
    ensures Gains(s.Snap(), theirs)
  {
    hide Builder.Sound, Builder.Linked, Shows, SlotsOf, Covers, Gains, ReachDefinition.Parts, ReachDefinition.Vars;
    Sealed(b, s, before);
    AllSoundIsWf(b, s);
    AllSoundIsWf(b, before);
    IsSnap(s, s.Snap());
    UnequalGains(s, before, s.Snap(), theirs);
  }

  // ----- what saved states keep -----

  ghost predicate NoLess(b: Builder, records: map<Node, set<(Slot, Node)>>)
    reads b`loops, b`floor, b.loops.Values
  {
    forall n :: n in records ==> n in b.loops && records[n] <= Noted(b.floor, b.loops[n])
  }

  // What has become of the saved states in a visit to `n`: nothing that was
  // on record is gone, and what endures of a new one is on record.
  ghost predicate KeepsOn(b: Builder, n: Node, oldLoops: map<Node, ReachDefinition>, oldFloor: map<Definition, set<Node>>)
    reads *
  {
    && b.Risen(oldFloor)
    && (b.loops == oldLoops
        || (n in b.loops && b.loops == oldLoops[n := b.loops[n]] &&
            (n in oldLoops ==> b.loops[n] != oldLoops[n] && Noted(oldFloor, oldLoops[n]) <= Noted(b.floor, b.loops[n]) == Enduring(b.loops[n].Snap()))))
  }

  lemma KeptOn(b: Builder, n: Node, oldLoops: map<Node, ReachDefinition>, oldFloor: map<Definition, set<Node>>)
    requires KeepsOn(b, n, oldLoops, oldFloor)
    ensures forall m :: m in oldLoops ==> m in b.loops && Noted(oldFloor, oldLoops[m]) <= Noted(b.floor, b.loops[m])
  {
    hide Noted, Enduring, ReachDefinition.Snap;
    forall m | m in oldLoops
      ensures m in b.loops && Noted(oldFloor, oldLoops[m]) <= Noted(b.floor, b.loops[m])
    {
      if m != n || b.loops == oldLoops {
        NotedMore(oldFloor, b.floor, oldLoops[m]);
      }
    }
  }

  // A saved state has all that is on record for it.
  lemma SavedHasNoted(b: Builder, n: Node, v: State)
    requires b.Valid() && n in b.loops && b.loops[n].Is(v)
    ensures Noted(b.floor, b.loops[n]) <= Enduring(v)
  {
    hide Builder.Traceable, Shows, Enduring, Noted;
    InSaved(b, n);
    forall d, k | d in b.floor && d in b.loops[n].stack && k in b.floor[d]
      ensures !k.inst.Const?
    {
      assert d in Objects(b.loops[n].stack);
    }
    NotedIsThere(b.floor, b.loops[n], v);
  }

  // A record that is up to date has all that endures of it.
  lemma SavedIsNoted(b: Builder, n: Node, v: State)
    requires b.Valid() && b.Current() && n in b.loops && b.loops[n].Is(v)
    ensures Noted(b.floor, b.loops[n]) == Enduring(v)
  {
    hide Builder.Sound, Shows, Enduring, Noted;
    InSaved(b, n);
    forall d | d in b.loops[n].stack
      ensures d in b.floor && b.floor[d] == Lasting(d.def)
    {
      assert d in Objects(b.loops[n].stack);
    }
    AllIsNoted(b.floor, b.loops[n], v);
  }

  // ----- changes -----

  // The active loops with `n` for the innermost one, and without it.
  function WithLoop(stack: seq<Node>, n: Node): seq<Node> {
    if stack != [] && stack[0] == n then stack else [n] + stack
  }

  function WithoutLoop(stack: seq<Node>, n: Node): seq<Node> {
    if stack != [] && stack[0] == n then stack[1..] else stack
  }

  method EnterLoop(b: Builder, n: Node)
    requires b.Valid()
    modifies b`loopsStack
    ensures b.Valid() && b.loopsStack == WithLoop(old(b.loopsStack), n)
  {
    if b.loopsStack == [] || b.loopsStack[0] != n {
      b.loopsStack := [n] + b.loopsStack;
    }
  }

  // `n` has a new saved state, a copy of `s`: it has all that the one before
  // had, and differs from it.
  ghost predicate Rewritten(b: Builder, n: Node, s: ReachDefinition, before: ReachDefinition, v: State, apart: bool,
                            oldLoops: map<Node, ReachDefinition>, oldFloor: map<Definition, set<Node>>)
    reads *
  {
    && n in b.loops && b.loops == oldLoops[n := b.loops[n]] && CopyOf(b.loops[n], s)
    && Covers(b.loops[n].Snap(), v) && !SameState(b.loops[n], before)
    && b.Risen(oldFloor) && Noted(b.floor, b.loops[n]) == Enduring(b.loops[n].Snap())
    && (apart && s.Size() == before.Size() ==> Gains(b.loops[n].Snap(), v))
  }

  lemma RewrittenKeeps(b: Builder, n: Node, s: ReachDefinition, before: ReachDefinition, v: State, apart: bool,
                       oldLoops: map<Node, ReachDefinition>, oldFloor: map<Definition, set<Node>>)
    requires Rewritten(b, n, s, before, v, apart, oldLoops, oldFloor)
    requires n in oldLoops && oldLoops[n] == before && Noted(oldFloor, before) <= Enduring(v)
    ensures KeepsOn(b, n, oldLoops, oldFloor)
  {
    hide Covers, CopyOf, Enduring, Noted, ReachDefinition.Snap, Gains;
    EnduringCovers(b.loops[n].Snap(), v);
  }

  // The saved state of a loop that has the operands it had has more on record.
  ghost predicate Widened(b: Builder, n: Node, oldLoops: map<Node, ReachDefinition>, oldFloor: map<Definition, set<Node>>)
    reads *
  {
    && n in oldLoops && n in b.loops
    && (b.loops[n].stack == oldLoops[n].stack && b.loops[n].Size() == oldLoops[n].Size() ==> Noted(oldFloor, oldLoops[n]) < Noted(b.floor, b.loops[n]))
  }

  ghost predicate VarsAre(s: ReachDefinition, v: State)
    reads s, s.globals.Values, s.locals.Values
  {
    Values(s.globals) == v.globals && Values(s.locals) == v.locals
  }

  // Unequal states with the same operands differ in a variable.
  lemma VarsDiffer(s: ReachDefinition, t: ReachDefinition, v: State, w: State)
    requires s.Size() == t.Size() && s.stack == t.stack && !SameState(s, t) && s.Is(v) && VarsAre(t, w) && AllWf(s) && AllWf(t) && Covers(v, w)
    ensures exists slot: Slot, o :: !slot.StackSlot? && Has(v, slot, o) && !Has(w, slot, o)
  {
    if !SameVars(s.globals, t.globals) {
      var x :| x in s.globals && !s.globals[x].Equals(t.globals[x]);
      VarDiffers(s, t, v, w, GlobalSlot(x));
    } else {
      var x :| x in s.locals && !s.locals[x].Equals(t.locals[x]);
      VarDiffers(s, t, v, w, LocalSlot(x));
    }
  }

  lemma VarDiffers(s: ReachDefinition, t: ReachDefinition, v: State, w: State, slot: Slot)
    requires s.Size() == t.Size() && s.Is(v) && VarsAre(t, w) && AllWf(s) && AllWf(t) && Covers(v, w)
    requires slot in SlotsOf(s) && slot in SlotsOf(t) && !slot.StackSlot? && !SameDef(SlotsOf(s)[slot].def, SlotsOf(t)[slot].def)
    ensures exists o :: Has(v, slot, o) && !Has(w, slot, o)
  {
    hide AllSlots, WfDef, Shows;
    SlotsShow(s, v);
    assert HasSlot(v, slot) && HasSlot(w, slot) && At(v, slot) == SlotsOf(s)[slot].def && At(w, slot) == SlotsOf(t)[slot].def;
    EqualIsSameOrigins(At(v, slot), At(w, slot));
    var o :| o in At(v, slot) && o !in At(w, slot);
    assert Has(v, slot, o) && !Has(w, slot, o);
  }

  lemma RewrittenWidens(b: Builder, n: Node, s: ReachDefinition, before: ReachDefinition, v: State, apart: bool,
                        oldLoops: map<Node, ReachDefinition>, oldFloor: map<Definition, set<Node>>)
    requires b.Valid() && Rewritten(b, n, s, before, v, apart, oldLoops, oldFloor) && before in b.saved && VarsAre(before, v)
    requires n in oldLoops && oldLoops[n] == before && Noted(oldFloor, before) <= Enduring(v)
    ensures Widened(b, n, oldLoops, oldFloor)
  {
    hide Builder.Sound, Builder.Linked, CopyOf, Enduring, Noted, ReachDefinition.Snap, SameState, Gains, Shows, VarsAre, AllWf, Covers, Has, SlotsOf,
         ReachDefinition.Parts, ReachDefinition.Vars, Builder.Risen;
    var t := b.loops[n];
    InSaved(b, n);
    if t.stack == before.stack && t.Size() == before.Size() {
      SavedParts(b, t);
      SavedParts(b, before);
      AllSoundIsWf(b, t);
      AllSoundIsWf(b, before);
      IsSnap(t, t.Snap());
      VarsDiffer(t, before, t.Snap(), v);
      var slot: Slot, o :| !slot.StackSlot? && Has(t.Snap(), slot, o) && !Has(v, slot, o);
      EnduringCovers(t.Snap(), v);
      assert (slot, o) in Enduring(t.Snap()) && (slot, o) !in Enduring(v);
    }
  }

  lemma SavedParts(b: Builder, s: ReachDefinition)
    requires b.Valid() && s in b.saved
    ensures s.Parts() <= b.defs + b.kept
  {
  }

  method SaveAndRemember(b: Builder, n: Node, s: ReachDefinition) returns (ghost sent: map<CfgEdge, ReachDefinition>)
    requires b.Valid() && s in b.states
    modifies b`dfsList, b`reachDef, b`loops, b`defs, b`kept, b`states, b`saved, b`floor
    ensures b.Valid() && b.Grown() && b.Risen(old(b.floor)) && WentOn(b, old(b.Now(n)), n, s, sent)
    ensures n in b.loops && b.loops == old(b.loops)[n := b.loops[n]] && CopyOf(b.loops[n], s) && Noted(b.floor, b.loops[n]) == Enduring(b.loops[n].Snap())
  {
    hide Builder.Sound, Builder.Owned, Builder.Placed, CopyOf, WentOn, ReachDefinition.Snap, Builder.Current, Builder.Risen, Noted, Enduring,
         Separate, AllParts, ReachDefinition.Vars, ReachDefinition.Parts, Objects, Shows;
    sent := SaveAndAdvance(b, n, s);
    b.Remember();
    IsSnap(b.loops[n], b.loops[n].Snap());
    SavedIsNoted(b, n, b.loops[n].Snap());
  }

  method Replace(b: Builder, n: Node, s: ReachDefinition, ghost before: ReachDefinition, ghost v: State, ghost apart: bool) returns (ghost sent: map<CfgEdge, ReachDefinition>)
    requires b.Valid() && s in b.states && before in b.saved && !SameState(s, before) && Covers(s.Snap(), v)
    requires apart && s.Size() == before.Size() ==> Gains(s.Snap(), v)
    modifies b`dfsList, b`reachDef, b`loops, b`defs, b`kept, b`states, b`saved, b`floor
    ensures b.Valid() && b.Grown() && WentOn(b, old(b.Now(n)), n, s, sent)
    ensures Rewritten(b, n, s, before, v, apart, old(b.loops), old(b.floor))
  {
    hide Builder.Sound, Builder.Owned, Builder.Placed, CopyOf, SameState, Covers, WentOn, ReachDefinition.Snap, Builder.Risen, Noted, Enduring,
         Separate, AllParts, ReachDefinition.Vars, ReachDefinition.Parts, Objects, Gains;
    sent := SaveAndRemember(b, n, s);
    CopyIsSame(b.loops[n], s, before);
  }

  method Rewrite(b: Builder, n: Node, s: ReachDefinition, ghost before: ReachDefinition, ghost v: State, ghost apart: bool) returns (ghost sent: map<CfgEdge, ReachDefinition>)
    requires b.Valid() && s in b.states && before in b.saved && !SameState(s, before) && Covers(s.Snap(), v)
    requires apart && s.Size() == before.Size() ==> Gains(s.Snap(), v)
    modifies b`dfsList, b`reachDef, b`loops, b`loopsStack, b`defs, b`kept, b`states, b`saved, b`floor
    ensures b.Valid() && b.Grown() && WentOn(b, old(b.Now(n)), n, s, sent) && b.loopsStack == WithLoop(old(b.loopsStack), n)
    ensures Rewritten(b, n, s, before, v, apart, old(b.loops), old(b.floor))
  {
    hide Builder.Sound, Builder.Linked, SameState, Covers, WentOn, ReachDefinition.Snap, Rewritten, Separate, AllParts, Gains;
    EnterLoop(b, n);
    sent := Replace(b, n, s, before, v, apart);
  }

  // A visit from inside goes on only if the loop is the innermost active one.
  predicate Leaves(b: Builder, n: Node, stack: seq<Node>)
    reads b`loopsInsts, b`lastNode
  {
    !(b.lastNode in b.Members(n) && (stack == [] || stack[0] != n))
  }

  // The saved state has not changed: leave the loop, which is then no longer
  // active, or stop here.
  method Settled(b: Builder, n: Node, s: ReachDefinition) returns (on: bool, ghost sent: map<CfgEdge, ReachDefinition>)
    requires b.Valid() && s in b.states
    modifies b`dfsList, b`reachDef, b`cache, b`loopsStack, b`defs, b`kept, b`states, b`saved
    ensures b.Valid() && b.Grown() && n in b.cache && b.cache == old(b.cache)[n := b.cache[n]] && CopyOf(b.cache[n], s)
    ensures on <==> Leaves(b, n, old(b.loopsStack))
    ensures on ==> WentOn(b, old(b.Now(n)), n, s, sent)
    ensures b.loopsStack == if on then WithoutLoop(old(b.loopsStack), n) else old(b.loopsStack)
    ensures !on ==> b.dfsList == old(b.dfsList) && b.reachDef == old(b.reachDef) && b.states == old(b.states)
  {
    hide Builder.Sound, Builder.Owned, CopyOf, WentOn, Separate, AllParts;
    sent := map[];
    CacheState(b, n, s);
    ghost var after := b.Now(n);
    on := Leaves(b, n, b.loopsStack);
    if on {
      if b.loopsStack != [] && b.loopsStack[0] == n {
        b.loopsStack := b.loopsStack[1..];
      }
      sent := GoOn(b, n, s);
    }
  }

  // A change makes the loop active, leaving it ends that.
  function StackAfter(stack: seq<Node>, n: Node, changed: bool, on: bool): seq<Node> {
    if changed then WithLoop(stack, n) else if on then WithoutLoop(stack, n) else stack
  }

  // Unites a state with the saved one. The saved state is replaced only by
  // one that has all it had and differs from it.
  method Rejoin(b: Builder, n: Node, s: ReachDefinition, ghost before: ReachDefinition, ghost v: State, ghost apart: bool)
    returns (ok: bool, changed: bool, on: bool, ghost sent: map<CfgEdge, ReachDefinition>)
    requires b.Valid() && n in b.loops && s in b.states && b.loops[n] == before && before.Is(v) && (apart ==> Unmixed(SlotsOf(s), SlotsOf(before)))
    modifies b`dfsList, b`reachDef, b`loops, b`cache, b`loopsStack, b`defs, b`kept, b`states, b`saved, b`floor, s.Parts()
    ensures b.Valid() && b.Grown() && (s.Size() == before.Size() ==> ok)
    ensures ok && on ==> WentOn(b, old(b.Now(n)), n, s, sent)
    ensures ok && !on ==> b.dfsList == old(b.dfsList) && b.reachDef == old(b.reachDef) && b.states == old(b.states)
    ensures ok ==> b.loopsStack == StackAfter(old(b.loopsStack), n, changed, on)
    ensures ok && !changed ==> (on <==> Leaves(b, n, old(b.loopsStack)))
    ensures !changed ==> b.loops == old(b.loops) && b.floor == old(b.floor)
    ensures changed ==> on && b.cache == old(b.cache) && Rewritten(b, n, s, before, v, apart, old(b.loops), old(b.floor))
    ensures ok && !changed ==> n in b.cache && b.cache == old(b.cache)[n := b.cache[n]] && CopyOf(b.cache[n], s)
  {
    hide Builder.Sound, Builder.Owned, CopyOf, SameState, Covers, WentOn, Rewritten, ReachDefinition.Snap, Separate, AllParts,
         ReachDefinition.Vars, ReachDefinition.Parts, Objects, Gains, Unmixed, SlotsOf, Shows, Leaves, WithLoop, WithoutLoop;
    on, sent := false, map[];
    InSaved(b, n);
    ok, changed := Unite(b, s, b.loops[n], v, apart);
    if ok {
      if changed {
        sent := Rewrite(b, n, s, before, v, apart);
        on := true;
      } else {
        on, sent := Settled(b, n, s);
      }
    }
  }

  lemma InSaved(b: Builder, n: Node)
    requires b.Valid() && n in b.loops
    ensures b.loops[n] in b.saved
  {
  }

  // A state from outside that came in before is replaced by the cached one.
  method FromCache(b: Builder, n: Node, arrived: ReachDefinition) returns (s: ReachDefinition)
    requires b.Valid() && arrived in b.states
    modifies b`entrances, b`defs, b`kept, b`states, b`saved
    ensures b.Valid() && b.Grown() && b.kept == old(b.kept) && b.saved == old(b.saved) && s in b.states
    ensures b.lastNode in b.Members(n) ==> s == arrived
    ensures s == arrived || (s !in old(b.states) && n in b.cache && CopyOf(s, b.cache[n]) && s.Size() == b.cache[n].Size() && s.stack == b.cache[n].stack)
  {
    hide Builder.Sound, Builder.Owned, CopyOf, VarsApart, ReachDefinition.Vars, SameState;
    s := arrived;
    if b.lastNode !in b.Members(n) {
      var seen := if n in b.entrances then b.entrances[n] else [];
      if n in b.cache && exists t :: t in seen && SameState(s, t) {
        InCache(b, n);
        s := b.Copy(b.cache[n]);
        CopyHasSize(s, b.cache[n]);
      } else {
        b.entrances := b.entrances[n := [s] + seen];
      }
    }
  }

  lemma InCache(b: Builder, n: Node)
    requires b.Valid() && n in b.cache
    ensures b.cache[n] in b.saved
  {
  }

  // A loop head that has been visited before: the state that has arrived,
  // or the cached one, is united with the saved one.
  method Reenter(b: Builder, n: Node, arrived: ReachDefinition, ghost before: ReachDefinition, ghost v: State)
    returns (ok: bool, changed: bool, on: bool, ghost s: ReachDefinition, ghost apart: bool, ghost sent: map<CfgEdge, ReachDefinition>)
    requires b.Valid() && n in b.loops && arrived in b.states && b.loops[n] == before && before.Is(v)
    modifies b`dfsList, b`reachDef, b`loops, b`cache, b`entrances, b`loopsStack, b`defs, b`kept, b`states, b`saved, b`floor, b.defs
    ensures b.Valid() && b.Grown() && s in b.states && (s == arrived || s !in old(b.states))
    ensures apart == Unmixed(SlotsOf(s), SlotsOf(before))
    ensures arrived.Size() == before.Size() && (n in old(b.cache) ==> old(b.cache)[n].Size() == before.Size()) ==> ok && s.Size() == before.Size()
    ensures ok && on ==> WentOn(b, old(b.Now(n)), n, s, sent)
    ensures ok && !on ==> b.dfsList == old(b.dfsList) && b.reachDef == old(b.reachDef)
    ensures ok ==> b.loopsStack == StackAfter(old(b.loopsStack), n, changed, on)
    ensures ok && !changed ==> (on <==> Leaves(b, n, old(b.loopsStack)))
    ensures b.lastNode in b.Members(n) ==> s == arrived
    ensures s == arrived || (n in old(b.cache) && s.stack == old(b.cache)[n].stack)
    ensures !changed ==> b.loops == old(b.loops) && b.floor == old(b.floor)
    ensures changed ==> on && b.cache == old(b.cache) && Rewritten(b, n, s, before, v, apart, old(b.loops), old(b.floor))
    ensures ok && !changed ==> n in b.cache && b.cache == old(b.cache)[n := b.cache[n]] && CopyOf(b.cache[n], s)
  {
    hide Builder.Sound, Builder.Owned, CopyOf, WentOn, Rewritten, ReachDefinition.Snap, Separate, AllParts,
         ReachDefinition.Parts, Unmixed, SlotsOf, Shows, Leaves, StackAfter, ReachDefinition.Size;
    ghost var was, olds := b.Now(n), b.defs;
    var t := FromCache(b, n, arrived);
    s := t;
    apart := Unmixed(SlotsOf(s), SlotsOf(before));
    b.StateParts(s);
    ghost var after := b.Now(n);
    ok, changed, on, sent := Rejoin(b, n, t, before, v, apart);
    if ok && on {
      WentOnToo(b, after, was, n, t, sent);
    }
  }

  lemma WentOnToo(b: Builder, after: Before, was: Before, n: Node, s: ReachDefinition, sent: map<CfgEdge, ReachDefinition>)
    requires WentOn(b, after, n, s, sent) && was.states <= after.states && after.reachDef == was.reachDef && after.tasks == was.tasks
    ensures WentOn(b, was, n, s, sent)
  {
    b.MovedToo(after, was, n, {s}, {s}, sent);
  }
}
