// Whole runs of the builder on a function with one loop: they end, and what
// becomes of the instructions behind the loop.
module LoopRuns {
  import opened Wrappers
  import opened DataFlow
  import opened Flowgraph
  import opened FlowLaws
  import opened Provenance
  import opened VisitLaws
  import opened Growth
  import opened ReachDefinitions
  import opened PdgBuilder
  import opened CallFlow
  import opened LoopVisits
  import opened BuilderRuns
  import opened OneLoop
  import opened OneLoopRuns
  import opened LoopEntry
  import opened LoopExits
  import opened LoopOperands
  import opened LoopWork
  import HeapFlow

  // ----- before a visit -----

  // What a run keeps besides the schedule: what has been seen, what is known
  // of the way into the loop, and the operands under it.
  ghost predicate OnCourse(b: Builder, l: Loop, tasks: seq<Task>, led: Ledger, seen: map<Node, set<State>>, base: seq<Definition>)
    reads b`edges, b`reachDef, b`floor, b`states, b.states, b`passed, b`loops, b`cache, b.loops.Values, b.cache.Values
  {
    Bringing(b, l, tasks, led, seen) && Entering(b.graph, l, tasks, b.reachDef, b.passed, led) && Based(b, l, base)
  }

  lemma HandSets(b: Builder, l: Loop, led: Ledger, task: Task)
    requires InHand(b, l, led, task)
    ensures SetsAre(b.graph, l, led) && TaskIs(b.graph, l, led, task) && (l.head in b.loops <==> !led.phase.Outside?)
    ensures exists e :: e in b.graph.InEdges(task.node)
  {
    hide Builder.Sound, Builder.Linked, Shapely, LogIs, SetsAre, Waiting, Flowgraph.Live;
    TakenIs(b, l, led, task, b.dfsList);
    TakenSets(b, l, led, task, b.dfsList);
  }

  // All tasks come from live instructions, and none is for the start.
  lemma NotStart(g: Flowgraph, l: Loop, led: Ledger, task: Task)
    requires HasOneLoop(g, l) && TaskIs(g, l, led, task)
    ensures task.node != g.entry
  {
    hide Flowgraph.Live;
    var e :| e in g.InEdges(task.node) && e.src == task.last;
    assert OneLoop.Fits(l, e);
  }

  // The states at `n` have the sizes with which they come there.
  ghost predicate CameSized(b: Builder, n: Node, came: map<ReachDefinition, State>, stacks: map<ReachDefinition, seq<Definition>>) {
    forall t :: t in came ==> t in stacks && |stacks[t]| == |came[t].stack| && ShapeOnArrival(n, ShapeOf(came[t]), b.results) == Some(b.shape(n))
  }

  lemma AreSized(b: Builder, n: Node)
    requires b.Valid() && Shapely(b) && !n.inst.LoopHead?
    ensures CameSized(b, n, b.Snaps(b.Delivered(n)), Stacks(b.states))
  {
    hide Builder.Sound, Builder.Linked, Lawful, KeptFit, TasksFit, Alone, ShapeOnArrival, LabelsKnown, Flowgraph.Live;
    var came := b.Snaps(b.Delivered(n));
    forall t | t in came
      ensures t in b.states && |t.stack| == |came[t].stack| && ShapeOnArrival(n, ShapeOf(came[t]), b.results) == Some(b.shape(n))
    {
      assert t in b.Delivered(n) && Fit(b, n, t.Size(), b.loops.Keys);
      b.SizeIs(t, came[t]);
    }
  }

  lemma IsUnneeded(b: Builder, l: Loop, seen: map<Node, set<State>>, task: Task)
    requires AllCome(b, l, b.reachDef, b.floor, seen, {}, b.states) && b.HeldIn(b.Enlisted(task.node), task.node) && b.loopsStack == task.loops
    requires !task.node.inst.LoopHead?
    ensures Unneeded(b, l, seen, task)
  {
    hide AllCome, Open, Builder.HeldIn, Builder.Enlisted;
    if task.loops == [] {
      LonePasses(b, l, seen, task.node, b.Enlisted(task.node));
    }
  }

  lemma StacksAre(b: Builder, n: Node, stacks: map<ReachDefinition, seq<Definition>>)
    requires stacks == Stacks(b.states) && b.Valid()
    ensures stacks.Keys == b.states && (forall t :: t in stacks ==> t.stack == stacks[t]) && b.Now(n).stacks == Stacks(b.Delivered(n))
    ensures forall t :: t in b.Delivered(n) ==> t in stacks && t in b.Now(n).stacks && b.Now(n).stacks[t] == stacks[t]
    ensures b.loops.Values + b.cache.Values <= b.saved && b.states !! b.saved
  {
    hide Builder.Sound;
    b.DeliveredAreStates(n);
  }

  // What is known of an instruction that is let through.
  ghost predicate LetThrough(b: Builder, l: Loop, led: Ledger, was: VisitLaws.Before, n: Node) {
    && HasAll(b.graph, l, was.reachDef, led.free, n) && Among(was.reachDef, n) != {}
    && (!led.phase.Outside? && n !in l.body ==> forall e :: e in b.graph.InEdges(l.head) ==> e.src != n)
  }

  lemma IsLetThrough(b: Builder, l: Loop, led: Ledger, task: Task, was: VisitLaws.Before, known: map<Node, set<Node>>)
    requires HasOneLoop(b.graph, l) && b.graph.Live(task.node) && b.graph.Live(l.head) && task.node != b.graph.entry && !task.node.inst.LoopHead?
    requires Entering(b.graph, l, [task] + b.dfsList, b.reachDef, b.passed, led) && !b.HeldIn(known, task.node) && exists e :: e in b.graph.InEdges(task.node)
    requires was.reachDef == b.reachDef && !task.node.inst.Unreachable?
    ensures LetThrough(b, l, led, was, task.node)
  {
    hide HasOneLoop, Flowgraph.Live, OnceAt, Once, Shut;
    HasAllThere(b, l, led, task, known);
    var e :| e in b.graph.InEdges(task.node);
    Fewer({e}, b.graph.InEdges(task.node));
    assert b.Delivered(task.node) == Among(was.reachDef, task.node);
    if !led.phase.Outside? && task.node !in l.body {
      NoWayIn(b.graph, l, b.reachDef, led.free, task.node);
    }
  }

  // ----- one task -----

  // All that is known before a visit to an instruction that is no loop head,
  // and has nothing to do with the heap.
  ghost predicate PlainKnown(b: Builder, l: Loop, led: Ledger, task: Task, seen: map<Node, set<State>>, base: seq<Definition>, was: VisitLaws.Before,
                             passed: seq<Node>, held: bool, stacks: map<ReachDefinition, seq<Definition>>, came: map<ReachDefinition, State>) {
    var n := task.node;
    && HasOneLoop(b.graph, l) && Lawful(b) && b.graph.Live(n) && b.graph.Live(l.head) && l.head.inst.LoopHead? && !n.inst.LoopHead? && n != b.graph.entry
    && SetsAre(b.graph, l, led) && TaskIs(b.graph, l, led, task)
    && AllSeen(b, was.edges, seen) && FreedSeen(b.graph, l, led, seen) && Tasked(b, l, [task] + was.tasks, seen)
    && (if held then Unneeded(b, l, seen, task) else Arrived(b, l, seen, n, came) && (task.loops == [] || n in l.body))
    && (!held && !n.inst.Unreachable? ==> LetThrough(b, l, led, was, n))
    && Entering(b.graph, l, [task] + was.tasks, was.reachDef, passed, led)
    && BasedIn(l, base, !led.phase.Outside?, was.reachDef, stacks) && WaitsOnce(was, n) && CameSized(b, n, came, stacks) && came.Keys == Among(was.reachDef, n)
    && forall t :: t in came ==> t in was.stacks && was.stacks[t] == stacks[t]
  }

  lemma KnowPlain(b: Builder, l: Loop, led: Ledger, task: Task, seen: map<Node, set<State>>, base: seq<Definition>, was: VisitLaws.Before, held: bool)
    requires InHand(b, l, led, task) && !task.node.inst.LoopHead? && OnCourse(b, l, [task] + b.dfsList, led, seen, base)
    requires was == b.Now(task.node) && held == b.HeldIn(b.Enlisted(task.node), task.node)
    ensures PlainKnown(b, l, led, task, seen, base, was, b.passed, held, Stacks(b.states), b.Snaps(b.Delivered(task.node)))
  {
    hide Builder.Sound, Builder.Linked, Shapely, HasOneLoop, Builder.HeldIn, Builder.Enlisted, Lawful, Flowgraph.Live, Builder.Now, LetThrough,
         Builder.Snaps, AllSeen, FreedSeen, Tasked, AllCome, Arrived, Unneeded, InHand, Alone, Entering, BasedIn, CameSized, SetsAre, TaskIs, SavedOn, WaitsOnce;
    var n := task.node;
    HandFacts(b, l, led, task);
    HandSets(b, l, led, task);
    NotStart(b.graph, l, led, task);
    NowIs(b, was, n);
    WaitApart(b, was, n);
    OnceThere(was, n);
    StacksAre(b, n, Stacks(b.states));
    HasArrived(b, l, seen, n, b.Snaps(b.Delivered(n)));
    AreSized(b, n);
    if held {
      IsUnneeded(b, l, seen, task);
    } else {
      ActiveInBody(b, l, led, task);
      if !n.inst.Unreachable? {
        IsLetThrough(b, l, led, task, was, b.Enlisted(n));
      }
    }
  }

  lemma OnceThere(was: VisitLaws.Before, n: Node)
    requires forall m, t :: t in Among(was.reachDef, m) ==> t in was.states && (m != n ==> t !in Among(was.reachDef, n))
    ensures WaitsOnce(was, n)
  {
  }

  lemma PlainOn(b: Builder, l: Loop, top: nat, led: Ledger, task: Task, seen: map<Node, set<State>>, base: seq<Definition>, was: VisitLaws.Before,
                passed: seq<Node>, held: bool, stacks: map<ReachDefinition, seq<Definition>>, next: Ledger, came: map<ReachDefinition, State>, joined: State,
                sent: map<CfgEdge, ReachDefinition>, rest: set<ReachDefinition>, all: set<ReachDefinition>)
    returns (more: map<Node, set<State>>)
    requires PlainKnown(b, l, led, task, seen, base, was, passed, held, stacks, came) && Rests(b.graph, l, b.shape, b.results) && Highest(b.graph, l, top)
    requires TookPlain(b, l, was, passed, led, task, next, held, came, joined, sent) && (l.head in b.loops <==> !led.phase.Outside?)
    requires AllCome(b, l, was.reachDef, was.floor, seen, {task.node}, rest) && (held ==> AllCome(b, l, was.reachDef, was.floor, seen, {}, all)) && rest + all <= b.states
    requires SavedOn(b, l, base) && Untouched(b, was.reachDef, task.node, stacks)
    requires held || task.node.inst.Unreachable? ==> forall t :: t in stacks ==> t in b.states && t.stack == stacks[t]
    ensures OnCourse(b, l, b.dfsList, next, more, base) && Less(b, l, top, b.loops, was.floor, [task] + was.tasks)
  {
    hide HasOneLoop, Lawful, Flowgraph.Live, AllSeen, FreedSeen, Tasked, AllCome, Arrived, Unneeded, LetThrough, Entering, BasedIn, CameSized, SetsAre, TaskIs, SavedOn,
         WaitsOnce, TookPlain, Rests, Highest, Untouched, Less, Bringing, Based;
    more := PlainSeen(b, l, was, passed, led, task, next, held, came, joined, sent, seen, rest, all);
    PlainEntersToo(b, l, was, passed, led, task, next, held, came, joined, sent);
    PlainBasedToo(b, l, base, was, passed, led, task, next, held, came, joined, sent, stacks);
    PlainWork(b, l, top, was, passed, led, task, next, held, came, joined, sent);
  }

  // A visit to an instruction that is no loop head.
  method SeePlain(b: Builder, ghost l: Loop, ghost top: nat, ghost led: Ledger, task: Task, ghost seen: map<Node, set<State>>, ghost base: seq<Definition>)
    returns (ok: bool, ghost next: Ledger, ghost more: map<Node, set<State>>)
    requires InHand(b, l, led, task) && !task.node.inst.LoopHead? && OnCourse(b, l, [task] + b.dfsList, led, seen, base)
    requires Rests(b.graph, l, b.shape, b.results) && Highest(b.graph, l, top)
    modifies b`edges, b`dfsList, b`reachDef, b`loopsInsts, b`defs, b`kept, b`states, b`saved, b`floor, b`passed, b.Delivered(task.node), b.defs
    ensures ok && Running(b, l, next) && b.Grown() && OnCourse(b, l, b.dfsList, next, more, base)
    ensures Less(b, l, top, old(b.loops), old(b.floor), [task] + old(b.dfsList))
  {
    hide Builder.Sound, Builder.Linked, Shapely, HasOneLoop, Builder.HeldIn, Builder.Enlisted, Builder.Now, Lawful, Flowgraph.Live,
         Builder.Snaps, TookPlain, AllSeen, FreedSeen, Tasked, AllCome, InHand, Running, Alone, Rests, Highest, Entering, BasedIn, Less, PlainKnown, Stacks, SavedOn;
    var n := task.node;
    HandFacts(b, l, led, task);
    HandSets(b, l, led, task);
    ghost var was, there, passed, held, rest, all, stacks := b.Now(n), b.Delivered(n), b.passed, b.HeldIn(b.Enlisted(n), n), b.states - b.Delivered(n), b.states, Stacks(b.states);
    KnowPlain(b, l, led, task, seen, base, was, held);
    NowIs(b, was, n);
    StacksAre(b, n, stacks);
    SplitCome(b, l, seen, n);
    ghost var came, joined, sent;
    ok, next, came, joined, sent := TakePlain(b, l, led, task, was, there, held);
    more := PlainOn(b, l, top, led, task, seen, base, was, passed, held, stacks, next, came, joined, sent, rest, all);
  }

  lemma PlainEntersToo(b: Builder, l: Loop, was: VisitLaws.Before, passed: seq<Node>, led: Ledger, task: Task, next: Ledger, held: bool,
                       came: map<ReachDefinition, State>, joined: State, sent: map<CfgEdge, ReachDefinition>)
    requires HasOneLoop(b.graph, l) && SetsAre(b.graph, l, led) && TaskIs(b.graph, l, led, task) && task.node != l.head && b.graph.Live(l.head)
    requires TookPlain(b, l, was, passed, led, task, next, held, came, joined, sent) && Entering(b.graph, l, [task] + was.tasks, was.reachDef, passed, led)
    requires !held ==> (task.loops != [] ==> task.node in l.body)
    requires !held && !task.node.inst.Unreachable? ==> task.node != b.graph.entry && LetThrough(b, l, led, was, task.node)
    ensures Entering(b.graph, l, b.dfsList, b.reachDef, b.passed, next)
  {
    hide HasOneLoop, SetsAre, TaskIs, Flowgraph.Live, TookPlain, Entering, HasAll;
    PlainEnters(b, l, was, passed, led, task, next, held, came, joined, sent);
  }

  lemma PlainBasedToo(b: Builder, l: Loop, base: seq<Definition>, was: VisitLaws.Before, passed: seq<Node>, led: Ledger, task: Task, next: Ledger, held: bool,
                      came: map<ReachDefinition, State>, joined: State, sent: map<CfgEdge, ReachDefinition>, stacks: map<ReachDefinition, seq<Definition>>)
    requires HasOneLoop(b.graph, l) && b.graph.Live(task.node) && !task.node.inst.LoopHead? && Rests(b.graph, l, b.shape, b.results) && l.head.inst.LoopHead?
    requires TookPlain(b, l, was, passed, led, task, next, held, came, joined, sent) && (l.head in b.loops <==> !led.phase.Outside?)
    requires SavedOn(b, l, base) && BasedIn(l, base, l.head in b.loops, was.reachDef, stacks) && WaitsOnce(was, task.node) && Untouched(b, was.reachDef, task.node, stacks)
    requires held || task.node.inst.Unreachable? ==> forall t :: t in stacks ==> t in b.states && t.stack == stacks[t]
    requires !held && !task.node.inst.Unreachable? ==> LetThrough(b, l, led, was, task.node)
    requires CameSized(b, task.node, came, stacks) && came.Keys == Among(was.reachDef, task.node)
    requires forall t :: t in came ==> t in was.stacks && was.stacks[t] == stacks[t]
    ensures Based(b, l, base)
  {
    hide HasOneLoop, Flowgraph.Live, VisitDone, Rests, HasAll, ShapeOnArrival, FreedBy;
    if held || task.node.inst.Unreachable? {
      HasStopped(b, was, task.node, came, joined, sent);
    } else {
      PlainBased(b, l, base, was, task.node, came, joined, sent, stacks);
    }
  }

  // ----- the head -----

  lemma IsLet(b: Builder, l: Loop, led: Ledger, task: Task)
    requires InHand(b, l, led, task) && task.node.inst.LoopHead? && !b.HeldIn(Knowing(b, task.node), task.node)
    ensures Let(b.graph, l, b.reachDef, led)
  {
    hide Builder.Sound, Builder.Linked, Shapely, HasOneLoop, LogIs, Knowing, KnownIs, Flowgraph.Live, Waiting, BodyHasTasks, OthersHaveTasks, Builder.Now;
    var known := Knowing(b, task.node);
    HandSets(b, l, led, task);
    BeforeHead(b, l, led, task);
    CameToHead(b, l, known, led, task, b.dfsList);
    var e :| e in b.graph.InEdges(l.head) && e.src == task.last;
    Fewer({e}, b.AwaitedIn(known, l.head));
    assert b.Delivered(l.head) == Among(b.reachDef, l.head);
  }

  // All that is known before a visit to the head, and has nothing to do with
  // the heap.
  ghost predicate HeadIsKnown(b: Builder, l: Loop, led: Ledger, task: Task, seen: map<Node, set<State>>, base: seq<Definition>, was: VisitLaws.Before,
                              passed: seq<Node>, held: bool, stacks: map<ReachDefinition, seq<Definition>>) {
    && HasOneLoop(b.graph, l) && Lawful(b) && b.graph.Live(l.head) && l.head.inst.LoopHead? && l.head != b.graph.entry && task.node == l.head && l.head in l.body
    && SetsAre(b.graph, l, led) && TaskIs(b.graph, l, led, task)
    && AllSeen(b, was.edges, seen) && FreedSeen(b.graph, l, led, seen) && Tasked(b, l, [task] + was.tasks, seen)
    && (!held ==> Let(b.graph, l, was.reachDef, led)) && Entering(b.graph, l, [task] + was.tasks, was.reachDef, passed, led)
    && BasedIn(l, base, !led.phase.Outside?, was.reachDef, stacks) && WaitsOnce(was, l.head)
  }

  lemma KnowHead(b: Builder, l: Loop, led: Ledger, task: Task, seen: map<Node, set<State>>, base: seq<Definition>, was: VisitLaws.Before, held: bool)
    requires InHand(b, l, led, task) && task.node.inst.LoopHead? && OnCourse(b, l, [task] + b.dfsList, led, seen, base)
    requires was == b.Now(task.node) && held == b.HeldIn(Knowing(b, task.node), task.node)
    ensures HeadIsKnown(b, l, led, task, seen, base, was, b.passed, held, Stacks(b.states)) && SavedWith(l, base, b.loops, b.cache, Lefts(b, l.head))
  {
    hide Builder.Sound, Builder.Linked, Shapely, HasOneLoop, Builder.HeldIn, Knowing, Lawful, Flowgraph.Live, Builder.Now, Let,
         AllSeen, FreedSeen, Tasked, AllCome, InHand, Alone, Entering, BasedIn, SetsAre, TaskIs, WaitsOnce, Lefts;
    HandFacts(b, l, led, task);
    HandSets(b, l, led, task);
    NowIs(b, was, task.node);
    WaitApart(b, was, task.node);
    OnceThere(was, task.node);
    if !held {
      IsLet(b, l, led, task);
    }
    if l.head in b.loops {
      LeftsAre(b, l, base);
    }
  }

  // With no loop active the head is left only for what has come from outside.
  lemma LeftFrom(b: Builder, l: Loop, led: Ledger, next: Ledger, task: Task)
    requires HasOneLoop(b.graph, l) && b.graph.Live(l.head) && TaskIs(b.graph, l, led, task) && task.node == l.head && b.lastNode == task.last
    requires KnownIs(b.graph, l, b.loopsInsts, next) && !next.phase.Outside? && Leaves(b, l.head, task.loops)
    ensures task.loops != [] || task.last !in l.body
  {
    hide Flowgraph.Live;
    var e :| e in b.graph.InEdges(l.head) && e.src == task.last;
    assert OneLoop.Fits(l, e);
  }

  lemma HeadOn(b: Builder, l: Loop, top: nat, led: Ledger, task: Task, seen: map<Node, set<State>>, base: seq<Definition>, was: VisitLaws.Before,
               passed: seq<Node>, held: bool, stacks: map<ReachDefinition, seq<Definition>>, loops: map<Node, ReachDefinition>, cache: map<Node, ReachDefinition>,
               lefts: set<seq<Definition>>, next: Ledger, how: Outcome, ops: seq<Definition>, sent: map<CfgEdge, ReachDefinition>, rest: set<ReachDefinition>)
    requires HeadIsKnown(b, l, led, task, seen, base, was, passed, held, stacks) && Highest(b.graph, l, top) && (how == Held <==> held)
    requires TookHead(b, l, was, passed, loops, led, task, next, how, sent) && (l.head in loops <==> !led.phase.Outside?) && b.edges == was.edges
    requires AllCome(b, l, was.reachDef, was.floor, seen, {task.node}, rest) && rest <= b.states
    requires SavedWith(l, base, loops, cache, lefts) && Untouched(b, was.reachDef, l.head, stacks) && KeptFit(b, b.loops, b.cache) && was.states <= b.states
    requires if how == Held then b.cache == cache && forall t :: t in stacks ==> t in b.states && t.stack == stacks[t]
             else OperandsWent(b, l.head, how, lefts, loops, cache, ops, sent)
    requires how == Left ==> task.loops != [] || task.last !in l.body
    requires l.head in loops ==> loops[l.head].Size() == b.shape(l.head)
    ensures OnCourse(b, l, b.dfsList, next, seen, NextBase(how, base, ops)) && Less(b, l, top, loops, was.floor, [task] + was.tasks)
  {
    hide HasOneLoop, Lawful, Flowgraph.Live, AllSeen, FreedSeen, Tasked, AllCome, Let, Entering, BasedIn, SetsAre, TaskIs, WaitsOnce, Highest, Untouched, Less,
         Bringing, Based, TookHead, KeptFit, OperandsWent, SavedWith, ReachDefinition.Size;
    TookIs(b, l, was, passed, loops, led, task, next, how, sent);
    HeadSeen(b, l, was, passed, loops, led, task, next, how, sent, seen, rest);
    HeadEnters(b, l, was, passed, loops, led, task, next, how, sent);
    HeadBased(b, l, base, was, loops, cache, lefts, how, task.loops, ops, sent, stacks);
    HeadSizes(b, l, base, how, loops, cache, lefts, ops, sent);
    HeadWork(b, l, top, was, passed, loops, led, task, next, how, sent);
  }

  lemma TookIs(b: Builder, l: Loop, was: VisitLaws.Before, passed: seq<Node>, loops: map<Node, ReachDefinition>, led: Ledger, task: Task, next: Ledger, how: Outcome,
               sent: map<CfgEdge, ReachDefinition>)
    requires TookHead(b, l, was, passed, loops, led, task, next, how, sent)
    ensures Became(b, was, l.head, how, task.loops, sent) && (how == New <==> how != Held && l.head !in loops) && (how == Held ==> b.loops == loops)
    ensures how != Held ==> !next.phase.Outside?
  {
    hide Became, KeepsOn, Widened;
  }

  lemma HeadSizes(b: Builder, l: Loop, base: seq<Definition>, how: Outcome, loops: map<Node, ReachDefinition>, cache: map<Node, ReachDefinition>,
                  lefts: set<seq<Definition>>, ops: seq<Definition>, sent: map<CfgEdge, ReachDefinition>)
    requires (how == New <==> how != Held && l.head !in loops) && KeptFit(b, b.loops, b.cache)
    requires how != Held ==> OperandsWent(b, l.head, how, lefts, loops, cache, ops, sent)
    ensures how != Held ==> l.head in b.loops && b.loops[l.head].Size() == b.shape(l.head)
    ensures how == Left || how == Stayed ==> b.loops == loops
  {
    if how != Held {
      KeptSizes(b, l.head);
    }
  }

  // A visit to the head.
  method SeeHead(b: Builder, ghost l: Loop, ghost top: nat, ghost led: Ledger, task: Task, ghost seen: map<Node, set<State>>, ghost base: seq<Definition>)
    returns (ok: bool, ghost next: Ledger, ghost after: seq<Definition>)
    requires InHand(b, l, led, task) && task.node.inst.LoopHead? && OnCourse(b, l, [task] + b.dfsList, led, seen, base) && Highest(b.graph, l, top)
    modifies b`dfsList, b`reachDef, b`loops, b`entrances, b`cache, b`loopsInsts, b`loopsStack,
             b`defs, b`kept, b`states, b`saved, b`floor, b`passed, b.Delivered(task.node), b.defs
    ensures ok && Running(b, l, next) && b.Grown() && OnCourse(b, l, b.dfsList, next, seen, after)
    ensures Less(b, l, top, old(b.loops), old(b.floor), [task] + old(b.dfsList))
  {
    hide Builder.Sound, Builder.Linked, Shapely, HasOneLoop, Knowing, Lawful, Flowgraph.Live, Builder.Now, Builder.HeldIn, AllSeen, FreedSeen, Tasked, AllCome, InHand,
         Running, Alone, TookHead, Noted, Enduring, ReachDefinition.Snap, Entering, Based, BasedIn, Less, HeadIsKnown, Stacks, SavedOn, SavedWith, Highest, Lefts,
         OperandsWent, KeptFit, ReachDefinition.Size, Leaves, Became;
    var n := task.node;
    HandFacts(b, l, led, task);
    HandSets(b, l, led, task);
    ghost var was, there, passed, held, rest, stacks := b.Now(n), b.Delivered(n), b.passed, b.HeldIn(Knowing(b, n), n), b.states - b.Delivered(n), Stacks(b.states);
    ghost var loops, cache, lefts := b.loops, b.cache, Lefts(b, n);
    KnowHead(b, l, led, task, seen, base, was, held);
    NowIs(b, was, n);
    StacksAre(b, n, stacks);
    SplitCome(b, l, seen, n);
    SizeOfHead(b, l);
    ghost var how, ops, sent;
    ok, next, how, ops, sent := TakeHead(b, l, led, task, was, there, held, lefts);
    AfterwardsFits(b, l, next);
    TookIs(b, l, was, passed, loops, led, task, next, how, sent);
    if how == Left {
      LeftFrom(b, l, led, next, task);
    }
    HeadOn(b, l, top, led, task, seen, base, was, passed, held, stacks, loops, cache, lefts, next, how, ops, sent, rest);
    after := NextBase(how, base, ops);
  }

  lemma SizeOfHead(b: Builder, l: Loop)
    requires Shapely(b)
    ensures l.head in b.loops ==> b.loops[l.head].Size() == b.shape(l.head)
  {
    hide Lawful, AllFit, Alone, TasksFit;
  }

  lemma AfterwardsFits(b: Builder, l: Loop, led: Ledger)
    requires Running(b, l, led)
    ensures KeptFit(b, b.loops, b.cache) && KnownIs(b.graph, l, b.loopsInsts, led) && (l.head in b.loops <==> !led.phase.Outside?)
  {
    hide Builder.Sound, Builder.Linked, Lawful, AllFit, Alone, TasksFit, KeptFit, LogIs, HasOneLoop, SetsAre, TasksAre, Waiting, BodyHasTasks, OthersHaveTasks, KnownIs;
  }

  // ----- the worklist -----

  lemma NowInHand(b: Builder, l: Loop, led: Ledger, task: Task, tasks: seq<Task>)
    requires b.Valid() && Shapely(b) && HasOneLoop(b.graph, l) && b.inside(l.head) == l.members && tasks != [] && task == tasks[0] && b.dfsList == tasks[1..]
    requires Scheduling(b.graph, l, tasks, b.reachDef, b.loopsInsts, led) && (l.head in b.loops <==> !led.phase.Outside?) && LogIs(b.graph, b.passed, led)
    requires b.loopsStack == task.loops && b.lastNode == task.last && task.node in b.graph.Nodes() && exists e :: Takes(b, e, b.lastNode, task.node)
    ensures InHand(b, l, led, task) && [task] + b.dfsList == tasks
  {
    hide Builder.Sound, Builder.Linked, Shapely, HasOneLoop, SetsAre, TasksAre, Waiting, LogIs, Takes;
    assert [task] + b.dfsList == tasks;
  }

  method TakeFront(b: Builder, ghost l: Loop, ghost led: Ledger, ghost seen: map<Node, set<State>>, ghost base: seq<Definition>) returns (task: Task)
    requires Running(b, l, led) && b.dfsList != [] && OnCourse(b, l, b.dfsList, led, seen, base)
    modifies b`dfsList, b`loopsStack, b`lastNode
    ensures InHand(b, l, led, task) && OnCourse(b, l, [task] + b.dfsList, led, seen, base) && [task] + b.dfsList == old(b.dfsList)
  {
    hide Builder.Sound, Builder.Linked, Shapely, HasOneLoop, Scheduling, LogIs, Takes, AllSeen, FreedSeen, Tasked, AllCome, InHand, Entering, SavedOn, BasedIn, Stacks;
    ghost var tasks := b.dfsList;
    task := FrontTask(b);
    NowInHand(b, l, led, task, tasks);
  }

  // The first task of the worklist. The saved state of the loop has changed for
  // good, or less is left to do until it does.
  method TakeOne(b: Builder, ghost l: Loop, ghost top: nat, ghost led: Ledger, ghost seen: map<Node, set<State>>, ghost base: seq<Definition>)
    returns (ok: bool, ghost next: Ledger, ghost more: map<Node, set<State>>, ghost after: seq<Definition>)
    requires Running(b, l, led) && b.dfsList != [] && OnCourse(b, l, b.dfsList, led, seen, base)
    requires Rests(b.graph, l, b.shape, b.results) && Highest(b.graph, l, top)
    modifies b, b.states, b.defs
    ensures ok && Running(b, l, next) && b.Grown() && OnCourse(b, l, b.dfsList, next, more, after)
    ensures Less(b, l, top, old(b.loops), old(b.floor), old(b.dfsList))
  {
    hide Running, OnCourse, InHand, Shapely, Builder.Sound, Builder.Linked, Lawful, HasOneLoop, Flowgraph.Live, Alone, Rests, Highest, Less;
    var task := TakeFront(b, l, led, seen, base);
    HandFacts(b, l, led, task);
    b.DeliveredAreStates(task.node);
    if task.node.inst.LoopHead? {
      more := seen;
      ok, next, after := SeeHead(b, l, top, led, task, seen, base);
    } else {
      after := base;
      ok, next, more := SeePlain(b, l, top, led, task, seen, base);
    }
  }

  lemma HasRounds(b: Builder, l: Loop, led: Ledger)
    requires Running(b, l, led)
    ensures Rounds(b, l, b.loops, b.floor) >= 0 && b.loops.Values !! b.states
  {
    b.KeptApart();
    hide Builder.Sound, Builder.Linked, Lawful, AllFit, Alone, TasksFit, KeptFit, LogIs, HasOneLoop, Scheduling, Rounds;
    RoundsLeft(b, l);
  }

  // Tasks from the front until none is left, which happens.
  method Drain(b: Builder, ghost l: Loop, ghost start: Ledger, ghost first: map<Node, set<State>>, ghost bottom: seq<Definition>)
    returns (ok: bool, ghost led: Ledger, ghost seen: map<Node, set<State>>, ghost base: seq<Definition>)
    requires Running(b, l, start) && OnCourse(b, l, b.dfsList, start, first, bottom) && Rests(b.graph, l, b.shape, b.results)
    modifies b, b.states, b.defs
    ensures ok && Running(b, l, led) && b.dfsList == [] && OnCourse(b, l, b.dfsList, led, seen, base)
  {
    hide Running, OnCourse, Rests, Highest, Rounds, Weight;
    ok, led, seen, base := true, start, first, bottom;
    ghost var top := HasHighest(b.graph, l);
    HasRounds(b, l, led);
    while b.dfsList != []
      invariant ok && Running(b, l, led) && OnCourse(b, l, b.dfsList, led, seen, base) && Rounds(b, l, b.loops, b.floor) >= 0
      invariant b.Grown()
      decreases Rounds(b, l, b.loops, b.floor), Weight(l, top, |b.graph.cfg|, b.dfsList)
    {
      HasRounds(b, l, led);
      ok, led, seen, base := TakeOne(b, l, top, led, seen, base);
      HasRounds(b, l, led);
    }
  }

  // ----- the start -----

  function AtStart(g: Flowgraph, e: CfgEdge, s: ReachDefinition): Ledger {
    Ledger(Outside, 0, {}, {}, {g.entry}, map[e := s])
  }

  // Nothing but the first instruction has anything waiting, along one edge.
  ghost predicate Starts(b: Builder, l: Loop, e: CfgEdge, s: ReachDefinition)
    reads b`dfsList, b`reachDef, b`loops, b`loopsInsts, b`passed
  {
    && HasOneLoop(b.graph, l) && b.graph.OutEdges(b.graph.entry) == {e} && b.dfsList == [Task(e.dst, [], b.graph.entry)] && b.reachDef == map[e.dst := {s}]
    && b.loops == map[] && b.loopsInsts == map[] && b.passed == []
  }

  lemma StartEdge(b: Builder, l: Loop, e: CfgEdge, s: ReachDefinition)
    requires Starts(b, l, e, s)
    ensures e in b.graph.cfg && e.src == b.graph.entry && b.graph.Live(b.graph.entry) && b.graph.Live(e.dst) && OneLoop.Fits(l, e)
    ensures forall f :: f in b.graph.cfg && f.src == b.graph.entry ==> f == e
  {
    hide Flowgraph.Live;
    b.graph.EntryIsLive();
    assert e in b.graph.OutEdges(b.graph.entry);
    b.graph.FlowKeepsLive(e);
    forall f | f in b.graph.cfg && f.src == b.graph.entry
      ensures f == e
    {
      assert f in b.graph.OutEdges(b.graph.entry);
    }
  }

  lemma StartsScheduling(b: Builder, l: Loop, e: CfgEdge, s: ReachDefinition)
    requires Starts(b, l, e, s)
    ensures Scheduling(b.graph, l, b.dfsList, b.reachDef, b.loopsInsts, AtStart(b.graph, e, s)) && LogIs(b.graph, b.passed, AtStart(b.graph, e, s))
  {
    hide Flowgraph.Live, HasOneLoop, OneLoop.Fits;
    var g, led := b.graph, AtStart(b.graph, e, s);
    StartEdge(b, l, e, s);
    OnlyHead(g, l);
    assert e in g.InEdges(e.dst) && b.dfsList[0] == Task(e.dst, [], g.entry);
    assert TaskIs(g, l, led, b.dfsList[0]);
    forall n | AllRun(g, Freed(led), n)
      ensures n == e.dst
    {
      var f :| f in g.InEdges(n);
    }
    if AllOf(EntryEdges(g, l), led.free) {
      var f :| f in EntryEdges(g, l);
      assert f == e;
    }
  }

  lemma OnlyHead(g: Flowgraph, l: Loop)
    requires HasOneLoop(g, l)
    ensures g.entry !in l.body && l.head in l.body && g.entry.inst.Start?
  {
    hide Flowgraph.Live;
  }

  lemma StartsOnCourse(b: Builder, l: Loop, e: CfgEdge, s: ReachDefinition)
    requires Starts(b, l, e, s) && s in b.states
    ensures OnCourse(b, l, b.dfsList, AtStart(b.graph, e, s), map[], [])
  {
    hide Flowgraph.Live, HasOneLoop;
    var g, led := b.graph, AtStart(b.graph, e, s);
    StartEdge(b, l, e, s);
    OnlyHead(g, l);
    forall n
      ensures |Among(b.reachDef, n)| <= |Come(g, led.free, n)|
    {
      if n == e.dst {
        assert e in Come(g, led.free, n);
        Fewer({e}, Come(g, led.free, n));
      }
    }
    assert b.dfsList[0] == Task(e.dst, [], g.entry) && !Beyond(g, l, g.entry);
  }

  // The graph of validated code has one loop, and what is in it leaves the
  // operands under it alone.
  ghost predicate Suits(graph: Flowgraph, results: nat, inside: Node -> set<Node>, shape: Node -> Shape, l: Loop) {
    HasOneLoop(graph, l) && inside(l.head) == l.members && Rests(graph, l, shape, results)
  }

  method Begin(graph: Flowgraph, results: nat, inside: Node -> set<Node>, globals: set<string>, locals: set<string>, ghost shape: Node -> Shape, ghost l: Loop)
    returns (ok: bool, b: Builder, ghost led: Ledger)
    requires Validated(graph, results, globals, locals, shape) && Suits(graph, results, inside, shape, l)
    ensures fresh(b) && fresh(b.states) && fresh(b.defs) && b.graph == graph && b.results == results && b.shape == shape
    ensures ok && Running(b, l, led) && OnCourse(b, l, b.dfsList, led, map[], [])
  {
    hide Builder.Sound, Builder.Linked, Shapely, Shows, HasOneLoop, Rests, LogIs, Scheduling, OnCourse, Flowgraph.ShapedAs, Flowgraph.LoopsNamed;
    b := new Builder(graph, results, inside, shape);
    ghost var e, s;
    ok, e, s := b.VisitInstructions(globals, locals);
    StartsShapely(b, globals, locals, e, s);
    led := AtStart(graph, e, s);
    StartsScheduling(b, l, e, s);
    StartsOnCourse(b, l, e, s);
  }

  // ----- the end -----

  // All that is served has been visited with no loop active, and at the end of
  // every edge that nothing else joins all has come that such a visit leaves.
  ghost predicate AllFollowed(b: Builder, l: Loop, seen: map<Node, set<State>>)
    reads b`edges
  {
    && AllSeen(b, b.edges, seen) && (forall n :: b.graph.Served(n) && n != b.graph.entry && n != l.head && !n.inst.Unreachable? ==> n in seen)
    && forall e, v :: Lone(b.graph, l, e) && e.src in seen && v in seen[e.src] ==> Followed(b, seen, e, v)
  }

  lemma EndPassed(b: Builder, l: Loop, led: Ledger)
    requires Running(b, l, led) && b.dfsList == [] && Closes(b.graph, l)
    ensures forall n :: b.graph.Served(n) && n != b.graph.entry ==> n in b.passed && n in Freed(led)
  {
    hide Builder.Sound, Builder.Linked, Shapely, HasOneLoop, Flowgraph.Served, Closes, Scheduling;
    forall n | b.graph.Served(n) && n != b.graph.entry
      ensures n in b.passed && n in Freed(led)
    {
      ServedIsFreed(b.graph, l, b.reachDef, b.loopsInsts, led, n);
      RoundsAreEver(b, l, led);
    }
  }

  lemma RoundsAreEver(b: Builder, l: Loop, led: Ledger)
    requires Scheduling(b.graph, l, b.dfsList, b.reachDef, b.loopsInsts, led)
    ensures Freed(led) <= led.free + led.ever
  {
    hide TasksAre, Waiting, BodyHasTasks, OthersHaveTasks, KnownIs, Flowgraph.Live;
  }

  lemma EndFollowed(b: Builder, l: Loop, led: Ledger, seen: map<Node, set<State>>)
    requires Running(b, l, led) && b.dfsList == [] && Closes(b.graph, l) && Bringing(b, l, b.dfsList, led, seen)
    ensures AllFollowed(b, l, seen)
  {
    hide Running, Flowgraph.Served, Closes, AllSeen, AllCome, Lone, Followed;
    EndPassed(b, l, led);
    forall e, v | Lone(b.graph, l, e) && e.src in seen && v in seen[e.src]
      ensures Followed(b, seen, e, v)
    {
      NoneLeft(e.dst);
      assert Open(b, l, seen, e, v) <==> !Followed(b, seen, e, v);
    }
  }

  // Where control does not come back, no visit was made behind the loop.
  lemma EndShut(b: Builder, l: Loop, led: Ledger, seen: map<Node, set<State>>, base: seq<Definition>)
    requires OnCourse(b, l, b.dfsList, led, seen, base) && !Closes(b.graph, l)
    ensures forall n :: n in b.passed ==> !Beyond(b.graph, l, n)
  {
    hide Bringing, Based, Closes, Once, HeadAt, Beyond;
  }

  // A call's result is carried to the slot along edges that nothing else joins.
  ghost predicate Fed(p: Program, l: Loop, shape: Node -> Shape, o: Node, n: Node, slot: Slot)
    decreases l.rank(n)
  {
    exists e, made, from :: Lone(p.graph, l, e) && e.dst == n && l.rank(e.src) < l.rank(n) && p.Step(e, shape, slot, o, made, from)
                            && (made || Fed(p, l, shape, o, e.src, from))
  }

  lemma {:induction false} FedIsSeen(b: Builder, p: Program, l: Loop, seen: map<Node, set<State>>, o: Node, n: Node, slot: Slot)
    requires AllFollowed(b, l, seen) && p.graph == b.graph && p.results == b.results && IsCall(o) && o in seen && Fed(p, l, b.shape, o, n, slot)
    ensures exists w :: n in seen && w in seen[n] && Has(w, slot, o)
    decreases l.rank(n)
  {
    hide Flowgraph.Served, Has, Moves, Makes, Passes, Cross, SeenAt;
    var e, made, from :| Lone(p.graph, l, e) && e.dst == n && l.rank(e.src) < l.rank(n) && p.Step(e, b.shape, slot, o, made, from)
                         && (made || Fed(p, l, b.shape, o, e.src, from));
    if !made {
      FedIsSeen(b, p, l, seen, o, e.src, from);
    }
    var v :| v in seen[e.src] && (made || Has(v, from, o));
    CarriedAlong(b, p, e, v, slot, o, made, from);
    assert Followed(b, seen, e, v);
    var w :| w in seen[n] && HeapFlow.Outlasts(w, Cross(e.src, n, v, b.results));
    assert Has(w, slot, o);
  }

  lemma CarriedAlong(b: Builder, p: Program, e: CfgEdge, v: State, slot: Slot, o: Node, made: bool, from: Slot)
    requires p.graph == b.graph && p.results == b.results && IsCall(o) && p.Step(e, b.shape, slot, o, made, from) && SeenAt(b, b.edges, e.src, v)
    requires made || Has(v, from, o)
    ensures Passes(e.src, e.dst, ShapeOf(v), b.results) && Has(Cross(e.src, e.dst, v, b.results), slot, o)
  {
    hide Has, Moves, Makes, Passes, Cross, Flowgraph.Live;
    CrossMoves(e.src, e.dst, v, b.results, slot, o);
  }

  // Every call that is served has its edges, wherever its result is carried by
  // a way that nothing else joins.
  ghost predicate CallsBehind(p: Program, l: Loop, shape: Node -> Shape, edges: set<PdgEdge>) {
    forall o, n, slot, callee ::
      p.graph.Served(o) && Introduces(o, callee, Function) && Fed(p, l, shape, o, n, slot) && Records(n.inst, shape(n).height, slot) ==> CallEdge(edges, n, callee)
  }

  lemma CallIsRecorded(b: Builder, n: Node, w: State, o: Node, slot: Slot, callee: string)
    requires SeenAt(b, b.edges, n, w) && Lawful(b) && Introduces(o, callee, Function) && Has(w, slot, o) && Records(n.inst, b.shape(n).height, slot)
    ensures CallEdge((set e | e in b.edges), n, callee)
  {
    hide Flowgraph.Live, Records, Has, Recorded, CallEdge, Flowgraph.LoopsNamed;
    assert Accepts(n, ShapeOf(w), b.results);
    RecordsCalls(n, w, b.results, callee);
    MoreEdges(Recorded(n, w), (set e | e in b.edges), n, callee);
  }

  lemma CallsAreBehind(b: Builder, p: Program, l: Loop, seen: map<Node, set<State>>)
    requires AllFollowed(b, l, seen) && p.graph == b.graph && p.results == b.results && Lawful(b) && b.graph.entry.inst.Start? && l.head.inst.LoopHead?
    ensures CallsBehind(p, l, b.shape, set e | e in b.edges)
  {
    hide Flowgraph.Served, Flowgraph.Live, Fed, Records, Has, CallEdge, Lawful, SeenAt;
    forall o, n, slot, callee | p.graph.Served(o) && Introduces(o, callee, Function) && Fed(p, l, b.shape, o, n, slot) && Records(n.inst, b.shape(n).height, slot)
      ensures CallEdge((set e | e in b.edges), n, callee)
    {
      FedIsSeen(b, p, l, seen, o, n, slot);
      var w :| w in seen[n] && Has(w, slot, o);
      CallIsRecorded(b, n, w, o, slot, callee);
    }
  }

  lemma MoreEdges(some: set<PdgEdge>, edges: set<PdgEdge>, n: Node, callee: string)
    requires CallEdge(some, n, callee) && some <= edges
    ensures CallEdge(edges, n, callee)
  {
  }

  // The instruction has an edge with the name and kind of the origin.
  ghost predicate Marked(edges: set<PdgEdge>, n: Node, o: Node) {
    exists x :: x in edges && x.dst == n && Introduces(o, x.name, x.kind)
  }

  lemma ReadIsMarked(n: Node, w: State, results: nat, o: Node, slot: Slot)
    requires WfState(w) && Accepts(n, ShapeOf(w), results) && Records(n.inst, |w.stack|, slot) && Has(w, slot, o)
    ensures Marked(Recorded(n, w), n, o)
  {
    hide Records, Has, Read;
    SlotIsRead(n, w, results, o, slot);
    var i :| 0 <= i < |Read(n, w)| && o in Read(n, w)[i];
    ReadWf(n, w, results);
    var d := Read(n, w)[i];
    var x := PdgEdge(d[o].src, n, d[o].name, d[o].kind);
    assert x in EdgesTo(d, n);
    EdgesFromAllHas(Read(n, w), n, x);
    OriginIntroduces(o, x.name, x.kind);
  }

  // What a visit leaves where one edge leads on, say the origin of a local
  // that has just been read, is recorded by the next instruction, constants
  // apart.
  lemma LeftIsRecorded(b: Builder, l: Loop, seen: map<Node, set<State>>, e: CfgEdge, v: State, slot: Slot, o: Node)
    requires AllFollowed(b, l, seen) && Lawful(b) && Lone(b.graph, l, e) && e.src in seen && v in seen[e.src]
    requires Passes(e.src, e.dst, ShapeOf(v), b.results) && Has(Cross(e.src, e.dst, v, b.results), slot, o) && !o.inst.Const?
    requires Records(e.dst.inst, b.shape(e.dst).height, slot)
    ensures Marked((set x | x in b.edges), e.dst, o)
  {
    hide Flowgraph.Served, Flowgraph.Live, Records, Has, Cross, Passes, Recorded, Flowgraph.LoopsNamed;
    assert Followed(b, seen, e, v);
    var w :| w in seen[e.dst] && HeapFlow.Outlasts(w, Cross(e.src, e.dst, v, b.results));
    assert SeenAt(b, b.edges, e.dst, w) && Has(w, slot, o);
    ReadIsMarked(e.dst, w, b.results, o, slot);
    var x :| x in Recorded(e.dst, w) && x.dst == e.dst && Introduces(o, x.name, x.kind);
    assert x in b.edges;
  }

  // A value that is recorded where it arrives is still on top there.
  lemma TopArrives(m: Node, n: Node, v: State, results: nat, x: string)
    requires m.inst == LocalGet(x) && Passes(m, n, ShapeOf(v), results)
    requires var h := |Cross(m, n, v, results).stack|; h > 0 && Records(n.inst, h, StackSlot(h - 1))
    ensures x in v.locals && Cross(m, n, v, results).stack[0] == Result(m, v)
  {
  }

  lemma MarkedLocal(edges: set<PdgEdge>, n: Node, o: Node, x: string)
    requires Marked(edges, n, o) && o.inst == LocalGet(x)
    ensures exists g :: g in edges && g.dst == n && g.name == x && g.kind == Local
  {
    var g :| g in edges && g.dst == n && Introduces(o, g.name, g.kind);
    assert g.name == x && g.kind == Local;
  }

  // A local that is read behind the loop has its edge into the instruction that
  // takes it: of its own name and of kind Local if nothing has been put into
  // the variable, and of the origins of what has been put there otherwise.
  lemma ReadLocalIsRecorded(b: Builder, l: Loop, seen: map<Node, set<State>>, e: CfgEdge, v: State, x: string)
    requires AllFollowed(b, l, seen) && Lawful(b) && Lone(b.graph, l, e) && e.src in seen && v in seen[e.src] && e.src.inst == LocalGet(x)
    requires var h := b.shape(e.dst).height; h > 0 && Records(e.dst.inst, h, StackSlot(h - 1))
    ensures x in v.locals
    ensures v.locals[x] == map[] ==> exists g :: g in b.edges && g.dst == e.dst && g.name == x && g.kind == Local
    ensures forall o :: o in v.locals[x] && !o.inst.Const? ==> Marked((set g | g in b.edges), e.dst, o)
  {
    hide Flowgraph.Served, Flowgraph.Live, Recorded, Flowgraph.LoopsNamed, Marked, Arrive, Visit, Records, ShapeOnArrival, Accepts, ShapeAfter;
    assert Followed(b, seen, e, v) && SeenAt(b, b.edges, e.src, v);
    assert e in b.graph.InEdges(e.dst);
    AlongEdge(b, e, v);
    var there, top := Cross(e.src, e.dst, v, b.results), StackSlot(b.shape(e.dst).height - 1);
    TopArrives(e.src, e.dst, v, b.results, x);
    assert At(there, top) == Result(e.src, v);
    if v.locals[x] == map[] {
      LeftIsRecorded(b, l, seen, e, v, top, e.src);
      MarkedLocal((set g | g in b.edges), e.dst, e.src, x);
    }
    forall o | o in v.locals[x] && !o.inst.Const?
      ensures Marked((set g | g in b.edges), e.dst, o)
    {
      LeftIsRecorded(b, l, seen, e, v, top, o);
    }
  }

  // ----- one function -----

  // The dependence graph of one function with one loop, the first task of the
  // worklist taken each time. The run ends. If control can come back to the
  // head of the loop, all that is served has been let through, and each call
  // has its edges wherever its result is carried by a way that nothing else
  // joins. What all ways lead to through the loop has been let through only
  // then.
  method GeneratePdg(p: Program, inside: Node -> set<Node>, ghost shape: Node -> Shape, ghost l: Loop)
    returns (ok: bool, b: Builder, ghost seen: map<Node, set<State>>)
    requires Validated(p.graph, p.results, p.globals, p.locals, shape) && Suits(p.graph, p.results, inside, shape, l)
    ensures b.graph == p.graph && b.shape == shape && Lawful(b)
    ensures ok && b.dfsList == [] && NoTwins(b.edges) && forall e :: e in b.edges ==> Explained(b.edges, e)
    ensures Closes(p.graph, l) ==> forall n :: p.graph.Served(n) && n != p.graph.entry ==> n in b.passed
    ensures Closes(p.graph, l) ==> AllFollowed(b, l, seen) && CallsBehind(p, l, shape, set e | e in b.edges)
    ensures forall n :: p.graph.Served(n) && Beyond(p.graph, l, n) ==> (n in b.passed <==> Closes(p.graph, l))
  {
    hide Builder.Sound, Builder.Linked, Running, OnCourse, NoTwins, Lawful, Validated, Suits, Flowgraph.Served, Closes, Beyond, CallsBehind, AllFollowed;
    ghost var led, base;
    SuitsMeans(p.graph, p.results, inside, shape, l);
    ok, b, led := Begin(p.graph, p.results, inside, p.globals, p.locals, shape, l);
    ok, led, seen, base := Drain(b, l, led, map[], []);
    EndsWell(b, p, l, led, seen, base);
  }

  lemma SuitsMeans(graph: Flowgraph, results: nat, inside: Node -> set<Node>, shape: Node -> Shape, l: Loop)
    requires Suits(graph, results, inside, shape, l)
    ensures Rests(graph, l, shape, results)
  {
  }

  lemma EndsWell(b: Builder, p: Program, l: Loop, led: Ledger, seen: map<Node, set<State>>, base: seq<Definition>)
    requires Running(b, l, led) && OnCourse(b, l, b.dfsList, led, seen, base) && b.dfsList == [] && p.graph == b.graph && p.results == b.results
    ensures Lawful(b) && NoTwins(b.edges) && forall e :: e in b.edges ==> Explained(b.edges, e)
    ensures Closes(p.graph, l) ==> forall n :: p.graph.Served(n) && n != p.graph.entry ==> n in b.passed
    ensures Closes(p.graph, l) ==> AllFollowed(b, l, seen) && CallsBehind(p, l, b.shape, set e | e in b.edges)
    ensures forall n :: p.graph.Served(n) && Beyond(p.graph, l, n) ==> (n in b.passed <==> Closes(p.graph, l))
  {
    hide Builder.Sound, Builder.Linked, Flowgraph.Served, Closes, Beyond, CallsBehind, AllFollowed, Bringing, Entering, Based, Scheduling, LogIs, AllFit, KeptFit, Alone, TasksFit,
         Lawful, NoTwins, Flowgraph.Live;
    b.EdgesExplained();
    HeadInBody(b.graph, l);
    OnlyHead(b.graph, l);
    NotEntry(p.graph, l);
    if Closes(p.graph, l) {
      EndPassed(b, l, led);
      EndFollowed(b, l, led, seen);
      CallsAreBehind(b, p, l, seen);
    } else {
      EndShut(b, l, led, seen, base);
    }
  }

  lemma NotEntry(g: Flowgraph, l: Loop)
    ensures forall n :: Beyond(g, l, n) ==> n != g.entry
  {
  }
}
