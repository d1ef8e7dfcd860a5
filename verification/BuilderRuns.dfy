// Whole runs of the builder of PdgBuilder.dfy, loops included: the worklist,
// and what validated code keeps.
module BuilderRuns {
  import opened Wrappers
  import opened DataFlow
  import opened Flowgraph
  import opened FlowLaws
  import opened Provenance
  import opened ReachDefinitions
  import opened Growth
  import opened VisitLaws
  import opened PdgBuilder
  import opened LoopVisits

  // ----- shapes of places -----

  ghost predicate Lawful(b: Builder) {
    b.graph.ShapedAs(b.shape, b.results) && b.graph.LoopsNamed()
  }

  // The labels of loops are there only once the loop is known.
  ghost predicate LabelsKnown(b: Builder, labels: seq<Label>, known: set<Node>) {
    forall m :: b.graph.Live(m) && m.inst.LoopHead? && HasLabel(m.inst.name, labels) ==> m in known
  }

  // A state of this size comes to `n` with the shape of that place.
  ghost predicate Fit(b: Builder, n: Node, sh: Shape, known: set<Node>) {
    b.graph.Live(n) && b.ShapeComing(n, sh, known) == Some(b.shape(n)) && LabelsKnown(b, sh.labels, known)
  }

  lemma FitStays(b: Builder, n: Node, sh: Shape, known: set<Node>, m: Node)
    requires Fit(b, n, sh, known) && m != n
    ensures Fit(b, n, sh, known + {m})
  {
  }

  lemma {:induction false} PopLabelKeeps(b: Builder, name: string, height: nat, labels: seq<Label>)
    requires PopLabel(name, height, labels).Some?
    ensures forall l :: l in PopLabel(name, height, labels).value.1 ==> l in labels
    decreases |labels|
  {
    if labels[0].name != name {
      PopLabelKeeps(b, name, labels[0].pointer, labels[1..]);
    }
  }

  lemma FewerLabels(b: Builder, labels: seq<Label>, more: seq<Label>, known: set<Node>)
    requires LabelsKnown(b, more, known) && forall l :: l in labels ==> l in more
    ensures LabelsKnown(b, labels, known)
  {
    forall m | b.graph.Live(m) && m.inst.LoopHead? && HasLabel(m.inst.name, labels)
      ensures m in known
    {
      var l :| l in labels && l.name == m.inst.name;
      assert HasLabel(m.inst.name, more);
    }
  }

  lemma OneMoreLabel(b: Builder, n: Node, l: Label, labels: seq<Label>, known: set<Node>)
    requires Lawful(b) && b.graph.Live(n) && (n.inst.LoopHead? || n.inst.BeginBlock?) && l.name == n.inst.name && LabelsKnown(b, labels, known)
    ensures LabelsKnown(b, [l] + labels, if n.inst.LoopHead? then known + {n} else known)
  {
    forall m | b.graph.Live(m) && m.inst.LoopHead? && HasLabel(m.inst.name, [l] + labels) && !HasLabel(m.inst.name, labels)
      ensures m == n
    {
      var k :| k in [l] + labels && k.name == m.inst.name;
      assert k == l || k in labels;
    }
  }

  // The labels after a visit are known if those before arrival were.
  lemma KnownAfter(b: Builder, n: Node, sh: Shape, known: set<Node>)
    requires Lawful(b) && Fit(b, n, sh, known)
    ensures LabelsKnown(b, b.shape(n).labels, known + {n}) && LabelsKnown(b, ShapeAfter(n, b.shape(n)).labels, known + {n})
  {
    var labels := b.shape(n).labels;
    if n.inst.LoopHead? {
      HeadLabels(b, n, sh, known);
    } else {
      OtherLabels(b, n, sh);
      FewerLabels(b, labels, sh.labels, known);
      assert LabelsKnown(b, labels, known + {n});
      if n.inst.BeginBlock? {
        OneMoreLabel(b, n, Label(n.inst.name, b.shape(n).height), labels, known);
      }
    }
  }

  lemma OtherLabels(b: Builder, n: Node, sh: Shape)
    requires !n.inst.LoopHead? && ShapeOnArrival(n, sh, b.results) == Some(b.shape(n))
    ensures forall l :: l in b.shape(n).labels ==> l in sh.labels
  {
    match n.inst
    case BlockEnd(name, k) => PopLabelKeeps(b, name, sh.height - k, sh.labels);
    case LoopEnd(name, k) => PopLabelKeeps(b, name, sh.height - k, sh.labels);
    case _ =>
  }

  lemma HeadLabels(b: Builder, n: Node, sh: Shape, known: set<Node>)
    requires Lawful(b) && Fit(b, n, sh, known) && n.inst.LoopHead?
    ensures LabelsKnown(b, b.shape(n).labels, known + {n})
  {
    var name := n.inst.name;
    var popped := PopLabel(name, sh.height, sh.labels);
    if n in known && HasLabel(name, sh.labels) {
      PopLabelKeeps(b, name, sh.height, sh.labels);
      FewerLabels(b, popped.value.1, sh.labels, known);
      OneMoreLabel(b, n, Label(name, popped.value.0), popped.value.1, known);
    } else {
      OneMoreLabel(b, n, Label(name, sh.height), sh.labels, known);
    }
  }

  // What goes on along an edge comes with the shape of the next place.
  lemma FitNext(b: Builder, e: CfgEdge, sh: Shape, known: set<Node>)
    requires Lawful(b) && e in b.graph.cfg && b.graph.Live(e.src) && !e.src.inst.Unreachable?
    requires sh == ShapeAfter(e.src, b.shape(e.src)) && LabelsKnown(b, sh.labels, known)
    ensures Fit(b, e.dst, sh, known)
  {
    b.graph.FlowKeepsLive(e);
  }

  // A state that has come to a loop head can stay there.
  lemma HeadStays(b: Builder, n: Node, sh: Shape, known: set<Node>)
    requires Lawful(b) && Fit(b, n, sh, known) && n.inst.LoopHead?
    ensures Fit(b, n, b.shape(n), known + {n})
  {
    HeadLabels(b, n, sh, known);
    var labels := b.shape(n).labels;
    assert labels != [] && labels[0] == Label(n.inst.name, b.shape(n).height);
    assert labels[0] in labels;
  }

  // ----- what validated code keeps -----

  // Every state waits at one place only, and comes there with its shape.
  ghost predicate AllFit(b: Builder)
    reads b`reachDef, b`loops, b`states, b.states
  {
    forall n, t :: t in b.Delivered(n) ==> t in b.states && Fit(b, n, t.Size(), b.loops.Keys)
  }

  ghost predicate Alone(reachDef: map<Node, set<ReachDefinition>>) {
    forall m, n, t :: t in Among(reachDef, m) && t in Among(reachDef, n) ==> m == n
  }

  // Saved and cached states have the shape of their loop's head.
  ghost predicate KeptFit(b: Builder, loops: map<Node, ReachDefinition>, cache: map<Node, ReachDefinition>)
    reads loops.Values, cache.Values
  {
    && (forall n :: n in loops ==> n.inst.LoopHead? && loops[n].Size() == b.shape(n))
    && (forall n :: n in cache ==> n in loops && cache[n].Size() == b.shape(n))
  }

  // The edge leads from one instruction to the other, and control takes it.
  ghost predicate Takes(b: Builder, e: CfgEdge, m: Node, n: Node) {
    e in b.graph.cfg && e.src == m && e.dst == n && b.graph.Live(m) && !m.inst.Unreachable?
  }

  ghost predicate TaskFits(b: Builder, t: Task) {
    b.graph.Live(t.node) && exists e :: Takes(b, e, t.last, t.node)
  }

  ghost predicate TasksFit(b: Builder, tasks: seq<Task>) {
    forall t :: t in tasks ==> TaskFits(b, t)
  }

  // The builder in a run on validated code.
  ghost predicate Shapely(b: Builder)
    reads b, b.states, b.loops.Values, b.cache.Values
  {
    Lawful(b) && AllFit(b) && Alone(b.reachDef) && KeptFit(b, b.loops, b.cache) && TasksFit(b, b.dfsList)
  }

  // States that have gone on along the edges of `n` fit, and so do those
  // that have stayed where they were.
  lemma StillFit(b: Builder, was: Before, n: Node, own: set<ReachDefinition>, sent: map<CfgEdge, ReachDefinition>)
    requires Lawful(b) && b.graph.Live(n) && !n.inst.Unreachable? && LabelsKnown(b, ShapeAfter(n, b.shape(n)).labels, b.loops.Keys)
    requires b.Moved(was, n, own, sent) && forall e :: e in sent ==> sent[e].Size() == ShapeAfter(n, b.shape(n))
    requires forall m, t :: m != n && t in Among(was.reachDef, m) ==> t in b.states && Fit(b, m, t.Size(), b.loops.Keys)
    ensures AllFit(b)
  {
    hide ShapeAfter, Fit, Lawful, LabelsKnown, Flowgraph.Live, Scheduled, ReachDefinition.Size;
    forall m, t | t in b.Delivered(m)
      ensures t in b.states && Fit(b, m, t.Size(), b.loops.Keys)
    {
      if m != n && t !in Among(was.reachDef, m) {
        assert t in b.Arriving(sent, m);
        var e :| e in sent && e.dst == m && t == sent[e];
        FitNext(b, e, t.Size(), b.loops.Keys);
      }
    }
  }

  lemma StillAlone(b: Builder, was: Before, n: Node, own: set<ReachDefinition>, sent: map<CfgEdge, ReachDefinition>)
    requires b.Moved(was, n, own, sent) && b.AllSentDiffer(sent) && Alone(was.reachDef)
    requires forall m, t :: m != n && t in Among(was.reachDef, m) ==> t in was.states && t !in own
    ensures Alone(b.reachDef)
  {
    forall l, m, t | t in Among(b.reachDef, l) && t in Among(b.reachDef, m)
      ensures l == m
    {
      assert l != n && m != n;
      assert b.Delivered(l) == Among(was.reachDef, l) + b.Arriving(sent, l) && b.Delivered(m) == Among(was.reachDef, m) + b.Arriving(sent, m);
      if t in b.Arriving(sent, l) && t in b.Arriving(sent, m) {
        var e :| e in sent && e.dst == l && t == sent[e];
        var f :| f in sent && f.dst == m && t == sent[f];
      }
    }
  }

  lemma StillTasks(b: Builder, before: seq<Task>, n: Node)
    requires Lawful(b) && b.graph.Live(n) && !n.inst.Unreachable? && TasksFit(b, before)
    requires Scheduled(b.graph.OutEdges(n), before, b.dfsList, n, b.loopsStack)
    ensures TasksFit(b, b.dfsList)
  {
    var order :| Lists(order, b.graph.OutEdges(n)) && b.dfsList == TasksOf(order, n, b.loopsStack) + before;
    forall t | t in b.dfsList && t !in before
      ensures TaskFits(b, t)
    {
      var i :| 0 <= i < |order| && t == TasksOf(order, n, b.loopsStack)[i];
      assert order[i] in order && order[i] in b.graph.OutEdges(n);
      b.graph.FlowKeepsLive(order[i]);
      assert Takes(b, order[i], n, t.node);
    }
  }

  // Nothing is in the way of a visit to `n`.
  lemma AllCanCome(b: Builder, n: Node, came: map<ReachDefinition, State>)
    requires AllFit(b) && came.Keys == b.Delivered(n) && (forall t :: t in came ==> t.Is(came[t])) && b.Delivered(n) != {}
    ensures b.AllCome(n, came, b.shape(n)) && b.graph.Live(n)
  {
    hide Flowgraph.Live, ShapeOnArrival, Shows;
    forall t | t in came
      ensures b.Arrival(n, ShapeOf(came[t])) == Some(b.shape(n))
    {
      b.SizeIs(t, came[t]);
    }
    var t :| t in b.Delivered(n);
    assert t in came && Fit(b, n, t.Size(), b.loops.Keys);
  }

  // ----- one visit of a loop head -----

  // The states that wait elsewhere are among `all`, and fit there.
  ghost predicate OthersFit(b: Builder, n: Node, s: ReachDefinition, reach: map<Node, set<ReachDefinition>>, known: set<Node>, all: set<ReachDefinition>)
    reads all
  {
    forall m, t :: m != n && t in Among(reach, m) ==> t in all && t != s && Fit(b, m, t.Size(), known)
  }

  // What waited at `n` has been united into `s`.
  ghost predicate Gathered(b: Builder, n: Node, s: ReachDefinition)
    reads b, b.states, b.loops.Values, b.cache.Values
  {
    && Lawful(b) && b.graph.Live(n) && b.Delivered(n) == {s} && s in b.states && s.Size() == b.shape(n)
    && OthersFit(b, n, s, b.reachDef, b.loops.Keys, b.states)
    && Alone(b.reachDef) && KeptFit(b, b.loops, b.cache) && TasksFit(b, b.dfsList) && Fit(b, n, b.shape(n), b.loops.Keys + {n})
  }

  method Gather(b: Builder, n: Node) returns (ok: bool, s: ReachDefinition?)
    requires b.Valid() && n.inst.LoopHead?
    modifies b`reachDef, b.Delivered(n), b.defs
    ensures b.Valid() && (ok ==> s != null && s in old(b.Delivered(n)) && s in b.states && b.reachDef == old(b.reachDef)[n := {s}])
    ensures old(Shapely(b)) && old(b.Delivered(n)) != {} ==> ok && Gathered(b, n, s)
    ensures ok && n !in b.loops ==> Undropped(s, old(s.stack), old(s.Snap()))
    ensures ok ==> s.stack in old(Lefts(b, n))
  {
    hide Builder.Sound, Builder.Linked, Undropped, ReachDefinition.Snap, Fit, AllFit, KeptFit, Alone, TasksFit, Gathered,
         Lawful, Builder.ShapeComing, FitThen, Flowgraph.Live, ReachDefinition.Size;
    b.DeliveredAreStates(n);
    ghost var was, sizes, shapely := b.reachDef, map t | t in b.states :: t.Size(), Shapely(b) && b.Delivered(n) != {};
    if shapely {
      FitsThere(b, n);
      FitNow(b, sizes);
    }
    ok, s := GatherOnly(b, n);
    if shapely {
      NowGathered(b, n, s, was, sizes);
    }
  }

  ghost predicate FitThen(b: Builder, was: map<Node, set<ReachDefinition>>, sizes: map<ReachDefinition, Shape>)
    reads b`loops
  {
    forall m, t :: t in Among(was, m) ==> t in sizes && Fit(b, m, sizes[t], b.loops.Keys)
  }

  lemma FitNow(b: Builder, sizes: map<ReachDefinition, Shape>)
    requires AllFit(b) && sizes.Keys == b.states && forall t :: t in sizes ==> sizes[t] == t.Size()
    ensures FitThen(b, b.reachDef, sizes)
  {
    forall m, t | t in Among(b.reachDef, m)
      ensures t in sizes && Fit(b, m, sizes[t], b.loops.Keys)
    {
      assert t in b.Delivered(m);
    }
  }

  lemma NowGathered(b: Builder, n: Node, s: ReachDefinition, was: map<Node, set<ReachDefinition>>, sizes: map<ReachDefinition, Shape>)
    requires Lawful(b) && b.graph.Live(n) && Alone(was) && s in Among(was, n) && b.reachDef == was[n := {s}] && s in b.states && s.Size() == b.shape(n)
    requires FitThen(b, was, sizes) && sizes.Keys <= b.states
    requires forall t :: t in sizes && t !in Among(was, n) ==> t.Size() == sizes[t]
    requires KeptFit(b, b.loops, b.cache) && TasksFit(b, b.dfsList) && Fit(b, n, b.shape(n), b.loops.Keys + {n})
    ensures Gathered(b, n, s)
  {
    hide Fit, Lawful, Flowgraph.Live, KeptFit, TasksFit;
    forall m, t | m != n && t in Among(b.reachDef, m)
      ensures t in b.states && t != s && Fit(b, m, t.Size(), b.loops.Keys)
    {
      assert t in Among(was, m) && t !in Among(was, n);
    }
    forall l, m, t | t in Among(b.reachDef, l) && t in Among(b.reachDef, m)
      ensures l == m
    {
      assert t in Among(was, l) && t in Among(was, m);
    }
  }

  // Saved states are not touched.
  method GatherOnly(b: Builder, n: Node) returns (ok: bool, s: ReachDefinition?)
    requires b.Valid() && n.inst.LoopHead?
    modifies b`reachDef, b.Delivered(n), b.defs
    ensures b.Valid() && (ok ==> s != null && s in old(b.Delivered(n)) && s in b.states && b.reachDef == old(b.reachDef)[n := {s}])
    ensures old(AllFit(b)) && old(b.Delivered(n)) != {} ==> ok && s.Size() == b.shape(n)
    ensures ok && n !in b.loops ==> Undropped(s, old(s.stack), old(s.Snap()))
    ensures ok ==> s.stack in old(Lefts(b, n))
    ensures old(KeptFit(b, b.loops, b.cache)) ==> KeptFit(b, b.loops, b.cache)
  {
    hide Builder.Sound, Builder.Linked, AllFit, Undropped, ReachDefinition.Snap, ReachDefinition.Size;
    b.KeptApart();
    b.DeliveredAreStates(n);
    ok, s := GatherStates(b, n);
  }

  // The state has kept its operands and all origins.
  ghost predicate Undropped(s: ReachDefinition, stack: seq<Definition>, v: State)
    reads *
  {
    s.stack == stack && Covers(s.Snap(), v)
  }

  method GatherStates(b: Builder, n: Node) returns (ok: bool, s: ReachDefinition?)
    requires b.Valid() && n.inst.LoopHead?
    modifies b`reachDef, b.Delivered(n), b.defs
    ensures b.Valid() && (ok ==> s != null && s in old(b.Delivered(n)) && s in b.states && b.reachDef == old(b.reachDef)[n := {s}])
    ensures old(AllFit(b)) && old(b.Delivered(n)) != {} ==> ok && s.Size() == b.shape(n)
    ensures ok && n !in b.loops ==> Undropped(s, old(s.stack), old(s.Snap()))
    ensures ok ==> s.stack in old(Lefts(b, n))
  {
    hide Builder.Sound, Builder.Owned, Shows, AllParts, Separate, JoinsAll, Fit, Builder.AllCome, ShapeOnArrival, Covers, ReachDefinition.Snap;
    ghost var came := b.Snaps(b.Delivered(n));
    if AllFit(b) && b.Delivered(n) != {} {
      AllCanCome(b, n, came);
    }
    b.PartsKnown(n);
    ghost var joined;
    ok, s, joined := b.GetReachDef(n, came, b.shape(n));
    if ok {
      b.SizeIs(s, joined);
      IsSnap(s, joined);
    }
  }

  lemma FitsThere(b: Builder, n: Node)
    requires Lawful(b) && AllFit(b) && b.Delivered(n) != {} && n.inst.LoopHead?
    ensures b.graph.Live(n) && Fit(b, n, b.shape(n), b.loops.Keys + {n})
  {
    var t :| t in b.Delivered(n);
    HeadStays(b, n, t.Size(), b.loops.Keys);
  }

  // ----- one task -----

  // The first visit to a loop.
  method EnterFirst(b: Builder, n: Node, s: ReachDefinition) returns (ghost sent: map<CfgEdge, ReachDefinition>)
    requires b.Valid() && s in b.states
    modifies b`dfsList, b`reachDef, b`loops, b`entrances, b`cache, b`defs, b`kept, b`states, b`saved
    ensures b.Valid() && b.Grown() && WentOn(b, old(b.Now(n)), n, s, sent)
    ensures n in b.cache && b.cache == old(b.cache)[n := b.cache[n]] && CopyOf(b.cache[n], s) && b.entrances == old(b.entrances)[n := []]
    ensures n in b.loops && b.loops == old(b.loops)[n := b.loops[n]] && CopyOf(b.loops[n], s)
  {
    hide Builder.Sound, Builder.Owned, CopyOf, WentOn, Separate, AllParts;
    ghost var was := b.Now(n);
    b.entrances := b.entrances[n := []];
    CacheState(b, n, s);
    ghost var after := b.Now(n);
    sent := SaveAndAdvance(b, n, s);
    WentOnToo(b, after, was, n, s, sent);
  }

  // What has been united has gone on.
  lemma ShapelyAfter(b: Builder, was: Before, n: Node, arrived: ReachDefinition, s: ReachDefinition, sent: map<CfgEdge, ReachDefinition>,
                     known: set<Node>)
    requires Lawful(b) && b.graph.Live(n) && n.inst.LoopHead? && Fit(b, n, b.shape(n), known) && known == b.loops.Keys && s.Size() == b.shape(n)
    requires WentOn(b, was, n, s, sent) && was.states <= b.states && (s == arrived || s !in was.states)
    requires OthersFit(b, n, arrived, was.reachDef, known, was.states)
    requires Alone(was.reachDef) && KeptFit(b, b.loops, b.cache) && TasksFit(b, was.tasks)
    ensures Shapely(b)
  {
    hide Fit, Lawful, Flowgraph.Live, KeptFit, TasksFit, Alone, AllFit, Builder.Moved, Builder.AllSentDiffer, ShapeAfter, Scheduled, Among;
    MovedTasks(b, was, n, {s}, sent);
    KnownAtHead(b, n);
    StillFit(b, was, n, {s}, sent);
    StillAlone(b, was, n, {s}, sent);
    StillTasks(b, was.tasks, n);
  }

  lemma MovedTasks(b: Builder, was: Before, n: Node, own: set<ReachDefinition>, sent: map<CfgEdge, ReachDefinition>)
    requires b.Moved(was, n, own, sent)
    ensures Scheduled(b.graph.OutEdges(n), was.tasks, b.dfsList, n, b.loopsStack)
  {
  }

  lemma KnownAtHead(b: Builder, n: Node)
    requires Fit(b, n, b.shape(n), b.loops.Keys) && n.inst.LoopHead?
    ensures LabelsKnown(b, ShapeAfter(n, b.shape(n)).labels, b.loops.Keys) && ShapeAfter(n, b.shape(n)) == b.shape(n)
  {
  }

  lemma OthersStay(b: Builder, n: Node, s: ReachDefinition, reach: map<Node, set<ReachDefinition>>, known: set<Node>, all: set<ReachDefinition>)
    requires OthersFit(b, n, s, reach, known, all)
    ensures OthersFit(b, n, s, reach, known + {n}, all)
  {
    forall m, t | m != n && t in Among(reach, m)
      ensures Fit(b, m, t.Size(), known + {n})
    {
      FitStays(b, m, t.Size(), known, n);
    }
  }

  // The state has gone on from the head of a loop that is new, and a copy of
  // it is saved.
  ghost predicate Entered(b: Builder, was: Before, n: Node, s: ReachDefinition, oldLoops: map<Node, ReachDefinition>, sent: map<CfgEdge, ReachDefinition>)
    reads *
  {
    n in b.loops && b.loops == oldLoops[n := b.loops[n]] && CopyOf(b.loops[n], s) && WentOn(b, was, n, s, sent)
  }

  // How a visit to a loop head ends: with the wait check, by entering the loop
  // for the first time, by going round again with more than before, by leaving
  // it, or by stopping there.
  datatype Outcome = Held | New | Changed | Left | Stayed

  // States have gone on from `n`, and nothing waits there.
  ghost predicate GoneOn(b: Builder, was: Before, n: Node, sent: map<CfgEdge, ReachDefinition>)
    reads b`states, b`reachDef, b`dfsList, b`loopsStack
  {
    b.Moved(was, n, Among(was.reachDef, n), sent) && b.AllSentDiffer(sent)
  }

  // What has become of the worklist, of the waiting states, and of the active
  // loops, which were `stack`.
  ghost predicate Became(b: Builder, was: Before, n: Node, how: Outcome, stack: seq<Node>, sent: map<CfgEdge, ReachDefinition>)
    reads b`states, b`reachDef, b`dfsList, b`loopsStack
  {
    match how
    case Held => b.reachDef == was.reachDef && b.dfsList == was.tasks && b.loopsStack == stack
    case New => GoneOn(b, was, n, sent) && b.loopsStack == [n] + stack
    case Changed => GoneOn(b, was, n, sent) && b.loopsStack == WithLoop(stack, n)
    case Left => GoneOn(b, was, n, sent) && b.loopsStack == WithoutLoop(stack, n)
    case Stayed => b.dfsList == was.tasks && b.loopsStack == stack && OneStays(b.reachDef, was.reachDef, n)
  }

  ghost predicate OneStays(reach: map<Node, set<ReachDefinition>>, before: map<Node, set<ReachDefinition>>, n: Node) {
    reach == before || exists t :: t in Among(before, n) && reach == before[n := {t}]
  }

  // The operands of all states that have gone on or been saved.
  ghost predicate Operands(b: Builder, n: Node, how: Outcome, ops: seq<Definition>, loops: map<Node, ReachDefinition>, cache: map<Node, ReachDefinition>,
                           sent: map<CfgEdge, ReachDefinition>)
    reads *
  {
    && (how.New? || how.Changed? || how.Left? ==> forall e :: e in sent ==> sent[e].stack == ops)
    && (if how.New? || how.Changed? then n in b.loops && b.loops == loops[n := b.loops[n]] && b.loops[n].stack == ops else b.loops == loops)
    && (if how.Changed? || how.Held? then b.cache == cache else n in b.cache && b.cache == cache[n := b.cache[n]] && b.cache[n].stack == ops)
  }

  // What is left of the operands of the states at `n` when they arrive.
  ghost function Lefts(b: Builder, n: Node): set<seq<Definition>>
    reads b`reachDef, b`loops, b.Delivered(n)
  {
    set t | t in b.Delivered(n) :: b.OperandsLeft(n, t.Size(), t.stack)
  }

  // They come from a state that has arrived, or from the cached one.
  ghost predicate OperandsWent(b: Builder, n: Node, how: Outcome, lefts: set<seq<Definition>>, loops: map<Node, ReachDefinition>, cache: map<Node, ReachDefinition>,
                               ops: seq<Definition>, sent: map<CfgEdge, ReachDefinition>)
    reads *
  {
    && Operands(b, n, how, ops, loops, cache, sent) && (ops in lefts || (n in cache && ops == cache[n].stack))
    && (how.Stayed? ==> forall t :: t in b.Delivered(n) ==> t.stack == ops)
  }

  lemma WentOnIsGone(b: Builder, was: Before, n: Node, s: ReachDefinition, sent: map<CfgEdge, ReachDefinition>)
    requires WentOn(b, was, n, s, sent) && (s in Among(was.reachDef, n) || s !in was.states)
    ensures GoneOn(b, was, n, sent)
  {
    b.MovedToo(was, was, n, {s}, Among(was.reachDef, n), sent);
  }

  // The same from before the states at `n` were united.
  lemma BecameToo(b: Builder, after: Before, was: Before, n: Node, s: ReachDefinition, how: Outcome, stack: seq<Node>, sent: map<CfgEdge, ReachDefinition>)
    requires Became(b, after, n, how, stack, sent) && how != Held && was.states <= after.states && s in Among(was.reachDef, n)
    requires after.reachDef == was.reachDef[n := {s}] && after.tasks == was.tasks
    ensures Became(b, was, n, how, stack, sent)
  {
    if how.Stayed? {
      assert forall t :: t in Among(after.reachDef, n) ==> t == s;
      assert was.reachDef[n := {s}][n := {s}] == was.reachDef[n := {s}];
      assert b.reachDef == was.reachDef[n := {s}];
    } else {
      b.MovedToo(after, was, n, Among(after.reachDef, n), Among(was.reachDef, n), sent);
    }
  }

  method MeetFirst(b: Builder, n: Node, s: ReachDefinition) returns (ghost sent: map<CfgEdge, ReachDefinition>)
    requires b.Valid() && n.inst.LoopHead? && s in b.states && n !in b.loops
    modifies b`dfsList, b`reachDef, b`loops, b`entrances, b`cache, b`loopsStack,
             b`defs, b`kept, b`states, b`saved
    ensures b.Valid() && b.Grown()
    ensures old(Gathered(b, n, s)) ==> Shapely(b)
    ensures KeepsOn(b, n, old(b.loops), old(b.floor)) && Entered(b, old(b.Now(n)), n, s, old(b.loops), sent)
    ensures b.loopsStack == [n] + old(b.loopsStack)
    ensures Operands(b, n, New, s.stack, old(b.loops), old(b.cache), sent)
  {
    hide Builder.Sound, Builder.Linked, CopyOf, WentOn, Shapely, OthersFit, Fit, Lawful, Alone, TasksFit,
         KeptFit, Flowgraph.Live, Separate, AllParts, ReachDefinition.Size;
    ghost var gathered, was, known, oldLoops, oldCache := Gathered(b, n, s), b.Now(n), b.loops.Keys + {n}, b.loops, b.cache;
    if gathered {
      OthersStay(b, n, s, b.reachDef, b.loops.Keys, b.states);
    }
    b.loopsStack := [n] + b.loopsStack;
    sent := EnterFirst(b, n, s);
    FirstOperands(b, was, n, s, oldLoops, oldCache, sent);
    if gathered {
      assert b.loops.Keys == known;
      KeptFitsToo(b, oldLoops, oldCache, n, s);
      ShapelyAfter(b, was, n, s, s, sent, known);
    }
  }

  lemma FirstOperands(b: Builder, was: Before, n: Node, s: ReachDefinition, loops: map<Node, ReachDefinition>, cache: map<Node, ReachDefinition>,
                      sent: map<CfgEdge, ReachDefinition>)
    requires WentOn(b, was, n, s, sent) && n in b.loops && b.loops == loops[n := b.loops[n]] && CopyOf(b.loops[n], s)
    requires n in b.cache && b.cache == cache[n := b.cache[n]] && CopyOf(b.cache[n], s)
    ensures Operands(b, n, New, s.stack, loops, cache, sent)
  {
    hide Builder.Moved, Builder.AllSentDiffer;
    CopyHasSize(b.loops[n], s);
    CopyHasSize(b.cache[n], s);
  }

  lemma KeptFitsToo(b: Builder, oldLoops: map<Node, ReachDefinition>, oldCache: map<Node, ReachDefinition>, n: Node, s: ReachDefinition)
    requires KeptFit(b, oldLoops, oldCache) && n.inst.LoopHead? && s.Size() == b.shape(n)
    requires n in b.loops && (b.loops == oldLoops || (b.loops == oldLoops[n := b.loops[n]] && CopyOf(b.loops[n], s)))
    requires b.cache == oldCache || (n in b.cache && b.cache == oldCache[n := b.cache[n]] && CopyOf(b.cache[n], s))
    ensures KeptFit(b, b.loops, b.cache)
  {
    if CopyOf(b.loops[n], s) {
      CopyHasSize(b.loops[n], s);
    }
    if n in b.cache && CopyOf(b.cache[n], s) {
      CopyHasSize(b.cache[n], s);
    }
  }

  method MeetAgain(b: Builder, n: Node, arrived: ReachDefinition)
    returns (ok: bool, ghost how: Outcome, ghost ops: seq<Definition>, ghost sent: map<CfgEdge, ReachDefinition>)
    requires b.Valid() && n.inst.LoopHead? && arrived in b.states && n in b.loops && arrived in b.Delivered(n)
    modifies b`dfsList, b`reachDef, b`loops, b`entrances, b`cache, b`loopsStack,
             b`defs, b`kept, b`states, b`saved, b`floor, b.defs
    ensures b.Valid() && b.Grown()
    ensures old(Gathered(b, n, arrived)) ==> ok && Shapely(b)
    ensures KeepsOn(b, n, old(b.loops), old(b.floor))
    ensures how != Held && how != New && (ok ==> Became(b, old(b.Now(n)), n, how, old(b.loopsStack), sent))
    ensures ok && how != Changed ==> (how == Left <==> Leaves(b, n, old(b.loopsStack)))
    ensures how == Changed ==> Widened(b, n, old(b.loops), old(b.floor))
    ensures ok ==> Operands(b, n, how, ops, old(b.loops), old(b.cache), sent) && (how.Stayed? ==> ops == arrived.stack)
    ensures ok ==> ops == arrived.stack || (n in old(b.cache) && ops == old(b.cache)[n].stack)
  {
    hide Builder.Sound, Builder.Linked, CopyOf, WentOn, Shapely, OthersFit, Fit, Lawful, Alone, TasksFit,
         KeptFit, Flowgraph.Live, Separate, AllParts, Rewritten, Shows, Unmixed, SlotsOf, ReachDefinition.Size, Leaves, GoneOn, WithLoop, WithoutLoop, VarsAre, Widened, Operands;
    ghost var gathered, was, known, oldLoops, oldCache, oldFloor := Gathered(b, n, arrived), b.Now(n), b.loops.Keys + {n}, b.loops, b.cache, b.floor;
    assert known == b.loops.Keys;
    ghost var v := b.loops[n].Snap();
    IsSnap(b.loops[n], v);
    SavedHasNoted(b, n, v);
    SavedVars(b, n, v);
    if gathered {
      KeptSizes(b, n);
    }
    var changed, on;
    ghost var s, apart;
    ok, changed, on, s, apart, sent := Reenter(b, n, arrived, b.loops[n], v);
    how := if changed then Changed else if on then Left else Stayed;
    ops := s.stack;
    InsideThere(b, n, old(b.loopsStack));
    if changed {
      RewrittenLoops(b, n, s, oldLoops[n], v, apart, oldLoops, oldFloor);
    }
    if ok {
      OperandsAgain(b, was, n, s, how, oldLoops, oldCache, sent);
    }
    if ok && on {
      WentOnIsGone(b, was, n, s, sent);
    }
    if changed {
      RewrittenKeeps(b, n, s, oldLoops[n], v, apart, oldLoops, oldFloor);
      RewrittenWidens(b, n, s, oldLoops[n], v, apart, oldLoops, oldFloor);
    }
    if gathered {
      KeptFitsToo(b, oldLoops, oldCache, n, s);
      if on {
        ShapelyAfter(b, was, n, arrived, s, sent, known);
      } else {
        ShapelyStays(b, was, n, arrived, known);
      }
    }
  }

  lemma InsideThere(b: Builder, n: Node, stack: seq<Node>)
    ensures Leaves(b, n, stack) || b.lastNode in b.Members(n)
  {
  }

  lemma SavedVars(b: Builder, n: Node, v: State)
    requires b.Valid() && n in b.loops && b.loops[n].Is(v) && v == b.loops[n].Snap()
    ensures b.loops[n] in b.saved && VarsAre(b.loops[n], v) && b.loops[n].Vars() !! b.defs
  {
    hide Builder.Sound;
  }

  lemma KeptSizes(b: Builder, n: Node)
    requires KeptFit(b, b.loops, b.cache) && n in b.loops
    ensures b.loops[n].Size() == b.shape(n) && (n in b.cache ==> b.cache[n].Size() == b.shape(n))
  {
  }

  lemma OperandsAgain(b: Builder, was: Before, n: Node, s: ReachDefinition, how: Outcome, loops: map<Node, ReachDefinition>, cache: map<Node, ReachDefinition>,
                      sent: map<CfgEdge, ReachDefinition>)
    requires how.Changed? || how.Left? || how.Stayed?
    requires !how.Stayed? ==> WentOn(b, was, n, s, sent)
    requires if how.Changed? then n in b.loops && b.loops == loops[n := b.loops[n]] && CopyOf(b.loops[n], s) && b.cache == cache
             else b.loops == loops && n in b.cache && b.cache == cache[n := b.cache[n]] && CopyOf(b.cache[n], s)
    ensures Operands(b, n, how, s.stack, loops, cache, sent)
  {
    hide Builder.Moved, Builder.AllSentDiffer;
    if how.Changed? {
      CopyHasSize(b.loops[n], s);
    } else {
      CopyHasSize(b.cache[n], s);
    }
  }

  lemma RewrittenLoops(b: Builder, n: Node, s: ReachDefinition, before: ReachDefinition, v: State, apart: bool,
                       oldLoops: map<Node, ReachDefinition>, oldFloor: map<Definition, set<Node>>)
    requires Rewritten(b, n, s, before, v, apart, oldLoops, oldFloor)
    ensures n in b.loops && b.loops == oldLoops[n := b.loops[n]] && CopyOf(b.loops[n], s)
  {
  }

  // The state that has been united waits at the loop head.
  lemma ShapelyStays(b: Builder, was: Before, n: Node, s: ReachDefinition, known: set<Node>)
    requires Lawful(b) && known == b.loops.Keys && Fit(b, n, b.shape(n), known) && s.Size() == b.shape(n) && s in b.states
    requires b.reachDef == was.reachDef && was.states <= b.states && b.dfsList == was.tasks && b.Delivered(n) == {s}
    requires OthersFit(b, n, s, was.reachDef, known, was.states)
    requires Alone(was.reachDef) && KeptFit(b, b.loops, b.cache) && TasksFit(b, was.tasks)
    ensures Shapely(b)
  {
    hide Fit, Lawful, KeptFit, TasksFit, Alone;
  }

  method Meet(b: Builder, n: Node, arrived: ReachDefinition, ghost stack: seq<Definition>, ghost v: State)
    returns (ok: bool, ghost how: Outcome, ghost ops: seq<Definition>, ghost sent: map<CfgEdge, ReachDefinition>)
    requires b.Valid() && n.inst.LoopHead? && arrived in b.states && arrived in b.Delivered(n)
    modifies b`dfsList, b`reachDef, b`loops, b`entrances, b`cache, b`loopsStack,
             b`defs, b`kept, b`states, b`saved, b`floor, b.defs
    ensures b.Valid() && b.Grown()
    ensures old(Gathered(b, n, arrived)) ==> ok && Shapely(b)
    ensures KeepsOn(b, n, old(b.loops), old(b.floor))
    ensures n !in old(b.loops) ==> Entered(b, old(b.Now(n)), n, arrived, old(b.loops), sent) && (old(Undropped(arrived, stack, v)) ==> Undropped(arrived, stack, v))
    ensures how != Held && (how == New <==> n !in old(b.loops)) && (ok ==> Became(b, old(b.Now(n)), n, how, old(b.loopsStack), sent))
    ensures ok && (how == Left || how == Stayed) ==> (how == Left <==> Leaves(b, n, old(b.loopsStack)))
    ensures how == Changed ==> Widened(b, n, old(b.loops), old(b.floor))
    ensures ok ==> Operands(b, n, how, ops, old(b.loops), old(b.cache), sent) && (how.Stayed? ==> ops == arrived.stack)
    ensures ok ==> ops == arrived.stack || (n in old(b.cache) && ops == old(b.cache)[n].stack)
  {
    hide Builder.Sound, Builder.Linked, Gathered, Shapely, KeepsOn, Entered, Leaves, GoneOn, Widened, Operands;
    ok, sent, how, ops := true, map[], New, arrived.stack;
    if n in b.loops {
      ok, how, ops, sent := MeetAgain(b, n, arrived);
    } else {
      ghost var was, oldLoops := b.Now(n), b.loops;
      sent := MeetFirst(b, n, arrived);
      EnteredIsGone(b, was, n, arrived, oldLoops, sent);
    }
  }

  lemma EnteredIsGone(b: Builder, was: Before, n: Node, s: ReachDefinition, oldLoops: map<Node, ReachDefinition>, sent: map<CfgEdge, ReachDefinition>)
    requires Entered(b, was, n, s, oldLoops, sent) && s in Among(was.reachDef, n)
    ensures GoneOn(b, was, n, sent)
  {
    hide CopyOf;
    WentOnIsGone(b, was, n, s, sent);
  }

  // The instructions of a loop, found on its first visit.
  method Know(b: Builder, n: Node)
    requires b.Valid()
    modifies b`loopsInsts
    ensures b.Valid() && n in b.loopsInsts
    ensures b.loopsInsts == old(Knowing(b, n))
  {
    hide Builder.Sound, Builder.Linked;
    if n !in b.loopsInsts {
      b.loopsInsts := b.loopsInsts[n := b.inside(n)];
    }
  }

  // The states at a loop head are united; then the loop is entered for the
  // first time, or once more.
  method VisitLoop(b: Builder, n: Node)
    returns (ok: bool, ghost how: Outcome, ghost s: ReachDefinition?, ghost ops: seq<Definition>, ghost sent: map<CfgEdge, ReachDefinition>)
    requires b.Valid() && n.inst.LoopHead?
    modifies b`dfsList, b`reachDef, b`loops, b`entrances, b`cache, b`loopsInsts, b`loopsStack,
             b`defs, b`kept, b`states, b`saved, b`floor, b`passed, b.Delivered(n), b.defs
    ensures b.Valid() && b.Grown()
    ensures KeepsOn(b, n, old(b.loops), old(b.floor))
    ensures old(Shapely(b) && exists e :: Takes(b, e, b.lastNode, n)) ==> ok && Shapely(b)
    ensures how == Held ==> old(b.loopsStack) != [] || old(|b.Delivered(n)|) < |b.graph.InEdges(n)|
    ensures ok && n !in old(b.loops) && how != Held ==>
              s in old(b.Delivered(n)) && Entered(b, old(b.Now(n)), n, s, old(b.loops), sent) && Undropped(s, old(s.stack), old(s.Snap()))
    ensures HeadChecked(b, n, how == Held) && (how == Held ==> b.loops == old(b.loops))
    ensures ok ==> Became(b, old(b.Now(n)), n, how, old(b.loopsStack), sent) && (how == New <==> how != Held && n !in old(b.loops))
    ensures ok && (how == Left || how == Stayed) ==> (how == Left <==> Leaves(b, n, old(b.loopsStack)))
    ensures how == Changed ==> Widened(b, n, old(b.loops), old(b.floor))
    ensures ok && how != Held ==> OperandsWent(b, n, how, old(Lefts(b, n)), old(b.loops), old(b.cache), ops, sent)
    ensures how == Held ==> b.cache == old(b.cache) && forall t :: t in old(b.Delivered(n)) ==> unchanged(t)
  {
    hide Builder.Sound, Builder.Linked, OperandsWent, Lefts, Noted, Shapely, Entered, Undropped, ReachDefinition.Snap, Builder.Now, Takes, Leaves, GoneOn, Builder.HeldIn, Knowing, Widened;
    var wait := ComeTo(b, n);
    ok, how, s, ops, sent := true, Held, null, [], map[];
    ghost var was := b.Now(n);
    if wait {
      NothingMoved(b, was, n);
    } else {
      ok, how, s, ops, sent := GatherAndMeet(b, n);
    }
  }

  lemma NothingMoved(b: Builder, was: Before, n: Node)
    requires was == b.Now(n)
    ensures Became(b, was, n, Held, b.loopsStack, map[])
  {
  }

  // What is known of loops after a visit to `n`.
  function Knowing(b: Builder, n: Node): map<Node, set<Node>>
    reads b`loopsInsts
  {
    if n in b.loopsInsts then b.loopsInsts else b.loopsInsts[n := b.inside(n)]
  }

  // What the wait check at a loop head has done.
  twostate predicate HeadChecked(b: Builder, n: Node, held: bool)
    reads b`loopsInsts, b`passed
  {
    && (held <==> old(b.HeldIn(Knowing(b, n), n))) && b.loopsInsts == old(Knowing(b, n))
    && b.passed == if held then old(b.passed) else old(b.passed) + [n]
  }

  // The wait check at a loop head.
  method ComeTo(b: Builder, n: Node) returns (wait: bool)
    requires b.Valid() && n.inst.LoopHead?
    modifies b`loopsInsts, b`passed
    ensures b.Valid() && b.Now(n) == old(b.Now(n)) && (old(Shapely(b)) ==> Shapely(b)) && HeadChecked(b, n, wait)
    ensures wait ==> b.loopsStack != [] || |b.Delivered(n)| < |b.graph.InEdges(n)|
    ensures !wait && old(exists e :: Takes(b, e, b.lastNode, n)) ==> b.Delivered(n) != {}
  {
    hide Builder.Sound, Builder.Linked, Lawful, AllFit, Alone, KeptFit, TasksFit, Builder.HeldIn, Separate, AllParts, Stacks;
    Know(b, n);
    WaitsAtHead(b, n);
    wait := b.Check(n);
    if e :| !wait && Takes(b, e, b.lastNode, n) {
      b.SomethingDelivered(n, e);
    }
  }

  lemma WaitsAtHead(b: Builder, n: Node)
    requires n.inst.LoopHead?
    ensures b.Waits(n) ==> b.loopsStack != [] || |b.Delivered(n)| < |b.graph.InEdges(n)|
  {
    FewerEdges(b.Awaited(n), b.graph.InEdges(n));
  }

  lemma FewerEdges(some: set<CfgEdge>, all: set<CfgEdge>)
    requires some <= all
    ensures |some| <= |all|
  {
    Fewer(some, all);
  }

  method GatherAndMeet(b: Builder, n: Node)
    returns (ok: bool, ghost how: Outcome, ghost s: ReachDefinition?, ghost ops: seq<Definition>, ghost sent: map<CfgEdge, ReachDefinition>)
    requires b.Valid() && n.inst.LoopHead?
    modifies b`dfsList, b`reachDef, b`loops, b`entrances, b`cache, b`loopsStack,
             b`defs, b`kept, b`states, b`saved, b`floor, b.Delivered(n), b.defs
    ensures b.Valid() && b.Grown()
    ensures KeepsOn(b, n, old(b.loops), old(b.floor))
    ensures old(Shapely(b) && b.Delivered(n) != {}) ==> ok && Shapely(b)
    ensures ok && n !in old(b.loops) ==>
              s in old(b.Delivered(n)) && Entered(b, old(b.Now(n)), n, s, old(b.loops), sent) && Undropped(s, old(s.stack), old(s.Snap()))
    ensures how != Held && (how == New <==> n !in old(b.loops)) && (ok ==> Became(b, old(b.Now(n)), n, how, old(b.loopsStack), sent))
    ensures ok && (how == Left || how == Stayed) ==> (how == Left <==> Leaves(b, n, old(b.loopsStack)))
    ensures how == Changed ==> Widened(b, n, old(b.loops), old(b.floor))
    ensures ok && how != Held ==> OperandsWent(b, n, how, old(Lefts(b, n)), old(b.loops), old(b.cache), ops, sent)
  {
    hide Builder.Sound, Builder.Linked, Operands, OperandsWent, Lefts, Builder.OperandsLeft, ReachDefinition.Size, Shapely, Gathered, Noted, Entered, Undropped, ReachDefinition.Snap, Leaves, Became, Separate, AllParts, Stacks, Widened;
    b.KeptApart();
    b.DeliveredAreStates(n);
    var arrived;
    ghost var was, lefts, loops, cache := b.Now(n), Lefts(b, n), b.loops, b.cache;
    ok, arrived := Gather(b, n);
    s, sent, ops, how := arrived, map[], [], if n in b.loops then Stayed else New;
    if ok {
      ok, how, ops, sent := MeetGathered(b, n, arrived, was, old(arrived.stack), old(arrived.Snap()));
      if ok {
        HaveGone(b, n, how, arrived, lefts, loops, cache, ops, sent);
      }
    }
  }

  // What waited at the loop head has been united into `arrived`.
  method MeetGathered(b: Builder, n: Node, arrived: ReachDefinition, ghost was: Before, ghost stack: seq<Definition>, ghost v: State)
    returns (ok: bool, ghost how: Outcome, ghost ops: seq<Definition>, ghost sent: map<CfgEdge, ReachDefinition>)
    requires b.Valid() && n.inst.LoopHead? && arrived in b.states && arrived in Among(was.reachDef, n)
    requires b.reachDef == was.reachDef[n := {arrived}] && b.dfsList == was.tasks && b.states == was.states
    modifies b`dfsList, b`reachDef, b`loops, b`entrances, b`cache, b`loopsStack,
             b`defs, b`kept, b`states, b`saved, b`floor, b.defs
    ensures b.Valid() && b.Grown()
    ensures old(Gathered(b, n, arrived)) ==> ok && Shapely(b)
    ensures KeepsOn(b, n, old(b.loops), old(b.floor))
    ensures n !in old(b.loops) ==> Entered(b, was, n, arrived, old(b.loops), sent) && (old(Undropped(arrived, stack, v)) ==> Undropped(arrived, stack, v))
    ensures how != Held && (how == New <==> n !in old(b.loops)) && (ok ==> Became(b, was, n, how, old(b.loopsStack), sent))
    ensures ok && (how == Left || how == Stayed) ==> (how == Left <==> Leaves(b, n, old(b.loopsStack)))
    ensures how == Changed ==> Widened(b, n, old(b.loops), old(b.floor))
    ensures ok ==> Operands(b, n, how, ops, old(b.loops), old(b.cache), sent) && (how.Stayed? ==> ops == arrived.stack)
    ensures ok ==> ops == arrived.stack || (n in old(b.cache) && ops == old(b.cache)[n].stack)
    ensures ok && how == Stayed ==> b.Delivered(n) == {arrived}
  {
    hide Builder.Sound, Builder.Linked, Gathered, Shapely, KeepsOn, Entered, Leaves, Became, Widened, Undropped, Separate, AllParts, Stacks, Operands;
    ghost var after, loops, active := b.Now(n), b.loops, b.loopsStack;
    ok, how, ops, sent := Meet(b, n, arrived, stack, v);
    if n !in loops {
      EnteredToo(b, after, was, n, arrived, loops, sent);
    }
    if ok {
      OneStaysAlone(b, after, n, arrived, how, active, sent);
      BecameToo(b, after, was, n, arrived, how, active, sent);
    }
  }

  lemma OneStaysAlone(b: Builder, after: Before, n: Node, s: ReachDefinition, how: Outcome, stack: seq<Node>, sent: map<CfgEdge, ReachDefinition>)
    requires Became(b, after, n, how, stack, sent) && Among(after.reachDef, n) == {s}
    ensures how == Stayed ==> b.Delivered(n) == {s}
  {
    hide GoneOn;
  }

  lemma HaveGone(b: Builder, n: Node, how: Outcome, arrived: ReachDefinition, lefts: set<seq<Definition>>, loops: map<Node, ReachDefinition>,
                 cache: map<Node, ReachDefinition>, ops: seq<Definition>, sent: map<CfgEdge, ReachDefinition>)
    requires Operands(b, n, how, ops, loops, cache, sent) && arrived.stack in lefts && (ops == arrived.stack || (n in cache && ops == cache[n].stack))
    requires how.Stayed? ==> ops == arrived.stack && b.Delivered(n) == {arrived}
    ensures OperandsWent(b, n, how, lefts, loops, cache, ops, sent)
  {
    hide Operands;
  }

  lemma EnteredToo(b: Builder, after: Before, was: Before, n: Node, s: ReachDefinition, oldLoops: map<Node, ReachDefinition>, sent: map<CfgEdge, ReachDefinition>)
    requires Entered(b, after, n, s, oldLoops, sent) && was.states <= after.states && after.reachDef == was.reachDef[n := {s}] && after.tasks == was.tasks
    ensures Entered(b, was, n, s, oldLoops, sent)
  {
    hide CopyOf;
    b.MovedToo(after, was, n, {s}, {s}, sent);
  }

  // The visit of an instruction that is no loop head, on any code.
  method VisitQuietly(b: Builder, n: Node, ghost came: map<ReachDefinition, State>)
    returns (ok: bool, stopped: bool, ghost joined: State, ghost sent: map<CfgEdge, ReachDefinition>)
    requires b.Valid() && n in b.graph.Nodes() && !n.inst.LoopHead?
    requires came.Keys == b.Delivered(n) && forall t :: t in came ==> t.Is(came[t])
    modifies b`edges, b`dfsList, b`reachDef, b`loopsInsts, b`defs, b`kept, b`states, b`saved, b`floor, b`passed, b.Delivered(n), b.defs
    ensures b.Valid() && b.Grown() && Within(old(b.edges), b.edges) && b.Risen(old(b.floor))
    ensures stopped ==> ok && b.reachDef == old(b.reachDef) && b.dfsList == old(b.dfsList) && (forall t :: t in came ==> t.Is(came[t]) && unchanged(t))
    ensures !stopped ==> !n.inst.Unreachable? && |b.graph.InEdges(n)| <= old(|b.Delivered(n)|)
    ensures stopped ==> n.inst.Unreachable? || old(b.loopsStack) != [] || old(|b.Delivered(n)|) < |b.graph.InEdges(n)|
    ensures b.Checked(n, stopped)
    ensures !stopped && !n.inst.Start? && b.AllCome(n, came, b.shape(n)) && Accepts(n, b.shape(n), b.results) ==>
              ok && b.Passed(old(b.Now(n)), n, came, b.shape(n), joined, sent)
  {
    hide Builder.Sound, Builder.Linked, Builder.AllCome, Accepts, Builder.Passed, Separate, AllParts, Shows;
    b.KeptApart();
    b.DeliveredAreStates(n);
    b.PartsKnown(n);
    ok, stopped, joined, sent := b.VisitPlain(n, came, b.shape(n));
  }

  // A visit on validated code.
  method VisitOther(b: Builder, n: Node)
    returns (ok: bool, ghost stopped: bool, ghost came: map<ReachDefinition, State>, ghost joined: State, ghost sent: map<CfgEdge, ReachDefinition>)
    requires b.Valid() && n in b.graph.Nodes() && !n.inst.LoopHead?
    modifies b`edges, b`dfsList, b`reachDef, b`loopsInsts, b`defs, b`kept, b`states, b`saved, b`floor, b`passed, b.Delivered(n), b.defs
    ensures b.Valid() && b.Grown() && Within(old(b.edges), b.edges) && b.Risen(old(b.floor))
    ensures stopped ==> forall t :: t in old(b.Delivered(n)) ==> unchanged(t)
    ensures old(Shapely(b) && exists e :: Takes(b, e, b.lastNode, n)) ==>
              ok && Shapely(b) && came == old(b.Snaps(b.Delivered(n))) && VisitDone(b, old(b.Now(n)), n, came, stopped, joined, sent)
    ensures stopped ==> n.inst.Unreachable? || old(b.loopsStack) != [] || old(|b.Delivered(n)|) < |b.graph.InEdges(n)|
    ensures b.Checked(n, stopped)
  {
    hide Builder.Sound, Builder.Linked, Ready, VisitDone;
    ghost var sizes := map t | t in b.states :: t.Size();
    came := b.Snaps(b.Delivered(n));
    if Shapely(b) && exists e :: Takes(b, e, b.lastNode, n) {
      var e :| Takes(b, e, b.lastNode, n);
      IsReady(b, n, came, sizes, e);
    }
    ok, stopped, joined, sent := VisitReady(b, n, came, sizes, Ready(b, n, came, sizes));
  }

  // What the visit has done, unless it ended with the wait check.
  ghost predicate VisitDone(b: Builder, was: Before, n: Node, came: map<ReachDefinition, State>, stopped: bool, joined: State, sent: map<CfgEdge, ReachDefinition>)
    reads *
  {
    if stopped then b.reachDef == was.reachDef && b.dfsList == was.tasks
    else b.Passed(was, n, came, b.shape(n), joined, sent) && Accepts(n, b.shape(n), b.results)
  }

  // `sizes` are the sizes of all states.
  ghost predicate Ready(b: Builder, n: Node, came: map<ReachDefinition, State>, sizes: map<ReachDefinition, Shape>)
    reads b, b.states, b.loops.Values, b.cache.Values
  {
    && Lawful(b) && Alone(b.reachDef) && KeptFit(b, b.loops, b.cache) && TasksFit(b, b.dfsList) && FitThen(b, b.reachDef, sizes) && sizes.Keys == b.states
    && (forall t :: t in sizes ==> t.Size() == sizes[t] && (t in came ==> sizes[t] == ShapeOf(came[t])))
    && |b.graph.InEdges(n)| > 0
    && (b.Delivered(n) != {} ==> b.AllCome(n, came, b.shape(n)) && Accepts(n, b.shape(n), b.results) && b.graph.Live(n) && !n.inst.Start?)
  }

  lemma IsReady(b: Builder, n: Node, came: map<ReachDefinition, State>, sizes: map<ReachDefinition, Shape>, e: CfgEdge)
    requires Shapely(b) && came.Keys == b.Delivered(n) && (forall t :: t in came ==> t.Is(came[t])) && Takes(b, e, b.lastNode, n)
    requires sizes.Keys == b.states && forall t :: t in sizes ==> t.Size() == sizes[t]
    ensures Ready(b, n, came, sizes)
  {
    hide Lawful, Alone, KeptFit, TasksFit, FitThen, Accepts, Flowgraph.Live, Shows, Builder.AllCome;
    FitNow(b, sizes);
    CanVisitHere(b, n, came, e);
    forall t | t in came
      ensures t in sizes ==> sizes[t] == ShapeOf(came[t])
    {
      b.SizeIs(t, came[t]);
    }
  }

  method VisitReady(b: Builder, n: Node, ghost came: map<ReachDefinition, State>, ghost sizes: map<ReachDefinition, Shape>, ghost ready: bool)
    returns (ok: bool, ghost stopped: bool, ghost joined: State, ghost sent: map<CfgEdge, ReachDefinition>)
    requires b.Valid() && n in b.graph.Nodes() && !n.inst.LoopHead?
    requires came.Keys == b.Delivered(n) && (forall t :: t in came ==> t.Is(came[t])) && (ready ==> Ready(b, n, came, sizes))
    modifies b`edges, b`dfsList, b`reachDef, b`loopsInsts, b`defs, b`kept, b`states, b`saved, b`floor, b`passed, b.Delivered(n), b.defs
    ensures b.Valid() && b.Grown() && Within(old(b.edges), b.edges) && b.Risen(old(b.floor))
    ensures ready ==> ok && Shapely(b) && VisitDone(b, old(b.Now(n)), n, came, stopped, joined, sent)
    ensures stopped ==> forall t :: t in old(b.Delivered(n)) ==> unchanged(t)
    ensures stopped ==> n.inst.Unreachable? || old(b.loopsStack) != [] || old(|b.Delivered(n)|) < |b.graph.InEdges(n)|
    ensures b.Checked(n, stopped)
  {
    hide Builder.Risen, Builder.Checked, Stacks, Builder.Sound, Builder.Linked, Builder.AllCome, Accepts, Builder.Passed, KeptFit, Alone, TasksFit, AllFit,
         Lawful, Separate, AllParts, Shows, Flowgraph.Live, FitThen, ReachDefinition.Size;
    b.KeptApart();
    b.DeliveredAreStates(n);
    ghost var was := b.Now(n);
    var stops;
    ok, stops, joined, sent := VisitQuietly(b, n, came);
    stopped := stops;
    if ready {
      if stopped {
        StoppedFit(b, was, n, came, sizes);
      } else {
        PassedFit(b, was, n, came, joined, sent, sizes);
      }
    }
  }

  lemma CanVisitHere(b: Builder, n: Node, came: map<ReachDefinition, State>, e: CfgEdge)
    requires Shapely(b) && came.Keys == b.Delivered(n) && (forall t :: t in came ==> t.Is(came[t])) && Takes(b, e, b.lastNode, n)
    ensures |b.graph.InEdges(n)| > 0
    ensures b.Delivered(n) != {} ==> b.AllCome(n, came, b.shape(n)) && Accepts(n, b.shape(n), b.results) && b.graph.Live(n) && !n.inst.Start?
  {
    hide Builder.AllCome, Accepts, Flowgraph.Live, Shows;
    assert e in b.graph.InEdges(n);
    if b.Delivered(n) != {} {
      AllCanCome(b, n, came);
    }
  }

  // Where the sizes of the states at that time are still known.
  ghost predicate SizesStay(b: Builder, n: Node, reach: map<Node, set<ReachDefinition>>, sizes: map<ReachDefinition, Shape>)
    reads sizes.Keys
  {
    forall t :: t in sizes && t !in Among(reach, n) ==> t.Size() == sizes[t]
  }

  lemma StoppedFit(b: Builder, was: Before, n: Node, came: map<ReachDefinition, State>, sizes: map<ReachDefinition, Shape>)
    requires Lawful(b) && Alone(b.reachDef) && KeptFit(b, b.loops, b.cache) && TasksFit(b, b.dfsList) && FitThen(b, was.reachDef, sizes)
    requires b.reachDef == was.reachDef && sizes.Keys <= b.states && SizesStay(b, n, b.reachDef, sizes)
    requires came.Keys == b.Delivered(n) && forall t :: t in came ==> t.Is(came[t]) && (t in sizes ==> sizes[t] == ShapeOf(came[t]))
    ensures Shapely(b)
  {
    hide Lawful, Alone, KeptFit, TasksFit, Fit, Shows;
    forall m, t | t in b.Delivered(m)
      ensures t in b.states && Fit(b, m, t.Size(), b.loops.Keys)
    {
      assert t in Among(was.reachDef, m);
      if t in came {
        b.SizeIs(t, came[t]);
      }
    }
  }

  lemma PassedFit(b: Builder, was: Before, n: Node, came: map<ReachDefinition, State>, joined: State, sent: map<CfgEdge, ReachDefinition>,
                  sizes: map<ReachDefinition, Shape>)
    requires Lawful(b) && b.graph.Live(n) && !n.inst.Unreachable? && !n.inst.LoopHead? && Accepts(n, b.shape(n), b.results)
    requires b.Passed(was, n, came, b.shape(n), joined, sent) && Among(was.reachDef, n) != {}
    requires FitThen(b, was.reachDef, sizes) && sizes.Keys == was.states <= b.states && SizesStay(b, n, was.reachDef, sizes)
    requires Alone(was.reachDef) && KeptFit(b, b.loops, b.cache) && TasksFit(b, was.tasks)
    ensures Shapely(b)
  {
    hide Lawful, Alone, KeptFit, TasksFit, Fit, AllFit, Accepts, Flowgraph.Live, Builder.Moved, Builder.AllSentDiffer,
         Builder.Carried, JoinsAll, Adds, ShapeAfter, Scheduled, Builder.Marks, Builder.Current, Builder.Risen, Builder.CoversAll, Builder.AllAssured, Builder.Handed, WfState,
         Builder.OperandsLeft, Builder.ArrivedValues, Builder.AfterVisit;
    var own := Among(was.reachDef, n);
    KnownHere(b, was, n, sizes);
    forall m, t | m != n && t in Among(was.reachDef, m)
      ensures t in was.states && t !in own && t in b.states && Fit(b, m, t.Size(), b.loops.Keys)
    {
      OnlyThere(b, was.reachDef, m, n, t);
    }
    MovedTasks(b, was, n, own, sent);
    StillFit(b, was, n, own, sent);
    StillAlone(b, was, n, own, sent);
    StillTasks(b, was.tasks, n);
  }

  lemma OnlyThere(b: Builder, reach: map<Node, set<ReachDefinition>>, m: Node, n: Node, t: ReachDefinition)
    requires Alone(reach) && t in Among(reach, m) && m != n
    ensures t !in Among(reach, n)
  {
  }

  lemma KnownHere(b: Builder, was: Before, n: Node, sizes: map<ReachDefinition, Shape>)
    requires Lawful(b) && Among(was.reachDef, n) != {} && FitThen(b, was.reachDef, sizes) && !n.inst.LoopHead? && Accepts(n, b.shape(n), b.results)
    ensures LabelsKnown(b, ShapeAfter(n, b.shape(n)).labels, b.loops.Keys)
  {
    hide Lawful, Fit;
    var t :| t in Among(was.reachDef, n);
    assert Fit(b, n, sizes[t], b.loops.Keys);
    KnownAfter(b, n, sizes[t], b.loops.Keys);
  }

  // What endures of each saved state.
  ghost function Saves(b: Builder): map<Node, set<(Slot, Node)>>
    reads *
  {
    map n | n in b.loops :: Enduring(b.loops[n].Snap())
  }

  // The changes counted after a visit to `n`: one more if the loop has got
  // another saved state, and more has changed in it than the constants among
  // the origins of operands.
  ghost function NextChanges(b: Builder, n: Node, oldLoops: map<Node, ReachDefinition>, changes: map<Node, nat>, saves: map<Node, set<(Slot, Node)>>): map<Node, nat>
    reads *
  {
    if n !in b.loops || (n in oldLoops && b.loops[n] == oldLoops[n]) then changes
    else if n !in changes || n !in saves then changes[n := 0]
    else if Enduring(b.loops[n].Snap()) == saves[n] then changes
    else changes[n := changes[n] + 1]
  }

  // There are no more changes than pairs on record.
  ghost predicate Counted(b: Builder)
    reads b`changes, b`loops, b`floor, b.loops.Values
  {
    b.changes.Keys == b.loops.Keys && forall n :: n in b.changes ==> b.changes[n] <= |Noted(b.floor, b.loops[n])|
  }

  lemma CountsAgain(b: Builder, n: Node, oldLoops: map<Node, ReachDefinition>, changes: map<Node, nat>, floor: map<Definition, set<Node>>,
                    saves: map<Node, set<(Slot, Node)>>)
    requires KeepsOn(b, n, oldLoops, floor) && saves.Keys == oldLoops.Keys && forall m :: m in saves ==> saves[m] == Noted(floor, oldLoops[m])
    requires b.changes == NextChanges(b, n, oldLoops, changes, saves)
    ensures NoLess(b, saves)
    ensures changes.Keys == oldLoops.Keys && (forall m :: m in changes ==> changes[m] <= |saves[m]|) ==> Counted(b)
  {
    hide Noted, Enduring, ReachDefinition.Snap;
    KeptOn(b, n, oldLoops, floor);
    forall m | m in oldLoops
      ensures |saves[m]| <= |Noted(b.floor, b.loops[m])| && (saves[m] != Noted(b.floor, b.loops[m]) ==> |saves[m]| < |Noted(b.floor, b.loops[m])|)
    {
      Fewer(saves[m], Noted(b.floor, b.loops[m]));
    }
  }

  // One task from the worklist. False where an assertion fails. Saved states
  // keep what endures, and their changes are counted.
  method VisitTask(b: Builder, task: Task) returns (ok: bool)
    requires b.Valid() && task.node in b.graph.Nodes()
    modifies b, b.Delivered(task.node), b.defs
    ensures b.Valid() && b.Grown() && Within(old(b.edges), b.edges)
    ensures old(Shapely(b)) && TaskFits(b, task) ==> ok && Shapely(b)
    ensures NoLess(b, old(Saves(b))) && (old(Counted(b)) ==> Counted(b))
    ensures b.changes == NextChanges(b, task.node, old(b.loops), old(b.changes), old(Saves(b)))
  {
    hide Builder.Sound, Builder.Linked, Shapely, Noted, KeepsOn, Enduring, Counted, NoLess, NextChanges;
    b.KeptApart();
    b.DeliveredAreStates(task.node);
    ghost var loops, changes, saves, counted := b.loops, b.changes, Saves(b), Counted(b);
    RememberSaves(b);
    ghost var floor := b.floor;
    if counted {
      CountedNow(b, saves);
    }
    ok := VisitOne(b, task);
    CountUp(b, task.node, loops, changes, floor, saves);
  }

  lemma CountedNow(b: Builder, saves: map<Node, set<(Slot, Node)>>)
    requires Counted(b) && saves.Keys == b.loops.Keys && forall m :: m in saves ==> saves[m] == Noted(b.floor, b.loops[m])
    ensures b.changes.Keys == b.loops.Keys && forall m :: m in b.changes ==> b.changes[m] <= |saves[m]|
  {
    hide Noted;
  }

  ghost method CountUp(b: Builder, n: Node, loops: map<Node, ReachDefinition>, changes: map<Node, nat>, floor: map<Definition, set<Node>>,
                       saves: map<Node, set<(Slot, Node)>>)
    requires b.Valid() && KeepsOn(b, n, loops, floor) && saves.Keys == loops.Keys && forall m :: m in saves ==> saves[m] == Noted(floor, loops[m])
    modifies b`changes
    ensures b.Valid() && b.changes == NextChanges(b, n, loops, changes, saves) && NoLess(b, saves) && (old(Shapely(b)) ==> Shapely(b))
    ensures changes.Keys == loops.Keys && (forall m :: m in changes ==> changes[m] <= |saves[m]|) ==> Counted(b)
  {
    hide Builder.Sound, Builder.Linked, Noted, Enduring, Counted, AllFit, KeptFit, Lawful, Alone, TasksFit, NoLess, ReachDefinition.Snap;
    b.changes := NextChanges(b, n, loops, changes, saves);
    CountsAgain(b, n, loops, changes, floor, saves);
  }

  method VisitOne(b: Builder, task: Task) returns (ok: bool)
    requires b.Valid() && task.node in b.graph.Nodes()
    modifies b, b.Delivered(task.node), b.defs
    ensures b.Valid() && b.Grown() && Within(old(b.edges), b.edges)
    ensures old(Shapely(b)) && TaskFits(b, task) ==> ok && Shapely(b)
    ensures KeepsOn(b, task.node, old(b.loops), old(b.floor)) && b.changes == old(b.changes)
  {
    hide Builder.Sound, Builder.Linked, Shapely, Noted, VisitDone, Entered, Undropped, OperandsWent, Lefts, Became, Widened, Knowing, Builder.HeldIn, Builder.Enlisted, KeepsOn,
         Builder.Risen;
    var n := task.node;
    ghost var loops, floor := b.loops, b.floor;
    TakeUp(b, task);
    if n.inst.LoopHead? {
      ghost var how, s, ops, sent;
      ok, how, s, ops, sent := VisitLoop(b, n);
    } else {
      ghost var stopped, came, joined, sent;
      ok, stopped, came, joined, sent := VisitOther(b, n);
      NoneSaved(b, n, floor);
    }
  }

  lemma NoneSaved(b: Builder, n: Node, floor: map<Definition, set<Node>>)
    requires b.Risen(floor)
    ensures KeepsOn(b, n, b.loops, floor)
  {
    hide Noted, Enduring;
  }

  method TakeUp(b: Builder, task: Task)
    requires b.Valid()
    modifies b`loopsStack, b`lastNode
    ensures b.Valid() && b.loopsStack == task.loops && b.lastNode == task.last
    ensures old(Shapely(b)) ==> Shapely(b)
  {
    hide Builder.Sound, Builder.Linked, AllFit, KeptFit, Lawful;
    b.TakeUp(task);
  }

  // Any task of the worklist.
  method NextTask(b: Builder) returns (task: Task)
    requires b.Valid() && b.dfsList != []
    modifies b`dfsList
    ensures b.Valid() && task in old(b.dfsList)
    ensures old(Shapely(b)) ==> Shapely(b) && TaskFits(b, task)
  {
    hide Builder.Sound, Builder.Owned, AllFit, KeptFit, Lawful, TaskFits;
    ghost var k;
    task, k := b.NextTask();
  }

  // Up to `fuel` tasks, taken from the worklist in any order. On validated
  // code no assertion fails. The saved states keep the origins of all slots,
  // but for constants in operands. A change of one is counted unless it has
  // left all but such constants as it was.
  method Run(b: Builder, fuel: nat) returns (ok: bool)
    requires b.Valid()
    modifies b, b.states, b.defs
    ensures b.Valid() && b.Grown() && Within(old(b.edges), b.edges)
    ensures old(Shapely(b)) ==> ok && Shapely(b)
    ensures old(Counted(b)) ==> Counted(b)
    ensures forall n :: n in old(Saves(b)) ==> n in Saves(b) && old(Saves(b))[n] <= Saves(b)[n]
  {
    hide Builder.Sound, Builder.Linked, Counted, Shapely, NoLess, Enduring, Saves, Noted;
    ghost var saves := Saves(b);
    RememberSaves(b);
    AllSaved(b, saves);
    ok := RunTasks(b, fuel, saves);
    StillSaved(b, saves);
  }

  method RunTasks(b: Builder, fuel: nat, ghost saves: map<Node, set<(Slot, Node)>>) returns (ok: bool)
    requires b.Valid() && NoLess(b, saves)
    modifies b, b.states, b.defs
    ensures b.Valid() && b.Grown() && Within(old(b.edges), b.edges) && NoLess(b, saves)
    ensures old(Shapely(b)) ==> ok && Shapely(b)
    ensures old(Counted(b)) ==> Counted(b)
  {
    hide Builder.Sound, Builder.Owned, Counted, Shapely, NoLess, Enduring;
    ok := true;
    for i := 0 to fuel
      invariant b.Valid() && b.Grown() && Within(old(b.edges), b.edges) && NoLess(b, saves)
      invariant old(Shapely(b)) ==> ok && Shapely(b)
      invariant old(Counted(b)) ==> Counted(b)
    {
      if b.dfsList == [] { return; }
      var task := NextTask(b);
      ghost var now := Saves(b);
      StillSaved(b, saves);
      b.DeliveredAreStates(task.node);
      ok := VisitTask(b, task);
      NoLessToo(b, now, saves);
      if !ok { return; }
    }
  }

  ghost method RememberSaves(b: Builder)
    requires b.Valid()
    modifies b`floor
    ensures b.Valid() && (old(Shapely(b)) ==> Shapely(b)) && (old(Counted(b)) ==> Counted(b)) && b.Risen(old(b.floor))
    ensures old(Saves(b)).Keys == b.loops.Keys && forall n :: n in old(Saves(b)) ==> old(Saves(b))[n] == Noted(b.floor, b.loops[n])
  {
    hide Builder.Sound, Builder.Linked, Builder.Current, Enduring, Noted, AllFit, KeptFit, Lawful, Alone, TasksFit, Builder.Risen;
    ghost var floor := b.floor;
    b.KeptApart();
    b.Remember();
    CountedStill(b, floor);
    forall n | n in b.loops
      ensures old(Saves(b))[n] == Noted(b.floor, b.loops[n])
    {
      IsSnap(b.loops[n], b.loops[n].Snap());
      SavedIsNoted(b, n, b.loops[n].Snap());
    }
  }

  lemma CountedStill(b: Builder, floor: map<Definition, set<Node>>)
    requires b.Risen(floor)
    ensures b.changes.Keys == b.loops.Keys && (forall n :: n in b.changes ==> b.changes[n] <= |Noted(floor, b.loops[n])|) ==> Counted(b)
  {
    hide Noted;
    forall n | n in b.loops
      ensures |Noted(floor, b.loops[n])| <= |Noted(b.floor, b.loops[n])|
    {
      NotedMore(floor, b.floor, b.loops[n]);
      Fewer(Noted(floor, b.loops[n]), Noted(b.floor, b.loops[n]));
    }
  }

  lemma AllSaved(b: Builder, saves: map<Node, set<(Slot, Node)>>)
    requires saves.Keys == b.loops.Keys && forall n :: n in saves ==> saves[n] == Noted(b.floor, b.loops[n])
    ensures NoLess(b, saves)
  {
    hide Noted;
  }

  lemma NoLessToo(b: Builder, records: map<Node, set<(Slot, Node)>>, saves: map<Node, set<(Slot, Node)>>)
    requires NoLess(b, records) && forall n :: n in saves ==> n in records && saves[n] <= records[n]
    ensures NoLess(b, saves)
  {
    hide Noted;
  }

  lemma StillSaved(b: Builder, saves: map<Node, set<(Slot, Node)>>)
    requires b.Valid() && NoLess(b, saves)
    ensures forall n :: n in saves ==> n in Saves(b) && saves[n] <= Saves(b)[n]
  {
    hide Builder.Sound, Builder.Linked, Enduring, Noted;
    forall n | n in saves
      ensures saves[n] <= Saves(b)[n]
    {
      IsSnap(b.loops[n], b.loops[n].Snap());
      SavedHasNoted(b, n, b.loops[n].Snap());
    }
  }

  lemma NotedBounded(b: Builder, n: Node)
    requires b.Valid() && n in b.loops
    ensures |Noted(b.floor, b.loops[n])| <= |Enduring(b.loops[n].Snap())| <= Bound(b.loops[n].Size(), b.graph.Origins())
  {
    hide Builder.Sound, Enduring, Noted, Bound, AllSlots;
    var v := b.loops[n].Snap();
    IsSnap(b.loops[n], v);
    SavedHasNoted(b, n, v);
    Fewer(Noted(b.floor, b.loops[n]), Enduring(v));
    OriginsKnown(b, b.loops[n], v);
    EnduringBounded(v, b.graph.Origins());
  }

  lemma ChangesBounded(b: Builder, n: Node)
    requires b.Valid() && Counted(b) && n in b.changes
    ensures n in b.loops && b.changes[n] <= |Enduring(b.loops[n].Snap())| <= Bound(b.loops[n].Size(), b.graph.Origins())
  {
    hide Builder.Sound, Builder.Linked, Enduring, Noted, Bound;
    NotedBounded(b, n);
  }

  lemma OriginsKnown(b: Builder, s: ReachDefinition, v: State)
    requires b.Valid() && s in b.saved && s.Is(v)
    ensures forall slot :: HasSlot(v, slot) ==> At(v, slot).Keys <= b.graph.Origins()
  {
    hide Builder.Sound, AllSlots, ReachDefinition.Parts;
    SlotsShow(s, v);
    SlotsAreParts(s);
    Parted(b, s);
    forall slot | HasSlot(v, slot)
      ensures At(v, slot).Keys <= b.graph.Origins()
    {
      assert SlotsOf(s)[slot] in SlotsOf(s).Values;
      b.SoundAt(SlotsOf(s)[slot]);
    }
  }

  lemma Parted(b: Builder, s: ReachDefinition)
    requires b.Valid() && s in b.saved
    ensures s.Parts() <= b.defs + b.kept
  {
  }

  // Validated code: the builder starts in a state of its invariant.
  lemma StartsShapely(b: Builder, globals: set<string>, locals: set<string>, e: CfgEdge, s: ReachDefinition)
    requires Lawful(b) && b.graph.entry.inst.Start? && b.shape(b.graph.entry) == Shape(globals, locals, 0, [])
    requires b.graph.OutEdges(b.graph.entry) == {e} && b.dfsList == [Task(e.dst, b.loopsStack, b.graph.entry)] && b.loops == map[] && b.cache == map[]
    requires b.reachDef == map[e.dst := {s}] && s in b.states && s.Is(Initial(globals, locals))
    ensures Shapely(b)
  {
    b.graph.EntryIsLive();
    assert e in b.graph.OutEdges(b.graph.entry);
    b.SizeIs(s, Initial(globals, locals));
    assert s.Size() == ShapeAfter(b.graph.entry, b.shape(b.graph.entry));
    FitNext(b, e, s.Size(), b.loops.Keys);
    b.graph.FlowKeepsLive(e);
    assert Takes(b, e, b.graph.entry, e.dst);
  }

  lemma NothingCounted(b: Builder)
    requires b.changes == map[] && b.loops == map[]
    ensures Counted(b)
  {
  }

  lemma ChangesFit(b: Builder, n: Node)
    requires b.Valid() && Counted(b) && Shapely(b) && n in b.changes
    ensures b.changes[n] <= Bound(b.shape(n), b.graph.Origins())
  {
    hide Builder.Sound, Builder.Linked, AllFit, Lawful, Alone, TasksFit;
    ChangesBounded(b, n);
    KeptSizes(b, n);
  }

  // The code is validated: the shapes are those of its places.
  ghost predicate Validated(graph: Flowgraph, results: nat, globals: set<string>, locals: set<string>, shape: Node -> Shape) {
    && graph.ShapedAs(shape, results) && graph.LoopsNamed()
    && graph.entry.inst.Start? && |graph.OutEdges(graph.entry)| == 1 && shape(graph.entry) == Shape(globals, locals, 0, [])
  }

  // generatePDG for one function, stopped after any number of tasks that were
  // taken in any order. No edge is there twice, and all go back to an origin
  // of their name and kind along edges of that name and kind. On validated
  // code no assertion fails, and no saved state has changed more often than
  // there are pairs of a variable and an origin, or of an operand and an
  // origin that is no constant.
  method GeneratePdg(graph: Flowgraph, results: nat, inside: Node -> set<Node>, globals: set<string>, locals: set<string>,
                     fuel: nat, ghost shape: Node -> Shape)
    returns (ok: bool, b: Builder)
    ensures b.graph == graph && b.shape == shape && b.Valid() && NoTwins(b.edges) && forall e :: e in b.edges ==> Explained(b.edges, e)
    ensures Validated(graph, results, globals, locals, shape) ==> ok && forall n :: n in b.changes ==> b.changes[n] <= Bound(shape(n), graph.Origins())
  {
    hide Builder.Sound, Builder.Linked, Shapely, Counted, Shows;
    b := new Builder(graph, results, inside, shape);
    ghost var e, s;
    NothingCounted(b);
    ok, e, s := b.VisitInstructions(globals, locals);
    NothingCounted(b);
    if ok {
      if Validated(graph, results, globals, locals, shape) {
        StartsShapely(b, globals, locals, e, s);
      }
      ok := Run(b, fuel);
    }
    b.EdgesExplained();
    forall n | n in b.changes && Shapely(b)
      ensures b.changes[n] <= Bound(shape(n), graph.Origins())
    {
      ChangesFit(b, n);
    }
  }
}
