// Behind the loop: what visits with no loop active leave goes on along the
// ways that nothing else joins, and is recorded there.
module LoopExits {
  import opened Wrappers
  import opened DataFlow
  import opened Flowgraph
  import opened FlowLaws
  import opened Provenance
  import opened VisitLaws
  import opened Growth
  import opened ReachDefinitions
  import opened PdgBuilder
  import opened LoopVisits
  import opened BuilderRuns
  import opened OneLoop
  import opened OneLoopRuns
  import HeapFlow

  // ----- the merged states of visits -----

  // The instruction has been visited with this merged state.
  ghost predicate SeenAt(b: Builder, edges: seq<PdgEdge>, n: Node, v: State) {
    && b.graph.Live(n) && !n.inst.Unreachable? && WfState(v) && ShapeOf(v) == b.shape(n)
    && forall x :: x in b.Marks(n, v) ==> x in edges
  }

  // Of each instruction, the states of some of its visits.
  ghost predicate AllSeen(b: Builder, edges: seq<PdgEdge>, seen: map<Node, set<State>>) {
    forall n :: n in seen ==> seen[n] != {} && forall v :: v in seen[n] ==> SeenAt(b, edges, n, v)
  }

  ghost predicate FreedSeen(g: Flowgraph, l: Loop, led: Ledger, seen: map<Node, set<State>>) {
    forall n :: n in Freed(led) && n != g.entry && n != l.head && !n.inst.Unreachable? ==> n in seen
  }

  // Nothing else leads to the end of the edge, which is outside the loop.
  ghost predicate Lone(g: Flowgraph, l: Loop, e: CfgEdge) {
    e.dst !in l.body && e.src != l.head && !e.dst.inst.Unreachable? && g.InEdges(e.dst) == {e}
  }

  // The end of the edge has been visited with all that `v` brings there,
  // constants apart.
  ghost predicate Followed(b: Builder, seen: map<Node, set<State>>, e: CfgEdge, v: State) {
    && e.dst in seen && Passes(e.src, e.dst, ShapeOf(v), b.results)
    && exists w :: w in seen[e.dst] && HeapFlow.Outlasts(w, Cross(e.src, e.dst, v, b.results))
  }

  ghost predicate Open(b: Builder, l: Loop, seen: map<Node, set<State>>, e: CfgEdge, v: State) {
    Lone(b.graph, l, e) && e.src in seen && v in seen[e.src] && !Followed(b, seen, e, v)
  }

  ghost predicate Tasked(b: Builder, l: Loop, tasks: seq<Task>, seen: map<Node, set<State>>) {
    forall e, v :: Open(b, l, seen, e, v) ==> HasFreeTask(tasks, e.dst)
  }

  // The waiting state has the lasting origins of `v`.
  ghost predicate Bears(floor: map<Definition, set<Node>>, t: ReachDefinition, v: State)
    reads t
  {
    t.Size() == ShapeOf(v) && HeapFlow.Bears(floor, t, v)
  }

  ghost predicate Comes(b: Builder, waiting: set<ReachDefinition>, floor: map<Definition, set<Node>>, e: CfgEdge, v: State, among: set<ReachDefinition>)
    reads among
  {
    exists t :: t in waiting && t in among && Bears(floor, t, b.AfterVisit(e.src, v))
  }

  // A state waits at the end of every edge that is not followed yet, but for
  // those to `but`.
  ghost predicate AllCome(b: Builder, l: Loop, reach: map<Node, set<ReachDefinition>>, floor: map<Definition, set<Node>>, seen: map<Node, set<State>>,
                          but: set<Node>, among: set<ReachDefinition>)
    reads among
  {
    forall e, v :: Open(b, l, seen, e, v) && e.dst !in but ==> Comes(b, Among(reach, e.dst), floor, e, v, among)
  }

  ghost predicate Bringing(b: Builder, l: Loop, tasks: seq<Task>, led: Ledger, seen: map<Node, set<State>>)
    reads b`edges, b`reachDef, b`floor, b`states, b.states
  {
    AllSeen(b, b.edges, seen) && FreedSeen(b.graph, l, led, seen) && Tasked(b, l, tasks, seen) && AllCome(b, l, b.reachDef, b.floor, seen, {}, b.states)
  }

  // ----- one visit -----

  function Noting(seen: map<Node, set<State>>, n: Node, v: State): map<Node, set<State>> {
    seen[n := (if n in seen then seen[n] else {}) + {v}]
  }

  lemma FollowedMore(b: Builder, seen: map<Node, set<State>>, n: Node, v: State, e: CfgEdge, u: State)
    requires Followed(b, seen, e, u)
    ensures Followed(b, Noting(seen, n, v), e, u)
  {
    hide Cross, Passes, HeapFlow.Outlasts;
    var w :| w in seen[e.dst] && HeapFlow.Outlasts(w, Cross(e.src, e.dst, u, b.results));
    assert w in Noting(seen, n, v)[e.dst];
  }

  lemma NotedStays(b: Builder, l: Loop, seen: map<Node, set<State>>, n: Node, v: State, e: CfgEdge, u: State)
    requires Open(b, l, Noting(seen, n, v), e, u)
    ensures (e.src == n && u == v) || Open(b, l, seen, e, u)
  {
    hide Followed;
    if Followed(b, seen, e, u) {
      FollowedMore(b, seen, n, v, e, u);
    }
  }

  // Control takes the edge with the shapes of its ends.
  lemma AlongEdge(b: Builder, e: CfgEdge, v: State)
    requires Lawful(b) && e in b.graph.cfg && b.graph.Live(e.src) && !e.src.inst.Unreachable? && ShapeOf(v) == b.shape(e.src)
    ensures Accepts(e.src, ShapeOf(v), b.results) && Passes(e.src, e.dst, ShapeOf(v), b.results)
    ensures ShapeOnArrival(e.dst, ShapeAfter(e.src, ShapeOf(v)), b.results) == Some(b.shape(e.dst))
    ensures b.AfterVisit(e.src, v) == Visit(e.src, v) && ShapeOf(Visit(e.src, v)) == ShapeAfter(e.src, ShapeOf(v))
  {
    VisitShape(e.src, v, b.results);
  }

  // What has come along a lone edge is in the merge.
  lemma LoneArrives(b: Builder, l: Loop, seen: map<Node, set<State>>, e: CfgEdge, v: State, n: Node, came: map<ReachDefinition, State>, t: ReachDefinition,
                    joined: State, edges: seq<PdgEdge>)
    requires Lawful(b) && Lone(b.graph, l, e) && e.dst == n && SeenAt(b, edges, e.src, v) && t in came
    requires ShapeOf(came[t]) == ShapeOf(b.AfterVisit(e.src, v)) && HeapFlow.Outlasts(came[t], b.AfterVisit(e.src, v))
    requires Builder.CoversAll(joined, b.ArrivedValues(n, came))
    ensures Followed(b, Noting(seen, n, joined), e, v)
  {
    hide Arrive, ShapeOnArrival, Accepts, Visit, ShapeAfter, WfState, Flowgraph.Live, Lawful, Has, HeapFlow.Outlasts, Builder.AfterVisit, Passes;
    assert e in b.graph.InEdges(e.dst);
    AlongEdge(b, e, v);
    HeapFlow.ArrivesAll(n, came[t], b.AfterVisit(e.src, v), b.results);
    assert Covers(joined, b.ArrivedValues(n, came)[t]);
    CoversOutlasts(joined, b.ArrivedValues(n, came)[t], Cross(e.src, n, v, b.results));
    assert joined in Noting(seen, n, joined)[n];
  }

  lemma CoversOutlasts(u: State, v: State, w: State)
    requires Covers(u, v) && HeapFlow.Outlasts(v, w)
    ensures HeapFlow.Outlasts(u, w)
  {
  }

  // ----- what stays -----

  lemma SeenMore(b: Builder, edges: seq<PdgEdge>, seen: map<Node, set<State>>, n: Node, v: State)
    requires AllSeen(b, edges, seen) && Within(edges, b.edges) && SeenAt(b, b.edges, n, v)
    ensures AllSeen(b, b.edges, Noting(seen, n, v))
  {
    hide Flowgraph.Live, WfState, Builder.Marks;
  }

  lemma SeenStays(b: Builder, edges: seq<PdgEdge>, seen: map<Node, set<State>>)
    requires AllSeen(b, edges, seen) && Within(edges, b.edges)
    ensures AllSeen(b, b.edges, seen)
  {
    hide Flowgraph.Live, WfState, Builder.Marks;
  }

  // Open before the visit to `n`, or left open by it.
  ghost predicate OpenedBy(b: Builder, l: Loop, seen: map<Node, set<State>>, more: map<Node, set<State>>, n: Node) {
    forall e, v :: Open(b, l, more, e, v) ==> e.dst != n && (Open(b, l, seen, e, v) || e in b.graph.OutEdges(n))
  }

  lemma TaskedStill(b: Builder, l: Loop, tasks: seq<Task>, after: seq<Task>, seen: map<Node, set<State>>, more: map<Node, set<State>>, n: Node, loops: seq<Node>)
    requires Tasked(b, l, tasks, seen) && TasksAfter(b.graph, tasks, after, n, loops) && n == tasks[0].node && OpenedBy(b, l, seen, more, n)
    requires loops == [] || more == seen
    ensures Tasked(b, l, after, more)
  {
    hide Open, HasFreeTask, Replaces, Scheduled;
    var k := NewTasks(b.graph, tasks, after, n, loops);
    forall e, v | Open(b, l, more, e, v)
      ensures HasFreeTask(after, e.dst)
    {
      if Open(b, l, seen, e, v) {
        StillFree(tasks, after, k, e.dst);
      } else {
        TaskForEdge(after, k, e, loops);
      }
    }
  }

  // The task has gone, and no other has come.
  lemma TaskedOn(b: Builder, l: Loop, tasks: seq<Task>, seen: map<Node, set<State>>)
    requires tasks != [] && Tasked(b, l, tasks, seen) && forall e, v :: Open(b, l, seen, e, v) ==> e.dst != tasks[0].node || tasks[0].loops != []
    ensures Tasked(b, l, tasks[1..], seen)
  {
    hide Open, HasFreeTask;
    forall e, v | Open(b, l, seen, e, v)
      ensures HasFreeTask(tasks[1..], e.dst)
    {
      StillFree(tasks, tasks[1..], 0, e.dst);
    }
  }

  lemma StillComes(b: Builder, before: set<ReachDefinition>, waiting: set<ReachDefinition>, floor: map<Definition, set<Node>>, e: CfgEdge, v: State,
                   among: set<ReachDefinition>)
    requires Comes(b, before, floor, e, v, among) && before <= waiting && among <= b.states && b.Risen(floor)
    ensures Comes(b, waiting, b.floor, e, v, b.states)
  {
    var t :| t in before && t in among && Bears(floor, t, b.AfterVisit(e.src, v));
    HeapFlow.BearsMore(b, floor, t, b.AfterVisit(e.src, v));
  }

  lemma ComeStill(b: Builder, l: Loop, was: VisitLaws.Before, n: Node, sent: map<CfgEdge, ReachDefinition>, seen: map<Node, set<State>>, more: map<Node, set<State>>,
                  among: set<ReachDefinition>)
    requires AllCome(b, l, was.reachDef, was.floor, seen, {n}, among) && b.Risen(was.floor) && among <= b.states && GoneOn(b, was, n, sent)
    requires OpenedBy(b, l, seen, more, n)
    requires forall e, v :: Open(b, l, more, e, v) && !Open(b, l, seen, e, v) && e in sent ==> Bears(b.floor, sent[e], b.AfterVisit(e.src, v))
    ensures AllCome(b, l, b.reachDef, b.floor, more, {}, b.states)
  {
    hide Open, Bears, Builder.Risen, Scheduled, Builder.AfterVisit, Builder.AllSentDiffer;
    forall e, v | Open(b, l, more, e, v)
      ensures Comes(b, Among(b.reachDef, e.dst), b.floor, e, v, b.states)
    {
      assert b.Delivered(e.dst) == Among(was.reachDef, e.dst) + Builder.Arriving(sent, e.dst);
      if Open(b, l, seen, e, v) {
        StillComes(b, Among(was.reachDef, e.dst), Among(b.reachDef, e.dst), was.floor, e, v, among);
      } else {
        assert sent[e] in Builder.Arriving(sent, e.dst) && sent[e] in sent.Values;
      }
    }
  }

  // ----- one task -----

  // Of what is open at `n`, a state has come that has it all.
  ghost predicate Arrived(b: Builder, l: Loop, seen: map<Node, set<State>>, n: Node, came: map<ReachDefinition, State>) {
    forall e, v :: Open(b, l, seen, e, v) && e.dst == n ==>
      exists t :: t in came && ShapeOf(came[t]) == ShapeOf(b.AfterVisit(e.src, v)) && HeapFlow.Outlasts(came[t], b.AfterVisit(e.src, v))
  }

  lemma HasArrived(b: Builder, l: Loop, seen: map<Node, set<State>>, n: Node, came: map<ReachDefinition, State>)
    requires b.Valid() && AllCome(b, l, b.reachDef, b.floor, seen, {}, b.states)
    requires came.Keys == b.Delivered(n) && forall t :: t in came ==> t.Is(came[t])
    ensures Arrived(b, l, seen, n, came)
  {
    hide Builder.Sound, Builder.Linked, Open, Builder.AfterVisit, HeapFlow.Outlasts, Shows, HeapFlow.Bears;
    forall e, v | Open(b, l, seen, e, v) && e.dst == n
      ensures exists t :: t in came && ShapeOf(came[t]) == ShapeOf(b.AfterVisit(e.src, v)) && HeapFlow.Outlasts(came[t], b.AfterVisit(e.src, v))
    {
      var t :| t in Among(b.reachDef, n) && t in b.states && Bears(b.floor, t, b.AfterVisit(e.src, v));
      assert t in b.Delivered(n);
      b.SizeIs(t, came[t]);
      HeapFlow.BornIsThere(b, t, came[t], b.AfterVisit(e.src, v));
    }
  }

  lemma LoneIsThere(b: Builder, l: Loop, seen: map<Node, set<State>>, n: Node)
    requires AllCome(b, l, b.reachDef, b.floor, seen, {}, b.states)
    ensures forall e, v :: Open(b, l, seen, e, v) && e.dst == n ==> |b.Delivered(n)| >= |b.graph.InEdges(n)|
  {
    hide Bears, Followed;
    forall e, v | Open(b, l, seen, e, v) && e.dst == n
      ensures |b.Delivered(n)| >= |b.graph.InEdges(n)|
    {
      var t :| t in Among(b.reachDef, n) && t in b.states && Bears(b.floor, t, b.AfterVisit(e.src, v));
      Fewer({t}, b.Delivered(n));
    }
  }

  // Where one edge leads in and has delivered, nothing is held back.
  lemma LonePasses(b: Builder, l: Loop, seen: map<Node, set<State>>, n: Node, known: map<Node, set<Node>>)
    requires AllCome(b, l, b.reachDef, b.floor, seen, {}, b.states) && b.HeldIn(known, n) && b.loopsStack == []
    requires !n.inst.LoopHead?
    ensures forall e, v :: Open(b, l, seen, e, v) ==> e.dst != n
  {
    hide Open, Comes;
    LoneIsThere(b, l, seen, n);
  }

  lemma SplitCome(b: Builder, l: Loop, seen: map<Node, set<State>>, n: Node)
    requires Alone(b.reachDef) && AllCome(b, l, b.reachDef, b.floor, seen, {}, b.states)
    ensures AllCome(b, l, b.reachDef, b.floor, seen, {n}, b.states - b.Delivered(n))
  {
    hide Open, Bears;
    forall e, v | Open(b, l, seen, e, v) && e.dst != n
      ensures Comes(b, Among(b.reachDef, e.dst), b.floor, e, v, b.states - b.Delivered(n))
    {
      var t :| t in Among(b.reachDef, e.dst) && t in b.states && Bears(b.floor, t, b.AfterVisit(e.src, v));
      assert t !in Among(b.reachDef, n);
    }
  }

  lemma NoSelf(g: Flowgraph, l: Loop, e: CfgEdge)
    requires HasOneLoop(g, l) && Lone(g, l, e) && g.Live(e.src) && !e.src.inst.Unreachable?
    ensures e.src != e.dst
  {
    assert e in g.InEdges(e.dst);
    g.FlowKeepsLive(e);
    assert OneLoop.Fits(l, e);
  }

  // What is open after the visit.
  lemma OpenAfter(b: Builder, l: Loop, edges: seq<PdgEdge>, seen: map<Node, set<State>>, n: Node, came: map<ReachDefinition, State>, joined: State)
    requires HasOneLoop(b.graph, l) && Lawful(b) && AllSeen(b, edges, seen) && Arrived(b, l, seen, n, came) && b.graph.Live(n) && !n.inst.Unreachable?
    requires Builder.CoversAll(joined, b.ArrivedValues(n, came))
    ensures OpenedBy(b, l, seen, Noting(seen, n, joined), n)
    ensures forall e, v :: Open(b, l, Noting(seen, n, joined), e, v) && !Open(b, l, seen, e, v) ==> v == joined && e.src == n
  {
    hide Lawful, HasOneLoop, Flowgraph.Live, Builder.CoversAll, Builder.AfterVisit, HeapFlow.Outlasts, Followed;
    var more := Noting(seen, n, joined);
    forall e, v | Open(b, l, more, e, v)
      ensures e.dst != n && (Open(b, l, seen, e, v) || (v == joined && e.src == n)) && e in b.graph.InEdges(e.dst)
    {
      NotedStays(b, l, seen, n, joined, e, v);
      assert e in b.graph.InEdges(e.dst);
      if e.dst == n {
        if e.src == n {
          NoSelf(b.graph, l, e);
        } else {
          var t :| t in came && ShapeOf(came[t]) == ShapeOf(b.AfterVisit(e.src, v)) && HeapFlow.Outlasts(came[t], b.AfterVisit(e.src, v));
          LoneArrives(b, l, seen, e, v, n, came, t, joined, edges);
        }
      }
    }
  }

  // What a visit has done, apart from the worklist.
  lemma DoneAtAll(b: Builder, was: VisitLaws.Before, n: Node, came: map<ReachDefinition, State>, joined: State, sent: map<CfgEdge, ReachDefinition>)
    requires VisitDone(b, was, n, came, false, joined, sent)
    ensures GoneOn(b, was, n, sent) && Builder.CoversAll(joined, b.ArrivedValues(n, came)) && Adds(was.edges, b.edges, b.Marks(n, joined))
    ensures ShapeOf(joined) == b.shape(n) && WfState(joined) && Accepts(n, b.shape(n), b.results)
    ensures forall e :: e in sent ==> sent[e].Size() == b.SizeAfter(n, b.shape(n)) && HeapFlow.Bears(b.floor, sent[e], b.AfterVisit(n, joined))
  {
    hide Builder.Moved, Builder.AllSentDiffer, Builder.Carried, JoinsAll, Adds, Builder.Marks, Builder.Current, Builder.Risen, Builder.CoversAll,
         Builder.Handed, WfState, Builder.OperandsLeft, Builder.ArrivedValues, Builder.AfterVisit, Builder.SizeAfter, Accepts, Assured;
  }

  lemma SentBears(b: Builder, was: VisitLaws.Before, n: Node, came: map<ReachDefinition, State>, joined: State, sent: map<CfgEdge, ReachDefinition>)
    requires VisitDone(b, was, n, came, false, joined, sent)
    ensures forall e :: e in sent ==> Bears(b.floor, sent[e], b.AfterVisit(n, joined))
  {
    hide GoneOn, Builder.CoversAll, Adds, WfState, Builder.Marks, HeapFlow.Bears, Accepts, Visit, ShapeAfter, VisitDone, ReachDefinition.Size;
    DoneAtAll(b, was, n, came, joined, sent);
    VisitShape(n, joined, b.results);
  }

  // The visit has been noted if no loop was active.
  lemma PassedSeen(b: Builder, l: Loop, was: VisitLaws.Before, passed: seq<Node>, led: Ledger, task: Task, next: Ledger, came: map<ReachDefinition, State>, joined: State,
                   sent: map<CfgEdge, ReachDefinition>, seen: map<Node, set<State>>, among: set<ReachDefinition>)
    requires HasOneLoop(b.graph, l) && Lawful(b) && b.graph.Live(task.node) && !task.node.inst.Unreachable? && task.loops == []
    requires TookPlain(b, l, was, passed, led, task, next, false, came, joined, sent)
    requires AllSeen(b, was.edges, seen) && FreedSeen(b.graph, l, led, seen) && Tasked(b, l, [task] + was.tasks, seen)
    requires AllCome(b, l, was.reachDef, was.floor, seen, {task.node}, among) && among <= b.states && Arrived(b, l, seen, task.node, came)
    ensures Bringing(b, l, b.dfsList, next, Noting(seen, task.node, joined))
  {
    hide HasOneLoop, Lawful, Flowgraph.Live, VisitDone, GoneOn, AllCome, Tasked, Arrived, AllSeen, OpenedBy, Open, Bears, Builder.CoversAll, WfState, Accepts,
         Builder.Marks, Builder.AfterVisit, Builder.Risen, HeapFlow.Bears;
    var n, more := task.node, Noting(seen, task.node, joined);
    DoneAtAll(b, was, n, came, joined, sent);
    SeenMore(b, was.edges, seen, n, joined);
    OpenAfter(b, l, was.edges, seen, n, came, joined);
    SentBears(b, was, n, came, joined, sent);
    ComeStill(b, l, was, n, sent, seen, more, among);
    GoneTasks(b, was, task, sent);
    TaskedStill(b, l, [task] + was.tasks, b.dfsList, seen, more, n, []);
  }

  lemma GoneTasks(b: Builder, was: VisitLaws.Before, task: Task, sent: map<CfgEdge, ReachDefinition>)
    requires GoneOn(b, was, task.node, sent)
    ensures TasksAfter(b.graph, [task] + was.tasks, b.dfsList, task.node, b.loopsStack) && ([task] + was.tasks)[0] == task
  {
    hide Scheduled;
    assert ([task] + was.tasks)[1..] == was.tasks;
  }

  // Nothing has gone on.
  lemma AwaySeen(b: Builder, l: Loop, was: VisitLaws.Before, led: Ledger, task: Task, next: Ledger, seen: map<Node, set<State>>, but: set<Node>, among: set<ReachDefinition>)
    requires (forall m :: m !in but ==> Among(b.reachDef, m) == Among(was.reachDef, m)) && b.dfsList == was.tasks && Within(was.edges, b.edges) && b.Risen(was.floor)
    requires AllSeen(b, was.edges, seen) && FreedSeen(b.graph, l, next, seen) && Tasked(b, l, [task] + was.tasks, seen)
    requires AllCome(b, l, was.reachDef, was.floor, seen, but, among) && among <= b.states
    requires forall e, v :: Open(b, l, seen, e, v) ==> e.dst !in but && (e.dst != task.node || task.loops != [])
    ensures Bringing(b, l, b.dfsList, next, seen)
  {
    hide Open, AllSeen, FreedSeen, Tasked, Bears, Builder.Risen;
    SeenStays(b, was.edges, seen);
    assert ([task] + was.tasks)[1..] == was.tasks && ([task] + was.tasks)[0] == task;
    TaskedOn(b, l, [task] + was.tasks, seen);
    forall e, v | Open(b, l, seen, e, v)
      ensures Comes(b, Among(b.reachDef, e.dst), b.floor, e, v, b.states)
    {
      StillComes(b, Among(was.reachDef, e.dst), Among(b.reachDef, e.dst), was.floor, e, v, among);
    }
  }

  // States have gone on with the loop active, or from the head.
  lemma OtherSeen(b: Builder, l: Loop, was: VisitLaws.Before, led: Ledger, task: Task, next: Ledger, sent: map<CfgEdge, ReachDefinition>, seen: map<Node, set<State>>,
                  among: set<ReachDefinition>)
    requires task.node in l.body && GoneOn(b, was, task.node, sent) && Within(was.edges, b.edges) && b.Risen(was.floor)
    requires AllSeen(b, was.edges, seen) && FreedSeen(b.graph, l, next, seen) && Tasked(b, l, [task] + was.tasks, seen)
    requires AllCome(b, l, was.reachDef, was.floor, seen, {task.node}, among) && among <= b.states
    ensures Bringing(b, l, b.dfsList, next, seen)
  {
    hide AllSeen, FreedSeen, Tasked, Bears, Builder.Risen, GoneOn, AllCome, Followed;
    SeenStays(b, was.edges, seen);
    ComeStill(b, l, was, task.node, sent, seen, seen, among);
    GoneTasks(b, was, task, sent);
    TaskedStill(b, l, [task] + was.tasks, b.dfsList, seen, seen, task.node, b.loopsStack);
  }

  lemma FreedStays(g: Flowgraph, l: Loop, led: Ledger, next: Ledger, task: Task, seen: map<Node, set<State>>)
    requires FreedSeen(g, l, led, seen) && FreedBy(l, led, next, task) && (task.loops != [] || task.node == l.head || task.node.inst.Unreachable?)
    ensures FreedSeen(g, l, next, seen)
  {
  }

  lemma HeadSeen(b: Builder, l: Loop, was: VisitLaws.Before, passed: seq<Node>, loops: map<Node, ReachDefinition>, led: Ledger, task: Task, next: Ledger, how: Outcome, sent: map<CfgEdge, ReachDefinition>,
                 seen: map<Node, set<State>>, among: set<ReachDefinition>)
    requires l.head in l.body && TookHead(b, l, was, passed, loops, led, task, next, how, sent) && b.edges == was.edges
    requires AllSeen(b, was.edges, seen) && FreedSeen(b.graph, l, led, seen) && Tasked(b, l, [task] + was.tasks, seen)
    requires AllCome(b, l, was.reachDef, was.floor, seen, {task.node}, among) && among <= b.states
    ensures Bringing(b, l, b.dfsList, next, seen)
  {
    hide AllSeen, FreedSeen, Tasked, Bears, Builder.Risen, GoneOn, AllCome, Followed, FreedBy, Widened, Noted;
    FreedStays(b.graph, l, led, next, task, seen);
    if how.Held? || how.Stayed? {
      AwaySeen(b, l, was, led, task, next, seen, {l.head}, among);
    } else {
      OtherSeen(b, l, was, led, task, next, sent, seen, among);
    }
  }

  // Nothing that is open waits for this task.
  ghost predicate Unneeded(b: Builder, l: Loop, seen: map<Node, set<State>>, task: Task) {
    forall e, v :: Open(b, l, seen, e, v) ==> e.dst != task.node || task.loops != []
  }

  lemma Stopped(b: Builder, was: VisitLaws.Before, n: Node, came: map<ReachDefinition, State>, joined: State, sent: map<CfgEdge, ReachDefinition>)
    requires VisitDone(b, was, n, came, true, joined, sent)
    ensures b.reachDef == was.reachDef && b.dfsList == was.tasks
  {
  }

  lemma PlainSeen(b: Builder, l: Loop, was: VisitLaws.Before, passed: seq<Node>, led: Ledger, task: Task, next: Ledger, held: bool, came: map<ReachDefinition, State>, joined: State,
                  sent: map<CfgEdge, ReachDefinition>, seen: map<Node, set<State>>, rest: set<ReachDefinition>, all: set<ReachDefinition>)
    returns (more: map<Node, set<State>>)
    requires HasOneLoop(b.graph, l) && Lawful(b) && b.graph.Live(task.node) && TookPlain(b, l, was, passed, led, task, next, held, came, joined, sent)
    requires AllSeen(b, was.edges, seen) && FreedSeen(b.graph, l, led, seen) && Tasked(b, l, [task] + was.tasks, seen)
    requires AllCome(b, l, was.reachDef, was.floor, seen, {task.node}, rest) && rest + all <= b.states
    requires if held then AllCome(b, l, was.reachDef, was.floor, seen, {}, all) && Unneeded(b, l, seen, task)
             else Arrived(b, l, seen, task.node, came) && (task.loops == [] || task.node in l.body)
    ensures Bringing(b, l, b.dfsList, next, more)
  {
    hide HasOneLoop, Lawful, Flowgraph.Live, VisitDone, GoneOn, AllCome, Tasked, Arrived, AllSeen, Open, Builder.CoversAll, WfState, Accepts,
         Builder.Marks, Builder.AfterVisit, Builder.Risen, Bears, HeapFlow.Bears, FreedBy, Bringing, FreedSeen, Adds;
    more := seen;
    if held {
      Stopped(b, was, task.node, came, joined, sent);
      SameFreed(b.graph, l, led, next, seen);
      AwaySeen(b, l, was, led, task, next, seen, {}, all);
    } else if task.node.inst.Unreachable? {
      Stopped(b, was, task.node, came, joined, sent);
      FreedStays(b.graph, l, led, next, task, seen);
      NoneToEnd(b, l, seen, task.node);
      AwaySeen(b, l, was, led, task, next, seen, {task.node}, rest);
    } else {
      DoneAtAll(b, was, task.node, came, joined, sent);
      if task.loops == [] {
        more := Noting(seen, task.node, joined);
        PassedSeen(b, l, was, passed, led, task, next, came, joined, sent, seen, rest);
      } else {
        FreedStays(b.graph, l, led, next, task, seen);
        OtherSeen(b, l, was, led, task, next, sent, seen, rest);
      }
    }
  }

  lemma SameFreed(g: Flowgraph, l: Loop, led: Ledger, next: Ledger, seen: map<Node, set<State>>)
    requires FreedSeen(g, l, led, seen) && Freed(next) == Freed(led)
    ensures FreedSeen(g, l, next, seen)
  {
    hide Freed;
  }

  lemma NoneToEnd(b: Builder, l: Loop, seen: map<Node, set<State>>, n: Node)
    requires n.inst.Unreachable?
    ensures forall e, v :: Open(b, l, seen, e, v) ==> e.dst != n
  {
    hide Followed;
  }
}
