// Functions with one loop, and tasks taken from the front of the worklist:
// what the wait check holds back while the loop is active is let through once
// the loop has been left.
module OneLoop {
  import opened Wrappers
  import opened DataFlow
  import opened Flowgraph
  import opened VisitLaws
  import opened ReachDefinitions
  import opened PdgBuilder
  import opened LoopVisits

  // The loop by its head, the instructions in it, those of them that its
  // syntax tree has, and an order in which edges lead forward.
  datatype Loop = Loop(head: Node, body: set<Node>, members: set<Node>, rank: Node -> nat)

  // Edges lead forward but for those back to the head, the body is entered by
  // its head only, and no way out of it leads to a begin marker.
  ghost predicate Fits(l: Loop, e: CfgEdge) {
    && !e.dst.inst.Start? && (e.dst.inst.LoopHead? ==> e.dst == l.head)
    && if e.dst == l.head then Back(l, e) || Enters(l, e)
       else l.rank(e.src) < l.rank(e.dst) && (e.dst in l.body ==> e.src in l.body) && (e.src in l.body && e.dst !in l.body ==> !e.dst.inst.BeginBlock?)
  }

  ghost predicate Back(l: Loop, e: CfgEdge) {
    e.dst == l.head && e.src in l.members && e.src != l.head
  }

  ghost predicate Enters(l: Loop, e: CfgEdge) {
    e.dst == l.head && e.src !in l.body + l.members && l.rank(e.src) < l.rank(l.head)
  }

  // Besides what the syntax tree has, the body has begin markers.
  ghost predicate HasOneLoop(g: Flowgraph, l: Loop) {
    && g.entry.inst.Start? && g.entry !in l.body && l.head in l.body && l.head in l.members && l.head.inst.LoopHead? && g.Live(l.head)
    && (forall n :: g.Live(n) ==> (n in l.members ==> n in l.body) && (n in l.body ==> n in l.members || n.inst.BeginBlock?))
    && (forall e :: e in g.cfg && g.Live(e.dst) ==> Fits(l, e))
    && (forall e, f :: e in g.cfg && f in g.cfg && Enters(l, e) && Enters(l, f) ==> e == f)
  }

  // ----- what a run keeps -----

  // Before the loop is entered, going round it, or leaving it.
  datatype Phase = Outside | Round | Leaving

  // The tasks in front are those since the head has gone on last, as long as
  // there are any of them; `round` are the instructions of the body that have
  // been let through by them. `ever` are those that ever were, `free` the
  // instructions outside that were. `wait` has states that wait at edges.
  datatype Ledger = Ledger(phase: Phase, top: nat, round: set<Node>, ever: set<Node>, free: set<Node>, wait: map<CfgEdge, ReachDefinition>)

  predicate Runs(ms: set<Node>, m: Node) {
    m in ms && !m.inst.Unreachable?
  }

  // What has gone on with no loop active.
  function Freed(led: Ledger): set<Node> {
    led.free + if led.phase.Leaving? then led.round else {}
  }

  ghost predicate AllRun(g: Flowgraph, ms: set<Node>, n: Node) {
    g.InEdges(n) != {} && forall e :: e in g.InEdges(n) ==> Runs(ms, e.src)
  }

  function BackEdges(g: Flowgraph, l: Loop): set<CfgEdge> {
    set e | e in g.InEdges(l.head) && e.src in l.members
  }

  function EntryEdges(g: Flowgraph, l: Loop): set<CfgEdge> {
    set e | e in g.InEdges(l.head) && e.src !in l.members
  }

  ghost predicate AllOf(es: set<CfgEdge>, ms: set<Node>) {
    es != {} && forall e :: e in es ==> Runs(ms, e.src)
  }

  // The edges at which a state is known to wait.
  ghost predicate Due(l: Loop, led: Ledger, e: CfgEdge) {
    if e.dst !in l.body then e.dst !in led.free && Runs(led.free + led.ever, e.src)
    else if led.phase.Outside? then e.dst == l.head && Runs(led.free, e.src)
    else led.top > 0 && Runs(led.round, e.src) && if e.dst == l.head then led.phase.Round? else e.dst !in led.round
  }

  ghost predicate Waiting(g: Flowgraph, l: Loop, reach: map<Node, set<ReachDefinition>>, led: Ledger) {
    && (forall e :: e in g.cfg && Due(l, led, e) ==> e in led.wait && led.wait[e] in Among(reach, e.dst))
    && (forall e, f :: e in g.cfg && f in g.cfg && Due(l, led, e) && Due(l, led, f) && e.dst == f.dst && e != f ==> led.wait[e] != led.wait[f])
  }

  // Tasks come from what has been let through.
  ghost predicate TaskIs(g: Flowgraph, l: Loop, led: Ledger, t: Task) {
    && (exists e :: e in g.InEdges(t.node) && e.src == t.last) && g.Live(t.node)
    && (if t.last in l.body then Runs(led.ever, t.last) else Runs(led.free, t.last))
    && (t.loops == [] || (t.loops == [l.head] && t.last in l.body))
  }

  ghost predicate TasksAre(g: Flowgraph, l: Loop, tasks: seq<Task>, led: Ledger) {
    && (forall t :: t in tasks ==> TaskIs(g, l, led, t))
    && led.top <= |tasks| && (led.phase.Outside? ==> led.top == 0)
    && forall i :: 0 <= i < led.top ==> tasks[i].loops == if led.phase.Round? then [l.head] else []
  }

  // What has all it waits for has a task.
  ghost predicate BodyHasTasks(g: Flowgraph, l: Loop, tasks: seq<Task>, led: Ledger)
    requires led.top <= |tasks|
  {
    !led.phase.Outside? ==>
      && (forall m :: m in l.body - led.round && m != l.head && AllRun(g, led.round, m) ==> HasTaskBelow(tasks, led.top, m))
      && (led.phase.Round? && AllOf(BackEdges(g, l), led.round) ==> HasTaskBelow(tasks, led.top, l.head))
  }

  ghost predicate HasFreeTask(tasks: seq<Task>, n: Node) {
    exists t :: t in tasks && t.node == n && t.loops == []
  }

  ghost predicate OthersHaveTasks(g: Flowgraph, l: Loop, tasks: seq<Task>, led: Ledger) {
    && (forall n :: n !in l.body + led.free && AllRun(g, Freed(led), n) ==> HasFreeTask(tasks, n))
    && (led.phase.Outside? && AllOf(EntryEdges(g, l), led.free) ==> HasFreeTask(tasks, l.head))
  }

  ghost predicate SetsAre(g: Flowgraph, l: Loop, led: Ledger) {
    && g.entry in led.free && led.round <= led.ever <= l.body && led.free !! l.body
    && (if led.phase.Outside? then led.ever == {} else l.head in led.round)
    && forall m :: m in led.free + led.ever ==> g.Live(m)
  }

  // What the builder knows of loops.
  ghost predicate KnownIs(g: Flowgraph, l: Loop, known: map<Node, set<Node>>, led: Ledger) {
    && known.Keys <= {l.head} && (!led.phase.Outside? ==> l.head in known)
    && (l.head in known ==> l.members <= known[l.head] && forall m :: m in known[l.head] ==> m in l.members || (m in l.body && m.inst.BeginBlock?))
  }

  ghost predicate Scheduling(g: Flowgraph, l: Loop, tasks: seq<Task>, reach: map<Node, set<ReachDefinition>>, known: map<Node, set<Node>>, led: Ledger) {
    && SetsAre(g, l, led) && TasksAre(g, l, tasks, led) && Waiting(g, l, reach, led)
    && BodyHasTasks(g, l, tasks, led) && OthersHaveTasks(g, l, tasks, led) && KnownIs(g, l, known, led)
  }

  // ----- the wait check -----

  lemma {:induction false} AsManyStates(wait: map<CfgEdge, ReachDefinition>, es: set<CfgEdge>, states: set<ReachDefinition>)
    requires forall e :: e in es ==> e in wait && wait[e] in states
    requires forall e, f :: e in es && f in es && e != f ==> wait[e] != wait[f]
    ensures |states| >= |es|
    decreases es
  {
    if e :| e in es {
      AsManyStates(wait, es - {e}, states - {wait[e]});
      assert states == (states - {wait[e]}) + {wait[e]};
    }
  }

  // Edges at which states wait have delivered enough.
  lemma EnoughThere(g: Flowgraph, l: Loop, reach: map<Node, set<ReachDefinition>>, led: Ledger, n: Node, es: set<CfgEdge>)
    requires Waiting(g, l, reach, led) && forall e :: e in es ==> e in g.InEdges(n) && Due(l, led, e)
    ensures |Among(reach, n)| >= |es|
  {
    hide Due;
    AsManyStates(led.wait, es, Among(reach, n));
  }

  // Once a loop has been left, an instruction outside it all of whose edges
  // have delivered passes the wait check, unless a loop around it holds it
  // back; while the loop was active nothing outside it did.
  lemma LeftLoopLetsOn(b: Builder, n: Node, m: Node, stack: seq<Node>, wait: map<CfgEdge, ReachDefinition>)
    requires stack != [] && stack[0] == n && m !in b.Members(n) && !m.inst.LoopHead?
    requires forall e :: e in b.graph.InEdges(m) ==> e in wait && wait[e] in b.Delivered(m)
    requires forall e, f :: e in b.graph.InEdges(m) && f in b.graph.InEdges(m) && e != f ==> wait[e] != wait[f]
    ensures b.loopsStack == WithoutLoop(stack, n) && (stack[1..] == [] || m in b.Members(stack[1])) ==> !b.Waits(m)
    ensures b.loopsStack == stack ==> b.Waits(m)
  {
    AsManyStates(wait, b.graph.InEdges(m), b.Delivered(m));
  }

  // The task has nothing to bring about yet, or it came too late.
  ghost predicate Idle(g: Flowgraph, l: Loop, led: Ledger, t: Task) {
    if t.node !in l.body then t.loops == [] ==> t.node in led.free || !AllRun(g, Freed(led), t.node)
    else if t.node == l.head then
      && (led.phase.Outside? ==> !AllOf(EntryEdges(g, l), led.free))
      && (led.phase.Round? && led.top > 0 ==> !AllOf(BackEdges(g, l), led.round))
    else led.top > 0 ==> t.node in led.round || !AllRun(g, led.round, t.node)
  }

  lemma AllDue(g: Flowgraph, l: Loop, led: Ledger, t: Task, es: set<CfgEdge>)
    requires SetsAre(g, l, led) && !Idle(g, l, led, t)
    requires es == (if t.node != l.head then g.InEdges(t.node) else if led.phase.Outside? then EntryEdges(g, l) else BackEdges(g, l))
    ensures forall e :: e in es ==> e in g.InEdges(t.node) && Due(l, led, e)
  {
  }

  // What the check lets through, apart from the number of states: everything
  // with no loop active, and the body with the loop active.
  lemma MayPass(g: Flowgraph, l: Loop, known: map<Node, set<Node>>, led: Ledger, t: Task)
    requires HasOneLoop(g, l) && SetsAre(g, l, led) && KnownIs(g, l, known, led) && TaskIs(g, l, led, t)
    requires t.node.inst.BeginBlock? && t.loops != [] ==> t.node in known[l.head]
    ensures t.loops != [] ==> l.head in known && (t.node in Builder.MembersIn(known, l.head) <==> t.node in l.body)
  {
    hide Flowgraph.Live;
    var e :| e in g.InEdges(t.node) && e.src == t.last;
    assert Fits(l, e);
  }

  // ----- one task fewer -----

  // `after` has `k` new tasks in place of the first one.
  ghost predicate Replaces(tasks: seq<Task>, after: seq<Task>, k: nat) {
    tasks != [] && |after| == k + |tasks| - 1 && after[k..] == tasks[1..]
  }

  lemma Moved(tasks: seq<Task>, after: seq<Task>, k: nat, i: nat)
    requires Replaces(tasks, after, k) && 0 < i < |tasks|
    ensures after[k + i - 1] == tasks[i]
  {
    assert after[k..][i - 1] == tasks[1..][i - 1];
  }

  ghost predicate HasTaskBelow(tasks: seq<Task>, top: nat, m: Node)
    requires top <= |tasks|
  {
    exists i :: 0 <= i < top && tasks[i].node == m
  }

  lemma Shifted(tasks: seq<Task>, after: seq<Task>, top: nat, k: nat, m: Node)
    requires Replaces(tasks, after, k) && 0 < top <= |tasks| && HasTaskBelow(tasks, top, m) && tasks[0].node != m
    ensures HasTaskBelow(after, top - 1 + k, m)
  {
    var i :| 0 <= i < top && tasks[i].node == m;
    Moved(tasks, after, k, i);
    assert after[k + i - 1].node == m;
  }

  lemma StillFree(tasks: seq<Task>, after: seq<Task>, k: nat, m: Node)
    requires Replaces(tasks, after, k) && HasFreeTask(tasks, m) && (tasks[0].node != m || tasks[0].loops != [])
    ensures HasFreeTask(after, m)
  {
    var t :| t in tasks && t.node == m && t.loops == [];
    var i :| 0 <= i < |tasks| && tasks[i] == t;
    Moved(tasks, after, k, i);
    assert after[k + i - 1] == t;
  }

  function OneDone(led: Ledger): Ledger {
    led.(top := if led.top > 0 then led.top - 1 else 0)
  }

  lemma TaskAway(g: Flowgraph, l: Loop, tasks: seq<Task>, reach: map<Node, set<ReachDefinition>>, led: Ledger)
    requires tasks != [] && l.head in l.body && SetsAre(g, l, led) && TasksAre(g, l, tasks, led) && Waiting(g, l, reach, led)
    requires BodyHasTasks(g, l, tasks, led) && OthersHaveTasks(g, l, tasks, led) && Idle(g, l, led, tasks[0])
    ensures SetsAre(g, l, OneDone(led)) && TasksAre(g, l, tasks[1..], OneDone(led)) && Waiting(g, l, reach, OneDone(led))
    ensures BodyHasTasks(g, l, tasks[1..], OneDone(led)) && OthersHaveTasks(g, l, tasks[1..], OneDone(led))
  {
    hide Flowgraph.Live, AllRun, AllOf;
    var less, rest := OneDone(led), tasks[1..];
    assert Freed(less) == Freed(led);
    forall t | t in rest
      ensures TaskIs(g, l, less, t)
    {
      assert t in tasks;
    }
    forall m | led.top > 0 && HasTaskBelow(tasks, led.top, m) && tasks[0].node != m
      ensures HasTaskBelow(rest, less.top, m)
    {
      Shifted(tasks, rest, led.top, 0, m);
    }
    forall n | HasFreeTask(tasks, n) && (tasks[0].node != n || tasks[0].loops != [])
      ensures HasFreeTask(rest, n)
    {
      StillFree(tasks, rest, 0, n);
    }
    forall n | n !in l.body + less.free && AllRun(g, Freed(less), n)
      ensures HasFreeTask(rest, n)
    {
      assert HasFreeTask(tasks, n);
    }
  }

  // ----- one instruction more -----

  // What goes on from `n` waits at the edges it goes along.
  lemma WaitingAfter(g: Flowgraph, l: Loop, before: map<Node, set<ReachDefinition>>, reach: map<Node, set<ReachDefinition>>, led: Ledger,
                     n: Node, sent: map<CfgEdge, ReachDefinition>, olds: set<ReachDefinition>, next: Ledger)
    requires Waiting(g, l, before, led) && sent.Keys == g.OutEdges(n) && Builder.AllSentDiffer(sent)
    requires forall e :: e in sent ==> sent[e] in Among(before, n) || sent[e] !in olds
    requires forall m, t :: t in Among(before, m) ==> t in olds && (m != n ==> t !in Among(before, n))
    requires forall m :: m != n ==> Among(reach, m) == Among(before, m) + Builder.Arriving(sent, m)
    requires next.wait == led.wait + sent
    requires forall e :: e in g.cfg && Due(l, next, e) ==> e.dst != n && (e.src == n || Due(l, led, e))
    ensures Waiting(g, l, reach, next)
  {
    hide Due;
    forall e | e in g.cfg && Due(l, next, e)
      ensures e in next.wait && next.wait[e] in Among(reach, e.dst)
      ensures next.wait[e] in (if e in sent then Builder.Arriving(sent, e.dst) else Among(before, e.dst))
    {
      if e in sent {
        assert sent[e] in Builder.Arriving(sent, e.dst);
      }
    }
    forall e, f | e in g.cfg && f in g.cfg && Due(l, next, e) && Due(l, next, f) && e.dst == f.dst && e != f
      ensures next.wait[e] != next.wait[f]
    {
      if e in sent && f !in sent {
        assert led.wait[f] in Among(before, f.dst);
      } else if f in sent && e !in sent {
        assert led.wait[e] in Among(before, e.dst);
      }
    }
  }

  // The tasks after `n` has gone on with these loops active.
  ghost predicate TasksAfter(g: Flowgraph, tasks: seq<Task>, after: seq<Task>, n: Node, loops: seq<Node>) {
    tasks != [] && Scheduled(g.OutEdges(n), tasks[1..], after, n, loops)
  }

  // A state that has gone on along every edge out of `n`; all that waits
  // elsewhere stays.
  ghost predicate Sent(g: Flowgraph, before: map<Node, set<ReachDefinition>>, reach: map<Node, set<ReachDefinition>>, n: Node,
                       sent: map<CfgEdge, ReachDefinition>, olds: set<ReachDefinition>) {
    && sent.Keys == g.OutEdges(n) && Builder.AllSentDiffer(sent)
    && (forall e :: e in sent ==> sent[e] in Among(before, n) || sent[e] !in olds)
    && (forall m, t :: t in Among(before, m) ==> t in olds && (m != n ==> t !in Among(before, n)))
    && (forall m :: m != n ==> Among(reach, m) == Among(before, m) + Builder.Arriving(sent, m))
  }

  ghost predicate NewTask(g: Flowgraph, t: Task, n: Node, loops: seq<Node>) {
    t.loops == loops && t.last == n && exists e: CfgEdge :: e in g.OutEdges(n) && e.dst == t.node
  }

  ghost predicate HasTaskFor(after: seq<Task>, k: nat, e: CfgEdge, loops: seq<Node>)
    requires k <= |after|
  {
    exists i :: 0 <= i < k && after[i].node == e.dst && after[i].loops == loops
  }

  lemma NewTasks(g: Flowgraph, tasks: seq<Task>, after: seq<Task>, n: Node, loops: seq<Node>) returns (k: nat)
    requires TasksAfter(g, tasks, after, n, loops)
    ensures Replaces(tasks, after, k)
    ensures forall i :: 0 <= i < k ==> NewTask(g, after[i], n, loops)
    ensures forall e :: e in g.OutEdges(n) ==> HasTaskFor(after, k, e, loops)
  {
    var order: seq<CfgEdge> :| Lists(order, g.OutEdges(n)) && after == TasksOf(order, n, loops) + tasks[1..];
    k := |order|;
    forall i | 0 <= i < k
      ensures NewTask(g, after[i], n, loops)
    {
      assert order[i] in order;
    }
    forall e | e in g.OutEdges(n)
      ensures HasTaskFor(after, k, e, loops)
    {
      assert e in order;
      var i :| 0 <= i < |order| && order[i] == e;
      assert after[i] == Task(e.dst, loops, n);
    }
  }

  // The ledger after an instruction has been let through; `k` tasks are new.
  function Passed(l: Loop, led: Ledger, n: Node, loops: seq<Node>, k: nat, sent: map<CfgEdge, ReachDefinition>): Ledger {
    var next := led.(wait := led.wait + sent, top := if led.top > 0 then led.top - 1 + k else 0);
    if n !in l.body then next.(free := led.free + {n})
    else if n != l.head then next.(round := if led.top > 0 then led.round + {n} else led.round, ever := led.ever + {n})
    else if led.phase.Leaving? && led.top == 0 then next
    else next.(phase := if loops == [] then Leaving else Round, round := {n}, ever := led.ever + {n}, top := k)
  }

  lemma SetsAfter(g: Flowgraph, l: Loop, led: Ledger, t: Task, loops: seq<Node>, k: nat, sent: map<CfgEdge, ReachDefinition>)
    requires HasOneLoop(g, l) && SetsAre(g, l, led) && TaskIs(g, l, led, t)
    ensures SetsAre(g, l, Passed(l, led, t.node, loops, k, sent))
    ensures t.node in l.body && t.node != l.head ==> !led.phase.Outside?
  {
    hide Flowgraph.Live;
    var e :| e in g.InEdges(t.node) && e.src == t.last;
    assert Fits(l, e);
  }

  lemma DueAfter(g: Flowgraph, l: Loop, led: Ledger, t: Task, loops: seq<Node>, k: nat, sent: map<CfgEdge, ReachDefinition>, e: CfgEdge)
    requires HasOneLoop(g, l) && SetsAre(g, l, led) && TaskIs(g, l, led, t) && e in g.cfg && Due(l, Passed(l, led, t.node, loops, k, sent), e)
    ensures e.dst != t.node && (e.src == t.node || Due(l, led, e))
  {
    SetsAfter(g, l, led, t, loops, k, sent);
    g.FlowKeepsLive(e);
    hide Flowgraph.Live;
    assert Fits(l, e);
  }

  lemma TasksAreAfter(g: Flowgraph, l: Loop, tasks: seq<Task>, after: seq<Task>, led: Ledger, loops: seq<Node>, k: nat, sent: map<CfgEdge, ReachDefinition>)
    requires HasOneLoop(g, l) && SetsAre(g, l, led) && TasksAre(g, l, tasks, led) && tasks != [] && !tasks[0].node.inst.Unreachable?
    requires Replaces(tasks, after, k)
    requires forall i :: 0 <= i < k ==> NewTask(g, after[i], tasks[0].node, loops)
    requires LoopsFit(l, led, tasks[0], loops)
    ensures TasksAre(g, l, after, Passed(l, led, tasks[0].node, loops, k, sent))
  {
    var n, next := tasks[0].node, Passed(l, led, tasks[0].node, loops, k, sent);
    SetsAfter(g, l, led, tasks[0], loops, k, sent);
    forall i | 0 <= i < |after|
      ensures TaskIs(g, l, next, after[i])
    {
      if i < k {
        var e :| e in g.OutEdges(n) && e.dst == after[i].node;
        g.FlowKeepsLive(e);
        assert e in g.InEdges(after[i].node);
      } else {
        Moved(tasks, after, k, i - k + 1);
        assert tasks[i - k + 1] in tasks;
      }
    }
    forall i | 0 <= i < next.top
      ensures after[i].loops == if next.phase.Round? then [l.head] else []
    {
      if i >= k {
        Moved(tasks, after, k, i - k + 1);
      }
    }
  }

  // An edge from an instruction that has been let through for the first time.
  lemma NewSource(g: Flowgraph, ms: set<Node>, more: set<Node>, n: Node, es: set<CfgEdge>) returns (e: CfgEdge)
    requires (forall f :: f in es ==> Runs(more, f.src)) && !(forall f :: f in es ==> Runs(ms, f.src)) && more <= ms + {n}
    ensures e in es && e.src == n
  {
    e :| e in es && !Runs(ms, e.src);
  }

  lemma HeadTasksAfter(g: Flowgraph, l: Loop, tasks: seq<Task>, after: seq<Task>, led: Ledger, loops: seq<Node>, k: nat, sent: map<CfgEdge, ReachDefinition>)
    requires HasOneLoop(g, l) && SetsAre(g, l, led) && TasksAre(g, l, tasks, led) && Replaces(tasks, after, k) && tasks[0].node == l.head
    requires forall e :: e in g.OutEdges(l.head) ==> HasTaskBelow(after, k, e.dst)
    requires !(led.phase.Leaving? && led.top == 0)
    ensures BodyHasTasks(g, l, after, Passed(l, led, l.head, loops, k, sent))
  {
    var next := Passed(l, led, l.head, loops, k, sent);
    assert TaskIs(g, l, led, tasks[0]);
    forall m | m in l.body - next.round && AllRun(g, next.round, m)
      ensures HasTaskBelow(after, k, m)
    {
      var e :| e in g.InEdges(m);
      assert e in g.OutEdges(l.head) && HasTaskBelow(after, k, m);
    }
    if e :| e in BackEdges(g, l) && Runs(next.round, e.src) {
      assert Fits(l, e);
    }
  }

  lemma BodyTasksAfter(g: Flowgraph, l: Loop, tasks: seq<Task>, after: seq<Task>, led: Ledger, loops: seq<Node>, k: nat, sent: map<CfgEdge, ReachDefinition>)
    requires HasOneLoop(g, l) && SetsAre(g, l, led) && TasksAre(g, l, tasks, led) && Replaces(tasks, after, k) && BodyHasTasks(g, l, tasks, led)
    requires forall e :: e in g.OutEdges(tasks[0].node) ==> HasTaskBelow(after, k, e.dst)
    requires tasks[0].node == l.head ==> led.phase.Leaving? && led.top == 0
    ensures BodyHasTasks(g, l, after, Passed(l, led, tasks[0].node, loops, k, sent))
  {
    hide Flowgraph.Live, Fits;
    var n, next := tasks[0].node, Passed(l, led, tasks[0].node, loops, k, sent);
    SetsAfter(g, l, led, tasks[0], loops, k, sent);
    if !next.phase.Outside? {
      forall m | m in l.body - next.round && m != l.head && AllRun(g, next.round, m)
        ensures HasTaskBelow(after, next.top, m)
      {
        if AllRun(g, led.round, m) {
          assert HasTaskBelow(tasks, led.top, m);
          Shifted(tasks, after, led.top, k, m);
        } else {
          var e := NewSource(g, led.round, next.round, n, g.InEdges(m));
          assert e in g.OutEdges(n) && HasTaskBelow(after, k, m);
        }
      }
      if next.phase.Round? && AllOf(BackEdges(g, l), next.round) {
        if AllOf(BackEdges(g, l), led.round) {
          assert HasTaskBelow(tasks, led.top, l.head);
          Shifted(tasks, after, led.top, k, l.head);
        } else {
          var e := NewSource(g, led.round, next.round, n, BackEdges(g, l));
          assert e in g.OutEdges(n) && HasTaskBelow(after, k, l.head);
        }
      }
    }
  }

  lemma OtherTasksAfter(g: Flowgraph, l: Loop, tasks: seq<Task>, after: seq<Task>, led: Ledger, loops: seq<Node>, k: nat, sent: map<CfgEdge, ReachDefinition>)
    requires HasOneLoop(g, l) && SetsAre(g, l, led) && TasksAre(g, l, tasks, led) && Replaces(tasks, after, k) && OthersHaveTasks(g, l, tasks, led)
    requires forall e :: e in g.OutEdges(tasks[0].node) && loops == [] ==> HasFreeTask(after, e.dst)
    requires LoopsFit(l, led, tasks[0], loops)
    ensures OthersHaveTasks(g, l, after, Passed(l, led, tasks[0].node, loops, k, sent))
  {
    hide Flowgraph.Live, Fits;
    var n, next := tasks[0].node, Passed(l, led, tasks[0].node, loops, k, sent);
    SetsAfter(g, l, led, tasks[0], loops, k, sent);
    forall m | HasFreeTask(tasks, m) && m != n
      ensures HasFreeTask(after, m)
    {
      StillFree(tasks, after, k, m);
    }
    forall m | m !in l.body + next.free && AllRun(g, Freed(next), m)
      ensures HasFreeTask(after, m)
    {
      if !AllRun(g, Freed(led), m) {
        var e := NewSource(g, Freed(led), Freed(next), n, g.InEdges(m));
        assert e in g.OutEdges(n);
      }
    }
    if next.phase.Outside? && AllOf(EntryEdges(g, l), next.free) && !AllOf(EntryEdges(g, l), led.free) {
      var e := NewSource(g, led.free, next.free, n, EntryEdges(g, l));
      assert e in g.OutEdges(n);
    }
  }

  // The active loops with which `t.node` goes on: those it has come with, but at
  // the head. No other instruction outside goes on with the loop active.
  ghost predicate LoopsFit(l: Loop, led: Ledger, t: Task, loops: seq<Node>) {
    && (loops == [] || loops == [l.head]) && (t.node != l.head ==> loops == t.loops) && (t.node !in l.body ==> loops == [])
    && (led.top > 0 && t.node != l.head ==> loops == if led.phase.Round? then [l.head] else [])
  }

  // ----- one task -----

  // A task that brings about nothing.
  lemma Drops(g: Flowgraph, l: Loop, tasks: seq<Task>, reach: map<Node, set<ReachDefinition>>, known: map<Node, set<Node>>, more: map<Node, set<Node>>, led: Ledger)
    requires l.head in l.body && Scheduling(g, l, tasks, reach, known, led) && tasks != [] && Idle(g, l, led, tasks[0]) && KnownIs(g, l, more, led)
    ensures Scheduling(g, l, tasks[1..], reach, more, OneDone(led))
  {
    TaskAway(g, l, tasks, reach, led);
  }

  lemma GoesOn(g: Flowgraph, l: Loop, tasks: seq<Task>, after: seq<Task>, before: map<Node, set<ReachDefinition>>, reach: map<Node, set<ReachDefinition>>,
               known: map<Node, set<Node>>, more: map<Node, set<Node>>, led: Ledger, loops: seq<Node>, sent: map<CfgEdge, ReachDefinition>, olds: set<ReachDefinition>)
    returns (next: Ledger)
    requires HasOneLoop(g, l) && Scheduling(g, l, tasks, before, known, led) && tasks != [] && !tasks[0].node.inst.Unreachable?
    requires Sent(g, before, reach, tasks[0].node, sent, olds) && TasksAfter(g, tasks, after, tasks[0].node, loops) && LoopsFit(l, led, tasks[0], loops)
    requires KnownIs(g, l, more, led) && (tasks[0].node == l.head ==> l.head in more)
    ensures Scheduling(g, l, after, reach, more, next)
    ensures exists k :: next == Passed(l, led, tasks[0].node, loops, k, sent)
  {
    hide HasOneLoop, SetsAre, Waiting, BodyHasTasks, OthersHaveTasks, Due, TasksAre, Passed, KnownIs, TaskIs, LoopsFit, Sent, Replaces, HasTaskBelow, HasFreeTask,
         Scheduled, Flowgraph.InEdges;
    var n := tasks[0].node;
    var k := NewTasks(g, tasks, after, n, loops);
    next := Passed(l, led, n, loops, k, sent);
    FirstIs(g, l, tasks, led);
    SetsAfter(g, l, led, tasks[0], loops, k, sent);
    WaitsOn(g, l, before, reach, led, tasks[0], loops, k, sent, olds);
    TasksGoOn(g, l, tasks, after, led, loops, k, sent);
    KnownAfter(g, l, more, led, n, loops, k, sent);
  }

  lemma WaitsOn(g: Flowgraph, l: Loop, before: map<Node, set<ReachDefinition>>, reach: map<Node, set<ReachDefinition>>, led: Ledger, t: Task, loops: seq<Node>,
                k: nat, sent: map<CfgEdge, ReachDefinition>, olds: set<ReachDefinition>)
    requires HasOneLoop(g, l) && SetsAre(g, l, led) && TaskIs(g, l, led, t) && Waiting(g, l, before, led) && Sent(g, before, reach, t.node, sent, olds)
    ensures Waiting(g, l, reach, Passed(l, led, t.node, loops, k, sent))
  {
    hide HasOneLoop, SetsAre, Waiting, Due, Passed, TaskIs;
    var next := Passed(l, led, t.node, loops, k, sent);
    forall e | e in g.cfg && Due(l, next, e)
      ensures e.dst != t.node && (e.src == t.node || Due(l, led, e))
    {
      DueAfter(g, l, led, t, loops, k, sent, e);
    }
    PassedWait(l, led, t.node, loops, k, sent);
    WaitingAfter(g, l, before, reach, led, t.node, sent, olds, next);
  }

  lemma TasksGoOn(g: Flowgraph, l: Loop, tasks: seq<Task>, after: seq<Task>, led: Ledger, loops: seq<Node>, k: nat, sent: map<CfgEdge, ReachDefinition>)
    requires HasOneLoop(g, l) && SetsAre(g, l, led) && TasksAre(g, l, tasks, led) && Replaces(tasks, after, k) && !tasks[0].node.inst.Unreachable?
    requires BodyHasTasks(g, l, tasks, led) && OthersHaveTasks(g, l, tasks, led) && LoopsFit(l, led, tasks[0], loops)
    requires forall i :: 0 <= i < k ==> NewTask(g, after[i], tasks[0].node, loops)
    requires forall e :: e in g.OutEdges(tasks[0].node) ==> HasTaskFor(after, k, e, loops)
    ensures var next := Passed(l, led, tasks[0].node, loops, k, sent);
            TasksAre(g, l, after, next) && BodyHasTasks(g, l, after, next) && OthersHaveTasks(g, l, after, next)
  {
    hide HasOneLoop, SetsAre, BodyHasTasks, OthersHaveTasks, TasksAre, Passed, TaskIs, NewTask, HasTaskBelow, HasFreeTask;
    var n := tasks[0].node;
    TasksAreAfter(g, l, tasks, after, led, loops, k, sent);
    forall e | e in g.OutEdges(n)
      ensures HasTaskBelow(after, k, e.dst) && (loops == [] ==> HasFreeTask(after, e.dst))
    {
      TaskForEdge(after, k, e, loops);
    }
    if n == l.head && !(led.phase.Leaving? && led.top == 0) {
      HeadTasksAfter(g, l, tasks, after, led, loops, k, sent);
    } else {
      BodyTasksAfter(g, l, tasks, after, led, loops, k, sent);
    }
    OtherTasksAfter(g, l, tasks, after, led, loops, k, sent);
  }

  lemma TaskForEdge(after: seq<Task>, k: nat, e: CfgEdge, loops: seq<Node>)
    requires k <= |after| && HasTaskFor(after, k, e, loops)
    ensures HasTaskBelow(after, k, e.dst) && (loops == [] ==> HasFreeTask(after, e.dst))
  {
  }

  lemma FirstIs(g: Flowgraph, l: Loop, tasks: seq<Task>, led: Ledger)
    requires TasksAre(g, l, tasks, led) && tasks != []
    ensures TaskIs(g, l, led, tasks[0])
  {
  }

  lemma PassedWait(l: Loop, led: Ledger, n: Node, loops: seq<Node>, k: nat, sent: map<CfgEdge, ReachDefinition>)
    ensures Passed(l, led, n, loops, k, sent).wait == led.wait + sent
  {
  }

  lemma KnownAfter(g: Flowgraph, l: Loop, known: map<Node, set<Node>>, led: Ledger, n: Node, loops: seq<Node>, k: nat, sent: map<CfgEdge, ReachDefinition>)
    requires KnownIs(g, l, known, led) && (n == l.head ==> l.head in known)
    ensures KnownIs(g, l, known, Passed(l, led, n, loops, k, sent))
  {
  }

  // An instruction that ends the program: it is let through, and nothing goes
  // on.
  function Ended(l: Loop, led: Ledger, n: Node): Ledger {
    if n !in l.body then led.(free := led.free + {n})
    else led.(round := if led.top > 0 then led.round + {n} else led.round, ever := led.ever + {n})
  }

  lemma Ends(g: Flowgraph, l: Loop, tasks: seq<Task>, reach: map<Node, set<ReachDefinition>>, known: map<Node, set<Node>>, more: map<Node, set<Node>>, led: Ledger)
    requires HasOneLoop(g, l) && Scheduling(g, l, tasks, reach, known, led) && tasks != [] && tasks[0].node.inst.Unreachable? && KnownIs(g, l, more, led)
    ensures Scheduling(g, l, tasks[1..], reach, more, OneDone(Ended(l, led, tasks[0].node)))
  {
    hide HasOneLoop, SetsAre, Waiting, BodyHasTasks, OthersHaveTasks, TasksAre, KnownIs, TaskIs, Ended, Idle;
    var n, next := tasks[0].node, Ended(l, led, tasks[0].node);
    FirstIs(g, l, tasks, led);
    EndsSets(g, l, led, tasks[0]);
    EndsTasks(g, l, tasks, led, n);
    EndsWaiting(g, l, reach, led, n);
    KnownToo(g, l, more, led, next);
    TaskAway(g, l, tasks, reach, next);
  }

  lemma EndsSets(g: Flowgraph, l: Loop, led: Ledger, t: Task)
    requires HasOneLoop(g, l) && SetsAre(g, l, led) && TaskIs(g, l, led, t) && t.node.inst.Unreachable?
    ensures SetsAre(g, l, Ended(l, led, t.node)) && Idle(g, l, Ended(l, led, t.node), t) && t.node != l.head && l.head in l.body
    ensures Ended(l, led, t.node).phase == led.phase
  {
    hide Flowgraph.Live, AllRun;
    var e :| e in g.InEdges(t.node) && e.src == t.last;
    assert Fits(l, e);
  }

  lemma EndsTasks(g: Flowgraph, l: Loop, tasks: seq<Task>, led: Ledger, n: Node)
    requires TasksAre(g, l, tasks, led) && BodyHasTasks(g, l, tasks, led) && OthersHaveTasks(g, l, tasks, led) && n.inst.Unreachable? && n != l.head
    ensures var next := Ended(l, led, n); TasksAre(g, l, tasks, next) && BodyHasTasks(g, l, tasks, next) && OthersHaveTasks(g, l, tasks, next)
  {
    hide Flowgraph.Live, AllRun, AllOf, HasTaskBelow, HasFreeTask;
    var next := Ended(l, led, n);
    assert forall m :: (Runs(next.free, m) <==> Runs(led.free, m)) && (Runs(next.ever, m) <==> Runs(led.ever, m));
    SameRuns(g, l, led, next, n);
  }

  lemma EndsWaiting(g: Flowgraph, l: Loop, reach: map<Node, set<ReachDefinition>>, led: Ledger, n: Node)
    requires Waiting(g, l, reach, led) && n.inst.Unreachable? && n != l.head
    ensures Waiting(g, l, reach, Ended(l, led, n))
  {
    hide Due;
    StillDue(g, l, led, Ended(l, led, n), n);
    assert Ended(l, led, n).wait == led.wait;
  }

  lemma KnownToo(g: Flowgraph, l: Loop, known: map<Node, set<Node>>, led: Ledger, next: Ledger)
    requires KnownIs(g, l, known, led) && next.phase == led.phase
    ensures KnownIs(g, l, known, OneDone(next))
  {
  }

  lemma SameRuns(g: Flowgraph, l: Loop, led: Ledger, next: Ledger, n: Node)
    requires next == Ended(l, led, n) && n.inst.Unreachable?
    ensures forall m :: AllRun(g, next.round, m) <==> AllRun(g, led.round, m)
    ensures forall m :: AllRun(g, Freed(next), m) <==> AllRun(g, Freed(led), m)
    ensures forall es :: (AllOf(es, next.round) <==> AllOf(es, led.round)) && (AllOf(es, next.free) <==> AllOf(es, led.free))
  {
  }

  lemma StillDue(g: Flowgraph, l: Loop, led: Ledger, next: Ledger, n: Node)
    requires next == Ended(l, led, n) && n.inst.Unreachable? && n != l.head
    ensures forall e :: Due(l, next, e) ==> Due(l, led, e)
  {
  }

  // ----- when no task is left -----

  // Control can come back to the head.
  ghost predicate Closes(g: Flowgraph, l: Loop) {
    BackEdges(g, l) != {}
  }

  lemma {:induction false} BodyComesFromHead(g: Flowgraph, l: Loop, m: Node)
    requires HasOneLoop(g, l) && g.Served(m) && m in l.body
    ensures g.Served(l.head) && l.rank(l.head) <= l.rank(m)
    decreases l.rank(m)
  {
    if m != l.head {
      hide Flowgraph.Live, Flowgraph.Served;
      g.ServedIsLive(m);
      g.LiveHasFlow(m);
      var e :| e in g.InEdges(m) && g.Live(e.src) && !e.src.inst.Unreachable?;
      assert Fits(l, e);
      g.ServedBefore(m, e);
      BodyComesFromHead(g, l, e.src);
    }
  }

  lemma NoneLeft(n: Node)
    ensures !HasTaskBelow([], 0, n) && !HasFreeTask([], n)
  {
  }

  // Where no task of the loop is left, all of its body has been let through.
  lemma {:induction false} BodyHasRun(g: Flowgraph, l: Loop, led: Ledger, m: Node)
    requires HasOneLoop(g, l) && SetsAre(g, l, led) && led.top == 0 && BodyHasTasks(g, l, [], led) && !led.phase.Outside?
    requires g.Served(m) && m in l.body
    ensures m in led.round
    decreases l.rank(m)
  {
    if m != l.head {
      hide Flowgraph.Live, Flowgraph.Served;
      g.ServedIsLive(m);
      g.LiveHasFlow(m);
      forall e | e in g.InEdges(m)
        ensures Runs(led.round, e.src)
      {
        g.ServedBefore(m, e);
        assert Fits(l, e);
        BodyHasRun(g, l, led, e.src);
      }
      NoneLeft(m);
      assert AllRun(g, led.round, m);
    }
  }

  lemma LoopIsLeft(g: Flowgraph, l: Loop, led: Ledger)
    requires HasOneLoop(g, l) && SetsAre(g, l, led) && led.top == 0 && BodyHasTasks(g, l, [], led) && !led.phase.Outside?
    requires g.Served(l.head) && Closes(g, l)
    ensures led.phase.Leaving?
  {
    hide Flowgraph.Live, Flowgraph.Served;
    if led.phase.Round? {
      forall e | e in BackEdges(g, l)
        ensures Runs(led.round, e.src)
      {
        g.ServedBefore(l.head, e);
        g.ServedIsLive(e.src);
        BodyHasRun(g, l, led, e.src);
      }
      NoneLeft(l.head);
    }
  }

  // Everything that control comes to through nothing but what it passes has
  // been let through with no loop active, if control can come back to the head.
  lemma {:induction false} ServedIsFreed(g: Flowgraph, l: Loop, reach: map<Node, set<ReachDefinition>>, known: map<Node, set<Node>>, led: Ledger, n: Node)
    requires HasOneLoop(g, l) && Scheduling(g, l, [], reach, known, led) && Closes(g, l) && g.Served(n)
    ensures n in Freed(led)
    decreases l.rank(n)
  {
    hide Flowgraph.Live, Flowgraph.Served, Waiting, KnownIs;
    g.ServedIsLive(n);
    if n in l.body {
      BodyComesFromHead(g, l, n);
      g.ServedIsLive(l.head);
      forall e | e in EntryEdges(g, l)
        ensures Runs(led.free, e.src)
      {
        g.ServedBefore(l.head, e);
        assert Fits(l, e);
        ServedIsFreed(g, l, reach, known, led, e.src);
        NotInBody(g, l, led, e);
      }
      HeadIsEntered(g, l, n);
      NoneLeft(l.head);
      LoopIsLeft(g, l, led);
      BodyHasRun(g, l, led, n);
    } else if n != g.entry {
      g.LiveHasFlow(n);
      forall e | e in g.InEdges(n)
        ensures Runs(Freed(led), e.src)
      {
        g.ServedBefore(n, e);
        assert Fits(l, e);
        ServedIsFreed(g, l, reach, known, led, e.src);
      }
      NoneLeft(n);
    }
  }

  lemma NotInBody(g: Flowgraph, l: Loop, led: Ledger, e: CfgEdge)
    requires SetsAre(g, l, led) && Fits(l, e) && e in EntryEdges(g, l) && e.src in Freed(led)
    ensures e.src in led.free
  {
  }

  // Control comes to the head from outside first.
  lemma HeadIsEntered(g: Flowgraph, l: Loop, n: Node)
    requires HasOneLoop(g, l) && g.Live(l.head)
    ensures EntryEdges(g, l) != {}
  {
    var p :| g.IsPath(p) && p[|p| - 1] == l.head;
    var i := FirstInBody(g, l, p);
    assert g.Flow(p[i], p[i + 1]);
    var e :| e in g.cfg && e.src == p[i] && e.dst == p[i + 1];
    assert g.IsPath(p[..i + 2]) && p[..i + 2][i + 1] == p[i + 1];
    assert g.IsPath(p[..i + 1]) && p[..i + 1][i] == p[i];
    assert Fits(l, e);
    assert e in EntryEdges(g, l);
  }

  lemma FirstInBody(g: Flowgraph, l: Loop, p: seq<Node>) returns (i: nat)
    requires p != [] && p[0] !in l.body && p[|p| - 1] in l.body
    ensures i < |p| - 1 && p[i] !in l.body && p[i + 1] in l.body
  {
    i := 0;
    while p[i + 1] !in l.body
      invariant i < |p| - 1 && p[i] !in l.body
      decreases |p| - i
    {
      i := i + 1;
    }
  }
}
