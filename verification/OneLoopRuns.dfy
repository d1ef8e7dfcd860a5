// Runs of the builder on a function with one loop, tasks taken from the front
// of the worklist.
module OneLoopRuns {
  import opened Wrappers
  import opened DataFlow
  import opened Flowgraph
  import opened Provenance
  import opened VisitLaws
  import opened ReachDefinitions
  import opened Growth
  import opened PdgBuilder
  import opened LoopVisits
  import opened BuilderRuns
  import opened OneLoop

  // ----- the wait check -----

  // The task that has been taken, and the ledger before it.
  ghost predicate Taken(b: Builder, l: Loop, led: Ledger, task: Task, rest: seq<Task>)
    reads b`reachDef, b`loopsStack, b`lastNode
  {
    && b.loopsStack == task.loops && b.lastNode == task.last && HasOneLoop(b.graph, l)
    && SetsAre(b.graph, l, led) && TasksAre(b.graph, l, [task] + rest, led) && Waiting(b.graph, l, b.reachDef, led)
  }

  lemma TakenIs(b: Builder, l: Loop, led: Ledger, task: Task, rest: seq<Task>)
    requires Taken(b, l, led, task, rest)
    ensures TaskIs(b.graph, l, led, task) && (led.top > 0 ==> task.loops == if led.phase.Round? then [l.head] else [])
  {
    assert ([task] + rest)[0] == task;
  }

  // The edge along which control has come to the head.
  lemma CameToHead(b: Builder, l: Loop, known: map<Node, set<Node>>, led: Ledger, task: Task, rest: seq<Task>)
    requires Taken(b, l, led, task, rest) && task.node == l.head && KnownIs(b.graph, l, known, led) && l.head in known
    ensures b.lastNode in Builder.MembersIn(known, l.head) <==> task.last in l.body
    ensures b.AwaitedIn(known, l.head) == if task.last in l.body then BackEdges(b.graph, l) else EntryEdges(b.graph, l)
  {
    hide Flowgraph.Live;
    TakenIs(b, l, led, task, rest);
    var e :| e in b.graph.InEdges(l.head) && e.src == task.last;
    assert Fits(l, e);
    forall f | f in b.graph.InEdges(l.head)
      ensures f.src in Builder.MembersIn(known, l.head) <==> f.src in l.members
    {
      assert Fits(l, f);
    }
  }

  // What is held back was not due to go on.
  lemma HeldIsIdle(b: Builder, l: Loop, known: map<Node, set<Node>>, led: Ledger, task: Task, rest: seq<Task>)
    requires Taken(b, l, led, task, rest) && KnownIs(b.graph, l, known, led) && b.HeldIn(known, task.node)
    requires (task.node == l.head ==> l.head in known) && (task.node.inst.BeginBlock? && task.loops != [] ==> l.head in known && task.node in known[l.head])
    requires task.node.inst.LoopHead? ==> task.node == l.head
    ensures Idle(b.graph, l, led, task)
  {
    hide Flowgraph.Live, Due, Waiting, AllRun, AllOf;
    TakenIs(b, l, led, task, rest);
    if !Idle(b.graph, l, led, task) {
      MayPass(b.graph, l, known, led, task);
      if task.node == l.head {
        CameToHead(b, l, known, led, task, rest);
      }
      var es := b.AwaitedIn(known, task.node);
      AllDue(b.graph, l, led, task, es);
      EnoughThere(b.graph, l, b.reachDef, led, task.node, es);
    }
  }

  // ----- what is known of the loop -----

  lemma KnownEnlisted(b: Builder, l: Loop, led: Ledger, task: Task, rest: seq<Task>)
    requires Taken(b, l, led, task, rest) && KnownIs(b.graph, l, b.loopsInsts, led)
    ensures KnownIs(b.graph, l, b.Enlisted(task.node), led)
    ensures task.node.inst.BeginBlock? && task.loops != [] ==> l.head in b.Enlisted(task.node) && task.node in b.Enlisted(task.node)[l.head]
  {
    hide Flowgraph.Live;
    TakenIs(b, l, led, task, rest);
    var e :| e in b.graph.InEdges(task.node) && e.src == task.last;
    assert Fits(l, e);
  }

  lemma HeadKnown(b: Builder, l: Loop, led: Ledger)
    requires KnownIs(b.graph, l, b.loopsInsts, led) && b.inside(l.head) == l.members
    ensures KnownIs(b.graph, l, Knowing(b, l.head), led) && l.head in Knowing(b, l.head)
  {
  }

  // ----- a run -----

  ghost predicate LogIs(g: Flowgraph, passed: seq<Node>, led: Ledger) {
    forall n :: n in led.free + led.ever && n != g.entry ==> n in passed
  }

  ghost predicate Running(b: Builder, l: Loop, led: Ledger)
    reads b, b.defs, b.kept, b.states, b.saved, b.loops.Values, b.cache.Values
  {
    && b.Valid() && Shapely(b) && HasOneLoop(b.graph, l) && b.inside(l.head) == l.members
    && Scheduling(b.graph, l, b.dfsList, b.reachDef, b.loopsInsts, led) && (l.head in b.loops <==> !led.phase.Outside?)
    && LogIs(b.graph, b.passed, led)
  }

  // States that wait are known, and wait at one place only.
  lemma WaitApart(b: Builder, was: Before, n: Node)
    requires Shapely(b) && was == b.Now(n)
    ensures forall m, t :: t in Among(was.reachDef, m) ==> t in was.states && (m != n ==> t !in Among(was.reachDef, n))
  {
    hide Lawful, KeptFit, TasksFit, Fit, Separate, AllParts, Stacks;
    forall m, t | t in Among(was.reachDef, m)
      ensures t in was.states && (m != n ==> t !in Among(was.reachDef, n))
    {
      assert t in b.Delivered(m);
    }
  }

  lemma MovedIsSent(b: Builder, was: Before, n: Node, sent: map<CfgEdge, ReachDefinition>)
    requires GoneOn(b, was, n, sent)
    requires forall m, t :: t in Among(was.reachDef, m) ==> t in was.states && (m != n ==> t !in Among(was.reachDef, n))
    ensures Sent(b.graph, was.reachDef, b.reachDef, n, sent, was.states)
    ensures Scheduled(b.graph.OutEdges(n), was.tasks, b.dfsList, n, b.loopsStack)
  {
    hide Scheduled;
    forall m | m != n
      ensures Among(b.reachDef, m) == Among(was.reachDef, m) + Builder.Arriving(sent, m)
    {
      assert b.Delivered(m) == Among(b.reachDef, m);
    }
  }

  lemma RestAfter(g: Flowgraph, task: Task, rest: seq<Task>, after: seq<Task>, loops: seq<Node>)
    requires Scheduled(g.OutEdges(task.node), rest, after, task.node, loops)
    ensures TasksAfter(g, [task] + rest, after, task.node, loops)
  {
    assert ([task] + rest)[1..] == rest;
  }

  // What the ledger has let through is in the log.
  lemma LoggedToo(g: Flowgraph, l: Loop, passed: seq<Node>, led: Ledger, n: Node, next: Ledger)
    requires LogIs(g, passed, led) && next.free + next.ever <= led.free + led.ever + {n}
    ensures LogIs(g, passed + [n], next)
  {
  }

  method FrontTask(b: Builder) returns (task: Task)
    requires b.Valid() && Shapely(b) && b.dfsList != []
    modifies b`dfsList, b`loopsStack, b`lastNode
    ensures b.Valid() && Shapely(b) && task == old(b.dfsList)[0] && b.dfsList == old(b.dfsList)[1..]
    ensures b.loopsStack == task.loops && b.lastNode == task.last && task.node in b.graph.Nodes() && exists e :: Takes(b, e, b.lastNode, task.node)
  {
    hide Builder.Sound, Builder.Owned, AllFit, KeptFit, Lawful;
    task := b.dfsList[0];
    assert task in b.dfsList && TaskFits(b, task);
    b.dfsList := b.dfsList[1..];
    b.TakeUp(task);
  }

  // A visit to the head goes on with the loop active, or with none.
  lemma HeadLoops(g: Flowgraph, l: Loop, led: Ledger, task: Task, how: Outcome, loops: seq<Node>)
    requires TaskIs(g, l, led, task) && task.node == l.head && l.head in l.body && (how.New? ==> task.loops == [])
    requires match how
             case New => loops == [l.head] + task.loops
             case Changed => loops == WithLoop(task.loops, l.head)
             case Left => loops == WithoutLoop(task.loops, l.head)
             case _ => false
    ensures LoopsFit(l, led, task, loops)
  {
    hide Flowgraph.Live;
  }

  // Any other has gone on with the loops of its task.
  lemma PlainLoops(b: Builder, l: Loop, known: map<Node, set<Node>>, led: Ledger, task: Task, rest: seq<Task>)
    requires Taken(b, l, led, task, rest) && KnownIs(b.graph, l, known, led) && task.node != l.head && !b.HeldIn(known, task.node)
    requires task.node.inst.BeginBlock? && task.loops != [] ==> l.head in known && task.node in known[l.head]
    ensures LoopsFit(l, led, task, task.loops)
  {
    hide Flowgraph.Live;
    TakenIs(b, l, led, task, rest);
    MayPass(b.graph, l, known, led, task);
  }

  // A visit to the head that stops there was made with no loop active, and
  // nothing is awaited there.
  lemma StaysIdle(g: Flowgraph, l: Loop, led: Ledger, tasks: seq<Task>, before: map<Node, set<ReachDefinition>>, reach: map<Node, set<ReachDefinition>>)
    requires HasOneLoop(g, l) && TasksAre(g, l, tasks, led) && tasks != [] && Waiting(g, l, before, led) && OneStays(reach, before, l.head)
    requires tasks[0].node == l.head && (tasks[0].loops == [] || tasks[0].loops[0] != l.head) && !led.phase.Outside?
    ensures Waiting(g, l, reach, led) && Idle(g, l, led, tasks[0])
  {
    hide Flowgraph.Live;
    assert TaskIs(g, l, led, tasks[0]);
    forall e | e in g.cfg && Due(l, led, e)
      ensures Among(reach, e.dst) == Among(before, e.dst)
    {
    }
  }

  // The builder with a task in hand; the rest of them is in the worklist.
  ghost predicate InHand(b: Builder, l: Loop, led: Ledger, task: Task)
    reads b, b.defs, b.kept, b.states, b.saved, b.loops.Values, b.cache.Values
  {
    && b.Valid() && Shapely(b) && b.inside(l.head) == l.members && Taken(b, l, led, task, b.dfsList)
    && Scheduling(b.graph, l, [task] + b.dfsList, b.reachDef, b.loopsInsts, led) && (l.head in b.loops <==> !led.phase.Outside?)
    && LogIs(b.graph, b.passed, led) && task.node in b.graph.Nodes() && exists e :: Takes(b, e, b.lastNode, task.node)
  }

  // States wait in one place each.
  ghost predicate WaitsOnce(was: Before, n: Node) {
    forall m, t :: t in Among(was.reachDef, m) ==> t in was.states && (m != n ==> t !in Among(was.reachDef, n))
  }

  // What holds before a task is carried out, with what the wait check will
  // know of the loop.
  ghost predicate Set(g: Flowgraph, l: Loop, led: Ledger, task: Task, was: Before, before: map<Node, set<Node>>, known: map<Node, set<Node>>) {
    && HasOneLoop(g, l) && Scheduling(g, l, [task] + was.tasks, was.reachDef, before, led) && KnownIs(g, l, known, led) && WaitsOnce(was, task.node)
  }

  lemma BeforePlain(b: Builder, l: Loop, led: Ledger, task: Task)
    requires InHand(b, l, led, task) && !task.node.inst.LoopHead?
    ensures Set(b.graph, l, led, task, b.Now(task.node), b.loopsInsts, b.Enlisted(task.node)) && task.node != l.head && b.loopsStack == task.loops
    ensures if b.HeldIn(b.Enlisted(task.node), task.node) then Idle(b.graph, l, led, task) else LoopsFit(l, led, task, task.loops)
  {
    hide Builder.Sound, Builder.Linked, Shapely, Taken, LogIs, Idle, Separate, AllParts, Stacks, LoopsFit, Builder.HeldIn, KnownIs, SetsAre, TasksAre, Waiting,
         BodyHasTasks, OthersHaveTasks, HasOneLoop;
    var n := task.node;
    WaitApart(b, b.Now(n), n);
    TakenLoops(b, l, led, task, b.dfsList);
    KnownEnlisted(b, l, led, task, b.dfsList);
    NotHead(b, l, led, task, b.dfsList);
    if b.HeldIn(b.Enlisted(n), n) {
      HeldIsIdle(b, l, b.Enlisted(n), led, task, b.dfsList);
    } else {
      PlainLoops(b, l, b.Enlisted(n), led, task, b.dfsList);
    }
  }

  lemma TakenLoops(b: Builder, l: Loop, led: Ledger, task: Task, rest: seq<Task>)
    requires Taken(b, l, led, task, rest)
    ensures b.loopsStack == task.loops && HasOneLoop(b.graph, l)
  {
  }

  lemma NotHead(b: Builder, l: Loop, led: Ledger, task: Task, rest: seq<Task>)
    requires Taken(b, l, led, task, rest)
    ensures task.node.inst.LoopHead? <==> task.node == l.head
  {
    hide Flowgraph.Live;
    TakenIs(b, l, led, task, rest);
    var e :| e in b.graph.InEdges(task.node) && e.src == task.last;
    assert Fits(l, e);
  }

  lemma DropsFirst(g: Flowgraph, l: Loop, led: Ledger, task: Task, was: Before, before: map<Node, set<Node>>, known: map<Node, set<Node>>, passed: seq<Node>)
    requires Set(g, l, led, task, was, before, known) && Idle(g, l, led, task) && LogIs(g, passed, led)
    ensures Scheduling(g, l, was.tasks, was.reachDef, known, OneDone(led)) && LogIs(g, passed, OneDone(led))
  {
    hide Scheduling, KnownIs, Idle;
    var tasks := [task] + was.tasks;
    assert tasks[0] == task && tasks[1..] == was.tasks;
    Drops(g, l, tasks, was.reachDef, before, known, led);
  }

  lemma EndsFirst(g: Flowgraph, l: Loop, led: Ledger, task: Task, was: Before, before: map<Node, set<Node>>, known: map<Node, set<Node>>, passed: seq<Node>)
    requires Set(g, l, led, task, was, before, known) && task.node.inst.Unreachable? && LogIs(g, passed, led) && LoopsFit(l, led, task, task.loops)
    ensures var next := OneDone(Ended(l, led, task.node));
            Scheduling(g, l, was.tasks, was.reachDef, known, next) && LogIs(g, passed + [task.node], next) && next.phase == led.phase
            && FreedBy(l, led, next, task)
  {
    hide Scheduling, KnownIs;
    var tasks := [task] + was.tasks;
    assert tasks[0] == task && tasks[1..] == was.tasks;
    Ends(g, l, tasks, was.reachDef, before, known, led);
    LoggedToo(g, l, passed, led, task.node, OneDone(Ended(l, led, task.node)));
    EndedFreed(l, led, task);
  }

  // Outside the loop the instruction has been let through for good; of the
  // body, only the head and what is visited with no loop active.
  ghost predicate FreedBy(l: Loop, led: Ledger, next: Ledger, task: Task) {
    && Freed(next) <= Freed(led) + (if task.loops == [] || task.node == l.head then {task.node} else {})
    && next.free == led.free + if task.node in l.body then {} else {task.node}
  }

  lemma EndedFreed(l: Loop, led: Ledger, task: Task)
    requires LoopsFit(l, led, task, task.loops)
    ensures FreedBy(l, led, OneDone(Ended(l, led, task.node)), task)
  {
  }

  lemma PassedFreed(l: Loop, led: Ledger, task: Task, loops: seq<Node>, k: nat, sent: map<CfgEdge, ReachDefinition>)
    requires LoopsFit(l, led, task, loops)
    ensures FreedBy(l, led, Passed(l, led, task.node, loops, k, sent), task)
  {
  }

  lemma GoesOnFirst(b: Builder, l: Loop, led: Ledger, task: Task, was: Before, before: map<Node, set<Node>>, known: map<Node, set<Node>>, passed: seq<Node>,
                    sent: map<CfgEdge, ReachDefinition>) returns (next: Ledger)
    requires Set(b.graph, l, led, task, was, before, known) && LogIs(b.graph, passed, led) && GoneOn(b, was, task.node, sent)
    requires LoopsFit(l, led, task, b.loopsStack) && !task.node.inst.Unreachable? && (task.node == l.head ==> l.head in known)
    ensures Scheduling(b.graph, l, b.dfsList, b.reachDef, known, next) && LogIs(b.graph, passed + [task.node], next)
    ensures (exists k :: next == Passed(l, led, task.node, b.loopsStack, k, sent)) && FreedBy(l, led, next, task)
  {
    hide Scheduling, KnownIs, LoopsFit, GoneOn, HasOneLoop, Scheduled, Sent, LogIs, Passed, FreedBy;
    var tasks := [task] + was.tasks;
    assert tasks[0] == task && tasks[1..] == was.tasks;
    MovedIsSent(b, was, task.node, sent);
    RestAfter(b.graph, task, was.tasks, b.dfsList, b.loopsStack);
    next := GoesOn(b.graph, l, tasks, b.dfsList, was.reachDef, b.reachDef, before, known, led, b.loopsStack, sent, was.states);
    PassedSets(b.graph, l, led, task, next, b.loopsStack, sent, passed);
    var k :| next == Passed(l, led, task.node, b.loopsStack, k, sent);
    PassedFreed(l, led, task, b.loopsStack, k, sent);
  }

  lemma PassedSets(g: Flowgraph, l: Loop, led: Ledger, task: Task, next: Ledger, loops: seq<Node>, sent: map<CfgEdge, ReachDefinition>, passed: seq<Node>)
    requires (exists k :: next == Passed(l, led, task.node, loops, k, sent)) && LogIs(g, passed, led)
    ensures LogIs(g, passed + [task.node], next)
  {
    LoggedToo(g, l, passed, led, task.node, next);
  }

  // What a visit to an instruction that is no loop head has done.
  ghost predicate Done(b: Builder, was: Before, n: Node, known: map<Node, set<Node>>, held: bool, passed: seq<Node>, sent: map<CfgEdge, ReachDefinition>)
    reads b`states, b`reachDef, b`dfsList, b`loopsStack, b`loopsInsts, b`passed
  {
    && b.loopsInsts == known && b.passed == (if held then passed else passed + [n])
    && if held || n.inst.Unreachable? then b.reachDef == was.reachDef && b.dfsList == was.tasks else GoneOn(b, was, n, sent)
  }

  lemma PlainIsDone(b: Builder, was: Before, n: Node, came: map<ReachDefinition, State>, stopped: bool, joined: State, sent: map<CfgEdge, ReachDefinition>,
                    known: map<Node, set<Node>>, held: bool, passed: seq<Node>)
    requires VisitDone(b, was, n, came, stopped, joined, sent) && (stopped <==> held || n.inst.Unreachable?)
    requires b.loopsInsts == known && b.passed == if held then passed else passed + [n]
    ensures Done(b, was, n, known, held, passed, sent)
  {
    hide Builder.Moved, Builder.AllSentDiffer, Builder.Carried, JoinsAll, Adds, Builder.Marks, Builder.Current, Builder.Risen, Builder.CoversAll, Builder.AllAssured,
         Builder.Handed, WfState, Builder.OperandsLeft, Builder.ArrivedValues, Builder.AfterVisit, Accepts;
  }

  lemma AfterPlain(b: Builder, l: Loop, led: Ledger, task: Task, was: Before, before: map<Node, set<Node>>, known: map<Node, set<Node>>, held: bool,
                   passed: seq<Node>, sent: map<CfgEdge, ReachDefinition>) returns (next: Ledger)
    requires Set(b.graph, l, led, task, was, before, known) && LogIs(b.graph, passed, led) && Done(b, was, task.node, known, held, passed, sent)
    requires task.node != l.head && b.loopsStack == task.loops
    requires if held then Idle(b.graph, l, led, task) else LoopsFit(l, led, task, task.loops)
    ensures Scheduling(b.graph, l, b.dfsList, b.reachDef, b.loopsInsts, next) && LogIs(b.graph, b.passed, next) && next.phase == led.phase
    ensures if held then Freed(next) == Freed(led) && next.free == led.free else FreedBy(l, led, next, task)
  {
    hide Scheduling, KnownIs, LoopsFit, GoneOn, LogIs, Set, Idle, FreedBy;
    if held {
      next := OneDone(led);
      DropsFirst(b.graph, l, led, task, was, before, known, passed);
    } else if task.node.inst.Unreachable? {
      next := OneDone(Ended(l, led, task.node));
      EndsFirst(b.graph, l, led, task, was, before, known, passed);
    } else {
      next := GoesOnFirst(b, l, led, task, was, before, known, passed, sent);
    }
  }

  // What a visit to an instruction that is no loop head has done, and the
  // ledger after it.
  ghost predicate TookPlain(b: Builder, l: Loop, was: Before, passed: seq<Node>, led: Ledger, task: Task, next: Ledger, held: bool,
                            came: map<ReachDefinition, State>, joined: State, sent: map<CfgEdge, ReachDefinition>)
    reads *
  {
    && b.passed == (if held then passed else passed + [task.node])
    && VisitDone(b, was, task.node, came, held || task.node.inst.Unreachable?, joined, sent)
    && Within(was.edges, b.edges) && b.Risen(was.floor) && b.loopsStack == task.loops
    && next.phase == led.phase && if held then Freed(next) == Freed(led) && next.free == led.free else FreedBy(l, led, next, task)
  }

  method TakePlain(b: Builder, ghost l: Loop, ghost led: Ledger, task: Task, ghost was: Before, ghost there: set<ReachDefinition>, ghost held: bool)
    returns (ok: bool, ghost next: Ledger, ghost came: map<ReachDefinition, State>, ghost joined: State, ghost sent: map<CfgEdge, ReachDefinition>)
    requires InHand(b, l, led, task) && !task.node.inst.LoopHead?
    requires was == b.Now(task.node) && there == b.Delivered(task.node) && held == b.HeldIn(b.Enlisted(task.node), task.node)
    modifies b`edges, b`dfsList, b`reachDef, b`loopsInsts, b`defs, b`kept, b`states, b`saved, b`floor, b`passed, there, b.defs
    ensures ok && Running(b, l, next) && b.Grown() && came == old(b.Snaps(there))
    ensures TookPlain(b, l, was, old(b.passed), led, task, next, held, came, joined, sent)
    ensures task.node.inst.Unreachable? || held ==> unchanged(there)
  {
    hide Builder.Sound, Builder.Linked, Shapely, Scheduling, Taken, HasOneLoop, Builder.HeldIn, Builder.Enlisted, Takes, LogIs, Idle, Builder.Now, Set, LoopsFit, Done, VisitDone,
         Builder.Snaps, FreedBy, Builder.Risen, TookPlain;
    var n := task.node;
    ghost var before, known, passed := b.loopsInsts, b.Enlisted(n), b.passed;
    NowIs(b, was, n);
    BeforePlain(b, l, led, task);
    SetIs(b.graph, l, led, task, was, before, known);
    ghost var stopped;
    ok, stopped, came, joined, sent := VisitOther(b, n);
    PlainIsDone(b, was, n, came, stopped, joined, sent, known, held, passed);
    next := AfterPlain(b, l, led, task, was, before, known, held, passed, sent);
    IsTookPlain(b, l, was, passed, led, task, next, held, came, joined, sent);
  }

  lemma NowIs(b: Builder, was: Before, n: Node)
    requires was == b.Now(n)
    ensures was.floor == b.floor && was.edges == b.edges && was.tasks == b.dfsList && was.reachDef == b.reachDef && was.states == b.states
  {
  }

  lemma IsTookPlain(b: Builder, l: Loop, was: Before, passed: seq<Node>, led: Ledger, task: Task, next: Ledger, held: bool,
                    came: map<ReachDefinition, State>, joined: State, sent: map<CfgEdge, ReachDefinition>)
    requires b.passed == if held then passed else passed + [task.node]
    requires VisitDone(b, was, task.node, came, held || task.node.inst.Unreachable?, joined, sent)
    requires Within(was.edges, b.edges) && b.Risen(was.floor) && b.loopsStack == task.loops
    requires next.phase == led.phase && if held then Freed(next) == Freed(led) && next.free == led.free else FreedBy(l, led, next, task)
    ensures TookPlain(b, l, was, passed, led, task, next, held, came, joined, sent)
  {
    hide VisitDone, FreedBy, Builder.Risen;
  }

  lemma SetIs(g: Flowgraph, l: Loop, led: Ledger, task: Task, was: Before, before: map<Node, set<Node>>, known: map<Node, set<Node>>)
    requires Set(g, l, led, task, was, before, known)
    ensures HasOneLoop(g, l)
  {
  }

  lemma ActiveInBody(b: Builder, l: Loop, led: Ledger, task: Task)
    requires InHand(b, l, led, task) && !task.node.inst.LoopHead? && !b.HeldIn(b.Enlisted(task.node), task.node)
    ensures task.loops == [] || task.node in l.body
  {
    hide InHand, Builder.HeldIn, Set;
    BeforePlain(b, l, led, task);
  }

  lemma HandFacts(b: Builder, l: Loop, led: Ledger, task: Task)
    requires InHand(b, l, led, task)
    ensures b.Valid() && Shapely(b) && Alone(b.reachDef) && Lawful(b) && HasOneLoop(b.graph, l) && b.graph.Live(task.node) && l.head in l.body
    ensures b.graph.Live(l.head) && l.head.inst.LoopHead? && l.head != b.graph.entry && (task.node.inst.LoopHead? <==> task.node == l.head)
    ensures b.loopsStack == task.loops && b.lastNode == task.last
  {
    hide Builder.Sound, Builder.Linked, AllFit, KeptFit, TasksFit, Lawful, LogIs, Scheduling, Flowgraph.Live;
    TakenIs(b, l, led, task, b.dfsList);
    NotHead(b, l, led, task, b.dfsList);
    HeadInBody(b.graph, l);
  }

  // ----- the head of the loop -----

  lemma BeforeHead(b: Builder, l: Loop, led: Ledger, task: Task)
    requires InHand(b, l, led, task) && task.node.inst.LoopHead?
    ensures Set(b.graph, l, led, task, b.Now(task.node), b.loopsInsts, Knowing(b, task.node)) && task.node == l.head && b.loopsStack == task.loops
    ensures l.head in Knowing(b, task.node) && Taken(b, l, led, task, b.dfsList)
    ensures b.HeldIn(Knowing(b, task.node), task.node) ==> Idle(b.graph, l, led, task)
  {
    hide Builder.Sound, Builder.Linked, Shapely, Taken, LogIs, Idle, Separate, AllParts, Stacks, Builder.HeldIn, KnownIs, SetsAre, TasksAre, Waiting,
         BodyHasTasks, OthersHaveTasks, HasOneLoop, Knowing;
    WaitApart(b, b.Now(task.node), task.node);
    TakenLoops(b, l, led, task, b.dfsList);
    NotHead(b, l, led, task, b.dfsList);
    HeadKnown(b, l, led);
    if b.HeldIn(Knowing(b, l.head), l.head) {
      HeldIsIdle(b, l, Knowing(b, l.head), led, task, b.dfsList);
    }
  }

  // Stopping there changes nothing but what waits at the head.
  lemma StaysFirst(g: Flowgraph, l: Loop, led: Ledger, task: Task, was: Before, before: map<Node, set<Node>>, known: map<Node, set<Node>>, passed: seq<Node>,
                   reach: map<Node, set<ReachDefinition>>)
    requires Set(g, l, led, task, was, before, known) && LogIs(g, passed, led) && OneStays(reach, was.reachDef, l.head) && task.node == l.head
    requires (task.loops == [] || task.loops[0] != l.head) && !led.phase.Outside?
    ensures Scheduling(g, l, was.tasks, reach, known, OneDone(led)) && LogIs(g, passed + [l.head], OneDone(led))
  {
    hide KnownIs, Idle, HasOneLoop, TasksAre, Waiting, SetsAre, BodyHasTasks, OthersHaveTasks, OneStays;
    var tasks := [task] + was.tasks;
    assert tasks[0] == task && tasks[1..] == was.tasks;
    HeadInBody(g, l);
    StaysIdle(g, l, led, tasks, was.reachDef, reach);
    Drops(g, l, tasks, reach, before, known, led);
    LoggedToo(g, l, passed, led, l.head, OneDone(led));
  }

  lemma HeadInBody(g: Flowgraph, l: Loop)
    requires HasOneLoop(g, l)
    ensures l.head in l.body && l.head.inst.LoopHead? && g.Live(l.head) && l.head != g.entry
  {
    hide Flowgraph.Live;
  }

  lemma AfterHead(b: Builder, l: Loop, led: Ledger, task: Task, rest: seq<Task>, was: Before, before: map<Node, set<Node>>, known: map<Node, set<Node>>, how: Outcome,
                  passed: seq<Node>, sent: map<CfgEdge, ReachDefinition>) returns (next: Ledger)
    requires Set(b.graph, l, led, task, was, before, known) && LogIs(b.graph, passed, led) && task.node == l.head && l.head in known
    requires Became(b, was, l.head, how, task.loops, sent) && (how.New? <==> !how.Held? && led.phase.Outside?)
    requires how.Held? ==> Idle(b.graph, l, led, task)
    requires how.Stayed? ==> task.loops == [] || task.loops[0] != l.head
    requires TaskIs(b.graph, l, led, task) && (led.top > 0 ==> task.loops == if led.phase.Round? then [l.head] else [])
    requires led.phase.Outside? ==> task.loops == []
    ensures Scheduling(b.graph, l, b.dfsList, b.reachDef, known, next) && LogIs(b.graph, if how.Held? then passed else passed + [l.head], next)
    ensures (next.phase.Outside? <==> how.Held? && led.phase.Outside?) && FreedBy(l, led, next, task)
  {
    hide Scheduling, KnownIs, GoneOn, LogIs, Set, Idle, OneStays, TaskIs;
    SetIs(b.graph, l, led, task, was, before, known);
    HeadInBody(b.graph, l);
    if how.Held? {
      next := OneDone(led);
      DropsFirst(b.graph, l, led, task, was, before, known, passed);
    } else if how.Stayed? {
      next := OneDone(led);
      StaysFirst(b.graph, l, led, task, was, before, known, passed, b.reachDef);
    } else {
      HeadLoops(b.graph, l, led, task, how, b.loopsStack);
      next := GoesOnFirst(b, l, led, task, was, before, known, passed, sent);
    }
  }

  lemma EnteredThere(b: Builder, was: Before, n: Node, s: ReachDefinition, loops: map<Node, ReachDefinition>, sent: map<CfgEdge, ReachDefinition>)
    requires Entered(b, was, n, s, loops, sent)
    ensures n in b.loops
  {
  }

  lemma NoLoopYet(g: Flowgraph, l: Loop, led: Ledger, task: Task)
    requires TaskIs(g, l, led, task) && SetsAre(g, l, led) && led.phase.Outside?
    ensures task.loops == []
  {
  }

  lemma TakenSets(b: Builder, l: Loop, led: Ledger, task: Task, rest: seq<Task>)
    requires Taken(b, l, led, task, rest)
    ensures SetsAre(b.graph, l, led)
  {
  }

  lemma StaysThere(b: Builder, n: Node, stack: seq<Node>)
    ensures Leaves(b, n, stack) || stack == [] || stack[0] != n
  {
  }

  // What a visit to the head has done, and the ledger after it.
  ghost predicate TookHead(b: Builder, l: Loop, was: Before, passed: seq<Node>, loops: map<Node, ReachDefinition>, led: Ledger, task: Task, next: Ledger, how: Outcome,
                           sent: map<CfgEdge, ReachDefinition>)
    reads *
  {
    && task.node == l.head && Became(b, was, l.head, how, task.loops, sent) && KeepsOn(b, l.head, loops, was.floor)
    && b.passed == (if how == Held then passed else passed + [l.head])
    && (how == New <==> how != Held && l.head !in loops) && (how == Changed ==> Widened(b, l.head, loops, was.floor)) && (how == Held ==> b.loops == loops)
    && (next.phase.Outside? <==> how.Held? && led.phase.Outside?) && FreedBy(l, led, next, task)
  }

  lemma IsTookHead(b: Builder, l: Loop, was: Before, passed: seq<Node>, loops: map<Node, ReachDefinition>, led: Ledger, task: Task, next: Ledger, how: Outcome,
                   sent: map<CfgEdge, ReachDefinition>)
    requires task.node == l.head && Became(b, was, l.head, how, task.loops, sent) && KeepsOn(b, l.head, loops, was.floor)
    requires b.passed == if how == Held then passed else passed + [l.head]
    requires (how == New <==> how != Held && l.head !in loops) && (how == Changed ==> Widened(b, l.head, loops, was.floor)) && (how == Held ==> b.loops == loops)
    requires (next.phase.Outside? <==> how.Held? && led.phase.Outside?) && FreedBy(l, led, next, task)
    ensures TookHead(b, l, was, passed, loops, led, task, next, how, sent)
  {
    hide Became, KeepsOn, Widened, FreedBy;
  }

  method TakeHead(b: Builder, ghost l: Loop, ghost led: Ledger, task: Task, ghost was: Before, ghost there: set<ReachDefinition>, ghost held: bool,
                  ghost lefts: set<seq<Definition>>)
    returns (ok: bool, ghost next: Ledger, ghost how: Outcome, ghost ops: seq<Definition>, ghost sent: map<CfgEdge, ReachDefinition>)
    requires InHand(b, l, led, task) && task.node.inst.LoopHead?
    requires was == b.Now(task.node) && there == b.Delivered(task.node) && lefts == Lefts(b, task.node)
    requires held == b.HeldIn(Knowing(b, task.node), task.node)
    modifies b`dfsList, b`reachDef, b`loops, b`entrances, b`cache, b`loopsInsts, b`loopsStack,
             b`defs, b`kept, b`states, b`saved, b`floor, b`passed, there, b.defs
    ensures ok && Running(b, l, next) && b.Grown()
    ensures TookHead(b, l, was, old(b.passed), old(b.loops), led, task, next, how, sent)
    ensures how == Left ==> Leaves(b, l.head, task.loops)
    ensures how == Held <==> held
    ensures if how == Held then b.cache == old(b.cache) && unchanged(there)
            else OperandsWent(b, l.head, how, lefts, old(b.loops), old(b.cache), ops, sent)
  {
    hide Builder.Sound, Builder.Linked, Shapely, Scheduling, Taken, HasOneLoop, Builder.HeldIn, Knowing, Takes, LogIs, Idle, Builder.Now, Set, LoopsFit, GoneOn,
         Entered, Undropped, ReachDefinition.Snap, Noted, Enduring, OneStays, TaskIs, SetsAre, FreedBy, KeepsOn, Widened, TookHead, Leaves, OperandsWent, Lefts;
    var n := task.node;
    ghost var before, known, passed, loops, rest := b.loopsInsts, Knowing(b, n), b.passed, b.loops, b.dfsList;
    NowIs(b, was, n);
    BeforeHead(b, l, led, task);
    TakenIs(b, l, led, task, rest);
    TakenSets(b, l, led, task, rest);
    if led.phase.Outside? {
      NoLoopYet(b.graph, l, led, task);
    }
    ghost var floor := b.floor;
    ghost var s;
    ok, how, s, ops, sent := VisitLoop(b, n);
    KeptOn(b, n, loops, floor);
    if how.New? {
      EnteredThere(b, was, n, s, loops, sent);
    }
    StaysThere(b, n, task.loops);
    next := AfterHead(b, l, led, task, rest, was, before, known, how, passed, sent);
    SetIs(b.graph, l, led, task, was, before, known);
    IsTookHead(b, l, was, passed, loops, led, task, next, how, sent);
  }
}
