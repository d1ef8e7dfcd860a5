// How much is left to do: tasks are weighed by how far they can lead before
// the saved state of the loop changes, which it does not do without end.
module LoopWork {
  import opened Wrappers
  import opened DataFlow
  import opened Flowgraph
  import opened Growth
  import opened VisitLaws
  import opened ReachDefinitions
  import opened PdgBuilder
  import opened LoopVisits
  import opened BuilderRuns
  import opened OneLoop
  import opened OneLoopRuns
  import opened LoopEntry

  // ----- the weight of tasks -----

  // A task weighs more than `c` tasks of the next lower level.
  function Cost(c: nat, level: nat): (r: nat)
    ensures r > 0
  {
    if level == 0 then 1 else 1 + Times(c, Cost(c, level - 1))
  }

  // With the loop active a task leads to others with the loop active, and by
  // way of the head to others with no loop active; those lead on without it.
  function Level(l: Loop, top: nat, t: Task): nat {
    var ahead := if l.rank(t.node) <= top then top - l.rank(t.node) else 0;
    if t.loops == [] then (if t.node == l.head && t.last in l.body then 0 else ahead + 1)
    else if t.node == l.head then top + 2 else ahead + top + 3
  }

  function Weight(l: Loop, top: nat, c: nat, tasks: seq<Task>): nat {
    if tasks == [] then 0 else Cost(c, Level(l, top, tasks[0])) + Weight(l, top, c, tasks[1..])
  }

  lemma {:induction false} CostRises(c: nat, level: nat, more: nat)
    requires level <= more && c > 0
    ensures Cost(c, level) <= Cost(c, more)
    decreases more
  {
    if level < more {
      CostRises(c, level, more - 1);
      assert Times(c, Cost(c, more - 1)) >= Cost(c, more - 1);
    }
  }

  lemma {:induction false} WeightTogether(l: Loop, top: nat, c: nat, some: seq<Task>, rest: seq<Task>)
    ensures Weight(l, top, c, some + rest) == Weight(l, top, c, some) + Weight(l, top, c, rest)
  {
    if some == [] {
      assert some + rest == rest;
    } else {
      assert (some + rest)[1..] == some[1..] + rest;
      WeightTogether(l, top, c, some[1..], rest);
    }
  }

  lemma {:induction false} LowWeight(l: Loop, top: nat, c: nat, tasks: seq<Task>, level: nat)
    requires c > 0 && forall t :: t in tasks ==> Level(l, top, t) <= level
    ensures Weight(l, top, c, tasks) <= Times(|tasks|, Cost(c, level))
  {
    if tasks != [] {
      LowWeight(l, top, c, tasks[1..], level);
      assert tasks[0] in tasks;
      CostRises(c, Level(l, top, tasks[0]), level);
      Distributes(1, |tasks| - 1, Cost(c, level));
    }
  }

  lemma {:induction false} ListSize(order: seq<CfgEdge>, edges: set<CfgEdge>)
    requires Lists(order, edges)
    ensures |order| == |edges|
    decreases |order|
  {
    if order != [] {
      assert order[0] in edges;
      forall e
        ensures e in order[1..] <==> e in edges - {order[0]}
      {
        if e in order && e != order[0] {
          var i :| 0 <= i < |order| && order[i] == e;
          assert order[1..][i - 1] == e;
        }
      }
      ListSize(order[1..], edges - {order[0]});
    } else {
      assert edges == {};
    }
  }

  lemma TimesMore(a: nat, b: nat, c: nat)
    requires a <= b
    ensures Times(a, c) <= Times(b, c)
  {
  }

  lemma NewWeight(l: Loop, top: nat, c: nat, order: seq<CfgEdge>, n: Node, loops: seq<Node>, level: nat)
    requires 0 < |order| <= c && forall i :: 0 <= i < |order| ==> Level(l, top, Task(order[i].dst, loops, n)) < level
    ensures level > 0 && Weight(l, top, c, TasksOf(order, n, loops)) < Cost(c, level)
  {
    hide Level, Times, Weight;
    var some := TasksOf(order, n, loops);
    assert Level(l, top, Task(order[0].dst, loops, n)) < level;
    LowWeight(l, top, c, some, level - 1);
    TimesMore(|some|, c, Cost(c, level - 1));
  }

  // New tasks of lower levels weigh less than the one they come from.
  lemma WeightAfter(g: Flowgraph, l: Loop, top: nat, tasks: seq<Task>, after: seq<Task>, n: Node, loops: seq<Node>)
    requires TasksAfter(g, tasks, after, n, loops)
    requires forall e :: e in g.OutEdges(n) ==> Level(l, top, Task(e.dst, loops, n)) < Level(l, top, tasks[0])
    ensures Weight(l, top, |g.cfg|, after) < Weight(l, top, |g.cfg|, tasks)
  {
    hide Level, Cost, Lists, TasksOf;
    var c := |g.cfg|;
    var order: seq<CfgEdge> :| Lists(order, g.OutEdges(n)) && after == TasksOf(order, n, loops) + tasks[1..];
    ListSize(order, g.OutEdges(n));
    Fewer(g.OutEdges(n), g.cfg);
    WeightTogether(l, top, c, TasksOf(order, n, loops), tasks[1..]);
    OrderIn(order, g.OutEdges(n));
    if order != [] {
      NewWeight(l, top, c, order, n, loops, Level(l, top, tasks[0]));
    }
  }

  lemma OrderIn(order: seq<CfgEdge>, edges: set<CfgEdge>)
    requires Lists(order, edges)
    ensures forall i :: 0 <= i < |order| ==> order[i] in edges
  {
  }

  lemma WeightAway(l: Loop, top: nat, c: nat, tasks: seq<Task>)
    requires tasks != []
    ensures Weight(l, top, c, tasks[1..]) < Weight(l, top, c, tasks)
  {
  }

  // ----- the levels of new tasks -----

  // No instruction comes later than `top`.
  ghost predicate Highest(g: Flowgraph, l: Loop, top: nat) {
    forall e :: e in g.cfg ==> l.rank(e.src) <= top && l.rank(e.dst) <= top
  }

  lemma HasHighest(g: Flowgraph, l: Loop) returns (top: nat)
    ensures Highest(g, l, top)
  {
    top := 0;
    var todo := g.cfg;
    while todo != {}
      invariant todo <= g.cfg && forall e :: e in g.cfg - todo ==> l.rank(e.src) <= top && l.rank(e.dst) <= top
      decreases todo
    {
      var e :| e in todo;
      top := if l.rank(e.src) > top then l.rank(e.src) else top;
      top := if l.rank(e.dst) > top then l.rank(e.dst) else top;
      todo := todo - {e};
    }
  }

  lemma PlainLevels(g: Flowgraph, l: Loop, led: Ledger, top: nat, t: Task)
    requires HasOneLoop(g, l) && TaskIs(g, l, led, t) && Highest(g, l, top) && t.node != l.head && !t.node.inst.Unreachable?
    requires t.loops != [] ==> t.node in l.body
    ensures forall e :: e in g.OutEdges(t.node) ==> Level(l, top, Task(e.dst, t.loops, t.node)) < Level(l, top, t)
  {
    hide Flowgraph.Live;
    var f :| f in g.InEdges(t.node) && f.src == t.last;
    forall e | e in g.OutEdges(t.node)
      ensures Level(l, top, Task(e.dst, t.loops, t.node)) < Level(l, top, t)
    {
      g.FlowKeepsLive(e);
      assert Fits(l, e);
    }
  }

  // The head is left with no loop active: by way of a task from inside that
  // had the loop active, or by one from outside.
  lemma HeadLevels(g: Flowgraph, l: Loop, led: Ledger, top: nat, t: Task)
    requires HasOneLoop(g, l) && TaskIs(g, l, led, t) && Highest(g, l, top) && t.node == l.head && (t.loops == [] ==> t.last !in l.body)
    ensures forall e :: e in g.OutEdges(l.head) ==> Level(l, top, Task(e.dst, [], l.head)) < Level(l, top, t)
  {
    hide Flowgraph.Live;
    var f :| f in g.InEdges(t.node) && f.src == t.last;
    forall e | e in g.OutEdges(l.head)
      ensures Level(l, top, Task(e.dst, [], l.head)) < Level(l, top, t)
    {
      g.FlowKeepsLive(e);
      assert Fits(l, e);
    }
  }

  // ----- how often the saved state can still change -----

  ghost function Rounds(b: Builder, l: Loop, loops: map<Node, ReachDefinition>, floor: map<Definition, set<Node>>): int
    reads loops.Values
  {
    Bound(b.shape(l.head), b.graph.Origins()) + 1 - if l.head in loops then 1 + |Noted(floor, loops[l.head])| else 0
  }

  lemma RoundsLeft(b: Builder, l: Loop)
    requires b.Valid() && KeptFit(b, b.loops, b.cache)
    ensures Rounds(b, l, b.loops, b.floor) >= 0
  {
    hide Builder.Sound, Builder.Linked, Noted, Bound, Enduring;
    if l.head in b.loops {
      KeptSizes(b, l.head);
      NotedBounded(b, l.head);
    }
  }

  // Before a task: how often the saved state can still change, and the weight
  // of the tasks. After it one of them is less.
  ghost predicate Less(b: Builder, l: Loop, top: nat, loops: map<Node, ReachDefinition>, floor: map<Definition, set<Node>>, tasks: seq<Task>)
    reads b`loops, b`floor, b`dfsList, b.loops.Values, loops.Values
  {
    var before, now := Rounds(b, l, loops, floor), Rounds(b, l, b.loops, b.floor);
    now < before || (now == before && Weight(l, top, |b.graph.cfg|, b.dfsList) < Weight(l, top, |b.graph.cfg|, tasks))
  }

  lemma SameRounds(b: Builder, l: Loop, floor: map<Definition, set<Node>>)
    requires b.Risen(floor)
    ensures Rounds(b, l, b.loops, b.floor) <= Rounds(b, l, b.loops, floor)
  {
    hide Noted, Bound;
    if l.head in b.loops {
      NotedMore(floor, b.floor, b.loops[l.head]);
      Fewer(Noted(floor, b.loops[l.head]), Noted(b.floor, b.loops[l.head]));
    }
  }

  lemma PlainWork(b: Builder, l: Loop, top: nat, was: Before, passed: seq<Node>, led: Ledger, task: Task, next: Ledger, held: bool,
                  came: map<ReachDefinition, State>, joined: State, sent: map<CfgEdge, ReachDefinition>)
    requires HasOneLoop(b.graph, l) && TaskIs(b.graph, l, led, task) && Highest(b.graph, l, top) && task.node != l.head
    requires TookPlain(b, l, was, passed, led, task, next, held, came, joined, sent) && (held || task.loops == [] || task.node in l.body)
    ensures Less(b, l, top, b.loops, was.floor, [task] + was.tasks)
  {
    hide HasOneLoop, TaskIs, VisitDone, GoneOn, Rounds, Level, Cost, Builder.Risen, FreedBy, Highest;
    SameRounds(b, l, was.floor);
    var tasks := [task] + was.tasks;
    assert tasks[1..] == was.tasks && tasks[0] == task;
    if held || task.node.inst.Unreachable? {
      HasStopped(b, was, task.node, came, joined, sent);
      WeightAway(l, top, |b.graph.cfg|, tasks);
    } else {
      HasGoneOn(b, was, task.node, came, joined, sent);
      GoneFacts(b, was, task, sent);
      PlainLevels(b.graph, l, led, top, task);
      WeightAfter(b.graph, l, top, tasks, b.dfsList, task.node, task.loops);
    }
  }

  lemma FirstRound(b: Builder, l: Loop, loops: map<Node, ReachDefinition>, floor: map<Definition, set<Node>>)
    requires l.head in b.loops && l.head !in loops
    ensures Rounds(b, l, b.loops, b.floor) < Rounds(b, l, loops, floor)
  {
    hide Noted, Bound;
  }

  lemma NextRound(b: Builder, l: Loop, loops: map<Node, ReachDefinition>, floor: map<Definition, set<Node>>)
    requires Widened(b, l.head, loops, floor) && b.loops[l.head].stack == loops[l.head].stack && b.loops[l.head].Size() == loops[l.head].Size()
    ensures Rounds(b, l, b.loops, b.floor) < Rounds(b, l, loops, floor)
  {
    hide Noted, Bound;
    Fewer(Noted(floor, loops[l.head]), Noted(b.floor, b.loops[l.head]));
  }

  lemma HeadWork(b: Builder, l: Loop, top: nat, was: Before, passed: seq<Node>, loops: map<Node, ReachDefinition>, led: Ledger, task: Task, next: Ledger,
                 how: Outcome, sent: map<CfgEdge, ReachDefinition>)
    requires HasOneLoop(b.graph, l) && TaskIs(b.graph, l, led, task) && Highest(b.graph, l, top)
    requires TookHead(b, l, was, passed, loops, led, task, next, how, sent) && (how != Held ==> l.head in b.loops)
    requires how == Changed ==> b.loops[l.head].stack == loops[l.head].stack && b.loops[l.head].Size() == loops[l.head].Size()
    requires how == Left ==> task.loops != [] || task.last !in l.body
    requires how == Left || how == Stayed ==> b.loops == loops
    ensures Less(b, l, top, loops, was.floor, [task] + was.tasks)
  {
    hide HasOneLoop, TaskIs, GoneOn, Rounds, Level, Cost, FreedBy, Highest, Noted, Widened;
    var tasks := [task] + was.tasks;
    assert tasks[1..] == was.tasks && tasks[0] == task;
    if how == New {
      FirstRound(b, l, loops, was.floor);
    } else if how == Changed {
      NextRound(b, l, loops, was.floor);
    } else {
      SameRounds(b, l, was.floor);
      if how == Left {
        GoneFacts(b, was, task, sent);
        HeadActive(b.graph, l, led, task);
        HeadLevels(b.graph, l, led, top, task);
        WeightAfter(b.graph, l, top, tasks, b.dfsList, l.head, []);
      } else {
        WeightAway(l, top, |b.graph.cfg|, tasks);
      }
    }
  }

  lemma HeadActive(g: Flowgraph, l: Loop, led: Ledger, task: Task)
    requires TaskIs(g, l, led, task)
    ensures WithoutLoop(task.loops, l.head) == []
  {
    hide Flowgraph.Live;
  }
}
