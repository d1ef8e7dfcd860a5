// Ahead of the loop every instruction is visited once, and so is the way into
// the loop. Where control does not come back to the head, nothing behind the
// loop is ever visited.
module LoopEntry {
  import opened Wrappers
  import opened DataFlow
  import opened Flowgraph
  import opened Provenance
  import opened VisitLaws
  import opened Growth
  import opened ReachDefinitions
  import opened PdgBuilder
  import opened LoopVisits
  import opened BuilderRuns
  import opened OneLoop
  import opened OneLoopRuns

  // ----- ahead of the loop -----

  predicate Ahead(l: Loop, n: Node) {
    l.rank(n) < l.rank(l.head)
  }

  // The edges into `n` that have delivered.
  ghost function Come(g: Flowgraph, free: set<Node>, n: Node): set<CfgEdge> {
    set e | e in g.InEdges(n) && Runs(free, e.src)
  }

  // No more waits than edges have delivered; nothing, once all have and it has
  // gone on.
  ghost predicate OnceAt(g: Flowgraph, reach: map<Node, set<ReachDefinition>>, free: set<Node>, n: Node, gone: bool) {
    if gone then Among(reach, n) == {} && Come(g, free, n) == g.InEdges(n)
    else |Among(reach, n)| <= |Come(g, free, n)|
  }

  ghost predicate Once(g: Flowgraph, l: Loop, reach: map<Node, set<ReachDefinition>>, free: set<Node>) {
    forall n :: g.Live(n) && n != g.entry && Ahead(l, n) && !n.inst.Unreachable? ==> OnceAt(g, reach, free, n, n in free)
  }

  lemma {:induction false} ArrivingIsSmall(sent: map<CfgEdge, ReachDefinition>, m: Node, es: set<CfgEdge>)
    requires forall e :: e in sent && e.dst == m ==> e in es
    ensures |Builder.Arriving(sent, m)| <= |es|
    decreases es
  {
    if es == {} {
      assert Builder.Arriving(sent, m) == {};
    } else {
      var e :| e in es;
      ArrivingIsSmall(sent - {e}, m, es - {e});
      var less := Builder.Arriving(sent - {e}, m);
      if e in sent && e.dst == m {
        forall t
          ensures t in Builder.Arriving(sent, m) <==> t in less + {sent[e]}
        {
          if t in Builder.Arriving(sent, m) && t != sent[e] {
            var f :| f in sent && f.dst == m && sent[f] == t;
            assert f in sent - {e};
          }
        }
        assert Builder.Arriving(sent, m) == less + {sent[e]};
      } else {
        assert forall f :: f in sent && f.dst == m <==> f in sent - {e} && f.dst == m;
        assert Builder.Arriving(sent, m) == less;
      }
    }
  }

  // More of the edges have delivered, and their states have been added.
  lemma OnceMore(g: Flowgraph, before: map<Node, set<ReachDefinition>>, reach: map<Node, set<ReachDefinition>>, free: set<Node>, n: Node, m: Node,
                 sent: map<CfgEdge, ReachDefinition>, gone: bool)
    requires OnceAt(g, before, free, m, gone) && sent.Keys == g.OutEdges(n) && n !in free && !n.inst.Unreachable?
    requires Among(reach, m) == Among(before, m) + Builder.Arriving(sent, m)
    ensures OnceAt(g, reach, free + {n}, m, gone)
  {
    var more := set e | e in g.InEdges(m) && e.src == n;
    assert Come(g, free + {n}, m) == Come(g, free, m) + more && Come(g, free, m) !! more;
    ArrivingIsSmall(sent, m, more);
    if gone {
      assert more == {};
    }
  }

  // What leads nowhere near makes no difference.
  lemma OnceStill(g: Flowgraph, before: map<Node, set<ReachDefinition>>, reach: map<Node, set<ReachDefinition>>, free: set<Node>, more: set<Node>, n: Node, m: Node,
                  sent: map<CfgEdge, ReachDefinition>, gone: bool)
    requires OnceAt(g, before, free, m, gone) && sent.Keys == g.OutEdges(n) && free <= more <= free + {n}
    requires forall e :: e in g.InEdges(m) ==> e.src != n
    requires Among(reach, m) == Among(before, m) + Builder.Arriving(sent, m)
    ensures OnceAt(g, reach, more, m, gone)
  {
    assert Builder.Arriving(sent, m) == {} by {
      assert forall e :: e in sent && e.dst == m ==> e in g.InEdges(m);
    }
    assert Come(g, more, m) == Come(g, free, m);
  }

  // It had all that it waited for, and has gone on.
  lemma OnceGone(g: Flowgraph, before: map<Node, set<ReachDefinition>>, reach: map<Node, set<ReachDefinition>>, free: set<Node>, more: set<Node>, n: Node)
    requires OnceAt(g, before, free, n, false) && |Among(before, n)| >= |g.InEdges(n)| && Among(reach, n) == {} && free <= more
    ensures OnceAt(g, reach, more, n, true)
  {
    Fewer(Come(g, free, n), g.InEdges(n));
  }

  lemma {:induction false} BodyIsBehind(g: Flowgraph, l: Loop, n: Node)
    requires HasOneLoop(g, l) && g.Live(n) && n in l.body
    ensures l.rank(l.head) <= l.rank(n)
    decreases l.rank(n)
  {
    if n != l.head {
      hide Flowgraph.Live;
      g.LiveHasFlow(n);
      var e :| e in g.InEdges(n) && g.Live(e.src) && !e.src.inst.Unreachable?;
      assert Fits(l, e);
      BodyIsBehind(g, l, e.src);
    }
  }

  // An instruction ahead of the loop that is let through has not been before.
  ghost predicate HasAll(g: Flowgraph, l: Loop, before: map<Node, set<ReachDefinition>>, free: set<Node>, n: Node) {
    Ahead(l, n) ==> n !in free && |Among(before, n)| >= |g.InEdges(n)|
  }

  ghost predicate Leads(g: Flowgraph, l: Loop, n: Node) {
    forall e :: e in g.OutEdges(n) && g.Live(e.dst) && (Ahead(l, e.dst) || (e.dst == l.head && n !in l.body)) ==> Ahead(l, n)
  }

  lemma LeadsOn(g: Flowgraph, l: Loop, n: Node)
    requires HasOneLoop(g, l) && g.Live(n)
    ensures Leads(g, l, n)
    ensures n in l.body ==> !Ahead(l, n)
  {
    hide Flowgraph.Live;
    if n in l.body {
      BodyIsBehind(g, l, n);
    }
    forall e | e in g.OutEdges(n) && g.Live(e.dst) && (Ahead(l, e.dst) || (e.dst == l.head && n !in l.body))
      ensures Ahead(l, n)
    {
      assert Fits(l, e);
      if e.dst == l.head && Back(l, e) {
        MembersInBody(g, l, n);
      }
    }
  }

  lemma MembersInBody(g: Flowgraph, l: Loop, n: Node)
    requires HasOneLoop(g, l) && g.Live(n) && n in l.members
    ensures n in l.body
  {
  }

  // States have gone on from `n`.
  lemma OnceOn(g: Flowgraph, l: Loop, before: map<Node, set<ReachDefinition>>, reach: map<Node, set<ReachDefinition>>, free: set<Node>, n: Node,
               sent: map<CfgEdge, ReachDefinition>)
    requires HasOneLoop(g, l) && Once(g, l, before, free) && g.Live(n) && n != g.entry && !n.inst.Unreachable? && HasAll(g, l, before, free, n)
    requires sent.Keys == g.OutEdges(n) && Among(reach, n) == {} && forall m :: m != n ==> Among(reach, m) == Among(before, m) + Builder.Arriving(sent, m)
    ensures Once(g, l, reach, free + if n in l.body then {} else {n})
  {
    hide Flowgraph.Live, HasOneLoop, OnceAt;
    LeadsOn(g, l, n);
    var more := free + if n in l.body then {} else {n};
    forall m | g.Live(m) && m != g.entry && Ahead(l, m) && !m.inst.Unreachable?
      ensures OnceAt(g, reach, more, m, m in more)
    {
      if m == n {
        OnceGone(g, before, reach, free, more, n);
      } else if Ahead(l, n) {
        OnceMore(g, before, reach, free, n, m, sent, m in free);
      } else {
        assert forall e :: e in g.InEdges(m) && e.src == n ==> e in g.OutEdges(n);
        OnceStill(g, before, reach, free, more, n, m, sent, m in free);
      }
    }
  }

  // One that has gone on is held back from then on.
  lemma HasAllThere(b: Builder, l: Loop, led: Ledger, task: Task, known: map<Node, set<Node>>)
    requires b.graph.Live(task.node) && task.node != b.graph.entry && !task.node.inst.Unreachable? && !task.node.inst.LoopHead?
    requires Once(b.graph, l, b.reachDef, led.free) && !b.HeldIn(known, task.node) && exists e :: e in b.graph.InEdges(task.node)
    ensures HasAll(b.graph, l, b.reachDef, led.free, task.node)
  {
    hide Flowgraph.Live;
    if Ahead(l, task.node) {
      var e :| e in b.graph.InEdges(task.node);
      Fewer({e}, b.graph.InEdges(task.node));
      assert OnceAt(b.graph, b.reachDef, led.free, task.node, task.node in led.free);
    }
  }

  // ----- loops that control does not come back in -----

  // All that leads there comes through the loop.
  ghost predicate Beyond(g: Flowgraph, l: Loop, n: Node)
    decreases l.rank(n)
  {
    && n !in l.body && n != g.entry && g.InEdges(n) != {}
    && forall e :: e in g.InEdges(n) ==> e.src in l.body || (l.rank(e.src) < l.rank(n) && Beyond(g, l, e.src))
  }

  // Only what comes without the loop is visited with no loop active.
  ghost predicate Shut(g: Flowgraph, l: Loop, tasks: seq<Task>, passed: seq<Node>) {
    && (forall t :: t in tasks && t.loops == [] ==> t.last !in l.body && !Beyond(g, l, t.last))
    && forall n :: n in passed ==> !Beyond(g, l, n)
  }

  // Nothing has come to the head yet but along the edges into the loop; once
  // it has been entered, nothing more comes along them.
  ghost predicate HeadAt(g: Flowgraph, l: Loop, reach: map<Node, set<ReachDefinition>>, led: Ledger) {
    if led.phase.Outside? then OnceAt(g, reach, led.free, l.head, false)
    else (forall e :: e in EntryEdges(g, l) ==> Runs(led.free, e.src)) && (!Closes(g, l) ==> Among(reach, l.head) == {})
  }

  // What is known of the way into the loop, and in a loop that control does not
  // come back in of what is behind it.
  ghost predicate Entering(g: Flowgraph, l: Loop, tasks: seq<Task>, reach: map<Node, set<ReachDefinition>>, passed: seq<Node>, led: Ledger) {
    Once(g, l, reach, led.free) && HeadAt(g, l, reach, led) && (!Closes(g, l) ==> Shut(g, l, tasks, passed))
  }

  lemma ShutStays(g: Flowgraph, l: Loop, tasks: seq<Task>, rest: seq<Task>, passed: seq<Node>)
    requires Shut(g, l, tasks, passed) && forall t :: t in rest ==> t in tasks
    ensures Shut(g, l, rest, passed)
  {
    hide Beyond;
  }

  // A visit with no loop active comes from what comes without the loop.
  lemma NotBeyond(g: Flowgraph, l: Loop, led: Ledger, tasks: seq<Task>, passed: seq<Node>, task: Task)
    requires HasOneLoop(g, l) && TaskIs(g, l, led, task) && Shut(g, l, tasks, passed) && task in tasks && (task.loops != [] ==> task.node in l.body)
    ensures !Beyond(g, l, task.node) && (task.loops == [] && task.node != l.head ==> task.node !in l.body)
  {
    hide Flowgraph.Live;
    var e :| e in g.InEdges(task.node) && e.src == task.last;
    assert Fits(l, e);
  }

  lemma ShutAfter(g: Flowgraph, l: Loop, tasks: seq<Task>, after: seq<Task>, passed: seq<Node>, n: Node, loops: seq<Node>)
    requires Shut(g, l, tasks, passed) && TasksAfter(g, tasks, after, n, loops) && !Beyond(g, l, n) && (loops == [] ==> n !in l.body)
    ensures Shut(g, l, after, passed + [n])
  {
    hide Beyond, Scheduled;
    var k := NewTasks(g, tasks, after, n, loops);
    forall i | 0 <= i < |after| && after[i].loops == []
      ensures after[i].last !in l.body && !Beyond(g, l, after[i].last)
    {
      if i >= k {
        Moved(tasks, after, k, i - k + 1);
        assert tasks[i - k + 1] in tasks;
      }
    }
  }

  // ----- one task -----

  lemma SameCome(g: Flowgraph, reach: map<Node, set<ReachDefinition>>, free: set<Node>, n: Node, m: Node, gone: bool)
    requires OnceAt(g, reach, free, m, gone) && n.inst.Unreachable?
    ensures OnceAt(g, reach, free + {n}, m, gone)
  {
    assert Come(g, free + {n}, m) == Come(g, free, m);
  }

  lemma EndsOnce(g: Flowgraph, l: Loop, reach: map<Node, set<ReachDefinition>>, free: set<Node>, n: Node)
    requires Once(g, l, reach, free) && n.inst.Unreachable?
    ensures Once(g, l, reach, free + {n})
  {
    hide OnceAt, Flowgraph.Live;
    forall m | g.Live(m) && m != g.entry && Ahead(l, m) && !m.inst.Unreachable?
      ensures OnceAt(g, reach, free + {n}, m, m in free + {n})
    {
      SameCome(g, reach, free, n, m, m in free);
    }
  }

  // Nothing has gone on.
  lemma StopEnters(b: Builder, l: Loop, was: Before, passed: seq<Node>, led: Ledger, task: Task, next: Ledger, held: bool)
    requires Entering(b.graph, l, [task] + was.tasks, was.reachDef, passed, led) && b.reachDef == was.reachDef && b.dfsList == was.tasks
    requires (next.phase.Outside? <==> led.phase.Outside?) && b.passed == if held then passed else passed + [task.node]
    requires if held then next.free == led.free else next.free == led.free || (task.node.inst.Unreachable? && next.free == led.free + {task.node})
    requires !held && !Closes(b.graph, l) ==> !Beyond(b.graph, l, task.node)
    ensures Entering(b.graph, l, b.dfsList, b.reachDef, b.passed, next)
  {
    hide OnceAt, Once, Flowgraph.Live, Beyond;
    var tasks := [task] + was.tasks;
    assert forall t :: t in was.tasks ==> t in tasks;
    if next.free != led.free {
      EndsOnce(b.graph, l, was.reachDef, led.free, task.node);
      if led.phase.Outside? {
        SameCome(b.graph, was.reachDef, led.free, task.node, l.head, false);
      }
    }
  }

  lemma FromOutside(g: Flowgraph, l: Loop, e: CfgEdge)
    requires HasOneLoop(g, l) && g.Live(l.head) && g.Live(e.src) && e in g.InEdges(l.head) && e.src !in l.body
    ensures e in EntryEdges(g, l) && Ahead(l, e.src)
  {
    hide Flowgraph.Live;
    assert Fits(l, e);
    if e.src in l.members {
      MembersInBody(g, l, e.src);
    }
  }

  // Once the loop has been entered, nothing that is let through leads to its
  // head from outside.
  lemma NoWayIn(g: Flowgraph, l: Loop, reach: map<Node, set<ReachDefinition>>, free: set<Node>, n: Node)
    requires HasOneLoop(g, l) && g.Live(l.head) && g.Live(n) && n !in l.body && HasAll(g, l, reach, free, n)
    requires forall e :: e in EntryEdges(g, l) ==> Runs(free, e.src)
    ensures forall e :: e in g.InEdges(l.head) ==> e.src != n
  {
    hide Flowgraph.Live, HasOneLoop;
    forall e | e in g.InEdges(l.head)
      ensures e.src == n ==> e in EntryEdges(g, l) && Ahead(l, n)
    {
      if e.src == n {
        FromOutside(g, l, e);
      }
    }
  }

  // The way into the loop, when an instruction elsewhere has gone on.
  lemma HeadOnce(g: Flowgraph, l: Loop, before: map<Node, set<ReachDefinition>>, reach: map<Node, set<ReachDefinition>>, led: Ledger, n: Node,
                 sent: map<CfgEdge, ReachDefinition>, next: Ledger)
    requires HasOneLoop(g, l) && HeadAt(g, l, before, led) && g.Live(n) && g.Live(l.head) && n != l.head && !n.inst.Unreachable? && HasAll(g, l, before, led.free, n)
    requires sent.Keys == g.OutEdges(n) && Among(reach, l.head) == Among(before, l.head) + Builder.Arriving(sent, l.head) && (n in l.body ==> !led.phase.Outside?)
    requires next.phase == led.phase && next.free == led.free + if n in l.body then {} else {n}
    ensures HeadAt(g, l, reach, next)
  {
    hide Flowgraph.Live, OnceAt, HasOneLoop;
    if led.phase.Outside? {
      LeadsOn(g, l, n);
      if Ahead(l, n) {
        OnceMore(g, before, reach, led.free, n, l.head, sent, false);
      } else {
        assert forall e :: e in g.InEdges(l.head) && e.src == n ==> e in g.OutEdges(n);
        OnceStill(g, before, reach, led.free, next.free, n, l.head, sent, false);
      }
    } else if !Closes(g, l) {
      NoneFrom(g, l, before, led.free, n);
      assert forall e :: e in sent && e.dst == l.head ==> e in g.InEdges(l.head);
      assert Builder.Arriving(sent, l.head) == {};
    }
  }

  lemma NoneFrom(g: Flowgraph, l: Loop, reach: map<Node, set<ReachDefinition>>, free: set<Node>, n: Node)
    requires HasOneLoop(g, l) && g.Live(l.head) && g.Live(n) && HasAll(g, l, reach, free, n) && !Closes(g, l)
    requires forall e :: e in EntryEdges(g, l) ==> Runs(free, e.src)
    ensures forall e :: e in g.InEdges(l.head) ==> e.src != n
  {
    hide Flowgraph.Live;
    NoneBack(g, l);
    if n in l.body {
      forall e | e in g.InEdges(l.head)
        ensures e.src != n
      {
        assert Fits(l, e);
      }
    } else {
      NoWayIn(g, l, reach, free, n);
    }
  }

  lemma NoneBack(g: Flowgraph, l: Loop)
    requires !Closes(g, l)
    ensures forall e :: e in g.InEdges(l.head) ==> e.src !in l.members
  {
    assert forall e :: e in g.InEdges(l.head) && e.src in l.members ==> e in BackEdges(g, l);
  }

  lemma GoneFacts(b: Builder, was: Before, task: Task, sent: map<CfgEdge, ReachDefinition>)
    requires GoneOn(b, was, task.node, sent)
    ensures sent.Keys == b.graph.OutEdges(task.node) && Among(b.reachDef, task.node) == {}
    ensures forall m :: m != task.node ==> Among(b.reachDef, m) == Among(was.reachDef, m) + Builder.Arriving(sent, m)
    ensures TasksAfter(b.graph, [task] + was.tasks, b.dfsList, task.node, b.loopsStack)
  {
    hide Scheduled;
    assert ([task] + was.tasks)[1..] == was.tasks;
    forall m | m != task.node
      ensures Among(b.reachDef, m) == Among(was.reachDef, m) + Builder.Arriving(sent, m)
    {
      assert b.Delivered(m) == Among(b.reachDef, m);
    }
  }

  lemma PassEnters(b: Builder, l: Loop, was: Before, passed: seq<Node>, led: Ledger, task: Task, next: Ledger, sent: map<CfgEdge, ReachDefinition>)
    requires HasOneLoop(b.graph, l) && SetsAre(b.graph, l, led) && TaskIs(b.graph, l, led, task)
    requires task.node != l.head && task.node != b.graph.entry && !task.node.inst.Unreachable?
    requires Entering(b.graph, l, [task] + was.tasks, was.reachDef, passed, led) && GoneOn(b, was, task.node, sent) && next.phase == led.phase
    requires b.passed == passed + [task.node] && b.loopsStack == task.loops && HasAll(b.graph, l, was.reachDef, led.free, task.node)
    requires next.free == (led.free + if task.node in l.body then {} else {task.node}) && (task.loops != [] ==> task.node in l.body)
    requires b.graph.Live(l.head)
    ensures Entering(b.graph, l, b.dfsList, b.reachDef, b.passed, next)
  {
    hide HasOneLoop, TaskIs, Flowgraph.Live, OnceAt, Once, Shut, GoneOn, HasAll, Beyond, Scheduled, HeadAt, SetsAre;
    var n := task.node;
    GoneFacts(b, was, task, sent);
    TaskLive(b.graph, l, led, task);
    OnceOn(b.graph, l, was.reachDef, b.reachDef, led.free, n, sent);
    SetsAfter(b.graph, l, led, task, [], 0, map[]);
    HeadOnce(b.graph, l, was.reachDef, b.reachDef, led, n, sent, next);
    if !Closes(b.graph, l) {
      assert task in [task] + was.tasks;
      NotBeyond(b.graph, l, led, [task] + was.tasks, passed, task);
      ShutAfter(b.graph, l, [task] + was.tasks, b.dfsList, passed, n, task.loops);
    }
  }

  lemma TaskLive(g: Flowgraph, l: Loop, led: Ledger, task: Task)
    requires TaskIs(g, l, led, task)
    ensures g.Live(task.node) && exists e :: e in g.InEdges(task.node)
  {
    hide Flowgraph.Live;
  }

  // One visit to an instruction that is no loop head.
  lemma PlainEnters(b: Builder, l: Loop, was: Before, passed: seq<Node>, led: Ledger, task: Task, next: Ledger, held: bool, came: map<ReachDefinition, State>,
                    joined: State, sent: map<CfgEdge, ReachDefinition>)
    requires HasOneLoop(b.graph, l) && SetsAre(b.graph, l, led) && TaskIs(b.graph, l, led, task) && task.node != l.head && b.graph.Live(l.head)
    requires TookPlain(b, l, was, passed, led, task, next, held, came, joined, sent) && Entering(b.graph, l, [task] + was.tasks, was.reachDef, passed, led)
    requires !held ==> (task.loops != [] ==> task.node in l.body)
    requires !held && !task.node.inst.Unreachable? ==> task.node != b.graph.entry && HasAll(b.graph, l, was.reachDef, led.free, task.node)
    ensures Entering(b.graph, l, b.dfsList, b.reachDef, b.passed, next)
  {
    hide HasOneLoop, SetsAre, TaskIs, Flowgraph.Live, Entering, VisitDone, GoneOn, HasAll, Beyond;
    if held || task.node.inst.Unreachable? {
      HasStopped(b, was, task.node, came, joined, sent);
      if !held && !Closes(b.graph, l) {
        IsShut(b.graph, l, [task] + was.tasks, was.reachDef, passed, led);
        assert task in [task] + was.tasks;
        NotBeyond(b.graph, l, led, [task] + was.tasks, passed, task);
      }
      StopEnters(b, l, was, passed, led, task, next, held);
    } else {
      HasGoneOn(b, was, task.node, came, joined, sent);
      PassEnters(b, l, was, passed, led, task, next, sent);
    }
  }

  lemma IsShut(g: Flowgraph, l: Loop, tasks: seq<Task>, reach: map<Node, set<ReachDefinition>>, passed: seq<Node>, led: Ledger)
    requires Entering(g, l, tasks, reach, passed, led) && !Closes(g, l)
    ensures Shut(g, l, tasks, passed)
  {
  }

  lemma HasStopped(b: Builder, was: Before, n: Node, came: map<ReachDefinition, State>, joined: State, sent: map<CfgEdge, ReachDefinition>)
    requires VisitDone(b, was, n, came, true, joined, sent)
    ensures b.reachDef == was.reachDef && b.dfsList == was.tasks
  {
  }

  lemma HasGoneOn(b: Builder, was: Before, n: Node, came: map<ReachDefinition, State>, joined: State, sent: map<CfgEdge, ReachDefinition>)
    requires VisitDone(b, was, n, came, false, joined, sent)
    ensures GoneOn(b, was, n, sent)
  {
    hide Builder.Moved, Builder.AllSentDiffer, Builder.Carried, JoinsAll, Adds, Builder.Marks, Builder.Current, Builder.Risen, Builder.CoversAll,
         Builder.Handed, WfState, Builder.OperandsLeft, Builder.ArrivedValues, Builder.AfterVisit, Builder.SizeAfter, Accepts, Builder.AllAssured;
  }

  // What the wait check at the head has found.
  ghost predicate Let(g: Flowgraph, l: Loop, reach: map<Node, set<ReachDefinition>>, led: Ledger) {
    Among(reach, l.head) != {} && (led.phase.Outside? ==> |Among(reach, l.head)| >= |EntryEdges(g, l)|)
  }

  // One visit to the head. In a loop that control does not come back in there
  // is no second one.
  lemma HeadEnters(b: Builder, l: Loop, was: Before, passed: seq<Node>, loops: map<Node, ReachDefinition>, led: Ledger, task: Task, next: Ledger, how: Outcome,
                   sent: map<CfgEdge, ReachDefinition>)
    requires HasOneLoop(b.graph, l) && SetsAre(b.graph, l, led) && TaskIs(b.graph, l, led, task) && TookHead(b, l, was, passed, loops, led, task, next, how, sent)
    requires Entering(b.graph, l, [task] + was.tasks, was.reachDef, passed, led) && l.head != b.graph.entry && (l.head in loops <==> !led.phase.Outside?)
    requires how != Held ==> Let(b.graph, l, was.reachDef, led)
    ensures Entering(b.graph, l, b.dfsList, b.reachDef, b.passed, next)
  {
    hide HasOneLoop, TaskIs, Flowgraph.Live, OnceAt, Once, Shut, GoneOn, Beyond, KeepsOn, Widened, Scheduled, SetsAre, BackEdges, EntryEdges;
    TaskLive(b.graph, l, led, task);
    HeadInBody(b.graph, l);
    if how == Held {
      StopEnters(b, l, was, passed, led, task, next, true);
    } else {
      OnceElsewhere(b, l, was, led, task, how, sent);
      if led.phase.Outside? {
        GoneFacts(b, was, task, sent);
        AllEntered(b.graph, l, was.reachDef, led);
        HeadNotBeyond(b.graph, l);
        if !Closes(b.graph, l) {
          ShutAfter(b.graph, l, [task] + was.tasks, b.dfsList, passed, l.head, b.loopsStack);
        }
      }
    }
  }

  // All edges into the loop have delivered.
  lemma AllEntered(g: Flowgraph, l: Loop, reach: map<Node, set<ReachDefinition>>, led: Ledger)
    requires HasOneLoop(g, l) && SetsAre(g, l, led) && led.phase.Outside? && OnceAt(g, reach, led.free, l.head, false) && Let(g, l, reach, led) && g.Live(l.head)
    ensures forall e :: e in EntryEdges(g, l) ==> Runs(led.free, e.src)
  {
    hide Flowgraph.Live;
    forall e | e in Come(g, led.free, l.head)
      ensures e in EntryEdges(g, l)
    {
      assert Fits(l, e);
    }
    Fewer(Come(g, led.free, l.head), EntryEdges(g, l));
  }

  lemma HeadNotBeyond(g: Flowgraph, l: Loop)
    requires l.head in l.body
    ensures !Beyond(g, l, l.head)
  {
  }

  lemma OnceElsewhere(b: Builder, l: Loop, was: Before, led: Ledger, task: Task, how: Outcome, sent: map<CfgEdge, ReachDefinition>)
    requires HasOneLoop(b.graph, l) && b.graph.Live(l.head) && l.head in l.body && !l.head.inst.Unreachable? && l.head != b.graph.entry && task.node == l.head
    requires Once(b.graph, l, was.reachDef, led.free) && Became(b, was, l.head, how, task.loops, sent)
    ensures Once(b.graph, l, b.reachDef, led.free)
  {
    hide HasOneLoop, Flowgraph.Live, OnceAt, GoneOn;
    if how.Held? || how.Stayed? {
      forall m | b.graph.Live(m) && m != b.graph.entry && Ahead(l, m) && !m.inst.Unreachable?
        ensures OnceAt(b.graph, b.reachDef, led.free, m, m in led.free)
      {
        SameWaiting(b.graph, was.reachDef, b.reachDef, led.free, m, m in led.free);
      }
    } else {
      GoneFacts(b, was, task, sent);
      OnceOn(b.graph, l, was.reachDef, b.reachDef, led.free, l.head, sent);
      assert led.free + {} == led.free;
    }
  }

  lemma SameWaiting(g: Flowgraph, before: map<Node, set<ReachDefinition>>, reach: map<Node, set<ReachDefinition>>, free: set<Node>, m: Node, gone: bool)
    requires OnceAt(g, before, free, m, gone) && Among(reach, m) == Among(before, m)
    ensures OnceAt(g, reach, free, m, gone)
  {
  }
}
