// Functions without loops, on the heap: the worklist visits every live
// instruction that is served once, when all that it waits for is there,
// whichever task is taken first. A call that some path feeds has its edge;
// where no operands are left to share at a branch, no other has.
module HeapFlow {
  import opened Wrappers
  import opened DataFlow
  import opened Flowgraph
  import opened FlowLaws
  import opened Provenance
  import opened ReachDefinitions
  import opened VisitLaws
  import opened PdgBuilder
  import opened CallFlow

  // The instructions that have passed the wait check, the states that wait at
  // the ends of edges, the merged state of each instruction, and the operands
  // of the states that wait.
  datatype Ledger = Ledger(done: set<Node>, sent: map<CfgEdge, ReachDefinition>, inn: map<Node, State>, ops: map<CfgEdge, seq<Definition>>)

  // The edges that have delivered and whose state has not gone on.
  ghost function Pending(g: Flowgraph, done: set<Node>): set<CfgEdge> {
    set e | e in g.cfg && e.src in done && !e.src.inst.Unreachable? && (e.dst !in done || e.dst.inst.Unreachable?)
  }

  ghost predicate Waiting(g: Flowgraph, reach: map<Node, set<ReachDefinition>>, led: Ledger) {
    && led.sent.Keys == Pending(g, led.done) && Builder.AllSentDiffer(led.sent)
    && forall n :: Among(reach, n) == Builder.Arriving(led.sent, n)
  }

  // Nothing passes before all that comes before it.
  ghost predicate Closed(g: Flowgraph, done: set<Node>) {
    && g.entry in done
    && forall n :: n in done ==> g.Live(n) && forall e :: e in g.InEdges(n) ==> e.src in done && !e.src.inst.Unreachable?
  }

  // Every instruction that has passed did so once.
  ghost predicate Logged(g: Flowgraph, done: set<Node>, log: seq<Node>) {
    && (forall i, j :: 0 <= i < j < |log| ==> log[i] != log[j])
    && (forall n :: n in log <==> n in done && n != g.entry)
  }

  ghost predicate Delivers(e: CfgEdge, done: set<Node>) {
    e.src in done && !e.src.inst.Unreachable?
  }

  ghost predicate TaskOf(g: Flowgraph, done: set<Node>, t: Task) {
    t.loops == [] && exists e :: e in g.InEdges(t.node) && Delivers(e, done) && e.src == t.last
  }

  ghost predicate AllDelivered(g: Flowgraph, done: set<Node>, n: Node) {
    g.InEdges(n) != {} && forall e :: e in g.InEdges(n) ==> Delivers(e, done)
  }

  // What has all it waits for has a task, but for these.
  ghost predicate TasksBut(g: Flowgraph, done: set<Node>, tasks: seq<Task>, but: set<Node>) {
    && (forall t :: t in tasks ==> TaskOf(g, done, t))
    && (forall n :: n !in done + but && AllDelivered(g, done, n) ==> exists t :: t in tasks && t.node == n)
    && (forall i, j :: 0 <= i < j < |tasks| && tasks[i].node.inst.Unreachable? ==> tasks[i].node != tasks[j].node)
    && (forall t :: t in tasks && t.node.inst.Unreachable? ==> t.node !in done)
  }

  ghost predicate Tasks(g: Flowgraph, done: set<Node>, tasks: seq<Task>) {
    TasksBut(g, done, tasks, {})
  }

  ghost predicate Scheduling(g: Flowgraph, tasks: seq<Task>, reach: map<Node, set<ReachDefinition>>, passed: seq<Node>, led: Ledger) {
    Waiting(g, reach, led) && Closed(g, led.done) && Logged(g, led.done, passed) && Tasks(g, led.done, tasks)
  }

  // ----- one more instruction -----

  lemma PendingAfter(g: Flowgraph, done: set<Node>, n: Node)
    requires Closed(g, done) && n !in done && !n.inst.Unreachable? && AllDelivered(g, done, n)
    ensures g.InEdges(n) <= Pending(g, done) && Pending(g, done + {n}) == Pending(g, done) - g.InEdges(n) + g.OutEdges(n)
    ensures g.InEdges(n) !! g.OutEdges(n) && Pending(g, done) !! g.OutEdges(n)
  {
    forall e | e in g.OutEdges(n)
      ensures e.dst !in done + {n} || e.dst.inst.Unreachable?
    {
      assert e in g.InEdges(e.dst);
    }
  }

  function AfterSending(g: Flowgraph, sent: map<CfgEdge, ReachDefinition>, n: Node, more: map<CfgEdge, ReachDefinition>): map<CfgEdge, ReachDefinition> {
    sent - g.InEdges(n) + more
  }

  lemma WaitingAfter(g: Flowgraph, before: map<Node, set<ReachDefinition>>, reach: map<Node, set<ReachDefinition>>,
                     led: Ledger, more: map<CfgEdge, ReachDefinition>, olds: set<ReachDefinition>, next: Ledger, n: Node)
    requires Closed(g, led.done) && n !in led.done && !n.inst.Unreachable? && AllDelivered(g, led.done, n)
    requires Waiting(g, before, led) && led.sent.Values <= olds
    requires more.Keys == g.OutEdges(n) && Builder.AllSentDiffer(more) && forall e :: e in more ==> more[e] in Among(before, n) || more[e] !in olds
    requires n !in reach && forall m :: m != n ==> Among(reach, m) == Among(before, m) + Builder.Arriving(more, m)
    requires next.done == led.done + {n} && next.sent == AfterSending(g, led.sent, n, more)
    ensures Waiting(g, reach, next)
  {
    PendingAfter(g, led.done, n);
    SentApart(g, led.sent, n, more, olds, before);
    forall m
      ensures Among(reach, m) == Builder.Arriving(next.sent, m)
    {
      ArrivingAfter(g, led.sent, n, more, m);
    }
  }

  lemma SentApart(g: Flowgraph, sent: map<CfgEdge, ReachDefinition>, n: Node, more: map<CfgEdge, ReachDefinition>, olds: set<ReachDefinition>,
                  before: map<Node, set<ReachDefinition>>)
    requires Builder.AllSentDiffer(sent) && Builder.AllSentDiffer(more) && sent.Values <= olds && Among(before, n) == Builder.Arriving(sent, n)
    requires forall e :: e in more ==> more[e] in Among(before, n) || more[e] !in olds
    requires forall e :: e in sent ==> e in g.cfg
    ensures Builder.AllSentDiffer(AfterSending(g, sent, n, more))
  {
    forall e, f | e in sent && e !in g.InEdges(n) && f in more
      ensures sent[e] != more[f]
    {
      assert sent[e] in sent.Values;
      if more[f] in Builder.Arriving(sent, n) {
        var d :| d in sent && d.dst == n && sent[d] == more[f];
      }
    }
  }

  lemma ArrivingAfter(g: Flowgraph, sent: map<CfgEdge, ReachDefinition>, n: Node, more: map<CfgEdge, ReachDefinition>, m: Node)
    requires g.InEdges(n) !! g.OutEdges(n) && more.Keys == g.OutEdges(n) && sent.Keys !! more.Keys && forall e :: e in sent ==> e in g.cfg
    ensures Builder.Arriving(AfterSending(g, sent, n, more), m) == if m == n then {} else Builder.Arriving(sent, m) + Builder.Arriving(more, m)
  {
    var next := AfterSending(g, sent, n, more);
    forall t | m != n && t in Builder.Arriving(sent, m) + Builder.Arriving(more, m)
      ensures t in Builder.Arriving(next, m)
    {
      if t in Builder.Arriving(more, m) {
        var e :| e in more && e.dst == m && more[e] == t;
        assert next[e] == t;
      } else {
        var e :| e in sent && e.dst == m && sent[e] == t;
        assert e !in g.InEdges(n) && next[e] == t;
      }
    }
  }

  lemma ClosedAfter(g: Flowgraph, done: set<Node>, n: Node)
    requires Closed(g, done) && AllDelivered(g, done, n) && g.Live(n)
    ensures Closed(g, done + {n})
  {
  }

  lemma LiveTarget(g: Flowgraph, done: set<Node>, e: CfgEdge)
    requires Closed(g, done) && e in g.cfg && Delivers(e, done)
    ensures g.Live(e.dst)
  {
    g.FlowKeepsLive(e);
  }

  lemma LoggedAfter(g: Flowgraph, done: set<Node>, log: seq<Node>, n: Node)
    requires Logged(g, done, log) && n !in done && n != g.entry
    ensures Logged(g, done + {n}, log + [n])
  {
    var more := log + [n];
    assert more[|log|] == n && forall i :: 0 <= i < |log| ==> more[i] == log[i];
    forall m
      ensures m in more <==> m in done + {n} && m != g.entry
    {
      assert m in log ==> m in more;
    }
  }

  lemma TasksAfter(g: Flowgraph, done: set<Node>, before: seq<Task>, after: seq<Task>, n: Node)
    requires TasksBut(g, done, before, {n}) && !n.inst.Unreachable? && n !in done && Scheduled(g.OutEdges(n), before, after, n, [])
    requires forall e, f :: e in g.cfg && f in g.cfg && e.dst == f.dst && g.Live(e.dst) && e.dst.inst.Unreachable? ==> e == f
    requires Closed(g, done) && g.Live(n)
    ensures Tasks(g, done + {n}, after)
  {
    var order :| Lists(order, g.OutEdges(n)) && after == TasksOf(order, n, []) + before;
    var added := TasksOf(order, n, []);
    AddedTasks(g, done, order, n);
    forall t | t in after
      ensures TaskOf(g, done + {n}, t)
    {
      if t in before {
        var e :| e in g.InEdges(t.node) && Delivers(e, done) && e.src == t.last;
        assert Delivers(e, done + {n});
      }
    }
    forall m | m !in done + {n} && AllDelivered(g, done + {n}, m)
      ensures exists t :: t in after && t.node == m
    {
      if e :| e in g.InEdges(m) && e.src == n {
        assert e in order;
        var i :| 0 <= i < |order| && order[i] == e;
        assert added[i] in after && added[i].node == m;
      } else {
        assert AllDelivered(g, done, m) by {
          forall e | e in g.InEdges(m)
            ensures Delivers(e, done)
          {
            assert Delivers(e, done + {n});
          }
        }
        var t :| t in before && t.node == m;
        assert t in after;
      }
    }
    LoneAfter(g, done, before, order, n);
  }

  lemma AddedTasks(g: Flowgraph, done: set<Node>, order: seq<CfgEdge>, n: Node)
    requires Lists(order, g.OutEdges(n)) && !n.inst.Unreachable?
    ensures forall t :: t in TasksOf(order, n, []) ==> TaskOf(g, done + {n}, t)
  {
    forall t | t in TasksOf(order, n, [])
      ensures TaskOf(g, done + {n}, t)
    {
      var i :| 0 <= i < |order| && t == TasksOf(order, n, [])[i];
      assert order[i] in order && order[i] in g.InEdges(t.node) && Delivers(order[i], done + {n});
    }
  }

  // An instruction with one way in never has two tasks.
  lemma LoneAfter(g: Flowgraph, done: set<Node>, before: seq<Task>, order: seq<CfgEdge>, n: Node)
    requires TasksBut(g, done, before, {n}) && n !in done && Lists(order, g.OutEdges(n)) && Closed(g, done) && g.Live(n) && !n.inst.Unreachable?
    requires forall e, f :: e in g.cfg && f in g.cfg && e.dst == f.dst && g.Live(e.dst) && e.dst.inst.Unreachable? ==> e == f
    ensures var after := TasksOf(order, n, []) + before;
            && (forall i, j :: 0 <= i < j < |after| && after[i].node.inst.Unreachable? ==> after[i].node != after[j].node)
            && (forall t :: t in after && t.node.inst.Unreachable? ==> t.node !in done + {n})
  {
    hide Flowgraph.Live, Closed;
    var added := TasksOf(order, n, []);
    forall t, u | t in added && u in before && t.node.inst.Unreachable?
      ensures t.node != u.node
    {
      var i :| 0 <= i < |order| && t == added[i];
      assert order[i] in order;
      g.FlowKeepsLive(order[i]);
      var e :| e in g.InEdges(u.node) && Delivers(e, done) && e.src == u.last;
    }
    OnlyNew(g, done, order, n);
    var after := added + before;
    forall i, j | 0 <= i < j < |after| && after[i].node.inst.Unreachable?
      ensures after[i].node != after[j].node
    {
      if j < |added| {
        assert order[i] in order && order[j] in order && order[i] != order[j];
        g.FlowKeepsLive(order[i]);
      } else if i < |added| {
        assert after[i] in added && after[j] == before[j - |added|];
      } else {
        assert after[i] == before[i - |added|] && after[j] == before[j - |added|];
      }
    }
  }

  lemma OnlyNew(g: Flowgraph, done: set<Node>, order: seq<CfgEdge>, n: Node)
    requires n !in done && Lists(order, g.OutEdges(n)) && Closed(g, done) && !n.inst.Unreachable?
    ensures forall t :: t in TasksOf(order, n, []) ==> t.node !in done
    ensures forall t :: t in TasksOf(order, n, []) && t.node.inst.Unreachable? ==> t.node !in done + {n}
  {
    forall t | t in TasksOf(order, n, [])
      ensures t.node !in done
    {
      var i :| 0 <= i < |order| && t == TasksOf(order, n, [])[i];
      assert order[i] in order && order[i] in g.InEdges(t.node);
    }
  }

  // One task fewer.
  lemma TaskTaken(g: Flowgraph, done: set<Node>, tasks: seq<Task>, k: nat)
    requires Tasks(g, done, tasks) && k < |tasks|
    ensures var rest, n := tasks[..k] + tasks[k + 1..], tasks[k].node;
            && TasksBut(g, done, rest, {n}) && TaskOf(g, done, tasks[k])
            && (n.inst.Unreachable? ==> n !in done && forall t :: t in rest ==> t.node != n)
  {
    var rest, n := tasks[..k] + tasks[k + 1..], tasks[k].node;
    assert forall i :: 0 <= i < |rest| ==> rest[i] == tasks[if i < k then i else i + 1];
    forall m | m !in done + {n} && AllDelivered(g, done, m)
      ensures exists t :: t in rest && t.node == m
    {
      var t :| t in tasks && t.node == m;
      var i :| 0 <= i < |tasks| && tasks[i] == t;
      assert rest[if i < k then i else i - 1] == t;
    }
  }

  lemma StillWaits(g: Flowgraph, done: set<Node>, tasks: seq<Task>, n: Node)
    requires TasksBut(g, done, tasks, {n}) && (n in done || !AllDelivered(g, done, n))
    ensures Tasks(g, done, tasks)
  {
  }

  lemma EndsHere(g: Flowgraph, done: set<Node>, tasks: seq<Task>, n: Node)
    requires TasksBut(g, done, tasks, {n}) && n.inst.Unreachable? && forall t :: t in tasks ==> t.node != n
    ensures Tasks(g, done + {n}, tasks)
  {
    forall t | t in tasks
      ensures TaskOf(g, done + {n}, t)
    {
      var e :| e in g.InEdges(t.node) && Delivers(e, done) && e.src == t.last;
      assert Delivers(e, done + {n});
    }
    forall m | m !in done + {n} && AllDelivered(g, done + {n}, m)
      ensures exists t :: t in tasks && t.node == m
    {
      assert AllDelivered(g, done, m) by {
        forall e | e in g.InEdges(m)
          ensures Delivers(e, done)
        {
          assert Delivers(e, done + {n});
        }
      }
    }
  }

  // ----- the wait check -----

  lemma {:induction false} ArrivingSize(sent: map<CfgEdge, ReachDefinition>, n: Node, es: set<CfgEdge>)
    requires Builder.AllSentDiffer(sent) && forall e :: e in es <==> e in sent && e.dst == n
    ensures |Builder.Arriving(sent, n)| == |es|
    decreases es
  {
    if es == {} {
      assert Builder.Arriving(sent, n) == {};
    } else {
      var e :| e in es;
      var fewer := sent - {e};
      ArrivingSize(fewer, n, es - {e});
      forall t
        ensures t in Builder.Arriving(sent, n) <==> t == sent[e] || t in Builder.Arriving(fewer, n)
      {
        if t in Builder.Arriving(sent, n) {
          var f :| f in sent && f.dst == n && sent[f] == t;
          assert f == e || f in fewer;
        }
      }
      assert Builder.Arriving(sent, n) == Builder.Arriving(fewer, n) + {sent[e]};
    }
  }

  lemma AsManyAs(es: set<CfgEdge>, all: set<CfgEdge>)
    requires es <= all
    ensures |es| <= |all| && (|es| == |all| ==> es == all)
  {
    assert all == es + (all - es) && |all| == |es| + |all - es|;
  }

  // The check compares numbers; that of the states is that of the edges that
  // have delivered. It lets an instruction through exactly if all have.
  lemma WaitsForAll(b: Builder, led: Ledger, n: Node)
    requires Waiting(b.graph, b.reachDef, led) && b.loopsStack == [] && !n.inst.LoopHead?
    ensures b.Waits(n) <==> exists e :: e in b.graph.InEdges(n) && e !in led.sent
  {
    var delivered := set e | e in b.graph.InEdges(n) && e in led.sent;
    forall e | e in led.sent && e.dst == n
      ensures e in delivered
    {
      assert e in Pending(b.graph, led.done);
    }
    ArrivingSize(led.sent, n, delivered);
    AsManyAs(delivered, b.graph.InEdges(n));
    assert b.Delivered(n) == Builder.Arriving(led.sent, n) && b.Awaited(n) == b.graph.InEdges(n);
    if delivered != b.graph.InEdges(n) {
      var e :| e in b.graph.InEdges(n) && e !in delivered;
      assert e !in led.sent;
    }
  }

  // ----- a run on the heap -----

  // Every waiting state has the size that the visit before it leaves.
  ghost predicate Sized(b: Builder, led: Ledger)
    reads b`states, led.sent.Values
  {
    && led.ops.Keys == led.sent.Keys
    && forall e :: e in led.sent ==>
         led.sent[e] in b.states && led.sent[e].Size() == b.SizeAfter(e.src, b.shape(e.src)) && led.ops[e] == led.sent[e].stack
  }

  ghost function Operands(sent: map<CfgEdge, ReachDefinition>): map<CfgEdge, seq<Definition>>
    reads sent.Values
  {
    map e | e in sent :: sent[e].stack
  }

  ghost predicate For(b: Builder, p: Program, rank: Node -> nat) {
    && b.graph == p.graph && b.results == p.results
    && p.graph.Orderly(rank) && p.Shaped(b.shape)
  }

  ghost predicate Running(b: Builder, led: Ledger)
    reads b, b.defs, b.kept, b.states, b.saved, led.sent.Values
  {
    b.Valid() && Scheduling(b.graph, b.dfsList, b.reachDef, b.passed, led) && Sized(b, led)
  }

  // All that waits at an instruction comes to it with its shape.
  lemma ComesTogether(b: Builder, p: Program, rank: Node -> nat, led: Ledger, n: Node, came: map<ReachDefinition, State>)
    requires For(b, p, rank) && Waiting(b.graph, b.reachDef, led) && Closed(b.graph, led.done) && Sized(b, led) && !n.inst.LoopHead?
    requires b.graph.InEdges(n) != {} && b.graph.InEdges(n) <= led.sent.Keys
    requires came.Keys == b.Delivered(n) && forall t :: t in came ==> t.Is(came[t])
    ensures b.AllCome(n, came, b.shape(n))
  {
    var e0 :| e0 in b.graph.InEdges(n);
    assert led.sent[e0] in Builder.Arriving(led.sent, n);
    forall t | t in came
      ensures b.Arrival(n, ShapeOf(came[t])) == Some(b.shape(n))
    {
      var e :| e in led.sent && e.dst == n && led.sent[e] == t;
      assert e in Pending(b.graph, led.done);
      IsSnap(t, came[t]);
      ComesAlong(b, p, rank, e);
    }
  }

  lemma ComesAlong(b: Builder, p: Program, rank: Node -> nat, e: CfgEdge)
    requires For(b, p, rank) && e in b.graph.cfg && b.graph.Live(e.src) && !e.src.inst.Unreachable? && !e.dst.inst.LoopHead?
    ensures b.SizeAfter(e.src, b.shape(e.src)) == ShapeAfter(e.src, b.shape(e.src))
    ensures b.Arrival(e.dst, b.SizeAfter(e.src, b.shape(e.src))) == Some(b.shape(e.dst))
  {
  }

  // ----- values -----

  predicate LeavesNothing(n: Node, sh: Shape) {
    HasRoom(sh, Pops(n.inst)) && ShapeAfter(n, sh).height == 0
  }

  // Where control branches, no operands are left that the copies would share.
  ghost predicate SplitsEmpty(p: Program, shape: Node -> Shape) {
    forall n :: p.graph.Live(n) && !n.inst.Unreachable? && |p.graph.OutEdges(n)| >= 2 ==> LeavesNothing(n, shape(n))
  }

  // The states at the ends of edges are what the visits leave of the merged
  // states, which solve the equations of the graph.
  ghost predicate ValuesRight(b: Builder, p: Program, led: Ledger)
    reads *
  {
    && (forall n :: n in led.inn <==> n in led.done && !n.inst.Unreachable?)
    && Separate(led.sent.Values)
    && (forall e :: e in led.sent ==> e.src in led.inn && led.sent[e].Is(b.AfterVisit(e.src, led.inn[e.src])))
    && (forall n :: n in led.inn ==> p.SolvedAt(led.inn, b.shape, n))
  }

  // The edges are those that the visits to merged states record.
  ghost predicate EdgesRight(b: Builder, led: Ledger)
    reads b`edges
  {
    forall e :: e in b.edges <==> exists n :: n in led.inn && e in b.Marks(n, led.inn[n])
  }

  lemma EdgesAfter(b: Builder, before: seq<PdgEdge>, led: Ledger, n: Node, joined: State, next: Ledger)
    requires n !in led.inn && next.inn == led.inn[n := joined] && Adds(before, b.edges, b.Marks(n, joined))
    requires forall e :: e in before <==> exists m :: m in led.inn && e in b.Marks(m, led.inn[m])
    ensures EdgesRight(b, next)
  {
    hide Builder.Marks;
    forall e
      ensures e in b.edges <==> exists m :: m in next.inn && e in b.Marks(m, next.inn[m])
    {
      if m :| m in next.inn && e in b.Marks(m, next.inn[m]) {
        assert m == n || (m in led.inn && e in b.Marks(m, led.inn[m]));
      }
      if e in b.Marks(n, joined) {
        assert n in next.inn && e in b.Marks(n, next.inn[n]);
      }
      if m :| m in led.inn && e in b.Marks(m, led.inn[m]) {
        assert m in next.inn && e in b.Marks(m, next.inn[m]);
      }
    }
  }

  lemma ArrivedIsCross(b: Builder, p: Program, rank: Node -> nat, e: CfgEdge, s: State)
    requires For(b, p, rank) && e in p.graph.cfg && p.graph.Live(e.src) && !e.src.inst.Unreachable? && ShapeOf(s) == b.shape(e.src)
    ensures Passes(e.src, e.dst, ShapeOf(s), p.results)
    ensures ShapeOnArrival(e.dst, ShapeOf(b.AfterVisit(e.src, s)), p.results).Some?
    ensures Arrive(e.dst, b.AfterVisit(e.src, s), p.results) == Cross(e.src, e.dst, s, p.results)
  {
    hide Accepts, ShapeOnArrival, Arrive, Visit, ShapeAfter;
    VisitShape(e.src, s, p.results);
  }

  // What waits at `n` is what the visits before it leave.
  ghost predicate CameRight(b: Builder, p: Program, led: Ledger, n: Node, came: map<ReachDefinition, State>) {
    && came.Keys == Builder.Arriving(led.sent, n)
    && (forall e :: e in led.sent ==> e in p.graph.cfg && e.src in led.inn && e.src in led.done && !e.src.inst.Unreachable?)
    && (forall e :: e in led.sent && e.dst == n ==> led.sent[e] in came && came[led.sent[e]] == b.AfterVisit(e.src, led.inn[e.src]))
    && (forall m :: m in led.inn ==> p.SolvedAt(led.inn, b.shape, m))
  }

  lemma ValueAlong(b: Builder, p: Program, rank: Node -> nat, led: Ledger, n: Node, came: map<ReachDefinition, State>, e: CfgEdge)
    requires For(b, p, rank) && Closed(p.graph, led.done) && CameRight(b, p, led, n, came) && e in led.sent && e.dst == n
    ensures Passes(e.src, n, ShapeOf(led.inn[e.src]), p.results) && led.sent[e] in came
    ensures b.ArrivedValues(n, came)[led.sent[e]] == Cross(e.src, n, led.inn[e.src], p.results)
  {
    hide Builder.AfterVisit, ShapeOnArrival, Arrive, Cross, Passes, WfState;
    assert p.SolvedAt(led.inn, b.shape, e.src);
    ArrivedIsCross(b, p, rank, e, led.inn[e.src]);
  }

  // The merge at `n` has what comes in along the edges.
  lemma SolvedNow(b: Builder, p: Program, rank: Node -> nat, led: Ledger, n: Node, came: map<ReachDefinition, State>, joined: State)
    requires For(b, p, rank) && Closed(p.graph, led.done) && n !in led.done && n != p.graph.entry
    requires p.graph.InEdges(n) <= led.sent.Keys && CameRight(b, p, led, n, came)
    requires JoinsAll(b.ArrivedValues(n, came), joined) && WfState(joined) && ShapeOf(joined) == b.shape(n)
    ensures p.SolvedAt(led.inn[n := joined], b.shape, n)
  {
    hide Passes, WfState, Has, Cross, Program.SolvedAt, Builder.ArrivedValues, For, Closed;
    var inn, values := led.inn[n := joined], b.ArrivedValues(n, came);
    assert values.Keys == came.Keys by {
      ValuesKeys(b, n, came);
    }
    forall slot, o
      ensures Has(joined, slot, o) <==> exists e :: e in p.graph.InEdges(n) && p.Brings(inn, e, slot, o)
    {
      if t :| t in values && Has(values[t], slot, o) {
        var e :| e in led.sent && e.dst == n && led.sent[e] == t;
        ValueAlong(b, p, rank, led, n, came, e);
        NotSelf(p, led, n, e);
        assert e in p.graph.InEdges(n) && p.Brings(inn, e, slot, o);
      }
      if e :| e in p.graph.InEdges(n) && p.Brings(inn, e, slot, o) {
        ValueAlong(b, p, rank, led, n, came, e);
        NotSelf(p, led, n, e);
        assert led.sent[e] in values && Has(values[led.sent[e]], slot, o);
      }
    }
    Solves(p, inn, b.shape, n);
  }

  lemma ValuesKeys(b: Builder, n: Node, came: map<ReachDefinition, State>)
    ensures b.ArrivedValues(n, came).Keys == came.Keys
  {
  }

  lemma NotSelf(p: Program, led: Ledger, n: Node, e: CfgEdge)
    requires n !in led.done && e.src in led.done
    ensures e.src != n
  {
  }

  lemma Solves(p: Program, inn: map<Node, State>, shape: Node -> Shape, n: Node)
    requires n in inn && n != p.graph.entry && WfState(inn[n]) && ShapeOf(inn[n]) == shape(n) && p.MergesEdges(inn, n)
    ensures p.SolvedAt(inn, shape, n)
  {
  }

  // What was merged before stays so.
  lemma SolvedStill(p: Program, rank: Node -> nat, shape: Node -> Shape, led: Ledger, n: Node, joined: State, m: Node)
    requires Closed(p.graph, led.done) && n !in led.done && m in led.done && m in led.inn && p.SolvedAt(led.inn, shape, m)
    ensures p.SolvedAt(led.inn[n := joined], shape, m)
  {
    var inn := led.inn[n := joined];
    if m != p.graph.entry {
      forall slot, o
        ensures Has(inn[m], slot, o) <==> exists e :: e in p.graph.InEdges(m) && p.Brings(inn, e, slot, o)
      {
        assert forall e :: e in p.graph.InEdges(m) ==> (p.Brings(inn, e, slot, o) <==> p.Brings(led.inn, e, slot, o));
      }
    }
  }

  // ----- the states that stay where they are -----

  ghost function Rest(sent: map<CfgEdge, ReachDefinition>, n: Node): set<ReachDefinition> {
    set e | e in sent && e.dst != n :: sent[e]
  }

  ghost predicate RestIs(b: Builder, led: Ledger, n: Node, rest: set<ReachDefinition>, parts: set<Definition>)
    reads rest, parts
  {
    && rest == Rest(led.sent, n) && Separate(rest) && (forall s :: s in rest ==> s.Parts() <= parts)
    && forall e :: e in led.sent && e.dst != n ==> e.src in led.inn && led.sent[e] in rest && led.sent[e].Is(b.AfterVisit(e.src, led.inn[e.src]))
  }

  ghost predicate RestSized(b: Builder, led: Ledger, n: Node, rest: set<ReachDefinition>)
    reads rest
  {
    && rest == Rest(led.sent, n) && led.ops.Keys == led.sent.Keys
    && forall e :: e in led.sent && e.dst != n ==>
         led.sent[e] in rest && led.sent[e].Size() == b.SizeAfter(e.src, b.shape(e.src)) && led.ops[e] == led.sent[e].stack
  }

  lemma RestApart(b: Builder, led: Ledger, n: Node, here: set<ReachDefinition>)
    requires Builder.AllSentDiffer(led.sent) && here == Builder.Arriving(led.sent, n)
    ensures Rest(led.sent, n) !! here && led.sent.Values == Rest(led.sent, n) + here
    ensures Sized(b, led) ==> RestSized(b, led, n, Rest(led.sent, n))
  {
    forall e | e in led.sent
      ensures led.sent[e] in Rest(led.sent, n) + here
    {
    }
  }

  lemma RestIsApart(b: Builder, p: Program, led: Ledger, n: Node, here: set<ReachDefinition>)
    requires Builder.AllSentDiffer(led.sent) && here == Builder.Arriving(led.sent, n) && ValuesRight(b, p, led)
    ensures RestIs(b, led, n, Rest(led.sent, n), AllParts(Rest(led.sent, n))) && Separate(here) && AllParts(Rest(led.sent, n)) !! AllParts(here)
  {
    hide ReachDefinition.Parts, SlotsApart, Shows;
    RestApart(b, led, n, here);
  }

  lemma SeparateTogether(rest: set<ReachDefinition>, parts: set<Definition>, more: set<ReachDefinition>)
    requires Separate(rest) && Separate(more) && parts !! AllParts(more) && forall s :: s in rest ==> s.Parts() <= parts
    ensures Separate(rest + more)
  {
    hide ReachDefinition.Parts, SlotsApart;
    forall s, t | s in rest && t in more
      ensures s.Parts() !! t.Parts()
    {
      assert s.Parts() <= parts && t.Parts() <= AllParts(more);
    }
  }

  lemma AfterValues(g: Flowgraph, sent: map<CfgEdge, ReachDefinition>, n: Node, more: map<CfgEdge, ReachDefinition>)
    requires more.Keys == g.OutEdges(n) && sent.Keys !! more.Keys && forall e :: e in sent ==> e in g.cfg
    ensures AfterSending(g, sent, n, more).Values == Rest(sent, n) + more.Values
  {
    var next := AfterSending(g, sent, n, more);
    forall t | t in Rest(sent, n) + more.Values
      ensures t in next.Values
    {
      if t in more.Values {
        var e :| e in more && more[e] == t;
        assert next[e] == t;
      } else {
        var e :| e in sent && e.dst != n && sent[e] == t;
        assert next[e] == t;
      }
    }
  }

  lemma SizedAfter(b: Builder, led: Ledger, n: Node, rest: set<ReachDefinition>, more: map<CfgEdge, ReachDefinition>, next: Ledger)
    requires RestSized(b, led, n, rest) && rest <= b.states && more.Values <= b.states && more.Keys == b.graph.OutEdges(n)
    requires (forall e :: e in more ==> more[e].Size() == b.SizeAfter(n, b.shape(n))) && led.sent.Keys !! more.Keys
    requires next.sent == AfterSending(b.graph, led.sent, n, more) && next.ops == Operands(next.sent) && forall e :: e in led.sent ==> e in b.graph.cfg
    ensures Sized(b, next)
  {
    hide Builder.SizeAfter;
    forall e | e in next.sent
      ensures next.sent[e] in b.states && next.sent[e].Size() == b.SizeAfter(e.src, b.shape(e.src))
    {
      if e in more {
        assert next.sent[e] == more[e] && more[e] in more.Values;
      } else {
        assert next.sent[e] == led.sent[e] && e !in b.graph.InEdges(n);
      }
    }
  }

  lemma ValuesAfter(b: Builder, p: Program, rank: Node -> nat, led: Ledger, n: Node, rest: set<ReachDefinition>, parts: set<Definition>, joined: State,
                    more: map<CfgEdge, ReachDefinition>, next: Ledger)
    requires For(b, p, rank) && Closed(p.graph, led.done) && n !in led.done && !n.inst.Unreachable?
    requires forall m :: m in led.inn <==> m in led.done && !m.inst.Unreachable?
    requires forall m :: m in led.inn ==> p.SolvedAt(led.inn, b.shape, m)
    requires forall e :: e in led.sent ==> e in p.graph.cfg && e.src in led.done
    requires p.SolvedAt(led.inn[n := joined], b.shape, n) && RestIs(b, led, n, rest, parts)
    requires more.Keys == p.graph.OutEdges(n) && forall e :: e in more ==> more[e].Is(b.AfterVisit(n, joined))
    requires Separate(more.Values) && parts !! AllParts(more.Values)
    requires next.done == led.done + {n} && next.sent == AfterSending(p.graph, led.sent, n, more) && next.inn == led.inn[n := joined]
    ensures ValuesRight(b, p, next)
  {
    hide Builder.AfterVisit, Separate, AllParts, For, Shows, Program.SolvedAt, AfterSending, Closed;
    assert led.sent.Keys !! more.Keys;
    AfterValues(p.graph, led.sent, n, more);
    SeparateTogether(rest, parts, more.Values);
    SentRight(b, p, led, n, rest, parts, joined, more, next);
    SolvedAll(b, p, rank, led, n, joined, next.inn);
  }

  lemma SolvedAll(b: Builder, p: Program, rank: Node -> nat, led: Ledger, n: Node, joined: State, inn: map<Node, State>)
    requires For(b, p, rank) && Closed(p.graph, led.done) && n !in led.done && !n.inst.Unreachable?
    requires forall m :: m in led.inn <==> m in led.done && !m.inst.Unreachable?
    requires (forall m :: m in led.inn ==> p.SolvedAt(led.inn, b.shape, m)) && inn == led.inn[n := joined] && p.SolvedAt(inn, b.shape, n)
    ensures forall m :: m in inn ==> p.SolvedAt(inn, b.shape, m)
  {
    hide For, Program.SolvedAt;
    forall m | m in led.inn && m != n
      ensures p.SolvedAt(inn, b.shape, m)
    {
      SolvedStill(p, rank, b.shape, led, n, joined, m);
    }
  }

  lemma SentRight(b: Builder, p: Program, led: Ledger, n: Node, rest: set<ReachDefinition>, parts: set<Definition>, joined: State,
                  more: map<CfgEdge, ReachDefinition>, next: Ledger)
    requires n !in led.done && RestIs(b, led, n, rest, parts)
    requires (forall m :: m in led.inn ==> m in led.done) && forall e :: e in led.sent ==> e in p.graph.cfg && e.src in led.done
    requires more.Keys == p.graph.OutEdges(n) && forall e :: e in more ==> more[e].Is(b.AfterVisit(n, joined))
    requires next.sent == AfterSending(p.graph, led.sent, n, more) && next.inn == led.inn[n := joined]
    ensures forall e :: e in next.sent ==> e.src in next.inn && next.sent[e].Is(b.AfterVisit(e.src, next.inn[e.src]))
  {
    hide Builder.AfterVisit, Separate, AllParts, Shows;
    forall e | e in next.sent
      ensures e.src in next.inn && next.sent[e].Is(b.AfterVisit(e.src, next.inn[e.src]))
    {
      if e in more {
        assert next.sent[e] == more[e];
      } else {
        assert next.sent[e] == led.sent[e] && e !in p.graph.InEdges(n);
      }
    }
  }

  // ----- at least -----

  // The waiting states have at least the lasting origins of what the visits
  // leave of the merged states, and these at least what comes in.
  ghost predicate Bearing(b: Builder, p: Program, led: Ledger)
    reads b`floor, led.sent.Values
  {
    && (forall n :: n in led.inn <==> n in led.done && !n.inst.Unreachable?)
    && (forall e :: e in led.sent ==> e.src in led.inn && Bears(b.floor, led.sent[e], b.AfterVisit(e.src, led.inn[e.src])))
    && (forall n :: n in led.inn ==> p.GathersAt(led.inn, b.shape, n))
  }

  ghost predicate Bears(floor: map<Definition, set<Node>>, s: ReachDefinition, v: State)
    reads s
  {
    Assured(floor, s.globals, s.locals, s.stack, v)
  }

  // What does not wait at `n`.
  ghost predicate RestBears(b: Builder, led: Ledger, n: Node, rest: set<ReachDefinition>, floor: map<Definition, set<Node>>)
    reads rest
  {
    forall e :: e in led.sent && e.dst != n ==>
      e.src in led.inn && led.sent[e] in rest && Bears(floor, led.sent[e], b.AfterVisit(e.src, led.inn[e.src]))
  }

  lemma BearsMore(b: Builder, floor: map<Definition, set<Node>>, s: ReachDefinition, v: State)
    requires b.Risen(floor) && Bears(floor, s, v)
    ensures Bears(b.floor, s, v)
  {
  }

  // A state value that has all lasting origins of another.
  ghost predicate Outlasts(s: State, v: State) {
    forall slot, o :: Has(v, slot, o) && !o.inst.Const? ==> Has(s, slot, o)
  }

  lemma BornIsThere(b: Builder, s: ReachDefinition, u: State, v: State)
    requires b.Valid() && s.Is(u) && Bears(b.floor, s, v)
    ensures Outlasts(u, v)
  {
    hide Builder.Sound, Builder.Linked;
    b.StillHolds(s.globals, s.locals, s.stack, v);
    forall slot, o | Has(v, slot, o) && !o.inst.Const?
      ensures Has(u, slot, o)
    {
      assert o in Lasting(At(v, slot));
    }
  }

  lemma ArrivesAll(n: Node, s: State, v: State, results: nat)
    requires ShapeOf(s) == ShapeOf(v) && Outlasts(s, v) && ShapeOnArrival(n, ShapeOf(s), results).Some?
    ensures Outlasts(Arrive(n, s, results), Arrive(n, v, results))
  {
    hide Arrive, ShapeOnArrival, Has;
    forall slot, o | Has(Arrive(n, v, results), slot, o) && !o.inst.Const?
      ensures Has(Arrive(n, s, results), slot, o)
    {
      ArriveMoves(n, s, results, slot, o);
      ArriveMoves(n, v, results, slot, o);
    }
  }

  // What has come along an edge is in the merge.
  lemma GatheredAlong(b: Builder, p: Program, rank: Node -> nat, led: Ledger, n: Node, came: map<ReachDefinition, State>, joined: State, e: CfgEdge,
                      slot: Slot, o: Node)
    requires For(b, p, rank) && b.Valid() && Closed(p.graph, led.done) && CameBearing(b, p, led, n, came)
    requires Builder.CoversAll(joined, b.ArrivedValues(n, came)) && e in led.sent && e.dst == n && IsCall(o)
    requires Passes(e.src, n, ShapeOf(led.inn[e.src]), p.results) && Has(Cross(e.src, n, led.inn[e.src], p.results), slot, o)
    ensures Has(joined, slot, o)
  {
    hide Builder.Sound, Builder.Linked, Builder.AfterVisit, Builder.SizeAfter, Cross, Passes, Arrive, ShapeOnArrival, WfState, Program.GathersAt, Sized;
    var t := led.sent[e];
    var v := b.AfterVisit(e.src, led.inn[e.src]);
    ShapeLeft(b, p, rank, led, n, came, e);
    ArrivedIsCross(b, p, rank, e, led.inn[e.src]);
    ArrivesAll(n, came[t], v, p.results);
    assert Covers(joined, b.ArrivedValues(n, came)[t]);
  }

  // What waits at `n` has at least what the visits before it leave.
  ghost predicate CameBearing(b: Builder, p: Program, led: Ledger, n: Node, came: map<ReachDefinition, State>) {
    && came.Keys == Builder.Arriving(led.sent, n)
    && (forall e :: e in led.sent ==> e in p.graph.cfg && e.src in led.inn && e.src in led.done && !e.src.inst.Unreachable?)
    && (forall e :: e in led.sent && e.dst == n ==>
         led.sent[e] in came && Outlasts(came[led.sent[e]], b.AfterVisit(e.src, led.inn[e.src]))
         && ShapeOf(came[led.sent[e]]) == b.SizeAfter(e.src, b.shape(e.src)))
    && (forall m :: m in led.inn ==> p.GathersAt(led.inn, b.shape, m))
  }

  lemma ShapeLeft(b: Builder, p: Program, rank: Node -> nat, led: Ledger, n: Node, came: map<ReachDefinition, State>, e: CfgEdge)
    requires For(b, p, rank) && Closed(p.graph, led.done) && CameBearing(b, p, led, n, came) && e in led.sent && e.dst == n
    ensures ShapeOf(led.inn[e.src]) == b.shape(e.src) && p.graph.Live(e.src)
    ensures ShapeOf(came[led.sent[e]]) == ShapeOf(b.AfterVisit(e.src, led.inn[e.src]))
  {
    hide Accepts, Visit, ShapeAfter, WfState;
    assert p.GathersAt(led.inn, b.shape, e.src);
    if Accepts(e.src, b.shape(e.src), b.results) {
      VisitShape(e.src, led.inn[e.src], b.results);
    }
  }

  // The merge at `n` has at least what comes in along the edges.
  lemma GatheredNow(b: Builder, p: Program, rank: Node -> nat, led: Ledger, n: Node, came: map<ReachDefinition, State>, joined: State)
    requires For(b, p, rank) && b.Valid() && Closed(p.graph, led.done) && n !in led.done && n != p.graph.entry
    requires p.graph.InEdges(n) <= led.sent.Keys && CameBearing(b, p, led, n, came)
    requires Builder.CoversAll(joined, b.ArrivedValues(n, came)) && WfState(joined) && ShapeOf(joined) == b.shape(n)
    ensures p.GathersAt(led.inn[n := joined], b.shape, n)
  {
    hide Passes, WfState, Has, Cross, Program.GathersAt, Builder.ArrivedValues, For, Closed, Builder.Sound, Builder.Linked, Sized, Builder.CoversAll;
    var inn := led.inn[n := joined];
    forall e, slot, o | e in p.graph.InEdges(n) && IsCall(o) && p.Brings(inn, e, slot, o)
      ensures Has(joined, slot, o)
    {
      NotSelf(p, led, n, e);
      GatheredAlong(b, p, rank, led, n, came, joined, e, slot, o);
    }
    NowGathers(p, inn, b.shape, n);
  }

  lemma NowGathers(p: Program, inn: map<Node, State>, shape: Node -> Shape, n: Node)
    requires n in inn && n != p.graph.entry && WfState(inn[n]) && ShapeOf(inn[n]) == shape(n) && p.TakesEdges(inn, n)
    ensures p.GathersAt(inn, shape, n)
  {
  }

  lemma GatheredStill(p: Program, shape: Node -> Shape, led: Ledger, n: Node, joined: State, m: Node)
    requires Closed(p.graph, led.done) && n !in led.done && m in led.done && m in led.inn && p.GathersAt(led.inn, shape, m)
    ensures p.GathersAt(led.inn[n := joined], shape, m)
  {
    var inn := led.inn[n := joined];
    if m != p.graph.entry {
      forall e, slot, o | e in p.graph.InEdges(m) && IsCall(o) && p.Brings(inn, e, slot, o)
        ensures Has(inn[m], slot, o)
      {
        assert p.Brings(led.inn, e, slot, o);
      }
    }
  }

  lemma BearingAfter(b: Builder, p: Program, rank: Node -> nat, led: Ledger, n: Node, rest: set<ReachDefinition>, floor: map<Definition, set<Node>>,
                     joined: State, more: map<CfgEdge, ReachDefinition>, next: Ledger)
    requires For(b, p, rank) && Closed(p.graph, led.done) && n !in led.done && !n.inst.Unreachable?
    requires forall m :: m in led.inn <==> m in led.done && !m.inst.Unreachable?
    requires forall m :: m in led.inn ==> p.GathersAt(led.inn, b.shape, m)
    requires forall e :: e in led.sent ==> e in p.graph.cfg && e.src in led.done
    requires p.GathersAt(led.inn[n := joined], b.shape, n) && RestBears(b, led, n, rest, floor) && b.Risen(floor)
    requires more.Keys == p.graph.OutEdges(n) && b.AllAssured(more, b.AfterVisit(n, joined))
    requires next.done == led.done + {n} && next.sent == AfterSending(p.graph, led.sent, n, more) && next.inn == led.inn[n := joined]
    ensures Bearing(b, p, next)
  {
    hide Builder.AfterVisit, For, Assured, Program.GathersAt, Builder.Risen;
    forall m | m in next.inn
      ensures p.GathersAt(next.inn, b.shape, m)
    {
      if m != n {
        GatheredStill(p, b.shape, led, n, joined, m);
      }
    }
    forall e | e in next.sent
      ensures e.src in next.inn && Bears(b.floor, next.sent[e], b.AfterVisit(e.src, next.inn[e.src]))
    {
      if e in more {
        assert next.sent[e] == more[e];
      } else {
        assert next.sent[e] == led.sent[e] && e !in p.graph.InEdges(n);
        BearsMore(b, floor, led.sent[e], b.AfterVisit(e.src, led.inn[e.src]));
      }
    }
  }

  // ----- one task -----

  // An instruction whose edges have all delivered.
  ghost predicate AtTurn(b: Builder, led: Ledger, n: Node)
    reads b, b.defs, b.kept, b.states, b.saved, led.sent.Values
  {
    && b.Valid() && b.loopsStack == [] && Sized(b, led)
    && Waiting(b.graph, b.reachDef, led) && Closed(b.graph, led.done) && Logged(b.graph, led.done + {n}, b.passed)
    && TasksBut(b.graph, led.done, b.dfsList, {n}) && n !in led.done && AllDelivered(b.graph, led.done, n) && b.graph.Live(n)
  }

  // The visit touches nothing but what has waited at `n`.
  method PassHere(b: Builder, ghost p: Program, ghost rank: Node -> nat, n: Node, ghost led: Ledger,
                  ghost came: map<ReachDefinition, State>, ghost rest: set<ReachDefinition>, ghost parts: set<Definition>)
    returns (ok: bool, ghost joined: State, ghost more: map<CfgEdge, ReachDefinition>)
    requires For(b, p, rank) && AtTurn(b, led, n) && !n.inst.Unreachable?
    requires came.Keys == b.Delivered(n) && (forall t :: t in came ==> t.Is(came[t])) && rest !! b.Delivered(n)
    modifies b`edges, b`dfsList, b`reachDef, b`defs, b`kept, b`states, b`saved, b`floor, b.Delivered(n), AllParts(b.Delivered(n))
    ensures b.Valid() && ok && b.Grown() && b.Passed(old(b.Now(n)), n, came, b.shape(n), joined, more)
    ensures old(RestSized(b, led, n, rest)) ==> RestSized(b, led, n, rest)
    ensures old(RestBears(b, led, n, rest, b.floor)) ==> RestBears(b, led, n, rest, old(b.floor))
    ensures old(RestIs(b, led, n, rest, parts) && parts !! AllParts(b.Delivered(n))) ==> RestIs(b, led, n, rest, parts)
    ensures old(b.states) <= b.states
  {
    hide Builder.Sound, Builder.Linked, Builder.Passed, RestSized, RestIs, Sized, Waiting, Closed, Logged, TasksBut, AllDelivered, Flowgraph.Live, AllParts,
         Builder.AllCome, Accepts, Shows, RestBears;
    CanPass(b, p, rank, led, n, came);
    ok, joined, more := b.Pass(n, came, b.shape(n));
  }

  lemma CanPass(b: Builder, p: Program, rank: Node -> nat, led: Ledger, n: Node, came: map<ReachDefinition, State>)
    requires For(b, p, rank) && AtTurn(b, led, n) && !n.inst.Unreachable?
    requires came.Keys == b.Delivered(n) && forall t :: t in came ==> t.Is(came[t])
    ensures n in b.graph.Nodes() && !n.inst.Start? && !n.inst.LoopHead? && n != b.graph.entry
    ensures b.AllCome(n, came, b.shape(n)) && Accepts(n, b.shape(n), b.results)
  {
    hide Builder.Sound, Builder.Linked, Builder.AllCome, Accepts, Shows;
    var e :| e in b.graph.InEdges(n);
    PendingAfter(b.graph, led.done, n);
    ComesTogether(b, p, rank, led, n, came);
  }

  lemma BeforePass(b: Builder, p: Program, led: Ledger, n: Node, came: map<ReachDefinition, State>, rest: set<ReachDefinition>)
    requires AtTurn(b, led, n) && rest == Rest(led.sent, n) && b.graph == p.graph && b.results == p.results
    requires came.Keys == b.Delivered(n) && forall t :: t in came ==> t.Is(came[t])
    ensures rest !! b.Delivered(n) && rest <= b.states && led.sent.Values <= b.states && RestSized(b, led, n, rest)
    ensures ValuesRight(b, p, led) ==>
              && RestIs(b, led, n, rest, AllParts(rest)) && Separate(b.Delivered(n)) && AllParts(rest) !! AllParts(b.Delivered(n))
              && AllParts(rest) <= b.defs && CameRight(b, p, led, n, came)
  {
    hide Builder.Sound, ReachDefinition.Parts, SlotsApart, Shows, Builder.AfterVisit, Builder.SizeAfter, TasksBut, Logged, Program.SolvedAt, RestIs, RestSized;
    RestApart(b, led, n, b.Delivered(n));
    if ValuesRight(b, p, led) {
      RestIsApart(b, p, led, n, b.Delivered(n));
      forall e | e in led.sent && e.dst == n
        ensures led.sent[e] in came && came[led.sent[e]] == b.AfterVisit(e.src, led.inn[e.src])
      {
        IsSnap(led.sent[e], came[led.sent[e]]);
        IsSnap(led.sent[e], b.AfterVisit(e.src, led.inn[e.src]));
      }
    }
  }

  lemma BeforeBearing(b: Builder, p: Program, led: Ledger, n: Node, came: map<ReachDefinition, State>, rest: set<ReachDefinition>)
    requires AtTurn(b, led, n) && rest == Rest(led.sent, n) && b.graph == p.graph && b.results == p.results && Bearing(b, p, led)
    requires came.Keys == b.Delivered(n) && forall t :: t in came ==> t.Is(came[t])
    ensures RestBears(b, led, n, rest, b.floor) && CameBearing(b, p, led, n, came)
  {
    hide Builder.Sound, Builder.Linked, Shows, Builder.AfterVisit, Builder.SizeAfter, TasksBut, Logged, Program.GathersAt, Outlasts, Assured, Closed, AllDelivered;
    SentInGraph(b.graph, b.reachDef, led);
    forall e | e in led.sent && e.dst == n
      ensures led.sent[e] in came && Outlasts(came[led.sent[e]], b.AfterVisit(e.src, led.inn[e.src]))
      ensures ShapeOf(came[led.sent[e]]) == b.SizeAfter(e.src, b.shape(e.src))
    {
      assert led.sent[e] in b.Delivered(n);
      b.SizeIs(led.sent[e], came[led.sent[e]]);
      BornIsThere(b, led.sent[e], came[led.sent[e]], b.AfterVisit(e.src, led.inn[e.src]));
    }
  }

  lemma RunningAfter(b: Builder, p: Program, rank: Node -> nat, was: Before, led: Ledger, n: Node, came: map<ReachDefinition, State>,
                     rest: set<ReachDefinition>, joined: State, more: map<CfgEdge, ReachDefinition>, next: Ledger)
    requires For(b, p, rank) && b.Valid() && b.loopsStack == [] && b.Passed(was, n, came, b.shape(n), joined, more)
    requires Waiting(b.graph, was.reachDef, led) && Closed(b.graph, led.done) && Logged(b.graph, led.done + {n}, b.passed)
    requires TasksBut(b.graph, led.done, was.tasks, {n}) && n !in led.done && AllDelivered(b.graph, led.done, n) && b.graph.Live(n)
    requires !n.inst.Unreachable? && n != b.graph.entry && led.sent.Values <= was.states <= b.states && rest <= b.states && RestSized(b, led, n, rest)
    requires next == Ledger(led.done + {n}, AfterSending(b.graph, led.sent, n, more), led.inn[n := joined], Operands(AfterSending(b.graph, led.sent, n, more)))
    ensures Running(b, next)
  {
    hide Builder.Sound, Builder.Linked, Builder.SizeAfter, Builder.Marks, JoinsAll, Builder.Carried, Adds, TasksBut, Logged, Closed, Waiting, AllDelivered, Scheduled,
         Flowgraph.Live, RestSized, Sized, Builder.AllSentDiffer, Builder.CoversAll, Builder.AllAssured, Builder.Risen, Builder.Handed, OpsAfter, Builder.OperandsLeft,
         Builder.ArrivedValues, Builder.AfterVisit, WfState;
    OnlyOneWay(b.graph, rank);
    MovedFacts(b, was, n, more);
    SentInGraph(b.graph, was.reachDef, led);
    PendingAfter(b.graph, led.done, n);
    SizedAfter(b, led, n, rest, more, next);
    WaitingAfter(b.graph, was.reachDef, b.reachDef, led, more, was.states, next, n);
    ClosedAfter(b.graph, led.done, n);
    TasksAfter(b.graph, led.done, was.tasks, b.dfsList, n);
  }

  lemma OpsMoved(b: Builder, was: Before, led: Ledger, n: Node, rest: set<ReachDefinition>, more: map<CfgEdge, ReachDefinition>, next: Ledger)
    requires Waiting(b.graph, was.reachDef, led) && Closed(b.graph, led.done) && n !in led.done && !n.inst.Unreachable? && AllDelivered(b.graph, led.done, n)
    requires RestSized(b, led, n, rest) && more.Keys == b.graph.OutEdges(n)
    requires next.sent == AfterSending(b.graph, led.sent, n, more) && next.ops == Operands(next.sent)
    ensures OpsAfter(b.graph, led, n, more, next)
  {
    hide Builder.SizeAfter, Flowgraph.Live, Builder.AllSentDiffer;
    PendingAfter(b.graph, led.done, n);
    forall e | e in led.sent && e.dst != n
      ensures e in next.ops && next.ops[e] == led.ops[e]
    {
      assert e in next.sent && next.sent[e] == led.sent[e];
    }
  }

  // ----- operands that are shared -----

  // The operands of the state at the end of an edge, as they are on arrival.
  ghost function Left(b: Builder, led: Ledger, e: CfgEdge): seq<Definition>
    requires e in led.ops
  {
    Surviving(e.dst, b.SizeAfter(e.src, b.shape(e.src)), led.ops[e], b.results)
  }

  // What was recorded of the operands that arrive at `n` is in the merge, the
  // operands that the visit does not take go on, the same objects along all
  // edges, and others share what it changes.
  ghost predicate Handing(b: Builder, floor: map<Definition, set<Node>>, led: Ledger, n: Node, next: Ledger)
    reads b`floor
  {
    && b.Risen(floor) && n in next.inn && next.inn == led.inn[n := next.inn[n]]
    && (forall e :: e in led.ops && e.dst != n ==> e in next.ops && next.ops[e] == led.ops[e])
    && (forall e :: e in b.graph.InEdges(n) ==> e in led.ops && Received(floor, Left(b, led, e), next.inn[n]))
    && exists e :: e in b.graph.InEdges(n) && e in led.ops && GoesOn(b, n, Left(b, led, e), next)
  }

  ghost predicate Received(floor: map<Definition, set<Node>>, stack: seq<Definition>, s: State) {
    |stack| == |s.stack| && forall i :: 0 <= i < |stack| && stack[i] in floor ==> floor[stack[i]] <= s.stack[i].Keys
  }

  ghost predicate GoesOn(b: Builder, n: Node, stack: seq<Definition>, next: Ledger)
    requires n in next.inn
    reads b`floor
  {
    && (forall e :: e in b.graph.OutEdges(n) ==> e in next.ops && Builder.Untaken(n, stack, next.ops[e]))
    && (InPlace(n.inst) && Accepts(n, ShapeOf(next.inn[n]), b.results) ==>
          stack != [] && stack[0] in b.floor && Lasting(Result(n, next.inn[n])) <= b.floor[stack[0]])
  }

  // What waits at `n`, as values.
  ghost predicate OpsCame(b: Builder, led: Ledger, n: Node, came: map<ReachDefinition, State>, was: Before) {
    && led.ops.Keys == led.sent.Keys && came.Keys == Builder.Arriving(led.sent, n) && was.stacks.Keys == came.Keys
    && forall e :: e in led.sent && e.dst == n ==>
         && var t := led.sent[e];
            t in came && was.stacks[t] == led.ops[e] && ShapeOf(came[t]) == b.SizeAfter(e.src, b.shape(e.src)) && Received(was.floor, led.ops[e], came[t])
  }

  lemma OpsHere(b: Builder, led: Ledger, n: Node, came: map<ReachDefinition, State>)
    requires AtTurn(b, led, n) && came.Keys == b.Delivered(n) && forall t :: t in came ==> t.Is(came[t])
    ensures OpsCame(b, led, n, came, b.Now(n))
  {
    hide Builder.Sound, Builder.Linked, Builder.SizeAfter, TasksBut, Logged, Closed, AllDelivered, Flowgraph.Live, Shows;
    forall e | e in led.sent && e.dst == n
      ensures var t := led.sent[e];
              && t in came && Stacks(b.Delivered(n))[t] == led.ops[e]
              && ShapeOf(came[t]) == b.SizeAfter(e.src, b.shape(e.src)) && Received(b.floor, led.ops[e], came[t])
    {
      var t := led.sent[e];
      assert t in b.Delivered(n);
      b.SizeIs(t, came[t]);
      FloorIsThere(b, t, came[t]);
    }
  }

  lemma FloorIsThere(b: Builder, t: ReachDefinition, v: State)
    requires b.Valid() && t.Is(v)
    ensures Received(b.floor, t.stack, v)
  {
  }

  lemma ReceivedOnArrival(n: Node, floor: map<Definition, set<Node>>, stack: seq<Definition>, s: State, joined: State, results: nat)
    requires ShapeOnArrival(n, ShapeOf(s), results).Some? && Received(floor, stack, s) && Covers(joined, Arrive(n, s, results))
    requires ShapeOf(joined) == ShapeOf(Arrive(n, s, results))
    ensures Received(floor, Surviving(n, ShapeOf(s), stack, results), joined)
  {
    ArriveMeans(n, s, results);
    var left, t := Surviving(n, ShapeOf(s), stack, results), Arrive(n, s, results);
    forall i | 0 <= i < |left| && left[i] in floor
      ensures floor[left[i]] <= joined.stack[i].Keys
    {
      var slot := StackSlot(|t.stack| - 1 - i);
      assert HasSlot(t, slot) && At(t, slot) == t.stack[i] && At(joined, slot) == joined.stack[i];
    }
  }

  lemma AllReceived(b: Builder, p: Program, rank: Node -> nat, was: Before, led: Ledger, n: Node, came: map<ReachDefinition, State>, joined: State)
    requires For(b, p, rank) && !n.inst.LoopHead? && Builder.CoversAll(joined, b.ArrivedValues(n, came)) && ShapeOf(joined) == b.shape(n)
    requires OpsCame(b, led, n, came, was) && b.graph.InEdges(n) <= led.sent.Keys
    requires Closed(b.graph, led.done) && (forall e :: e in led.sent ==> e.src in led.done && !e.src.inst.Unreachable?)
    ensures forall e :: e in b.graph.InEdges(n) ==> e in led.ops && Received(was.floor, Left(b, led, e), joined)
  {
    hide Builder.SizeAfter, Closed, Flowgraph.Live, Surviving, Arrive, ShapeOnArrival, Covers, Flowgraph.Orderly, Program.Shaped, Received, For;
    forall e | e in b.graph.InEdges(n)
      ensures Received(was.floor, Left(b, led, e), joined)
    {
      ArrivesHere(b, p, rank, led, e);
      var t := led.sent[e];
      SameResults(b, p, rank);
      assert Covers(joined, b.ArrivedValues(n, came)[t]);
      ReceivedOnArrival(n, was.floor, led.ops[e], came[t], joined, b.results);
    }
  }

  lemma SameResults(b: Builder, p: Program, rank: Node -> nat)
    requires For(b, p, rank)
    ensures b.results == p.results && b.graph == p.graph
  {
  }

  lemma HandedOn(b: Builder, p: Program, rank: Node -> nat, was: Before, led: Ledger, n: Node, came: map<ReachDefinition, State>,
                 joined: State, more: map<CfgEdge, ReachDefinition>, next: Ledger)
    requires For(b, p, rank) && !n.inst.LoopHead? && HandedFacts(b, was, n, came, joined, more)
    requires OpsCame(b, led, n, came, was) && OpsAfter(b.graph, led, n, more, next) && b.graph.InEdges(n) <= led.sent.Keys
    requires Closed(b.graph, led.done) && next.inn == led.inn[n := joined]
    requires forall e :: e in led.sent ==> e in b.graph.cfg && e.src in led.done && !e.src.inst.Unreachable?
    ensures Handing(b, was.floor, led, n, next)
  {
    hide Builder.SizeAfter, Closed, Flowgraph.Live, Builder.Current, Builder.Handed,
         Result, Lasting, Surviving, Builder.CoversAll, Builder.ArrivedValues, Received, For, Builder.Risen, GoesOn, OpsCame, Builder.OperandsLeft, Left;
    AllReceived(b, p, rank, was, led, n, came, joined);
    var t :| t in was.stacks && t in came && b.Handed(n, b.OperandsLeft(n, ShapeOf(came[t]), was.stacks[t]), joined, more);
    var e := CameAlongEdge(b, led, n, came, was, t);
    GoesOnSo(b, n, Left(b, led, e), joined, more, next);
  }

  lemma CameAlongEdge(b: Builder, led: Ledger, n: Node, came: map<ReachDefinition, State>, was: Before, t: ReachDefinition) returns (e: CfgEdge)
    requires OpsCame(b, led, n, came, was) && t in came && t in was.stacks && !n.inst.LoopHead? && forall f :: f in led.sent ==> f in b.graph.cfg
    ensures e in b.graph.InEdges(n) && e in led.ops && b.OperandsLeft(n, ShapeOf(came[t]), was.stacks[t]) == Left(b, led, e)
  {
    hide Surviving, Received, Builder.SizeAfter;
    e :| e in led.sent && e.dst == n && led.sent[e] == t;
  }

  ghost predicate HandedFacts(b: Builder, was: Before, n: Node, came: map<ReachDefinition, State>, joined: State, more: map<CfgEdge, ReachDefinition>)
    reads *
  {
    && more.Keys == b.graph.OutEdges(n) && ShapeOf(joined) == b.shape(n) && b.Current() && b.Risen(was.floor)
    && Builder.CoversAll(joined, b.ArrivedValues(n, came))
    && exists t :: t in was.stacks && t in came && b.Handed(n, b.OperandsLeft(n, ShapeOf(came[t]), was.stacks[t]), joined, more)
  }

  lemma GoesOnSo(b: Builder, n: Node, stack: seq<Definition>, joined: State, more: map<CfgEdge, ReachDefinition>, next: Ledger)
    requires b.Current() && b.Handed(n, stack, joined, more) && n in next.inn && next.inn[n] == joined && more.Keys == b.graph.OutEdges(n)
    requires forall e :: e in more ==> e in next.ops && next.ops[e] == more[e].stack
    ensures GoesOn(b, n, stack, next)
  {
    hide Builder.Current, Accepts, Result, InPlace, Builder.Untaken, Lasting;
    ChangedIsRecorded(b, n, stack, joined);
  }

  lemma ArrivesHere(b: Builder, p: Program, rank: Node -> nat, led: Ledger, e: CfgEdge)
    requires For(b, p, rank) && Closed(b.graph, led.done) && e in b.graph.cfg && e.src in led.done && !e.src.inst.Unreachable? && !e.dst.inst.LoopHead?
    ensures ShapeOnArrival(e.dst, b.SizeAfter(e.src, b.shape(e.src)), b.results) == Some(b.shape(e.dst))
  {
    ComesAlong(b, p, rank, e);
  }

  lemma ChangedIsRecorded(b: Builder, n: Node, stack: seq<Definition>, joined: State)
    requires b.Altered(n, stack, joined) && b.Current()
    ensures InPlace(n.inst) && Accepts(n, ShapeOf(joined), b.results) ==>
              stack != [] && stack[0] in b.floor && Lasting(Result(n, joined)) <= b.floor[stack[0]]
  {
    hide Accepts, Result, InPlace;
  }

  // The operands of what has stayed and of what has gone on.
  ghost predicate OpsAfter(g: Flowgraph, led: Ledger, n: Node, more: map<CfgEdge, ReachDefinition>, next: Ledger)
    reads more.Values
  {
    && more.Keys == g.OutEdges(n) && led.ops.Keys == led.sent.Keys
    && (forall e :: e in led.sent && e.dst != n ==> e in next.ops && next.ops[e] == led.ops[e])
    && (forall e :: e in more ==> e in next.ops && next.ops[e] == more[e].stack)
  }

  lemma OnlyOneWay(g: Flowgraph, rank: Node -> nat)
    requires g.Orderly(rank)
    ensures forall e, f :: e in g.cfg && f in g.cfg && e.dst == f.dst && g.Live(e.dst) && e.dst.inst.Unreachable? ==> e == f
  {
  }

  lemma SentInGraph(g: Flowgraph, reach: map<Node, set<ReachDefinition>>, led: Ledger)
    requires Waiting(g, reach, led)
    ensures forall e :: e in led.sent ==> e in g.cfg && e.src in led.done && !e.src.inst.Unreachable?
  {
  }

  lemma MovedFacts(b: Builder, was: Before, n: Node, more: map<CfgEdge, ReachDefinition>)
    requires b.Moved(was, n, Among(was.reachDef, n), more)
    ensures more.Keys == b.graph.OutEdges(n) && more.Values <= b.states
    ensures forall e :: e in more ==> more[e] in Among(was.reachDef, n) || more[e] !in was.states
    ensures n !in b.reachDef && forall m :: m != n ==> Among(b.reachDef, m) == Among(was.reachDef, m) + Builder.Arriving(more, m)
    ensures Scheduled(b.graph.OutEdges(n), was.tasks, b.dfsList, n, b.loopsStack)
  {
    hide Scheduled;
    forall m | m != n
      ensures Among(b.reachDef, m) == Among(was.reachDef, m) + Builder.Arriving(more, m)
    {
      assert b.Delivered(m) == Among(b.reachDef, m);
    }
  }

  lemma ExactAfter(b: Builder, p: Program, rank: Node -> nat, was: Before, led: Ledger, n: Node, came: map<ReachDefinition, State>,
                   rest: set<ReachDefinition>, parts: set<Definition>, joined: State, more: map<CfgEdge, ReachDefinition>, next: Ledger)
    requires For(b, p, rank) && b.Passed(was, n, came, b.shape(n), joined, more) && was.separate && parts <= was.defs && parts !! was.parts
    requires SplitsEmpty(p, b.shape) && Closed(b.graph, led.done) && n !in led.done && AllDelivered(b.graph, led.done, n) && b.graph.Live(n)
    requires !n.inst.Unreachable? && !n.inst.LoopHead? && n != b.graph.entry && b.graph.InEdges(n) <= led.sent.Keys
    requires RestIs(b, led, n, rest, parts) && CameRight(b, p, led, n, came)
    requires forall m :: m in led.inn <==> m in led.done && !m.inst.Unreachable?
    requires next.done == led.done + {n} && next.sent == AfterSending(b.graph, led.sent, n, more) && next.inn == led.inn[n := joined]
    ensures ValuesRight(b, p, next)
  {
    hide Builder.Marks, JoinsAll, Adds, AllDelivered, Flowgraph.Live, RestIs, Builder.AllSentDiffer, WfState, Builder.ArrivedValues, Builder.Carried, CameRight,
         Closed, Flowgraph.Orderly, Program.Shaped, SplitsEmpty, Builder.SizeAfter, ValuesRight, EdgesRight;
    MovedFacts(b, was, n, more);
    SolvedNow(b, p, rank, led, n, came, joined);
    CarriedApart(b, p, rank, n, joined, more, was.parts + (b.defs - was.defs));
    CameFacts(b, p, led, n, came);
    ValuesAfter(b, p, rank, led, n, rest, parts, joined, more, next);
  }

  // Whatever is shared, the waiting states have at least what they should,
  // and the edges are those of the merged states.
  lemma LeastAfter(b: Builder, p: Program, rank: Node -> nat, was: Before, led: Ledger, n: Node, came: map<ReachDefinition, State>,
                   rest: set<ReachDefinition>, joined: State, more: map<CfgEdge, ReachDefinition>, next: Ledger)
    requires For(b, p, rank) && b.Valid() && b.Passed(was, n, came, b.shape(n), joined, more)
    requires Closed(b.graph, led.done) && n !in led.done && AllDelivered(b.graph, led.done, n) && b.graph.Live(n)
    requires !n.inst.Unreachable? && !n.inst.LoopHead? && n != b.graph.entry && b.graph.InEdges(n) <= led.sent.Keys
    requires RestBears(b, led, n, rest, was.floor) && CameBearing(b, p, led, n, came)
    requires forall m :: m in led.inn <==> m in led.done && !m.inst.Unreachable?
    requires forall e :: e in was.edges <==> exists m :: m in led.inn && e in b.Marks(m, led.inn[m])
    requires next.done == led.done + {n} && next.sent == AfterSending(b.graph, led.sent, n, more) && next.inn == led.inn[n := joined]
    ensures Bearing(b, p, next) && EdgesRight(b, next)
  {
    hide Builder.Sound, Builder.Linked, Builder.Marks, JoinsAll, Adds, AllDelivered, Flowgraph.Live, Builder.AllSentDiffer, WfState, Builder.ArrivedValues, Builder.Carried, CameBearing,
         Closed, Flowgraph.Orderly, Program.Shaped, Builder.SizeAfter, EdgesRight, Bearing, RestBears, Builder.CoversAll, Builder.AllAssured, Builder.Risen, Builder.Handed;
    MovedFacts(b, was, n, more);
    BearingFacts(b, p, led, n, came);
    GatheredNow(b, p, rank, led, n, came, joined);
    EdgesAfter(b, was.edges, led, n, joined, next);
    BearingAfter(b, p, rank, led, n, rest, was.floor, joined, more, next);
  }

  lemma BearingFacts(b: Builder, p: Program, led: Ledger, n: Node, came: map<ReachDefinition, State>)
    requires CameBearing(b, p, led, n, came)
    ensures forall m :: m in led.inn ==> p.GathersAt(led.inn, b.shape, m)
    ensures forall e :: e in led.sent ==> e in p.graph.cfg && e.src in led.done
  {
  }

  lemma CameFacts(b: Builder, p: Program, led: Ledger, n: Node, came: map<ReachDefinition, State>)
    requires CameRight(b, p, led, n, came)
    ensures forall m :: m in led.inn ==> p.SolvedAt(led.inn, b.shape, m)
    ensures forall e :: e in led.sent ==> e in p.graph.cfg && e.src in led.done
  {
  }

  // What is sent has no definition in common, because the operands are gone
  // where there is more than one way on.
  lemma CarriedApart(b: Builder, p: Program, rank: Node -> nat, n: Node, joined: State, more: map<CfgEdge, ReachDefinition>, parts: set<Definition>)
    requires For(b, p, rank) && SplitsEmpty(p, b.shape) && b.graph.Live(n) && !n.inst.Unreachable? && ShapeOf(joined) == b.shape(n)
    requires b.Carried(n, b.AfterVisit(n, joined), more, parts)
    ensures Separate(more.Values) && AllParts(more.Values) <= parts && forall e :: e in more ==> more[e].Is(b.AfterVisit(n, joined))
  {
    hide Separate, AllParts, Shows, Flowgraph.Live;
    assert Accepts(n, b.shape(n), b.results);
    VisitShape(n, joined, b.results);
  }

  method PassOne(b: Builder, ghost p: Program, ghost rank: Node -> nat, n: Node, ghost led: Ledger) returns (ok: bool, ghost next: Ledger)
    requires For(b, p, rank) && AtTurn(b, led, n) && !n.inst.Unreachable?
    modifies b`edges, b`dfsList, b`reachDef, b`defs, b`kept, b`states, b`saved, b`floor, b.Delivered(n), AllParts(b.Delivered(n))
    ensures ok && b.Grown() && Running(b, next) && next.done == led.done + {n}
    ensures old(Bearing(b, p, led) && EdgesRight(b, led)) ==> Bearing(b, p, next) && EdgesRight(b, next)
    ensures SplitsEmpty(p, b.shape) && old(ValuesRight(b, p, led)) ==> ValuesRight(b, p, next)
    ensures Handing(b, old(b.floor), led, n, next)
  {
    hide Bearing, EdgesRight, ValuesRight, RestBears, CameBearing, AfterSending, Operands, Rest, OpsCame, OpsAfter, Handing;
    hide Builder.Sound, Builder.Linked, Builder.Passed, RestSized, RestIs, Sized, Waiting, Closed, Logged, TasksBut, AllDelivered, Flowgraph.Live, AllParts, Flowgraph.Orderly, Program.Shaped,
         Shows, Separate, CameRight, SplitsEmpty, Running, Stacks, ReachDefinition.Snap, Builder.Delivered;
    ghost var came, rest, was := b.Snaps(b.Delivered(n)), Rest(led.sent, n), b.Now(n);
    ghost var parts, exact, least := AllParts(rest), SplitsEmpty(p, b.shape) && ValuesRight(b, p, led), Bearing(b, p, led) && EdgesRight(b, led);
    if exact {
      RightInn(b, p, led);
    }
    if least {
      LeastInn(b, p, led);
      BeforeBearing(b, p, led, n, came, rest);
    }
    BeforePass(b, p, led, n, came, rest);
    CanPass(b, p, rank, led, n, came);
    AllThere(b, p, rank, led, n);
    SentInGraph(b.graph, b.reachDef, led);
    OpsHere(b, led, n, came);
    ghost var joined, more;
    ok, joined, more := PassHere(b, p, rank, n, led, came, rest, parts);
    next := Ledger(led.done + {n}, AfterSending(b.graph, led.sent, n, more), led.inn[n := joined], Operands(AfterSending(b.graph, led.sent, n, more)));
    RunningAfter(b, p, rank, was, led, n, came, rest, joined, more, next);
    HandedAfter(b, p, rank, was, led, n, came, rest, joined, more, next);
    if exact {
      ExactAfter(b, p, rank, was, led, n, came, rest, parts, joined, more, next);
    }
    if least {
      LeastAfter(b, p, rank, was, led, n, came, rest, joined, more, next);
    }
  }

  lemma HandedAfter(b: Builder, p: Program, rank: Node -> nat, was: Before, led: Ledger, n: Node, came: map<ReachDefinition, State>,
                    rest: set<ReachDefinition>, joined: State, more: map<CfgEdge, ReachDefinition>, next: Ledger)
    requires For(b, p, rank) && b.Valid() && b.Passed(was, n, came, b.shape(n), joined, more) && !n.inst.LoopHead? && !n.inst.Unreachable?
    requires OpsCame(b, led, n, came, was) && b.graph.InEdges(n) <= led.sent.Keys && RestSized(b, led, n, rest)
    requires Waiting(b.graph, was.reachDef, led) && Closed(b.graph, led.done) && n !in led.done && AllDelivered(b.graph, led.done, n)
    requires next.sent == AfterSending(b.graph, led.sent, n, more) && next.ops == Operands(next.sent) && next.inn == led.inn[n := joined]
    ensures Handing(b, was.floor, led, n, next)
  {
    hide Builder.Sound, Builder.Linked, For, Waiting, Closed, AllDelivered, RestSized, AfterSending, Operands, OpsCame, OpsAfter, Handing, Builder.Passed, HandedFacts;
    SentInGraph(b.graph, was.reachDef, led);
    MovedOn(b, was, n, came, joined, more);
    AllOut(b, was, n, came, joined, more);
    OpsMoved(b, was, led, n, rest, more, next);
    HandedOn(b, p, rank, was, led, n, came, joined, more, next);
  }

  lemma AllOut(b: Builder, was: Before, n: Node, came: map<ReachDefinition, State>, joined: State, more: map<CfgEdge, ReachDefinition>)
    requires HandedFacts(b, was, n, came, joined, more)
    ensures more.Keys == b.graph.OutEdges(n)
  {
  }

  lemma MovedOn(b: Builder, was: Before, n: Node, came: map<ReachDefinition, State>, joined: State, more: map<CfgEdge, ReachDefinition>)
    requires b.Passed(was, n, came, b.shape(n), joined, more)
    ensures HandedFacts(b, was, n, came, joined, more)
  {
    hide Builder.Current, Builder.Risen, Builder.CoversAll, Builder.Handed, Builder.AllAssured, Builder.Carried, JoinsAll, Adds, Builder.AllSentDiffer, Builder.OperandsLeft;
  }

  lemma RightInn(b: Builder, p: Program, led: Ledger)
    requires ValuesRight(b, p, led)
    ensures forall m :: m in led.inn <==> m in led.done && !m.inst.Unreachable?
  {
  }

  lemma LeastInn(b: Builder, p: Program, led: Ledger)
    requires Bearing(b, p, led) && EdgesRight(b, led)
    ensures forall m :: m in led.inn <==> m in led.done && !m.inst.Unreachable?
    ensures forall e :: e in b.edges <==> exists m :: m in led.inn && e in b.Marks(m, led.inn[m])
  {
  }

  lemma AllThere(b: Builder, p: Program, rank: Node -> nat, led: Ledger, n: Node)
    requires For(b, p, rank) && AtTurn(b, led, n) && !n.inst.Unreachable?
    ensures b.graph.InEdges(n) <= led.sent.Keys
  {
    hide Builder.Sound, Builder.Linked, Sized;
    PendingAfter(b.graph, led.done, n);
  }

  // An instruction that ends the program has passed: nothing goes on.
  lemma EndAfter(b: Builder, p: Program, rank: Node -> nat, led: Ledger, n: Node, t: Task, before: seq<Node>, next: Ledger)
    requires For(b, p, rank) && b.Valid() && Sized(b, led) && Waiting(b.graph, b.reachDef, led) && Closed(b.graph, led.done)
    requires Logged(b.graph, led.done, before) && b.passed == (if b.Waits(n) then before else before + [n]) && b.loopsStack == []
    requires TasksBut(b.graph, led.done, b.dfsList, {n}) && TaskOf(b.graph, led.done, t) && t.node == n && n.inst.Unreachable? && n !in led.done
    requires forall u :: u in b.dfsList ==> u.node != n
    requires next == led.(done := led.done + {n})
    ensures Running(b, next)
  {
    hide Builder.Sound, Builder.Linked, Builder.Waits, Builder.SizeAfter, Flowgraph.Live, Logged, TasksBut, Program.Shaped, Builder.AllSentDiffer;
    var e :| e in b.graph.InEdges(n) && Delivers(e, led.done) && e.src == t.last;
    LiveTarget(b.graph, led.done, e);
    OnlyThisWay(b.graph, rank, e);
    assert Pending(b.graph, next.done) == Pending(b.graph, led.done);
    assert e in led.sent;
    WaitsForAll(b, led, n);
    LoggedAfter(b.graph, led.done, before, n);
    EndsHere(b.graph, led.done, b.dfsList, n);
  }

  lemma EndChangesNothing(b: Builder, p: Program, led: Ledger, n: Node, next: Ledger)
    requires n.inst.Unreachable? && next == led.(done := led.done + {n})
    ensures (ValuesRight(b, p, led) ==> ValuesRight(b, p, next)) && (EdgesRight(b, led) ==> EdgesRight(b, next)) && (Bearing(b, p, led) ==> Bearing(b, p, next))
  {
    hide Assured, Program.GathersAt, Program.SolvedAt, Separate, Shows, Builder.AfterVisit, Builder.Marks;
  }

  lemma OnlyThisWay(g: Flowgraph, rank: Node -> nat, e: CfgEdge)
    requires g.Orderly(rank) && e in g.cfg && g.Live(e.dst) && e.dst.inst.Unreachable?
    ensures g.InEdges(e.dst) == {e} && e.dst != g.entry
  {
  }

  // An instruction that has not to wait has its turn.
  lemma HasTurn(b: Builder, p: Program, rank: Node -> nat, led: Ledger, n: Node, t: Task, before: seq<Node>)
    requires For(b, p, rank) && b.Valid() && Sized(b, led) && Waiting(b.graph, b.reachDef, led) && Closed(b.graph, led.done)
    requires Logged(b.graph, led.done, before) && b.passed == (if b.Waits(n) then before else before + [n])
    requires TasksBut(b.graph, led.done, b.dfsList, {n}) && TaskOf(b.graph, led.done, t) && t.node == n && b.loopsStack == [] && !n.inst.Unreachable?
    ensures !n.inst.LoopHead?
    ensures !b.Waits(n) ==> AtTurn(b, led, n)
    ensures b.Waits(n) ==> (n in led.done || !AllDelivered(b.graph, led.done, n)) && Logged(b.graph, led.done, b.passed)
  {
    hide Builder.Waits;
    hide Builder.Sound, Builder.Linked, Sized, Logged, TasksBut, Flowgraph.Live, Builder.AllSentDiffer;
    var e :| e in b.graph.InEdges(n) && Delivers(e, led.done) && e.src == t.last;
    LiveTarget(b.graph, led.done, e);
    WaitsForAll(b, led, n);
    SentInGraph(b.graph, b.reachDef, led);
    if !b.Waits(n) {
      assert e in led.sent;
      OnCourse(b, p, rank, led, t);
      LoggedAfter(b.graph, led.done, before, n);
    } else if n !in led.done && AllDelivered(b.graph, led.done, n) {
      PendingAfter(b.graph, led.done, n);
    }
  }

  // What one task does to the ledger.
  ghost predicate Advanced(b: Builder, floor: map<Definition, set<Node>>, led: Ledger, n: Node, next: Ledger)
    reads b`floor
  {
    if next.done == led.done then next == led && b.floor == floor
    else next.done == led.done + {n} && if n.inst.Unreachable? then next == led.(done := next.done) && b.floor == floor else Handing(b, floor, led, n, next)
  }

  method TakeOne(b: Builder, ghost p: Program, ghost rank: Node -> nat, ghost led: Ledger) returns (ok: bool, ghost next: Ledger)
    requires For(b, p, rank) && Running(b, led) && b.dfsList != []
    modifies b, b.states, b.defs
    ensures ok && b.Grown() && Running(b, next)
    ensures (next.done == led.done && |b.dfsList| < |old(b.dfsList)|) || exists n :: n in b.graph.Nodes() - led.done && next.done == led.done + {n}
    ensures old(Bearing(b, p, led) && EdgesRight(b, led)) ==> Bearing(b, p, next) && EdgesRight(b, next)
    ensures SplitsEmpty(p, b.shape) && old(ValuesRight(b, p, led)) ==> ValuesRight(b, p, next)
    ensures exists n :: Advanced(b, old(b.floor), led, n, next)
  {
    hide Builder.Sound, Builder.Linked, Sized, Waiting, Closed, Logged, TasksBut, TaskOf, ValuesRight, SplitsEmpty, Running, For, Taken, Bearing, EdgesRight, Handing;
    ghost var size := |b.dfsList|;
    var task := TakeTask(b, p, rank, led);
    ok, next := TakeHere(b, p, rank, led, task);
  }

  method TakeTask(b: Builder, ghost p: Program, ghost rank: Node -> nat, ghost led: Ledger) returns (task: Task)
    requires For(b, p, rank) && Running(b, led) && b.dfsList != []
    modifies b`dfsList, b`loopsStack, b`lastNode
    ensures Taken(b, led, task) && |b.dfsList| < |old(b.dfsList)| && (old(ValuesRight(b, p, led)) ==> ValuesRight(b, p, led))
  {
    hide Taken, Running, For, Shows, Separate, Builder.AfterVisit, Program.SolvedAt;
    task := TakeOff(b, led);
  }

  // The task has been taken from the worklist.
  ghost predicate Taken(b: Builder, led: Ledger, task: Task)
    reads b, b.defs, b.kept, b.states, b.saved, led.sent.Values
  {
    && b.Valid() && Sized(b, led) && Waiting(b.graph, b.reachDef, led) && Closed(b.graph, led.done) && Logged(b.graph, led.done, b.passed)
    && TasksBut(b.graph, led.done, b.dfsList, {task.node}) && TaskOf(b.graph, led.done, task) && b.loopsStack == []
    && (task.node.inst.Unreachable? ==> task.node !in led.done && forall t :: t in b.dfsList ==> t.node != task.node)
  }

  method TakeOff(b: Builder, ghost led: Ledger) returns (task: Task)
    requires Running(b, led) && b.dfsList != []
    modifies b`dfsList, b`loopsStack, b`lastNode
    ensures Taken(b, led, task) && |b.dfsList| < |old(b.dfsList)|
  {
    hide Builder.Sound, Builder.Linked, Sized, Waiting, Closed, Logged, TasksBut, TaskOf;
    ghost var before := b.dfsList;
    ghost var k;
    task, k := b.NextTask();
    TaskTaken(b.graph, led.done, before, k);
    b.TakeUp(task);
    NoLoops(b.graph, led.done, task);
  }

  lemma NoLoops(g: Flowgraph, done: set<Node>, t: Task)
    requires TaskOf(g, done, t)
    ensures t.loops == []
  {
  }

  // The wait check.
  method CheckHere(b: Builder, ghost p: Program, ghost rank: Node -> nat, ghost led: Ledger, task: Task) returns (stopped: bool, ghost next: Ledger)
    requires For(b, p, rank) && Taken(b, led, task)
    modifies b`loopsInsts, b`passed
    ensures b.Valid() && task.node in b.graph.Nodes()
    ensures !stopped ==> next == led && !task.node.inst.Unreachable? && AtTurn(b, led, task.node)
    ensures old(ValuesRight(b, p, led)) ==> ValuesRight(b, p, led)
    ensures stopped ==> Running(b, next) && if task.node.inst.Unreachable? then task.node !in led.done && next == led.(done := led.done + {task.node}) else next == led
  {
    hide Builder.Sound, Builder.Linked, Sized, Waiting, Closed, Logged, Flowgraph.Live, Flowgraph.Orderly, Program.Shaped, TasksBut, TaskOf, AllDelivered,
         Builder.Waits, Running, Builder.Now, AtTurn, Shows, Separate, Builder.AfterVisit, Program.SolvedAt;
    var n := task.node;
    OnCourse(b, p, rank, led, task);
    ghost var before := b.passed;
    stopped := b.Stops(n);
    next := led;
    if n.inst.Unreachable? {
      next := led.(done := led.done + {n});
      EndAfter(b, p, rank, led, n, task, before, next);
    } else {
      HasTurn(b, p, rank, led, n, task, before);
      if stopped {
        StillWaits(b.graph, led.done, b.dfsList, n);
        StillRunning(b, led);
      }
    }
  }

  method TakeHere(b: Builder, ghost p: Program, ghost rank: Node -> nat, ghost led: Ledger, task: Task) returns (ok: bool, ghost next: Ledger)
    requires For(b, p, rank) && Taken(b, led, task)
    modifies b, b.states, b.defs
    ensures ok && b.Grown() && Running(b, next)
    ensures (next.done == led.done && b.dfsList == old(b.dfsList)) || (task.node in b.graph.Nodes() - led.done && next.done == led.done + {task.node})
    ensures old(Bearing(b, p, led) && EdgesRight(b, led)) ==> Bearing(b, p, next) && EdgesRight(b, next)
    ensures SplitsEmpty(p, b.shape) && old(ValuesRight(b, p, led)) ==> ValuesRight(b, p, next)
    ensures Advanced(b, old(b.floor), led, task.node, next)
  {
    hide Builder.Sound, Builder.Linked, Sized, Waiting, Closed, Logged, Flowgraph.Live, AllParts, Flowgraph.Orderly, Program.Shaped, TasksBut, TaskOf,
         Handing, Bearing, ValuesRight, Shows, Separate, SplitsEmpty, AllDelivered, EdgesRight, Running, Assured, Program.GathersAt, Program.SolvedAt, Taken;
    var n, stopped := task.node, false;
    ok := true;
    stopped, next := CheckHere(b, p, rank, led, task);
    if stopped {
      if n.inst.Unreachable? {
        EndChangesNothing(b, p, led, n, next);
        assert n in next.done;
      }
    } else {
      b.PartsKnown(n);
      b.DeliveredAreStates(n);
      ok, next := PassOne(b, p, rank, n, led);
      assert n in next.done;
    }
  }

  lemma StillRunning(b: Builder, led: Ledger)
    requires b.Valid() && Sized(b, led) && Waiting(b.graph, b.reachDef, led) && Closed(b.graph, led.done) && Logged(b.graph, led.done, b.passed)
    requires Tasks(b.graph, led.done, b.dfsList)
    ensures Running(b, led)
  {
    hide Builder.Sound, Builder.Linked, Sized, Waiting, Closed, Logged, Tasks;
  }

  lemma OnCourse(b: Builder, p: Program, rank: Node -> nat, led: Ledger, t: Task)
    requires For(b, p, rank) && Closed(b.graph, led.done) && TaskOf(b.graph, led.done, t)
    ensures t.node in b.graph.Nodes() && t.loops == [] && t.node != b.graph.entry && !t.node.inst.LoopHead?
  {
    var e :| e in b.graph.InEdges(t.node) && Delivers(e, led.done) && e.src == t.last;
    LiveTarget(b.graph, led.done, e);
  }

  // ----- one function -----

  lemma StartsRunning(b: Builder, p: Program, rank: Node -> nat, e: CfgEdge, s: ReachDefinition, led: Ledger)
    requires For(b, p, rank) && b.Valid() && b.graph.OutEdges(b.graph.entry) == {e} && b.reachDef == map[e.dst := {s}] && s in b.states
    requires b.dfsList == [Task(e.dst, [], b.graph.entry)] && s.Is(p.Initial()) && b.passed == []
    requires led == Ledger({b.graph.entry}, map[e := s], map[b.graph.entry := p.Initial()], map[e := s.stack])
    ensures Running(b, led)
  {
    hide Builder.Sound, Builder.Linked, Shows, Accepts, ShapeAfter;
    var g := b.graph;
    g.EntryIsLive();
    assert e in g.OutEdges(g.entry) && e in g.InEdges(e.dst);
    assert Pending(g, led.done) == {e} by {
      assert forall f :: f in Pending(g, led.done) ==> f in g.OutEdges(g.entry);
    }
    forall n
      ensures Among(b.reachDef, n) == Builder.Arriving(led.sent, n)
    {
      assert led.sent[e] == s;
    }
    assert b.dfsList[0] == Task(e.dst, [], g.entry) && Delivers(e, led.done);
    forall n | AllDelivered(g, led.done, n)
      ensures n == e.dst
    {
      var f :| f in g.InEdges(n);
      assert Delivers(f, led.done) && f in g.OutEdges(g.entry);
    }
    StartSize(b, p, rank, s);
  }

  lemma StartSize(b: Builder, p: Program, rank: Node -> nat, s: ReachDefinition)
    requires For(b, p, rank) && s.Is(p.Initial())
    ensures s.Size() == b.SizeAfter(b.graph.entry, b.shape(b.graph.entry))
  {
    b.graph.EntryIsLive();
    IsSnap(s, p.Initial());
  }

  lemma StartsRight(b: Builder, p: Program, rank: Node -> nat, e: CfgEdge, s: ReachDefinition, led: Ledger)
    requires For(b, p, rank) && b.graph.OutEdges(b.graph.entry) == {e} && b.edges == [] && s.Is(p.Initial()) && s.Apart() && s.Vars() <= b.floor.Keys
    requires led == Ledger({b.graph.entry}, map[e := s], map[b.graph.entry := p.Initial()], map[e := s.stack])
    ensures ValuesRight(b, p, led) && EdgesRight(b, led) && Bearing(b, p, led)
  {
    hide Shows, SlotsApart, WfState, Program.Initial, Builder.Marks, Builder.AfterVisit, Assured, EdgesRight;
    var n, init := b.graph.entry, p.Initial();
    b.graph.EntryIsLive();
    assert e in b.graph.OutEdges(n);
    StartsFit(b, p, rank);
    StartsEmpty(b, n, init, led);
    assert led.sent[e] == s && forall f :: f in led.sent ==> f == e;
    assert led.sent.Values == {s};
    NothingLasts(b, s, p);
  }

  lemma StartsFit(b: Builder, p: Program, rank: Node -> nat)
    requires For(b, p, rank)
    ensures WfState(p.Initial()) && ShapeOf(p.Initial()) == b.shape(b.graph.entry) && b.AfterVisit(b.graph.entry, p.Initial()) == p.Initial()
    ensures b.Marks(b.graph.entry, p.Initial()) == {}
  {
    var init := p.Initial();
    assert init.globals.Keys == p.globals && init.locals.Keys == p.locals;
    assert b.AfterVisit(b.graph.entry, init) == init;
    assert b.Marks(b.graph.entry, init) == {} by {
      assert Read(b.graph.entry, init) == [];
    }
  }

  lemma StartsEmpty(b: Builder, n: Node, init: State, led: Ledger)
    requires b.edges == [] && led.inn == map[n := init] && b.Marks(n, init) == {}
    ensures EdgesRight(b, led)
  {
    hide Builder.Marks;
  }

  // At the start no variable has any origins.
  lemma NothingLasts(b: Builder, s: ReachDefinition, p: Program)
    requires s.Is(p.Initial()) && s.Vars() <= b.floor.Keys
    ensures Bears(b.floor, s, p.Initial())
  {
  }

  method Drain(b: Builder, ghost p: Program, ghost rank: Node -> nat, ghost start: Ledger) returns (ok: bool, ghost led: Ledger)
    requires For(b, p, rank) && Running(b, start) && ValuesRight(b, p, start) && EdgesRight(b, start) && Bearing(b, p, start)
    modifies b, b.states, b.defs
    ensures ok && Running(b, led) && b.dfsList == []
    ensures Bearing(b, p, led) && EdgesRight(b, led) && (SplitsEmpty(p, b.shape) ==> ValuesRight(b, p, led))
  {
    hide Builder.Sound, Builder.Linked, ValuesRight, EdgesRight, SplitsEmpty, For, Scheduling, Sized, Bearing;
    ok, led := true, start;
    while b.dfsList != []
      invariant ok && Running(b, led) && Bearing(b, p, led) && EdgesRight(b, led) && (SplitsEmpty(p, b.shape) ==> ValuesRight(b, p, led))
      invariant b.Grown()
      decreases |b.graph.Nodes() - led.done|, |b.dfsList|
    {
      ghost var done := led.done;
      ok, led := TakeOne(b, p, rank, led);
      if led.done != done {
        var n :| n in b.graph.Nodes() - done && led.done == done + {n};
        FewerLeft(b.graph.Nodes(), done, n);
      }
    }
  }

  lemma FewerLeft(all: set<Node>, done: set<Node>, n: Node)
    requires n in all - done
    ensures |all - (done + {n})| < |all - done|
  {
    assert all - done == (all - (done + {n})) + {n};
  }

  // When no task is left, exactly what control comes to through nothing but
  // what it passes has been let through.
  lemma {:induction false} ServedIsDone(g: Flowgraph, rank: Node -> nat, reach: map<Node, set<ReachDefinition>>, passed: seq<Node>, led: Ledger, n: Node)
    requires g.Orderly(rank) && Scheduling(g, [], reach, passed, led) && g.Live(n)
    ensures g.Served(n) <==> n in led.done
    decreases rank(n)
  {
    hide Flowgraph.Live, Flowgraph.Served;
    forall e | e in g.InEdges(n) && g.Live(e.src)
      ensures g.Served(e.src) <==> e.src in led.done
    {
      ServedIsDone(g, rank, reach, passed, led, e.src);
    }
    if g.Served(n) {
      forall e | e in g.InEdges(n)
        ensures Delivers(e, led.done)
      {
        g.ServedBefore(n, e);
        g.ServedIsLive(e.src);
      }
      if n != g.entry {
        g.LiveHasFlow(n);
        assert AllDelivered(g, led.done, n);
      }
    }
    if n in led.done {
      g.ServedAfter(n);
    }
  }

  // The edges into an instruction are those that its own visit records.
  lemma OwnEdges(b: Builder, p: Program, led: Ledger, n: Node, callee: string)
    requires b.results == p.results && EdgesRight(b, led) && n in led.inn && Accepts(n, ShapeOf(led.inn[n]), p.results)
    ensures CallEdge((set e | e in b.edges), n, callee) <==> CallEdge(Recorded(n, led.inn[n]), n, callee)
  {
    hide Recorded;
    if e :| e in b.edges && e.dst == n && e.kind == Function && e.name == callee {
      var m :| m in led.inn && e in b.Marks(m, led.inn[m]);
      RecordedHere(m, led.inn[m], p.results, e);
    }
    if e :| e in Recorded(n, led.inn[n]) && e.dst == n && e.kind == Function && e.name == callee {
      assert e in b.Marks(n, led.inn[n]);
    }
  }

  lemma Ended(b: Builder, p: Program, rank: Node -> nat, led: Ledger)
    requires For(b, p, rank) && Running(b, led) && b.dfsList == []
    ensures OnceEach(p.graph, b.passed) && NoTwins(b.edges) && forall e :: e in b.edges ==> Explained(b.edges, e)
    ensures Bearing(b, p, led) && EdgesRight(b, led) ==> CallsKept(p, b.shape, set e | e in b.edges)
    ensures ValuesRight(b, p, led) && EdgesRight(b, led) ==> CallsRight(p, b.shape, set e | e in b.edges)
  {
    hide Builder.Sound, Builder.Linked, Sized, Waiting, Flowgraph.Live, ValuesRight, Bearing, EdgesRight;
    b.EdgesExplained();
    forall n
      ensures p.graph.Served(n) <==> n in led.done
    {
      if p.graph.Live(n) {
        ServedIsDone(p.graph, rank, b.reachDef, b.passed, led, n);
      }
    }
    if Bearing(b, p, led) && EdgesRight(b, led) {
      CallsAreKept(b, p, rank, led);
    }
    if ValuesRight(b, p, led) && EdgesRight(b, led) {
      CallsAreRight(b, p, rank, led);
    }
  }

  // Every instruction that is served, but for the start, passes the wait
  // check once, and no other does.
  ghost predicate OnceEach(g: Flowgraph, log: seq<Node>) {
    && (forall i, j :: 0 <= i < j < |log| ==> log[i] != log[j])
    && (forall n :: n in log <==> g.Served(n) && n != g.entry)
  }

  // Live instructions are all visited exactly where no dead code leads into
  // live code.
  lemma AllVisited(g: Flowgraph, rank: Node -> nat, log: seq<Node>)
    requires g.Orderly(rank) && OnceEach(g, log)
    ensures g.DeadIsApart() <==> forall n :: g.Live(n) && n != g.entry ==> n in log
  {
    hide Flowgraph.Live, Flowgraph.Served, Flowgraph.DeadIsApart;
    g.EntryIsLive();
    g.ServedAfter(g.entry);
    g.AllServed();
  }

  // An instruction has an incoming edge labelled with a callee exactly if it
  // is served and some path brings the result of such a call into an operand
  // that it records.
  ghost predicate CallsRight(p: Program, shape: Node -> Shape, edges: set<PdgEdge>) {
    forall n, callee :: CallEdge(edges, n, callee) <==> p.graph.Served(n) && FedByCall(p, shape, n, callee)
  }

  // What some path feeds is there in any case, and only instructions that are
  // served have such edges.
  ghost predicate CallsKept(p: Program, shape: Node -> Shape, edges: set<PdgEdge>) {
    && (forall n, callee :: p.graph.Served(n) && FedByCall(p, shape, n, callee) ==> CallEdge(edges, n, callee))
    && (forall n, callee :: CallEdge(edges, n, callee) ==> p.graph.Served(n))
  }

  lemma CallsAreKept(b: Builder, p: Program, rank: Node -> nat, led: Ledger)
    requires For(b, p, rank) && Bearing(b, p, led) && EdgesRight(b, led) && Closed(p.graph, led.done)
    requires forall n :: p.graph.Served(n) <==> n in led.done
    ensures CallsKept(p, b.shape, set e | e in b.edges)
  {
    hide Assured, Flowgraph.Live, Flowgraph.Served, Accepts, EdgesRight, FedByCall, Recorded, CallEdge, Program.GathersAt;
    assert p.Gathers(led.inn, b.shape);
    AllAcceptToo(p, b.shape, led.inn);
    var edges := set e | e in b.edges;
    forall n, callee
      ensures p.graph.Served(n) && FedByCall(p, b.shape, n, callee) ==> CallEdge(edges, n, callee)
      ensures CallEdge(edges, n, callee) ==> p.graph.Served(n)
    {
      if n in led.inn {
        PathMeansEdge(p, b.shape, rank, led.inn, n, callee);
        OwnEdges(b, p, led, n, callee);
      } else {
        NoEdges(b, p, led, n, callee);
        if n.inst.Unreachable? {
          NotFed(p, b.shape, n, callee);
        }
      }
    }
  }

  lemma AllAcceptToo(p: Program, shape: Node -> Shape, inn: map<Node, State>)
    requires p.Shaped(shape) && p.Gathers(inn, shape)
    ensures forall m :: m in inn ==> Accepts(m, ShapeOf(inn[m]), p.results)
  {
    hide Accepts, Flowgraph.Live;
  }

  lemma CallsAreRight(b: Builder, p: Program, rank: Node -> nat, led: Ledger)
    requires For(b, p, rank) && ValuesRight(b, p, led) && EdgesRight(b, led) && Closed(p.graph, led.done)
    requires forall n :: p.graph.Served(n) <==> n in led.done
    ensures CallsRight(p, b.shape, set e | e in b.edges)
  {
    hide Separate, Shows, Flowgraph.Live, Flowgraph.Served, Accepts, EdgesRight, FedByCall, Recorded, CallEdge, Program.SolvedAt;
    assert p.Solves(led.inn, b.shape);
    AllAccept(p, b.shape, led.inn);
    var edges := set e | e in b.edges;
    forall n, callee
      ensures CallEdge(edges, n, callee) <==> p.graph.Served(n) && FedByCall(p, b.shape, n, callee)
    {
      if n in led.inn {
        EdgeMeansPath(p, b.shape, rank, led.inn, n, callee);
        OwnEdges(b, p, led, n, callee);
      } else {
        NoEdges(b, p, led, n, callee);
        if n.inst.Unreachable? {
          NotFed(p, b.shape, n, callee);
        }
      }
    }
  }

  lemma AllAccept(p: Program, shape: Node -> Shape, inn: map<Node, State>)
    requires p.Shaped(shape) && p.Solves(inn, shape)
    ensures forall m :: m in inn ==> Accepts(m, ShapeOf(inn[m]), p.results)
  {
    hide Accepts, Flowgraph.Live;
  }

  // Nothing is recorded where no visit was made.
  lemma NoEdges(b: Builder, p: Program, led: Ledger, n: Node, callee: string)
    requires b.results == p.results && EdgesRight(b, led) && n !in led.inn
    requires forall m :: m in led.inn ==> Accepts(m, ShapeOf(led.inn[m]), p.results)
    ensures !CallEdge((set e | e in b.edges), n, callee)
  {
    hide Recorded, Accepts;
    if e :| e in b.edges && e.dst == n && e.kind == Function && e.name == callee {
      var m :| m in led.inn && e in b.Marks(m, led.inn[m]);
      RecordedHere(m, led.inn[m], p.results, e);
    }
  }

  lemma NotFed(p: Program, shape: Node -> Shape, n: Node, callee: string)
    requires n.inst.Unreachable?
    ensures !FedByCall(p, shape, n, callee)
  {
    forall slot
      ensures !Records(n.inst, shape(n).height, slot)
    {
    }
  }

  // The start has been visited.
  method Begin(p: Program, inside: Node -> set<Node>, ghost shape: Node -> Shape, ghost rank: Node -> nat)
    returns (ok: bool, b: Builder, ghost led: Ledger)
    requires p.graph.Orderly(rank) && p.Shaped(shape) && |p.graph.OutEdges(p.graph.entry)| == 1
    ensures fresh(b) && fresh(b.states) && fresh(b.defs) && b.shape == shape
    ensures ok && For(b, p, rank) && Running(b, led) && ValuesRight(b, p, led) && EdgesRight(b, led) && Bearing(b, p, led)
    ensures led.done == {p.graph.entry}
  {
    hide Builder.Sound, Builder.Linked, ValuesRight, EdgesRight, Running, Shows, SlotsApart, Flowgraph.Orderly, Program.Shaped, Bearing, Builder.Remembered, Builder.Current;
    b := new Builder(p.graph, p.results, inside, shape);
    ghost var e, s;
    ok, e, s := b.VisitInstructions(p.globals, p.locals);
    led := Ledger({p.graph.entry}, map[e := s], map[p.graph.entry := p.Initial()], map[e := s.stack]);
    b.RecordRises();
    b.floor := b.Remembered();
    b.NowCurrent();
    VarsRecorded(b, s);
    StartsRunning(b, p, rank, e, s, led);
    StartsRight(b, p, rank, e, s, led);
  }

  lemma VarsRecorded(b: Builder, s: ReachDefinition)
    requires b.Valid() && b.Current() && s in b.states
    ensures s.Vars() <= b.floor.Keys
  {
    b.StateParts(s);
  }

  // The dependence graph of one function without loops, whichever task is
  // taken first. Exactly what is served is visited, and visited once. What
  // some path feeds into an operand has its edge; where control branches only
  // with no operands left, nothing else has.
  method GeneratePdg(p: Program, inside: Node -> set<Node>, ghost shape: Node -> Shape, ghost rank: Node -> nat)
    returns (ok: bool, b: Builder)
    requires p.graph.Orderly(rank) && p.Shaped(shape) && |p.graph.OutEdges(p.graph.entry)| == 1
    ensures ok && b.dfsList == [] && OnceEach(p.graph, b.passed) && NoTwins(b.edges) && forall e :: e in b.edges ==> Explained(b.edges, e)
    ensures CallsKept(p, shape, set e | e in b.edges)
    ensures SplitsEmpty(p, shape) ==> CallsRight(p, shape, set e | e in b.edges)
  {
    hide Builder.Sound, Builder.Linked, ValuesRight, EdgesRight, SplitsEmpty, Running, CallsRight, CallsKept, OnceEach, NoTwins, Flowgraph.Orderly, Program.Shaped, Bearing, For;
    ghost var led;
    ok, b, led := Begin(p, inside, shape, rank);
    ok, led := Drain(b, p, rank, led);
    Ended(b, p, rank, led);
  }
}
