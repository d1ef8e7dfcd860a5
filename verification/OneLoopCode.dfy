// Validated functions with one loop: their graphs have the one loop that the
// run of LoopRuns.dfy is about.
module OneLoopCode {
  import opened Wrappers
  import opened Lowering
  import opened LoweringCorrect
  import opened StackSafety
  import opened StackRuns
  import opened LoopFree
  import opened OneLoopText
  import opened ValidCode
  import D = DataFlow
  import Flowgraph
  import Provenance
  import PdgBuilder
  import BuilderRuns
  import CallFlow
  import OneLoop
  import LoopEntry
  import LoopOperands
  import LoopExits
  import LoopRuns

  // ----- what the nodes are -----

  // What validation says of a node of the text.
  ghost predicate Kind(code: Code, s: Site, n: Node) {
    && (code.inst(n).LoopHead? ==> n == s.Head()) && !code.inst(n).Start? && (code.inst(n).BeginBlock? <==> IsBegin(n))
  }

  lemma {:induction false} KindAt(code: Code, es: ExprList, ctx: seq<Frame>, h: nat, need: nat, labels: set<string>, s: Site, n: Node)
    requires Valid(code, es, ctx, h, need) && NoOther(es, s) && Wf(es, labels) && n in Made(es) && Owns(Coded(es), n)
    ensures Kind(code, s, n)
    decreases es, 2
  {
    var e, rest := es.head, es.tail;
    MadeOfOwned(e);
    MadeOwned(rest);
    CodedOfIsOwned(e);
    CodedIsOwned(rest);
    if n in MadeOf(e) {
      KindAtIn(code, e, ctx, h, labels, s, n);
    } else {
      KindAt(code, rest, ctx, Then(code, e, h), need, labels, s, n);
    }
  }

  lemma {:induction false} KindAtIn(code: Code, e: Expr, ctx: seq<Frame>, h: nat, labels: set<string>, s: Site, n: Node)
    requires ValidExpr(code, e, ctx, h) && NoOtherIn(e, s) && WfExpr(e, labels) && n in MadeOf(e) && Owns(CodedOf(e), n)
    ensures Kind(code, s, n)
    decreases e, 1
  {
    hide Valid, Wf;
    match e
    case Block(id, name, body) =>
      MadeOwned(body);
      if n.id != id {
        KindAt(code, body, Inner(name, h, At(id, End), Results(code, id), false, ctx), h, Results(code, id), labels + {name}, s, n);
      }
    case Loop(id, name, body) =>
      MadeOwned(body);
      if n.id != id {
        KindInLoop(code, body, Inner(name, h, At(id, Part.Inst), 0, true, ctx), h, 0, labels + {name}, s, n);
      }
    case If(id, name, thn, els) => KindAtArm(code, e, ctx, h, labels, s, n);
    case _ =>
  }

  lemma {:induction false} KindInLoop(code: Code, es: ExprList, ctx: seq<Frame>, h: nat, need: nat, labels: set<string>, s: Site, n: Node)
    requires Valid(code, es, ctx, h, need) && NoLoops(es) && Wf(es, labels) && n in Made(es) && Owns(Coded(es), n)
    ensures Kind(code, s, n)
    decreases es, 3
  {
    NoLoopsAtAll(es, s);
    KindAt(code, es, ctx, h, need, labels, s, n);
  }

  lemma {:induction false} NoLoopsAtAll(es: ExprList, s: Site)
    requires NoLoops(es)
    ensures NoOther(es, s)
  {
    if es.Cons? {
      NoLoopsAtAllIn(es.head, s);
      NoLoopsAtAll(es.tail, s);
    }
  }

  lemma {:induction false} NoLoopsAtAllIn(e: Expr, s: Site)
    requires NoLoopsIn(e)
    ensures NoOtherIn(e, s)
  {
    match e
    case Block(_, _, body) => NoLoopsAtAll(body, s);
    case If(_, _, thn, els) =>
      NoLoopsAtAll(thn, s);
      NoLoopsAtAll(els, s);
    case _ =>
  }

  lemma {:induction false} KindAtArm(code: Code, e: Expr, ctx: seq<Frame>, h: nat, labels: set<string>, s: Site, n: Node)
    requires e.If? && ValidExpr(code, e, ctx, h) && NoOtherIn(e, s) && WfExpr(e, labels) && n in MadeOf(e) && Owns(CodedOf(e), n)
    ensures Kind(code, s, n)
    decreases e, 0
  {
    hide Valid, Wf;
    if n.id == e.id {
      MadeOwned(e.thn);
      MadeOwned(e.els);
    } else {
      ArmOf(e, labels, n);
      var inner := Inner(e.name, h - 1, At(e.id, End), Results(code, e.id), false, ctx);
      if n in Made(e.thn) && Owns(Coded(e.thn), n) {
        KindAt(code, e.thn, inner, h - 1, Results(code, e.id), labels + {e.name}, s, n);
      } else {
        KindAt(code, e.els, inner, h - 1, Results(code, e.id), labels + {e.name}, s, n);
      }
    }
  }

  // ----- operands under the loop -----

  // The node leaves `p` operands at the bottom alone.
  ghost predicate Above(code: Code, n: Node, p: nat) {
    p + D.Pops(code.inst(n)) <= code.shape(n).height && p + D.Kept(NodeAs(code, n), code.results) <= code.shape(n).height
  }

  lemma {:induction false} AboveAt(code: Code, es: ExprList, ctx: seq<Frame>, h: nat, need: nat, labels: set<string>, p: nat, n: Node)
    requires Valid(code, es, ctx, h, need) && NoLoops(es) && Wf(es, labels) && n in Made(es) && Owns(Coded(es), n) && p <= Base(ctx)
    ensures Above(code, n, p)
    decreases es, 2
  {
    var e, rest := es.head, es.tail;
    MadeOfOwned(e);
    MadeOwned(rest);
    CodedOfIsOwned(e);
    CodedIsOwned(rest);
    if n in MadeOf(e) {
      AboveIn(code, e, ctx, h, labels, p, n);
    } else {
      AboveAt(code, rest, ctx, Then(code, e, h), need, labels, p, n);
    }
  }

  lemma {:induction false} AboveIn(code: Code, e: Expr, ctx: seq<Frame>, h: nat, labels: set<string>, p: nat, n: Node)
    requires ValidExpr(code, e, ctx, h) && NoLoopsIn(e) && WfExpr(e, labels) && n in MadeOf(e) && Owns(CodedOf(e), n) && p <= Base(ctx) <= h
    ensures Above(code, n, p)
    decreases e, 1
  {
    hide Valid, Wf;
    match e
    case Block(id, name, body) =>
      MadeOwned(body);
      if n.id != id {
        AboveAt(code, body, Inner(name, h, At(id, End), Results(code, id), false, ctx), h, Results(code, id), labels + {name}, p, n);
      }
    case If(id, name, thn, els) => AboveArm(code, e, ctx, h, labels, p, n);
    case _ =>
  }

  lemma {:induction false} AboveArm(code: Code, e: Expr, ctx: seq<Frame>, h: nat, labels: set<string>, p: nat, n: Node)
    requires e.If? && ValidExpr(code, e, ctx, h) && NoLoopsIn(e) && WfExpr(e, labels) && n in MadeOf(e) && Owns(CodedOf(e), n) && p <= Base(ctx) <= h
    ensures Above(code, n, p)
    decreases e, 0
  {
    hide Valid, Wf, Made, Coded;
    if n.id == e.id {
      MadeOwned(e.thn);
      MadeOwned(e.els);
    } else {
      ArmOf(e, labels, n);
      var inner := Inner(e.name, h - 1, At(e.id, End), Results(code, e.id), false, ctx);
      if n in Made(e.thn) && Owns(Coded(e.thn), n) {
        AboveAt(code, e.thn, inner, h - 1, Results(code, e.id), labels + {e.name}, p, n);
      } else {
        AboveAt(code, e.els, inner, h - 1, Results(code, e.id), labels + {e.name}, p, n);
      }
    }
  }

  // The head of the loop, and what is in it, wherever it is.
  ghost predicate LoopKept(code: Code, s: Site, n: Node, coded: set<nat>) {
    code.inst(s.Head()).LoopHead? && (n in Made(s.body) && Owns(coded, n) ==> Above(code, n, code.shape(s.Head()).height))
  }

  lemma {:induction false} AboveLoop(code: Code, es: ExprList, ctx: seq<Frame>, h: nat, need: nat, labels: set<string>, s: Site, n: Node)
    requires Valid(code, es, ctx, h, need) && NoOther(es, s) && Wf(es, labels) && s.id in Loops(es) && s.id in Coded(es)
    ensures LoopKept(code, s, n, Coded(es))
    decreases es, 2
  {
    hide Above;
    var e, rest := es.head, es.tail;
    MadeOwned(s.body);
    CodedOfIsOwned(e);
    CodedIsOwned(rest);
    LoopsOwned(rest);
    LoopsOfOwned(e);
    if s.id in LoopsOf(e) {
      SiteIsIn(e, s, labels);
      MadeOfOwned(e);
      AboveLoopIn(code, e, ctx, h, labels, s, n);
    } else {
      SiteIs(rest, s, labels);
      MadeOwned(rest);
      AboveLoop(code, rest, ctx, Then(code, e, h), need, labels, s, n);
    }
  }

  lemma {:induction false} AboveLoopIn(code: Code, e: Expr, ctx: seq<Frame>, h: nat, labels: set<string>, s: Site, n: Node)
    requires ValidExpr(code, e, ctx, h) && NoOtherIn(e, s) && WfExpr(e, labels) && s.id in LoopsOf(e) && s.id in CodedOf(e)
    ensures LoopKept(code, s, n, CodedOf(e))
    decreases e, 1
  {
    hide Valid, Wf, Above;
    match e
    case Block(id, name, body) =>
      SiteIs(body, s, labels + {name});
      MadeOwned(body);
      LoopsOwned(body);
      AboveLoop(code, body, Inner(name, h, At(id, End), Results(code, id), false, ctx), h, Results(code, id), labels + {name}, s, n);
    case Loop(id, name, body) =>
      MadeOwned(body);
      if n in Made(body) && Owns(CodedOf(e), n) {
        AboveAt(code, body, Inner(name, h, At(id, Part.Inst), 0, true, ctx), h, 0, labels + {name}, h, n);
      }
    case If(id, name, thn, els) => AboveLoopArm(code, e, ctx, h, labels, s, n);
    case _ =>
  }

  lemma {:induction false} AboveLoopArm(code: Code, e: Expr, ctx: seq<Frame>, h: nat, labels: set<string>, s: Site, n: Node)
    requires e.If? && ValidExpr(code, e, ctx, h) && NoOtherIn(e, s) && WfExpr(e, labels) && s.id in LoopsOf(e) && s.id in CodedOf(e)
    ensures LoopKept(code, s, n, CodedOf(e))
    decreases e, 0
  {
    hide Valid, Wf, Above, Made, Coded;
    var inner := Inner(e.name, h - 1, At(e.id, End), Results(code, e.id), false, ctx);
    MadeOwned(e.thn);
    MadeOwned(e.els);
    CodedIsOwned(e.thn);
    CodedIsOwned(e.els);
    LoopsOwned(e.thn);
    LoopsOwned(e.els);
    if s.id in Loops(e.thn) {
      SiteIs(e.thn, s, labels + {e.name});
      AboveLoop(code, e.thn, inner, h - 1, Results(code, e.id), labels + {e.name}, s, n);
    } else {
      SiteIs(e.els, s, labels + {e.name});
      AboveLoop(code, e.els, inner, h - 1, Results(code, e.id), labels + {e.name}, s, n);
    }
  }

  // ----- the loop as the builder sees it -----

  // The instructions of the syntax tree below the loop, and the loop's head:
  // what the builder looks up on the first visit.
  ghost function Members(code: Code, s: Site): set<D.Node> {
    set n | n in {s.Head()} + TreeNodes(s.body) :: Seen(code, n)
  }

  ghost function TheLoop(code: Code, body: ExprList, s: Site): OneLoop.Loop {
    OneLoop.Loop(Seen(code, s.Head()), set n | n in s.All() :: Seen(code, n), Members(code, s), Ranks(body))
  }

  // A validated function with one loop, which control comes to.
  ghost predicate LoopsOnce(code: Code, body: ExprList, s: Site) {
    && Validated(code, body) && NothingFails(code, body) && NoOther(body, s) && s.id in Loops(body)
    && SeenGraph(code, body).Live(Seen(code, s.Head()))
  }

  lemma SeenIn(code: Code, ns: set<Node>, n: Node)
    ensures Seen(code, n) in (set m | m in ns :: Seen(code, m)) <==> n in ns
  {
    if Seen(code, n) in (set m | m in ns :: Seen(code, m)) {
      var m :| m in ns && Seen(code, m) == Seen(code, n);
      SameNode(code, m, n);
    }
  }

  // Membership in the loop by numbers of the text.
  lemma PartOfLoop(code: Code, body: ExprList, s: Site, n: Node)
    requires Wf(body, {}) && NoOther(body, s) && s.id in Loops(body) && n in Made(body) + {Instructions, ReturnNode, Trap}
    ensures var l, r := TheLoop(code, body, s), m => Place(body, m);
            && (Seen(code, n) in l.body <==> OfLoop(r, s, n)) && (Seen(code, n) in l.members <==> OfLoop(r, s, n) && !IsBegin(n))
            && l.rank(Seen(code, n)) == Place(body, n) && (Seen(code, n) == l.head <==> n == s.Head())
            && (OfLoop(r, s, n) && n != s.Head() ==> Place(body, n) > Place(body, s.Head()))
  {
    hide Wf, NoOther, Loops, Place, OfLoop, TreeNodes, Made, Seen;
    LoopByPlace(body, s, n);
    SeenIn(code, s.All(), n);
    SeenIn(code, {s.Head()} + TreeNodes(s.body), n);
    SeenNumber(code, body, n);
    if Seen(code, n) == Seen(code, s.Head()) {
      SameNode(code, n, s.Head());
    }
  }

  lemma SeenNumber(code: Code, body: ExprList, n: Node)
    ensures Ranks(body)(Seen(code, n)) == Place(body, n)
  {
    NumberedBack(n);
  }

  lemma WellFormed(code: Code, body: ExprList)
    requires Validated(code, body)
    ensures Wf(body, {})
  {
  }

  // A place that control comes to.
  lemma KindThere(code: Code, body: ExprList, s: Site, n: Node)
    requires LoopsOnce(code, body, s) && n in Made(body) + {ReturnNode, Trap} && SeenGraph(code, body).Live(Seen(code, n))
    ensures Kind(code, s, n)
  {
    var m := LivePlace(code, body, Seen(code, n));
    SameNode(code, m, n);
    MadeOwned(body);
    hide Valid, NothingFails, Kind;
    if n in Made(body) {
      KindAt(code, body, [], 0, code.results, {}, s, n);
    } else {
      ReturnKind(code, s);
    }
  }

  lemma ReturnKind(code: Code, s: Site)
    requires Function(code)
    ensures Kind(code, s, ReturnNode)
  {
  }

  // ----- the graph -----

  lemma OnText(code: Code, body: ExprList, s: Site, g: Edge)
    requires LoopsOnce(code, body, s) && g in Graph(body)
    ensures g.src in Made(body) + {Instructions} && g.dst in Made(body) + {ReturnNode, Trap}
    ensures var r := m => Place(body, m);
            && OneLoopText.Leads(g, r, s, 0, 1 + Span(body)) && OneEntry(Graph(body), r, s)
    ensures Wf(body, {})
  {
    hide Valid, NothingFails, Place, OneLoopText.Leads, OneEntry, Flowgraph.Flowgraph.Live;
    GraphMade(body);
    GraphLeads(body, s);
  }

  lemma EdgeFits(code: Code, body: ExprList, s: Site, e: Flowgraph.CfgEdge)
    requires LoopsOnce(code, body, s) && e in SeenGraph(code, body).cfg && SeenGraph(code, body).Live(e.dst)
    ensures OneLoop.Fits(TheLoop(code, body, s), e)
  {
    hide Validated, NothingFails, Flowgraph.Flowgraph.Live, Seen, TheLoop, Place, OfLoop, Graph, OneEntry;
    var g :| g in Graph(body) && SeenEdge(code, g) == e;
    OnText(code, body, s, g);
    SiteIs(body, s, {});
    PartOfLoop(code, body, s, g.src);
    PartOfLoop(code, body, s, g.dst);
    PartOfLoop(code, body, s, s.Head());
    KindThere(code, body, s, g.dst);
    SeenInst(code, g.dst);
    Numbers(body, s, g);
  }

  lemma SeenInst(code: Code, n: Node)
    ensures Seen(code, n).inst == code.inst(n)
  {
  }

  // What the numbers say of an edge, said of the loop.
  lemma Numbers(body: ExprList, s: Site, g: Edge)
    requires var r := m => Place(body, m); OneLoopText.Leads(g, r, s, 0, 1 + Span(body))
    ensures var r := m => Place(body, m);
            && (g.dst == s.Head() ==> (OfLoop(r, s, g.src) && g.src != s.Head() && !IsBegin(g.src)) || (Place(body, g.src) < Place(body, g.dst) && !OfLoop(r, s, g.src)))
            && (g.dst != s.Head() ==> Place(body, g.src) < Place(body, g.dst))
            && (OfLoop(r, s, g.dst) && Place(body, g.dst) > Place(body, s.Head()) ==> OfLoop(r, s, g.src))
            && (OfLoop(r, s, g.src) && !OfLoop(r, s, g.dst) ==> !IsBegin(g.dst))
  {
    hide Place;
  }

  lemma OneEnters(code: Code, body: ExprList, s: Site, e: Flowgraph.CfgEdge, f: Flowgraph.CfgEdge)
    requires LoopsOnce(code, body, s) && e in SeenGraph(code, body).cfg && f in SeenGraph(code, body).cfg
    requires OneLoop.Enters(TheLoop(code, body, s), e) && OneLoop.Enters(TheLoop(code, body, s), f)
    ensures e == f
  {
    hide Validated, NothingFails, Flowgraph.Flowgraph.Live, Seen, TheLoop, Place, OfLoop, Graph, OneLoopText.Leads;
    var g :| g in Graph(body) && SeenEdge(code, g) == e;
    var k :| k in Graph(body) && SeenEdge(code, k) == f;
    OnText(code, body, s, g);
    OnText(code, body, s, k);
    PartOfLoop(code, body, s, g.src);
    PartOfLoop(code, body, s, k.src);
    PartOfLoop(code, body, s, g.dst);
    PartOfLoop(code, body, s, k.dst);
  }

  // All live instructions of the loop are below it in the syntax tree, but for
  // begin markers.
  lemma LiveInLoop(code: Code, body: ExprList, s: Site, d: D.Node)
    requires LoopsOnce(code, body, s) && SeenGraph(code, body).Live(d)
    ensures var l := TheLoop(code, body, s);
            (d in l.members ==> d in l.body) && (d in l.body ==> d in l.members || d.inst.BeginBlock?)
  {
    hide Validated, NothingFails, Flowgraph.Flowgraph.Live, Seen, Place, OfLoop, Wf, NoOther, Made;
    var l := TheLoop(code, body, s);
    WellFormed(code, body);
    SiteIs(body, s, {});
    if d in l.body {
      var n :| n in s.All() && Seen(code, n) == d;
      PartOfLoop(code, body, s, n);
      KindThere(code, body, s, n);
      SeenInst(code, n);
    }
    if d in l.members {
      TreeIsMade(s.body);
      var n :| n in {s.Head()} + TreeNodes(s.body) && Seen(code, n) == d;
      assert n in s.All();
    }
  }

  lemma HeadThere(code: Code, body: ExprList, s: Site)
    requires LoopsOnce(code, body, s)
    ensures code.inst(s.Head()).LoopHead? && s.id in Coded(body)
  {
    WellFormed(code, body);
    SiteIs(body, s, {});
    var m := LivePlace(code, body, Seen(code, s.Head()));
    SameNode(code, m, s.Head());
    hide Valid, NothingFails, Above;
    AboveLoop(code, body, [], 0, code.results, {}, s, s.Head());
  }

  lemma SeenHasOneLoop(code: Code, body: ExprList, s: Site)
    requires LoopsOnce(code, body, s)
    ensures OneLoop.HasOneLoop(SeenGraph(code, body), TheLoop(code, body, s))
  {
    hide NothingFails, Flowgraph.Flowgraph.Live, Seen, Place, OfLoop, Graph, Valid, Wf, NoOther, OneLoop.Fits, OneLoop.Enters, Made;
    var graph, l := SeenGraph(code, body), TheLoop(code, body, s);
    WellFormed(code, body);
    HeadThere(code, body, s);
    SeenInst(code, Instructions);
    SeenInst(code, s.Head());
    SiteIs(body, s, {});
    PartOfLoop(code, body, s, s.Head());
    StartOutside(code, body, s);
    forall d | graph.Live(d)
      ensures (d in l.members ==> d in l.body) && (d in l.body ==> d in l.members || d.inst.BeginBlock?)
    {
      LiveInLoop(code, body, s, d);
    }
    forall e | e in graph.cfg && graph.Live(e.dst)
      ensures OneLoop.Fits(l, e)
    {
      EdgeFits(code, body, s, e);
    }
    forall e, f | e in graph.cfg && f in graph.cfg && OneLoop.Enters(l, e) && OneLoop.Enters(l, f)
      ensures e == f
    {
      OneEnters(code, body, s, e, f);
    }
  }

  lemma StartOutside(code: Code, body: ExprList, s: Site)
    ensures Seen(code, Instructions) !in TheLoop(code, body, s).body && Seen(code, s.Head()) in TheLoop(code, body, s).body
    ensures Seen(code, s.Head()) in Members(code, s)
  {
    MadeOwned(s.body);
    SeenIn(code, s.All(), Instructions);
    SeenIn(code, s.All(), s.Head());
    SeenIn(code, {s.Head()} + TreeNodes(s.body), s.Head());
  }

  lemma RestsThere(code: Code, body: ExprList, s: Site)
    requires LoopsOnce(code, body, s)
    ensures LoopOperands.Rests(SeenGraph(code, body), TheLoop(code, body, s), ShapeAt(code), code.results)
  {
    hide NothingFails, Flowgraph.Flowgraph.Live, Seen, Graph, Valid, Wf, NoOther, D.Pops;
    var graph, l := SeenGraph(code, body), TheLoop(code, body, s);
    HeadThere(code, body, s);
    forall d | graph.Live(d) && d in l.body && d != l.head
      ensures ShapeAt(code)(l.head).height + D.Kept(d, code.results) <= ShapeAt(code)(d).height
      ensures ShapeAt(code)(l.head).height + D.Pops(d.inst) <= ShapeAt(code)(d).height
    {
      var n :| n in s.All() && Seen(code, n) == d;
      RestsAt(code, body, s, n);
    }
  }

  lemma RestsAt(code: Code, body: ExprList, s: Site, n: Node)
    requires LoopsOnce(code, body, s) && n in Made(s.body) && SeenGraph(code, body).Live(Seen(code, n)) && s.id in Coded(body)
    ensures var p := ShapeAt(code)(Seen(code, s.Head())).height;
            && p + D.Kept(Seen(code, n), code.results) <= ShapeAt(code)(Seen(code, n)).height
            && p + D.Pops(Seen(code, n).inst) <= ShapeAt(code)(Seen(code, n)).height
  {
    var m := LivePlace(code, body, Seen(code, n));
    SameNode(code, m, n);
    MadeOwned(s.body);
    NumberedBack(n);
    NumberedBack(s.Head());
    hide Valid, NothingFails;
    AboveLoop(code, body, [], 0, code.results, {}, s, n);
  }

  // ----- one function -----

  // The dependence builder on a validated function with one loop: the run ends;
  // if control can come back to the head of the loop, all that is served is
  // let through, and each call has its edges wherever its result is carried by
  // a way that nothing else joins; what all ways lead to through the loop is
  // let through only then.
  method GeneratePdg(p: CallFlow.Program, inside: D.Node -> set<D.Node>, ghost code: Code, ghost body: ExprList, ghost s: Site)
    returns (ok: bool, b: PdgBuilder.Builder, ghost seen: map<D.Node, set<D.State>>)
    requires LoopsOnce(code, body, s) && LoopsNamed(code, body) && p == SeenProgram(code, body) && inside(Seen(code, s.Head())) == Members(code, s)
    ensures b.graph == p.graph && b.shape == ShapeAt(code) && BuilderRuns.Lawful(b)
    ensures ok && b.dfsList == [] && Provenance.NoTwins(b.edges) && forall e :: e in b.edges ==> Provenance.Explained(b.edges, e)
    ensures var l := TheLoop(code, body, s);
            && (OneLoop.Closes(p.graph, l) ==> forall n :: p.graph.Served(n) && n != p.graph.entry ==> n in b.passed)
            && (OneLoop.Closes(p.graph, l) ==> LoopRuns.AllFollowed(b, l, seen) && LoopRuns.CallsBehind(p, l, ShapeAt(code), set e | e in b.edges))
            && forall n :: p.graph.Served(n) && LoopEntry.Beyond(p.graph, l, n) ==> (n in b.passed <==> OneLoop.Closes(p.graph, l))
  {
    hide LoopsOnce, LoopsNamed, OneLoop.HasOneLoop, LoopOperands.Rests, OneLoop.Closes, LoopEntry.Beyond, LoopRuns.AllFollowed, LoopRuns.CallsBehind,
         Flowgraph.Flowgraph.Served, BuilderRuns.Lawful, BuilderRuns.Validated, Provenance.NoTwins;
    LoopIsValid(code, body, s);
    SeenHasOneLoop(code, body, s);
    RestsThere(code, body, s);
    ok, b, seen := LoopRuns.GeneratePdg(p, inside, ShapeAt(code), TheLoop(code, body, s));
  }

  lemma LoopIsValid(code: Code, body: ExprList, s: Site)
    requires LoopsOnce(code, body, s) && LoopsNamed(code, body)
    ensures BuilderRuns.Validated(SeenGraph(code, body), code.results, code.globals, code.locals, ShapeAt(code))
  {
    hide Validated, NothingFails, BuilderRuns.Validated, LoopsNamed;
    ValidatedForBuilder(code, body);
  }
}
