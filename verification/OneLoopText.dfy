// Bodies with one loop: edges lead forward in the text or back to the loop
// from inside it, and into the loop there is one way.
module OneLoopText {
  import opened Lowering
  import opened LoweringCorrect
  import opened LoopFree

  // The identity of the loop and the list in it.
  datatype Site = Site(id: nat, body: ExprList) {
    function Head(): Node {
      At(id, Inst)
    }

    function Behind(): Node {
      At(id, LoopEnd)
    }

    // The loop and what is in it.
    ghost function All(): set<Node> {
      {Head()} + Made(body)
    }
  }

  // There is no other loop.
  predicate NoOther(es: ExprList, s: Site) {
    match es
    case Nil => true
    case Cons(e, rest) => NoOtherIn(e, s) && NoOther(rest, s)
  }

  predicate NoOtherIn(e: Expr, s: Site) {
    match e
    case Block(_, _, body) => NoOther(body, s)
    case Loop(id, _, body) => id == s.id && body == s.body && NoLoops(body)
    case If(_, _, thn, els) => NoOther(thn, s) && NoOther(els, s)
    case _ => true
  }

  ghost function Loops(es: ExprList): set<nat> {
    match es
    case Nil => {}
    case Cons(e, rest) => LoopsOf(e) + Loops(rest)
  }

  ghost function LoopsOf(e: Expr): set<nat> {
    match e
    case Block(_, _, body) => Loops(body)
    case Loop(id, _, body) => {id} + Loops(body)
    case If(_, _, thn, els) => Loops(thn) + Loops(els)
    case _ => {}
  }

  lemma {:induction false} LoopsOwned(es: ExprList)
    ensures Loops(es) <= Ids(es)
  {
    if es.Cons? {
      LoopsOfOwned(es.head);
      LoopsOwned(es.tail);
    }
  }

  lemma {:induction false} LoopsOfOwned(e: Expr)
    ensures LoopsOf(e) <= IdsOf(e)
  {
    match e
    case Block(_, _, body) => LoopsOwned(body);
    case Loop(_, _, body) => LoopsOwned(body);
    case If(_, _, thn, els) =>
      LoopsOwned(thn);
      LoopsOwned(els);
    case _ =>
  }

  lemma {:induction false} NoneElse(es: ExprList, s: Site)
    requires NoOther(es, s) && s.id !in Loops(es)
    ensures NoLoops(es)
  {
    if es.Cons? {
      NoneElseIn(es.head, s);
      NoneElse(es.tail, s);
    }
  }

  lemma {:induction false} NoneElseIn(e: Expr, s: Site)
    requires NoOtherIn(e, s) && s.id !in LoopsOf(e)
    ensures NoLoopsIn(e)
  {
    match e
    case Block(_, _, body) => NoneElse(body, s);
    case If(_, _, thn, els) =>
      NoneElse(thn, s);
      NoneElse(els, s);
    case _ =>
  }

  lemma {:induction false} NoneThere(es: ExprList)
    requires NoLoops(es)
    ensures Loops(es) == {}
  {
    if es.Cons? {
      NoneThereIn(es.head);
      NoneThere(es.tail);
    }
  }

  lemma {:induction false} NoneThereIn(e: Expr)
    requires NoLoopsIn(e)
    ensures LoopsOf(e) == {}
  {
    match e
    case Block(_, _, body) => NoneThere(body);
    case If(_, _, thn, els) =>
      NoneThere(thn);
      NoneThere(els);
    case _ =>
  }

  // ----- where the loop is -----

  // The numbers of the loop are in this stretch of the text.
  ghost predicate Within(r: Node -> nat, s: Site, lo: nat, hi: nat) {
    lo <= r(s.Head()) && r(s.Behind()) == r(s.Head()) + 1 + Span(s.body) < hi && InOrder(r, s.body, r(s.Head()) + 1)
  }

  lemma {:induction false} Where(r: Node -> nat, es: ExprList, s: Site, lo: nat)
    requires NoOther(es, s) && s.id in Loops(es) && InOrder(r, es, lo)
    ensures Within(r, s, lo, lo + Span(es))
  {
    if s.id in LoopsOf(es.head) {
      WhereIn(r, es.head, s, lo);
    } else {
      Where(r, es.tail, s, lo + SpanOf(es.head));
    }
  }

  lemma {:induction false} WhereIn(r: Node -> nat, e: Expr, s: Site, lo: nat)
    requires NoOtherIn(e, s) && s.id in LoopsOf(e) && InOrderOf(r, e, lo)
    ensures Within(r, s, lo, lo + SpanOf(e))
  {
    match e
    case Block(_, _, body) => Where(r, body, s, lo + 1);
    case Loop(_, _, body) =>
    case If(_, _, thn, els) =>
      if s.id in Loops(thn) {
        Where(r, thn, s, lo + 3);
      } else {
        Where(r, els, s, lo + 3 + Span(thn));
      }
    case _ =>
  }

  // A number of the loop, the marker after it left out.
  ghost predicate OfLoop(r: Node -> nat, s: Site, n: Node) {
    r(s.Head()) <= r(n) < r(s.Behind())
  }

  // ----- where edges lead -----

  predicate IsBegin(n: Node) {
    n.At? && n.part in {Begin, ThenBegin, ElseBegin}
  }

  // The edge leads forward, or back to the loop from inside it; into the rest
  // of the loop it leads from the loop only, and out of it to no begin marker.
  ghost predicate Leads(g: Edge, r: Node -> nat, s: Site, lo: nat, hi: nat) {
    && lo <= r(g.src) < hi
    && (r(g.src) < r(g.dst) || (g.dst == s.Head() && g.src != s.Head() && OfLoop(r, s, g.src) && !IsBegin(g.src)))
    && (OfLoop(r, s, g.dst) && r(g.dst) != r(s.Head()) ==> OfLoop(r, s, g.src))
    && (OfLoop(r, s, g.src) && !OfLoop(r, s, g.dst) ==> !IsBegin(g.dst))
  }

  ghost predicate AllLead(edges: set<Edge>, r: Node -> nat, s: Site, lo: nat, hi: nat) {
    forall g :: g in edges ==> Leads(g, r, s, lo, hi)
  }

  // Control may leave the list for none of the loop, and for no begin marker.
  ghost predicate Outer(r: Node -> nat, s: Site, ts: set<Node>, hi: nat) {
    forall t :: t in ts ==> r(t) >= hi && !OfLoop(r, s, t) && !IsBegin(t)
  }

  ghost predicate Apart(r: Node -> nat, s: Site, lo: nat, hi: nat) {
    hi <= r(s.Head()) || r(s.Behind()) < lo
  }

  // A list without the loop.
  lemma PlainLeads(es: ExprList, blocks: seq<Binding>, r: Node -> nat, s: Site, lo: nat)
    requires NoLoops(es) && InOrder(r, es, lo) && Outer(r, s, Targets(blocks), lo + Span(es)) && Apart(r, s, lo, lo + Span(es))
    ensures AllLead(Edges(es, blocks), r, s, lo, lo + Span(es))
  {
    EdgesForward(es, blocks, r, lo);
    EdgesInto(es, blocks);
    MadeInOrder(r, es, lo);
  }

  lemma PlainLeadsIn(e: Expr, blocks: seq<Binding>, r: Node -> nat, s: Site, lo: nat)
    requires NoLoopsIn(e) && InOrderOf(r, e, lo) && Outer(r, s, Targets(blocks), lo + SpanOf(e)) && Apart(r, s, lo, lo + SpanOf(e))
    ensures AllLead(Inside(e, blocks), r, s, lo, lo + SpanOf(e))
  {
    InsideForward(e, blocks, r, lo);
    InsideInto(e, blocks);
    MadeOfInOrder(r, e, lo);
  }

  lemma MadeOfInOrder(r: Node -> nat, e: Expr, lo: nat)
    requires InOrderOf(r, e, lo)
    ensures forall n :: n in MadeOf(e) ==> lo <= r(n) < lo + SpanOf(e)
  {
    assert Made(Nil) == {} && Span(Nil) == 0 && InOrder(r, Nil, lo + SpanOf(e));
    assert Made(Cons(e, Nil)) == MadeOf(e) + Made(Nil) && Span(Cons(e, Nil)) == SpanOf(e) + Span(Nil) && InOrder(r, Cons(e, Nil), lo);
    MadeInOrder(r, Cons(e, Nil), lo);
  }

  // Begin markers lead to what comes next in the text.
  lemma {:induction false} BeginsLead(es: ExprList, blocks: seq<Binding>)
    requires NoLoops(es)
    ensures forall g :: g in Edges(es, blocks) && IsBegin(g.src) ==> g.dst in Made(es) + {ReturnNode}
    decreases es, 1
  {
    if es.Cons? {
      BeginsLeadIn(es.head, blocks);
      BeginsLead(es.tail, blocks);
    }
  }

  lemma {:induction false} BeginsLeadIn(e: Expr, blocks: seq<Binding>)
    requires NoLoopsIn(e)
    ensures forall g :: g in Inside(e, blocks) && IsBegin(g.src) ==> g.dst in MadeOf(e) + {ReturnNode}
    decreases e, 0
  {
    match e
    case Block(id, name, body) =>
      BeginsLeadNested(body, [Binding(name, At(id, End))] + blocks, At(id, End));
    case If(id, name, thn, els) =>
      BeginsLeadNested(thn, [Binding(name, At(id, End))] + blocks, At(id, End));
      BeginsLeadNested(els, [Binding(name, At(id, End))] + blocks, At(id, End));
    case _ =>
  }

  lemma {:induction false} BeginsLeadNested(es: ExprList, blocks: seq<Binding>, after: Node)
    requires NoLoops(es)
    ensures forall g :: g in Nested(es, blocks, after) && IsBegin(g.src) ==> g.dst in Made(es) + {ReturnNode}
    ensures Entry(es, after) in Made(es) + {ReturnNode, after}
    decreases es, 2
  {
    BeginsLead(es, blocks);
    ExitsNoBegin(es, after);
    EntryInto(es, after);
  }

  lemma {:induction false} ExitsNoBegin(es: ExprList, after: Node)
    ensures forall g :: g in Exit(es, after) ==> !IsBegin(g.src)
  {
    if es.Cons? {
      if es.tail.Cons? {
        ExitsNoBegin(es.tail, after);
      } else {
        match es.head
        case Loop(_, _, body) => ExitsNoBegin(body, after);
        case _ =>
      }
    }
  }

  // ----- the loop itself -----

  lemma {:induction false} SameOrder(r: Node -> nat, q: Node -> nat, es: ExprList, lo: nat)
    requires InOrder(r, es, lo) && forall n :: n in Made(es) ==> q(n) == r(n)
    ensures InOrder(q, es, lo)
  {
    if es.Cons? {
      assert Made(es) == MadeOf(es.head) + Made(es.tail);
      SameOrderOf(r, q, es.head, lo);
      SameOrder(r, q, es.tail, lo + SpanOf(es.head));
    }
  }

  lemma {:induction false} SameOrderOf(r: Node -> nat, q: Node -> nat, e: Expr, lo: nat)
    requires InOrderOf(r, e, lo) && forall n :: n in MadeOf(e) ==> q(n) == r(n)
    ensures InOrderOf(q, e, lo)
  {
    match e
    case Block(_, _, body) => SameOrder(r, q, body, lo + 1);
    case Loop(_, _, body) => SameOrder(r, q, body, lo + 1);
    case If(_, _, thn, els) =>
      SameOrder(r, q, thn, lo + 3);
      SameOrder(r, q, els, lo + 3 + Span(thn));
    case _ =>
  }

  // The list in the loop: edges lead forward, or to the loop's head.
  lemma BodyLeads(r: Node -> nat, s: Site, name: string, blocks: seq<Binding>)
    requires NoLoops(s.body) && s.id !in Ids(s.body) && Within(r, s, 0, r(s.Behind()) + 1) && Outer(r, s, Targets(blocks), r(s.Behind()))
    ensures AllLead(Edges(s.body, [Binding(name, s.Head())] + blocks), r, s, r(s.Head()), r(s.Behind()))
  {
    var inner, lo := [Binding(name, s.Head())] + blocks, r(s.Head()) + 1;
    ghost var q := n => if n == s.Head() then r(s.Behind()) else r(n);
    MadeOwned(s.body);
    SameOrder(r, q, s.body, lo);
    InnerTargets(Binding(name, s.Head()), blocks);
    EdgesForward(s.body, inner, q, lo);
    EdgesInto(s.body, inner);
    BeginsLead(s.body, inner);
    MadeInOrder(r, s.body, lo);
    MadeInOrder(q, s.body, lo);
  }

  // What falls out of the loop.
  lemma BodyExits(r: Node -> nat, s: Site, after: Node)
    requires NoLoops(s.body) && Within(r, s, 0, r(s.Behind()) + 1) && r(after) >= r(s.Behind()) && !IsBegin(after)
    ensures AllLead(Exit(s.body, after), r, s, r(s.Head()), r(s.Behind()))
  {
    ExitForward(s.body, after, r, r(s.Head()) + 1);
    ExitInto(s.body, after);
  }

  lemma MoreLead(edges: set<Edge>, r: Node -> nat, s: Site, lo: nat, hi: nat, from: nat, to: nat)
    requires AllLead(edges, r, s, from, to) && lo <= from && to <= hi
    ensures AllLead(edges, r, s, lo, hi)
  {
  }

  // The first node of a list that is not empty.
  lemma FirstAt(es: ExprList, after: Node, r: Node -> nat, lo: nat)
    requires es.Cons? && InOrder(r, es, lo)
    ensures Entry(es, after) == ReturnNode || (r(Entry(es, after)) == lo && Span(es) > 0)
  {
  }

  lemma LoopLeads(name: string, blocks: seq<Binding>, r: Node -> nat, s: Site)
    requires NoLoops(s.body) && s.body.Cons? && s.id !in Ids(s.body) && Within(r, s, 0, r(s.Behind()) + 1) && Outer(r, s, Targets(blocks), r(s.Behind()) + 1)
    ensures AllLead(Inside(Loop(s.id, name, s.body), blocks), r, s, r(s.Head()), r(s.Behind()) + 1)
  {
    hide InOrder, Edges;
    assert ReturnNode in Targets(blocks);
    BodyLeads(r, s, name, blocks);
    FirstAt(s.body, s.Head(), r, r(s.Head()) + 1);
  }

  lemma OuterLess(r: Node -> nat, s: Site, ts: set<Node>, hi: nat, less: nat)
    requires Outer(r, s, ts, hi) && less <= hi
    ensures Outer(r, s, ts, less)
  {
  }

  // ----- lists around the loop -----

  lemma {:induction false} EdgesLead(es: ExprList, blocks: seq<Binding>, r: Node -> nat, s: Site, lo: nat, labels: set<string>)
    requires NoOther(es, s) && Wf(es, labels) && InOrder(r, es, lo) && Outer(r, s, Targets(blocks), lo + Span(es))
    requires s.id in Loops(es) || Apart(r, s, lo, lo + Span(es))
    ensures AllLead(Edges(es, blocks), r, s, lo, lo + Span(es))
    decreases es, 2
  {
    hide AllLead, Outer, Within, Apart, Targets, NoOtherIn, WfExpr, InOrderOf;
    if s.id !in Loops(es) {
      NoneElse(es, s);
      PlainLeads(es, blocks, r, s, lo);
    } else {
      var e, rest := es.head, es.tail;
      LoopsOwned(rest);
      LoopsOfOwned(e);
      Parts(e, rest, r, s, lo);
      OuterLess(r, s, Targets(blocks), lo + Span(es), lo + SpanOf(e));
      InsideLeads(e, blocks, r, s, lo, labels);
      EdgesLead(rest, blocks, r, s, lo + SpanOf(e), labels);
      LinkLeads(e, blocks, rest, r, s, lo);
      Together(e, rest, blocks, r, s, lo);
    }
  }

  lemma Together(e: Expr, rest: ExprList, blocks: seq<Binding>, r: Node -> nat, s: Site, lo: nat)
    requires AllLead(Inside(e, blocks), r, s, lo, lo + SpanOf(e)) && AllLead(Link(e, blocks, rest), r, s, lo, lo + SpanOf(e))
    requires AllLead(Edges(rest, blocks), r, s, lo + SpanOf(e), lo + SpanOf(e) + Span(rest))
    ensures AllLead(Edges(Cons(e, rest), blocks), r, s, lo, lo + SpanOf(e) + Span(rest))
  {
    hide Leads, Inside, Link, Ends;
    MoreLead(Inside(e, blocks), r, s, lo, lo + SpanOf(e) + Span(rest), lo, lo + SpanOf(e));
    MoreLead(Link(e, blocks, rest), r, s, lo, lo + SpanOf(e) + Span(rest), lo, lo + SpanOf(e));
    MoreLead(Edges(rest, blocks), r, s, lo, lo + SpanOf(e) + Span(rest), lo + SpanOf(e), lo + SpanOf(e) + Span(rest));
  }

  // The loop is in the first instruction, or behind it.
  lemma Parts(e: Expr, rest: ExprList, r: Node -> nat, s: Site, lo: nat)
    requires NoOtherIn(e, s) && NoOther(rest, s) && InOrderOf(r, e, lo) && InOrder(r, rest, lo + SpanOf(e)) && LoopsOf(e) !! Loops(rest)
    requires s.id in LoopsOf(e) + Loops(rest)
    ensures s.id in LoopsOf(e) ==> Within(r, s, lo, lo + SpanOf(e)) && Apart(r, s, lo + SpanOf(e), lo + SpanOf(e) + Span(rest))
    ensures s.id in Loops(rest) ==> Within(r, s, lo + SpanOf(e), lo + SpanOf(e) + Span(rest)) && Apart(r, s, lo, lo + SpanOf(e))
  {
    if s.id in LoopsOf(e) {
      WhereIn(r, e, s, lo);
    } else {
      Where(r, rest, s, lo + SpanOf(e));
    }
  }

  lemma LinkLeads(e: Expr, blocks: seq<Binding>, rest: ExprList, r: Node -> nat, s: Site, lo: nat)
    requires NoOtherIn(e, s) && InOrderOf(r, e, lo) && InOrder(r, rest, lo + SpanOf(e)) && Outer(r, s, Targets(blocks), lo + SpanOf(e) + Span(rest))
    requires if s.id in LoopsOf(e) then Within(r, s, lo, lo + SpanOf(e)) else Apart(r, s, lo, lo + SpanOf(e))
    requires s.id !in LoopsOf(e) ==> Within(r, s, lo + SpanOf(e), lo + SpanOf(e) + Span(rest))
    ensures AllLead(Link(e, blocks, rest), r, s, lo, lo + SpanOf(e))
  {
    assert ReturnNode in Targets(blocks);
    if e.Loop? && rest.Cons? {
      BodyExits(r, s, s.Behind());
    }
  }

  lemma {:induction false} InsideLeads(e: Expr, blocks: seq<Binding>, r: Node -> nat, s: Site, lo: nat, labels: set<string>)
    requires NoOtherIn(e, s) && WfExpr(e, labels) && InOrderOf(r, e, lo) && Outer(r, s, Targets(blocks), lo + SpanOf(e))
    requires s.id in LoopsOf(e) || Apart(r, s, lo, lo + SpanOf(e))
    ensures AllLead(Inside(e, blocks), r, s, lo, lo + SpanOf(e))
    decreases e, 1
  {
    hide AllLead, Targets;
    if s.id !in LoopsOf(e) {
      NoneElseIn(e, s);
      PlainLeadsIn(e, blocks, r, s, lo);
    } else {
      WhereIn(r, e, s, lo);
      match e
      case Block(id, name, body) => BlockLeads(e, blocks, r, s, lo, labels);
      case Loop(id, name, body) => LoopLeads(name, blocks, r, s);
      case If(id, name, thn, els) => ArmsLead(e, blocks, r, s, lo, labels);
    }
  }

  lemma {:induction false} BlockLeads(e: Expr, blocks: seq<Binding>, r: Node -> nat, s: Site, lo: nat, labels: set<string>)
    requires e.Block? && NoOtherIn(e, s) && WfExpr(e, labels) && InOrderOf(r, e, lo) && Outer(r, s, Targets(blocks), lo + SpanOf(e)) && s.id in LoopsOf(e)
    ensures AllLead(Inside(e, blocks), r, s, lo, lo + SpanOf(e))
    decreases e, 0
  {
    hide Nested, InOrder;
    var b := Binding(e.name, At(e.id, End));
    assert ReturnNode in Targets(blocks);
    Where(r, e.body, s, lo + 1);
    NestedLeads(e.body, b, blocks, r, s, lo + 1, labels);
    MoreLead(Nested(e.body, [b] + blocks, b.node), r, s, lo, lo + SpanOf(e), lo + 1, lo + 1 + Span(e.body));
    FirstAt(e.body, b.node, r, lo + 1);
  }

  // A list in a block, with the edges that leave it at its end.
  lemma {:induction false} NestedLeads(es: ExprList, b: Binding, blocks: seq<Binding>, r: Node -> nat, s: Site, lo: nat, labels: set<string>)
    requires NoOther(es, s) && Wf(es, labels + {b.name}) && InOrder(r, es, lo) && Outer(r, s, Targets(blocks), lo + Span(es))
    requires r(b.node) >= lo + Span(es) && !OfLoop(r, s, b.node) && !IsBegin(b.node)
    requires s.id in Loops(es) || Apart(r, s, lo, lo + Span(es))
    ensures AllLead(Nested(es, [b] + blocks, b.node), r, s, lo, lo + Span(es))
    decreases es, 3
  {
    InnerTargets(b, blocks);
    EdgesLead(es, [b] + blocks, r, s, lo, labels + {b.name});
    ExitsLead(es, b.node, r, s, lo, labels + {b.name});
  }

  lemma {:induction false} ExitsLead(es: ExprList, after: Node, r: Node -> nat, s: Site, lo: nat, labels: set<string>)
    requires NoOther(es, s) && Wf(es, labels) && InOrder(r, es, lo) && r(after) >= lo + Span(es) && !OfLoop(r, s, after) && !IsBegin(after)
    requires s.id in Loops(es) || Apart(r, s, lo, lo + Span(es))
    ensures AllLead(Exit(es, after), r, s, lo, lo + Span(es))
    decreases es, 1
  {
    if s.id !in Loops(es) {
      NoneElse(es, s);
      ExitForward(es, after, r, lo);
      ExitInto(es, after);
    } else {
      var e, rest := es.head, es.tail;
      LoopsOwned(rest);
      LoopsOfOwned(e);
      Parts(e, rest, r, s, lo);
      if rest.Cons? {
        ExitsLead(rest, after, r, s, lo + SpanOf(e), labels);
        MoreLead(Exit(rest, after), r, s, lo, lo + Span(es), lo + SpanOf(e), lo + Span(es));
      } else {
        LastLeads(e, after, r, s, lo);
      }
    }
  }

  lemma LastLeads(e: Expr, after: Node, r: Node -> nat, s: Site, lo: nat)
    requires NoOtherIn(e, s) && s.id in LoopsOf(e) && InOrderOf(r, e, lo) && r(after) >= lo + SpanOf(e) && !IsBegin(after) && Within(r, s, lo, lo + SpanOf(e))
    ensures AllLead(ExitOf(e, after), r, s, lo, lo + SpanOf(e))
  {
    if e.Loop? {
      BodyExits(r, s, after);
    }
  }

  lemma {:induction false} ArmsLead(e: Expr, blocks: seq<Binding>, r: Node -> nat, s: Site, lo: nat, labels: set<string>)
    requires e.If? && NoOtherIn(e, s) && WfExpr(e, labels) && InOrderOf(r, e, lo) && Outer(r, s, Targets(blocks), lo + SpanOf(e)) && s.id in LoopsOf(e)
    requires Within(r, s, lo, lo + SpanOf(e))
    ensures AllLead(Inside(e, blocks), r, s, lo, lo + SpanOf(e))
    decreases e, 0
  {
    hide Nested, InOrder;
    var b, at := Binding(e.name, At(e.id, End)), lo + 3 + Span(e.thn);
    LoopsOwned(e.thn);
    LoopsOwned(e.els);
    if s.id in Loops(e.thn) {
      Where(r, e.thn, s, lo + 3);
    } else {
      Where(r, e.els, s, at);
    }
    NestedLeads(e.thn, b, blocks, r, s, lo + 3, labels);
    NestedLeads(e.els, b, blocks, r, s, at, labels);
    MoreLead(Nested(e.thn, [b] + blocks, b.node), r, s, lo, lo + SpanOf(e), lo + 3, at);
    MoreLead(Nested(e.els, [b] + blocks, b.node), r, s, lo, lo + SpanOf(e), at, at + Span(e.els));
    ArmStarts(e, blocks, r, s, lo);
    ArmEdges(e, blocks);
  }

  lemma ArmEdges(e: Expr, blocks: seq<Binding>)
    requires e.If?
    ensures var inner := [Binding(e.name, At(e.id, End))] + blocks;
            Inside(e, blocks) <= {Edge(At(e.id, Inst), True, At(e.id, ThenBegin)), Edge(At(e.id, Inst), False, At(e.id, ElseBegin)),
                                  Edge(At(e.id, ThenBegin), Next, Entry(e.thn, At(e.id, End))),
                                  Edge(At(e.id, ElseBegin), Next, Entry(e.els, At(e.id, End)))}
                                 + Nested(e.thn, inner, At(e.id, End)) + Nested(e.els, inner, At(e.id, End))
  {
    hide Nested;
  }

  // The edges to the arms and into them.
  lemma ArmStarts(e: Expr, blocks: seq<Binding>, r: Node -> nat, s: Site, lo: nat)
    requires e.If? && InOrderOf(r, e, lo) && e.thn.Cons? && Outer(r, s, Targets(blocks), lo + SpanOf(e))
    requires Within(r, s, lo + 3, lo + 3 + Span(e.thn)) || Within(r, s, lo + 3 + Span(e.thn), lo + 3 + Span(e.thn) + Span(e.els))
    ensures AllLead({Edge(At(e.id, Inst), True, At(e.id, ThenBegin)), Edge(At(e.id, Inst), False, At(e.id, ElseBegin)),
                     Edge(At(e.id, ThenBegin), Next, Entry(e.thn, At(e.id, End))),
                     Edge(At(e.id, ElseBegin), Next, Entry(e.els, At(e.id, End)))}, r, s, lo, lo + SpanOf(e))
  {
    assert ReturnNode in Targets(blocks);
    FirstAt(e.thn, At(e.id, End), r, lo + 3);
    if e.els.Cons? {
      FirstAt(e.els, At(e.id, End), r, lo + 3 + Span(e.thn));
    }
    hide InOrder;
  }

  // ----- one way in -----

  ghost predicate NoneTo(edges: set<Edge>, n: Node) {
    forall g :: g in edges ==> g.dst != n
  }

  // At most one edge comes to the loop from outside.
  ghost predicate OneEntry(edges: set<Edge>, r: Node -> nat, s: Site) {
    forall g, h :: g in edges && h in edges && g.dst == s.Head() && h.dst == s.Head() && !OfLoop(r, s, g.src) && !OfLoop(r, s, h.src) ==> g == h
  }

  // Lists and instructions without the loop do not lead there.
  lemma ElsewhereTo(es: ExprList, blocks: seq<Binding>, s: Site)
    requires NoLoops(es) && s.id !in Ids(es) && s.Head() !in Targets(blocks)
    ensures NoneTo(Edges(es, blocks), s.Head()) && s.Head() !in Made(es)
  {
    MadeOwned(es);
    EdgesInto(es, blocks);
  }

  lemma ElsewhereToIn(e: Expr, blocks: seq<Binding>, s: Site)
    requires NoLoopsIn(e) && s.id !in IdsOf(e) && s.Head() !in Targets(blocks)
    ensures NoneTo(Inside(e, blocks), s.Head()) && s.Head() !in MadeOf(e) && NodeOf(e) != s.Head()
  {
    MadeOfOwned(e);
    InsideInto(e, blocks);
  }

  // The edges from an instruction without the loop to the next one.
  lemma OneLink(e: Expr, blocks: seq<Binding>, rest: ExprList, s: Site) returns (link: Edge)
    requires NoLoopsIn(e) && rest.Cons?
    ensures Link(e, blocks, rest) <= {link} && link.dst == NodeOf(rest.head)
  {
    link := Edge(ReturnNode, Next, NodeOf(rest.head));
    if g :| g in Link(e, blocks, rest) {
      link := g;
    }
  }

  lemma {:induction false} OneIn(es: ExprList, blocks: seq<Binding>, labels: set<string>, first: Edge, after: Node, r: Node -> nat, s: Site, lo: nat)
    requires NoOther(es, s) && Wf(es, labels) && s.id in Loops(es) && s.Head() !in Targets(blocks) && InOrder(r, es, lo) && first.dst == Entry(es, after)
    ensures OneEntry(Edges(es, blocks) + {first}, r, s)
    decreases es, 1
  {
    hide Link, Made, Targets;
    var e, rest := es.head, es.tail;
    LoopsOwned(rest);
    LoopsOfOwned(e);
    if s.id in LoopsOf(e) {
      NoneElse(rest, s);
      ElsewhereTo(rest, blocks, s);
      NextElsewhere(rest, s);
      if e.Loop? {
        OneAtLoop(e, blocks, rest, labels, first, r, s, lo);
      } else {
        OneInExpr(e, blocks, labels, r, s, lo);
        OthersElsewhere(e, blocks, rest, s);
      }
    } else {
      NoneElseIn(e, s);
      ElsewhereToIn(e, blocks, s);
      var link := OneLink(e, blocks, rest, s);
      OneIn(rest, blocks, labels, link, after, r, s, lo + SpanOf(e));
    }
  }

  lemma NextElsewhere(rest: ExprList, s: Site)
    requires s.id !in Ids(rest)
    ensures rest.Cons? ==> NodeOf(rest.head) != s.Head()
  {
    if rest.Cons? {
      MadeOfOwned(rest.head);
      assert NodeOf(rest.head) in MadeOf(rest.head) + {ReturnNode};
    }
  }

  lemma OthersElsewhere(e: Expr, blocks: seq<Binding>, rest: ExprList, s: Site)
    requires !e.Loop? && (rest.Cons? ==> NodeOf(rest.head) != s.Head())
    ensures NoneTo(Link(e, blocks, rest), s.Head())
  {
  }

  lemma OneAtLoop(e: Expr, blocks: seq<Binding>, rest: ExprList, labels: set<string>, first: Edge, r: Node -> nat, s: Site, lo: nat)
    requires e.Loop? && NoOtherIn(e, s) && WfExpr(e, labels) && InOrderOf(r, e, lo) && s.id !in Ids(rest) && NoneTo(Edges(rest, blocks), s.Head())
    requires rest.Cons? ==> NodeOf(rest.head) != s.Head()
    ensures OneEntry(Edges(Cons(e, rest), blocks) + {first}, r, s)
  {
    ghost var inner := [Binding(e.name, s.Head())] + blocks;
    MadeInOrder(r, s.body, lo + 1);
    MadeOwned(s.body);
    SourcesMade(s.body, inner);
    ExitInto(s.body, s.Behind());
  }

  // Edges start at nodes of the list.
  lemma {:induction false} SourcesMade(es: ExprList, blocks: seq<Binding>)
    ensures forall g :: g in Edges(es, blocks) ==> g.src in Made(es)
    decreases es, 2
  {
    if es.Cons? {
      SourcesMadeIn(es.head, blocks);
      SourcesMade(es.tail, blocks);
      LinksMade(es.head, blocks, es.tail);
    }
  }

  lemma LinksMade(e: Expr, blocks: seq<Binding>, rest: ExprList)
    ensures forall g :: g in Link(e, blocks, rest) ==> g.src in MadeOf(e)
  {
    if e.Loop? {
      ExitsMade(e.body, At(e.id, LoopEnd));
    }
  }

  lemma {:induction false} SourcesMadeIn(e: Expr, blocks: seq<Binding>)
    ensures forall g :: g in Inside(e, blocks) ==> g.src in MadeOf(e)
    decreases e, 0
  {
    match e
    case Block(id, name, body) =>
      SourcesMade(body, [Binding(name, At(id, End))] + blocks);
      ExitsMade(body, At(id, End));
    case Loop(id, name, body) => SourcesMade(body, [Binding(name, At(id, Inst))] + blocks);
    case If(id, name, thn, els) =>
      SourcesMade(thn, [Binding(name, At(id, End))] + blocks);
      SourcesMade(els, [Binding(name, At(id, End))] + blocks);
      ExitsMade(thn, At(id, End));
      ExitsMade(els, At(id, End));
    case _ =>
  }

  lemma {:induction false} ExitsMade(es: ExprList, after: Node)
    ensures forall g :: g in Exit(es, after) ==> g.src in Made(es)
  {
    if es.Cons? {
      if es.tail.Cons? {
        ExitsMade(es.tail, after);
      } else {
        match es.head
        case Loop(_, _, body) => ExitsMade(body, after);
        case _ =>
      }
    }
  }

  lemma {:induction false} OneInExpr(e: Expr, blocks: seq<Binding>, labels: set<string>, r: Node -> nat, s: Site, lo: nat)
    requires NoOtherIn(e, s) && WfExpr(e, labels) && s.id in LoopsOf(e) && !e.Loop? && s.Head() !in Targets(blocks) && InOrderOf(r, e, lo)
    ensures OneEntry(Inside(e, blocks), r, s) && NodeOf(e) != s.Head()
    decreases e, 1
  {
    match e
    case Block(id, name, body) =>
      OneNestedIn(body, Binding(name, At(id, End)), blocks, labels, Edge(At(id, Begin), Next, Entry(body, At(id, End))), r, s, lo + 1);
    case If(id, name, thn, els) => OneInArms(e, blocks, labels, r, s, lo);
    case _ =>
  }

  lemma {:induction false} OneInArms(e: Expr, blocks: seq<Binding>, labels: set<string>, r: Node -> nat, s: Site, lo: nat)
    requires e.If? && NoOtherIn(e, s) && WfExpr(e, labels) && s.id in LoopsOf(e) && s.Head() !in Targets(blocks) && InOrderOf(r, e, lo)
    ensures OneEntry(Inside(e, blocks), r, s) && NodeOf(e) != s.Head()
    decreases e, 0
  {
    var b := Binding(e.name, At(e.id, End));
    LoopsOwned(e.thn);
    LoopsOwned(e.els);
    if s.id in Loops(e.thn) {
      NoneElse(e.els, s);
      OneNestedIn(e.thn, b, blocks, labels, Edge(At(e.id, ThenBegin), Next, Entry(e.thn, b.node)), r, s, lo + 3);
      NestedElsewhere(e.els, b, blocks, s);
    } else {
      NoneElse(e.thn, s);
      OneNestedIn(e.els, b, blocks, labels, Edge(At(e.id, ElseBegin), Next, Entry(e.els, b.node)), r, s, lo + 3 + Span(e.thn));
      NestedElsewhere(e.thn, b, blocks, s);
    }
    ArmEdges(e, blocks);
    hide Nested, Inside;
  }

  lemma NestedElsewhere(es: ExprList, b: Binding, blocks: seq<Binding>, s: Site)
    requires NoLoops(es) && s.id !in Ids(es) && s.Head() !in Targets(blocks) && b.node != s.Head()
    ensures NoneTo(Nested(es, [b] + blocks, b.node), s.Head()) && Entry(es, b.node) != s.Head()
  {
    MadeOwned(es);
    NestedInto(es, b, blocks);
  }

  lemma {:induction false} OneNestedIn(es: ExprList, b: Binding, blocks: seq<Binding>, labels: set<string>, first: Edge, r: Node -> nat, s: Site, lo: nat)
    requires NoOther(es, s) && Wf(es, labels + {b.name}) && s.id in Loops(es) && s.Head() !in Targets(blocks) && InOrder(r, es, lo)
    requires b.node.At? && b.node.part == End && first.dst == Entry(es, b.node)
    ensures OneEntry(Nested(es, [b] + blocks, b.node) + {first}, r, s)
    decreases es, 2
  {
    InnerTargets(b, blocks);
    OneIn(es, [b] + blocks, labels + {b.name}, first, b.node, r, s, lo);
    ExitInto(es, b.node);
  }

  // ----- the nodes of the loop -----

  // The numbers of the loop are those of its nodes.
  lemma {:induction false} OfLoopIs(r: Node -> nat, es: ExprList, s: Site, lo: nat, n: Node)
    requires NoOther(es, s) && s.id in Loops(es) && InOrder(r, es, lo) && n in Made(es)
    ensures OfLoop(r, s, n) <==> n in s.All()
    decreases es, 1
  {
    var e, rest := es.head, es.tail;
    if s.id in LoopsOf(e) {
      WhereIn(r, e, s, lo);
    } else {
      Where(r, rest, s, lo + SpanOf(e));
    }
    LoopNumbers(r, s);
    MadeOfInOrder(r, e, lo);
    MadeInOrder(r, rest, lo + SpanOf(e));
    if s.id in LoopsOf(e) && n in MadeOf(e) {
      OfLoopIsIn(r, e, s, lo, n);
    } else if s.id !in LoopsOf(e) && n in Made(rest) {
      OfLoopIs(r, rest, s, lo + SpanOf(e), n);
    }
  }

  lemma LoopNumbers(r: Node -> nat, s: Site)
    requires Within(r, s, 0, r(s.Behind()) + 1)
    ensures forall n :: n in s.All() ==> OfLoop(r, s, n)
  {
    MadeInOrder(r, s.body, r(s.Head()) + 1);
  }

  lemma {:induction false} OfLoopIsIn(r: Node -> nat, e: Expr, s: Site, lo: nat, n: Node)
    requires NoOtherIn(e, s) && s.id in LoopsOf(e) && InOrderOf(r, e, lo) && n in MadeOf(e)
    ensures OfLoop(r, s, n) <==> n in s.All()
    decreases e, 1
  {
    WhereIn(r, e, s, lo);
    LoopNumbers(r, s);
    match e
    case Block(id, _, body) =>
      Where(r, body, s, lo + 1);
      if n in Made(body) {
        OfLoopIs(r, body, s, lo + 1, n);
      }
    case If(id, _, thn, els) => InArmsIs(r, e, s, lo, n);
    case _ =>
  }

  lemma {:induction false} InArmsIs(r: Node -> nat, e: Expr, s: Site, lo: nat, n: Node)
    requires e.If? && NoOtherIn(e, s) && s.id in LoopsOf(e) && InOrderOf(r, e, lo) && n in MadeOf(e) && Within(r, s, lo, lo + SpanOf(e))
    requires forall m :: m in s.All() ==> OfLoop(r, s, m)
    ensures OfLoop(r, s, n) <==> n in s.All()
    decreases e, 0
  {
    var at := lo + 3 + Span(e.thn);
    MadeInOrder(r, e.thn, lo + 3);
    MadeInOrder(r, e.els, at);
    if s.id in Loops(e.thn) {
      Where(r, e.thn, s, lo + 3);
      if n in Made(e.thn) {
        OfLoopIs(r, e.thn, s, lo + 3, n);
      }
    } else {
      Where(r, e.els, s, at);
      if n in Made(e.els) {
        OfLoopIs(r, e.els, s, at, n);
      }
    }
  }

  // Instructions below the loop in the syntax tree: all of it but begin markers.
  lemma {:induction false} TreeIsMade(es: ExprList)
    requires NoLoops(es)
    ensures forall n :: n in TreeNodes(es) <==> n in Made(es) && !IsBegin(n)
  {
    if es.Cons? {
      TreeIsMadeOf(es.head);
      TreeIsMade(es.tail);
      assert TreeNodes(es) == TreeNodesOf(es.head) + TreeNodes(es.tail);
    }
  }

  lemma {:induction false} TreeIsMadeOf(e: Expr)
    requires NoLoopsIn(e)
    ensures forall n :: n in TreeNodesOf(e) <==> n in MadeOf(e) && !IsBegin(n)
  {
    match e
    case Block(_, _, body) => TreeIsMade(body);
    case If(_, _, thn, els) =>
      TreeIsMade(thn);
      TreeIsMade(els);
    case _ =>
  }

  // ----- one function -----

  lemma {:induction false} SiteIs(es: ExprList, s: Site, labels: set<string>)
    requires NoOther(es, s) && Wf(es, labels) && s.id in Loops(es)
    ensures NoLoops(s.body) && s.body.Cons? && s.id !in Ids(s.body)
    ensures s.Head() in Made(es) && Made(s.body) <= Made(es)
    decreases es, 1
  {
    if s.id in LoopsOf(es.head) {
      SiteIsIn(es.head, s, labels);
    } else {
      SiteIs(es.tail, s, labels);
    }
  }

  lemma {:induction false} SiteIsIn(e: Expr, s: Site, labels: set<string>)
    requires NoOtherIn(e, s) && WfExpr(e, labels) && s.id in LoopsOf(e)
    ensures NoLoops(s.body) && s.body.Cons? && s.id !in Ids(s.body)
    ensures s.Head() in MadeOf(e) && Made(s.body) <= MadeOf(e)
    decreases e, 0
  {
    match e
    case Block(_, name, body) => SiteIs(body, s, labels + {name});
    case If(_, name, thn, els) =>
      if s.id in Loops(thn) {
        SiteIs(thn, s, labels + {name});
      } else {
        SiteIs(els, s, labels + {name});
      }
    case _ =>
  }

  // The text orders the graph but for the way back, and there is one way in.
  lemma GraphLeads(body: ExprList, s: Site)
    requires Wf(body, {}) && NoOther(body, s) && s.id in Loops(body)
    ensures var r := n => Place(body, n);
            && AllLead(Graph(body), r, s, 0, 1 + Span(body)) && OneEntry(Graph(body), r, s) && Within(r, s, 1, 1 + Span(body))
            && InOrder(r, body, 1)
  {
    hide InOrder, Wf, NoOther, Loops, Edges, Exit, Graph, Leads, OneEntry;
    ghost var r := n => Place(body, n);
    PositionsInOrder(r, body, 1, {});
    Where(r, body, s, 1);
    assert Targets([]) == {ReturnNode, Trap};
    EdgesLead(body, [], r, s, 1, {});
    ExitsLead(body, ReturnNode, r, s, 1, {});
    NotNil(body, s);
    StartLeads(body, r, s);
    RepairsLead(body, r, s);
    UnrepairedOne(body, r, s);
    BothLead(body, r, s);
  }

  lemma NotNil(body: ExprList, s: Site)
    requires s.id in Loops(body)
    ensures body.Cons?
  {
  }

  lemma BothLead(body: ExprList, r: Node -> nat, s: Site)
    requires AllLead(Unrepaired(body), r, s, 0, 1 + Span(body)) && AllLead(Repairs(body), r, s, 0, 1 + Span(body))
    ensures AllLead(Graph(body), r, s, 0, 1 + Span(body))
  {
    hide Leads, Unrepaired, Repairs;
  }

  lemma StartLeads(body: ExprList, r: Node -> nat, s: Site)
    requires AllLead(Edges(body, []), r, s, 1, 1 + Span(body)) && AllLead(Exit(body, ReturnNode), r, s, 1, 1 + Span(body))
    requires r(Instructions) == 0 && r(ReturnNode) == 1 + Span(body) && body.Cons? && InOrder(r, body, 1) && Within(r, s, 1, 1 + Span(body))
    ensures AllLead(Unrepaired(body), r, s, 0, 1 + Span(body))
  {
    FirstAt(body, ReturnNode, r, 1);
    hide Edges, Exit, InOrder;
    MoreLead(Edges(body, []), r, s, 0, 1 + Span(body), 1, 1 + Span(body));
    MoreLead(Exit(body, ReturnNode), r, s, 0, 1 + Span(body), 1, 1 + Span(body));
  }

  lemma RepairsLead(body: ExprList, r: Node -> nat, s: Site)
    requires AllLead(Unrepaired(body), r, s, 0, 1 + Span(body)) && InOrder(r, body, 1) && Within(r, s, 1, 1 + Span(body)) && r(ReturnNode) == 1 + Span(body)
    ensures AllLead(Repairs(body), r, s, 0, 1 + Span(body))
  {
    TreeInText(body);
    MadeInOrder(r, body, 1);
    hide Unrepaired, InOrder;
  }

  lemma {:induction false} TreeInText(es: ExprList)
    ensures TreeNodes(es) <= Made(es)
  {
    if es.Cons? {
      TreeInTextOf(es.head);
      TreeInText(es.tail);
    }
  }

  lemma {:induction false} TreeInTextOf(e: Expr)
    ensures TreeNodesOf(e) <= MadeOf(e)
  {
    match e
    case Block(_, _, body) => TreeInText(body);
    case Loop(_, _, body) => TreeInText(body);
    case If(_, _, thn, els) =>
      TreeInText(thn);
      TreeInText(els);
    case _ =>
  }

  lemma UnrepairedOne(body: ExprList, r: Node -> nat, s: Site)
    requires Wf(body, {}) && NoOther(body, s) && s.id in Loops(body) && InOrder(r, body, 1)
    ensures OneEntry(Graph(body), r, s)
  {
    assert Targets([]) == {ReturnNode, Trap};
    OneIn(body, [], {}, Edge(Instructions, Next, Entry(body, ReturnNode)), ReturnNode, r, s, 1);
    ExitInto(body, ReturnNode);
    forall g | g in Repairs(body)
      ensures g.dst == ReturnNode
    {
    }
  }

  // Both ends of an edge are nodes of the text, or the start or the end.
  lemma GraphMade(body: ExprList)
    ensures forall g :: g in Graph(body) ==> g.src in Made(body) + {Instructions} && g.dst in Made(body) + {ReturnNode, Trap}
  {
    assert Targets([]) == {ReturnNode, Trap};
    SourcesMade(body, []);
    ExitsMade(body, ReturnNode);
    EdgesInto(body, []);
    ExitInto(body, ReturnNode);
    EntryInto(body, ReturnNode);
    TreeInText(body);
  }

  // The start and the end are outside the text.
  lemma NoText(body: ExprList, n: Node)
    requires n in Made(body) + {Instructions, ReturnNode, Trap}
    ensures n !in Made(body) ==> !n.At? && (Place(body, n) == 0 || Place(body, n) == 1 + Span(body))
    ensures n in Made(body) ==> n.At?
  {
    MadeOwned(body);
  }

  // The loop by numbers of the text.
  lemma LoopByPlace(body: ExprList, s: Site, n: Node)
    requires Wf(body, {}) && NoOther(body, s) && s.id in Loops(body) && n in Made(body) + {Instructions, ReturnNode, Trap}
    ensures var r := m => Place(body, m);
            && (n in s.All() <==> OfLoop(r, s, n)) && (n in {s.Head()} + TreeNodes(s.body) <==> OfLoop(r, s, n) && !IsBegin(n))
            && (OfLoop(r, s, n) && n != s.Head() ==> Place(body, n) > Place(body, s.Head()))
  {
    hide Place, Wf, NoOther, Loops, Graph, InOrder;
    ghost var r := m => Place(body, m);
    GraphLeads(body, s);
    SiteIs(body, s, {});
    TreeIsMade(s.body);
    MadeInOrder(r, s.body, r(s.Head()) + 1);
    NoText(body, n);
    MadeOwned(s.body);
    if n in Made(body) {
      OfLoopIs(r, body, s, 1, n);
    }
  }
}
