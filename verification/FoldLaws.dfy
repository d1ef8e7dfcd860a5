// What folding keeps: every id is used once, operands stay in order, and the
// result is a forest.
module FoldLaws {
  import opened Wrappers
  import opened Folding

  // ----- operands of instructions -----

  // The node, the last of the stack for its operands and `body` for what it
  // holds, has gone among the statements.
  ghost predicate Stated(s: State, t: State, nargs: nat, body: seq<Tree>)
    requires nargs <= |s.stack|
  {
    t.stack == s.stack[..|s.stack| - nargs] && t.list == s.list + [Tree(s.next, s.stack[|s.stack| - nargs..], body)]
  }

  // It is on top of the stack.
  ghost predicate Stacked(s: State, t: State, nargs: nat, body: seq<Tree>)
    requires nargs <= |s.stack|
  {
    t.stack == s.stack[..|s.stack| - nargs] + [Tree(s.next, s.stack[|s.stack| - nargs..], body)] && t.list == s.list
  }

  // A br_if has the condition for its only operand, a br has none: what they
  // may bring to their label stays where it is. Both are statements. A return
  // takes its arguments and stands for a value. Other instructions take all
  // their operands, and are values if they leave one that is used.
  lemma OpTakes(kind: Kind, a: Arity, s: State)
    requires a.nargs <= |s.stack| && a.nreturns <= 1 && (kind.BrIf? ==> s.stack != [])
    ensures var r := FoldExpr(Op(kind, a), s);
            && r.Some? && r.value.next == s.next + 1 && r.value.begins == s.begins
            && match kind
               case BrIf => Stated(s, r.value, 1, []) && [s.stack[|s.stack| - 1]] == s.stack[|s.stack| - 1..]
               case Br => Stated(s, r.value, 0, []) && r.value.stack == s.stack
               case Return => if a.nreturns == 1 then Stacked(s, r.value, a.nargs, []) else Stated(s, r.value, a.nargs, [])
               case _ => if a.nreturns == 1 && !a.unreachable then Stacked(s, r.value, a.nargs, []) else Stated(s, r.value, a.nargs, [])
  {
    hide FoldExpr;
    OpFolds(kind, a, s);
    assert s.stack[|s.stack|..] == [];
  }

  lemma OpFolds(kind: Kind, a: Arity, s: State)
    requires a.nargs <= |s.stack| && a.nreturns <= 1 && Used(kind, a).nargs <= |s.stack|
    ensures FoldExpr(Op(kind, a), s) == Some(Placed(s, s.next, s.next + 1, Used(kind, a), [], s.begins))
  {
    hide Placed, Used;
  }

  // An if has the condition for its only operand and holds its arms, a block
  // and a loop hold what their bodies leave.
  lemma HoldersTake(e: Expr, s: State)
    requires !e.Op? && FoldExpr(e, s).Some?
    ensures var t := FoldExpr(e, s).value;
            if e.If? then
              && s.stack != [] && FoldArms(e, s.next + 1).Some? && var kids := FoldArms(e, s.next + 1).value.kids;
                 if e.arity.nreturns == 0 then Stated(s, t, 1, kids) else Stacked(s, t, 1, kids)
            else
              && e.arity.nargs <= |s.stack| && FoldBody(e.body, e.nresults, s.next + 1).Some? && var kids := FoldBody(e.body, e.nresults, s.next + 1).value.kids;
                 if e.arity.nreturns == 0 || e.arity.unreachable then Stated(s, t, e.arity.nargs, kids) else Stacked(s, t, e.arity.nargs, kids)
  {
  }

  // ----- numbering -----

  function Within(lo: nat, hi: nat, n: nat): nat {
    if lo <= n < hi then 1 else 0
  }

  lemma {:induction false} CountSum(a: seq<Tree>, b: seq<Tree>, n: nat)
    ensures CountAll(a + b, n) == CountAll(a, n) + CountAll(b, n)
  {
    if a == [] {
      assert a + b == b;
    } else {
      CountSum(a[1..], b, n);
      assert (a + b)[1..] == a[1..] + b;
    }
  }

  lemma {:induction false} CountReverse(ts: seq<Tree>, n: nat)
    ensures CountAll(Reverse(ts), n) == CountAll(ts, n)
  {
    if ts != [] {
      var top := |ts| - 1;
      CountReverse(ts[..top], n);
      CountSum([ts[top]], Reverse(ts[..top]), n);
      CountSum(ts[..top], [ts[top]], n);
      assert ts == ts[..top] + [ts[top]];
    }
  }

  lemma {:induction false} TimesSum(a: seq<nat>, b: seq<nat>, n: nat)
    ensures Times(a + b, n) == Times(a, n) + Times(b, n)
  {
    if a == [] {
      assert a + b == b;
    } else {
      TimesSum(a[1..], b, n);
      assert (a + b)[1..] == a[1..] + b;
    }
  }

  lemma CountPush(ts: seq<Tree>, t: Tree, n: nat)
    ensures CountAll(ts + [t], n) == CountAll(ts, n) + Count(t, n)
  {
    CountSum(ts, [t], n);
    assert [t][1..] == [];
  }

  lemma CountNew(id: nat, args: seq<Tree>, body: seq<Tree>, n: nat)
    ensures Count(Tree(id, args, body), n) == Within(id, id + 1, n) + CountAll(args, n) + CountAll(body, n)
  {
  }

  ghost function Uses(s: State, n: nat): nat {
    CountAll(s.stack, n) + CountAll(s.list, n) + Times(s.begins, n)
  }

  // The ids from one state to the next are used once more than before.
  ghost predicate Numbers(s: State, t: State, n: nat) {
    s.next <= t.next && Uses(t, n) == Uses(s, n) + Within(s.next, t.next, n)
  }

  ghost predicate NumbersBody(next: nat, f: Folded, n: nat) {
    next <= f.next && CountAll(f.kids, n) + Times(f.begins, n) == Within(next, f.next, n)
  }

  lemma PlacedNumbers(s: State, id: nat, next: nat, a: Arity, body: seq<Tree>, begins: seq<nat>, n: nat)
    requires a.nargs <= |s.stack|
    ensures Uses(Placed(s, id, next, a, body, begins), n)
            == Within(id, id + 1, n) + CountAll(body, n) + CountAll(s.stack, n) + CountAll(s.list, n) + Times(begins, n)
    ensures Placed(s, id, next, a, body, begins).next == next
  {
    var rest, args := s.stack[..|s.stack| - a.nargs], Args(s.stack, a.nargs);
    var t := Tree(id, args, body);
    assert s.stack == rest + args;
    CountSum(rest, args, n);
    CountNew(id, args, body, n);
    CountPush(rest, t, n);
    CountPush(s.list, t, n);
  }

  lemma {:induction false} FoldExprNumbers(e: Expr, s: State, n: nat)
    requires FoldExpr(e, s).Some?
    ensures Numbers(s, FoldExpr(e, s).value, n)
    decreases e, 2
  {
    hide Placed, Count, Args, Used;
    match e
    case Op(kind, a) =>
      PlacedNumbers(s, s.next, s.next + 1, Used(kind, a), [], s.begins, n);
    case Block(a, nresults, body) =>
      FoldBodyNumbers(body, nresults, s.next + 1, n);
      var f := FoldBody(body, nresults, s.next + 1).value;
      HoldNumbers(s, f, f.next + 1, a, [f.next], n);
    case Loop(a, nresults, body) =>
      FoldBodyNumbers(body, nresults, s.next + 1, n);
      var f := FoldBody(body, nresults, s.next + 1).value;
      HoldNumbers(s, f, f.next, a, [], n);
      assert s.begins + f.begins + [] == s.begins + f.begins;
    case If(a, nresults, thn, els) =>
      FoldArmsNumbers(e, s.next + 1, n);
      var f := FoldArms(e, s.next + 1).value;
      HoldNumbers(s, f, f.next, Arity(1, a.nreturns, false), [], n);
      assert s.begins + f.begins + [] == s.begins + f.begins;
  }

  lemma HoldNumbers(s: State, f: Folded, next: nat, a: Arity, begin: seq<nat>, n: nat)
    requires a.nargs <= |s.stack| && NumbersBody(s.next + 1, f, n)
    requires if begin == [] then next == f.next else begin == [f.next] && next == f.next + 1
    ensures Numbers(s, Placed(s, s.next, next, a, f.kids, s.begins + f.begins + begin), n)
  {
    PlacedNumbers(s, s.next, next, a, f.kids, s.begins + f.begins + begin, n);
    TimesSum(s.begins, f.begins, n);
    TimesSum(s.begins + f.begins, begin, n);
  }

  lemma {:induction false} FoldArmsNumbers(e: Expr, next: nat, n: nat)
    requires e.If? && FoldArms(e, next).Some?
    ensures NumbersBody(next, FoldArms(e, next).value, n)
    decreases e, 0
  {
    FoldBodyNumbers(e.thn, e.nresults, next + 2, n);
    var f := FoldBody(e.thn, e.nresults, next + 2).value;
    var first := Tree(next, [], f.kids);
    CountNew(next, [], f.kids, n);
    CountPush([], first, n);
    assert [] + [first] == [first];
    TimesSum([next + 1], f.begins, n);
    if e.els.Cons? {
      FoldBodyNumbers(e.els, e.nresults, f.next + 1, n);
      var g := FoldBody(e.els, e.nresults, f.next + 1).value;
      CountNew(f.next, [], g.kids, n);
      CountPush([first], Tree(f.next, [], g.kids), n);
      assert [first] + [Tree(f.next, [], g.kids)] == [first, Tree(f.next, [], g.kids)];
      TimesSum([next + 1] + f.begins, g.begins, n);
    }
  }

  lemma {:induction false} FoldAllNumbers(es: Exprs, s: State, n: nat)
    requires FoldAll(es, s).Some?
    ensures Numbers(s, FoldAll(es, s).value, n)
    decreases es, 0
  {
    if es.Cons? {
      FoldExprNumbers(es.head, s, n);
      FoldAllNumbers(es.tail, FoldExpr(es.head, s).value, n);
    }
  }

  lemma {:induction false} FoldBodyNumbers(es: Exprs, nresults: nat, next: nat, n: nat)
    requires FoldBody(es, nresults, next).Some?
    ensures NumbersBody(next, FoldBody(es, nresults, next).value, n)
    decreases es, 1
  {
    FoldAllNumbers(es, State(next, [], [], []), n);
    var s := FoldAll(es, State(next, [], [], [])).value;
    CountReverse(s.stack, n);
    CountSum(s.list, Reverse(s.stack), n);
    CountSum(s.list, s.stack, n);
  }

  // Every id from `next` on is given to exactly one node of the tree, or to
  // one begin marker.
  lemma FoldFunctionNumbers(es: Exprs, nresults: nat, next: nat, n: nat)
    requires FoldFunction(es, nresults, next).Some?
    ensures NumbersBody(next, FoldFunction(es, nresults, next).value, n)
  {
    FoldAllNumbers(es, State(next + 1, [], [], []), n);
    var s := FoldAll(es, State(next + 1, [], [], [])).value;
    var held := if nresults == 1 && !(EndsUnreachable(es) && s.stack == []) then 1 else 0;
    var top := |s.stack| - held;
    var rest, ret := s.stack[..top], Tree(next, s.stack[top..], []);
    assert s.stack == rest + s.stack[top..];
    CountSum(rest, s.stack[top..], n);
    CountReverse(rest, n);
    CountSum(s.list, Reverse(rest), n);
    CountNew(next, s.stack[top..], [], n);
    CountPush(s.list + Reverse(rest), ret, n);
  }

  // ----- operands -----

  // Operands have rising ids, below those of what the node holds as a block.
  ghost predicate Proper(t: Tree) {
    && Rising(t.args) && (forall i, j :: 0 <= i < |t.args| && 0 <= j < |t.body| ==> t.args[i].id < t.body[j].id)
    && AllProper(t.args) && AllProper(t.body)
  }

  ghost predicate AllProper(ts: seq<Tree>) {
    forall i :: 0 <= i < |ts| ==> Proper(ts[i])
  }

  ghost predicate Rising(ts: seq<Tree>) {
    forall i, j :: 0 <= i < j < |ts| ==> ts[i].id < ts[j].id
  }

  ghost predicate Below(ts: seq<Tree>, n: nat) {
    forall i :: 0 <= i < |ts| ==> ts[i].id < n
  }

  ghost predicate ProperState(s: State) {
    Rising(s.stack) && Below(s.stack, s.next) && AllProper(s.stack) && AllProper(s.list)
  }

  lemma {:induction false} RootsCount(ts: seq<Tree>, i: nat)
    requires i < |ts|
    ensures CountAll(ts, ts[i].id) > 0
  {
    if i > 0 {
      RootsCount(ts[1..], i - 1);
    }
  }

  lemma PlacedProper(s: State, id: nat, next: nat, a: Arity, body: seq<Tree>, begins: seq<nat>)
    requires ProperState(s) && a.nargs <= |s.stack| && id == s.next < next && AllProper(body) && Above(body, id)
    ensures ProperState(Placed(s, id, next, a, body, begins))
  {
    var k := |s.stack| - a.nargs;
    var t := Tree(id, Args(s.stack, a.nargs), body);
    SliceProper(s.stack, k, id);
    NewProper(id, Args(s.stack, a.nargs), body);
    if a.nreturns == 0 || a.unreachable {
      AllProperPush(s.list, t);
      Lower(s.stack[..k], id, next);
      assert ProperState(State(next, s.stack[..k], s.list + [t], begins));
    } else {
      PushProper(s.stack[..k], t);
      Lower(s.stack[..k] + [t], id + 1, next);
      assert ProperState(State(next, s.stack[..k] + [t], s.list, begins));
    }
  }

  ghost predicate Above(ts: seq<Tree>, n: nat) {
    forall j :: 0 <= j < |ts| ==> n < ts[j].id
  }

  lemma Lower(ts: seq<Tree>, n: nat, m: nat)
    requires Below(ts, n) && n <= m
    ensures Below(ts, m)
  {
  }

  lemma NewProper(id: nat, args: seq<Tree>, body: seq<Tree>)
    requires Rising(args) && Below(args, id) && AllProper(args) && AllProper(body) && Above(body, id)
    ensures Proper(Tree(id, args, body))
  {
  }

  lemma SliceProper(ts: seq<Tree>, k: nat, n: nat)
    requires k <= |ts| && Rising(ts) && AllProper(ts) && Below(ts, n)
    ensures Rising(ts[..k]) && AllProper(ts[..k]) && Below(ts[..k], n)
    ensures Rising(ts[k..]) && AllProper(ts[k..]) && Below(ts[k..], n)
  {
  }

  lemma PushProper(ts: seq<Tree>, t: Tree)
    requires Rising(ts) && Below(ts, t.id) && AllProper(ts) && Proper(t)
    ensures Rising(ts + [t]) && AllProper(ts + [t]) && Below(ts + [t], t.id + 1)
  {
  }

  lemma AllProperPush(ts: seq<Tree>, t: Tree)
    requires AllProper(ts) && Proper(t)
    ensures AllProper(ts + [t])
  {
  }

  // What a block holds comes after it.
  lemma BodyAfter(next: nat, f: Folded)
    requires forall n :: NumbersBody(next, f, n)
    ensures forall n: nat :: n < next ==> Above(f.kids, n)
  {
    forall j | 0 <= j < |f.kids|
      ensures next <= f.kids[j].id
    {
      RootsCount(f.kids, j);
      assert NumbersBody(next, f, f.kids[j].id);
    }
  }

  lemma BodyNumbers(es: Exprs, nresults: nat, next: nat)
    requires FoldBody(es, nresults, next).Some?
    ensures forall n :: NumbersBody(next, FoldBody(es, nresults, next).value, n)
  {
    forall n: nat
      ensures NumbersBody(next, FoldBody(es, nresults, next).value, n)
    {
      FoldBodyNumbers(es, nresults, next, n);
    }
  }

  lemma ArmsNumbers(e: Expr, next: nat)
    requires e.If? && FoldArms(e, next).Some?
    ensures forall n :: NumbersBody(next, FoldArms(e, next).value, n)
  {
    forall n: nat
      ensures NumbersBody(next, FoldArms(e, next).value, n)
    {
      FoldArmsNumbers(e, next, n);
    }
  }

  lemma {:induction false} FoldExprProper(e: Expr, s: State)
    requires FoldExpr(e, s).Some? && ProperState(s)
    ensures ProperState(FoldExpr(e, s).value)
    decreases e, 1
  {
    match e
    case Op(kind, a) => PlacedProper(s, s.next, s.next + 1, Used(kind, a), [], s.begins);
    case Block(a, nresults, body) =>
      var f := FoldBody(body, nresults, s.next + 1).value;
      FoldBodyProper(body, nresults, s.next + 1);
      BodyNumbers(body, nresults, s.next + 1);
      BodyAfter(s.next + 1, f);
      assert NumbersBody(s.next + 1, f, 0);
      PlacedProper(s, s.next, f.next + 1, a, f.kids, s.begins + f.begins + [f.next]);
    case Loop(a, nresults, body) =>
      var f := FoldBody(body, nresults, s.next + 1).value;
      FoldBodyProper(body, nresults, s.next + 1);
      BodyNumbers(body, nresults, s.next + 1);
      BodyAfter(s.next + 1, f);
      assert NumbersBody(s.next + 1, f, 0);
      PlacedProper(s, s.next, f.next, a, f.kids, s.begins + f.begins);
    case If(a, nresults, thn, els) =>
      var f := FoldArms(e, s.next + 1).value;
      FoldArmsProper(e, s.next + 1);
      ArmsNumbers(e, s.next + 1);
      BodyAfter(s.next + 1, f);
      assert NumbersBody(s.next + 1, f, 0);
      PlacedProper(s, s.next, f.next, Arity(1, a.nreturns, false), f.kids, s.begins + f.begins);
  }

  lemma {:induction false} FoldArmsProper(e: Expr, next: nat)
    requires e.If? && FoldArms(e, next).Some?
    ensures AllProper(FoldArms(e, next).value.kids)
    decreases e, 0
  {
    FoldBodyProper(e.thn, e.nresults, next + 2);
    var f := FoldBody(e.thn, e.nresults, next + 2).value;
    if e.els.Cons? {
      FoldBodyProper(e.els, e.nresults, f.next + 1);
    }
  }

  lemma {:induction false} FoldAllProper(es: Exprs, s: State)
    requires FoldAll(es, s).Some? && ProperState(s)
    ensures ProperState(FoldAll(es, s).value)
    decreases es, 0
  {
    if es.Cons? {
      FoldExprProper(es.head, s);
      FoldAllProper(es.tail, FoldExpr(es.head, s).value);
    }
  }

  lemma {:induction false} FoldBodyProper(es: Exprs, nresults: nat, next: nat)
    requires FoldBody(es, nresults, next).Some?
    ensures AllProper(FoldBody(es, nresults, next).value.kids)
    decreases es, 1
  {
    FoldAllProper(es, State(next, [], [], []));
    ReverseProper(FoldAll(es, State(next, [], [], [])).value.stack);
  }

  lemma {:induction false} ReverseProper(ts: seq<Tree>)
    requires AllProper(ts)
    ensures AllProper(Reverse(ts))
  {
    if ts != [] {
      ReverseProper(ts[..|ts| - 1]);
    }
  }

  lemma FoldFunctionProper(es: Exprs, nresults: nat, next: nat)
    requires FoldFunction(es, nresults, next).Some?
    ensures AllProper(FoldFunction(es, nresults, next).value.kids)
  {
    FoldAllProper(es, State(next + 1, [], [], []));
    var s := FoldAll(es, State(next + 1, [], [], [])).value;
    var held := if nresults == 1 && !(EndsUnreachable(es) && s.stack == []) then 1 else 0;
    var top := |s.stack| - held;
    var ret := Tree(next, s.stack[top..], []);
    SliceProper(s.stack, top, s.next);
    ReverseProper(s.stack[..top]);
    assert Proper(ret);
  }
}
