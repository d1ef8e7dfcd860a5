// The fuel of Evaluation.Eval only decides whether a run is long enough: a
// run that ends has the same end with any larger amount.
module FuelLaws {
  import opened Wrappers
  import opened Scopes
  import opened Evaluation

  lemma {:induction false} MoreFuelIsSame(c: Tables, n: Node, s: State, fuel: nat, more: nat)
    requires s.Valid() && fuel <= more && !Eval(c, n, s, fuel).exit.OutOfFuel?
    ensures Eval(c, n, s, more) == Eval(c, n, s, fuel)
    decreases fuel, n, 3
  {
    match n
    case Literal(v) =>
    case RValue(name) =>
    case Continue =>
    case Break =>
    case Function(name, params, body) =>
    case Return(None) =>
    case Return(Some(e)) => MoreFuelIsSame(c, e, s, fuel, more);
    case Not(left) => MoreFuelIsSame(c, left, s, fuel, more);
    case Sequence(nodes) => SameForAll(c, nodes, s, fuel, more);
    case ListExpr(nodes) => SameForItems(c, nodes, s, [], fuel, more);
    case While(cond, body) => SameForRounds(c, n, s, fuel, more, fuel, more);
    case Assign(name, e) => MoreFuelIsSame(c, e, s, fuel, more);
    case Block(body) => MoreFuelIsSame(c, body, s.PushBoth(), fuel, more);
    case _ => SameForCompound(c, n, s, fuel, more);
  }

  lemma {:induction false} SameForCompound(c: Tables, n: Node, s: State, fuel: nat, more: nat)
    requires s.Valid() && fuel <= more && !Eval(c, n, s, fuel).exit.OutOfFuel?
    requires n.If? || n.IfElse? || n.Foreach? || n.Filter? || n.Call? || n.And? || n.Or? || n.Binary?
    ensures Eval(c, n, s, more) == Eval(c, n, s, fuel)
    decreases fuel, n, 2
  {
    match n
    case If(cond, body) => SameForBranch(c, n, s, fuel, more);
    case IfElse(cond, body, otherwise) => SameForBranch(c, n, s, fuel, more);
    case And(left, right) => SameForOperands(c, n, s, fuel, more);
    case Or(left, right) => SameForOperands(c, n, s, fuel, more);
    case Binary(op, left, right) => SameForOperands(c, n, s, fuel, more);
    case _ => SameForFramed(c, n, s, fuel, more);
  }

  lemma {:induction false} SameForBranch(c: Tables, n: Node, s: State, fuel: nat, more: nat)
    requires s.Valid() && fuel <= more && !Eval(c, n, s, fuel).exit.OutOfFuel? && (n.If? || n.IfElse?)
    ensures Eval(c, n, s, more) == Eval(c, n, s, fuel)
    decreases fuel, n, 1
  {
    MoreFuelIsSame(c, n.cond, s, fuel, more);
    var r := EvalBool(c, n.cond, s, fuel);
    if r.exit.Normal? && r.s.result.b {
      MoreFuelIsSame(c, n.body, r.s, fuel, more);
    } else if r.exit.Normal? && n.IfElse? {
      MoreFuelIsSame(c, n.otherwise, r.s, fuel, more);
    }
  }

  lemma {:induction false} SameForOperands(c: Tables, n: Node, s: State, fuel: nat, more: nat)
    requires s.Valid() && fuel <= more && !Eval(c, n, s, fuel).exit.OutOfFuel? && (n.And? || n.Or? || n.Binary?)
    ensures Eval(c, n, s, more) == Eval(c, n, s, fuel)
    decreases fuel, n, 1
  {
    MoreFuelIsSame(c, n.left, s, fuel, more);
    var r := Eval(c, n.left, s, fuel);
    if r.exit.Normal? && (n.Binary? || (r.s.result.Bool? && r.s.result.b == n.And?)) {
      MoreFuelIsSame(c, n.right, r.s, fuel, more);
    }
  }

  lemma {:induction false} SameForFramed(c: Tables, n: Node, s: State, fuel: nat, more: nat)
    requires s.Valid() && fuel <= more && !Eval(c, n, s, fuel).exit.OutOfFuel? && (n.Foreach? || n.Filter? || n.Call?)
    ensures Eval(c, n, s, more) == Eval(c, n, s, fuel)
    decreases fuel, n, 1
  {
    if n.Call? && n.name !in c.builtins && Find(s.funcs, n.name).None? {
      return;
    }
    var e := if n.Call? then n.args else n.expr;
    MoreFuelIsSame(c, e, s, fuel, more);
    var r := EvalList(c, e, s, fuel);
    if r.exit.Normal? {
      var t := r.s.Push();
      if n.Call? {
        SameForBody(c, n, if n.name in c.builtins then None else Find(s.funcs, n.name), r.s.result.items, t, fuel, more);
      } else if n.Foreach? {
        SameForEach(c, n, r.s.result.items, t.(frames := Bind(t.frames, n.name, NilValue)), fuel, more);
      } else {
        SameForKept(c, n, r.s.result.items, t.(frames := Bind(t.frames, n.name, NilValue)), [], fuel, more);
      }
    }
  }

  lemma {:induction false} SameForAll(c: Tables, nodes: Nodes, s: State, fuel: nat, more: nat)
    requires s.Valid() && fuel <= more && !EvalAll(c, nodes, s, fuel).exit.OutOfFuel?
    ensures EvalAll(c, nodes, s, more) == EvalAll(c, nodes, s, fuel)
    decreases fuel, nodes, 0
  {
    if nodes.More? {
      MoreFuelIsSame(c, nodes.head, s, fuel, more);
      var r := Eval(c, nodes.head, s, fuel);
      if r.exit.Normal? {
        SameForAll(c, nodes.tail, r.s, fuel, more);
      }
    }
  }

  lemma {:induction false} SameForItems(c: Tables, nodes: Nodes, s: State, items: seq<Value>, fuel: nat, more: nat)
    requires s.Valid() && fuel <= more && !Collect(c, nodes, s, items, fuel).exit.OutOfFuel?
    ensures Collect(c, nodes, s, items, more) == Collect(c, nodes, s, items, fuel)
    decreases fuel, nodes, 0
  {
    if nodes.More? {
      MoreFuelIsSame(c, nodes.head, s, fuel, more);
      var r := Eval(c, nodes.head, s, fuel);
      if r.exit.Normal? {
        SameForItems(c, nodes.tail, r.s, items + [r.s.result], fuel, more);
      }
    }
  }

  lemma {:induction false} SameForEach(c: Tables, n: Node, items: seq<Value>, s: State, fuel: nat, more: nat)
    requires s.Valid() && n.Foreach? && fuel <= more && !Each(c, n, items, s, fuel).exit.OutOfFuel?
    ensures Each(c, n, items, s, more) == Each(c, n, items, s, fuel)
    decreases fuel, n, 0, |items|
  {
    if items != [] {
      var top := s.frames[|s.frames| - 1];
      var t := s.(frames := if n.name in top then Bind(s.frames, n.name, items[0]) else s.frames);
      MoreFuelIsSame(c, n.body, t, fuel, more);
      var r := Eval(c, n.body, t, fuel);
      if r.exit.Normal? {
        SameForEach(c, n, items[1..], r.s, fuel, more);
      } else if r.exit.Continues? {
        SameForEach(c, n, items[1..], r.s.CutTo(|s.frames|), fuel, more);
      }
    }
  }

  lemma {:induction false} SameForRounds(c: Tables, n: Node, s: State, fuel: nat, more: nat, left: nat, moreLeft: nat)
    requires s.Valid() && n.While? && fuel <= more && left <= moreLeft && !Rounds(c, n, s, fuel, left).exit.OutOfFuel?
    ensures Rounds(c, n, s, more, moreLeft) == Rounds(c, n, s, fuel, left)
    decreases fuel, n, 0, left
  {
    MoreFuelIsSame(c, n.cond, s, fuel, more);
    var q := EvalBool(c, n.cond, s, fuel);
    if q.exit.Normal? && q.s.result.b {
      MoreFuelIsSame(c, n.body, q.s, fuel, more);
      var r := Eval(c, n.body, q.s, fuel);
      if r.exit.Normal? {
        SameForRounds(c, n, r.s, fuel, more, left - 1, moreLeft - 1);
      } else if r.exit.Continues? {
        SameForRounds(c, n, r.s.CutTo(|s.frames|), fuel, more, left - 1, moreLeft - 1);
      }
    }
  }

  lemma {:induction false} SameForKept(c: Tables, n: Node, items: seq<Value>, s: State, kept: seq<Value>, fuel: nat, more: nat)
    requires s.Valid() && n.Filter? && fuel <= more && !Kept(c, n, items, s, kept, fuel).exit.OutOfFuel?
    ensures Kept(c, n, items, s, kept, more) == Kept(c, n, items, s, kept, fuel)
    decreases fuel, n, 0, |items|
  {
    if items != [] {
      var t := s.(frames := Rebind(s.frames, n.name, items[0]));
      MoreFuelIsSame(c, n.pred, t, fuel, more);
      var r := EvalBool(c, n.pred, t, fuel);
      if r.exit.Normal? {
        SameForKept(c, n, items[1..], r.s, if r.s.result.b then kept + [items[0]] else kept, fuel, more);
      }
    }
  }

  lemma {:induction false} SameForBody(c: Tables, n: Node, f: Option<Func>, args: seq<Value>, s: State, fuel: nat, more: nat)
    requires s.Valid() && n.Call? && (f.None? ==> n.name in c.builtins)
    requires fuel <= more && !Apply(c, n, f, args, s, fuel).exit.OutOfFuel?
    ensures Apply(c, n, f, args, s, more) == Apply(c, n, f, args, s, fuel)
    decreases fuel, n, 0
  {
    if f.Some? && |f.value.params| <= |args| {
      MoreFuelIsSame(c, f.value.body, s.(frames := BindAll(s.frames, f.value.params, args)), fuel - 1, more - 1);
    }
  }
}
