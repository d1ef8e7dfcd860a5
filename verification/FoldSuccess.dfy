// When folding goes through: exactly when the heights of the operand stack
// allow it. Validated code without dead code is folded, but for functions
// whose last instruction is a br_table that leaves no operand.
module FoldSuccess {
  import opened Wrappers
  import opened Folding

  // ----- heights -----

  function Left(h: nat, a: Arity): nat
    requires a.nargs <= h
  {
    h - a.nargs + if a.nreturns == 0 || a.unreachable then 0 else 1
  }

  // What an instruction does to the stack: the condition is the one operand
  // of an if.
  function Effect(e: Expr): Arity {
    match e
    case Op(kind, a) => Used(kind, a)
    case If(a, _, _, _) => Arity(1, a.nreturns, false)
    case _ => e.arity
  }

  // The heights alone; None where an operand is missing.
  function After(e: Expr, h: nat): Option<nat>
    decreases e, 1
  {
    if e.arity.nargs > h || e.arity.nreturns > 1 || Effect(e).nargs > h || !BodiesFold(e) then None else Some(Left(h, Effect(e)))
  }

  predicate BodiesFold(e: Expr)
    decreases e, 0
  {
    match e
    case Op(_, _) => true
    case Block(_, _, body) => Heights(body, 0).Some?
    case Loop(_, _, body) => Heights(body, 0).Some?
    case If(_, _, thn, els) => Heights(thn, 0).Some? && Heights(els, 0).Some?
  }

  function Heights(es: Exprs, h: nat): Option<nat>
    decreases es, 0
  {
    match es
    case Nil => Some(h)
    case Cons(e, rest) => if After(e, h).None? then None else Heights(rest, After(e, h).value)
  }

  lemma {:induction false} ExprFolds(e: Expr, s: State)
    ensures FoldExpr(e, s).Some? <==> After(e, |s.stack|).Some?
    ensures FoldExpr(e, s).Some? ==> |FoldExpr(e, s).value.stack| == After(e, |s.stack|).value
    decreases e, 1
  {
    match e
    case Op(_, _) =>
    case Block(_, k, body) => BodyFolds(body, k, s.next + 1);
    case Loop(_, k, body) => BodyFolds(body, k, s.next + 1);
    case If(_, _, _, _) => ArmsFold(e, s.next + 1);
  }

  lemma {:induction false} ArmsFold(e: Expr, next: nat)
    requires e.If?
    ensures FoldArms(e, next).Some? <==> Heights(e.thn, 0).Some? && Heights(e.els, 0).Some?
    decreases e, 0
  {
    BodyFolds(e.thn, e.nresults, next + 2);
    match FoldBody(e.thn, e.nresults, next + 2)
    case None =>
    case Some(f) => BodyFolds(e.els, e.nresults, f.next + 1);
  }

  lemma {:induction false} BodyFolds(es: Exprs, nresults: nat, next: nat)
    ensures FoldBody(es, nresults, next).Some? <==> Heights(es, 0).Some?
    decreases es, 1
  {
    ListFolds(es, State(next, [], [], []));
  }

  // Folding a list fails exactly where an operand is missing.
  lemma {:induction false} ListFolds(es: Exprs, s: State)
    ensures FoldAll(es, s).Some? <==> Heights(es, |s.stack|).Some?
    ensures FoldAll(es, s).Some? ==> |FoldAll(es, s).value.stack| == Heights(es, |s.stack|).value
    decreases es, 0
  {
    match es
    case Nil =>
    case Cons(e, rest) =>
      ExprFolds(e, s);
      match FoldExpr(e, s)
      case None =>
      case Some(t) => ListFolds(rest, t);
  }

  lemma FunctionFolds(es: Exprs, nresults: nat, next: nat)
    ensures FoldFunction(es, nresults, next).Some? <==>
              Heights(es, 0).Some? && (nresults == 1 && !EndsUnreachable(es) ==> Heights(es, 0).value > 0)
  {
    ListFolds(es, State(next + 1, [], [], []));
  }

  // ----- validated code -----

  // Control does not go past it.
  predicate Stops(e: Expr) {
    e.Op? && (e.kind.Return? || e.kind.Unreachable? || e.kind.Br? || e.arity.unreachable)
  }

  // The operands that validation asks for are there. A return counts as one
  // value, a conditional branch gives back what it may bring to its label.
  predicate ValidIn(e: Expr, h: nat)
    decreases e
  {
    && e.arity.nargs <= h && e.arity.nreturns <= 1
    && match e
       case Op(kind, a) => (kind.Return? ==> a.nreturns == 1) && (kind.BrIf? ==> a.nargs == a.nreturns + 1 && !a.unreachable)
       case Block(a, k, body) => a == Arity(0, k, false) && Valid(body, 0, k)
       case Loop(a, k, body) => a == Arity(0, k, false) && Valid(body, 0, k)
       case If(a, k, thn, els) => h >= 1 && a.nreturns == k && Valid(thn, 0, k) && Valid(els, 0, k)
  }

  // The height behind an instruction, by WebAssembly validation: a conditional
  // branch takes its condition, an if its condition and leaves its results.
  function Behind(e: Expr, h: nat): nat
    requires e.arity.nargs <= h && (e.If? || (e.Op? && e.kind.BrIf?) ==> h >= 1)
  {
    match e
    case Op(BrIf, _) => h - 1
    case Op(_, a) => h - a.nargs + a.nreturns
    case Block(_, k, _) => h + k
    case Loop(_, k, _) => h + k
    case If(_, k, _, _) => h - 1 + k
  }

  // Nothing comes after what control does not go past.
  predicate Valid(es: Exprs, h: nat, need: nat)
    decreases es
  {
    match es
    case Nil => h == need
    case Cons(e, rest) => ValidIn(e, h) && if Stops(e) then rest.Nil? else Valid(rest, Behind(e, h), need)
  }

  predicate EndsStopped(es: Exprs) {
    es.Cons? && if es.tail.Nil? then Stops(es.head) else EndsStopped(es.tail)
  }

  function Last(es: Exprs): Expr
    requires es.Cons?
  {
    if es.tail.Nil? then es.head else Last(es.tail)
  }

  lemma {:induction false} ValidGoesOn(e: Expr, h: nat)
    requires ValidIn(e, h)
    ensures After(e, h).Some? && (!Stops(e) ==> After(e, h).value == Behind(e, h))
    decreases e, 0
  {
    match e
    case Op(_, _) =>
    case Block(_, k, body) => ValidFits(body, 0, k);
    case Loop(_, k, body) => ValidFits(body, 0, k);
    case If(_, k, thn, els) =>
      ValidFits(thn, 0, k);
      ValidFits(els, 0, k);
  }

  // No operand is missing in validated code.
  lemma {:induction false} ValidFits(es: Exprs, h: nat, need: nat)
    requires Valid(es, h, need)
    ensures Heights(es, h).Some? && (!EndsStopped(es) ==> Heights(es, h).value == need)
    decreases es, 1
  {
    if es.Cons? {
      ValidGoesOn(es.head, h);
      if !Stops(es.head) {
        ValidFits(es.tail, Behind(es.head, h), need);
      }
    }
  }

  // The height before the last instruction.
  lemma {:induction false} BeforeLast(es: Exprs, h: nat, need: nat) returns (before: nat)
    requires Valid(es, h, need) && es.Cons?
    ensures ValidIn(Last(es), before) && Heights(es, h) == After(Last(es), before)
    decreases es
  {
    ValidGoesOn(es.head, h);
    if es.tail.Nil? {
      before := h;
    } else {
      before := BeforeLast(es.tail, Behind(es.head, h), need);
    }
  }

  // A branch at the end of the function brings its results.
  predicate ValidFunction(es: Exprs, nresults: nat) {
    nresults <= 1 && Valid(es, 0, nresults) && (es.Cons? && Last(es).Op? && Last(es).kind.Br? ==> Last(es).arity.nargs >= nresults)
  }

  // The last instruction is a br_table, and it leaves nothing.
  predicate TableTakesAll(es: Exprs) {
    es.Cons? && Last(es).Op? && Last(es).kind.Other? && Last(es).arity.unreachable && Heights(es, 0) == Some(0)
  }

  // A validated function is folded, unless it has a result and ends in a
  // br_table that leaves no operand for the return node to take.
  lemma ValidFolds(es: Exprs, nresults: nat, next: nat)
    requires ValidFunction(es, nresults)
    ensures FoldFunction(es, nresults, next).Some? <==> !(nresults == 1 && TableTakesAll(es))
  {
    FunctionFolds(es, nresults, next);
    ValidFits(es, 0, nresults);
    if es.Cons? {
      var before := BeforeLast(es, 0, nresults);
      LastStops(es);
      LastUnreachable(es);
    }
  }

  lemma {:induction false} LastStops(es: Exprs)
    requires es.Cons?
    ensures EndsStopped(es) <==> Stops(Last(es))
  {
    if es.tail.Cons? {
      LastStops(es.tail);
    }
  }

  lemma {:induction false} LastUnreachable(es: Exprs)
    requires es.Cons?
    ensures EndsUnreachable(es) <==> Last(es).Op? && Last(es).kind.Unreachable?
  {
    if es.tail.Cons? {
      LastUnreachable(es.tail);
    }
  }

  // i32.const 7  i32.const 0  br_table 0, in a function with one result.
  const VALUE := Op(Kind.Other, Arity(0, 1, false))
  const TABLE := Op(Kind.Other, Arity(2, 1, true))
  const TABLE_LAST := Cons(VALUE, Cons(VALUE, Cons(TABLE, Nil)))

  lemma TableLastFails(next: nat)
    ensures ValidFunction(TABLE_LAST, 1) && FoldFunction(TABLE_LAST, 1, next).None?
  {
    assert Valid(Cons(TABLE, Nil), 2, 1) && Valid(Cons(VALUE, Cons(TABLE, Nil)), 1, 1);
    assert Heights(Cons(TABLE, Nil), 2) == Some(0) && Heights(Cons(VALUE, Cons(TABLE, Nil)), 1) == Some(0);
    assert Last(Cons(VALUE, Cons(TABLE, Nil))) == TABLE;
    ValidFolds(TABLE_LAST, 1, next);
  }

  // Code behind a branch can fail: i32.const 7  br 0  i32.add  drop, where
  // validation lets i32.add take operands that are not there.
  const AFTER_BRANCH := Cons(Op(Kind.Br, Arity(0, 1, true)), Cons(Op(Kind.Other, Arity(2, 1, false)), Cons(Op(Kind.Other, Arity(1, 0, false)), Nil)))

  lemma DeadCodeFails(next: nat)
    ensures FoldFunction(AFTER_BRANCH, 0, next).None?
  {
    FunctionFolds(AFTER_BRANCH, 0, next);
    assert Heights(AFTER_BRANCH.tail, 0).None?;
  }
}
