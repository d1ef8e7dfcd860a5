// The evaluator of src/interpreter/evaluator.h, which changes its symbol
// tables as it goes and unwinds them by level.
module Evaluator {
  import opened Wrappers
  import opened Scopes
  import opened Evaluation
  import opened ScopeLaws

  class Evaluator {
    const tables: Tables
    const symTab: SymbolTable<Value>
    const funcTab: SymbolTable<Func>
    var result: Value
    ghost var early: nat // how many blocks have been left early

    ghost predicate Valid()
      reads this, symTab, funcTab
    {
      symTab.Valid() && funcTab.Valid() && symTab as object != funcTab as object
    }

    ghost function Now(): State
      reads this, symTab, funcTab
    {
      State(symTab.contexts, funcTab.contexts, result, early)
    }

    constructor (tables: Tables, config: Value)
      ensures Valid() && fresh(symTab) && fresh(funcTab) && this.tables == tables
      ensures symTab.contexts == [map["config" := config]] && funcTab.contexts == [map[]]
    {
      var symbols := new SymbolTable<Value>();
      var funcs := new SymbolTable<Func>();
      this.tables, symTab, funcTab, result, early := tables, symbols, funcs, NoneValue, 0;
      new;
      var isNew := symTab.Insert("config", config);
    }

    // Every visit does what Evaluation.Eval says.
    method Visit(n: Node, fuel: nat) returns (exit: Exit)
      requires Valid()
      modifies this`result, this`early, symTab, funcTab
      ensures Valid() && Run(exit, Now()) == Eval(tables, n, old(Now()), fuel)
      decreases fuel, n, 4
    {
      match n
      case Literal(v) => result := v; exit := Normal;
      case RValue(name) => exit := VisitRValue(n, fuel);
      case Assign(_, _) => exit := VisitAssign(n, fuel);
      case Sequence(_) => exit := VisitSequence(n, fuel);
      case Block(_) => exit := VisitBlock(n, fuel);
      case Continue => exit := Continues;
      case Break => exit := Breaks;
      case If(_, _) => exit := VisitIf(n, fuel);
      case IfElse(_, _, _) => exit := VisitIf(n, fuel);
      case Foreach(_, _, _) => exit := VisitForeach(n, fuel);
      case While(_, _) => exit := VisitWhile(n, fuel);
      case Function(_, _, _) => exit := VisitFunction(n, fuel);
      case Return(_) => exit := VisitReturn(n, fuel);
      case Call(_, _) => exit := VisitCall(n, fuel);
      case Filter(_, _, _) => exit := VisitFilter(n, fuel);
      case ListExpr(_) => exit := VisitList(n, fuel);
      case And(_, _) => exit := VisitLogical(n, fuel);
      case Or(_, _) => exit := VisitLogical(n, fuel);
      case Not(_) => exit := VisitNot(n, fuel);
      case Binary(_, _, _) => exit := VisitBinary(n, fuel);
    }

    method VisitBool(n: Node, fuel: nat) returns (exit: Exit)
      requires Valid()
      modifies this`result, this`early, symTab, funcTab
      ensures Valid() && Run(exit, Now()) == EvalBool(tables, n, old(Now()), fuel)
      decreases fuel, n, 5
    {
      exit := Visit(n, fuel);
      if exit.Normal? && !result.Bool? {
        return Fails;
      }
    }

    method VisitListValue(n: Node, fuel: nat) returns (exit: Exit)
      requires Valid()
      modifies this`result, this`early, symTab, funcTab
      ensures Valid() && Run(exit, Now()) == EvalList(tables, n, old(Now()), fuel)
      decreases fuel, n, 5
    {
      exit := Visit(n, fuel);
      if exit.Normal? && !result.List? {
        return Fails;
      }
    }

    method VisitRValue(n: Node, fuel: nat) returns (exit: Exit)
      requires Valid() && n.RValue?
      modifies this`result
      ensures Valid() && Run(exit, Now()) == Eval(tables, n, old(Now()), fuel)
    {
      var v := symTab.Lookup(n.name);
      if v.None? {
        return Fails;
      }
      result := v.value;
      return Normal;
    }

    method VisitAssign(n: Node, fuel: nat) returns (exit: Exit)
      requires Valid() && n.Assign?
      modifies this`result, this`early, symTab, funcTab
      ensures Valid() && Run(exit, Now()) == Eval(tables, n, old(Now()), fuel)
      decreases fuel, n, 3
    {
      exit := Visit(n.expr, fuel);
      if exit.Normal? {
        ghost var frames := symTab.contexts;
        var known := symTab.Replace(n.name, result);
        if !known {
          NotFound(frames, n.name, result);
          var isNew := symTab.Insert(n.name, result);
        }
      }
    }

    method VisitSequence(n: Node, fuel: nat) returns (exit: Exit)
      requires Valid() && n.Sequence?
      modifies this`result, this`early, symTab, funcTab
      ensures Valid() && Run(exit, Now()) == Eval(tables, n, old(Now()), fuel)
      decreases fuel, n, 3
    {
      ghost var start := Now();
      var rest := n.nodes;
      while rest.More?
        invariant Valid() && EvalAll(tables, n.nodes, start, fuel) == EvalAll(tables, rest, Now(), fuel)
        invariant (n decreases to rest)
        decreases rest
      {
        exit := Visit(rest.head, fuel);
        if !exit.Normal? {
          return;
        }
        rest := rest.tail;
      }
      result := NoneValue;
      return Normal;
    }

    method VisitBlock(n: Node, fuel: nat) returns (exit: Exit)
      requires Valid() && n.Block?
      modifies this`result, this`early, symTab, funcTab
      ensures Valid() && Run(exit, Now()) == Eval(tables, n, old(Now()), fuel)
      decreases fuel, n, 3
    {
      funcTab.Push();
      symTab.Push();
      exit := Visit(n.body, fuel);
      if exit.Normal? {
        symTab.Pop();
        funcTab.Pop();
        result := NoneValue;
      } else {
        early := early + 1;
      }
    }

    method VisitIf(n: Node, fuel: nat) returns (exit: Exit)
      requires Valid() && (n.If? || n.IfElse?)
      modifies this`result, this`early, symTab, funcTab
      ensures Valid() && Run(exit, Now()) == Eval(tables, n, old(Now()), fuel)
      decreases fuel, n, 3
    {
      exit := VisitBool(n.cond, fuel);
      if exit.Normal? {
        if result.b {
          exit := Visit(n.body, fuel);
        } else if n.IfElse? {
          exit := Visit(n.otherwise, fuel);
        }
        if exit.Normal? {
          result := NoneValue;
        }
      }
    }

    method VisitForeach(n: Node, fuel: nat) returns (exit: Exit)
      requires Valid() && n.Foreach?
      modifies this`result, this`early, symTab, funcTab
      ensures Valid() && Run(exit, Now()) == Eval(tables, n, old(Now()), fuel)
      decreases fuel, n, 3
    {
      exit := VisitListValue(n.expr, fuel);
      if exit.Normal? {
        var items := result.items;
        symTab.Push();
        var isNew := symTab.Insert(n.name, NilValue);
        exit := VisitEach(n, items, fuel);
        if exit.Normal? {
          symTab.Pop();
          result := NoneValue;
        }
      }
    }

    // The loop of a foreach statement.
    method VisitEach(n: Node, items: seq<Value>, fuel: nat) returns (exit: Exit)
      requires Valid() && n.Foreach?
      modifies this`result, this`early, symTab, funcTab
      ensures Valid() && Run(exit, Now()) == Each(tables, n, items, old(Now()), fuel)
      decreases fuel, n, 2
    {
      var level := symTab.level;
      ghost var start := Now();
      for i := 0 to |items|
        invariant Valid() && symTab.level == level
        invariant Each(tables, n, items, start, fuel) == Each(tables, n, items[i..], Now(), fuel)
      {
        assert items[i..][1..] == items[i + 1..];
        var known := symTab.ReplaceLocal(n.name, items[i]);
        EvalKeepsScopes(tables, n.body, Now(), fuel);
        exit := Visit(n.body, fuel);
        if exit.Continues? || exit.Breaks? {
          symTab.Unwind(level);
          if exit.Breaks? {
            return Normal;
          }
        } else if !exit.Normal? {
          return;
        }
      }
      return Normal;
    }

    method VisitWhile(n: Node, fuel: nat) returns (exit: Exit)
      requires Valid() && n.While?
      modifies this`result, this`early, symTab, funcTab
      ensures Valid() && Run(exit, Now()) == Eval(tables, n, old(Now()), fuel)
      decreases fuel, n, 3
    {
      exit := VisitRounds(n, fuel);
      if exit.Normal? {
        result := NoneValue;
      }
    }

    // The loop of a while statement, for as long as the fuel lasts.
    method VisitRounds(n: Node, fuel: nat) returns (exit: Exit)
      requires Valid() && n.While?
      modifies this`result, this`early, symTab, funcTab
      ensures Valid() && Run(exit, Now()) == Rounds(tables, n, old(Now()), fuel, fuel)
      decreases fuel, n, 2
    {
      var level := symTab.level;
      ghost var start := Now();
      var left: nat := fuel;
      while left > 0
        invariant Valid() && symTab.level == level && left <= fuel
        invariant Rounds(tables, n, start, fuel, fuel) == Rounds(tables, n, Now(), fuel, left)
        decreases left
      {
        EvalKeepsScopes(tables, n.cond, Now(), fuel);
        exit := VisitBool(n.cond, fuel);
        if !exit.Normal? || !result.b {
          return;
        }
        EvalKeepsScopes(tables, n.body, Now(), fuel);
        exit := Visit(n.body, fuel);
        if exit.Continues? || exit.Breaks? {
          symTab.Unwind(level);
          if exit.Breaks? {
            return Normal;
          }
        } else if !exit.Normal? {
          return;
        }
        left := left - 1;
      }
      return OutOfFuel;
    }

    method VisitFunction(n: Node, fuel: nat) returns (exit: Exit)
      requires Valid() && n.Function?
      modifies this`result, funcTab
      ensures Valid() && Run(exit, Now()) == Eval(tables, n, old(Now()), fuel)
    {
      var f := Func(n.params, n.body);
      var isNew := funcTab.Insert(n.name, f);
      if !isNew {
        FoundOnTop(funcTab.contexts, n.name, f);
        var known := funcTab.Replace(n.name, f);
      }
      result := NoneValue;
      return Normal;
    }

    method VisitReturn(n: Node, fuel: nat) returns (exit: Exit)
      requires Valid() && n.Return?
      modifies this`result, this`early, symTab, funcTab
      ensures Valid() && Run(exit, Now()) == Eval(tables, n, old(Now()), fuel)
      decreases fuel, n, 3
    {
      match n.result
      case None => return Returns(NilValue);
      case Some(e) =>
        exit := Visit(e, fuel);
        if exit.Normal? {
          return Returns(result);
        }
    }

    method VisitCall(n: Node, fuel: nat) returns (exit: Exit)
      requires Valid() && n.Call?
      modifies this`result, this`early, symTab, funcTab
      ensures Valid() && Run(exit, Now()) == Eval(tables, n, old(Now()), fuel)
      decreases fuel, n, 3
    {
      var f := None;
      if n.name !in tables.builtins {
        f := funcTab.Lookup(n.name);
        if f.None? {
          return Fails;
        }
      }
      exit := VisitListValue(n.args, fuel);
      if exit.Normal? {
        var args := result.items;
        symTab.Push();
        exit := Invoke(n, f, args, fuel);
        if exit.Normal? {
          symTab.Pop();
        }
      }
    }

    method Invoke(n: Node, f: Option<Func>, args: seq<Value>, fuel: nat) returns (exit: Exit)
      requires Valid() && n.Call? && (f.None? ==> n.name in tables.builtins)
      modifies this`result, this`early, symTab, funcTab
      ensures Valid() && Run(exit, Now()) == Apply(tables, n, f, args, old(Now()), fuel)
      decreases fuel, n, 2
    {
      match f
      case None =>
        var v := tables.builtins[n.name](args);
        if v.None? {
          return Fails;
        }
        result := v.value;
        return Normal;
      case Some(g) =>
        if |args| < |g.params| {
          return Fails;
        }
        if fuel == 0 {
          return OutOfFuel;
        }
        BindParams(g.params, args);
        var level := symTab.level;
        EvalKeepsScopes(tables, g.body, Now(), fuel - 1);
        exit := Visit(g.body, fuel - 1);
        if exit.Returns? {
          symTab.Unwind(level);
          result := exit.value;
          return Normal;
        }
    }

    method BindParams(params: seq<string>, args: seq<Value>)
      requires Valid() && |params| <= |args|
      modifies symTab
      ensures Valid() && symTab.contexts == BindAll(old(symTab.contexts), params, args)
    {
      ghost var start := symTab.contexts;
      for i := 0 to |params|
        invariant Valid() && BindAll(start, params, args) == BindAll(symTab.contexts, params[i..], args[i..])
      {
        assert params[i..][1..] == params[i + 1..] && args[i..][1..] == args[i + 1..];
        var isNew := symTab.Insert(params[i], args[i]);
        if !isNew {
          FoundOnTop(symTab.contexts, params[i], args[i]);
          var known := symTab.Replace(params[i], args[i]);
        }
      }
    }

    method VisitFilter(n: Node, fuel: nat) returns (exit: Exit)
      requires Valid() && n.Filter?
      modifies this`result, this`early, symTab, funcTab
      ensures Valid() && Run(exit, Now()) == Eval(tables, n, old(Now()), fuel)
      decreases fuel, n, 3
    {
      exit := VisitListValue(n.expr, fuel);
      if exit.Normal? {
        var items := result.items;
        symTab.Push();
        var isNew := symTab.Insert(n.name, NilValue);
        exit := VisitItems(n, items, fuel);
        if exit.Normal? {
          symTab.Pop();
        }
      }
    }

    method VisitItems(n: Node, items: seq<Value>, fuel: nat) returns (exit: Exit)
      requires Valid() && n.Filter?
      modifies this`result, this`early, symTab, funcTab
      ensures Valid() && Run(exit, Now()) == Kept(tables, n, items, old(Now()), [], fuel)
      decreases fuel, n, 2
    {
      ghost var start := Now();
      var kept := [];
      for i := 0 to |items|
        invariant Valid() && Kept(tables, n, items, start, [], fuel) == Kept(tables, n, items[i..], Now(), kept, fuel)
      {
        assert items[i..][1..] == items[i + 1..];
        var known := symTab.Replace(n.name, items[i]);
        exit := VisitBool(n.pred, fuel);
        if !exit.Normal? {
          return;
        }
        if result.b {
          kept := kept + [items[i]];
        }
      }
      result := List(kept);
      return Normal;
    }

    method VisitList(n: Node, fuel: nat) returns (exit: Exit)
      requires Valid() && n.ListExpr?
      modifies this`result, this`early, symTab, funcTab
      ensures Valid() && Run(exit, Now()) == Eval(tables, n, old(Now()), fuel)
      decreases fuel, n, 3
    {
      ghost var start := Now();
      var rest, items := n.nodes, [];
      while rest.More?
        invariant Valid() && Collect(tables, n.nodes, start, [], fuel) == Collect(tables, rest, Now(), items, fuel)
        invariant (n decreases to rest)
        decreases rest
      {
        exit := Visit(rest.head, fuel);
        if !exit.Normal? {
          return;
        }
        rest, items := rest.tail, items + [result];
      }
      result := List(items);
      return Normal;
    }

    // The right operand is not evaluated where the left one decides.
    method VisitLogical(n: Node, fuel: nat) returns (exit: Exit)
      requires Valid() && (n.And? || n.Or?)
      modifies this`result, this`early, symTab, funcTab
      ensures Valid() && Run(exit, Now()) == Eval(tables, n, old(Now()), fuel)
      decreases fuel, n, 3
    {
      exit := VisitBool(n.left, fuel);
      if exit.Normal? && result.b == n.And? {
        exit := VisitBool(n.right, fuel);
      }
    }

    method VisitNot(n: Node, fuel: nat) returns (exit: Exit)
      requires Valid() && n.Not?
      modifies this`result, this`early, symTab, funcTab
      ensures Valid() && Run(exit, Now()) == Eval(tables, n, old(Now()), fuel)
      decreases fuel, n, 3
    {
      exit := VisitBool(n.left, fuel);
      if exit.Normal? {
        result := Bool(!result.b);
      }
    }

    method VisitBinary(n: Node, fuel: nat) returns (exit: Exit)
      requires Valid() && n.Binary?
      modifies this`result, this`early, symTab, funcTab
      ensures Valid() && Run(exit, Now()) == Eval(tables, n, old(Now()), fuel)
      decreases fuel, n, 3
    {
      exit := Visit(n.left, fuel);
      if !exit.Normal? {
        return;
      }
      var left := result;
      exit := Visit(n.right, fuel);
      if !exit.Normal? {
        return;
      }
      var v := tables.operators(n.op, left, result);
      if v.None? {
        return Fails;
      }
      result := v.value;
    }
  }
}
