// The meaning of query programs (src/interpreter/evaluator.h): statements and
// expressions over a stack of frames, in which leaving a construct early cuts
// the stack to the height it had there.
module Evaluation {
  import opened Wrappers
  import opened Scopes

  datatype Value = NilValue | NoneValue | Bool(b: bool) | Number(n: int) | Text(s: string) | List(items: seq<Value>) | Pointer(id: nat)

  datatype Node =
    // statements
    | Block(body: Node)
    | Sequence(nodes: Nodes)
    | Foreach(name: string, expr: Node, body: Node)
    | While(cond: Node, body: Node)
    | Continue
    | Break
    | If(cond: Node, body: Node)
    | IfElse(cond: Node, body: Node, otherwise: Node)
    | Function(name: string, params: seq<string>, body: Node)
    | Return(result: Option<Node>)
    // expressions
    | Literal(value: Value)
    | Assign(name: string, expr: Node)
    | RValue(name: string)
    | Call(name: string, args: Node)
    | Filter(name: string, expr: Node, pred: Node)
    | ListExpr(nodes: Nodes)
    | And(left: Node, right: Node)
    | Or(left: Node, right: Node)
    | Not(left: Node)
    | Binary(op: string, left: Node, right: Node)

  datatype Nodes = End | More(head: Node, tail: Nodes)

  datatype Func = Func(params: seq<string>, body: Node)

  // The tables of operators and of built-in functions; None where they throw.
  datatype Tables = Tables(operators: (string, Value, Value) -> Option<Value>, builtins: map<string, seq<Value> -> Option<Value>>)

  // How an evaluation ends: exceptions are the other ways. Fuel bounds the
  // depth of calls and the number of rounds of every loop.
  datatype Exit = Normal | Continues | Breaks | Returns(value: Value) | Fails | OutOfFuel

  // `early` counts the blocks that have been left early.
  datatype State = State(frames: seq<Frame<Value>>, funcs: seq<Frame<Func>>, result: Value, early: nat) {
    predicate Valid() {
      frames != [] && funcs != []
    }

    function Push(): State {
      this.(frames := frames + [map[]])
    }

    function Pop(): State {
      this.(frames := if |frames| <= 1 then frames else frames[..|frames| - 1])
    }

    function PushBoth(): State {
      Push().(funcs := funcs + [map[]])
    }

    function PopBoth(): State {
      Pop().(funcs := if |funcs| <= 1 then funcs else funcs[..|funcs| - 1])
    }

    function LeftEarly(): State {
      this.(early := early + 1)
    }

    function CutTo(height: nat): State {
      this.(frames := Cut(frames, height))
    }

    function Gives(v: Value): State {
      this.(result := v)
    }
  }

  datatype Run = Run(exit: Exit, s: State)

  // A parameter that is named twice gets the later argument.
  function BindAll(frames: seq<Frame<Value>>, params: seq<string>, args: seq<Value>): (r: seq<Frame<Value>>)
    requires frames != [] && |params| <= |args|
    ensures |r| == |frames|
    decreases |params|
  {
    if params == [] then frames else BindAll(Bind(frames, params[0], args[0]), params[1..], args[1..])
  }

  function Eval(c: Tables, n: Node, s: State, fuel: nat): (r: Run)
    requires s.Valid()
    ensures r.s.Valid()
    decreases fuel, n, fuel + 1
  {
    match n
    case Literal(v) => Run(Normal, s.Gives(v))
    case RValue(name) =>
      (match Find(s.frames, name)
       case Some(v) => Run(Normal, s.Gives(v))
       case None => Run(Fails, s))
    case Assign(name, e) =>
      var r := Eval(c, e, s, fuel);
      if !r.exit.Normal? then r else Run(Normal, r.s.(frames := Assigned(r.s.frames, name, r.s.result)))
    case Sequence(nodes) =>
      var r := EvalAll(c, nodes, s, fuel);
      if !r.exit.Normal? then r else Run(Normal, r.s.Gives(NoneValue))
    case Block(body) =>
      var r := Eval(c, body, s.PushBoth(), fuel);
      if !r.exit.Normal? then Run(r.exit, r.s.LeftEarly()) else Run(Normal, r.s.PopBoth().Gives(NoneValue))
    case Continue => Run(Continues, s)
    case Break => Run(Breaks, s)
    case If(cond, body) =>
      var r := EvalBool(c, cond, s, fuel);
      if !r.exit.Normal? then r
      else if r.s.result.b then NoValue(Eval(c, body, r.s, fuel)) else Run(Normal, r.s.Gives(NoneValue))
    case IfElse(cond, body, otherwise) =>
      var r := EvalBool(c, cond, s, fuel);
      if !r.exit.Normal? then r
      else NoValue(if r.s.result.b then Eval(c, body, r.s, fuel) else Eval(c, otherwise, r.s, fuel))
    case Foreach(name, e, body) =>
      var r := EvalList(c, e, s, fuel);
      if !r.exit.Normal? then r
      else
        var t := r.s.Push();
        var q := Each(c, n, r.s.result.items, t.(frames := Bind(t.frames, name, NilValue)), fuel);
        if !q.exit.Normal? then q else Run(Normal, q.s.Pop().Gives(NoneValue))
    case While(cond, body) => NoValue(Rounds(c, n, s, fuel, fuel))
    case Function(name, params, body) =>
      Run(Normal, s.(funcs := Bind(s.funcs, name, Func(params, body))).Gives(NoneValue))
    case Return(None) => Run(Returns(NilValue), s)
    case Return(Some(e)) =>
      var r := Eval(c, e, s, fuel);
      if !r.exit.Normal? then r else Run(Returns(r.s.result), r.s)
    case Call(name, args) =>
      if name !in c.builtins && Find(s.funcs, name).None? then Run(Fails, s)
      else
        var r := EvalList(c, args, s, fuel);
        if !r.exit.Normal? then r
        else
          var t := Apply(c, n, if name in c.builtins then None else Find(s.funcs, name), r.s.result.items, r.s.Push(), fuel);
          if !t.exit.Normal? then t else Run(Normal, t.s.Pop())
    case Filter(name, e, pred) =>
      var r := EvalList(c, e, s, fuel);
      if !r.exit.Normal? then r
      else
        var t := r.s.Push();
        var q := Kept(c, n, r.s.result.items, t.(frames := Bind(t.frames, name, NilValue)), [], fuel);
        if !q.exit.Normal? then q else Run(Normal, q.s.Pop())
    case ListExpr(nodes) => Collect(c, nodes, s, [], fuel)
    case And(left, right) =>
      var r := EvalBool(c, left, s, fuel);
      if !r.exit.Normal? || !r.s.result.b then r else EvalBool(c, right, r.s, fuel)
    case Or(left, right) =>
      var r := EvalBool(c, left, s, fuel);
      if !r.exit.Normal? || r.s.result.b then r else EvalBool(c, right, r.s, fuel)
    case Not(left) =>
      var r := EvalBool(c, left, s, fuel);
      if !r.exit.Normal? then r else Run(Normal, r.s.Gives(Bool(!r.s.result.b)))
    case Binary(op, left, right) =>
      var r := Eval(c, left, s, fuel);
      if !r.exit.Normal? then r
      else
        var q := Eval(c, right, r.s, fuel);
        if !q.exit.Normal? then q
        else
          match c.operators(op, r.s.result, q.s.result)
          case Some(v) => Run(Normal, q.s.Gives(v))
          case None => Run(Fails, q.s)
  }

  function NoValue(r: Run): Run {
    if r.exit.Normal? then Run(Normal, r.s.Gives(NoneValue)) else r
  }

  function EvalBool(c: Tables, n: Node, s: State, fuel: nat): (r: Run)
    requires s.Valid()
    ensures r.s.Valid() && (r.exit.Normal? ==> r.s.result.Bool?)
    decreases fuel, n, fuel + 2
  {
    var r := Eval(c, n, s, fuel);
    if r.exit.Normal? && !r.s.result.Bool? then Run(Fails, r.s) else r
  }

  function EvalList(c: Tables, n: Node, s: State, fuel: nat): (r: Run)
    requires s.Valid()
    ensures r.s.Valid() && (r.exit.Normal? ==> r.s.result.List?)
    decreases fuel, n, fuel + 2
  {
    var r := Eval(c, n, s, fuel);
    if r.exit.Normal? && !r.s.result.List? then Run(Fails, r.s) else r
  }

  function EvalAll(c: Tables, nodes: Nodes, s: State, fuel: nat): (r: Run)
    requires s.Valid()
    ensures r.s.Valid()
    decreases fuel, nodes, 0
  {
    match nodes
    case End => Run(Normal, s)
    case More(n, rest) =>
      var r := Eval(c, n, s, fuel);
      if !r.exit.Normal? then r else EvalAll(c, rest, r.s, fuel)
  }

  function Collect(c: Tables, nodes: Nodes, s: State, items: seq<Value>, fuel: nat): (r: Run)
    requires s.Valid()
    ensures r.s.Valid()
    decreases fuel, nodes, 0
  {
    match nodes
    case End => Run(Normal, s.Gives(List(items)))
    case More(n, rest) =>
      var r := Eval(c, n, s, fuel);
      if !r.exit.Normal? then r else Collect(c, rest, r.s, items + [r.s.result], fuel)
  }

  // The rounds of a foreach statement: early exits are caught here.
  function Each(c: Tables, n: Node, items: seq<Value>, s: State, fuel: nat): (r: Run)
    requires s.Valid() && n.Foreach?
    ensures r.s.Valid()
    decreases fuel, n, 0, |items|
  {
    if items == [] then Run(Normal, s)
    else
      var top := s.frames[|s.frames| - 1];
      var t := s.(frames := if n.name in top then Bind(s.frames, n.name, items[0]) else s.frames);
      var r := Eval(c, n.body, t, fuel);
      match r.exit
      case Normal => Each(c, n, items[1..], r.s, fuel)
      case Continues => Each(c, n, items[1..], r.s.CutTo(|s.frames|), fuel)
      case Breaks => Run(Normal, r.s.CutTo(|s.frames|))
      case _ => r
  }

  // The rounds of a while statement; what the condition throws is not caught.
  function Rounds(c: Tables, n: Node, s: State, fuel: nat, left: nat): (r: Run)
    requires s.Valid() && n.While?
    ensures r.s.Valid()
    decreases fuel, n, 0, left
  {
    if left == 0 then Run(OutOfFuel, s)
    else
      var q := EvalBool(c, n.cond, s, fuel);
      if !q.exit.Normal? || !q.s.result.b then q
      else
        var r := Eval(c, n.body, q.s, fuel);
        match r.exit
        case Normal => Rounds(c, n, r.s, fuel, left - 1)
        case Continues => Rounds(c, n, r.s.CutTo(|s.frames|), fuel, left - 1)
        case Breaks => Run(Normal, r.s.CutTo(|s.frames|))
        case _ => r
  }

  // A filter expression keeps the values for which the predicate holds.
  function Kept(c: Tables, n: Node, items: seq<Value>, s: State, kept: seq<Value>, fuel: nat): (r: Run)
    requires s.Valid() && n.Filter?
    ensures r.s.Valid()
    decreases fuel, n, 0, |items|
  {
    if items == [] then Run(Normal, s.Gives(List(kept)))
    else
      var r := EvalBool(c, n.pred, s.(frames := Rebind(s.frames, n.name, items[0])), fuel);
      if !r.exit.Normal? then r
      else Kept(c, n, items[1..], r.s, if r.s.result.b then kept + [items[0]] else kept, fuel)
  }

  // A call in the frame made for it; `f` is None for built-in functions.
  function Apply(c: Tables, n: Node, f: Option<Func>, args: seq<Value>, s: State, fuel: nat): (r: Run)
    requires s.Valid() && n.Call? && (f.None? ==> n.name in c.builtins)
    ensures r.s.Valid()
    decreases fuel, n, 0
  {
    match f
    case None =>
      (match c.builtins[n.name](args)
       case Some(v) => Run(Normal, s.Gives(v))
       case None => Run(Fails, s))
    case Some(g) =>
      if |args| < |g.params| then Run(Fails, s)
      else if fuel == 0 then Run(OutOfFuel, s)
      else
        var t := s.(frames := BindAll(s.frames, g.params, args));
        var r := Eval(c, g.body, t, fuel - 1);
        match r.exit
        case Returns(v) => Run(Normal, r.s.CutTo(|s.frames|).Gives(v))
        case _ => r
  }
}
