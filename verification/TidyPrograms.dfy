// Which programs leave the function table as high as they found it: what can
// be read off their text.
module TidyPrograms {
  import opened Wrappers
  import opened Scopes
  import opened Evaluation
  import opened ScopeLaws

  datatype Jump = Breaking | Continuing | Returning

  // ----- jumps out of a construct, by the text -----

  // The node may end with such a jump. What a loop catches does not leave it.
  predicate May(j: Jump, n: Node) {
    match n
    case Literal(_) => false
    case RValue(_) => false
    case Function(_, _, _) => false
    case Break => j == Breaking
    case Continue => j == Continuing
    case Return(None) => j == Returning
    case Return(Some(e)) => j == Returning || May(j, e)
    case Block(body) => May(j, body)
    case Sequence(nodes) => MayAny(j, nodes)
    case ListExpr(nodes) => MayAny(j, nodes)
    case If(cond, body) => May(j, cond) || May(j, body)
    case IfElse(cond, body, otherwise) => May(j, cond) || May(j, body) || May(j, otherwise)
    case Foreach(_, e, body) => May(j, e) || (j == Returning && May(j, body))
    case While(cond, body) => May(j, cond) || (j == Returning && May(j, body))
    case Assign(_, e) => May(j, e)
    case Call(_, args) => May(j, args)
    case Filter(_, e, pred) => May(j, e) || May(j, pred)
    case And(left, right) => May(j, left) || May(j, right)
    case Or(left, right) => May(j, left) || May(j, right)
    case Not(left) => May(j, left)
    case Binary(_, left, right) => May(j, left) || May(j, right)
  }

  predicate MayAny(j: Jump, nodes: Nodes) {
    match nodes
    case End => false
    case More(n, rest) => May(j, n) || MayAny(j, rest)
  }

  predicate MayLeave(n: Node) {
    May(Breaking, n) || May(Continuing, n) || May(Returning, n)
  }

  // No jump lies below a block inside the loop or the function that catches
  // it, and none leaves a function but by returning.
  predicate Tidy(n: Node) {
    match n
    case Block(body) => Tidy(body) && !MayLeave(body)
    case Function(_, params, body) => Tidy(body) && !May(Breaking, body) && !May(Continuing, body)
    case Return(Some(e)) => Tidy(e)
    case Sequence(nodes) => AllTidy(nodes)
    case ListExpr(nodes) => AllTidy(nodes)
    case If(cond, body) => Tidy(cond) && Tidy(body)
    case IfElse(cond, body, otherwise) => Tidy(cond) && Tidy(body) && Tidy(otherwise)
    case Foreach(_, e, body) => Tidy(e) && Tidy(body)
    case While(cond, body) => Tidy(cond) && Tidy(body)
    case Assign(_, e) => Tidy(e)
    case Call(_, args) => Tidy(args)
    case Filter(_, e, pred) => Tidy(e) && Tidy(pred)
    case And(left, right) => Tidy(left) && Tidy(right)
    case Or(left, right) => Tidy(left) && Tidy(right)
    case Not(left) => Tidy(left)
    case Binary(_, left, right) => Tidy(left) && Tidy(right)
    case _ => true
  }

  predicate AllTidy(nodes: Nodes) {
    match nodes
    case End => true
    case More(n, rest) => Tidy(n) && AllTidy(rest)
  }

  predicate TidyFunc(f: Func) {
    Tidy(f.body) && !May(Breaking, f.body) && !May(Continuing, f.body)
  }

  ghost predicate TidyTable(funcs: seq<Frame<Func>>) {
    forall i, name :: 0 <= i < |funcs| && name in funcs[i] ==> TidyFunc(funcs[i][name])
  }

  // ----- runs of such programs -----

  ghost predicate Failed(r: Run) {
    r.exit.Fails? || r.exit.OutOfFuel?
  }

  // The table is still tidy, and unless something failed no block was left
  // early.
  ghost predicate Clean(s: State, r: Run) {
    TidyTable(r.s.funcs) && (!Failed(r) ==> r.s.early == s.early)
  }

  // A run ends with a jump only if the text has one.
  ghost predicate Foretold(n: Node, r: Run) {
    && (r.exit.Breaks? ==> May(Breaking, n))
    && (r.exit.Continues? ==> May(Continuing, n))
    && (r.exit.Returns? ==> May(Returning, n))
  }

  ghost predicate ForetoldAny(nodes: Nodes, r: Run) {
    && (r.exit.Breaks? ==> MayAny(Breaking, nodes))
    && (r.exit.Continues? ==> MayAny(Continuing, nodes))
    && (r.exit.Returns? ==> MayAny(Returning, nodes))
  }

  lemma {:induction false} FoundIsTidy(funcs: seq<Frame<Func>>, name: string)
    requires TidyTable(funcs) && Find(funcs, name).Some?
    ensures TidyFunc(Find(funcs, name).value)
  {
    if name !in funcs[|funcs| - 1] {
      FoundIsTidy(funcs[..|funcs| - 1], name);
    }
  }

  lemma {:induction false} RunIsTidy(c: Tables, n: Node, s: State, fuel: nat)
    requires s.Valid() && Tidy(n) && TidyTable(s.funcs)
    ensures Clean(s, Eval(c, n, s, fuel)) && Foretold(n, Eval(c, n, s, fuel))
    decreases fuel, n, 3
  {
    match n
    case Literal(v) =>
    case RValue(name) =>
    case Continue =>
    case Break =>
    case Function(name, params, body) =>
    case Return(None) =>
    case Return(Some(e)) => RunIsTidy(c, e, s, fuel);
    case Not(left) => RunIsTidy(c, left, s, fuel);
    case Assign(name, e) => RunIsTidy(c, e, s, fuel);
    case Sequence(nodes) => AllRunTidy(c, nodes, s, fuel);
    case ListExpr(nodes) => CollectTidy(c, nodes, s, [], fuel);
    case While(cond, body) => RoundsTidy(c, n, s, fuel, fuel);
    case Block(body) => RunIsTidy(c, body, s.PushBoth(), fuel);
    case _ => CompoundTidy(c, n, s, fuel);
  }

  lemma {:induction false} CompoundTidy(c: Tables, n: Node, s: State, fuel: nat)
    requires s.Valid() && Tidy(n) && TidyTable(s.funcs)
    requires n.If? || n.IfElse? || n.Foreach? || n.Filter? || n.Call? || n.And? || n.Or? || n.Binary?
    ensures Clean(s, Eval(c, n, s, fuel)) && Foretold(n, Eval(c, n, s, fuel))
    decreases fuel, n, 2
  {
    match n
    case And(_, _) => BothTidy(c, n, s, fuel);
    case Or(_, _) => BothTidy(c, n, s, fuel);
    case Binary(_, _, _) => BothTidy(c, n, s, fuel);
    case If(_, _) => BranchTidy(c, n, s, fuel);
    case IfElse(_, _, _) => BranchTidy(c, n, s, fuel);
    case Call(_, _) => CallTidy(c, n, s, fuel);
    case Foreach(_, _, _) => FramedTidy(c, n, s, fuel);
    case Filter(_, _, _) => FramedTidy(c, n, s, fuel);
  }

  lemma {:induction false} BothTidy(c: Tables, n: Node, s: State, fuel: nat)
    requires s.Valid() && Tidy(n) && TidyTable(s.funcs) && (n.And? || n.Or? || n.Binary?)
    ensures Clean(s, Eval(c, n, s, fuel)) && Foretold(n, Eval(c, n, s, fuel))
    decreases fuel, n, 1
  {
    hide TidyTable;
    RunIsTidy(c, n.left, s, fuel);
    var r := Eval(c, n.left, s, fuel);
    assert Foretold(n.left, r) && (Foretold(n.left, r) ==> Foretold(n, r));
    if r.exit.Normal? {
      RunIsTidy(c, n.right, r.s, fuel);
      var q := Eval(c, n.right, r.s, fuel);
      assert Foretold(n.right, q) ==> Foretold(n, q);
    }
  }

  lemma {:induction false} BranchTidy(c: Tables, n: Node, s: State, fuel: nat)
    requires s.Valid() && Tidy(n) && TidyTable(s.funcs) && (n.If? || n.IfElse?)
    ensures Clean(s, Eval(c, n, s, fuel)) && Foretold(n, Eval(c, n, s, fuel))
    decreases fuel, n, 1
  {
    RunIsTidy(c, n.cond, s, fuel);
    var r := EvalBool(c, n.cond, s, fuel);
    if r.exit.Normal? {
      RunIsTidy(c, n.body, r.s, fuel);
      if n.IfElse? {
        RunIsTidy(c, n.otherwise, r.s, fuel);
      }
    }
  }

  lemma {:induction false} CallTidy(c: Tables, n: Node, s: State, fuel: nat)
    requires s.Valid() && Tidy(n) && TidyTable(s.funcs) && n.Call?
    ensures Clean(s, Eval(c, n, s, fuel)) && Foretold(n, Eval(c, n, s, fuel))
    decreases fuel, n, 1
  {
    RunIsTidy(c, n.args, s, fuel);
    var r := EvalList(c, n.args, s, fuel);
    if r.exit.Normal? && (n.name in c.builtins || Find(s.funcs, n.name).Some?) {
      var f := if n.name in c.builtins then None else Find(s.funcs, n.name);
      if f.Some? {
        FoundIsTidy(s.funcs, n.name);
      }
      ApplyTidy(c, n, f, r.s.result.items, r.s.Push(), fuel);
    }
  }

  lemma {:induction false} FramedTidy(c: Tables, n: Node, s: State, fuel: nat)
    requires s.Valid() && Tidy(n) && TidyTable(s.funcs) && (n.Foreach? || n.Filter?)
    ensures Clean(s, Eval(c, n, s, fuel)) && Foretold(n, Eval(c, n, s, fuel))
    decreases fuel, n, 1
  {
    RunIsTidy(c, n.expr, s, fuel);
    var r := EvalList(c, n.expr, s, fuel);
    if r.exit.Normal? {
      var t := r.s.Push();
      var u := t.(frames := Bind(t.frames, n.name, NilValue));
      if n.Foreach? {
        EachTidy(c, n, r.s.result.items, u, fuel);
      } else {
        KeptTidy(c, n, r.s.result.items, u, [], fuel);
      }
    }
  }

  lemma {:induction false} AllRunTidy(c: Tables, nodes: Nodes, s: State, fuel: nat)
    requires s.Valid() && AllTidy(nodes) && TidyTable(s.funcs)
    ensures Clean(s, EvalAll(c, nodes, s, fuel)) && ForetoldAny(nodes, EvalAll(c, nodes, s, fuel))
    decreases fuel, nodes, 0
  {
    if nodes.More? {
      RunIsTidy(c, nodes.head, s, fuel);
      AllRunTidy(c, nodes.tail, Eval(c, nodes.head, s, fuel).s, fuel);
    }
  }

  lemma {:induction false} CollectTidy(c: Tables, nodes: Nodes, s: State, items: seq<Value>, fuel: nat)
    requires s.Valid() && AllTidy(nodes) && TidyTable(s.funcs)
    ensures Clean(s, Collect(c, nodes, s, items, fuel)) && ForetoldAny(nodes, Collect(c, nodes, s, items, fuel))
    decreases fuel, nodes, 0
  {
    if nodes.More? {
      var r := Eval(c, nodes.head, s, fuel);
      RunIsTidy(c, nodes.head, s, fuel);
      CollectTidy(c, nodes.tail, r.s, items + [r.s.result], fuel);
    }
  }

  // Of what the body does, only a return leaves the loop.
  lemma {:induction false} EachTidy(c: Tables, n: Node, items: seq<Value>, s: State, fuel: nat)
    requires s.Valid() && n.Foreach? && Tidy(n.body) && TidyTable(s.funcs)
    ensures var r := Each(c, n, items, s, fuel); Clean(s, r) && !r.exit.Breaks? && !r.exit.Continues? && (r.exit.Returns? ==> May(Returning, n.body))
    decreases fuel, n, 0, |items|
  {
    if items != [] {
      var top := s.frames[|s.frames| - 1];
      var t := s.(frames := if n.name in top then Bind(s.frames, n.name, items[0]) else s.frames);
      var r := Eval(c, n.body, t, fuel);
      RunIsTidy(c, n.body, t, fuel);
      if r.exit.Normal? {
        EachTidy(c, n, items[1..], r.s, fuel);
      } else if r.exit.Continues? {
        EachTidy(c, n, items[1..], r.s.CutTo(|s.frames|), fuel);
      }
    }
  }

  lemma {:induction false} RoundsTidy(c: Tables, n: Node, s: State, fuel: nat, left: nat)
    requires s.Valid() && n.While? && Tidy(n) && TidyTable(s.funcs)
    ensures Clean(s, Rounds(c, n, s, fuel, left)) && Foretold(n, Rounds(c, n, s, fuel, left))
    decreases fuel, n, 0, left
  {
    if left > 0 {
      RunIsTidy(c, n.cond, s, fuel);
      var q := EvalBool(c, n.cond, s, fuel);
      if q.exit.Normal? && q.s.result.b {
        var r := Eval(c, n.body, q.s, fuel);
        RunIsTidy(c, n.body, q.s, fuel);
        if r.exit.Normal? {
          RoundsTidy(c, n, r.s, fuel, left - 1);
        } else if r.exit.Continues? {
          RoundsTidy(c, n, r.s.CutTo(|s.frames|), fuel, left - 1);
        }
      }
    }
  }

  lemma {:induction false} KeptTidy(c: Tables, n: Node, items: seq<Value>, s: State, kept: seq<Value>, fuel: nat)
    requires s.Valid() && n.Filter? && Tidy(n.pred) && TidyTable(s.funcs)
    ensures Clean(s, Kept(c, n, items, s, kept, fuel)) && Foretold(n.pred, Kept(c, n, items, s, kept, fuel))
    decreases fuel, n, 0, |items|
  {
    if items != [] {
      var t := s.(frames := Rebind(s.frames, n.name, items[0]));
      RunIsTidy(c, n.pred, t, fuel);
      var r := EvalBool(c, n.pred, t, fuel);
      if r.exit.Normal? {
        KeptTidy(c, n, items[1..], r.s, if r.s.result.b then kept + [items[0]] else kept, fuel);
      }
    }
  }

  // A call ends with no jump.
  lemma {:induction false} ApplyTidy(c: Tables, n: Node, f: Option<Func>, args: seq<Value>, s: State, fuel: nat)
    requires s.Valid() && n.Call? && (f.None? ==> n.name in c.builtins) && TidyTable(s.funcs) && (f.Some? ==> TidyFunc(f.value))
    ensures var r := Apply(c, n, f, args, s, fuel); Clean(s, r) && (r.exit.Normal? || Failed(r))
    decreases fuel, n, 0
  {
    if f.Some? && |f.value.params| <= |args| && fuel > 0 {
      RunIsTidy(c, f.value.body, s.(frames := BindAll(s.frames, f.value.params, args)), fuel - 1);
    }
  }

  // ----- the height of the function table -----

  // The table has its height again after a program in which no jump lies
  // below a block, unless something fails.
  lemma FunctionFramesStay(c: Tables, n: Node, s: State, fuel: nat)
    requires s.Valid() && Tidy(n) && TidyTable(s.funcs)
    ensures var r := Eval(c, n, s, fuel); !Failed(r) ==> |r.s.funcs| == |s.funcs|
  {
    RunIsTidy(c, n, s, fuel);
    EvalKeepsScopes(c, n, s, fuel);
  }

  // ----- the other way round -----

  // By the text, the node does not end normally.
  predicate MustLeave(n: Node) {
    match n
    case Break => true
    case Continue => true
    case Return(_) => true
    case Block(body) => MustLeave(body)
    case Sequence(nodes) => MustLeaveOne(nodes)
    case ListExpr(nodes) => MustLeaveOne(nodes)
    case IfElse(cond, body, otherwise) => MustLeave(cond) || (MustLeave(body) && MustLeave(otherwise))
    case If(cond, _) => MustLeave(cond)
    case Assign(_, e) => MustLeave(e)
    case Foreach(_, e, _) => MustLeave(e)
    case While(cond, _) => MustLeave(cond)
    case Filter(_, e, _) => MustLeave(e)
    case And(left, _) => MustLeave(left)
    case Or(left, _) => MustLeave(left)
    case Not(left) => MustLeave(left)
    case Binary(_, left, right) => MustLeave(left) || MustLeave(right)
    case _ => false
  }

  predicate MustLeaveOne(nodes: Nodes) {
    match nodes
    case End => false
    case More(n, rest) => MustLeave(n) || MustLeaveOne(rest)
  }

  lemma {:induction false} LeavesIndeed(c: Tables, n: Node, s: State, fuel: nat)
    requires s.Valid() && MustLeave(n)
    ensures !Eval(c, n, s, fuel).exit.Normal?
    decreases n
  {
    match n
    case Block(body) => LeavesIndeed(c, body, s.PushBoth(), fuel);
    case Sequence(nodes) => OneLeaves(c, nodes, s, fuel);
    case ListExpr(nodes) => OneCollected(c, nodes, s, [], fuel);
    case If(cond, _) => LeavesIndeed(c, cond, s, fuel);
    case IfElse(cond, body, otherwise) =>
      if MustLeave(cond) {
        LeavesIndeed(c, cond, s, fuel);
      } else {
        var r := EvalBool(c, cond, s, fuel);
        LeavesIndeed(c, body, r.s, fuel);
        LeavesIndeed(c, otherwise, r.s, fuel);
      }
    case Assign(_, e) => LeavesIndeed(c, e, s, fuel);
    case Foreach(_, e, _) => LeavesIndeed(c, e, s, fuel);
    case While(cond, _) =>
      LeavesIndeed(c, cond, s, fuel);
      assert !Rounds(c, n, s, fuel, fuel).exit.Normal?;
    case Filter(_, e, _) => LeavesIndeed(c, e, s, fuel);
    case And(left, _) => LeavesIndeed(c, left, s, fuel);
    case Or(left, _) => LeavesIndeed(c, left, s, fuel);
    case Not(left) => LeavesIndeed(c, left, s, fuel);
    case Binary(_, left, right) =>
      if MustLeave(left) {
        LeavesIndeed(c, left, s, fuel);
      } else {
        LeavesIndeed(c, right, Eval(c, left, s, fuel).s, fuel);
      }
    case _ =>
  }

  lemma {:induction false} OneLeaves(c: Tables, nodes: Nodes, s: State, fuel: nat)
    requires s.Valid() && MustLeaveOne(nodes)
    ensures !EvalAll(c, nodes, s, fuel).exit.Normal?
    decreases nodes
  {
    if MustLeave(nodes.head) {
      LeavesIndeed(c, nodes.head, s, fuel);
    } else {
      OneLeaves(c, nodes.tail, Eval(c, nodes.head, s, fuel).s, fuel);
    }
  }

  lemma {:induction false} OneCollected(c: Tables, nodes: Nodes, s: State, items: seq<Value>, fuel: nat)
    requires s.Valid() && MustLeaveOne(nodes)
    ensures !Collect(c, nodes, s, items, fuel).exit.Normal?
    decreases nodes
  {
    if MustLeave(nodes.head) {
      LeavesIndeed(c, nodes.head, s, fuel);
    } else {
      var r := Eval(c, nodes.head, s, fuel);
      OneCollected(c, nodes.tail, r.s, items + [r.s.result], fuel);
    }
  }

  // A block in which all is tidy brings the height back exactly if it ends
  // normally. A frame stays where any block is left early, and always does
  // where the text says that it is left.
  lemma LeftBlockStays(c: Tables, body: Node, s: State, fuel: nat)
    requires s.Valid()
    ensures var r := Eval(c, Block(body), s, fuel); |r.s.funcs| > |s.funcs| || r.exit.Normal?
    ensures var r := Eval(c, Block(body), s, fuel); Tidy(body) && TidyTable(s.funcs) ==> (|r.s.funcs| == |s.funcs| <==> r.exit.Normal?)
    ensures MustLeave(body) ==> |Eval(c, Block(body), s, fuel).s.funcs| > |s.funcs|
  {
    EvalKeepsScopes(c, body, s.PushBoth(), fuel);
    if Tidy(body) && TidyTable(s.funcs) {
      RunIsTidy(c, body, s.PushBoth(), fuel);
    }
    if MustLeave(body) {
      LeavesIndeed(c, body, s.PushBoth(), fuel);
    }
  }

  // Every round of a loop in which such a block is the body leaves one more.
  lemma EachRoundLeavesOne(c: Tables, cond: Node, body: Node, s: State, fuel: nat)
    requires s.Valid() && MustLeave(body) && fuel > 0
    ensures var q, r := EvalBool(c, cond, s, fuel), Eval(c, While(cond, Block(body)), s, fuel);
            q.exit.Normal? && q.s.result.b ==> |r.s.funcs| > |s.funcs|
  {
    var n := While(cond, Block(body));
    var q := EvalBool(c, cond, s, fuel);
    if q.exit.Normal? && q.s.result.b {
      EvalKeepsScopes(c, cond, s, fuel);
      LeftBlockStays(c, body, q.s, fuel);
      LeavesIndeed(c, Block(body), q.s, fuel);
      var r := Eval(c, Block(body), q.s, fuel);
      EvalKeepsScopes(c, Block(body), q.s, fuel);
      var all := Rounds(c, n, s, fuel, fuel);
      assert Eval(c, n, s, fuel) == NoValue(all);
      if r.exit.Continues? {
        RoundsKeepScopes(c, n, r.s.CutTo(|s.frames|), fuel, fuel - 1);
        assert all == Rounds(c, n, r.s.CutTo(|s.frames|), fuel, fuel - 1);
      }
    }
  }
}
