// Scope discipline: whatever a program does, it leaves the frames it started
// from in place.
module ScopeLaws {
  import opened Wrappers
  import opened Scopes
  import opened Evaluation

  // `after` has the frames of `before`, which bind the same names as before;
  // only the innermost of them may bind more.
  ghost predicate Extends<V>(before: seq<Frame<V>>, after: seq<Frame<V>>) {
    && 0 < |before| <= |after|
    && (forall i :: 0 <= i < |before| - 1 ==> after[i].Keys == before[i].Keys)
    && before[|before| - 1].Keys <= after[|before| - 1].Keys
  }

  ghost predicate Disciplined(s: State, r: Run) {
    && Extends(s.frames, r.s.frames) && s.early <= r.s.early && |r.s.funcs| - r.s.early == |s.funcs| - s.early
    && (r.exit.Normal? ==> |r.s.frames| == |s.frames|)
  }

  lemma GoesOn(s: State, mid: Run, r: Run)
    requires s.Valid() && Disciplined(s, mid) && mid.exit.Normal? && Disciplined(mid.s, r)
    ensures Disciplined(s, r)
  {
  }

  // What happens in a frame of its own, left early or popped at the end.
  lemma InOwnFrame(s: State, own: Frame<Value>, r: Run)
    requires s.Valid() && Disciplined(s.(frames := s.frames + [own]), r)
    ensures Disciplined(s, if r.exit.Normal? then Run(Normal, r.s.Pop()) else r)
  {
  }

  // A block has a frame of its own in both tables, and leaves the one for
  // functions behind if it is left early.
  lemma InBlock(s: State, r: Run)
    requires s.Valid() && Disciplined(s.PushBoth(), r)
    ensures Disciplined(s, if r.exit.Normal? then Run(Normal, r.s.PopBoth()) else Run(r.exit, r.s.LeftEarly()))
  {
  }

  lemma CutBack(s: State, r: Run)
    requires s.Valid() && Disciplined(s, r)
    ensures Disciplined(s, Run(Normal, r.s.CutTo(|s.frames|))) && r.s.CutTo(|s.frames|).Valid()
  {
  }

  lemma {:induction false} NotFound<V>(frames: seq<Frame<V>>, name: string, v: V)
    requires Find(frames, name).None?
    ensures Rebind(frames, name, v) == frames && forall i :: 0 <= i < |frames| ==> name !in frames[i]
  {
    if frames != [] {
      NotFound(frames[..|frames| - 1], name, v);
    }
  }

  lemma FoundOnTop<V>(frames: seq<Frame<V>>, name: string, v: V)
    requires frames != [] && name in frames[|frames| - 1]
    ensures Rebind(frames, name, v) == Bind(frames, name, v)
  {
  }

  lemma AssignedExtends<V>(frames: seq<Frame<V>>, name: string, v: V)
    requires frames != []
    ensures Extends(frames, Assigned(frames, name, v)) && |Assigned(frames, name, v)| == |frames|
  {
  }

  lemma BindAllKeeps(frames: seq<Frame<Value>>, params: seq<string>, args: seq<Value>)
    requires frames != [] && |params| <= |args|
    ensures BindAll(frames, params, args)[..|frames| - 1] == frames[..|frames| - 1]
    ensures frames[|frames| - 1].Keys <= BindAll(frames, params, args)[|frames| - 1].Keys
    decreases |params|
  {
    if params != [] {
      BindAllKeeps(Bind(frames, params[0], args[0]), params[1..], args[1..]);
    }
  }

  // The level is restored by what ends normally, no lower frame gains or
  // loses a name, and an early exit leaves the frames it started from as a
  // prefix.
  lemma {:induction false} EvalKeepsScopes(c: Tables, n: Node, s: State, fuel: nat)
    requires s.Valid()
    ensures Disciplined(s, Eval(c, n, s, fuel))
    decreases fuel, n, 3
  {
    match n
    case Literal(v) =>
    case RValue(name) =>
    case Continue =>
    case Break =>
    case Function(name, params, body) =>
    case Return(None) =>
    case Return(Some(e)) => EvalKeepsScopes(c, e, s, fuel);
    case Not(left) => EvalKeepsScopes(c, left, s, fuel);
    case Sequence(nodes) => AllKeepScopes(c, nodes, s, fuel);
    case ListExpr(nodes) => CollectKeepsScopes(c, nodes, s, [], fuel);
    case While(cond, body) => RoundsKeepScopes(c, n, s, fuel, fuel);
    case Assign(name, e) =>
      EvalKeepsScopes(c, e, s, fuel);
      var r := Eval(c, e, s, fuel);
      AssignedExtends(r.s.frames, name, r.s.result);
    case Block(body) =>
      EvalKeepsScopes(c, body, s.PushBoth(), fuel);
      InBlock(s, Eval(c, body, s.PushBoth(), fuel));
    case _ => CompoundKeepsScopes(c, n, s, fuel);
  }

  lemma {:induction false} CompoundKeepsScopes(c: Tables, n: Node, s: State, fuel: nat)
    requires s.Valid()
    requires n.If? || n.IfElse? || n.Foreach? || n.Filter? || n.Call? || n.And? || n.Or? || n.Binary?
    ensures Disciplined(s, Eval(c, n, s, fuel))
    decreases fuel, n, 2
  {
    match n
    case And(left, right) =>
      EvalKeepsScopes(c, left, s, fuel);
      EvalKeepsScopes(c, right, Eval(c, left, s, fuel).s, fuel);
    case Or(left, right) =>
      EvalKeepsScopes(c, left, s, fuel);
      EvalKeepsScopes(c, right, Eval(c, left, s, fuel).s, fuel);
    case Binary(op, left, right) =>
      EvalKeepsScopes(c, left, s, fuel);
      EvalKeepsScopes(c, right, Eval(c, left, s, fuel).s, fuel);
    case If(_, _) => BranchKeepsScopes(c, n, s, fuel);
    case IfElse(_, _, _) => BranchKeepsScopes(c, n, s, fuel);
    case Call(_, _) => CallKeepsScopes(c, n, s, fuel);
    case Foreach(_, _, _) => FramedKeepsScopes(c, n, s, fuel);
    case Filter(_, _, _) => FramedKeepsScopes(c, n, s, fuel);
  }

  lemma {:induction false} BranchKeepsScopes(c: Tables, n: Node, s: State, fuel: nat)
    requires s.Valid() && (n.If? || n.IfElse?)
    ensures Disciplined(s, Eval(c, n, s, fuel))
    decreases fuel, n, 1
  {
    EvalKeepsScopes(c, n.cond, s, fuel);
    var r := EvalBool(c, n.cond, s, fuel);
    if r.exit.Normal? {
      EvalKeepsScopes(c, n.body, r.s, fuel);
      if n.IfElse? {
        EvalKeepsScopes(c, n.otherwise, r.s, fuel);
      }
    }
  }

  lemma {:induction false} CallKeepsScopes(c: Tables, n: Node, s: State, fuel: nat)
    requires s.Valid() && n.Call?
    ensures Disciplined(s, Eval(c, n, s, fuel))
    decreases fuel, n, 1
  {
    EvalKeepsScopes(c, n.args, s, fuel);
    var r := EvalList(c, n.args, s, fuel);
    if r.exit.Normal? && (n.name in c.builtins || Find(s.funcs, n.name).Some?) {
      var f := if n.name in c.builtins then None else Find(s.funcs, n.name);
      ApplyKeepsScopes(c, n, f, r.s.result.items, r.s.Push(), fuel);
      InOwnFrame(r.s, map[], Apply(c, n, f, r.s.result.items, r.s.Push(), fuel));
    }
  }

  lemma {:induction false} FramedKeepsScopes(c: Tables, n: Node, s: State, fuel: nat)
    requires s.Valid() && (n.Foreach? || n.Filter?)
    ensures Disciplined(s, Eval(c, n, s, fuel))
    decreases fuel, n, 1
  {
    hide Extends, Bind;
    EvalKeepsScopes(c, n.expr, s, fuel);
    var r := EvalList(c, n.expr, s, fuel);
    if r.exit.Normal? {
      var t := r.s.Push();
      var u := t.(frames := Bind(t.frames, n.name, NilValue));
      OwnBinding(r.s, n.name);
      var q := if n.Foreach? then Each(c, n, r.s.result.items, u, fuel) else Kept(c, n, r.s.result.items, u, [], fuel);
      if n.Foreach? {
        EachKeepsScopes(c, n, r.s.result.items, u, fuel);
      } else {
        KeptKeepsScopes(c, n, r.s.result.items, u, [], fuel);
      }
      InOwnFrame(r.s, map[n.name := NilValue], q);
      GoesOn(s, r, if q.exit.Normal? then Run(Normal, q.s.Pop()) else q);
    }
  }

  lemma OwnBinding(s: State, name: string)
    ensures Bind(s.Push().frames, name, NilValue) == s.frames + [map[name := NilValue]]
  {
  }

  lemma {:induction false} AllKeepScopes(c: Tables, nodes: Nodes, s: State, fuel: nat)
    requires s.Valid()
    ensures Disciplined(s, EvalAll(c, nodes, s, fuel))
    decreases fuel, nodes, 0
  {
    if nodes.More? {
      EvalKeepsScopes(c, nodes.head, s, fuel);
      AllKeepScopes(c, nodes.tail, Eval(c, nodes.head, s, fuel).s, fuel);
    }
  }

  lemma {:induction false} CollectKeepsScopes(c: Tables, nodes: Nodes, s: State, items: seq<Value>, fuel: nat)
    requires s.Valid()
    ensures Disciplined(s, Collect(c, nodes, s, items, fuel))
    decreases fuel, nodes, 0
  {
    if nodes.More? {
      var r := Eval(c, nodes.head, s, fuel);
      EvalKeepsScopes(c, nodes.head, s, fuel);
      CollectKeepsScopes(c, nodes.tail, r.s, items + [r.s.result], fuel);
    }
  }

  lemma {:induction false} EachKeepsScopes(c: Tables, n: Node, items: seq<Value>, s: State, fuel: nat)
    requires s.Valid() && n.Foreach?
    ensures Disciplined(s, Each(c, n, items, s, fuel))
    decreases fuel, n, 0, |items|
  {
    if items != [] {
      var top := s.frames[|s.frames| - 1];
      var t := s.(frames := if n.name in top then Bind(s.frames, n.name, items[0]) else s.frames);
      var r := Eval(c, n.body, t, fuel);
      EvalKeepsScopes(c, n.body, t, fuel);
      assert Disciplined(s, r);
      CutBack(s, r);
      if r.exit.Normal? {
        EachKeepsScopes(c, n, items[1..], r.s, fuel);
      } else if r.exit.Continues? {
        EachKeepsScopes(c, n, items[1..], r.s.CutTo(|s.frames|), fuel);
      }
    }
  }

  lemma {:induction false} RoundsKeepScopes(c: Tables, n: Node, s: State, fuel: nat, left: nat)
    requires s.Valid() && n.While?
    ensures Disciplined(s, Rounds(c, n, s, fuel, left))
    decreases fuel, n, 0, left
  {
    if left > 0 {
      EvalKeepsScopes(c, n.cond, s, fuel);
      var q := EvalBool(c, n.cond, s, fuel);
      if q.exit.Normal? && q.s.result.b {
        var r := Eval(c, n.body, q.s, fuel);
        EvalKeepsScopes(c, n.body, q.s, fuel);
        GoesOn(s, q, r);
        CutBack(s, r);
        if r.exit.Normal? {
          RoundsKeepScopes(c, n, r.s, fuel, left - 1);
        } else if r.exit.Continues? {
          RoundsKeepScopes(c, n, r.s.CutTo(|s.frames|), fuel, left - 1);
        }
      }
    }
  }

  lemma {:induction false} KeptKeepsScopes(c: Tables, n: Node, items: seq<Value>, s: State, kept: seq<Value>, fuel: nat)
    requires s.Valid() && n.Filter?
    ensures Disciplined(s, Kept(c, n, items, s, kept, fuel))
    decreases fuel, n, 0, |items|
  {
    if items != [] {
      var t := s.(frames := Rebind(s.frames, n.name, items[0]));
      EvalKeepsScopes(c, n.pred, t, fuel);
      var r := EvalBool(c, n.pred, t, fuel);
      assert Disciplined(s, r);
      if r.exit.Normal? {
        KeptKeepsScopes(c, n, items[1..], r.s, if r.s.result.b then kept + [items[0]] else kept, fuel);
      }
    }
  }

  lemma {:induction false} ApplyKeepsScopes(c: Tables, n: Node, f: Option<Func>, args: seq<Value>, s: State, fuel: nat)
    requires s.Valid() && n.Call? && (f.None? ==> n.name in c.builtins)
    ensures Disciplined(s, Apply(c, n, f, args, s, fuel))
    decreases fuel, n, 0
  {
    if f.Some? && |f.value.params| <= |args| && fuel > 0 {
      var t := s.(frames := BindAll(s.frames, f.value.params, args));
      BindAllKeeps(s.frames, f.value.params, args);
      forall i | 0 <= i < |s.frames| - 1
        ensures t.frames[i] == s.frames[i]
      {
        assert t.frames[i] == t.frames[..|s.frames| - 1][i];
      }
      EvalKeepsScopes(c, f.value.body, t, fuel - 1);
      CutBack(s, Eval(c, f.value.body, t, fuel - 1));
    }
  }

  // A loop whose body is a block that breaks out leaves the frame of that
  // block there, and what is defined afterwards goes into it.
  lemma FunctionFramesLeak(c: Tables, s: State)
    requires s.Valid()
    ensures var r := Eval(c, While(Literal(Bool(true)), Block(Break)), s, 1);
            r.exit == Normal && r.s.frames == s.frames && r.s.funcs == s.funcs + [map[]] && r.s.early == s.early + 1
  {
    var n := While(Literal(Bool(true)), Block(Break));
    var t := s.Gives(Bool(true));
    var u := t.PushBoth().LeftEarly();
    assert EvalBool(c, n.cond, s, 1) == Run(Normal, t);
    assert Eval(c, n.body, t, 1) == Run(Breaks, u);
    assert u.CutTo(|s.frames|).frames == s.frames;
    assert Rounds(c, n, s, 1, 1) == Run(Normal, u.CutTo(|s.frames|));
  }
}
