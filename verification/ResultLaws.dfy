// What programs do: which branch runs, how often, with which bindings, and
// what comes out. The laws tie constructs to the runs of their parts.
module ResultLaws {
  import opened Wrappers
  import opened Scopes
  import opened Evaluation
  import opened ScopeLaws
  import opened FuelLaws

  // The node ends normally in this state, which has the result.
  ghost predicate Yields(c: Tables, n: Node, s: State, fuel: nat, v: Value, t: State)
    requires s.Valid()
  {
    Eval(c, n, s, fuel) == Run(Normal, t) && t.result == v
  }

  function Without(s: State): State {
    s.(result := NoneValue)
  }

  // A statement that does what its part does: no result is left.
  ghost predicate DoneAs(r: Run, part: Run) {
    r == if part.exit.Normal? then Run(Normal, Without(part.s)) else part
  }

  // The state with the frames cut to their number in another one.
  function Back(s: State, to: State): State {
    s.(frames := if |s.frames| <= |to.frames| then s.frames else s.frames[..|to.frames|])
  }

  // The name is bound in the innermost frame.
  function Bound(s: State, name: string, v: Value): State
    requires s.Valid()
  {
    var last := |s.frames| - 1;
    s.(frames := s.frames[last := s.frames[last][name := v]])
  }

  // ----- branches -----

  // The branch that the condition says is run, and the other one is not.
  lemma IfElseRuns(c: Tables, cond: Node, body: Node, otherwise: Node, s: State, fuel: nat, b: bool, t: State)
    requires s.Valid() && Yields(c, cond, s, fuel, Bool(b), t)
    ensures DoneAs(Eval(c, IfElse(cond, body, otherwise), s, fuel), Eval(c, if b then body else otherwise, t, fuel))
    ensures b ==> Eval(c, IfElse(cond, body, otherwise), s, fuel) == Eval(c, If(cond, body), s, fuel)
  {
    assert EvalBool(c, cond, s, fuel) == Run(Normal, t);
  }

  lemma IfRuns(c: Tables, cond: Node, body: Node, s: State, fuel: nat, b: bool, t: State)
    requires s.Valid() && Yields(c, cond, s, fuel, Bool(b), t)
    ensures b ==> DoneAs(Eval(c, If(cond, body), s, fuel), Eval(c, body, t, fuel))
    ensures !b ==> Eval(c, If(cond, body), s, fuel) == Run(Normal, Without(t))
  {
    assert EvalBool(c, cond, s, fuel) == Run(Normal, t);
  }

  // x = 1 in the one branch, x = 2 in the other, with x bound outside.
  lemma BranchesAssign(c: Tables, b: bool, s: State, x: string, v: Value, w: Value, fuel: nat)
    requires s.Valid() && Find(s.frames, x).Some?
    ensures var n := IfElse(Literal(Bool(b)), Assign(x, Literal(v)), Assign(x, Literal(w)));
            var r := Eval(c, n, s, fuel); r.exit == Normal && Find(r.s.frames, x) == Some(if b then v else w)
  {
    var cond, t := Literal(Bool(b)), s.Gives(Bool(b));
    assert Eval(c, cond, s, fuel) == Run(Normal, t);
    IfElseRuns(c, cond, Assign(x, Literal(v)), Assign(x, Literal(w)), s, fuel, b, t);
    var u := if b then v else w;
    assert Yields(c, Literal(u), t, fuel, u, t.Gives(u));
    AssignBinds(c, x, Literal(u), t, fuel, u, t.Gives(u));
  }

  // ----- variables -----

  lemma {:induction false} RebindFinds<V>(frames: seq<Frame<V>>, name: string, v: V, other: string)
    ensures Find(Rebind(frames, name, v), other) == if other == name && Find(frames, name).Some? then Some(v) else Find(frames, other)
  {
    if frames != [] {
      var last := |frames| - 1;
      var r := Rebind(frames, name, v);
      RebindFinds(frames[..last], name, v, other);
      assert r[..last] == if name in frames[last] then frames[..last] else Rebind(frames[..last], name, v);
    }
  }

  // After an assignment the name has the value, and no other name is
  // touched. A name that was bound stays where it is; a new one belongs to the
  // innermost frame.
  lemma AssignBinds(c: Tables, name: string, e: Node, s: State, fuel: nat, v: Value, t: State)
    requires s.Valid() && Yields(c, e, s, fuel, v, t)
    ensures var r := Eval(c, Assign(name, e), s, fuel);
            && r.exit == Normal && r.s.result == v && r.s.funcs == t.funcs && |r.s.frames| == |t.frames|
            && Find(r.s.frames, name) == Some(v) && (forall x :: x != name ==> Find(r.s.frames, x) == Find(t.frames, x))
            && (Find(t.frames, name).None? ==> r.s == Bound(t, name, v))
            && (Find(t.frames, name).Some? ==> forall i :: 0 <= i < |t.frames| ==> r.s.frames[i].Keys == t.frames[i].Keys)
  {
    var after := Eval(c, Assign(name, e), s, fuel).s.frames;
    if Find(t.frames, name).Some? {
      forall x
        ensures Find(after, x) == if x == name then Some(v) else Find(t.frames, x)
      {
        RebindFinds(t.frames, name, v, x);
      }
    } else {
      var last := |t.frames| - 1;
      assert after[..last] == t.frames[..last];
    }
  }

  lemma VariableGives(c: Tables, name: string, s: State, fuel: nat)
    requires s.Valid()
    ensures match Find(s.frames, name)
            case Some(v) => Yields(c, RValue(name), s, fuel, v, s.(result := v))
            case None => Eval(c, RValue(name), s, fuel) == Run(Fails, s)
  {
  }

  // ----- while -----

  // A round, then the loop again; a jump goes back to the frames from before
  // the round. A run that does not end is not spoken of.
  lemma WhileGoesRound(c: Tables, cond: Node, body: Node, s: State, fuel: nat, t: State)
    requires s.Valid() && Yields(c, cond, s, fuel, Bool(true), t) && !Eval(c, While(cond, body), s, fuel).exit.OutOfFuel?
    ensures Back(Eval(c, body, t, fuel).s, s).Valid()
    ensures var r, loop := Eval(c, body, t, fuel), Eval(c, While(cond, body), s, fuel);
            match r.exit
            case Normal => loop == Eval(c, While(cond, body), r.s, fuel)
            case Continues => loop == Eval(c, While(cond, body), Back(r.s, s), fuel)
            case Breaks => loop == Run(Normal, Without(Back(r.s, s)))
            case _ => loop == r
  {
    var n := While(cond, body);
    var r := Eval(c, body, t, fuel);
    assert fuel > 0 && EvalBool(c, cond, s, fuel) == Run(Normal, t);
    if r.exit.Normal? {
      assert Rounds(c, n, s, fuel, fuel) == Rounds(c, n, r.s, fuel, fuel - 1);
      SameForRounds(c, n, r.s, fuel, fuel, fuel - 1, fuel);
    } else if r.exit.Continues? {
      assert Rounds(c, n, s, fuel, fuel) == Rounds(c, n, Back(r.s, s), fuel, fuel - 1);
      SameForRounds(c, n, Back(r.s, s), fuel, fuel, fuel - 1, fuel);
    }
  }

  lemma WhileStops(c: Tables, cond: Node, body: Node, s: State, fuel: nat, t: State)
    requires s.Valid() && Yields(c, cond, s, fuel, Bool(false), t) && fuel > 0
    ensures Eval(c, While(cond, body), s, fuel) == Run(Normal, Without(t))
  {
    assert EvalBool(c, cond, s, fuel) == Run(Normal, t);
    assert Rounds(c, While(cond, body), s, fuel, fuel) == Run(Normal, t);
  }

  // ----- foreach -----

  // The body is run with the item, in the frames of `s`; it goes through, or
  // continues with the next one from the frames that were there.
  ghost predicate GoesThrough(c: Tables, name: string, body: Node, v: Value, s: State, t: State, fuel: nat) {
    && s.Valid() && name in s.frames[|s.frames| - 1]
    && var r := Eval(c, body, Bound(s, name, v), fuel);
      (r.exit.Normal? && t == r.s) || (r.exit.Continues? && t == Back(r.s, s))
  }

  ghost predicate Through(c: Tables, name: string, body: Node, items: seq<Value>, ts: seq<State>, fuel: nat) {
    |ts| == |items| + 1 && forall i :: 0 <= i < |items| ==> GoesThrough(c, name, body, items[i], ts[i], ts[i + 1], fuel)
  }

  lemma {:induction false} EachThrough(c: Tables, n: Node, items: seq<Value>, rest: seq<Value>, ts: seq<State>, fuel: nat)
    requires n.Foreach? && Through(c, n.name, n.body, items, ts, fuel) && ts[0].Valid() && ts[|items|].Valid()
    ensures Each(c, n, items + rest, ts[0], fuel) == Each(c, n, rest, ts[|items|], fuel)
    decreases |items|
  {
    if items == [] {
      assert items + rest == rest;
    } else {
      var s := ts[0];
      var r := Eval(c, n.body, Bound(s, n.name, items[0]), fuel);
      assert GoesThrough(c, n.name, n.body, items[0], s, ts[1], fuel);
      assert (items + rest)[1..] == items[1..] + rest && r.s.CutTo(|s.frames|) == Back(r.s, s);
      forall i | 0 <= i < |items| - 1
        ensures GoesThrough(c, n.name, n.body, items[1..][i], ts[1..][i], ts[1..][i + 1], fuel)
      {
        assert GoesThrough(c, n.name, n.body, items[i + 1], ts[i + 1], ts[i + 1 + 1], fuel);
      }
      assert ts[1].Valid() by {
        EvalKeepsScopes(c, n.body, Bound(s, n.name, items[0]), fuel);
      }
      EachThrough(c, n, items[1..], rest, ts[1..], fuel);
    }
  }

  // The frame of the loop has the name in every round.
  lemma {:induction false} StillThere(c: Tables, name: string, body: Node, items: seq<Value>, ts: seq<State>, fuel: nat, i: nat)
    requires Through(c, name, body, items, ts, fuel) && i < |ts| && ts[0].Valid() && name in ts[0].frames[|ts[0].frames| - 1]
    ensures ts[i].Valid() && |ts[i].frames| == |ts[0].frames| && name in ts[i].frames[|ts[i].frames| - 1]
  {
    if i > 0 {
      StillThere(c, name, body, items, ts, fuel, i - 1);
      var s := ts[i - 1];
      assert GoesThrough(c, name, body, items[i - 1], s, ts[i - 1 + 1], fuel);
      EvalKeepsScopes(c, body, Bound(s, name, items[i - 1]), fuel);
    }
  }

  function Entered(t: State, name: string): State {
    t.(frames := t.frames + [map[name := NilValue]])
  }

  lemma EnteredFrames(t: State, name: string)
    requires t.Valid()
    ensures Bind(t.Push().frames, name, NilValue) == Entered(t, name).frames
  {
  }

  // The body is run for the items in their order, each bound to the name in
  // the frame of the loop.
  lemma ForeachRuns(c: Tables, name: string, e: Node, body: Node, s: State, fuel: nat, items: seq<Value>, t: State, ts: seq<State>)
    requires s.Valid() && Yields(c, e, s, fuel, List(items), t) && Through(c, name, body, items, ts, fuel) && ts[0] == Entered(t, name)
    ensures Eval(c, Foreach(name, e, body), s, fuel) == Run(Normal, Without(Back(ts[|items|], t)))
  {
    var n := Foreach(name, e, body);
    assert EvalList(c, e, s, fuel) == Run(Normal, t);
    EnteredFrames(t, name);
    StillThere(c, name, body, items, ts, fuel, |items|);
    EachThrough(c, n, items, [], ts, fuel);
    assert items + [] == items;
  }

  // A break ends it there, a return or a failure leaves it.
  lemma ForeachLeaves(c: Tables, name: string, e: Node, body: Node, s: State, fuel: nat, items: seq<Value>, t: State, ts: seq<State>, r: Run)
    requires s.Valid() && Yields(c, e, s, fuel, List(items), t) && 0 < |ts| <= |items| && Through(c, name, body, items[..|ts| - 1], ts, fuel)
    requires ts[0] == Entered(t, name) && ts[|ts| - 1].Valid() && r == Eval(c, body, Bound(ts[|ts| - 1], name, items[|ts| - 1]), fuel)
    requires !r.exit.Normal? && !r.exit.Continues?
    ensures Eval(c, Foreach(name, e, body), s, fuel) == if r.exit.Breaks? then Run(Normal, Without(Back(r.s, t))) else r
  {
    var n, k := Foreach(name, e, body), |ts| - 1;
    assert EvalList(c, e, s, fuel) == Run(Normal, t);
    EnteredFrames(t, name);
    StillThere(c, name, body, items[..k], ts, fuel, k);
    EachThrough(c, n, items[..k], items[k..], ts, fuel);
    assert items[..k] + items[k..] == items && items[k..][0] == items[k];
    EvalKeepsScopes(c, body, Bound(ts[k], name, items[k]), fuel);
  }

  // ----- filter -----

  // What a list keeps of its items, in their order.
  function Chosen(items: seq<Value>, flags: seq<bool>): seq<Value>
    requires |flags| == |items|
  {
    if items == [] then [] else (if flags[0] then [items[0]] else []) + Chosen(items[1..], flags[1..])
  }

  ghost predicate Judged(c: Tables, name: string, pred: Node, items: seq<Value>, flags: seq<bool>, ts: seq<State>, fuel: nat) {
    && |flags| == |items| && |ts| == |items| + 1
    && forall i :: 0 <= i < |items| ==>
         ts[i].Valid() && name in ts[i].frames[|ts[i].frames| - 1] && Yields(c, pred, Bound(ts[i], name, items[i]), fuel, Bool(flags[i]), ts[i + 1])
  }

  lemma JudgedTail(c: Tables, name: string, pred: Node, items: seq<Value>, flags: seq<bool>, ts: seq<State>, fuel: nat)
    requires Judged(c, name, pred, items, flags, ts, fuel) && items != []
    ensures Judged(c, name, pred, items[1..], flags[1..], ts[1..], fuel)
    ensures ts[0].Valid() && ts[1].Valid() && name in ts[0].frames[|ts[0].frames| - 1]
    ensures EvalBool(c, pred, Bound(ts[0], name, items[0]), fuel) == Run(Normal, ts[1]) && ts[1].result == Bool(flags[0])
  {
    assert Yields(c, pred, Bound(ts[0], name, items[0]), fuel, Bool(flags[0]), ts[0 + 1]);
    forall i | 0 <= i < |items| - 1
      ensures ts[1..][i].Valid() && name in ts[1..][i].frames[|ts[1..][i].frames| - 1]
      ensures Yields(c, pred, Bound(ts[1..][i], name, items[1..][i]), fuel, Bool(flags[1..][i]), ts[1..][i + 1])
    {
      assert Yields(c, pred, Bound(ts[i + 1], name, items[i + 1]), fuel, Bool(flags[i + 1]), ts[i + 1 + 1]);
    }
  }

  lemma {:induction false} KeptIsChosen(c: Tables, n: Node, items: seq<Value>, flags: seq<bool>, ts: seq<State>, kept: seq<Value>, fuel: nat)
    requires n.Filter? && Judged(c, n.name, n.pred, items, flags, ts, fuel) && ts[0].Valid()
    ensures Kept(c, n, items, ts[0], kept, fuel) == Run(Normal, ts[|items|].(result := List(kept + Chosen(items, flags))))
    decreases |items|
  {
    hide Eval, EvalBool, Yields;
    if items == [] {
      assert kept + Chosen(items, flags) == kept;
    } else {
      JudgedTail(c, n.name, n.pred, items, flags, ts, fuel);
      FoundOnTop(ts[0].frames, n.name, items[0]);
      var more := if flags[0] then kept + [items[0]] else kept;
      assert more + Chosen(items[1..], flags[1..]) == kept + Chosen(items, flags);
      KeptIsChosen(c, n, items[1..], flags[1..], ts[1..], more, fuel);
    }
  }

  lemma {:induction false} StillJudged(c: Tables, name: string, pred: Node, items: seq<Value>, flags: seq<bool>, ts: seq<State>, fuel: nat, i: nat)
    requires Judged(c, name, pred, items, flags, ts, fuel) && i < |ts| && ts[0].Valid()
    ensures ts[i].Valid() && |ts[i].frames| == |ts[0].frames|
  {
    if i > 0 {
      StillJudged(c, name, pred, items, flags, ts, fuel, i - 1);
      assert Yields(c, pred, Bound(ts[i - 1], name, items[i - 1]), fuel, Bool(flags[i - 1]), ts[i - 1 + 1]);
      EvalKeepsScopes(c, pred, Bound(ts[i - 1], name, items[i - 1]), fuel);
    }
  }

  // Exactly the items for which the predicate gives true, in their order.
  lemma FilterKeeps(c: Tables, name: string, e: Node, pred: Node, s: State, fuel: nat, items: seq<Value>, t: State, flags: seq<bool>, ts: seq<State>)
    requires s.Valid() && Yields(c, e, s, fuel, List(items), t) && Judged(c, name, pred, items, flags, ts, fuel) && ts[0] == Entered(t, name)
    ensures Yields(c, Filter(name, e, pred), s, fuel, List(Chosen(items, flags)), Back(ts[|items|], t).(result := List(Chosen(items, flags))))
  {
    var n := Filter(name, e, pred);
    assert EvalList(c, e, s, fuel) == Run(Normal, t);
    EnteredFrames(t, name);
    StillJudged(c, name, pred, items, flags, ts, fuel, |items|);
    KeptIsChosen(c, n, items, flags, ts, [], fuel);
    assert [] + Chosen(items, flags) == Chosen(items, flags);
  }

  // ----- calls -----

  // The i-th parameter has the i-th argument, and nothing else is bound.
  ghost predicate BindsParams(own: Frame<Value>, params: seq<string>, args: seq<Value>) {
    && |params| <= |args| && (forall x :: x in own <==> x in params)
    && forall i :: 0 <= i < |params| ==> own[params[i]] == args[i]
  }

  ghost predicate Distinct(params: seq<string>) {
    forall i, j :: 0 <= i < j < |params| ==> params[i] != params[j]
  }

  lemma {:induction false} ParamsBound(frames: seq<Frame<Value>>, params: seq<string>, args: seq<Value>)
    requires frames != [] && |params| <= |args| && Distinct(params)
    ensures var top, r := frames[|frames| - 1], BindAll(frames, params, args);
            && r[..|frames| - 1] == frames[..|frames| - 1]
            && (forall x :: x in r[|r| - 1] <==> x in top || x in params)
            && (forall i :: 0 <= i < |params| ==> params[i] in r[|r| - 1] && r[|r| - 1][params[i]] == args[i])
            && (forall x :: x in top && x !in params ==> r[|r| - 1][x] == top[x])
    decreases |params|
  {
    if params != [] {
      ParamsBound(Bind(frames, params[0], args[0]), params[1..], args[1..]);
      assert params == [params[0]] + params[1..] && params[0] !in params[1..];
    }
  }

  lemma OwnFrame(frames: seq<Frame<Value>>, params: seq<string>, args: seq<Value>) returns (own: Frame<Value>)
    requires |params| <= |args| && Distinct(params)
    ensures BindsParams(own, params, args) && BindAll(frames + [map[]], params, args) == frames + [own]
  {
    var pushed := frames + [map[]];
    var all := BindAll(pushed, params, args);
    ParamsBound(pushed, params, args);
    own := all[|frames|];
    assert all == all[..|frames|] + [own] && pushed[..|frames|] == frames;
  }

  // A function is run in a frame of its own, on top of those of the caller;
  // what it returns, or else its last result, is that of the call.
  lemma CallRuns(c: Tables, name: string, args: Node, s: State, fuel: nat, f: Func, vs: seq<Value>, t: State) returns (own: Frame<Value>)
    requires s.Valid() && name !in c.builtins && Find(s.funcs, name) == Some(f) && Yields(c, args, s, fuel, List(vs), t)
    requires |f.params| <= |vs| && Distinct(f.params) && fuel > 0
    ensures BindsParams(own, f.params, vs) && t.Valid()
    ensures var r, call := Eval(c, f.body, t.(frames := t.frames + [own]), fuel - 1), Eval(c, Call(name, args), s, fuel);
            match r.exit
            case Returns(v) => call == Run(Normal, Back(r.s, t).(result := v))
            case Normal => call == Run(Normal, Back(r.s, t))
            case _ => call == r
  {
    hide BindAll, BindsParams, Extends, Distinct;
    own := OwnFrame(t.frames, f.params, vs);
    assert EvalList(c, args, s, fuel) == Run(Normal, t);
    InOwnFrameHeight(c, f.body, t, own, fuel - 1);
  }

  lemma InOwnFrameHeight(c: Tables, body: Node, t: State, own: Frame<Value>, fuel: nat)
    requires t.Valid()
    ensures var r := Eval(c, body, t.(frames := t.frames + [own]), fuel);
            |r.s.frames| > |t.frames| && (r.exit.Normal? ==> |r.s.frames| == |t.frames| + 1)
  {
    EvalKeepsScopes(c, body, t.(frames := t.frames + [own]), fuel);
  }

  // A call with too few arguments fails; a built-in function gives the value
  // of its table.
  lemma CallsOtherwise(c: Tables, name: string, args: Node, s: State, fuel: nat, vs: seq<Value>, t: State)
    requires s.Valid() && Yields(c, args, s, fuel, List(vs), t)
    ensures name in c.builtins && c.builtins[name](vs).Some? ==>
              Yields(c, Call(name, args), s, fuel, c.builtins[name](vs).value, t.(result := c.builtins[name](vs).value))
    ensures name !in c.builtins && Find(s.funcs, name).Some? && |vs| < |Find(s.funcs, name).value.params| ==> Eval(c, Call(name, args), s, fuel).exit == Fails
    ensures name !in c.builtins && Find(s.funcs, name).None? ==> Eval(c, Call(name, args), s, fuel) == Run(Fails, s)
  {
    assert EvalList(c, args, s, fuel) == Run(Normal, t);
  }

  // A definition can be found by its name, and nothing else changes.
  lemma FunctionDefines(c: Tables, name: string, params: seq<string>, body: Node, s: State, fuel: nat)
    requires s.Valid()
    ensures var r := Eval(c, Evaluation.Function(name, params, body), s, fuel);
            && r.exit == Normal && r.s.frames == s.frames && Find(r.s.funcs, name) == Some(Func(params, body))
            && forall x :: x != name ==> Find(r.s.funcs, x) == Find(s.funcs, x)
  {
    var last := |s.funcs| - 1;
    assert Bind(s.funcs, name, Func(params, body))[..last] == s.funcs[..last];
  }

  lemma ReturnBrings(c: Tables, e: Node, s: State, fuel: nat, v: Value, t: State)
    requires s.Valid() && Yields(c, e, s, fuel, v, t)
    ensures Eval(c, Return(Some(e)), s, fuel) == Run(Returns(v), t) && Eval(c, Return(None), s, fuel) == Run(Returns(NilValue), s)
  {
  }

  // ----- operators -----

  // The right operand counts, and is looked at, only where the left one does
  // not decide.
  lemma LogicalGives(c: Tables, left: Node, right: Node, s: State, fuel: nat, a: bool, t: State, b: bool, u: State)
    requires s.Valid() && Yields(c, left, s, fuel, Bool(a), t) && Yields(c, right, t, fuel, Bool(b), u)
    ensures Yields(c, And(left, right), s, fuel, Bool(a && b), if a then u else t)
    ensures Yields(c, Or(left, right), s, fuel, Bool(a || b), if a then t else u)
    ensures Yields(c, Not(left), s, fuel, Bool(!a), t.(result := Bool(!a)))
  {
    assert EvalBool(c, left, s, fuel) == Run(Normal, t) && EvalBool(c, right, t, fuel) == Run(Normal, u);
  }

  lemma LeftDecides(c: Tables, left: Node, right: Node, s: State, fuel: nat, a: bool, t: State)
    requires s.Valid() && Yields(c, left, s, fuel, Bool(a), t)
    ensures Eval(c, if a then Or(left, right) else And(left, right), s, fuel) == Run(Normal, t)
  {
    assert EvalBool(c, left, s, fuel) == Run(Normal, t);
  }

  lemma BinaryGives(c: Tables, op: string, left: Node, right: Node, s: State, fuel: nat, a: Value, t: State, b: Value, u: State)
    requires s.Valid() && Yields(c, left, s, fuel, a, t) && Yields(c, right, t, fuel, b, u)
    ensures match c.operators(op, a, b)
            case Some(v) => Yields(c, Binary(op, left, right), s, fuel, v, u.(result := v))
            case None => Eval(c, Binary(op, left, right), s, fuel) == Run(Fails, u)
  {
  }

  // ----- lists and sequences -----

  function AllNodes(nodes: seq<Node>): Nodes {
    if nodes == [] then End else More(nodes[0], AllNodes(nodes[1..]))
  }

  // The nodes are run one after the other.
  ghost predicate InTurn(c: Tables, nodes: seq<Node>, ts: seq<State>, fuel: nat) {
    |ts| == |nodes| + 1 && forall i :: 0 <= i < |nodes| ==> ts[i].Valid() && Eval(c, nodes[i], ts[i], fuel) == Run(Normal, ts[i + 1])
  }

  lemma InTurnTail(c: Tables, nodes: seq<Node>, ts: seq<State>, fuel: nat)
    requires InTurn(c, nodes, ts, fuel) && nodes != []
    ensures InTurn(c, nodes[1..], ts[1..], fuel) && ts[0].Valid() && ts[1].Valid() && Eval(c, nodes[0], ts[0], fuel) == Run(Normal, ts[1])
  {
    assert Eval(c, nodes[0], ts[0], fuel) == Run(Normal, ts[0 + 1]);
    forall i | 0 <= i < |nodes| - 1
      ensures ts[1..][i].Valid() && Eval(c, nodes[1..][i], ts[1..][i], fuel) == Run(Normal, ts[1..][i + 1])
    {
      assert ts[i + 1].Valid() && Eval(c, nodes[i + 1], ts[i + 1], fuel) == Run(Normal, ts[i + 1 + 1]);
    }
  }

  lemma {:induction false} AllInTurn(c: Tables, nodes: seq<Node>, ts: seq<State>, fuel: nat)
    requires InTurn(c, nodes, ts, fuel) && ts[0].Valid()
    ensures EvalAll(c, AllNodes(nodes), ts[0], fuel) == Run(Normal, ts[|nodes|])
    decreases |nodes|
  {
    if nodes != [] {
      InTurnTail(c, nodes, ts, fuel);
      AllInTurn(c, nodes[1..], ts[1..], fuel);
    }
  }

  lemma SequenceRuns(c: Tables, nodes: seq<Node>, ts: seq<State>, fuel: nat)
    requires InTurn(c, nodes, ts, fuel) && ts[0].Valid()
    ensures Eval(c, Sequence(AllNodes(nodes)), ts[0], fuel) == Run(Normal, Without(ts[|nodes|]))
  {
    AllInTurn(c, nodes, ts, fuel);
  }

  ghost predicate HasResults(vs: seq<Value>, ts: seq<State>) {
    |ts| == |vs| + 1 && forall i :: 0 <= i < |vs| ==> vs[i] == ts[i + 1].result
  }

  lemma {:induction false} CollectInTurn(c: Tables, nodes: seq<Node>, ts: seq<State>, items: seq<Value>, vs: seq<Value>, fuel: nat)
    requires InTurn(c, nodes, ts, fuel) && ts[0].Valid() && HasResults(vs, ts)
    ensures Collect(c, AllNodes(nodes), ts[0], items, fuel) == Run(Normal, ts[|nodes|].(result := List(items + vs)))
    decreases |nodes|
  {
    if nodes == [] {
      assert items + vs == items;
    } else {
      InTurnTail(c, nodes, ts, fuel);
      assert vs[0] == ts[0 + 1].result && items + vs == items + [ts[1].result] + vs[1..];
      forall i | 0 <= i < |vs| - 1
        ensures vs[1..][i] == ts[1..][i + 1].result
      {
        assert vs[i + 1] == ts[i + 1 + 1].result;
      }
      hide InTurn, HasResults, Eval;
      CollectInTurn(c, nodes[1..], ts[1..], items + [ts[1].result], vs[1..], fuel);
    }
  }

  // A list has the results of its parts in their order.
  lemma ListGives(c: Tables, nodes: seq<Node>, ts: seq<State>, vs: seq<Value>, fuel: nat)
    requires InTurn(c, nodes, ts, fuel) && ts[0].Valid() && HasResults(vs, ts)
    ensures Yields(c, ListExpr(AllNodes(nodes)), ts[0], fuel, List(vs), ts[|nodes|].(result := List(vs)))
  {
    hide AllNodes, Eval, Collect, HasResults;
    ListIsCollected(c, AllNodes(nodes), ts[0], fuel);
    CollectInTurn(c, nodes, ts, [], vs, fuel);
    assert [] + vs == vs;
  }

  lemma ListIsCollected(c: Tables, all: Nodes, s: State, fuel: nat)
    requires s.Valid()
    ensures Eval(c, ListExpr(all), s, fuel) == Collect(c, all, s, [], fuel)
  {
    hide Collect;
  }

  // A block is run in frames of its own, which are gone if it ends normally.
  lemma BlockRuns(c: Tables, body: Node, s: State, fuel: nat)
    requires s.Valid()
    ensures var r := Eval(c, body, s.(frames := s.frames + [map[]], funcs := s.funcs + [map[]]), fuel);
            var block := Eval(c, Block(body), s, fuel);
            && block.exit == r.exit
            && (r.exit.Normal? ==> block.s.frames == Back(r.s, s).frames && block.s.result == NoneValue && |r.s.funcs| > 1 && block.s.funcs == r.s.funcs[..|r.s.funcs| - 1])
            && (!r.exit.Normal? ==> block.s.frames == r.s.frames && block.s.funcs == r.s.funcs)
  {
    EvalKeepsScopes(c, body, s.PushBoth(), fuel);
  }

  // ----- what comes first -----

  function First(n: Node): Option<Node> {
    match n
    case If(cond, _) => Some(cond)
    case IfElse(cond, _, _) => Some(cond)
    case While(cond, _) => Some(cond)
    case Foreach(_, e, _) => Some(e)
    case Filter(_, e, _) => Some(e)
    case Assign(_, e) => Some(e)
    case Return(Some(e)) => Some(e)
    case And(left, _) => Some(left)
    case Or(left, _) => Some(left)
    case Not(left) => Some(left)
    case Binary(_, left, _) => Some(left)
    case _ => None
  }

  predicate AsksForBool(n: Node) {
    n.If? || n.IfElse? || n.While? || n.And? || n.Or? || n.Not?
  }

  // What does not end normally there ends everything; a condition that is no
  // truth value fails, and so does what is gone through if it is no list.
  lemma FirstMatters(c: Tables, n: Node, s: State, fuel: nat)
    requires s.Valid() && First(n).Some? && fuel > 0
    ensures var r := Eval(c, First(n).value, s, fuel);
            && (!r.exit.Normal? ==> Eval(c, n, s, fuel) == r)
            && (r.exit.Normal? && AsksForBool(n) && !r.s.result.Bool? ==> Eval(c, n, s, fuel) == Run(Fails, r.s))
            && (r.exit.Normal? && (n.Foreach? || n.Filter?) && !r.s.result.List? ==> Eval(c, n, s, fuel) == Run(Fails, r.s))
  {
    var r := Eval(c, First(n).value, s, fuel);
    if n.While? {
      assert EvalBool(c, n.cond, s, fuel) == if r.exit.Normal? && !r.s.result.Bool? then Run(Fails, r.s) else r;
    }
  }
}
