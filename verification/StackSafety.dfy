// Validated code keeps the dependence builder's assertions: the label list
// and the height of the operand stack at an instruction are those of its
// place in the code, whichever way control takes to it, loops included.
module StackSafety {
  import opened Wrappers
  import opened Lowering
  import D = DataFlow
  import opened LoweringCorrect

  // What the nodes of a function are, the shape of the state at each, the
  // function's variables and its number of results.
  datatype Code = Code(inst: Node -> D.Inst, shape: Node -> D.Shape, globals: set<string>, locals: set<string>, results: nat)

  // An enclosing label: where branches to it go, the height of the stack
  // below its operands, and how many operands they bring.
  datatype Frame = Frame(name: string, pointer: nat, target: Node, need: nat, loop: bool)

  function Bindings(ctx: seq<Frame>): seq<Binding> {
    if ctx == [] then [] else [Binding(ctx[0].name, ctx[0].target)] + Bindings(ctx[1..])
  }

  function Labels(ctx: seq<Frame>): seq<D.Label> {
    if ctx == [] then [] else [D.Label(ctx[0].name, ctx[0].pointer)] + Labels(ctx[1..])
  }

  function Base(ctx: seq<Frame>): nat {
    if ctx == [] then 0 else ctx[0].pointer
  }

  ghost function Sh(code: Code, h: nat, ctx: seq<Frame>): D.Shape {
    D.Shape(code.globals, code.locals, h, Labels(ctx))
  }

  function NodeAs(code: Code, n: Node): D.Node {
    D.Node(0, code.inst(n))
  }

  // A state of shape `sh` comes to `n` and has the shape of that place then,
  // and the visit goes through.
  ghost predicate Comes(code: Code, sh: D.Shape, n: Node) {
    D.ShapeOnArrival(NodeAs(code, n), sh, code.results) == Some(code.shape(n)) && Takes(code, n) && !code.inst(n).Start?
  }

  // The assertions of the visit to `n` hold.
  ghost predicate Takes(code: Code, n: Node) {
    D.Accepts(NodeAs(code, n), code.shape(n), code.results)
  }

  ghost predicate Arrives(code: Code, m: Node, n: Node) {
    && D.HasRoom(code.shape(m), D.Pops(code.inst(m)))
    && Comes(code, D.ShapeAfter(NodeAs(code, m), code.shape(m)), n)
  }

  // Instructions without control.
  predicate IsPlain(i: D.Inst) {
    !i.Start? && !i.Unreachable? && !i.Return? && !i.Br? && !i.BrIf? && !i.BrTable? && !i.If?
    && !i.BeginBlock? && !i.BlockEnd? && !i.LoopHead? && !i.LoopEnd?
  }

  // ----- validation -----

  ghost predicate CanBranch(ctx: seq<Frame>, name: string, h: nat)
  {
    exists i :: 0 <= i < |ctx| && ctx[i].name == name && h >= Base(ctx) + ctx[i].need
  }

  ghost predicate Fresh(ctx: seq<Frame>, name: string) {
    forall i :: 0 <= i < |ctx| ==> ctx[i].name != name
  }

  function Inner(name: string, pointer: nat, target: Node, need: nat, loop: bool, ctx: seq<Frame>): seq<Frame> {
    [Frame(name, pointer, target, need, loop)] + ctx
  }

  // Nothing after a branch that is always taken is looked at.
  predicate Stops(e: Expr) {
    e.Return? || e.Unreachable? || e.Br? || e.BrTable?
  }

  // The height after an instruction.
  function Then(code: Code, e: Expr, h: nat): nat {
    match e
    case Plain(id) => Left(h, code.inst(At(id, Part.Inst)))
    case BrIf(id, _) => if h > 0 then h - 1 else 0
    case Block(id, _, _) => h + Results(code, id)
    case If(id, _, _, _) => (if h > 0 then h - 1 else 0) + Results(code, id)
    case _ => h
  }

  function Left(h: nat, i: D.Inst): nat {
    (if h >= D.Pops(i) then h - D.Pops(i) else 0) + D.Pushes(i)
  }

  // The results of a block, or of an if.
  function Results(code: Code, id: nat): nat {
    match code.inst(At(id, End))
    case BlockEnd(_, k) => k
    case _ => 0
  }

  // The code is valid at height `h` under the labels and leaves `need`
  // operands above the innermost label; the shapes of its nodes are those of
  // their places. Loops have no results.
  ghost predicate Valid(code: Code, es: ExprList, ctx: seq<Frame>, h: nat, need: nat) {
    match es
    case Nil => h == Base(ctx) + need
    case Cons(e, rest) =>
      && h >= Base(ctx) && ValidExpr(code, e, ctx, h)
      && (Stops(e) || Valid(code, rest, ctx, Then(code, e, h), need))
  }

  ghost predicate ValidExpr(code: Code, e: Expr, ctx: seq<Frame>, h: nat) {
    match e
    case Plain(id) =>
      var n := At(id, Part.Inst);
      IsPlain(code.inst(n)) && Has(code, n, h, ctx, D.Pops(code.inst(n))) && D.Accepts(NodeAs(code, n), code.shape(n), code.results)
    case Return => h >= Base(ctx) + code.results
    case Unreachable(id) => code.inst(At(id, Part.Inst)).Unreachable? && Has(code, At(id, Part.Inst), h, ctx, 0)
    case Br(id, target) =>
      code.inst(At(id, Part.Inst)).Br? && Has(code, At(id, Part.Inst), h, ctx, 0) && CanBranch(ctx, target, h)
    case BrIf(id, target) =>
      code.inst(At(id, Part.Inst)).BrIf? && Has(code, At(id, Part.Inst), h, ctx, 1) && CanBranch(ctx, target, h - 1)
    case BrTable(id, targets, default) =>
      && code.inst(At(id, Part.Inst)).BrTable? && Has(code, At(id, Part.Inst), h, ctx, 1)
      && CanBranch(ctx, default, h - 1) && forall t :: t in targets ==> CanBranch(ctx, t, h - 1)
    case Block(id, name, body) =>
      && code.inst(At(id, Begin)) == D.BeginBlock(name) && code.inst(At(id, End)) == D.BlockEnd(name, Results(code, id))
      && Has(code, At(id, Begin), h, ctx, 0) && code.shape(At(id, End)) == Sh(code, h + Results(code, id), ctx) && Fresh(ctx, name)
      && Valid(code, body, Inner(name, h, At(id, End), Results(code, id), false, ctx), h, Results(code, id))
    case Loop(id, name, body) =>
      && code.inst(At(id, Part.Inst)) == D.LoopHead(name) && code.inst(At(id, LoopEnd)) == D.LoopEnd(name, 0)
      && code.shape(At(id, Part.Inst)) == Sh(code, h, Inner(name, h, At(id, Part.Inst), 0, true, ctx))
      && code.shape(At(id, LoopEnd)) == Sh(code, h, ctx) && Fresh(ctx, name)
      && Valid(code, body, Inner(name, h, At(id, Part.Inst), 0, true, ctx), h, 0)
    case If(id, name, thn, els) =>
      && code.inst(At(id, Part.Inst)).If? && Has(code, At(id, Part.Inst), h, ctx, 1)
      && code.inst(At(id, ThenBegin)) == D.BeginBlock(name) && code.inst(At(id, ElseBegin)) == D.BeginBlock(name)
      && code.inst(At(id, End)) == D.BlockEnd(name, Results(code, id))
      && Has(code, At(id, ThenBegin), h - 1, ctx, 0) && Has(code, At(id, ElseBegin), h - 1, ctx, 0)
      && code.shape(At(id, End)) == Sh(code, h - 1 + Results(code, id), ctx) && Fresh(ctx, name)
      && var inner := Inner(name, h - 1, At(id, End), Results(code, id), false, ctx);
         Valid(code, thn, inner, h - 1, Results(code, id)) && Valid(code, els, inner, h - 1, Results(code, id))
  }

  // The node has the shape of its place, and so many operands to take.
  ghost predicate Has(code: Code, n: Node, h: nat, ctx: seq<Frame>, operands: nat) {
    h >= Base(ctx) + operands && code.shape(n) == Sh(code, h, ctx)
  }

  // ----- labels -----

  // Labels lie above one another, and their targets are what they are for.
  ghost predicate WfFrames(code: Code, ctx: seq<Frame>) {
    ctx == [] || (WfFrame(code, ctx[0], ctx[1..]) && WfFrames(code, ctx[1..]))
  }

  ghost predicate WfFrame(code: Code, f: Frame, ctx: seq<Frame>) {
    && f.pointer >= Base(ctx) && Fresh(ctx, f.name)
    && if f.loop then f.need == 0 && code.inst(f.target) == D.LoopHead(f.name) && code.shape(f.target) == Sh(code, f.pointer, [f] + ctx)
       else code.inst(f.target) == D.BlockEnd(f.name, f.need) && code.shape(f.target) == Sh(code, f.pointer + f.need, ctx)
  }

  lemma {:induction false} PopFinds(code: Code, ctx: seq<Frame>, i: nat, h: nat)
    requires WfFrames(code, ctx) && i < |ctx| && Base(ctx) <= h
    ensures D.PopLabel(ctx[i].name, h, Labels(ctx)) == Some((ctx[i].pointer, Labels(ctx[i + 1..])))
    ensures D.HasLabel(ctx[i].name, Labels(ctx))
  {
    assert Labels(ctx)[1..] == Labels(ctx[1..]);
    if i == 0 {
      assert Labels(ctx)[0] in Labels(ctx);
    } else {
      assert ctx[1..][i - 1] == ctx[i] && ctx[1..][i..] == ctx[i + 1..];
      PopFinds(code, ctx[1..], i - 1, ctx[0].pointer);
      var l :| l in Labels(ctx[1..]) && l.name == ctx[i].name;
      assert l in Labels(ctx);
    }
  }

  lemma {:induction false} FrameAt(code: Code, ctx: seq<Frame>, i: nat)
    requires WfFrames(code, ctx) && i < |ctx|
    ensures WfFrame(code, ctx[i], ctx[i + 1..])
  {
    if i > 0 {
      assert ctx[1..][i - 1] == ctx[i] && ctx[1..][i..] == ctx[i + 1..];
      FrameAt(code, ctx[1..], i - 1);
    }
  }

  // Leaving by a label of that name.
  lemma Leaves(n: D.Node, name: string, k: nat, sh: D.Shape, results: nat, p: nat, rest: seq<D.Label>)
    requires (n.inst == D.BlockEnd(name, k) || n.inst == D.LoopEnd(name, k)) && D.HasRoom(sh, k)
    requires D.PopLabel(name, sh.height - k, sh.labels) == Some((p, rest))
    ensures D.ShapeOnArrival(n, sh, results) == Some(D.Shape(sh.globals, sh.locals, p + k, rest))
  {
  }

  // Going back to the head of a loop.
  lemma GoesBack(n: D.Node, name: string, sh: D.Shape, results: nat, p: nat, rest: seq<D.Label>)
    requires n.inst == D.LoopHead(name) && D.HasLabel(name, sh.labels) && D.PopLabel(name, sh.height, sh.labels) == Some((p, rest))
    ensures D.ShapeOnArrival(n, sh, results) == Some(D.Shape(sh.globals, sh.locals, p, [D.Label(name, p)] + rest))
  {
  }

  lemma BaseIsLabel(code: Code, h: nat, ctx: seq<Frame>, k: nat)
    requires h >= Base(ctx) + k
    ensures D.HasRoom(Sh(code, h, ctx), k)
  {
  }

  lemma MarkerTakes(code: Code, n: Node, h: nat, ctx: seq<Frame>)
    requires code.inst(n).BlockEnd? || code.inst(n).LoopEnd? || code.inst(n).LoopHead?
    requires code.shape(n) == Sh(code, h, ctx) && h >= Base(ctx)
    ensures Takes(code, n)
  {
    BaseIsLabel(code, h, ctx, 0);
  }

  lemma PointerAbove(code: Code, ctx: seq<Frame>, i: nat)
    requires WfFrames(code, ctx) && i < |ctx|
    ensures ctx[i].pointer >= Base(ctx[i + 1..])
  {
    FrameAt(code, ctx, i);
  }

  // A branch comes to its target with the shape of that place.
  lemma FrameComes(code: Code, ctx: seq<Frame>, i: nat, h: nat)
    requires WfFrames(code, ctx) && i < |ctx| && h >= Base(ctx) + ctx[i].need
    ensures Comes(code, Sh(code, h, ctx), ctx[i].target)
  {
    var f, outer := ctx[i], ctx[i + 1..];
    FrameAt(code, ctx, i);
    if f.loop {
      PopFinds(code, ctx, i, h);
      GoesBack(NodeAs(code, f.target), f.name, Sh(code, h, ctx), code.results, f.pointer, Labels(outer));
      OneLabel(f, outer);
      MarkerTakes(code, f.target, f.pointer, [f] + outer);
    } else {
      LeaveComes(code, ctx, i, h, f.need, f.target);
    }
  }

  lemma LeaveComes(code: Code, ctx: seq<Frame>, i: nat, h: nat, k: nat, n: Node)
    requires WfFrames(code, ctx) && i < |ctx| && h >= Base(ctx) + k
    requires code.inst(n) == D.BlockEnd(ctx[i].name, k) || code.inst(n) == D.LoopEnd(ctx[i].name, k)
    requires code.shape(n) == Sh(code, ctx[i].pointer + k, ctx[i + 1..])
    ensures Comes(code, Sh(code, h, ctx), n)
  {
    hide D.PopLabel, D.ShapeOnArrival, D.Accepts, WfFrames;
    PopFinds(code, ctx, i, h - k);
    PointerAbove(code, ctx, i);
    MarkerTakes(code, n, ctx[i].pointer + k, ctx[i + 1..]);
    BaseIsLabel(code, h, ctx, k);
    Leaves(NodeAs(code, n), ctx[i].name, k, Sh(code, h, ctx), code.results, ctx[i].pointer, Labels(ctx[i + 1..]));
  }

  lemma OneLabel(f: Frame, ctx: seq<Frame>)
    ensures Labels([f] + ctx) == [D.Label(f.name, f.pointer)] + Labels(ctx)
  {
    assert ([f] + ctx)[1..] == ctx;
  }

  // The end of a loop that has been fallen off.
  lemma LoopEndComes(code: Code, ctx: seq<Frame>, i: nat, h: nat, after: Node)
    requires WfFrames(code, ctx) && i < |ctx| && IsLoopEnd(code, ctx, i, after) && h >= Base(ctx)
    ensures Comes(code, Sh(code, h, ctx), after)
  {
    LeaveComes(code, ctx, i, h, 0, after);
  }

  ghost predicate IsLoopEnd(code: Code, ctx: seq<Frame>, i: nat, after: Node)
    requires i < |ctx|
  {
    ctx[i].loop && code.inst(after) == D.LoopEnd(ctx[i].name, 0) && code.shape(after) == Sh(code, ctx[i].pointer, ctx[i + 1..])
  }

  lemma {:induction false} LookupFinds(ctx: seq<Frame>, name: string, i: nat)
    requires i < |ctx| && ctx[i].name == name && forall j :: 0 <= j < i ==> ctx[j].name != name
    ensures Lookup(Bindings(ctx), name) == ctx[i].target
  {
    if i > 0 {
      assert ctx[0].name != name;
      LookupFinds(ctx[1..], name, i - 1);
    }
  }

  lemma {:induction false} NamesDiffer(code: Code, ctx: seq<Frame>, i: nat, j: nat)
    requires WfFrames(code, ctx) && i < j < |ctx|
    ensures ctx[i].name != ctx[j].name
  {
    FrameAt(code, ctx, i);
    assert ctx[i + 1..][j - i - 1] == ctx[j];
  }

  // Wherever a branch goes, it arrives.
  lemma BranchComes(code: Code, ctx: seq<Frame>, name: string, h: nat)
    requires WfFrames(code, ctx) && CanBranch(ctx, name, h)
    ensures Comes(code, Sh(code, h, ctx), Lookup(Bindings(ctx), name)) && IsTarget(ctx, Lookup(Bindings(ctx), name))
  {
    var i :| 0 <= i < |ctx| && ctx[i].name == name && h >= Base(ctx) + ctx[i].need;
    forall j | 0 <= j < i
      ensures ctx[j].name != name
    {
      NamesDiffer(code, ctx, j, i);
    }
    LookupFinds(ctx, name, i);
    FrameComes(code, ctx, i, h);
  }

  ghost predicate IsTarget(ctx: seq<Frame>, n: Node) {
    exists i :: 0 <= i < |ctx| && ctx[i].target == n
  }

  // ----- falling off the end of a list -----

  // `after` is where control goes from the end of a list that leaves `need`
  // operands: the end of an enclosing block or loop, a loop's head, or the
  // return node.
  ghost predicate Falls(code: Code, ctx: seq<Frame>, after: Node, need: nat) {
    FallsToReturn(code, after, need) || exists i :: 0 <= i < |ctx| && FallsTo(code, ctx, i, after, need)
  }

  ghost predicate FallsToReturn(code: Code, after: Node, need: nat) {
    after == ReturnNode && code.inst(after).Return? && code.shape(after) == Sh(code, need, []) && need == code.results <= 1
  }

  ghost predicate FallsTo(code: Code, ctx: seq<Frame>, i: nat, after: Node, need: nat)
    requires i < |ctx|
  {
    need == ctx[i].need && (after == ctx[i].target || IsLoopEnd(code, ctx, i, after))
  }

  lemma NoNeed(code: Code, ctx: seq<Frame>, i: nat)
    requires WfFrames(code, ctx) && i < |ctx| && ctx[i].loop
    ensures ctx[i].need == 0
  {
    FrameAt(code, ctx, i);
  }

  lemma ReturnComes(code: Code, h: nat, ctx: seq<Frame>)
    requires h >= Base(ctx) + code.results
    requires code.inst(ReturnNode).Return? && code.shape(ReturnNode) == Sh(code, code.results, []) && code.results <= 1
    ensures Comes(code, Sh(code, h, ctx), ReturnNode)
  {
    BaseIsLabel(code, h, ctx, code.results);
  }

  lemma FallsComes(code: Code, ctx: seq<Frame>, after: Node, need: nat)
    requires WfFrames(code, ctx) && Falls(code, ctx, after, need)
    ensures Comes(code, Sh(code, Base(ctx) + need, ctx), after)
  {
    if FallsToReturn(code, after, need) {
      ReturnComes(code, Base(ctx) + need, ctx);
    } else {
      var i: nat :| i < |ctx| && FallsTo(code, ctx, i, after, need);
      FallsToComes(code, ctx, i, after, need);
    }
  }

  lemma FallsToComes(code: Code, ctx: seq<Frame>, i: nat, after: Node, need: nat)
    requires WfFrames(code, ctx) && i < |ctx| && FallsTo(code, ctx, i, after, need)
    ensures Comes(code, Sh(code, Base(ctx) + need, ctx), after)
  {
    var h := Base(ctx) + need;
    if after == ctx[i].target {
      FrameComes(code, ctx, i, h);
    } else {
      NoNeed(code, ctx, i);
      LoopEndComes(code, ctx, i, h, after);
    }
  }

  lemma FallsFurther(code: Code, f: Frame, ctx: seq<Frame>, after: Node, need: nat)
    requires Falls(code, ctx, after, need)
    ensures Falls(code, [f] + ctx, after, need)
  {
    if !FallsToReturn(code, after, need) {
      var i: nat :| i < |ctx| && FallsTo(code, ctx, i, after, need);
      assert ([f] + ctx)[i + 1] == ctx[i] && ([f] + ctx)[i + 2..] == ctx[i + 1..];
      assert FallsTo(code, [f] + ctx, i + 1, after, need);
    }
  }
}
