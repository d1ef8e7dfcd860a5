// The reference meaning of structured control: a machine over a label stack,
// after section 4.4.5 of the WebAssembly Core Specification 1.0. Values are
// left out: a conditional or table branch offers each of its outcomes under
// its own tag, so a run is determined by the sequence of tags it takes.
module Machine {
  import opened Wrappers
  import opened Lowering

  // The label stack. Each entry records the structured instruction that was
  // entered and the instructions that come after it.
  datatype Control = Bottom | Label(e: Expr, after: ExprList, outer: Control)

  datatype Config =
    | Run(code: ExprList, ctrl: Control)
    | Arm(e: Expr, taken: bool, after: ExprList, ctrl: Control)  // an `if` reduced to one of its blocks
    | Returned
    | Trapped

  // A branch pops labels up to its target. A block is then left through its
  // end; a loop is executed again. The function body is the outermost label.
  function Jump(target: string, ctrl: Control): Config {
    match ctrl
    case Bottom => Returned
    case Label(Loop(_, name, _), after, outer) =>
      if name == target then Run(Cons(ctrl.e, after), outer) else Jump(target, outer)
    case Label(Block(_, name, _), _, outer) => if name == target then Run(Nil, ctrl) else Jump(target, outer)
    case Label(If(_, name, _, _), _, outer) => if name == target then Run(Nil, ctrl) else Jump(target, outer)
    case Label(_, _, outer) => Jump(target, outer)
  }

  function Only(tag: Tag, expected: Tag, c: Config): Option<Config> {
    if tag == expected then Some(c) else None
  }

  function Step(c: Config, tag: Tag): Option<Config> {
    match c
    case Run(Nil, Bottom) => Only(tag, Next, Returned)
    case Run(Nil, Label(_, after, outer)) => Only(tag, Next, Run(after, outer))
    case Run(Cons(e, rest), ctrl) => StepInto(e, rest, ctrl, tag)
    case Arm(If(_, _, thn, els), taken, after, ctrl) =>
      Only(tag, Next, Run(if taken then thn else els, Label(c.e, after, ctrl)))
    case _ => None
  }

  function StepInto(e: Expr, rest: ExprList, ctrl: Control, tag: Tag): Option<Config> {
    match e
    case Plain(_) => Only(tag, Next, Run(rest, ctrl))
    case Return => Only(tag, Next, Returned)
    case Unreachable(_) => Only(tag, Next, Trapped)
    case Br(_, target) => Only(tag, Next, Jump(target, ctrl))
    case BrIf(_, target) =>
      if tag == True then Some(Jump(target, ctrl)) else Only(tag, False, Run(rest, ctrl))
    case BrTable(_, targets, default) =>
      if tag.Case? && tag.index < |targets| then Some(Jump(targets[tag.index], ctrl))
      else Only(tag, Default, Jump(default, ctrl))
    case Block(_, _, body) => Only(tag, Next, Run(body, Label(e, rest, ctrl)))
    case Loop(_, _, body) => Only(tag, Next, Run(body, Label(e, rest, ctrl)))
    case If(_, _, _, _) =>
      if tag == True then Some(Arm(e, true, rest, ctrl)) else Only(tag, False, Arm(e, false, rest, ctrl))
  }

  // ----- the machine seen through graph nodes -----

  // Where control goes by falling off the end of the current list. A loop
  // in last position has no node of its own for its end.
  function Fall(ctrl: Control): Node {
    match ctrl
    case Bottom => ReturnNode
    case Label(Loop(id, _, _), after, outer) => if after.Cons? then At(id, LoopEnd) else Fall(outer)
    case Label(Block(id, _, _), _, _) => At(id, End)
    case Label(If(id, _, _, _), _, _) => At(id, End)
    case _ => ReturnNode
  }

  function NodeAt(c: Config): Node {
    match c
    case Run(code, ctrl) => Entry(code, Fall(ctrl))
    case Arm(If(id, _, _, _), taken, _, _) => At(id, if taken then ThenBegin else ElseBegin)
    case Arm(_, _, _, _) => ReturnNode
    case Returned => ReturnNode
    case Trapped => Trap
  }

  // Steps the graph does not show: leaving a loop in last position, leaving
  // the function, and returning.
  predicate Quiet(c: Config) {
    match c
    case Run(Nil, Bottom) => true
    case Run(Nil, Label(Loop(_, _, _), Nil, _)) => true
    case Run(Cons(Return, _), _) => true
    case _ => false
  }

  function Settle(c: Config): (s: Config)
    decreases if c.Run? then 1 else 0, if c.Run? then c.ctrl else Bottom
  {
    if Quiet(c) then Settle(Step(c, Next).value) else c
  }

  // The configuration after a sequence of visible steps, if it can be taken.
  function Exec(c: Config, tags: seq<Tag>): Option<Config>
    decreases |tags|
  {
    if tags == [] then Some(c)
    else
      var next := Step(Settle(c), tags[0]);
      if next.None? then None else Exec(next.value, tags[1..])
  }

  ghost predicate Path(g: set<Edge>, from: Node, tags: seq<Tag>, to: Node)
    decreases |tags|
  {
    if tags == [] then from == to
    else exists mid :: Edge(from, tags[0], mid) in g && Path(g, mid, tags[1..], to)
  }

  lemma SettleStays(c: Config)
    ensures !Quiet(Settle(c)) && NodeAt(Settle(c)) == NodeAt(c)
    decreases if c.Run? then 1 else 0, if c.Run? then c.ctrl else Bottom
  {
    if Quiet(c) {
      SettleStays(Step(c, Next).value);
    }
  }
}
