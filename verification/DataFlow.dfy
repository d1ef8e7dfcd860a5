// The abstract states of src/pdg-builder.h as values, and what visiting an
// instruction does to them (src/pdg-builder.cc). Sharing between states is
// the business of the classes in ReachDefinitions.dfy.
module DataFlow {
  import opened Wrappers

  // ----- instructions -----

  datatype Inst =
    | Start                                            // the Instructions node
    | Nop | Unreachable | Return | Br | BrIf | BrTable | If
    | Drop | Select | MemorySize | MemoryGrow
    | Const(text: string)
    | Binary | Compare | Convert | Unary | Load | Store
    | GlobalGet(name: string) | GlobalSet(name: string)
    | LocalGet(name: string) | LocalSet(name: string) | LocalTee(name: string)
    | Call(callee: string, nargs: nat, nresults: nat)
    | CallIndirect(table: string, nargs: nat, nresults: nat)
    | BeginBlock(name: string)
    | BlockEnd(name: string, nresults: nat)
    | LoopHead(name: string)
    | LoopEnd(name: string, nresults: nat)

  datatype Node = Node(id: nat, inst: Inst)

  // ----- definitions: which origins a value may come from -----

  datatype PdgType = Local | Global | Function | Constant

  datatype Var = Var(name: string, kind: PdgType, src: Node)

  datatype PdgEdge = PdgEdge(src: Node, dst: Node, name: string, kind: PdgType)

  // A definition maps each origin to the node its value last went through.
  type Def = map<Node, Var>

  // The instructions that introduce a value of their own.
  predicate IsOrigin(n: Node) {
    n.inst.Const? || n.inst.LocalGet? || n.inst.GlobalGet? || IsCall(n)
  }

  predicate IsCall(n: Node) {
    n.inst.Call? || n.inst.CallIndirect?
  }

  function OriginVar(n: Node): Var
    requires IsOrigin(n)
  {
    match n.inst
    case Const(text) => Var(text, Constant, n)
    case LocalGet(name) => Var(name, Local, n)
    case GlobalGet(name) => Var(name, Global, n)
    case Call(callee, _, _) => Var(callee, Function, n)
    case CallIndirect(table, _, _) => Var(table, Function, n)
  }

  // The instruction brings in values of this name and kind.
  predicate Introduces(n: Node, name: string, kind: PdgType) {
    match kind
    case Local => n.inst == LocalGet(name)
    case Global => n.inst == GlobalGet(name)
    case Constant => n.inst == Const(name)
    case Function => (n.inst.Call? && n.inst.callee == name) || (n.inst.CallIndirect? && n.inst.table == name)
  }

  // Exactly these instructions are origins with that name and kind.
  lemma OriginIntroduces(n: Node, name: string, kind: PdgType)
    ensures IsOrigin(n) && OriginVar(n).name == name && OriginVar(n).kind == kind <==> Introduces(n, name, kind)
  {
  }

  // Name and kind are those of the origin.
  ghost predicate WfDef(d: Def) {
    forall k :: k in d ==> IsOrigin(k) && d[k].name == OriginVar(k).name && d[k].kind == OriginVar(k).kind
  }

  function Own(n: Node): Def
    requires IsOrigin(n)
  {
    map[n := OriginVar(n)]
  }

  // std::map::insert keeps the entry that is already there.
  function Union(d: Def, other: Def): Def {
    other + d
  }

  function RemoveConsts(d: Def): Def {
    map k | k in d && d[k].kind != Constant :: d[k]
  }

  // The origins that no visit takes away.
  function Lasting(d: Def): set<Node> {
    set k | k in d && !k.inst.Const?
  }

  // Definition::equals: sources are not compared.
  predicate SameDef(d: Def, other: Def) {
    d.Keys == other.Keys && forall k :: k in d ==> d[k].name == other[k].name && d[k].kind == other[k].kind
  }

  // Definition::clear(node): the values now come through `n`.
  function Through(d: Def, n: Node): Def {
    map k | k in d :: d[k].(src := n)
  }

  function EdgesTo(d: Def, n: Node): set<PdgEdge> {
    set k | k in d :: PdgEdge(d[k].src, n, d[k].name, d[k].kind)
  }

  function EdgesFromAll(ds: seq<Def>, n: Node): set<PdgEdge> {
    if ds == [] then {} else EdgesTo(ds[0], n) + EdgesFromAll(ds[1..], n)
  }

  // ----- states -----

  // A label with the height of the stack where it was pushed.
  datatype Label = Label(name: string, pointer: nat)

  // Both stacks have their top at index 0.
  datatype State = State(globals: map<string, Def>, locals: map<string, Def>, stack: seq<Def>, labels: seq<Label>)

  // All that the assertions of the source look at.
  datatype Shape = Shape(globals: set<string>, locals: set<string>, height: nat, labels: seq<Label>)

  function ShapeOf(s: State): Shape {
    Shape(s.globals.Keys, s.locals.Keys, |s.stack|, s.labels)
  }

  // The state with which a function starts.
  function Initial(globals: set<string>, locals: set<string>): State {
    State(map x | x in globals :: map[], map x | x in locals :: map[], [], [])
  }

  ghost predicate WfState(s: State) {
    && (forall x :: x in s.globals ==> WfDef(s.globals[x]))
    && (forall x :: x in s.locals ==> WfDef(s.locals[x]))
    && (forall i :: 0 <= i < |s.stack| ==> WfDef(s.stack[i]))
  }

  // Operands above the innermost label; None where `stackSize` would wrap.
  function Room(sh: Shape): Option<nat> {
    var base := if sh.labels == [] then 0 else sh.labels[0].pointer;
    if base <= sh.height then Some(sh.height - base) else None
  }

  predicate HasRoom(sh: Shape, n: nat) {
    Room(sh).Some? && Room(sh).value >= n
  }

  // ----- visiting an instruction -----

  // How many operands the visit takes from the stack, and how many it leaves.
  function Pops(i: Inst): nat {
    match i
    case Binary => 2
    case Compare => 2
    case Store => 2
    case Select => 3
    case Call(_, nargs, _) => nargs
    case CallIndirect(_, nargs, _) => nargs
    case BrIf => 1
    case BrTable => 1
    case If => 1
    case Drop => 1
    case MemoryGrow => 1
    case Convert => 1
    case Unary => 1
    case Load => 1
    case GlobalSet(_) => 1
    case LocalSet(_) => 1
    case LocalTee(_) => 1
    case _ => 0
  }

  function Pushes(i: Inst): nat {
    match i
    case Binary => 1
    case Compare => 1
    case Select => 1
    case Call(_, _, nresults) => nresults
    case CallIndirect(_, _, nresults) => nresults
    case MemorySize => 1
    case MemoryGrow => 1
    case Convert => 1
    case Unary => 1
    case Load => 1
    case Const(_) => 1
    case GlobalGet(_) => 1
    case LocalGet(_) => 1
    case LocalTee(_) => 1
    case _ => 0
  }

  // The assertions of the visit methods, and variables that exist. All
  // labels are gone on arrival at the return node.
  predicate Accepts(n: Node, sh: Shape, results: nat) {
    && HasRoom(sh, Pops(n.inst))
    && match n.inst
       case GlobalGet(name) => name in sh.globals
       case GlobalSet(name) => name in sh.globals
       case LocalGet(name) => name in sh.locals
       case LocalSet(name) => name in sh.locals
       case LocalTee(name) => name in sh.locals
       case Call(_, _, nresults) => nresults <= 1
       case CallIndirect(_, nargs, nresults) => nargs >= 1 && nresults <= 1
       case Return => sh.labels == [] && sh.height == results <= 1
       case _ => true
  }

  function ShapeAfter(n: Node, sh: Shape): Shape
    requires HasRoom(sh, Pops(n.inst))
  {
    match n.inst
    case BeginBlock(name) => sh.(labels := [Label(name, sh.height)] + sh.labels)
    case _ => sh.(height := sh.height - Pops(n.inst) + Pushes(n.inst))
  }

  // The value a visit leaves on the stack.
  function Result(n: Node, s: State): Def
    requires |s.stack| >= Pops(n.inst)
    requires n.inst.GlobalGet? ==> n.inst.name in s.globals
    requires n.inst.LocalGet? ==> n.inst.name in s.locals
  {
    match n.inst
    case Const(_) => Own(n)
    case Call(_, _, _) => Own(n)
    case CallIndirect(_, _, _) => Own(n)
    case Binary => Through(RemoveConsts(Union(s.stack[0], s.stack[1])), n)
    case Compare => Through(RemoveConsts(Union(s.stack[0], s.stack[1])), n)
    case Unary => Through(RemoveConsts(s.stack[0]), n)
    case Convert => Through(s.stack[0], n)
    case Select => Union(s.stack[2], s.stack[1])
    case LocalTee(_) => Through(s.stack[0], n)
    case GlobalGet(name) => if s.globals[name] == map[] then Own(n) else Through(s.globals[name], n)
    case LocalGet(name) => if s.locals[name] == map[] then Own(n) else Through(s.locals[name], n)
    case _ => map[]
  }

  // The visit methods take their operands, leave their result, and write the
  // variable or the label that the instruction names.
  function Visit(n: Node, s: State): State
    requires HasRoom(ShapeOf(s), Pops(n.inst))
    requires n.inst.GlobalGet? ==> n.inst.name in s.globals
    requires n.inst.LocalGet? ==> n.inst.name in s.locals
  {
    State(if n.inst.GlobalSet? then Write(s.globals, n, s) else s.globals,
          if n.inst.LocalSet? || n.inst.LocalTee? then Write(s.locals, n, s) else s.locals,
          (if Pushes(n.inst) == 0 then [] else [Result(n, s)]) + s.stack[Pops(n.inst)..],
          if n.inst.BeginBlock? then [Label(n.inst.name, |s.stack|)] + s.labels else s.labels)
  }

  function Write(vars: map<string, Def>, n: Node, s: State): map<string, Def>
    requires n.inst.GlobalSet? || n.inst.LocalSet? || n.inst.LocalTee?
    requires |s.stack| > 0
  {
    vars[n.inst.name := Through(s.stack[0], n)]
  }

  // The definitions whose origins the visit records as edges.
  function Read(n: Node, s: State): seq<Def>
    requires HasRoom(ShapeOf(s), Pops(n.inst))
    requires n.inst.GlobalGet? ==> n.inst.name in s.globals
    requires n.inst.LocalGet? ==> n.inst.name in s.locals
  {
    match n.inst
    case GlobalGet(name) => [s.globals[name]]
    case LocalGet(name) => [s.locals[name]]
    case Binary => [Union(s.stack[0], s.stack[1])]
    case Compare => [Union(s.stack[0], s.stack[1])]
    case Drop => []
    case Select => [s.stack[0]]
    case Return => if |s.stack| > 0 then [s.stack[0]] else []
    case _ => s.stack[..Pops(n.inst)]
  }

  function Recorded(n: Node, s: State): set<PdgEdge>
    requires HasRoom(ShapeOf(s), Pops(n.inst))
    requires n.inst.GlobalGet? ==> n.inst.name in s.globals
    requires n.inst.LocalGet? ==> n.inst.name in s.locals
  {
    EdgesFromAll(Read(n, s), n)
  }

  // ----- arriving at an instruction -----

  // popLabel: drops labels down to and including the first one of that name,
  // and everything above the height it was pushed at.
  function PopLabel(name: string, height: nat, labels: seq<Label>): Option<(nat, seq<Label>)> {
    if labels == [] || labels[0].pointer > height then None
    else if labels[0].name == name then Some((labels[0].pointer, labels[1..]))
    else PopLabel(name, labels[0].pointer, labels[1..])
  }

  predicate HasLabel(name: string, labels: seq<Label>) {
    exists l :: l in labels && l.name == name
  }

  // A state that arrives at a block end, a loop end, a loop head or the
  // return node is brought to the label list of that place; `results` is the
  // number of results of the function. None where the source asserts.
  function ShapeOnArrival(n: Node, sh: Shape, results: nat): Option<Shape> {
    match n.inst
    case BlockEnd(name, k) => Leave(name, k, sh)
    case LoopEnd(name, k) => Leave(name, k, sh)
    case LoopHead(name) =>
      if HasLabel(name, sh.labels) then
        var popped := PopLabel(name, sh.height, sh.labels);
        if popped.None? then None
        else Some(sh.(height := popped.value.0, labels := [Label(name, popped.value.0)] + popped.value.1))
      else Some(sh.(labels := [Label(name, sh.height)] + sh.labels))
    case Return => if HasRoom(sh, results) then Some(sh.(height := results, labels := [])) else None
    case _ => Some(sh)
  }

  function Leave(name: string, k: nat, sh: Shape): Option<Shape> {
    if !HasRoom(sh, k) then None else
    var popped := PopLabel(name, sh.height - k, sh.labels);
    if popped.None? then None else Some(sh.(height := popped.value.0 + k, labels := popped.value.1))
  }

  // How many operands on top of the stack survive the arrival; below them,
  // only those under the label that is reached stay.
  function Kept(n: Node, results: nat): nat {
    match n.inst
    case BlockEnd(_, k) => k
    case LoopEnd(_, k) => k
    case Return => results
    case _ => 0
  }

  lemma PopLabelLowers(name: string, height: nat, labels: seq<Label>)
    ensures PopLabel(name, height, labels).Some? ==> PopLabel(name, height, labels).value.0 <= height
  {
  }

  function Arrive(n: Node, s: State, results: nat): (t: State)
    requires ShapeOnArrival(n, ShapeOf(s), results).Some?
    ensures ShapeOf(t) == ShapeOnArrival(n, ShapeOf(s), results).value
  {
    var sh := ShapeOnArrival(n, ShapeOf(s), results).value;
    var k := Kept(n, results);
    match n.inst
    case BlockEnd(name, _) =>
      PopLabelLowers(name, |s.stack| - k, s.labels);
      s.(stack := s.stack[..k] + s.stack[|s.stack| - (sh.height - k)..], labels := sh.labels)
    case LoopEnd(name, _) =>
      PopLabelLowers(name, |s.stack| - k, s.labels);
      s.(stack := s.stack[..k] + s.stack[|s.stack| - (sh.height - k)..], labels := sh.labels)
    case LoopHead(name) =>
      PopLabelLowers(name, |s.stack|, s.labels);
      s.(stack := s.stack[|s.stack| - sh.height..], labels := sh.labels)
    case Return => s.(stack := s.stack[..k], labels := [])
    case _ => s
  }

  // ----- merging -----

  function UnionMap(m: map<string, Def>, other: map<string, Def>): map<string, Def>
    requires m.Keys == other.Keys
  {
    map x | x in m :: Union(m[x], other[x])
  }

  function UnionStack(ds: seq<Def>, other: seq<Def>): seq<Def>
    requires |ds| == |other|
  {
    seq(|ds|, i requires 0 <= i < |ds| => Union(ds[i], other[i]))
  }

  // ReachDefinition::unionDef, which asserts that stacks and labels agree.
  function UnionState(s: State, other: State): (t: State)
    requires ShapeOf(s) == ShapeOf(other)
    ensures ShapeOf(t) == ShapeOf(s)
  {
    State(UnionMap(s.globals, other.globals), UnionMap(s.locals, other.locals),
          UnionStack(s.stack, other.stack), s.labels)
  }

  // ----- where the origins of a value come from -----

  // Stack slots are counted from the bottom.
  datatype Slot = GlobalSlot(name: string) | LocalSlot(name: string) | StackSlot(index: int)

  predicate HasSlot(s: State, slot: Slot) {
    match slot
    case GlobalSlot(x) => x in s.globals
    case LocalSlot(x) => x in s.locals
    case StackSlot(i) => 0 <= i < |s.stack|
  }

  function At(s: State, slot: Slot): Def
    requires HasSlot(s, slot)
  {
    match slot
    case GlobalSlot(x) => s.globals[x]
    case LocalSlot(x) => s.locals[x]
    case StackSlot(i) => s.stack[|s.stack| - 1 - i]
  }

  // `o` is among the origins that the state has for the slot.
  predicate Has(s: State, slot: Slot, o: Node) {
    HasSlot(s, slot) && o in At(s, slot)
  }

  // The values a visit at stack height `h` carries from slot to slot: a
  // table that says nothing about definitions.
  predicate Feeds(i: Inst, h: nat, from: Slot, to: Slot) {
    var left := h - Pops(i);
    if to.StackSlot? && to.index >= left then to.index < left + Pushes(i) && FeedsResult(i, h, from)
    else match i
      case GlobalSet(x) => from == (if to == GlobalSlot(x) then StackSlot(h - 1) else to)
      case LocalSet(x) => from == (if to == LocalSlot(x) then StackSlot(h - 1) else to)
      case LocalTee(x) => from == (if to == LocalSlot(x) then StackSlot(h - 1) else to)
      case _ => from == to
  }

  predicate FeedsResult(i: Inst, h: nat, from: Slot) {
    match i
    case Binary => from == StackSlot(h - 1) || from == StackSlot(h - 2)
    case Compare => from == StackSlot(h - 1) || from == StackSlot(h - 2)
    case Select => from == StackSlot(h - 2) || from == StackSlot(h - 3)
    case Convert => from == StackSlot(h - 1)
    case Unary => from == StackSlot(h - 1)
    case LocalTee(_) => from == StackSlot(h - 1)
    case GlobalGet(x) => from == GlobalSlot(x)
    case LocalGet(x) => from == LocalSlot(x)
    case _ => false
  }

  // The slots whose origins a visit records as edges into the instruction.
  predicate Records(i: Inst, h: nat, from: Slot) {
    match i
    case GlobalGet(x) => from == GlobalSlot(x)
    case LocalGet(x) => from == LocalSlot(x)
    case Drop => false
    case Select => from == StackSlot(h - 1)
    case Return => h > 0 && from == StackSlot(h - 1)
    case _ => from.StackSlot? && h - Pops(i) <= from.index < h
  }
}
