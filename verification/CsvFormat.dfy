// Nodes and edges as rows of text (src/writers/csv-writer.h,
// src/readers/csv-reader.h).
module CsvFormat {
  import opened Wrappers
  import opened CsvText
  import opened Constants
  import opened CsvEncodings
  import Graphs

  // ----- nodes -----

  datatype Data =
    | Module(name: string)
    | FunctionNode(name: string, index: nat, nargs: nat, nlocals: nat, nresults: nat, isImport: bool, isExport: bool)
    | Variable(varType: string, index: nat, name: string)
    | Simple(nodeType: NodeType)
    | Inst(inst: Inst)

  datatype Inst =
    | SimpleInst(instType: InstType)
    | ConstInst(value: Constant)
    | OpcodeInst(instType: InstType, opcode: string)
    | MemoryInst(instType: InstType, opcode: string, offset: nat)
    | LabelInst(instType: InstType, text: string)
    | CallInst(instType: InstType, nargs: nat, nresults: nat, text: string)
    | BlockInst(instType: InstType, nresults: nat, text: string)
    | IfInst(nresults: nat, hasElse: bool)

  datatype Node = Node(id: nat, data: Data)

  predicate IsSimple(t: NodeType) {
    !t.ModuleType? && !t.FunctionType? && !t.VarNodeType? && !t.InstructionType?
  }

  predicate IsSimpleInst(t: InstType) {
    t.Nop? || t.Unreachable? || t.Return? || t.BrTable? || t.Drop? || t.Select? || t.MemorySize? || t.MemoryGrow?
  }

  predicate HasOpcode(t: InstType) {
    t.Binary? || t.Compare? || t.Convert? || t.Unary?
  }

  predicate HasLabel(t: InstType) {
    t.Br? || t.BrIf? || t.GlobalGet? || t.GlobalSet? || t.LocalGet? || t.LocalSet? || t.LocalTee?
  }

  predicate IsBlock(t: InstType) {
    t.BeginBlock? || t.Block? || t.Loop? || t.EndLoop?
  }

  // The columns of a row. There is no column for isExport of its own: both
  // flags are written under the same name, the export flag last.
  datatype Row = Row(id: string, nodeType: string, name: string, index: string, nargs: string, nlocals: string,
                     nresults: string, isImport: string, varType: string, instType: string, opcode: string,
                     constType: string, constValueI: string, text: string, offset: string, hasElse: string)

  const BLANK := Row("", "", "", "", "", "", "", "", "", "", "", "", "", "", "", "")

  function InstRow(e: Encodings, row: Row, i: Inst): Row {
    match i
    case SimpleInst(t) => row.(instType := e.inst(t))
    case ConstInst(c) => row.(instType := e.inst(Const), constType := e.constType(c), constValueI := e.constant(c))
    case OpcodeInst(t, opcode) => row.(instType := e.inst(t), opcode := opcode)
    case MemoryInst(t, opcode, offset) => row.(instType := e.inst(t), opcode := opcode, offset := e.index(offset))
    case LabelInst(t, text) => row.(instType := e.inst(t), text := text)
    case CallInst(t, nargs, nresults, text) =>
      row.(nargs := e.index(nargs), nresults := e.index(nresults), instType := e.inst(t), text := text)
    case BlockInst(t, nresults, text) => row.(nresults := e.index(nresults), instType := e.inst(t), text := text)
    case IfInst(nresults, hasElse) => row.(nresults := e.index(nresults), instType := e.inst(If), hasElse := e.flag(hasElse))
  }

  function TypeOf(d: Data): NodeType {
    match d
    case Module(_) => ModuleType
    case FunctionNode(_, _, _, _, _, _, _) => FunctionType
    case Variable(_, _, _) => VarNodeType
    case Simple(t) => t
    case Inst(_) => InstructionType
  }

  // The visit methods of the writer.
  function NodeRow(e: Encodings, n: Node): Row {
    var row := BLANK.(id := e.index(n.id), nodeType := e.node(TypeOf(n.data)));
    match n.data
    case Module(name) => row.(name := name)
    case FunctionNode(name, index, nargs, nlocals, nresults, isImport, isExport) =>
      row.(name := name, index := e.index(index), nargs := e.index(nargs), nlocals := e.index(nlocals),
           nresults := e.index(nresults)).(isImport := e.flag(isImport)).(isImport := e.flag(isExport))
    case Variable(varType, index, name) => row.(name := name, index := e.index(index), varType := varType)
    case Simple(_) => row
    case Inst(i) => InstRow(e, row, i)
  }

  // std::replace of commas
  function NoCommas(s: string): (r: string)
    ensures |r| == |s| && forall i :: 0 <= i < |s| ==> r[i] == if s[i] == ',' then '_' else s[i]
  {
    if s == [] then [] else [if s[0] == ',' then '_' else s[0]] + NoCommas(s[1..])
  }

  // writeNode: eighteen columns, the floating-point one always empty here.
  function Fields(r: Row): seq<string> {
    [r.id, r.nodeType, NoCommas(r.name), r.index, r.nargs, r.nlocals, r.nresults, r.isImport, r.isImport, r.varType,
     r.instType, r.opcode, r.constType, r.constValueI, "", NoCommas(r.text), r.offset, r.hasElse]
  }

  // parseNode, with None where it throws or asserts: the id of the row has
  // to be that of the next node made.
  function ParseNode(e: Encodings, next: nat, row: seq<string>): Option<Node> {
    if |row| != 18 then None
    else
      match (e.indexOf(row[0]), e.nodeOf(row[1]))
      case (Some(id), Some(t)) =>
        (match ParseData(e, row, t)
         case Some(data) => if id == next then Some(Node(id, data)) else None
         case None => None)
      case _ => None
  }

  function ParseData(e: Encodings, row: seq<string>, t: NodeType): Option<Data>
    requires |row| == 18
  {
    match t
    case ModuleType => Some(Module(row[2]))
    case FunctionType =>
      (match (e.indexOf(row[3]), e.indexOf(row[4]), e.indexOf(row[5]), e.indexOf(row[6]), e.flagOf(row[7]))
       case (Some(index), Some(nargs), Some(nlocals), Some(nresults), Some(flag)) =>
         Some(FunctionNode(row[2], index, nargs, nlocals, nresults, flag, flag))
       case _ => None)
    case VarNodeType =>
      (match e.indexOf(row[3])
       case Some(index) => Some(Variable(row[9], index, row[2]))
       case None => None)
    case InstructionType =>
      (match e.instOf(row[10])
       case Some(it) =>
         (match ParseInst(e, row, it)
          case Some(i) => Some(Inst(i))
          case None => None)
       case None => None)
    case _ => Some(Simple(t))
  }

  function ParseInst(e: Encodings, row: seq<string>, t: InstType): Option<Inst>
    requires |row| == 18
  {
    if IsSimpleInst(t) then Some(SimpleInst(t))
    else if t.Const? then
      match e.constOf(row[12], row[13])
      case Some(c) => Some(ConstInst(c))
      case None => None
    else if HasOpcode(t) then Some(OpcodeInst(t, row[11]))
    else if t.Load? || t.Store? then
      match e.indexOf(row[16])
      case Some(offset) => Some(MemoryInst(t, row[11], offset))
      case None => None
    else if HasLabel(t) then Some(LabelInst(t, row[15]))
    else if t.Call? || t.CallIndirect? then
      match (e.indexOf(row[4]), e.indexOf(row[6]))
      case (Some(nargs), Some(nresults)) => Some(CallInst(t, nargs, nresults, row[15]))
      case _ => None
    else if IsBlock(t) then
      match e.indexOf(row[6])
      case Some(nresults) => Some(BlockInst(t, nresults, row[15]))
      case None => None
    else
      match (e.indexOf(row[6]), e.flagOf(row[17]))
      case (Some(nresults), Some(hasElse)) => Some(IfInst(nresults, hasElse))
      case _ => None
  }

  // ----- what is read back -----

  ghost predicate WfInst(i: Inst) {
    match i
    case SimpleInst(t) => IsSimpleInst(t)
    case ConstInst(_) => true
    case OpcodeInst(t, opcode) => HasOpcode(t) && Plain(opcode)
    case MemoryInst(t, opcode, offset) => (t.Load? || t.Store?) && Plain(opcode)
    case LabelInst(t, text) => HasLabel(t) && Without(text, '\n')
    case CallInst(t, nargs, nresults, text) => (t.Call? || t.CallIndirect?) && Without(text, '\n')
    case BlockInst(t, nresults, text) => IsBlock(t) && Without(text, '\n')
    case IfInst(nresults, _) => true
  }

  // The nodes that the other builders make: no newline in a name, no comma
  // either in the names of types and opcodes.
  ghost predicate WfNode(n: Node) {
    match n.data
    case Module(name) => Without(name, '\n')
    case FunctionNode(name, _, _, _, _, _, _) => Without(name, '\n')
    case Variable(varType, _, name) => Without(name, '\n') && Plain(varType)
    case Simple(t) => IsSimple(t)
    case Inst(i) => WfInst(i)
  }

  // std::stoi reads what is below 2^31.
  predicate InstFits(i: Inst) {
    match i
    case MemoryInst(_, _, offset) => offset < TWO_TO_31
    case CallInst(_, nargs, nresults, _) => nargs < TWO_TO_31 && nresults < TWO_TO_31
    case BlockInst(_, nresults, _) => nresults < TWO_TO_31
    case IfInst(nresults, _) => nresults < TWO_TO_31
    case _ => true
  }

  predicate Fits(n: Node) {
    && n.id < TWO_TO_31
    && match n.data
       case FunctionNode(_, index, nargs, nlocals, nresults, _, _) =>
         index < TWO_TO_31 && nargs < TWO_TO_31 && nlocals < TWO_TO_31 && nresults < TWO_TO_31
       case Variable(_, index, _) => index < TWO_TO_31
       case Inst(i) => InstFits(i)
       case _ => true
  }

  function InstReadBack(i: Inst): Inst {
    match i
    case LabelInst(t, text) => LabelInst(t, NoCommas(text))
    case CallInst(t, nargs, nresults, text) => CallInst(t, nargs, nresults, NoCommas(text))
    case BlockInst(t, nresults, text) => BlockInst(t, nresults, NoCommas(text))
    case _ => i
  }

  // The same node, but commas in names are underscores and the import flag
  // of a function has become its export flag.
  function ReadBack(n: Node): Node {
    Node(n.id, match n.data
               case Module(name) => Module(NoCommas(name))
               case FunctionNode(name, index, nargs, nlocals, nresults, _, isExport) =>
                 FunctionNode(NoCommas(name), index, nargs, nlocals, nresults, isExport, isExport)
               case Variable(varType, index, name) => Variable(varType, index, NoCommas(name))
               case Simple(t) => Simple(t)
               case Inst(i) => Inst(InstReadBack(i)))
  }

  function InstTypeOf(i: Inst): InstType {
    match i
    case SimpleInst(t) => t
    case ConstInst(_) => Const
    case OpcodeInst(t, _) => t
    case MemoryInst(t, _, _) => t
    case LabelInst(t, _) => t
    case CallInst(t, _, _, _) => t
    case BlockInst(t, _, _) => t
    case IfInst(_, _) => If
  }

  ghost predicate InstReturns(e: Encodings, i: Inst, before: Row) {
    var row := InstRow(e, before, i);
    && row.instType == e.inst(InstTypeOf(i))
    && ParseInst(e, Fields(row), InstTypeOf(i)) == if InstFits(i) then Some(InstReadBack(i)) else None
  }

  lemma TextInstRoundTrip(e: Encodings, i: Inst, before: Row)
    requires e.Lawful() && WfInst(i) && (i.SimpleInst? || i.OpcodeInst? || i.LabelInst?)
    ensures InstReturns(e, i, before)
  {
  }

  lemma ConstInstRoundTrip(e: Encodings, i: Inst, before: Row)
    requires e.Lawful() && WfInst(i) && i.ConstInst?
    ensures InstReturns(e, i, before)
  {
  }

  lemma MemoryInstRoundTrip(e: Encodings, i: Inst, before: Row)
    requires e.Lawful() && WfInst(i) && i.MemoryInst?
    ensures InstReturns(e, i, before)
  {
  }

  lemma CallInstRoundTrip(e: Encodings, i: Inst, before: Row)
    requires e.Lawful() && WfInst(i) && i.CallInst?
    ensures InstReturns(e, i, before)
  {
  }

  lemma BlockInstRoundTrip(e: Encodings, i: Inst, before: Row)
    requires e.Lawful() && WfInst(i) && (i.BlockInst? || i.IfInst?)
    ensures InstReturns(e, i, before)
  {
  }

  lemma InstRoundTrip(e: Encodings, i: Inst, before: Row)
    requires e.Lawful() && WfInst(i)
    ensures InstReturns(e, i, before)
  {
    match i
    case ConstInst(_) => ConstInstRoundTrip(e, i, before);
    case MemoryInst(_, _, _) => MemoryInstRoundTrip(e, i, before);
    case CallInst(_, _, _, _) => CallInstRoundTrip(e, i, before);
    case BlockInst(_, _, _) => BlockInstRoundTrip(e, i, before);
    case IfInst(_, _) => BlockInstRoundTrip(e, i, before);
    case _ => TextInstRoundTrip(e, i, before);
  }

  ghost predicate NodeReturns(e: Encodings, next: nat, n: Node) {
    ParseNode(e, next, Fields(NodeRow(e, n))) == if Fits(n) && n.id == next then Some(ReadBack(n)) else None
  }

  lemma InstNodeRoundTrip(e: Encodings, next: nat, n: Node)
    requires e.Lawful() && WfNode(n) && n.data.Inst?
    ensures NodeReturns(e, next, n)
  {
    InstRoundTrip(e, n.data.inst, BLANK.(id := e.index(n.id), nodeType := e.node(InstructionType)));
  }

  lemma FunctionRoundTrip(e: Encodings, next: nat, n: Node)
    requires e.Lawful() && WfNode(n) && n.data.FunctionNode?
    ensures NodeReturns(e, next, n)
  {
  }

  lemma NodeFieldsRoundTrip(e: Encodings, next: nat, n: Node)
    requires e.Lawful() && WfNode(n)
    ensures NodeReturns(e, next, n)
  {
    match n.data
    case FunctionNode(_, _, _, _, _, _, _) => FunctionRoundTrip(e, next, n);
    case Inst(_) => InstNodeRoundTrip(e, next, n);
    case Module(_) =>
    case Simple(_) =>
    case Variable(_, index, _) =>
  }

  // ----- edges -----

  // The visit methods of the writer and writeEdge; `order` counts the syntax
  // edges of a node.
  function EdgeFields(e: Encodings, x: Graphs.Edge, order: nat): seq<string> {
    var src, dst := e.index(x.src), e.index(x.dst);
    match x
    case Ast(_, _) => [src, dst, e.edge(AST), "", "", "", "", "", e.index(order)]
    case Cfg(_, _, text) => [src, dst, e.edge(CFG), NoCommas(text), "", "", "", "", ""]
    case Pdg(_, _, text, kind) => [src, dst, e.edge(PDG), NoCommas(text), e.pdg(kind), "", "", "", ""]
    case PdgConst(_, _, c) => [src, dst, e.edge(PDG), NoCommas(x.Label()), e.pdg(Graphs.Const), e.constType(c), e.constant(c), "", ""]
    case Cg(_, _) => [src, dst, e.edge(CG), "", "", "", "", "", ""]
  }

  // parseEdge, between the nodes that have been read.
  function ParseEdge(e: Encodings, nodes: seq<Node>, row: seq<string>): Option<Graphs.Edge> {
    if |row| < 8 then None
    else
      match (e.indexOf(row[0]), e.indexOf(row[1]), e.edgeOf(row[2]))
      case (Some(src), Some(dst), Some(t)) =>
        if !IsNode(nodes, src) || !IsNode(nodes, dst) then None
        else
          (match t
           case AST => Some(Graphs.Ast(src, dst))
           case CFG => Some(Graphs.Cfg(src, dst, row[3]))
           case CG => Some(Graphs.Cg(src, dst))
           case PDG =>
             match e.pdgOf(row[4])
             case Some(Const) =>
               (match e.constOf(row[5], row[6])
                case Some(c) => Some(Graphs.PdgConst(src, dst, c))
                case None => None)
             case Some(kind) => Some(Graphs.Pdg(src, dst, row[3], kind))
             case None => None)
      case _ => None
  }

  predicate IsNode(nodes: seq<Node>, n: nat) {
    n < |nodes| && nodes[n].id == n
  }

  ghost predicate WfEdge(x: Graphs.Edge) {
    match x
    case Cfg(_, _, text) => Without(text, '\n')
    case Pdg(_, _, text, _) => Without(text, '\n')
    case _ => true
  }

  function EdgeReadBack(x: Graphs.Edge): Graphs.Edge {
    match x
    case Cfg(src, dst, text) => Graphs.Cfg(src, dst, NoCommas(text))
    case Pdg(src, dst, text, kind) => Graphs.Pdg(src, dst, NoCommas(text), kind)
    case _ => x
  }

  lemma EdgeFieldsRoundTrip(e: Encodings, nodes: seq<Node>, x: Graphs.Edge, order: nat)
    requires e.Lawful() && WfEdge(x) && |nodes| <= TWO_TO_31
    ensures ParseEdge(e, nodes, EdgeFields(e, x, order)) == if IsNode(nodes, x.src) && IsNode(nodes, x.dst) then Some(EdgeReadBack(x)) else None
  {
  }

  lemma EdgeFieldsArePlain(e: Encodings, x: Graphs.Edge, order: nat)
    requires e.Lawful() && WfEdge(x)
    ensures forall i :: 0 <= i < |EdgeFields(e, x, order)| ==> Plain(EdgeFields(e, x, order)[i])
  {
    if x.PdgConst? {
      ConstLabelIsPlain(x.value);
    }
  }

  lemma ConstLabelIsPlain(c: Constant)
    ensures Plain(ConstLabel(c))
  {
    DecimalIsPlain(if c.I32? then Signed(c.u32, TWO_TO_31) else Signed(c.u64, TWO_TO_63));
  }

  ghost predicate PlainRow(r: Row) {
    && Plain(r.id) && Plain(r.nodeType) && Without(r.name, '\n') && Plain(r.index) && Plain(r.nargs) && Plain(r.nlocals)
    && Plain(r.nresults) && Plain(r.isImport) && Plain(r.varType) && Plain(r.instType) && Plain(r.opcode)
    && Plain(r.constType) && Plain(r.constValueI) && Without(r.text, '\n') && Plain(r.offset) && Plain(r.hasElse)
  }

  lemma NodeRowIsPlain(e: Encodings, n: Node)
    requires e.Lawful() && WfNode(n)
    ensures PlainRow(NodeRow(e, n))
  {
    if n.data.Inst? {
      InstRowIsPlain(e, n.data.inst, BLANK.(id := e.index(n.id), nodeType := e.node(InstructionType)));
    }
  }

  lemma InstRowIsPlain(e: Encodings, i: Inst, before: Row)
    requires e.Lawful() && WfInst(i) && PlainRow(before)
    ensures PlainRow(InstRow(e, before, i))
  {
  }

  lemma FieldsArePlain(r: Row)
    requires PlainRow(r)
    ensures forall i :: 0 <= i < 18 ==> Plain(Fields(r)[i])
  {
  }
}
