// What stands in the fields of a row: the names of node and instruction
// types (src/config/enums.def), numbers, flags and constants.
module CsvEncodings {
  import opened Wrappers
  import opened CsvText
  import opened Constants
  import Graphs

  datatype NodeType = ModuleType | FunctionType | VarNodeType | FunctionSignature | Instructions | InstructionType
                    | Parameters | Locals | Results | Else | Trap | Start

  datatype InstType = Nop | Unreachable | Return | BrTable | Drop | Select | MemorySize | MemoryGrow | Const
                    | Binary | Compare | Convert | Unary | Load | Store | Br | BrIf | GlobalGet | GlobalSet
                    | LocalGet | LocalSet | LocalTee | Call | CallIndirect | BeginBlock | Block | Loop | EndLoop | If

  // Text that can stand in a field.
  ghost predicate Plain(s: string) {
    forall i :: 0 <= i < |s| ==> s[i] != ',' && s[i] != '\n'
  }

  function NodeTypeName(t: NodeType): string {
    match t
    case ModuleType => "Module"
    case FunctionType => "Function"
    case VarNodeType => "VarNode"
    case FunctionSignature => "FunctionSignature"
    case Instructions => "Instructions"
    case InstructionType => "Instruction"
    case Parameters => "Parameters"
    case Locals => "Locals"
    case Results => "Results"
    case Else => "Else"
    case Trap => "Trap"
    case Start => "Start"
  }

  function NodeTypeOf(s: string): Option<NodeType> {
    if s == "Module" then Some(ModuleType)
    else if s == "Function" then Some(FunctionType)
    else if s == "VarNode" then Some(VarNodeType)
    else if s == "FunctionSignature" then Some(FunctionSignature)
    else if s == "Instructions" then Some(Instructions)
    else if s == "Instruction" then Some(InstructionType)
    else if s == "Parameters" then Some(Parameters)
    else if s == "Locals" then Some(Locals)
    else if s == "Results" then Some(Results)
    else if s == "Else" then Some(Else)
    else if s == "Trap" then Some(Trap)
    else if s == "Start" then Some(Start)
    else None
  }

  lemma NodeTypeRoundTrip(t: NodeType)
    ensures NodeTypeOf(NodeTypeName(t)) == Some(t) && Plain(NodeTypeName(t))
  {
  }

  function InstTypeName(t: InstType): string {
    match t
    case Nop => "Nop"
    case Unreachable => "Unreachable"
    case Return => "Return"
    case BrTable => "BrTable"
    case Drop => "Drop"
    case Select => "Select"
    case MemorySize => "MemorySize"
    case MemoryGrow => "MemoryGrow"
    case Const => "Const"
    case Binary => "Binary"
    case Compare => "Compare"
    case Convert => "Convert"
    case Unary => "Unary"
    case Load => "Load"
    case Store => "Store"
    case Br => "Br"
    case BrIf => "BrIf"
    case GlobalGet => "GlobalGet"
    case GlobalSet => "GlobalSet"
    case LocalGet => "LocalGet"
    case LocalSet => "LocalSet"
    case LocalTee => "LocalTee"
    case Call => "Call"
    case CallIndirect => "CallIndirect"
    case BeginBlock => "BeginBlock"
    case Block => "Block"
    case Loop => "Loop"
    case EndLoop => "EndLoop"
    case If => "If"
  }

  function InstTypeOf(s: string): Option<InstType> {
    if s == "Nop" then Some(Nop)
    else if s == "Unreachable" then Some(Unreachable)
    else if s == "Return" then Some(Return)
    else if s == "BrTable" then Some(BrTable)
    else if s == "Drop" then Some(Drop)
    else if s == "Select" then Some(Select)
    else if s == "MemorySize" then Some(MemorySize)
    else if s == "MemoryGrow" then Some(MemoryGrow)
    else if s == "Const" then Some(Const)
    else if s == "Binary" then Some(Binary)
    else if s == "Compare" then Some(Compare)
    else if s == "Convert" then Some(Convert)
    else if s == "Unary" then Some(Unary)
    else if s == "Load" then Some(Load)
    else if s == "Store" then Some(Store)
    else LaterInstTypeOf(s)
  }

  function LaterInstTypeOf(s: string): Option<InstType> {
    if s == "Br" then Some(Br)
    else if s == "BrIf" then Some(BrIf)
    else if s == "GlobalGet" then Some(GlobalGet)
    else if s == "GlobalSet" then Some(GlobalSet)
    else if s == "LocalGet" then Some(LocalGet)
    else if s == "LocalSet" then Some(LocalSet)
    else if s == "LocalTee" then Some(LocalTee)
    else if s == "Call" then Some(Call)
    else if s == "CallIndirect" then Some(CallIndirect)
    else if s == "BeginBlock" then Some(BeginBlock)
    else if s == "Block" then Some(Block)
    else if s == "Loop" then Some(Loop)
    else if s == "EndLoop" then Some(EndLoop)
    else if s == "If" then Some(If)
    else None
  }

  lemma InstTypeRoundTrip(t: InstType)
    ensures InstTypeOf(InstTypeName(t)) == Some(t)
  {
    match t
    case Nop =>
    case Unreachable =>
    case Return =>
    case BrTable =>
    case Drop =>
    case Select =>
    case MemorySize =>
    case MemoryGrow =>
    case Const =>
    case Binary =>
    case Compare =>
    case Convert =>
    case Unary =>
    case Load =>
    case Store =>
    case _ => LaterInstTypeRoundTrip(t);
  }

  lemma LaterInstTypeRoundTrip(t: InstType)
    requires !t.Nop? && !t.Unreachable? && !t.Return? && !t.BrTable? && !t.Drop? && !t.Select? && !t.MemorySize? && !t.MemoryGrow?
          && !t.Const? && !t.Binary? && !t.Compare? && !t.Convert? && !t.Unary? && !t.Load? && !t.Store?
    ensures InstTypeOf(InstTypeName(t)) == Some(t)
  {
  }

  lemma InstTypeNameIsPlain(t: InstType)
    ensures Plain(InstTypeName(t))
  {
    match t
    case Nop =>
    case Unreachable =>
    case Return =>
    case BrTable =>
    case Drop =>
    case Select =>
    case MemorySize =>
    case MemoryGrow =>
    case Const =>
    case Binary =>
    case Compare =>
    case Convert =>
    case Unary =>
    case Load =>
    case Store =>
    case _ => LaterInstTypeNameIsPlain(t);
  }

  lemma LaterInstTypeNameIsPlain(t: InstType)
    requires !t.Nop? && !t.Unreachable? && !t.Return? && !t.BrTable? && !t.Drop? && !t.Select? && !t.MemorySize? && !t.MemoryGrow?
          && !t.Const? && !t.Binary? && !t.Compare? && !t.Convert? && !t.Unary? && !t.Load? && !t.Store?
    ensures Plain(InstTypeName(t))
  {
  }

  datatype EdgeType = AST | CFG | PDG | CG

  function EdgeTypeName(t: EdgeType): string {
    match t
    case AST => "AST"
    case CFG => "CFG"
    case PDG => "PDG"
    case CG => "CG"
  }

  function EdgeTypeOf(s: string): Option<EdgeType> {
    if s == "AST" then Some(AST)
    else if s == "CFG" then Some(CFG)
    else if s == "PDG" then Some(PDG)
    else if s == "CG" then Some(CG)
    else None
  }

  function PdgTypeName(t: Graphs.PdgType): string {
    match t
    case Local => "Local"
    case Global => "Global"
    case Function => "Function"
    case Control => "Control"
    case Const => "Const"
  }

  function PdgTypeOf(s: string): Option<Graphs.PdgType> {
    if s == "Local" then Some(Graphs.Local)
    else if s == "Global" then Some(Graphs.Global)
    else if s == "Function" then Some(Graphs.Function)
    else if s == "Control" then Some(Graphs.Control)
    else if s == "Const" then Some(Graphs.Const)
    else None
  }

  lemma EdgeTypesRoundTrip(t: EdgeType, p: Graphs.PdgType)
    ensures EdgeTypeOf(EdgeTypeName(t)) == Some(t) && Plain(EdgeTypeName(t))
    ensures PdgTypeOf(PdgTypeName(p)) == Some(p) && Plain(PdgTypeName(p))
  {
  }

  // ----- numbers, flags and constants -----

  function Flag(b: bool): string {
    if b then Decimal(1) else Decimal(0)
  }

  // Index values are 32 bits wide.
  function Index(s: string): Option<nat> {
    match Parsed(s, TWO_TO_31)
    case Some(v) => Some(v % (2 * TWO_TO_31))
    case None => None
  }

  function FlagOf(s: string): Option<bool> {
    match Parsed(s, TWO_TO_31)
    case Some(v) => Some(v != 0)
    case None => None
  }

  function CreateConst(constType: string, valueI: string): Option<Constant> {
    if constType == "i32" then
      match Parsed(valueI, TWO_TO_31)
      case Some(v) => Some(I32(v % (2 * TWO_TO_31)))
      case None => None
    else if constType == "i64" then
      match Parsed(valueI, TWO_TO_63)
      case Some(v) => Some(I64(v % (2 * TWO_TO_63)))
      case None => None
    else None
  }

  lemma IndexRoundTrip(n: nat)
    ensures Index(Decimal(n)) == if n < TWO_TO_31 then Some(n) else None
  {
    NumberRoundTrip(n, TWO_TO_31);
  }

  lemma FlagRoundTrip(b: bool)
    ensures FlagOf(Flag(b)) == Some(b)
  {
    NumberRoundTrip(if b then 1 else 0, TWO_TO_31);
  }

  lemma ConstRoundTrip(c: Constant)
    ensures CreateConst(ConstType(c), WriteConst(c)) == Some(c)
  {
    hide Parsed, Decimal, Signed;
    match c
    case I32(bits) =>
      NumberRoundTrip(Signed(bits, TWO_TO_31), TWO_TO_31);
      SignedIsBits(bits, TWO_TO_31);
    case I64(bits) =>
      NumberRoundTrip(Signed(bits, TWO_TO_63), TWO_TO_63);
      SignedIsBits(bits, TWO_TO_63);
  }

  lemma SignedIsBits(bits: nat, half: nat)
    requires (half == TWO_TO_31 || half == TWO_TO_63) && bits < 2 * half
    ensures 0 - half <= Signed(bits, half) < half && Signed(bits, half) % (2 * half) == bits
  {
  }

  lemma DecimalIsPlain(n: int)
    ensures Plain(Decimal(n))
  {
  }

  // ----- all of them together -----

  datatype Encodings = Encodings(node: NodeType -> string, nodeOf: string -> Option<NodeType>,
                                 inst: InstType -> string, instOf: string -> Option<InstType>,
                                 edge: EdgeType -> string, edgeOf: string -> Option<EdgeType>,
                                 pdg: Graphs.PdgType -> string, pdgOf: string -> Option<Graphs.PdgType>,
                                 index: nat -> string, indexOf: string -> Option<nat>,
                                 flag: bool -> string, flagOf: string -> Option<bool>,
                                 constType: Constant -> string, constant: Constant -> string,
                                 constOf: (string, string) -> Option<Constant>)
  {
    // Every field can be read back; a number only below 2^31.
    ghost predicate Lawful() {
      && (forall t :: nodeOf(node(t)) == Some(t) && Plain(node(t)))
      && (forall t :: instOf(inst(t)) == Some(t) && Plain(inst(t)))
      && (forall t :: edgeOf(edge(t)) == Some(t) && Plain(edge(t)))
      && (forall t :: pdgOf(pdg(t)) == Some(t) && Plain(pdg(t)))
      && (forall n: nat :: indexOf(index(n)) == (if n < TWO_TO_31 then Some(n) else None) && Plain(index(n)))
      && (forall b :: flagOf(flag(b)) == Some(b) && Plain(flag(b)))
      && (forall c :: constOf(constType(c), constant(c)) == Some(c) && Plain(constType(c)) && Plain(constant(c)))
    }
  }

  const SOURCE: Encodings := Encodings(NodeTypeName, NodeTypeOf, InstTypeName, InstTypeOf, EdgeTypeName, EdgeTypeOf,
                                       PdgTypeName, PdgTypeOf, n => Decimal(n), Index, Flag, FlagOf,
                                       ConstType, WriteConst, CreateConst)

  lemma SourceIsLawful()
    ensures SOURCE.Lawful()
  {
    NodeEncodings();
    InstEncodings();
    EdgeEncodings();
    NumberEncodings();
  }

  lemma NodeEncodings()
    ensures forall t :: SOURCE.nodeOf(SOURCE.node(t)) == Some(t) && Plain(SOURCE.node(t))
  {
    forall t
      ensures SOURCE.nodeOf(SOURCE.node(t)) == Some(t) && Plain(SOURCE.node(t))
    {
      NodeTypeRoundTrip(t);
    }
  }

  lemma EdgeEncodings()
    ensures forall t :: SOURCE.edgeOf(SOURCE.edge(t)) == Some(t) && Plain(SOURCE.edge(t))
    ensures forall t :: SOURCE.pdgOf(SOURCE.pdg(t)) == Some(t) && Plain(SOURCE.pdg(t))
  {
    forall t
      ensures SOURCE.edgeOf(SOURCE.edge(t)) == Some(t) && Plain(SOURCE.edge(t))
    {
      EdgeTypesRoundTrip(t, Graphs.Local);
    }
    forall t
      ensures SOURCE.pdgOf(SOURCE.pdg(t)) == Some(t) && Plain(SOURCE.pdg(t))
    {
      EdgeTypesRoundTrip(AST, t);
    }
  }

  lemma InstEncodings()
    ensures forall t :: SOURCE.instOf(SOURCE.inst(t)) == Some(t) && Plain(SOURCE.inst(t))
  {
    forall t
      ensures SOURCE.instOf(SOURCE.inst(t)) == Some(t) && Plain(SOURCE.inst(t))
    {
      InstTypeRoundTrip(t);
      InstTypeNameIsPlain(t);
    }
  }

  lemma NumberEncodings()
    ensures forall n: nat :: SOURCE.indexOf(SOURCE.index(n)) == (if n < TWO_TO_31 then Some(n) else None) && Plain(SOURCE.index(n))
    ensures forall b :: SOURCE.flagOf(SOURCE.flag(b)) == Some(b) && Plain(SOURCE.flag(b))
    ensures forall c ::
              && SOURCE.constOf(SOURCE.constType(c), SOURCE.constant(c)) == Some(c)
              && Plain(SOURCE.constType(c)) && Plain(SOURCE.constant(c))
  {
    forall n: nat
      ensures SOURCE.indexOf(SOURCE.index(n)) == (if n < TWO_TO_31 then Some(n) else None) && Plain(SOURCE.index(n))
    {
      IndexRoundTrip(n);
      DecimalIsPlain(n);
    }
    forall b
      ensures SOURCE.flagOf(SOURCE.flag(b)) == Some(b) && Plain(SOURCE.flag(b))
    {
      FlagRoundTrip(b);
      DecimalIsPlain(0);
      DecimalIsPlain(1);
    }
    forall c
      ensures SOURCE.constOf(SOURCE.constType(c), SOURCE.constant(c)) == Some(c)
      ensures Plain(SOURCE.constType(c)) && Plain(SOURCE.constant(c))
    {
      ConstRoundTrip(c);
      DecimalIsPlain(if c.I32? then Signed(c.u32, TWO_TO_31) else Signed(c.u64, TWO_TO_63));
    }
  }
}
