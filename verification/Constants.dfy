// The constants of instructions and edges as bits, and their text
// (src/utils.h). Floating-point constants are not part of this model.
module Constants {
  import opened CsvText

  type Bits32 = n: nat | n < 0x1_0000_0000
  type Bits64 = n: nat | n < 0x1_0000_0000_0000_0000

  datatype Constant = I32(u32: Bits32) | I64(u64: Bits64)

  // The field of the union that is 32 bits wide.
  function LowBits(c: Constant): Bits32 {
    match c
    case I32(bits) => bits
    case I64(bits) => bits % 0x1_0000_0000
  }

  function Signed(bits: nat, half: nat): int {
    if bits < half then bits else bits - 2 * half
  }

  // Utils::writeConst without the type
  function WriteConst(c: Constant): string {
    match c
    case I32(bits) => Decimal(Signed(bits, TWO_TO_31))
    case I64(bits) => Decimal(Signed(bits, TWO_TO_63))
  }

  function ConstType(c: Constant): string {
    if c.I32? then "i32" else "i64"
  }

  // Utils::writeConst with the type: the label of a constant edge.
  function ConstLabel(c: Constant): string {
    ConstType(c) + ".const " + WriteConst(c)
  }

  // The label tells which constant it is.
  lemma LabelsDiffer(c: Constant, d: Constant)
    ensures ConstLabel(c) == ConstLabel(d) ==> c == d
  {
    if ConstLabel(c) == ConstLabel(d) {
      assert ConstLabel(c)[1] == ConstType(c)[1] && ConstLabel(d)[1] == ConstType(d)[1];
      assert ConstLabel(c)[10..] == WriteConst(c) && ConstLabel(d)[10..] == WriteConst(d);
      var bound := if c.I32? then TWO_TO_31 else TWO_TO_63;
      NumberRoundTrip(if c.I32? then Signed(c.u32, bound) else Signed(c.u64, bound), bound);
      NumberRoundTrip(if d.I32? then Signed(d.u32, bound) else Signed(d.u64, bound), bound);
    }
  }
}
