/** The bitwise `|` and `&` of `i64` that the Boolean domain applies, on
    unbounded integers read as infinite two's-complement bit strings: the
    low bit of `x` is `x % 2` and the remaining bits are those of `x / 2`
    (Dafny's `/` and `%` round toward minus infinity for a positive divisor,
    which is an arithmetic shift). On values that fit in 64 bits this is the
    `i64` operation, which cannot overflow. */
module Bitwise {

  function Abs(x: int): nat {
    if x < 0 then -x else x
  }

  /** Shifting right shrinks every value except 0 and -1, which are fixed. */
  lemma {:induction false} HalfShrinks(x: int)
    ensures Abs(x / 2) <= Abs(x)
    ensures x != 0 && x != -1 ==> Abs(x / 2) < Abs(x)
  {
  }

  /** A value whose bits are all equal: 0 (all clear) or -1 (all set). */
  predicate IsUniform(x: int) {
    x == 0 || x == -1
  }

  function LowBit(x: int): (b: int)
    ensures b == 0 || b == 1
  {
    x % 2
  }

  /** `a | b`. */
  function Or(a: int, b: int): int
    decreases Abs(a) + Abs(b)
  {
    if IsUniform(a) && IsUniform(b) then (if a == -1 || b == -1 then -1 else 0)
    else
      HalfShrinks(a);
      HalfShrinks(b);
      2 * Or(a / 2, b / 2) + (if LowBit(a) == 1 || LowBit(b) == 1 then 1 else 0)
  }

  /** `a & b`. */
  function And(a: int, b: int): int
    decreases Abs(a) + Abs(b)
  {
    if IsUniform(a) && IsUniform(b) then (if a == -1 && b == -1 then -1 else 0)
    else
      HalfShrinks(a);
      HalfShrinks(b);
      2 * And(a / 2, b / 2) + (if LowBit(a) == 1 && LowBit(b) == 1 then 1 else 0)
  }

  /** Bit `i` of `x`, counting from the lowest. */
  function Bit(x: int, i: nat): (b: int)
    ensures b == 0 || b == 1
    decreases i
  {
    if i == 0 then LowBit(x) else Bit(x / 2, i - 1)
  }

  /** `Or` and `And` are the bitwise operations: every bit of the result is
      the disjunction, or the conjunction, of the operands' bits in that
      position. */
  lemma {:induction false} OrAndBitwise(a: int, b: int, i: nat)
    ensures Bit(Or(a, b), i) == (if Bit(a, i) == 1 || Bit(b, i) == 1 then 1 else 0)
    ensures Bit(And(a, b), i) == (if Bit(a, i) == 1 && Bit(b, i) == 1 then 1 else 0)
    decreases i
  {
    if i > 0 {
      OrAndBitwise(a / 2, b / 2, i - 1);
    }
  }

  /** On the values 0 and 1, `|` and `&` are logical disjunction and
      conjunction, which is what the Boolean domain is for. */
  lemma {:induction false} OnTruthValues(a: int, b: int)
    requires a == 0 || a == 1
    requires b == 0 || b == 1
    ensures Or(a, b) == (if a == 1 || b == 1 then 1 else 0)
    ensures And(a, b) == (if a == 1 && b == 1 then 1 else 0)
  {
  }

  /** Both operations are commutative, so the order in which `resolve` pops
      its operands does not matter. */
  lemma {:induction false} Commutative(a: int, b: int)
    ensures Or(a, b) == Or(b, a)
    ensures And(a, b) == And(b, a)
    decreases Abs(a) + Abs(b)
  {
    if !(IsUniform(a) && IsUniform(b)) {
      HalfShrinks(a);
      HalfShrinks(b);
      Commutative(a / 2, b / 2);
    }
  }

  /** On non-negative operands, `a | b` lies between the larger operand and
      the sum, and `a & b` between zero and the smaller operand. */
  lemma {:induction false} NonNegativeBounds(a: int, b: int)
    requires 0 <= a && 0 <= b
    ensures (if a < b then b else a) <= Or(a, b) <= a + b
    ensures 0 <= And(a, b) <= (if a < b then a else b)
    decreases a + b
  {
    if !(IsUniform(a) && IsUniform(b)) {
      NonNegativeBounds(a / 2, b / 2);
    }
  }
}
