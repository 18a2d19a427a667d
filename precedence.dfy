/** src/token/mod.rs: a ten-variant token, which adds `Minus` and `Power`
    to the token of src/main.rs, and its precedence table. The module is
    not declared by src/main.rs, so nothing else in the program uses it. */
module TokenPrecedence {
  import Tokens

  datatype Token =
    | Number(n: int)
    | Set(members: set<int>)
    | Plus
    | Minus
    | Multiply
    | Power
    | LeftMustache
    | RightMustache
    | LeftParentheses
    | RightParentheses

  predicate IsOperator(t: Token) {
    t.Plus? || t.Minus? || t.Multiply? || t.Power?
  }

  predicate IsAdditive(t: Token) {
    t.Plus? || t.Minus?
  }

  predicate IsMultiplicative(t: Token) {
    t.Multiply? || t.Power?
  }

  /** `Token::operator_precedence`. Additive operators rank 1,
      multiplicative ones (`Power` included, so it gets no class of its own)
      rank 2, and every other token, whatever its payload, ranks 0. */
  function OperatorPrecedence(t: Token): (p: int)
    ensures p == 0 || p == 1 || p == 2
    ensures p == 1 <==> IsAdditive(t)
    ensures p == 2 <==> IsMultiplicative(t)
    ensures p == 0 <==> !IsOperator(t)
  {
    match t
    case Plus | Minus => 1
    case Multiply | Power => 2
    case _ => 0
  }

  /** Every operator ranks strictly above every non-operator. */
  lemma {:induction false} OperatorsOutrankOperands(op: Token, other: Token)
    requires IsOperator(op) && !IsOperator(other)
    ensures OperatorPrecedence(op) > OperatorPrecedence(other)
  {
  }

  /** Multiplicative operators rank strictly above additive ones, and the two
      members of a class tie (so they associate to the left alike). */
  lemma {:induction false} MultiplicativeOutranksAdditive(mul: Token, add: Token, mul': Token, add': Token)
    requires IsMultiplicative(mul) && IsMultiplicative(mul')
    requires IsAdditive(add) && IsAdditive(add')
    ensures OperatorPrecedence(mul) > OperatorPrecedence(add)
    ensures OperatorPrecedence(mul) == OperatorPrecedence(mul')
    ensures OperatorPrecedence(add) == OperatorPrecedence(add')
  {
  }

  /** The token of src/main.rs as the same-named variant of this one. */
  function Embed(t: Tokens.Token): (e: Token)
    ensures !e.Minus? && !e.Power?
    ensures IsOperator(e) <==> Tokens.IsOperator(t)
  {
    match t
    case Number(n) => Number(n)
    case Set(s) => Set(s)
    case Plus => Plus
    case Multiply => Multiply
    case LeftMustache => LeftMustache
    case RightMustache => RightMustache
    case LeftParentheses => LeftParentheses
    case RightParentheses => RightParentheses
  }

  /** On the eight variants both token types share, the precedence table
      and `get_weight` agree. */
  lemma {:induction false} PrecedenceAgreesWithWeight(t: Tokens.Token)
    ensures OperatorPrecedence(Embed(t)) == Tokens.GetWeight(t)
  {
  }
}
