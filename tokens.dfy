/** The value types of src/main.rs: the eight-variant token, the four
    domains, the operator weight used by the shunting-yard conversion, and
    the ways the program can panic while processing a statement. */
module Tokens {

  /** A lexical token. `i64` payloads are unbounded integers here and
      `HashSet<i64>` is a mathematical set. */
  datatype Token =
    | Number(n: int)
    | Set(members: set<int>)
    | Plus
    | Multiply
    | LeftMustache
    | RightMustache
    | LeftParentheses
    | RightParentheses

  /** The algebra selected by the innermost enclosing element. */
  datatype Domain = Strings | Algebra | Sets | Boolean

  /** The reasons the program aborts; each stands for an `assert!` or an
      `unwrap()` of `None` in the source. */
  datatype Panic =
    | UnmatchedParentheses  // `assert!(parentheses)` in shunting_yard
    | UnmatchedMustache     // `assert!(mustache)` in shunting_yard
    | EmptyStack            // `pop().unwrap()` on an empty stack in resolve
    | NoDomain              // `domain_stack.last().unwrap()` on an empty stack

  datatype Option<T> = None | Some(value: T)

  /** What a panicking computation returns: its value, or the panic. */
  datatype Result<T> = Ok(value: T) | Err(panic: Panic)

  predicate IsOperator(t: Token) {
    t.Plus? || t.Multiply?
  }

  /** `Token::get_weight`: the binding strength of a token. */
  function GetWeight(t: Token): (w: int)
    ensures 0 <= w <= 2
    ensures w > 0 <==> IsOperator(t)
    ensures w == 2 <==> t == Multiply
  {
    match t
    case Plus => 1
    case Multiply => 2
    case _ => 0
  }

  /** The last element of a non-empty stack (the top of a `Vec`). */
  function Top<T>(s: seq<T>): T
    requires s != []
  {
    s[|s| - 1]
  }

  /** A stack with its top removed. */
  function Rest<T>(s: seq<T>): seq<T>
    requires s != []
  {
    s[..|s| - 1]
  }

  /** The tokens of `s` in reverse order: what draining a stack yields. */
  function Reversed<T>(s: seq<T>): (r: seq<T>)
    ensures |r| == |s|
  {
    if s == [] then [] else [Top(s)] + Reversed(Rest(s))
  }
}
