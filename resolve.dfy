/** `resolve` of src/main.rs: evaluation of a postfix token sequence with a
    value stack. Algebra and Boolean use an integer stack, Sets a stack of
    sets; an operator pops its right operand `a`, then its left operand `b`,
    and pushes the combination. The result is the top of the stack, and a
    pop from an empty stack panics. */
module Resolve {
  import opened Tokens
  import Bitwise

  /** The scalar meaning of an operator, applied to the right operand `a`
      (popped first) and the left operand `b`: `+` and `*` in Algebra, `|`
      and `&` in Boolean. */
  function Combine(domain: Domain, op: Token, a: int, b: int): int
    requires IsOperator(op)
  {
    if domain == Boolean then (if op == Plus then Bitwise.Or(a, b) else Bitwise.And(a, b))
    else (if op == Plus then a + b else a * b)
  }

  /** The set meaning of an operator: union and intersection. */
  function CombineSets(op: Token, a: set<int>, b: set<int>): set<int>
    requires IsOperator(op)
  {
    if op == Plus then a + b else a * b
  }

  /** Every operation `resolve` applies is commutative, so popping the right
      operand first gives the same value as the textbook left-then-right. */
  lemma {:induction false} CombineCommutes(domain: Domain, op: Token, a: int, b: int, x: set<int>, y: set<int>)
    requires IsOperator(op)
    ensures Combine(domain, op, a, b) == Combine(domain, op, b, a)
    ensures CombineSets(op, x, y) == CombineSets(op, y, x)
  {
    Bitwise.Commutative(a, b);
  }

  /** One token on the integer stack: a number is pushed, an operator pops
      two values and pushes their combination, anything else is skipped. */
  function ScalarStep(domain: Domain, stack: seq<int>, t: Token): Result<seq<int>> {
    match t
    case Number(v) => Ok(stack + [v])
    case Plus | Multiply =>
      if |stack| < 2 then Err(EmptyStack)
      else Ok(Rest(Rest(stack)) + [Combine(domain, t, Top(stack), Top(Rest(stack)))])
    case _ => Ok(stack)
  }

  /** One token on the set stack: a set is pushed, an operator combines the
      two topmost sets, anything else is skipped. */
  function SetStep(stack: seq<set<int>>, t: Token): Result<seq<set<int>>> {
    match t
    case Set(v) => Ok(stack + [v])
    case Plus | Multiply =>
      if |stack| < 2 then Err(EmptyStack)
      else Ok(Rest(Rest(stack)) + [CombineSets(t, Top(stack), Top(Rest(stack)))])
    case _ => Ok(stack)
  }

  function ScalarRun(domain: Domain, stack: seq<int>, tokens: seq<Token>): Result<seq<int>>
    decreases |tokens|
  {
    if tokens == [] then Ok(stack)
    else
      match ScalarStep(domain, stack, tokens[0])
      case Err(p) => Err(p)
      case Ok(stack') => ScalarRun(domain, stack', tokens[1..])
  }

  function SetRun(stack: seq<set<int>>, tokens: seq<Token>): Result<seq<set<int>>>
    decreases |tokens|
  {
    if tokens == [] then Ok(stack)
    else
      match SetStep(stack, tokens[0])
      case Err(p) => Err(p)
      case Ok(stack') => SetRun(stack', tokens[1..])
  }

  /** The value of a postfix sequence: the pair `resolve` returns, an
      integer and a set, of which the domain fills one. The Strings domain
      pushes nothing, so its final pop panics. */
  function ResolveSpec(domain: Domain, tokens: seq<Token>): Result<(int, set<int>)> {
    if domain == Sets then
      match SetRun([], tokens)
      case Err(p) => Err(p)
      case Ok(s) => if s == [] then Err(EmptyStack) else Ok((0, Top(s)))
    else if domain == Strings then Err(EmptyStack)
    else
      match ScalarRun(domain, [], tokens)
      case Err(p) => Err(p)
      case Ok(s) => if s == [] then Err(EmptyStack) else Ok((Top(s), {}))
  }

  /** `resolve`, with the panic of an `unwrap()` on an empty stack as an `Err`. */
  method Resolve(domain: Domain, tokens: seq<Token>) returns (r: Result<(int, set<int>)>)
    ensures r == ResolveSpec(domain, tokens)
  {
    var stack: seq<int> := [];
    var setStack: seq<set<int>> := [];
    if domain == Algebra || domain == Boolean {
      for i := 0 to |tokens|
        invariant ScalarRun(domain, stack, tokens[i..]) == ScalarRun(domain, [], tokens)
      {
        assert tokens[i..][1..] == tokens[i + 1..];
        var token := tokens[i];
        match token {
          case Number(val) =>
            stack := stack + [val];
          case Plus | Multiply =>
            if stack == [] {
              return Err(EmptyStack);
            }
            var a := Top(stack);
            stack := Rest(stack);
            if stack == [] {
              return Err(EmptyStack);
            }
            var b := Top(stack);
            stack := Rest(stack);
            if domain == Algebra {
              stack := stack + [if token == Plus then a + b else a * b];
            } else {
              stack := stack + [if token == Plus then Bitwise.Or(a, b) else Bitwise.And(a, b)];
            }
          case _ =>
        }
      }
      assert tokens[|tokens|..] == [];
    } else if domain == Sets {
      for i := 0 to |tokens|
        invariant SetRun(setStack, tokens[i..]) == SetRun([], tokens)
      {
        assert tokens[i..][1..] == tokens[i + 1..];
        var token := tokens[i];
        match token {
          case Set(inner) =>
            setStack := setStack + [inner];
          case Plus | Multiply =>
            if setStack == [] {
              return Err(EmptyStack);
            }
            var a := Top(setStack);
            setStack := Rest(setStack);
            if setStack == [] {
              return Err(EmptyStack);
            }
            var b := Top(setStack);
            setStack := Rest(setStack);
            setStack := setStack + [if token == Plus then a + b else a * b];
          case _ =>
        }
      }
      assert tokens[|tokens|..] == [];
    }
    if domain == Sets {
      if setStack == [] {
        return Err(EmptyStack);
      }
      r := Ok((0, Top(setStack)));
    } else {
      if stack == [] {
        return Err(EmptyStack);
      }
      r := Ok((Top(stack), {}));
    }
  }

  // ----- Properties -----

  /** The Strings domain always panics: nothing is ever pushed. */
  lemma {:induction false} StringsAlwaysFails(tokens: seq<Token>)
    ensures ResolveSpec(Strings, tokens) == Err(EmptyStack)
  {
  }

  /** The number of values a token adds to the scalar stack: one for a
      number, minus one for an operator, none for anything else. */
  function ScalarEffect(tokens: seq<Token>): int {
    if tokens == [] then 0
    else (if tokens[0].Number? then 1 else if IsOperator(tokens[0]) then -1 else 0) + ScalarEffect(tokens[1..])
  }

  function SetEffect(tokens: seq<Token>): int {
    if tokens == [] then 0
    else (if tokens[0].Set? then 1 else if IsOperator(tokens[0]) then -1 else 0) + SetEffect(tokens[1..])
  }

  /** A successful run moves the stack height by the tokens' net effect:
      one up per value pushed, one down per operator. */
  lemma {:induction false} ScalarRunHeight(domain: Domain, stack: seq<int>, tokens: seq<Token>)
    requires ScalarRun(domain, stack, tokens).Ok?
    ensures |ScalarRun(domain, stack, tokens).value| == |stack| + ScalarEffect(tokens)
    decreases |tokens|
  {
    if tokens != [] {
      ScalarRunHeight(domain, ScalarStep(domain, stack, tokens[0]).value, tokens[1..]);
    }
  }

  lemma {:induction false} SetRunHeight(stack: seq<set<int>>, tokens: seq<Token>)
    requires SetRun(stack, tokens).Ok?
    ensures |SetRun(stack, tokens).value| == |stack| + SetEffect(tokens)
    decreases |tokens|
  {
    if tokens != [] {
      SetRunHeight(SetStep(stack, tokens[0]).value, tokens[1..]);
    }
  }

  /** Evaluation proceeds token by token: evaluating `a + b` is evaluating
      `b` on the stack `a` leaves, and fails if either part fails. */
  lemma {:induction false} ScalarRunAppend(domain: Domain, stack: seq<int>, a: seq<Token>, b: seq<Token>)
    ensures ScalarRun(domain, stack, a + b) ==
      match ScalarRun(domain, stack, a)
      case Err(p) => Err(p)
      case Ok(mid) => ScalarRun(domain, mid, b)
    decreases |a|
  {
    if a == [] {
      assert a + b == b;
    } else {
      assert (a + b)[1..] == a[1..] + b;
      match ScalarStep(domain, stack, a[0])
      case Err(p) =>
      case Ok(stack') => ScalarRunAppend(domain, stack', a[1..], b);
    }
  }

  lemma {:induction false} SetRunAppend(stack: seq<set<int>>, a: seq<Token>, b: seq<Token>)
    ensures SetRun(stack, a + b) ==
      match SetRun(stack, a)
      case Err(p) => Err(p)
      case Ok(mid) => SetRun(mid, b)
    decreases |a|
  {
    if a == [] {
      assert a + b == b;
    } else {
      assert (a + b)[1..] == a[1..] + b;
      match SetStep(stack, a[0])
      case Err(p) =>
      case Ok(stack') => SetRunAppend(stack', a[1..], b);
    }
  }

  /** The tokens the scalar evaluator acts on: numbers and operators. */
  function ScalarTokens(tokens: seq<Token>): (r: seq<Token>)
    ensures forall t :: t in r ==> t.Number? || IsOperator(t)
  {
    if tokens == [] then []
    else (if tokens[0].Number? || IsOperator(tokens[0]) then [tokens[0]] else []) + ScalarTokens(tokens[1..])
  }

  /** The tokens the set evaluator acts on: sets and operators. */
  function SetTokens(tokens: seq<Token>): (r: seq<Token>)
    ensures forall t :: t in r ==> t.Set? || IsOperator(t)
  {
    if tokens == [] then []
    else (if tokens[0].Set? || IsOperator(tokens[0]) then [tokens[0]] else []) + SetTokens(tokens[1..])
  }

  /** Brackets, and operands of the other kind, are skipped: removing them
      changes nothing. */
  lemma {:induction false} ScalarSkipsOthers(domain: Domain, stack: seq<int>, tokens: seq<Token>)
    ensures ScalarRun(domain, stack, tokens) == ScalarRun(domain, stack, ScalarTokens(tokens))
    decreases |tokens|
  {
    if tokens != [] {
      var t := tokens[0];
      var kept := if t.Number? || IsOperator(t) then [t] else [];
      assert ScalarTokens(tokens) == kept + ScalarTokens(tokens[1..]);
      ScalarRunAppend(domain, stack, kept, ScalarTokens(tokens[1..]));
      match ScalarStep(domain, stack, t)
      case Err(p) =>
        assert ScalarRun(domain, stack, kept) == Err(p);
      case Ok(stack') =>
        assert ScalarRun(domain, stack, kept) == Ok(stack') by {
          if kept != [] { assert kept[1..] == []; }
        }
        ScalarSkipsOthers(domain, stack', tokens[1..]);
    }
  }

  lemma {:induction false} SetSkipsOthers(stack: seq<set<int>>, tokens: seq<Token>)
    ensures SetRun(stack, tokens) == SetRun(stack, SetTokens(tokens))
    decreases |tokens|
  {
    if tokens != [] {
      var t := tokens[0];
      var kept := if t.Set? || IsOperator(t) then [t] else [];
      assert SetTokens(tokens) == kept + SetTokens(tokens[1..]);
      SetRunAppend(stack, kept, SetTokens(tokens[1..]));
      match SetStep(stack, t)
      case Err(p) =>
        assert SetRun(stack, kept) == Err(p);
      case Ok(stack') =>
        assert SetRun(stack, kept) == Ok(stack') by {
          if kept != [] { assert kept[1..] == []; }
        }
        SetSkipsOthers(stack', tokens[1..]);
    }
  }

  /** A well-formed postfix sequence leaves exactly one value; a sequence
      with more operands than operators needs is still accepted, with the
      extras discarded. */
  lemma {:induction false} ResolveSucceedsOnPositiveEffect(domain: Domain, tokens: seq<Token>)
    requires domain == Algebra || domain == Boolean
    requires ScalarRun(domain, [], tokens).Ok?
    ensures ResolveSpec(domain, tokens).Ok? <==> ScalarEffect(tokens) >= 1
  {
    ScalarRunHeight(domain, [], tokens);
  }
}
