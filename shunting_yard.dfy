/** `shunting_yard` of src/main.rs: Dijkstra's operator-precedence algorithm
    turning an infix token sequence into postfix order. In the Sets domain
    the digits are not emitted but collected in a pending set, which becomes
    one `Set` token at each matching `}`. */
module ShuntingYard {
  import opened Tokens

  /** The converter's variables between two input tokens: the output vector
      (`rpn_stack`), the working stack (`stack`, top last) and the pending
      set (`set`). */
  datatype State = State(out: seq<Token>, stack: seq<Token>, acc: set<int>)

  /** The tokens the working stack can hold. */
  predicate IsStackable(t: Token) {
    t == Plus || t == Multiply || t == LeftMustache || t == LeftParentheses
  }

  predicate IsCloser(t: Token) {
    t == RightMustache || t == RightParentheses
  }

  /** The loop run for an incoming operator of weight `w`: pop every stacked
      token of weight at least `w` to the output and stop at the first
      lighter one, which stays. */
  function PopOperators(out: seq<Token>, stack: seq<Token>, w: int): (seq<Token>, seq<Token>)
    decreases |stack|
  {
    if stack == [] || GetWeight(Top(stack)) < w then (out, stack)
    else PopOperators(out + [Top(stack)], Rest(stack), w)
  }

  /** The loop run for a closing bracket: pop to the output until `opener` is
      popped, which is discarded; None when the stack runs out first. */
  function PopToOpener(out: seq<Token>, stack: seq<Token>, opener: Token): Option<(seq<Token>, seq<Token>)>
    decreases |stack|
  {
    if stack == [] then None
    else if Top(stack) == opener then Some((out, Rest(stack)))
    else PopToOpener(out + [Top(stack)], Rest(stack), opener)
  }

  /** What one input token does to the converter's variables. */
  function Step(domain: Domain, st: State, t: Token): Result<State> {
    match t
    case Set(v) => Ok(st.(out := st.out + [t]))
    case Number(v) =>
      if domain == Sets then Ok(st.(acc := st.acc + {v})) else Ok(st.(out := st.out + [t]))
    case Plus | Multiply =>
      var (out', stack') := PopOperators(st.out, st.stack, GetWeight(t));
      Ok(State(out', stack' + [t], st.acc))
    case LeftMustache | LeftParentheses => Ok(st.(stack := st.stack + [t]))
    case RightMustache =>
      (match PopToOpener(st.out, st.stack, LeftMustache)
       case None => Err(UnmatchedMustache)
       case Some((out', stack')) => Ok(State(out' + [Set(st.acc)], stack', {})))
    case RightParentheses =>
      (match PopToOpener(st.out, st.stack, LeftParentheses)
       case None => Err(UnmatchedParentheses)
       case Some((out', stack')) => Ok(State(out', stack', st.acc)))
  }

  /** The main loop over the input tokens, from the state `st`. */
  function Run(domain: Domain, st: State, tokens: seq<Token>): Result<State>
    decreases |tokens|
  {
    if tokens == [] then Ok(st)
    else
      match Step(domain, st, tokens[0])
      case Err(p) => Err(p)
      case Ok(st') => Run(domain, st', tokens[1..])
  }

  /** The whole conversion: the main loop from empty variables, then the
      working stack drained onto the output. */
  function Convert(domain: Domain, tokens: seq<Token>): Result<seq<Token>> {
    match Run(domain, State([], [], {}), tokens)
    case Err(p) => Err(p)
    case Ok(st) => Ok(st.out + Reversed(st.stack))
  }

  /** `shunting_yard`, with the panic of a failed `assert!` as an `Err`. */
  method ShuntingYard(domain: Domain, tokens: seq<Token>) returns (r: Result<seq<Token>>)
    ensures r == Convert(domain, tokens)
  {
    var rpnStack: seq<Token> := [];
    var stack: seq<Token> := [];
    var pending: set<int> := {};
    for i := 0 to |tokens|
      invariant Run(domain, State(rpnStack, stack, pending), tokens[i..]) == Run(domain, State([], [], {}), tokens)
    {
      var token := tokens[i];
      ghost var before := State(rpnStack, stack, pending);
      assert tokens[i..][1..] == tokens[i + 1..];
      match token {
        case Set(val) =>
          rpnStack := rpnStack + [Set(val)];
        case Number(val) =>
          if domain == Sets {
            pending := pending + {val};
          } else {
            rpnStack := rpnStack + [token];
          }
        case Plus | Multiply =>
          while stack != []
            invariant PopOperators(rpnStack, stack, GetWeight(token)) == PopOperators(before.out, before.stack, GetWeight(token))
            decreases |stack|
          {
            ghost var whole := stack;
            var o := Top(stack);
            stack := Rest(stack);
            if GetWeight(token) <= GetWeight(o) {
              rpnStack := rpnStack + [o];
            } else {
              stack := stack + [o];
              assert stack == whole;
              break;
            }
          }
          stack := stack + [token];
        case LeftMustache =>
          stack := stack + [token];
        case RightMustache =>
          var mustache := false;
          while stack != []
            invariant PopToOpener(rpnStack, stack, LeftMustache) == PopToOpener(before.out, before.stack, LeftMustache)
            decreases |stack|
          {
            var op := Top(stack);
            stack := Rest(stack);
            if op == LeftMustache {
              mustache := true;
              rpnStack := rpnStack + [Set(pending)];
              pending := {};
              break;
            } else {
              rpnStack := rpnStack + [op];
            }
          }
          if !mustache {
            return Err(UnmatchedMustache);
          }
        case LeftParentheses =>
          stack := stack + [token];
        case RightParentheses =>
          var parentheses := false;
          while stack != []
            invariant PopToOpener(rpnStack, stack, LeftParentheses) == PopToOpener(before.out, before.stack, LeftParentheses)
            decreases |stack|
          {
            var op := Top(stack);
            stack := Rest(stack);
            if op == LeftParentheses {
              parentheses := true;
              break;
            } else {
              rpnStack := rpnStack + [op];
            }
          }
          if !parentheses {
            return Err(UnmatchedParentheses);
          }
      }
      assert Step(domain, before, token) == Ok(State(rpnStack, stack, pending));
    }
    assert tokens[|tokens|..] == [];
    ghost var final := rpnStack + Reversed(stack);
    while stack != []
      invariant rpnStack + Reversed(stack) == final
      decreases |stack|
    {
      var op := Top(stack);
      stack := Rest(stack);
      rpnStack := rpnStack + [op];
    }
    assert rpnStack == final;
    r := Ok(rpnStack);
  }

  // ----- What one loop does to the working stack -----

  /** Every token of `s` has weight at least `w`. */
  predicate AllHeavy(s: seq<Token>, w: int) {
    forall t :: t in s ==> GetWeight(t) >= w
  }

  /** An incoming operator of weight `w` pops exactly the run of stacked
      tokens of weight at least `w` at the top of the stack, in stack order,
      and stops below them at a lighter token (a bracket, or `+` when `w` is
      that of `*`). Equal weights are popped, so equal operators associate
      to the left. */
  lemma {:induction false} PopOperatorsPopsHeavier(out: seq<Token>, stack: seq<Token>, w: int)
    ensures var r := PopOperators(out, stack, w);
      && |r.1| <= |stack|
      && r.1 == stack[..|r.1|]
      && r.0 == out + Reversed(stack[|r.1|..])
      && AllHeavy(stack[|r.1|..], w)
      && (r.1 != [] ==> GetWeight(Top(r.1)) < w)
    decreases |stack|
  {
    if stack == [] || GetWeight(Top(stack)) < w {
      assert stack[|stack|..] == [];
    } else {
      var top, rest := Top(stack), Rest(stack);
      PopOperatorsPopsHeavier(out + [top], rest, w);
      var r := PopOperators(out + [top], rest, w);
      var k := |r.1|;
      assert PopOperators(out, stack, w) == r;
      assert stack[..k] == rest[..k];
      assert stack[k..] == rest[k..] + [top];
      assert Reversed(stack[k..]) == [top] + Reversed(rest[k..]) by {
        assert Top(stack[k..]) == top && Rest(stack[k..]) == rest[k..];
      }
    }
  }

  /** An opener found at depth `k` of `rest` is found at the same depth of
      `rest + [top]`, with `top` popped to the output first. */
  lemma {:induction false} OpenerBelowTop(out: seq<Token>, rest: seq<Token>, top: Token, opener: Token, r: (seq<Token>, seq<Token>))
    requires top != opener
    requires |r.1| < |rest| && r.1 == rest[..|r.1|] && rest[|r.1|] == opener && opener !in rest[|r.1| + 1..]
    requires r.0 == out + [top] + Reversed(rest[|r.1| + 1..])
    ensures var stack := rest + [top];
      && |r.1| < |stack|
      && r.1 == stack[..|r.1|]
      && stack[|r.1|] == opener
      && opener !in stack[|r.1| + 1..]
      && r.0 == out + Reversed(stack[|r.1| + 1..])
  {
    var stack, k := rest + [top], |r.1|;
    assert stack[..k] == rest[..k];
    assert stack[k + 1..] == rest[k + 1..] + [top];
    assert Reversed(stack[k + 1..]) == [top] + Reversed(rest[k + 1..]) by {
      assert Top(stack[k + 1..]) == top && Rest(stack[k + 1..]) == rest[k + 1..];
    }
    assert out + [top] + Reversed(rest[k + 1..]) == out + ([top] + Reversed(rest[k + 1..]));
  }

  /** A closing bracket fails exactly when its opener is nowhere on the
      working stack; otherwise it pops, in stack order, everything above the
      topmost opener, and the opener itself is dropped. */
  lemma {:induction false} PopToOpenerFinds(out: seq<Token>, stack: seq<Token>, opener: Token)
    ensures PopToOpener(out, stack, opener).None? <==> opener !in stack
    ensures PopToOpener(out, stack, opener).Some? ==>
      var r := PopToOpener(out, stack, opener).value;
      && |r.1| < |stack|
      && r.1 == stack[..|r.1|]
      && stack[|r.1|] == opener
      && opener !in stack[|r.1| + 1..]
      && r.0 == out + Reversed(stack[|r.1| + 1..])
    decreases |stack|
  {
    if stack == [] {
    } else if Top(stack) == opener {
      assert stack[|stack|..] == [];
    } else {
      var top, rest := Top(stack), Rest(stack);
      assert stack == rest + [top];
      PopToOpenerFinds(out + [top], rest, opener);
      assert PopToOpener(out, stack, opener) == PopToOpener(out + [top], rest, opener);
      if PopToOpener(out, stack, opener).Some? {
        OpenerBelowTop(out, rest, top, opener, PopToOpener(out, stack, opener).value);
      }
    }
  }

  /** `)` panics exactly when no `(` is on the working stack, and `}` exactly
      when no `{` is; neither closer is ever placed anywhere. */
  lemma {:induction false} ClosersFailWithoutOpener(domain: Domain, st: State)
    ensures Step(domain, st, RightParentheses).Err? <==> LeftParentheses !in st.stack
    ensures Step(domain, st, RightMustache).Err? <==> LeftMustache !in st.stack
  {
    PopToOpenerFinds(st.out, st.stack, LeftParentheses);
    PopToOpenerFinds(st.out, st.stack, LeftMustache);
  }

  // ----- Invariants of the main loop -----

  /** The number of occurrences of `x` in `s`. */
  function Count(s: seq<Token>, x: Token): nat {
    if s == [] then 0 else Count(Rest(s), x) + (if Top(s) == x then 1 else 0)
  }

  /** The payloads of the `Number` tokens of `s`, in order. */
  function Numbers(s: seq<Token>): seq<int> {
    if s == [] then [] else Numbers(Rest(s)) + (if Top(s).Number? then [Top(s).n] else [])
  }

  /** The number of `Set` tokens in `s`. */
  function SetCount(s: seq<Token>): nat {
    if s == [] then 0 else SetCount(Rest(s)) + (if Top(s).Set? then 1 else 0)
  }

  lemma {:induction false} TalliesAppend(a: seq<Token>, b: seq<Token>)
    ensures Numbers(a + b) == Numbers(a) + Numbers(b)
    ensures SetCount(a + b) == SetCount(a) + SetCount(b)
    ensures forall x :: Count(a + b, x) == Count(a, x) + Count(b, x)
  {
    NumbersAppend(a, b);
    SetCountAppend(a, b);
    forall x ensures Count(a + b, x) == Count(a, x) + Count(b, x) {
      CountAppend(a, b, x);
    }
  }

  lemma {:induction false} NumbersAppend(a: seq<Token>, b: seq<Token>)
    ensures Numbers(a + b) == Numbers(a) + Numbers(b)
    decreases |b|
  {
    if b == [] {
      assert a + b == a;
    } else {
      assert Rest(a + b) == a + Rest(b) && Top(a + b) == Top(b);
      NumbersAppend(a, Rest(b));
    }
  }

  lemma {:induction false} SetCountAppend(a: seq<Token>, b: seq<Token>)
    ensures SetCount(a + b) == SetCount(a) + SetCount(b)
    decreases |b|
  {
    if b == [] {
      assert a + b == a;
    } else {
      assert Rest(a + b) == a + Rest(b) && Top(a + b) == Top(b);
      SetCountAppend(a, Rest(b));
    }
  }

  lemma {:induction false} CountAppend(a: seq<Token>, b: seq<Token>, x: Token)
    ensures Count(a + b, x) == Count(a, x) + Count(b, x)
    decreases |b|
  {
    if b == [] {
      assert a + b == a;
    } else {
      assert Rest(a + b) == a + Rest(b) && Top(a + b) == Top(b);
      CountAppend(a, Rest(b), x);
    }
  }


  lemma {:induction false} TalliesOfOne(t: Token)
    ensures Numbers([t]) == (if t.Number? then [t.n] else [])
    ensures SetCount([t]) == (if t.Set? then 1 else 0)
    ensures forall x :: Count([t], x) == (if t == x then 1 else 0)
  {
    assert Rest([t]) == [];
  }

  /** Draining keeps every token and its number of occurrences. */
  lemma {:induction false} ReversedKeepsTokens(s: seq<Token>)
    ensures forall x :: Count(Reversed(s), x) == Count(s, x)
    ensures forall x :: x in Reversed(s) ==> x in s
  {
    if s != [] {
      ReversedKeepsTokens(Rest(s));
      TalliesAppend([Top(s)], Reversed(Rest(s)));
      TalliesOfOne(Top(s));
      assert forall x :: x in Rest(s) ==> x in s;
    }
  }

  /** Stackable tokens are neither numbers nor sets. */
  lemma {:induction false} StackableHasNoOperands(s: seq<Token>)
    requires forall t :: t in s ==> IsStackable(t)
    ensures Numbers(s) == [] && SetCount(s) == 0
  {
    if s != [] {
      assert Top(s) in s;
      assert forall t :: t in Rest(s) ==> t in s;
      StackableHasNoOperands(Rest(s));
    }
  }

  /** Draining a stack of operators and openers onto `out` loses and adds
      no token and adds no operand. */
  lemma {:induction false} Drain(out: seq<Token>, s: seq<Token>)
    requires forall t :: t in s ==> IsStackable(t)
    ensures forall x :: Count(out + Reversed(s), x) == Count(out, x) + Count(s, x)
    ensures forall t :: t in out + Reversed(s) ==> t in out || IsStackable(t)
    ensures Numbers(out + Reversed(s)) == Numbers(out)
    ensures SetCount(out + Reversed(s)) == SetCount(out)
  {
    ReversedKeepsTokens(s);
    TalliesAppend(out, Reversed(s));
    StackableHasNoOperands(Reversed(s));
  }

  /** Moving the stacked tokens above position `k` to the output, topmost
      first, loses and adds no token, and adds no operand. */
  lemma {:induction false} MoveTop(out: seq<Token>, stack: seq<Token>, k: nat)
    requires forall t :: t in stack ==> IsStackable(t)
    requires k <= |stack|
    ensures forall x :: Count(out + Reversed(stack[k..]), x) + Count(stack[..k], x) == Count(out, x) + Count(stack, x)
    ensures forall t :: t in out + Reversed(stack[k..]) ==> t in out || IsStackable(t)
    ensures forall t :: t in stack[..k] ==> IsStackable(t)
    ensures Numbers(out + Reversed(stack[k..])) == Numbers(out)
    ensures SetCount(out + Reversed(stack[k..])) == SetCount(out)
  {
    var low, top := stack[..k], stack[k..];
    assert stack == low + top;
    assert forall t :: t in top ==> t in stack;
    assert forall t :: t in low ==> t in stack;
    Drain(out, top);
    TalliesAppend(low, top);
  }

  /** What holds of the converter's variables from the start on: the working
      stack holds only operators and openers, no closing bracket is ever
      emitted, the Sets domain never emits a `Number`, and elsewhere the
      pending set stays empty. */
  predicate Consistent(domain: Domain, st: State) {
    && (forall t :: t in st.stack ==> IsStackable(t))
    && (forall t :: t in st.out ==> !IsCloser(t))
    && (domain == Sets ==> forall t :: t in st.out ==> !t.Number?)
    && (domain != Sets ==> st.acc == {})
  }

  /** The accounting of one step (or of several): the converter stays
      consistent, every `+` and `*` read sits on the stack or in the output,
      outside the Sets domain the numbers read are emitted in order, one
      `Set` is emitted per `Set` read and per `}`, and each closer read
      takes away one opener of its kind while each opener read adds one. */
  predicate Accounted(domain: Domain, st: State, tokens: seq<Token>, st': State) {
    && Consistent(domain, st')
    && Count(st'.out, Plus) + Count(st'.stack, Plus) == Count(st.out, Plus) + Count(st.stack, Plus) + Count(tokens, Plus)
    && Count(st'.out, Multiply) + Count(st'.stack, Multiply)
       == Count(st.out, Multiply) + Count(st.stack, Multiply) + Count(tokens, Multiply)
    && (domain != Sets ==> Numbers(st'.out) == Numbers(st.out) + Numbers(tokens))
    && SetCount(st'.out) == SetCount(st.out) + SetCount(tokens) + Count(tokens, RightMustache)
    && Count(st'.out, LeftParentheses) + Count(st'.stack, LeftParentheses)
       == Count(st.out, LeftParentheses) + Count(st.stack, LeftParentheses)
          + Count(tokens, LeftParentheses) - Count(tokens, RightParentheses)
    && Count(st'.out, LeftMustache) + Count(st'.stack, LeftMustache)
       == Count(st.out, LeftMustache) + Count(st.stack, LeftMustache)
          + Count(tokens, LeftMustache) - Count(tokens, RightMustache)
  }

  /** Popping the top of the stack to the output and pushing an operator
      keeps the output free of closers (and of numbers in the Sets domain)
      and the stack stackable. */
  lemma {:induction false} PushedConsistent(domain: Domain, out: seq<Token>, stack: seq<Token>, k: nat, t: Token)
    requires forall x :: x in out ==> !IsCloser(x)
    requires domain == Sets ==> forall x :: x in out ==> !x.Number?
    requires forall x :: x in stack ==> IsStackable(x)
    requires k <= |stack| && IsStackable(t)
    ensures forall x :: x in out + Reversed(stack[k..]) ==> !IsCloser(x)
    ensures domain == Sets ==> forall x :: x in out + Reversed(stack[k..]) ==> !x.Number?
    ensures forall x :: x in stack[..k] + [t] ==> IsStackable(x)
  {
    MoveTop(out, stack, k);
    forall x | x in stack[..k] + [t] ensures IsStackable(x) {
      if x != t { assert x in stack[..k]; }
    }
  }

  lemma {:induction false} OperatorStepAccounts(domain: Domain, st: State, t: Token)
    requires Consistent(domain, st)
    requires t == Plus || t == Multiply
    ensures Step(domain, st, t).Ok? && Accounted(domain, st, [t], Step(domain, st, t).value)
  {
    PopOperatorsPopsHeavier(st.out, st.stack, GetWeight(t));
    var k := |PopOperators(st.out, st.stack, GetWeight(t)).1|;
    MoveTop(st.out, st.stack, k);
    var out', stack' := st.out + Reversed(st.stack[k..]), st.stack[..k] + [t];
    assert Step(domain, st, t) == Ok(State(out', stack', st.acc));
    CountAppend(st.stack[..k], [t], Plus);
    CountAppend(st.stack[..k], [t], Multiply);
    CountAppend(st.stack[..k], [t], LeftParentheses);
    CountAppend(st.stack[..k], [t], LeftMustache);
    TalliesOfOne(t);
    PushedConsistent(domain, st.out, st.stack, k, t);
    assert Consistent(domain, State(out', stack', st.acc));
  }

  /** A closer that finds its opener moves the tokens above the opener to
      the output and drops the opener. */
  lemma {:induction false} CloserMoves(st: State, opener: Token)
    requires forall t :: t in st.stack ==> IsStackable(t)
    requires PopToOpener(st.out, st.stack, opener).Some?
    requires opener == LeftMustache || opener == LeftParentheses
    ensures var (moved, stack') := PopToOpener(st.out, st.stack, opener).value;
      && (forall x :: Count(moved, x) + Count(stack', x) + (if x == opener then 1 else 0) == Count(st.out, x) + Count(st.stack, x))
      && (forall t :: t in moved ==> t in st.out || IsStackable(t))
      && (forall t :: t in stack' ==> IsStackable(t))
      && Numbers(moved) == Numbers(st.out)
      && SetCount(moved) == SetCount(st.out)
  {
    PopToOpenerFinds(st.out, st.stack, opener);
    var k := |PopToOpener(st.out, st.stack, opener).value.1|;
    MoveTop(st.out, st.stack, k + 1);
    var stack' := st.stack[..k];
    assert st.stack[..k + 1] == stack' + [opener];
    TalliesAppend(stack', [opener]);
    TalliesOfOne(opener);
    forall x | x in stack' ensures IsStackable(x) {
      assert x in st.stack[..k + 1];
    }
  }

  /** Output moved from the stack, then a `Set`, holds no closer, and no
      number in the Sets domain. */
  lemma {:induction false} SetEmittedConsistent(domain: Domain, out: seq<Token>, moved: seq<Token>, acc: set<int>)
    requires forall t :: t in out ==> !IsCloser(t)
    requires domain == Sets ==> forall t :: t in out ==> !t.Number?
    requires forall t :: t in moved ==> t in out || IsStackable(t)
    ensures forall t :: t in moved + [Set(acc)] ==> !IsCloser(t)
    ensures domain == Sets ==> forall t :: t in moved + [Set(acc)] ==> !t.Number?
  {
  }

  /** The tallies of an output once a `Set` is emitted at its end. */
  lemma {:induction false} SetEmittedTallies(out: seq<Token>, acc: set<int>)
    ensures Numbers(out + [Set(acc)]) == Numbers(out)
    ensures SetCount(out + [Set(acc)]) == SetCount(out) + 1
    ensures Count(out + [Set(acc)], Plus) == Count(out, Plus)
    ensures Count(out + [Set(acc)], Multiply) == Count(out, Multiply)
    ensures Count(out + [Set(acc)], LeftParentheses) == Count(out, LeftParentheses)
    ensures Count(out + [Set(acc)], LeftMustache) == Count(out, LeftMustache)
  {
    NumbersAppend(out, [Set(acc)]);
    SetCountAppend(out, [Set(acc)]);
    CountAppend(out, [Set(acc)], Plus);
    CountAppend(out, [Set(acc)], Multiply);
    CountAppend(out, [Set(acc)], LeftParentheses);
    CountAppend(out, [Set(acc)], LeftMustache);
    TalliesOfOne(Set(acc));
  }

  lemma {:induction false} MustacheStepAccounts(domain: Domain, st: State)
    requires Consistent(domain, st)
    requires Step(domain, st, RightMustache).Ok?
    ensures Accounted(domain, st, [RightMustache], Step(domain, st, RightMustache).value)
  {
    var p := PopToOpener(st.out, st.stack, LeftMustache).value;
    var moved, stack' := p.0, p.1;
    var out' := moved + [Set(st.acc)];
    var st' := State(out', stack', {});
    assert Step(domain, st, RightMustache) == Ok(st');
    CloserMoves(st, LeftMustache);
    TalliesOfOne(RightMustache);
    SetEmittedTallies(moved, st.acc);
    SetEmittedConsistent(domain, st.out, moved, st.acc);
    assert Consistent(domain, st');
  }

  lemma {:induction false} ParenthesesStepAccounts(domain: Domain, st: State)
    requires Consistent(domain, st)
    requires Step(domain, st, RightParentheses).Ok?
    ensures Accounted(domain, st, [RightParentheses], Step(domain, st, RightParentheses).value)
  {
    var p := PopToOpener(st.out, st.stack, LeftParentheses).value;
    var st' := State(p.0, p.1, st.acc);
    assert Step(domain, st, RightParentheses) == Ok(st');
    CloserMoves(st, LeftParentheses);
    TalliesOfOne(RightParentheses);
    assert Consistent(domain, st');
  }

  lemma {:induction false} StepAccounts(domain: Domain, st: State, t: Token)
    requires Consistent(domain, st)
    requires Step(domain, st, t).Ok?
    ensures Accounted(domain, st, [t], Step(domain, st, t).value)
  {
    if t.Plus? || t.Multiply? {
      OperatorStepAccounts(domain, st, t);
    } else if t == RightMustache {
      MustacheStepAccounts(domain, st);
    } else if t == RightParentheses {
      ParenthesesStepAccounts(domain, st);
    } else {
      OperandOrOpenerStepAccounts(domain, st, t);
    }
  }

  lemma {:induction false} OperandOrOpenerStepAccounts(domain: Domain, st: State, t: Token)
    requires Consistent(domain, st)
    requires t.Number? || t.Set? || t == LeftMustache || t == LeftParentheses
    ensures Step(domain, st, t).Ok? && Accounted(domain, st, [t], Step(domain, st, t).value)
  {
    if t == LeftMustache || t == LeftParentheses {
      OpenerStepAccounts(domain, st, t);
    } else if t.Number? && domain == Sets {
      TalliesOfOne(t);
      assert Step(domain, st, t) == Ok(st.(acc := st.acc + {t.n}));
    } else {
      EmittedOperandAccounts(domain, st, t);
    }
  }

  /** An opener is pushed onto the working stack. */
  lemma {:induction false} OpenerStepAccounts(domain: Domain, st: State, t: Token)
    requires Consistent(domain, st)
    requires t == LeftMustache || t == LeftParentheses
    ensures Step(domain, st, t) == Ok(st.(stack := st.stack + [t]))
    ensures Accounted(domain, st, [t], st.(stack := st.stack + [t]))
  {
    var st' := st.(stack := st.stack + [t]);
    TalliesOfOne(t);
    TalliesAppend(st.stack, [t]);
    assert Consistent(domain, st');
  }

  /** A `Set`, or a number outside the Sets domain, goes to the output. */
  lemma {:induction false} EmittedOperandAccounts(domain: Domain, st: State, t: Token)
    requires Consistent(domain, st)
    requires t.Set? || (t.Number? && domain != Sets)
    ensures Step(domain, st, t) == Ok(st.(out := st.out + [t]))
    ensures Accounted(domain, st, [t], st.(out := st.out + [t]))
  {
    var st' := st.(out := st.out + [t]);
    TalliesOfOne(t);
    TalliesAppend(st.out, [t]);
    assert Consistent(domain, st');
  }

  /** Accounts compose over consecutive runs of tokens. */
  lemma {:induction false} AccountedChains(domain: Domain, st: State, a: seq<Token>, mid: State, b: seq<Token>, st': State)
    requires Accounted(domain, st, a, mid) && Accounted(domain, mid, b, st')
    ensures Accounted(domain, st, a + b, st')
  {
    TalliesAppend(a, b);
  }

  /** The main loop keeps the accounts over any run of tokens. */
  lemma {:induction false} RunAccounts(domain: Domain, st: State, tokens: seq<Token>)
    requires Consistent(domain, st)
    requires Run(domain, st, tokens).Ok?
    ensures Accounted(domain, st, tokens, Run(domain, st, tokens).value)
    decreases |tokens|
  {
    if tokens == [] {
      assert Run(domain, st, tokens) == Ok(st);
      assert Count([], Plus) == 0 && Count([], Multiply) == 0 && Count([], RightMustache) == 0;
      assert Count([], LeftParentheses) == 0 && Count([], RightParentheses) == 0 && Count([], LeftMustache) == 0;
    } else {
      var t := tokens[0];
      var mid := Step(domain, st, t).value;
      var final := Run(domain, st, tokens).value;
      assert Run(domain, mid, tokens[1..]).value == final;
      StepAccounts(domain, st, t);
      RunAccounts(domain, mid, tokens[1..]);
      assert tokens == [t] + tokens[1..];
      AccountedChains(domain, st, [t], mid, tokens[1..], final);
    }
  }

  /** What a successful conversion emits: no closing bracket ever; each `+`
      and `*` of the input exactly once; outside the Sets domain the numbers
      of the input in their input order, and in the Sets domain no number at
      all; and one `Set` per `Set` of the input and per `}`. */
  lemma {:induction false} ConvertAccounts(domain: Domain, tokens: seq<Token>)
    requires Convert(domain, tokens).Ok?
    ensures var out := Convert(domain, tokens).value;
      && (forall t :: t in out ==> !IsCloser(t))
      && Count(out, Plus) == Count(tokens, Plus)
      && Count(out, Multiply) == Count(tokens, Multiply)
      && (domain != Sets ==> Numbers(out) == Numbers(tokens))
      && (domain == Sets ==> forall t :: t in out ==> !t.Number?)
      && SetCount(out) == SetCount(tokens) + Count(tokens, RightMustache)
  {
    var start := State([], [], {});
    var st := Run(domain, start, tokens).value;
    var out := st.out + Reversed(st.stack);
    assert Convert(domain, tokens).value == out;
    assert Accounted(domain, start, tokens, st) by {
      RunAccounts(domain, start, tokens);
    }
    assert Count(start.out, Plus) + Count(start.stack, Plus) == 0;
    assert Count(start.out, Multiply) + Count(start.stack, Multiply) == 0;
    Drain(st.out, st.stack);
  }

  /** The converter never rejects an opener left unmatched: a successful
      conversion emits every `(` and `{` that no closer consumed, so each
      kind of opener appears in the output as many times as it outnumbers
      its closer in the input. */
  lemma {:induction false} UnmatchedOpenersAreEmitted(domain: Domain, tokens: seq<Token>)
    requires Convert(domain, tokens).Ok?
    ensures var out := Convert(domain, tokens).value;
      && Count(out, LeftParentheses) == Count(tokens, LeftParentheses) - Count(tokens, RightParentheses)
      && Count(out, LeftMustache) == Count(tokens, LeftMustache) - Count(tokens, RightMustache)
  {
    var start := State([], [], {});
    var st := Run(domain, start, tokens).value;
    assert Convert(domain, tokens).value == st.out + Reversed(st.stack);
    assert Accounted(domain, start, tokens, st) by {
      RunAccounts(domain, start, tokens);
    }
    assert Count(start.out, LeftParentheses) + Count(start.stack, LeftParentheses) == 0;
    assert Count(start.out, LeftMustache) + Count(start.stack, LeftMustache) == 0;
    Drain(st.out, st.stack);
  }

  /** A `}` that finds its `{` emits the pending set as one `Set` token and
      empties it; outside the Sets domain that set is always empty. */
  lemma {:induction false} MustacheEmitsPendingSet(domain: Domain, st: State)
    requires Consistent(domain, st)
    requires Step(domain, st, RightMustache).Ok?
    ensures var st' := Step(domain, st, RightMustache).value;
      && st'.out != [] && Top(st'.out) == Set(st.acc) && st'.acc == {}
      && (domain != Sets ==> Top(st'.out) == Set({}))
  {
  }

  /** The digits of the `Number` tokens of `s`, as a set. */
  function Digits(s: seq<Token>): set<int> {
    if s == [] then {} else (if s[0].Number? then {s[0].n} else {}) + Digits(s[1..])
  }

  /** In the Sets domain, between two `}` the pending set gathers exactly the
      digits read: a run without `}` ends with the pending set it started
      with plus the digits of the run. */
  lemma {:induction false} RunCollectsDigits(st: State, tokens: seq<Token>)
    requires RightMustache !in tokens
    requires Run(Sets, st, tokens).Ok?
    ensures Run(Sets, st, tokens).value.acc == st.acc + Digits(tokens)
    decreases |tokens|
  {
    if tokens != [] {
      var t := tokens[0];
      var mid := Step(Sets, st, t).value;
      assert mid.acc == st.acc + (if t.Number? then {t.n} else {}) by {
        if t == RightParentheses {
          match PopToOpener(st.out, st.stack, LeftParentheses)
          case Some(p) =>
        }
      }
      assert RightMustache !in tokens[1..] by {
        assert forall x :: x in tokens[1..] ==> x in tokens;
      }
      RunCollectsDigits(mid, tokens[1..]);
    }
  }

  /** The main loop proceeds token by token: running over `a + b` is running
      over `b` from where `a` leaves off, and fails if either part fails. */
  lemma {:induction false} RunAppend(domain: Domain, st: State, a: seq<Token>, b: seq<Token>)
    ensures Run(domain, st, a + b) ==
      match Run(domain, st, a)
      case Err(p) => Err(p)
      case Ok(mid) => Run(domain, mid, b)
    decreases |a|
  {
    if a == [] {
      assert a + b == b;
    } else {
      assert (a + b)[1..] == a[1..] + b;
      assert (a + b)[0] == a[0];
      match Step(domain, st, a[0])
      case Err(p) =>
      case Ok(st') => RunAppend(domain, st', a[1..], b);
    }
  }
}
