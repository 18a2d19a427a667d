/** The expressions the pipeline is meant for, as a grammar with the usual
    precedence (`*` above `+`, both associating to the left, parentheses for
    grouping), and the theorem that converting the tokens of such an
    expression with `shunting_yard` and evaluating the result with `resolve`
    gives the expression's value. In Algebra and Boolean the operands are
    digits; in Sets they are braced lists of digits. */
module Grammar {
  import opened Tokens
  import ShuntingYard
  import Resolve

  /** A sum of terms, associating to the left. */
  datatype Expr = Sum(left: Expr, right: Term) | Single(term: Term)

  /** A product of factors, associating to the left. */
  datatype Term = Product(left: Term, right: Factor) | Lone(factor: Factor)

  /** A digit, a braced list of digits (a set literal), or a parenthesized
      expression. */
  datatype Factor = Digit(d: int) | SetLiteral(members: seq<int>) | Group(inner: Expr)

  // ----- Well-formedness: the right kind of operand for the domain, and
  // only the one-digit numbers the scanner produces -----

  predicate FactorFits(domain: Domain, f: Factor) {
    match f
    case Digit(d) => domain != Sets && 0 <= d <= 9
    case SetLiteral(ds) => domain == Sets && forall i :: 0 <= i < |ds| ==> 0 <= ds[i] <= 9
    case Group(e) => ExprFits(domain, e)
  }

  predicate TermFits(domain: Domain, t: Term) {
    match t
    case Product(l, r) => TermFits(domain, l) && FactorFits(domain, r)
    case Lone(f) => FactorFits(domain, f)
  }

  predicate ExprFits(domain: Domain, e: Expr) {
    match e
    case Sum(l, r) => ExprFits(domain, l) && TermFits(domain, r)
    case Single(t) => TermFits(domain, t)
  }

  // ----- Infix tokens -----

  function NumberTokens(ds: seq<int>): seq<Token> {
    if ds == [] then [] else [Number(ds[0])] + NumberTokens(ds[1..])
  }

  function FactorTokens(f: Factor): seq<Token> {
    match f
    case Digit(d) => [Number(d)]
    case SetLiteral(ds) => [LeftMustache] + NumberTokens(ds) + [RightMustache]
    case Group(e) => [LeftParentheses] + ExprTokens(e) + [RightParentheses]
  }

  function TermTokens(t: Term): seq<Token> {
    match t
    case Product(l, r) => TermTokens(l) + [Multiply] + FactorTokens(r)
    case Lone(f) => FactorTokens(f)
  }

  function ExprTokens(e: Expr): seq<Token> {
    match e
    case Sum(l, r) => ExprTokens(l) + [Plus] + TermTokens(r)
    case Single(t) => TermTokens(t)
  }

  // ----- Postfix order -----

  function Members(ds: seq<int>): set<int> {
    if ds == [] then {} else {ds[0]} + Members(ds[1..])
  }

  function FactorPostfix(f: Factor): seq<Token> {
    match f
    case Digit(d) => [Number(d)]
    case SetLiteral(ds) => [Set(Members(ds))]
    case Group(e) => ExprPostfix(e)
  }

  function TermPostfix(t: Term): seq<Token> {
    match t
    case Product(l, r) => TermPostfix(l) + FactorPostfix(r) + [Multiply]
    case Lone(f) => FactorPostfix(f)
  }

  function ExprPostfix(e: Expr): seq<Token> {
    match e
    case Sum(l, r) => ExprPostfix(l) + TermPostfix(r) + [Plus]
    case Single(t) => TermPostfix(t)
  }

  /** The operators of a term still on the working stack once its last
      token has been read: its outermost `*`, if any. */
  function TermPending(t: Term): (r: seq<Token>)
    ensures r == [] || r == [Multiply]
  {
    if t.Product? then [Multiply] else []
  }

  /** The operators of an expression still on the working stack once its
      last token has been read, bottom first. */
  function ExprPending(e: Expr): (r: seq<Token>)
    ensures forall x :: x in r ==> IsOperator(x)
  {
    match e
    case Sum(_, r) => [Plus] + TermPending(r)
    case Single(t) => TermPending(t)
  }

  /** What a term has put on the output once its last token has been read. */
  function TermEmitted(t: Term): seq<Token> {
    match t
    case Product(l, r) => TermPostfix(l) + FactorPostfix(r)
    case Lone(f) => FactorPostfix(f)
  }

  function ExprEmitted(e: Expr): seq<Token> {
    match e
    case Sum(l, r) => ExprPostfix(l) + TermEmitted(r)
    case Single(t) => TermEmitted(t)
  }

  // ----- The conversion, one construct at a time -----

  /** Popping for an operator of weight `w` takes exactly the pending
      operators of weight at least `w` and stops at a lighter token. */
  lemma {:induction false} PopsPending(out: seq<Token>, stack: seq<Token>, pending: seq<Token>, w: int)
    requires forall x :: x in pending ==> GetWeight(x) >= w
    requires stack == [] || GetWeight(Top(stack)) < w
    ensures ShuntingYard.PopOperators(out, stack + pending, w) == (out + Reversed(pending), stack)
    decreases |pending|
  {
    if pending == [] {
      assert stack + pending == stack;
      assert out + Reversed(pending) == out;
    } else {
      var whole := stack + pending;
      assert Top(whole) == Top(pending);
      assert Rest(whole) == stack + Rest(pending);
      assert forall x :: x in Rest(pending) ==> x in pending;
      PopsPending(out + [Top(pending)], stack, Rest(pending), w);
      assert out + [Top(pending)] + Reversed(Rest(pending)) == out + Reversed(pending);
    }
  }

  /** A closing bracket pops the pending operators above its opener. */
  lemma {:induction false} ClosesGroup(out: seq<Token>, stack: seq<Token>, opener: Token, pending: seq<Token>)
    requires opener !in pending
    ensures ShuntingYard.PopToOpener(out, stack + [opener] + pending, opener) == Some((out + Reversed(pending), stack))
    decreases |pending|
  {
    var whole := stack + [opener] + pending;
    if pending == [] {
      assert whole == stack + [opener];
      assert Rest(whole) == stack;
      assert out + Reversed(pending) == out;
    } else {
      assert Top(whole) == Top(pending);
      assert Rest(whole) == stack + [opener] + Rest(pending);
      assert Top(pending) in pending;
      assert forall x :: x in Rest(pending) ==> x in pending;
      ClosesGroup(out + [Top(pending)], stack, opener, Rest(pending));
      assert out + [Top(pending)] + Reversed(Rest(pending)) == out + Reversed(pending);
    }
  }

  /** In the Sets domain the digits of a literal gather in the pending set. */
  lemma {:induction false} DigitsGather(st: ShuntingYard.State, ds: seq<int>)
    ensures ShuntingYard.Run(Sets, st, NumberTokens(ds)) == Ok(st.(acc := st.acc + Members(ds)))
    decreases |ds|
  {
    if ds != [] {
      var ts := NumberTokens(ds);
      assert ts[0] == Number(ds[0]) && ts[1..] == NumberTokens(ds[1..]);
      DigitsGather(st.(acc := st.acc + {ds[0]}), ds[1..]);
      assert st.acc + {ds[0]} + Members(ds[1..]) == st.acc + Members(ds);
    } else {
      assert st.acc + Members(ds) == st.acc;
    }
  }

  /** Splits `Run` over three consecutive parts. */
  lemma {:induction false} RunThree(domain: Domain, st: ShuntingYard.State, a: seq<Token>, b: seq<Token>, c: seq<Token>, s1: ShuntingYard.State, s2: ShuntingYard.State)
    requires ShuntingYard.Run(domain, st, a) == Ok(s1)
    requires ShuntingYard.Run(domain, s1, b) == Ok(s2)
    ensures ShuntingYard.Run(domain, st, a + b + c) == ShuntingYard.Run(domain, s2, c)
  {
    ShuntingYard.RunAppend(domain, st, a + b, c);
    ShuntingYard.RunAppend(domain, st, a, b);
  }

  lemma {:induction false} Associates(a: seq<Token>, b: seq<Token>, c: seq<Token>)
    ensures a + b + c == a + (b + c)
  {
  }

  lemma {:induction false} OneStep(domain: Domain, st: ShuntingYard.State, t: Token)
    ensures ShuntingYard.Run(domain, st, [t]) == ShuntingYard.Step(domain, st, t)
  {
    assert [t][1..] == [];
    match ShuntingYard.Step(domain, st, t)
    case Err(p) =>
    case Ok(st') =>
  }

  lemma {:induction false} ReversedShort(x: Token, y: Token)
    ensures Reversed<Token>([]) == []
    ensures Reversed([x]) == [x]
    ensures Reversed([x, y]) == [y, x]
  {
    assert Rest([x]) == [];
    assert Rest([x, y]) == [x];
  }

  /** A factor leaves the working stack as it found it and emits its
      postfix form. */
  lemma {:induction false} FactorConverts(domain: Domain, st: ShuntingYard.State, f: Factor)
    requires FactorFits(domain, f)
    requires st.acc == {}
    ensures ShuntingYard.Run(domain, st, FactorTokens(f)) == Ok(ShuntingYard.State(st.out + FactorPostfix(f), st.stack, {}))
    decreases f
  {
    match f
    case Digit(d) =>
      OneStep(domain, st, Number(d));
    case SetLiteral(ds) =>
      SetLiteralConverts(st, ds);
    case Group(e) =>
      var s1 := st.(stack := st.stack + [LeftParentheses]);
      ExprConverts(domain, s1, e);
      GroupConverts(domain, st, e);
  }

  /** In the Sets domain a braced list of digits becomes one `Set` token. */
  lemma {:induction false} SetLiteralConverts(st: ShuntingYard.State, ds: seq<int>)
    requires st.acc == {}
    ensures ShuntingYard.Run(Sets, st, FactorTokens(SetLiteral(ds))) == Ok(ShuntingYard.State(st.out + [Set(Members(ds))], st.stack, {}))
  {
    var s1 := st.(stack := st.stack + [LeftMustache]);
    OneStep(Sets, st, LeftMustache);
    DigitsGather(s1, ds);
    assert s1.acc + Members(ds) == Members(ds);
    var s2 := s1.(acc := Members(ds));
    ClosesGroup(st.out, st.stack, LeftMustache, []);
    ReversedShort(Plus, Plus);
    assert st.stack + [LeftMustache] + [] == s2.stack;
    assert st.out + [] == st.out;
    OneStep(Sets, s2, RightMustache);
    assert ShuntingYard.Step(Sets, s2, RightMustache) == Ok(ShuntingYard.State(st.out + [Set(Members(ds))], st.stack, {}));
    RunThree(Sets, st, [LeftMustache], NumberTokens(ds), [RightMustache], s1, s2);
  }

  /** A parenthesized expression: the `)` pops what the expression left
      pending and the `(` below it. */
  lemma {:induction false} GroupConverts(domain: Domain, st: ShuntingYard.State, e: Expr)
    requires ShuntingYard.Run(domain, st.(stack := st.stack + [LeftParentheses]), ExprTokens(e))
      == Ok(ShuntingYard.State(st.out + ExprEmitted(e), st.stack + [LeftParentheses] + ExprPending(e), {}))
    ensures ShuntingYard.Run(domain, st, FactorTokens(Group(e))) == Ok(ShuntingYard.State(st.out + ExprPostfix(e), st.stack, {}))
  {
    var s1 := st.(stack := st.stack + [LeftParentheses]);
    OneStep(domain, st, LeftParentheses);
    var s2 := ShuntingYard.State(st.out + ExprEmitted(e), s1.stack + ExprPending(e), {});
    assert LeftParentheses !in ExprPending(e);
    ClosesGroup(s2.out, st.stack, LeftParentheses, ExprPending(e));
    PostfixSplits(e);
    Associates(st.out, ExprEmitted(e), Reversed(ExprPending(e)));
    OneStep(domain, s2, RightParentheses);
    assert ShuntingYard.Step(domain, s2, RightParentheses) == Ok(ShuntingYard.State(st.out + ExprPostfix(e), st.stack, {}));
    RunThree(domain, st, [LeftParentheses], ExprTokens(e), [RightParentheses], s1, s2);
  }

  /** A term, read with no `*` on top of the working stack, emits all but
      its outermost `*`, which it leaves on the stack. */
  lemma {:induction false} TermConverts(domain: Domain, st: ShuntingYard.State, t: Term)
    requires TermFits(domain, t)
    requires st.acc == {}
    requires st.stack == [] || GetWeight(Top(st.stack)) < 2
    ensures ShuntingYard.Run(domain, st, TermTokens(t)) == Ok(ShuntingYard.State(st.out + TermEmitted(t), st.stack + TermPending(t), {}))
    decreases t
  {
    match t
    case Lone(f) =>
      FactorConverts(domain, st, f);
      assert st.stack + [] == st.stack;
    case Product(l, r) =>
      TermConverts(domain, st, l);
      var s2 := ShuntingYard.State(st.out + TermPostfix(l), st.stack + [Multiply], {});
      FactorConverts(domain, s2, r);
      ProductConverts(domain, st, l, r);
  }

  /** The `*` after a term pops that term's pending `*`, if any, and waits
      on the stack. */
  lemma {:induction false} MultiplyAfterTerm(domain: Domain, st: ShuntingYard.State, l: Term)
    requires st.stack == [] || GetWeight(Top(st.stack)) < 2
    ensures ShuntingYard.Run(domain, ShuntingYard.State(st.out + TermEmitted(l), st.stack + TermPending(l), {}), [Multiply])
      == Ok(ShuntingYard.State(st.out + TermPostfix(l), st.stack + [Multiply], {}))
  {
    var s1 := ShuntingYard.State(st.out + TermEmitted(l), st.stack + TermPending(l), {});
    PopsPending(s1.out, st.stack, TermPending(l), 2);
    ReversedShort(Multiply, Multiply);
    assert s1.out + Reversed(TermPending(l)) == st.out + TermPostfix(l);
    OneStep(domain, s1, Multiply);
  }

  /** The step from `l` and `r` to `l * r`: the `*` pops the pending `*` of
      `l`, if any, and waits on the stack while `r` is read. */
  lemma {:induction false} ProductConverts(domain: Domain, st: ShuntingYard.State, l: Term, r: Factor)
    requires st.stack == [] || GetWeight(Top(st.stack)) < 2
    requires ShuntingYard.Run(domain, st, TermTokens(l)) == Ok(ShuntingYard.State(st.out + TermEmitted(l), st.stack + TermPending(l), {}))
    requires ShuntingYard.Run(domain, ShuntingYard.State(st.out + TermPostfix(l), st.stack + [Multiply], {}), FactorTokens(r))
      == Ok(ShuntingYard.State(st.out + TermPostfix(l) + FactorPostfix(r), st.stack + [Multiply], {}))
    ensures ShuntingYard.Run(domain, st, TermTokens(Product(l, r)))
      == Ok(ShuntingYard.State(st.out + TermEmitted(Product(l, r)), st.stack + [Multiply], {}))
  {
    var s1 := ShuntingYard.State(st.out + TermEmitted(l), st.stack + TermPending(l), {});
    var s2 := ShuntingYard.State(st.out + TermPostfix(l), st.stack + [Multiply], {});
    MultiplyAfterTerm(domain, st, l);
    RunThree(domain, st, TermTokens(l), [Multiply], FactorTokens(r), s1, s2);
    assert TermTokens(Product(l, r)) == TermTokens(l) + [Multiply] + FactorTokens(r);
    assert TermEmitted(Product(l, r)) == TermPostfix(l) + FactorPostfix(r);
    Associates(st.out, TermPostfix(l), FactorPostfix(r));
  }

  /** An expression, read with no operator on top of the working stack,
      emits all but its pending operators, which it leaves on the stack. */
  lemma {:induction false} ExprConverts(domain: Domain, st: ShuntingYard.State, e: Expr)
    requires ExprFits(domain, e)
    requires st.acc == {}
    requires st.stack == [] || GetWeight(Top(st.stack)) < 1
    ensures ShuntingYard.Run(domain, st, ExprTokens(e)) == Ok(ShuntingYard.State(st.out + ExprEmitted(e), st.stack + ExprPending(e), {}))
    decreases e
  {
    match e
    case Single(t) =>
      TermConverts(domain, st, t);
    case Sum(l, r) =>
      ExprConverts(domain, st, l);
      var s2 := ShuntingYard.State(st.out + ExprPostfix(l), st.stack + [Plus], {});
      TermConverts(domain, s2, r);
      SumConverts(domain, st, l, r);
  }

  /** The `+` after an expression pops all of its pending operators and
      waits on the stack. */
  lemma {:induction false} PlusAfterExpr(domain: Domain, st: ShuntingYard.State, l: Expr)
    requires st.stack == [] || GetWeight(Top(st.stack)) < 1
    ensures ShuntingYard.Run(domain, ShuntingYard.State(st.out + ExprEmitted(l), st.stack + ExprPending(l), {}), [Plus])
      == Ok(ShuntingYard.State(st.out + ExprPostfix(l), st.stack + [Plus], {}))
  {
    var s1 := ShuntingYard.State(st.out + ExprEmitted(l), st.stack + ExprPending(l), {});
    PopsPending(s1.out, st.stack, ExprPending(l), 1);
    PostfixSplits(l);
    assert s1.out + Reversed(ExprPending(l)) == st.out + ExprPostfix(l);
    OneStep(domain, s1, Plus);
  }

  /** The step from `l` and `r` to `l + r`: the `+` pops everything `l`
      left pending and waits on the stack below what `r` leaves pending. */
  lemma {:induction false} SumConverts(domain: Domain, st: ShuntingYard.State, l: Expr, r: Term)
    requires st.stack == [] || GetWeight(Top(st.stack)) < 1
    requires ShuntingYard.Run(domain, st, ExprTokens(l)) == Ok(ShuntingYard.State(st.out + ExprEmitted(l), st.stack + ExprPending(l), {}))
    requires ShuntingYard.Run(domain, ShuntingYard.State(st.out + ExprPostfix(l), st.stack + [Plus], {}), TermTokens(r))
      == Ok(ShuntingYard.State(st.out + ExprPostfix(l) + TermEmitted(r), st.stack + [Plus] + TermPending(r), {}))
    ensures ShuntingYard.Run(domain, st, ExprTokens(Sum(l, r)))
      == Ok(ShuntingYard.State(st.out + ExprEmitted(Sum(l, r)), st.stack + ExprPending(Sum(l, r)), {}))
  {
    var s1 := ShuntingYard.State(st.out + ExprEmitted(l), st.stack + ExprPending(l), {});
    var s2 := ShuntingYard.State(st.out + ExprPostfix(l), st.stack + [Plus], {});
    PlusAfterExpr(domain, st, l);
    RunThree(domain, st, ExprTokens(l), [Plus], TermTokens(r), s1, s2);
    assert ExprTokens(Sum(l, r)) == ExprTokens(l) + [Plus] + TermTokens(r);
    Associates(st.out, ExprPostfix(l), TermEmitted(r));
    Associates(st.stack, [Plus], TermPending(r));
  }

  /** The postfix form is what is emitted plus the pending operators,
      popped top first. */
  lemma {:induction false} PostfixSplits(e: Expr)
    ensures ExprEmitted(e) + Reversed(ExprPending(e)) == ExprPostfix(e)
  {
    ReversedShort(Plus, Multiply);
    ReversedShort(Multiply, Multiply);
    match e
    case Single(t) =>
      assert TermEmitted(t) + Reversed(TermPending(t)) == TermPostfix(t);
    case Sum(l, r) =>
      assert Reversed(ExprPending(e)) == Reversed(TermPending(r)) + [Plus];
      assert TermEmitted(r) + Reversed(TermPending(r)) == TermPostfix(r);
  }

  /** `shunting_yard` turns the tokens of a well-formed expression into its
      postfix form, in every domain. */
  lemma {:induction false} ConvertGivesPostfix(domain: Domain, e: Expr)
    requires ExprFits(domain, e)
    ensures ShuntingYard.Convert(domain, ExprTokens(e)) == Ok(ExprPostfix(e))
  {
    ExprConverts(domain, ShuntingYard.State([], [], {}), e);
    PostfixSplits(e);
    assert [] + ExprEmitted(e) == ExprEmitted(e);
    assert [] + ExprPending(e) == ExprPending(e);
  }
}
