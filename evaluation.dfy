/** The second half of the precedence theorem: `resolve` evaluates the
    postfix form of a well-formed expression to the expression's value, read
    with `*` binding tighter than `+` and both associating to the left. Put
    together with the conversion, one piece of text written in the grammar
    is scanned, converted and evaluated to that value. */
module Evaluation {
  import opened Tokens
  import opened Grammar
  import Tokenizer
  import ShuntingYard
  import Resolve
  import Driver
  import StringsPath

  // ----- The value of an expression, left operand first -----

  /** The integer value in Algebra and Boolean. `Resolve.Combine` names the
      operand it pops first `a`; here the left operand goes first, as the
      expression is read. */
  function FactorValue(domain: Domain, f: Factor): int {
    match f
    case Digit(d) => d
    case SetLiteral(_) => 0
    case Group(e) => ExprValue(domain, e)
  }

  function TermValue(domain: Domain, t: Term): int {
    match t
    case Product(l, r) => Resolve.Combine(domain, Multiply, TermValue(domain, l), FactorValue(domain, r))
    case Lone(f) => FactorValue(domain, f)
  }

  function ExprValue(domain: Domain, e: Expr): int {
    match e
    case Sum(l, r) => Resolve.Combine(domain, Plus, ExprValue(domain, l), TermValue(domain, r))
    case Single(t) => TermValue(domain, t)
  }

  /** The set value in Sets: `+` is union, `*` intersection. */
  function FactorSet(f: Factor): set<int> {
    match f
    case Digit(_) => {}
    case SetLiteral(ds) => Members(ds)
    case Group(e) => ExprSet(e)
  }

  function TermSet(t: Term): set<int> {
    match t
    case Product(l, r) => TermSet(l) * FactorSet(r)
    case Lone(f) => FactorSet(f)
  }

  function ExprSet(e: Expr): set<int> {
    match e
    case Sum(l, r) => ExprSet(l) + TermSet(r)
    case Single(t) => TermSet(t)
  }

  // ----- Evaluation of the postfix form on the integer stack -----

  /** An operator over the two topmost values pushes their combination; the
      right operand is popped first, which commutativity makes harmless. */
  lemma {:induction false} OperatorCombines(domain: Domain, stack: seq<int>, x: int, y: int, op: Token)
    requires IsOperator(op)
    ensures Resolve.ScalarRun(domain, stack + [x] + [y], [op]) == Ok(stack + [Resolve.Combine(domain, op, x, y)])
  {
    var s := stack + [x] + [y];
    assert Top(s) == y && Rest(s) == stack + [x];
    assert Top(Rest(s)) == x && Rest(Rest(s)) == stack;
    Resolve.CombineCommutes(domain, op, x, y, {}, {});
    assert [op][1..] == [];
  }

  /** Two operands, each leaving its value on the stack, followed by an
      operator leave their combination. */
  lemma {:induction false} PostfixCombines(domain: Domain, stack: seq<int>, a: seq<Token>, b: seq<Token>, op: Token, x: int, y: int)
    requires IsOperator(op)
    requires Resolve.ScalarRun(domain, stack, a) == Ok(stack + [x])
    requires Resolve.ScalarRun(domain, stack + [x], b) == Ok(stack + [x] + [y])
    ensures Resolve.ScalarRun(domain, stack, a + b + [op]) == Ok(stack + [Resolve.Combine(domain, op, x, y)])
  {
    Resolve.ScalarRunAppend(domain, stack, a + b, [op]);
    Resolve.ScalarRunAppend(domain, stack, a, b);
    OperatorCombines(domain, stack, x, y, op);
  }

  /** Each construct pushes exactly its value on the stack it finds. */
  lemma {:induction false} FactorEvaluates(domain: Domain, stack: seq<int>, f: Factor)
    requires domain == Algebra || domain == Boolean
    requires FactorFits(domain, f)
    ensures Resolve.ScalarRun(domain, stack, FactorPostfix(f)) == Ok(stack + [FactorValue(domain, f)])
    decreases f
  {
    match f
    case Digit(d) =>
      assert [Number(d)][1..] == [];
    case Group(e) =>
      ExprEvaluates(domain, stack, e);
  }

  lemma {:induction false} TermEvaluates(domain: Domain, stack: seq<int>, t: Term)
    requires domain == Algebra || domain == Boolean
    requires TermFits(domain, t)
    ensures Resolve.ScalarRun(domain, stack, TermPostfix(t)) == Ok(stack + [TermValue(domain, t)])
    decreases t
  {
    match t
    case Lone(f) =>
      FactorEvaluates(domain, stack, f);
    case Product(l, r) =>
      TermEvaluates(domain, stack, l);
      FactorEvaluates(domain, stack + [TermValue(domain, l)], r);
      PostfixCombines(domain, stack, TermPostfix(l), FactorPostfix(r), Multiply, TermValue(domain, l), FactorValue(domain, r));
  }

  lemma {:induction false} ExprEvaluates(domain: Domain, stack: seq<int>, e: Expr)
    requires domain == Algebra || domain == Boolean
    requires ExprFits(domain, e)
    ensures Resolve.ScalarRun(domain, stack, ExprPostfix(e)) == Ok(stack + [ExprValue(domain, e)])
    decreases e
  {
    match e
    case Single(t) =>
      TermEvaluates(domain, stack, t);
    case Sum(l, r) =>
      ExprEvaluates(domain, stack, l);
      TermEvaluates(domain, stack + [ExprValue(domain, l)], r);
      PostfixCombines(domain, stack, ExprPostfix(l), TermPostfix(r), Plus, ExprValue(domain, l), TermValue(domain, r));
  }

  // ----- Evaluation of the postfix form on the set stack -----

  lemma {:induction false} SetOperatorCombines(stack: seq<set<int>>, x: set<int>, y: set<int>, op: Token)
    requires IsOperator(op)
    ensures Resolve.SetRun(stack + [x] + [y], [op]) == Ok(stack + [Resolve.CombineSets(op, x, y)])
  {
    var s := stack + [x] + [y];
    assert Top(s) == y && Rest(s) == stack + [x];
    assert Top(Rest(s)) == x && Rest(Rest(s)) == stack;
    Resolve.CombineCommutes(Sets, op, 0, 0, x, y);
    assert [op][1..] == [];
  }

  lemma {:induction false} SetPostfixCombines(stack: seq<set<int>>, a: seq<Token>, b: seq<Token>, op: Token, x: set<int>, y: set<int>)
    requires IsOperator(op)
    requires Resolve.SetRun(stack, a) == Ok(stack + [x])
    requires Resolve.SetRun(stack + [x], b) == Ok(stack + [x] + [y])
    ensures Resolve.SetRun(stack, a + b + [op]) == Ok(stack + [Resolve.CombineSets(op, x, y)])
  {
    Resolve.SetRunAppend(stack, a + b, [op]);
    Resolve.SetRunAppend(stack, a, b);
    SetOperatorCombines(stack, x, y, op);
  }

  lemma {:induction false} FactorEvaluatesSet(stack: seq<set<int>>, f: Factor)
    requires FactorFits(Sets, f)
    ensures Resolve.SetRun(stack, FactorPostfix(f)) == Ok(stack + [FactorSet(f)])
    decreases f
  {
    match f
    case SetLiteral(ds) =>
      assert [Set(Members(ds))][1..] == [];
    case Group(e) =>
      ExprEvaluatesSet(stack, e);
  }

  lemma {:induction false} TermEvaluatesSet(stack: seq<set<int>>, t: Term)
    requires TermFits(Sets, t)
    ensures Resolve.SetRun(stack, TermPostfix(t)) == Ok(stack + [TermSet(t)])
    decreases t
  {
    match t
    case Lone(f) =>
      FactorEvaluatesSet(stack, f);
    case Product(l, r) =>
      TermEvaluatesSet(stack, l);
      FactorEvaluatesSet(stack + [TermSet(l)], r);
      SetPostfixCombines(stack, TermPostfix(l), FactorPostfix(r), Multiply, TermSet(l), FactorSet(r));
  }

  lemma {:induction false} ExprEvaluatesSet(stack: seq<set<int>>, e: Expr)
    requires ExprFits(Sets, e)
    ensures Resolve.SetRun(stack, ExprPostfix(e)) == Ok(stack + [ExprSet(e)])
    decreases e
  {
    match e
    case Single(t) =>
      TermEvaluatesSet(stack, t);
    case Sum(l, r) =>
      ExprEvaluatesSet(stack, l);
      TermEvaluatesSet(stack + [ExprSet(l)], r);
      SetPostfixCombines(stack, ExprPostfix(l), TermPostfix(r), Plus, ExprSet(l), TermSet(r));
  }

  // ----- The whole pipeline of one piece -----

  /** What one piece holding the tokens of `e` evaluates to: its integer
      value in Algebra and Boolean, its set in Sets, and the empty-stack
      panic in Strings, where nothing is ever pushed. */
  function Expected(domain: Domain, e: Expr): Result<(int, set<int>)> {
    if domain == Sets then Ok((0, ExprSet(e)))
    else if domain == Strings then Err(EmptyStack)
    else Ok((ExprValue(domain, e), {}))
  }

  /** Converting the tokens of a well-formed expression and evaluating the
      result gives the expression's value: the precedence `get_weight`
      assigns and the pops of `shunting_yard` agree with the grammar. */
  lemma {:induction false} PipelineComputesValue(domain: Domain, e: Expr)
    requires ExprFits(domain, e)
    ensures Driver.PieceValue(domain, ExprTokens(e)) == Expected(domain, e)
  {
    ConvertGivesPostfix(domain, e);
    if domain == Sets {
      ExprEvaluatesSet([], e);
      assert [] + [ExprSet(e)] == [ExprSet(e)];
    } else if domain != Strings {
      ExprEvaluates(domain, [], e);
      assert [] + [ExprValue(domain, e)] == [ExprValue(domain, e)];
    }
  }

  // ----- The text of an expression -----

  function DigitText(d: int): char
    requires 0 <= d <= 9
  {
    ('0' as int + d) as char
  }

  /** The digits of a set literal, separated by ", ". */
  function ListText(ds: seq<int>): string
    requires forall i :: 0 <= i < |ds| ==> 0 <= ds[i] <= 9
  {
    if ds == [] then ""
    else if |ds| == 1 then [DigitText(ds[0])]
    else [DigitText(ds[0])] + ", " + ListText(ds[1..])
  }

  function FactorText(domain: Domain, f: Factor): string
    requires FactorFits(domain, f)
  {
    match f
    case Digit(d) => [DigitText(d)]
    case SetLiteral(ds) => "{" + ListText(ds) + "}"
    case Group(e) => "(" + ExprText(domain, e) + ")"
  }

  function TermText(domain: Domain, t: Term): string
    requires TermFits(domain, t)
  {
    match t
    case Product(l, r) => TermText(domain, l) + " * " + FactorText(domain, r)
    case Lone(f) => FactorText(domain, f)
  }

  function ExprText(domain: Domain, e: Expr): string
    requires ExprFits(domain, e)
  {
    match e
    case Sum(l, r) => ExprText(domain, l) + " + " + TermText(domain, r)
    case Single(t) => TermText(domain, t)
  }

  lemma {:induction false} OneCharacter(c: char)
    ensures Tokenizer.TokenizePiece([c]) == Tokenizer.CharTokens(c)
  {
    assert Rest([c]) == [];
  }

  /** The separator ", " yields no token. */
  lemma {:induction false} SeparatorTokenizes()
    ensures Tokenizer.TokenizePiece(", ") == []
  {
    OneCharacter(',');
    OneCharacter(' ');
    assert [','] + [' '] == ", ";
    Tokenizer.TokenizePieceAppend([','], [' ']);
  }

  lemma {:induction false} DigitThenSeparator(c: char)
    ensures Tokenizer.TokenizePiece([c] + ", ") == Tokenizer.CharTokens(c)
  {
    OneCharacter(c);
    SeparatorTokenizes();
    Tokenizer.TokenizePieceAppend([c], ", ");
    assert Tokenizer.CharTokens(c) + [] == Tokenizer.CharTokens(c);
  }

  lemma {:induction false} ListStep(c: char, tail: string)
    ensures Tokenizer.TokenizePiece([c] + ", " + tail) == Tokenizer.CharTokens(c) + Tokenizer.TokenizePiece(tail)
  {
    DigitThenSeparator(c);
    Tokenizer.TokenizePieceAppend([c] + ", ", tail);
  }

  lemma {:induction false} ListTokenizes(ds: seq<int>)
    requires forall i :: 0 <= i < |ds| ==> 0 <= ds[i] <= 9
    ensures Tokenizer.TokenizePiece(ListText(ds)) == NumberTokens(ds)
    decreases |ds|
  {
    if ds != [] {
      OneCharacter(DigitText(ds[0]));
      if |ds| == 1 {
        assert NumberTokens(ds[1..]) == [];
      } else {
        ListStep(DigitText(ds[0]), ListText(ds[1..]));
        ListTokenizes(ds[1..]);
      }
    }
  }

  /** An operator between two spaces yields the operator's token alone. */
  lemma {:induction false} Spaced(c: char)
    ensures Tokenizer.TokenizePiece([' ', c, ' ']) == Tokenizer.CharTokens(c)
  {
    OneCharacter(' ');
    OneCharacter(c);
    Tokenizer.TokenizePieceAppend([' '], [c]);
    assert [' '] + [c] == [' ', c];
    Tokenizer.TokenizePieceAppend([' ', c], [' ']);
    assert [' ', c] + [' '] == [' ', c, ' '];
  }

  /** The tokens of `a`, then of `c` between two spaces, then of `b`. */
  lemma {:induction false} Infix(a: string, c: char, b: string)
    ensures Tokenizer.TokenizePiece(a + [' ', c, ' '] + b)
      == Tokenizer.TokenizePiece(a) + Tokenizer.CharTokens(c) + Tokenizer.TokenizePiece(b)
  {
    Spaced(c);
    Tokenizer.TokenizePieceAppend(a, [' ', c, ' ']);
    Tokenizer.TokenizePieceAppend(a + [' ', c, ' '], b);
  }

  /** The tokens of `open`, then of `s`, then of `close`. */
  lemma {:induction false} Enclosed(open: char, s: string, close: char)
    ensures Tokenizer.TokenizePiece([open] + s + [close])
      == Tokenizer.CharTokens(open) + Tokenizer.TokenizePiece(s) + Tokenizer.CharTokens(close)
  {
    OneCharacter(open);
    OneCharacter(close);
    Tokenizer.TokenizePieceAppend([open], s);
    Tokenizer.TokenizePieceAppend([open] + s, [close]);
  }

  /** Scanning the text of a well-formed expression gives its tokens. */
  lemma {:induction false} FactorTokenizes(domain: Domain, f: Factor)
    requires FactorFits(domain, f)
    ensures Tokenizer.TokenizePiece(FactorText(domain, f)) == FactorTokens(f)
    decreases f
  {
    match f
    case Digit(d) =>
      OneCharacter(DigitText(d));
    case SetLiteral(ds) =>
      ListTokenizes(ds);
      Enclosed('{', ListText(ds), '}');
    case Group(e) =>
      ExprTokenizes(domain, e);
      Enclosed('(', ExprText(domain, e), ')');
  }

  lemma {:induction false} TermTokenizes(domain: Domain, t: Term)
    requires TermFits(domain, t)
    ensures Tokenizer.TokenizePiece(TermText(domain, t)) == TermTokens(t)
    decreases t
  {
    match t
    case Lone(f) =>
      FactorTokenizes(domain, f);
    case Product(l, r) =>
      TermTokenizes(domain, l);
      FactorTokenizes(domain, r);
      Infix(TermText(domain, l), '*', FactorText(domain, r));
      assert " * " == [' ', '*', ' '];
  }

  lemma {:induction false} ExprTokenizes(domain: Domain, e: Expr)
    requires ExprFits(domain, e)
    ensures Tokenizer.TokenizePiece(ExprText(domain, e)) == ExprTokens(e)
    decreases e
  {
    match e
    case Single(t) =>
      TermTokenizes(domain, t);
    case Sum(l, r) =>
      ExprTokenizes(domain, l);
      TermTokenizes(domain, r);
      Infix(ExprText(domain, l), '+', TermText(domain, r));
      assert " + " == [' ', '+', ' '];
  }

  /** From text to value: a piece written in the grammar is scanned,
      converted and evaluated to the expression's value. */
  lemma {:induction false} TextComputesValue(domain: Domain, e: Expr)
    requires ExprFits(domain, e)
    ensures Driver.PieceValue(domain, Tokenizer.TokenizePiece(ExprText(domain, e))) == Expected(domain, e)
  {
    ExprTokenizes(domain, e);
    PipelineComputesValue(domain, e);
  }

  // ----- Equations: expressions joined by `=` -----

  lemma {:induction false} ListHasNoEquals(ds: seq<int>)
    requires forall i :: 0 <= i < |ds| ==> 0 <= ds[i] <= 9
    ensures '=' !in ListText(ds)
    decreases |ds|
  {
    if |ds| > 1 {
      ListHasNoEquals(ds[1..]);
    }
  }

  /** The text of an expression has no `=`, so it is one piece. */
  lemma {:induction false} FactorHasNoEquals(domain: Domain, f: Factor)
    requires FactorFits(domain, f)
    ensures '=' !in FactorText(domain, f)
    decreases f
  {
    match f
    case Digit(d) =>
    case SetLiteral(ds) => ListHasNoEquals(ds);
    case Group(e) => ExprHasNoEquals(domain, e);
  }

  lemma {:induction false} TermHasNoEquals(domain: Domain, t: Term)
    requires TermFits(domain, t)
    ensures '=' !in TermText(domain, t)
    decreases t
  {
    match t
    case Lone(f) => FactorHasNoEquals(domain, f);
    case Product(l, r) =>
      TermHasNoEquals(domain, l);
      FactorHasNoEquals(domain, r);
  }

  lemma {:induction false} ExprHasNoEquals(domain: Domain, e: Expr)
    requires ExprFits(domain, e)
    ensures '=' !in ExprText(domain, e)
    decreases e
  {
    match e
    case Single(t) => TermHasNoEquals(domain, t);
    case Sum(l, r) =>
      ExprHasNoEquals(domain, l);
      TermHasNoEquals(domain, r);
  }

  predicate AllFit(domain: Domain, es: seq<Expr>) {
    forall i :: 0 <= i < |es| ==> ExprFits(domain, es[i])
  }

  /** The texts of several expressions, in order. */
  function Texts(domain: Domain, es: seq<Expr>): (r: seq<string>)
    requires AllFit(domain, es)
    ensures |r| == |es|
    ensures forall i :: 0 <= i < |es| ==> r[i] == ExprText(domain, es[i])
  {
    if es == [] then [] else [ExprText(domain, es[0])] + Texts(domain, es[1..])
  }

  /** The text of an equation between the expressions `es`. */
  function Equation(domain: Domain, es: seq<Expr>): string
    requires es != [] && AllFit(domain, es)
  {
    Tokenizer.Join(Texts(domain, es))
  }

  /** The integer values of several expressions, in order. */
  function Values(domain: Domain, es: seq<Expr>): (r: seq<int>)
    ensures |r| == |es|
    ensures forall i :: 0 <= i < |es| ==> r[i] == ExprValue(domain, es[i])
  {
    if es == [] then [] else [ExprValue(domain, es[0])] + Values(domain, es[1..])
  }

  /** The set values of several expressions, in order. */
  function SetValues(es: seq<Expr>): (r: seq<set<int>>)
    ensures |r| == |es|
    ensures forall i :: 0 <= i < |es| ==> r[i] == ExprSet(es[i])
  {
    if es == [] then [] else [ExprSet(es[0])] + SetValues(es[1..])
  }

  /** Pieces holding the tokens of well-formed expressions evaluate to
      their values, with no panic. */
  lemma {:induction false} ScalarResultsAreValues(domain: Domain, es: seq<Expr>, bag: seq<seq<Token>>)
    requires domain == Algebra || domain == Boolean
    requires AllFit(domain, es)
    requires |bag| == |es| && forall i :: 0 <= i < |es| ==> bag[i] == ExprTokens(es[i])
    ensures Driver.ScalarResults(domain, bag) == Ok(Values(domain, es))
    decreases |es|
  {
    if es != [] {
      PipelineComputesValue(domain, es[0]);
      ScalarResultsAreValues(domain, es[1..], bag[1..]);
    }
  }

  lemma {:induction false} SetResultsAreValues(es: seq<Expr>, bag: seq<seq<Token>>)
    requires AllFit(Sets, es)
    requires |bag| == |es| && forall i :: 0 <= i < |es| ==> bag[i] == ExprTokens(es[i])
    ensures Driver.SetResults(bag) == Ok(SetValues(es))
    decreases |es|
  {
    if es != [] {
      PipelineComputesValue(Sets, es[0]);
      SetResultsAreValues(es[1..], bag[1..]);
    }
  }

  /** Splitting and scanning an equation gives the tokens of its
      expressions, one piece each. */
  lemma {:induction false} EquationPieces(domain: Domain, es: seq<Expr>)
    requires es != [] && AllFit(domain, es)
    ensures Tokenizer.Split(Equation(domain, es)) == Texts(domain, es)
    ensures forall i :: 0 <= i < |es| ==>
      Tokenizer.TokenizeEach(Tokenizer.Split(Equation(domain, es)))[i] == ExprTokens(es[i])
  {
    var texts := Texts(domain, es);
    forall i | 0 <= i < |texts| ensures '=' !in texts[i] {
      ExprHasNoEquals(domain, es[i]);
    }
    Tokenizer.SplitJoin(texts);
    forall i | 0 <= i < |es| ensures Tokenizer.TokenizePiece(texts[i]) == ExprTokens(es[i]) {
      ExprTokenizes(domain, es[i]);
    }
  }

  /** The verdict on pieces holding the tokens of well-formed Algebra or
      Boolean expressions. */
  lemma {:induction false} ScalarVerdictOfValues(domain: Domain, es: seq<Expr>, bag: seq<seq<Token>>)
    requires domain == Algebra || domain == Boolean
    requires es != [] && AllFit(domain, es)
    requires |bag| == |es| && forall i :: 0 <= i < |es| ==> bag[i] == ExprTokens(es[i])
    ensures Driver.ScalarVerdict(domain, bag) == Ok(ExprValue(domain, es[|es| - 1]) == ExprValue(domain, es[0]))
  {
    ScalarResultsAreValues(domain, es, bag);
  }

  /** The verdict on pieces holding the tokens of well-formed Sets
      expressions. */
  lemma {:induction false} SetsVerdictOfValues(es: seq<Expr>, bag: seq<seq<Token>>)
    requires es != [] && AllFit(Sets, es)
    requires |bag| == |es| && forall i :: 0 <= i < |es| ==> bag[i] == ExprTokens(es[i])
    ensures Driver.SetsVerdict(bag) == Ok(ExprSet(es[|es| - 1]) == ExprSet(es[0]))
  {
    SetResultsAreValues(es, bag);
  }

  /** The verdict on an equation between well-formed expressions in
      Algebra, Boolean or Sets: valid exactly when the value of the last
      expression equals the value of the first. */
  lemma {:induction false} EquationVerdict(domains: seq<Domain>, es: seq<Expr>)
    requires domains != [] && Top(domains) != Strings
    requires es != [] && AllFit(Top(domains), es)
    ensures Driver.TextVerdict(domains, Equation(Top(domains), es)) ==
      if Top(domains) == Sets then Ok(ExprSet(es[|es| - 1]) == ExprSet(es[0]))
      else Ok(ExprValue(Top(domains), es[|es| - 1]) == ExprValue(Top(domains), es[0]))
  {
    var domain := Top(domains);
    EquationPieces(domain, es);
    var bag := Tokenizer.TokenizeEach(Tokenizer.Split(Equation(domain, es)));
    assert |bag| == |es|;
    if domain == Sets {
      SetsVerdictOfValues(es, bag);
    } else {
      ScalarVerdictOfValues(domain, es, bag);
    }
  }

  /** The Strings scanner, run on the text of an expression, finds the
      digits and the operators of its tokens, in order. */
  lemma {:induction false} StringsScanSeesTokens(e: Expr)
    requires ExprFits(Strings, e)
    ensures StringsPath.ScanDigits(ExprText(Strings, e)) == ShuntingYard.Numbers(ExprTokens(e))
    ensures StringsPath.ScanOperators(ExprText(Strings, e)) == StringsPath.OperatorsOf(ExprTokens(e))
  {
    ExprTokenizes(Strings, e);
    StringsPath.ScanAgreesWithTokenize(ExprText(Strings, e));
  }
}
