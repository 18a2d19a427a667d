/** The texts of the document embedded in `main` (src/main.rs), written in
    the grammar, and the verdicts the model gives them. The equations here
    are joined by a bare `=`; the document's texts differ from them only in
    the spaces around each `=` and a trailing `;`, characters that neither
    scanner turns into anything. */
module Examples {
  import opened Tokens
  import opened Grammar
  import opened Evaluation
  import StringsPath
  import ShuntingYard
  import Driver
  import Bitwise

  /** `2 * 3 + 1` */
  const SixPlusOne: Expr := Sum(Single(Product(Lone(Digit(2)), Digit(3))), Lone(Digit(1)))

  /** `(1 + 1) * 2 + 2 + 1` */
  const GroupedSum: Expr :=
    Sum(Sum(Single(Product(Lone(Group(Sum(Single(Lone(Digit(1))), Lone(Digit(1))))), Digit(2))), Lone(Digit(2))), Lone(Digit(1)))

  /** `7` */
  const Seven: Expr := Single(Lone(Digit(7)))

  /** `1 + 2 * 2 + 1` */
  const ProductInside: Expr := Sum(Sum(Single(Lone(Digit(1))), Product(Lone(Digit(2)), Digit(2))), Lone(Digit(1)))

  /** `2 + 2 + 2 * 1` */
  const ProductLast: Expr := Sum(Sum(Single(Lone(Digit(2))), Lone(Digit(2))), Product(Lone(Digit(2)), Digit(1)))

  /** `{1, 2} + ({1, 2, 3} * {2, 3})` */
  const UnionFirst: Expr :=
    Sum(Single(Lone(SetLiteral([1, 2]))), Lone(Group(Single(Product(Lone(SetLiteral([1, 2, 3])), SetLiteral([2, 3]))))))

  /** `({1, 2} + {1, 2, 3}) * {2, 3}` */
  const IntersectionLast: Expr :=
    Single(Product(Lone(Group(Sum(Single(Lone(SetLiteral([1, 2]))), Lone(SetLiteral([1, 2, 3]))))), SetLiteral([2, 3])))

  /** `(1 + 0) * 1 + 1` */
  const TruthLeft: Expr := Sum(Single(Product(Lone(Group(Sum(Single(Lone(Digit(1))), Lone(Digit(0))))), Digit(1))), Lone(Digit(1)))

  /** `0 * 1 + 1` */
  const TruthRight: Expr := Sum(Single(Product(Lone(Digit(0)), Digit(1))), Lone(Digit(1)))

  /** `1 * (2 + 1) + 1` */
  const GroupedProduct: Expr :=
    Sum(Single(Product(Lone(Digit(1)), Group(Sum(Single(Lone(Digit(2))), Lone(Digit(1)))))), Lone(Digit(1)))

  /** `1 + 1 + 1` */
  const Three: Expr := Sum(Sum(Single(Lone(Digit(1))), Lone(Digit(1))), Lone(Digit(1)))

  /** `2 + 2 + 2 + 1` */
  const Repeated: Expr := Sum(Sum(Sum(Single(Lone(Digit(2))), Lone(Digit(2))), Lone(Digit(2))), Lone(Digit(1)))

  /** In Algebra, `2 * 3 + 1 = (1 + 1) * 2 + 2 + 1 = 7` is valid: every side
      is 7. */
  lemma {:induction false} AlgebraLineIsValid(domains: seq<Domain>)
    requires domains != [] && Top(domains) == Algebra
    ensures Driver.TextVerdict(domains, Equation(Algebra, [SixPlusOne, GroupedSum, Seven])) == Ok(true)
    ensures ExprValue(Algebra, SixPlusOne) == ExprValue(Algebra, GroupedSum) == 7
  {
    EquationVerdict(domains, [SixPlusOne, GroupedSum, Seven]);
  }

  /** In Algebra, `1 + 2 * 2 + 1 = 2 + 2 + 2 * 1` is valid because `*` binds
      tighter than `+`: both sides are 6, where reading left to right would
      give 8 on the left. */
  lemma {:induction false} PrecedenceLineIsValid(domains: seq<Domain>)
    requires domains != [] && Top(domains) == Algebra
    ensures Driver.TextVerdict(domains, Equation(Algebra, [ProductInside, ProductLast])) == Ok(true)
    ensures ExprValue(Algebra, ProductInside) == 6 != (1 + 2) * 2 + 1
  {
    EquationVerdict(domains, [ProductInside, ProductLast]);
  }

  /** In Sets, `{1, 2} + ({1, 2, 3} * {2, 3}) = ({1, 2} + {1, 2, 3}) * {2, 3}`
      is invalid: the left side is {1, 2, 3} and the right side {2, 3}. */
  lemma {:induction false} SetsLineIsInvalid(domains: seq<Domain>)
    requires domains != [] && Top(domains) == Sets
    ensures Driver.TextVerdict(domains, Equation(Sets, [UnionFirst, IntersectionLast])) == Ok(false)
  {
    assert Members([1, 2]) == {1, 2} by {
      assert [1, 2][1..] == [2];
    }
    assert 1 in ExprSet(UnionFirst);
    assert 1 !in ExprSet(IntersectionLast) by {
      assert Members([2, 3]) == {2, 3} by {
        assert [2, 3][1..] == [3];
      }
    }
    EquationVerdict(domains, [UnionFirst, IntersectionLast]);
  }

  /** In Boolean, `(1 + 0) * 1 + 1 = 0 * 1 + 1` is valid: both sides are 1. */
  lemma {:induction false} BooleanLineIsValid(domains: seq<Domain>)
    requires domains != [] && Top(domains) == Boolean
    ensures Driver.TextVerdict(domains, Equation(Boolean, [TruthLeft, TruthRight])) == Ok(true)
  {
    Bitwise.OnTruthValues(1, 0);
    Bitwise.OnTruthValues(1, 1);
    Bitwise.OnTruthValues(0, 1);
    EquationVerdict(domains, [TruthLeft, TruthRight]);
  }

  lemma {:induction false} DigitNumerals()
    ensures StringsPath.Decimal(1) == "1" && StringsPath.Decimal(2) == "2" && StringsPath.Decimal(3) == "3"
  {
  }

  /** In the Strings pathway a `*` is written out only when it is drained
      last: for `1 + 2 * 3` the product is written first and no " + "
      follows it, so it runs into the next numeral. */
  lemma {:induction false} ProductRunsIntoNextNumeral()
    ensures StringsPath.Rebuild([1, 2, 3], [Plus, Multiply]).0 == "2 + 2 + 21 + "
  {
    DigitNumerals();
    StringsPath.RebuildMultiply([1], 2, 3, [Plus]);
    assert [1] + [2, 3] == [1, 2, 3] && [Plus] + [Multiply] == [Plus, Multiply];
    StringsPath.RebuildPlus([], 1, []);
    assert [] + [1] == [1] && [] + [Plus] == [Plus];
    assert StringsPath.Rebuild([], []) == ("", []);
    assert StringsPath.Copies(2, 3) == "2 + 2 + 2";
    assert "2 + 2 + 2" + ("1" + " + " + "") == "2 + 2 + 21 + ";
  }

  // ----- Scanning the Strings texts -----

  lemma {:induction false} OperatorsOfAppend(a: seq<Token>, b: seq<Token>)
    ensures StringsPath.OperatorsOf(a + b) == StringsPath.OperatorsOf(a) + StringsPath.OperatorsOf(b)
    decreases |b|
  {
    if b == [] {
      assert a + b == a;
    } else {
      assert Rest(a + b) == a + Rest(b) && Top(a + b) == Top(b);
      OperatorsOfAppend(a, Rest(b));
    }
  }

  /** The digits and operators of a token sequence, from those of its two
      parts. */
  lemma {:induction false} ScanSplits(a: seq<Token>, b: seq<Token>)
    ensures ShuntingYard.Numbers(a + b) == ShuntingYard.Numbers(a) + ShuntingYard.Numbers(b)
    ensures StringsPath.OperatorsOf(a + b) == StringsPath.OperatorsOf(a) + StringsPath.OperatorsOf(b)
  {
    ShuntingYard.NumbersAppend(a, b);
    OperatorsOfAppend(a, b);
  }

  /** The digits of three consecutive chunks. */
  lemma {:induction false} NumbersThree(ts: seq<Token>, a: seq<Token>, b: seq<Token>, c: seq<Token>)
    requires ts == a + b + c
    ensures ShuntingYard.Numbers(ts) == ShuntingYard.Numbers(a) + ShuntingYard.Numbers(b) + ShuntingYard.Numbers(c)
  {
    ShuntingYard.NumbersAppend(a + b, c);
    ShuntingYard.NumbersAppend(a, b);
  }

  /** The operators of three consecutive chunks. */
  lemma {:induction false} OperatorsThree(ts: seq<Token>, a: seq<Token>, b: seq<Token>, c: seq<Token>)
    requires ts == a + b + c
    ensures StringsPath.OperatorsOf(ts) == StringsPath.OperatorsOf(a) + StringsPath.OperatorsOf(b) + StringsPath.OperatorsOf(c)
  {
    OperatorsOfAppend(a + b, c);
    OperatorsOfAppend(a, b);
  }

  lemma {:induction false} ScanThree(ts: seq<Token>, a: seq<Token>, b: seq<Token>, c: seq<Token>)
    requires ts == a + b + c
    ensures ShuntingYard.Numbers(ts) == ShuntingYard.Numbers(a) + ShuntingYard.Numbers(b) + ShuntingYard.Numbers(c)
    ensures StringsPath.OperatorsOf(ts) == StringsPath.OperatorsOf(a) + StringsPath.OperatorsOf(b) + StringsPath.OperatorsOf(c)
  {
    NumbersThree(ts, a, b, c);
    OperatorsThree(ts, a, b, c);
  }

  /** The digits of six consecutive chunks. */
  lemma {:induction false} NumbersSix(ts: seq<Token>, a: seq<Token>, b: seq<Token>, c: seq<Token>, d: seq<Token>, e: seq<Token>, f: seq<Token>)
    requires ts == a + b + c + d + e + f
    ensures ShuntingYard.Numbers(ts) == ShuntingYard.Numbers(a) + ShuntingYard.Numbers(b) + ShuntingYard.Numbers(c)
      + ShuntingYard.Numbers(d) + ShuntingYard.Numbers(e) + ShuntingYard.Numbers(f)
  {
    NumbersThree(ts, a + b + c + d, e, f);
    NumbersThree(a + b + c + d, a + b, c, d);
    ShuntingYard.NumbersAppend(a, b);
  }

  /** The operators of six consecutive chunks. */
  lemma {:induction false} OperatorsSix(ts: seq<Token>, a: seq<Token>, b: seq<Token>, c: seq<Token>, d: seq<Token>, e: seq<Token>, f: seq<Token>)
    requires ts == a + b + c + d + e + f
    ensures StringsPath.OperatorsOf(ts) == StringsPath.OperatorsOf(a) + StringsPath.OperatorsOf(b) + StringsPath.OperatorsOf(c)
      + StringsPath.OperatorsOf(d) + StringsPath.OperatorsOf(e) + StringsPath.OperatorsOf(f)
  {
    OperatorsThree(ts, a + b + c + d, e, f);
    OperatorsThree(a + b + c + d, a + b, c, d);
    OperatorsOfAppend(a, b);
  }

  lemma {:induction false} ScanOne(t: Token)
    ensures ShuntingYard.Numbers([t]) == (if t.Number? then [t.n] else [])
    ensures StringsPath.OperatorsOf([t]) == (if IsOperator(t) then [t] else [])
  {
    ShuntingYard.TalliesOfOne(t);
    assert Rest([t]) == [];
  }

  /** A digit followed by a token other than a digit. */
  lemma {:induction false} ScanPair(d: int, t: Token)
    requires !t.Number?
    ensures ShuntingYard.Numbers([Number(d), t]) == [d]
    ensures StringsPath.OperatorsOf([Number(d), t]) == (if IsOperator(t) then [t] else [])
  {
    assert [Number(d), t] == [Number(d)] + [t];
    ScanSplits([Number(d)], [t]);
    ScanOne(Number(d));
    ScanOne(t);
  }

  lemma {:induction false} SixPlusOneTokens()
    ensures ExprTokens(SixPlusOne) == [Number(2), Multiply] + [Number(3), Plus] + [Number(1)]
  {
  }

  /** The tokens of `2 * 3 + 1`, for any three digits. */
  lemma {:induction false} SixPlusOneScans(ts: seq<Token>, x: int, y: int, z: int)
    requires ts == [Number(x), Multiply] + [Number(y), Plus] + [Number(z)]
    ensures ShuntingYard.Numbers(ts) == [x, y, z]
    ensures StringsPath.OperatorsOf(ts) == [Multiply, Plus]
  {
    ScanPair(x, Multiply);
    ScanPair(y, Plus);
    ScanOne(Number(z));
    ScanThree(ts, [Number(x), Multiply], [Number(y), Plus], [Number(z)]);
  }

  lemma {:induction false} RepeatedTokens()
    ensures ExprTokens(Repeated) == [Number(2), Plus] + [Number(2), Plus] + [Number(2), Plus] + [Number(1)]
  {
  }

  /** The tokens of `2 + 2 + 2 + 1`, for any four digits. */
  lemma {:induction false} RepeatedScans(ts: seq<Token>, w: int, x: int, y: int, z: int)
    requires ts == [Number(w), Plus] + [Number(x), Plus] + [Number(y), Plus] + [Number(z)]
    ensures ShuntingYard.Numbers(ts) == [w, x, y, z]
    ensures StringsPath.OperatorsOf(ts) == [Plus, Plus, Plus]
  {
    var a, b, c, d := [Number(w), Plus], [Number(x), Plus], [Number(y), Plus], [Number(z)];
    ScanPair(w, Plus);
    ScanPair(x, Plus);
    ScanPair(y, Plus);
    ScanOne(Number(z));
    ScanThree(a + b + c, a, b, c);
    ScanSplits(a + b + c, d);
  }

  lemma {:induction false} GroupedProductTokens()
    ensures ExprTokens(GroupedProduct)
      == [Number(1), Multiply] + [LeftParentheses] + [Number(2), Plus] + [Number(1), RightParentheses] + [Plus] + [Number(1)]
  {
  }

  /** The tokens of `1 * (2 + 1) + 1`, for any four digits. */
  lemma {:induction false} GroupedProductScans(ts: seq<Token>, w: int, x: int, y: int, z: int)
    requires ts == [Number(w), Multiply] + [LeftParentheses] + [Number(x), Plus] + [Number(y), RightParentheses] + [Plus] + [Number(z)]
    ensures ShuntingYard.Numbers(ts) == [w, x, y, z]
    ensures StringsPath.OperatorsOf(ts) == [Multiply, Plus, Plus]
  {
    ScanPair(w, Multiply);
    ScanOne(LeftParentheses);
    ScanPair(x, Plus);
    ScanPair(y, RightParentheses);
    ScanOne(Plus);
    ScanOne(Number(z));
    var a, b, c := [Number(w), Multiply], [LeftParentheses], [Number(x), Plus];
    var d, e, f := [Number(y), RightParentheses], [Plus], [Number(z)];
    NumbersSix(ts, a, b, c, d, e, f);
    OperatorsSix(ts, a, b, c, d, e, f);
  }

  lemma {:induction false} ThreeTokens()
    ensures ExprTokens(Three) == [Number(1), Plus] + [Number(1), Plus] + [Number(1)]
  {
  }

  /** The tokens of `1 + 1 + 1`, for any three digits. */
  lemma {:induction false} ThreeScans(ts: seq<Token>, x: int, y: int, z: int)
    requires ts == [Number(x), Plus] + [Number(y), Plus] + [Number(z)]
    ensures ShuntingYard.Numbers(ts) == [x, y, z]
    ensures StringsPath.OperatorsOf(ts) == [Plus, Plus]
  {
    ScanPair(x, Plus);
    ScanPair(y, Plus);
    ScanOne(Number(z));
    ScanThree(ts, [Number(x), Plus], [Number(y), Plus], [Number(z)]);
  }

  // ----- Rendering the Strings texts -----

  /** `2 * 3 + 1` is drained `1`, then `3 * 2`, and written as
      "1 + 2 + 2 + 2", using every operator. */
  lemma {:induction false} SixPlusOneRenders()
    ensures StringsPath.Rebuild([2, 3, 1], [Multiply, Plus]) == ("1 + 2 + 2 + 2", [])
  {
    DigitNumerals();
    StringsPath.RebuildPlus([2, 3], 1, [Multiply]);
    assert [2, 3] + [1] == [2, 3, 1] && [Multiply] + [Plus] == [Multiply, Plus];
    StringsPath.RebuildMultiply([], 2, 3, []);
    assert [] + [2, 3] == [2, 3] && [] + [Multiply] == [Multiply];
    assert StringsPath.Rebuild([], []) == ("", []);
    assert StringsPath.Copies(2, 3) == "2 + 2 + 2";
    assert "1" + " + " + ("2 + 2 + 2" + "") == "1 + 2 + 2 + 2";
  }

  /** A lone number is written bare. */
  lemma {:induction false} LoneNumberRenders(n: int)
    ensures StringsPath.Rebuild([n], []) == (StringsPath.Decimal(n), [])
  {
    assert Top([n]) == n && Rest([n]) == [];
    assert StringsPath.Rebuild([], []) == ("", []);
    assert StringsPath.Decimal(n) + "" == StringsPath.Decimal(n);
  }

  /** `2 + 2 + 2 + 1` is a plain sum and is written last number first. */
  lemma {:induction false} RepeatedRenders()
    ensures StringsPath.Rebuild([2, 2, 2, 1], [Plus, Plus, Plus]) == ("1 + 2 + 2 + 2", [])
  {
    DigitNumerals();
    StringsPath.RebuildPlus([2, 2, 2], 1, [Plus, Plus]);
    assert [2, 2, 2] + [1] == [2, 2, 2, 1] && [Plus, Plus] + [Plus] == [Plus, Plus, Plus];
    StringsPath.RebuildPlus([2, 2], 2, [Plus]);
    assert [2, 2] + [2] == [2, 2, 2] && [Plus] + [Plus] == [Plus, Plus];
    StringsPath.RebuildPlus([2], 2, []);
    assert [2] + [2] == [2, 2] && [] + [Plus] == [Plus];
    LoneNumberRenders(2);
    assert "1" + " + " + ("2" + " + " + ("2" + " + " + "2")) == "1 + 2 + 2 + 2";
  }

  /** `1 * (2 + 1) + 1` is drained `1`, `1`, then `2 * 1`, and written as
      "1 + 1 + 1 + 1": the parentheses are lost. */
  lemma {:induction false} GroupedProductRenders()
    ensures StringsPath.Rebuild([1, 2, 1, 1], [Multiply, Plus, Plus]) == ("1 + 1 + 1 + 1", [])
  {
    DigitNumerals();
    StringsPath.RebuildPlus([1, 2, 1], 1, [Multiply, Plus]);
    assert [1, 2, 1] + [1] == [1, 2, 1, 1] && [Multiply, Plus] + [Plus] == [Multiply, Plus, Plus];
    StringsPath.RebuildPlus([1, 2], 1, [Multiply]);
    assert [1, 2] + [1] == [1, 2, 1] && [Multiply] + [Plus] == [Multiply, Plus];
    StringsPath.RebuildMultiply([], 1, 2, []);
    assert [] + [1, 2] == [1, 2] && [] + [Multiply] == [Multiply];
    assert StringsPath.Rebuild([], []) == ("", []);
    assert StringsPath.Copies(1, 2) == "1 + 1";
    assert "1" + " + " + ("1" + " + " + ("1 + 1" + "")) == "1 + 1 + 1 + 1";
  }

  lemma {:induction false} ThreeRenders()
    ensures StringsPath.Rebuild([1, 1, 1], [Plus, Plus]) == ("1 + 1 + 1", [])
  {
    DigitNumerals();
    StringsPath.RebuildPlus([1, 1], 1, [Plus]);
    assert [1, 1] + [1] == [1, 1, 1] && [Plus] + [Plus] == [Plus, Plus];
    StringsPath.RebuildPlus([1], 1, []);
    assert [1] + [1] == [1, 1] && [] + [Plus] == [Plus];
    LoneNumberRenders(1);
    assert "1" + " + " + ("1" + " + " + "1") == "1 + 1 + 1";
  }

  // ----- The Strings verdicts -----

  /** The renderings of a two-sided Strings equation whose left side uses
      every operator it scans. */
  lemma {:induction false} TwoSidedRenderings(l: Expr, r: Expr, left: string, right: string)
    requires ExprFits(Strings, l) && ExprFits(Strings, r)
    requires StringsPath.Rebuild(ShuntingYard.Numbers(ExprTokens(l)), StringsPath.OperatorsOf(ExprTokens(l))) == (left, [])
    requires StringsPath.Rebuild(ShuntingYard.Numbers(ExprTokens(r)), StringsPath.OperatorsOf(ExprTokens(r))).0 == right
    ensures Driver.StringResults(Texts(Strings, [l, r]), []) == [left, right]
    ensures Driver.StringsVerdict(Equation(Strings, [l, r])) <==> left == right
  {
    var texts := Texts(Strings, [l, r]);
    EquationPieces(Strings, [l, r]);
    StringsScanSeesTokens(l);
    StringsScanSeesTokens(r);
    assert [] + StringsPath.ScanOperators(texts[0]) == StringsPath.ScanOperators(texts[0]);
    assert [] + StringsPath.ScanOperators(texts[1]) == StringsPath.ScanOperators(texts[1]);
    assert texts[1..] == [texts[1]];
    assert Driver.StringResults([texts[1]], []) == [right] by {
      assert [texts[1]][1..] == [];
    }
  }

  /** In Strings, `2 * 3 + 1 = 2 + 2 + 2 + 1` is valid: both sides are
      written as "1 + 2 + 2 + 2". */
  lemma {:induction false} StringsLineIsValid()
    ensures Driver.StringResults(Texts(Strings, [SixPlusOne, Repeated]), []) == ["1 + 2 + 2 + 2", "1 + 2 + 2 + 2"]
    ensures Driver.StringsVerdict(Equation(Strings, [SixPlusOne, Repeated]))
  {
    SixPlusOneTokens();
    SixPlusOneScans(ExprTokens(SixPlusOne), 2, 3, 1);
    RepeatedTokens();
    RepeatedScans(ExprTokens(Repeated), 2, 2, 2, 1);
    SixPlusOneRenders();
    RepeatedRenders();
    TwoSidedRenderings(SixPlusOne, Repeated, "1 + 2 + 2 + 2", "1 + 2 + 2 + 2");
  }

  /** In Strings, `1 * (2 + 1) + 1 = 1 + 1 + 1` is invalid: the sides are
      written "1 + 1 + 1 + 1" and "1 + 1 + 1". */
  lemma {:induction false} LastStringsLineIsInvalid()
    ensures Driver.StringResults(Texts(Strings, [GroupedProduct, Three]), []) == ["1 + 1 + 1 + 1", "1 + 1 + 1"]
    ensures !Driver.StringsVerdict(Equation(Strings, [GroupedProduct, Three]))
  {
    GroupedProductTokens();
    GroupedProductScans(ExprTokens(GroupedProduct), 1, 2, 1, 1);
    ThreeTokens();
    ThreeScans(ExprTokens(Three), 1, 1, 1);
    GroupedProductRenders();
    ThreeRenders();
    assert |"1 + 1 + 1 + 1"| != |"1 + 1 + 1"|;
    TwoSidedRenderings(GroupedProduct, Three, "1 + 1 + 1 + 1", "1 + 1 + 1");
  }

  // ----- The whole document -----

  /** The events of the embedded document around its six texts. */
  function Document(s1: string, a1: string, z1: string, a2: string, b1: string, s2: string): seq<Driver.Event> {
    [Driver.Start("strings")] + ([Driver.Text(s1)] + AlgebraPart(a1, z1, a2) + BooleanPart(b1) + [Driver.Text(s2), Driver.End("strings")])
  }

  function AlgebraPart(a1: string, z1: string, a2: string): seq<Driver.Event> {
    [Driver.Start("algebra")] + ([Driver.Text(a1)] + (SetsPart(z1) + ([Driver.Text(a2)] + [Driver.End("algebra")])))
  }

  function SetsPart(z1: string): seq<Driver.Event> {
    [Driver.Start("sets")] + ([Driver.Text(z1)] + [Driver.End("sets")])
  }

  function BooleanPart(b1: string): seq<Driver.Event> {
    [Driver.Start("boolean")] + ([Driver.Text(b1)] + [Driver.End("boolean")])
  }

  lemma {:induction false} ElementNames()
    ensures Driver.DomainOf("strings") == Some(Strings) && Driver.DomainOf("algebra") == Some(Algebra)
    ensures Driver.DomainOf("sets") == Some(Sets) && Driver.DomainOf("boolean") == Some(Boolean)
  {
  }

  /** The text of the Sets element, then its end tag. */
  lemma {:induction false} SetsClosing(z1: string, rest: seq<Driver.Event>)
    requires Driver.TextVerdict([Strings, Algebra, Sets], z1) == Ok(false)
    ensures Driver.Interpret([Strings, Algebra, Sets], [Driver.Text(z1)] + ([Driver.End("sets")] + rest))
      == Driver.Report([false] + Driver.Interpret([Strings, Algebra], rest).verdicts, Driver.Interpret([Strings, Algebra], rest).panic)
  {
    ElementNames();
    assert Rest([Strings, Algebra, Sets]) == [Strings, Algebra];
    Driver.InterpretEnd([Strings, Algebra, Sets], "sets", rest);
    Driver.InterpretText([Strings, Algebra, Sets], z1, [Driver.End("sets")] + rest);
  }

  /** The Sets element inside the Algebra element. */
  lemma {:induction false} SetsPartVerdicts(z1: string, rest: seq<Driver.Event>)
    requires Driver.TextVerdict([Strings, Algebra, Sets], z1) == Ok(false)
    ensures Driver.Interpret([Strings, Algebra], SetsPart(z1) + rest)
      == Driver.Report([false] + Driver.Interpret([Strings, Algebra], rest).verdicts, Driver.Interpret([Strings, Algebra], rest).panic)
  {
    ElementNames();
    assert [Strings, Algebra] + [Sets] == [Strings, Algebra, Sets];
    SetsClosing(z1, rest);
    Driver.InterpretStart([Strings, Algebra], "sets", [Driver.Text(z1)] + ([Driver.End("sets")] + rest));
    EventsAssociate([Driver.Text(z1)], [Driver.End("sets")], rest);
    EventsAssociate([Driver.Start("sets")], [Driver.Text(z1)] + [Driver.End("sets")], rest);
  }

  lemma {:induction false} EventsAssociate(a: seq<Driver.Event>, b: seq<Driver.Event>, c: seq<Driver.Event>)
    ensures (a + b) + c == a + (b + c)
  {
  }

  lemma {:induction false} AlgebraPartThen(a1: string, z1: string, a2: string, rest: seq<Driver.Event>)
    ensures AlgebraPart(a1, z1, a2) + rest
      == [Driver.Start("algebra")] + ([Driver.Text(a1)] + (SetsPart(z1) + ([Driver.Text(a2)] + ([Driver.End("algebra")] + rest))))
  {
    var w := [Driver.Text(a2)] + [Driver.End("algebra")];
    var y := SetsPart(z1) + w;
    EventsAssociate([Driver.Text(a2)], [Driver.End("algebra")], rest);
    EventsAssociate(SetsPart(z1), w, rest);
    EventsAssociate([Driver.Text(a1)], y, rest);
    EventsAssociate([Driver.Start("algebra")], [Driver.Text(a1)] + y, rest);
  }

  /** The last text of the Algebra element, then its end tag. */
  lemma {:induction false} AlgebraClosing(a2: string, rest: seq<Driver.Event>)
    requires Driver.TextVerdict([Strings, Algebra], a2) == Ok(true)
    ensures Driver.Interpret([Strings, Algebra], [Driver.Text(a2)] + ([Driver.End("algebra")] + rest))
      == Driver.Report([true] + Driver.Interpret([Strings], rest).verdicts, Driver.Interpret([Strings], rest).panic)
  {
    ElementNames();
    assert Rest([Strings, Algebra]) == [Strings];
    Driver.InterpretEnd([Strings, Algebra], "algebra", rest);
    Driver.InterpretText([Strings, Algebra], a2, [Driver.End("algebra")] + rest);
  }

  /** The start tag of the Algebra element, then its first text. */
  lemma {:induction false} AlgebraOpening(a1: string, rest: seq<Driver.Event>)
    requires Driver.TextVerdict([Strings, Algebra], a1) == Ok(true)
    ensures Driver.Interpret([Strings], [Driver.Start("algebra")] + ([Driver.Text(a1)] + rest))
      == Driver.Report([true] + Driver.Interpret([Strings, Algebra], rest).verdicts, Driver.Interpret([Strings, Algebra], rest).panic)
  {
    ElementNames();
    assert [Strings] + [Algebra] == [Strings, Algebra];
    Driver.InterpretText([Strings, Algebra], a1, rest);
    Driver.InterpretStart([Strings], "algebra", [Driver.Text(a1)] + rest);
  }

  lemma {:induction false} AlgebraVerdictOrder(inner: seq<bool>, middle: seq<bool>, outer: seq<bool>)
    requires middle == [false] + ([true] + inner) && outer == [true] + middle
    ensures outer == [true, false, true] + inner
  {
  }

  /** The Algebra element leaves the domain stack as it found it. */
  lemma {:induction false} AlgebraPartVerdicts(a1: string, z1: string, a2: string, rest: seq<Driver.Event>)
    requires Driver.TextVerdict([Strings, Algebra], a1) == Ok(true)
    requires Driver.TextVerdict([Strings, Algebra, Sets], z1) == Ok(false)
    requires Driver.TextVerdict([Strings, Algebra], a2) == Ok(true)
    ensures Driver.Interpret([Strings], AlgebraPart(a1, z1, a2) + rest)
      == Driver.Report([true, false, true] + Driver.Interpret([Strings], rest).verdicts, Driver.Interpret([Strings], rest).panic)
  {
    var r := Driver.Interpret([Strings], rest);
    var afterSets := [Driver.Text(a2)] + ([Driver.End("algebra")] + rest);
    AlgebraClosing(a2, rest);
    SetsPartVerdicts(z1, afterSets);
    var afterA1 := SetsPart(z1) + afterSets;
    var m := Driver.Interpret([Strings, Algebra], afterA1);
    assert m.verdicts == [false] + ([true] + r.verdicts) && m.panic == r.panic;
    AlgebraOpening(a1, afterA1);
    AlgebraPartThen(a1, z1, a2, rest);
    AlgebraVerdictOrder(r.verdicts, m.verdicts, [true] + m.verdicts);
  }

  lemma {:induction false} BooleanPartVerdicts(b1: string, rest: seq<Driver.Event>)
    requires Driver.TextVerdict([Strings, Boolean], b1) == Ok(true)
    ensures Driver.Interpret([Strings], BooleanPart(b1) + rest)
      == Driver.Report([true] + Driver.Interpret([Strings], rest).verdicts, Driver.Interpret([Strings], rest).panic)
  {
    ElementNames();
    var d1, d2 := [Strings], [Strings, Boolean];
    assert d1 + [Boolean] == d2 && Rest(d2) == d1;
    Driver.InterpretEnd(d2, "boolean", rest);
    Driver.InterpretText(d2, b1, [Driver.End("boolean")] + rest);
    Driver.InterpretStart(d1, "boolean", [Driver.Text(b1)] + ([Driver.End("boolean")] + rest));
    assert BooleanPart(b1) + rest == [Driver.Start("boolean")] + ([Driver.Text(b1)] + ([Driver.End("boolean")] + rest));
  }

  /** A document of this shape, whose texts get these verdicts in their
      domains, is reported as valid, valid, invalid, valid, valid, invalid,
      without a panic. */
  lemma {:induction false} DocumentShape(s1: string, a1: string, z1: string, a2: string, b1: string, s2: string)
    requires Driver.TextVerdict([Strings], s1) == Ok(true)
    requires Driver.TextVerdict([Strings, Algebra], a1) == Ok(true)
    requires Driver.TextVerdict([Strings, Algebra, Sets], z1) == Ok(false)
    requires Driver.TextVerdict([Strings, Algebra], a2) == Ok(true)
    requires Driver.TextVerdict([Strings, Boolean], b1) == Ok(true)
    requires Driver.TextVerdict([Strings], s2) == Ok(false)
    ensures Driver.Interpret([], Document(s1, a1, z1, a2, b1, s2)) == Driver.Report([true, true, false, true, true, false], None)
  {
    ClosingText(s2);
    DocumentBody(s1, a1, z1, a2, b1, [Driver.Text(s2), Driver.End("strings")]);
    DocumentRegroup(s1, a1, z1, a2, b1, s2);
  }

  /** The Strings element up to its last text, followed by events `tail`
      that leave a single invalid verdict. */
  lemma {:induction false} DocumentBody(s1: string, a1: string, z1: string, a2: string, b1: string, tail: seq<Driver.Event>)
    requires Driver.TextVerdict([Strings], s1) == Ok(true)
    requires Driver.TextVerdict([Strings, Algebra], a1) == Ok(true)
    requires Driver.TextVerdict([Strings, Algebra, Sets], z1) == Ok(false)
    requires Driver.TextVerdict([Strings, Algebra], a2) == Ok(true)
    requires Driver.TextVerdict([Strings, Boolean], b1) == Ok(true)
    requires Driver.Interpret([Strings], tail) == Driver.Report([false], None)
    ensures Driver.Interpret([], [Driver.Start("strings")] + ([Driver.Text(s1)] + (AlgebraPart(a1, z1, a2) + (BooleanPart(b1) + tail))))
      == Driver.Report([true, true, false, true, true, false], None)
  {
    var afterAlgebra := BooleanPart(b1) + tail;
    var middle := AlgebraPart(a1, z1, a2) + afterAlgebra;
    BooleanPartVerdicts(b1, tail);
    var r1 := Driver.Interpret([Strings], afterAlgebra);
    assert r1.verdicts == [true, false] && r1.panic == None;
    AlgebraPartVerdicts(a1, z1, a2, afterAlgebra);
    var r2 := Driver.Interpret([Strings], middle);
    assert r2.verdicts == [true, false, true] + r1.verdicts && r2.panic == None;
    OpeningText(s1, middle);
    DocumentVerdictOrder(r1.verdicts, r2.verdicts);
  }

  lemma {:induction false} DocumentVerdictOrder(inner: seq<bool>, outer: seq<bool>)
    requires inner == [true, false] && outer == [true, false, true] + inner
    ensures [true] + outer == [true, true, false, true, true, false]
  {
    assert outer == [true, false, true, true, false];
  }

  /** The last text of the Strings element, then its end tag. */
  lemma {:induction false} ClosingText(s2: string)
    requires Driver.TextVerdict([Strings], s2) == Ok(false)
    ensures Driver.Interpret([Strings], [Driver.Text(s2), Driver.End("strings")]) == Driver.Report([false], None)
  {
    ElementNames();
    assert Rest([Strings]) == [];
    assert Driver.Interpret([], []) == Driver.Report([], None);
    Driver.InterpretEnd([Strings], "strings", []);
    assert [Driver.End("strings")] + [] == [Driver.End("strings")];
    Driver.InterpretText([Strings], s2, [Driver.End("strings")]);
    assert [Driver.Text(s2), Driver.End("strings")] == [Driver.Text(s2)] + [Driver.End("strings")];
  }

  /** The start tag of the Strings element, then its first text. */
  lemma {:induction false} OpeningText(s1: string, middle: seq<Driver.Event>)
    requires Driver.TextVerdict([Strings], s1) == Ok(true)
    ensures Driver.Interpret([], [Driver.Start("strings")] + ([Driver.Text(s1)] + middle))
      == Driver.Report([true] + Driver.Interpret([Strings], middle).verdicts, Driver.Interpret([Strings], middle).panic)
  {
    ElementNames();
    assert [] + [Strings] == [Strings];
    Driver.InterpretText([Strings], s1, middle);
    Driver.InterpretStart([], "strings", [Driver.Text(s1)] + middle);
  }

  lemma {:induction false} DocumentRegroup(s1: string, a1: string, z1: string, a2: string, b1: string, s2: string)
    ensures Document(s1, a1, z1, a2, b1, s2) == [Driver.Start("strings")]
      + ([Driver.Text(s1)] + (AlgebraPart(a1, z1, a2) + (BooleanPart(b1) + [Driver.Text(s2), Driver.End("strings")])))
  {
    var a, b, t := AlgebraPart(a1, z1, a2), BooleanPart(b1), [Driver.Text(s2), Driver.End("strings")];
    EventsAssociate([Driver.Text(s1)] + a, b, t);
    EventsAssociate([Driver.Text(s1)], a, b + t);
  }
}
