/** The Strings pathway of src/main.rs: `tokenize_string` appends the digits
    and the operators of a piece to two vectors owned by the caller, and
    `recognize_string_expression` drains them from the end into a textual
    rendering in which a product is spelled out as a repeated addition. */
module StringsPath {
  import opened Tokens
  import Tokenizer
  import ShuntingYard

  // ----- Decimal rendering (`format!("{}", n)`) -----

  function DigitChar(d: int): char
    requires 0 <= d <= 9
  {
    ('0' as int + d) as char
  }

  function DigitValue(c: char): int
    requires Tokenizer.IsDigit(c)
  {
    c as int - '0' as int
  }

  /** The decimal numeral of a non-negative integer, without leading zeros. */
  function Natural(n: nat): (r: string)
    ensures r != []
    ensures forall i :: 0 <= i < |r| ==> Tokenizer.IsDigit(r[i])
    ensures |r| > 1 ==> r[0] != '0'
  {
    if n < 10 then [DigitChar(n)] else Natural(n / 10) + [DigitChar(n % 10)]
  }

  /** `{}` of an integer: a minus sign for a negative value, then its
      magnitude. */
  function Decimal(n: int): string {
    if n < 0 then "-" + Natural(-n) else Natural(n)
  }

  /** The value of a string of digits. */
  function ParseNatural(s: string): nat
    requires forall i :: 0 <= i < |s| ==> Tokenizer.IsDigit(s[i])
  {
    if s == [] then 0 else 10 * ParseNatural(Rest(s)) + DigitValue(Top(s))
  }

  /** Rendering a number loses nothing: reading the numeral back gives the
      number. */
  lemma {:induction false} NaturalRoundTrip(n: nat)
    ensures ParseNatural(Natural(n)) == n
  {
    if n >= 10 {
      NaturalRoundTrip(n / 10);
      assert Rest(Natural(n)) == Natural(n / 10);
    }
  }

  /** A digit, the only kind of number the pathway handles, renders as one
      character. */
  lemma {:induction false} DigitRendersAsOneCharacter(d: int)
    requires 0 <= d <= 9
    ensures Decimal(d) == [DigitChar(d)]
  {
  }

  // ----- `tokenize_string` -----

  /** The digits of a piece, in order. */
  function ScanDigits(s: string): (r: seq<int>)
    ensures forall i :: 0 <= i < |r| ==> 0 <= r[i] <= 9
  {
    if s == [] then []
    else ScanDigits(Rest(s)) + (if Tokenizer.IsDigit(Top(s)) then [DigitValue(Top(s))] else [])
  }

  /** The operators of a piece, in order. */
  function ScanOperators(s: string): (r: seq<Token>)
    ensures forall i :: 0 <= i < |r| ==> r[i] == Plus || r[i] == Multiply
  {
    if s == [] then []
    else ScanOperators(Rest(s)) + (if Top(s) == '+' then [Plus] else if Top(s) == '*' then [Multiply] else [])
  }

  /** The operators of a token sequence, in order. */
  function OperatorsOf(s: seq<Token>): seq<Token> {
    if s == [] then [] else OperatorsOf(Rest(s)) + (if IsOperator(Top(s)) then [Top(s)] else [])
  }

  /** The Strings scanner sees exactly the digits and operators that
      `tokenize` turns into tokens, in the same order; only the brackets are
      lost. */
  lemma {:induction false} ScanAgreesWithTokenize(s: string)
    ensures ScanDigits(s) == ShuntingYard.Numbers(Tokenizer.TokenizePiece(s))
    ensures ScanOperators(s) == OperatorsOf(Tokenizer.TokenizePiece(s))
  {
    if s != [] {
      ScanAgreesWithTokenize(Rest(s));
      var prev := Tokenizer.TokenizePiece(Rest(s));
      var tail := Tokenizer.CharTokens(Top(s));
      assert Tokenizer.TokenizePiece(s) == prev + tail;
      if tail != [] {
        assert Rest(prev + tail) == prev;
        assert Top(prev + tail) == tail[0];
      } else {
        assert prev + tail == prev;
      }
    }
  }

  // ----- `recognize_string_expression` -----

  /** `n` copies of `m`'s numeral joined by " + ": what a `*` over `n` and `m`
      renders as. The loop `for i in 1..n` runs `n - 1` times, so `n` of 0
      or 1 gives the single numeral. */
  function Copies(m: int, n: int): string
    decreases n
  {
    if n <= 1 then Decimal(m) else Copies(m, n - 1) + " + " + Decimal(m)
  }

  /** Parts joined by " + ". */
  function SumText(parts: seq<string>): string {
    if parts == [] then ""
    else if |parts| == 1 then parts[0]
    else parts[0] + " + " + SumText(parts[1..])
  }

  /** `k` copies of `x`. */
  function Repeat(x: string, k: nat): (r: seq<string>)
    ensures |r| == k
    ensures forall i :: 0 <= i < k ==> r[i] == x
  {
    if k == 0 then [] else Repeat(x, k - 1) + [x]
  }

  lemma {:induction false} SumTextSnoc(parts: seq<string>, x: string)
    requires parts != []
    ensures SumText(parts + [x]) == SumText(parts) + " + " + x
    decreases |parts|
  {
    if |parts| == 1 {
      assert (parts + [x])[1..] == [x];
    } else {
      assert (parts + [x])[1..] == parts[1..] + [x];
      SumTextSnoc(parts[1..], x);
    }
  }

  /** A product is written as a repeated addition: `n * m` renders as
      `max(n, 1)` copies of `m` joined by " + ". */
  lemma {:induction false} MultiplyRendersAsRepeatedAddition(m: int, n: int)
    ensures Copies(m, n) == SumText(Repeat(Decimal(m), if n < 1 then 1 else n))
    decreases n
  {
    if n <= 1 {
      assert Repeat(Decimal(m), 1) == [Decimal(m)];
    } else {
      MultiplyRendersAsRepeatedAddition(m, n - 1);
      var k := if n - 1 < 1 then 1 else n - 1;
      assert Repeat(Decimal(m), n) == Repeat(Decimal(m), k) + [Decimal(m)];
      SumTextSnoc(Repeat(Decimal(m), k), Decimal(m));
    }
  }

  /** One round of the draining loop: the text it writes and the vectors
      it leaves. The number on top is popped with the operator on top: `+`
      writes the number followed by " + ", `*` pops the next number and
      writes that one as many times as the first says, and with no operator
      left the number is written bare. */
  function Pop(numbers: seq<int>, operators: seq<Token>): (r: (string, seq<int>, seq<Token>))
    requires numbers != []
    ensures |r.1| < |numbers| && r.1 == numbers[..|r.1|]
    ensures |r.2| <= |operators| && r.2 == operators[..|r.2|]
  {
    var n, ns := Top(numbers), Rest(numbers);
    if operators == [] then (Decimal(n), ns, [])
    else
      var op, os := Top(operators), Rest(operators);
      if op == Plus then (Decimal(n) + " + ", ns, os)
      else if op == Multiply then
        if ns == [] then ("", [], os) else (Copies(Top(ns), n), Rest(ns), os)
      else ("", ns, os)
  }

  /** One round of the draining loop takes one number, or two when it
      meets a `*`, and at most one operator. */
  lemma {:induction false} PopConsumes(numbers: seq<int>, operators: seq<Token>)
    requires numbers != []
    ensures var r := Pop(numbers, operators);
      && |numbers| <= |r.1| + 2
      && |operators| <= |r.2| + 1
  {
  }

  /** What draining the two vectors produces: the rendering, and the
      operators left over once the numbers run out. */
  function Rebuild(numbers: seq<int>, operators: seq<Token>): (r: (string, seq<Token>))
    ensures |r.1| <= |operators| && r.1 == operators[..|r.1|]
    decreases |numbers|
  {
    if numbers == [] then ("", operators)
    else
      var (piece, ns, os) := Pop(numbers, operators);
      var rest := Rebuild(ns, os);
      (piece + rest.0, rest.1)
  }

  /** The numerals of a sequence of numbers, in the same order. */
  function Decimals(s: seq<int>): (r: seq<string>)
    ensures |r| == |s|
  {
    if s == [] then [] else [Decimal(s[0])] + Decimals(s[1..])
  }

  /** A sum with one `+` between each two numbers renders as the numbers,
      last first, joined by " + ", and consumes every operator. */
  lemma {:induction false} SumRendersReversed(numbers: seq<int>, operators: seq<Token>)
    requires |numbers| == |operators| + 1
    requires forall i :: 0 <= i < |operators| ==> operators[i] == Plus
    ensures Rebuild(numbers, operators) == (SumText(Decimals(Reversed(numbers))), [])
    decreases |numbers|
  {
    var ns := Rest(numbers);
    if operators == [] {
      assert ns == [];
      assert Rebuild(ns, []) == ("", []);
      assert Decimal(Top(numbers)) + "" == Decimal(Top(numbers));
      assert Reversed(numbers) == [Top(numbers)];
      assert Decimals(Reversed(numbers)) == [Decimal(Top(numbers))];
    } else {
      assert Top(operators) == operators[|operators| - 1];
      SumRendersReversed(ns, Rest(operators));
      assert Decimals(Reversed(numbers)) == [Decimal(Top(numbers))] + Decimals(Reversed(ns)) by {
        assert Reversed(numbers) == [Top(numbers)] + Reversed(ns);
        assert Reversed(numbers)[1..] == Reversed(ns);
      }
    }
  }

  /** A `+` on top of the operators writes the number on top first,
      followed by " + ", then the rendering of the rest. */
  lemma {:induction false} RebuildPlus(ns: seq<int>, n: int, os: seq<Token>)
    ensures Rebuild(ns + [n], os + [Plus]) == (Decimal(n) + " + " + Rebuild(ns, os).0, Rebuild(ns, os).1)
  {
    assert Top(ns + [n]) == n && Rest(ns + [n]) == ns;
    assert Top(os + [Plus]) == Plus && Rest(os + [Plus]) == os;
  }

  /** A `*` on top of the operators writes the second number as many times
      as the number on top says, then the rendering of the rest; no " + "
      separates the two. */
  lemma {:induction false} RebuildMultiply(ns: seq<int>, m: int, n: int, os: seq<Token>)
    ensures Rebuild(ns + [m, n], os + [Multiply]) == (Copies(m, n) + Rebuild(ns, os).0, Rebuild(ns, os).1)
  {
    assert Top(ns + [m, n]) == n && Rest(ns + [m, n]) == ns + [m];
    assert Top(ns + [m]) == m && Rest(ns + [m]) == ns;
    assert Top(os + [Multiply]) == Multiply && Rest(os + [Multiply]) == os;
  }

  lemma {:induction false} AppendAssociates(a: string, b: string, c: string)
    ensures (a + b) + c == a + (b + c)
  {
  }

  /** The owner of the two vectors the pathway shares between the pieces of
      one text: `numbers` and `operators`, top last. */
  class StringStacks {
    var numbers: seq<int>
    var operators: seq<Token>

    constructor ()
      ensures numbers == [] && operators == []
    {
      numbers := [];
      operators := [];
    }

    /** `tokenize_string`: append the digits and operators of `text`. */
    method TokenizeString(text: string)
      modifies this
      ensures numbers == old(numbers) + ScanDigits(text)
      ensures operators == old(operators) + ScanOperators(text)
    {
      for k := 0 to |text|
        invariant numbers == old(numbers) + ScanDigits(text[..k])
        invariant operators == old(operators) + ScanOperators(text[..k])
      {
        var c := text[k];
        assert Rest(text[..k + 1]) == text[..k] && Top(text[..k + 1]) == c;
        if '0' <= c <= '9' {
          numbers := numbers + [c as int - '0' as int];
        } else if c == '+' {
          operators := operators + [Plus];
        } else if c == '*' {
          operators := operators + [Multiply];
        }
      }
      assert text[..|text|] == text;
    }

    /** `recognize_string_expression`: drain the numbers, leaving the
        operators they did not use. */
    method RecognizeStringExpression() returns (s: string)
      modifies this
      ensures numbers == []
      ensures (s, operators) == Rebuild(old(numbers), old(operators))
    {
      s := "";
      assert s + Rebuild(numbers, operators).0 == Rebuild(numbers, operators).0;
      while numbers != []
        invariant (s + Rebuild(numbers, operators).0, Rebuild(numbers, operators).1) == Rebuild(old(numbers), old(operators))
        decreases |numbers|
      {
        ghost var prefix, popped, r := s, Pop(numbers, operators), Rebuild(numbers, operators);
        var number := Top(numbers);
        numbers := Rest(numbers);
        if operators != [] {
          var operation := Top(operators);
          operators := Rest(operators);
          if operation == Plus {
            s := s + Decimal(number) + " + ";
          } else if operation == Multiply {
            if numbers != [] {
              var nextNum := Top(numbers);
              numbers := Rest(numbers);
              s := s + Decimal(nextNum);
              var i := 1;
              while i < number
                invariant 1 <= i
                invariant i <= number || i == 1
                invariant s == prefix + Copies(nextNum, i)
              {
                s := s + " + " + Decimal(nextNum);
                i := i + 1;
              }
              assert i == number || (number < 1 && i == 1);
            }
          }
        } else {
          s := s + Decimal(number);
        }
        assert s == prefix + popped.0 && numbers == popped.1 && operators == popped.2;
        assert r == (popped.0 + Rebuild(numbers, operators).0, Rebuild(numbers, operators).1);
        AppendAssociates(prefix, popped.0, Rebuild(numbers, operators).0);
      }
      assert s + "" == s;
    }
  }
}
