/** `tokenize` of src/main.rs: the text of one element is split on `=`, each
    piece is trimmed and scanned one character at a time; single decimal
    digits, the two operators and the four brackets become tokens and every
    other character is dropped. */
module Tokenizer {
  import opened Tokens

  predicate IsDigit(c: char) {
    '0' <= c <= '9'
  }

  /** The characters the scanner turns into a token. */
  predicate IsRecognized(c: char) {
    IsDigit(c) || c == '(' || c == ')' || c == '{' || c == '}' || c == '+' || c == '*'
  }

  /** What a token coming out of the scanner looks like: a one-digit number,
      an operator or a bracket, never a set. */
  predicate IsLexical(t: Token) {
    !t.Set? && (t.Number? ==> 0 <= t.n <= 9)
  }

  /** `char::is_whitespace`: the Unicode White_Space characters. */
  predicate IsWhitespace(c: char) {
    ('\t' <= c <= '\r') || c == ' ' || c == '\U{85}' || c == '\U{A0}' || c == '\U{1680}'
    || ('\U{2000}' <= c <= '\U{200A}') || c == '\U{2028}' || c == '\U{2029}'
    || c == '\U{202F}' || c == '\U{205F}' || c == '\U{3000}'
  }

  function TrimStart(s: string): (r: string)
    ensures |r| <= |s| && r == s[|s| - |r|..]
    ensures r != [] ==> !IsWhitespace(r[0])
    ensures forall i :: 0 <= i < |s| - |r| ==> IsWhitespace(s[i])
  {
    if s != [] && IsWhitespace(s[0]) then TrimStart(s[1..]) else s
  }

  function TrimEnd(s: string): (r: string)
    ensures |r| <= |s| && r == s[..|r|]
    ensures r != [] ==> !IsWhitespace(Top(r))
    ensures forall i :: |r| <= i < |s| ==> IsWhitespace(s[i])
  {
    if s != [] && IsWhitespace(Top(s)) then TrimEnd(Rest(s)) else s
  }

  /** `str::trim`. */
  function Trim(s: string): string {
    TrimEnd(TrimStart(s))
  }

  /** The tokens one character contributes: one for a recognized character,
      none for a character the scanner sinks. */
  function CharTokens(c: char): (r: seq<Token>)
    ensures |r| == 1 <==> IsRecognized(c)
    ensures |r| <= 1
    ensures forall t :: t in r ==> IsLexical(t)
    ensures IsDigit(c) ==> r == [Number(c as int - '0' as int)]
  {
    if IsDigit(c) then [Number(c as int - '0' as int)]
    else if c == ')' then [RightParentheses]
    else if c == '(' then [LeftParentheses]
    else if c == '+' then [Plus]
    else if c == '{' then [LeftMustache]
    else if c == '}' then [RightMustache]
    else if c == '*' then [Multiply]
    else []
  }

  /** The token sequence of one piece, character by character. */
  function TokenizePiece(s: string): (r: seq<Token>)
    ensures |r| <= |s|
    ensures forall t :: t in r ==> IsLexical(t)
  {
    if s == [] then [] else TokenizePiece(Rest(s)) + CharTokens(Top(s))
  }

  /** Scanning keeps character order: the tokens of a concatenation are the
      tokens of its parts, one after the other. */
  lemma {:induction false} TokenizePieceAppend(a: string, b: string)
    ensures TokenizePiece(a + b) == TokenizePiece(a) + TokenizePiece(b)
    decreases |b|
  {
    if b == [] {
      assert a + b == a;
    } else {
      var ab := a + b;
      assert Rest(ab) == a + Rest(b);
      assert Top(ab) == Top(b);
      calc {
        TokenizePiece(ab);
        TokenizePiece(Rest(ab)) + CharTokens(Top(ab));
        { TokenizePieceAppend(a, Rest(b)); }
        TokenizePiece(a) + TokenizePiece(Rest(b)) + CharTokens(Top(b));
        TokenizePiece(a) + TokenizePiece(b);
      }
    }
  }

  /** Scanning one more character of a piece appends that character's tokens. */
  lemma {:induction false} TokenizePrefix(s: string, k: nat)
    requires k < |s|
    ensures TokenizePiece(s[..k + 1]) == TokenizePiece(s[..k]) + CharTokens(s[k])
  {
    assert Rest(s[..k + 1]) == s[..k];
  }

  /** A piece made only of characters the scanner sinks yields no token. */
  lemma {:induction false} SunkCharactersVanish(s: string)
    requires forall i :: 0 <= i < |s| ==> !IsRecognized(s[i])
    ensures TokenizePiece(s) == []
  {
    if s != [] {
      SunkCharactersVanish(Rest(s));
    }
  }

  /** Whitespace is never a recognized character. */
  lemma {:induction false} WhitespaceIsSunk(c: char)
    requires IsWhitespace(c)
    ensures !IsRecognized(c)
  {
  }

  lemma {:induction false} TrimStartKeepsTokens(s: string)
    ensures TokenizePiece(TrimStart(s)) == TokenizePiece(s)
  {
    var t := TrimStart(s);
    var head := s[..|s| - |t|];
    assert s == head + t;
    forall i | 0 <= i < |head| ensures !IsRecognized(head[i]) {
      WhitespaceIsSunk(s[i]);
    }
    SunkCharactersVanish(head);
    TokenizePieceAppend(head, t);
  }

  lemma {:induction false} TrimEndKeepsTokens(s: string)
    ensures TokenizePiece(TrimEnd(s)) == TokenizePiece(s)
  {
    var r := TrimEnd(s);
    var tail := s[|r|..];
    assert s == r + tail;
    forall i | 0 <= i < |tail| ensures !IsRecognized(tail[i]) {
      WhitespaceIsSunk(s[|r| + i]);
    }
    SunkCharactersVanish(tail);
    TokenizePieceAppend(r, tail);
  }

  /** Trimming a piece never changes its tokens, since whitespace is sunk. */
  lemma {:induction false} TrimKeepsTokens(s: string)
    ensures TokenizePiece(Trim(s)) == TokenizePiece(s)
  {
    TrimStartKeepsTokens(s);
    TrimEndKeepsTokens(TrimStart(s));
  }

  /** The number of times `c` occurs in `s`. */
  function Occurrences(s: string, c: char): nat {
    if s == [] then 0 else (if s[0] == c then 1 else 0) + Occurrences(s[1..], c)
  }

  /** `str::split("=")`: the maximal `=`-free pieces, in order; an empty text
      gives one empty piece. */
  function Split(s: string): (pieces: seq<string>)
    ensures |pieces| == Occurrences(s, '=') + 1
    ensures forall i :: 0 <= i < |pieces| ==> '=' !in pieces[i]
  {
    if s == [] then [""]
    else
      var rest := Split(s[1..]);
      if s[0] == '=' then [""] + rest else [[s[0]] + rest[0]] + rest[1..]
  }

  /** The pieces put back together with `=` between them. */
  function Join(pieces: seq<string>): string
    requires pieces != []
  {
    if |pieces| == 1 then pieces[0] else pieces[0] + "=" + Join(pieces[1..])
  }

  /** Splitting loses nothing: joining the pieces gives back the text. */
  lemma {:induction false} JoinSplit(s: string)
    ensures Join(Split(s)) == s
  {
    if s != [] {
      var rest := Split(s[1..]);
      JoinSplit(s[1..]);
      if s[0] != '=' {
        if |rest| > 1 {
          assert Join(Split(s)) == [s[0]] + (rest[0] + "=" + Join(rest[1..]));
        }
      }
    }
  }

  /** Splitting is the inverse of joining `=`-free pieces. */
  lemma {:induction false} SplitJoin(pieces: seq<string>)
    requires pieces != []
    requires forall i :: 0 <= i < |pieces| ==> '=' !in pieces[i]
    ensures Split(Join(pieces)) == pieces
    decreases |Join(pieces)|, |pieces|
  {
    var p := pieces[0];
    if p == [] {
      if |pieces| > 1 {
        assert Join(pieces) == "=" + Join(pieces[1..]);
        SplitJoin(pieces[1..]);
      }
    } else {
      var q := [p[1..]] + pieces[1..];
      assert q[1..] == pieces[1..];
      assert Join(pieces) == [p[0]] + Join(q) by {
        if |pieces| > 1 {
          assert Join(q) == p[1..] + "=" + Join(pieces[1..]);
        }
      }
      assert '=' !in q[0] by {
        assert forall c :: c in p[1..] ==> c in p;
      }
      SplitJoin(q);
      assert [p[0]] + q[0] == p;
    }
  }

  /** The token sequences of several pieces, one per piece. */
  function TokenizeEach(pieces: seq<string>): (r: seq<seq<Token>>)
    ensures |r| == |pieces|
    ensures forall i :: 0 <= i < |pieces| ==> r[i] == TokenizePiece(pieces[i])
  {
    if pieces == [] then [] else TokenizeEach(Rest(pieces)) + [TokenizePiece(Top(pieces))]
  }

  /** `tokenize`: one token sequence per `=`-separated piece. */
  method Tokenize(text: string) returns (colTokens: seq<seq<Token>>)
    ensures |colTokens| == Occurrences(text, '=') + 1
    ensures forall i :: 0 <= i < |colTokens| ==> colTokens[i] == TokenizePiece(Split(text)[i])
  {
    var pieces := Split(text);
    colTokens := [];
    for i := 0 to |pieces|
      invariant colTokens == TokenizeEach(pieces[..i])
    {
      var piece := Trim(pieces[i]);
      var tokens: seq<Token> := [];
      for k := 0 to |piece|
        invariant tokens == TokenizePiece(piece[..k])
      {
        var c := piece[k];
        TokenizePrefix(piece, k);
        if IsDigit(c) {
          tokens := tokens + [Number(c as int - '0' as int)];
        } else if c == ')' {
          tokens := tokens + [RightParentheses];
        } else if c == '(' {
          tokens := tokens + [LeftParentheses];
        } else if c == '+' {
          tokens := tokens + [Plus];
        } else if c == '{' {
          tokens := tokens + [LeftMustache];
        } else if c == '}' {
          tokens := tokens + [RightMustache];
        } else if c == '*' {
          tokens := tokens + [Multiply];
        }
      }
      assert piece[..|piece|] == piece;
      TrimKeepsTokens(pieces[i]);
      assert Rest(pieces[..i + 1]) == pieces[..i];
      colTokens := colTokens + [tokens];
    }
    assert pieces[..|pieces|] == pieces;
  }
}
