/** The processing loop of `main` in src/main.rs, over an abstract stream of
    document events: opening and closing elements named after a domain push
    and pop a stack of domains, and each text is split on `=`, every piece
    is evaluated in the innermost domain, and the `equal` verdict compares
    the results. */
module Driver {
  import opened Tokens
  import Tokenizer
  import ShuntingYard
  import Resolve
  import StringsPath

  /** What the document reader reports, reduced to what `main` looks at. */
  datatype Event = Start(name: string) | Text(content: string) | End(name: string)

  /** The domain an element name selects; other names select none. */
  function DomainOf(name: string): (d: Option<Domain>)
    ensures d.Some? <==> name in {"strings", "algebra", "sets", "boolean"}
  {
    if name == "strings" then Some(Strings)
    else if name == "algebra" then Some(Algebra)
    else if name == "sets" then Some(Sets)
    else if name == "boolean" then Some(Boolean)
    else None
  }

  // ----- The `equal` flag -----

  /** The value the `equal` flag ends with: it is overwritten for every
      result with "this result equals the first", so only the last
      comparison survives. */
  predicate LastMatchesFirst<T(==)>(results: seq<T>) {
    results == [] || results[|results| - 1] == results[0]
  }

  /** The loop that sets `equal`. */
  method EqualFlag<T(==)>(results: seq<T>) returns (equal: bool)
    ensures equal <==> LastMatchesFirst(results)
  {
    equal := true;
    for index := 0 to |results|
      invariant index == 0 ==> equal
      invariant index > 0 ==> (equal <==> results[index - 1] == results[0])
    {
      equal := results[index] == results[0];
    }
  }

  /** An earlier mismatch does not make a text invalid: with results 1, 2,
      1 the flag ends true. */
  lemma {:induction false} EarlierMismatchIsOverwritten()
    ensures LastMatchesFirst([1, 2, 1]) && [1, 2, 1][1] != [1, 2, 1][0]
  {
  }

  // ----- Evaluating the pieces of one text -----

  /** One piece of an Algebra, Boolean or Sets text: conversion to postfix,
      then evaluation. */
  function PieceValue(domain: Domain, tokens: seq<Token>): Result<(int, set<int>)> {
    match ShuntingYard.Convert(domain, tokens)
    case Err(p) => Err(p)
    case Ok(rpn) => Resolve.ResolveSpec(domain, rpn)
  }

  /** The integer results of the pieces, in order; the first panic aborts. */
  function ScalarResults(domain: Domain, pieces: seq<seq<Token>>): (r: Result<seq<int>>)
    ensures r.Ok? ==> |r.value| == |pieces|
  {
    if pieces == [] then Ok([])
    else
      match PieceValue(domain, pieces[0])
      case Err(p) => Err(p)
      case Ok(v) =>
        match ScalarResults(domain, pieces[1..])
        case Err(p) => Err(p)
        case Ok(rest) => Ok([v.0] + rest)
  }

  /** The set results of the pieces, in order; the first panic aborts. */
  function SetResults(pieces: seq<seq<Token>>): (r: Result<seq<set<int>>>)
    ensures r.Ok? ==> |r.value| == |pieces|
  {
    if pieces == [] then Ok([])
    else
      match PieceValue(Sets, pieces[0])
      case Err(p) => Err(p)
      case Ok(v) =>
        match SetResults(pieces[1..])
        case Err(p) => Err(p)
        case Ok(rest) => Ok([v.1] + rest)
  }

  /** The renderings of the pieces of a Strings text. The number vector is
      empty again after each piece, but operators it did not use are left
      on the operator vector for the next piece. */
  function StringResults(pieces: seq<string>, operators: seq<Token>): (r: seq<string>)
    ensures |r| == |pieces|
  {
    if pieces == [] then []
    else
      var rendered := StringsPath.Rebuild(StringsPath.ScanDigits(pieces[0]), operators + StringsPath.ScanOperators(pieces[0]));
      [rendered.0] + StringResults(pieces[1..], rendered.1)
  }

  /** The verdict on a Strings text. */
  function StringsVerdict(text: string): bool {
    LastMatchesFirst(StringResults(Tokenizer.Split(text), []))
  }

  /** The verdict on the token sequences of a Sets text. */
  function SetsVerdict(bagOfTokens: seq<seq<Token>>): Result<bool> {
    match SetResults(bagOfTokens)
    case Err(p) => Err(p)
    case Ok(results) => Ok(LastMatchesFirst(results))
  }

  /** The verdict on the token sequences of an Algebra or Boolean text. */
  function ScalarVerdict(domain: Domain, bagOfTokens: seq<seq<Token>>): Result<bool> {
    match ScalarResults(domain, bagOfTokens)
    case Err(p) => Err(p)
    case Ok(results) => Ok(LastMatchesFirst(results))
  }

  /** The verdict on one text under the current domain stack; reading the
      top of an empty stack panics. */
  function TextVerdict(domains: seq<Domain>, text: string): Result<bool> {
    if domains == [] then Err(NoDomain)
    else
      var domain := Top(domains);
      if domain == Strings then Ok(StringsVerdict(text))
      else if domain == Sets then SetsVerdict(Tokenizer.TokenizeEach(Tokenizer.Split(text)))
      else ScalarVerdict(domain, Tokenizer.TokenizeEach(Tokenizer.Split(text)))
  }

  /** A list of results put in front of the results of the remaining
      pieces, or the panic that stops them. */
  function Prepend<T>(prefix: seq<T>, r: Result<seq<T>>): Result<seq<T>> {
    match r
    case Err(p) => Err(p)
    case Ok(rest) => Ok(prefix + rest)
  }

  lemma {:induction false} PrependNothing<T>(r: Result<seq<T>>)
    ensures Prepend([], r) == r
  {
    if r.Ok? {
      assert [] + r.value == r.value;
    }
  }

  lemma {:induction false} PrependAssociates<T>(prefix: seq<T>, x: T, r: Result<seq<T>>)
    ensures Prepend(prefix, Prepend([x], r)) == Prepend(prefix + [x], r)
  {
    if r.Ok? {
      assert prefix + ([x] + r.value) == (prefix + [x]) + r.value;
    }
  }

  lemma {:induction false} AppendAssociates<T>(a: seq<T>, b: seq<T>, c: seq<T>)
    ensures a + (b + c) == (a + b) + c
  {
  }

  /** The Text branch of `main`'s loop: tokenize, read the domain, and
      evaluate in it. */
  method ProcessText(domains: seq<Domain>, text: string) returns (r: Result<bool>)
    ensures r == TextVerdict(domains, text)
  {
    var bagOfTokens := Tokenizer.Tokenize(text);
    assert bagOfTokens == Tokenizer.TokenizeEach(Tokenizer.Split(text));
    if domains == [] {
      return Err(NoDomain);
    }
    var domain := Top(domains);
    if domain == Strings {
      var equal := ProcessStringsText(text);
      r := Ok(equal);
    } else if domain == Sets {
      r := ProcessSetsText(bagOfTokens);
    } else {
      r := ProcessScalarText(domain, bagOfTokens);
    }
  }

  /** The Strings branch: each piece is scanned onto the shared vectors and
      rendered, and the renderings are compared. */
  method ProcessStringsText(text: string) returns (equal: bool)
    ensures equal == StringsVerdict(text)
  {
    var stacks := new StringsPath.StringStacks();
    var pieces := Tokenizer.Split(text);
    var results: seq<string> := [];
    assert pieces[0..] == pieces;
    for i := 0 to |pieces|
      invariant stacks.numbers == []
      invariant results + StringResults(pieces[i..], stacks.operators) == StringResults(pieces, [])
    {
      ghost var operators := stacks.operators;
      assert pieces[i..][1..] == pieces[i + 1..];
      stacks.TokenizeString(pieces[i]);
      assert stacks.numbers == StringsPath.ScanDigits(pieces[i]);
      var result := stacks.RecognizeStringExpression();
      assert (result, stacks.operators)
          == StringsPath.Rebuild(StringsPath.ScanDigits(pieces[i]), operators + StringsPath.ScanOperators(pieces[i]));
      assert pieces[i..][0] == pieces[i];
      assert StringResults(pieces[i..], operators) == [result] + StringResults(pieces[i + 1..], stacks.operators);
      AppendAssociates(results, [result], StringResults(pieces[i + 1..], stacks.operators));
      results := results + [result];
    }
    assert pieces[|pieces|..] == [];
    assert results + [] == results;
    equal := EqualFlag(results);
  }

  /** The Sets branch: each piece is converted and evaluated to a set. */
  method ProcessSetsText(bagOfTokens: seq<seq<Token>>) returns (r: Result<bool>)
    ensures r == SetsVerdict(bagOfTokens)
  {
    var results: seq<set<int>> := [];
    assert bagOfTokens[0..] == bagOfTokens;
    PrependNothing(SetResults(bagOfTokens));
    for i := 0 to |bagOfTokens|
      invariant SetResults(bagOfTokens) == Prepend(results, SetResults(bagOfTokens[i..]))
    {
      assert bagOfTokens[i..][1..] == bagOfTokens[i + 1..];
      var rpn := ShuntingYard.ShuntingYard(Sets, bagOfTokens[i]);
      if rpn.Err? {
        return Err(rpn.panic);
      }
      var value := Resolve.Resolve(Sets, rpn.value);
      if value.Err? {
        return Err(value.panic);
      }
      PrependAssociates(results, value.value.1, SetResults(bagOfTokens[i + 1..]));
      results := results + [value.value.1];
    }
    assert bagOfTokens[|bagOfTokens|..] == [];
    assert results + [] == results;
    var equal := EqualFlag(results);
    r := Ok(equal);
  }

  /** The Algebra and Boolean branch: each piece is converted and evaluated
      to an integer. */
  method ProcessScalarText(domain: Domain, bagOfTokens: seq<seq<Token>>) returns (r: Result<bool>)
    ensures r == ScalarVerdict(domain, bagOfTokens)
  {
    var results: seq<int> := [];
    assert bagOfTokens[0..] == bagOfTokens;
    PrependNothing(ScalarResults(domain, bagOfTokens));
    for i := 0 to |bagOfTokens|
      invariant ScalarResults(domain, bagOfTokens) == Prepend(results, ScalarResults(domain, bagOfTokens[i..]))
    {
      assert bagOfTokens[i..][1..] == bagOfTokens[i + 1..];
      var rpn := ShuntingYard.ShuntingYard(domain, bagOfTokens[i]);
      if rpn.Err? {
        return Err(rpn.panic);
      }
      var value := Resolve.Resolve(domain, rpn.value);
      if value.Err? {
        return Err(value.panic);
      }
      PrependAssociates(results, value.value.0, ScalarResults(domain, bagOfTokens[i + 1..]));
      results := results + [value.value.0];
    }
    assert bagOfTokens[|bagOfTokens|..] == [];
    assert results + [] == results;
    var equal := EqualFlag(results);
    r := Ok(equal);
  }

  // ----- The document loop -----

  /** What a run of `main` produces: the verdict of each text, in document
      order, and the panic that ended the run early, if any. */
  datatype Report = Report(verdicts: seq<bool>, panic: Option<Panic>)

  /** The domain stack after an opening element. */
  function Enter(domains: seq<Domain>, name: string): seq<Domain> {
    match DomainOf(name)
    case Some(d) => domains + [d]
    case None => domains
  }

  /** The domain stack after a closing element: a domain name pops the top,
      whatever domain it is, and popping an empty stack does nothing. */
  function Leave(domains: seq<Domain>, name: string): seq<Domain> {
    if DomainOf(name).Some? && domains != [] then Rest(domains) else domains
  }

  /** The loop of `main` from the domain stack `domains` over `events`. */
  function Interpret(domains: seq<Domain>, events: seq<Event>): Report
    decreases |events|
  {
    if events == [] then Report([], None)
    else
      match events[0]
      case Start(name) => Interpret(Enter(domains, name), events[1..])
      case End(name) => Interpret(Leave(domains, name), events[1..])
      case Text(text) =>
        match TextVerdict(domains, text)
        case Err(p) => Report([], Some(p))
        case Ok(v) =>
          var rest := Interpret(domains, events[1..]);
          Report([v] + rest.verdicts, rest.panic)
  }

  /** `main`'s loop over the events of a document. */
  method ProcessDocument(events: seq<Event>) returns (report: Report)
    ensures report == Interpret([], events)
  {
    var domainStack: seq<Domain> := [];
    var verdicts: seq<bool> := [];
    var i := 0;
    while i < |events|
      invariant i <= |events|
      invariant Interpret([], events) ==
        Report(verdicts + Interpret(domainStack, events[i..]).verdicts, Interpret(domainStack, events[i..]).panic)
    {
      assert events[i..][1..] == events[i + 1..];
      match events[i] {
        case Start(name) =>
          match DomainOf(name) {
            case Some(d) => domainStack := domainStack + [d];
            case None =>
          }
        case Text(text) =>
          var equal := ProcessText(domainStack, text);
          if equal.Err? {
            return Report(verdicts, Some(equal.panic));
          }
          assert verdicts + ([equal.value] + Interpret(domainStack, events[i + 1..]).verdicts)
              == (verdicts + [equal.value]) + Interpret(domainStack, events[i + 1..]).verdicts;
          verdicts := verdicts + [equal.value];
        case End(name) =>
          if DomainOf(name).Some? && domainStack != [] {
            domainStack := Rest(domainStack);
          }
      }
      i := i + 1;
    }
    assert events[i..] == [];
    assert verdicts + [] == verdicts;
    report := Report(verdicts, None);
  }

  // ----- Properties -----

  lemma {:induction false} NoEqualsSignMeansNoSplit(s: string)
    requires '=' !in s
    ensures Tokenizer.Occurrences(s, '=') == 0
  {
    if s != [] {
      assert '=' !in s[1..] by {
        assert forall c :: c in s[1..] ==> c in s;
      }
      NoEqualsSignMeansNoSplit(s[1..]);
    }
  }

  /** A text without `=` has one piece, which is compared with itself: if
      it does not panic, it is valid. */
  lemma {:induction false} NoEqualsSignIsValid(domains: seq<Domain>, text: string)
    requires '=' !in text
    requires TextVerdict(domains, text).Ok?
    ensures TextVerdict(domains, text).value
  {
    NoEqualsSignMeansNoSplit(text);
    var pieces := Tokenizer.Split(text);
    assert |pieces| == 1;
    var domain := Top(domains);
    if domain == Strings {
      assert |StringResults(pieces, [])| == 1;
    } else if domain == Sets {
      assert |SetResults(Tokenizer.TokenizeEach(pieces)).value| == 1;
    } else {
      assert |ScalarResults(domain, Tokenizer.TokenizeEach(pieces)).value| == 1;
    }
  }

  /** A text outside every domain element panics, and so ends the run. */
  lemma {:induction false} TextOutsideDomainPanics(text: string, events: seq<Event>)
    ensures Interpret([], [Text(text)] + events) == Report([], Some(NoDomain))
  {
    assert ([Text(text)] + events)[0] == Text(text);
  }

  /** The loop event by event: an element start or end changes only the
      domain stack, and a text that does not panic adds its verdict in
      front of those of the events after it. */
  lemma {:induction false} InterpretStart(domains: seq<Domain>, name: string, rest: seq<Event>)
    ensures Interpret(domains, [Start(name)] + rest) == Interpret(Enter(domains, name), rest)
  {
    assert ([Start(name)] + rest)[1..] == rest;
  }

  lemma {:induction false} InterpretEnd(domains: seq<Domain>, name: string, rest: seq<Event>)
    ensures Interpret(domains, [End(name)] + rest) == Interpret(Leave(domains, name), rest)
  {
    assert ([End(name)] + rest)[1..] == rest;
  }

  lemma {:induction false} InterpretText(domains: seq<Domain>, text: string, rest: seq<Event>)
    ensures Interpret(domains, [Text(text)] + rest) ==
      match TextVerdict(domains, text)
      case Err(p) => Report([], Some(p))
      case Ok(v) => Report([v] + Interpret(domains, rest).verdicts, Interpret(domains, rest).panic)
  {
    assert ([Text(text)] + rest)[1..] == rest;
  }

  /** The number of texts among `events`. */
  function TextCount(events: seq<Event>): nat {
    if events == [] then 0 else (if events[0].Text? then 1 else 0) + TextCount(events[1..])
  }

  /** A run that does not panic gives one verdict per text, and a run that
      panics gives fewer. */
  lemma {:induction false} OneVerdictPerText(domains: seq<Domain>, events: seq<Event>)
    ensures var r := Interpret(domains, events);
      && (r.panic.None? ==> |r.verdicts| == TextCount(events))
      && (r.panic.Some? ==> |r.verdicts| < TextCount(events))
    decreases |events|
  {
    if events != [] {
      match events[0]
      case Start(name) => OneVerdictPerText(Enter(domains, name), events[1..]);
      case End(name) => OneVerdictPerText(Leave(domains, name), events[1..]);
      case Text(text) => OneVerdictPerText(domains, events[1..]);
    }
  }

  /** A domain element scopes its texts: entering it and leaving it again
      restores the domain stack, and inside it the stack's top is its
      domain. */
  lemma {:induction false} ElementScopesDomain(domains: seq<Domain>, name: string, other: string)
    requires DomainOf(name).Some? && DomainOf(other).Some?
    ensures Leave(Enter(domains, name), other) == domains
    ensures Top(Enter(domains, name)) == DomainOf(name).value
  {
    assert Rest(domains + [DomainOf(name).value]) == domains;
  }
}
