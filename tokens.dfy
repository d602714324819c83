/** The input side shared by the three DSL front-ends: the token trees a
    procedural macro receives, the opaque Rust expressions inside them, the
    parse errors, and the handful of `syn` parsing primitives the front-ends
    call (`input.parse::<Ident>()`, `input.parse::<Token![:]>()`,
    `braced!`, `input.parse::<Expr>()`, ...).

    A `syn::ParseStream` is a cursor over the tokens that are left; here it is
    the sequence of remaining tokens, and every primitive returns what it
    parsed together with the tokens after it. */
module Tokens {

  datatype Option<T> = None | Some(value: T)

  datatype Delim = Brace | Bracket | Paren

  /** One token tree. A compound Rust expression written by the test author
      arrives as a single `Atom`; an identifier on its own is an `Ident`. */
  datatype Token =
    | Ident(name: string)
    | Colon
    | Comma
    | FatArrow
    | Eq
    | Group(delim: Delim, body: seq<Token>)
    | Atom(expr: Expr)

  /** A Rust expression, opaque except for the shapes the time-advance
      classifier looks into. */
  datatype Expr =
    | Path(name: string)                        // a bare identifier
    | IntLit(digits: nat)                       // an integer literal, by its base-10 value
    | FloatLit(number: real)                   // a floating-point literal
    | MethodCall(receiver: Expr, methodName: string)
    | Grouped(delim: Delim, body: seq<Token>)   // a tuple, array or block
    | Other(text: string)                       // any other expression

  datatype ParseError =
    | ExpectedIdent
    | ExpectedToken(token: Token)
    | ExpectedGroup(delim: Delim)
    | ExpectedExpr
    | ExpectedIntLit
    | IntOutOfRange
    | UnexpectedToken
    | ExpectedKeyword(keyword: string)
    | UnknownGivenField(field: string)
    | UnknownWhenAction(action: string)
    | UnknownConfigOption(option: string)

  datatype Result<T> = Ok(value: T) | Err(error: ParseError) {
    predicate IsFailure() { Err? }
    function PropagateFailure<U>(): Result<U> requires Err? { Err(error) }
    function Extract(): T requires Ok? { value }
  }

  /** What a primitive parsed, and the tokens left after it. */
  datatype Parsed<T> = Parsed(item: T, rest: seq<Token>)

  const U32Limit: nat := 0x1_0000_0000
  const U64Limit: nat := 0x1_0000_0000_0000_0000

  /** `input.parse::<Ident>()` */
  function ParseIdent(ts: seq<Token>): (r: Result<Parsed<string>>)
    ensures r.Ok? ==> ts != [] && r.value.rest == ts[1..]
  {
    if ts != [] && ts[0].Ident? then Ok(Parsed(ts[0].name, ts[1..])) else Err(ExpectedIdent)
  }

  /** `input.parse::<Token![:]>()` and the other punctuation tokens */
  function ExpectToken(ts: seq<Token>, t: Token): (r: Result<seq<Token>>)
    ensures r.Ok? ==> ts != [] && r.value == ts[1..]
  {
    if ts != [] && ts[0] == t then Ok(ts[1..]) else Err(ExpectedToken(t))
  }

  /** `input.parse::<Token![,]>().ok()`: an optional comma */
  function SkipComma(ts: seq<Token>): (rest: seq<Token>)
    ensures |rest| <= |ts|
  {
    if ts != [] && ts[0] == Comma then ts[1..] else ts
  }

  /** The expression a single token spells, if it can start one. */
  function TokenExpr(t: Token): Option<Expr> {
    match t
    case Ident(n) => Some(Path(n))
    case Group(d, b) => Some(Grouped(d, b))
    case Atom(e) => Some(e)
    case _ => None
  }

  /** `input.parse::<Expr>()` */
  function ParseExpr(ts: seq<Token>): (r: Result<Parsed<Expr>>)
    ensures r.Ok? ==> ts != [] && r.value.rest == ts[1..]
  {
    if ts != [] && TokenExpr(ts[0]).Some? then Ok(Parsed(TokenExpr(ts[0]).value, ts[1..]))
    else Err(ExpectedExpr)
  }

  /** `braced!`, `bracketed!`, `parenthesized!`: the body of the next group */
  function ParseGroup(ts: seq<Token>, d: Delim): (r: Result<Parsed<seq<Token>>>)
    ensures r.Ok? ==> ts != [] && r.value.rest == ts[1..]
  {
    if ts != [] && ts[0].Group? && ts[0].delim == d then Ok(Parsed(ts[0].body, ts[1..]))
    else Err(ExpectedGroup(d))
  }

  /** `input.parse::<syn::LitInt>()` */
  function ParseLitInt(ts: seq<Token>): (r: Result<Parsed<nat>>)
    ensures r.Ok? ==> ts != [] && r.value.rest == ts[1..]
  {
    if ts != [] && ts[0].Atom? && ts[0].expr.IntLit? then Ok(Parsed(ts[0].expr.digits, ts[1..]))
    else Err(ExpectedIntLit)
  }

  /** syn refuses a parse that leaves tokens behind in a delimited group or
      after the macro input. */
  function Finish<T>(item: T, rest: seq<Token>): (r: Result<T>)
    ensures r.Ok? <==> rest == []
  {
    if rest == [] then Ok(item) else Err(UnexpectedToken)
  }

  /** The token that spells an expression. */
  function ExprToken(e: Expr): (t: Token)
    ensures TokenExpr(t) == Some(e)
  {
    match e
    case Path(n) => Ident(n)
    case Grouped(d, b) => Group(d, b)
    case _ => Atom(e)
  }

  function OptComma(comma: bool): seq<Token> {
    if comma then [Comma] else []
  }

  /** A comma after every element. */
  function AllCommas(n: nat): seq<bool> {
    seq(n, _ => true)
  }

  // ---------------------------------------------------------------------------
  // The bracketed-list loop that the front-ends repeat for every list field:
  //     while !content.is_empty() { v.push(content.parse()?); content.parse::<Token![,]>().ok(); }

  /** What the list loop yields on a group body of expressions. */
  function ExprList(ts: seq<Token>): (r: Result<seq<Expr>>)
    decreases |ts|
  {
    if ts == [] then Ok([])
    else
      var e :- ParseExpr(ts);
      var more :- ExprList(SkipComma(e.rest));
      Ok([e.item] + more)
  }

  /** The list loop only ever fails on a token that cannot start an expression. */
  lemma {:induction false} ExprListErrors(ts: seq<Token>)
    ensures ExprList(ts).Err? ==> ExprList(ts).error == ExpectedExpr
    decreases |ts|
  {
    if ts != [] && ParseExpr(ts).Ok? {
      ExprListErrors(SkipComma(ParseExpr(ts).value.rest));
    }
  }

  /** The same loop when the elements are identifiers (`Vec<Ident>`). */
  function IdentList(ts: seq<Token>): (r: Result<seq<string>>)
    decreases |ts|
  {
    if ts == [] then Ok([])
    else
      var id :- ParseIdent(ts);
      var more :- IdentList(SkipComma(id.rest));
      Ok([id.item] + more)
  }

  /** The result of a loop that has already pushed `done` and still has to run. */
  function Prefixed<T>(done: seq<T>, r: Result<seq<T>>): Result<seq<T>> {
    if r.Ok? then Ok(done + r.value) else r
  }

  lemma PrefixedNothing<T>(r: Result<seq<T>>)
    ensures Prefixed([], r) == r
  {
    if r.Ok? {
      assert [] + r.value == r.value;
    }
  }

  lemma PrefixedTwice<T>(a: seq<T>, b: seq<T>, r: Result<seq<T>>)
    ensures Prefixed(a, Prefixed(b, r)) == Prefixed(a + b, r)
  {
    if r.Ok? {
      assert a + (b + r.value) == (a + b) + r.value;
    }
  }

  method ParseExprList(body: seq<Token>) returns (r: Result<seq<Expr>>)
    ensures r == ExprList(body)
  {
    var items: seq<Expr> := [];
    var input := body;
    PrefixedNothing(ExprList(body));
    while input != []
      invariant ExprList(body) == Prefixed(items, ExprList(input))
      decreases |input|
    {
      var e := ParseExpr(input);
      if e.Err? {
        return Err(e.error);
      }
      assert ExprList(input) == Prefixed([e.value.item], ExprList(SkipComma(e.value.rest)));
      PrefixedTwice(items, [e.value.item], ExprList(SkipComma(e.value.rest)));
      items := items + [e.value.item];
      input := SkipComma(e.value.rest);
    }
    assert items + [] == items;
    return Ok(items);
  }

  method ParseIdentList(body: seq<Token>) returns (r: Result<seq<string>>)
    ensures r == IdentList(body)
  {
    var items: seq<string> := [];
    var input := body;
    PrefixedNothing(IdentList(body));
    while input != []
      invariant IdentList(body) == Prefixed(items, IdentList(input))
      decreases |input|
    {
      var id := ParseIdent(input);
      if id.Err? {
        return Err(id.error);
      }
      assert IdentList(input) == Prefixed([id.value.item], IdentList(SkipComma(id.value.rest)));
      PrefixedTwice(items, [id.value.item], IdentList(SkipComma(id.value.rest)));
      items := items + [id.value.item];
      input := SkipComma(id.value.rest);
    }
    assert items + [] == items;
    return Ok(items);
  }

  // ---------------------------------------------------------------------------
  // Printers: the token sequences a test author writes for a list, with a
  // free choice of comma after every element.

  function PrintExprList(es: seq<Expr>, commas: seq<bool>): seq<Token>
    requires |commas| == |es|
  {
    if es == [] then [] else [ExprToken(es[0])] + OptComma(commas[0]) + PrintExprList(es[1..], commas[1..])
  }

  function PrintIdentList(ids: seq<string>, commas: seq<bool>): seq<Token>
    requires |commas| == |ids|
  {
    if ids == [] then [] else [Ident(ids[0])] + OptComma(commas[0]) + PrintIdentList(ids[1..], commas[1..])
  }

  /** Regrouping of concatenations, proved once in a small context. */
  lemma Regroup<T>(a: seq<T>, b: seq<T>, c: seq<T>)
    ensures a + b + c == a + (b + c)
  {
  }

  lemma RegroupTail<T>(a: seq<T>, b: seq<T>, c: seq<T>, d: seq<T>)
    ensures (a + (b + c)) + d == a + (b + (c + d))
  {
  }

  /** A comma after an element is skipped, and only a comma. */
  lemma SkipOptComma(comma: bool, tail: seq<Token>)
    requires tail == [] || tail[0] != Comma
    ensures SkipComma(OptComma(comma) + tail) == tail
  {
  }

  /** One element, then the list loop on what follows its optional comma. */
  lemma ExprListCons(e: Expr, rest: seq<Token>, more: seq<Expr>)
    requires ExprList(SkipComma(rest)) == Ok(more)
    ensures ExprList([ExprToken(e)] + rest) == Ok([e] + more)
  {
    assert ([ExprToken(e)] + rest)[1..] == rest;
  }

  lemma IdentListCons(id: string, rest: seq<Token>, more: seq<string>)
    requires IdentList(SkipComma(rest)) == Ok(more)
    ensures IdentList([Ident(id)] + rest) == Ok([id] + more)
  {
    assert ([Ident(id)] + rest)[1..] == rest;
  }

  lemma PrintExprListCons(es: seq<Expr>, commas: seq<bool>)
    requires |commas| == |es| && es != []
    ensures PrintExprList(es, commas)
            == [ExprToken(es[0])] + (OptComma(commas[0]) + PrintExprList(es[1..], commas[1..]))
  {
  }

  lemma PrintIdentListCons(ids: seq<string>, commas: seq<bool>)
    requires |commas| == |ids| && ids != []
    ensures PrintIdentList(ids, commas)
            == [Ident(ids[0])] + (OptComma(commas[0]) + PrintIdentList(ids[1..], commas[1..]))
  {
  }

  lemma PrintExprListHead(es: seq<Expr>, commas: seq<bool>)
    requires |commas| == |es|
    ensures PrintExprList(es, commas) == [] || PrintExprList(es, commas)[0] == ExprToken(es[0])
  {
  }

  lemma PrintIdentListHead(ids: seq<string>, commas: seq<bool>)
    requires |commas| == |ids|
    ensures PrintIdentList(ids, commas) == [] || PrintIdentList(ids, commas)[0] == Ident(ids[0])
  {
  }

  /** Elements come back in source order, whichever separators were written. */
  lemma {:induction false} ExprListRoundTrip(es: seq<Expr>, commas: seq<bool>)
    requires |commas| == |es|
    ensures ExprList(PrintExprList(es, commas)) == Ok(es)
  {
    if es != [] {
      var tail := PrintExprList(es[1..], commas[1..]);
      var rest := OptComma(commas[0]) + tail;
      assert ExprList(SkipComma(rest)) == Ok(es[1..]) by {
        ExprListRoundTrip(es[1..], commas[1..]);
        PrintExprListHead(es[1..], commas[1..]);
        SkipOptComma(commas[0], tail);
      }
      PrintExprListCons(es, commas);
      ExprListCons(es[0], rest, es[1..]);
      assert [es[0]] + es[1..] == es;
    }
  }

  lemma {:induction false} IdentListRoundTrip(ids: seq<string>, commas: seq<bool>)
    requires |commas| == |ids|
    ensures IdentList(PrintIdentList(ids, commas)) == Ok(ids)
  {
    if ids != [] {
      var tail := PrintIdentList(ids[1..], commas[1..]);
      var rest := OptComma(commas[0]) + tail;
      assert IdentList(SkipComma(rest)) == Ok(ids[1..]) by {
        IdentListRoundTrip(ids[1..], commas[1..]);
        PrintIdentListHead(ids[1..], commas[1..]);
        SkipOptComma(commas[0], tail);
      }
      PrintIdentListCons(ids, commas);
      IdentListCons(ids[0], rest, ids[1..]);
      assert [ids[0]] + ids[1..] == ids;
    }
  }

  // ---------------------------------------------------------------------------
  // The `keyword: ...` clauses of the macro bodies.

  /** `keyword:`, where any other identifier in the keyword's place is
      reported as the keyword that was expected. */
  function Keyword(ts: seq<Token>, keyword: string): (r: Result<seq<Token>>)
    ensures r.Ok? ==> |ts| >= 2 && ts[0] == Ident(keyword) && ts[1] == Colon && r.value == ts[2..]
  {
    var kw :- ParseIdent(ts);
    if kw.item != keyword then Err(ExpectedKeyword(keyword))
    else ExpectToken(kw.rest, Colon)
  }

  /** `keyword: { body }` */
  function Clause(ts: seq<Token>, keyword: string): (r: Result<Parsed<seq<Token>>>)
    ensures r.Ok? ==> |ts| >= 3 && r.value.rest == ts[3..]
  {
    var afterColon :- Keyword(ts, keyword);
    ParseGroup(afterColon, Brace)
  }

  function ClauseTokens(keyword: string, body: seq<Token>): seq<Token> {
    [Ident(keyword), Colon, Group(Brace, body)]
  }

  lemma KeywordStep(keyword: string, rest: seq<Token>)
    ensures Keyword([Ident(keyword), Colon] + rest, keyword) == Ok(rest)
  {
    var ts := [Ident(keyword), Colon] + rest;
    assert ts[1..] == [Colon] + rest;
  }

  lemma KeywordWrong(other: string, rest: seq<Token>, keyword: string)
    requires other != keyword
    ensures Keyword([Ident(other)] + rest, keyword) == Err(ExpectedKeyword(keyword))
  {
    assert ([Ident(other)] + rest)[0] == Ident(other);
  }

  lemma IdentStep(name: string, rest: seq<Token>)
    ensures ParseIdent([Ident(name)] + rest) == Ok(Parsed(name, rest))
  {
    assert ([Ident(name)] + rest)[1..] == rest;
  }

  lemma TokenStep(t: Token, rest: seq<Token>)
    ensures ExpectToken([t] + rest, t) == Ok(rest)
  {
    assert ([t] + rest)[1..] == rest;
  }

  lemma ExprStep(e: Expr, rest: seq<Token>)
    ensures ParseExpr([ExprToken(e)] + rest) == Ok(Parsed(e, rest))
  {
    assert ([ExprToken(e)] + rest)[1..] == rest;
  }

  lemma GroupStep(d: Delim, body: seq<Token>, rest: seq<Token>)
    ensures ParseGroup([Group(d, body)] + rest, d) == Ok(Parsed(body, rest))
  {
    assert ([Group(d, body)] + rest)[1..] == rest;
  }

  /** Any other identifier where a keyword is due is reported as that keyword. */
  lemma WrongKeyword(other: string, rest: seq<Token>, keyword: string)
    requires other != keyword
    ensures Clause([Ident(other)] + rest, keyword) == Err(ExpectedKeyword(keyword))
  {
    assert ([Ident(other)] + rest)[0] == Ident(other);
  }

  lemma ClauseStep(keyword: string, body: seq<Token>, rest: seq<Token>)
    ensures Clause(ClauseTokens(keyword, body) + rest, keyword) == Ok(Parsed(body, rest))
  {
    var ts := ClauseTokens(keyword, body) + rest;
    assert ts[1..] == [Colon, Group(Brace, body)] + rest;
    assert ts[1..][1..] == [Group(Brace, body)] + rest;
  }
}
