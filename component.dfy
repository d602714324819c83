/** `test_component!`: a component value driven through a list of method
    calls, with its state compared after each one. */
module ComponentDsl {
  import opened Tokens
  import opened TestCode

  /** `method(args) => expected` */
  datatype Operation = Operation(methodName: string, args: Option<Expr>, expectedState: Expr)

  datatype ComponentTest = ComponentTest(name: string, given: Expr, operations: seq<Operation>)

  // ===========================================================================
  // Parsing

  /** The optional parenthesised argument: a group in parentheses must hold
      exactly one expression, so `()` and `(a, b)` are both refused. */
  function ParseArgs(ts: seq<Token>): (r: Result<Parsed<Option<Expr>>>)
    ensures r.Ok? ==> (r.value.item.Some? <==> ts != [] && ts[0].Group? && ts[0].delim == Paren)
    ensures r.Ok? && r.value.item.Some? ==> r.value.rest == ts[1..] && ParseExpr(ts[0].body).Ok?
                                            && r.value.item.value == ParseExpr(ts[0].body).value.item
    ensures r.Ok? && r.value.item.None? ==> r.value.rest == ts
    ensures r.Err? <==> ts != [] && ts[0].Group? && ts[0].delim == Paren && (ts[0].body == [] || TokenExpr(ts[0].body[0]).None? || |ts[0].body| > 1)
  {
    if ts != [] && ts[0].Group? && ts[0].delim == Paren then
      var e :- ParseExpr(ts[0].body);
      var arg :- Finish(e.item, e.rest);
      Ok(Parsed(Some(arg), ts[1..]))
    else Ok(Parsed(None, ts))
  }

  /** One operation. */
  function OperationAt(ts: seq<Token>): (r: Result<Parsed<Operation>>)
    ensures r.Ok? ==> |r.value.rest| < |ts|
  {
    var m :- ParseIdent(ts);
    var args :- ParseArgs(m.rest);
    var afterArrow :- ExpectToken(args.rest, FatArrow);
    var expected :- ParseExpr(afterArrow);
    Ok(Parsed(Operation(m.item, args.item, expected.item), expected.rest))
  }

  /** `parse_operations`: operations in source order, commas optional. */
  function Operations(ts: seq<Token>): Result<seq<Operation>>
    decreases |ts|
  {
    if ts == [] then Ok([])
    else
      var op :- OperationAt(ts);
      var more :- Operations(SkipComma(op.rest));
      Ok([op.item] + more)
  }

  method ParseOperations(body: seq<Token>) returns (r: Result<seq<Operation>>)
    ensures r == Operations(body)
  {
    var operations: seq<Operation> := [];
    var input := body;
    PrefixedNothing(Operations(body));
    while input != []
      invariant Operations(body) == Prefixed(operations, Operations(input))
      decreases |input|
    {
      var m := ParseIdent(input);
      if m.Err? {
        return Err(m.error);
      }
      var args: Option<Expr> := None;
      var rest := m.value.rest;
      if rest != [] && rest[0].Group? && rest[0].delim == Paren {
        var e := ParseExpr(rest[0].body);
        if e.Err? {
          return Err(e.error);
        }
        if e.value.rest != [] {
          return Err(UnexpectedToken);
        }
        args := Some(e.value.item);
        rest := rest[1..];
      }
      var afterArrow := ExpectToken(rest, FatArrow);
      if afterArrow.Err? {
        return Err(afterArrow.error);
      }
      var expected := ParseExpr(afterArrow.value);
      if expected.Err? {
        return Err(expected.error);
      }
      var op := Operation(m.value.item, args, expected.value.item);
      assert OperationAt(input) == Ok(Parsed(op, expected.value.rest));
      PrefixedTwice(operations, [op], Operations(SkipComma(expected.value.rest)));
      operations := operations + [op];
      input := SkipComma(expected.value.rest);
    }
    assert operations + [] == operations;
    return Ok(operations);
  }

  /** `given: EXPR`, an optional comma, then `operations: [..]`. */
  function ComponentBody(name: string, content: seq<Token>): Result<ComponentTest> {
    var afterGiven :- Keyword(content, "given");
    var given :- ParseExpr(afterGiven);
    var afterOperations :- Keyword(SkipComma(given.rest), "operations");
    var list :- ParseGroup(afterOperations, Bracket);
    var operations :- Operations(list.item);
    Finish(ComponentTest(name, given.item, operations), list.rest)
  }

  /** `impl Parse for ComponentTest` */
  function Invocation(input: seq<Token>): Result<ComponentTest> {
    var name :- ParseIdent(input);
    var content :- ParseGroup(name.rest, Brace);
    var t :- ComponentBody(name.item, content.item);
    Finish(t, content.rest)
  }

  method ParseComponentTest(input: seq<Token>) returns (r: Result<ComponentTest>)
    ensures r == Invocation(input)
  {
    var name := ParseIdent(input);
    if name.Err? {
      return Err(name.error);
    }
    var content := ParseGroup(name.value.rest, Brace);
    if content.Err? {
      return Err(content.error);
    }
    var afterGiven := Keyword(content.value.item, "given");
    if afterGiven.Err? {
      return Err(afterGiven.error);
    }
    var given := ParseExpr(afterGiven.value);
    if given.Err? {
      return Err(given.error);
    }
    var afterOperations := Keyword(SkipComma(given.value.rest), "operations");
    if afterOperations.Err? {
      return Err(afterOperations.error);
    }
    var list := ParseGroup(afterOperations.value, Bracket);
    if list.Err? {
      return Err(list.error);
    }
    var operations := ParseOperations(list.value.item);
    if operations.Err? {
      return Err(operations.error);
    }
    if list.value.rest != [] || content.value.rest != [] {
      return Err(UnexpectedToken);
    }
    return Ok(ComponentTest(name.value.item, given.value.item, operations.value));
  }

  // ===========================================================================
  // What a test author writes

  function OperationTokens(op: Operation): seq<Token> {
    [Ident(op.methodName)]
    + (if op.args.Some? then [Group(Paren, [ExprToken(op.args.value)])] else [])
    + [FatArrow, ExprToken(op.expectedState)]
  }

  function PrintOperations(ops: seq<Operation>, commas: seq<bool>): seq<Token>
    requires |commas| == |ops|
  {
    if ops == [] then [] else OperationTokens(ops[0]) + OptComma(commas[0]) + PrintOperations(ops[1..], commas[1..])
  }

  lemma OperationRoundTrip(op: Operation, rest: seq<Token>)
    ensures OperationAt(OperationTokens(op) + rest) == Ok(Parsed(op, rest))
  {
    var ts := OperationTokens(op) + rest;
    var afterName := OperationTokens(op)[1..] + rest;
    assert ts[1..] == afterName;
    if op.args.Some? {
      assert [ExprToken(op.args.value)][1..] == [];
      assert afterName[1..] == [FatArrow, ExprToken(op.expectedState)] + rest;
    } else {
      assert afterName == [FatArrow, ExprToken(op.expectedState)] + rest;
    }
    assert ([FatArrow, ExprToken(op.expectedState)] + rest)[1..][1..] == rest;
  }

  /** The loop reads one written operation and puts it in front of the rest. */
  lemma OperationCons(op: Operation, rest: seq<Token>)
    ensures Operations(OperationTokens(op) + rest) == Prefixed([op], Operations(SkipComma(rest)))
  {
    OperationRoundTrip(op, rest);
    assert (OperationTokens(op) + rest)[0] == Ident(op.methodName);
  }

  lemma PrintOperationsCons(ops: seq<Operation>, commas: seq<bool>)
    requires |commas| == |ops| && ops != []
    ensures PrintOperations(ops, commas)
            == OperationTokens(ops[0]) + (OptComma(commas[0]) + PrintOperations(ops[1..], commas[1..]))
  {
  }

  lemma PrintOperationsHead(ops: seq<Operation>, commas: seq<bool>)
    requires |commas| == |ops|
    ensures PrintOperations(ops, commas) == [] || PrintOperations(ops, commas)[0] == Ident(ops[0].methodName)
  {
  }

  /** The operation loop over a written list followed by anything that does
      not start with a comma: the first operation, then the loop over the rest. */
  lemma PrintOperationsStep(ops: seq<Operation>, commas: seq<bool>, suffix: seq<Token>)
    requires |commas| == |ops| && ops != []
    requires suffix == [] || suffix[0] != Comma
    ensures Operations(PrintOperations(ops, commas) + suffix)
            == Prefixed([ops[0]], Operations(PrintOperations(ops[1..], commas[1..]) + suffix))
  {
    var tail := PrintOperations(ops[1..], commas[1..]);
    var after := OptComma(commas[0]) + (tail + suffix);
    assert SkipComma(after) == tail + suffix by {
      PrintOperationsHead(ops[1..], commas[1..]);
      assert tail + suffix == [] || (tail + suffix)[0] != Comma;
      SkipOptComma(commas[0], tail + suffix);
    }
    PrintOperationsCons(ops, commas);
    RegroupTail(OperationTokens(ops[0]), OptComma(commas[0]), tail, suffix);
    OperationCons(ops[0], after);
  }

  /** Operations come back in source order, with or without commas. */
  lemma {:induction false} OperationsRoundTrip(ops: seq<Operation>, commas: seq<bool>)
    requires |commas| == |ops|
    ensures Operations(PrintOperations(ops, commas)) == Ok(ops)
  {
    if ops != [] {
      var tail := PrintOperations(ops[1..], commas[1..]);
      var rest := OptComma(commas[0]) + tail;
      assert Operations(SkipComma(rest)) == Ok(ops[1..]) by {
        OperationsRoundTrip(ops[1..], commas[1..]);
        PrintOperationsHead(ops[1..], commas[1..]);
        SkipOptComma(commas[0], tail);
      }
      PrintOperationsCons(ops, commas);
      OperationCons(ops[0], rest);
      assert [ops[0]] + ops[1..] == ops;
    }
  }

  /** After any well-formed operations, `m()` is refused: the parentheses must
      hold an expression, so a method without arguments is written bare. */
  lemma {:induction false} EmptyParensRejected(ops: seq<Operation>, commas: seq<bool>, m: string, rest: seq<Token>)
    requires |commas| == |ops|
    ensures Operations(PrintOperations(ops, commas) + ([Ident(m), Group(Paren, [])] + rest)) == Err(ExpectedExpr)
  {
    var bad := [Ident(m), Group(Paren, [])] + rest;
    if ops == [] {
      assert PrintOperations(ops, commas) + bad == bad;
      assert bad[1..] == [Group(Paren, [])] + rest;
    } else {
      EmptyParensRejected(ops[1..], commas[1..], m, rest);
      PrintOperationsStep(ops, commas, bad);
    }
  }

  /** After any well-formed operations, a method name followed by anything but
      a parenthesised argument or `=>` is refused for the missing arrow. */
  lemma {:induction false} MissingArrowRejected(ops: seq<Operation>, commas: seq<bool>, m: string,
                                                next: Token, rest: seq<Token>)
    requires |commas| == |ops|
    requires next != FatArrow && !(next.Group? && next.delim == Paren)
    ensures Operations(PrintOperations(ops, commas) + ([Ident(m), next] + rest)) == Err(ExpectedToken(FatArrow))
  {
    var bad := [Ident(m), next] + rest;
    if ops == [] {
      assert PrintOperations(ops, commas) + bad == bad;
      assert bad[1..] == [next] + rest;
    } else {
      MissingArrowRejected(ops[1..], commas[1..], m, next, rest);
      PrintOperationsStep(ops, commas, bad);
    }
  }

  /** `NAME { given: EXPR, operations: [..] }` as written. */
  function PrintComponentTest(name: string, given: Expr, commaAfterGiven: bool, ops: seq<Operation>): seq<Token> {
    [Ident(name), Group(Brace, GivenThenOperations(given, commaAfterGiven, PrintOperations(ops, AllCommas(|ops|))))]
  }

  /** The body's tokens: `given: EXPR`, an optional comma, `operations: [..]`. */
  function GivenThenOperations(given: Expr, comma: bool, list: seq<Token>): seq<Token> {
    [Ident("given"), Colon] + ([ExprToken(given)] + (OptComma(comma) + ([Ident("operations"), Colon] + [Group(Bracket, list)])))
  }

  /** The body parse, put together from the parses of its parts. */
  lemma BodyFromParts(name: string, content: seq<Token>, afterGiven: seq<Token>, given: Expr,
                      rest: seq<Token>, afterOperations: seq<Token>, list: seq<Token>)
    requires Keyword(content, "given") == Ok(afterGiven)
    requires ParseExpr(afterGiven) == Ok(Parsed(given, rest))
    requires Keyword(SkipComma(rest), "operations") == Ok(afterOperations)
    requires ParseGroup(afterOperations, Bracket) == Ok(Parsed(list, []))
    requires Operations(list).Ok?
    ensures ComponentBody(name, content) == Ok(ComponentTest(name, given, Operations(list).value))
  {
  }

  /** A `given` expression and a well-formed operations list give their parses. */
  lemma ComponentBodyParts(name: string, given: Expr, comma: bool, list: seq<Token>)
    requires Operations(list).Ok?
    ensures ComponentBody(name, GivenThenOperations(given, comma, list))
            == Ok(ComponentTest(name, given, Operations(list).value))
  {
    var operations := [Ident("operations"), Colon] + [Group(Bracket, list)];
    var afterGiven := OptComma(comma) + operations;
    KeywordStep("given", [ExprToken(given)] + afterGiven);
    ExprStep(given, afterGiven);
    SkipOptComma(comma, operations);
    KeywordStep("operations", [Group(Bracket, list)]);
    GroupStep(Bracket, list, []);
    assert [Group(Bracket, list)] + [] == [Group(Bracket, list)];
    BodyFromParts(name, GivenThenOperations(given, comma, list), [ExprToken(given)] + afterGiven,
                  given, afterGiven, [Group(Bracket, list)], list);
  }

  lemma ComponentRoundTrip(name: string, given: Expr, commaAfterGiven: bool, ops: seq<Operation>)
    ensures Invocation(PrintComponentTest(name, given, commaAfterGiven, ops)) == Ok(ComponentTest(name, given, ops))
  {
    var list := PrintOperations(ops, AllCommas(|ops|));
    OperationsRoundTrip(ops, AllCommas(|ops|));
    ComponentBodyParts(name, given, commaAfterGiven, list);
  }

  /** The body is `given` then `operations`, in that order: any other
      identifier in either place is reported as the keyword expected there. */
  lemma KeywordsFixed(name: string, other: string, given: Expr, comma: bool, rest: seq<Token>)
    ensures other != "given" ==> ComponentBody(name, [Ident(other)] + rest) == Err(ExpectedKeyword("given"))
    ensures other != "operations" ==>
              ComponentBody(name, [Ident("given"), Colon] + ([ExprToken(given)] + (OptComma(comma) + ([Ident(other)] + rest))))
              == Err(ExpectedKeyword("operations"))
  {
    if other != "given" {
      KeywordWrong(other, rest, "given");
    }
    if other != "operations" {
      var afterGiven := OptComma(comma) + ([Ident(other)] + rest);
      KeywordStep("given", [ExprToken(given)] + afterGiven);
      ExprStep(given, afterGiven);
      SkipOptComma(comma, [Ident(other)] + rest);
      KeywordWrong(other, rest, "operations");
    }
  }

  // ===========================================================================
  // Code generation

  /** Operation i (counting from zero): the call, then the comparison
      labelled with step number i + 1. */
  function StepPair(op: Operation, i: nat): seq<Stmt> {
    [CallMethod(op.methodName, op.args), AssertEqStep(op.expectedState, i + 1)]
  }

  function TestSteps(ops: seq<Operation>): seq<Stmt>
    decreases |ops|
  {
    if ops == [] then [] else TestSteps(ops[..|ops| - 1]) + StepPair(ops[|ops| - 1], |ops| - 1)
  }

  /** Every operation gives a call followed by a comparison, in source
      order, and the comparisons are labelled 1, 2, .., n. */
  lemma {:induction false} TestStepsShape(ops: seq<Operation>)
    ensures |TestSteps(ops)| == 2 * |ops|
    ensures forall i :: 0 <= i < |ops| ==> TestSteps(ops)[2 * i] == CallMethod(ops[i].methodName, ops[i].args)
    ensures forall i :: 0 <= i < |ops| ==> TestSteps(ops)[2 * i + 1] == AssertEqStep(ops[i].expectedState, i + 1)
    decreases |ops|
  {
    if ops != [] {
      var init := ops[..|ops| - 1];
      TestStepsShape(init);
      forall i | 0 <= i < |init| ensures init[i] == ops[i] {
      }
    }
  }

  /** One comparison per operation. */
  lemma {:induction false} OneCheckPerOperation(ops: seq<Operation>)
    ensures CountChecks(TestSteps(ops)) == |ops|
    decreases |ops|
  {
    if ops != [] {
      var init := ops[..|ops| - 1];
      var pair := StepPair(ops[|ops| - 1], |ops| - 1);
      OneCheckPerOperation(init);
      CountChecksConcat(TestSteps(init), pair);
      assert pair[1..][1..] == [];
      assert CountChecks(pair[1..]) == 1;
    }
  }

  method GenerateTestSteps(ops: seq<Operation>) returns (steps: seq<Stmt>)
    ensures steps == TestSteps(ops)
  {
    steps := [];
    for i := 0 to |ops|
      invariant steps == TestSteps(ops[..i])
    {
      assert ops[..i + 1][..i] == ops[..i];
      var op := ops[i];
      var stepNum := i + 1;
      var methodCall := CallMethod(op.methodName, op.args);
      steps := steps + [methodCall, AssertEqStep(op.expectedState, stepNum)];
    }
    assert ops[..|ops|] == ops;
  }

  /** `ComponentTest::expand`: the initial state bound once, then the steps. */
  method Expand(t: ComponentTest) returns (f: TestFn)
    ensures f.name == t.name
    ensures f.body == [LetMutComponent(t.given)] + TestSteps(t.operations)
    ensures |f.body| == 1 + 2 * |t.operations|
    ensures CountChecks(f.body) == |t.operations|
  {
    var steps := GenerateTestSteps(t.operations);
    TestStepsShape(t.operations);
    OneCheckPerOperation(t.operations);
    CountChecksConcat([LetMutComponent(t.given)], steps);
    f := TestFn(t.name, [LetMutComponent(t.given)] + steps);
  }
}
