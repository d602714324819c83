/** `test_system!`: one Bevy system registered on a prepared world, run for
    a single update, then a list of boolean checks. */
module SystemDsl {
  import opened Tokens
  import opened TestCode

  datatype EntitySetup = EntitySetup(varName: string, components: Expr)

  datatype SetupBlock = SetupBlock(resources: seq<Expr>, entities: seq<EntitySetup>, events: seq<Expr>)

  /** The system under test, and the system its output is piped into, if any. */
  datatype SystemCall = SystemCall(system: Expr, params: Option<Expr>)

  datatype ExpectBlock = ExpectBlock(assertions: seq<Expr>)

  datatype SystemTest = SystemTest(name: string, setup: SetupBlock, call: SystemCall, expectBlock: ExpectBlock)

  // ===========================================================================
  // The setup block

  const EmptySetup := SetupBlock([], [], [])

  /** Entries of the same kind accumulate in the order they are written. */
  function MergeSetup(a: SetupBlock, b: SetupBlock): SetupBlock {
    SetupBlock(a.resources + b.resources, a.entities + b.entities, a.events + b.events)
  }

  function MergedSetup(done: SetupBlock, r: Result<SetupBlock>): Result<SetupBlock> {
    if r.Ok? then Ok(MergeSetup(done, r.value)) else r
  }

  lemma MergedSetupNothing(r: Result<SetupBlock>)
    ensures MergedSetup(EmptySetup, r) == r
  {
    if r.Ok? {
      var v := r.value;
      assert [] + v.resources == v.resources && [] + v.entities == v.entities && [] + v.events == v.events;
    }
  }

  lemma MergedSetupTwice(a: SetupBlock, b: SetupBlock, r: Result<SetupBlock>)
    ensures MergedSetup(a, MergedSetup(b, r)) == MergedSetup(MergeSetup(a, b), r)
  {
    if r.Ok? {
      var v := r.value;
      assert a.resources + (b.resources + v.resources) == (a.resources + b.resources) + v.resources;
      assert a.entities + (b.entities + v.entities) == (a.entities + b.entities) + v.entities;
      assert a.events + (b.events + v.events) == (a.events + b.events) + v.events;
    }
  }

  /** One entry that starts with an identifier: `resources: [..]`,
      `events: [..]`, or, for any other name, an entity `name: COMPONENTS`. */
  function SetupItem(ts: seq<Token>): (r: Result<Parsed<SetupBlock>>)
    requires ts != [] && ts[0].Ident?
    ensures r.Ok? ==> |r.value.rest| < |ts|
  {
    var name := ts[0].name;
    var afterColon :- ExpectToken(ts[1..], Colon);
    if name == "resources" then
      var list :- ParseGroup(afterColon, Bracket);
      var es :- ExprList(list.item);
      Ok(Parsed(SetupBlock(es, [], []), list.rest))
    else if name == "events" then
      var list :- ParseGroup(afterColon, Bracket);
      var es :- ExprList(list.item);
      Ok(Parsed(SetupBlock([], [], es), list.rest))
    else
      var components :- ParseExpr(afterColon);
      Ok(Parsed(SetupBlock([], [EntitySetup(name, components.item)], []), components.rest))
  }

  /** An entry that starts with an identifier never fails for want of one. */
  lemma SetupItemErrors(ts: seq<Token>)
    requires ts != [] && ts[0].Ident?
    ensures SetupItem(ts).Err? ==> SetupItem(ts).error != ExpectedIdent
  {
    var afterColon := ExpectToken(ts[1..], Colon);
    if afterColon.Ok? && ParseGroup(afterColon.value, Bracket).Ok? {
      ExprListErrors(ParseGroup(afterColon.value, Bracket).value.item);
    }
  }

  // ---------------------------------------------------------------------------
  // The loop as written: a token that is neither an identifier nor a comma is
  // never consumed, so the loop goes round forever.

  /** One pass of the setup loop as written: an entry if the next token is an
      identifier, then an optional comma; any other token is left in place. */
  function SetupStep(ts: seq<Token>): Result<Parsed<SetupBlock>>
    requires ts != []
  {
    if ts[0].Ident? then
      var item :- SetupItem(ts);
      Ok(Parsed(item.item, SkipComma(item.rest)))
    else Ok(Parsed(EmptySetup, SkipComma(ts)))
  }

  /** The setup loop as written, allowed at most `fuel` passes; `None` when it
      has not stopped by then. */
  function SetupRun(ts: seq<Token>, fuel: nat): Option<Result<SetupBlock>>
    decreases fuel
  {
    if ts == [] then Some(Ok(EmptySetup))
    else if fuel == 0 then None
    else
      match SetupStep(ts)
      case Err(e) => Some(Err(e))
      case Ok(p) =>
        match SetupRun(p.rest, fuel - 1)
        case None => None
        case Some(r) => Some(MergedSetup(p.item, r))
  }

  /** A stray token is a fixed point of the loop: no number of passes ends it. */
  lemma {:induction false} SetupStall(ts: seq<Token>, fuel: nat)
    requires ts != [] && !ts[0].Ident? && ts[0] != Comma
    ensures SetupStep(ts) == Ok(Parsed(EmptySetup, ts))
    ensures SetupRun(ts, fuel) == None
    decreases fuel
  {
    if fuel > 0 {
      SetupStall(ts, fuel - 1);
    }
  }

  // ---------------------------------------------------------------------------
  // The loop as intended: a stray token is an error.

  function SetupEntries(ts: seq<Token>): Result<SetupBlock>
    decreases |ts|
  {
    if ts == [] then Ok(EmptySetup)
    else if ts[0].Ident? then
      var item :- SetupItem(ts);
      var more :- SetupEntries(SkipComma(item.rest));
      Ok(MergeSetup(item.item, more))
    else if ts[0] == Comma then SetupEntries(ts[1..])
    else Err(ExpectedIdent)
  }

  /** With enough passes, the loop as written stops exactly where the
      corrected parse does not report a stray token, and then agrees with it:
      the correction turns the inputs that hang into errors and changes
      nothing else. */
  lemma {:induction false} SetupCorrection(ts: seq<Token>, fuel: nat)
    requires fuel >= |ts|
    ensures SetupRun(ts, fuel)
            == (if SetupEntries(ts) == Err(ExpectedIdent) then None else Some(SetupEntries(ts)))
    decreases |ts|
  {
    if ts == [] {
    } else if ts[0].Ident? {
      var item := SetupItem(ts);
      SetupItemErrors(ts);
      if item.Ok? {
        var rest := SkipComma(item.value.rest);
        SetupCorrection(rest, fuel - 1);
        assert SetupStep(ts) == Ok(Parsed(item.value.item, rest));
      }
    } else if ts[0] == Comma {
      SetupCorrection(ts[1..], fuel - 1);
      assert SetupStep(ts) == Ok(Parsed(EmptySetup, ts[1..]));
      MergedSetupNothing(SetupEntries(ts[1..]));
    } else {
      SetupStall(ts, fuel);
    }
  }

  /** `parse_setup_block`, corrected. */
  method ParseSetupBlock(body: seq<Token>) returns (r: Result<SetupBlock>)
    ensures r == SetupEntries(body)
  {
    var resources: seq<Expr> := [];
    var entities: seq<EntitySetup> := [];
    var events: seq<Expr> := [];
    var input := body;
    MergedSetupNothing(SetupEntries(body));
    while input != []
      invariant SetupEntries(body) == MergedSetup(SetupBlock(resources, entities, events), SetupEntries(input))
      decreases |input|
    {
      if input[0].Ident? {
        var name := input[0].name;
        var afterColon := ExpectToken(input[1..], Colon);
        if afterColon.Err? {
          return Err(afterColon.error);
        }
        var one: SetupBlock;
        var rest: seq<Token>;
        if name == "resources" || name == "events" {
          var list := ParseGroup(afterColon.value, Bracket);
          if list.Err? {
            return Err(list.error);
          }
          var es := ParseExprList(list.value.item);
          if es.Err? {
            return Err(es.error);
          }
          one := if name == "resources" then SetupBlock(es.value, [], []) else SetupBlock([], [], es.value);
          rest := list.value.rest;
        } else {
          var components := ParseExpr(afterColon.value);
          if components.Err? {
            return Err(components.error);
          }
          one := SetupBlock([], [EntitySetup(name, components.value.item)], []);
          rest := components.value.rest;
        }
        assert SetupItem(input) == Ok(Parsed(one, rest));
        var done := SetupBlock(resources, entities, events);
        MergedSetupTwice(done, one, SetupEntries(SkipComma(rest)));
        resources, entities, events := resources + one.resources, entities + one.entities, events + one.events;
        input := SkipComma(rest);
      } else if input[0] == Comma {
        input := input[1..];
      } else {
        return Err(ExpectedIdent);
      }
    }
    var done := SetupBlock(resources, entities, events);
    assert MergeSetup(done, EmptySetup) == done;
    return Ok(done);
  }

  // ===========================================================================
  // The call clause: `SYSTEM` or `SYSTEM, PARAMS`

  /** `parse_system_call` as written: after a comma, whatever comes next is
      taken as the piped-into system, even the `expect` keyword. */
  function SystemCallAsWritten(ts: seq<Token>): Result<Parsed<SystemCall>> {
    var system :- ParseExpr(ts);
    if system.rest != [] && system.rest[0] == Comma then
      var after := system.rest[1..];
      if after != [] then
        var params :- ParseExpr(after);
        Ok(Parsed(SystemCall(system.item, Some(params.item)), params.rest))
      else Ok(Parsed(SystemCall(system.item, None), after))
    else Ok(Parsed(SystemCall(system.item, None), system.rest))
  }

  predicate StartsExpectClause(ts: seq<Token>) {
    |ts| >= 2 && ts[0] == Ident("expect") && ts[1] == Colon
  }

  /** `parse_system_call`, corrected: a comma followed by `expect:` ends the
      call clause instead of supplying the piped-into system. */
  function ParseSystemCall(ts: seq<Token>): (r: Result<Parsed<SystemCall>>)
    ensures r.Ok? <==> ParseExpr(ts).Ok? && (|ts| >= 3 && ts[1] == Comma && !StartsExpectClause(ts[2..])
                                             ==> TokenExpr(ts[2]).Some?)
    ensures r.Ok? ==> r.value.item.system == TokenExpr(ts[0]).value
    ensures r.Ok? ==> (r.value.item.params.Some? <==> |ts| >= 3 && ts[1] == Comma && !StartsExpectClause(ts[2..]))
    ensures r.Ok? && r.value.item.params.Some? ==> r.value.item.params.value == TokenExpr(ts[2]).value
  {
    var system :- ParseExpr(ts);
    if system.rest != [] && system.rest[0] == Comma then
      var after := system.rest[1..];
      if after != [] && !StartsExpectClause(after) then
        var params :- ParseExpr(after);
        Ok(Parsed(SystemCall(system.item, Some(params.item)), params.rest))
      else Ok(Parsed(SystemCall(system.item, None), after))
    else Ok(Parsed(SystemCall(system.item, None), system.rest))
  }

  /** The two readings differ only where a comma is followed by `expect:`. */
  lemma CallCorrectionOnlyAtExpect(ts: seq<Token>)
    requires !(|ts| >= 2 && ts[1] == Comma && StartsExpectClause(ts[2..]))
    ensures ParseSystemCall(ts) == SystemCallAsWritten(ts)
  {
    if ParseExpr(ts).Ok? && |ts| >= 2 && ts[1] == Comma {
      assert ParseExpr(ts).value.rest[1..] == ts[2..];
    }
  }

  // ===========================================================================
  // The whole invocation: NAME { setup: {..}, call: .., expect: {..} }

  /** The setup clause and `call:`; what is left starts the call clause. */
  function SetupAndCallKeyword(content: seq<Token>): Result<Parsed<SetupBlock>> {
    var s :- Clause(content, "setup");
    var setup :- SetupEntries(s.item);
    var afterCall :- Keyword(SkipComma(s.rest), "call");
    Ok(Parsed(setup, afterCall))
  }

  /** An optional comma after the call clause, then the `expect` clause. */
  function ExpectAfterCall(name: string, setup: SetupBlock, call: Parsed<SystemCall>): Result<SystemTest> {
    var e :- Clause(SkipComma(call.rest), "expect");
    var assertions :- ExprList(e.item);
    Finish(SystemTest(name, setup, call.item, ExpectBlock(assertions)), e.rest)
  }

  function SystemBody(name: string, content: seq<Token>): Result<SystemTest> {
    var s :- SetupAndCallKeyword(content);
    var call :- ParseSystemCall(s.rest);
    ExpectAfterCall(name, s.item, call)
  }

  /** The same with the call clause parsed as written. */
  function SystemBodyAsWritten(name: string, content: seq<Token>): Result<SystemTest> {
    var s :- SetupAndCallKeyword(content);
    var call :- SystemCallAsWritten(s.rest);
    ExpectAfterCall(name, s.item, call)
  }

  /** `impl Parse for SystemTest` */
  function Invocation(input: seq<Token>): Result<SystemTest> {
    var name :- ParseIdent(input);
    var content :- ParseGroup(name.rest, Brace);
    var t :- SystemBody(name.item, content.item);
    Finish(t, content.rest)
  }

  function InvocationAsWritten(input: seq<Token>): Result<SystemTest> {
    var name :- ParseIdent(input);
    var content :- ParseGroup(name.rest, Brace);
    var t :- SystemBodyAsWritten(name.item, content.item);
    Finish(t, content.rest)
  }

  method ParseSystemTest(input: seq<Token>) returns (r: Result<SystemTest>)
    ensures r == Invocation(input)
  {
    var name := ParseIdent(input);
    if name.Err? {
      return Err(name.error);
    }
    var content := ParseGroup(name.value.rest, Brace);
    if content.Err? {
      return Err(content.error);
    }
    var s := Clause(content.value.item, "setup");
    if s.Err? {
      return Err(s.error);
    }
    var setup := ParseSetupBlock(s.value.item);
    if setup.Err? {
      return Err(setup.error);
    }
    var afterCall := Keyword(SkipComma(s.value.rest), "call");
    if afterCall.Err? {
      return Err(afterCall.error);
    }
    var call := ParseSystemCall(afterCall.value);
    if call.Err? {
      return Err(call.error);
    }
    var e := Clause(SkipComma(call.value.rest), "expect");
    if e.Err? {
      return Err(e.error);
    }
    var assertions := ParseExprList(e.value.item);
    if assertions.Err? {
      return Err(assertions.error);
    }
    if e.value.rest != [] || content.value.rest != [] {
      return Err(UnexpectedToken);
    }
    return Ok(SystemTest(name.value.item, setup.value, call.value.item, ExpectBlock(assertions.value)));
  }

  // ===========================================================================
  // What a test author writes

  datatype SetupEntry =
    | ResourcesSetup(exprs: seq<Expr>)
    | EventsSetup(exprs: seq<Expr>)
    | EntityEntry(entity: EntitySetup)

  /** An entity whose handle is called `resources` or `events` is read as the
      list of that name instead, so it cannot be written. */
  predicate WritableEntry(e: SetupEntry) {
    e.EntityEntry? ==> e.entity.varName != "resources" && e.entity.varName != "events"
  }

  function EntryBlock(e: SetupEntry): SetupBlock {
    match e
    case ResourcesSetup(es) => SetupBlock(es, [], [])
    case EventsSetup(es) => SetupBlock([], [], es)
    case EntityEntry(en) => SetupBlock([], [en], [])
  }

  function EntryTokens(e: SetupEntry): seq<Token> {
    match e
    case ResourcesSetup(es) => [Ident("resources"), Colon, Group(Bracket, PrintExprList(es, AllCommas(|es|)))]
    case EventsSetup(es) => [Ident("events"), Colon, Group(Bracket, PrintExprList(es, AllCommas(|es|)))]
    case EntityEntry(en) => [Ident(en.varName), Colon, ExprToken(en.components)]
  }

  function AccumulateSetup(entries: seq<SetupEntry>): SetupBlock {
    if entries == [] then EmptySetup else MergeSetup(EntryBlock(entries[0]), AccumulateSetup(entries[1..]))
  }

  function PrintSetup(entries: seq<SetupEntry>, commas: seq<bool>): seq<Token>
    requires |commas| == |entries|
  {
    if entries == [] then []
    else EntryTokens(entries[0]) + OptComma(commas[0]) + PrintSetup(entries[1..], commas[1..])
  }

  ghost predicate AllWritable(entries: seq<SetupEntry>) {
    forall i :: 0 <= i < |entries| ==> WritableEntry(entries[i])
  }

  /** A `resources: [..]` or `events: [..]` entry. */
  lemma SetupListItem(name: string, list: seq<Token>, es: seq<Expr>, rest: seq<Token>)
    requires name == "resources" || name == "events"
    requires ExprList(list) == Ok(es)
    ensures SetupItem([Ident(name), Colon, Group(Bracket, list)] + rest)
            == Ok(Parsed(if name == "resources" then SetupBlock(es, [], []) else SetupBlock([], [], es), rest))
  {
    var ts := [Ident(name), Colon, Group(Bracket, list)] + rest;
    assert ts[1..] == [Colon, Group(Bracket, list)] + rest;
    assert ts[1..][1..] == [Group(Bracket, list)] + rest;
    GroupStep(Bracket, list, rest);
  }

  /** `name: COMPONENTS` for any other name. */
  lemma SetupEntityItem(name: string, e: Expr, rest: seq<Token>)
    requires name != "resources" && name != "events"
    ensures SetupItem([Ident(name), Colon, ExprToken(e)] + rest)
            == Ok(Parsed(SetupBlock([], [EntitySetup(name, e)], []), rest))
  {
    var ts := [Ident(name), Colon, ExprToken(e)] + rest;
    assert ts[1..] == [Colon, ExprToken(e)] + rest;
    assert ts[1..][1..] == [ExprToken(e)] + rest;
    ExprStep(e, rest);
  }

  lemma SetupItemRoundTrip(e: SetupEntry, rest: seq<Token>)
    requires WritableEntry(e)
    ensures SetupItem(EntryTokens(e) + rest) == Ok(Parsed(EntryBlock(e), rest))
  {
    match e
    case ResourcesSetup(es) =>
      ExprListRoundTrip(es, AllCommas(|es|));
      SetupListItem("resources", PrintExprList(es, AllCommas(|es|)), es, rest);
    case EventsSetup(es) =>
      ExprListRoundTrip(es, AllCommas(|es|));
      SetupListItem("events", PrintExprList(es, AllCommas(|es|)), es, rest);
    case EntityEntry(en) =>
      SetupEntityItem(en.varName, en.components, rest);
  }

  /** Both readings of the loop take one written entry, then an optional comma. */
  lemma SetupCons(e: SetupEntry, rest: seq<Token>)
    requires WritableEntry(e)
    ensures SetupEntries(EntryTokens(e) + rest) == MergedSetup(EntryBlock(e), SetupEntries(SkipComma(rest)))
    ensures SetupStep(EntryTokens(e) + rest) == Ok(Parsed(EntryBlock(e), SkipComma(rest)))
  {
    SetupItemRoundTrip(e, rest);
    assert (EntryTokens(e) + rest)[0] == EntryTokens(e)[0];
  }

  lemma PrintSetupCons(entries: seq<SetupEntry>, commas: seq<bool>)
    requires |commas| == |entries| && entries != []
    ensures PrintSetup(entries, commas)
            == EntryTokens(entries[0]) + (OptComma(commas[0]) + PrintSetup(entries[1..], commas[1..]))
  {
  }

  lemma PrintSetupHead(entries: seq<SetupEntry>, commas: seq<bool>)
    requires |commas| == |entries|
    ensures PrintSetup(entries, commas) == [] || PrintSetup(entries, commas)[0].Ident?
  {
  }

  /** Both readings of the loop over written entries followed by anything
      that does not start with a comma: the first entry, then the rest. */
  lemma PrintSetupStep(entries: seq<SetupEntry>, commas: seq<bool>, suffix: seq<Token>)
    requires |commas| == |entries| && entries != [] && WritableEntry(entries[0])
    requires suffix == [] || suffix[0] != Comma
    ensures SetupEntries(PrintSetup(entries, commas) + suffix)
            == MergedSetup(EntryBlock(entries[0]), SetupEntries(PrintSetup(entries[1..], commas[1..]) + suffix))
    ensures SetupStep(PrintSetup(entries, commas) + suffix)
            == Ok(Parsed(EntryBlock(entries[0]), PrintSetup(entries[1..], commas[1..]) + suffix))
  {
    var tail := PrintSetup(entries[1..], commas[1..]);
    var after := OptComma(commas[0]) + (tail + suffix);
    assert SkipComma(after) == tail + suffix by {
      PrintSetupHead(entries[1..], commas[1..]);
      assert tail + suffix == [] || (tail + suffix)[0] != Comma;
      SkipOptComma(commas[0], tail + suffix);
    }
    PrintSetupCons(entries, commas);
    RegroupTail(EntryTokens(entries[0]), OptComma(commas[0]), tail, suffix);
    SetupCons(entries[0], after);
  }

  lemma AllWritableTail(entries: seq<SetupEntry>)
    requires entries != [] && AllWritable(entries)
    ensures WritableEntry(entries[0]) && AllWritable(entries[1..])
  {
    assert forall i :: 0 <= i < |entries[1..]| ==> entries[1..][i] == entries[i + 1];
  }

  /** Entries come back in the order written, accumulated by kind. */
  lemma {:induction false} SetupRoundTrip(entries: seq<SetupEntry>, commas: seq<bool>)
    requires |commas| == |entries| && AllWritable(entries)
    ensures SetupEntries(PrintSetup(entries, commas)) == Ok(AccumulateSetup(entries))
  {
    if entries != [] {
      var tail := PrintSetup(entries[1..], commas[1..]);
      var rest := OptComma(commas[0]) + tail;
      AllWritableTail(entries);
      assert SetupEntries(SkipComma(rest)) == Ok(AccumulateSetup(entries[1..])) by {
        SetupRoundTrip(entries[1..], commas[1..]);
        PrintSetupHead(entries[1..], commas[1..]);
        SkipOptComma(commas[0], tail);
      }
      PrintSetupCons(entries, commas);
      SetupCons(entries[0], rest);
    }
  }

  /** After any well-formed entries, a stray token makes the loop as written
      run forever, while the corrected parse reports it. */
  lemma {:induction false} StrayTokenHangs(entries: seq<SetupEntry>, commas: seq<bool>, stray: Token,
                                           rest: seq<Token>)
    requires |commas| == |entries| && AllWritable(entries)
    requires !stray.Ident? && stray != Comma
    ensures forall fuel: nat :: SetupRun(PrintSetup(entries, commas) + ([stray] + rest), fuel) == None
    ensures SetupEntries(PrintSetup(entries, commas) + ([stray] + rest)) == Err(ExpectedIdent)
    decreases |entries|
  {
    var bad := [stray] + rest;
    if entries == [] {
      assert PrintSetup(entries, commas) + bad == bad;
      forall fuel: nat ensures SetupRun(bad, fuel) == None {
        SetupStall(bad, fuel);
      }
      SetupStall(bad, 0);
    } else {
      var ts := PrintSetup(entries, commas) + bad;
      AllWritableTail(entries);
      StrayTokenHangs(entries[1..], commas[1..], stray, rest);
      assert SetupEntries(ts) == Err(ExpectedIdent) by {
        PrintSetupStep(entries, commas, bad);
      }
      forall fuel: nat ensures SetupRun(ts, fuel) == None {
        if fuel > 0 {
          SetupRunThrough(entries, commas, bad, fuel - 1);
        } else {
          assert |ts| > 0;
        }
      }
    }
  }

  /** A loop that does not stop after the first written entry does not
      stop before it either. */
  lemma SetupRunThrough(entries: seq<SetupEntry>, commas: seq<bool>, suffix: seq<Token>, fuel: nat)
    requires |commas| == |entries| && entries != [] && WritableEntry(entries[0])
    requires suffix == [] || suffix[0] != Comma
    requires SetupRun(PrintSetup(entries[1..], commas[1..]) + suffix, fuel) == None
    ensures SetupRun(PrintSetup(entries, commas) + suffix, fuel + 1) == None
  {
    var ts := PrintSetup(entries, commas) + suffix;
    PrintSetupStep(entries, commas, suffix);
    assert ts != [] by {
      PrintSetupCons(entries, commas);
    }
  }

  /** `, PARAMS` when the call is piped. */
  function ParamTokens(params: Option<Expr>): seq<Token> {
    if params.Some? then [Comma, ExprToken(params.value)] else []
  }

  /** An invocation as written: the setup entries, the call, the checks, and
      whether a comma follows the setup and the call clause. */
  datatype SystemSource = SystemSource(
    name: string,
    setup: seq<SetupEntry>,
    system: Expr,
    params: Option<Expr>,
    checks: seq<Expr>,
    commaAfterSetup: bool,
    commaAfterCall: bool)

  function ExpectTokens(src: SystemSource): seq<Token> {
    ClauseTokens("expect", PrintExprList(src.checks, AllCommas(|src.checks|)))
  }

  /** What follows `call:`. */
  function CallClauseTokens(src: SystemSource): seq<Token> {
    [ExprToken(src.system)] + (ParamTokens(src.params) + (OptComma(src.commaAfterCall) + ExpectTokens(src)))
  }

  function SystemContent(src: SystemSource): seq<Token> {
    ClauseTokens("setup", PrintSetup(src.setup, AllCommas(|src.setup|)))
    + (OptComma(src.commaAfterSetup) + ([Ident("call"), Colon] + CallClauseTokens(src)))
  }

  function PrintSystemTest(src: SystemSource): seq<Token> {
    [Ident(src.name), Group(Brace, SystemContent(src))]
  }

  function Meaning(src: SystemSource): SystemTest {
    SystemTest(src.name, AccumulateSetup(src.setup), SystemCall(src.system, src.params), ExpectBlock(src.checks))
  }

  /** A well-formed setup clause followed by `call:`. */
  lemma SetupThenCall(st: seq<Token>, comma: bool, rest: seq<Token>)
    requires SetupEntries(st).Ok?
    ensures SetupAndCallKeyword(ClauseTokens("setup", st) + (OptComma(comma) + ([Ident("call"), Colon] + rest)))
            == Ok(Parsed(SetupEntries(st).value, rest))
  {
    var afterSetup := OptComma(comma) + ([Ident("call"), Colon] + rest);
    ClauseStep("setup", st, afterSetup);
    SkipOptComma(comma, [Ident("call"), Colon] + rest);
    KeywordStep("call", rest);
  }

  lemma SetupPart(src: SystemSource)
    requires AllWritable(src.setup)
    ensures SetupAndCallKeyword(SystemContent(src)) == Ok(Parsed(AccumulateSetup(src.setup), CallClauseTokens(src)))
  {
    SetupRoundTrip(src.setup, AllCommas(|src.setup|));
    SetupThenCall(PrintSetup(src.setup, AllCommas(|src.setup|)), src.commaAfterSetup, CallClauseTokens(src));
  }

  /** `SYSTEM, PARAMS` followed by anything but a colon. */
  lemma PipedCall(system: Expr, params: Expr, rest: seq<Token>)
    requires rest == [] || rest[0] != Colon
    ensures ParseSystemCall([ExprToken(system)] + ([Comma, ExprToken(params)] + rest))
            == Ok(Parsed(SystemCall(system, Some(params)), rest))
  {
    var after := [Comma, ExprToken(params)] + rest;
    ExprStep(system, after);
    assert after[1..] == [ExprToken(params)] + rest;
    assert !StartsExpectClause([ExprToken(params)] + rest);
    ExprStep(params, rest);
  }

  /** `SYSTEM` with or without a comma, then the `expect` clause. */
  lemma PlainCall(system: Expr, comma: bool, rest: seq<Token>)
    requires StartsExpectClause(rest)
    ensures ParseSystemCall([ExprToken(system)] + ([] + (OptComma(comma) + rest)))
            == Ok(Parsed(SystemCall(system, None), rest))
  {
    var after := OptComma(comma) + rest;
    assert [] + after == after;
    ExprStep(system, after);
    if comma {
      assert after == [Comma] + rest;
      assert after[0] == Comma && after[1..] == rest;
    } else {
      assert after == rest && after[0] != Comma;
    }
  }

  /** The corrected parser reads the call back as written, whichever commas
      were used, and leaves the expect clause behind an optional comma. */
  lemma CallPart(src: SystemSource)
    ensures ParseSystemCall(CallClauseTokens(src)).Ok?
    ensures ParseSystemCall(CallClauseTokens(src)).value.item == SystemCall(src.system, src.params)
    ensures SkipComma(ParseSystemCall(CallClauseTokens(src)).value.rest) == ExpectTokens(src)
  {
    var e := ExpectTokens(src);
    assert e[0] == Ident("expect") && e[1] == Colon;
    if src.params.Some? {
      var after := OptComma(src.commaAfterCall) + e;
      assert after[0] != Colon;
      PipedCall(src.system, src.params.value, after);
      SkipOptComma(src.commaAfterCall, e);
    } else {
      PlainCall(src.system, src.commaAfterCall, e);
    }
  }

  /** The expect clause, and nothing after it. */
  lemma ExpectPart(name: string, setup: SetupBlock, call: Parsed<SystemCall>, body: seq<Token>)
    requires ExprList(body).Ok? && SkipComma(call.rest) == ClauseTokens("expect", body)
    ensures ExpectAfterCall(name, setup, call) == Ok(SystemTest(name, setup, call.item, ExpectBlock(ExprList(body).value)))
  {
    assert ClauseTokens("expect", body) + [] == ClauseTokens("expect", body);
    ClauseStep("expect", body, []);
  }

  /** The body parse, put together from the parses of its parts. */
  lemma BodyFromParts(name: string, content: seq<Token>, setup: SetupBlock, afterCall: seq<Token>,
                      call: Parsed<SystemCall>)
    requires SetupAndCallKeyword(content) == Ok(Parsed(setup, afterCall))
    requires ParseSystemCall(afterCall) == Ok(call)
    ensures SystemBody(name, content) == ExpectAfterCall(name, setup, call)
  {
  }

  /** Every written invocation parses back to what was written. */
  lemma SystemRoundTrip(src: SystemSource)
    requires AllWritable(src.setup)
    ensures Invocation(PrintSystemTest(src)) == Ok(Meaning(src))
  {
    var content := SystemContent(src);
    assert SystemBody(src.name, content) == Ok(Meaning(src)) by {
      var call := ParseSystemCall(CallClauseTokens(src));
      var body := PrintExprList(src.checks, AllCommas(|src.checks|));
      SetupPart(src);
      CallPart(src);
      ExprListRoundTrip(src.checks, AllCommas(|src.checks|));
      ExpectPart(src.name, AccumulateSetup(src.setup), call.value, body);
      BodyFromParts(src.name, content, AccumulateSetup(src.setup), CallClauseTokens(src), call.value);
    }
  }

  /** The call `SYSTEM` or `SYSTEM, PARAMS`, then an optional comma and an
      identifier. Without a pipe argument the comma must be absent, since
      an identifier after it would be read as the pipe argument. */
  lemma CallThenIdent(system: Expr, params: Option<Expr>, comma: bool, other: string, rest: seq<Token>)
    requires params.Some? || !comma
    ensures ParseSystemCall([ExprToken(system)] + (ParamTokens(params) + (OptComma(comma) + ([Ident(other)] + rest))))
            == Ok(Parsed(SystemCall(system, params), OptComma(comma) + ([Ident(other)] + rest)))
  {
    var after := OptComma(comma) + ([Ident(other)] + rest);
    if params.Some? {
      assert after[0] != Colon;
      PipedCall(system, params.value, after);
    } else {
      assert after == [Ident(other)] + rest;
      assert [] + after == after;
      ExprStep(system, after);
    }
  }

  /** The clauses come in the fixed order setup, call, expect: an
      identifier other than the keyword due in any of the three slots is
      reported as that keyword. In the third slot, `SYSTEM,` followed by an
      identifier takes the identifier as the pipe argument, so that slot is
      stated for a piped call or a call without a comma after it. */
  lemma ClauseOrderFixed(name: string, st: seq<Token>, c1: bool, system: Expr, params: Option<Expr>,
                         c2: bool, other: string, rest: seq<Token>)
    requires SetupEntries(st).Ok?
    ensures other != "setup" ==> SystemBody(name, [Ident(other)] + rest) == Err(ExpectedKeyword("setup"))
    ensures other != "call" ==>
              SystemBody(name, ClauseTokens("setup", st) + (OptComma(c1) + ([Ident(other)] + rest)))
              == Err(ExpectedKeyword("call"))
    ensures other != "expect" && (params.Some? || !c2) ==>
              SystemBody(name, ClauseTokens("setup", st) + (OptComma(c1) + ([Ident("call"), Colon]
                               + ([ExprToken(system)] + (ParamTokens(params) + (OptComma(c2) + ([Ident(other)] + rest)))))))
              == Err(ExpectedKeyword("expect"))
  {
    if other != "setup" {
      WrongKeyword(other, rest, "setup");
    }
    if other != "call" {
      var after := OptComma(c1) + ([Ident(other)] + rest);
      ClauseStep("setup", st, after);
      SkipOptComma(c1, [Ident(other)] + rest);
      KeywordWrong(other, rest, "call");
    }
    if other != "expect" && (params.Some? || !c2) {
      var afterCall := [ExprToken(system)] + (ParamTokens(params) + (OptComma(c2) + ([Ident(other)] + rest)));
      var content := ClauseTokens("setup", st) + (OptComma(c1) + ([Ident("call"), Colon] + afterCall));
      var call := Parsed(SystemCall(system, params), OptComma(c2) + ([Ident(other)] + rest));
      SetupThenCall(st, c1, afterCall);
      CallThenIdent(system, params, c2, other, rest);
      assert ExpectAfterCall(name, SetupEntries(st).value, call) == Err(ExpectedKeyword("expect")) by {
        SkipOptComma(c2, [Ident(other)] + rest);
        WrongKeyword(other, rest, "expect");
      }
      BodyFromParts(name, content, SetupEntries(st).value, afterCall, call);
    }
  }

  /** The body as written fails where the call clause's leftovers fail. */
  lemma AsWrittenBodyFails(name: string, content: seq<Token>, setup: SetupBlock, afterCall: seq<Token>,
                           call: Parsed<SystemCall>)
    requires SetupAndCallKeyword(content) == Ok(Parsed(setup, afterCall))
    requires SystemCallAsWritten(afterCall) == Ok(call)
    requires ExpectAfterCall(name, setup, call).Err?
    ensures SystemBodyAsWritten(name, content) == ExpectAfterCall(name, setup, call)
  {
  }

  /** As written, `SYSTEM,` then `expect:` reads `expect` as the piped-into
      system. */
  lemma CommaThenExpectAsWritten(system: Expr, body: seq<Token>)
    ensures SystemCallAsWritten([ExprToken(system)] + ([] + ([Comma] + ClauseTokens("expect", body))))
            == Ok(Parsed(SystemCall(system, Some(Path("expect"))), [Colon, Group(Brace, body)]))
  {
    var after := [Comma] + ClauseTokens("expect", body);
    assert [] + after == after;
    ExprStep(system, after);
    assert after[1..] == [Ident("expect")] + [Colon, Group(Brace, body)];
    ExprStep(Path("expect"), [Colon, Group(Brace, body)]);
  }

  /** As written, `call: SYSTEM,` followed by the expect clause, the form
      every example uses, is rejected: `expect` is taken as the piped-into
      system and the clause that should follow starts with a colon. */
  lemma CallCommaSwallowsExpect(src: SystemSource)
    requires AllWritable(src.setup) && src.params.None? && src.commaAfterCall
    ensures InvocationAsWritten(PrintSystemTest(src)) == Err(ExpectedIdent)
    ensures Invocation(PrintSystemTest(src)) == Ok(Meaning(src))
  {
    assert Invocation(PrintSystemTest(src)) == Ok(Meaning(src)) by {
      SystemRoundTrip(src);
    }
    var content := SystemContent(src);
    assert SystemBodyAsWritten(src.name, content) == Err(ExpectedIdent) by {
      var body := PrintExprList(src.checks, AllCommas(|src.checks|));
      var call := Parsed(SystemCall(src.system, Some(Path("expect"))), [Colon, Group(Brace, body)]);
      SetupPart(src);
      CommaThenExpectAsWritten(src.system, body);
      assert ExpectAfterCall(src.name, AccumulateSetup(src.setup), call) == Err(ExpectedIdent);
      AsWrittenBodyFails(src.name, content, AccumulateSetup(src.setup), CallClauseTokens(src), call);
    }
  }

  // ===========================================================================
  // Code generation

  function ResourceBlock(b: SetupBlock): seq<Stmt> {
    seq(|b.resources|, i requires 0 <= i < |b.resources| => InsertResource(b.resources[i]))
  }

  function EventBlock(b: SetupBlock): seq<Stmt> {
    seq(|b.events|, i requires 0 <= i < |b.events| => AddEvent(b.events[i]))
  }

  function SpawnBlock(b: SetupBlock): seq<Stmt> {
    seq(|b.entities|, i requires 0 <= i < |b.entities| =>
      SpawnBundle(b.entities[i].varName, b.entities[i].components))
  }

  /** Resources, then event types, then entities bound to the names the
      author gave them, whatever order the entries were written in. */
  function SetupCode(b: SetupBlock): seq<Stmt> {
    ResourceBlock(b) + EventBlock(b) + SpawnBlock(b)
  }

  lemma {:induction false} SpawnBlockBindings(es: seq<EntitySetup>)
    ensures Bindings(SpawnBlock(SetupBlock([], es, []))) == seq(|es|, i requires 0 <= i < |es| => es[i].varName)
    decreases |es|
  {
    var code := SpawnBlock(SetupBlock([], es, []));
    if es != [] {
      assert code[1..] == SpawnBlock(SetupBlock([], es[1..], []));
      SpawnBlockBindings(es[1..]);
    }
  }

  /** The set-up binds exactly the names the author gave the entities, in the
      order written, and every spawn comes after all resources and event
      types. Names are the author's own, so nothing keeps two of them apart. */
  lemma SetupBindings(b: SetupBlock)
    ensures Bindings(SetupCode(b)) == seq(|b.entities|, i requires 0 <= i < |b.entities| => b.entities[i].varName)
    ensures forall i :: 0 <= i < |SetupCode(b)| ==>
              (SetupCode(b)[i].SpawnBundle? <==> i >= |b.resources| + |b.events|)
  {
    var pre := ResourceBlock(b) + EventBlock(b);
    assert Bindings(SetupCode(b)) == Bindings(SpawnBlock(b)) by {
      BindingsConcat(pre, SpawnBlock(b));
      BindingsConcat(ResourceBlock(b), EventBlock(b));
      NoBindings(ResourceBlock(b));
      NoBindings(EventBlock(b));
    }
    assert SpawnBlock(b) == SpawnBlock(SetupBlock([], b.entities, []));
    SpawnBlockBindings(b.entities);
    forall i | 0 <= i < |SetupCode(b)|
      ensures SetupCode(b)[i].SpawnBundle? <==> i >= |b.resources| + |b.events|
    {
      if i < |b.resources| {
        assert SetupCode(b)[i] == ResourceBlock(b)[i];
      } else if i < |pre| {
        assert SetupCode(b)[i] == EventBlock(b)[i - |b.resources|];
      } else {
        assert SetupCode(b)[i] == SpawnBlock(b)[i - |pre|];
      }
    }
  }

  method GenerateSetup(b: SetupBlock) returns (code: seq<Stmt>)
    ensures code == SetupCode(b)
  {
    code := [];
    for i := 0 to |b.resources|
      invariant code == ResourceBlock(b)[..i]
    {
      code := code + [InsertResource(b.resources[i])];
    }
    for i := 0 to |b.events|
      invariant code == ResourceBlock(b) + EventBlock(b)[..i]
    {
      code := code + [AddEvent(b.events[i])];
    }
    for i := 0 to |b.entities|
      invariant code == ResourceBlock(b) + EventBlock(b) + SpawnBlock(b)[..i]
    {
      var entity := b.entities[i];
      code := code + [SpawnBundle(entity.varName, entity.components)];
    }
  }

  /** A piped call registers `system.pipe(params)`, a plain one the system alone. */
  function CallStmt(c: SystemCall): (s: Stmt)
    ensures s.AddSystemPiped? <==> c.params.Some?
    ensures s.AddSystemPiped? ==> s == AddSystemPiped(c.system, c.params.value)
    ensures s.AddSystem? ==> s.system == c.system
  {
    if c.params.Some? then AddSystemPiped(c.system, c.params.value) else AddSystem(c.system)
  }

  function CheckCode(assertions: seq<Expr>): seq<Stmt> {
    seq(|assertions|, i requires 0 <= i < |assertions| => Assert(assertions[i]))
  }

  method GenerateAssertions(assertions: seq<Expr>) returns (code: seq<Stmt>)
    ensures code == CheckCode(assertions)
  {
    code := [];
    for i := 0 to |assertions|
      invariant code == CheckCode(assertions)[..i]
    {
      code := code + [Assert(assertions[i])];
    }
  }

  /** `SystemTest::expand`: the harness, the setup, the system registered,
      exactly one update, then the checks, never out of that order. */
  method Expand(t: SystemTest) returns (f: TestFn)
    ensures f.name == t.name
    ensures f.body == Harness + SetupCode(t.setup) + [CallStmt(t.call), Update]
                      + CheckCode(t.expectBlock.assertions)
    ensures PhasesOrdered(f.body)
    ensures CountUpdates(f.body) == 1
  {
    var setup := GenerateSetup(t.setup);
    var checks := GenerateAssertions(t.expectBlock.assertions);
    var registration := setup + [CallStmt(t.call)];
    var body := Harness + registration + [Update] + checks;
    assert AllInPhase(Harness, 0) && AllInPhase(registration, 1) && AllInPhase(checks, 3);
    assert PhasesOrdered(body) by {
      FourPhases(Harness, registration, [Update], checks);
    }
    assert CountUpdates(body) == 1 by {
      NoUpdatesOutsideStimulus(Harness, 0);
      NoUpdatesOutsideStimulus(registration, 1);
      NoUpdatesOutsideStimulus(checks, 3);
      CountUpdatesConcat(Harness + registration + [Update], checks);
      CountUpdatesConcat(Harness + registration, [Update]);
      CountUpdatesConcat(Harness, registration);
    }
    assert Harness + setup + [CallStmt(t.call), Update] + checks == body;
    f := TestFn(t.name, body);
  }
}
