/** `test_scenario!`: a given / when / then specification compiled into one
    test function that builds an app, replays the stimuli and checks the
    outcome. */
module ScenarioDsl {
  import opened Tokens
  import opened TestCode

  type u32 = n: nat | n < 0x1_0000_0000

  datatype EntityDef = EntityDef(typeName: string, fields: seq<(string, Expr)>)

  datatype GivenClause = GivenClause(
    resources: seq<Expr>,
    events: seq<Expr>,
    systems: seq<Expr>,
    entities: seq<EntityDef>)

  datatype TimeAdvance = Frames(frames: u32) | Seconds(seconds: real) | Days(days: u32)

  datatype Action = Event(event: Expr) | Advance(advance: TimeAdvance) | Input(input: Expr)

  datatype WhenClause = WhenClause(actions: seq<Action>)

  datatype Assertion =
    | ComponentCheck(check: Expr)
    | EventsReceived(eventTypes: seq<string>)
    | Snapshot(value: Expr)

  datatype ThenClause = ThenClause(assertions: seq<Assertion>)

  datatype TestScenario = TestScenario(
    name: string,
    givenClause: GivenClause,
    whenClause: WhenClause,
    thenClause: ThenClause)

  // ===========================================================================
  // Parsing the given clause

  const GivenFieldNames: set<string> := {"resources", "events", "systems", "entities"}

  const EmptyGiven := GivenClause([], [], [], [])

  /** A field that occurs again appends to what the earlier occurrences gave. */
  function Merge(a: GivenClause, b: GivenClause): GivenClause {
    GivenClause(a.resources + b.resources, a.events + b.events,
                a.systems + b.systems, a.entities + b.entities)
  }

  function MergedWith(done: GivenClause, r: Result<GivenClause>): Result<GivenClause> {
    if r.Ok? then Ok(Merge(done, r.value)) else r
  }

  lemma MergedWithNothing(r: Result<GivenClause>)
    ensures MergedWith(EmptyGiven, r) == r
  {
    if r.Ok? {
      var v := r.value;
      assert [] + v.resources == v.resources && [] + v.events == v.events;
      assert [] + v.systems == v.systems && [] + v.entities == v.entities;
    }
  }

  lemma MergedWithTwice(a: GivenClause, b: GivenClause, r: Result<GivenClause>)
    ensures MergedWith(a, MergedWith(b, r)) == MergedWith(Merge(a, b), r)
  {
    if r.Ok? {
      var v := r.value;
      assert a.resources + (b.resources + v.resources) == (a.resources + b.resources) + v.resources;
      assert a.events + (b.events + v.events) == (a.events + b.events) + v.events;
      assert a.systems + (b.systems + v.systems) == (a.systems + b.systems) + v.systems;
      assert a.entities + (b.entities + v.entities) == (a.entities + b.entities) + v.entities;
    }
  }

  /** The `field: value` pairs inside an entity's braces. */
  function EntityFields(ts: seq<Token>): Result<seq<(string, Expr)>>
    decreases |ts|
  {
    if ts == [] then Ok([])
    else
      var name :- ParseIdent(ts);
      var afterColon :- ExpectToken(name.rest, Colon);
      var value :- ParseExpr(afterColon);
      var more :- EntityFields(SkipComma(value.rest));
      Ok([(name.item, value.item)] + more)
  }

  /** The `Type { .. }` entries of an `entities: [..]` list. */
  function EntityList(ts: seq<Token>): Result<seq<EntityDef>>
    decreases |ts|
  {
    if ts == [] then Ok([])
    else
      var typeName :- ParseIdent(ts);
      var body :- ParseGroup(typeName.rest, Brace);
      var fields :- EntityFields(body.item);
      var more :- EntityList(SkipComma(body.rest));
      Ok([EntityDef(typeName.item, fields)] + more)
  }

  /** What one field of the given clause contributes, given its bracketed list. */
  function GivenField(name: string, list: seq<Token>): Result<GivenClause>
    requires name in GivenFieldNames
  {
    if name == "resources" then
      var es :- ExprList(list); Ok(GivenClause(es, [], [], []))
    else if name == "events" then
      var es :- ExprList(list); Ok(GivenClause([], es, [], []))
    else if name == "systems" then
      var es :- ExprList(list); Ok(GivenClause([], [], es, []))
    else
      var es :- EntityList(list); Ok(GivenClause([], [], [], es))
  }

  /** The given clause: a loop over `name: [..]` fields. */
  function GivenFields(ts: seq<Token>): Result<GivenClause>
    decreases |ts|
  {
    if ts == [] then Ok(EmptyGiven)
    else
      var field :- ParseIdent(ts);
      var afterColon :- ExpectToken(field.rest, Colon);
      if field.item !in GivenFieldNames then Err(UnknownGivenField(field.item))
      else
        var list :- ParseGroup(afterColon, Bracket);
        var one :- GivenField(field.item, list.item);
        var more :- GivenFields(SkipComma(list.rest));
        Ok(Merge(one, more))
  }

  method ParseEntityFields(body: seq<Token>) returns (r: Result<seq<(string, Expr)>>)
    ensures r == EntityFields(body)
  {
    var fields: seq<(string, Expr)> := [];
    var input := body;
    PrefixedNothing(EntityFields(body));
    while input != []
      invariant EntityFields(body) == Prefixed(fields, EntityFields(input))
      decreases |input|
    {
      var name := ParseIdent(input);
      if name.Err? {
        return Err(name.error);
      }
      var afterColon := ExpectToken(name.value.rest, Colon);
      if afterColon.Err? {
        return Err(afterColon.error);
      }
      var value := ParseExpr(afterColon.value);
      if value.Err? {
        return Err(value.error);
      }
      var field := (name.value.item, value.value.item);
      PrefixedTwice(fields, [field], EntityFields(SkipComma(value.value.rest)));
      fields := fields + [field];
      input := SkipComma(value.value.rest);
    }
    assert fields + [] == fields;
    return Ok(fields);
  }

  method ParseEntityList(body: seq<Token>) returns (r: Result<seq<EntityDef>>)
    ensures r == EntityList(body)
  {
    var entities: seq<EntityDef> := [];
    var input := body;
    PrefixedNothing(EntityList(body));
    while input != []
      invariant EntityList(body) == Prefixed(entities, EntityList(input))
      decreases |input|
    {
      var typeName := ParseIdent(input);
      if typeName.Err? {
        return Err(typeName.error);
      }
      var fieldsBody := ParseGroup(typeName.value.rest, Brace);
      if fieldsBody.Err? {
        return Err(fieldsBody.error);
      }
      var fields := ParseEntityFields(fieldsBody.value.item);
      if fields.Err? {
        return Err(fields.error);
      }
      var entity := EntityDef(typeName.value.item, fields.value);
      PrefixedTwice(entities, [entity], EntityList(SkipComma(fieldsBody.value.rest)));
      entities := entities + [entity];
      input := SkipComma(fieldsBody.value.rest);
    }
    assert entities + [] == entities;
    return Ok(entities);
  }

  method ParseGivenClause(body: seq<Token>) returns (r: Result<GivenClause>)
    ensures r == GivenFields(body)
  {
    var resources: seq<Expr> := [];
    var events: seq<Expr> := [];
    var systems: seq<Expr> := [];
    var entities: seq<EntityDef> := [];
    var input := body;
    MergedWithNothing(GivenFields(body));
    while input != []
      invariant GivenFields(body) == MergedWith(GivenClause(resources, events, systems, entities), GivenFields(input))
      decreases |input|
    {
      var field := ParseIdent(input);
      if field.Err? {
        return Err(field.error);
      }
      var afterColon := ExpectToken(field.value.rest, Colon);
      if afterColon.Err? {
        return Err(afterColon.error);
      }
      var name := field.value.item;
      if name !in GivenFieldNames {
        return Err(UnknownGivenField(name));
      }
      var list := ParseGroup(afterColon.value, Bracket);
      if list.Err? {
        return Err(list.error);
      }
      var one: GivenClause;
      if name == "entities" {
        var es := ParseEntityList(list.value.item);
        if es.Err? {
          return Err(es.error);
        }
        one := GivenClause([], [], [], es.value);
      } else {
        var es := ParseExprList(list.value.item);
        if es.Err? {
          return Err(es.error);
        }
        one := if name == "resources" then GivenClause(es.value, [], [], [])
               else if name == "events" then GivenClause([], es.value, [], [])
               else GivenClause([], [], es.value, []);
      }
      assert GivenField(name, list.value.item) == Ok(one);
      var done := GivenClause(resources, events, systems, entities);
      MergedWithTwice(done, one, GivenFields(SkipComma(list.value.rest)));
      resources, events, systems, entities :=
        resources + one.resources, events + one.events, systems + one.systems, entities + one.entities;
      input := SkipComma(list.value.rest);
    }
    var done := GivenClause(resources, events, systems, entities);
    assert Merge(done, EmptyGiven) == done;
    return Ok(done);
  }

  // ===========================================================================
  // Parsing the when clause

  const FrameUnits: set<string> := {"frames", "frame"}
  const SecondUnits: set<string> := {"seconds", "second"}
  const DayUnits: set<string> := {"days", "day"}

  /** `parse_time_advance`: classifies `N.unit()` and never fails. The unit is
      chosen by the method name alone; a receiver of the wrong kind, or an
      integer that does not fit in a `u32`, gives the unit's default of one. */
  function ParseTimeAdvance(e: Expr): (t: TimeAdvance)
    ensures t.Days? <==> e.MethodCall? && e.methodName in DayUnits
    ensures t.Seconds? <==> e.MethodCall? && e.methodName in SecondUnits
    ensures t.Frames? && t.frames != 1 ==>
              e.MethodCall? && e.methodName in FrameUnits && e.receiver == IntLit(t.frames)
    ensures t.Days? && t.days != 1 ==> e.receiver == IntLit(t.days)
    ensures e.MethodCall? && e.methodName in FrameUnits && e.receiver.IntLit? && e.receiver.digits < U32Limit ==>
              t == Frames(e.receiver.digits)
    ensures e.MethodCall? && e.methodName in SecondUnits && e.receiver.FloatLit? ==>
              t == Seconds(e.receiver.number)
    ensures e.MethodCall? && e.methodName in SecondUnits && e.receiver.IntLit? ==>
              t == Seconds(e.receiver.digits as real)
    ensures e.MethodCall? && e.methodName in DayUnits && e.receiver.IntLit? && e.receiver.digits < U32Limit ==>
              t == Days(e.receiver.digits)
  {
    match e
    case MethodCall(receiver, unit) =>
      if unit in FrameUnits then
        if receiver.IntLit? && receiver.digits < U32Limit then Frames(receiver.digits) else Frames(1)
      else if unit in SecondUnits then
        if receiver.FloatLit? then Seconds(receiver.number)
        else if receiver.IntLit? then Seconds(receiver.digits as real)
        else Seconds(1.0)
      else if unit in DayUnits then
        if receiver.IntLit? && receiver.digits < U32Limit then Days(receiver.digits) else Days(1)
      else Frames(1)
    case _ => Frames(1)
  }

  /** The expression a test author writes for a time advance. */
  function TimeExpr(t: TimeAdvance): Expr {
    match t
    case Frames(n) => MethodCall(IntLit(n), "frames")
    case Seconds(s) => MethodCall(FloatLit(s), "seconds")
    case Days(n) => MethodCall(IntLit(n), "days")
  }

  lemma TimeAdvanceRoundTrip(t: TimeAdvance)
    ensures ParseTimeAdvance(TimeExpr(t)) == t
  {
  }

  /** The silent fallbacks: a receiver that is not a literal gives the unit's
      default, and an unknown unit or a shape other than a method call gives
      one frame. */
  lemma TimeAdvanceFallbacks(e: Expr)
    ensures !e.MethodCall? ==> ParseTimeAdvance(e) == Frames(1)
    ensures e.MethodCall? && e.methodName !in FrameUnits + SecondUnits + DayUnits ==>
              ParseTimeAdvance(e) == Frames(1)
    ensures e.MethodCall? && !e.receiver.IntLit? && !e.receiver.FloatLit? ==>
              ParseTimeAdvance(e) == (if e.methodName in DayUnits then Days(1)
                                      else if e.methodName in SecondUnits then Seconds(1.0)
                                      else Frames(1))
    ensures e.MethodCall? && e.receiver.FloatLit? && e.methodName in FrameUnits ==>
              ParseTimeAdvance(e) == Frames(1)
    ensures e.MethodCall? && e.receiver.IntLit? && e.receiver.digits >= U32Limit
              && e.methodName !in SecondUnits ==>
              ParseTimeAdvance(e) == (if e.methodName in DayUnits then Days(1) else Frames(1))
  {
  }

  const WhenActionNames: set<string> := {"event", "advance", "input"}

  /** The when clause: a loop over `kind: EXPR` actions. */
  function WhenActions(ts: seq<Token>): Result<seq<Action>>
    decreases |ts|
  {
    if ts == [] then Ok([])
    else
      var kind :- ParseIdent(ts);
      var afterColon :- ExpectToken(kind.rest, Colon);
      if kind.item !in WhenActionNames then Err(UnknownWhenAction(kind.item))
      else
        var e :- ParseExpr(afterColon);
        var action := if kind.item == "event" then Event(e.item)
                      else if kind.item == "advance" then Advance(ParseTimeAdvance(e.item))
                      else Input(e.item);
        var more :- WhenActions(SkipComma(e.rest));
        Ok([action] + more)
  }

  method ParseWhenClause(body: seq<Token>) returns (r: Result<seq<Action>>)
    ensures r == WhenActions(body)
  {
    var actions: seq<Action> := [];
    var input := body;
    PrefixedNothing(WhenActions(body));
    while input != []
      invariant WhenActions(body) == Prefixed(actions, WhenActions(input))
      decreases |input|
    {
      var kind := ParseIdent(input);
      if kind.Err? {
        return Err(kind.error);
      }
      var afterColon := ExpectToken(kind.value.rest, Colon);
      if afterColon.Err? {
        return Err(afterColon.error);
      }
      var action: Action;
      match kind.value.item {
        case "event" =>
          var e := ParseExpr(afterColon.value);
          if e.Err? {
            return Err(e.error);
          }
          action := Event(e.value.item);
        case "advance" =>
          var e := ParseExpr(afterColon.value);
          if e.Err? {
            return Err(e.error);
          }
          action := Advance(ParseTimeAdvance(e.value.item));
        case "input" =>
          var e := ParseExpr(afterColon.value);
          if e.Err? {
            return Err(e.error);
          }
          action := Input(e.value.item);
        case _ =>
          return Err(UnknownWhenAction(kind.value.item));
      }
      var next := SkipComma(afterColon.value[1..]);
      PrefixedTwice(actions, [action], WhenActions(next));
      actions := actions + [action];
      input := next;
    }
    assert actions + [] == actions;
    return Ok(actions);
  }

  // ===========================================================================
  // Parsing the then clause

  /** One assertion; a leading `events_received` or `snapshot` identifier
      selects the keyword forms, and anything else is a boolean check. */
  function ThenItem(ts: seq<Token>): (r: Result<Parsed<Assertion>>)
    requires ts != []
    ensures r.Ok? ==> |r.value.rest| < |ts|
    ensures r.Ok? ==> (r.value.item.EventsReceived? <==> ts[0] == Ident("events_received"))
    ensures r.Ok? ==> (r.value.item.Snapshot? <==> ts[0] == Ident("snapshot"))
  {
    if ts[0] == Ident("events_received") then
      var afterColon :- ExpectToken(ts[1..], Colon);
      var list :- ParseGroup(afterColon, Bracket);
      var events :- IdentList(list.item);
      Ok(Parsed(EventsReceived(events), list.rest))
    else if ts[0] == Ident("snapshot") then
      var afterColon :- ExpectToken(ts[1..], Colon);
      var e :- ParseExpr(afterColon);
      Ok(Parsed(Snapshot(e.item), e.rest))
    else
      var e :- ParseExpr(ts);
      Ok(Parsed(ComponentCheck(e.item), e.rest))
  }

  function ThenAssertions(ts: seq<Token>): Result<seq<Assertion>>
    decreases |ts|
  {
    if ts == [] then Ok([])
    else
      var a :- ThenItem(ts);
      var more :- ThenAssertions(SkipComma(a.rest));
      Ok([a.item] + more)
  }

  method ParseThenClause(body: seq<Token>) returns (r: Result<seq<Assertion>>)
    ensures r == ThenAssertions(body)
  {
    var assertions: seq<Assertion> := [];
    var input := body;
    PrefixedNothing(ThenAssertions(body));
    while input != []
      invariant ThenAssertions(body) == Prefixed(assertions, ThenAssertions(input))
      decreases |input|
    {
      var assertion: Assertion;
      var rest: seq<Token>;
      if input[0] == Ident("events_received") {
        var afterColon := ExpectToken(input[1..], Colon);
        if afterColon.Err? {
          return Err(afterColon.error);
        }
        var list := ParseGroup(afterColon.value, Bracket);
        if list.Err? {
          return Err(list.error);
        }
        var events := ParseIdentList(list.value.item);
        if events.Err? {
          return Err(events.error);
        }
        assertion, rest := EventsReceived(events.value), list.value.rest;
      } else if input[0] == Ident("snapshot") {
        var afterColon := ExpectToken(input[1..], Colon);
        if afterColon.Err? {
          return Err(afterColon.error);
        }
        var e := ParseExpr(afterColon.value);
        if e.Err? {
          return Err(e.error);
        }
        assertion, rest := Snapshot(e.value.item), e.value.rest;
      } else {
        var e := ParseExpr(input);
        if e.Err? {
          return Err(e.error);
        }
        assertion, rest := ComponentCheck(e.value.item), e.value.rest;
      }
      assert ThenItem(input) == Ok(Parsed(assertion, rest));
      PrefixedTwice(assertions, [assertion], ThenAssertions(SkipComma(rest)));
      assertions := assertions + [assertion];
      input := SkipComma(rest);
    }
    assert assertions + [] == assertions;
    return Ok(assertions);
  }

  // ===========================================================================
  // The whole invocation: NAME { given: {..}, when: {..}, then: {..} }

  function ScenarioBody(name: string, content: seq<Token>): Result<TestScenario> {
    var g :- Clause(content, "given");
    var given :- GivenFields(g.item);
    var w :- Clause(SkipComma(g.rest), "when");
    var actions :- WhenActions(w.item);
    var t :- Clause(SkipComma(w.rest), "then");
    var assertions :- ThenAssertions(t.item);
    Finish(TestScenario(name, given, WhenClause(actions), ThenClause(assertions)), t.rest)
  }

  /** `impl Parse for TestScenario` */
  function Scenario(input: seq<Token>): Result<TestScenario> {
    var name :- ParseIdent(input);
    var content :- ParseGroup(name.rest, Brace);
    var scenario :- ScenarioBody(name.item, content.item);
    Finish(scenario, content.rest)
  }

  method ParseScenario(input: seq<Token>) returns (r: Result<TestScenario>)
    ensures r == Scenario(input)
  {
    var name := ParseIdent(input);
    if name.Err? {
      return Err(name.error);
    }
    var content := ParseGroup(name.value.rest, Brace);
    if content.Err? {
      return Err(content.error);
    }
    var body := content.value.item;
    var g := Clause(body, "given");
    if g.Err? {
      return Err(g.error);
    }
    var given := ParseGivenClause(g.value.item);
    if given.Err? {
      return Err(given.error);
    }
    var w := Clause(SkipComma(g.value.rest), "when");
    if w.Err? {
      return Err(w.error);
    }
    var actions := ParseWhenClause(w.value.item);
    if actions.Err? {
      return Err(actions.error);
    }
    var t := Clause(SkipComma(w.value.rest), "then");
    if t.Err? {
      return Err(t.error);
    }
    var assertions := ParseThenClause(t.value.item);
    if assertions.Err? {
      return Err(assertions.error);
    }
    if t.value.rest != [] || content.value.rest != [] {
      return Err(UnexpectedToken);
    }
    return Ok(TestScenario(name.value.item, given.value, WhenClause(actions.value), ThenClause(assertions.value)));
  }

  // ===========================================================================
  // What a test author writes: printers for each clause, and the round trips
  // that say the parser reads back exactly what was written.

  function PrintEntityFields(fs: seq<(string, Expr)>, commas: seq<bool>): seq<Token>
    requires |commas| == |fs|
  {
    if fs == [] then []
    else [Ident(fs[0].0), Colon, ExprToken(fs[0].1)] + OptComma(commas[0])
         + PrintEntityFields(fs[1..], commas[1..])
  }

  lemma PrintEntityFieldsCons(fs: seq<(string, Expr)>, commas: seq<bool>)
    requires |commas| == |fs| && fs != []
    ensures PrintEntityFields(fs, commas)
            == [Ident(fs[0].0), Colon, ExprToken(fs[0].1)] + (OptComma(commas[0]) + PrintEntityFields(fs[1..], commas[1..]))
  {
  }

  lemma PrintEntityFieldsHead(fs: seq<(string, Expr)>, commas: seq<bool>)
    requires |commas| == |fs|
    ensures PrintEntityFields(fs, commas) == [] || PrintEntityFields(fs, commas)[0] != Comma
  {
  }

  /** One step of the field loop, read off the first three tokens. */
  lemma EntityFieldsUnfold(ts: seq<Token>)
    requires |ts| >= 3 && ts[0].Ident? && ts[1] == Colon && TokenExpr(ts[2]).Some?
    ensures EntityFields(ts) == Prefixed([(ts[0].name, TokenExpr(ts[2]).value)], EntityFields(SkipComma(ts[3..])))
  {
    assert ts[1..][1..] == ts[2..];
    assert ts[2..][1..] == ts[3..];
  }

  lemma EntityFieldCons(f: (string, Expr), rest: seq<Token>, more: seq<(string, Expr)>)
    requires EntityFields(SkipComma(rest)) == Ok(more)
    ensures EntityFields([Ident(f.0), Colon, ExprToken(f.1)] + rest) == Ok([f] + more)
  {
    var ts := [Ident(f.0), Colon, ExprToken(f.1)] + rest;
    assert ts[0] == Ident(f.0) && ts[1] == Colon && ts[2] == ExprToken(f.1) && ts[3..] == rest;
    EntityFieldsUnfold(ts);
  }

  lemma {:induction false} EntityFieldsRoundTrip(fs: seq<(string, Expr)>, commas: seq<bool>)
    requires |commas| == |fs|
    ensures EntityFields(PrintEntityFields(fs, commas)) == Ok(fs)
  {
    if fs != [] {
      var tail := PrintEntityFields(fs[1..], commas[1..]);
      var rest := OptComma(commas[0]) + tail;
      assert EntityFields(SkipComma(rest)) == Ok(fs[1..]) by {
        EntityFieldsRoundTrip(fs[1..], commas[1..]);
        PrintEntityFieldsHead(fs[1..], commas[1..]);
        SkipOptComma(commas[0], tail);
      }
      PrintEntityFieldsCons(fs, commas);
      EntityFieldCons(fs[0], rest, fs[1..]);
      assert [fs[0]] + fs[1..] == fs;
    }
  }

  /** `Type { field: value, .. }` */
  function EntityTokens(e: EntityDef): seq<Token> {
    [Ident(e.typeName), Group(Brace, PrintEntityFields(e.fields, AllCommas(|e.fields|)))]
  }

  function PrintEntities(es: seq<EntityDef>, commas: seq<bool>): seq<Token>
    requires |commas| == |es|
  {
    if es == [] then [] else EntityTokens(es[0]) + OptComma(commas[0]) + PrintEntities(es[1..], commas[1..])
  }

  lemma PrintEntitiesCons(es: seq<EntityDef>, commas: seq<bool>)
    requires |commas| == |es| && es != []
    ensures PrintEntities(es, commas) == EntityTokens(es[0]) + (OptComma(commas[0]) + PrintEntities(es[1..], commas[1..]))
  {
  }

  lemma PrintEntitiesHead(es: seq<EntityDef>, commas: seq<bool>)
    requires |commas| == |es|
    ensures PrintEntities(es, commas) == [] || PrintEntities(es, commas)[0] != Comma
  {
  }

  /** One parser step over `Type { body }`, whatever the body's tokens. */
  lemma EntityStep(typeName: string, body: seq<Token>, fields: seq<(string, Expr)>, rest: seq<Token>,
                   more: seq<EntityDef>)
    requires EntityFields(body) == Ok(fields)
    requires EntityList(SkipComma(rest)) == Ok(more)
    ensures EntityList([Ident(typeName)] + ([Group(Brace, body)] + rest)) == Ok([EntityDef(typeName, fields)] + more)
  {
    var after := [Group(Brace, body)] + rest;
    var ts := [Ident(typeName)] + after;
    assert ts[0] == Ident(typeName) && ts[1..] == after;
    GroupStep(Brace, body, rest);
  }

  lemma EntityCons(e: EntityDef, rest: seq<Token>, more: seq<EntityDef>)
    requires EntityList(SkipComma(rest)) == Ok(more)
    ensures EntityList(EntityTokens(e) + rest) == Ok([e] + more)
  {
    var body := PrintEntityFields(e.fields, AllCommas(|e.fields|));
    assert EntityTokens(e) + rest == [Ident(e.typeName)] + ([Group(Brace, body)] + rest);
    EntityFieldsRoundTrip(e.fields, AllCommas(|e.fields|));
    EntityStep(e.typeName, body, e.fields, rest, more);
  }

  lemma {:induction false} EntityListRoundTrip(es: seq<EntityDef>, commas: seq<bool>)
    requires |commas| == |es|
    ensures EntityList(PrintEntities(es, commas)) == Ok(es)
  {
    if es != [] {
      var tail := PrintEntities(es[1..], commas[1..]);
      var rest := OptComma(commas[0]) + tail;
      assert EntityList(SkipComma(rest)) == Ok(es[1..]) by {
        EntityListRoundTrip(es[1..], commas[1..]);
        PrintEntitiesHead(es[1..], commas[1..]);
        SkipOptComma(commas[0], tail);
      }
      PrintEntitiesCons(es, commas);
      EntityCons(es[0], rest, es[1..]);
      assert [es[0]] + es[1..] == es;
    }
  }

  /** One `field: [..]` entry of a given clause, as written. */
  datatype GivenEntry =
    | ResourcesEntry(exprs: seq<Expr>)
    | EventsEntry(exprs: seq<Expr>)
    | SystemsEntry(exprs: seq<Expr>)
    | EntitiesEntry(entities: seq<EntityDef>)

  function EntryField(g: GivenEntry): string {
    match g
    case ResourcesEntry(_) => "resources"
    case EventsEntry(_) => "events"
    case SystemsEntry(_) => "systems"
    case EntitiesEntry(_) => "entities"
  }

  /** What one entry contributes to the parsed clause. */
  function EntryClause(g: GivenEntry): GivenClause {
    match g
    case ResourcesEntry(es) => GivenClause(es, [], [], [])
    case EventsEntry(es) => GivenClause([], es, [], [])
    case SystemsEntry(es) => GivenClause([], [], es, [])
    case EntitiesEntry(es) => GivenClause([], [], [], es)
  }

  function EntryList(g: GivenEntry): seq<Token> {
    if g.EntitiesEntry? then PrintEntities(g.entities, AllCommas(|g.entities|))
    else PrintExprList(g.exprs, AllCommas(|g.exprs|))
  }

  function EntryTokens(g: GivenEntry): seq<Token> {
    [Ident(EntryField(g)), Colon, Group(Bracket, EntryList(g))]
  }

  /** Fields may come in any order and any number of times; each occurrence
      appends to the lists of the ones before it. */
  function Accumulate(entries: seq<GivenEntry>): GivenClause {
    if entries == [] then EmptyGiven else Merge(EntryClause(entries[0]), Accumulate(entries[1..]))
  }

  function PrintGiven(entries: seq<GivenEntry>, commas: seq<bool>): seq<Token>
    requires |commas| == |entries|
  {
    if entries == [] then []
    else EntryTokens(entries[0]) + OptComma(commas[0]) + PrintGiven(entries[1..], commas[1..])
  }

  lemma EntryRoundTrip(g: GivenEntry)
    ensures EntryField(g) in GivenFieldNames
    ensures GivenField(EntryField(g), EntryList(g)) == Ok(EntryClause(g))
  {
    if g.EntitiesEntry? {
      EntityListRoundTrip(g.entities, AllCommas(|g.entities|));
    } else {
      ExprListRoundTrip(g.exprs, AllCommas(|g.exprs|));
    }
  }

  /** One step of the given loop, read off the first three tokens. */
  lemma GivenFieldsUnfold(ts: seq<Token>)
    requires |ts| >= 3 && ts[0].Ident? && ts[0].name in GivenFieldNames && ts[1] == Colon
    requires ts[2].Group? && ts[2].delim == Bracket && GivenField(ts[0].name, ts[2].body).Ok?
    ensures GivenFields(ts) == MergedWith(GivenField(ts[0].name, ts[2].body).value, GivenFields(SkipComma(ts[3..])))
  {
    assert ParseIdent(ts) == Ok(Parsed(ts[0].name, ts[1..]));
    assert ExpectToken(ts[1..], Colon) == Ok(ts[2..]) by {
      assert ts[1..][1..] == ts[2..];
    }
    assert ParseGroup(ts[2..], Bracket) == Ok(Parsed(ts[2].body, ts[3..])) by {
      assert ts[2..][1..] == ts[3..];
    }
  }

  /** The loop reads one `field: [..]` entry and merges it in front of the rest. */
  lemma GivenFieldsCons(field: string, list: seq<Token>, rest: seq<Token>)
    requires field in GivenFieldNames && GivenField(field, list).Ok?
    ensures GivenFields([Ident(field), Colon, Group(Bracket, list)] + rest)
            == MergedWith(GivenField(field, list).value, GivenFields(SkipComma(rest)))
  {
    var ts := [Ident(field), Colon, Group(Bracket, list)] + rest;
    assert ts[0] == Ident(field) && ts[1] == Colon && ts[2] == Group(Bracket, list) && ts[3..] == rest;
    GivenFieldsUnfold(ts);
  }

  /** One written entry is parsed and merged in front of whatever follows it. */
  lemma GivenStep(g: GivenEntry, rest: seq<Token>)
    ensures GivenFields(EntryTokens(g) + rest) == MergedWith(EntryClause(g), GivenFields(SkipComma(rest)))
  {
    EntryRoundTrip(g);
    GivenFieldsCons(EntryField(g), EntryList(g), rest);
  }

  lemma PrintGivenCons(entries: seq<GivenEntry>, commas: seq<bool>)
    requires |commas| == |entries| && entries != []
    ensures PrintGiven(entries, commas)
            == EntryTokens(entries[0]) + (OptComma(commas[0]) + PrintGiven(entries[1..], commas[1..]))
  {
  }

  lemma PrintGivenHead(entries: seq<GivenEntry>, commas: seq<bool>)
    requires |commas| == |entries|
    ensures PrintGiven(entries, commas) == [] || PrintGiven(entries, commas)[0] != Comma
  {
  }

  lemma {:induction false} GivenRoundTrip(entries: seq<GivenEntry>, commas: seq<bool>)
    requires |commas| == |entries|
    ensures GivenFields(PrintGiven(entries, commas)) == Ok(Accumulate(entries))
  {
    if entries != [] {
      var tail := PrintGiven(entries[1..], commas[1..]);
      var rest := OptComma(commas[0]) + tail;
      assert GivenFields(SkipComma(rest)) == Ok(Accumulate(entries[1..])) by {
        GivenRoundTrip(entries[1..], commas[1..]);
        PrintGivenHead(entries[1..], commas[1..]);
        SkipOptComma(commas[0], tail);
      }
      PrintGivenCons(entries, commas);
      GivenStep(entries[0], rest);
    }
  }

  /** A field name outside the four known ones stops the loop. */
  lemma GivenFieldsUnknown(field: string, rest: seq<Token>)
    requires field !in GivenFieldNames
    ensures GivenFields([Ident(field), Colon] + rest) == Err(UnknownGivenField(field))
  {
    var ts := [Ident(field), Colon] + rest;
    assert ts[1..] == [Colon] + rest;
    assert ParseIdent(ts) == Ok(Parsed(field, [Colon] + rest));
  }

  /** The field loop over a written list followed by anything that does not
      start with a comma: the first entry merged in front of the loop over
      the rest. */
  lemma PrintGivenStep(entries: seq<GivenEntry>, commas: seq<bool>, suffix: seq<Token>)
    requires |commas| == |entries| && entries != []
    requires suffix == [] || suffix[0] != Comma
    ensures GivenFields(PrintGiven(entries, commas) + suffix)
            == MergedWith(EntryClause(entries[0]), GivenFields(PrintGiven(entries[1..], commas[1..]) + suffix))
  {
    var tail := PrintGiven(entries[1..], commas[1..]);
    var after := OptComma(commas[0]) + (tail + suffix);
    assert SkipComma(after) == tail + suffix by {
      PrintGivenHead(entries[1..], commas[1..]);
      assert tail + suffix == [] || (tail + suffix)[0] != Comma;
      SkipOptComma(commas[0], tail + suffix);
    }
    PrintGivenCons(entries, commas);
    RegroupTail(EntryTokens(entries[0]), OptComma(commas[0]), tail, suffix);
    GivenStep(entries[0], after);
  }

  /** A field name outside the four known ones is reported as such, after
      any number of well-formed fields. */
  lemma {:induction false} UnknownGivenFieldRejected(entries: seq<GivenEntry>, commas: seq<bool>,
                                                     field: string, rest: seq<Token>)
    requires |commas| == |entries| && field !in GivenFieldNames
    ensures GivenFields(PrintGiven(entries, commas) + ([Ident(field), Colon] + rest))
            == Err(UnknownGivenField(field))
  {
    var bad := [Ident(field), Colon] + rest;
    if entries == [] {
      assert PrintGiven(entries, commas) + bad == bad;
      GivenFieldsUnknown(field, rest);
    } else {
      UnknownGivenFieldRejected(entries[1..], commas[1..], field, rest);
      PrintGivenStep(entries, commas, bad);
    }
  }

  function ActionKind(a: Action): string {
    match a
    case Event(_) => "event"
    case Advance(_) => "advance"
    case Input(_) => "input"
  }

  function ActionExpr(a: Action): Expr {
    match a
    case Event(e) => e
    case Advance(t) => TimeExpr(t)
    case Input(e) => e
  }

  /** `kind: EXPR` */
  function ActionTokens(a: Action): seq<Token> {
    [Ident(ActionKind(a)), Colon, ExprToken(ActionExpr(a))]
  }

  function PrintActions(actions: seq<Action>, commas: seq<bool>): seq<Token>
    requires |commas| == |actions|
  {
    if actions == [] then []
    else ActionTokens(actions[0]) + OptComma(commas[0]) + PrintActions(actions[1..], commas[1..])
  }

  /** The loop reads one `kind: EXPR` action and puts it in front of the rest. */
  lemma WhenActionsCons(kind: string, e: Expr, rest: seq<Token>)
    requires kind in WhenActionNames
    ensures WhenActions([Ident(kind), Colon, ExprToken(e)] + rest)
            == Prefixed([if kind == "event" then Event(e)
                         else if kind == "advance" then Advance(ParseTimeAdvance(e))
                         else Input(e)], WhenActions(SkipComma(rest)))
  {
    var ts := [Ident(kind), Colon, ExprToken(e)] + rest;
    assert ts[1..] == [Colon, ExprToken(e)] + rest;
    assert ParseIdent(ts) == Ok(Parsed(kind, [Colon, ExprToken(e)] + rest));
    assert ts[1..][1..] == [ExprToken(e)] + rest;
    assert ParseExpr(ts[1..][1..]) == Ok(Parsed(e, rest));
  }

  /** One written action is parsed and put in front of whatever follows it. */
  lemma ActionStep(a: Action, rest: seq<Token>)
    ensures WhenActions(ActionTokens(a) + rest) == Prefixed([a], WhenActions(SkipComma(rest)))
  {
    if a.Advance? {
      TimeAdvanceRoundTrip(a.advance);
    }
    WhenActionsCons(ActionKind(a), ActionExpr(a), rest);
  }

  lemma PrintActionsCons(actions: seq<Action>, commas: seq<bool>)
    requires |commas| == |actions| && actions != []
    ensures PrintActions(actions, commas)
            == ActionTokens(actions[0]) + (OptComma(commas[0]) + PrintActions(actions[1..], commas[1..]))
  {
  }

  lemma PrintActionsHead(actions: seq<Action>, commas: seq<bool>)
    requires |commas| == |actions|
    ensures PrintActions(actions, commas) == [] || PrintActions(actions, commas)[0] == Ident(ActionKind(actions[0]))
  {
  }

  lemma {:induction false} WhenRoundTrip(actions: seq<Action>, commas: seq<bool>)
    requires |commas| == |actions|
    ensures WhenActions(PrintActions(actions, commas)) == Ok(actions)
  {
    if actions != [] {
      var tail := PrintActions(actions[1..], commas[1..]);
      var rest := OptComma(commas[0]) + tail;
      assert WhenActions(SkipComma(rest)) == Ok(actions[1..]) by {
        WhenRoundTrip(actions[1..], commas[1..]);
        PrintActionsHead(actions[1..], commas[1..]);
        SkipOptComma(commas[0], tail);
      }
      PrintActionsCons(actions, commas);
      ActionStep(actions[0], rest);
      assert [actions[0]] + actions[1..] == actions;
    }
  }

  /** An action kind outside the three known ones stops the loop. */
  lemma WhenActionsUnknown(kind: string, rest: seq<Token>)
    requires kind !in WhenActionNames
    ensures WhenActions([Ident(kind), Colon] + rest) == Err(UnknownWhenAction(kind))
  {
    var ts := [Ident(kind), Colon] + rest;
    assert ts[1..] == [Colon] + rest;
    assert ParseIdent(ts) == Ok(Parsed(kind, [Colon] + rest));
  }

  /** The action loop over a written list followed by anything that does not
      start with a comma: the first action, then the loop over the rest. */
  lemma PrintActionsStep(actions: seq<Action>, commas: seq<bool>, suffix: seq<Token>)
    requires |commas| == |actions| && actions != []
    requires suffix == [] || suffix[0] != Comma
    ensures WhenActions(PrintActions(actions, commas) + suffix)
            == Prefixed([actions[0]], WhenActions(PrintActions(actions[1..], commas[1..]) + suffix))
  {
    var tail := PrintActions(actions[1..], commas[1..]);
    var after := OptComma(commas[0]) + (tail + suffix);
    assert SkipComma(after) == tail + suffix by {
      PrintActionsHead(actions[1..], commas[1..]);
      assert tail + suffix == [] || (tail + suffix)[0] != Comma;
      SkipOptComma(commas[0], tail + suffix);
    }
    PrintActionsCons(actions, commas);
    RegroupTail(ActionTokens(actions[0]), OptComma(commas[0]), tail, suffix);
    ActionStep(actions[0], after);
  }

  lemma {:induction false} UnknownWhenActionRejected(actions: seq<Action>, commas: seq<bool>,
                                                     kind: string, rest: seq<Token>)
    requires |commas| == |actions| && kind !in WhenActionNames
    ensures WhenActions(PrintActions(actions, commas) + ([Ident(kind), Colon] + rest))
            == Err(UnknownWhenAction(kind))
  {
    var bad := [Ident(kind), Colon] + rest;
    if actions == [] {
      assert PrintActions(actions, commas) + bad == bad;
      WhenActionsUnknown(kind, rest);
    } else {
      UnknownWhenActionRejected(actions[1..], commas[1..], kind, rest);
      PrintActionsStep(actions, commas, bad);
    }
  }

  /** A boolean check spelled as the bare identifier `events_received` or
      `snapshot` is read as the start of the keyword form instead, so it
      cannot be written. */
  predicate Writable(a: Assertion) {
    a.ComponentCheck? ==> a.check != Path("events_received") && a.check != Path("snapshot")
  }

  ghost predicate AllWritable(assertions: seq<Assertion>) {
    forall i :: 0 <= i < |assertions| ==> Writable(assertions[i])
  }

  function AssertionTokens(a: Assertion): seq<Token> {
    match a
    case ComponentCheck(e) => [ExprToken(e)]
    case EventsReceived(ts) =>
      [Ident("events_received"), Colon, Group(Bracket, PrintIdentList(ts, AllCommas(|ts|)))]
    case Snapshot(e) => [Ident("snapshot"), Colon, ExprToken(e)]
  }

  function PrintAssertions(assertions: seq<Assertion>, commas: seq<bool>): seq<Token>
    requires |commas| == |assertions|
  {
    if assertions == [] then []
    else AssertionTokens(assertions[0]) + OptComma(commas[0]) + PrintAssertions(assertions[1..], commas[1..])
  }

  lemma ThenItemEvents(list: seq<Token>, names: seq<string>, tail: seq<Token>)
    requires IdentList(list) == Ok(names)
    ensures ThenItem([Ident("events_received"), Colon, Group(Bracket, list)] + tail)
            == Ok(Parsed(EventsReceived(names), tail))
  {
    var ts := [Ident("events_received"), Colon, Group(Bracket, list)] + tail;
    assert ts[1..] == [Colon, Group(Bracket, list)] + tail;
    assert ts[1..][1..] == [Group(Bracket, list)] + tail;
    assert ParseGroup(ts[1..][1..], Bracket) == Ok(Parsed(list, tail));
  }

  lemma ThenItemSnapshot(e: Expr, tail: seq<Token>)
    ensures ThenItem([Ident("snapshot"), Colon, ExprToken(e)] + tail) == Ok(Parsed(Snapshot(e), tail))
  {
    var ts := [Ident("snapshot"), Colon, ExprToken(e)] + tail;
    assert ts[1..] == [Colon, ExprToken(e)] + tail;
    assert ts[1..][1..] == [ExprToken(e)] + tail;
    assert ParseExpr(ts[1..][1..]) == Ok(Parsed(e, tail));
  }

  lemma ThenItemCheck(e: Expr, tail: seq<Token>)
    requires e != Path("events_received") && e != Path("snapshot")
    ensures ThenItem([ExprToken(e)] + tail) == Ok(Parsed(ComponentCheck(e), tail))
  {
    var ts := [ExprToken(e)] + tail;
    assert ts[0] == ExprToken(e) && ts[1..] == tail;
  }

  lemma AssertionRoundTrip(a: Assertion, tail: seq<Token>)
    requires Writable(a)
    ensures ThenItem(AssertionTokens(a) + tail) == Ok(Parsed(a, tail))
  {
    match a
    case ComponentCheck(e) =>
      ThenItemCheck(e, tail);
    case EventsReceived(names) =>
      IdentListRoundTrip(names, AllCommas(|names|));
      ThenItemEvents(PrintIdentList(names, AllCommas(|names|)), names, tail);
    case Snapshot(e) =>
      ThenItemSnapshot(e, tail);
  }

  lemma PrintAssertionsHead(assertions: seq<Assertion>, commas: seq<bool>)
    requires |commas| == |assertions|
    requires assertions != [] ==> Writable(assertions[0])
    ensures PrintAssertions(assertions, commas) == [] || PrintAssertions(assertions, commas)[0] != Comma
  {
  }

  lemma PrintAssertionsCons(assertions: seq<Assertion>, commas: seq<bool>)
    requires |commas| == |assertions| && assertions != []
    ensures PrintAssertions(assertions, commas)
            == AssertionTokens(assertions[0]) + (OptComma(commas[0]) + PrintAssertions(assertions[1..], commas[1..]))
  {
    Regroup(AssertionTokens(assertions[0]), OptComma(commas[0]), PrintAssertions(assertions[1..], commas[1..]));
  }

  /** One parser step over a writable assertion and the optional comma after it. */
  lemma AssertionCons(a: Assertion, comma: bool, tail: seq<Token>, more: seq<Assertion>)
    requires Writable(a)
    requires tail == [] || tail[0] != Comma
    requires ThenAssertions(tail) == Ok(more)
    ensures ThenAssertions(AssertionTokens(a) + (OptComma(comma) + tail)) == Ok([a] + more)
  {
    SkipOptComma(comma, tail);
    AssertionRoundTrip(a, OptComma(comma) + tail);
  }

  lemma AllWritableTail(assertions: seq<Assertion>)
    requires assertions != [] && AllWritable(assertions)
    ensures Writable(assertions[0]) && AllWritable(assertions[1..])
  {
    assert forall i :: 0 <= i < |assertions[1..]| ==> assertions[1..][i] == assertions[i + 1];
  }

  /** The induction step of `ThenRoundTrip`, over an abstract head and tail. */
  lemma ThenStep(a: Assertion, comma: bool, more: seq<Assertion>, commas: seq<bool>)
    requires |commas| == |more| && Writable(a) && AllWritable(more)
    requires ThenAssertions(PrintAssertions(more, commas)) == Ok(more)
    ensures ThenAssertions(PrintAssertions([a] + more, [comma] + commas)) == Ok([a] + more)
  {
    var all := [a] + more;
    var cs := [comma] + commas;
    assert all[0] == a && all[1..] == more;
    assert cs[0] == comma && cs[1..] == commas;
    PrintAssertionsHead(more, commas);
    PrintAssertionsCons(all, cs);
    AssertionCons(a, comma, PrintAssertions(more, commas), more);
  }

  lemma {:induction false} ThenRoundTrip(assertions: seq<Assertion>, commas: seq<bool>)
    requires |commas| == |assertions| && AllWritable(assertions)
    ensures ThenAssertions(PrintAssertions(assertions, commas)) == Ok(assertions)
  {
    if assertions != [] {
      AllWritableTail(assertions);
      ThenRoundTrip(assertions[1..], commas[1..]);
      ThenStep(assertions[0], commas[0], assertions[1..], commas[1..]);
      assert [assertions[0]] + assertions[1..] == assertions;
      assert [commas[0]] + commas[1..] == commas;
    }
  }

  /** A whole invocation as written: the three clauses with their entries,
      and whether a comma follows the given and the when clause. */
  datatype ScenarioSource = ScenarioSource(
    name: string,
    given: seq<GivenEntry>,
    actions: seq<Action>,
    assertions: seq<Assertion>,
    commaAfterGiven: bool,
    commaAfterWhen: bool)

  /** The three clauses as written, then `extra`, which is empty in a
      well-formed invocation. */
  function ScenarioContent(src: ScenarioSource, extra: seq<Token>): seq<Token> {
    ClauseTokens("given", PrintGiven(src.given, AllCommas(|src.given|)))
    + (OptComma(src.commaAfterGiven)
    + (ClauseTokens("when", PrintActions(src.actions, AllCommas(|src.actions|)))
    + (OptComma(src.commaAfterWhen)
    + (ClauseTokens("then", PrintAssertions(src.assertions, AllCommas(|src.assertions|))) + extra))))
  }

  function PrintScenario(src: ScenarioSource): seq<Token> {
    [Ident(src.name), Group(Brace, ScenarioContent(src, []))]
  }

  ghost predicate WritableSource(src: ScenarioSource) {
    AllWritable(src.assertions)
  }

  /** The body parse, put together from the three clause parses. */
  lemma BodyFromClauses(name: string, content: seq<Token>, gt: seq<Token>, afterGiven: seq<Token>,
                        wt: seq<Token>, afterWhen: seq<Token>, tt: seq<Token>, extra: seq<Token>)
    requires Clause(content, "given") == Ok(Parsed(gt, afterGiven))
    requires Clause(SkipComma(afterGiven), "when") == Ok(Parsed(wt, afterWhen))
    requires Clause(SkipComma(afterWhen), "then") == Ok(Parsed(tt, extra))
    requires GivenFields(gt).Ok? && WhenActions(wt).Ok? && ThenAssertions(tt).Ok?
    ensures ScenarioBody(name, content)
            == Finish(TestScenario(name, GivenFields(gt).value, WhenClause(WhenActions(wt).value),
                                   ThenClause(ThenAssertions(tt).value)), extra)
  {
  }

  /** Three well-formed clauses in order, with or without the commas between
      them, give their three parses; `extra` is what follows the then clause. */
  lemma ScenarioBodyClauses(name: string, gt: seq<Token>, c1: bool, wt: seq<Token>, c2: bool,
                            tt: seq<Token>, extra: seq<Token>)
    requires GivenFields(gt).Ok? && WhenActions(wt).Ok? && ThenAssertions(tt).Ok?
    ensures ScenarioBody(name, ClauseTokens("given", gt) + (OptComma(c1) + (ClauseTokens("when", wt)
                               + (OptComma(c2) + (ClauseTokens("then", tt) + extra)))))
            == Finish(TestScenario(name, GivenFields(gt).value, WhenClause(WhenActions(wt).value),
                                   ThenClause(ThenAssertions(tt).value)), extra)
  {
    var afterWhen := OptComma(c2) + (ClauseTokens("then", tt) + extra);
    var afterGiven := OptComma(c1) + (ClauseTokens("when", wt) + afterWhen);
    var content := ClauseTokens("given", gt) + afterGiven;
    assert Clause(content, "given") == Ok(Parsed(gt, afterGiven)) by {
      ClauseStep("given", gt, afterGiven);
    }
    assert Clause(SkipComma(afterGiven), "when") == Ok(Parsed(wt, afterWhen)) by {
      SkipOptComma(c1, ClauseTokens("when", wt) + afterWhen);
      ClauseStep("when", wt, afterWhen);
    }
    assert Clause(SkipComma(afterWhen), "then") == Ok(Parsed(tt, extra)) by {
      SkipOptComma(c2, ClauseTokens("then", tt) + extra);
      ClauseStep("then", tt, extra);
    }
    BodyFromClauses(name, content, gt, afterGiven, wt, afterWhen, tt, extra);
  }

  /** The parsed scenario is the written one, with repeated given fields
      accumulated, whether or not the optional commas are there. */
  lemma ScenarioRoundTrip(src: ScenarioSource)
    requires WritableSource(src)
    ensures Scenario(PrintScenario(src))
            == Ok(TestScenario(src.name, Accumulate(src.given), WhenClause(src.actions),
                               ThenClause(src.assertions)))
  {
    var g := PrintGiven(src.given, AllCommas(|src.given|));
    var w := PrintActions(src.actions, AllCommas(|src.actions|));
    var t := PrintAssertions(src.assertions, AllCommas(|src.assertions|));
    var parsed := TestScenario(src.name, Accumulate(src.given), WhenClause(src.actions), ThenClause(src.assertions));
    assert ScenarioBody(src.name, ScenarioContent(src, [])) == Ok(parsed) by {
      GivenRoundTrip(src.given, AllCommas(|src.given|));
      WhenRoundTrip(src.actions, AllCommas(|src.actions|));
      ThenRoundTrip(src.assertions, AllCommas(|src.assertions|));
      ScenarioBodyClauses(src.name, g, src.commaAfterGiven, w, src.commaAfterWhen, t, []);
    }
  }

  /** No comma may follow the then clause: syn finds it left over. */
  lemma TrailingCommaRejected(src: ScenarioSource)
    requires WritableSource(src)
    ensures Scenario([Ident(src.name), Group(Brace, ScenarioContent(src, [Comma]))]) == Err(UnexpectedToken)
  {
    var g := PrintGiven(src.given, AllCommas(|src.given|));
    var w := PrintActions(src.actions, AllCommas(|src.actions|));
    var t := PrintAssertions(src.assertions, AllCommas(|src.assertions|));
    assert ScenarioBody(src.name, ScenarioContent(src, [Comma])) == Err(UnexpectedToken) by {
      GivenRoundTrip(src.given, AllCommas(|src.given|));
      WhenRoundTrip(src.actions, AllCommas(|src.actions|));
      ThenRoundTrip(src.assertions, AllCommas(|src.assertions|));
      ScenarioBodyClauses(src.name, g, src.commaAfterGiven, w, src.commaAfterWhen, t, [Comma]);
    }
  }

  /** A body whose given clause parses but whose when clause does not fails there. */
  lemma WhenClauseFails(name: string, content: seq<Token>, gt: seq<Token>, after: seq<Token>)
    requires Clause(content, "given") == Ok(Parsed(gt, after)) && GivenFields(gt).Ok?
    requires Clause(SkipComma(after), "when").Err?
    ensures ScenarioBody(name, content) == Err(Clause(SkipComma(after), "when").error)
  {
  }

  /** The clauses come in the fixed order given, when, then: an identifier
      other than `given` first, or other than `when` after a well-formed
      given clause, is reported as the keyword that was expected there. */
  lemma ClauseOrderFixed(name: string, gt: seq<Token>, comma: bool, other: string, rest: seq<Token>)
    requires GivenFields(gt).Ok?
    ensures other != "given" ==> ScenarioBody(name, [Ident(other)] + rest) == Err(ExpectedKeyword("given"))
    ensures other != "when" ==>
              ScenarioBody(name, ClauseTokens("given", gt) + (OptComma(comma) + ([Ident(other)] + rest)))
              == Err(ExpectedKeyword("when"))
  {
    if other != "given" {
      WrongKeyword(other, rest, "given");
    }
    if other != "when" {
      var after := OptComma(comma) + ([Ident(other)] + rest);
      var content := ClauseTokens("given", gt) + after;
      assert Clause(content, "given") == Ok(Parsed(gt, after)) by {
        ClauseStep("given", gt, after);
      }
      assert Clause(SkipComma(after), "when") == Err(ExpectedKeyword("when")) by {
        SkipOptComma(comma, [Ident(other)] + rest);
        WrongKeyword(other, rest, "when");
      }
      WhenClauseFails(name, content, gt, after);
    }
  }

  /** In particular after any given clause a test author can write. */
  lemma WhenMustFollowGiven(name: string, given: seq<GivenEntry>, comma: bool, other: string, rest: seq<Token>)
    requires other != "when"
    ensures ScenarioBody(name, ClauseTokens("given", PrintGiven(given, AllCommas(|given|)))
                               + (OptComma(comma) + ([Ident(other)] + rest)))
            == Err(ExpectedKeyword("when"))
  {
    GivenRoundTrip(given, AllCommas(|given|));
    ClauseOrderFixed(name, PrintGiven(given, AllCommas(|given|)), comma, other, rest);
  }

  /** A body whose given and when clauses parse but whose then clause does
      not fails there. */
  lemma ThenClauseFails(name: string, content: seq<Token>, gt: seq<Token>, afterGiven: seq<Token>,
                        wt: seq<Token>, afterWhen: seq<Token>)
    requires Clause(content, "given") == Ok(Parsed(gt, afterGiven)) && GivenFields(gt).Ok?
    requires Clause(SkipComma(afterGiven), "when") == Ok(Parsed(wt, afterWhen)) && WhenActions(wt).Ok?
    requires Clause(SkipComma(afterWhen), "then").Err?
    ensures ScenarioBody(name, content) == Err(Clause(SkipComma(afterWhen), "then").error)
  {
  }

  /** The third slot: after well-formed given and when clauses, with or
      without the commas between them, an identifier other than `then` is
      reported as the `then` keyword that was expected. */
  lemma ThenMustFollowWhen(name: string, gt: seq<Token>, c1: bool, wt: seq<Token>, c2: bool,
                           other: string, rest: seq<Token>)
    requires GivenFields(gt).Ok? && WhenActions(wt).Ok?
    requires other != "then"
    ensures ScenarioBody(name, ClauseTokens("given", gt) + (OptComma(c1) + (ClauseTokens("when", wt)
                               + (OptComma(c2) + ([Ident(other)] + rest)))))
            == Err(ExpectedKeyword("then"))
  {
    var afterWhen := OptComma(c2) + ([Ident(other)] + rest);
    var afterGiven := OptComma(c1) + (ClauseTokens("when", wt) + afterWhen);
    var content := ClauseTokens("given", gt) + afterGiven;
    assert Clause(content, "given") == Ok(Parsed(gt, afterGiven)) by {
      ClauseStep("given", gt, afterGiven);
    }
    assert Clause(SkipComma(afterGiven), "when") == Ok(Parsed(wt, afterWhen)) by {
      SkipOptComma(c1, ClauseTokens("when", wt) + afterWhen);
      ClauseStep("when", wt, afterWhen);
    }
    assert Clause(SkipComma(afterWhen), "then") == Err(ExpectedKeyword("then")) by {
      SkipOptComma(c2, [Ident(other)] + rest);
      WrongKeyword(other, rest, "then");
    }
    ThenClauseFails(name, content, gt, afterGiven, wt, afterWhen);
  }

  // ===========================================================================
  // Code generation

  function SpawnEntity(idx: nat, e: EntityDef): Stmt {
    SpawnStruct(EntityVar(idx), e.typeName, e.fields)
  }

  function ResourceBlock(g: GivenClause): seq<Stmt> {
    seq(|g.resources|, i requires 0 <= i < |g.resources| => InsertResource(g.resources[i]))
  }

  function EventBlock(g: GivenClause): seq<Stmt> {
    seq(|g.events|, i requires 0 <= i < |g.events| => AddEvent(g.events[i]))
  }

  function SystemBlock(g: GivenClause): seq<Stmt> {
    seq(|g.systems|, i requires 0 <= i < |g.systems| => AddSystem(g.systems[i]))
  }

  function SpawnBlock(g: GivenClause): seq<Stmt> {
    seq(|g.entities|, i requires 0 <= i < |g.entities| => SpawnEntity(i, g.entities[i]))
  }

  /** Resources, then event types, then systems, then entities, each in list order. */
  function SetupCode(g: GivenClause): seq<Stmt> {
    ResourceBlock(g) + EventBlock(g) + SystemBlock(g) + SpawnBlock(g)
  }

  method GenerateSetup(g: GivenClause) returns (code: seq<Stmt>)
    ensures code == SetupCode(g)
  {
    code := [];
    for i := 0 to |g.resources|
      invariant code == ResourceBlock(g)[..i]
    {
      code := code + [InsertResource(g.resources[i])];
    }
    for i := 0 to |g.events|
      invariant code == ResourceBlock(g) + EventBlock(g)[..i]
    {
      code := code + [AddEvent(g.events[i])];
    }
    for i := 0 to |g.systems|
      invariant code == ResourceBlock(g) + EventBlock(g) + SystemBlock(g)[..i]
    {
      code := code + [AddSystem(g.systems[i])];
    }
    for idx := 0 to |g.entities|
      invariant code == ResourceBlock(g) + EventBlock(g) + SystemBlock(g) + SpawnBlock(g)[..idx]
    {
      var entity := g.entities[idx];
      code := code + [SpawnStruct(EntityVar(idx), entity.typeName, entity.fields)];
    }
  }

  lemma {:induction false} SpawnBindings(es: seq<EntityDef>, from: nat)
    ensures Bindings(seq(|es|, i requires 0 <= i < |es| => SpawnEntity(from + i, es[i])))
            == seq(|es|, i requires 0 <= i < |es| => EntityVar(from + i))
    decreases |es|
  {
    var code := seq(|es|, i requires 0 <= i < |es| => SpawnEntity(from + i, es[i]));
    if es != [] {
      assert code[1..] == seq(|es[1..]|, i requires 0 <= i < |es[1..]| => SpawnEntity(from + 1 + i, es[1..][i]));
      SpawnBindings(es[1..], from + 1);
    }
  }

  /** With k entities, the setup binds exactly entity_0 .. entity_{k-1}, in
      declaration order, and these names are pairwise distinct. */
  lemma EntityBindings(g: GivenClause)
    ensures Bindings(SetupCode(g)) == seq(|g.entities|, i requires 0 <= i < |g.entities| => EntityVar(i))
    ensures forall i, j :: 0 <= i < j < |g.entities| ==> Bindings(SetupCode(g))[i] != Bindings(SetupCode(g))[j]
  {
    var pre := ResourceBlock(g) + EventBlock(g) + SystemBlock(g);
    BindingsConcat(pre, SpawnBlock(g));
    BindingsConcat(ResourceBlock(g) + EventBlock(g), SystemBlock(g));
    BindingsConcat(ResourceBlock(g), EventBlock(g));
    NoBindings(ResourceBlock(g));
    NoBindings(EventBlock(g));
    NoBindings(SystemBlock(g));
    assert Bindings(pre) == [];
    assert Bindings(SetupCode(g)) == Bindings(SpawnBlock(g));
    var names := seq(|g.entities|, i requires 0 <= i < |g.entities| => EntityVar(i));
    var es := g.entities;
    var spawn0 := seq(|es|, i requires 0 <= i < |es| => SpawnEntity(0 + i, es[i]));
    var names0 := seq(|es|, i requires 0 <= i < |es| => EntityVar(0 + i));
    SpawnBindings(es, 0);
    assert Bindings(spawn0) == names0;
    assert SpawnBlock(g) == spawn0;
    assert names0 == names;
    forall i, j | 0 <= i < j < |g.entities| ensures names[i] != names[j] {
      EntityVarInjective(i, j);
    }
  }

  /** Frames(n) is an n-iteration update loop, Days(n) one of n * 10
      iterations computed here, Seconds(s) a loop whose count the generated
      test computes; an event and an input both become `send_event`. */
  function ActionStmt(a: Action): Stmt {
    match a
    case Event(e) => SendEvent(e)
    case Input(e) => SendEvent(e)
    case Advance(Frames(n)) => UpdateTimes(n)
    case Advance(Days(n)) => UpdateTimes(n * 10)
    case Advance(Seconds(s)) => UpdateForSeconds(s)
  }

  function ActionCode(actions: seq<Action>): seq<Stmt> {
    seq(|actions|, i requires 0 <= i < |actions| => ActionStmt(actions[i]))
  }

  method GenerateActions(actions: seq<Action>) returns (code: seq<Stmt>)
    ensures code == ActionCode(actions)
  {
    code := [];
    for i := 0 to |actions|
      invariant code == ActionCode(actions)[..i]
    {
      match actions[i] {
        case Event(e) =>
          code := code + [SendEvent(e)];
        case Advance(t) =>
          match t {
            case Frames(n) =>
              code := code + [UpdateTimes(n)];
            case Days(n) =>
              var totalUpdates := n * 10;
              code := code + [UpdateTimes(totalUpdates)];
            case Seconds(s) =>
              code := code + [UpdateForSeconds(s)];
          }
        case Input(e) =>
          code := code + [SendEvent(e)];
      }
    }
  }

  /** Replacing an event by an input with the same expression, anywhere in
      the when clause, changes nothing in the generated test. */
  lemma EventAndInputAlike(before: seq<Action>, e: Expr, after: seq<Action>)
    ensures ActionCode(before + [Event(e)] + after) == ActionCode(before + [Input(e)] + after)
  {
    var a1 := before + [Event(e)] + after;
    var a2 := before + [Input(e)] + after;
    forall i | 0 <= i < |a1| ensures ActionStmt(a1[i]) == ActionStmt(a2[i]) {
      if i != |before| {
        assert a1[i] == a2[i];
      }
    }
  }

  /** The statements one assertion produces: `events_received: [T1, .., Tm]`
      gives m non-emptiness checks and a snapshot gives no check at all. */
  function AssertionStmts(a: Assertion): seq<Stmt> {
    match a
    case ComponentCheck(e) => [Assert(e)]
    case EventsReceived(ts) => seq(|ts|, i requires 0 <= i < |ts| => AssertEventsNonEmpty(ts[i]))
    case Snapshot(e) => [PrintSnapshot(e)]
  }

  function AssertionCode(assertions: seq<Assertion>): seq<Stmt>
    decreases |assertions|
  {
    if assertions == [] then []
    else AssertionCode(assertions[..|assertions| - 1]) + AssertionStmts(assertions[|assertions| - 1])
  }

  lemma AssertionCodeStep(assertions: seq<Assertion>, i: nat)
    requires i < |assertions|
    ensures AssertionCode(assertions[..i + 1]) == AssertionCode(assertions[..i]) + AssertionStmts(assertions[i])
  {
    assert assertions[..i + 1][..i] == assertions[..i];
  }

  method GenerateAssertions(assertions: seq<Assertion>) returns (code: seq<Stmt>)
    ensures code == AssertionCode(assertions)
  {
    code := [];
    for i := 0 to |assertions|
      invariant code == AssertionCode(assertions[..i])
    {
      AssertionCodeStep(assertions, i);
      ghost var before := code;
      match assertions[i] {
        case ComponentCheck(e) =>
          code := code + [Assert(e)];
        case EventsReceived(events) =>
          ghost var stmts := AssertionStmts(assertions[i]);
          for j := 0 to |events|
            invariant code == before + stmts[..j]
          {
            assert stmts[..j + 1] == stmts[..j] + [AssertEventsNonEmpty(events[j])];
            code := code + [AssertEventsNonEmpty(events[j])];
          }
          assert stmts[..|events|] == stmts;
        case Snapshot(e) =>
          code := code + [PrintSnapshot(e)];
      }
    }
    assert assertions[..|assertions|] == assertions;
  }

  lemma {:induction false} EventChecks(ts: seq<string>)
    ensures CountChecks(AssertionStmts(EventsReceived(ts))) == |ts|
    decreases |ts|
  {
    if ts != [] {
      assert AssertionStmts(EventsReceived(ts))[1..] == AssertionStmts(EventsReceived(ts[1..]));
      EventChecks(ts[1..]);
    }
  }

  /** How many checks the then clause asks for: one per boolean check, one per
      listed event type, none for a snapshot. */
  function ChecksRequested(assertions: seq<Assertion>): nat
    decreases |assertions|
  {
    if assertions == [] then 0
    else
      var last := assertions[|assertions| - 1];
      ChecksRequested(assertions[..|assertions| - 1])
      + (match last
         case ComponentCheck(_) => 1
         case EventsReceived(ts) => |ts|
         case Snapshot(_) => 0)
  }

  /** The generated assertions fail the test in exactly as many places as the
      then clause requests checks; an empty `events_received` list and a
      snapshot add none. */
  lemma {:induction false} AssertionChecks(assertions: seq<Assertion>)
    ensures CountChecks(AssertionCode(assertions)) == ChecksRequested(assertions)
    decreases |assertions|
  {
    if assertions != [] {
      var init, last := assertions[..|assertions| - 1], assertions[|assertions| - 1];
      AssertionChecks(init);
      CountChecksConcat(AssertionCode(init), AssertionStmts(last));
      if last.EventsReceived? {
        EventChecks(last.eventTypes);
      }
    }
  }

  lemma {:induction false} AssertionCodeInCheckPhase(assertions: seq<Assertion>)
    ensures AllInPhase(AssertionCode(assertions), 3)
    decreases |assertions|
  {
    if assertions != [] {
      AssertionCodeInCheckPhase(assertions[..|assertions| - 1]);
    }
  }

  /** `TestScenario::expand`: the harness, then the setup, then the replayed
      actions, then the assertions, and never a statement out of that order. */
  method Expand(s: TestScenario) returns (f: TestFn)
    ensures f.name == s.name
    ensures f.body == Harness + SetupCode(s.givenClause) + ActionCode(s.whenClause.actions)
                      + AssertionCode(s.thenClause.assertions)
    ensures PhasesOrdered(f.body)
  {
    var setup := GenerateSetup(s.givenClause);
    var actions := GenerateActions(s.whenClause.actions);
    var assertions := GenerateAssertions(s.thenClause.assertions);
    AssertionCodeInCheckPhase(s.thenClause.assertions);
    FourPhases(Harness, setup, actions, assertions);
    f := TestFn(s.name, Harness + setup + actions + assertions);
  }
}
