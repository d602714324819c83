# bevy-test-suite macro front-ends, modelled in Dafny

The crate provides three function-like procedural macros and one attribute
macro for Bevy tests:

- `test_scenario!` reads a `given` / `when` / `then` description and builds a test.
  The test creates an app, installs the resources, event types, systems and
  entities, replays the actions, and checks the assertions.
- `test_system!` reads `setup` / `call` / `expect`.
  The test runs one system for a single update and then checks boolean expressions.
- `test_component!` reads `given` / `operations`.
  The test calls one method per operation on a component value and compares
  the value after each call.
- `#[bevy_test(headless, plugins = [..], timeout = N)]` wraps an ordinary test
  function. It adds an app built from the configuration.

Each macro is modelled in two halves. Both halves are proved.

- **The parser.** It works on token trees; a `syn::ParseStream` is the
  sequence of tokens still to read. Every parse loop of the source is a
  `method` with a `while` loop. Each such method is proved equal to a recursive
  specification function. Round-trip lemmas then show that every well-formed
  invocation parses back to the values it was printed from, with any choice of
  optional commas. Further lemmas show which malformed invocations are refused,
  and with which error.
- **The code generator.** Generated code is a sequence of `Stmt` values, one
  per `quote!` template. Every generator loop is a `method` proved equal to a
  specification function. Lemmas then prove what the generated test does:
  - the order of its phases;
  - how many `app.update()` calls and checks it contains;
  - which names it binds;
  - which plugins it installs.

Files:

- `tokens.dfy`: token trees, Rust expressions as opaque values, the `syn`
  primitives, the shared bracketed-list loop and the `keyword: { .. }` clauses.
- `test_code.dfy`: the generated statements, their phases, `entity_{}` handles.
- `scenario.dfy`: `test_scenario!` (src/scenario.rs).
- `system.dfy`: `test_system!` (src/system.rs).
- `component.dfy`: `test_component!` (src/component.rs).
- `attribute.dfy`: `#[bevy_test]` configuration, set-up, timeout and wrapper
  choice (src/attribute.rs, src/lib.rs).

Two points of the code that the crate's own material reads differently:

- The crate's examples write an entity as `Type { type_name: Type, fields: { .. } }`
  (examples/basic_scenario.rs:57-58, examples/comparison.rs:119). The code reads
  `Type { field: value, .. }` (src/scenario.rs:141-156) and reads each value as a
  Rust expression (src/scenario.rs:150). `{ health: 100, .. }` is not one, so the
  source as written refuses those examples. The model takes every delimited group
  as an opaque expression (see "## Left out"), so it accepts them and yields two
  fields named `type_name` and `fields`.
- A time advance whose receiver is not a literal of the expected kind gives the
  unit's own default: `Days(1)` for a day unit, `Seconds(1.0)` for a second unit,
  `Frames(1)` for a frame unit (src/scenario.rs:217-247). An unknown unit, or an
  expression that is not a method call, gives `Frames(1)` (src/scenario.rs:249-251).

## Model

| member | source | states |
|---|---|---|
| Tokens.ParseExprList | src/scenario.rs:117-120 | The bracketed-list loop (parse an expression, then an optional comma, until the group is empty) returns exactly `ExprList` of the group body. |
| Tokens.ParseIdentList | src/scenario.rs:270-274 | The same loop over identifiers returns exactly `IdentList` of the body. |
| Tokens.ExprListRoundTrip | src/scenario.rs:117-120 | A list of expressions comes back in source order whichever commas were written between them, trailing comma included. |
| Tokens.IdentListRoundTrip | src/scenario.rs:270-274 | A list of identifiers comes back in source order whichever commas were written. |
| Tokens.ExprListErrors | src/system.rs:93-96 | The list loop fails only on a token that cannot start an expression. |
| Tokens.Keyword | src/scenario.rs:63-67 | A clause accepts only its own keyword followed by a colon, and continues right after them. |
| Tokens.ClauseStep | src/scenario.rs:63-69 | `keyword: { body }` yields the body and the tokens after the braces. |
| TestCode.DecimalRoundTrip | src/scenario.rs:361 | The decimal digits printed into `entity_{}` read back as the index. |
| TestCode.EntityVarInjective | src/scenario.rs:361 | Two entity indices get the same handle name iff they are equal. |
| TestCode.FourPhases | src/scenario.rs:306-322 | Harness, set-up, stimulus and check code placed in that order form a test whose phases never go backwards. |
| ScenarioDsl.ParseEntityFields | src/scenario.rs:146-153 | The field loop of an entity returns exactly `EntityFields` of the braces' body. |
| ScenarioDsl.ParseEntityList | src/scenario.rs:138-157 | The `entities: [..]` loop returns exactly `EntityList` of the bracket body. |
| ScenarioDsl.ParseGivenClause | src/scenario.rs:103-171 | The given loop returns exactly `GivenFields` of the clause body. |
| ScenarioDsl.ParseTimeAdvance | src/scenario.rs:206-253 | The unit is decided by the method name alone: `days`/`day` iff `Days`, `seconds`/`second` iff `Seconds`. A frame or day count other than 1 comes from an integer literal receiver of that unit. `N.frame(s)()` and `N.day(s)()` with N < 2^32 give `Frames(N)` and `Days(N)`. `N.second(s)()` gives `Seconds(N)` for an integer or a float literal N. |
| ScenarioDsl.TimeAdvanceRoundTrip | src/scenario.rs:206-253 | `N.frames()`, `S.seconds()` and `N.days()` classify back to the advance they spell. |
| ScenarioDsl.TimeAdvanceFallbacks | src/scenario.rs:206-253 | The silent defaults: not a method call, or an unknown unit, gives `Frames(1)`. A non-literal receiver gives the unit's default. A float with a frame unit gives `Frames(1)`. An integer that does not fit a `u32` gives `Frames(1)`/`Days(1)`. |
| ScenarioDsl.ParseWhenClause | src/scenario.rs:173-204 | The when loop returns exactly `WhenActions` of the clause body. |
| ScenarioDsl.ThenItem | src/scenario.rs:258-291 | An assertion is `EventsReceived` iff it starts with `events_received`, `Snapshot` iff it starts with `snapshot`, and otherwise a component check; each consumes input. |
| ScenarioDsl.ParseThenClause | src/scenario.rs:255-297 | The then loop returns exactly `ThenAssertions` of the clause body. |
| ScenarioDsl.ParseScenario | src/scenario.rs:55-101 | The whole `name { given: {..}, when: {..}, then: {..} }` parse returns exactly `Scenario` of the input. |
| ScenarioDsl.EntityFieldsRoundTrip | src/scenario.rs:146-153 | `k: v` fields come back in order with any commas. |
| ScenarioDsl.EntityListRoundTrip | src/scenario.rs:141-157 | `Type { .. }` entities come back in order with any commas. |
| ScenarioDsl.EntryRoundTrip | src/scenario.rs:113-158 | Each of `resources`, `events`, `systems`, `entities` is a known field and parses to its list. |
| ScenarioDsl.GivenRoundTrip | src/scenario.rs:109-163 | A given clause parses to the accumulation of its entries, so a repeated field appends rather than replaces. |
| ScenarioDsl.UnknownGivenFieldRejected | src/scenario.rs:159 | Any other field name after well-formed entries is refused with `UnknownGivenField`. |
| ScenarioDsl.WhenRoundTrip | src/scenario.rs:176-201 | `event:`, `advance:` and `input:` actions come back in declared order with any commas. |
| ScenarioDsl.UnknownWhenActionRejected | src/scenario.rs:197 | Any other action name after well-formed actions is refused with `UnknownWhenAction`. |
| ScenarioDsl.AssertionRoundTrip | src/scenario.rs:258-293 | Each writable assertion form parses back to itself. |
| ScenarioDsl.ThenRoundTrip | src/scenario.rs:255-297 | A then clause comes back in declared order with any commas. |
| ScenarioDsl.ScenarioBodyClauses | src/scenario.rs:62-99 | Given, when and then clauses with well-formed bodies yield the scenario built from their parses. |
| ScenarioDsl.ScenarioRoundTrip | src/scenario.rs:55-101 | A printed scenario parses back to its name and clauses, with or without the commas after given and when. |
| ScenarioDsl.TrailingCommaRejected | src/scenario.rs:89-99 | A comma after the then clause leaves a token behind and is refused. |
| ScenarioDsl.ClauseOrderFixed | src/scenario.rs:63-77 | The first clause must be `given` and the second must be `when`; otherwise the expected keyword is reported. |
| ScenarioDsl.WhenMustFollowGiven | src/scenario.rs:71-77 | After a well-formed given clause, anything but `when` is refused with `ExpectedKeyword("when")`. |
| ScenarioDsl.ThenMustFollowWhen | src/scenario.rs:79-85 | After well-formed given and when clauses, with or without the commas between them, anything but `then` is refused with `ExpectedKeyword("then")`. |
| ScenarioDsl.GenerateSetup | src/scenario.rs:326-371 | The set-up loops emit `SetupCode`: resources, then event types, then systems, then entities, each in list order. |
| ScenarioDsl.EntityBindings | src/scenario.rs:350-368 | The set-up binds exactly `entity_0` … `entity_{n-1}`, one per entity in order, and no two alike. |
| ScenarioDsl.GenerateActions | src/scenario.rs:373-423 | The action loop emits `ActionCode`: one statement per action, in declared order. |
| ScenarioDsl.EventAndInputAlike | src/scenario.rs:378-418 | Swapping an `event:` for an `input:` with the same value anywhere changes nothing generated. |
| ScenarioDsl.GenerateAssertions | src/scenario.rs:425-456 | The assertion loop (with its inner loop over event types) emits `AssertionCode`. |
| ScenarioDsl.EventChecks | src/scenario.rs:435-443 | `events_received: [T1..Tm]` yields exactly m checks. |
| ScenarioDsl.AssertionChecks | src/scenario.rs:425-456 | The test can fail in exactly as many places as the then clause requests checks; a snapshot requests none. |
| ScenarioDsl.AssertionCodeInCheckPhase | src/scenario.rs:425-456 | Every generated assertion statement belongs to the check phase. |
| ScenarioDsl.Expand | src/scenario.rs:300-324 | The test is named after the scenario. Its body is harness, set-up, actions, assertions, and its phases never go backwards. |
| SystemDsl.SetupItem | src/system.rs:84-115 | One setup entry, starting at an identifier, consumes input when it succeeds. |
| SystemDsl.SetupStall | src/system.rs:83-119 | As written, a token that is neither an identifier nor a comma is never consumed, and the loop never ends. |
| SystemDsl.SetupCorrection | src/system.rs:83-119 | Where the loop as written ends, it yields what the corrected `SetupEntries` yields. It fails to end exactly when the corrected loop reports `ExpectedIdent`. |
| SystemDsl.ParseSetupBlock | src/system.rs:78-122 | The corrected setup loop returns exactly `SetupEntries` of the block body. |
| SystemDsl.ParseSystemCall | src/system.rs:124-139 | The call clause succeeds iff it starts with an expression. The pipe argument is present iff a comma follows and the next tokens are not the `expect:` clause; it is then the token after the comma. |
| SystemDsl.CallCorrectionOnlyAtExpect | src/system.rs:124-139 | The corrected call parse agrees with the written one except when the comma is followed by `expect:`. |
| SystemDsl.ParseSystemTest | src/system.rs:37-76 | The whole `name { setup: {..}, call: .., expect: {..} }` parse returns exactly `Invocation` of the input. |
| SystemDsl.SetupItemRoundTrip | src/system.rs:84-115 | Each writable setup entry parses back to its contribution. |
| SystemDsl.SetupRoundTrip | src/system.rs:78-122 | A setup block parses to the accumulation of its entries, with any commas. |
| SystemDsl.StrayTokenHangs | src/system.rs:83-119 | After well-formed entries, a stray literal makes the written loop run forever, and the corrected loop refuses it with `ExpectedIdent`. |
| SystemDsl.SystemRoundTrip | src/system.rs:37-76 | Under the corrected `Invocation` of "## Findings", a printed system test parses back to its name, setup, call and assertions, for every choice of commas. That includes `call: f,` before `expect`, which the source as written refuses (`CallCommaSwallowsExpect`). |
| SystemDsl.ClauseOrderFixed | src/system.rs:42-66 | The clauses come in the order setup, call, expect. Any other identifier in one of the three keyword slots is refused with `ExpectedKeyword` for the keyword due there. In the expect slot this is stated for a piped call, or a call with no comma after it: after `call: f,` the identifier is taken as the pipe argument. |
| SystemDsl.CallCommaSwallowsExpect | src/system.rs:56-68 | With `call: f,` and no pipe argument, the written parse fails with `ExpectedIdent`, while the corrected parse succeeds. |
| SystemDsl.GenerateSetup | src/system.rs:183-211 | The set-up loops emit resources, then event types, then `let var = spawn(bundle)` entities, each in order. |
| SystemDsl.SetupBindings | src/system.rs:183-211 | The set-up binds exactly the entity names the author wrote, in the order written. A statement is a spawn iff it comes after all resources and event types. |
| SystemDsl.CallStmt | src/system.rs:213-225 | The system is registered through `.pipe(params)` iff parameters were given, and directly otherwise. |
| SystemDsl.GenerateAssertions | src/system.rs:227-237 | One `assert!` per expectation, in order. |
| SystemDsl.Expand | src/system.rs:152-181 | The body is harness, set-up, system registration, one `app.update()`, assertions. Phases are ordered and there is exactly one update. |
| ComponentDsl.ParseArgs | src/component.rs:60-67 | Arguments are present iff a parenthesised group follows the method name. They fail iff that group is empty or is not a single expression. Without one, no input is consumed. |
| ComponentDsl.ParseOperations | src/component.rs:53-81 | The operations loop returns exactly `Operations` of the bracket body. |
| ComponentDsl.ParseComponentTest | src/component.rs:22-51 | The whole `name { given: E, operations: [..] }` parse returns exactly `Invocation` of the input. |
| ComponentDsl.OperationRoundTrip | src/component.rs:56-77 | `method(args) => expected` and `method => expected` parse back to the operation. |
| ComponentDsl.OperationsRoundTrip | src/component.rs:53-81 | Operations come back in order with any commas. |
| ComponentDsl.EmptyParensRejected | src/component.rs:61-64 | `method() => ..` after well-formed operations is refused: empty parentheses hold no expression. |
| ComponentDsl.MissingArrowRejected | src/component.rs:69-70 | A method not followed by arguments or `=>` is refused with `ExpectedToken(FatArrow)`. |
| ComponentDsl.ComponentRoundTrip | src/component.rs:22-51 | A printed component test parses back to its name, initial value and operations, with or without the comma after `given`. |
| ComponentDsl.KeywordsFixed | src/component.rs:29-42 | The first keyword must be `given` and the second `operations`. |
| ComponentDsl.TestStepsShape | src/component.rs:103-130 | Operation i yields the call at position 2i and at 2i+1 an `assert_eq!` numbered i+1 against its expected state. |
| ComponentDsl.OneCheckPerOperation | src/component.rs:103-130 | The steps contain exactly one check per operation. |
| ComponentDsl.GenerateTestSteps | src/component.rs:103-130 | The enumerate loop emits exactly `TestSteps`. |
| ComponentDsl.Expand | src/component.rs:84-101 | The body is `let mut component = given;` followed by the steps, has 1 + 2n statements and n checks. |
| AttributeConfig.ParseConfig | src/attribute.rs:23-56 | The option loop returns exactly `ConfigFrom(DefaultConfig, args)`. |
| AttributeConfig.ConfigFromArgs | src/lib.rs:211-215 | Empty arguments give the default configuration, and the shortcut agrees with running the parser on no tokens. |
| AttributeConfig.ParsedConfigFits | src/attribute.rs:42-46 | Every accepted configuration has a timeout that fits a `u64`. |
| AttributeConfig.OptionRoundTrip | src/attribute.rs:29-50 | `headless`, `plugins = [..]` and `timeout = N` (N < 2^64) each parse to their effect on the configuration. |
| AttributeConfig.OptionsRoundTrip | src/attribute.rs:26-53 | An option list applies its options left to right whichever commas separate them. |
| AttributeConfig.ApplyAllMeaning | src/attribute.rs:29-41 | Repeated `plugins` options concatenate. `headless` is set iff some option sets it. Without a `timeout` option the timeout is unchanged. |
| AttributeConfig.LastTimeoutWins | src/attribute.rs:42-46 | The last `timeout` option decides the timeout. |
| AttributeConfig.UnknownOptionRejected | src/attribute.rs:47-49 | Any other option name is refused with `UnknownConfigOption`. |
| AttributeConfig.MissingEqRejected | src/attribute.rs:33-44 | `plugins` and `timeout` without `=` are refused. |
| AttributeConfig.TimeoutValueChecked | src/attribute.rs:42-46 | A timeout that is not an integer literal, or does not fit a `u64`, is refused. |
| AttributeConfig.TimeoutAccepted | src/attribute.rs:42-46 | A timeout that fits is stored as written and parsing continues after it. |
| AttributeConfig.SetupInstallsPlugins | src/attribute.rs:131-159 | The set-up creates the app, installs `MinimalPlugins` then each configured plugin in order, and ends with the `Time` resource. |
| AttributeConfig.HeadlessIgnored | src/attribute.rs:131-171 | Flipping `headless` changes neither the set-up nor the timeout code. |
| AttributeConfig.GenerateTimeout | src/attribute.rs:161-171 | No code without a timeout, otherwise a single `Duration` binding that neither updates nor checks anything. |
| AttributeConfig.ExpectsAppAsWritten | src/attribute.rs:64-72 | As written, the decision is true iff some typed parameter's quoted text, name included, contains `App` or `TestApp`. |
| AttributeConfig.ExpectsApp | src/attribute.rs:64-72 | As intended, the decision is true iff some typed parameter's type mentions `App`. |
| AttributeConfig.TestAppRedundant | src/attribute.rs:68 | Searching for `TestApp` adds nothing to searching for `App`. |
| AttributeConfig.QuotedArgContains | src/attribute.rs:67 | `App` occurs in the quoted parameter iff it occurs in the name or the type. |
| AttributeConfig.ExpectsAppCorrection | src/attribute.rs:64-72 | The written decision is the intended one, or'ed with "some parameter name contains `App`". |
| AttributeConfig.NameMentioningAppMisread | src/attribute.rs:64-72 | `myApp: u32` selects the app-parameter wrapper as written but not as intended. |
| AttributeConfig.ExpandBevyTest | src/attribute.rs:58-129 | The wrapper keeps the name and body. It takes the app as a parameter iff a parameter type mentions `App`: the choice uses the corrected `ExpectsApp` of "## Findings", where the source as written also reacts to a parameter name (`ExpectsAppCorrection`). It installs `MinimalPlugins` then the configured plugins, and the code before the body never updates the app. |
| AttributeConfig.SetupDoesNotUpdate | src/attribute.rs:131-159 | The generated set-up contains no `app.update()`. |
| AttributeConfig.ArgumentsToSetup | src/attribute.rs:26-41 | The plugins written in the attribute arguments are installed after `MinimalPlugins`, in the order written. |

## Left out

- Rust's expression grammar: an expression is a single token (an identifier, a delimited group, or an opaque literal/method-call atom). Multi-token expressions such as `a + b` or `Foo::new()` are not modelled; only the structure of the DSLs around them is.
- Whether a delimited group is a valid Rust expression: every group is accepted as one. Input that `syn` refuses there is accepted by the model, such as the `fields: { health: 100, .. }` value of the crate's entity examples, which is not a block expression.
- Which diagnostic `syn` reports when several apply, its spans and its messages. The model claims only success or failure and a coarse error kind.
- `syn`'s refusal of Rust keywords where an `Ident` is expected: here a keyword is an ordinary identifier. Input that `syn` refuses is therefore accepted, such as the operation `match => 1` or a keyword as an entity type name in a given clause. A keyword as a `test_system!` entity name makes the source's `peek(Ident)` false, so the setup loop stalls (src/system.rs:84); the model parses it as an entity.
- The runtime behaviour of generated tests (Bevy's app, world, schedules, event queues): the output is modelled as statements, and the lemmas speak about those statements.
- f32 arithmetic: `Seconds` holds a real number. `(s * 60.0) as usize` is left to the generated test (`UpdateForSeconds`), and the rounding of `base10_parse::<f32>()` is not modelled.
- SystemDsl.SystemRoundTrip: stated for the corrected call parse. As written, the round trip fails whenever the call has no pipe argument and a comma follows it (`CallCommaSwallowsExpect`).
- AttributeConfig.ExpandBevyTest: chooses the wrapper with the corrected `ExpectsApp`. As written, a parameter whose name contains `App` also selects the app-parameter form (`NameMentioningAppMisread`).
- ScenarioDsl.GenerateActions: `n * 10` for `Days(n)` is computed on unbounded integers. In the source it is a `u32` product, which overflows for n ≥ 429496730 (a panic in debug builds, wrap-around in release builds).
- The `#[test]` attribute, `use bevy::prelude::*;` and comments of the generated functions: fixed text with no behaviour.
- The `thread_local!` wrapper of the self-contained `#[bevy_test]` form and the closure of the app-parameter form. The model records only which form is chosen.
- `generate_test_helpers` (src/attribute.rs:174-253): fixed helper code with no inputs.
- The `BenchmarkScenario` and `PropertyTest` stubs (src/scenario.rs:459-482): they accept anything and generate nothing.
- src/builders.rs, src/assertions.rs and the remaining macro entry points of src/lib.rs are not part of this model.

## Findings

| source | as written | input that shows it | evidently intended | confidence | as-written member | corrected member |
|---|---|---|---|---|---|---|
| src/system.rs:83-119 | A token that is neither an identifier nor a comma is left unread. The optional comma parse fails silently and the loop tests the same non-empty input again, forever. | `setup: { 42 }`: any literal before or between setup entries (lemmas `SetupStall`, `StrayTokenHangs`) | refuse the token with an error | not executed | SystemDsl.SetupRun | SystemDsl.SetupEntries |
| src/system.rs:56-68, 124-139 | After `call: f,` any remaining token is taken as the pipe argument. The word `expect` becomes the argument, and the parser then finds `:` where it wants the `expect` identifier. | `call: movement_system, expect: { .. }`, the form of every `test_system!` in examples/system_testing.rs:38-39 and examples/dual_approach.rs:146-147 (lemma `CallCommaSwallowsExpect`) | a comma followed by `expect:` ends the call clause | not executed | SystemDsl.InvocationAsWritten | SystemDsl.Invocation |
| src/attribute.rs:64-72 | `quote!(#pat_type.ty)` quotes the whole typed parameter, name included, followed by the tokens `. ty`. A parameter name containing `App` therefore selects the app-parameter wrapper. | `fn score(myApp: u32)` (lemma `NameMentioningAppMisread`) | inspect the parameter's type only | not executed | AttributeConfig.ExpectsAppAsWritten | AttributeConfig.ExpectsApp |
