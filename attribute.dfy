/** The `#[bevy_test]` attribute: its configuration arguments
    (`headless`, `plugins = [..]`, `timeout = N`), the app set-up and the
    timeout binding it generates from them, and the choice between the two
    shapes of wrapper test (with or without an app parameter). */
module AttributeConfig {
  import opened Tokens
  import opened TestCode

  /** `TestConfig`; `#[derive(Default)]` gives `DefaultConfig`. */
  datatype TestConfig = TestConfig(headless: bool, plugins: seq<Expr>, timeoutMs: Option<nat>)

  const DefaultConfig: TestConfig := TestConfig(false, [], None)

  /** A `timeout_ms` is a `u64`. */
  predicate Fits(c: TestConfig) {
    c.timeoutMs.None? || c.timeoutMs.value < U64Limit
  }

  // ---------------------------------------------------------------------------
  // Parsing the arguments

  /** One turn of the `parse_config` loop before its optional comma: the option
      name, then what that option reads, applied to the configuration so far. */
  function ApplyOption(c: TestConfig, ts: seq<Token>): (r: Result<Parsed<TestConfig>>)
    ensures r.Ok? ==> |r.value.rest| < |ts|
  {
    var option :- ParseIdent(ts);
    if option.item == "headless" then
      Ok(Parsed(c.(headless := true), option.rest))
    else if option.item == "plugins" then
      var afterEq :- ExpectToken(option.rest, Eq);
      var list :- ParseGroup(afterEq, Bracket);
      var plugins :- ExprList(list.item);
      Ok(Parsed(c.(plugins := c.plugins + plugins), list.rest))
    else if option.item == "timeout" then
      var afterEq :- ExpectToken(option.rest, Eq);
      var lit :- ParseLitInt(afterEq);
      if lit.item >= U64Limit then Err(IntOutOfRange)
      else Ok(Parsed(c.(timeoutMs := Some(lit.item)), lit.rest))
    else
      Err(UnknownConfigOption(option.item))
  }

  /** What `parse_config` yields when the configuration so far is `c` and `ts`
      are the argument tokens still to read. */
  function ConfigFrom(c: TestConfig, ts: seq<Token>): Result<TestConfig>
    decreases |ts|
  {
    if ts == [] then Ok(c)
    else
      var next :- ApplyOption(c, ts);
      ConfigFrom(next.item, SkipComma(next.rest))
  }

  method ParseConfig(args: seq<Token>) returns (r: Result<TestConfig>)
    ensures r == ConfigFrom(DefaultConfig, args)
  {
    var config := DefaultConfig;
    var input := args;
    while input != []
      invariant ConfigFrom(DefaultConfig, args) == ConfigFrom(config, input)
      decreases |input|
    {
      var option := ParseIdent(input);
      if option.Err? {
        return Err(option.error);
      }
      var rest := option.value.rest;
      if option.value.item == "headless" {
        config := config.(headless := true);
      } else if option.value.item == "plugins" {
        var afterEq := ExpectToken(rest, Eq);
        if afterEq.Err? {
          return Err(afterEq.error);
        }
        var list := ParseGroup(afterEq.value, Bracket);
        if list.Err? {
          return Err(list.error);
        }
        var plugins := ParseExprList(list.value.item);
        if plugins.Err? {
          return Err(plugins.error);
        }
        config := config.(plugins := config.plugins + plugins.value);
        rest := list.value.rest;
      } else if option.value.item == "timeout" {
        var afterEq := ExpectToken(rest, Eq);
        if afterEq.Err? {
          return Err(afterEq.error);
        }
        var lit := ParseLitInt(afterEq.value);
        if lit.Err? {
          return Err(lit.error);
        }
        if lit.value.item >= U64Limit {
          return Err(IntOutOfRange);
        }
        config := config.(timeoutMs := Some(lit.value.item));
        rest := lit.value.rest;
      } else {
        return Err(UnknownConfigOption(option.value.item));
      }
      input := SkipComma(rest);
    }
    return Ok(config);
  }

  /** `bevy_test`: no arguments at all give the default configuration,
      anything else goes through `parse_config`. */
  function ConfigFromArgs(args: seq<Token>): (r: Result<TestConfig>)
    ensures r == ConfigFrom(DefaultConfig, args)
    ensures args == [] ==> r == Ok(DefaultConfig)
  {
    if args == [] then Ok(DefaultConfig) else ConfigFrom(DefaultConfig, args)
  }

  /** Every configuration the parser accepts has a timeout that fits a `u64`. */
  lemma {:induction false} ParsedConfigFits(c: TestConfig, ts: seq<Token>)
    requires Fits(c)
    ensures ConfigFrom(c, ts).Ok? ==> Fits(ConfigFrom(c, ts).value)
    decreases |ts|
  {
    if ts != [] && ApplyOption(c, ts).Ok? {
      var next := ApplyOption(c, ts).value;
      ParsedConfigFits(next.item, SkipComma(next.rest));
    }
  }

  // ---------------------------------------------------------------------------
  // What the options mean, and the argument lists that write them

  datatype ConfigOption = Headless | Plugins(exprs: seq<Expr>) | Timeout(millis: nat)

  /** The effect of one option on the configuration so far. */
  function Apply(c: TestConfig, o: ConfigOption): TestConfig {
    match o
    case Headless => c.(headless := true)
    case Plugins(es) => c.(plugins := c.plugins + es)
    case Timeout(ms) => c.(timeoutMs := Some(ms))
  }

  /** The effect of a whole option list, left to right. */
  function ApplyAll(c: TestConfig, os: seq<ConfigOption>): TestConfig
    decreases |os|
  {
    if os == [] then c else ApplyAll(Apply(c, os[0]), os[1..])
  }

  predicate Writable(o: ConfigOption) {
    o.Timeout? ==> o.millis < U64Limit
  }

  function OptionTokens(o: ConfigOption): seq<Token> {
    match o
    case Headless => [Ident("headless")]
    case Plugins(es) => [Ident("plugins"), Eq, Group(Bracket, PrintExprList(es, AllCommas(|es|)))]
    case Timeout(ms) => [Ident("timeout"), Eq, Atom(IntLit(ms))]
  }

  function PrintOptions(os: seq<ConfigOption>, commas: seq<bool>): seq<Token>
    requires |commas| == |os|
  {
    if os == [] then [] else OptionTokens(os[0]) + OptComma(commas[0]) + PrintOptions(os[1..], commas[1..])
  }

  lemma OptionRoundTrip(c: TestConfig, o: ConfigOption, rest: seq<Token>)
    requires Writable(o)
    ensures ApplyOption(c, OptionTokens(o) + rest) == Ok(Parsed(Apply(c, o), rest))
  {
    var ts := OptionTokens(o) + rest;
    assert ts[1..] == OptionTokens(o)[1..] + rest;
    match o
    case Headless =>
    case Plugins(es) =>
      assert ts[1..][1..] == [Group(Bracket, PrintExprList(es, AllCommas(|es|)))] + rest;
      ExprListRoundTrip(es, AllCommas(|es|));
    case Timeout(ms) =>
      assert ts[1..][1..] == [Atom(IntLit(ms))] + rest;
  }

  lemma PrintOptionsHead(os: seq<ConfigOption>, commas: seq<bool>)
    requires |commas| == |os|
    ensures PrintOptions(os, commas) == [] || PrintOptions(os, commas)[0] != Comma
  {
    if os != [] {
      assert PrintOptions(os, commas)[0] == OptionTokens(os[0])[0];
    }
  }

  /** Options are applied in the order written, whichever commas separate them. */
  lemma {:induction false} OptionsRoundTrip(c: TestConfig, os: seq<ConfigOption>, commas: seq<bool>)
    requires |commas| == |os|
    requires forall i :: 0 <= i < |os| ==> Writable(os[i])
    ensures ConfigFrom(c, PrintOptions(os, commas)) == Ok(ApplyAll(c, os))
    decreases |os|
  {
    if os != [] {
      var tail := PrintOptions(os[1..], commas[1..]);
      assert PrintOptions(os, commas) == OptionTokens(os[0]) + (OptComma(commas[0]) + tail);
      OptionRoundTrip(c, os[0], OptComma(commas[0]) + tail);
      PrintOptionsHead(os[1..], commas[1..]);
      SkipOptComma(commas[0], tail);
      OptionsRoundTrip(Apply(c, os[0]), os[1..], commas[1..]);
    }
  }

  /** Every plugin of every `plugins = [..]` option, in order. */
  function AllPlugins(os: seq<ConfigOption>): seq<Expr>
    decreases |os|
  {
    if os == [] then []
    else (if os[0].Plugins? then os[0].exprs else []) + AllPlugins(os[1..])
  }

  /** Repeated `plugins` options accumulate; `headless` is set by any
      `headless` option; with no `timeout` option the timeout is unchanged. */
  lemma {:induction false} ApplyAllMeaning(c: TestConfig, os: seq<ConfigOption>)
    ensures ApplyAll(c, os).plugins == c.plugins + AllPlugins(os)
    ensures ApplyAll(c, os).headless <==> c.headless || exists i :: 0 <= i < |os| && os[i].Headless?
    ensures (forall i :: 0 <= i < |os| ==> !os[i].Timeout?) ==> ApplyAll(c, os).timeoutMs == c.timeoutMs
    decreases |os|
  {
    if os != [] {
      ApplyAllMeaning(Apply(c, os[0]), os[1..]);
      assert c.plugins + (if os[0].Plugins? then os[0].exprs else []) + AllPlugins(os[1..])
             == c.plugins + AllPlugins(os);
      if exists i :: 0 <= i < |os[1..]| && os[1..][i].Headless? {
        var i :| 0 <= i < |os[1..]| && os[1..][i].Headless?;
        assert os[i + 1].Headless?;
      }
      if exists i :: 0 <= i < |os| && os[i].Headless? {
        var i :| 0 <= i < |os| && os[i].Headless?;
        if i > 0 {
          assert os[1..][i - 1].Headless?;
        }
      }
    }
  }

  /** The last `timeout` option wins. */
  lemma {:induction false} LastTimeoutWins(c: TestConfig, os: seq<ConfigOption>, ms: nat, after: seq<ConfigOption>)
    requires forall i :: 0 <= i < |after| ==> !after[i].Timeout?
    ensures ApplyAll(c, os + [Timeout(ms)] + after).timeoutMs == Some(ms)
    decreases |os|
  {
    if os == [] {
      assert [Timeout(ms)] + after == [Timeout(ms)] + after;
      assert ([] + [Timeout(ms)] + after)[1..] == after;
      ApplyAllMeaning(Apply(c, Timeout(ms)), after);
    } else {
      assert (os + [Timeout(ms)] + after)[1..] == os[1..] + [Timeout(ms)] + after;
      LastTimeoutWins(Apply(c, os[0]), os[1..], ms, after);
    }
  }

  // ---------------------------------------------------------------------------
  // Malformed arguments

  /** An option name the attribute does not know is refused, whatever follows it. */
  lemma UnknownOptionRejected(c: TestConfig, name: string, rest: seq<Token>)
    requires name != "headless" && name != "plugins" && name != "timeout"
    ensures ConfigFrom(c, [Ident(name)] + rest) == Err(UnknownConfigOption(name))
  {
    assert ([Ident(name)] + rest)[1..] == rest;
  }

  /** `plugins` and `timeout` need an `=` straight after them. */
  lemma MissingEqRejected(c: TestConfig, name: string, rest: seq<Token>)
    requires name == "plugins" || name == "timeout"
    requires rest == [] || rest[0] != Eq
    ensures ConfigFrom(c, [Ident(name)] + rest) == Err(ExpectedToken(Eq))
  {
    assert ([Ident(name)] + rest)[1..] == rest;
  }

  /** A timeout must be an integer literal, and one that fits a `u64`. */
  lemma TimeoutValueChecked(c: TestConfig, t: Token, rest: seq<Token>)
    ensures !(t.Atom? && t.expr.IntLit?) ==>
              ConfigFrom(c, [Ident("timeout"), Eq, t] + rest) == Err(ExpectedIntLit)
    ensures t.Atom? && t.expr.IntLit? && t.expr.digits >= U64Limit ==>
              ConfigFrom(c, [Ident("timeout"), Eq, t] + rest) == Err(IntOutOfRange)
  {
    var ts := [Ident("timeout"), Eq, t] + rest;
    assert ts[1..][1..] == [t] + rest;
  }

  /** A timeout that fits is taken as written. */
  lemma TimeoutAccepted(c: TestConfig, ms: nat, rest: seq<Token>)
    requires ms < U64Limit
    ensures ConfigFrom(c, [Ident("timeout"), Eq, Atom(IntLit(ms))] + rest)
            == ConfigFrom(c.(timeoutMs := Some(ms)), SkipComma(rest))
  {
    OptionRoundTrip(c, Timeout(ms), rest);
  }

  // ---------------------------------------------------------------------------
  // Generated code

  function PluginStmts(plugins: seq<Expr>): seq<Stmt>
    decreases |plugins|
  {
    if plugins == [] then [] else [AddPlugins(plugins[0])] + PluginStmts(plugins[1..])
  }

  /** `generate_setup`: a fresh app, `MinimalPlugins`, the configured plugins,
      and a default `Time` resource. */
  function GenerateSetup(c: TestConfig): seq<Stmt> {
    var plugins :=
      if c.plugins == [] then [AddPlugins(MinimalPlugins)]
      else [AddPlugins(MinimalPlugins)] + PluginStmts(c.plugins);
    [NewApp] + plugins + [InsertDefaultTime]
  }

  /** The plugins a statement sequence installs, in order. */
  function PluginsAdded(code: seq<Stmt>): seq<Expr>
    decreases |code|
  {
    if code == [] then []
    else (if code[0].AddPlugins? then [code[0].plugin] else []) + PluginsAdded(code[1..])
  }

  lemma {:induction false} PluginsAddedConcat(a: seq<Stmt>, b: seq<Stmt>)
    ensures PluginsAdded(a + b) == PluginsAdded(a) + PluginsAdded(b)
    decreases |a|
  {
    if a == [] {
      assert a + b == b;
    } else {
      var head := if a[0].AddPlugins? then [a[0].plugin] else [];
      assert (a + b)[1..] == a[1..] + b;
      PluginsAddedConcat(a[1..], b);
      Regroup(head, PluginsAdded(a[1..]), PluginsAdded(b));
    }
  }

  lemma {:induction false} PluginStmtsInstall(plugins: seq<Expr>)
    ensures PluginsAdded(PluginStmts(plugins)) == plugins
    ensures |PluginStmts(plugins)| == |plugins|
    decreases |plugins|
  {
    if plugins != [] {
      PluginStmtsInstall(plugins[1..]);
      PluginsAddedConcat([AddPlugins(plugins[0])], PluginStmts(plugins[1..]));
      assert [plugins[0]] + plugins[1..] == plugins;
    }
  }

  /** The set-up creates the app, installs `MinimalPlugins` and then every
      configured plugin in order, and ends by inserting the `Time` resource. */
  lemma SetupInstallsPlugins(c: TestConfig)
    ensures PluginsAdded(GenerateSetup(c)) == [MinimalPlugins] + c.plugins
    ensures |GenerateSetup(c)| == |c.plugins| + 3
    ensures GenerateSetup(c)[0] == NewApp && GenerateSetup(c)[|c.plugins| + 2] == InsertDefaultTime
  {
    PluginStmtsInstall(c.plugins);
    var middle := [AddPlugins(MinimalPlugins)] + PluginStmts(c.plugins);
    assert GenerateSetup(c) == [NewApp] + middle + [InsertDefaultTime];
    PluginsAddedConcat([NewApp] + middle, [InsertDefaultTime]);
    PluginsAddedConcat([NewApp], middle);
    PluginsAddedConcat([AddPlugins(MinimalPlugins)], PluginStmts(c.plugins));
  }

  /** `headless` is parsed but never read: it changes nothing that is generated. */
  lemma HeadlessIgnored(c: TestConfig)
    ensures GenerateSetup(c) == GenerateSetup(c.(headless := !c.headless))
    ensures GenerateTimeout(c) == GenerateTimeout(c.(headless := !c.headless))
  {
  }

  /** `generate_timeout`: nothing without a timeout, otherwise a single unused
      `Duration` binding; nothing enforces it. */
  function GenerateTimeout(c: TestConfig): (code: seq<Stmt>)
    ensures code == [] <==> c.timeoutMs.None?
    ensures c.timeoutMs.Some? ==> code == [TimeoutBinding(c.timeoutMs.value)]
    ensures CountUpdates(code) == 0 && CountChecks(code) == 0
  {
    if c.timeoutMs.Some? then [TimeoutBinding(c.timeoutMs.value)] else []
  }

  // ---------------------------------------------------------------------------
  // Choosing the wrapper

  /** A parameter of the annotated function: `self`, or `pattern: type`, each
      side kept as the text its tokens print to. */
  datatype FnArg = Receiver | Typed(pattern: string, ty: string)

  ghost predicate OccursAt(s: string, part: string, i: int) {
    0 <= i && i + |part| <= |s| && s[i..i + |part|] == part
  }

  /** `str::contains` */
  predicate Contains(s: string, part: string): (b: bool)
    ensures b <==> exists i :: OccursAt(s, part, i)
    decreases |s|
  {
    if |part| > |s| then false
    else if s[..|part|] == part then
      assert OccursAt(s, part, 0);
      true
    else
      ContainsShift(s, part);
      Contains(s[1..], part)
  }

  /** Past a mismatch at the front, the occurrences are those of the tail. */
  lemma ContainsShift(s: string, part: string)
    requires |part| <= |s| && s[..|part|] != part
    ensures (exists i :: OccursAt(s, part, i)) <==> (exists i :: OccursAt(s[1..], part, i))
  {
    if exists i :: OccursAt(s, part, i) {
      var i :| OccursAt(s, part, i);
      assert i != 0;
      assert s[1..][i - 1..i - 1 + |part|] == s[i..i + |part|];
      assert OccursAt(s[1..], part, i - 1);
    }
    if exists i :: OccursAt(s[1..], part, i) {
      var i :| OccursAt(s[1..], part, i);
      assert s[i + 1..i + 1 + |part|] == s[1..][i..i + |part|];
      assert OccursAt(s, part, i + 1);
    }
  }

  lemma ContainsAt(s: string, part: string, i: nat)
    requires OccursAt(s, part, i)
    ensures Contains(s, part)
  {
  }

  /** The text that `quote!(#pat_type.ty).to_string()` yields: the whole typed
      parameter, then the tokens `. ty`. */
  function QuotedArg(pattern: string, ty: string): string {
    pattern + " : " + ty + " . ty"
  }

  predicate MentionsApp(s: string) {
    Contains(s, "App") || Contains(s, "TestApp")
  }

  /** The `expects_app` test as written: it searches the quoted text of the
      whole parameter, so the parameter's name counts as well as its type. */
  function ExpectsAppAsWritten(args: seq<FnArg>): (b: bool)
    ensures b <==> exists k :: 0 <= k < |args| && args[k].Typed?
                     && MentionsApp(QuotedArg(args[k].pattern, args[k].ty))
    decreases |args|
  {
    if args == [] then false
    else (args[0].Typed? && MentionsApp(QuotedArg(args[0].pattern, args[0].ty)))
         || ExpectsAppAsWritten(args[1..])
  }

  /** The test as intended: some parameter's type mentions `App`. */
  function ExpectsApp(args: seq<FnArg>): (b: bool)
    ensures b <==> exists k :: 0 <= k < |args| && args[k].Typed? && MentionsApp(args[k].ty)
    decreases |args|
  {
    if args == [] then false
    else (args[0].Typed? && MentionsApp(args[0].ty)) || ExpectsApp(args[1..])
  }

  /** Searching for `TestApp` adds nothing to searching for `App`. */
  lemma TestAppRedundant(s: string)
    ensures MentionsApp(s) <==> Contains(s, "App")
  {
    if Contains(s, "TestApp") {
      var i :| OccursAt(s, "TestApp", i);
      assert s[i + 4..i + 7] == s[i..i + 7][4..7];
      ContainsAt(s, "App", i + 4);
    }
  }

  /** An `App` in the quoted parameter lies wholly inside the name or the type. */
  lemma QuotedOccurrence(pattern: string, ty: string, i: int)
    requires OccursAt(QuotedArg(pattern, ty), "App", i)
    ensures OccursAt(pattern, "App", i) || OccursAt(ty, "App", i - |pattern| - 3)
  {
    var s := QuotedArg(pattern, ty);
    var p := |pattern|;
    var t := |ty|;
    assert s[i] == 'A' && s[i + 1] == 'p' && s[i + 2] == 'p' by {
      assert s[i..i + 3] == "App";
    }
    assert forall j | p <= j < p + 3 :: s[j] == ' ' || s[j] == ':' by {
      assert s == pattern + " : " + ty + " . ty";
    }
    assert forall j | p + 3 + t <= j < |s| :: s[j] != 'A' && s[j] != 'p' by {
      assert s == pattern + " : " + ty + " . ty";
    }
    if i + 3 <= p {
      assert pattern[i..i + 3] == s[i..i + 3];
    } else if p + 3 <= i && i + 3 <= p + 3 + t {
      assert ty[i - p - 3..i - p] == s[i..i + 3];
    } else {
      assert false;
    }
  }

  /** `App` occurs in the quoted parameter exactly when it occurs in the name or
      in the type: the separators hold no letter of it. */
  lemma QuotedArgContains(pattern: string, ty: string)
    ensures Contains(QuotedArg(pattern, ty), "App") <==> Contains(pattern, "App") || Contains(ty, "App")
  {
    var s := QuotedArg(pattern, ty);
    var p := |pattern|;
    if Contains(pattern, "App") {
      assert Contains(s, "App") by {
        var i :| OccursAt(pattern, "App", i);
        assert s[i..i + 3] == pattern[i..i + 3] by {
          assert s == pattern + (" : " + ty + " . ty");
        }
        ContainsAt(s, "App", i);
      }
    }
    if Contains(ty, "App") {
      assert Contains(s, "App") by {
        var i :| OccursAt(ty, "App", i);
        assert s[p + 3 + i..p + 3 + i + 3] == ty[i..i + 3] by {
          assert s == (pattern + " : ") + ty + " . ty";
        }
        ContainsAt(s, "App", p + 3 + i);
      }
    }
    if Contains(s, "App") {
      var i :| OccursAt(s, "App", i);
      QuotedOccurrence(pattern, ty, i);
      if OccursAt(pattern, "App", i) {
        ContainsAt(pattern, "App", i);
      } else {
        ContainsAt(ty, "App", i - p - 3);
      }
    }
  }

  /** The written test says yes whenever the intended one does, and differs
      from it only on a parameter whose name mentions `App`. */
  lemma ExpectsAppCorrection(args: seq<FnArg>)
    ensures ExpectsAppAsWritten(args) <==>
              ExpectsApp(args) || exists k :: 0 <= k < |args| && args[k].Typed? && Contains(args[k].pattern, "App")
  {
    forall k | 0 <= k < |args| && args[k].Typed?
      ensures MentionsApp(QuotedArg(args[k].pattern, args[k].ty))
              <==> MentionsApp(args[k].ty) || Contains(args[k].pattern, "App")
    {
      TestAppRedundant(QuotedArg(args[k].pattern, args[k].ty));
      TestAppRedundant(args[k].ty);
      QuotedArgContains(args[k].pattern, args[k].ty);
    }
  }

  /** `fn test_score(myApp: u32)` gets the app-parameter wrapper although no
      parameter has an app type. */
  lemma NameMentioningAppMisread()
    ensures ExpectsAppAsWritten([Typed("myApp", "u32")])
    ensures !ExpectsApp([Typed("myApp", "u32")])
  {
    var s := QuotedArg("myApp", "u32");
    assert s[2..5] == "App";
    ContainsAt(s, "App", 2);
    TestAppRedundant("u32");
    assert !Contains("u32", "App") by {
      forall i ensures !OccursAt("u32", "App", i) {
        if 0 <= i && i + 3 <= 3 {
          assert "u32"[i] != 'A';
        }
      }
    }
  }

  // ---------------------------------------------------------------------------
  // The expansion

  /** The annotated function: its name, its parameters, its body (kept opaque). */
  datatype AnnotatedFn = AnnotatedFn(name: string, inputs: seq<FnArg>, body: seq<Token>)

  /** The generated `#[test]`: the timeout binding, the app built by the set-up
      block, and the original body, run either as a closure taking the app or
      inline beside it. */
  datatype BevyTest = BevyTest(name: string, timeout: seq<Stmt>, setup: seq<Stmt>, appParameter: bool, body: seq<Token>)

  /** `expand_bevy_test` */
  function ExpandBevyTest(c: TestConfig, f: AnnotatedFn): (t: BevyTest)
    ensures t.name == f.name && t.body == f.body
    ensures t.appParameter <==> exists k :: 0 <= k < |f.inputs| && f.inputs[k].Typed? && MentionsApp(f.inputs[k].ty)
    ensures PluginsAdded(t.setup) == [MinimalPlugins] + c.plugins
    ensures |t.timeout| <= 1 && CountUpdates(t.timeout + t.setup) == 0
    ensures t.timeout == GenerateTimeout(c) && t.setup == GenerateSetup(c)
  {
    SetupInstallsPlugins(c);
    CountUpdatesConcat(GenerateTimeout(c), GenerateSetup(c));
    SetupDoesNotUpdate(c);
    BevyTest(f.name, GenerateTimeout(c), GenerateSetup(c), ExpectsApp(f.inputs), f.body)
  }

  /** The wrapper never advances the app itself; only the test body does. */
  lemma SetupDoesNotUpdate(c: TestConfig)
    ensures CountUpdates(GenerateSetup(c)) == 0
  {
    var middle := [AddPlugins(MinimalPlugins)] + PluginStmts(c.plugins);
    assert GenerateSetup(c) == [NewApp] + middle + [InsertDefaultTime];
    CountUpdatesConcat([NewApp] + middle, [InsertDefaultTime]);
    CountUpdatesConcat([NewApp], middle);
    CountUpdatesConcat([AddPlugins(MinimalPlugins)], PluginStmts(c.plugins));
    PluginStmtsNoUpdate(c.plugins);
  }

  lemma {:induction false} PluginStmtsNoUpdate(plugins: seq<Expr>)
    ensures CountUpdates(PluginStmts(plugins)) == 0
    decreases |plugins|
  {
    if plugins != [] {
      PluginStmtsNoUpdate(plugins[1..]);
      CountUpdatesConcat([AddPlugins(plugins[0])], PluginStmts(plugins[1..]));
    }
  }

  /** From attribute arguments to generated test: the plugins written in the
      arguments are installed after `MinimalPlugins`, in the order written. */
  lemma ArgumentsToSetup(os: seq<ConfigOption>, commas: seq<bool>, f: AnnotatedFn)
    requires |commas| == |os|
    requires forall i :: 0 <= i < |os| ==> Writable(os[i])
    ensures ConfigFromArgs(PrintOptions(os, commas)).Ok?
    ensures PluginsAdded(ExpandBevyTest(ConfigFromArgs(PrintOptions(os, commas)).value, f).setup)
            == [MinimalPlugins] + AllPlugins(os)
  {
    OptionsRoundTrip(DefaultConfig, os, commas);
    ApplyAllMeaning(DefaultConfig, os);
    assert [] + AllPlugins(os) == AllPlugins(os);
  }
}
