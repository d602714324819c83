/** The output side: the Rust test function that each macro emits, as a
    sequence of statements. Every constructor stands for one fixed `quote!`
    template; the expressions spliced into it are kept as `Expr` values. */
module TestCode {
  import opened Tokens

  datatype Stmt =
    | NewApp                                     // let mut app = App::new();
    | AddPlugins(plugin: Expr)                   // app.add_plugins(P);
    | InsertResource(resource: Expr)             // app.insert_resource(R);
    | AddEvent(event: Expr)                      // app.add_event::<E>();
    | AddSystem(system: Expr)                    // app.add_systems(Update, S);
    | AddSystemPiped(system: Expr, pipe: Expr)   // app.add_systems(Update, S.pipe(P));
    | SpawnStruct(binding: string, typeName: string, fields: seq<(string, Expr)>)
                                                 // let v = app.world_mut().spawn(T { f: e, .., ..Default::default() }).id();
    | SpawnBundle(binding: string, components: Expr)
                                                 // let v = app.world_mut().spawn(C).id();
    | SendEvent(event: Expr)                     // app.world_mut().send_event(E);
    | UpdateTimes(count: nat)                    // for _ in 0..N { app.update(); }
    | UpdateForSeconds(seconds: real)            // let frames = (S * 60.0) as usize; for _ in 0..frames { app.update(); }
    | Update                                     // app.update();
    | Assert(condition: Expr)                    // assert!(C, "Assertion failed: {}", stringify!(C));
    | AssertEventsNonEmpty(eventType: string)    // assert!(!app.world().resource::<Events<T>>().is_empty(), ..);
    | PrintSnapshot(value: Expr)                 // let snapshot_value = V; println!("Snapshot: {:?}", snapshot_value);
    | LetMutComponent(initial: Expr)             // let mut component = G;
    | CallMethod(methodName: string, args: Option<Expr>)
                                                 // component.m(A); or component.m();
    | AssertEqStep(expected: Expr, step: nat)    // assert_eq!(component, X, "After operation {}: ..", N);
    | InsertDefaultTime                          // app.insert_resource(bevy::time::Time::default());
    | TimeoutBinding(millis: nat)                // let _timeout = std::time::Duration::from_millis(N);

  /** A `#[test] fn name() { body }` item. */
  datatype TestFn = TestFn(name: string, body: seq<Stmt>)

  /** `app.add_plugins(MinimalPlugins)`, the second statement of every harness test. */
  const MinimalPlugins: Expr := Path("MinimalPlugins")

  /** `let mut app = App::new(); app.add_plugins(MinimalPlugins);`, the start
      of every test that the scenario and system macros generate. */
  const Harness: seq<Stmt> := [NewApp, AddPlugins(MinimalPlugins)]

  /** Where a statement belongs in a generated test: creating the harness (0),
      setting up state (1), driving it (2), checking the outcome (3). */
  function Phase(s: Stmt): nat {
    match s
    case NewApp => 0
    case AddPlugins(_) => 0
    case SendEvent(_) => 2
    case UpdateTimes(_) => 2
    case UpdateForSeconds(_) => 2
    case Update => 2
    case CallMethod(_, _) => 2
    case Assert(_) => 3
    case AssertEventsNonEmpty(_) => 3
    case PrintSnapshot(_) => 3
    case AssertEqStep(_, _) => 3
    case _ => 1
  }

  /** A statement that can fail the generated test. */
  predicate IsCheck(s: Stmt) {
    s.Assert? || s.AssertEventsNonEmpty? || s.AssertEqStep?
  }

  /** Number of statements that can fail the test. */
  function CountChecks(code: seq<Stmt>): nat {
    if code == [] then 0 else (if IsCheck(code[0]) then 1 else 0) + CountChecks(code[1..])
  }

  lemma {:induction false} CountChecksConcat(a: seq<Stmt>, b: seq<Stmt>)
    ensures CountChecks(a + b) == CountChecks(a) + CountChecks(b)
  {
    if a == [] {
      assert a + b == b;
    } else {
      assert (a + b)[1..] == a[1..] + b;
      CountChecksConcat(a[1..], b);
    }
  }

  ghost predicate AllInPhase(code: seq<Stmt>, p: nat) {
    forall i :: 0 <= i < |code| ==> Phase(code[i]) == p
  }

  ghost predicate PhasesOrdered(code: seq<Stmt>) {
    forall i, j :: 0 <= i < j < |code| ==> Phase(code[i]) <= Phase(code[j])
  }

  /** Four blocks, each of one phase, laid out in the order harness,
      setup, stimulus, checks, give a test whose phases never go back. */
  lemma FourPhases(a: seq<Stmt>, b: seq<Stmt>, c: seq<Stmt>, d: seq<Stmt>)
    requires AllInPhase(a, 0) && AllInPhase(b, 1) && AllInPhase(c, 2) && AllInPhase(d, 3)
    ensures PhasesOrdered(a + b + c + d)
  {
    var code := a + b + c + d;
    forall i, j | 0 <= i < j < |code|
      ensures Phase(code[i]) <= Phase(code[j])
    {
      assert Phase(code[i]) == PhaseAt(a, b, c, d, i);
      assert Phase(code[j]) == PhaseAt(a, b, c, d, j);
    }
  }

  function PhaseAt(a: seq<Stmt>, b: seq<Stmt>, c: seq<Stmt>, d: seq<Stmt>, k: nat): nat {
    if k < |a| then 0 else if k < |a| + |b| then 1 else if k < |a| + |b| + |c| then 2 else 3
  }

  /** Number of `app.update()` calls written directly (not inside a loop). */
  function CountUpdates(code: seq<Stmt>): nat {
    if code == [] then 0 else (if code[0] == Update then 1 else 0) + CountUpdates(code[1..])
  }

  lemma {:induction false} CountUpdatesConcat(a: seq<Stmt>, b: seq<Stmt>)
    ensures CountUpdates(a + b) == CountUpdates(a) + CountUpdates(b)
  {
    if a != [] {
      assert (a + b)[1..] == a[1..] + b;
      CountUpdatesConcat(a[1..], b);
    } else {
      assert a + b == b;
    }
  }

  lemma {:induction false} NoUpdatesOutsideStimulus(code: seq<Stmt>, p: nat)
    requires AllInPhase(code, p) && p != 2
    ensures CountUpdates(code) == 0
  {
    if code != [] {
      assert AllInPhase(code[1..], p) by {
        forall i | 0 <= i < |code[1..]| ensures Phase(code[1..][i]) == p {
          assert code[1..][i] == code[i + 1];
        }
      }
      NoUpdatesOutsideStimulus(code[1..], p);
    }
  }

  /** The names a block of generated code binds, in the order it binds them. */
  function Bindings(code: seq<Stmt>): seq<string> {
    if code == [] then []
    else (if code[0].SpawnStruct? || code[0].SpawnBundle? then [code[0].binding] else []) + Bindings(code[1..])
  }

  lemma {:induction false} BindingsConcat(a: seq<Stmt>, b: seq<Stmt>)
    ensures Bindings(a + b) == Bindings(a) + Bindings(b)
  {
    if a == [] {
      assert a + b == b;
    } else {
      var ab := a + b;
      var head := if a[0].SpawnStruct? || a[0].SpawnBundle? then [a[0].binding] else [];
      assert ab[0] == a[0] && ab[1..] == a[1..] + b;
      assert Bindings(ab) == head + Bindings(a[1..] + b);
      BindingsConcat(a[1..], b);
      Regroup(head, Bindings(a[1..]), Bindings(b));
    }
  }

  lemma {:induction false} NoBindings(code: seq<Stmt>)
    requires forall i :: 0 <= i < |code| ==> !code[i].SpawnStruct? && !code[i].SpawnBundle?
    ensures Bindings(code) == []
  {
    if code != [] {
      NoBindings(code[1..]);
    }
  }

  // ---------------------------------------------------------------------------
  // Positional entity handles: `quote::format_ident!("entity_{}", idx)`.

  function DigitChar(d: nat): (c: char)
    requires d < 10
  {
    (48 + d) as char
  }

  /** The decimal spelling of a number, as `{}` formats a `usize`. */
  function Decimal(n: nat): (s: string)
    ensures |s| >= 1
    decreases n
  {
    if n < 10 then [DigitChar(n)] else Decimal(n / 10) + [DigitChar(n % 10)]
  }

  /** Reads a string of decimal digits back as a number. */
  function DecimalValue(s: string): nat
    decreases |s|
  {
    if s == [] then 0
    else DecimalValue(s[..|s| - 1]) * 10 + ((s[|s| - 1] as int - 48) % 10)
  }

  lemma {:induction false} DecimalRoundTrip(n: nat)
    ensures DecimalValue(Decimal(n)) == n
    decreases n
  {
    var s := Decimal(n);
    if n < 10 {
      assert s[..|s| - 1] == [];
    } else {
      assert s[..|s| - 1] == Decimal(n / 10);
      DecimalRoundTrip(n / 10);
    }
  }

  function EntityVar(idx: nat): string {
    "entity_" + Decimal(idx)
  }

  /** Distinct positions get distinct handles, so no spawned entity shadows another. */
  lemma EntityVarInjective(i: nat, j: nat)
    ensures EntityVar(i) == EntityVar(j) <==> i == j
  {
    if EntityVar(i) == EntityVar(j) {
      assert Decimal(i) == EntityVar(i)[7..];
      assert Decimal(j) == EntityVar(j)[7..];
      DecimalRoundTrip(i);
      DecimalRoundTrip(j);
    }
  }
}
