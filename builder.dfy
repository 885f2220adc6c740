/** The build half of swirl/data_models.py: Macro.build (compile, validate,
    self-test), Package.build (dependency and macro dictionaries grown one
    insert at a time) and Environment.build, which grows the evaluator's
    builtin registry in place. Each imperative build is proved against a
    specification function; the properties are proved about the functions. */
module Builder {

  import opened Common
  import opened Errors
  import opened Models
  import opened Validator

  /** Why a build stopped: a SwirlError, or an exception from foreign code. */
  datatype BuildError = Rejected(error: SwirlError) | Crashed(fault: Fault)

  /** The random source of the self-test: roll(m, k) is the value
      random.randint(5, 10) returns for the k-th argument of m's trial call. */
  type Dice = (Macro, nat) -> int

  ghost predicate Fair(roll: Dice) {
    forall m, k :: 5 <= roll(m, k) <= 10
  }

  // ----------------------------------------------------------- macro build

  /** filter_defaults: the text before the first '=', untrimmed. */
  function FilterDefaults(v: string): (r: string)
    ensures |r| <= |v| && r == v[..|r|]
    ensures '=' !in r
    ensures |r| < |v| ==> v[|r|] == '='
  {
    if v == [] || v[0] == '=' then [] else [v[0]] + FilterDefaults(v[1..])
  }

  function Join(parts: seq<string>, sep: string): string {
    if |parts| == 0 then ""
    else if |parts| == 1 then parts[0]
    else parts[0] + sep + Join(parts[1..], sep)
  }

  /** The `"name": name` pairs of the generated names dictionary. */
  function NameBindings(vs: seq<string>): seq<string> {
    seq(|vs|, i requires 0 <= i < |vs| => "\"" + FilterDefaults(vs[i]) + "\": " + FilterDefaults(vs[i]))
  }

  /** The Python source handed to eval: a lambda over the declarations
      when there are variables, otherwise a direct evaluation of the
      formula. */
  function EvalSource(m: Macro): string {
    if m.variables != [] then
      "(lambda " + Join(m.variables, ", ") + ": simple_eval(\"" + m.formula + "\", names={"
      + Join(NameBindings(m.variables), ", ") + "}, functions=env))"
    else
      "simple_eval(f\"" + m.formula + "\", functions=env)"
  }

  function DigitChar(d: nat): char
    requires d < 10
  {
    ('0' as int + d) as char
  }

  function Digits(n: nat): string
    decreases n
  {
    if n < 10 then [DigitChar(n)] else Digits(n / 10) + [DigitChar(n % 10)]
  }

  /** str() of an integer. */
  function Decimal(n: int): string {
    if n < 0 then "-" + Digits(-n) else Digits(n)
  }

  /** The synthetic arguments: one roll per declared variable. */
  function Sample(m: Macro, roll: Dice): seq<int> {
    seq(|m.variables|, k requires 0 <= k < |m.variables| => roll(m, k))
  }

  /** The expression the self-test evaluates. */
  function TestExpression(m: Macro, roll: Dice): (r: string)
    ensures m.variables == [] ==> r == m.name
    ensures m.variables != [] ==>
      |r| >= |m.name| + 2 && r[..|m.name| + 1] == m.name + "(" && r[|r| - 1] == ')'
  {
    if m.variables != [] then
      var args := Sample(m, roll);
      m.name + "(" + Join(seq(|args|, i requires 0 <= i < |args| => Decimal(args[i])), ", ") + ")"
    else
      m.name
  }

  /** test_macro: evaluate the trial call in `scope` extended with the macro
      itself; a ZeroDivisionError is swallowed, any other error propagates. */
  function SelfTest(m: Macro, fn: Value, scope: Scope, ev: Evaluator, roll: Dice): (r: Result<(), BuildError>)
    ensures r.Err? <==> ev.run(TestExpression(m, roll), scope[m.name := Callable(fn)]) == Raised(OtherFault)
    ensures r.Err? ==> r.error == Crashed(OtherFault)
  {
    match ev.run(TestExpression(m, roll), scope[m.name := Callable(fn)])
    case Returned(_) => Ok(())
    case Raised(ZeroDivision) => Ok(())
    case Raised(OtherFault) => Err(Crashed(OtherFault))
  }

  /** Macro.build: the scope is `env | DEFAULT_PACKAGES`; the formula is
      compiled first, then the macro is validated, then self-tested. */
  function MacroBuild(m: Macro, env: Scope, defaults: Scope, ev: Evaluator, roll: Dice): (r: Result<Value, BuildError>)
    ensures r.Ok? ==> Validate(m).Pass? && ev.compile(EvalSource(m), env + defaults) == Returned(r.value)
    ensures r.Err? && r.error.Rejected? ==>
      ev.compile(EvalSource(m), env + defaults).Returned? && Validate(m) == Fail(r.error.error)
    ensures r.Err? && r.error.Crashed? ==>
      ev.compile(EvalSource(m), env + defaults) == Raised(r.error.fault)
      || (Validate(m).Pass? && r.error.fault == OtherFault)
  {
    var scope := env + defaults;
    match ev.compile(EvalSource(m), scope)
    case Raised(f) => Err(Crashed(f))
    case Returned(fn) =>
      match Validate(m)
      case Fail(e) => Err(Rejected(e))
      case Pass =>
        match SelfTest(m, fn, scope, ev, roll)
        case Err(e) => Err(e)
        case Ok(_) => Ok(fn)
  }

  /** Macro.build as the source runs it. */
  method BuildMacro(m: Macro, env: Scope, defaults: Scope, ev: Evaluator, roll: Dice) returns (r: Result<Value, BuildError>)
    ensures r == MacroBuild(m, env, defaults, ev, roll)
  {
    var scope := env + defaults;
    var compiled := ev.compile(EvalSource(m), scope);
    if compiled.Raised? {
      return Err(Crashed(compiled.fault));
    }
    var check := ValidateMacro(m);
    if check.Fail? {
      return Err(Rejected(check.error));
    }
    var trial := SelfTest(m, compiled.value, scope, ev, roll);
    if trial.Err? {
      return Err(trial.error);
    }
    r := Ok(compiled.value);
  }

  // --------------------------------------------------------- package build

  /** A dictionary grown one name at a time, with its insertion order (what
      `values()` of a Python dict yields). */
  datatype Collected<T> = Collected(byName: map<string, T>, order: seq<T>)

  /** The loop shape both dictionaries of Package.build share, from index i
      on: a name already present raises NameAlreadyUsedError, a failed build
      propagates, anything else is inserted. `builds[k]` is what building the
      k-th item yields; the builds are pure, so the ones after a stop are
      never looked at. */
  function Collect<T>(names: seq<string>, builds: seq<Result<T, BuildError>>, i: nat, acc: Collected<T>): Result<Collected<T>, BuildError>
    requires |names| == |builds| && i <= |names|
    decreases |names| - i
  {
    if i == |names| then Ok(acc)
    else if names[i] in acc.byName then Err(Rejected(NameAlreadyUsedError(names[i])))
    else
      match builds[i]
      case Err(e) => Err(e)
      case Ok(v) => Collect(names, builds, i + 1, Collected(acc.byName[names[i] := v], acc.order + [v]))
  }

  function PackageNames(ps: seq<Package>): (r: seq<string>)
    ensures |r| == |ps| && forall k :: 0 <= k < |ps| ==> r[k] == ps[k].name
  {
    seq(|ps|, k requires 0 <= k < |ps| => ps[k].name)
  }

  function MacroNames(ms: seq<Macro>): (r: seq<string>)
    ensures |r| == |ms| && forall k :: 0 <= k < |ms| ==> r[k] == ms[k].name
  {
    seq(|ms|, k requires 0 <= k < |ms| => ms[k].name)
  }

  /** The built dependencies, seen by the own macros under their names. */
  function DepsScope(byName: map<string, Namespace>): Scope {
    map n | n in byName :: Module(byName[n])
  }

  /** What building each dependency of `p` yields. */
  function DependencyBuilds(p: Package, defaults: Scope, ev: Evaluator, roll: Dice): (r: seq<Result<Namespace, BuildError>>)
    ensures |r| == |p.dependencies|
    decreases p, 0
  {
    seq(|p.dependencies|, k requires 0 <= k < |p.dependencies| => PackageBuild(p.dependencies[k], defaults, ev, roll))
  }

  /** What building each own macro of `p` in `env | defaults` yields. */
  function MemberBuilds(ms: seq<Macro>, env: Scope, defaults: Scope, ev: Evaluator, roll: Dice): (r: seq<Result<Value, BuildError>>)
    ensures |r| == |ms|
  {
    seq(|ms|, k requires 0 <= k < |ms| => MacroBuild(ms[k], env, defaults, ev, roll))
  }

  /** Package.build: the dependencies, each built afresh, then the own
      macros against the dependency dictionary; the package is named after
      `p`, has the built dependencies as bases in order and one member per
      own macro. */
  function PackageBuild(p: Package, defaults: Scope, ev: Evaluator, roll: Dice): Result<Namespace, BuildError>
    decreases p, 1
  {
    match Collect(PackageNames(p.dependencies), DependencyBuilds(p, defaults, ev, roll), 0, Collected(map[], []))
    case Err(e) => Err(e)
    case Ok(deps) =>
      var env := DepsScope(deps.byName);
      match Collect(MacroNames(p.macros), MemberBuilds(p.macros, env, defaults, ev, roll), 0, Collected(map[], []))
      case Err(e) => Err(e)
      case Ok(members) => Ok(Namespace(p.name, deps.order, members.byName))
  }

  /** Package.build as the source runs it: two loops inserting into local
      dictionaries, recursing into each dependency. */
  method BuildPackage(p: Package, defaults: Scope, ev: Evaluator, roll: Dice) returns (r: Result<Namespace, BuildError>)
    ensures r == PackageBuild(p, defaults, ev, roll)
    decreases p
  {
    ghost var names := PackageNames(p.dependencies);
    ghost var builds := DependencyBuilds(p, defaults, ev, roll);
    var depsDict: map<string, Namespace> := map[];
    var bases: seq<Namespace> := [];
    var i := 0;
    while i < |p.dependencies|
      invariant 0 <= i <= |p.dependencies|
      invariant Collect(names, builds, 0, Collected(map[], [])) == Collect(names, builds, i, Collected(depsDict, bases))
    {
      var dep := p.dependencies[i];
      if dep.name in depsDict {
        return Err(Rejected(NameAlreadyUsedError(dep.name)));
      }
      var built := BuildPackage(dep, defaults, ev, roll);
      assert built == builds[i];
      if built.Err? {
        return Err(built.error);
      }
      depsDict := depsDict[dep.name := built.value];
      bases := bases + [built.value];
      i := i + 1;
    }
    var env := DepsScope(depsDict);
    ghost var macNames := MacroNames(p.macros);
    ghost var macBuilds := MemberBuilds(p.macros, env, defaults, ev, roll);
    var macDict: map<string, Value> := map[];
    ghost var macOrder: seq<Value> := [];
    var j := 0;
    while j < |p.macros|
      invariant 0 <= j <= |p.macros|
      invariant Collect(macNames, macBuilds, 0, Collected(map[], [])) == Collect(macNames, macBuilds, j, Collected(macDict, macOrder))
    {
      var mac := p.macros[j];
      if mac.name in macDict {
        return Err(Rejected(NameAlreadyUsedError(mac.name)));
      }
      var built := BuildMacro(mac, env, defaults, ev, roll);
      assert built == macBuilds[j];
      if built.Err? {
        return Err(built.error);
      }
      macDict := macDict[mac.name := built.value];
      macOrder := macOrder + [built.value];
      j := j + 1;
    }
    r := Ok(Namespace(p.name, bases, macDict));
  }

  // ----------------------------------------------------- environment build

  /** One insertion of Environment.build: a package or a top-level macro. */
  datatype Item = PackageItem(p: Package) | MacroItem(m: Macro) {
    function Name(): string {
      match this
      case PackageItem(p) => p.name
      case MacroItem(m) => m.name
    }
  }

  /** The insertions in the order the source makes them: packages, then macros. */
  function Items(env: Environment): seq<Item> {
    seq(|env.packages|, i requires 0 <= i < |env.packages| => PackageItem(env.packages[i]))
    + seq(|env.macros|, i requires 0 <= i < |env.macros| => MacroItem(env.macros[i]))
  }

  function Names(items: seq<Item>): seq<string> {
    seq(|items|, i requires 0 <= i < |items| => items[i].Name())
  }

  /** A package is built against the registry as it stands; a top-level
      macro gets the registry as `env` and as the defaults. */
  function BuildItem(it: Item, reg: Scope, ev: Evaluator, roll: Dice): Result<Entry, BuildError> {
    match it
    case PackageItem(p) =>
      (match PackageBuild(p, reg, ev, roll)
       case Err(e) => Err(e)
       case Ok(ns) => Ok(Module(ns)))
    case MacroItem(m) =>
      (match MacroBuild(m, reg, reg, ev, roll)
       case Err(e) => Err(e)
       case Ok(fn) => Ok(Callable(fn)))
  }

  /** What Environment.build leaves behind: the registry (updated even when
      the build raises) and what it returns or raises. */
  datatype EnvOutcome = EnvOutcome(registry: Scope, result: Result<Scope, BuildError>)

  /** The insertion loop from index i on. */
  function EnvFold(items: seq<Item>, i: nat, reg: Scope, ev: Evaluator, roll: Dice): EnvOutcome
    requires i <= |items|
    decreases |items| - i
  {
    if i == |items| then EnvOutcome(reg, Ok(reg))
    else
      var name := items[i].Name();
      if name in reg then EnvOutcome(reg, Err(Rejected(NameAlreadyUsedError(name))))
      else
        match BuildItem(items[i], reg, ev, roll)
        case Err(e) => EnvOutcome(reg, Err(e))
        case Ok(x) => EnvFold(items, i + 1, reg[name := x], ev, roll)
  }

  function EnvBuild(env: Environment, reg: Scope, ev: Evaluator, roll: Dice): EnvOutcome {
    EnvFold(Items(env), 0, reg, ev, roll)
  }

  /** evl.DEFAULT_PACKAGES: the evaluator's builtin names, which
      Environment.build uses as its own result dictionary. */
  class Registry {
    var entries: Scope

    constructor (builtins: Scope)
      ensures entries == builtins
    {
      entries := builtins;
    }

    /** Environment.build: insert every package, then every macro, refusing
        a name already present. The result is the registry itself. */
    method Build(env: Environment, ev: Evaluator, roll: Dice) returns (r: Result<Scope, BuildError>)
      modifies this
      ensures EnvOutcome(entries, r) == EnvBuild(env, old(entries), ev, roll)
    {
      ghost var items := Items(env);
      var i := 0;
      while i < |env.packages|
        invariant 0 <= i <= |env.packages|
        invariant EnvFold(items, 0, old(entries), ev, roll) == EnvFold(items, i, entries, ev, roll)
      {
        var p := env.packages[i];
        assert items[i] == PackageItem(p);
        if p.name in entries {
          return Err(Rejected(NameAlreadyUsedError(p.name)));
        }
        var built := BuildPackage(p, entries, ev, roll);
        if built.Err? {
          return Err(built.error);
        }
        entries := entries[p.name := Module(built.value)];
        i := i + 1;
      }
      var j := 0;
      while j < |env.macros|
        invariant 0 <= j <= |env.macros|
        invariant EnvFold(items, 0, old(entries), ev, roll) == EnvFold(items, |env.packages| + j, entries, ev, roll)
      {
        var m := env.macros[j];
        assert items[|env.packages| + j] == MacroItem(m);
        if m.name in entries {
          return Err(Rejected(NameAlreadyUsedError(m.name)));
        }
        var built := BuildMacro(m, entries, entries, ev, roll);
        if built.Err? {
          return Err(built.error);
        }
        entries := entries[m.name := Callable(built.value)];
        j := j + 1;
      }
      r := Ok(entries);
    }
  }
}
