/** What the build functions of module Builder guarantee: the self-test
    arguments, the order of the checks in Macro.build, the shape of a built
    package, and the way Environment.build grows (and pollutes) the
    builtin registry. */
module BuildFacts {

  import opened Common
  import opened Errors
  import opened Models
  import opened Grammar
  import opened Validator
  import opened Builder

  // ------------------------------------------------------------ self-test

  /** One argument per declared variable, each between 5 and 10. */
  lemma SampleInRange(m: Macro, roll: Dice)
    requires Fair(roll)
    ensures |Sample(m, roll)| == |m.variables|
    ensures forall k :: 0 <= k < |m.variables| ==> 5 <= Sample(m, roll)[k] <= 10
  {
  }

  /** A macro `f(a, b)` whose rolls are 5 and 10 is tried as "f(5, 10)";
      a macro without variables is tried by its bare name. */
  lemma TrialCallText()
    ensures var m := Macro("", "", "f", ["a", "b"], "a+b", None);
      TestExpression(m, (m: Macro, k: nat) => if k == 0 then 5 else 10) == "f(5, 10)"
    ensures TestExpression(Macro("", "", "pi", [], "3", None), (m: Macro, k: nat) => 7) == "pi"
  {
    var m := Macro("", "", "f", ["a", "b"], "a+b", None);
    var roll := (m: Macro, k: nat) => if k == 0 then 5 else 10;
    var args := Sample(m, roll);
    assert args == [5, 10];
    assert Digits(10) == "10" by {
      assert Digits(1) == "1";
    }
    var texts := seq(|args|, i requires 0 <= i < |args| => Decimal(args[i]));
    assert texts == ["5", "10"];
    assert Join(texts, ", ") == "5, 10" by {
      assert texts[1..] == ["10"];
    }
  }

  // ----------------------------------------------------------- macro build

  /** Macro.build succeeds exactly when the source compiles in
      `env | defaults`, the macro validates, and the trial call raises
      nothing but (at most) a ZeroDivisionError; the result is the compiled
      value. */
  lemma MacroBuildOkIff(m: Macro, env: Scope, defaults: Scope, ev: Evaluator, roll: Dice)
    ensures var scope := env + defaults;
      var c := ev.compile(EvalSource(m), scope);
      MacroBuild(m, env, defaults, ev, roll).Ok? <==>
        c.Returned? && Validate(m).Pass?
        && ev.run(TestExpression(m, roll), scope[m.name := Callable(c.value)]) != Raised(OtherFault)
    ensures var c := ev.compile(EvalSource(m), env + defaults);
      MacroBuild(m, env, defaults, ev, roll).Ok? ==> MacroBuild(m, env, defaults, ev, roll).value == c.value
  {
  }

  /** The formula is compiled before anything is validated: a compile error
      is what the build raises, whatever the name and the variables. */
  lemma CompileBeforeValidate(m: Macro, env: Scope, defaults: Scope, ev: Evaluator, roll: Dice, f: Fault)
    requires ev.compile(EvalSource(m), env + defaults) == Raised(f)
    ensures MacroBuild(m, env, defaults, ev, roll) == Err(Crashed(f))
  {
  }

  /** Once the formula compiles, a validation failure is raised before the
      self-test runs. */
  lemma InvalidMacroRejected(m: Macro, env: Scope, defaults: Scope, ev: Evaluator, roll: Dice, e: SwirlError)
    requires ev.compile(EvalSource(m), env + defaults).Returned?
    requires Validate(m) == Fail(e)
    ensures MacroBuild(m, env, defaults, ev, roll) == Err(Rejected(e))
  {
  }

  /** A built macro has a valid name and valid variable declarations, each
      at most 30 characters long once stripped. */
  lemma BuiltMacroIsValid(m: Macro, env: Scope, defaults: Scope, ev: Evaluator, roll: Dice)
    requires MacroBuild(m, env, defaults, ev, roll).Ok?
    ensures IsValidName(m.name).Pass?
    ensures forall i :: 0 <= i < |m.variables| ==> CheckVariable(m.variables[i]).Pass?
    ensures |m.name| <= MaxLength
    ensures forall i :: 0 <= i < |m.variables| ==> |Strip(m.variables[i])| <= MaxLength
  {
    ValidateIff(m);
    AcceptedLengths(m);
  }

  /** Names in `defaults` shadow the macro's own environment: what `env`
      binds to a builtin name cannot change the build. */
  lemma BuiltinWins(m: Macro, env: Scope, defaults: Scope, ev: Evaluator, roll: Dice, k: string, e: Entry)
    requires k in defaults
    ensures MacroBuild(m, env[k := e], defaults, ev, roll) == MacroBuild(m, env, defaults, ev, roll)
  {
    assert env[k := e] + defaults == env + defaults;
  }

  /** filter_defaults keeps exactly the declared name of "n=2" and of a
      declaration without default. */
  lemma FilterDefaultsExamples()
    ensures FilterDefaults("n=2") == "n"
    ensures FilterDefaults("n = 2") == "n "
    ensures FilterDefaults("rate") == "rate"
  {
    assert FilterDefaults("=2") == "";
    assert FilterDefaults(" = 2") == " ";
  }

  // --------------------------------------------------------- package build

  predicate Distinct(names: seq<string>) {
    forall i, j :: 0 <= i < j < |names| ==> names[i] != names[j]
  }

  /** The names from index i on. */
  lemma SetFrom(names: seq<string>, i: nat)
    requires i < |names|
    ensures (set k | i <= k < |names| :: names[k]) == {names[i]} + (set k | i + 1 <= k < |names| :: names[k])
  {
  }

  /** The insertion loop from i on succeeds exactly when every remaining
      build succeeds, no remaining name is already present and no two
      remaining names coincide; it then appends the builds in order and maps
      each name to its build, leaving earlier entries alone. */
  lemma CollectFacts<T>(names: seq<string>, builds: seq<Result<T, BuildError>>, i: nat, acc: Collected<T>)
    requires |names| == |builds| && i <= |names|
    ensures var r := Collect(names, builds, i, acc);
      r.Ok? <==>
        (forall k :: i <= k < |names| ==> builds[k].Ok? && names[k] !in acc.byName)
        && (forall k, l :: i <= l < k < |names| ==> names[l] != names[k])
    ensures var r := Collect(names, builds, i, acc);
      r.Ok? ==>
        |r.value.order| == |acc.order| + |names| - i
        && r.value.order[..|acc.order|] == acc.order
        && (forall k :: i <= k < |names| ==> r.value.order[|acc.order| + k - i] == builds[k].value)
        && r.value.byName.Keys == acc.byName.Keys + (set k | i <= k < |names| :: names[k])
        && (forall x :: x in acc.byName ==> r.value.byName[x] == acc.byName[x])
        && (forall k :: i <= k < |names| ==> r.value.byName[names[k]] == builds[k].value)
  {
    CollectOkIff(names, builds, i, acc);
    CollectShape(names, builds, i, acc);
  }

  /** When the loop succeeds, every remaining build succeeded and the
      remaining names were new and distinct; and conversely. */
  lemma {:induction false} CollectOkIff<T>(names: seq<string>, builds: seq<Result<T, BuildError>>, i: nat, acc: Collected<T>)
    requires |names| == |builds| && i <= |names|
    ensures Collect(names, builds, i, acc).Ok? <==>
        (forall k :: i <= k < |names| ==> builds[k].Ok? && names[k] !in acc.byName)
        && (forall k, l :: i <= l < k < |names| ==> names[l] != names[k])
    decreases |names| - i
  {
    if i < |names| && names[i] !in acc.byName && builds[i].Ok? {
      var v := builds[i].value;
      var acc' := Collected(acc.byName[names[i] := v], acc.order + [v]);
      CollectOkIff(names, builds, i + 1, acc');
    }
  }

  /** A successful loop appends the builds in order and maps each name to
      its build, leaving earlier entries alone. */
  lemma CollectShape<T>(names: seq<string>, builds: seq<Result<T, BuildError>>, i: nat, acc: Collected<T>)
    requires |names| == |builds| && i <= |names|
    ensures var r := Collect(names, builds, i, acc);
      r.Ok? ==>
        |r.value.order| == |acc.order| + |names| - i
        && r.value.order[..|acc.order|] == acc.order
        && (forall k :: i <= k < |names| ==> builds[k] == Ok(r.value.order[|acc.order| + k - i]))
        && r.value.byName.Keys == acc.byName.Keys + (set k | i <= k < |names| :: names[k])
        && (forall x :: x in acc.byName ==> r.value.byName[x] == acc.byName[x])
        && (forall k :: i <= k < |names| ==> builds[k] == Ok(r.value.byName[names[k]]))
  {
    CollectOrder(names, builds, i, acc);
    CollectMap(names, builds, i, acc);
  }

  /** A successful loop appends the remaining builds, in order. */
  lemma {:induction false} CollectOrder<T>(names: seq<string>, builds: seq<Result<T, BuildError>>, i: nat, acc: Collected<T>)
    requires |names| == |builds| && i <= |names|
    ensures var r := Collect(names, builds, i, acc);
      r.Ok? ==>
        |r.value.order| == |acc.order| + |names| - i
        && r.value.order[..|acc.order|] == acc.order
        && (forall k :: i <= k < |names| ==> builds[k] == Ok(r.value.order[|acc.order| + k - i]))
    decreases |names| - i
  {
    if i < |names| && names[i] !in acc.byName && builds[i].Ok? {
      var v := builds[i].value;
      var acc' := Collected(acc.byName[names[i] := v], acc.order + [v]);
      CollectOrder(names, builds, i + 1, acc');
      var r := Collect(names, builds, i, acc);
      if r.Ok? {
        assert r.value.order[..|acc.order|] == acc'.order[..|acc.order|];
      }
    }
  }

  /** A successful loop maps each remaining name to its build and leaves
      earlier entries alone. */
  lemma {:induction false} CollectMap<T>(names: seq<string>, builds: seq<Result<T, BuildError>>, i: nat, acc: Collected<T>)
    requires |names| == |builds| && i <= |names|
    ensures var r := Collect(names, builds, i, acc);
      r.Ok? ==>
        r.value.byName.Keys == acc.byName.Keys + (set k | i <= k < |names| :: names[k])
        && (forall x :: x in acc.byName ==> r.value.byName[x] == acc.byName[x])
        && (forall k :: i <= k < |names| ==> builds[k] == Ok(r.value.byName[names[k]]))
    decreases |names| - i
  {
    if i < |names| && names[i] !in acc.byName && builds[i].Ok? {
      var v := builds[i].value;
      var acc' := Collected(acc.byName[names[i] := v], acc.order + [v]);
      CollectMap(names, builds, i + 1, acc');
      if Collect(names, builds, i, acc).Ok? {
        SetFrom(names, i);
      }
    }
  }

  /** The first name that repeats an earlier one (or one already present) is
      what the loop raises, once the builds before it succeeded. */
  lemma {:induction false} CollectRepeated<T>(names: seq<string>, builds: seq<Result<T, BuildError>>, i: nat, j: nat, acc: Collected<T>)
    requires |names| == |builds| && i <= j < |names|
    requires forall k :: i <= k < j ==> builds[k].Ok? && names[k] !in acc.byName
    requires forall k, l :: i <= l < k < j ==> names[l] != names[k]
    requires names[j] in acc.byName || exists l :: i <= l < j && names[l] == names[j]
    ensures Collect(names, builds, i, acc) == Err(Rejected(NameAlreadyUsedError(names[j])))
    decreases j - i
  {
    if i < j {
      var v := builds[i].value;
      CollectRepeated(names, builds, i + 1, j, Collected(acc.byName[names[i] := v], acc.order + [v]));
    }
  }

  /** The scope the own macros of `p` are built in, once its dependencies built. */
  function DependencyScope(p: Package, defaults: Scope, ev: Evaluator, roll: Dice): Scope {
    match Collect(PackageNames(p.dependencies), DependencyBuilds(p, defaults, ev, roll), 0, Collected(map[], []))
    case Ok(d) => DepsScope(d.byName)
    case Err(_) => map[]
  }

  /** Package.build succeeds exactly when every dependency builds, no two
      dependencies share a name, no two own macros share a name, and every
      own macro builds against the dependencies. Nothing stops an own macro
      from sharing a dependency's name. */
  lemma PackageBuildOkIff(p: Package, defaults: Scope, ev: Evaluator, roll: Dice)
    ensures PackageBuild(p, defaults, ev, roll).Ok? <==>
      (forall k :: 0 <= k < |p.dependencies| ==> PackageBuild(p.dependencies[k], defaults, ev, roll).Ok?)
      && Distinct(PackageNames(p.dependencies))
      && Distinct(MacroNames(p.macros))
      && (forall k :: 0 <= k < |p.macros| ==>
            MacroBuild(p.macros[k], DependencyScope(p, defaults, ev, roll), defaults, ev, roll).Ok?)
  {
    DependenciesOkIff(p, defaults, ev, roll);
    MembersOkIff(p.macros, DependencyScope(p, defaults, ev, roll), defaults, ev, roll);
  }

  /** The dependency loop succeeds exactly when every dependency builds and
      no two share a name. */
  lemma DependenciesOkIff(p: Package, defaults: Scope, ev: Evaluator, roll: Dice)
    ensures Collect(PackageNames(p.dependencies), DependencyBuilds(p, defaults, ev, roll), 0, Collected(map[], [])).Ok? <==>
      (forall k :: 0 <= k < |p.dependencies| ==> PackageBuild(p.dependencies[k], defaults, ev, roll).Ok?)
      && Distinct(PackageNames(p.dependencies))
  {
    var names, builds := PackageNames(p.dependencies), DependencyBuilds(p, defaults, ev, roll);
    CollectFacts(names, builds, 0, Collected(map[], []));
    forall k | 0 <= k < |p.dependencies|
      ensures builds[k] == PackageBuild(p.dependencies[k], defaults, ev, roll)
    {
    }
  }

  /** The member loop succeeds exactly when no two macros share a name and
      every macro builds. */
  lemma MembersOkIff(ms: seq<Macro>, env: Scope, defaults: Scope, ev: Evaluator, roll: Dice)
    ensures Collect(MacroNames(ms), MemberBuilds(ms, env, defaults, ev, roll), 0, Collected(map[], [])).Ok? <==>
      Distinct(MacroNames(ms)) && forall k :: 0 <= k < |ms| ==> MacroBuild(ms[k], env, defaults, ev, roll).Ok?
  {
    var names, builds := MacroNames(ms), MemberBuilds(ms, env, defaults, ev, roll);
    CollectFacts(names, builds, 0, Collected(map[], []));
    assert forall k :: 0 <= k < |ms| ==> builds[k] == MacroBuild(ms[k], env, defaults, ev, roll);
  }

  /** A built package carries the package's name and its dependencies'
      builds as bases in declaration order. */
  lemma BuiltPackageShape(p: Package, defaults: Scope, ev: Evaluator, roll: Dice)
    requires PackageBuild(p, defaults, ev, roll).Ok?
    ensures var ns, builds := PackageBuild(p, defaults, ev, roll).value, DependencyBuilds(p, defaults, ev, roll);
      ns.name == p.name
      && |ns.bases| == |p.dependencies|
      && (forall k :: 0 <= k < |p.dependencies| ==> builds[k].Ok? && ns.bases[k] == builds[k].value)
  {
    var names, builds := PackageNames(p.dependencies), DependencyBuilds(p, defaults, ev, roll);
    CollectFacts(names, builds, 0, Collected(map[], []));
    var d := Collect(names, builds, 0, Collected(map[], []));
    var ns := PackageBuild(p, defaults, ev, roll).value;
    assert ns.bases == d.value.order;
    forall k | 0 <= k < |p.dependencies| ensures builds[k].Ok? && ns.bases[k] == builds[k].value {
      assert d.value.order[0 + k - 0] == builds[k].value;
    }
  }

  /** The members of a built package are what the second loop collected
      against the dependency scope. */
  lemma BuiltMembersCollected(p: Package, defaults: Scope, ev: Evaluator, roll: Dice)
    requires PackageBuild(p, defaults, ev, roll).Ok?
    ensures var members := Collect(MacroNames(p.macros), MemberBuilds(p.macros, DependencyScope(p, defaults, ev, roll), defaults, ev, roll), 0, Collected(map[], []));
      members.Ok? && PackageBuild(p, defaults, ev, roll).value.members == members.value.byName
  {
  }

  /** A built package has one member per own macro, each the macro's build
      against the dependency scope. */
  lemma BuiltPackageMembers(p: Package, defaults: Scope, ev: Evaluator, roll: Dice)
    requires PackageBuild(p, defaults, ev, roll).Ok?
    ensures var ns, env := PackageBuild(p, defaults, ev, roll).value, DependencyScope(p, defaults, ev, roll);
      ns.members.Keys == (set k | 0 <= k < |p.macros| :: p.macros[k].name)
      && forall k :: 0 <= k < |p.macros| ==>
           MacroBuild(p.macros[k], env, defaults, ev, roll).Ok?
           && ns.members[p.macros[k].name] == MacroBuild(p.macros[k], env, defaults, ev, roll).value
  {
    BuiltMembersCollected(p, defaults, ev, roll);
    MembersFacts(p.macros, DependencyScope(p, defaults, ev, roll), defaults, ev, roll);
  }

  lemma MacroNameSet(ms: seq<Macro>)
    ensures (set k | 0 <= k < |MacroNames(ms)| :: MacroNames(ms)[k]) == (set k | 0 <= k < |ms| :: ms[k].name)
  {
    var names := MacroNames(ms);
    forall k | 0 <= k < |ms|
      ensures ms[k].name in (set j | 0 <= j < |names| :: names[j])
    {
      assert names[k] == ms[k].name;
    }
  }

  lemma PackageNameSet(ps: seq<Package>)
    ensures (set k | 0 <= k < |PackageNames(ps)| :: PackageNames(ps)[k]) == (set k | 0 <= k < |ps| :: ps[k].name)
  {
    var names := PackageNames(ps);
    forall k | 0 <= k < |ps|
      ensures ps[k].name in (set j | 0 <= j < |names| :: names[j])
    {
      assert names[k] == ps[k].name;
    }
  }

  /** What a successful member loop collected: one entry per macro name,
      each the build of that macro. */
  lemma MembersFacts(ms: seq<Macro>, env: Scope, defaults: Scope, ev: Evaluator, roll: Dice)
    requires Collect(MacroNames(ms), MemberBuilds(ms, env, defaults, ev, roll), 0, Collected(map[], [])).Ok?
    ensures var c := Collect(MacroNames(ms), MemberBuilds(ms, env, defaults, ev, roll), 0, Collected(map[], [])).value;
      c.byName.Keys == (set k | 0 <= k < |ms| :: ms[k].name)
      && forall k :: 0 <= k < |ms| ==>
           MacroBuild(ms[k], env, defaults, ev, roll).Ok?
           && c.byName[ms[k].name] == MacroBuild(ms[k], env, defaults, ev, roll).value
  {
    var names, builds := MacroNames(ms), MemberBuilds(ms, env, defaults, ev, roll);
    CollectFacts(names, builds, 0, Collected(map[], []));
    MacroNameSet(ms);
    forall k | 0 <= k < |ms|
      ensures builds[k] == MacroBuild(ms[k], env, defaults, ev, roll)
    {
    }
  }

  /** The own macros of a built package see each dependency under the
      dependency's name, and nothing else. */
  lemma DependencyScopeShape(p: Package, defaults: Scope, ev: Evaluator, roll: Dice)
    requires PackageBuild(p, defaults, ev, roll).Ok?
    ensures var scope, builds := DependencyScope(p, defaults, ev, roll), DependencyBuilds(p, defaults, ev, roll);
      scope.Keys == (set k | 0 <= k < |p.dependencies| :: p.dependencies[k].name)
      && forall k :: 0 <= k < |p.dependencies| ==> builds[k].Ok? && scope[p.dependencies[k].name] == Module(builds[k].value)
  {
    var names, builds := PackageNames(p.dependencies), DependencyBuilds(p, defaults, ev, roll);
    var c := Collect(names, builds, 0, Collected(map[], []));
    assert c.Ok?;
    CollectOkIff(names, builds, 0, Collected(map[], []));
    CollectMap(names, builds, 0, Collected(map[], []));
    var scope := DependencyScope(p, defaults, ev, roll);
    assert scope == DepsScope(c.value.byName);
    PackageNameSet(p.dependencies);
    forall k | 0 <= k < |p.dependencies|
      ensures builds[k].Ok? && scope[p.dependencies[k].name] == Module(builds[k].value)
    {
      assert names[k] == p.dependencies[k].name;
    }
  }

  /** The first repeated dependency name is what Package.build raises. */
  lemma PackageRepeatedDependency(p: Package, j: nat, defaults: Scope, ev: Evaluator, roll: Dice)
    requires j < |p.dependencies|
    requires forall k :: 0 <= k < j ==> PackageBuild(p.dependencies[k], defaults, ev, roll).Ok?
    requires forall k, l :: 0 <= l < k < j ==> p.dependencies[l].name != p.dependencies[k].name
    requires exists l :: 0 <= l < j && p.dependencies[l].name == p.dependencies[j].name
    ensures PackageBuild(p, defaults, ev, roll) == Err(Rejected(NameAlreadyUsedError(p.dependencies[j].name)))
  {
    CollectRepeated(PackageNames(p.dependencies), DependencyBuilds(p, defaults, ev, roll), 0, j, Collected(map[], []));
  }

  // ----------------------------------------------------- environment build

  /** Environment.build never replaces a name already in the registry, and
      only adds the names of its own items. */
  lemma {:induction false} EnvFoldKeeps(items: seq<Item>, i: nat, reg: Scope, ev: Evaluator, roll: Dice)
    requires i <= |items|
    ensures var out := EnvFold(items, i, reg, ev, roll);
      (forall k :: k in reg ==> k in out.registry && out.registry[k] == reg[k])
      && out.registry.Keys <= reg.Keys + (set k | i <= k < |items| :: items[k].Name())
    decreases |items| - i
  {
    if i < |items| {
      var name := items[i].Name();
      if name !in reg && BuildItem(items[i], reg, ev, roll).Ok? {
        EnvFoldKeeps(items, i + 1, reg[name := BuildItem(items[i], reg, ev, roll).value], ev, roll);
      }
    }
  }

  /** The names of the items from index i on. */
  lemma NamesFrom(items: seq<Item>, i: nat)
    requires i < |items|
    ensures (set k | i <= k < |items| :: items[k].Name()) == {items[i].Name()} + (set k | i + 1 <= k < |items| :: items[k].Name())
  {
  }

  /** A successful Environment.build returns the registry itself, and its
      items had distinct names, none of them already registered; the
      registry gained exactly those names. */
  lemma {:induction false} EnvFoldOk(items: seq<Item>, i: nat, reg: Scope, ev: Evaluator, roll: Dice)
    requires i <= |items|
    ensures var out := EnvFold(items, i, reg, ev, roll);
      out.result.Ok? ==>
        out.result.value == out.registry
        && out.registry.Keys == reg.Keys + (set k | i <= k < |items| :: items[k].Name())
        && (forall k :: i <= k < |items| ==> items[k].Name() !in reg)
        && (forall k, l :: i <= l < k < |items| ==> items[l].Name() != items[k].Name())
    decreases |items| - i
  {
    if i < |items| {
      var name := items[i].Name();
      if name !in reg && BuildItem(items[i], reg, ev, roll).Ok? {
        var reg' := reg[name := BuildItem(items[i], reg, ev, roll).value];
        EnvFoldOk(items, i + 1, reg', ev, roll);
        NamesFrom(items, i);
      }
    }
  }

  /** A failed build is not rolled back: an item inserted before the
      failure stays in the registry. */
  lemma NoRollback(items: seq<Item>, i: nat, reg: Scope, ev: Evaluator, roll: Dice)
    requires i < |items|
    requires items[i].Name() !in reg && BuildItem(items[i], reg, ev, roll).Ok?
    ensures var out := EnvFold(items, i, reg, ev, roll);
      items[i].Name() in out.registry && out.registry[items[i].Name()] == BuildItem(items[i], reg, ev, roll).value
  {
    var name := items[i].Name();
    EnvFoldKeeps(items, i + 1, reg[name := BuildItem(items[i], reg, ev, roll).value], ev, roll);
  }

  /** One more insertion after an outcome: nothing if the build already
      failed, otherwise the same check-and-build step as the loop. */
  function Extend(o: EnvOutcome, x: Item, ev: Evaluator, roll: Dice): EnvOutcome {
    if o.result.Err? then o
    else if x.Name() in o.registry then EnvOutcome(o.registry, Err(Rejected(NameAlreadyUsedError(x.Name()))))
    else
      match BuildItem(x, o.registry, ev, roll)
      case Err(e) => EnvOutcome(o.registry, Err(e))
      case Ok(v) => EnvOutcome(o.registry[x.Name() := v], Ok(o.registry[x.Name() := v]))
  }

  lemma {:induction false} EnvFoldSnoc(items: seq<Item>, x: Item, i: nat, reg: Scope, ev: Evaluator, roll: Dice)
    requires i <= |items|
    ensures EnvFold(items + [x], i, reg, ev, roll) == Extend(EnvFold(items, i, reg, ev, roll), x, ev, roll)
    decreases |items| - i
  {
    var xs := items + [x];
    if i == |items| {
      assert xs[i] == x;
    } else {
      assert xs[i] == items[i];
      var name := items[i].Name();
      if name !in reg && BuildItem(items[i], reg, ev, roll).Ok? {
        EnvFoldSnoc(items, x, i + 1, reg[name := BuildItem(items[i], reg, ev, roll).value], ev, roll);
      }
    }
  }

  /** Building an environment with one more top-level macro is building the
      old environment, then trying the new macro against what it left. */
  lemma AppendMacro(env: Environment, m: Macro, reg: Scope, ev: Evaluator, roll: Dice)
    ensures EnvBuild(env.(macros := env.macros + [m]), reg, ev, roll)
         == Extend(EnvBuild(env, reg, ev, roll), MacroItem(m), ev, roll)
  {
    var env' := env.(macros := env.macros + [m]);
    assert Items(env') == Items(env) + [MacroItem(m)];
    EnvFoldSnoc(Items(env), MacroItem(m), 0, reg, ev, roll);
  }

  /** A new macro named like a builtin, a package or an existing macro of
      an environment that builds is refused with NameAlreadyUsedError, and
      the registry is left as the old build left it. */
  lemma TakenNameRefused(env: Environment, m: Macro, reg: Scope, ev: Evaluator, roll: Dice)
    requires EnvBuild(env, reg, ev, roll).result.Ok?
    requires m.name in EnvBuild(env, reg, ev, roll).registry
    ensures EnvBuild(env.(macros := env.macros + [m]), reg, ev, roll)
         == EnvOutcome(EnvBuild(env, reg, ev, roll).registry, Err(Rejected(NameAlreadyUsedError(m.name))))
  {
    AppendMacro(env, m, reg, ev, roll);
  }

  /** Because the registry is shared, building the same non-empty
      environment a second time in one process always fails on its first
      item's name. */
  lemma RebuildCollides(env: Environment, reg: Scope, ev: Evaluator, roll: Dice)
    requires EnvBuild(env, reg, ev, roll).result.Ok?
    requires Items(env) != []
    ensures var first := EnvBuild(env, reg, ev, roll);
      EnvBuild(env, first.registry, ev, roll)
        == EnvOutcome(first.registry, Err(Rejected(NameAlreadyUsedError(Items(env)[0].Name()))))
  {
    EnvFoldOk(Items(env), 0, reg, ev, roll);
    var items := Items(env);
    assert items[0].Name() in (set k | 0 <= k < |items| :: items[k].Name());
  }
}
