/** The conversions between the dataclasses of swirl/data_models.py and the
    JSON dictionaries the record store and the environment cache hold:
    dacite.from_dict (fields read in declaration order, unknown keys
    ignored, an absent or null Optional field read as None) and
    dataclasses.asdict. */
module Records {

  import opened Common
  import opened Models

  /** Why from_dict refuses a dictionary: a required field is absent, a
      field holds a value of the wrong type, or the data is not a
      dictionary. */
  datatype DecodeError = MissingValue(field: string) | WrongType(field: string) | NotAMapping

  /** A `str` field. */
  function Str(o: map<string, Json>, k: string): (r: Result<string, DecodeError>)
    ensures r.Ok? <==> k in o && o[k].JStr?
    ensures r.Ok? ==> o[k] == JStr(r.value)
    ensures k !in o ==> r == Err(MissingValue(k))
  {
    if k !in o then Err(MissingValue(k))
    else if o[k].JStr? then Ok(o[k].s)
    else Err(WrongType(k))
  }

  /** An `Optional[str]` field: absent or null reads as None. */
  function OptStr(o: map<string, Json>, k: string): (r: Result<Option<string>, DecodeError>)
    ensures r.Ok? <==> k !in o || o[k].JNull? || o[k].JStr?
    ensures r.Ok? && r.value.Some? ==> k in o && o[k] == JStr(r.value.value)
  {
    if k !in o || o[k].JNull? then Ok(None)
    else if o[k].JStr? then Ok(Some(o[k].s))
    else Err(WrongType(k))
  }

  /** An `Optional[List[str]]` field: absent or null reads as the empty list. */
  function StrList(o: map<string, Json>, k: string): (r: Result<seq<string>, DecodeError>)
    ensures r.Ok? && k in o && o[k].JArr? ==>
      |r.value| == |o[k].items| && forall i :: 0 <= i < |r.value| ==> o[k].items[i] == JStr(r.value[i])
  {
    if k !in o || o[k].JNull? then Ok([])
    else if o[k].JArr? && forall i :: 0 <= i < |o[k].items| ==> o[k].items[i].JStr? then
      Ok(seq(|o[k].items|, i requires 0 <= i < |o[k].items| && o[k].items[i].JStr? => o[k].items[i].s))
    else Err(WrongType(k))
  }

  /** The first failure among element decodings, or all their values. */
  function AllOk<T>(rs: seq<Result<T, DecodeError>>): (r: Result<seq<T>, DecodeError>)
    ensures r.Ok? <==> forall i :: 0 <= i < |rs| ==> rs[i].Ok?
    ensures r.Ok? ==> |r.value| == |rs| && forall i :: 0 <= i < |rs| ==> rs[i] == Ok(r.value[i])
  {
    if rs == [] then Ok([])
    else if rs[0].Err? then Err(rs[0].error)
    else
      match AllOk(rs[1..])
      case Err(e) => Err(e)
      case Ok(vs) => Ok([rs[0].value] + vs)
  }

  /** from_dict(Macro, ...): the fields are read in declaration order and
      the first refused one is reported; unknown keys are ignored. */
  function MacroFromJson(j: Json): (r: Result<Macro, DecodeError>)
    ensures !j.JObj? ==> r == Err(NotAMapping)
    ensures j.JObj? && "_id" !in j.fields ==> r == Err(MissingValue("_id"))
    ensures r.Ok? <==>
      j.JObj? && Str(j.fields, "_id").Ok? && Str(j.fields, "owner_id").Ok? && Str(j.fields, "name").Ok?
      && StrList(j.fields, "variables").Ok? && Str(j.fields, "formula").Ok? && OptStr(j.fields, "description").Ok?
    ensures r.Ok? ==>
      j.fields["_id"] == JStr(r.value.id) && j.fields["owner_id"] == JStr(r.value.ownerId)
      && j.fields["name"] == JStr(r.value.name) && j.fields["formula"] == JStr(r.value.formula)
      && StrList(j.fields, "variables") == Ok(r.value.variables)
      && OptStr(j.fields, "description") == Ok(r.value.description)
  {
    if !j.JObj? then Err(NotAMapping)
    else
      var o := j.fields;
      match Str(o, "_id")
      case Err(e) => Err(e)
      case Ok(id) =>
        match Str(o, "owner_id")
        case Err(e) => Err(e)
        case Ok(owner) =>
          match Str(o, "name")
          case Err(e) => Err(e)
          case Ok(name) =>
            match StrList(o, "variables")
            case Err(e) => Err(e)
            case Ok(vars) =>
              match Str(o, "formula")
              case Err(e) => Err(e)
              case Ok(formula) =>
                match OptStr(o, "description")
                case Err(e) => Err(e)
                case Ok(desc) => Ok(Macro(id, owner, name, vars, formula, desc))
  }

  /** An `Optional[List[Macro]]` field. */
  function MacroList(o: map<string, Json>, k: string): Result<seq<Macro>, DecodeError> {
    if k !in o || o[k].JNull? then Ok([])
    else if o[k].JArr? then
      var items := o[k].items;
      AllOk(seq(|items|, i requires 0 <= i < |items| => MacroFromJson(items[i])))
    else Err(WrongType(k))
  }

  function PackageFromJson(j: Json): Result<Package, DecodeError>
    decreases j
  {
    if !j.JObj? then Err(NotAMapping)
    else
      var o := j.fields;
      match Str(o, "_id")
      case Err(e) => Err(e)
      case Ok(id) =>
        match Str(o, "owner_id")
        case Err(e) => Err(e)
        case Ok(owner) =>
          match Str(o, "name")
          case Err(e) => Err(e)
          case Ok(name) =>
            match OptStr(o, "description")
            case Err(e) => Err(e)
            case Ok(desc) =>
              match Str(o, "date_created")
              case Err(e) => Err(e)
              case Ok(date) =>
                match MacroList(o, "macros")
                case Err(e) => Err(e)
                case Ok(macros) =>
                  match PackageList(j, "dependencies")
                  case Err(e) => Err(e)
                  case Ok(deps) => Ok(Package(id, owner, name, desc, date, macros, deps))
  }

  /** An `Optional[List[Package]]` field of the dictionary `j`. */
  function PackageList(j: Json, k: string): Result<seq<Package>, DecodeError>
    requires j.JObj?
    decreases j, 0
  {
    var o := j.fields;
    if k !in o || o[k].JNull? then Ok([])
    else if o[k].JArr? then
      var items := o[k].items;
      AllOk(seq(|items|, i requires 0 <= i < |items| => PackageFromJson(items[i])))
    else Err(WrongType(k))
  }

  function EnvironmentFromJson(j: Json): Result<Environment, DecodeError> {
    if !j.JObj? then Err(NotAMapping)
    else
      match Str(j.fields, "_id")
      case Err(e) => Err(e)
      case Ok(id) =>
        match PackageList(j, "packages")
        case Err(e) => Err(e)
        case Ok(packages) =>
          match MacroList(j.fields, "macros")
          case Err(e) => Err(e)
          case Ok(macros) => Ok(Environment(id, packages, macros))
  }

  function OptStrToJson(d: Option<string>): Json {
    match d
    case None => JNull
    case Some(s) => JStr(s)
  }

  function MacroToJson(m: Macro): Json {
    JObj(map[
      "_id" := JStr(m.id),
      "owner_id" := JStr(m.ownerId),
      "name" := JStr(m.name),
      "variables" := StrsToJson(m.variables),
      "formula" := JStr(m.formula),
      "description" := OptStrToJson(m.description)])
  }

  function StrsToJson(vs: seq<string>): Json {
    JArr(seq(|vs|, i requires 0 <= i < |vs| => JStr(vs[i])))
  }

  function MacrosToJson(ms: seq<Macro>): Json {
    JArr(seq(|ms|, i requires 0 <= i < |ms| => MacroToJson(ms[i])))
  }

  function PackageToJson(p: Package): Json
    decreases p
  {
    JObj(map[
      "_id" := JStr(p.id),
      "owner_id" := JStr(p.ownerId),
      "name" := JStr(p.name),
      "description" := OptStrToJson(p.description),
      "date_created" := JStr(p.dateCreated),
      "macros" := MacrosToJson(p.macros),
      "dependencies" := PackagesToJson(p.dependencies)])
  }

  function PackagesToJson(ps: seq<Package>): Json
    decreases ps
  {
    JArr(seq(|ps|, i requires 0 <= i < |ps| => PackageToJson(ps[i])))
  }

  function EnvironmentToJson(env: Environment): Json {
    JObj(map[
      "_id" := JStr(env.id),
      "packages" := PackagesToJson(env.packages),
      "macros" := MacrosToJson(env.macros)])
  }

  // ------------------------------------------------------------ round trips

  lemma StrListRoundTrip(vs: seq<string>, o: map<string, Json>, k: string)
    requires k in o && o[k] == StrsToJson(vs)
    ensures StrList(o, k) == Ok(vs)
  {
    var items := o[k].items;
    assert forall i :: 0 <= i < |items| ==> items[i] == JStr(vs[i]);
    var r := StrList(o, k);
    assert r.Ok?;
    assert forall i :: 0 <= i < |vs| ==> r.value[i] == vs[i];
    assert r.value == vs;
  }

  /** from_dict(Macro, asdict(m)) == m. */
  lemma MacroRoundTrip(m: Macro)
    ensures MacroFromJson(MacroToJson(m)) == Ok(m)
  {
    var o := MacroToJson(m).fields;
    StrListRoundTrip(m.variables, o, "variables");
  }

  lemma MacroListRoundTrip(ms: seq<Macro>, o: map<string, Json>, k: string)
    requires k in o && o[k] == MacrosToJson(ms)
    ensures MacroList(o, k) == Ok(ms)
  {
    var items := o[k].items;
    var rs := seq(|items|, i requires 0 <= i < |items| => MacroFromJson(items[i]));
    forall i | 0 <= i < |ms| ensures rs[i] == Ok(ms[i]) {
      MacroRoundTrip(ms[i]);
    }
    assert AllOk(rs).value == ms;
  }

  lemma PackageListRoundTrip(ps: seq<Package>, j: Json, k: string)
    requires j.JObj? && k in j.fields && j.fields[k] == PackagesToJson(ps)
    requires forall i :: 0 <= i < |ps| ==> PackageFromJson(PackageToJson(ps[i])) == Ok(ps[i])
    ensures PackageList(j, k) == Ok(ps)
  {
    var items := j.fields[k].items;
    var rs := seq(|items|, i requires 0 <= i < |items| => PackageFromJson(items[i]));
    assert forall i :: 0 <= i < |ps| ==> rs[i] == Ok(ps[i]);
    assert AllOk(rs).value == ps;
  }

  /** A package dictionary whose fields all read back builds that package. */
  lemma PackageFromFields(j: Json, p: Package)
    requires j.JObj?
    requires Str(j.fields, "_id") == Ok(p.id) && Str(j.fields, "owner_id") == Ok(p.ownerId)
    requires Str(j.fields, "name") == Ok(p.name) && OptStr(j.fields, "description") == Ok(p.description)
    requires Str(j.fields, "date_created") == Ok(p.dateCreated) && MacroList(j.fields, "macros") == Ok(p.macros)
    requires PackageList(j, "dependencies") == Ok(p.dependencies)
    ensures PackageFromJson(j) == Ok(p)
  {
  }

  /** from_dict(Package, asdict(p)) == p, dependencies included. */
  lemma {:induction false} PackageRoundTrip(p: Package)
    ensures PackageFromJson(PackageToJson(p)) == Ok(p)
    decreases p
  {
    forall i | 0 <= i < |p.dependencies| ensures PackageFromJson(PackageToJson(p.dependencies[i])) == Ok(p.dependencies[i]) {
      PackageRoundTrip(p.dependencies[i]);
    }
    DependenciesRoundTrip(p);
    PackageRoundTripStep(p);
  }

  lemma {:induction false} DependenciesRoundTrip(p: Package)
    requires forall i :: 0 <= i < |p.dependencies| ==> PackageFromJson(PackageToJson(p.dependencies[i])) == Ok(p.dependencies[i])
    ensures PackageList(PackageToJson(p), "dependencies") == Ok(p.dependencies)
  {
    var j := PackageToJson(p);
    assert j.fields["dependencies"] == PackagesToJson(p.dependencies);
    PackageListRoundTrip(p.dependencies, j, "dependencies");
  }

  lemma {:induction false} PackageRoundTripStep(p: Package)
    requires PackageList(PackageToJson(p), "dependencies") == Ok(p.dependencies)
    ensures PackageFromJson(PackageToJson(p)) == Ok(p)
  {
    var j := PackageToJson(p);
    var o := j.fields;
    assert o["macros"] == MacrosToJson(p.macros);
    MacroListRoundTrip(p.macros, o, "macros");
    PackageScalarsRoundTrip(p);
    PackageFromFields(j, p);
  }

  /** The text fields of a package dictionary read back as written. */
  lemma PackageScalarsRoundTrip(p: Package)
    ensures var o := PackageToJson(p).fields;
      Str(o, "_id") == Ok(p.id) && Str(o, "owner_id") == Ok(p.ownerId)
      && Str(o, "name") == Ok(p.name) && OptStr(o, "description") == Ok(p.description)
      && Str(o, "date_created") == Ok(p.dateCreated)
  {
    var o := PackageToJson(p).fields;
    assert o["_id"] == JStr(p.id) && o["owner_id"] == JStr(p.ownerId) && o["name"] == JStr(p.name);
    assert o["date_created"] == JStr(p.dateCreated);
  }

  /** from_dict(Environment, asdict(env)) == env: the cached environment
      reads back as the environment that was cached. */
  lemma EnvironmentRoundTrip(env: Environment)
    ensures EnvironmentFromJson(EnvironmentToJson(env)) == Ok(env)
  {
    var j := EnvironmentToJson(env);
    MacroListRoundTrip(env.macros, j.fields, "macros");
    forall i | 0 <= i < |env.packages| ensures PackageFromJson(PackageToJson(env.packages[i])) == Ok(env.packages[i]) {
      PackageRoundTrip(env.packages[i]);
    }
    PackageListRoundTrip(env.packages, j, "packages");
  }

  /** Keys outside the dataclass's fields do not change what from_dict builds. */
  lemma MacroIgnoresUnknownKeys(o: map<string, Json>, k: string, v: Json)
    requires k !in {"_id", "owner_id", "name", "variables", "formula", "description"}
    ensures MacroFromJson(JObj(o[k := v])) == MacroFromJson(JObj(o))
  {
    var o' := o[k := v];
    assert Str(o', "_id") == Str(o, "_id");
    assert Str(o', "owner_id") == Str(o, "owner_id");
    assert Str(o', "name") == Str(o, "name");
    assert StrList(o', "variables") == StrList(o, "variables");
    assert Str(o', "formula") == Str(o, "formula");
    assert OptStr(o', "description") == OptStr(o, "description");
  }

  /** A macro record without "variables" (or with null) has no variables,
      and one without "description" has none; a record missing "formula"
      is refused naming that field. */
  lemma MacroOptionalFields(id: string, owner: string, name: string, formula: string)
    ensures var o := map["_id" := JStr(id), "owner_id" := JStr(owner), "name" := JStr(name), "formula" := JStr(formula)];
      MacroFromJson(JObj(o)) == Ok(Macro(id, owner, name, [], formula, None))
      && MacroFromJson(JObj(o["variables" := JNull])) == Ok(Macro(id, owner, name, [], formula, None))
      && MacroFromJson(JObj(o - {"formula"})) == Err(MissingValue("formula"))
  {
    var o := map["_id" := JStr(id), "owner_id" := JStr(owner), "name" := JStr(name), "formula" := JStr(formula)];
    assert "formula" !in o - {"formula"};
  }

  /** The fields are read in declaration order: a record whose "name" is
      not a string is refused for "name" even if "formula" is also absent. */
  lemma MacroFieldOrder(o: map<string, Json>)
    requires Str(o, "_id").Ok? && Str(o, "owner_id").Ok?
    requires "name" in o && !o["name"].JStr?
    ensures MacroFromJson(JObj(o)) == Err(WrongType("name"))
  {
  }
}
