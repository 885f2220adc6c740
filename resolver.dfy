/** swirl/resolver.py: which files of the record directory are loaded and
    as what, how the loaded records become an Environment, and the order in
    which resolve builds it and rewrites the cache. */
module Resolver {

  import opened Common
  import opened Grammar
  import opened Models
  import opened Records
  import opened Builder
  import opened Storage

  // ------------------------------------------------------------ file names

  /** re.search of ^[package|macro]+\.[a-zA-Z0-9_]+[a-zA-Z0-9]\.json: the
      matched prefix of the file name, if any. Neither character class holds
      '.', so each run is maximal and the id run must end in a letter or
      digit. */
  function FileMatch(f: string): (r: Option<string>)
    ensures r.Some? ==> |r.value| <= |f| && r.value == f[..|r.value|]
  {
    var i := SkipWhile(f, 0, PrefixChars);
    if i == 0 || i == |f| || f[i] != '.' then None
    else
      var j := SkipWhile(f, i + 1, IdChars);
      if j - (i + 1) < 2 || f[j - 1] == '_' || |f| < j + 5 || f[j..j + 5] != ".json" then None
      else Some(f[..j + 5])
  }

  /** A file is loaded only when the pattern matches all of its name. */
  predicate Accepted(f: string) {
    FileMatch(f) == Some(f)
  }

  predicate KindPrefix(p: string) {
    |p| >= 1 && forall k :: 0 <= k < |p| ==> PrefixChar(p[k])
  }

  predicate RecordId(id: string) {
    |id| >= 2 && (forall k :: 0 <= k < |id| ==> IdChar(id[k])) && id[|id| - 1] != '_'
  }

  /** The accepted names, stated directly: kind prefix, '.', id, ".json". */
  ghost predicate FileShape(f: string) {
    exists p, id :: f == p + "." + id + ".json" && KindPrefix(p) && RecordId(id)
  }

  /** A file name is accepted exactly when it has the shape P.ID.json. */
  lemma AcceptedIff(f: string)
    ensures Accepted(f) <==> FileShape(f)
  {
    if Accepted(f) {
      var i := SkipWhile(f, 0, PrefixChars);
      var j := SkipWhile(f, i + 1, IdChars);
      var p, id := f[..i], f[i + 1..j];
      assert |f| == j + 5;
      assert f == p + "." + id + ".json";
      assert KindPrefix(p) && RecordId(id);
    }
    if FileShape(f) {
      var p, id :| f == p + "." + id + ".json" && KindPrefix(p) && RecordId(id);
      ShapeAccepted(f, p, id);
    }
  }

  lemma ShapeAccepted(f: string, p: string, id: string)
    requires f == p + "." + id + ".json" && KindPrefix(p) && RecordId(id)
    ensures Accepted(f)
  {
    var i, j := |p|, |p| + 1 + |id|;
    PrefixRun(f, p, id);
    IdRun(f, p, id);
    assert f[i] == '.';
    assert f[j - 1] == id[|id| - 1];
    assert f[j..j + 5] == ".json";
    assert f[..j + 5] == f;
  }

  /** The kind prefix is the first run of the name. */
  lemma PrefixRun(f: string, p: string, id: string)
    requires f == p + "." + id + ".json" && KindPrefix(p)
    ensures SkipWhile(f, 0, PrefixChars) == |p|
  {
    var i := |p|;
    assert f[i] == '.' && !PrefixChar('.');
    assert forall k :: 0 <= k < i ==> f[k] == p[k];
    SkipAll(f, 0, i, PrefixChars);
  }

  /** The id is the run after the first dot. */
  lemma IdRun(f: string, p: string, id: string)
    requires f == p + "." + id + ".json" && RecordId(id)
    ensures SkipWhile(f, |p| + 1, IdChars) == |p| + 1 + |id|
  {
    var i, j := |p|, |p| + 1 + |id|;
    assert forall k :: i + 1 <= k < j ==> f[k] == id[k - i - 1];
    assert f[j] == '.' && !IdChar('.');
    SkipAll(f, i + 1, j, IdChars);
  }

  /** What an accepted file is loaded as. */
  datatype Kind = MacroFile | PackageFile | Ignored

  predicate StartsWith(s: string, prefix: string) {
    |prefix| <= |s| && s[..|prefix|] == prefix
  }

  /** A name starting with "macro" is a macro record, otherwise one starting
      with "package" is a package record; any other accepted name is read
      and dropped. */
  function Classify(f: string): (k: Kind)
    ensures k == MacroFile <==> StartsWith(f, "macro")
    ensures k == PackageFile <==> !StartsWith(f, "macro") && StartsWith(f, "package")
    ensures k == Ignored <==> !StartsWith(f, "macro") && !StartsWith(f, "package")
  {
    if StartsWith(f, "macro") then MacroFile
    else if StartsWith(f, "package") then PackageFile
    else Ignored
  }

  /** A macro record name is accepted and loaded as a macro. */
  lemma MacroNameExample()
    ensures Accepted("macro.ab.json") && Classify("macro.ab.json") == MacroFile
  {
    ShapeAccepted("macro.ab.json", "macro", "ab");
  }

  /** A package record name is accepted and loaded as a package. */
  lemma PackageNameExample()
    ensures Accepted("package.x1.json") && Classify("package.x1.json") == PackageFile
  {
    var f, p, id := "package.x1.json", "package", "x1";
    assert f == p + "." + id + ".json";
    assert KindPrefix(p) by {
      forall k | 0 <= k < |p|
        ensures PrefixChar(p[k])
      {
      }
    }
    assert RecordId(id);
    ShapeAccepted(f, p, id);
    PackageKind();
  }

  lemma PackageKind()
    ensures Classify("package.x1.json") == PackageFile
  {
    var f := "package.x1.json";
    assert f[..5] == "packa" && f[..7] == "package";
  }

  /** The prefix is a character class, not a word: "pam" is accepted too,
      and the file is then read and dropped. */
  lemma CharClassPrefixExample()
    ensures Accepted("pam.x1.json") && Classify("pam.x1.json") == Ignored
  {
    var f, p, id := "pam.x1.json", "pam", "x1";
    assert f == p + "." + id + ".json";
    assert KindPrefix(p) by {
      forall k | 0 <= k < |p|
        ensures PrefixChar(p[k])
      {
      }
    }
    assert RecordId(id);
    ShapeAccepted(f, p, id);
    CharClassKind();
  }

  lemma CharClassKind()
    ensures Classify("pam.x1.json") == Ignored
  {
    var f := "pam.x1.json";
    assert f[..5] == "pam.x" && f[..7] == "pam.x1.";
  }

  /** An id of one character is refused. */
  lemma ShortIdRefused()
    ensures !Accepted("macro.a.json")
  {
    var a := "macro.a.json";
    assert forall k :: 0 <= k < 5 ==> PrefixChar(a[k]);
    SkipAll(a, 0, 5, PrefixChars);
    SkipAll(a, 6, 7, IdChars);
  }

  /** An id ending in '_' is refused. */
  lemma UnderscoreIdRefused()
    ensures !Accepted("macro.ab_.json")
  {
    var b := "macro.ab_.json";
    assert forall k :: 0 <= k < 5 ==> PrefixChar(b[k]);
    SkipAll(b, 0, 5, PrefixChars);
    SkipAll(b, 6, 9, IdChars);
  }

  /** Text after ".json" makes the match shorter than the name. */
  lemma TrailingTextRefused()
    ensures !Accepted("macro.ab.json.bak")
  {
    var c := "macro.ab.json.bak";
    assert forall k :: 0 <= k < 5 ==> PrefixChar(c[k]);
    SkipAll(c, 0, 5, PrefixChars);
    SkipAll(c, 6, 8, IdChars);
    assert c[..13] != c;
  }

  // --------------------------------------------------------------- loading

  /** The lists create_env_class fills. */
  datatype Loaded = Loaded(packages: seq<Package>, macros: seq<Macro>)

  /** Two loads one after the other: the first failure, or both lists
      concatenated. */
  function Then(a: Result<Loaded, DecodeError>, b: Result<Loaded, DecodeError>): Result<Loaded, DecodeError> {
    if a.Err? then a
    else if b.Err? then b
    else Ok(Loaded(a.value.packages + b.value.packages, a.value.macros + b.value.macros))
  }

  /** What one directory entry contributes on its own: nothing for a file
      the pattern refuses, for text that is not JSON and for an accepted name
      of no kind; one macro or one package for a record dacite accepts; and
      dacite's error for one it refuses. */
  function Contribution(f: string, records: map<string, string>, codec: Codec): Result<Loaded, DecodeError>
    requires f in records
  {
    if !Accepted(f) then Ok(Loaded([], []))
    else
      match codec.load(records[f])
      case None => Ok(Loaded([], []))
      case Some(data) =>
        match Classify(f)
        case MacroFile =>
          (match MacroFromJson(data)
           case Err(e) => Err(e)
           case Ok(m) => Ok(Loaded([], [m])))
        case PackageFile =>
          (match PackageFromJson(data)
           case Err(e) => Err(e)
           case Ok(p) => Ok(Loaded([p], [])))
        case Ignored => Ok(Loaded([], []))
  }

  /** One directory entry appended to what the entries before it loaded;
      the first refused record stops the load. */
  function LoadStep(acc: Result<Loaded, DecodeError>, f: string, records: map<string, string>, codec: Codec): Result<Loaded, DecodeError>
    requires f in records
  {
    Then(acc, Contribution(f, records, codec))
  }

  /** The directory entries from the front of `listing` on. */
  function LoadFrom(acc: Result<Loaded, DecodeError>, listing: seq<string>, records: map<string, string>, codec: Codec): Result<Loaded, DecodeError>
    requires forall f :: f in listing ==> f in records
    decreases |listing|
  {
    if listing == [] then acc
    else LoadFrom(LoadStep(acc, listing[0], records, codec), listing[1..], records, codec)
  }

  function LoadAll(listing: seq<string>, records: map<string, string>, codec: Codec): Result<Loaded, DecodeError>
    requires forall f :: f in listing ==> f in records
  {
    LoadFrom(Ok(Loaded([], [])), listing, records, codec)
  }

  /** create_env_class: the loaded lists in an Environment with an empty id. */
  function LoadEnvironment(listing: seq<string>, records: map<string, string>, codec: Codec): (r: Result<Environment, DecodeError>)
    requires forall f :: f in listing ==> f in records
    ensures r.Ok? ==> r.value.id == "" && LoadAll(listing, records, codec) == Ok(Loaded(r.value.packages, r.value.macros))
    ensures r.Err? ==> LoadAll(listing, records, codec) == Err(r.error)
    ensures listing == [] ==> r == Ok(Environment("", [], []))
  {
    match LoadAll(listing, records, codec)
    case Err(e) => Err(e)
    case Ok(l) => Ok(Environment("", l.packages, l.macros))
  }

  /** A file the loader passes over: not accepted, not JSON, or of no kind. */
  predicate Skipped(f: string, records: map<string, string>, codec: Codec)
    requires f in records
  {
    !Accepted(f) || codec.load(records[f]).None? || Classify(f) == Ignored
  }

  lemma ThenEmpty(a: Result<Loaded, DecodeError>)
    ensures Then(a, Ok(Loaded([], []))) == a && Then(Ok(Loaded([], [])), a) == a
  {
    if a.Ok? {
      assert a.value.packages + [] == a.value.packages == [] + a.value.packages;
      assert a.value.macros + [] == a.value.macros == [] + a.value.macros;
    }
  }

  /** A single entry loads what it contributes. */
  lemma LoadAllOne(f: string, records: map<string, string>, codec: Codec)
    requires f in records
    ensures LoadAll([f], records, codec) == Contribution(f, records, codec)
  {
    LoadOne(Ok(Loaded([], [])), f, records, codec);
    ThenEmpty(Contribution(f, records, codec));
  }

  lemma LoadOne(acc: Result<Loaded, DecodeError>, f: string, records: map<string, string>, codec: Codec)
    requires f in records
    ensures LoadFrom(acc, [f], records, codec) == LoadStep(acc, f, records, codec)
  {
    assert [f][1..] == [];
  }

  lemma {:induction false} LoadFromErr(e: DecodeError, listing: seq<string>, records: map<string, string>, codec: Codec)
    requires forall f :: f in listing ==> f in records
    ensures LoadFrom(Err(e), listing, records, codec) == Err(e)
    decreases |listing|
  {
    if listing != [] {
      LoadFromErr(e, listing[1..], records, codec);
    }
  }

  lemma ThenAssoc(a: Result<Loaded, DecodeError>, b: Result<Loaded, DecodeError>, c: Result<Loaded, DecodeError>)
    ensures Then(Then(a, b), c) == Then(a, Then(b, c))
  {
    if a.Ok? && b.Ok? && c.Ok? {
      assert a.value.packages + b.value.packages + c.value.packages == a.value.packages + (b.value.packages + c.value.packages);
      assert a.value.macros + b.value.macros + c.value.macros == a.value.macros + (b.value.macros + c.value.macros);
    }
  }

  /** Loading from lists already filled appends to them. */
  lemma {:induction false} LoadFromShift(x: Loaded, listing: seq<string>, records: map<string, string>, codec: Codec)
    requires forall f :: f in listing ==> f in records
    ensures LoadFrom(Ok(x), listing, records, codec) == Then(Ok(x), LoadAll(listing, records, codec))
    decreases |listing|
  {
    if listing == [] {
      assert x.packages + [] == x.packages && x.macros + [] == x.macros;
    } else {
      var rest := listing[1..];
      var c := Contribution(listing[0], records, codec);
      var e0 := Then(Ok(Loaded([], [])), c);
      assert e0 == c by {
        if c.Ok? {
          assert [] + c.value.packages == c.value.packages && [] + c.value.macros == c.value.macros;
        }
      }
      if c.Err? {
        LoadFromErr(c.error, rest, records, codec);
      } else {
        LoadFromShift(Then(Ok(x), c).value, rest, records, codec);
        LoadFromShift(c.value, rest, records, codec);
        ThenAssoc(Ok(x), c, LoadAll(rest, records, codec));
      }
    }
  }

  lemma {:induction false} LoadFromConcat(acc: Result<Loaded, DecodeError>, a: seq<string>, b: seq<string>, records: map<string, string>, codec: Codec)
    requires forall f :: f in a + b ==> f in records
    ensures LoadFrom(acc, a + b, records, codec) == LoadFrom(LoadFrom(acc, a, records, codec), b, records, codec)
    decreases |a|
  {
    if a != [] {
      assert (a + b)[0] == a[0] && (a + b)[1..] == a[1..] + b;
      LoadFromConcat(LoadStep(acc, a[0], records, codec), a[1..], b, records, codec);
    } else {
      assert a + b == b;
    }
  }

  /** Records keep directory-listing order: loading a + b is loading a,
      then loading b, and the first refused record stops everything. */
  lemma LoadAllConcat(a: seq<string>, b: seq<string>, records: map<string, string>, codec: Codec)
    requires forall f :: f in a + b ==> f in records
    ensures LoadAll(a + b, records, codec) == Then(LoadAll(a, records, codec), LoadAll(b, records, codec))
  {
    LoadFromConcat(Ok(Loaded([], [])), a, b, records, codec);
    var first := LoadAll(a, records, codec);
    if first.Err? {
      LoadFromErr(first.error, b, records, codec);
    } else {
      LoadFromShift(first.value, b, records, codec);
    }
  }

  /** A skipped file (in particular one whose text is not JSON) neither
      stops the load nor changes what the other files contribute. */
  lemma SkippedFileIgnored(a: seq<string>, f: string, b: seq<string>, records: map<string, string>, codec: Codec)
    requires forall g :: g in a + [f] + b ==> g in records
    requires Skipped(f, records, codec)
    ensures LoadAll(a + [f] + b, records, codec) == LoadAll(a + b, records, codec)
  {
    LoadAllConcat(a + [f], b, records, codec);
    LoadAllConcat(a, [f], records, codec);
    LoadAllConcat(a, b, records, codec);
    LoadAllOne(f, records, codec);
    ThenEmpty(LoadAll(a, records, codec));
  }

  /** An accepted macro or package record that parses but that dacite
      refuses stops the load with dacite's error, whatever follows it. */
  lemma RefusedRecordAborts(a: seq<string>, f: string, b: seq<string>, records: map<string, string>, codec: Codec, e: DecodeError)
    requires forall g :: g in a + [f] + b ==> g in records
    requires LoadAll(a, records, codec).Ok?
    requires Accepted(f) && codec.load(records[f]).Some?
    requires Classify(f) == MacroFile ==> MacroFromJson(codec.load(records[f]).value) == Err(e)
    requires Classify(f) == PackageFile ==> PackageFromJson(codec.load(records[f]).value) == Err(e)
    requires Classify(f) != Ignored
    ensures LoadAll(a + [f] + b, records, codec) == Err(e)
  {
    LoadAllConcat(a + [f], b, records, codec);
    LoadAllConcat(a, [f], records, codec);
    LoadAllOne(f, records, codec);
  }

  /** A well-formed macro record contributes exactly its macro. */
  lemma MacroRecordLoaded(f: string, records: map<string, string>, codec: Codec, m: Macro)
    requires f in records && Accepted(f) && Classify(f) == MacroFile
    requires codec.load(records[f]).Some? && MacroFromJson(codec.load(records[f]).value) == Ok(m)
    ensures LoadAll([f], records, codec) == Ok(Loaded([], [m]))
  {
    LoadAllOne(f, records, codec);
  }

  /** create_env_class as the source runs it: a loop over the directory
      listing appending to two lists. */
  method CreateEnvClass(store: Store, listing: seq<string>, codec: Codec) returns (r: Result<Environment, DecodeError>)
    requires forall f :: f in listing <==> f in store.records
    ensures r == LoadEnvironment(listing, store.records, codec)
    ensures r.Ok? ==> r.value.id == ""
  {
    var packages: seq<Package> := [];
    var macros: seq<Macro> := [];
    var i := 0;
    while i < |listing|
      invariant 0 <= i <= |listing|
      invariant LoadAll(listing, store.records, codec) == LoadFrom(Ok(Loaded(packages, macros)), listing[i..], store.records, codec)
    {
      var file := listing[i];
      assert listing[i..][0] == file && listing[i..][1..] == listing[i + 1..];
      ghost var step := LoadStep(Ok(Loaded(packages, macros)), file, store.records, codec);
      ThenEmpty(Ok(Loaded(packages, macros)));
      if Accepted(file) {
        var data := codec.load(store.records[file]);
        if data.Some? {
          if StartsWith(file, "macro") {
            var m := MacroFromJson(data.value);
            if m.Err? {
              LoadFromErr(m.error, listing[i + 1..], store.records, codec);
              return Err(m.error);
            }
            macros := macros + [m.value];
          } else if StartsWith(file, "package") {
            var p := PackageFromJson(data.value);
            if p.Err? {
              LoadFromErr(p.error, listing[i + 1..], store.records, codec);
              return Err(p.error);
            }
            packages := packages + [p.value];
          }
        }
      }
      assert packages + [] == packages && macros + [] == macros;
      assert step == Ok(Loaded(packages, macros));
      i := i + 1;
    }
    r := Ok(Environment("", packages, macros));
  }

  // ----------------------------------------------------------------- cache

  /** delete_cache: unlink env.pkl, then swl.pkl, either may be missing. */
  method DeleteCache(store: Store)
    modifies store
    ensures store.envCache == None && store.swlCache == None
    ensures store.records == old(store.records)
    ensures store.journal == old(store.journal) + [Unlinked(EnvPkl), Unlinked(SwlPkl)]
  {
    store.envCache := None;
    store.journal := store.journal + [Unlinked(EnvPkl)];
    store.swlCache := None;
    store.journal := store.journal + [Unlinked(SwlPkl)];
  }

  /** create_cache: pickle the built registry into swl.pkl, then the
      environment dictionary into env.pkl. */
  method CreateCache(store: Store, swl: Scope, envDict: Json)
    modifies store
    ensures store.swlCache == Some(swl) && store.envCache == Some(envDict)
    ensures store.records == old(store.records)
    ensures store.journal == old(store.journal) + [Wrote(SwlPkl), Wrote(EnvPkl)]
  {
    store.swlCache := Some(swl);
    store.journal := store.journal + [Wrote(SwlPkl)];
    store.envCache := Some(envDict);
    store.journal := store.journal + [Wrote(EnvPkl)];
  }

  /** resolve: load, build into the registry, and only then replace the
      cache; the result is the JSON text of the environment. A failed load
      or build leaves the cache and the record directory as they were. */
  method Resolve(store: Store, reg: Registry, listing: seq<string>, codec: Codec, ev: Evaluator, roll: Dice)
    returns (r: Result<string, Failure>)
    requires forall f :: f in listing <==> f in store.records
    modifies store, reg
    ensures store.records == old(store.records)
    ensures var loaded := LoadEnvironment(listing, old(store.records), codec);
      loaded.Err? ==>
        r == Err(Decode(loaded.error)) && reg.entries == old(reg.entries)
        && store.envCache == old(store.envCache) && store.swlCache == old(store.swlCache)
        && store.journal == old(store.journal)
    ensures var loaded := LoadEnvironment(listing, old(store.records), codec);
      loaded.Ok? ==>
        var out := EnvBuild(loaded.value, old(reg.entries), ev, roll);
        reg.entries == out.registry
        && (out.result.Err? ==>
              r == Err(Build(out.result.error))
              && store.envCache == old(store.envCache) && store.swlCache == old(store.swlCache)
              && store.journal == old(store.journal))
        && (out.result.Ok? ==>
              r == Ok(codec.dump(EnvironmentToJson(loaded.value)))
              && store.envCache == Some(EnvironmentToJson(loaded.value))
              && store.swlCache == Some(out.result.value)
              && store.journal == old(store.journal) + [Unlinked(EnvPkl), Unlinked(SwlPkl), Wrote(SwlPkl), Wrote(EnvPkl)])
  {
    var env := CreateEnvClass(store, listing, codec);
    if env.Err? {
      return Err(Decode(env.error));
    }
    var swl := reg.Build(env.value, ev, roll);
    if swl.Err? {
      return Err(Build(swl.error));
    }
    var envDict := EnvironmentToJson(env.value);
    DeleteCache(store);
    CreateCache(store, swl.value, envDict);
    r := Ok(codec.dump(envDict));
  }
}
