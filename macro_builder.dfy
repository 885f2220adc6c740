/** swirl/macro_builder.py: creating, editing and deleting a macro record.
    A macro is written to the record directory only after a trial build of
    the cached environment with the macro in it succeeds. The sha256 hex
    digest is a parameter of the model. */
module MacroBuilder {

  import opened Common
  import opened Errors
  import opened Grammar
  import opened Models
  import opened Records
  import opened Builder
  import opened BuildFacts
  import opened Storage
  import opened Resolver

  /** The record file of a macro with the given id. */
  function MacroPath(id: string): string {
    "macro." + id + ".json"
  }

  /** What hashlib.sha256(...).hexdigest() returns: 64 lower-case hex digits. */
  predicate HexDigest(s: string) {
    |s| == 64 && forall k :: 0 <= k < |s| ==> s[k] in "0123456789abcdef"
  }

  /** The digest hashlib.sha256 computes, as far as the model needs it:
      every digest is 64 lower-case hex digits. */
  ghost predicate Sha256Like(digest: string -> string) {
    forall s :: HexDigest(digest(s))
  }

  /** str(data["owner_id"] + data["name"]): the text that is hashed into a
      macro's id. Both fields must be present and be strings. */
  function HashKey(data: map<string, Json>): (r: Result<string, Failure>)
    ensures r.Ok? <==> "owner_id" in data && data["owner_id"].JStr? && "name" in data && data["name"].JStr?
    ensures r.Ok? ==> r.value == data["owner_id"].s + data["name"].s
    ensures r.Err? ==> r.error.BadRequest?
  {
    if "owner_id" !in data || !data["owner_id"].JStr? then Err(BadRequest("owner_id"))
    else if "name" !in data || !data["name"].JStr? then Err(BadRequest("name"))
    else Ok(data["owner_id"].s + data["name"].s)
  }

  /** The id is the digest of owner and name run together, so the split
      between them does not matter. */
  lemma IdIgnoresSplit(digest: string -> string)
    ensures var a := map["owner_id" := JStr("ab"), "name" := JStr("c")];
      var b := map["owner_id" := JStr("a"), "name" := JStr("bc")];
      HashKey(a).Ok? && HashKey(b).Ok? && digest(HashKey(a).value) == digest(HashKey(b).value)
  {
    var a := map["owner_id" := JStr("ab"), "name" := JStr("c")];
    var b := map["owner_id" := JStr("a"), "name" := JStr("bc")];
    assert HashKey(a).value == "abc" == HashKey(b).value;
  }

  /** A sha256 digest is a record id the loader accepts, so the file a macro
      is written to is loaded as a macro record. */
  lemma HexPathAccepted(id: string)
    requires HexDigest(id)
    ensures Accepted(MacroPath(id)) && Classify(MacroPath(id)) == MacroFile
  {
    var p := "macro";
    assert KindPrefix(p) by {
      forall k | 0 <= k < |p|
        ensures PrefixChar(p[k])
      {
      }
    }
    HexIsRecordId(id);
    ShapeAccepted(MacroPath(id), p, id);
    assert MacroPath(id)[..5] == p;
  }

  lemma HexIsRecordId(id: string)
    requires HexDigest(id)
    ensures RecordId(id)
  {
    forall k | 0 <= k < |id|
      ensures IdChar(id[k])
    {
      assert id[k] in "0123456789abcdef";
    }
    assert id[|id| - 1] in "0123456789abcdef";
  }

  // ----------------------------------------------------------------- create

  /** The request of create_macro up to from_dict: the id is set from the
      digest (replacing any "_id" the caller sent), "variables" is read by
      ast.literal_eval, and the result is decoded as a Macro. */
  function CreateRequest(data: map<string, Json>, digest: string -> string, codec: Codec): (r: Result<Macro, Failure>)
    ensures r.Ok? ==>
      HashKey(data).Ok? && r.value.id == digest(HashKey(data).value)
      && r.value.ownerId == data["owner_id"].s && r.value.name == data["name"].s
    ensures HashKey(data).Err? ==> r == Err(HashKey(data).error)
  {
    match HashKey(data)
    case Err(e) => Err(e)
    case Ok(key) =>
      if "variables" !in data || !data["variables"].JStr? then Err(BadRequest("variables"))
      else
        match codec.literal(data["variables"].s)
        case None => Err(BadRequest("variables"))
        case Some(vars) =>
          var fields := data["_id" := JStr(digest(key))]["variables" := vars];
          match MacroFromJson(JObj(fields))
          case Err(e) => Err(Decode(e))
          case Ok(m) =>
            assert Str(fields, "_id") == Ok(m.id);
            assert Str(fields, "owner_id") == Ok(m.ownerId);
            assert Str(fields, "name") == Ok(m.name);
            Ok(m)
  }

  /** An "_id" sent with the request is overwritten. */
  lemma CreateIgnoresGivenId(data: map<string, Json>, v: Json, digest: string -> string, codec: Codec)
    ensures CreateRequest(data["_id" := v], digest, codec) == CreateRequest(data, digest, codec)
  {
    var d := data["_id" := v];
    assert HashKey(d) == HashKey(data);
    if HashKey(data).Ok? && "variables" in data && data["variables"].JStr? {
      var id := JStr(digest(HashKey(data).value));
      assert d["_id" := id] == data["_id" := id];
    }
  }

  /** Everything create_macro reads before the trial build: the macro and
      the cached environment with the macro appended. */
  function CreatePlan(data: map<string, Json>, envCache: Option<Json>, digest: string -> string, codec: Codec): (r: Result<(Macro, Environment), Failure>)
    ensures r.Ok? ==>
      CreateRequest(data, digest, codec) == Ok(r.value.0)
      && envCache.Some? && EnvironmentFromJson(envCache.value).Ok?
      && r.value.1 == EnvironmentFromJson(envCache.value).value.(macros := EnvironmentFromJson(envCache.value).value.macros + [r.value.0])
    ensures CreateRequest(data, digest, codec).Err? ==> r == Err(CreateRequest(data, digest, codec).error)
    ensures CreateRequest(data, digest, codec).Ok? && envCache.None? ==> r == Err(FileNotFound(EnvPkl))
  {
    match CreateRequest(data, digest, codec)
    case Err(e) => Err(e)
    case Ok(m) =>
      match envCache
      case None => Err(FileNotFound(EnvPkl))
      case Some(j) =>
        match EnvironmentFromJson(j)
        case Err(e) => Err(Decode(e))
        case Ok(env) => Ok((m, env.(macros := env.macros + [m])))
  }

  /** create_macro: decode the request, append the macro to the cached
      environment, build it into the registry, and only if that succeeds
      write the record file. */
  method CreateMacro(store: Store, reg: Registry, data: map<string, Json>, digest: string -> string, codec: Codec, ev: Evaluator, roll: Dice)
    returns (r: Result<(), Failure>)
    modifies store, reg
    ensures var plan := CreatePlan(data, old(store.envCache), digest, codec);
      plan.Err? ==> r == Err(plan.error) && unchanged(store) && reg.entries == old(reg.entries)
    ensures var plan := CreatePlan(data, old(store.envCache), digest, codec);
      plan.Ok? ==>
        var m := plan.value.0;
        var out := EnvBuild(plan.value.1, old(reg.entries), ev, roll);
        reg.entries == out.registry
        && (out.result.Err? ==> r == Err(Build(out.result.error)) && unchanged(store))
        && (out.result.Ok? ==>
              r == Ok(())
              && store.records == old(store.records)[MacroPath(m.id) := codec.dump(MacroToJson(m))]
              && store.envCache == old(store.envCache) && store.swlCache == old(store.swlCache)
              && store.journal == old(store.journal) + [Wrote(MacroPath(m.id))])
  {
    var key := HashKey(data);
    if key.Err? {
      return Err(key.error);
    }
    if "variables" !in data || !data["variables"].JStr? {
      return Err(BadRequest("variables"));
    }
    var vars := codec.literal(data["variables"].s);
    if vars.None? {
      return Err(BadRequest("variables"));
    }
    var fields := data["_id" := JStr(digest(key.value))]["variables" := vars.value];
    var raw := MacroFromJson(JObj(fields));
    if raw.Err? {
      return Err(Decode(raw.error));
    }
    if store.envCache.None? {
      return Err(FileNotFound(EnvPkl));
    }
    var env := EnvironmentFromJson(store.envCache.value);
    if env.Err? {
      return Err(Decode(env.error));
    }
    var m := raw.value;
    var built := reg.Build(env.value.(macros := env.value.macros + [m]), ev, roll);
    if built.Err? {
      return Err(Build(built.error));
    }
    store.WriteRecord(MacroPath(m.id), codec.dump(MacroToJson(m)));
    r := Ok(());
  }

  /** The file create_macro writes is loaded back, on the next resolve, as
      exactly the macro that was built. */
  lemma CreatedRecordLoads(m: Macro, data: map<string, Json>, records: map<string, string>, digest: string -> string, codec: Codec)
    requires Sha256Like(digest) && Faithful(codec)
    requires CreateRequest(data, digest, codec) == Ok(m)
    requires MacroPath(m.id) in records && records[MacroPath(m.id)] == codec.dump(MacroToJson(m))
    ensures LoadAll([MacroPath(m.id)], records, codec) == Ok(Loaded([], [m]))
  {
    assert HexDigest(digest(HashKey(data).value));
    HexPathAccepted(m.id);
    MacroRoundTrip(m);
    assert codec.load(codec.dump(MacroToJson(m))) == Some(MacroToJson(m));
    MacroRecordLoaded(MacroPath(m.id), records, codec, m);
  }

  // ------------------------------------------------------------------- edit

  /** `for k, v in data.items(): data_from_json[k] = v`. */
  method Overlay(stored: map<string, Json>, data: map<string, Json>) returns (merged: map<string, Json>)
    ensures merged.Keys == stored.Keys + data.Keys
    ensures forall k :: k in data ==> merged[k] == data[k]
    ensures forall k :: k in stored && k !in data ==> merged[k] == stored[k]
  {
    merged := stored;
    var rest := data.Keys;
    while rest != {}
      invariant rest <= data.Keys
      invariant merged.Keys == stored.Keys + (data.Keys - rest)
      invariant forall k :: k in data && k !in rest ==> merged[k] == data[k]
      invariant forall k :: k in stored && k !in data ==> merged[k] == stored[k]
      invariant forall k :: k in stored && k in rest ==> merged[k] == stored[k]
      decreases rest
    {
      var k :| k in rest;
      merged := merged[k := data[k]];
      rest := rest - {k};
    }
  }

  /** The file a stored record is overlaid with the request, as a
      dictionary. */
  datatype Edit = Edit(path: string, merged: map<string, Json>, macro: Macro, env: Environment)

  /** Everything edit_macro reads before the trial build, in the order it
      reads it: the hashed id, the stored record, the overlaid macro, the
      cached environment. */
  function EditPlan(ref: string, data: map<string, Json>, records: map<string, string>, envCache: Option<Json>, digest: string -> string, codec: Codec): (r: Result<Edit, Failure>)
    ensures HashKey(data).Err? ==> r == Err(HashKey(data).error)
    ensures HashKey(data).Ok? && MacroPath(ref) !in records ==> r == Err(FileNotFound(MacroPath(ref)))
    ensures r.Ok? ==>
      var e := r.value;
      e.path == MacroPath(ref) && e.path in records
      && e.macro.id == digest(HashKey(data).value)
      && "_id" in e.merged && e.merged["_id"] == JStr(e.macro.id)
      && (forall k :: k in data && k != "_id" ==> k in e.merged && e.merged[k] == data[k])
      && MacroFromJson(JObj(e.merged)) == Ok(e.macro)
      && envCache.Some? && EnvironmentFromJson(envCache.value) == Ok(e.env)
    ensures r.Ok? ==>
      var stored := codec.load(records[MacroPath(ref)]);
      stored.Some? && stored.value.JObj?
      && r.value.merged.Keys == stored.value.fields.Keys + data.Keys + {"_id"}
      && forall k :: k in stored.value.fields && k !in data && k != "_id" ==> r.value.merged[k] == stored.value.fields[k]
    ensures HashKey(data).Ok? && MacroPath(ref) in records && codec.load(records[MacroPath(ref)]).None? ==>
      r == Err(NotJson(MacroPath(ref)))
    ensures HashKey(data).Ok? && MacroPath(ref) in records && envCache.None? ==>
      var stored := codec.load(records[MacroPath(ref)]);
      stored.Some? && stored.value.JObj?
      && MacroFromJson(JObj(stored.value.fields + data["_id" := JStr(digest(HashKey(data).value))])).Ok?
      ==> r == Err(FileNotFound(EnvPkl))
  {
    match HashKey(data)
    case Err(e) => Err(e)
    case Ok(key) =>
      var upd := data["_id" := JStr(digest(key))];
      var path := MacroPath(ref);
      if path !in records then Err(FileNotFound(path))
      else
        match codec.load(records[path])
        case None => Err(NotJson(path))
        case Some(stored) =>
          if !stored.JObj? then Err(Decode(NotAMapping))
          else
            var merged := stored.fields + upd;
            match MacroFromJson(JObj(merged))
            case Err(e) => Err(Decode(e))
            case Ok(m) =>
              assert Str(merged, "_id") == Ok(m.id);
              match envCache
              case None => Err(FileNotFound(EnvPkl))
              case Some(j) =>
                match EnvironmentFromJson(j)
                case Err(e) => Err(Decode(e))
                case Ok(env) => Ok(Edit(path, merged, m, env))
  }

  /** list.index: the first position holding a macro equal to x. */
  function IndexOf(xs: seq<Macro>, x: Macro): (k: nat)
    requires x in xs
    ensures k < |xs| && xs[k] == x && x !in xs[..k]
  {
    if xs[0] == x then 0
    else
      assert xs == [xs[0]] + xs[1..];
      var k := 1 + IndexOf(xs[1..], x);
      assert xs[..k] == [xs[0]] + xs[1..][..k - 1];
      k
  }

  /** The removal loop of edit_macro as Python runs it: iterating over the
      list while popping from it. A matching element is removed at the first
      position holding an equal macro, and the iteration goes on at the next
      index, so the element that moved into the current slot is skipped. */
  function IterPop(xs: seq<Macro>, i: nat, id: string): (r: seq<Macro>)
    requires i <= |xs| + 1
    ensures |r| <= |xs|
    decreases |xs| + 1 - i
  {
    if i >= |xs| then xs
    else if xs[i].id == id then
      var k := IndexOf(xs, xs[i]);
      assert xs == xs[..k] + [xs[k]] + xs[k + 1..];
      IterPop(xs[..k] + xs[k + 1..], i + 1, id)
    else IterPop(xs, i + 1, id)
  }

  /** The macros whose id differs from `id`, in order. */
  function Without(xs: seq<Macro>, id: string): seq<Macro> {
    if xs == [] then []
    else (if xs[0].id == id then [] else [xs[0]]) + Without(xs[1..], id)
  }

  lemma {:induction false} WithoutConcat(a: seq<Macro>, b: seq<Macro>, id: string)
    ensures Without(a + b, id) == Without(a, id) + Without(b, id)
    decreases |a|
  {
    if a != [] {
      assert (a + b)[0] == a[0] && (a + b)[1..] == a[1..] + b;
      WithoutConcat(a[1..], b, id);
    } else {
      assert a + b == b;
    }
  }

  lemma {:induction false} WithoutNone(xs: seq<Macro>, id: string)
    requires forall k :: 0 <= k < |xs| ==> xs[k].id != id
    ensures Without(xs, id) == xs
    decreases |xs|
  {
    if xs != [] {
      WithoutNone(xs[1..], id);
      assert xs == [xs[0]] + xs[1..];
    }
  }

  /** Removing a macro with the id leaves the others as they were. */
  lemma WithoutRemove(xs: seq<Macro>, k: nat, id: string)
    requires k < |xs| && xs[k].id == id
    ensures Without(xs[..k] + xs[k + 1..], id) == Without(xs, id)
  {
    var a, b := xs[..k], xs[k + 1..];
    assert xs == a + ([xs[k]] + b);
    WithoutConcat(a, [xs[k]] + b, id);
    WithoutCons(xs[k], b, id);
    WithoutConcat(a, b, id);
  }

  /** A macro with another id is kept by Without. */
  lemma {:induction false} WithoutHas(xs: seq<Macro>, id: string, x: Macro)
    requires x in xs && x.id != id
    ensures x in Without(xs, id)
    decreases |xs|
  {
    if xs[0] != x {
      assert x in xs[1..];
      WithoutHas(xs[1..], id, x);
    }
  }

  /** Without only keeps macros of its input. */
  lemma {:induction false} WithoutIn(xs: seq<Macro>, id: string, x: Macro)
    requires x in Without(xs, id)
    ensures x in xs
    decreases |xs|
  {
    if xs != [] && xs[0] != x {
      WithoutIn(xs[1..], id, x);
    }
  }

  /** Every macro with another id survives the removal loop. */
  lemma IterPopKeeps(xs: seq<Macro>, id: string, x: Macro)
    requires x in xs && x.id != id
    ensures x in IterPop(xs, 0, id)
  {
    IterPopKeepsOthers(xs, 0, id);
    WithoutHas(xs, id, x);
    WithoutIn(IterPop(xs, 0, id), id, x);
  }

  /** The removal loop never drops a macro with another id, nor reorders
      them. */
  lemma {:induction false} IterPopKeepsOthers(xs: seq<Macro>, i: nat, id: string)
    requires i <= |xs| + 1
    ensures Without(IterPop(xs, i, id), id) == Without(xs, id)
    decreases |xs| + 1 - i
  {
    if i < |xs| {
      if xs[i].id == id {
        var k := IndexOf(xs, xs[i]);
        IterPopKeepsOthers(xs[..k] + xs[k + 1..], i + 1, id);
        WithoutRemove(xs, k, id);
      } else {
        IterPopKeepsOthers(xs, i + 1, id);
      }
    }
  }

  lemma {:induction false} IterPopNone(xs: seq<Macro>, i: nat, id: string)
    requires i <= |xs| + 1
    requires forall k :: 0 <= k < |xs| ==> xs[k].id != id
    ensures IterPop(xs, i, id) == xs
    decreases |xs| + 1 - i
  {
    if i < |xs| {
      IterPopNone(xs, i + 1, id);
    }
  }

  /** At most one macro carries the id. */
  predicate AtMostOne(xs: seq<Macro>, id: string) {
    forall a, b :: 0 <= a < b < |xs| && xs[a].id == id ==> xs[b].id != id
  }

  /** Prepending a macro with another id commutes with Without. */
  lemma WithoutCons(x: Macro, xs: seq<Macro>, id: string)
    ensures Without([x] + xs, id) == (if x.id == id then [] else [x]) + Without(xs, id)
  {
    assert ([x] + xs)[0] == x && ([x] + xs)[1..] == xs;
  }

  /** With no match before i, the first position equal to a match at i is i. */
  lemma IndexOfFirstMatch(xs: seq<Macro>, i: nat, id: string)
    requires i < |xs| && xs[i].id == id
    requires forall j :: 0 <= j < i ==> xs[j].id != id
    ensures IndexOf(xs, xs[i]) == i
  {
    var k := IndexOf(xs, xs[i]);
    assert xs[k].id == id;
    assert k >= i;
    assert xs[i] !in xs[..k];
  }

  /** A match at i, the only one: removing it leaves no match. */
  lemma UniqueRemoved(xs: seq<Macro>, i: nat, id: string, ys: seq<Macro>)
    requires i < |xs| && xs[i].id == id && AtMostOne(xs, id)
    requires forall j :: 0 <= j < i ==> xs[j].id != id
    requires ys == xs[..i] + xs[i + 1..]
    ensures forall j :: 0 <= j < |ys| ==> ys[j].id != id
  {
    forall j | 0 <= j < |ys|
      ensures ys[j].id != id
    {
      if j >= i {
        assert ys[j] == xs[j + 1];
      }
    }
  }

  /** One step of the loop on a match at its first position. */
  lemma PopAt(xs: seq<Macro>, i: nat, id: string)
    requires i < |xs| && xs[i].id == id && IndexOf(xs, xs[i]) == i
    ensures IterPop(xs, i, id) == IterPop(xs[..i] + xs[i + 1..], i + 1, id)
  {
  }

  /** One step of the loop past a macro with another id. */
  lemma PopSkip(xs: seq<Macro>, i: nat, id: string)
    requires i < |xs| && xs[i].id != id
    ensures IterPop(xs, i, id) == IterPop(xs, i + 1, id)
  {
  }

  /** Moving a macro with another id from the suffix to the prefix. */
  lemma SkipPrefix(xs: seq<Macro>, i: nat, id: string)
    requires i < |xs| && xs[i].id != id
    ensures xs[..i + 1] + Without(xs[i + 1..], id) == xs[..i] + Without(xs[i..], id)
  {
    assert xs[i..] == [xs[i]] + xs[i + 1..];
    WithoutCons(xs[i], xs[i + 1..], id);
    assert xs[..i + 1] == xs[..i] + [xs[i]];
  }

  /** The loop on the only match, at its first position: that match is
      popped and nothing else is. */
  lemma PopUnique(xs: seq<Macro>, i: nat, id: string)
    requires i < |xs| && xs[i].id == id && AtMostOne(xs, id)
    requires forall j :: 0 <= j < i ==> xs[j].id != id
    ensures IterPop(xs, i, id) == xs[..i] + xs[i + 1..]
  {
    IndexOfFirstMatch(xs, i, id);
    var ys := xs[..i] + xs[i + 1..];
    PopAt(xs, i, id);
    UniqueRemoved(xs, i, id, ys);
    IterPopNone(ys, i + 1, id);
  }

  /** Removing the only match from the suffix that starts with it. */
  lemma WithoutUniqueAt(xs: seq<Macro>, i: nat, id: string)
    requires i < |xs| && xs[i].id == id && AtMostOne(xs, id)
    ensures Without(xs[i..], id) == xs[i + 1..]
  {
    var tail := xs[i + 1..];
    forall j | 0 <= j < |tail|
      ensures tail[j].id != id
    {
      assert tail[j] == xs[i + 1 + j];
    }
    WithoutNone(tail, id);
    assert xs[i..] == [xs[i]] + tail;
    WithoutCons(xs[i], tail, id);
  }

  /** The case of IterPopUniqueFrom where the match is at i. */
  lemma UniqueMatchAt(xs: seq<Macro>, i: nat, id: string)
    requires i < |xs| && xs[i].id == id && AtMostOne(xs, id)
    requires forall j :: 0 <= j < i ==> xs[j].id != id
    ensures IterPop(xs, i, id) == xs[..i] + Without(xs[i..], id)
  {
    PopUnique(xs, i, id);
    WithoutUniqueAt(xs, i, id);
  }

  lemma {:induction false} IterPopUniqueFrom(xs: seq<Macro>, i: nat, id: string)
    requires i <= |xs| && AtMostOne(xs, id)
    requires forall j :: 0 <= j < i ==> xs[j].id != id
    ensures IterPop(xs, i, id) == xs[..i] + Without(xs[i..], id)
    decreases |xs| - i
  {
    if i == |xs| {
      assert xs[i..] == [] && xs[..i] == xs;
    } else if xs[i].id == id {
      UniqueMatchAt(xs, i, id);
    } else {
      PopSkip(xs, i, id);
      IterPopUniqueFrom(xs, i + 1, id);
      SkipPrefix(xs, i, id);
    }
  }

  /** When at most one cached macro has the edited id, the loop removes
      exactly the macros with that id. */
  lemma IterPopUnique(xs: seq<Macro>, id: string)
    requires AtMostOne(xs, id)
    ensures IterPop(xs, 0, id) == Without(xs, id)
  {
    IterPopUniqueFrom(xs, 0, id);
    assert xs[0..] == xs;
  }

  /** Of two adjacent macros with the edited id, the second survives the
      loop: it moves into the slot just visited and is skipped. */
  lemma IterPopSkipsNeighbour(a: Macro, b: Macro)
    requires a.id == b.id
    ensures IterPop([a, b], 0, a.id) == [b]
  {
    var xs := [a, b];
    assert IndexOf(xs, a) == 0;
    assert xs[..0] + xs[1..] == [b];
  }

  /** The removal loop as a method over the list it mutates. */
  method RemoveSameId(ms: seq<Macro>, id: string) returns (kept: seq<Macro>)
    ensures kept == IterPop(ms, 0, id)
  {
    kept := ms;
    var i := 0;
    while i < |kept|
      invariant i <= |kept| + 1
      invariant IterPop(ms, 0, id) == IterPop(kept, i, id)
      decreases |kept| + 1 - i
    {
      var mac := kept[i];
      if mac.id == id {
        var k := IndexOf(kept, mac);
        kept := kept[..k] + kept[k + 1..];
      }
      i := i + 1;
    }
  }

  /** The environment edit_macro builds: the cached one with the edited
      macro's id removed by the loop and the edited macro appended. */
  function EditedEnvironment(e: Edit): (env: Environment)
    ensures env.packages == e.env.packages
    ensures |env.macros| >= 1 && env.macros[|env.macros| - 1] == e.macro
    ensures Without(env.macros[..|env.macros| - 1], e.macro.id) == Without(e.env.macros, e.macro.id)
  {
    var kept := IterPop(e.env.macros, 0, e.macro.id);
    IterPopKeepsOthers(e.env.macros, 0, e.macro.id);
    assert (kept + [e.macro])[..|kept|] == kept;
    e.env.(macros := kept + [e.macro])
  }

  /** The trial build removes only the cached macros carrying the NEW id.
      A cached macro with the edited macro's name but another id (the old
      macro, when the edit changed the owner or the name) stays in the list,
      so the edited macro's name is taken when its turn comes: the edit is
      refused, with NameAlreadyUsedError whenever the rest of the list builds. */
  lemma StaleNameRefused(e: Edit, o: Macro, reg: Scope, ev: Evaluator, roll: Dice)
    requires o in e.env.macros && o.id != e.macro.id && o.name == e.macro.name
    ensures EnvBuild(EditedEnvironment(e), reg, ev, roll).result.Err?
    ensures var rest := e.env.(macros := IterPop(e.env.macros, 0, e.macro.id));
      EnvBuild(rest, reg, ev, roll).result.Ok? ==>
        EnvBuild(EditedEnvironment(e), reg, ev, roll).result == Err(Rejected(NameAlreadyUsedError(e.macro.name)))
  {
    var kept := IterPop(e.env.macros, 0, e.macro.id);
    IterPopKeeps(e.env.macros, e.macro.id, o);
    var rest := e.env.(macros := kept);
    assert EditedEnvironment(e) == rest.(macros := rest.macros + [e.macro]);
    AppendMacro(rest, e.macro, reg, ev, roll);
    if EnvBuild(rest, reg, ev, roll).result.Ok? {
      var items := Items(rest);
      EnvFoldOk(items, 0, reg, ev, roll);
      var j :| 0 <= j < |kept| && kept[j] == o;
      assert items[|rest.packages| + j] == MacroItem(o);
      assert o.name in (set k | 0 <= k < |items| :: items[k].Name());
    }
  }

  /** An edit that keeps a macro's name but gives it another owner gets a
      new id, so the cached macro it was meant to replace is still there:
      such an edit is always refused. */
  lemma OwnerOnlyEditRefused(ref: string, data: map<string, Json>, records: map<string, string>, envCache: Option<Json>,
                             digest: string -> string, codec: Codec, e: Edit, o: Macro, reg: Scope, ev: Evaluator, roll: Dice)
    requires EditPlan(ref, data, records, envCache, digest, codec) == Ok(e)
    requires o in e.env.macros && data["name"] == JStr(o.name)
    requires o.id != digest(HashKey(data).value)
    ensures EnvBuild(EditedEnvironment(e), reg, ev, roll).result.Err?
  {
    assert e.merged["name"] == data["name"];
    StaleNameRefused(e, o, reg, ev, roll);
  }

  /** edit_macro: overlay the request on the stored record, rebuild the
      cached environment with the edited macro in place of the old one, and
      only if that succeeds rewrite the record and rename it after the new
      id. */
  method EditMacro(store: Store, reg: Registry, ref: string, data: map<string, Json>, digest: string -> string, codec: Codec, ev: Evaluator, roll: Dice)
    returns (r: Result<(), Failure>)
    modifies store, reg
    ensures var plan := EditPlan(ref, data, old(store.records), old(store.envCache), digest, codec);
      plan.Err? ==> r == Err(plan.error) && unchanged(store) && reg.entries == old(reg.entries)
    ensures var plan := EditPlan(ref, data, old(store.records), old(store.envCache), digest, codec);
      plan.Ok? ==>
        var e := plan.value;
        var out := EnvBuild(EditedEnvironment(e), old(reg.entries), ev, roll);
        reg.entries == out.registry
        && (out.result.Err? ==> r == Err(Build(out.result.error)) && unchanged(store))
        && (out.result.Ok? ==>
              r == Ok(())
              && store.records == (old(store.records) - {e.path})[MacroPath(e.macro.id) := codec.dump(JObj(e.merged))]
              && store.envCache == old(store.envCache) && store.swlCache == old(store.swlCache)
              && store.journal == old(store.journal) + [Wrote(e.path), Renamed(e.path, MacroPath(e.macro.id))])
  {
    var plan := ReadEdit(store, ref, data, digest, codec);
    if plan.Err? {
      return Err(plan.error);
    }
    r := ApplyEdit(store, reg, plan.value, codec, ev, roll);
  }

  /** The writing half of edit_macro: the trial build of the cached
      environment with the edited macro in place of the macros carrying its
      id, then, only if that succeeds, the record rewritten and renamed
      after the new id. */
  method ApplyEdit(store: Store, reg: Registry, e: Edit, codec: Codec, ev: Evaluator, roll: Dice)
    returns (r: Result<(), Failure>)
    requires e.path in store.records
    modifies store, reg
    ensures var out := EnvBuild(EditedEnvironment(e), old(reg.entries), ev, roll);
      reg.entries == out.registry
      && (out.result.Err? ==> r == Err(Build(out.result.error)) && unchanged(store))
      && (out.result.Ok? ==>
            r == Ok(())
            && store.records == (old(store.records) - {e.path})[MacroPath(e.macro.id) := codec.dump(JObj(e.merged))]
            && store.envCache == old(store.envCache) && store.swlCache == old(store.swlCache)
            && store.journal == old(store.journal) + [Wrote(e.path), Renamed(e.path, MacroPath(e.macro.id))])
  {
    var kept := RemoveSameId(e.env.macros, e.macro.id);
    var edited := e.env.(macros := kept + [e.macro]);
    assert edited == EditedEnvironment(e);
    var built := reg.Build(edited, ev, roll);
    if built.Err? {
      return Err(Build(built.error));
    }
    ghost var before := store.records;
    var text := codec.dump(JObj(e.merged));
    store.WriteRecord(e.path, text);
    store.RenameRecord(e.path, MacroPath(e.macro.id));
    assert store.records == (before[e.path := text] - {e.path})[MacroPath(e.macro.id) := text];
    assert before[e.path := text] - {e.path} == before - {e.path};
    r := Ok(());
  }

  /** The reading half of edit_macro: the id from the request, the stored
      record overlaid with the request, the decoded macro and the cached
      environment, each step failing as the edit specification says. */
  method ReadEdit(store: Store, ref: string, data: map<string, Json>, digest: string -> string, codec: Codec)
    returns (plan: Result<Edit, Failure>)
    ensures plan == EditPlan(ref, data, store.records, store.envCache, digest, codec)
  {
    var key := HashKey(data);
    if key.Err? {
      return Err(key.error);
    }
    var upd := data["_id" := JStr(digest(key.value))];
    var path := MacroPath(ref);
    if path !in store.records {
      return Err(FileNotFound(path));
    }
    var stored := codec.load(store.records[path]);
    if stored.None? {
      return Err(NotJson(path));
    }
    if !stored.value.JObj? {
      return Err(Decode(NotAMapping));
    }
    var merged := Overlay(stored.value.fields, upd);
    assert merged == stored.value.fields + upd;
    var m := MacroFromJson(JObj(merged));
    if m.Err? {
      return Err(Decode(m.error));
    }
    if store.envCache.None? {
      return Err(FileNotFound(EnvPkl));
    }
    var env := EnvironmentFromJson(store.envCache.value);
    if env.Err? {
      return Err(Decode(env.error));
    }
    plan := Ok(Edit(path, merged, m.value, env.value));
  }

  /** After a successful edit the renamed file is loaded back as the edited
      macro. */
  lemma EditedRecordLoads(e: Edit, ref: string, data: map<string, Json>, before: map<string, string>, envCache: Option<Json>,
                           records: map<string, string>, digest: string -> string, codec: Codec)
    requires Sha256Like(digest) && Faithful(codec)
    requires EditPlan(ref, data, before, envCache, digest, codec) == Ok(e)
    requires MacroPath(e.macro.id) in records && records[MacroPath(e.macro.id)] == codec.dump(JObj(e.merged))
    ensures LoadAll([MacroPath(e.macro.id)], records, codec) == Ok(Loaded([], [e.macro]))
  {
    assert HexDigest(digest(HashKey(data).value));
    HexPathAccepted(e.macro.id);
    assert codec.load(codec.dump(JObj(e.merged))) == Some(JObj(e.merged));
    MacroRecordLoaded(MacroPath(e.macro.id), records, codec, e.macro);
  }

  // ----------------------------------------------------------------- delete

  /** delete_macro: unlink the record file; a missing file is an error. */
  method DeleteMacro(store: Store, ref: string) returns (r: Result<(), Failure>)
    modifies store
    ensures MacroPath(ref) in old(store.records) ==>
      r == Ok(()) && store.records == old(store.records) - {MacroPath(ref)}
      && store.journal == old(store.journal) + [Unlinked(MacroPath(ref))]
    ensures MacroPath(ref) !in old(store.records) ==>
      r == Err(FileNotFound(MacroPath(ref))) && store.records == old(store.records)
      && store.journal == old(store.journal)
    ensures store.envCache == old(store.envCache) && store.swlCache == old(store.swlCache)
  {
    r := store.UnlinkRecord(MacroPath(ref));
  }
}
