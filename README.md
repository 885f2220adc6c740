# swirl: resolution and build engine, modelled in Dafny

swirl keeps user-defined *macros* (a named formula over declared variables)
and *packages* (namespaces of macros that may depend on other packages) as
JSON record files in one directory. This project models the engine behind it.

- **Resolve** (`swirl/resolver.py`):
  - list the record directory and keep the files whose names match the record
    pattern;
  - decode each kept file as a `Macro` or a `Package`;
  - build the resulting `Environment` into the evaluator's builtin registry;
  - only then replace the two cache files, `env.pkl` and `swl.pkl`, and return
    the environment as JSON text.
- **Build** (`swirl/data_models.py`):
  - A macro is compiled, then validated, then tried once on random arguments
    between 5 and 10.
  - Validation covers the name pattern, the variable pattern, the 30-character
    limit, Python keywords and the order in which the checks raise.
  - A package builds its dependencies, then its own macros in the scope of
    those dependencies.
  - The environment inserts every package, then every macro, into the shared
    registry and refuses a name that is already present.
- **Edit** (`swirl/macro_builder.py`): create, edit and delete a macro record.
  - Create and edit write a record only after a trial build of the cached
    environment with the new macro in it has succeeded.
  - Edit overlays the request on the stored record and computes the new id.
    Before the trial build, it removes the cached macros that carry the NEW
    id, popping while it iterates. When an edit changes the owner or the
    name, the old macro keeps its old id and stays in the list. An edit that
    changes only the owner is therefore always refused; when the rest of
    the cached environment builds, the error is NameAlreadyUsedError for
    the edited name. On success the record is rewritten and renamed
    after the new id.
- **Errors** (`tests/errors.py`): the four `SwirlError` kinds and their
  messages.

The modules follow the program's structure:

- `Common`: options, results and JSON values.
- `Errors`.
- `Grammar`: the regular expressions, as greedy scanners with declarative or
  automaton references.
- `Models`: the dataclasses.
- `Validator`.
- `Builder`, with its proofs in `BuildFacts`.
- `Records`: dacite `from_dict` and `dataclasses.asdict` on JSON values.
- `Storage`: a `Store` class holding the record directory, the two cache
  files and a ghost journal of file changes.
- `Resolver`.
- `MacroBuilder`.

Things outside the program's own logic become parameters:

- The formula evaluator (`eval` of the generated lambda and `simple_eval`) is
  an `Evaluator`.
- `random.randint` is a `Dice`, whose `Fair` predicate bounds it to 5..10.
- `json.load`, `json.dump` and `ast.literal_eval` form a `Codec`. `Faithful`
  says that load reads back what dump wrote.
- The sha256 hex digest is a `string -> string`.
- The directory listing is a sequence of names.

## Model

| member | source | states |
|---|---|---|
| Errors.SwirlError.Message | tests/errors.py:10-36 | the message is the token in double quotes followed by the kind's fixed text |
| Errors.KeywordAndUsedShareMessage | tests/errors.py:24-36 | KeywordNameError and NameAlreadyUsedError word their messages identically |
| Errors.MessageDeterminesError | tests/errors.py:2-36 | a message determines its token, and its error kind except between the two kinds that share a wording |
| Grammar.NameMatch | swirl/data_models.py:168-169 | re.match of the name pattern returns the longest prefix that matches it, or nothing when no prefix matches |
| Grammar.VarMatchIsLongest | swirl/data_models.py:182-186 | the greedy scan of the variable pattern returns the longest prefix the pattern's automaton accepts, or nothing when none is accepted |
| Grammar.Strip | swirl/data_models.py:185 | str.strip: the result is the input with its leading and trailing Unicode whitespace removed, and it starts and ends with a non-space |
| Validator.IsValidLength | swirl/data_models.py:197-201 | passes iff the match is at most 30 characters long; otherwise LengthError names the match |
| Validator.IsChar | swirl/data_models.py:203-207 | passes iff the text is one character; otherwise InvalidNameError names the text |
| Validator.IsEqual | swirl/data_models.py:209-213 | passes iff the match is the whole text; otherwise InvalidNameError names the raw text |
| Validator.IsNotKeyword | swirl/data_models.py:215-219 | passes iff the match is not a Python keyword; otherwise KeywordNameError names it |
| Validator.IsValidName | swirl/data_models.py:167-178 | a passing name is 1 to 30 characters long; a refusal is a length, name or keyword error, and an InvalidNameError names the whole raw name |
| Validator.IsValidVariables | swirl/data_models.py:180-195 | the loop passes iff every declaration passes; otherwise it raises the error of the first declaration that fails |
| Validator.ValidateMacro | swirl/data_models.py:143-146 | validate checks the name, then the variables, as the specification function does |
| Validator.NameValidIff | swirl/data_models.py:167-178 | a name passes iff its longest matching prefix is all of it, at most 30 characters long and not a keyword, or it is a single character the pattern does not match |
| Validator.NameCheckOrder | swirl/data_models.py:170-174 | the length check raises first, then the equality check, then the keyword check |
| Validator.LongPrefixThenJunk | swirl/data_models.py:170-174 | a 31-character valid prefix followed by a hyphen raises LengthError naming the prefix, not InvalidNameError |
| Validator.VariableValidIff | swirl/data_models.py:180-193 | a declaration passes iff its stripped text is matched in full, is at most 30 characters long and is not a keyword, or it is one character the pattern does not match |
| Validator.BlankVariableRejected | swirl/data_models.py:185-193 | a declaration that is blank after stripping raises InvalidNameError("") |
| Validator.AcceptedDefaultChars | swirl/data_models.py:182 | after an '=' in an accepted declaration come only blanks and characters of the default's class |
| Validator.SpacedDefaultAccepted | swirl/data_models.py:182-191 | " n = 2.5 " is accepted |
| Validator.ForeignDefaultRejected | swirl/data_models.py:182-190 | "x=abc" raises InvalidNameError, because the default's class stops the match early |
| Validator.KeywordRejected | swirl/data_models.py:167-191 | every one of the 35 reserved keywords, used as a macro name or as a variable, raises KeywordNameError naming it |
| Validator.FirstFailingVariable | swirl/data_models.py:183-193 | the variables check raises the error of the first failing declaration |
| Validator.ValidateIff | swirl/data_models.py:143-146 | validate passes iff the name and every variable pass; a failing name is reported before any variable |
| Validator.AllPass | swirl/data_models.py:183-195 | the variables pass iff each declaration passes |
| Validator.AcceptedLengths | swirl/data_models.py:197-201 | a validated macro's name and stripped declarations are at most 30 characters long |
| Builder.FilterDefaults | swirl/data_models.py:140-141 | the result is the text before the first '=' (all of it when there is none), untrimmed |
| Builder.TestExpression | swirl/data_models.py:150-154 | without variables the trial expression is the bare name; with variables it is the name applied to a parenthesised argument list |
| Builder.SelfTest | swirl/data_models.py:158-165 | the self-test fails iff evaluating the trial call raises an error other than ZeroDivisionError, and then raises that error |
| Builder.MacroBuild | swirl/data_models.py:115-138 | a built macro passed validation and is the compiled formula; a validation error is raised only once the formula compiled; a crash comes from compiling, or from the self-test of a valid macro |
| Builder.BuildMacro | swirl/data_models.py:115-138 | Macro.build computes what the macro build specification says: compile, then validate, then the self-test |
| Builder.BuildPackage | swirl/data_models.py:82-103 | Package.build's two insertion loops compute the package build specification |
| Builder.Registry.Build | swirl/data_models.py:25-49 | Environment.build leaves the registry and the result the environment build specification gives, failed builds included |
| BuildFacts.SampleInRange | swirl/data_models.py:150-151 | the trial call has one argument per variable, each between 5 and 10 |
| BuildFacts.TrialCallText | swirl/data_models.py:150-154 | the trial call text is "f(5, 10)" for rolls 5 and 10, and the bare name for a macro without variables |
| BuildFacts.MacroBuildOkIff | swirl/data_models.py:115-138 | a macro builds iff it compiles, passes validation and its trial call returns or divides by zero |
| BuildFacts.CompileBeforeValidate | swirl/data_models.py:126-136 | a compile error is raised even when the macro would fail validation |
| BuildFacts.InvalidMacroRejected | swirl/data_models.py:136 | once the macro compiles, a validation failure is what the build raises |
| BuildFacts.BuiltMacroIsValid | swirl/data_models.py:136-138 | a built macro has a valid name of at most 30 characters and valid declarations, each at most 30 characters once stripped |
| BuildFacts.BuiltinWins | swirl/data_models.py:119 | in env \| DEFAULT_PACKAGES a builtin shadows an env entry with the same name |
| BuildFacts.FilterDefaultsExamples | swirl/data_models.py:140-141 | "n=2" gives "n", "n = 2" gives "n " and "rate" gives "rate" |
| BuildFacts.CollectFacts | swirl/data_models.py:84-98 | an insertion loop succeeds iff every item builds and no name repeats; then it holds every item under its name, in order |
| BuildFacts.CollectRepeated | swirl/data_models.py:86-98 | the first repeated name is raised as NameAlreadyUsedError |
| BuildFacts.PackageBuildOkIff | swirl/data_models.py:82-103 | a package builds iff its dependencies build with distinct names and its own macros build in their scope with distinct names |
| BuildFacts.BuiltPackageShape | swirl/data_models.py:100-103 | a built package has the package's name, and its bases are the built dependencies in order |
| BuildFacts.BuiltPackageMembers | swirl/data_models.py:92-98 | a built package holds one member per own macro: that macro built in the dependencies' scope |
| BuildFacts.DependencyScopeShape | swirl/data_models.py:83-96 | the own macros see every built dependency under its name |
| BuildFacts.PackageRepeatedDependency | swirl/data_models.py:84-90 | the first repeated dependency name is what Package.build raises |
| BuildFacts.EnvFoldKeeps | swirl/data_models.py:30-47 | Environment.build never replaces a name already in the registry |
| BuildFacts.EnvFoldOk | swirl/data_models.py:25-49 | a successful build returns the registry itself, with every item's name in it |
| BuildFacts.NoRollback | swirl/data_models.py:34-47 | an item inserted before a later failure stays in the registry |
| BuildFacts.EnvFoldSnoc | swirl/data_models.py:40-47 | building one more item is one more insertion step after building the rest |
| BuildFacts.AppendMacro | swirl/data_models.py:40-47 | building an environment with a macro appended extends the original build by that macro |
| BuildFacts.TakenNameRefused | swirl/data_models.py:44-47 | an appended macro named like a builtin, package or earlier macro raises NameAlreadyUsedError |
| BuildFacts.RebuildCollides | swirl/data_models.py:28-49 | building the same non-empty environment twice into the shared registry fails the second time |
| Records.MacroFromJson | swirl/resolver.py:54-55 | decoding succeeds iff the data is a mapping and every Macro field reads; each field of the result is the value stored under its key; a non-mapping and a missing `_id` are refused as such |
| Records.MacroRoundTrip | swirl/resolver.py:54-55 | from_dict(Macro, asdict(m)) gives m back |
| Records.MacroListRoundTrip | swirl/resolver.py:54-55 | a list of macro dictionaries reads back as the list of macros |
| Records.PackageRoundTrip | swirl/resolver.py:58-59 | from_dict(Package, asdict(p)) gives p back, nested dependencies included |
| Records.EnvironmentRoundTrip | swirl/resolver.py:66 | the cached environment dictionary reads back as the environment |
| Records.MacroIgnoresUnknownKeys | swirl/resolver.py:54-55 | keys that are not Macro fields do not change what from_dict builds |
| Records.MacroOptionalFields | swirl/data_models.py:106-113 | an absent or null variables list reads as empty; an absent description reads as None; a missing formula is refused |
| Records.MacroFieldOrder | swirl/data_models.py:106-113 | fields are read in declaration order, so the first bad field is the one reported |
| Storage.Store.WriteRecord | swirl/macro_builder.py:37-38 | the record file gets the new text; nothing else changes |
| Storage.Store.RenameRecord | swirl/macro_builder.py:77 | the text moves to the new name, replacing any file there |
| Storage.Store.UnlinkRecord | swirl/macro_builder.py:82 | an existing record is removed; a missing one raises FileNotFoundError and nothing changes |
| Resolver.FileMatch | swirl/resolver.py:29-34 | re.search returns a prefix of the file name |
| Resolver.AcceptedIff | swirl/resolver.py:29-34 | a name is loaded iff it is a run of the characters p,a,c,k,g,e,m,r,o,\| then '.', then at least two id characters not ending in '_', then ".json" |
| Resolver.Classify | swirl/resolver.py:39-45 | a name starting with "macro" is a macro record; otherwise one starting with "package" is a package record; otherwise it is read and dropped |
| Resolver.MacroNameExample | swirl/resolver.py:29-41 | "macro.ab.json" is loaded as a macro |
| Resolver.PackageNameExample | swirl/resolver.py:29-45 | "package.x1.json" is loaded as a package |
| Resolver.CharClassPrefixExample | swirl/resolver.py:29-45 | "pam.x1.json" matches the pattern, since the prefix is a character class, and is then dropped |
| Resolver.ShortIdRefused | swirl/resolver.py:29-34 | "macro.a.json", whose id has one character, is not loaded (AcceptedIff gives the general id rule) |
| Resolver.UnderscoreIdRefused | swirl/resolver.py:29-34 | "macro.ab_.json", whose id ends in '_', is not loaded (AcceptedIff gives the general id rule) |
| Resolver.TrailingTextRefused | swirl/resolver.py:29-34 | "macro.ab.json.bak" is not loaded: the match is shorter than the name |
| Resolver.LoadFromErr | swirl/resolver.py:37-45 | once a record is refused, later files change nothing |
| Resolver.LoadAllConcat | swirl/resolver.py:31-45 | loading a + b is loading a then b, keeping listing order; the first refusal wins |
| Resolver.SkippedFileIgnored | swirl/resolver.py:32-47 | a file the pattern refuses, text that is not JSON, or a name of no kind changes nothing |
| Resolver.RefusedRecordAborts | swirl/resolver.py:39-45 | a macro or package record dacite refuses stops the load with that error, whatever follows |
| Resolver.MacroRecordLoaded | swirl/resolver.py:39-41 | a well-formed macro record contributes exactly its macro |
| Resolver.LoadEnvironment | swirl/resolver.py:24-51 | the environment has id "" and holds the loaded packages and macros; a refusal is passed on as is; an empty directory gives an empty environment |
| Resolver.CreateEnvClass | swirl/resolver.py:24-51 | the loop computes the load specification: an Environment with id "" holding the records in listing order, or the first refusal |
| Resolver.DeleteCache | swirl/resolver.py:75-82 | both cache files are gone: env.pkl unlinked first, then swl.pkl; records unchanged |
| Resolver.CreateCache | swirl/resolver.py:85-93 | swl.pkl holds the registry and env.pkl the environment dictionary, written in that order |
| Resolver.Resolve | swirl/resolver.py:62-72 | a failed load or build leaves the cache alone; otherwise the cache is replaced and the result is the JSON of the environment |
| MacroBuilder.HashKey | swirl/macro_builder.py:21 | the hashed text is owner_id followed by name; a request lacking either string is refused |
| MacroBuilder.IdIgnoresSplit | swirl/macro_builder.py:21-22 | owner "ab" with name "c" gets the same id as owner "a" with name "bc" |
| MacroBuilder.HexPathAccepted | swirl/macro_builder.py:26 | the file named after a sha256 hex id matches the loader's pattern and is read as a macro |
| MacroBuilder.CreateRequest | swirl/macro_builder.py:21-25 | a decoded request has id = digest(owner_id + name) and the request's owner and name |
| MacroBuilder.CreateIgnoresGivenId | swirl/macro_builder.py:22 | an "_id" sent with the request is overwritten and changes nothing |
| MacroBuilder.CreatePlan | swirl/macro_builder.py:19-31 | the macro is appended to the cached environment; a missing cache raises FileNotFoundError |
| MacroBuilder.CreateMacro | swirl/macro_builder.py:19-38 | the record is written only after the trial build succeeds; any earlier failure leaves the store unchanged |
| MacroBuilder.CreatedRecordLoads | swirl/macro_builder.py:36-38 | with a sha256-like digest, the record written for a request loads back as exactly the requested macro |
| MacroBuilder.Overlay | swirl/macro_builder.py:51-52 | the request's values replace the stored ones; other stored keys are kept |
| MacroBuilder.EditPlan | swirl/macro_builder.py:41-57 | the edited record holds the stored record's keys, the request's keys and `_id`; the request's values and the new id win, and every other stored value is kept; the edited macro decodes from it; a missing record file or cache raises FileNotFoundError, a record that is not JSON is refused, and a bad owner or name is a bad request |
| MacroBuilder.IndexOf | swirl/macro_builder.py:64 | list.index returns the first position holding an equal macro |
| MacroBuilder.IterPop | swirl/macro_builder.py:60-64 | the loop as Python runs it, popping while iterating: the list never grows (survival of the other macros is IterPopKeepsOthers) |
| MacroBuilder.IterPopKeepsOthers | swirl/macro_builder.py:60-64 | the removal loop keeps every macro with another id, in order |
| MacroBuilder.IterPopUnique | swirl/macro_builder.py:60-64 | when at most one cached macro has the id, the loop removes exactly that one |
| MacroBuilder.IterPopSkipsNeighbour | swirl/macro_builder.py:60-64 | on the two-element list [a, b] whose macros both carry the id, only a is removed: the iterator skips b after the pop |
| MacroBuilder.RemoveSameId | swirl/macro_builder.py:60-64 | the loop, popping while it iterates, computes the removal specification |
| MacroBuilder.EditedEnvironment | swirl/macro_builder.py:59-65 | the rebuilt environment has the same packages, the macros with other ids in order, and the edited macro last |
| MacroBuilder.StaleNameRefused | swirl/macro_builder.py:59-68 | the loop removes only macros carrying the new id, so a cached macro with the edited name but another id makes the trial build fail, with NameAlreadyUsedError when the rest builds |
| MacroBuilder.OwnerOnlyEditRefused | swirl/macro_builder.py:45-68 | an edit that keeps the name but changes the id (a new owner) is always refused by the trial build |
| MacroBuilder.EditMacro | swirl/macro_builder.py:41-77 | the record is rewritten and renamed after the new id only after the trial build succeeds |
| MacroBuilder.ReadEdit | swirl/macro_builder.py:41-57 | reading the record file, overlaying the request, decoding the edited macro and loading the cached environment, step by step, yields the edit plan or its first failure |
| MacroBuilder.ApplyEdit | swirl/macro_builder.py:59-77 | the registry is rebuilt from the cached environment with the macros carrying the new id removed and the edited macro appended; a failed build leaves the store unchanged; only a successful build rewrites the record and renames it after the new id, journals both steps and leaves both caches as they were |
| MacroBuilder.EditedRecordLoads | swirl/macro_builder.py:72-77 | with a sha256-like digest, the renamed record of a planned edit loads back as the edited macro |
| MacroBuilder.DeleteMacro | swirl/macro_builder.py:80-82 | the record file is removed; a missing file raises FileNotFoundError |

## Left out

- Python's `type(...)`: the class a package builds, its method resolution order, and `__module__`. A built package is a `Namespace` with its name, its bases and its members.
- `eval` of the generated lambda and `simple_eval`. These are the `Evaluator` parameter; only ZeroDivisionError is told apart from other exceptions.
- The byte formats of dill pickles and JSON text. A cache file holds the value dumped into it. JSON text goes through the `Codec` parameter.
- `json.dump(..., indent=4)` in edit_macro. Indentation is part of the codec's text.
- Logging, and the `print("found same")` in edit_macro.
- I/O failures other than a missing file. Permissions, disk errors and directory entries that are not files are not modelled.
- The two directory paths. Paths are reduced to the file names inside one record directory and one cache directory.
- Storage.Store.UnlinkRecord: the journal records an unlink only for a record that existed. DeleteCache records both cache unlinks even when the files were already missing, because `missing_ok=True` makes both outcomes the same.
- Records.MacroToJson, Records.PackageToJson and Records.EnvironmentToJson: a list field that Python holds as `None` is written as `[]`, where `asdict` and `json.dump(s)` write `null` (swirl/resolver.py:66,71; swirl/macro_builder.py:38). The decoders read an absent or null list as the empty list, so the model has no `None` list. Resolve's returned text and the record CreateMacro writes therefore differ from Python's where a list is `None`: a record that holds `null` for the list or lacks it, or a create request whose variables literal is `None`.
- MacroBuilder.EditMacro and MacroBuilder.CreateMacro: a cached environment whose macro list is `None` is read as an empty list. Python would raise TypeError at `for mac in env.macros` (swirl/macro_builder.py:60) and AttributeError at `env.macros.append` (swirl/macro_builder.py:31). A cache written by Resolve always holds a list there.
- Records.MacroFromJson and Records.PackageFromJson: dacite's exception classes and their dotted field paths are reduced to MissingValue, WrongType and NotAMapping, each naming the field that failed. A failure inside a nested record names the innermost field, without dacite's dotted path: a package whose first macro lacks "formula" gives MissingValue("formula"), where dacite reports "macros.formula".
- MacroBuilder.HashKey: a request whose owner_id or name is not a string is reported as BadRequest. Python would concatenate two lists and hash that text, or raise TypeError for mixed types.
- MacroBuilder.CreateRequest: a "variables" value that is not a string, or that ast.literal_eval refuses, is reported as BadRequest.
- MacroBuilder.EditPlan: a stored record that is JSON but not an object is reported as Decode(NotAMapping). Python would raise TypeError while overlaying it.
- Builder.MacroBuild: a dependency shared by two packages is built twice. The model gives both builds the same random draws, because the draws are a function of the macro and the argument position.
- Python 3.9's extra keyword `__peg_parser__`. The keyword list is the 35 words of later versions.
- The builtin names of `evl.DEFAULT_PACKAGES` are the registry's initial contents, a constructor parameter. Their values come from code outside the model.
