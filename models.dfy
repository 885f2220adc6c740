/** The entities of swirl/data_models.py and the values a build produces. */
module Models {

  import opened Common

  /** A named formula. `variables` holds declarations such as "n" or
      "n = 2"; a missing list (None) is the empty list, which every use
      in swirl/data_models.py (its `if self.variables:` guards) treats the
      same way. The JSON writers differ: see Records.MacroToJson under
      "Left out" in README.md. */
  datatype Macro = Macro(
    id: string,
    ownerId: string,
    name: string,
    variables: seq<string>,
    formula: string,
    description: Option<string>)

  /** A namespace of macros that may depend on other packages. */
  datatype Package = Package(
    id: string,
    ownerId: string,
    name: string,
    description: Option<string>,
    dateCreated: string,
    macros: seq<Macro>,
    dependencies: seq<Package>)

  /** The root container loaded from the record directory. */
  datatype Environment = Environment(id: string, packages: seq<Package>, macros: seq<Macro>)

  /** What compiling a macro yields: the callable, or for a macro without
      variables the already evaluated formula. Opaque to the model. */
  datatype Value = Value(handle: nat)

  /** A built package: the class `type(name, deps, macros)` creates, kept as
      its own macro map plus its parent namespaces in dependency order.
      Attribute lookup through the parents is not modelled. */
  datatype Namespace = Namespace(name: string, bases: seq<Namespace>, members: map<string, Value>)

  /** A name in a compiled scope: a builtin of the evaluator, a built macro,
      or a built package. */
  datatype Entry = Builtin(handle: nat) | Callable(value: Value) | Module(ns: Namespace)

  type Scope = map<string, Entry>

  /** The outcome of running code the model does not look into. */
  datatype Attempt = Returned(value: Value) | Raised(fault: Fault)

  /** The foreign evaluator: `compile` is Python's eval of the generated
      lambda source (line 129/134, given the source text and the scope bound
      to `env`), `run` is evl.simple_eval of an expression over a scope. */
  datatype Evaluator = Evaluator(compile: (string, Scope) -> Attempt, run: (string, Scope) -> Attempt)
}
