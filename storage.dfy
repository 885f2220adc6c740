/** The files swirl reads and writes: the record directory (one JSON text
    per file name), the two pickle files of the cache directory, and the
    order in which files are changed. Pickling is exact, so a cache file
    holds the value that was dumped into it; JSON text and ast.literal_eval
    are left to a codec the model does not look into. */
module Storage {

  import opened Common
  import opened Models
  import opened Records
  import opened Builder

  /** The cache file names under the cache directory. */
  const EnvPkl: string := "env.pkl"
  const SwlPkl: string := "swl.pkl"

  /** One change to a file, recorded in the order the program makes it. */
  datatype Effect = Unlinked(file: string) | Wrote(file: string) | Renamed(from: string, to: string)

  /** json.load of a file's text (None: JSONDecodeError), json.dump, and
      ast.literal_eval (None: the text is not a literal). */
  datatype Codec = Codec(load: string -> Option<Json>, dump: Json -> string, literal: string -> Option<Json>)

  /** json.load reads back what json.dump wrote. */
  ghost predicate Faithful(codec: Codec) {
    forall j :: codec.load(codec.dump(j)) == Some(j)
  }

  /** Why resolving or editing stopped. */
  datatype Failure =
    | FileNotFound(file: string)   // open or unlink of a missing file
    | NotJson(file: string)        // JSONDecodeError outside the loader's try
    | BadRequest(key: string)      // a request field missing or of the wrong kind
    | Decode(refusal: DecodeError)  // dacite refused a dictionary
    | Build(failure: BuildError)    // the trial build raised

  class Store {
    /** The record directory: file name to JSON text. */
    var records: map<string, string>
    /** env.pkl: asdict of the last resolved environment. */
    var envCache: Option<Json>
    /** swl.pkl: the registry the last resolve built. */
    var swlCache: Option<Scope>
    /** Every file change so far, oldest first. */
    ghost var journal: seq<Effect>

    constructor (records: map<string, string>, envCache: Option<Json>, swlCache: Option<Scope>)
      ensures this.records == records && this.envCache == envCache && this.swlCache == swlCache
      ensures journal == []
    {
      this.records := records;
      this.envCache := envCache;
      this.swlCache := swlCache;
      journal := [];
    }

    /** open(..., "w") and json.dump into a record file. */
    method WriteRecord(file: string, text: string)
      modifies this
      ensures records == old(records)[file := text]
      ensures envCache == old(envCache) && swlCache == old(swlCache)
      ensures journal == old(journal) + [Wrote(file)]
    {
      records := records[file := text];
      journal := journal + [Wrote(file)];
    }

    /** Path.rename: the text moves to the new name, replacing any file
        there; renaming a file onto itself changes nothing but the journal. */
    method RenameRecord(from: string, to: string)
      requires from in records
      modifies this
      ensures records == (old(records) - {from})[to := old(records)[from]]
      ensures envCache == old(envCache) && swlCache == old(swlCache)
      ensures journal == old(journal) + [Renamed(from, to)]
    {
      records := (records - {from})[to := records[from]];
      journal := journal + [Renamed(from, to)];
    }

    /** Path.unlink of a record file (missing_ok false). */
    method UnlinkRecord(file: string) returns (r: Result<(), Failure>)
      modifies this
      ensures file in old(records) ==>
        r == Ok(()) && records == old(records) - {file} && journal == old(journal) + [Unlinked(file)]
      ensures file !in old(records) ==>
        r == Err(FileNotFound(file)) && records == old(records) && journal == old(journal)
      ensures envCache == old(envCache) && swlCache == old(swlCache)
    {
      if file !in records {
        return Err(FileNotFound(file));
      }
      records := records - {file};
      journal := journal + [Unlinked(file)];
      r := Ok(());
    }
  }
}
