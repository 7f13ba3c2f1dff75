/**
 * Intake catalog configuration records, as `write_msgpack_catalog_file` and
 * `write_jsonl_catalog_file` build them and `unpack_*` read and merge them.
 * Only the YAML keys the package reads or writes are fields; an absent key
 * is `None`.
 */
module CatalogConfig {
  import opened Wrappers
  import opened Paths

  /** The `--format` of a pack. */
  datatype Format = Msgpack | Jsonl

  const MsgpackDriver := "bluesky-msgpack-catalog"
  const JsonlDriver := "bluesky-jsonl-catalog"
  const MongoDriver := "bluesky-mongo-normalized-catalog"
  const PackedSourceName := "packed_catalog"
  const Library := "databroker_pack"

  /** The intake driver a pack in this format is read with. */
  function PackDriver(f: Format): (d: string)
    ensures d == MsgpackDriver <==> f == Msgpack
    ensures d == JsonlDriver <==> f == Jsonl
  {
    match f
    case Msgpack => MsgpackDriver
    case Jsonl => JsonlDriver
  }

  datatype GeneratedBy = GeneratedBy(library: string, version: string)

  /** `metadata`: `generated_by` and `relative_paths`. */
  datatype Metadata = Metadata(generatedBy: Option<GeneratedBy>, relativePaths: Option<seq<string>>)

  /** `args` of a source. */
  datatype Args = Args(
    paths: Option<seq<string>>,
    rootMap: Option<map<string, string>>,
    metadatastoreDb: Option<string>,
    assetRegistryDb: Option<string>)

  /** One entry of `sources`. */
  datatype Source = Source(driver: Option<string>, args: Option<Args>, metadata: Option<Metadata>)

  /** The `sources` mapping of a catalog file. */
  type Sources = map<string, Source>

  /** `str(pathlib.Path(directory, p).absolute())` for each path, in order. */
  function AbsolutePaths(cwd: PurePath, directory: string, paths: seq<string>): (r: seq<string>)
    ensures |r| == |paths|
  {
    seq(|paths|, i requires 0 <= i < |paths| => ToStr(Absolute(cwd, Join(Parse(directory), Parse(paths[i])))))
  }

  /**
   * The catalog `write_*_catalog_file` dumps to `catalog.yml`: exactly one
   * source, `packed_catalog`, read with the format's driver; its
   * `relative_paths` are the given paths in order, its `paths` as many, and
   * `root_map` is there exactly when one was given.
   */
  function CatalogRecord(format: Format, cwd: PurePath, directory: string, paths: seq<string>,
                         rootMap: Option<map<string, string>>, version: string): (sources: Sources)
    ensures sources.Keys == {"packed_catalog"}
    ensures var s := sources["packed_catalog"];
      s.driver == Some(if format == Msgpack then "bluesky-msgpack-catalog" else "bluesky-jsonl-catalog") &&
      s.metadata == Some(Metadata(Some(GeneratedBy("databroker_pack", version)), Some(paths))) &&
      s.args.Some? && s.args.value.paths.Some? && |s.args.value.paths.value| == |paths| &&
      s.args.value.rootMap == rootMap &&
      s.args.value.metadatastoreDb.None? && s.args.value.assetRegistryDb.None?
  {
    var args := Args(Some(AbsolutePaths(cwd, directory, paths)), rootMap, None, None);
    var metadata := Metadata(Some(GeneratedBy(Library, version)), Some(paths));
    map[PackedSourceName := Source(Some(PackDriver(format)), Some(args), Some(metadata))]
  }

  /**
   * Parsed back, each absolute path is the working directory joined with
   * `directory` and the relative path; it is absolute whenever the working
   * directory is.
   */
  lemma {:induction false} AbsolutePathsParse(cwd: PurePath, directory: string, paths: seq<string>)
    requires cwd.absolute && WellFormed(cwd)
    ensures forall i :: 0 <= i < |paths| ==>
      Parse(AbsolutePaths(cwd, directory, paths)[i]) == Absolute(cwd, Join(Parse(directory), Parse(paths[i])))
    ensures forall i :: 0 <= i < |paths| ==> IsAbsolute(AbsolutePaths(cwd, directory, paths)[i])
  {
    forall i | 0 <= i < |paths|
      ensures Parse(AbsolutePaths(cwd, directory, paths)[i]) == Absolute(cwd, Join(Parse(directory), Parse(paths[i])))
    {
      var p := Absolute(cwd, Join(Parse(directory), Parse(paths[i])));
      assert WellFormed(Join(Parse(directory), Parse(paths[i])));
      assert WellFormed(p);
      ParseToStr(p);
    }
  }
}
