/**
 * Installing a pack's catalog in the user's configuration area
 * (`unpack_inplace`) and the record rewrite of `unpack_mongo_normalized`:
 * validation, the driver check, absolute and merged `paths`, rebasing of
 * relative `root_map` values and the rejection of shared `root_map` keys.
 *
 * The file system and databroker's configuration are an `Environment` of
 * values read once; the catalogs are their `sources` mappings.
 */
module Unpack {
  import opened Wrappers
  import opened Seqs
  import opened Text
  import opened Paths
  import opened CatalogConfig

  datatype Environment = Environment(
    isDirectory: bool,               // os.path.isdir(path)
    bundle: Option<Sources>,         // catalog.yml inside path; None when there is no such file
    installed: set<string>,          // the names in databroker.catalog
    configDir: string,               // databroker.catalog_search_path()[0]
    existingConfig: Option<Sources>, // the file at the destination path; None when there is no such file
    cwd: PurePath)                   // os.getcwd(), for Path.absolute()

  datatype UnpackError =
    | NotADirectory
    | NoCatalogFile
    | NameExists(name: string)                                      // CatalogNameExists
    | NotUserWritable
    | MissingKey(key: string)                                       // KeyError
    | DriverMismatch(newDriver: Option<string>, existingDriver: Option<string>)
    | NoDatabaseInUri
    | NotMongoDriver(existingDriver: Option<string>)
    | UriMismatch(key: string)
    | Collision(keys: set<string>)

  /** The configuration file written and the sources it holds. */
  datatype Unpacked = Unpacked(configPath: PurePath, written: Sources)

  /** `Path(config_dir, f"databroker_unpack_{catalog_name}.yml")`. */
  function DestPath(configDir: string, name: string): PurePath {
    Join(Parse(configDir), Parse("databroker_unpack_" + name + ".yml"))
  }

  /** What the validation prelude yields: destination, existing source, the bundle's other sources, the packed source. */
  datatype Loaded = Loaded(dest: PurePath, existing: Option<Source>, others: Sources, source: Source)

  /** Lines 34-59 (and 144-169): validate, look the name up, pop `packed_catalog`. */
  function Load(env: Environment, name: string, merge: bool): Result<Loaded, UnpackError> {
    if !env.isDirectory then Failure(NotADirectory)
    else if env.bundle.None? then Failure(NoCatalogFile)
    else if name in env.installed && !merge then Failure(NameExists(name))
    else if name in env.installed && env.existingConfig.None? then Failure(NotUserWritable)
    else if name in env.installed && name !in env.existingConfig.value then Failure(MissingKey(name))
    else if PackedSourceName !in env.bundle.value then Failure(MissingKey(PackedSourceName))
    else
      var existing := if name in env.installed then Some(env.existingConfig.value[name]) else None;
      Success(Loaded(DestPath(env.configDir, name), existing,
        env.bundle.value - {PackedSourceName}, env.bundle.value[PackedSourceName]))
  }

  /** `source.get("metadata", {}).get("relative_paths", [])`. */
  function RelativePathsOf(s: Source): seq<string> {
    if s.metadata.Some? && s.metadata.value.relativePaths.Some? then s.metadata.value.relativePaths.value else []
  }

  /** `source["args"].get("root_map", {})`, for a source whose `args` exist. */
  function RootMapOf(s: Source): map<string, string> {
    if s.args.Some? && s.args.value.rootMap.Some? then s.args.value.rootMap.value else map[]
  }

  function WithArgs(s: Source, a: Args): Source {
    s.(args := Some(a))
  }

  /** Lines 63-70: merging needs the same driver on both sides. */
  function CheckDriver(s: Source, existing: Option<Source>): Result<Source, UnpackError> {
    if existing.Some? && existing.value.driver != s.driver then Failure(DriverMismatch(s.driver, existing.value.driver))
    else Success(s)
  }

  /** Lines 74-79: non-empty `relative_paths` give `paths`, made absolute under `path` and sorted. */
  function WithAbsolutePaths(s: Source, cwd: PurePath, path: string): Result<Source, UnpackError> {
    var rel := RelativePathsOf(s);
    if rel == [] then Success(s)
    else if s.args.None? then Failure(MissingKey("args"))
    else Success(WithArgs(s, s.args.value.(paths := Some(Sort(AbsolutePaths(cwd, path, rel))))))
  }

  /** Lines 82-91: `paths` and `relative_paths` become sorted set unions with the existing source's. */
  function MergePaths(s: Source, existing: Source): Result<Source, UnpackError> {
    if s.args.None? || existing.args.None? then Failure(MissingKey("args"))
    else if s.args.value.paths.None? || existing.args.value.paths.None? then Failure(MissingKey("paths"))
    else
      var paths := SortedUnique(s.args.value.paths.value + existing.args.value.paths.value);
      var metadata := if s.metadata.Some? then s.metadata.value else Metadata(None, None);
      var relative := SortedUnique(RelativePathsOf(s) + RelativePathsOf(existing));
      Success(Source(s.driver, Some(s.args.value.(paths := Some(paths))), Some(metadata.(relativePaths := Some(relative)))))
  }

  /** A `root_map` value as lines 96-98 leave it. */
  function RebaseValue(v: string, cwd: PurePath, path: string): string {
    if IsAbsolute(v) then v else ToStr(Absolute(cwd, Join(Parse(path), Parse(v))))
  }

  function Rebased(m: map<string, string>, cwd: PurePath, path: string): map<string, string> {
    map k | k in m :: RebaseValue(m[k], cwd, path)
  }

  /** Lines 96-98 on the source: `args` must exist; a missing `root_map` is left missing. */
  function RebaseSource(s: Source, cwd: PurePath, path: string): Result<Source, UnpackError> {
    if s.args.None? then Failure(MissingKey("args"))
    else if s.args.value.rootMap.None? then Success(s)
    else Success(WithArgs(s, s.args.value.(rootMap := Some(Rebased(s.args.value.rootMap.value, cwd, path)))))
  }

  /** Lines 101-110: any shared key is refused, otherwise the existing entries are added. */
  function MergeRootMaps(s: Source, existing: Source): Result<Source, UnpackError> {
    var shared := RootMapOf(s).Keys * RootMapOf(existing).Keys;
    if existing.args.None? then Failure(MissingKey("args"))
    else if shared != {} then Failure(Collision(shared))
    else if s.args.None? || s.args.value.rootMap.None? then Failure(MissingKey("root_map"))
    else Success(WithArgs(s, s.args.value.(rootMap := Some(RootMapOf(s) + RootMapOf(existing)))))
  }

  /** Lines 63-110: what becomes of the packed source once it is loaded. */
  function InplaceSource(l: Loaded, cwd: PurePath, path: string): Result<Source, UnpackError> {
    match CheckDriver(l.source, l.existing)
    case Failure(e) => Failure(e)
    case Success(s0) =>
      match WithAbsolutePaths(s0, cwd, path)
      case Failure(e) => Failure(e)
      case Success(s1) =>
        match (if l.existing.Some? then MergePaths(s1, l.existing.value) else Success(s1))
        case Failure(e) => Failure(e)
        case Success(s2) =>
          match RebaseSource(s2, cwd, path)
          case Failure(e) => Failure(e)
          case Success(s3) =>
            if l.existing.Some? then MergeRootMaps(s3, l.existing.value) else Success(s3)
  }

  /** `unpack_inplace(path, catalog_name, merge)`. */
  function UnpackInplaceSpec(env: Environment, path: string, name: string, merge: bool): Result<Unpacked, UnpackError> {
    match Load(env, name, merge)
    case Failure(e) => Failure(e)
    case Success(l) =>
      match InplaceSource(l, env.cwd, path)
      case Failure(e) => Failure(e)
      case Success(s) => Success(Unpacked(l.dest, l.others[name := s]))
  }

  /** Lines 177-195: the existing source must be a MongoDB one on the same URI. */
  function CheckMongoExisting(existing: Option<Source>, uri: string): Result<(), UnpackError> {
    if existing.None? then Success(())
    else
      var e := existing.value;
      if e.driver != Some(MongoDriver) then Failure(NotMongoDriver(e.driver))
      else if e.args.None? then Failure(MissingKey("args"))
      else if e.args.value.metadatastoreDb.None? then Failure(MissingKey("metadatastore_db"))
      else if e.args.value.metadatastoreDb.value != uri then Failure(UriMismatch("metadatastore_db"))
      else if e.args.value.assetRegistryDb.None? then Failure(MissingKey("asset_registry_db"))
      else if e.args.value.assetRegistryDb.value != uri then Failure(UriMismatch("asset_registry_db"))
      else Success(())
  }

  /** Lines 229-235: the MongoDB source keeps the rest of the packed source and replaces driver and args. */
  function MongoSource(s: Source, uri: string): Result<Source, UnpackError> {
    if s.args.None? || s.args.value.rootMap.None? then Failure(MissingKey("root_map"))
    else Success(Source(Some(MongoDriver), Some(Args(None, Some(s.args.value.rootMap.value), Some(uri), Some(uri))), s.metadata))
  }

  /**
   * The configuration `unpack_mongo_normalized(path, uri, catalog_name, merge)`
   * writes; `uriHasDatabase` is whether the URI names a database.
   */
  function UnpackMongoSpec(env: Environment, path: string, uri: string, uriHasDatabase: bool, name: string, merge: bool)
    : Result<Unpacked, UnpackError>
  {
    match Load(env, name, merge)
    case Failure(e) => Failure(e)
    case Success(l) =>
      if !uriHasDatabase then Failure(NoDatabaseInUri)
      else
        match CheckMongoExisting(l.existing, uri)
        case Failure(e) => Failure(e)
        case Success(_) =>
          match MongoSourceOf(l, uri, env.cwd, path)
          case Failure(e) => Failure(e)
          case Success(m) => Success(Unpacked(l.dest, l.others[name := m]))
  }

  /** Lines 197-249: the MongoDB source written for a loaded pack. */
  function MongoSourceOf(l: Loaded, uri: string, cwd: PurePath, path: string): Result<Source, UnpackError> {
    match WithAbsolutePaths(l.source, cwd, path)
    case Failure(e) => Failure(e)
    case Success(s1) =>
      match RebaseSource(s1, cwd, path)
      case Failure(e) => Failure(e)
      case Success(s2) =>
        match MongoSource(s2, uri)
        case Failure(e) => Failure(e)
        case Success(m) => if l.existing.Some? then MergeRootMaps(m, l.existing.value) else Success(m)
  }

  // ---------------------------------------------------------------------------
  // The imperative code.

  /** The loop of lines 96-98 over the `root_map` entries. */
  method RebaseRootMap(m: map<string, string>, cwd: PurePath, path: string) returns (r: map<string, string>)
    ensures r == Rebased(m, cwd, path)
  {
    r := m;
    var todo := m.Keys;
    while todo != {}
      invariant todo <= m.Keys
      invariant r.Keys == m.Keys
      invariant forall k :: k in r ==> r[k] == if k in todo then m[k] else RebaseValue(m[k], cwd, path)
      decreases todo
    {
      var k :| k in todo;
      var v := r[k];
      if !IsAbsolute(v) {
        r := r[k := ToStr(Absolute(cwd, Join(Parse(path), Parse(v))))];
      }
      todo := todo - {k};
    }
  }

  /** Lines 34-59, shared by both unpack functions. */
  method LoadSources(env: Environment, name: string, merge: bool) returns (r: Result<Loaded, UnpackError>)
    ensures r == Load(env, name, merge)
    ensures !env.isDirectory ==> r == Failure(NotADirectory)
    ensures env.isDirectory && env.bundle.None? ==> r == Failure(NoCatalogFile)
    ensures env.isDirectory && env.bundle.Some? && name in env.installed && !merge ==> r == Failure(NameExists(name))
  {
    if !env.isDirectory {
      return Failure(NotADirectory);
    }
    if env.bundle.None? {
      return Failure(NoCatalogFile);
    }
    var dest := DestPath(env.configDir, name);
    var existing: Option<Source> := None;
    if name in env.installed {
      if !merge {
        return Failure(NameExists(name));
      }
      if env.existingConfig.None? {
        return Failure(NotUserWritable);
      }
      if name !in env.existingConfig.value {
        return Failure(MissingKey(name));
      }
      existing := Some(env.existingConfig.value[name]);
    }
    var catalog := env.bundle.value;
    if PackedSourceName !in catalog {
      return Failure(MissingKey(PackedSourceName));
    }
    var source := catalog[PackedSourceName];
    catalog := catalog - {PackedSourceName};
    return Success(Loaded(dest, existing, catalog, source));
  }

  /** `unpack_inplace`. */
  method UnpackInplace(env: Environment, path: string, name: string, merge: bool) returns (r: Result<Unpacked, UnpackError>)
    ensures r == UnpackInplaceSpec(env, path, name, merge)
  {
    var loaded := LoadSources(env, name, merge);
    if loaded.Failure? {
      return Failure(loaded.error);
    }
    var l := loaded.value;
    var source := l.source;
    if l.existing.Some? && l.existing.value.driver != source.driver {
      return Failure(DriverMismatch(source.driver, l.existing.value.driver));
    }
    var relativePaths := RelativePathsOf(source);
    if relativePaths != [] {
      if source.args.None? {
        return Failure(MissingKey("args"));
      }
      var newPaths := AbsolutePaths(env.cwd, path, relativePaths);
      source := WithArgs(source, source.args.value.(paths := Some(Sort(newPaths))));
    }
    if l.existing.Some? {
      var merged := MergePaths(source, l.existing.value);
      if merged.Failure? {
        return Failure(merged.error);
      }
      source := merged.value;
    }
    if source.args.None? {
      return Failure(MissingKey("args"));
    }
    if source.args.value.rootMap.Some? {
      var rebased := RebaseRootMap(source.args.value.rootMap.value, env.cwd, path);
      source := WithArgs(source, source.args.value.(rootMap := Some(rebased)));
    }
    if l.existing.Some? {
      var e := l.existing.value;
      var collisions := RootMapOf(source).Keys * RootMapOf(e).Keys;
      if e.args.None? {
        return Failure(MissingKey("args"));
      }
      if collisions != {} {
        return Failure(Collision(collisions));
      }
      if source.args.value.rootMap.None? {
        return Failure(MissingKey("root_map"));
      }
      source := WithArgs(source, source.args.value.(rootMap := Some(RootMapOf(source) + RootMapOf(e))));
    }
    var catalog := l.others[name := source];
    return Success(Unpacked(l.dest, catalog));
  }

  /** The checks and the record rewrite of `unpack_mongo_normalized`; the copy into MongoDB is not modelled. */
  method UnpackMongoNormalized(env: Environment, path: string, uri: string, uriHasDatabase: bool, name: string, merge: bool)
    returns (r: Result<Unpacked, UnpackError>)
    ensures r == UnpackMongoSpec(env, path, uri, uriHasDatabase, name, merge)
  {
    var loaded := LoadSources(env, name, merge);
    if loaded.Failure? {
      return Failure(loaded.error);
    }
    var l := loaded.value;
    var source := l.source;
    if !uriHasDatabase {
      return Failure(NoDatabaseInUri);
    }
    var checked := CheckMongoExisting(l.existing, uri);
    if checked.Failure? {
      return Failure(checked.error);
    }
    var relativePaths := RelativePathsOf(source);
    if relativePaths != [] {
      if source.args.None? {
        return Failure(MissingKey("args"));
      }
      source := WithArgs(source, source.args.value.(paths := Some(Sort(AbsolutePaths(env.cwd, path, relativePaths)))));
    }
    if source.args.None? {
      return Failure(MissingKey("args"));
    }
    if source.args.value.rootMap.Some? {
      var rebased := RebaseRootMap(source.args.value.rootMap.value, env.cwd, path);
      source := WithArgs(source, source.args.value.(rootMap := Some(rebased)));
    }
    if source.args.value.rootMap.None? {
      return Failure(MissingKey("root_map"));
    }
    var mongoSource := Source(Some(MongoDriver), Some(Args(None, Some(source.args.value.rootMap.value), Some(uri), Some(uri))), source.metadata);
    if l.existing.Some? {
      var merged := MergeRootMaps(mongoSource, l.existing.value);
      if merged.Failure? {
        return Failure(merged.error);
      }
      mongoSource := merged.value;
    }
    return Success(Unpacked(l.dest, l.others[name := mongoSource]));
  }
}

module UnpackProperties {
  import opened Wrappers
  import opened Seqs
  import opened Text
  import opened Paths
  import opened CatalogConfig
  import opened Unpack

  /** With the name taken and no merge, the bundle's contents play no part: it is rejected unread. */
  lemma NameExistsBeforeReading(env: Environment, path: string, uri: string, uriHasDatabase: bool, name: string, bundle: Sources)
    requires env.isDirectory && name in env.installed
    ensures UnpackInplaceSpec(env.(bundle := Some(bundle)), path, name, false) == Failure(NameExists(name))
    ensures UnpackMongoSpec(env.(bundle := Some(bundle)), path, uri, uriHasDatabase, name, false) == Failure(NameExists(name))
  {
  }

  /** Merging into a source read with another driver is refused. */
  lemma DriverMismatchRejected(l: Loaded, cwd: PurePath, path: string)
    requires l.existing.Some? && l.existing.value.driver != l.source.driver
    ensures InplaceSource(l, cwd, path) == Failure(DriverMismatch(l.source.driver, l.existing.value.driver))
  {
  }

  lemma ElemsOfSort(xs: seq<string>)
    ensures Elems(Sort(xs)) == Elems(xs)
  {
    forall x ensures x in Sort(xs) <==> x in xs {
      assert x in Sort(xs) <==> x in multiset(Sort(xs));
      assert x in xs <==> x in multiset(xs);
    }
  }

  lemma ElemsOfConcat(a: seq<string>, b: seq<string>)
    ensures Elems(a + b) == Elems(a) + Elems(b)
  {
  }

  // Each stage, on success, stated by what it changes.

  lemma AbsolutePathsStage(s: Source, cwd: PurePath, path: string)
    requires WithAbsolutePaths(s, cwd, path).Success?
    ensures var r := WithAbsolutePaths(s, cwd, path).value;
      r.metadata == s.metadata && r.driver == s.driver && RootMapOf(r) == RootMapOf(s) &&
      (r.args.Some? ==> s.args.Some? && r.args.value.rootMap == s.args.value.rootMap) &&
      (RelativePathsOf(s) == [] ==> r == s) &&
      (RelativePathsOf(s) != [] ==> r.args.Some? && r.args.value.paths == Some(Sort(AbsolutePaths(cwd, path, RelativePathsOf(s)))))
  {
  }

  lemma MergePathsStage(s: Source, e: Source)
    requires MergePaths(s, e).Success?
    ensures var r := MergePaths(s, e).value;
      s.args.Some? && s.args.value.paths.Some? && e.args.Some? && e.args.value.paths.Some? &&
      r.driver == s.driver && RootMapOf(r) == RootMapOf(s) &&
      r.args.Some? && r.args.value.rootMap == s.args.value.rootMap &&
      r.args.value.paths.Some? && StrictlySorted(r.args.value.paths.value) &&
      Elems(r.args.value.paths.value) == Elems(s.args.value.paths.value) + Elems(e.args.value.paths.value) &&
      r.metadata.Some? && r.metadata.value.relativePaths.Some? &&
      StrictlySorted(r.metadata.value.relativePaths.value) &&
      Elems(r.metadata.value.relativePaths.value) == Elems(RelativePathsOf(s)) + Elems(RelativePathsOf(e))
  {
    ElemsOfConcat(s.args.value.paths.value, e.args.value.paths.value);
    ElemsOfConcat(RelativePathsOf(s), RelativePathsOf(e));
  }

  lemma RebaseStage(s: Source, cwd: PurePath, path: string)
    requires RebaseSource(s, cwd, path).Success?
    ensures var r := RebaseSource(s, cwd, path).value;
      s.args.Some? && r.args.Some? && r.driver == s.driver &&
      r.args.value.paths == s.args.value.paths && r.metadata == s.metadata &&
      RootMapOf(r) == Rebased(RootMapOf(s), cwd, path) &&
      (r.args.value.rootMap.Some? <==> s.args.value.rootMap.Some?) &&
      r.args.value.metadatastoreDb == s.args.value.metadatastoreDb &&
      r.args.value.assetRegistryDb == s.args.value.assetRegistryDb
  {
    if s.args.value.rootMap.None? {
      assert Rebased(map[], cwd, path) == map[];
    }
  }

  lemma MergeRootMapsStage(s: Source, e: Source)
    requires MergeRootMaps(s, e).Success?
    ensures var r := MergeRootMaps(s, e).value;
      s.args.Some? && r.args.Some? && r.driver == s.driver &&
      r.args.value.paths == s.args.value.paths && r.metadata == s.metadata &&
      RootMapOf(s).Keys !! RootMapOf(e).Keys &&
      r.args.value.rootMap == Some(RootMapOf(s) + RootMapOf(e)) &&
      r.args.value.metadatastoreDb == s.args.value.metadatastoreDb &&
      r.args.value.assetRegistryDb == s.args.value.assetRegistryDb
  {
    var shared := RootMapOf(s).Keys * RootMapOf(e).Keys;
    assert shared == {};
    forall k | k in RootMapOf(s).Keys ensures k !in RootMapOf(e).Keys {
      assert k !in shared;
    }
  }

  /** A key present on both sides is refused, even when both map it to the same value. */
  lemma SharedKeyCollides(s: Source, e: Source, k: string)
    requires e.args.Some?
    requires k in RootMapOf(s) && k in RootMapOf(e)
    ensures MergeRootMaps(s, e).Failure? && MergeRootMaps(s, e).error.Collision?
    ensures k in MergeRootMaps(s, e).error.keys
  {
    var shared := RootMapOf(s).Keys * RootMapOf(e).Keys;
    assert k in shared;
  }

  /** Facts about the stages of a successful in-place unpack. */
  lemma InplaceStages(l: Loaded, cwd: PurePath, path: string)
    requires InplaceSource(l, cwd, path).Success?
    ensures var s0 := l.source;
      WithAbsolutePaths(s0, cwd, path).Success? &&
      var s1 := WithAbsolutePaths(s0, cwd, path).value;
      var s2 := if l.existing.Some? then MergePaths(s1, l.existing.value).value else s1;
      (l.existing.Some? ==> MergePaths(s1, l.existing.value).Success?) &&
      RebaseSource(s2, cwd, path).Success? &&
      var s3 := RebaseSource(s2, cwd, path).value;
      (l.existing.Some? ==> MergeRootMaps(s3, l.existing.value).Success? && InplaceSource(l, cwd, path).value == MergeRootMaps(s3, l.existing.value).value) &&
      (l.existing.None? ==> InplaceSource(l, cwd, path).value == s3)
  {
  }

  /**
   * After a merge, `paths` is the sorted set union of the paths the new
   * source contributes (rebuilt from `relative_paths` when it has any) and
   * the existing ones, and `relative_paths` the sorted union of both sides'.
   */
  lemma MergedPathsAreSortedUnions(l: Loaded, cwd: PurePath, path: string)
    requires l.existing.Some? && InplaceSource(l, cwd, path).Success?
    ensures var e := l.existing.value;
      var s := InplaceSource(l, cwd, path).value;
      var rel := RelativePathsOf(l.source);
      l.source.args.Some? && e.args.Some? && e.args.value.paths.Some? &&
      (rel == [] ==> l.source.args.value.paths.Some?) &&
      s.args.Some? && s.args.value.paths.Some? &&
      StrictlySorted(s.args.value.paths.value) &&
      Elems(s.args.value.paths.value) ==
        (if rel != [] then Elems(AbsolutePaths(cwd, path, rel)) else Elems(l.source.args.value.paths.value)) +
        Elems(e.args.value.paths.value) &&
      s.metadata.Some? && s.metadata.value.relativePaths.Some? &&
      StrictlySorted(s.metadata.value.relativePaths.value) &&
      Elems(s.metadata.value.relativePaths.value) == Elems(rel) + Elems(RelativePathsOf(e))
  {
    InplaceStages(l, cwd, path);
    var e := l.existing.value;
    var s1 := WithAbsolutePaths(l.source, cwd, path).value;
    var s2 := MergePaths(s1, e).value;
    var s3 := RebaseSource(s2, cwd, path).value;
    AbsolutePathsStage(l.source, cwd, path);
    MergePathsStage(s1, e);
    RebaseStage(s2, cwd, path);
    MergeRootMapsStage(s3, e);
    var rel := RelativePathsOf(l.source);
    if rel != [] {
      ElemsOfSort(AbsolutePaths(cwd, path, rel));
    }
  }

  /**
   * Without merging, non-empty `relative_paths` give `paths` that are their
   * absolute forms under `path`, sorted, duplicates kept.
   */
  lemma FreshPathsFromRelative(l: Loaded, cwd: PurePath, path: string)
    requires l.existing.None? && RelativePathsOf(l.source) != []
    requires InplaceSource(l, cwd, path).Success?
    ensures var s := InplaceSource(l, cwd, path).value;
      s.args.Some? && s.args.value.paths.Some? &&
      Sorted(s.args.value.paths.value) &&
      multiset(s.args.value.paths.value) == multiset(AbsolutePaths(cwd, path, RelativePathsOf(l.source)))
  {
    InplaceStages(l, cwd, path);
    var s1 := WithAbsolutePaths(l.source, cwd, path).value;
    AbsolutePathsStage(l.source, cwd, path);
    RebaseStage(s1, cwd, path);
  }

  /**
   * A merge succeeds only when the two `root_map`s share no key, and then
   * the result is their disjoint union: every rebased entry of the new side,
   * every entry of the existing side, and no other.
   */
  lemma MergedRootMapIsDisjointUnion(l: Loaded, cwd: PurePath, path: string)
    requires l.existing.Some? && InplaceSource(l, cwd, path).Success?
    ensures var e := RootMapOf(l.existing.value);
      var out := RootMapOf(InplaceSource(l, cwd, path).value);
      var rebased := Rebased(RootMapOf(l.source), cwd, path);
      RootMapOf(l.source).Keys !! e.Keys &&
      out.Keys == rebased.Keys + e.Keys &&
      (forall k :: k in rebased ==> out[k] == rebased[k]) &&
      (forall k :: k in e ==> out[k] == e[k])
  {
    InplaceStages(l, cwd, path);
    var e := l.existing.value;
    var s1 := WithAbsolutePaths(l.source, cwd, path).value;
    var s2 := MergePaths(s1, e).value;
    var s3 := RebaseSource(s2, cwd, path).value;
    AbsolutePathsStage(l.source, cwd, path);
    MergePathsStage(s1, e);
    RebaseStage(s2, cwd, path);
    MergeRootMapsStage(s3, e);
    assert RootMapOf(s3) == Rebased(RootMapOf(l.source), cwd, path);
  }

  /** With an existing source, any `root_map` key both sides hold makes the merge fail. */
  lemma SharedRootMapKeyFails(l: Loaded, cwd: PurePath, path: string, k: string)
    requires l.existing.Some? && k in RootMapOf(l.source) && k in RootMapOf(l.existing.value)
    ensures InplaceSource(l, cwd, path).Failure?
  {
    if InplaceSource(l, cwd, path).Success? {
      MergedRootMapIsDisjointUnion(l, cwd, path);
    }
  }

  /** What is written: the bundle's other sources untouched, plus the new one under its name. */
  lemma WrittenCatalog(env: Environment, path: string, name: string, merge: bool)
    requires UnpackInplaceSpec(env, path, name, merge).Success?
    ensures var u := UnpackInplaceSpec(env, path, name, merge).value;
      env.bundle.Some? &&
      u.configPath == Join(Parse(env.configDir), Parse("databroker_unpack_" + name + ".yml")) &&
      u.written.Keys == (env.bundle.value.Keys - {"packed_catalog"}) + {name} &&
      u.written[name] == InplaceSource(Load(env, name, merge).value, env.cwd, path).value &&
      forall k :: k in u.written && k != name ==> u.written[k] == env.bundle.value[k]
  {
  }

  /** Absolute `root_map` values stay as they are; relative ones become absolute paths under `path`. */
  lemma RebasedValues(m: map<string, string>, cwd: PurePath, path: string)
    requires cwd.absolute && WellFormed(cwd)
    ensures Rebased(m, cwd, path).Keys == m.Keys
    ensures forall k :: k in m && IsAbsolute(m[k]) ==> Rebased(m, cwd, path)[k] == m[k]
    ensures forall k :: k in m && !IsAbsolute(m[k]) ==>
      IsAbsolute(Rebased(m, cwd, path)[k]) &&
      Parse(Rebased(m, cwd, path)[k]) == Absolute(cwd, Join(Parse(path), Parse(m[k])))
  {
    forall k | k in m && !IsAbsolute(m[k])
      ensures Parse(Rebased(m, cwd, path)[k]) == Absolute(cwd, Join(Parse(path), Parse(m[k])))
    {
      var p := Absolute(cwd, Join(Parse(path), Parse(m[k])));
      assert WellFormed(Join(Parse(path), Parse(m[k])));
      ParseToStr(p);
    }
  }

  /** Rebasing twice is rebasing once. */
  lemma RebaseIdempotent(m: map<string, string>, cwd: PurePath, path: string)
    requires cwd.absolute && WellFormed(cwd)
    ensures Rebased(Rebased(m, cwd, path), cwd, path) == Rebased(m, cwd, path)
  {
    RebasedValues(m, cwd, path);
  }

  /** The record rewrite of a loaded pack into a MongoDB source, stage by stage. */
  lemma MongoSourceOfShape(l: Loaded, uri: string, cwd: PurePath, path: string)
    requires MongoSourceOf(l, uri, cwd, path).Success?
    ensures var s := MongoSourceOf(l, uri, cwd, path).value;
      var rm := Rebased(RootMapOf(l.source), cwd, path);
      l.source.args.Some? && l.source.args.value.rootMap.Some? &&
      s.driver == Some(MongoDriver) && s.metadata == l.source.metadata &&
      (l.existing.None? ==> s.args == Some(Args(None, Some(rm), Some(uri), Some(uri)))) &&
      (l.existing.Some? ==>
        rm.Keys !! RootMapOf(l.existing.value).Keys &&
        s.args == Some(Args(None, Some(rm + RootMapOf(l.existing.value)), Some(uri), Some(uri))))
  {
    var s1 := WithAbsolutePaths(l.source, cwd, path).value;
    AbsolutePathsStage(l.source, cwd, path);
    var s2 := RebaseSource(s1, cwd, path).value;
    RebaseStage(s1, cwd, path);
    var m := MongoSource(s2, uri).value;
    assert RootMapOf(m) == RootMapOf(s2);
    if l.existing.Some? {
      MergeRootMapsStage(m, l.existing.value);
    }
    assert Rebased(RootMapOf(l.source), cwd, path).Keys == RootMapOf(l.source).Keys;
  }

  /**
   * The MongoDB source: the existing one, if any, is a MongoDB source on the
   * same URI; the new one has that driver and args holding exactly both
   * databases on `uri` and the rebased `root_map`, joined with the existing
   * one's when merging.
   */
  lemma MongoSourceShape(env: Environment, path: string, uri: string, uriHasDatabase: bool, name: string, merge: bool)
    requires UnpackMongoSpec(env, path, uri, uriHasDatabase, name, merge).Success?
    ensures uriHasDatabase && Load(env, name, merge).Success?
    ensures var l := Load(env, name, merge).value;
      var s := UnpackMongoSpec(env, path, uri, uriHasDatabase, name, merge).value.written[name];
      var rm := Rebased(RootMapOf(l.source), env.cwd, path);
      l.source.args.Some? && l.source.args.value.rootMap.Some? &&
      s.driver == Some("bluesky-mongo-normalized-catalog") &&
      s.metadata == l.source.metadata &&
      (l.existing.None? ==> s.args == Some(Args(None, Some(rm), Some(uri), Some(uri)))) &&
      (l.existing.Some? ==>
        var e := l.existing.value;
        e.driver == Some("bluesky-mongo-normalized-catalog") && e.args.Some? &&
        e.args.value.metadatastoreDb == Some(uri) && e.args.value.assetRegistryDb == Some(uri) &&
        rm.Keys !! RootMapOf(e).Keys &&
        s.args == Some(Args(None, Some(rm + RootMapOf(e)), Some(uri), Some(uri))))
  {
    var l := Load(env, name, merge).value;
    assert CheckMongoExisting(l.existing, uri).Success?;
    assert MongoSourceOf(l, uri, env.cwd, path).Success?;
    var m := MongoSourceOf(l, uri, env.cwd, path).value;
    assert UnpackMongoSpec(env, path, uri, uriHasDatabase, name, merge).value.written[name] == m;
    MongoSourceOfShape(l, uri, env.cwd, path);
  }

  /**
   * Unpacking a freshly packed catalog under a new name installs one source:
   * the packed one with its paths rebuilt under `path` and sorted and its
   * `root_map` rebased, everything else as packed.
   */
  lemma UnpackFreshPack(env: Environment, path: string, name: string, merge: bool,
                        format: Format, packCwd: PurePath, directory: string, paths: seq<string>,
                        rootMap: map<string, string>, version: string)
    requires env.isDirectory && name !in env.installed && paths != []
    requires env.bundle == Some(CatalogRecord(format, packCwd, directory, paths, Some(rootMap), version))
    ensures UnpackInplaceSpec(env, path, name, merge) == Success(Unpacked(
      DestPath(env.configDir, name),
      map[name := Source(
        Some(PackDriver(format)),
        Some(Args(Some(Sort(AbsolutePaths(env.cwd, path, paths))), Some(Rebased(rootMap, env.cwd, path)), None, None)),
        Some(Metadata(Some(GeneratedBy("databroker_pack", version)), Some(paths))))]))
  {
    var bundle := env.bundle.value;
    assert bundle.Keys == {"packed_catalog"};
    assert bundle - {"packed_catalog"} == map[];
    var l := Load(env, name, merge).value;
    assert l.existing.None? && l.others == map[];
    var s := l.source;
    assert RelativePathsOf(s) == paths;
    var s1 := WithAbsolutePaths(s, env.cwd, path).value;
    assert s1.args.value == Args(Some(Sort(AbsolutePaths(env.cwd, path, paths))), Some(rootMap), None, None);
    var s3 := RebaseSource(s1, env.cwd, path).value;
    assert InplaceSource(l, env.cwd, path) == Success(s3);
  }
}
