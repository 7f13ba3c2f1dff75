/**
 * The decisions `databroker-pack` (the command-line entry point) makes
 * around the export: which external-data mode to use, which uids to pack,
 * and, once the runs are exported, the documents manifest, the `root_map`
 * and the external-files manifests, the `catalog.yml` record and the exit
 * status. Dictionary and set iteration orders are given as sequences.
 */
module PackCli {
  import opened Wrappers
  import opened Seqs
  import opened PyStr
  import opened Paths
  import opened RunExport
  import opened Materialize
  import opened CatalogConfig
  import opened Manifests
  import BatchExport

  datatype CliError =
    | HandlerRegistryNeedsFill           // NotImplementedError
    | CatalogFileExists                  // exit status 1 before anything is exported
    | EmptyUids                          // exit status 1: no uid in the --uids files
    | DocumentNotInDirectory(artifact: string)   // `relative_to` raised in write_documents_manifest
    | CopyingRaised(error: CopyError)     // copy_external_files raised
    | OutsideDirectory(path: string)      // `relative_to(args.directory)` raised
    | ManifestExists(name: string)        // the manager never creates a file twice

  // ----- Choosing the external-data mode -----

  /**
   * `--copy-external`, `--fill-external` and `--ignore-external` form one
   * mutually exclusive argument group, so the parser lets at most one of them
   * through; the order below (ignore, then fill, otherwise list) is only the
   * order in which the command tests them. With neither of the two flags given
   * the files are listed (`--copy-external` decides later whether they are
   * copied). `--handler-registry` is refused unless `--fill-external` was given.
   */
  function SelectExternal(ignoreExternal: bool, fillExternal: bool, handlerRegistry: bool): (r: Result<External, CliError>)
    ensures r.Failure? <==> handlerRegistry && !fillExternal
    ensures r.Failure? ==> r.error == HandlerRegistryNeedsFill
    ensures r.Success? ==>
      (r.value == Ignore <==> ignoreExternal) &&
      (r.value == Fill <==> !ignoreExternal && fillExternal) &&
      (r.value == ListFiles <==> !ignoreExternal && !fillExternal)
  {
    var external := if ignoreExternal then Ignore else if fillExternal then Fill else ListFiles;
    if handlerRegistry && !fillExternal then Failure(HandlerRegistryNeedsFill) else Success(external)
  }

  /** The checks made before any run is exported: the mode, then that `catalog.yml` is not already there. */
  function Preflight(ignoreExternal: bool, fillExternal: bool, handlerRegistry: bool, catalogFileExists: bool): (r: Result<External, CliError>)
    ensures r.Success? <==> SelectExternal(ignoreExternal, fillExternal, handlerRegistry).Success? && !catalogFileExists
    ensures r.Success? ==> r == SelectExternal(ignoreExternal, fillExternal, handlerRegistry)
    ensures SelectExternal(ignoreExternal, fillExternal, handlerRegistry).Success? && catalogFileExists ==>
      r == Failure(CatalogFileExists)
  {
    match SelectExternal(ignoreExternal, fillExternal, handlerRegistry)
    case Failure(e) => Failure(e)
    case Success(external) => if catalogFileExists then Failure(CatalogFileExists) else Success(external)
  }

  // ----- The --uids files -----

  /** The test the generator applies to a raw line: non-empty and not a comment. */
  predicate IsUid(s: string) {
    s != [] && !StartsWith(s, "#")
  }

  /**
   * `line.strip() for line in lines if line and not line.startswith("#")`:
   * the test looks at the raw line and only the kept line is stripped.
   */
  function UidsOfLines(lines: seq<string>): seq<string>
    decreases |lines|
  {
    if lines == [] then []
    else
      var last := lines[|lines| - 1];
      UidsOfLines(lines[..|lines| - 1]) + (if IsUid(last) then [Strip(last)] else [])
  }

  /** The lines stripped one by one. */
  function StripAll(lines: seq<string>): (r: seq<string>)
    ensures |r| == |lines| && forall i :: 0 <= i < |lines| ==> r[i] == Strip(lines[i])
  {
    seq(|lines|, i requires 0 <= i < |lines| => Strip(lines[i]))
  }

  /** The uids are the lines that pass the test, in file order, each stripped. */
  lemma {:induction false} UidsAreStrippedKeptLines(lines: seq<string>)
    ensures UidsOfLines(lines) == StripAll(Filter(lines, IsUid))
    decreases |lines|
  {
    if lines != [] {
      var init, last := lines[..|lines| - 1], lines[|lines| - 1];
      UidsAreStrippedKeptLines(init);
      assert lines == init + [last];
      FilterSnoc(init, last, IsUid);
    }
  }

  lemma StripBlanks()
    ensures Strip("  ") == []
  {
  }

  lemma StripIndentedComment()
    ensures Strip(" #x") == "#x"
  {
    assert LeadingSpace(" #x") == 1 by {
      assert LeadingSpace(" #x"[1..]) == 0;
    }
    assert TrailingSpaceStart(" #x") == 3;
    assert " #x"[1..3] == "#x";
  }

  lemma StripTrailingBlank()
    ensures Strip("ab ") == "ab"
  {
    assert LeadingSpace("ab ") == 0;
    assert TrailingSpaceStart("ab ") == 2 by {
      assert "ab "[..2] == "ab";
    }
    assert "ab "[0..2] == "ab";
  }

  /**
   * Because the test sees the unstripped line, a line of blanks gives the
   * uid "" and an indented comment is kept as a uid, while an empty line and
   * a comment in the first column are skipped.
   */
  lemma BlankAndIndentedCommentKept()
    ensures UidsOfLines(["", "#c", "  ", " #x", "ab "]) == ["", "#x", "ab"]
  {
    BlankLinesKept();
    StripIndentedComment();
    assert !StartsWith(" #x", "#");
    UidsOfLinesSnoc(["", "#c", "  "], " #x");
    assert ["", "#c", "  "] + [" #x"] == ["", "#c", "  ", " #x"];
    assert UidsOfLines(["", "#c", "  ", " #x"]) == ["", "#x"];
    StripTrailingBlank();
    assert !StartsWith("ab ", "#");
    UidsOfLinesSnoc(["", "#c", "  ", " #x"], "ab ");
    assert ["", "#c", "  ", " #x"] + ["ab "] == ["", "#c", "  ", " #x", "ab "];
  }

  /** The first three lines of the example: only the line of blanks is kept, as "". */
  lemma BlankLinesKept()
    ensures UidsOfLines(["", "#c", "  "]) == [""]
  {
    CommentLinesSkipped();
    StripBlanks();
    assert !StartsWith("  ", "#");
    UidsOfLinesSnoc(["", "#c"], "  ");
    assert ["", "#c"] + ["  "] == ["", "#c", "  "];
  }

  /** An empty line and a comment in the first column give no uid. */
  lemma CommentLinesSkipped()
    ensures UidsOfLines(["", "#c"]) == []
  {
    UidsOfLinesSnoc([], "");
    assert [] + [""] == [""];
    assert StartsWith("#c", "#");
    UidsOfLinesSnoc([""], "#c");
    assert [""] + ["#c"] == ["", "#c"];
  }

  lemma UidsOfLinesSnoc(init: seq<string>, last: string)
    ensures UidsOfLines(init + [last]) == UidsOfLines(init) + (if IsUid(last) then [Strip(last)] else [])
  {
    assert (init + [last])[..|init|] == init;
  }

  /** The uids of the files, one file after another (the `extend` loop). */
  function UidsOfFiles(contents: seq<string>): seq<string>
    decreases |contents|
  {
    if contents == [] then []
    else UidsOfFiles(contents[..|contents| - 1]) + UidsOfLines(SplitLines(contents[|contents| - 1]))
  }

  /** `uids[:limit]`: Python slicing, so a negative limit drops that many from the end. */
  function Slice(uids: seq<string>, limit: Option<int>): (r: seq<string>)
    ensures |r| <= |uids| && r == uids[..|r|]
    ensures limit.None? ==> r == uids
    ensures limit.Some? && limit.value >= 0 ==> |r| == if limit.value < |uids| then limit.value else |uids|
    ensures limit.Some? && limit.value < 0 ==> |r| == if |uids| + limit.value > 0 then |uids| + limit.value else 0
  {
    match limit
    case None => uids
    case Some(k) =>
      if k >= 0 then (if k < |uids| then uids[..k] else uids)
      else if |uids| + k > 0 then uids[..|uids| + k] else []
  }

  /**
   * For a positive limit, slicing and `export_catalog`'s cutoff pick the
   * same runs; `--uids` does not check the limit, so 0 packs no run and a
   * negative limit packs all but the last runs.
   */
  lemma SliceAgreesWithCatalogLimit(uids: seq<string>, limit: Option<int>)
    ensures (limit.None? || limit.value >= 1) ==> Slice(uids, limit) == BatchExport.Visited(uids, limit)
    ensures limit == Some(0) ==> Slice(uids, limit) == []
  {
  }

  /** What the `--uids` branch passes on to `export_uids`, or exit status 1 when no uid was found. */
  function SelectUids(contents: seq<string>, limit: Option<int>): (r: Result<seq<string>, CliError>)
    ensures r.Failure? <==> UidsOfFiles(contents) == []
    ensures r.Failure? ==> r.error == EmptyUids
    ensures r.Success? ==> |r.value| <= |UidsOfFiles(contents)| && r.value == UidsOfFiles(contents)[..|r.value|]
    ensures r.Success? ==> r.value == Slice(UidsOfFiles(contents), limit)
  {
    var uids := UidsOfFiles(contents);
    if uids == [] then Failure(EmptyUids) else Success(Slice(uids, limit))
  }

  /** The generator over one file's lines. */
  method UidsOfFile(content: string) returns (uids: seq<string>)
    ensures uids == UidsOfLines(SplitLines(content))
  {
    var lines := SplitLines(content);
    uids := [];
    var j := 0;
    while j < |lines|
      invariant 0 <= j <= |lines|
      invariant uids == UidsOfLines(lines[..j])
    {
      assert lines[..j + 1][..j] == lines[..j];
      var line := lines[j];
      if line != [] && !StartsWith(line, "#") {
        uids := uids + [Strip(line)];
      }
      j := j + 1;
    }
    assert lines[..j] == lines;
  }

  /** Reading the `--uids` files: each file's kept lines appended in order, then `uids[:limit]`. */
  method CollectUids(contents: seq<string>, limit: Option<int>) returns (r: Result<seq<string>, CliError>)
    ensures r == SelectUids(contents, limit)
  {
    var uids: seq<string> := [];
    var i := 0;
    while i < |contents|
      invariant 0 <= i <= |contents|
      invariant uids == UidsOfFiles(contents[..i])
    {
      var more := UidsOfFile(contents[i]);
      assert contents[..i + 1][..i] == contents[..i];
      uids := uids + more;
      i := i + 1;
    }
    assert contents[..i] == contents;
    if uids == [] {
      return Failure(EmptyUids);
    }
    return Success(Slice(uids, limit));
  }

  // ----- After the export: manifests, root_map, catalog.yml, exit status -----

  /**
   * The arguments the steps after the export read. Because the three
   * external-data flags are mutually exclusive, `copyExternal` is only ever
   * set together with `external == ListFiles`.
   */
  datatype FinishOptions = FinishOptions(
    directory: string, format: Format, external: External,
    copyExternal: bool, noDocuments: bool, strict: bool)

  /** What the loop over `external_files.items()` builds up. */
  datatype Acc = Acc(rootMap: map<string, string>, manifests: seq<(string, string)>, copyingFailures: seq<string>)

  /** Everything the command writes after exporting, and its exit status. */
  datatype Written = Written(
    documentsManifest: Option<seq<string>>,
    manifests: seq<(string, string)>,
    rootMap: map<string, string>,
    copyingFailures: seq<string>,
    catalog: Sources,
    exitStatus: int)

  /** `pathlib.Path(args.directory, "external_files")`. */
  function TargetDirectory(directory: string): string {
    ToStr(Join(Parse(directory), Parse("external_files")))
  }

  /** Resources are rewritten to `unique_id` when documents are written, so that is the key then. */
  function RootMapKey(o: FinishOptions, key: FileKey): string {
    if o.noDocuments then key.rootInDocument else key.uniqueId
  }

  /** The value the key gets: where the copied files now are, relative to the pack, or else where they are. */
  function RootMapValue(o: FinishOptions, key: FileKey): string {
    if o.copyExternal then ToStr(Join(Parse("external_files"), Parse(key.uniqueId))) else key.root
  }

  function Names(ms: seq<(string, string)>): set<string> {
    set m | m in ms :: m.0
  }

  /** Each path relative to `base`, or the first that is not under it. */
  function RelativeAll(paths: seq<PurePath>, base: PurePath): (r: Result<seq<string>, string>)
    ensures r.Success? ==> |r.value| == |paths|
  {
    if paths == [] then Success([])
    else
      match RelativeTo(paths[0], base)
      case None => Failure(ToStr(paths[0]))
      case Some(rel) =>
        match RelativeAll(paths[1..], base)
        case Failure(p) => Failure(p)
        case Success(rest) => Success([ToStr(rel)] + rest)
  }

  /** `write_external_files_manifest`: refused when a manifest of that name was already written. */
  function AddManifest(acc: Acc, uniqueId: string, files: seq<string>): Result<Acc, CliError> {
    var name := ExternalManifestName(uniqueId);
    if name in Names(acc.manifests) then Failure(ManifestExists(name))
    else Success(acc.(manifests := acc.manifests + [(name, ExternalManifestText(files))]))
  }

  /** The arguments `copy_external_files` is called with for an entry. */
  function RequestOf(o: FinishOptions, key: FileKey): CopyRequest {
    CopyRequest(TargetDirectory(o.directory), key.root, key.uniqueId, o.strict)
  }

  /**
   * One copied entry: copy, note failures, map the key to the new root, list
   * the new files. The copy is the corrected `copy_external_files`
   * (`CopySpec`), so an entry with no files is copied as an empty one.
   */
  function CopiedItem(o: FinishOptions, copy: (string, PurePath) -> bool, acc: Acc, key: FileKey, files: seq<string>): Result<Acc, CliError> {
    var q := RequestOf(o, key);
    match CopySpec(q, copy, files)
    case Failure(e) => Failure(CopyingRaised(e))
    case Success(out) =>
      match RelativeTo(out.newRoot, Parse(o.directory))
      case None => Failure(OutsideDirectory(ToStr(out.newRoot)))
      case Some(rel) =>
        match RelativeAll(out.newFiles, Parse(o.directory))
        case Failure(p) => Failure(OutsideDirectory(p))
        case Success(relPaths) =>
          AddManifest(Acc(acc.rootMap[RootMapKey(o, key) := ToStr(rel)], acc.manifests, acc.copyingFailures + out.failures),
                      key.uniqueId, relPaths)
  }

  /** One entry left in place: map the key to its root and list its files. */
  function ListedItem(o: FinishOptions, acc: Acc, key: FileKey, files: seq<string>): Result<Acc, CliError> {
    AddManifest(acc.(rootMap := acc.rootMap[RootMapKey(o, key) := key.root]), key.uniqueId, files)
  }

  function ItemStep(o: FinishOptions, copy: (string, PurePath) -> bool, acc: Acc, item: (FileKey, seq<string>)): Result<Acc, CliError> {
    if o.copyExternal then CopiedItem(o, copy, acc, item.0, item.1) else ListedItem(o, acc, item.0, item.1)
  }

  /** The body of the loop as a value, so that the loop can be reasoned about for any body. */
  function ItemStepOf(o: FinishOptions, copy: (string, PurePath) -> bool): (Acc, (FileKey, seq<string>)) -> Result<Acc, CliError> {
    (acc, item) => ItemStep(o, copy, acc, item)
  }

  /** Running a loop body over the entries in order; the first failure ends the loop. */
  function Fold(step: (Acc, (FileKey, seq<string>)) -> Result<Acc, CliError>, items: seq<(FileKey, seq<string>)>): Result<Acc, CliError>
    decreases |items|
  {
    if items == [] then Success(Acc(map[], [], []))
    else
      match Fold(step, items[..|items| - 1])
      case Failure(e) => Failure(e)
      case Success(acc) => step(acc, items[|items| - 1])
  }

  /** The loop over `external_files.items()`, one entry after another. */
  function RootMapLoop(o: FinishOptions, copy: (string, PurePath) -> bool, items: seq<(FileKey, seq<string>)>): Result<Acc, CliError> {
    Fold(ItemStepOf(o, copy), items)
  }

  /** The `paths` the catalog file is given: the glob of the chosen format. */
  function DocumentGlob(format: Format): (g: string)
    ensures format == Jsonl ==> g == "./documents/*.jsonl"
    ensures format == Msgpack ==> g == "./documents/*.msgpack"
  {
    if format == Jsonl then "./documents/*.jsonl" else "./documents/*.msgpack"
  }

  /**
   * What the command does once the runs are exported: it writes the
   * documents manifest when documents were written and there are any, runs
   * the `root_map` loop (copying files under `--copy-external`) when files
   * are listed, writes the catalog with that `root_map`, and exits with
   * status 1 when any run or copy failed.
   * `all` is `artifacts.get("all")` in iteration order, `[]` when absent.
   */
  function FinishSpec(o: FinishOptions, cwd: PurePath, version: string, copy: (string, PurePath) -> bool,
                      all: seq<string>, items: seq<(FileKey, seq<string>)>, failures: seq<string>): (r: Result<Written, CliError>)
    ensures r.Success? ==>
      (r.value.documentsManifest.Some? <==> !o.noDocuments && all != []) &&
      (r.value.documentsManifest.Some? ==> Success(r.value.documentsManifest.value) == DocumentsManifest(cwd, o.directory, all))
    ensures r.Success? && o.external != ListFiles ==>
      r.value.rootMap == map[] && r.value.manifests == [] && r.value.copyingFailures == []
    ensures r.Success? && o.external == ListFiles ==>
      RootMapLoop(o, copy, items) == Success(Acc(r.value.rootMap, r.value.manifests, r.value.copyingFailures))
    ensures r.Success? ==>
      r.value.catalog == CatalogRecord(o.format, cwd, o.directory, [DocumentGlob(o.format)], Some(r.value.rootMap), version) &&
      r.value.catalog["packed_catalog"].args.value.rootMap == Some(r.value.rootMap)
    ensures r.Success? ==>
      (r.value.exitStatus == 1 <==> failures != [] || r.value.copyingFailures != []) &&
      (r.value.exitStatus == 0 <==> failures == [] && r.value.copyingFailures == [])
    ensures r.Failure? <==>
      (!o.noDocuments && all != [] && DocumentsManifest(cwd, o.directory, all).Failure?) ||
      (o.external == ListFiles && RootMapLoop(o, copy, items).Failure?)
  {
    var wantDocuments := !o.noDocuments && all != [];
    var documents := if wantDocuments then DocumentsManifest(cwd, o.directory, all) else Success([]);
    if documents.Failure? then Failure(DocumentNotInDirectory(documents.error))
    else
      var loop := if o.external == ListFiles then RootMapLoop(o, copy, items) else Success(Acc(map[], [], []));
      if loop.Failure? then Failure(loop.error)
      else
        var acc := loop.value;
        Success(Written(
          if wantDocuments then Some(documents.value) else None,
          acc.manifests, acc.rootMap, acc.copyingFailures,
          CatalogRecord(o.format, cwd, o.directory, [DocumentGlob(o.format)], Some(acc.rootMap), version),
          if failures != [] || acc.copyingFailures != [] then 1 else 0))
  }

  lemma {:induction false} RootMapLoopFailurePersists(o: FinishOptions, copy: (string, PurePath) -> bool,
                                                      items: seq<(FileKey, seq<string>)>, n: nat)
    requires n <= |items| && RootMapLoop(o, copy, items[..n]).Failure?
    ensures RootMapLoop(o, copy, items) == RootMapLoop(o, copy, items[..n])
    decreases |items| - n
  {
    if n < |items| {
      assert items[..n + 1][..n] == items[..n];
      RootMapLoopFailurePersists(o, copy, items, n + 1);
    } else {
      assert items[..n] == items;
    }
  }

  lemma RootMapLoopNext(o: FinishOptions, copy: (string, PurePath) -> bool, items: seq<(FileKey, seq<string>)>, i: nat, acc: Acc)
    requires i < |items| && RootMapLoop(o, copy, items[..i]) == Success(acc)
    ensures RootMapLoop(o, copy, items[..i + 1]) == ItemStep(o, copy, acc, items[i])
  {
    assert items[..i + 1][..i] == items[..i];
  }

  /** The copied files of one entry land under `directory/external_files/unique_id`, which is `external_files/unique_id` relative to the pack. */
  lemma CopiedRootRelative(o: FinishOptions, uniqueId: string)
    requires !IsAbsolute(uniqueId)
    ensures RelativeTo(Join(Parse(TargetDirectory(o.directory)), Parse(uniqueId)), Parse(o.directory)) ==
      Some(Join(Parse("external_files"), Parse(uniqueId)))
  {
    var dir, ef, u := Parse(o.directory), Parse("external_files"), Parse(uniqueId);
    assert !ef.absolute;
    ParseToStr(Join(dir, ef));
    JoinAssociative(dir, ef, u);
    RelativeToJoin(dir, Join(ef, u));
  }

  /** Where a file copied under `external_files/unique_id` is, relative to the pack, given its path relative to its root. */
  function PackedPath(uniqueId: string, rel: PurePath): string {
    ToStr(Join(Join(Parse("external_files"), Parse(uniqueId)), rel))
  }

  /** The files of an entry that were copied, in order, each relative to the pack. */
  function PackedPaths(o: FinishOptions, copy: (string, PurePath) -> bool, key: FileKey, files: seq<string>): seq<string> {
    if files == [] then []
    else
      (if Outcome(RequestOf(o, key), copy, files[0]).CopiedTo? then
         match RelativeTo(Parse(files[0]), Parse(key.root))
         case Some(rel) => [PackedPath(key.uniqueId, rel)]
         case None => []
       else []) + PackedPaths(o, copy, key, files[1..])
  }

  /** The files of an entry whose copy raised, in order. */
  function CopyFailed(o: FinishOptions, copy: (string, PurePath) -> bool, item: (FileKey, seq<string>)): seq<string> {
    Filter(item.1, FailedUnder(OutcomeOf(RequestOf(o, item.0), copy)))
  }

  /** The text of an entry's manifest: its files as listed, or the copies' paths within the pack. */
  function ManifestTextOf(o: FinishOptions, copy: (string, PurePath) -> bool, item: (FileKey, seq<string>)): string {
    ExternalManifestText(if o.copyExternal then PackedPaths(o, copy, item.0, item.1) else item.1)
  }

  /** A copy placed at `rel` under the entry's new root is at `external_files/unique_id/rel` within the pack. */
  lemma PackedPathOfDest(o: FinishOptions, key: FileKey, rel: PurePath)
    requires !IsAbsolute(key.uniqueId) && !rel.absolute
    ensures RelativeTo(Join(NewRoot(RequestOf(o, key)), rel), Parse(o.directory)) ==
      Some(Join(Join(Parse("external_files"), Parse(key.uniqueId)), rel))
  {
    var dir, ef, u := Parse(o.directory), Parse("external_files"), Parse(key.uniqueId);
    assert !ef.absolute;
    ParseToStr(Join(dir, ef));
    JoinAssociative(dir, ef, u);
    JoinAssociative(dir, Join(ef, u), rel);
    RelativeToJoin(dir, Join(Join(ef, u), rel));
  }

  /** What one file contributes to the new files and to their paths within the pack. */
  lemma PackedHead(o: FinishOptions, copy: (string, PurePath) -> bool, key: FileKey, file: string)
    requires !IsAbsolute(key.uniqueId)
    ensures Outcome(RequestOf(o, key), copy, file).CopiedTo? ==>
      RelativeTo(Parse(file), Parse(key.root)).Some? &&
      RelativeTo(Outcome(RequestOf(o, key), copy, file).dest, Parse(o.directory)) ==
        Some(Join(Join(Parse("external_files"), Parse(key.uniqueId)), RelativeTo(Parse(file), Parse(key.root)).value))
  {
    if Outcome(RequestOf(o, key), copy, file).CopiedTo? {
      PackedPathOfDest(o, key, RelativeTo(Parse(file), Parse(key.root)).value);
    }
  }

  /** The copies' paths within the pack, as the command computes them from `new_files`, are `PackedPaths`. */
  lemma {:induction false} PackedPathsRelative(o: FinishOptions, copy: (string, PurePath) -> bool, key: FileKey, files: seq<string>)
    requires !IsAbsolute(key.uniqueId)
    ensures RelativeAll(Dests(OutcomeOf(RequestOf(o, key), copy), files), Parse(o.directory)) ==
      Success(PackedPaths(o, copy, key, files))
  {
    if files != [] {
      var outcome := OutcomeOf(RequestOf(o, key), copy);
      PackedPathsRelative(o, copy, key, files[1..]);
      PackedHead(o, copy, key, files[0]);
      var rest := Dests(outcome, files[1..]);
      if outcome(files[0]).CopiedTo? {
        var d := outcome(files[0]).dest;
        var rel := RelativeTo(Parse(files[0]), Parse(key.root)).value;
        assert RelativeTo(d, Parse(o.directory)) == Some(Join(Join(Parse("external_files"), Parse(key.uniqueId)), rel));
        assert Dests(outcome, files) == [d] + rest;
        assert ([d] + rest)[1..] == rest;
        assert RelativeAll([d] + rest, Parse(o.directory)) == Success([PackedPath(key.uniqueId, rel)] + PackedPaths(o, copy, key, files[1..]));
        assert PackedPaths(o, copy, key, files) == [PackedPath(key.uniqueId, rel)] + PackedPaths(o, copy, key, files[1..]);
      } else {
        assert Dests(outcome, files) == rest;
        assert PackedPaths(o, copy, key, files) == PackedPaths(o, copy, key, files[1..]);
      }
    }
  }

  /**
   * What one successful turn of the loop adds: one `root_map` entry, one
   * manifest not written before, and the entry's copy failures.
   */
  ghost predicate Effect(o: FinishOptions, copy: (string, PurePath) -> bool, acc: Acc, item: (FileKey, seq<string>), r: Acc) {
    ExternalManifestName(item.0.uniqueId) !in Names(acc.manifests) &&
    r.rootMap == acc.rootMap[RootMapKey(o, item.0) := RootMapValue(o, item.0)] &&
    r.manifests == acc.manifests + [(ExternalManifestName(item.0.uniqueId), ManifestTextOf(o, copy, item))] &&
    r.copyingFailures == acc.copyingFailures + (if o.copyExternal then CopyFailed(o, copy, item) else [])
  }

  /** Every successful turn of the loop body on an entry with a relative unique id has that effect. */
  ghost predicate HasEffect(o: FinishOptions, copy: (string, PurePath) -> bool,
                            step: (Acc, (FileKey, seq<string>)) -> Result<Acc, CliError>, items: seq<(FileKey, seq<string>)>) {
    forall acc, i :: 0 <= i < |items| && step(acc, items[i]).Success? ==> Effect(o, copy, acc, items[i], step(acc, items[i]).value)
  }

  /** What an entry adds when its files are not copied. */
  lemma ListedItemEffect(o: FinishOptions, copy: (string, PurePath) -> bool, acc: Acc, item: (FileKey, seq<string>))
    requires ListedItem(o, acc, item.0, item.1).Success? && !o.copyExternal
    ensures Effect(o, copy, acc, item, ListedItem(o, acc, item.0, item.1).value)
  {
  }

  /** What a successful copy of an entry gives the command: the `root_map` value, the manifest's paths, the failures. */
  lemma CopiedParts(o: FinishOptions, copy: (string, PurePath) -> bool, key: FileKey, files: seq<string>)
    requires !IsAbsolute(key.uniqueId) && o.copyExternal
    requires CopySpec(RequestOf(o, key), copy, files).Success?
    ensures var out := CopySpec(RequestOf(o, key), copy, files).value;
      RelativeTo(out.newRoot, Parse(o.directory)).Some? &&
      ToStr(RelativeTo(out.newRoot, Parse(o.directory)).value) == RootMapValue(o, key) &&
      RelativeAll(out.newFiles, Parse(o.directory)) == Success(PackedPaths(o, copy, key, files)) &&
      out.failures == CopyFailed(o, copy, (key, files))
  {
    var q := RequestOf(o, key);
    CopyNewRoot(q, copy, files);
    CollectFailures(q.strict, NewRoot(q), OutcomeOf(q, copy), files);
    CollectNewFiles(q.strict, NewRoot(q), OutcomeOf(q, copy), files);
    CopiedRootRelative(o, key.uniqueId);
    PackedPathsRelative(o, copy, key, files);
  }

  /** What an entry adds when its files are copied. */
  lemma CopiedItemEffect(o: FinishOptions, copy: (string, PurePath) -> bool, acc: Acc, item: (FileKey, seq<string>))
    requires !IsAbsolute(item.0.uniqueId) && o.copyExternal
    requires CopiedItem(o, copy, acc, item.0, item.1).Success?
    ensures Effect(o, copy, acc, item, CopiedItem(o, copy, acc, item.0, item.1).value)
  {
    var key := item.0;
    CopiedParts(o, copy, key, item.1);
    var packed := PackedPaths(o, copy, key, item.1);
    var next := Acc(acc.rootMap[RootMapKey(o, key) := RootMapValue(o, key)], acc.manifests,
                    acc.copyingFailures + CopyFailed(o, copy, item));
    assert CopiedItem(o, copy, acc, key, item.1) == AddManifest(next, key.uniqueId, packed);
    assert ManifestTextOf(o, copy, item) == ExternalManifestText(packed);
  }

  /** What one entry of the loop adds, when it succeeds. */
  lemma ItemStepEffect(o: FinishOptions, copy: (string, PurePath) -> bool, acc: Acc, item: (FileKey, seq<string>))
    requires !IsAbsolute(item.0.uniqueId)
    requires ItemStep(o, copy, acc, item).Success?
    ensures Effect(o, copy, acc, item, ItemStep(o, copy, acc, item).value)
  {
    if o.copyExternal {
      CopiedItemEffect(o, copy, acc, item);
    } else {
      ListedItemEffect(o, copy, acc, item);
    }
  }

  lemma ItemStepHasEffect(o: FinishOptions, copy: (string, PurePath) -> bool, items: seq<(FileKey, seq<string>)>)
    requires forall i :: 0 <= i < |items| ==> !IsAbsolute(items[i].0.uniqueId)
    ensures HasEffect(o, copy, ItemStepOf(o, copy), items)
  {
    forall acc, i | 0 <= i < |items| && ItemStepOf(o, copy)(acc, items[i]).Success?
      ensures Effect(o, copy, acc, items[i], ItemStepOf(o, copy)(acc, items[i]).value)
    {
      ItemStepEffect(o, copy, acc, items[i]);
    }
  }

  /** Entry `i` is the last one whose `root_map` key is `k`. */
  predicate LastWithKey(o: FinishOptions, items: seq<(FileKey, seq<string>)>, i: int, k: string) {
    0 <= i < |items| && RootMapKey(o, items[i].0) == k &&
    forall j :: i < j < |items| ==> RootMapKey(o, items[j].0) != k
  }

  /** `m` maps each entry's key, and each key to the value of the last entry with it. */
  ghost predicate RootMapOfItems(o: FinishOptions, items: seq<(FileKey, seq<string>)>, m: map<string, string>) {
    (forall i :: 0 <= i < |items| ==> RootMapKey(o, items[i].0) in m) &&
    (forall k :: k in m ==> exists i :: LastWithKey(o, items, i, k) && m[k] == RootMapValue(o, items[i].0))
  }

  /**
   * `ms` holds one manifest per entry, named after its unique id, listing
   * the entry's files, or the copies' paths within the pack when copying.
   */
  ghost predicate ManifestsOfItems(o: FinishOptions, copy: (string, PurePath) -> bool,
                                   items: seq<(FileKey, seq<string>)>, ms: seq<(string, string)>) {
    |ms| == |items| &&
    (forall i :: 0 <= i < |items| ==> ms[i].0 == ExternalManifestName(items[i].0.uniqueId)) &&
    (forall i :: 0 <= i < |items| ==> ms[i].1 == ManifestTextOf(o, copy, items[i])) &&
    (forall i, j :: 0 <= i < j < |items| ==> items[i].0.uniqueId != items[j].0.uniqueId)
  }

  /** The files that failed to copy, entry after entry; none when not copying. */
  function CopyFailuresOfItems(o: FinishOptions, copy: (string, PurePath) -> bool, items: seq<(FileKey, seq<string>)>): seq<string>
    decreases |items|
  {
    if items == [] then []
    else
      var last := if o.copyExternal then CopyFailed(o, copy, items[|items| - 1]) else [];
      CopyFailuresOfItems(o, copy, items[..|items| - 1]) + last
  }

  lemma RootMapOfItemsSnoc(o: FinishOptions, init: seq<(FileKey, seq<string>)>, last: (FileKey, seq<string>),
                           before: map<string, string>)
    requires RootMapOfItems(o, init, before)
    ensures RootMapOfItems(o, init + [last], before[RootMapKey(o, last.0) := RootMapValue(o, last.0)])
  {
    var items := init + [last];
    var after := before[RootMapKey(o, last.0) := RootMapValue(o, last.0)];
    forall i | 0 <= i < |items| ensures RootMapKey(o, items[i].0) in after {
      if i < |init| { assert items[i] == init[i]; }
    }
    forall k | k in after
      ensures exists i :: LastWithKey(o, items, i, k) && after[k] == RootMapValue(o, items[i].0)
    {
      if k != RootMapKey(o, last.0) {
        var i :| LastWithKey(o, init, i, k) && before[k] == RootMapValue(o, init[i].0);
        assert items[i] == init[i];
        assert LastWithKey(o, items, i, k);
      } else {
        assert LastWithKey(o, items, |init|, k);
      }
    }
  }

  lemma ManifestsOfItemsSnoc(o: FinishOptions, copy: (string, PurePath) -> bool,
                             init: seq<(FileKey, seq<string>)>, last: (FileKey, seq<string>),
                             before: seq<(string, string)>, m: (string, string))
    requires ManifestsOfItems(o, copy, init, before)
    requires m.0 == ExternalManifestName(last.0.uniqueId) && m.0 !in Names(before)
    requires m.1 == ManifestTextOf(o, copy, last)
    ensures ManifestsOfItems(o, copy, init + [last], before + [m])
  {
    var items, after := init + [last], before + [m];
    forall i | 0 <= i < |items|
      ensures after[i].0 == ExternalManifestName(items[i].0.uniqueId)
      ensures after[i].1 == ManifestTextOf(o, copy, items[i])
    {
      if i < |init| { assert items[i] == init[i] && after[i] == before[i]; }
    }
    forall i, j | 0 <= i < j < |items| ensures items[i].0.uniqueId != items[j].0.uniqueId {
      assert items[i] == init[i];
      if j < |init| {
        assert items[j] == init[j];
      } else {
        assert before[i] in before;
      }
    }
  }

  /** The loop, for any body with the effect above: the `root_map`, the manifests and the copy failures it builds. */
  lemma {:induction false} FoldResult(o: FinishOptions, copy: (string, PurePath) -> bool,
                                      step: (Acc, (FileKey, seq<string>)) -> Result<Acc, CliError>,
                                      items: seq<(FileKey, seq<string>)>)
    requires HasEffect(o, copy, step, items)
    requires Fold(step, items).Success?
    ensures RootMapOfItems(o, items, Fold(step, items).value.rootMap)
    ensures ManifestsOfItems(o, copy, items, Fold(step, items).value.manifests)
    ensures Fold(step, items).value.copyingFailures == CopyFailuresOfItems(o, copy, items)
    decreases |items|
  {
    if items != [] {
      var init, last := items[..|items| - 1], items[|items| - 1];
      assert items == init + [last];
      assert HasEffect(o, copy, step, init) by {
        forall acc, i | 0 <= i < |init| && step(acc, init[i]).Success?
          ensures Effect(o, copy, acc, init[i], step(acc, init[i]).value)
        {
          assert init[i] == items[i];
        }
      }
      FoldResult(o, copy, step, init);
      var before := Fold(step, init).value;
      var after := step(before, last).value;
      assert Effect(o, copy, before, last, after) by {
        assert last == items[|items| - 1];
      }
      RootMapOfItemsSnoc(o, init, last, before.rootMap);
      ManifestsOfItemsSnoc(o, copy, init, last, before.manifests, after.manifests[|before.manifests|]);
    }
  }

  /**
   * After the loop over `external_files.items()`: each entry's key is in
   * `root_map`, and each `root_map` key holds the value of the last entry
   * with that key, which is `external_files/unique_id` when copying and the
   * entry's root otherwise. There is one external-files manifest per entry,
   * in order, named after its unique id, listing the entry's files, or when
   * copying the paths of the copies within the pack; since each manifest is
   * created exclusively, the loop succeeds only if the unique ids are
   * pairwise distinct. `copying_failures` is the files whose copy failed,
   * entry after entry, and empty when not copying.
   */
  lemma RootMapLoopResult(o: FinishOptions, copy: (string, PurePath) -> bool, items: seq<(FileKey, seq<string>)>)
    requires forall i :: 0 <= i < |items| ==> !IsAbsolute(items[i].0.uniqueId)
    requires RootMapLoop(o, copy, items).Success?
    ensures RootMapOfItems(o, items, RootMapLoop(o, copy, items).value.rootMap)
    ensures ManifestsOfItems(o, copy, items, RootMapLoop(o, copy, items).value.manifests)
    ensures RootMapLoop(o, copy, items).value.copyingFailures == CopyFailuresOfItems(o, copy, items)
  {
    ItemStepHasEffect(o, copy, items);
    FoldResult(o, copy, ItemStepOf(o, copy), items);
  }

  /** One entry of the loop, as the command processes it. */
  method ProcessItem(o: FinishOptions, copy: (string, PurePath) -> bool, acc: Acc, item: (FileKey, seq<string>))
    returns (r: Result<Acc, CliError>)
    ensures r == ItemStep(o, copy, acc, item)
  {
    var (key, files) := item;
    if !o.copyExternal {
      return ListedItem(o, acc, key, files);
    }
    var q := CopyRequest(TargetDirectory(o.directory), key.root, key.uniqueId, o.strict);
    var copied := CopyExternalFiles(q, copy, files);
    if copied.Failure? {
      return Failure(CopyingRaised(copied.error));
    }
    var out := copied.value;
    var failures := acc.copyingFailures + out.failures;
    var relativeRoot := RelativeTo(out.newRoot, Parse(o.directory));
    if relativeRoot.None? {
      return Failure(OutsideDirectory(ToStr(out.newRoot)));
    }
    var rootMap := acc.rootMap[RootMapKey(o, key) := ToStr(relativeRoot.value)];
    var relPaths := RelativeAll(out.newFiles, Parse(o.directory));
    if relPaths.Failure? {
      return Failure(OutsideDirectory(relPaths.error));
    }
    r := AddManifest(Acc(rootMap, acc.manifests, failures), key.uniqueId, relPaths.value);
  }

  /** The loop over `external_files.items()`, building `root_map`, the manifests and `copying_failures`. */
  method BuildRootMap(o: FinishOptions, copy: (string, PurePath) -> bool, items: seq<(FileKey, seq<string>)>)
    returns (r: Result<Acc, CliError>)
    ensures r == RootMapLoop(o, copy, items)
  {
    var acc := Acc(map[], [], []);
    var i := 0;
    while i < |items|
      invariant 0 <= i <= |items|
      invariant RootMapLoop(o, copy, items[..i]) == Success(acc)
    {
      RootMapLoopNext(o, copy, items, i, acc);
      var step := ProcessItem(o, copy, acc, items[i]);
      if step.Failure? {
        RootMapLoopFailurePersists(o, copy, items, i + 1);
        return step;
      }
      acc := step.value;
      i := i + 1;
    }
    assert items[..i] == items;
    return Success(acc);
  }

  /** What the command does after `export_uids` or `export_catalog` returned. */
  method FinishPack(o: FinishOptions, cwd: PurePath, version: string, copy: (string, PurePath) -> bool,
                    all: seq<string>, items: seq<(FileKey, seq<string>)>, failures: seq<string>)
    returns (r: Result<Written, CliError>)
    ensures r == FinishSpec(o, cwd, version, copy, all, items, failures)
  {
    var documentsManifest: Option<seq<string>> := None;
    if !o.noDocuments && all != [] {
      var lines := DocumentsManifest(cwd, o.directory, all);
      if lines.Failure? {
        return Failure(DocumentNotInDirectory(lines.error));
      }
      documentsManifest := Some(lines.value);
    }
    var acc := Acc(map[], [], []);
    if o.external == ListFiles {
      var loop := BuildRootMap(o, copy, items);
      if loop.Failure? {
        return Failure(loop.error);
      }
      acc := loop.value;
    }
    var catalog := CatalogRecord(o.format, cwd, o.directory, [DocumentGlob(o.format)], Some(acc.rootMap), version);
    var status := if failures != [] || acc.copyingFailures != [] then 1 else 0;
    return Success(Written(documentsManifest, acc.manifests, acc.rootMap, acc.copyingFailures, catalog, status));
  }
}
