# databroker-pack, modelled in Dafny

databroker-pack exports "runs" from a databroker catalog into a portable
directory (a *pack*). The directory holds the serialized documents, optionally
copies of the external files the documents reference, manifests listing both,
and a `catalog.yml` that intake can open. It also installs such a pack as a
catalog in the user's configuration area ("unpack").

This project models the rules beneath that I/O glue:

- how one run's document stream is rewritten and its external files collected
  (`export_run`);
- how a batch of runs accumulates artifacts, files and failures
  (`export_uids`, `export_catalog`);
- where copied external files land, and what the copy loop returns
  (`copy_external_files`);
- the text of the external-files manifest and the documents manifest, and the
  `catalog.yml` record;
- the command-line decisions: the external-data mode, the `--uids` lines, the
  `root_map` loop, the format glob and the exit status;
- how `unpack_inplace` and `unpack_mongo_normalized` validate and rewrite
  catalog records;
- the bookkeeping of `SSHManager`.

Loops of the source are Dafny methods with loop invariants. Each method's
`ensures` ties its result to a recursive specification function, and the
properties the package promises are proved as lemmas about those functions.
`SSHManager` is a class whose `Open` method updates its fields. Exceptions are
`Failure` values of a `Result` datatype. Collaborators that cannot be seen are
function-valued parameters:

- the filler and `run.get_file_list`;
- MD5 and the salted root hash;
- the file copy;
- the `~user` home lookup.

Files: `wrappers.dfy`, `seqs.dfy`, `text.dfy` (ordering, sorting, split/join),
`pystr.dfy` (`str.strip`, `str.splitlines`), `paths.dfy` (POSIX `pathlib`),
`root_hash.dfy`, `run_export.dfy`, `batch_export.dfy`, `materialize.dfy`,
`manifests.dfy`, `catalog_config.dfy`, `unpack.dfy`, `ssh_manager.dfy`,
`pack_cli.dfy`.

## Model

| member | source | states |
|---|---|---|
| RunExport.ExportRun | databroker_pack/_pack.py:293-347 | The loop over the canonical stream returns exactly what the specification function `ExportRunSpec` computes: the first exception ends it, otherwise it yields the serialized documents and the files map. |
| RunExport.ExportRunFailsIff | databroker_pack/_pack.py:305-345 | A run raises if and only if one of its documents raises. That is the filler in fill mode, a resource without `root` or whose file listing raises, or the serializer. The serializer raises on a start document without `uid`, and on a start whose file `documents/<uid>` the destination already holds or this run already created. The exception is that of the first such document. |
| RunExport.CreatedNames | databroker_pack/_pack.py:305-306 | A run that returns has created exactly the documents names of the start documents it passed to the serializer. |
| RunExport.CreatedInOneStart | databroker_pack/_pack.py:305-306 | When documents are written outside fill mode and the stream's only start document is its first, the run creates exactly that start's `documents/<uid>`. |
| RunExport.RepeatedRunRefused | databroker_pack/_pack.py:305-306 | When documents are written and the stream's start uid already has its `documents/<uid>` file in the destination, the run raises from the serializer. |
| RunExport.SerializedIsPassedOn | databroker_pack/_pack.py:337-346 | Under `no_documents` the serializer is given nothing. Otherwise it is given each document's contribution, in stream order. |
| RunExport.FillModeSerialized | databroker_pack/_pack.py:310-316 | In fill mode no filled document of kind resource, datum or datum_page reaches the serializer. Every other filled document does, unless `no_documents`. |
| RunExport.PassedOnFilled | databroker_pack/_pack.py:310-316 | In fill mode, a document is passed on if and only if the filler produced it from some input and its kind is not external-related. |
| RunExport.PassedOnOutsideFill | databroker_pack/_pack.py:317-345 | Outside fill mode, every document is passed on one for one. |
| RunExport.ResourceRootRewritten | databroker_pack/_pack.py:317-345 | Outside fill mode with documents written, the serialized stream has the input's length. Each resource keeps its keys and its other values and has `root` replaced by the hash of its recorded root. This includes `external='ignore'`. Every other document is unchanged. |
| RunExport.FilesRecorded | databroker_pack/_pack.py:318-336 | With `external=None`, the files map has a key exactly for each resource's `(root_in_document, root_map.get(r, r), hash(r))`, where `r` is the recorded root and `root_in_document` is `r` under `no_documents`. Under each key is the union of the file lists of the resources with that key. |
| RunExport.NoFilesUnlessListing | databroker_pack/_pack.py:299-336 | With `external` set to 'fill' or 'ignore', the files map is empty. |
| RunExport.SingleResourceScenario | databroker_pack/_pack.py:305-347 | A start, one resource and a stop, into a destination without the run's documents file, give one key holding both listed files. The resource's root becomes the hash of "/data/det1", and the run's documents file is the one name created. |
| RunExport.SaltedSingleResourceScenario | databroker_pack/_pack.py:103-105 | With `root_hash_func` bound to a salt, the same run's unique id and rewritten root are the MD5 of the UTF-8 of "/data/det1" followed by the salt. |
| RunExport.FailurePersists | databroker_pack/_pack.py:309-345 | Once the loop has raised, the later documents do not change the outcome. |
| BatchExport.Union | databroker_pack/_pack.py:120-123 | Key-wise union, as `defaultdict(set).update` builds it: a key is present if and only if it is on either side, and it holds the union of both sides' sets. |
| BatchExport.ArtifactSets | databroker_pack/_pack.py:122-123 | Each artifact list, read as a set, under the same names. |
| BatchExport.MergeSets | databroker_pack/_pack.py:120-123 | The inner update loop computes `Union`. |
| BatchExport.ExportUids | databroker_pack/_pack.py:100-134 | The loop over the uids returns exactly what the specification function `BatchSpec` computes. |
| BatchExport.ExportOne | databroker_pack/_pack.py:107-129 | One turn of the loop: a run that returns and whose documents name is new is merged in. Otherwise `strict` re-raises and non-strict appends the uid to `failures`. The run's documents name is created either way. |
| BatchExport.Visited | databroker_pack/_pack.py:216-218 | `limit=None` visits every entry. `limit=k` visits the first `min(k, n)` entries, as a prefix. |
| BatchExport.ExportCatalog | databroker_pack/_pack.py:203-243 | A limit below 1 gives `ValueError`. Otherwise the result is `BatchSpec` over the visited prefix. |
| BatchExport.BatchFailsIff | databroker_pack/_pack.py:107-129 | A batch raises if and only if `strict` is set and some run raises. A run raises when its own export raises, or when its documents name was created by an earlier run of the batch. A batch that returns has created exactly the runs' documents names. |
| BatchExport.BatchFailsAtFirst | databroker_pack/_pack.py:125-128 | Under `strict`, the exception is that of the first run that raises. |
| BatchExport.FailuresAreRaisingRuns | databroker_pack/_pack.py:107-129 | Without `strict` a batch always returns. `failures` lists the uids of the runs that raised, in iteration order, counting runs refused because an earlier run created their documents name. |
| BatchExport.RepeatedRunRaises | databroker_pack/_pack.py:107-129 | A later run with the same documents name as an earlier one raises. |
| BatchExport.NamesOfMembership | databroker_pack/_pack.py:107-129 | Every run's documents name is among the names the batch creates. |
| BatchExport.DuplicateUidFailsOnce | databroker_pack/_pack.py:107-129 | A uid listed twice whose export succeeds gives a non-strict batch that returns with `failures == [uid]`: the second export is refused by the serializer. |
| BatchExport.FilesAccumulated | databroker_pack/_pack.py:107-121 | A file key is present if and only if some run that did not raise has it. It holds exactly the files those runs list under it. |
| BatchExport.ArtifactsAccumulated | databroker_pack/_pack.py:107-123 | An artifact name is present if and only if some run that did not raise has it. It holds exactly the artifacts those runs list under it. |
| BatchExport.LimitStopsBeforeLaterRuns | databroker_pack/_pack.py:216-218 | With `limit=3`, three runs that do not raise and a fourth that raises, the strict batch over the visited runs is the batch over the first three and succeeds. The strict batch over all five fails. |
| BatchExport.AttemptOfRun | databroker_pack/_pack.py:107-118 | An attempt that agrees with `export_run` has no outcome exactly when some document of the run raises. When the run returns, writes documents outside fill mode and its only start is its first document, the attempt's name is that start's `documents/<uid>`. |
| BatchExport.BatchFailurePersists | databroker_pack/_pack.py:125-128 | Once a strict batch has raised, later runs do not change the outcome. |
| Materialize.CopyExternalFiles | databroker_pack/_pack.py:395-409 | The copy loop, with `new_root` computed before the loop, returns exactly `CopySpec`. |
| Materialize.CopyOne | databroker_pack/_pack.py:398-408 | One turn of the loop: the file is located under the root, copied, and its destination or failure recorded. |
| Materialize.CollectFailsIff | databroker_pack/_pack.py:398-407 | The copy raises if and only if some file is outside the root, which raises even without `strict`, or some copy fails under `strict`. |
| Materialize.CollectFailures | databroker_pack/_pack.py:404-409 | On success, `new_root` is the given root and `failures` are the files whose copy raised, in order. |
| Materialize.CollectNewFiles | databroker_pack/_pack.py:400-403 | On success, `new_files` are the destinations of the copied files, in order. |
| Materialize.DestsMembership | databroker_pack/_pack.py:400-403 | A path is among the new files if and only if some file was copied to it. |
| Materialize.CopyNewRoot | databroker_pack/_pack.py:399 | The new root is `target/unique_id`. |
| Materialize.DestKeepsRelativePath | databroker_pack/_pack.py:398-400 | A file under the root lands at `target/unique_id/<its path relative to root>`. |
| Materialize.EmptyFilesUnbound | databroker_pack/_pack.py:395-409 | As written, an empty file list raises where `(target/unique_id, [], [])` was intended. |
| Materialize.AsWrittenAgreesWhenNonEmpty | databroker_pack/_pack.py:395-409 | On a non-empty file list, the code as written and the corrected loop agree. |
| Manifests.ExternalManifestNameInjective | databroker_pack/_pack.py:360 | Different unique ids give different manifest names. |
| Manifests.ExternalManifestLines | databroker_pack/_pack.py:360-362 | Read back line by line, the manifest is the files, each once, strictly sorted, and nothing else. |
| Manifests.ExternalManifestOrderIndependent | databroker_pack/_pack.py:362 | The manifest depends only on the set of files. |
| Manifests.ExternalManifestEmpty | databroker_pack/_pack.py:362 | No files give an empty manifest. |
| Manifests.DocumentsManifestFailsIff | databroker_pack/_pack.py:505-509 | Writing the documents manifest fails if and only if some artifact is not under the absolute pack directory. |
| Manifests.DocumentsManifestLines | databroker_pack/_pack.py:505-509 | The documents manifest has one line per artifact, in the artifacts' order and not sorted. |
| Manifests.DocumentsManifestLineRejoins | databroker_pack/_pack.py:506-509 | Each line ends in a newline, and joined onto the absolute pack directory it gives back the artifact. |
| CatalogConfig.PackDriver | databroker_pack/_pack.py:437-441 | msgpack is read with `bluesky-msgpack-catalog` and jsonl with `bluesky-jsonl-catalog`, and no other pairing holds. |
| CatalogConfig.CatalogRecord | databroker_pack/_pack.py:429-446 | Exactly one source, `packed_catalog`, with the format's driver and `generated_by` set to databroker_pack and the version. Its `relative_paths` are the paths in order, and `paths` has as many entries. `root_map` is present exactly when one is given, and there are no database args. |
| CatalogConfig.AbsolutePaths | databroker_pack/_pack.py:429 | One absolute path per relative path. |
| CatalogConfig.AbsolutePathsParse | databroker_pack/_pack.py:429 | Parsed back, each absolute path is the working directory joined with the directory and the relative path, and it is absolute. |
| RootHashing.RootHashOfTextOnly | databroker_pack/_utils.py:173 | The hash depends only on the salt and the root's text. |
| RootHashing.PathAndItsTextHashAlike | databroker_pack/_utils.py:173 | A `Path` and its `str` hash alike. |
| RootHashing.Utf8 | databroker_pack/_utils.py:173 | `str.encode()` gives 1 to 4 bytes per character. |
| RootHashing.Utf8Ascii | databroker_pack/_utils.py:173 | ASCII text encodes to its own code points. |
| Unpack.LoadSources | databroker_pack/_unpack.py:34-59 | Validation: not a directory, then no `catalog.yml`, then a name that exists without merge, then an existing catalog outside the user-writable location. Each fails in that order. Otherwise `packed_catalog` is popped. |
| Unpack.UnpackInplace | databroker_pack/_unpack.py:15-116 | The imperative rewrite returns exactly what `UnpackInplaceSpec` computes. |
| Unpack.RebaseRootMap | databroker_pack/_unpack.py:96-98 | The loop over the `root_map` entries computes `Rebased`. |
| Unpack.UnpackMongoNormalized | databroker_pack/_unpack.py:143-255 | The checks and the record rewrite return exactly what `UnpackMongoSpec` computes. |
| UnpackProperties.NameExistsBeforeReading | databroker_pack/_unpack.py:42-45 | With the name taken and no merge, both unpack functions raise `CatalogNameExists` whatever the bundle holds. |
| UnpackProperties.DriverMismatchRejected | databroker_pack/_unpack.py:63-70 | Merging into a source with another driver is refused with both drivers named. |
| UnpackProperties.MergedPathsAreSortedUnions | databroker_pack/_unpack.py:74-91 | After a merge, `paths` is the strictly sorted set union of the new paths and the existing ones. The new paths are rebuilt from `relative_paths` when there are any. `relative_paths` is the sorted union of both sides. |
| UnpackProperties.FreshPathsFromRelative | databroker_pack/_unpack.py:74-79 | Without a merge, `paths` is the absolute forms of `relative_paths`, sorted, duplicates kept. |
| UnpackProperties.RebasedValues | databroker_pack/_unpack.py:96-98 | Absolute `root_map` values are unchanged. Relative ones become `path/v` made absolute. |
| UnpackProperties.RebaseIdempotent | databroker_pack/_unpack.py:96-98 | Rebasing twice is rebasing once. |
| UnpackProperties.MergedRootMapIsDisjointUnion | databroker_pack/_unpack.py:101-110 | A merge succeeds only with disjoint `root_map` keys. The result is exactly the rebased new entries plus the existing ones. |
| UnpackProperties.SharedKeyCollides | databroker_pack/_unpack.py:101-109 | Any shared key is a collision, even when both sides map it to the same value. |
| UnpackProperties.SharedRootMapKeyFails | databroker_pack/_unpack.py:101-109 | A key on both sides makes `unpack_inplace` fail. |
| UnpackProperties.WrittenCatalog | databroker_pack/_unpack.py:39-116 | The written file is `config_dir/databroker_unpack_<name>.yml`. It holds the bundle's other sources untouched and the new source under its name. |
| UnpackProperties.InplaceStages | databroker_pack/_unpack.py:63-110 | A successful unpack passes every stage, and its result is the last stage's. |
| UnpackProperties.AbsolutePathsStage | databroker_pack/_unpack.py:74-79 | Rebuilding `paths` touches nothing else. |
| UnpackProperties.MergePathsStage | databroker_pack/_unpack.py:82-91 | Merging paths gives sorted set unions and keeps driver and `root_map`. |
| UnpackProperties.RebaseStage | databroker_pack/_unpack.py:96-98 | Rebasing changes only `root_map` values. |
| UnpackProperties.MergeRootMapsStage | databroker_pack/_unpack.py:101-110 | A successful root-map merge had disjoint keys and yields their union. |
| UnpackProperties.MongoSourceOfShape | databroker_pack/_unpack.py:197-249 | The MongoDB source has the MongoDB driver and the packed metadata. Its args are exactly both databases on `uri` plus the rebased `root_map`, joined with the existing one when merging. |
| UnpackProperties.MongoSourceShape | databroker_pack/_unpack.py:172-249 | A successful MongoDB unpack had a URI with a database. Any existing source has the MongoDB driver and both databases equal to `uri`. The written source is as `MongoSourceOfShape` says. |
| UnpackProperties.UnpackFreshPack | databroker_pack/_pack.py:429-446 | A freshly packed record unpacked under a new name is the packed source with sorted absolute `paths` and a rebased `root_map`. |
| SshManager.OpenRejectsAbsolute | databroker_pack/_utils.py:79-83 | An absolute postfix is refused and the state is unchanged. |
| SshManager.OpenRejectsReused | databroker_pack/_utils.py:84-88 | A postfix whose name is reserved is refused and the state is unchanged. |
| SshManager.BadModeConsumesName | databroker_pack/_utils.py:89-98 | A bad mode raises `ModeError` after the name was reserved. |
| SshManager.SecondOpenRejected | databroker_pack/_utils.py:84-89 | After any call that got past the first two checks, the same postfix is refused. |
| SshManager.SuccessfulOpen | databroker_pack/_utils.py:89-101 | A successful open reserves the name and appends one buffer of the mode's kind, writing to `directory/name`, to the label's list. It records the buffer under the postfix and changes nothing else. |
| SshManager.OpenPreservesValid | databroker_pack/_utils.py:79-101 | Every call keeps the invariant: recorded postfixes are reserved, and every listed buffer is recorded. A success never overwrites a postfix. |
| SshManager.EmptyValid | databroker_pack/_utils.py:16-21 | A new manager satisfies the invariant. |
| SshManager.ReserveName | databroker_pack/_utils.py:33-50 | `reserve_name` always raises. |
| SshManager.SSHManager.constructor | databroker_pack/_utils.py:16-21 | A new manager has no reserved names, artifacts or buffers. |
| SshManager.SSHManager.Artifacts | databroker_pack/_utils.py:29-31 | The `artifacts` property: each label's list is non-empty and holds only recorded buffers. |
| SshManager.SSHManager.Open | databroker_pack/_utils.py:52-101 | `open` moves the fields and the result exactly as `Opened` says, and keeps `Valid`. |
| PackCli.SelectExternal | databroker_pack/commandline/pack.py:202-220 | The mode is ignore if and only if `--ignore-external`, else fill if and only if `--fill-external`, else listing. `--handler-registry` without `--fill-external` fails, and nothing else does. |
| PackCli.Preflight | databroker_pack/commandline/pack.py:202-263 | The mode check comes first, then an existing `catalog.yml` exits with status 1. |
| PackCli.UidsAreStrippedKeptLines | databroker_pack/commandline/pack.py:305-309 | The uids of a file are its lines that are non-empty and not starting with `#`, in order, each stripped. |
| PackCli.BlankAndIndentedCommentKept | databroker_pack/commandline/pack.py:305-309 | The test looks at the raw line, so a line of blanks gives uid "" and " #x" gives "#x", while "" and "#c" are skipped. |
| PackCli.UidsOfFile | databroker_pack/commandline/pack.py:305-309 | The generator over one file computes `UidsOfLines` of its `splitlines()`. |
| PackCli.CollectUids | databroker_pack/commandline/pack.py:303-316 | Reading the `--uids` files computes `SelectUids`. |
| PackCli.SelectUids | databroker_pack/commandline/pack.py:310-316 | No uids at all exits with status 1. Otherwise exactly `Slice(uids, limit)`, i.e. `uids[:limit]`, is passed on, always a prefix of the uids. |
| PackCli.Slice | databroker_pack/commandline/pack.py:315 | Python slicing: a prefix, and all of it without a limit. `k >= 0` keeps `min(k, n)`, and `k < 0` drops `-k` from the end. |
| PackCli.SliceAgreesWithCatalogLimit | databroker_pack/commandline/pack.py:315 | For a limit of 1 or more, slicing picks the same runs as `export_catalog`'s cutoff. A limit of 0 packs nothing. |
| PackCli.DocumentGlob | databroker_pack/commandline/pack.py:381-386 | jsonl gives `./documents/*.jsonl` and msgpack gives `./documents/*.msgpack`. |
| PackCli.FinishSpec | databroker_pack/commandline/pack.py:329-399 | The documents manifest is written if and only if documents were written and `artifacts["all"]` is non-empty. `root_map`, manifests and copy failures are empty unless files are listed, and are otherwise the loop's. The catalog record carries the glob and `root_map`. The exit status is 1 if and only if run or copy failures exist. It fails if and only if the documents manifest or the loop raises, where the loop copies with the corrected `copy_external_files`. |
| PackCli.FinishPack | databroker_pack/commandline/pack.py:329-399 | The imperative tail of the command computes `FinishSpec`. |
| PackCli.BuildRootMap | databroker_pack/commandline/pack.py:331-378 | The loop over `external_files.items()` computes `RootMapLoop`. |
| PackCli.ProcessItem | databroker_pack/commandline/pack.py:340-380 | One turn of the `external_files.items()` loop computes `ItemStep`. |
| PackCli.RootMapLoopResult | databroker_pack/commandline/pack.py:331-378 | Each entry's key (`unique_id`, or `root_in_document` under `--no-documents`) is in `root_map`. It maps to the last such entry's value: `external_files/unique_id` when copying, its root otherwise. There is one manifest per entry, in order, named after its unique id. It lists the entry's files when not copying, and when copying the copied files' paths within the pack, `external_files/unique_id/<path under root>`. `copying_failures` is, in entry order, the files whose copy raised when copying, and empty otherwise. Success implies pairwise distinct unique ids. |
| PackCli.PackedPathsRelative | databroker_pack/commandline/pack.py:344-362 | The copies' destinations, made relative to the pack directory, are `external_files/unique_id/<path under root>` for each copied file, in order. |
| PackCli.CopiedParts | databroker_pack/commandline/pack.py:338-362 | A successful copy of an entry gives the `root_map` value `external_files/unique_id`, the manifest paths within the pack and the entry's failed files. |
| PackCli.CopiedRootRelative | databroker_pack/commandline/pack.py:339-350 | `directory/external_files/unique_id` relative to the directory is `external_files/unique_id`. |
| PackCli.ItemStepEffect | databroker_pack/commandline/pack.py:331-378 | A successful turn adds one `root_map` entry and one manifest not written before, with the listed or copied paths as its text. When copying it appends the entry's failed copies to `copying_failures`, which it leaves unchanged otherwise. |
| PackCli.RootMapLoopFailurePersists | databroker_pack/commandline/pack.py:340-380 | Once the loop has raised, later entries do not change the outcome. |
| PyStr.Strip | databroker_pack/commandline/pack.py:306 | `str.strip()`: a slice of the text with only whitespace cut off before and after it. It is empty if and only if the text is all whitespace, and otherwise starts and ends with non-whitespace. |
| PyStr.StripIdempotent | databroker_pack/commandline/pack.py:306 | Stripping twice is stripping once. |
| PyStr.SplitLines | databroker_pack/commandline/pack.py:307 | `str.splitlines()`: no line holds a line boundary, and only empty text has no lines. |
| PyStr.SplitLinesTerminated | databroker_pack/commandline/pack.py:307 | Splitting the text of a file whose lines each end in a newline gives back exactly those lines, when no line holds a boundary of its own. |
| Paths.ParseToStr | databroker_pack/_pack.py:429 | The text of a well-formed path parses back to it. |
| Paths.RelativeToJoin | databroker_pack/_pack.py:398-400 | A relative path joined onto a base is relative to the base by exactly itself. |
| Paths.JoinRelativeTo | databroker_pack/_pack.py:509 | Joining a base with what `relative_to` left gives the path back. |
| Text.SortedUnique | databroker_pack/_pack.py:362 | `sorted(set(xs))`: strictly sorted and holding the same elements. |
| Text.Sort | databroker_pack/_unpack.py:79 | `sorted(xs)`: sorted and a permutation. |
| Text.SplitJoin | databroker_pack/_pack.py:362 | Joining newline-free lines and splitting the text gives the lines back. |

## Left out

- File, YAML and manifest I/O (`manager.open`, `yaml.dump` and `safe_load`, `os.makedirs`, temporary log files) are not modelled. The model computes the content that would be written.
  - A manifest created twice by the exclusive `"xt"` mode is a `ManifestExists` failure.
  - A file read is an `Environment` value.
- `shutil.copyfile` is a `copy(file, dest)` parameter that either succeeds or raises. Overwriting an existing destination is not modelled.
- The ssh subprocess classes are not modelled. A buffer is a token recording its kind, host and path.
- MD5 is an uninterpreted function parameter. The batch salt, drawn from `secrets` when none is given, is bound into `rootHash`.
- `event_model.Filler`, the suitcase serializers, `run.canonical` and `run.get_file_list` are collaborators.
  - The stream is a sequence of entries.
  - The filler and the file listing are functions whose `None` stands for an exception.
  - The serializer is modelled by the sequence it is given.
  - `serializer.artifacts` is an input of the batch model: each run's artifacts map.
- Catalog lookup and search, the query `eval`, `ast.literal_eval` and `parse_handler_registry` are left out. The batch takes the looked-up outcome of each uid, and the registry is a flag.
- The MongoDB connection, `parse_uri` and the document copy loop into MongoDB are left out. `uriHasDatabase` stands for the URI check.
- tqdm progress, logging, argparse and `print` are not modelled. The command's `sys.exit(1)` branches are `CliError` values or the `exitStatus` field.
- Python dictionary and set iteration order is given as the order of the input sequences. Examples are `external_files.items()` and `source_catalog.items()`.
- Text is a sequence of Unicode scalar values. `pathlib` is modelled for POSIX paths only, and `..` is kept, as `pathlib` keeps it.
- Paths.Parse: a path that starts with exactly two slashes is read as an ordinary absolute path with one root `/`, whereas POSIX `pathlib` keeps both slashes (`PurePosixPath("//a")` prints as `//a`); three or more leading slashes do collapse to one, as the model does.
- Both `catalog.yml` writers are one function with a `Format` parameter, since they differ only in the driver name.
- The version string from `get_versions()` is a parameter.
- PackCli.FinishSpec, PackCli.FinishPack, PackCli.BuildRootMap, PackCli.ProcessItem (and `RootMapLoop`, `CopiedItem`): the `root_map` loop copies with the corrected `copy_external_files` (`CopySpec`, see Findings). So an entry with no files under `--copy-external` succeeds here: it gets an empty manifest and a `root_map` entry. The program as written raises `UnboundLocalError` there and the command crashes. Such an entry arises from a resource whose file list is empty.
- PackCli.RootMapLoopResult: proved only when every unique id is a relative path. MD5 hex digests always are, but the hash is uninterpreted here.
- The serializer's other failures (a full disk, an unserializable document) are not modelled. It raises only on a start document without `uid` and on a documents file that already exists.
- BatchExport.BatchSpec: the destination is taken to hold no documents file when the batch starts. Files left by an earlier invocation are covered for one run by RunExport.RepeatedRunRefused. The documents file is named `documents/<uid>` without the serializer's extension.
- UnpackProperties.MongoSourceShape: it says nothing about `paths`, because the MongoDB source does not carry them.

## Findings

| source | as written | input that shows it | evidently intended | confidence | as-written member | corrected member |
|---|---|---|---|---|---|---|
| databroker_pack/_pack.py:395-409 | `new_root` is assigned only inside the loop body and returned after it. | `files` empty: a resource whose file list is empty, packed with `--copy-external`. `return new_root, …` then raises `UnboundLocalError`. | Return `(Path(target_directory, unique_id), [], [])`. | high (not executed) | Materialize.EmptyFilesUnbound | Materialize.CopyExternalFiles |
