/**
 * Exporting a batch of runs (`export_uids`, `export_catalog`): each run is
 * exported in turn, the artifacts and external files of the runs that
 * succeed are accumulated as unions of sets, and the uids of the runs that
 * raise are listed, unless `strict` makes the first exception end the batch.
 */
module BatchExport {
  import opened Wrappers
  import opened Seqs
  import opened RunExport

  /** What a successful `export_run` returns: artifacts by name, and files by key. */
  datatype RunExported = RunExported(artifacts: map<string, seq<string>>, files: map<FileKey, set<string>>)

  /**
   * Exporting one uid into a destination that holds none of its names: the
   * documents name its serializer creates (`DocumentsName` of the run's start
   * uid; `None` under `no_documents` or when the run raises before its start
   * document reaches the serializer), and the run's outcome, `None` when it
   * raises. The name is created even when the run raises later.
   */
  datatype Attempt = Attempt(name: Option<string>, outcome: Option<RunExported>)

  /** The three values a batch returns, and the documents names created in the destination so far. */
  datatype Batch = Batch(artifacts: map<string, set<string>>, files: map<FileKey, set<string>>, failures: seq<string>,
                         created: set<string>)

  datatype BatchError =
    | Aborted(uid: string)   // strict: the exception of run `uid` propagates
    | InvalidLimit           // "limit must be None or a number 1 or greater"

  /** Key-wise union, as `accumulated[key].update(set_)` on a defaultdict(set) does. */
  function Union<K(!new)>(a: map<K, set<string>>, b: map<K, set<string>>): (r: map<K, set<string>>)
    ensures forall k :: k in r <==> k in a || k in b
    ensures forall k, x :: k in r ==> (x in r[k] <==> (k in a && x in a[k]) || (k in b && x in b[k]))
  {
    map k | k in a.Keys + b.Keys :: GetOr(a, k, {}) + GetOr(b, k, {})
  }

  /** The artifacts of one run, each list read as a set. */
  function ArtifactSets(arts: map<string, seq<string>>): (r: map<string, set<string>>)
    ensures r.Keys == arts.Keys
    ensures forall k, x :: k in r ==> (x in r[k] <==> x in arts[k])
  {
    map k | k in arts :: Elems(arts[k])
  }

  /** The inner loops `for key, set_ in files.items(): accumulated[key].update(set_)`. */
  method MergeSets<K(!new)>(acc: map<K, set<string>>, add: map<K, set<string>>) returns (r: map<K, set<string>>)
    ensures r == Union(acc, add)
  {
    r := acc;
    var todo := add.Keys;
    while todo != {}
      invariant todo <= add.Keys
      invariant r.Keys == acc.Keys + (add.Keys - todo)
      invariant forall k :: k in r ==> r[k] == GetOr(acc, k, {}) + (if k in add && k !in todo then add[k] else {})
      decreases todo
    {
      var k :| k in todo;
      var known := if k in r then r[k] else {};
      r := r[k := known + add[k]];
      todo := todo - {k};
    }
    assert r.Keys == Union(acc, add).Keys;
    forall k | k in r
      ensures r[k] == Union(acc, add)[k]
    {
      assert k in add ==> k !in todo;
    }
  }

  function NameSet(name: Option<string>): set<string> {
    if name.Some? then {name.value} else {}
  }

  /** The serializer's exclusive create refuses a name an earlier run of the batch created. */
  predicate Refused(created: set<string>, a: Attempt) {
    a.name.Some? && a.name.value in created
  }

  /** One turn: run `uid` is exported, or raises (on its own or in the serializer). */
  function BatchStep(acc: Batch, uid: string, a: Attempt, strict: bool): Result<Batch, BatchError> {
    var created := acc.created + NameSet(a.name);
    if !Refused(acc.created, a) && a.outcome.Some? then
      var run := a.outcome.value;
      Success(Batch(Union(acc.artifacts, ArtifactSets(run.artifacts)), Union(acc.files, run.files), acc.failures, created))
    else if strict then Failure(Aborted(uid))
    else Success(Batch(acc.artifacts, acc.files, acc.failures + [uid], created))
  }

  /** The state after the loop over `uids`; `exportOne` looks the run up and exports it. */
  function BatchSpec(uids: seq<string>, exportOne: string -> Attempt, strict: bool): Result<Batch, BatchError>
    decreases |uids|
  {
    if uids == [] then Success(Batch(map[], map[], [], {}))
    else
      match BatchSpec(uids[..|uids| - 1], exportOne, strict)
      case Failure(err) => Failure(err)
      case Success(acc) => BatchStep(acc, uids[|uids| - 1], exportOne(uids[|uids| - 1]), strict)
  }

  lemma {:induction false} BatchFailurePersists(uids: seq<string>, n: nat, exportOne: string -> Attempt, strict: bool)
    requires n <= |uids|
    requires BatchSpec(uids[..n], exportOne, strict).Failure?
    ensures BatchSpec(uids, exportOne, strict) == BatchSpec(uids[..n], exportOne, strict)
    decreases |uids|
  {
    if n < |uids| {
      var init := uids[..|uids| - 1];
      assert init[..n] == uids[..n];
      BatchFailurePersists(init, n, exportOne, strict);
    } else {
      assert uids[..n] == uids;
    }
  }

  lemma BatchNext(uids: seq<string>, i: nat, exportOne: string -> Attempt, strict: bool, acc: Batch)
    requires i < |uids|
    requires BatchSpec(uids[..i], exportOne, strict) == Success(acc)
    ensures BatchSpec(uids[..i + 1], exportOne, strict) == BatchStep(acc, uids[i], exportOne(uids[i]), strict)
  {
    assert uids[..i + 1][..i] == uids[..i] && uids[..i + 1][i] == uids[i];
  }

  /** One turn of the loop over the uids, on the loop's variables. */
  method ExportOne(acc: Batch, uid: string, a: Attempt, strict: bool) returns (r: Result<Batch, BatchError>)
    ensures r == BatchStep(acc, uid, a, strict)
  {
    var artifacts, files, failures, created := acc.artifacts, acc.files, acc.failures, acc.created;
    var refused := a.name.Some? && a.name.value in created;
    if a.name.Some? {
      created := created + {a.name.value};
    }
    if !refused && a.outcome.Some? {
      files := MergeSets(files, a.outcome.value.files);
      artifacts := MergeSets(artifacts, ArtifactSets(a.outcome.value.artifacts));
    } else {
      if strict {
        return Failure(Aborted(uid));
      }
      failures := failures + [uid];
    }
    assert created == acc.created + NameSet(a.name);
    return Success(Batch(artifacts, files, failures, created));
  }

  /** `export_uids`. */
  method ExportUids(uids: seq<string>, exportOne: string -> Attempt, strict: bool)
    returns (r: Result<Batch, BatchError>)
    ensures r == BatchSpec(uids, exportOne, strict)
  {
    var acc := Batch(map[], map[], [], {});
    var i := 0;
    while i < |uids|
      invariant 0 <= i <= |uids|
      invariant BatchSpec(uids[..i], exportOne, strict) == Success(acc)
    {
      BatchNext(uids, i, exportOne, strict, acc);
      var step := ExportOne(acc, uids[i], exportOne(uids[i]), strict);
      if step.Failure? {
        BatchFailurePersists(uids, i + 1, exportOne, strict);
        return step;
      }
      acc := step.value;
      i := i + 1;
    }
    assert uids[..|uids|] == uids;
    return Success(acc);
  }

  /** The runs `export_catalog` visits: all of them, or the first `limit`. */
  function Visited(entries: seq<string>, limit: Option<int>): (r: seq<string>)
    requires limit.Some? ==> limit.value >= 1
    ensures limit.None? ==> r == entries
    ensures limit.Some? ==> |r| == if limit.value < |entries| then limit.value else |entries|
    ensures r == entries[..|r|]
  {
    if limit.Some? && limit.value < |entries| then entries[..limit.value] else entries
  }

  /**
   * `export_catalog` over the catalog's uids in iteration order: a limit
   * below 1 is refused, otherwise the loop breaks when the index reaches it.
   */
  method ExportCatalog(entries: seq<string>, exportRun: string -> Attempt, strict: bool, limit: Option<int>)
    returns (r: Result<Batch, BatchError>)
    ensures limit.Some? && limit.value < 1 ==> r == Failure(InvalidLimit)
    ensures (limit.None? || limit.value >= 1) ==> r == BatchSpec(Visited(entries, limit), exportRun, strict)
  {
    if limit.Some? && limit.value < 1 {
      return Failure(InvalidLimit);
    }
    var acc := Batch(map[], map[], [], {});
    var i := 0;
    while i < |entries|
      invariant 0 <= i <= |entries|
      invariant limit.Some? ==> i <= limit.value
      invariant BatchSpec(entries[..i], exportRun, strict) == Success(acc)
    {
      if limit.Some? && i == limit.value {
        break;
      }
      BatchNext(entries, i, exportRun, strict, acc);
      var step := ExportOne(acc, entries[i], exportRun(entries[i]), strict);
      if step.Failure? {
        var visited := Visited(entries, limit);
        assert entries[..i + 1] == visited[..i + 1];
        BatchFailurePersists(visited, i + 1, exportRun, strict);
        return step;
      }
      acc := step.value;
      i := i + 1;
    }
    assert entries[..i] == Visited(entries, limit);
    return Success(acc);
  }

  // ---------------------------------------------------------------------------
  // What a batch returns, stated without the loop.

  /** The documents names the runs of `uids` create, whether they succeed or not. */
  function NamesOf(uids: seq<string>, exportOne: string -> Attempt): set<string>
    decreases |uids|
  {
    if uids == [] then {} else NamesOf(uids[..|uids| - 1], exportOne) + NameSet(exportOne(uids[|uids| - 1]).name)
  }

  /**
   * Run `i` of the batch raises: on its own, or because a run before it
   * created the same documents name (the same uid listed twice, or two
   * partial uids of one run).
   */
  predicate RaisesAt(uids: seq<string>, exportOne: string -> Attempt, i: int)
    requires 0 <= i < |uids|
  {
    exportOne(uids[i]).outcome.None? || Refused(NamesOf(uids[..i], exportOne), exportOne(uids[i]))
  }

  /** The uids of the runs that raise, in order. */
  function RaisingUids(uids: seq<string>, exportOne: string -> Attempt): seq<string>
    decreases |uids|
  {
    if uids == [] then []
    else RaisingUids(uids[..|uids| - 1], exportOne) + (if RaisesAt(uids, exportOne, |uids| - 1) then [uids[|uids| - 1]] else [])
  }

  /** Whether a run raises depends only on the runs before it. */
  lemma RaisesAtPrefix(uids: seq<string>, n: nat, exportOne: string -> Attempt)
    requires n <= |uids|
    ensures forall i :: 0 <= i < n ==> (RaisesAt(uids[..n], exportOne, i) <==> RaisesAt(uids, exportOne, i))
  {
    forall i | 0 <= i < n ensures RaisesAt(uids[..n], exportOne, i) <==> RaisesAt(uids, exportOne, i) {
      assert uids[..n][..i] == uids[..i] && uids[..n][i] == uids[i];
    }
  }

  /** What one turn does, in terms of the closed forms above. */
  lemma StepEffect(acc: Batch, uid: string, a: Attempt, strict: bool)
    ensures BatchStep(acc, uid, a, strict).Failure? <==> strict && (a.outcome.None? || Refused(acc.created, a))
    ensures BatchStep(acc, uid, a, strict).Failure? ==> BatchStep(acc, uid, a, strict) == Failure(Aborted(uid))
    ensures BatchStep(acc, uid, a, strict).Success? ==>
      BatchStep(acc, uid, a, strict).value.created == acc.created + NameSet(a.name) &&
      BatchStep(acc, uid, a, strict).value.failures ==
        acc.failures + (if a.outcome.None? || Refused(acc.created, a) then [uid] else [])
  {
  }

  /**
   * Under `strict=True` the batch raises exactly when a run does; without it,
   * never. A batch that returns has created the documents names of all its runs.
   */
  lemma {:induction false} BatchFailsIff(uids: seq<string>, exportOne: string -> Attempt, strict: bool)
    ensures BatchSpec(uids, exportOne, strict).Failure? <==>
      strict && exists i :: 0 <= i < |uids| && RaisesAt(uids, exportOne, i)
    ensures BatchSpec(uids, exportOne, strict).Success? ==>
      BatchSpec(uids, exportOne, strict).value.created == NamesOf(uids, exportOne)
    decreases |uids|
  {
    if uids != [] {
      var n := |uids| - 1;
      var init := uids[..n];
      BatchFailsIff(init, exportOne, strict);
      RaisesAtPrefix(uids, n, exportOne);
      match BatchSpec(init, exportOne, strict)
      case Failure(_) =>
      case Success(acc) =>
        StepEffect(acc, uids[n], exportOne(uids[n]), strict);
        assert RaisesAt(uids, exportOne, n) <==> exportOne(uids[n]).outcome.None? || Refused(acc.created, exportOne(uids[n]));
    }
  }

  /** Under `strict=True` the exception the batch raises is that of the first run that raises. */
  lemma BatchFailsAtFirst(uids: seq<string>, exportOne: string -> Attempt, i: nat)
    requires i < |uids| && RaisesAt(uids, exportOne, i)
    requires forall j :: 0 <= j < i ==> !RaisesAt(uids, exportOne, j)
    ensures BatchSpec(uids, exportOne, true) == Failure(Aborted(uids[i]))
  {
    var prefix := uids[..i];
    BatchFailsIff(prefix, exportOne, true);
    RaisesAtPrefix(uids, i, exportOne);
    var acc := BatchSpec(prefix, exportOne, true).value;
    BatchNext(uids, i, exportOne, true, acc);
    StepEffect(acc, uids[i], exportOne(uids[i]), true);
    BatchFailurePersists(uids, i + 1, exportOne, true);
  }

  /** Without `strict`, a batch returns, and the failures are the uids of the runs that raised, in order. */
  lemma {:induction false} FailuresAreRaisingRuns(uids: seq<string>, exportOne: string -> Attempt)
    ensures BatchSpec(uids, exportOne, false).Success?
    ensures BatchSpec(uids, exportOne, false).value.failures == RaisingUids(uids, exportOne)
    decreases |uids|
  {
    BatchFailsIff(uids, exportOne, false);
    if uids != [] {
      var n := |uids| - 1;
      var init := uids[..n];
      FailuresAreRaisingRuns(init, exportOne);
      BatchFailsIff(init, exportOne, false);
      var acc := BatchSpec(init, exportOne, false).value;
      StepEffect(acc, uids[n], exportOne(uids[n]), false);
    }
  }

  /** A run whose documents name an earlier run of the batch created raises, however its own export would go. */
  lemma RepeatedRunRaises(uids: seq<string>, exportOne: string -> Attempt, i: nat, j: nat)
    requires i < j < |uids| && exportOne(uids[i]).name.Some?
    requires exportOne(uids[j]).name == exportOne(uids[i]).name
    ensures RaisesAt(uids, exportOne, j)
  {
    NamesOfMembership(uids[..j], exportOne, i);
    assert uids[..j][i] == uids[i];
  }

  lemma {:induction false} NamesOfMembership(uids: seq<string>, exportOne: string -> Attempt, i: nat)
    requires i < |uids| && exportOne(uids[i]).name.Some?
    ensures exportOne(uids[i]).name.value in NamesOf(uids, exportOne)
    decreases |uids|
  {
    if i < |uids| - 1 {
      var init := uids[..|uids| - 1];
      assert init[i] == uids[i];
      NamesOfMembership(init, exportOne, i);
    }
  }

  /**
   * A uid listed twice, without `strict`, whose run exports fine: the
   * first export succeeds and the second is refused, so the uid is listed
   * once among the failures.
   */
  lemma DuplicateUidFailsOnce(u: string, exportOne: string -> Attempt)
    requires exportOne(u).name.Some? && exportOne(u).outcome.Some?
    ensures BatchSpec([u, u], exportOne, false).Success?
    ensures BatchSpec([u, u], exportOne, false).value.failures == [u]
  {
    FailuresAreRaisingRuns([u, u], exportOne);
    RepeatedRunRaises([u, u], exportOne, 0, 1);
    assert [u, u][..1] == [u] && [u][..0] == [];
    assert !RaisesAt([u], exportOne, 0);
    assert RaisingUids([u], exportOne) == [];
    assert RaisingUids([u, u], exportOne) == RaisingUids([u], exportOne) + [u];
  }

  /** `k` is a file key of run `i`, and that run was exported. */
  predicate ExportedFileKey(uids: seq<string>, exportOne: string -> Attempt, i: int, k: FileKey)
    requires 0 <= i < |uids|
  {
    !RaisesAt(uids, exportOne, i) && k in exportOne(uids[i]).outcome.value.files
  }

  /** `name` is an artifact name of run `i`, and that run was exported. */
  predicate ExportedArtifact(uids: seq<string>, exportOne: string -> Attempt, i: int, name: string)
    requires 0 <= i < |uids|
  {
    !RaisesAt(uids, exportOne, i) && name in exportOne(uids[i]).outcome.value.artifacts
  }

  /** The last run of a batch that returns adds its files and artifacts, unless it raised. */
  lemma AccumulateNext(uids: seq<string>, exportOne: string -> Attempt, strict: bool)
    requires uids != [] && BatchSpec(uids, exportOne, strict).Success?
    ensures BatchSpec(uids[..|uids| - 1], exportOne, strict).Success?
    ensures var n := |uids| - 1;
      var before, after := BatchSpec(uids[..n], exportOne, strict).value, BatchSpec(uids, exportOne, strict).value;
      (RaisesAt(uids, exportOne, n) ==> after.files == before.files && after.artifacts == before.artifacts) &&
      (!RaisesAt(uids, exportOne, n) ==>
        after.files == Union(before.files, exportOne(uids[n]).outcome.value.files) &&
        after.artifacts == Union(before.artifacts, ArtifactSets(exportOne(uids[n]).outcome.value.artifacts)))
  {
    var n := |uids| - 1;
    var init := uids[..n];
    assert BatchSpec(init, exportOne, strict).Success?;
    BatchFailsIff(init, exportOne, strict);
    var acc := BatchSpec(init, exportOne, strict).value;
    var a := exportOne(uids[n]);
    assert RaisesAt(uids, exportOne, n) <==> a.outcome.None? || Refused(acc.created, a);
    assert BatchSpec(uids, exportOne, strict) == BatchStep(acc, uids[n], a, strict);
  }

  /** One more run, one file key: what `Union` adds, or nothing when the run raised. */
  lemma FilesAccumulatedKey(uids: seq<string>, exportOne: string -> Attempt, k: FileKey,
                           before: map<FileKey, set<string>>, after: map<FileKey, set<string>>)
    requires uids != []
    requires var init, n := uids[..|uids| - 1], |uids| - 1;
      (k in before <==> exists i :: 0 <= i < |init| && ExportedFileKey(init, exportOne, i, k)) &&
      (k in before ==> forall p :: p in before[k] <==>
        exists i :: 0 <= i < |init| && ExportedFileKey(init, exportOne, i, k) && p in exportOne(init[i]).outcome.value.files[k]) &&
      (RaisesAt(uids, exportOne, n) ==> after == before) &&
      (!RaisesAt(uids, exportOne, n) ==> after == Union(before, exportOne(uids[|uids| - 1]).outcome.value.files))
    ensures (k in after <==> exists i :: 0 <= i < |uids| && ExportedFileKey(uids, exportOne, i, k)) &&
      (k in after ==> forall p :: p in after[k] <==>
        exists i :: 0 <= i < |uids| && ExportedFileKey(uids, exportOne, i, k) && p in exportOne(uids[i]).outcome.value.files[k])
  {
    var n := |uids| - 1;
    var init := uids[..n];
    RaisesAtPrefix(uids, n, exportOne);
    forall i | 0 <= i < n ensures ExportedFileKey(uids, exportOne, i, k) <==> ExportedFileKey(init, exportOne, i, k) {
      assert init[i] == uids[i];
    }
    if !RaisesAt(uids, exportOne, n) {
      var run := exportOne(uids[n]).outcome.value.files;
      if k in run { assert ExportedFileKey(uids, exportOne, n, k); }
      forall p | k in after
        ensures p in after[k] <==>
          exists i :: 0 <= i < |uids| && ExportedFileKey(uids, exportOne, i, k) && p in exportOne(uids[i]).outcome.value.files[k]
      {
        if p in after[k] && !(k in before && p in before[k]) {
          assert ExportedFileKey(uids, exportOne, n, k) && p in run[k];
        }
        if k in before && p in before[k] {
          var i :| 0 <= i < |init| && ExportedFileKey(init, exportOne, i, k) && p in exportOne(init[i]).outcome.value.files[k];
          assert init[i] == uids[i];
        }
      }
    }
  }

  /**
   * The accumulated files: a key is present exactly when some exported run
   * has it, and under it are the files every such run lists.
   */
  lemma {:induction false} FilesAccumulated(uids: seq<string>, exportOne: string -> Attempt, strict: bool)
    requires BatchSpec(uids, exportOne, strict).Success?
    ensures forall k :: k in BatchSpec(uids, exportOne, strict).value.files <==>
      exists i :: 0 <= i < |uids| && ExportedFileKey(uids, exportOne, i, k)
    ensures forall k, p :: k in BatchSpec(uids, exportOne, strict).value.files ==>
      (p in BatchSpec(uids, exportOne, strict).value.files[k] <==>
        exists i :: 0 <= i < |uids| && ExportedFileKey(uids, exportOne, i, k) && p in exportOne(uids[i]).outcome.value.files[k])
    decreases |uids|
  {
    if uids != [] {
      var init := uids[..|uids| - 1];
      AccumulateNext(uids, exportOne, strict);
      FilesAccumulated(init, exportOne, strict);
      forall k
        ensures var after := BatchSpec(uids, exportOne, strict).value.files;
          (k in after <==> exists i :: 0 <= i < |uids| && ExportedFileKey(uids, exportOne, i, k)) &&
          (k in after ==> forall p :: p in after[k] <==>
            exists i :: 0 <= i < |uids| && ExportedFileKey(uids, exportOne, i, k) && p in exportOne(uids[i]).outcome.value.files[k])
      {
        FilesAccumulatedKey(uids, exportOne, k, BatchSpec(init, exportOne, strict).value.files,
                                BatchSpec(uids, exportOne, strict).value.files);
      }
    }
  }

  /** One more run, one artifact name: what `Union` adds, or nothing when the run raised. */
  lemma ArtifactsAccumulatedKey(uids: seq<string>, exportOne: string -> Attempt, k: string,
                           before: map<string, set<string>>, after: map<string, set<string>>)
    requires uids != []
    requires var init, n := uids[..|uids| - 1], |uids| - 1;
      (k in before <==> exists i :: 0 <= i < |init| && ExportedArtifact(init, exportOne, i, k)) &&
      (k in before ==> forall p :: p in before[k] <==>
        exists i :: 0 <= i < |init| && ExportedArtifact(init, exportOne, i, k) && p in exportOne(init[i]).outcome.value.artifacts[k]) &&
      (RaisesAt(uids, exportOne, n) ==> after == before) &&
      (!RaisesAt(uids, exportOne, n) ==> after == Union(before, ArtifactSets(exportOne(uids[|uids| - 1]).outcome.value.artifacts)))
    ensures (k in after <==> exists i :: 0 <= i < |uids| && ExportedArtifact(uids, exportOne, i, k)) &&
      (k in after ==> forall p :: p in after[k] <==>
        exists i :: 0 <= i < |uids| && ExportedArtifact(uids, exportOne, i, k) && p in exportOne(uids[i]).outcome.value.artifacts[k])
  {
    var n := |uids| - 1;
    var init := uids[..n];
    RaisesAtPrefix(uids, n, exportOne);
    forall i | 0 <= i < n ensures ExportedArtifact(uids, exportOne, i, k) <==> ExportedArtifact(init, exportOne, i, k) {
      assert init[i] == uids[i];
    }
    if !RaisesAt(uids, exportOne, n) {
      var run := exportOne(uids[n]).outcome.value.artifacts;
      if k in run { assert ExportedArtifact(uids, exportOne, n, k); }
      forall p | k in after
        ensures p in after[k] <==>
          exists i :: 0 <= i < |uids| && ExportedArtifact(uids, exportOne, i, k) && p in exportOne(uids[i]).outcome.value.artifacts[k]
      {
        if p in after[k] && !(k in before && p in before[k]) {
          assert ExportedArtifact(uids, exportOne, n, k) && p in run[k];
        }
        if k in before && p in before[k] {
          var i :| 0 <= i < |init| && ExportedArtifact(init, exportOne, i, k) && p in exportOne(init[i]).outcome.value.artifacts[k];
          assert init[i] == uids[i];
        }
      }
    }
  }

  /**
   * The accumulated artifacts: a name is present exactly when some exported
   * run has it, and under it is every path any such run lists under it.
   */
  lemma {:induction false} ArtifactsAccumulated(uids: seq<string>, exportOne: string -> Attempt, strict: bool)
    requires BatchSpec(uids, exportOne, strict).Success?
    ensures forall k :: k in BatchSpec(uids, exportOne, strict).value.artifacts <==>
      exists i :: 0 <= i < |uids| && ExportedArtifact(uids, exportOne, i, k)
    ensures forall k, p :: k in BatchSpec(uids, exportOne, strict).value.artifacts ==>
      (p in BatchSpec(uids, exportOne, strict).value.artifacts[k] <==>
        exists i :: 0 <= i < |uids| && ExportedArtifact(uids, exportOne, i, k) && p in exportOne(uids[i]).outcome.value.artifacts[k])
    decreases |uids|
  {
    if uids != [] {
      var init := uids[..|uids| - 1];
      AccumulateNext(uids, exportOne, strict);
      ArtifactsAccumulated(init, exportOne, strict);
      forall k
        ensures var after := BatchSpec(uids, exportOne, strict).value.artifacts;
          (k in after <==> exists i :: 0 <= i < |uids| && ExportedArtifact(uids, exportOne, i, k)) &&
          (k in after ==> forall p :: p in after[k] <==>
            exists i :: 0 <= i < |uids| && ExportedArtifact(uids, exportOne, i, k) && p in exportOne(uids[i]).outcome.value.artifacts[k])
      {
        ArtifactsAccumulatedKey(uids, exportOne, k, BatchSpec(init, exportOne, strict).value.artifacts,
                                BatchSpec(uids, exportOne, strict).value.artifacts);
      }
    }
  }

  /** With a limit of 3, a catalog of five runs whose fourth raises: the fourth is never exported. */
  lemma LimitStopsBeforeLaterRuns(a: string, b: string, c: string, d: string, e: string,
                                  exportRun: string -> Attempt)
    requires forall i :: 0 <= i < 3 ==> !RaisesAt([a, b, c], exportRun, i)
    requires exportRun(d).outcome.None?
    ensures Visited([a, b, c, d, e], Some(3)) == [a, b, c]
    ensures BatchSpec(Visited([a, b, c, d, e], Some(3)), exportRun, true) == BatchSpec([a, b, c], exportRun, true)
    ensures BatchSpec(Visited([a, b, c, d, e], Some(3)), exportRun, true).Success?
    ensures BatchSpec([a, b, c, d, e], exportRun, true).Failure?
  {
    assert [a, b, c, d, e][..3] == [a, b, c];
    BatchFailsIff([a, b, c], exportRun, true);
    BatchFailsIff([a, b, c, d, e], exportRun, true);
    assert RaisesAt([a, b, c, d, e], exportRun, 3);
  }

  /**
   * `a` is what exporting `stream` gives the batch: no outcome exactly when
   * the run raises, and, when it returns, the documents names it created.
   */
  ghost predicate AttemptOf(a: Attempt, stream: seq<Entry>, o: Options, c: Collaborators) {
    (a.outcome.None? <==> ExportRunSpec(stream, o, c).Failure?) &&
    (ExportRunSpec(stream, o, c).Success? ==> NameSet(a.name) == ExportRunSpec(stream, o, c).value.created)
  }

  /**
   * An attempt that agrees with the run's export has no outcome exactly when
   * some document of the run raises; when the run returns, its name is that
   * of its start document, the stream's only start, under documents written
   * outside fill mode.
   */
  lemma AttemptOfRun(a: Attempt, stream: seq<Entry>, o: Options, c: Collaborators)
    requires AttemptOf(a, stream, o, c)
    ensures a.outcome.None? <==> exists i :: 0 <= i < |stream| && RunExport.RaisesAt(stream, i, o, c)
    ensures a.outcome.Some? && !o.noDocuments && o.external != Fill &&
            |stream| > 0 && stream[0].kind == Start && "uid" in stream[0].doc &&
            (forall i :: 1 <= i < |stream| ==> stream[i].kind != Start) ==>
      a.name == Some(DocumentsName(stream[0].doc["uid"]))
  {
    ExportRunFailsIff(stream, o, c);
    if a.outcome.Some? && !o.noDocuments && o.external != Fill &&
       |stream| > 0 && stream[0].kind == Start && "uid" in stream[0].doc &&
       (forall i :: 1 <= i < |stream| ==> stream[i].kind != Start) {
      CreatedNames(stream, o, c);
      CreatedInOneStart(stream, o, c);
      assert NameSet(a.name) == {DocumentsName(stream[0].doc["uid"])};
      assert DocumentsName(stream[0].doc["uid"]) in NameSet(a.name);
    }
  }
}
